/**
  Runs that wait for ever. The results of `io_uring_submit` are ignored, so an entry that it does not
  accept stays in the submission queue until another operation submits; if there is none, `run` waits on
  an empty ring. When that happens, exactly.
 */
module RuntimeHangs {
  import opened Programs
  import opened Runtime
  import opened RuntimeInvariant
  import opened RuntimeSafety
  import opened RuntimeHistory
  import opened RuntimeTheorems

  /** `run` waits, and the kernel has nothing that could complete. */
  predicate Hung(s: State) {
    s.phase.Waiting? && s.stack == [] && s.flying == multiset{} && s.cq == []
  }

  /** Nothing ever happens again. */
  lemma {:induction false} HungForEver(s: State, cs: seq<Choice>)
    requires Hung(s)
    ensures Exec(s, cs) == Ok(s)
    decreases |cs|
  {
    if cs != [] {
      if Allowed(s, cs[0]) {
        assert cs[0].WaitError?;
      }
      HungForEver(s, cs[1..]);
    }
  }

  /** Some continuation of the run dispatches a completion. */
  ghost predicate CanDispatch(s: State) {
    exists cs :: Dispatches(s, cs)
  }

  predicate Dispatches(s: State, cs: seq<Choice>) {
    Exec(s, cs).Ok? && Exec(s, cs).state.phase.Dispatching?
  }

  /** While `run` waits, it can still dispatch something if and only if some entry that is outstanding has left the
      submission queue. */
  lemma WaitsForEverOrDispatches(cs: seq<Choice>, s: State)
    requires Reached(s, cs) && s.phase.Waiting?
    ensures CanDispatch(s) <==> !Hung(s)
    ensures Hung(s) <==> Pending(s) == multiset(s.sq)
  {
    hide Inv;
    RunsNeverFault(cs);
    assert s.stack == [] by { InvFrames(s); WaitingStack(s); }
    HungPending(s);
    hide Pending;
    if Hung(s) {
      forall ds ensures !Dispatches(s, ds) {
        HungForEver(s, ds);
      }
    } else {
      var ds := Reviving(s);
      assert Dispatches(s, ds);
    }
  }

  lemma HungPending(s: State)
    requires s.phase.Waiting? && s.stack == []
    ensures Hung(s) <==> Pending(s) == multiset(s.sq)
  {
    if !Hung(s) {
      var u;
      if s.cq != [] {
        u := s.cq[0].user;
      } else {
        u :| u in s.flying;
      }
      assert Pending(s)[u] > multiset(s.sq)[u];
    }
  }

  /** The rest of a run up to the next dispatch. */
  lemma Reviving(s: State) returns (ds: seq<Choice>)
    requires Inv(s) && s.phase.Waiting? && s.stack == [] && !Hung(s)
    ensures Dispatches(s, ds)
  {
    hide Inv;
    if s.cq != [] {
      ds := [WaitOk];
      Takes(s);
    } else {
      var u :| u in s.flying;
      var s1 := KernelCompletes(s, u, 0);
      StepKeeps(s, Completes(u, 0));
      assert Inv(s1) && Step(s, Completes(u, 0)) == Ok(s1);
      Takes(s1);
      ds := [Completes(u, 0), WaitOk];
      assert ds[1..] == [WaitOk];
      hide Allowed, Step;
      assert Allowed(s, Completes(u, 0)) by { AlwaysCompletes(s, u); }
      assert Exec(s, ds) == Exec(s1, [WaitOk]) by { AllowedEnabled(s, ds[0]); }
    }
  }

  lemma AlwaysCompletes(s: State, u: UserData)
    requires u in s.flying
    ensures Allowed(s, Completes(u, 0))
  {
  }

  lemma Takes(s: State)
    requires Inv(s) && s.phase.Waiting? && s.cq != []
    ensures Dispatches(s, [WaitOk])
  {
    hide Inv;
    StepKeeps(s, WaitOk);
    DispatchPhase(s);
    hide Dispatch;
    assert [WaitOk][1..] == [];
    assert Exec(Step(s, WaitOk).state, []) == Step(s, WaitOk);
  }

  /** In a hung run every operation at the end of an await link is still in the submission queue, and so is the
      marker if the root has ended. At least one of them is there. */
  lemma HungMeansQueued(cs: seq<Choice>, s: State)
    requires Reached(s, cs) && Hung(s)
    ensures Inv(s) && s.sq != []
    ensures forall id :: id in s.frames && Active(s.frames[id]) ==>
              var t := AwaitEnd(s, id);
              t in s.frames && s.frames[t].status.OnIo? && Awaiter(OpId(t, s.frames[t].status.op)) in s.sq
    ensures RootEnded(s) ==> Marker in s.sq
  {
    RunsNeverFault(cs);
    ShutdownExact(cs, s);
    hide RingOk, HistOk, LogOk, SeenOk;
    forall id | id in s.frames && Active(s.frames[id])
      ensures var t := AwaitEnd(s, id);
              t in s.frames && s.frames[t].status.OnIo? && Awaiter(OpId(t, s.frames[t].status.op)) in s.sq
    {
      NoLostWakeup(cs, s, id);
    }
    var r := s.phase.root;
    assert PhaseOk(s) && LifeOk(r, s.frames[r], IsRoot(s, r));
    assert Active(s.frames[r]) || RootEnded(s);
  }

  /** If no submit of the run fails, it never hangs. */
  lemma SubmitsNeverHang(cs: seq<Choice>, s: State)
    requires Reached(s, cs) && SubmitsWork(cs)
    ensures !Hung(s)
  {
    SubmittedAll(INITIAL, cs);
    if Hung(s) {
      HungMeansQueued(cs, s);
    }
  }

  // ---- Two runs that hang. ----

  lemma ExecThree(s: State, a: Choice, b: Choice, c: Choice, s1: State, s2: State, s3: State)
    requires Allowed(s, a) && Step(s, a) == Ok(s1)
    requires Allowed(s1, b) && Step(s1, b) == Ok(s2)
    requires Allowed(s2, c) && Step(s2, c) == Ok(s3)
    ensures Exec(s, [a, b, c]) == Ok(s3)
  {
    hide Allowed, Step;
    assert [a, b, c][1..] == [b, c] && [b, c][1..] == [c] && [c][1..] == [];
    AllowedEnabled(s, a);
    AllowedEnabled(s1, b);
    AllowedEnabled(s2, c);
    assert Exec(s3, []) == Ok(s3);
    assert Exec(s2, [c]) == Ok(s3);
    assert Exec(s1, [b, c]) == Ok(s3);
  }

  lemma RunOpens(prog: Program)
    ensures Allowed(INITIAL, StartRun(prog)) && Step(INITIAL, StartRun(prog)) == Ok(BlockRun(INITIAL, prog))
  {
  }

  lemma RunReturns(s: State)
    requires Enabled(s, Return)
    ensures Allowed(s, Return) && Step(s, Return) == Ok(NativeReturn(s))
  {
  }

  /** What `block_run` leaves in a fresh context. */
  lemma FirstRoot(prog: Program)
    ensures var s, r := BlockRun(INITIAL, prog), Root(0);
            && s.frames == map[r := Fresh(prog).(attached := true, status := Running)] && s.stack == [r]
            && s.sq == [] && s.flying == multiset{} && s.cq == [] && s.phase == Starting(r)
  {
  }

  /** The submit of the first operation fails. */
  lemma WaitsQueued(s: State)
    requires HasTop(s) && s.sq == [] && Next(s.frames[Top(s)]).AwaitIo?
    ensures Allowed(s, Act(0)) && Step(s, Act(0)) == Ok(ActIo(s, 0))
    ensures var s' := ActIo(s, 0);
            && s'.stack == s.stack[..|s.stack| - 1] && s'.flying == s.flying && s'.cq == s.cq && s'.phase == s.phase
            && s'.frames.Keys == s.frames.Keys && s'.frames[Top(s)].value == s.frames[Top(s)].value
            && s'.frames[Top(s)].ex == s.frames[Top(s)].ex
  {
    hide Receive;
  }

  /** A lost wakeup: the submit of the root's only operation fails. */
  lemma LostWakeup() returns (cs: seq<Choice>, s: State)
    ensures Reached(s, cs) && Hung(s) && !RootEnded(s)
  {
    hide Step, Allowed, Exec, BlockRun, ActIo;
    var prog: Program := h => AwaitIo;
    RunOpens(prog);
    FirstRoot(prog);
    var s1 := BlockRun(INITIAL, prog);
    WaitsQueued(s1);
    var s2 := ActIo(s1, 0);
    RunReturns(s2);
    s := NativeReturn(s2);
    cs := [StartRun(prog), Act(0), Return];
    ExecThree(INITIAL, cs[0], cs[1], cs[2], s1, s2, s);
  }

  lemma NoLocals(s: State)
    requires HasTop(s) && s.frames[Top(s)].vars == map[]
    ensures AfterLocals(s) == s && LocalsOwnable(s)
  {
    assert AfterLocals(s).frames == s.frames;
  }

  /** A root without locals ends, and the submit of its marker fails. */
  lemma EndsQueued(s: State, v: int)
    requires HasTop(s) && |s.sq| < SQ_ENTRIES && Next(s.frames[Top(s)]) == CoReturn(v)
    requires var f := s.frames[Top(s)]; f.vars == map[] && f.caller.None? && !f.daemon && f.attached
    ensures Allowed(s, Act(0)) && Step(s, Act(0)).Ok?
    ensures var s' := Step(s, Act(0)).state;
            && s'.frames == s.frames[Top(s) := Finished(s, Value(v)).(status := Destroyed)]
            && s' == s.(frames := s'.frames, stack := s.stack[..|s.stack| - 1], sq := s.sq + [Marker])
  {
    hide Step, Allowed, Advance, ActEnd, FinalSuspend, AfterLocals, LocalsOwnable, Finished, Injective, Submit;
    NoLocals(s);
    InjectiveEmpty();
    MayReturn(s, v);
    EndResult(s, Value(v), 0);
    RootEndsResult(s, Value(v), 0);
    NoneAccepted(s.(sq := s.sq + [Marker]));
    assert SetFrame(s, Top(s), Finished(s, Value(v))) == AtFinal(s, Value(v));
  }

  /** A body that returns, and holds no task, may do so while there is an entry for the marker. */
  lemma MayReturn(s: State, v: int)
    requires HasTop(s) && |s.sq| < SQ_ENTRIES && Next(s.frames[Top(s)]) == CoReturn(v) && s.frames[Top(s)].vars == map[]
    ensures Allowed(s, Act(0)) && Step(s, Act(0)) == ActEnd(s, Value(v), 0)
  {
    hide ActEnd;
  }

  lemma InjectiveEmpty()
    ensures Injective(map[])
  {
  }

  lemma NoneAccepted(s: State)
    ensures Submit(s, 0) == s
  {
    assert s.sq[0..] == s.sq && s.sq[..0] == [];
  }

  /** A lost shutdown: the root has ended, and the submit of its marker fails. */
  lemma LostShutdown() returns (cs: seq<Choice>, s: State)
    ensures Reached(s, cs) && Hung(s) && RootEnded(s)
  {
    hide Step, Allowed, Exec, BlockRun;
    var prog: Program := h => CoReturn(0);
    RunOpens(prog);
    FirstRoot(prog);
    var s1 := BlockRun(INITIAL, prog);
    EndsQueued(s1, 0);
    var s2 := Step(s1, Act(0)).state;
    RunReturns(s2);
    s := NativeReturn(s2);
    cs := [StartRun(prog), Act(0), Return];
    ExecThree(INITIAL, cs[0], cs[1], cs[2], s1, s2, s);
  }
}
