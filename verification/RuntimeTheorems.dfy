/** What holds over whole runs of the runtime. */
module RuntimeTheorems {
  import opened Wrappers
  import opened Programs
  import opened Runtime
  import opened RuntimeInvariant
  import opened RuntimeFrames
  import opened RuntimeSafety
  import opened RuntimeHistory

  lemma AllowedEnabled(s: State, c: Choice)
    requires Allowed(s, c)
    ensures Enabled(s, c)
  {
  }

  // ---- Safety of every run. ----

  lemma {:induction false} ExecKeeps(s: State, cs: seq<Choice>)
    requires Inv(s)
    ensures Exec(s, cs).Ok? && Inv(Exec(s, cs).state)
    decreases |cs|
  {
    hide Inv, Step, Enabled, Disciplined, NoEntryForMarker;
    if cs != [] {
      if Allowed(s, cs[0]) {
        StepKeeps(s, cs[0]);
        ExecKeeps(Step(s, cs[0]).state, cs[1..]);
      } else {
        ExecKeeps(s, cs[1..]);
      }
    }
  }

  /** A state that some run reaches from the start. */
  ghost predicate Reached(s: State, cs: seq<Choice>) {
    Exec(INITIAL, cs) == Ok(s)
  }

  /** No run ever faults: no frame is resumed while active or done, read or destroyed after it was
      destroyed, read before it has an outcome, and no completion points into a frame that is not
      waiting for it. */
  lemma RunsNeverFault(cs: seq<Choice>)
    ensures Exec(INITIAL, cs).Ok? && Inv(Exec(INITIAL, cs).state)
  {
    InitialInv();
    ExecKeeps(INITIAL, cs);
  }

  /** The one way to fault: the root of a run ends while the submission queue is full. */
  lemma FaultsOnlyWithoutEntry(s: State, c: Choice)
    requires Inv(s) && Enabled(s, c) && Disciplined(s, c)
    ensures Step(s, c).Fault? <==> NoEntryForMarker(s, c)
    ensures NoEntryForMarker(s, c) ==> Step(s, c) == Fault(NullSqe)
  {
    hide Inv;
    if NoEntryForMarker(s, c) {
      EndWithoutEntry(s, c.accept, OutcomeOf(Next(s.frames[Top(s)])));
    } else {
      hide Enabled, Disciplined, NoEntryForMarker;
      StepKeeps(s, c);
    }
  }

  lemma EndWithoutEntry(s: State, accept: nat, o: Outcome)
    requires Inv(s) && Enabled(s, Act(accept)) && Disciplined(s, Act(accept)) && NoEntryForMarker(s, Act(accept))
    requires o == OutcomeOf(Next(s.frames[Top(s)]))
    ensures Advance(s, accept) == Fault(NullSqe)
  {
    hide Inv, FramesInv, Enabled, Step, LifeOk, ActEnd, FinalSuspend;
    InvFrames(s);
    TopInjective(s);
    TopFacts(s);
    RunsAttached(Top(s), s.frames[Top(s)], IsRoot(s, Top(s)));
    assert LocalsOwnable(s);
    hide Disciplined;
    EndResult(s, o, accept);
    assert Advance(s, accept) == ActEnd(s, o, accept);
    hide Advance, LocalsOwnable;
    FinishFaults(SetFrame(AfterLocals(s), Top(s), Finished(s, o)), accept);
  }

  lemma InvFrames(s: State)
    requires Inv(s)
    ensures FramesInv(s) && Histories(s)
  {
  }

  lemma FinishFaults(s: State, accept: nat)
    requires HasTop(s) && |s.sq| >= SQ_ENTRIES
    requires var f := s.frames[Top(s)]; f.caller.None? && !f.daemon && f.attached
    ensures FinalSuspend(s, accept) == Fault(NullSqe)
  {
  }

  // ---- No lost wakeup. ----

  ghost function Deeper(s: State, id: Id): set<Id> {
    set k | k in s.frames && Depth(k) > Depth(id)
  }

  /** Where the await links from `id` end. */
  ghost function AwaitEnd(s: State, id: Id): Id
    requires LinksOk(s) && id in s.frames
    decreases Deeper(s, id)
  {
    if s.frames[id].status.OnTask? then
      var c := s.frames[id].status.callee;
      assert LinkOk(s, id);
      assert c in Deeper(s, id) && c !in Deeper(s, c) && Deeper(s, c) <= Deeper(s, id);
      AwaitEnd(s, c)
    else id
  }

  lemma {:induction false} AwaitEndActive(s: State, id: Id)
    requires LinksOk(s) && id in s.frames && Active(s.frames[id])
    ensures var t := AwaitEnd(s, id);
            t in s.frames && Active(s.frames[t]) && !s.frames[t].status.OnTask?
    decreases Deeper(s, id)
  {
    if s.frames[id].status.OnTask? {
      var c := s.frames[id].status.callee;
      assert LinkOk(s, id);
      assert c in Deeper(s, id) && c !in Deeper(s, c) && Deeper(s, c) <= Deeper(s, id);
      AwaitEndActive(s, c);
    }
  }

  lemma WakeupDue(s: State, id: Id)
    requires Inv(s) && s.stack == [] && id in s.frames && Active(s.frames[id])
    ensures var t := AwaitEnd(s, id);
            && t in s.frames && s.frames[t].status.OnIo?
            && var u := Awaiter(OpId(t, s.frames[t].status.op));
               Pending(s)[u] == 1 && (u in s.flying + Users(Unhandled(s)) <==> u !in s.sq)
  {
    AwaitEndActive(s, id);
    var t := AwaitEnd(s, id);
    assert !IsRunning(s, t);
    var u := Awaiter(OpId(t, s.frames[t].status.op));
    assert Pending(s)[u] == Expected(s, u);
    hide Inv;
    assert u in s.sq <==> u in multiset(s.sq);
  }

  /** Whenever no coroutine runs, the await links of every unfinished task end in a frame whose I/O
      operation is outstanding, exactly once. The wakeup is in flight or completed exactly when the
      operation has left the submission queue. */
  lemma NoLostWakeup(cs: seq<Choice>, s: State, id: Id)
    requires Reached(s, cs) && s.stack == [] && id in s.frames && Active(s.frames[id])
    ensures Inv(s)
    ensures var t := AwaitEnd(s, id);
            && t in s.frames && s.frames[t].status.OnIo?
            && var u := Awaiter(OpId(t, s.frames[t].status.op));
               Pending(s)[u] == 1 && (u in s.flying + Users(Unhandled(s)) <==> u !in s.sq)
  {
    RunsNeverFault(cs);
    hide Inv;
    WakeupDue(s, id);
  }

  lemma EmptyQueueKept(s: State, accept: nat)
    requires HasTop(s) && s.sq == [] && accept >= 1
    ensures Advance(s, accept).Ok? ==> Advance(s, accept).state.sq == []
  {
    hide Receive, Resume, ActEnd, Exchange;
    forall s1: State, h ensures Resume(s1, h).Ok? ==> Resume(s1, h).state.sq == s1.sq {
      ResumeQueue(s1, h);
    }
    match Next(s.frames[Top(s)])
    case CoReturn(v) => EndQueue(s, Value(v), accept);
    case CoThrow(e) => EndQueue(s, Exception(e), accept);
    case _ =>
  }

  lemma ResumeQueue(s: State, h: Id)
    ensures Resume(s, h).Ok? ==> Resume(s, h).state.sq == s.sq
  {
    hide Receive;
  }

  lemma EndQueue(s: State, o: Outcome, accept: nat)
    requires HasTop(s) && s.sq == [] && accept >= 1
    ensures ActEnd(s, o, accept).Ok? ==> ActEnd(s, o, accept).state.sq == []
  {
    hide Receive, Resume, Swept;
    forall s1: State, h ensures Resume(s1, h).Ok? ==> Resume(s1, h).state.sq == s1.sq {
      ResumeQueue(s1, h);
    }
  }

  /** No `io_uring_submit` of the run fails. */
  predicate SubmitsWork(cs: seq<Choice>) {
    forall i :: 0 <= i < |cs| && cs[i].Act? ==> cs[i].accept >= 1
  }

  /** When no `io_uring_submit` fails nothing stays queued, so every wakeup is with the kernel. */
  lemma {:induction false} SubmittedAll(s: State, cs: seq<Choice>)
    requires s.sq == [] && Exec(s, cs).Ok? && SubmitsWork(cs)
    ensures Exec(s, cs).state.sq == []
    decreases |cs|
  {
    if cs != [] {
      assert SubmitsWork(cs[1..]);
      if Allowed(s, cs[0]) {
        if cs[0].Act? {
          EmptyQueueKept(s, cs[0].accept);
        }
        hide Allowed, SubmitsWork;
        SubmittedAll(Step(s, cs[0]).state, cs[1..]);
      } else {
        SubmittedAll(s, cs[1..]);
      }
    }
  }

  // ---- Links. ----

  /** In every reachable state an unfinished task with a stored caller is awaited by exactly that
      frame, the awaiting frame is its creator, no frame is awaited twice, and no frame on the native
      stack is suspended. */
  lemma LinksConsistent(cs: seq<Choice>, s: State)
    requires Reached(s, cs)
    ensures forall id :: id in s.frames && Active(s.frames[id]) && s.frames[id].caller.Some? ==>
              var c := s.frames[id].caller.value;
              id.Child? && c == id.parent && c in s.frames && s.frames[c].status == OnTask(id) && c !in s.stack
    ensures forall id :: id in s.frames && s.frames[id].status.OnTask? ==>
              var c := s.frames[id].status.callee;
              c in s.frames && Active(s.frames[c]) && s.frames[c].caller == Some(id)
    ensures forall a, b :: a in s.frames && b in s.frames && s.frames[a].status.OnTask? ==>
              s.frames[b].status == s.frames[a].status ==> a == b
    ensures forall i :: 0 <= i < |s.stack| ==> s.stack[i] in s.frames && s.frames[s.stack[i]].status.Running?
    ensures forall i, j :: 0 <= i < j < |s.stack| ==> s.stack[i] != s.stack[j]
  {
    RunsNeverFault(cs);
    forall id | id in s.frames ensures LinkOk(s, id) {
    }
    forall i | 0 <= i < |s.stack| ensures IsRunning(s, s.stack[i]) {
      assert s.stack[i] in s.stack;
    }
    hide HeldOk, LivesOk, TreeOk, RingOk, HistOk, LogOk, SeenOk;
  }

  // ---- Refinement to direct-style calls. ----

  /** The frame holds the outcome that plain recursive calls give on the results in the log. */
  ghost predicate EndsAsDirect(f: Frame, id: Id, log: IoLog) {
    && Ends(Next(f))
    && HoldsOutcome(f, OutcomeOf(Next(f)))
    && Yields(f.prog, id, [], OutcomeOf(Next(f)), log)
  }

  /** Whatever the order of completions, every task that has ended holds the outcome that plain
      recursive calls give on the same I/O results. */
  lemma DirectStyle(cs: seq<Choice>, s: State, id: Id)
    requires Reached(s, cs) && id in s.frames && Ended(s.frames[id])
    ensures EndsAsDirect(s.frames[id], id, s.log)
  {
    hide Inv;
    RunsNeverFault(cs);
    EndedDirectly(s, id);
  }

  lemma EndedDirectly(s: State, id: Id)
    requires Inv(s) && id in s.frames && Ended(s.frames[id])
    ensures EndsAsDirect(s.frames[id], id, s.log)
  {
    hide Faithful, VarsOk, Yields;
    var f := s.frames[id];
    assert LifeOk(id, f, IsRoot(s, id));
    FaithfulFact(s, id);
    FaithfulYields(f.prog, id, f.hist, 0, s.log);
    assert f.hist[..0] == [];
  }

  lemma {:induction false} HistoriesAgree(prog: Program, id: Id, h1: seq<Input>, h2: seq<Input>, log1: IoLog,
      log2: IoLog, k: nat)
    requires Faithful(prog, id, h1, log1) && Faithful(prog, id, h2, log2) && Compatible(log1, log2)
    requires k <= |h1| && k <= |h2|
    ensures h1[..k] == h2[..k]
  {
    if k > 0 {
      HistoriesAgree(prog, id, h1, h2, log1, log2, k - 1);
      assert Answers(prog, id, h1[..k - 1], h1[k - 1], log1);
      assert Answers(prog, id, h2[..k - 1], h2[k - 1], log2);
      AnswersUnique(prog, id, h1[..k - 1], h1[k - 1], h2[k - 1], log1, log2);
      assert h1[..k] == h1[..k - 1] + [h1[k - 1]];
      assert h2[..k] == h2[..k - 1] + [h2[k - 1]];
    }
  }

  function RootOf(id: Id): Id {
    if id.Root? then id else RootOf(id.parent)
  }

  /** A task is the same task in every run: two runs that start the same body and do not disagree
      about an I/O result create the same children, and feed each of them the same inputs. */
  lemma {:induction false} SameTask(s1: State, s2: State, id: Id)
    requires Inv(s1) && Inv(s2) && Compatible(s1.log, s2.log) && id in s1.frames && id in s2.frames
    requires RootOf(id) in s1.frames && RootOf(id) in s2.frames
    requires s1.frames[RootOf(id)].prog == s2.frames[RootOf(id)].prog
    ensures s1.frames[id].prog == s2.frames[id].prog
    ensures s1.frames[id].hist <= s2.frames[id].hist || s2.frames[id].hist <= s1.frames[id].hist
  {
    hide Inv, Faithful;
    if id.Child? {
      BornFact(s1, id);
      BornFact(s2, id);
      SameTask(s1, s2, id.parent);
      var h1, h2 := s1.frames[id.parent].hist, s2.frames[id.parent].hist;
      assert h1[..id.birth] == h2[..id.birth];
    }
    var f1, f2 := s1.frames[id], s2.frames[id];
    FaithfulFact(s1, id);
    FaithfulFact(s2, id);
    var k := if |f1.hist| < |f2.hist| then |f1.hist| else |f2.hist|;
    HistoriesAgree(f1.prog, id, f1.hist, f2.hist, s1.log, s2.log, k);
    assert f1.hist[..|f1.hist|] == f1.hist && f2.hist[..|f2.hist|] == f2.hist;
  }

  lemma BornFact(s: State, id: Id)
    requires Inv(s) && id.Child? && id in s.frames
    ensures id.parent in s.frames && Born(s.frames[id.parent], id.birth, s.frames[id])
  {
    hide StackOk, PhaseOk, LinksOk, LivesOk, HeldOk, RingOk, HistOk, LogOk, SeenOk;
    assert id == Child(id.parent, id.birth);
  }

  lemma FaithfulFact(s: State, id: Id)
    requires Inv(s) && id in s.frames
    ensures Faithful(s.frames[id].prog, id, s.frames[id].hist, s.log)
  {
    hide FramesInv, RingOk, LogOk, SeenOk, Faithful;
  }

  /** Completion order does not matter: if two runs end the same task, it ends the same way. */
  lemma CompletionOrderIrrelevant(cs1: seq<Choice>, s1: State, cs2: seq<Choice>, s2: State, id: Id)
    requires Reached(s1, cs1) && Reached(s2, cs2) && Compatible(s1.log, s2.log)
    requires id in s1.frames && id in s2.frames && Ended(s1.frames[id]) && Ended(s2.frames[id])
    requires RootOf(id) in s1.frames && RootOf(id) in s2.frames
    requires s1.frames[RootOf(id)].prog == s2.frames[RootOf(id)].prog
    ensures s1.frames[id].value == s2.frames[id].value && s1.frames[id].ex == s2.frames[id].ex
  {
    RunsNeverFault(cs1);
    RunsNeverFault(cs2);
    DirectStyle(cs1, s1, id);
    DirectStyle(cs2, s2, id);
    hide HoldsOutcome;
    SameTask(s1, s2, id);
    YieldsUnique(s1.frames[id].prog, id, OutcomeOf(Next(s1.frames[id])), OutcomeOf(Next(s2.frames[id])), s1.log,
      s2.log);
    OutcomeFixes(s1.frames[id], s2.frames[id], OutcomeOf(Next(s1.frames[id])));
  }

  lemma OutcomeFixes(f1: Frame, f2: Frame, o: Outcome)
    requires HoldsOutcome(f1, o) && HoldsOutcome(f2, o)
    ensures f1.value == f2.value && f1.ex == f2.ex
  {
  }

  /** Every await of `this_context` received the context, at any depth and in any run. */
  lemma ContextNeverNull(cs: seq<Choice>, s: State, id: Id, k: nat)
    requires Reached(s, cs) && id in s.frames && k < |s.frames[id].hist|
    requires s.frames[id].prog(s.frames[id].hist[..k]).AwaitContext?
    ensures s.frames[id].hist[k] == ContextIs(true)
  {
    RunsNeverFault(cs);
    var f := s.frames[id];
    assert Answers(f.prog, id, f.hist[..k], f.hist[k], s.log);
  }

  // ---- Shutdown. ----

  /** The root of the present run has returned or thrown. */
  predicate RootEnded(s: State) {
    !s.phase.Idle? && !s.phase.Launching? && s.phase.root in s.frames && Ended(s.frames[s.phase.root])
  }

  /** `finish` has queued one marker for each `block_run` whose root has ended, and none otherwise;
      outside a run every one of them has been taken by the run it belongs to. A marker that is due is in
      flight or completed exactly when it has left the submission queue. */
  lemma ShutdownExact(cs: seq<Choice>, s: State)
    requires Reached(s, cs)
    ensures Markers(Handled(s)) + Pending(s)[Marker] ==
              s.runs - (if s.phase.Idle? || s.phase.Launching? || RootEnded(s) then 0 else 1)
    ensures s.phase.Idle? ==> Markers(s.seen) == s.runs && Pending(s)[Marker] == 0 && !s.running
    ensures s.phase.Waiting? && RootEnded(s) ==>
            Pending(s)[Marker] == 1 && (Marker in s.flying + Users(s.cq) <==> Marker !in s.sq)
  {
    RunsNeverFault(cs);
    assert Pending(s)[Marker] == Expected(s, Marker);
    if !s.phase.Idle? && !s.phase.Launching? {
      var r := s.phase.root;
      assert LifeOk(r, s.frames[r], IsRoot(s, r));
    }
  }

  /** `run` returns exactly when it has taken the marker, which is then the last completion seen;
      whatever completed after it stays in the ring. */
  lemma StopsOnMarkerOnly(cs: seq<Choice>, s: State, c: Choice)
    requires Reached(s, cs) && Allowed(s, c) && !s.phase.Idle? && !s.phase.Launching?
    ensures Step(s, c).Ok?
    ensures var s' := Step(s, c).state;
            s'.phase.Idle? <==> c.Return? && s.phase.Dispatching? && s.cq[0].user.Marker?
    ensures var s' := Step(s, c).state;
            s'.phase.Idle? ==>
              && RootEnded(s) && s.stack == []
              && s'.seen == s.seen + [s.cq[0]] && s'.cq == s.cq[1..]
  {
    RunsNeverFault(cs);
    StepKeeps(s, c);
    StopsStep(s, c);
  }

  lemma StopsStep(s: State, c: Choice)
    requires Inv(s) && Allowed(s, c) && Step(s, c).Ok? && !s.phase.Idle? && !s.phase.Launching?
    ensures var s' := Step(s, c).state;
            s'.phase.Idle? <==> c.Return? && s.phase.Dispatching? && s.cq[0].user.Marker?
    ensures Step(s, c).state.phase.Idle? ==>
              && RootEnded(s) && s.stack == []
              && Step(s, c).state.seen == s.seen + [s.cq[0]] && Step(s, c).state.cq == s.cq[1..]
  {
    hide Inv, RootEnded, Disciplined, NoEntryForMarker;
    StopFacts(s);
    if c.Act? {
      AdvanceLeavesLoop(s, c.accept);
      hide Advance;
    } else if c.WaitOk? {
      DispatchPhase(s);
      hide Dispatch;
    }
  }

  lemma StopFacts(s: State)
    requires Inv(s) && !s.phase.Idle? && !s.phase.Launching?
    ensures s.phase.Dispatching? ==>
            |s.cq| > 0 && (s.running <==> !s.cq[0].user.Marker?) && (!s.running ==> s.stack == [] && RootEnded(s))
  {
    var r := s.phase.root;
    assert PhaseOk(s);
    if s.phase.Dispatching? && !s.running {
      assert LifeOk(r, s.frames[r], IsRoot(s, r));
    }
  }

  lemma DispatchPhase(s: State)
    requires Enabled(s, WaitOk)
    ensures Dispatch(s).Ok? ==> Dispatch(s).state.phase == Dispatching(s.phase.root)
  {
    hide Receive;
  }

  /** The loop's side of the state is as before. */
  predicate SameLoop(s: State, s': State) {
    s'.phase == s.phase && s'.running == s.running && s'.cq == s.cq && s'.seen == s.seen
  }

  /** A coroutine's own actions never touch the loop's side. */
  lemma AdvanceLeavesLoop(s: State, accept: nat)
    requires HasTop(s)
    ensures Advance(s, accept).Ok? ==> SameLoop(s, Advance(s, accept).state)
  {
    hide ActEnd, ActLaunch, ActAwaitTask;
    match Next(s.frames[Top(s)])
    case Launch(b) => LaunchLeavesLoop(s, b, false);
    case LaunchDetached(b) => LaunchLeavesLoop(s, b, true);
    case AwaitTask(b, byMove) => AwaitLeavesLoop(s, b, byMove);
    case CoReturn(v) => EndLeavesLoop(s, Value(v), accept);
    case CoThrow(e) => EndLeavesLoop(s, Exception(e), accept);
    case _ =>
  }

  lemma ResumeLeavesLoop(s: State, h: Id)
    ensures Resume(s, h).Ok? ==> SameLoop(s, Resume(s, h).state)
  {
    hide Receive;
  }

  lemma LaunchLeavesLoop(s: State, b: nat, detached: bool)
    requires HasTop(s)
    ensures ActLaunch(s, b, detached).Ok? ==> SameLoop(s, ActLaunch(s, b, detached).state)
  {
    hide Receive, Resume;
    forall s1: State, h ensures Resume(s1, h).Ok? ==> SameLoop(s1, Resume(s1, h).state) {
      ResumeLeavesLoop(s1, h);
    }
  }

  lemma AwaitLeavesLoop(s: State, b: nat, byMove: bool)
    requires HasTop(s)
    ensures ActAwaitTask(s, b, byMove).Ok? ==> SameLoop(s, ActAwaitTask(s, b, byMove).state)
  {
    hide Receive, Resume;
    forall s1: State, h ensures Resume(s1, h).Ok? ==> SameLoop(s1, Resume(s1, h).state) {
      ResumeLeavesLoop(s1, h);
    }
  }

  lemma EndLeavesLoop(s: State, o: Outcome, accept: nat)
    requires HasTop(s)
    ensures ActEnd(s, o, accept).Ok? ==> SameLoop(s, ActEnd(s, o, accept).state)
  {
    hide Receive;
  }

  // ---- Dispatch. ----

  /** Taking a completion resumes precisely the frame that submitted the operation, with the result of
      that operation, for the first time; no other frame changes. */
  lemma DispatchExact(cs: seq<Choice>, s: State)
    requires Reached(s, cs) && Enabled(s, WaitOk) && s.cq[0].user.Awaiter?
    ensures Step(s, WaitOk).Ok?
    ensures var op, res, s' := s.cq[0].user.op, s.cq[0].res, Step(s, WaitOk).state;
            && op.id in s.frames && s.frames[op.id].status == OnIo(op.op) && op !in s.log
            && s'.frames == s.frames[op.id := Receive(s.frames[op.id], IoResult(res)).(status := Running, io := None)]
            && s'.stack == [op.id] && s'.phase == Dispatching(s.phase.root) && s'.log == s.log[op := res]
  {
    hide Inv, FramesInv, Histories, Dispatch;
    RunsNeverFault(cs);
    InvFrames(s);
    DispatchStep(s);
  }

  lemma DispatchStep(s: State)
    requires FramesInv(s) && Histories(s) && Enabled(s, WaitOk) && s.cq[0].user.Awaiter?
    ensures Dispatch(s).Ok?
    ensures var op, res, s' := s.cq[0].user.op, s.cq[0].res, Dispatch(s).state;
            && op.id in s.frames && s.frames[op.id].status == OnIo(op.op) && op !in s.log
            && s'.frames == s.frames[op.id := Receive(s.frames[op.id], IoResult(res)).(status := Running, io := None)]
            && s'.stack == [op.id] && s'.phase == Dispatching(s.phase.root) && s'.log == s.log[op := res]
  {
    hide FramesInv, Dispatch, RingOk, HistOk, LogOk, SeenOk;
    HeadDue(s);
    AwaiterTaken(s);
    WaitingStack(s);
    NotLogged(s, s.cq[0].user.op);
  }

  lemma WaitingStack(s: State)
    requires FramesInv(s) && s.phase.Waiting?
    ensures s.stack == []
  {
  }

  lemma NotLogged(s: State, op: OpId)
    requires Histories(s) && op.id in s.frames && op.op == |s.frames[op.id].hist|
    ensures op !in s.log
  {
  }

  /** No completion is handled twice, and what a frame received for an operation is the result of the
      completion handled for it. */
  lemma HandledOnce(cs: seq<Choice>, s: State, i: nat)
    requires Reached(s, cs) && i < |Handled(s)| && Handled(s)[i].user.Awaiter?
    ensures GaveResult(s, Handled(s)[i]) && Pending(s)[Handled(s)[i].user] == 0
    ensures forall j :: 0 <= j < |Handled(s)| && j != i ==> Handled(s)[j].user != Handled(s)[i].user
  {
    hide Inv;
    RunsNeverFault(cs);
    HandledGives(s, i);
  }

  /** The frame that submitted the operation has received the result of the completion. */
  predicate GaveResult(s: State, cqe: Cqe)
    requires cqe.user.Awaiter?
  {
    var op := cqe.user.op;
    op.id in s.frames && op.op < |s.frames[op.id].hist| && s.frames[op.id].hist[op.op] == IoResult(cqe.res)
  }

  lemma HandledGives(s: State, i: nat)
    requires Inv(s) && i < |Handled(s)| && Handled(s)[i].user.Awaiter?
    ensures GaveResult(s, Handled(s)[i]) && Pending(s)[Handled(s)[i].user] == 0
    ensures forall j :: 0 <= j < |Handled(s)| && j != i ==> Handled(s)[j].user != Handled(s)[i].user
  {
    var op := Handled(s)[i].user.op;
    assert op in s.log;
    assert Pending(s)[Awaiter(op)] == Expected(s, Awaiter(op));
    assert LifeOk(op.id, s.frames[op.id], IsRoot(s, op.id));
  }

  /** Conversely, every recorded result is the one given when there was no entry, or that of exactly one
      handled completion. */
  lemma RecordedOnce(cs: seq<Choice>, s: State, op: OpId) returns (i: nat)
    requires Reached(s, cs) && op in s.log && s.log[op] != NO_SQE_RESULT
    ensures i < |Handled(s)| && Handled(s)[i] == Cqe(Awaiter(op), s.log[op])
    ensures forall j :: 0 <= j < |Handled(s)| && Handled(s)[j].user == Awaiter(op) ==> j == i
  {
    RunsNeverFault(cs);
    assert SeenOk(s) && Users(Handled(s))[Awaiter(op)] == 1;
    UsersNone(Handled(s), Awaiter(op));
    hide Users;
    i :| 0 <= i < |Handled(s)| && Handled(s)[i].user == Awaiter(op);
  }

  /** What the kernel posts in a run, in order. */
  function Arrivals(s: State, cs: seq<Choice>): seq<Cqe>
    decreases |cs|
  {
    if cs == [] then []
    else if !Allowed(s, cs[0]) then Arrivals(s, cs[1..])
    else
      match Step(s, cs[0])
      case Fault(_) => []
      case Ok(s1) => ArrivalOf(cs[0]) + Arrivals(s1, cs[1..])
  }

  function ArrivalOf(c: Choice): seq<Cqe> {
    if c.Completes? then [Cqe(c.user, c.res)] else []
  }

  /** Completions are seen in the order in which they were posted, each once and none skipped, across any number
      of runs. */
  lemma {:induction false} CompletionsInOrder(s: State, cs: seq<Choice>)
    requires Exec(s, cs).Ok?
    ensures var s' := Exec(s, cs).state; s.seen <= s'.seen && s'.seen + s'.cq == s.seen + s.cq + Arrivals(s, cs)
    decreases |cs|
  {
    hide Allowed, Step, ArrivalOf;
    if cs != [] {
      if Allowed(s, cs[0]) {
        AllowedEnabled(s, cs[0]);
        StepInOrder(s, cs[0]);
        CompletionsInOrder(Step(s, cs[0]).state, cs[1..]);
      } else {
        CompletionsInOrder(s, cs[1..]);
      }
    }
  }

  lemma StepInOrder(s: State, c: Choice)
    requires Enabled(s, c) && Step(s, c).Ok?
    ensures var s' := Step(s, c).state; s.seen <= s'.seen && s'.seen + s'.cq == s.seen + s.cq + ArrivalOf(c)
  {
    hide Advance, Dispatch, NativeReturn, SameLoop;
    match c
    case Act(accept) => ActInOrder(s, accept);
    case WaitOk => DispatchLeavesRing(s);
    case Return => ReturnInOrder(s);
    case _ =>
  }

  lemma ActInOrder(s: State, accept: nat)
    requires HasTop(s) && Advance(s, accept).Ok?
    ensures var s' := Advance(s, accept).state; s'.cq == s.cq && s'.seen == s.seen
  {
    hide Advance;
    AdvanceLeavesLoop(s, accept);
  }

  lemma ReturnInOrder(s: State)
    requires Enabled(s, Return)
    ensures var s' := NativeReturn(s); s.seen <= s'.seen && s'.seen + s'.cq == s.seen + s.cq
  {
    if s.phase.Dispatching? {
      assert s.cq == [s.cq[0]] + s.cq[1..];
    }
  }

  lemma DispatchLeavesRing(s: State)
    requires Enabled(s, WaitOk) && Dispatch(s).Ok?
    ensures Dispatch(s).state.cq == s.cq && Dispatch(s).state.seen == s.seen
  {
    hide Receive;
  }
}
