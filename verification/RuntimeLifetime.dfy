/** Frames that have ended stay as they are, and frames that were destroyed are left alone. */
module RuntimeLifetime {
  import opened Wrappers
  import opened Programs
  import opened Runtime
  import opened RuntimeInvariant
  import opened RuntimeSafety
  import opened RuntimeHistory
  import opened RuntimeTheorems

  /** The body stays the same, what it has received stays received, and what has started has started. */
  ghost predicate Onward(f: Frame, f': Frame) {
    f'.prog == f.prog && f.hist <= f'.hist && (f'.status.Created? ==> f.status.Created?)
  }

  /** A finished promise is never written again, and a destroyed frame is never touched again. */
  ghost predicate Settled(f: Frame, f': Frame) {
    && Onward(f, f')
    && (f.status.Destroyed? ==> f' == f)
    && (f.status.Done? ==> f' == f || f' == f.(status := Destroyed))
  }

  /** The variables of a frame gain no handle of a frame that existed before. */
  ghost predicate GainsNone(s: State, f: Frame, f': Frame) {
    forall k :: k in f'.vars.Values && k in s.frames ==> k in f.vars.Values
  }

  ghost predicate AllSettled(s: State, s': State) {
    && (forall id :: id in s.frames ==>
       id in s'.frames && Settled(s.frames[id], s'.frames[id]) && GainsNone(s, s.frames[id], s'.frames[id]))
    && (forall id :: id in s'.frames && id !in s.frames ==> s'.frames[id].vars == map[])
  }

  /** What the next action leaves in the variables of the top frame. */
  lemma TopGainsNone(s: State, f': Frame)
    requires FramesInv(s) && HasTop(s) && !Ends(Next(s.frames[Top(s)])) && f'.vars == NextVars(Top(s), s.frames[Top(s)])
    ensures Next(s.frames[Top(s)]).Create? ==> Child(Top(s), |s.frames[Top(s)].hist|) !in s.frames
    ensures GainsNone(s, s.frames[Top(s)], f')
  {
    hide FramesInv, NextVars;
    FreshKid(s);
    TopFacts(s);
    VarsReceive(Top(s), s.frames[Top(s)], Unit);
  }

  /** The top frame goes on, and the unfinished or finished frame `kid` settles. */
  lemma TwoSettle(s: State, s': State, id: Id, f': Frame, kid: Id, k': Frame)
    requires id in s.frames && Active(s.frames[id]) && kid in s.frames && kid != id
    requires s'.frames == s.frames[id := f'][kid := k']
    requires Settled(s.frames[kid], k') && Onward(s.frames[id], f') && GainsNone(s, s.frames[id], f')
    requires k'.vars == s.frames[kid].vars
    ensures AllSettled(s, s')
  {
  }

  lemma OneSettles(s: State, s': State, id: Id, f': Frame)
    requires id in s.frames && Active(s.frames[id]) && s'.frames == s.frames[id := f']
    requires Onward(s.frames[id], f') && GainsNone(s, s.frames[id], f')
    ensures AllSettled(s, s')
  {
  }

  lemma DropSettles(s: State, v: nat)
    requires FramesInv(s) && HasTop(s) && Next(s.frames[Top(s)]) == Drop(v) && ActDrop(s, v).Ok?
    ensures AllSettled(s, ActDrop(s, v).state)
  {
    hide FramesInv, LifeOk;
    TopFacts(s);
    var id, s' := Top(s), ActDrop(s, v).state;
    TopGainsNone(s, s'.frames[id]) by { if v in s.frames[id].vars { KidFacts(s, v); } }
    if v in s.frames[id].vars {
      KidFacts(s, v);
      TwoSettle(s, s', id, s'.frames[id], s.frames[id].vars[v], s'.frames[s.frames[id].vars[v]]);
    } else {
      OneSettles(s, s', id, s'.frames[id]);
    }
  }

  lemma MoveAssignSettles(s: State, to: nat, from: nat)
    requires FramesInv(s) && HasTop(s) && Next(s.frames[Top(s)]) == MoveAssign(to, from) && Disciplined(s, Act(0))
    requires ActMoveAssign(s, to, from).Ok?
    ensures AllSettled(s, ActMoveAssign(s, to, from).state)
  {
    hide FramesInv, LifeOk;
    TopFacts(s);
    var id, s' := Top(s), ActMoveAssign(s, to, from).state;
    if to != from && to in s.frames[id].vars {
      KidFacts(s, to);
      TopGainsNone(s, s'.frames[id]);
      TwoSettle(s, s', id, s'.frames[id], s.frames[id].vars[to], s'.frames[s.frames[id].vars[to]]);
    } else {
      TopGainsNone(s, s'.frames[id]);
      OneSettles(s, s', id, s'.frames[id]);
    }
  }

  lemma LaunchSettles(s: State, v: nat, detached: bool)
    requires FramesInv(s) && HasTop(s) && Next(s.frames[Top(s)]) == (if detached then LaunchDetached(v) else Launch(v))
    requires Disciplined(s, Act(0))
    ensures ActLaunch(s, v, detached).Ok? && AllSettled(s, ActLaunch(s, v, detached).state)
  {
    hide FramesInv, LifeOk;
    TopFacts(s);
    KidFacts(s, v);
    LaunchResult(s, v, detached);
    hide ActLaunch;
    var id, kid, s' := Top(s), s.frames[Top(s)].vars[v], ActLaunch(s, v, detached).state;
    TopGainsNone(s, s'.frames[id]);
    TwoSettle(s, s', id, s'.frames[id], kid, s'.frames[kid]);
  }

  lemma AwaitSettles(s: State, v: nat, byMove: bool)
    requires FramesInv(s) && HasTop(s) && Next(s.frames[Top(s)]) == AwaitTask(v, byMove) && v in s.frames[Top(s)].vars
    ensures ActAwaitTask(s, v, byMove).Ok? && AllSettled(s, ActAwaitTask(s, v, byMove).state)
  {
    hide FramesInv;
    TopFacts(s);
    KidFacts(s, v);
    AwaitResult(s, v, byMove);
    hide ActAwaitTask;
    var id, kid := Top(s), s.frames[Top(s)].vars[v];
    if s.frames[kid].status.Done? {
      assert HoldsOutcome(s.frames[kid], OutcomeOf(Next(s.frames[kid])));
      hide LifeOk, NextVars;
      var s' := ActAwaitTask(s, v, byMove).state;
      TopGainsNone(s, s'.frames[id]);
      OneSettles(s, s', id, s'.frames[id]);
    } else {
      assert Active(s.frames[kid]) || s.frames[kid].status.Created?;
      hide LifeOk, NextVars;
      var s' := ActAwaitTask(s, v, byMove).state;
      TopGainsNone(s, s'.frames[id]);
      TwoSettle(s, s', id, s'.frames[id], kid, s'.frames[kid]);
    }
  }

  lemma LocalsSettle(s: State)
    requires HasTop(s) && LocalsOwnable(s) && s.frames[Top(s)].status.Running?
    ensures AllSettled(s, AfterLocals(s))
  {
    forall k | k in s.frames[Top(s)].vars.Values ensures Ownable(s, k) {
      var v :| v in s.frames[Top(s)].vars && s.frames[Top(s)].vars[v] == k;
    }
  }

  /** A final suspension changes active frames only, and fills no variable. */
  ghost predicate OnlyActive(s: State, s': State) {
    && s'.frames.Keys == s.frames.Keys
    && (forall id :: id in s.frames && !Active(s.frames[id]) ==> s'.frames[id] == s.frames[id])
    && (forall id :: id in s.frames ==> Onward(s.frames[id], s'.frames[id]))
    && (forall id :: id in s.frames ==> s'.frames[id].vars == s.frames[id].vars || s'.frames[id].vars == map[])
  }

  lemma FinalSettles(s: State, o: Outcome, accept: nat)
    requires FramesInv(s) && HasTop(s) && FinalSuspend(AtFinal(s, o), accept).Ok?
    requires s.frames[Top(s)].caller.None? && !s.frames[Top(s)].daemon ==> |s.sq| < SQ_ENTRIES
    ensures OnlyActive(s, FinalSuspend(AtFinal(s, o), accept).state)
  {
    hide FramesInv, FinalSuspend, LifeOk, OnlyActive, LinkOk;
    TopFacts(s);
    if s.frames[Top(s)].caller.Some? {
      CallerFacts(s);
      RunsEmpty(s);
      ToCallerResult(s, o, accept);
      BothChange(s, FinalSuspend(AtFinal(s, o), accept).state, Top(s), s.frames[Top(s)].caller.value);
    } else if s.frames[Top(s)].daemon {
      DaemonEndsResult(s, o, accept);
      BothChange(s, FinalSuspend(AtFinal(s, o), accept).state, Top(s), Top(s));
    } else {
      RunsAttached(Top(s), s.frames[Top(s)], IsRoot(s, Top(s)));
      RootEndsResult(s, o, accept);
      BothChange(s, FinalSuspend(AtFinal(s, o), accept).state, Top(s), Top(s));
    }
  }

  lemma DaemonEndsResult(s: State, o: Outcome, accept: nat)
    requires HasTop(s) && s.frames[Top(s)].caller.None? && s.frames[Top(s)].daemon
    ensures FinalSuspend(AtFinal(s, o), accept) == Ok(Pop(AtFinal(s, o)))
  {
  }

  lemma BothChange(s: State, s': State, id: Id, p: Id)
    requires id in s.frames && p in s.frames && Active(s.frames[id]) && Active(s.frames[p])
    requires id in s'.frames && p in s'.frames && s'.frames == s.frames[id := s'.frames[id]][p := s'.frames[p]]
    requires Onward(s.frames[id], s'.frames[id]) && Onward(s.frames[p], s'.frames[p])
    requires s'.frames[id].vars == map[] && (s'.frames[p].vars == s.frames[p].vars || s'.frames[p].vars == map[])
    ensures OnlyActive(s, s')
  {
  }

  lemma EndSettles(s: State, o: Outcome, accept: nat)
    requires FramesInv(s) && HasTop(s) && Ends(Next(s.frames[Top(s)])) && o == OutcomeOf(Next(s.frames[Top(s)]))
    requires Disciplined(s, Act(accept)) && !NoEntryForMarker(s, Act(accept))
    ensures ActEnd(s, o, accept).Ok? && AllSettled(s, ActEnd(s, o, accept).state)
  {
    EndKeeps(s, o, accept);
    hide FramesInv, ActEnd, FinalSuspend, LifeOk;
    TopFacts(s);
    TopInjective(s);
    EndResult(s, o, accept);
    LocalsKeep(s);
    LocalsSettle(s);
    EndFromSettles(s, o, accept);
  }

  lemma EndFromSettles(s: State, o: Outcome, accept: nat)
    requires HasTop(s) && HasTop(AfterLocals(s)) && FramesInv(AfterLocals(s)) && AllSettled(s, AfterLocals(s))
    requires Ends(Next(s.frames[Top(s)])) && !NoEntryForMarker(s, Act(accept))
    requires FinalSuspend(SetFrame(AfterLocals(s), Top(s), Finished(s, o)), accept).Ok?
    ensures AllSettled(s, FinalSuspend(SetFrame(AfterLocals(s), Top(s), Finished(s, o)), accept).state)
  {
    hide FramesInv, FinalSuspend, AtFinal, Settled, OnlyActive, AllSettled;
    var s1 := AfterLocals(s);
    assert s1.sq == s.sq && Top(s1) == Top(s) && s1.frames[Top(s)] == s.frames[Top(s)].(vars := map[]);
    assert SetFrame(s1, Top(s), Finished(s, o)) == AtFinal(s1, o) by { FinishedSame(s, s1, o); }
    hide AfterLocals, Finished;
    FinalSettles(s1, o, accept);
    SettleChain(s, s1, FinalSuspend(AtFinal(s1, o), accept).state);
  }

  lemma FinishedSame(s: State, s1: State, o: Outcome)
    requires HasTop(s) && HasTop(s1) && Top(s1) == Top(s) && s1.frames[Top(s)] == s.frames[Top(s)].(vars := map[])
    ensures SetFrame(s1, Top(s), Finished(s, o)) == AtFinal(s1, o)
  {
  }

  lemma SettleChain(s: State, s1: State, s2: State)
    requires AllSettled(s, s1) && OnlyActive(s1, s2)
    ensures AllSettled(s, s2)
  {
    hide GainsNone, Onward;
    forall id | id in s.frames ensures id in s2.frames && Settled(s.frames[id], s2.frames[id]) {
      assert Settled(s.frames[id], s1.frames[id]);
      OnwardChain(s.frames[id], s1.frames[id], s2.frames[id]);
    }
    GainsChain(s, s1, s2);
  }

  lemma OnwardChain(f: Frame, f1: Frame, f2: Frame)
    requires Onward(f, f1) && Onward(f1, f2)
    ensures Onward(f, f2)
  {
  }

  lemma GainsChain(s: State, s1: State, s2: State)
    requires AllSettled(s, s1) && OnlyActive(s1, s2)
    ensures forall id :: id in s.frames ==> id in s2.frames && GainsNone(s, s.frames[id], s2.frames[id])
    ensures forall id :: id in s2.frames && id !in s.frames ==> s2.frames[id].vars == map[]
  {
    hide Onward, Settled;
  }

  /** Over any step of any run, an outcome once stored is not changed, a finished frame can only be
      destroyed, a destroyed frame is not touched, and no variable gains the handle of a frame that existed. */
  lemma OutcomesSettle(cs: seq<Choice>, s: State, c: Choice)
    requires Reached(s, cs) && Allowed(s, c)
    ensures Step(s, c).Ok? && AllSettled(s, Step(s, c).state)
  {
    hide Inv;
    RunsNeverFault(cs);
    InvSettles(s, c);
  }

  lemma InvSettles(s: State, c: Choice)
    requires Inv(s) && Allowed(s, c)
    ensures Step(s, c).Ok? && Inv(Step(s, c).state) && AllSettled(s, Step(s, c).state)
  {
    StepKeeps(s, c);
    hide FramesInv, RingOk, HistOk, LogOk, SeenOk;
    StepSettles(s, c);
  }

  // ---- Ownership. ----

  ghost predicate Held(s: State, id: Id) {
    exists p :: p in s.frames && id in s.frames[p].vars.Values
  }

  /** In every reachable state each handle is in one task variable at most. A handle in a variable is that of a frame
      that its owner created and that was not destroyed; a handle that was given up (its variable was
      destroyed or assigned over, or it was detached or moved into an await) is in none. */
  lemma OneOwner(cs: seq<Choice>, s: State)
    requires Reached(s, cs)
    ensures forall p, v, q, w :: p in s.frames && q in s.frames && v in s.frames[p].vars && w in s.frames[q].vars ==>
              s.frames[p].vars[v] == s.frames[q].vars[w] ==> p == q && v == w
    ensures forall p, v :: p in s.frames && v in s.frames[p].vars ==>
              var k := s.frames[p].vars[v]; k.Child? && k.parent == p && k in s.frames && !s.frames[k].status.Destroyed?
    ensures forall p, k :: p in s.frames && k in GivenUp(s.frames[p].prog, p, s.frames[p].hist) ==> !Held(s, k)
    ensures forall p :: p in s.frames && s.frames[p].status.OnTask? && Next(s.frames[p]).AwaitTask? ==>
              Next(s.frames[p]).byMove ==> !Held(s, s.frames[p].status.callee)
  {
    hide Inv, FramesInv, OwnsWell, GivenUp;
    RunsNeverFault(cs);
    InvFrames(s);
    forall p | p in s.frames ensures OwnsWell(s, p) {
      OwnerFacts(s, p);
    }
    forall p, k | p in s.frames && k in GivenUp(s.frames[p].prog, p, s.frames[p].hist) ensures !Held(s, k) {
      OneHolder(s.frames[p].prog, p, s.frames[p].hist);
      HeldByParent(s, p, k);
    }
    forall p | p in s.frames && s.frames[p].status.OnTask? && Next(s.frames[p]).AwaitTask? && Next(s.frames[p]).byMove
      ensures !Held(s, s.frames[p].status.callee)
    {
      AwaitedChild(s, p);
      HeldByParent(s, p, s.frames[p].status.callee);
    }
    forall p, v, q, w | p in s.frames && q in s.frames && v in s.frames[p].vars && w in s.frames[q].vars
      && s.frames[p].vars[v] == s.frames[q].vars[w]
      ensures p == q && v == w
    {
      OneVariable(s, p, v, q, w);
    }
    forall p, v | p in s.frames && v in s.frames[p].vars
      ensures var k := s.frames[p].vars[v]; k.Child? && k.parent == p && k in s.frames && !s.frames[k].status.Destroyed?
    {
      OneVariable(s, p, v, p, v);
    }
  }

  lemma OneVariable(s: State, p: Id, v: nat, q: Id, w: nat)
    requires p in s.frames && q in s.frames && OwnsWell(s, p) && OwnsWell(s, q) && v in s.frames[p].vars
    requires w in s.frames[q].vars
    requires s.frames[p].vars[v] == s.frames[q].vars[w]
    ensures p == q && v == w
    ensures var k := s.frames[p].vars[v]; k.Child? && k.parent == p && k in s.frames && !s.frames[k].status.Destroyed?
  {
    hide GivenUp;
    assert s.frames[p].vars[v] in s.frames[p].vars.Values && s.frames[q].vars[w] in s.frames[q].vars.Values;
  }

  lemma AwaitedChild(s: State, p: Id)
    requires p in s.frames && OwnsWell(s, p) && s.frames[p].status.OnTask? && Next(s.frames[p]).AwaitTask?
    requires Next(s.frames[p]).byMove
    ensures var k := s.frames[p].status.callee; k.Child? && k.parent == p && k !in s.frames[p].vars.Values
  {
  }

  /** Only its creator could hold a frame. */
  lemma HeldByParent(s: State, p: Id, k: Id)
    requires p in s.frames && k.Child? && k.parent == p && forall q :: q in s.frames ==> OwnsWell(s, q)
    requires k !in s.frames[p].vars.Values || k in GivenUp(s.frames[p].prog, p, s.frames[p].hist)
    ensures !Held(s, k)
  {
    hide GivenUp;
    assert OwnsWell(s, p);
  }

  ghost predicate OwnsWell(s: State, p: Id)
    requires p in s.frames
  {
    var f := s.frames[p];
    && Injective(f.vars) && f.vars.Values !! GivenUp(f.prog, p, f.hist)
    && (forall k :: k in f.vars.Values ==> k.Child? && k.parent == p && k in s.frames && !s.frames[k].status.Destroyed?)
    && (f.status.OnTask? ==> f.status.callee.Child? && f.status.callee.parent == p)
    && (f.status.OnTask? && Next(f).AwaitTask? && Next(f).byMove ==> f.status.callee !in f.vars.Values)
  }

  lemma OwnerFacts(s: State, p: Id)
    requires FramesInv(s) && p in s.frames
    ensures OwnsWell(s, p)
  {
    hide StackOk, PhaseOk, GraphOk, LifeOk;
    LifeFact(s, p);
    LinkFact(s, p);
    ValuesFact(s, p);
    AwaitedNotHeld(s, p);
    OwnsLocally(s, p);
  }

  lemma ValuesFact(s: State, p: Id)
    requires FramesInv(s) && p in s.frames
    ensures forall k :: k in s.frames[p].vars.Values ==>
            k.Child? && k.parent == p && k in s.frames && !s.frames[k].status.Destroyed?
  {
    hide StackOk, PhaseOk, LinksOk, LivesOk, TreeOk;
  }

  lemma OwnsLocally(s: State, p: Id)
    requires p in s.frames && LifeOk(p, s.frames[p], IsRoot(s, p))
    ensures var f := s.frames[p]; Injective(f.vars) && f.vars.Values !! GivenUp(f.prog, p, f.hist)
  {
    hide VarsAt, GivenUp, HoldsOutcome;
  }

  lemma AwaitedNotHeld(s: State, p: Id)
    requires p in s.frames && LifeOk(p, s.frames[p], IsRoot(s, p)) && LinkOk(s, p)
    ensures var f := s.frames[p];
            f.status.OnTask? ==>
              var k := f.status.callee; k.Child? && k.parent == p && (Next(f).byMove ==> k !in f.vars.Values)
  {
    var f := s.frames[p];
    if f.status.OnTask? {
      OneHolder(f.prog, p, f.hist);
    }
    hide VarsAt, GivenUp, HoldsOutcome;
  }

  /** A frame that no variable holds is never held again: it has no owner that could destroy it. */
  lemma {:induction false} NeverHeldAgain(s: State, cs: seq<Choice>, id: Id)
    requires Inv(s) && id in s.frames && !Held(s, id)
    ensures Exec(s, cs).Ok? && id in Exec(s, cs).state.frames && !Held(Exec(s, cs).state, id)
    decreases |cs|
  {
    hide Inv, Allowed, Step, Settled;
    if cs != [] {
      if Allowed(s, cs[0]) {
        AllowedEnabled(s, cs[0]);
        InvSettles(s, cs[0]);
        NeverHeldAgain(Step(s, cs[0]).state, cs[1..], id);
      } else {
        NeverHeldAgain(s, cs[1..], id);
      }
    }
  }

  predicate IsDestroyed(s: State, id: Id) {
    id in s.frames && s.frames[id].status.Destroyed?
  }

  /** How often frame `id` is destroyed in a run. */
  function Destructions(s: State, cs: seq<Choice>, id: Id): nat
    decreases |cs|
  {
    if cs == [] then 0
    else if !Allowed(s, cs[0]) then Destructions(s, cs[1..], id)
    else
      match Step(s, cs[0])
      case Fault(_) => 0
      case Ok(s1) => (if IsDestroyed(s1, id) && !IsDestroyed(s, id) then 1 else 0) + Destructions(s1, cs[1..], id)
  }

  /** Over every run every frame is destroyed at most once. A second `destroy` of it would be a fault. */
  lemma {:induction false} DestroyedOnce(s: State, cs: seq<Choice>, id: Id)
    requires Inv(s)
    ensures Destructions(s, cs, id) <= if IsDestroyed(s, id) then 0 else 1
    decreases |cs|
  {
    hide Inv, Allowed, Step, GainsNone;
    if cs != [] {
      if Allowed(s, cs[0]) {
        AllowedEnabled(s, cs[0]);
        InvSettles(s, cs[0]);
        DestroyedOnce(Step(s, cs[0]).state, cs[1..], id);
      } else {
        DestroyedOnce(s, cs[1..], id);
      }
    }
  }

  // ---- The steps. ----

  lemma StepSettles(s: State, c: Choice)
    requires FramesInv(s) && RingOk(s) && Allowed(s, c) && Step(s, c).Ok?
    ensures AllSettled(s, Step(s, c).state)
  {
    hide FramesInv, RingOk, Advance, Dispatch;
    match c
    case Act(accept) => AdvanceSettles(s, accept);
    case WaitOk => DispatchSettles(s);
    case StartRun(prog) => FreshRoot(s);
    case StartDetached(prog) => FreshRoot(s);
    case _ =>
  }

  lemma FreshRoot(s: State)
    requires FramesInv(s)
    ensures Root(s.roots) !in s.frames
  {
  }

  /** Only the top frame changes. */
  lemma ActSettles(s: State, s': State)
    requires FramesInv(s) && HasTop(s)
    requires var a := Next(s.frames[Top(s)]); a.AwaitContext? || a.MoveConstruct? || a.AwaitIo?
    requires Top(s) in s'.frames && s'.frames == s.frames[Top(s) := s'.frames[Top(s)]]
    requires s'.frames[Top(s)].vars == NextVars(Top(s), s.frames[Top(s)])
    requires Onward(s.frames[Top(s)], s'.frames[Top(s)])
    ensures AllSettled(s, s')
  {
    hide FramesInv, LifeOk, NextVars;
    TopFacts(s);
    TopGainsNone(s, s'.frames[Top(s)]);
    OneSettles(s, s', Top(s), s'.frames[Top(s)]);
  }

  lemma IoSettles(s: State, accept: nat)
    requires FramesInv(s) && HasTop(s) && Next(s.frames[Top(s)]).AwaitIo?
    ensures AllSettled(s, ActIo(s, accept))
  {
    hide FramesInv, ActIo;
    IoFrames(s, accept);
    ActSettles(s, ActIo(s, accept));
  }

  lemma IoFrames(s: State, accept: nat)
    requires HasTop(s) && Next(s.frames[Top(s)]).AwaitIo?
    ensures var s' := ActIo(s, accept);
            && Top(s) in s'.frames && s'.frames == s.frames[Top(s) := s'.frames[Top(s)]]
            && s'.frames[Top(s)].vars == s.frames[Top(s)].vars && Onward(s.frames[Top(s)], s'.frames[Top(s)])
  {
    hide Onward, Pending, Submit;
    var f := s.frames[Top(s)];
    OnwardIo(f, IoResult(NO_SQE_RESULT), f.(status := OnIo(|f.hist|), io := Some(IoData(Some(Top(s)), 0))));
    if |s.sq| < SQ_ENTRIES {
      SuspendIoResult(s, accept);
      hide ActIo;
    }
  }

  lemma OnwardIo(f: Frame, x: Input, f': Frame)
    requires f' == f.(status := f'.status, io := f'.io) && f'.status.OnIo?
    ensures Onward(f, f') && Onward(f, Receive(f, x))
  {
  }

  lemma CreateFrames(s: State)
    requires HasTop(s) && Next(s.frames[Top(s)]).Create? && Child(Top(s), |s.frames[Top(s)].hist|) != Top(s)
    ensures var s', id, f := ActCreate(s, Next(s.frames[Top(s)]).child), Top(s), s.frames[Top(s)];
            var kid := Child(id, |f.hist|);
            s'.frames == s.frames[id := Receive(f, Unit).(vars := NextVars(id, f))][kid := Fresh(Next(f).child)]
  {
  }

  lemma CreateSettles(s: State)
    requires FramesInv(s) && HasTop(s) && Next(s.frames[Top(s)]).Create?
    ensures AllSettled(s, ActCreate(s, Next(s.frames[Top(s)]).child))
  {
    hide FramesInv, LifeOk, ActCreate, OnlyActive;
    FreshKid(s);
    TopFacts(s);
    CreateFrames(s);
    var id, s' := Top(s), ActCreate(s, Next(s.frames[Top(s)]).child);
    TopGainsNone(s, s'.frames[id]);
    hide NextVars;
    var kid := Child(id, |s.frames[id].hist|);
    assert s'.frames == s.frames[id := s'.frames[id]][kid := s'.frames[kid]];
    assert forall k :: k in s.frames && k != id ==> Settled(s.frames[k], s.frames[k]);
  }

  lemma AdvanceSettles(s: State, accept: nat)
    requires FramesInv(s) && Allowed(s, Act(accept)) && Advance(s, accept).Ok?
    ensures AllSettled(s, Advance(s, accept).state)
  {
    hide FramesInv, ActDrop, ActMoveAssign, ActLaunch, ActAwaitTask, ActEnd;
    TopFacts(s);
    match Next(s.frames[Top(s)])
    case AwaitContext => ActSettles(s, Advance(s, accept).state);
    case Create(_) => CreateSettles(s);
    case MoveConstruct(_) => ActSettles(s, Advance(s, accept).state);
    case AwaitIo => IoSettles(s, accept);
    case MoveAssign(to, from) => MoveAssignSettles(s, to, from);
    case Drop(v) => DropSettles(s, v);
    case Launch(v) => LaunchSettles(s, v, false);
    case LaunchDetached(v) => LaunchSettles(s, v, true);
    case AwaitTask(v, byMove) => AwaitSettles(s, v, byMove);
    case CoReturn(v) => EndSettles(s, Value(v), accept);
    case CoThrow(e) => EndSettles(s, Exception(e), accept);
  }

  lemma DispatchSettles(s: State)
    requires FramesInv(s) && RingOk(s) && Enabled(s, WaitOk) && Dispatch(s).Ok?
    ensures AllSettled(s, Dispatch(s).state)
  {
    hide FramesInv;
    HeadDue(s);
    if s.cq[0].user.Awaiter? {
      AwaiterTaken(s);
    }
  }
}
