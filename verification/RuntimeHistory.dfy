/** One step of the runtime: the ring and the histories stay exact. */
module RuntimeHistory {
  import opened Wrappers
  import opened Programs
  import opened Runtime
  import opened RuntimeInvariant
  import opened RuntimeFrames
  import opened RuntimeSafety

  ghost predicate Histories(s: State) {
    RingOk(s) && HistOk(s) && LogOk(s) && SeenOk(s)
  }

  /** Frame `id` receives `x`, if that is given; no other history changes. */
  ghost predicate Receives(s: State, s': State, id: Id, x: Option<Input>) {
    && id in s.frames && Extends(s.log, s'.log)
    && (x.Some? ==> Answers(s.frames[id].prog, id, s.frames[id].hist, x.value, s'.log))
    && (forall k :: k in s.frames ==>
          && k in s'.frames && s'.frames[k].prog == s.frames[k].prog
          && s'.frames[k].hist == if k == id && x.Some? then s.frames[k].hist + [x.value] else s.frames[k].hist)
    && (forall k :: k in s'.frames && k !in s.frames ==> s'.frames[k].hist == [])
  }

  lemma HistKept(s: State, s': State, id: Id, x: Option<Input>)
    requires HistOk(s) && Receives(s, s', id, x)
    ensures HistOk(s')
  {
    forall k | k in s'.frames ensures Faithful(s'.frames[k].prog, k, s'.frames[k].hist, s'.log) {
      if k in s.frames {
        FaithfulExtends(s.frames[k].prog, k, s.frames[k].hist, s.log, s'.log);
        if k == id && x.Some? {
          FaithfulSnoc(s.frames[k].prog, k, s.frames[k].hist, x.value, s'.log);
        }
      }
    }
  }

  /** Which operations are outstanding, and whether a marker is due, is as before. */
  ghost predicate SameDemand(s: State, s': State) {
    && (forall k, n :: (k in s'.frames && s'.frames[k].status == OnIo(n)) <==>
       (k in s.frames && s.frames[k].status == OnIo(n)))
    && (MarkerDue(s') <==> MarkerDue(s))
  }

  lemma RingKept(s: State, s': State)
    requires RingOk(s) && SameDemand(s, s') && Pending(s') == Pending(s)
    ensures RingOk(s')
  {
    hide Pending;
    forall u: UserData ensures Pending(s')[u] == Expected(s', u) {
      assert Pending(s)[u] == Expected(s, u);
    }
  }

  lemma RingSame(s: State, s': State)
    requires RingOk(s) && SameDemand(s, s')
    requires s'.sq == s.sq && s'.flying == s.flying && s'.cq == s.cq && s'.phase == s.phase
    ensures RingOk(s')
  {
    RingKept(s, s');
  }

  /** A step that touches neither the ring nor the log. */
  lemma QuietStep(s: State, s': State, id: Id, x: Option<Input>)
    requires Histories(s) && SameRest(s, s') && Receives(s, s', id, x) && SameDemand(s, s')
    ensures Histories(s')
  {
    RingSame(s, s');
    hide RingOk, HistOk, LogOk, SeenOk, SameDemand;
    HistKept(s, s', id, x);
    LogKept(s, s', id, x);
    hide Receives;
    assert Handled(s') == Handled(s);
    SeenKept(s, s');
  }

  lemma LogKept(s: State, s': State, id: Id, x: Option<Input>)
    requires LogOk(s) && Receives(s, s', id, x) && s'.log == s.log
    ensures LogOk(s')
  {
    hide Answers;
  }

  /** A running frame changes but stays, and perhaps receives something. */
  lemma OneFrame(s: State, s': State, id: Id, f': Frame, x: Option<Input>)
    requires Histories(s) && SameRest(s, s') && id in s.frames && s'.frames == s.frames[id := f']
    requires var f := s.frames[id];
             && f'.prog == f.prog && f'.hist == (if x.Some? then f.hist + [x.value] else f.hist)
             && f.status.Running? && !f'.status.OnIo? && !f'.status.Destroyed?
             && (x.Some? ==> Answers(f.prog, id, f.hist, x.value, s.log))
    ensures Histories(s')
  {
    hide Histories, Receives, SameDemand;
    assert Receives(s, s', id, x) by { OneReceives(s, s', id, f', x); }
    assert SameDemand(s, s') by { OneDemand(s, s', id, f'); }
    QuietStep(s, s', id, x);
  }

  lemma OneReceives(s: State, s': State, id: Id, f': Frame, x: Option<Input>)
    requires id in s.frames && s'.frames == s.frames[id := f'] && s'.log == s.log
    requires var f := s.frames[id];
             && f'.prog == f.prog && f'.hist == (if x.Some? then f.hist + [x.value] else f.hist)
             && (x.Some? ==> Answers(f.prog, id, f.hist, x.value, s.log))
    ensures Receives(s, s', id, x)
  {
    hide Answers;
  }

  lemma OneDemand(s: State, s': State, id: Id, f': Frame)
    requires id in s.frames && s'.frames == s.frames[id := f'] && s'.phase == s.phase && s'.running == s.running
    requires s.frames[id].status.Running? && !f'.status.OnIo? && !f'.status.Destroyed?
    ensures SameDemand(s, s')
  {
  }

  /** Besides, a child of it changes, without receiving anything or starting I/O. */
  lemma TwoFrames(s: State, s': State, id: Id, f': Frame, kid: Id, k': Frame, x: Option<Input>)
    requires Histories(s) && SameRest(s, s') && id in s.frames && s'.frames == s.frames[id := f'][kid := k']
    requires kid != id
    requires var f := s.frames[id];
             && f'.prog == f.prog && f'.hist == (if x.Some? then f.hist + [x.value] else f.hist)
             && f.status.Running? && !f'.status.OnIo? && !f'.status.Destroyed?
             && (x.Some? ==> Answers(f.prog, id, f.hist, x.value, s.log))
    requires !IsRoot(s, kid)
    requires if kid in s.frames then KidQuiet(s.frames[kid], k') else k'.hist == [] && !k'.status.OnIo?
    ensures Histories(s')
  {
    hide Histories, Receives, SameDemand;
    TwoReceive(s, s', id, f', kid, k', x);
    TwoDemand(s, s', id, f', kid, k');
    QuietStep(s, s', id, x);
  }

  lemma TwoReceive(s: State, s': State, id: Id, f': Frame, kid: Id, k': Frame, x: Option<Input>)
    requires id in s.frames && s'.frames == s.frames[id := f'][kid := k'] && kid != id && s'.log == s.log
    requires var f := s.frames[id];
             && f'.prog == f.prog && f'.hist == (if x.Some? then f.hist + [x.value] else f.hist)
             && (x.Some? ==> Answers(f.prog, id, f.hist, x.value, s.log))
    requires if kid in s.frames then KidQuiet(s.frames[kid], k') else k'.hist == []
    ensures Receives(s, s', id, x)
  {
    hide Answers;
  }

  lemma TwoDemand(s: State, s': State, id: Id, f': Frame, kid: Id, k': Frame)
    requires id in s.frames && s'.frames == s.frames[id := f'][kid := k'] && kid != id && s'.phase == s.phase
    requires s'.running == s.running
    requires s.frames[id].status.Running? && !f'.status.OnIo? && !f'.status.Destroyed? && !IsRoot(s, kid)
    requires if kid in s.frames then KidQuiet(s.frames[kid], k') else !k'.status.OnIo?
    ensures SameDemand(s, s')
  {
  }

  ghost predicate KidQuiet(k: Frame, k': Frame) {
    k'.prog == k.prog && k'.hist == k.hist && (k'.status == k.status || (!k.status.OnIo? && !k'.status.OnIo?))
  }

  lemma Immediate(prog: Program, id: Id, hist: seq<Input>, x: Input, log: IoLog)
    requires Answer(prog, id, hist, log, 0) == Some(x)
    ensures Answers(prog, id, hist, x, log)
  {
  }

  /** An await that finds its task finished answers as the direct-style call does. */
  lemma AwaitAnswers(s: State, id: Id, kid: Id, o: Outcome)
    requires HistOk(s) && id in s.frames && kid in s.frames && kid.Child?
    requires Born(s.frames[id], kid.birth, s.frames[kid])
    requires var f := s.frames[id]; Next(f).AwaitTask? && VarsHold(VarsAt(f.prog, id, f.hist), Next(f).task, kid)
    requires var k := s.frames[kid]; Ends(Next(k)) && o == OutcomeOf(Next(k))
    ensures Answers(s.frames[id].prog, id, s.frames[id].hist, Awaited(o), s.log)
  {
    var f, k := s.frames[id], s.frames[kid];
    hide Faithful, VarsAt;
    assert Faithful(k.prog, kid, k.hist, s.log);
    FaithfulYields(k.prog, kid, k.hist, 0, s.log);
    assert k.hist[..0] == [];
    var fuel: nat :| Evaluate(k.prog, kid, [], s.log, fuel) == Some(o);
    hide Evaluate;
    assert Answer(f.prog, id, f.hist, s.log, fuel + 1) == Some(Awaited(o));
  }

  lemma HistFact(s: State)
    requires Histories(s)
    ensures HistOk(s)
  {
  }

  // ---- The running coroutine. ----

  lemma ContextHistory(s: State)
    requires FramesInv(s) && Histories(s) && HasTop(s) && Next(s.frames[Top(s)]).AwaitContext?
    ensures Histories(ActContext(s))
  {
    hide FramesInv, Histories;
    TopFacts(s);
    var id, s' := Top(s), ActContext(s);
    Immediate(s.frames[id].prog, id, s.frames[id].hist, ContextIs(true), s.log);
    OneFrame(s, s', id, s'.frames[id], Some(ContextIs(true)));
  }

  lemma FreshKid(s: State)
    requires FramesInv(s) && HasTop(s)
    ensures var kid := Child(Top(s), |s.frames[Top(s)].hist|); kid !in s.frames && kid != Top(s) && !IsRoot(s, kid)
  {
    assert TreeOk(s);
    NoCycle(Top(s), Child(Top(s), |s.frames[Top(s)].hist|));
  }

  lemma CreateHistory(s: State, child: Program)
    requires FramesInv(s) && Histories(s) && HasTop(s) && Next(s.frames[Top(s)]) == Create(child)
    ensures Histories(ActCreate(s, child))
  {
    hide FramesInv, Histories;
    FreshKid(s);
    TopFacts(s);
    hide LifeOk;
    var id, s' := Top(s), ActCreate(s, child);
    var kid := Child(id, |s.frames[id].hist|);
    Immediate(s.frames[id].prog, id, s.frames[id].hist, Unit, s.log);
    hide Answer;
    assert s'.frames == s.frames[id := s'.frames[id]][kid := s'.frames[kid]];
    assert SameRest(s, s') && s'.frames[kid] == Fresh(child)
           && s'.frames[id] == Receive(s.frames[id], Unit).(vars := s'.frames[id].vars);
    hide ActCreate;
    TwoFrames(s, s', id, s'.frames[id], kid, s'.frames[kid], Some(Unit));
  }

  lemma MoveConstructHistory(s: State, from: nat)
    requires FramesInv(s) && Histories(s) && HasTop(s) && Next(s.frames[Top(s)]) == MoveConstruct(from)
    ensures Histories(ActMoveConstruct(s, from))
  {
    hide FramesInv, Histories;
    TopFacts(s);
    var id, s' := Top(s), ActMoveConstruct(s, from);
    Immediate(s.frames[id].prog, id, s.frames[id].hist, Unit, s.log);
    OneFrame(s, s', id, s'.frames[id], Some(Unit));
  }

  /** The top frame receives `Unit`, and the frame in its variable `v` is destroyed. */
  lemma DestroyHistory(s: State, s': State, v: nat)
    requires FramesInv(s) && Histories(s) && HasTop(s) && v in s.frames[Top(s)].vars
    requires Ownable(s, s.frames[Top(s)].vars[v])
    requires var id, f, kid := Top(s), s.frames[Top(s)], s.frames[Top(s)].vars[v];
             && Answer(f.prog, id, f.hist, s.log, 0) == Some(Unit)
             && id in s'.frames && s'.frames[id] == Receive(f, Unit).(vars := s'.frames[id].vars)
             && s'.frames == s.frames[id := s'.frames[id]][kid := s.frames[kid].(status := Destroyed)]
             && SameRest(s, s')
    ensures Histories(s')
  {
    hide FramesInv, Histories, LifeOk, Answer;
    TopFacts(s);
    KidFacts(s, v);
    var id, kid := Top(s), s.frames[Top(s)].vars[v];
    Immediate(s.frames[id].prog, id, s.frames[id].hist, Unit, s.log);
    assert KidQuiet(s.frames[kid], s.frames[kid].(status := Destroyed));
    TwoFrames(s, s', id, s'.frames[id], kid, s'.frames[kid], Some(Unit));
  }

  lemma MoveAssignHistory(s: State, to: nat, from: nat)
    requires FramesInv(s) && Histories(s) && HasTop(s) && Next(s.frames[Top(s)]) == MoveAssign(to, from)
    requires Disciplined(s, Act(0))
    requires ActMoveAssign(s, to, from).Ok?
    ensures Histories(ActMoveAssign(s, to, from).state)
  {
    hide FramesInv, Histories, LifeOk;
    TopFacts(s);
    var id, f, s' := Top(s), s.frames[Top(s)], ActMoveAssign(s, to, from).state;
    if to != from && to in f.vars {
      KidFacts(s, to);
      DestroyHistory(s, s', to);
    } else {
      Immediate(f.prog, id, f.hist, Unit, s.log);
      OneFrame(s, s', id, s'.frames[id], Some(Unit));
    }
  }

  lemma DropHistory(s: State, v: nat)
    requires FramesInv(s) && Histories(s) && HasTop(s) && Next(s.frames[Top(s)]) == Drop(v) && Disciplined(s, Act(0))
    requires ActDrop(s, v).Ok?
    ensures Histories(ActDrop(s, v).state)
  {
    hide FramesInv, Histories, LifeOk;
    TopFacts(s);
    var id, f, s' := Top(s), s.frames[Top(s)], ActDrop(s, v).state;
    if v in f.vars {
      KidFacts(s, v);
      DestroyHistory(s, s', v);
    } else {
      Immediate(f.prog, id, f.hist, Unit, s.log);
      OneFrame(s, s', id, s'.frames[id], Some(Unit));
    }
  }

  lemma LaunchHistory(s: State, v: nat, detached: bool)
    requires FramesInv(s) && Histories(s) && HasTop(s)
    requires Next(s.frames[Top(s)]) == if detached then LaunchDetached(v) else Launch(v)
    requires Disciplined(s, Act(0))
    ensures ActLaunch(s, v, detached).Ok? && Histories(ActLaunch(s, v, detached).state)
  {
    hide FramesInv, Histories, LifeOk;
    TopFacts(s);
    KidFacts(s, v);
    LaunchResult(s, v, detached);
    hide ActLaunch, Disciplined, NextVars;
    var id, kid, s' := Top(s), s.frames[Top(s)].vars[v], ActLaunch(s, v, detached).state;
    Immediate(s.frames[id].prog, id, s.frames[id].hist, Unit, s.log);
    hide Answer;
    TwoFrames(s, s', id, s'.frames[id], kid, s'.frames[kid], Some(Unit));
  }

  lemma AwaitTaskHistory(s: State, v: nat, byMove: bool)
    requires FramesInv(s) && Histories(s) && HasTop(s) && Next(s.frames[Top(s)]) == AwaitTask(v, byMove)
    requires Disciplined(s, Act(0))
    ensures ActAwaitTask(s, v, byMove).Ok? && Histories(ActAwaitTask(s, v, byMove).state)
  {
    hide FramesInv, Histories, VarsOk;
    TopFacts(s);
    KidFacts(s, v);
    AwaitResult(s, v, byMove);
    hide ActAwaitTask, Disciplined, NextVars;
    var id, kid, s' := Top(s), s.frames[Top(s)].vars[v], ActAwaitTask(s, v, byMove).state;
    if s.frames[kid].status.Done? {
      var o := OutcomeOf(Next(s.frames[kid]));
      assert HoldsOutcome(s.frames[kid], o);
      hide LifeOk;
      RunningVars(s, v);
      HistFact(s);
      AwaitAnswers(s, id, kid, o);
      OneFrame(s, s', id, s'.frames[id], Some(Awaited(o)));
    } else {
      hide LifeOk;
      TwoFrames(s, s', id, s'.frames[id], kid, s'.frames[kid], None);
    }
  }

  lemma RunningVars(s: State, v: nat)
    requires FramesInv(s) && HasTop(s) && v in s.frames[Top(s)].vars && !Ends(Next(s.frames[Top(s)]))
    ensures var f := s.frames[Top(s)]; VarsHold(VarsAt(f.prog, Top(s), f.hist), v, f.vars[v])
  {
    hide FramesInv;
    TopFacts(s);
  }

  // ---- Steps that touch the ring or the log. ----

  /** One more entry is outstanding. */
  lemma RingAdds(s: State, s': State, u: UserData)
    requires RingOk(s) && Pending(s') == Pending(s) + multiset{u}
    requires forall v: UserData :: Expected(s', v) == Expected(s, v) + if v == u then 1 else 0
    ensures RingOk(s')
  {
    forall v: UserData ensures Pending(s')[v] == Expected(s', v) {
      assert Pending(s)[v] == Expected(s, v);
    }
  }

  lemma SeenKept(s: State, s': State)
    requires SeenOk(s) && Handled(s') == Handled(s) && Extends(s.log, s'.log) && s'.runs == s.runs
    requires forall k :: k in s'.log && k !in s.log ==> s'.log[k] == NO_SQE_RESULT
    requires RunOpen(s') <==> RunOpen(s)
    ensures SeenOk(s')
  {
  }

  /** Nobody receives anything. */
  ghost predicate Silent(s: State, s': State) {
    && s'.log == s.log && s'.frames.Keys == s.frames.Keys
    && (forall k :: k in s.frames ==> s'.frames[k].prog == s.frames[k].prog && s'.frames[k].hist == s.frames[k].hist)
  }

  lemma SilentStep(s: State, s': State)
    requires HistOk(s) && LogOk(s) && SeenOk(s) && Silent(s, s')
    requires Handled(s') == Handled(s) && s'.runs == s.runs && (RunOpen(s') <==> RunOpen(s))
    ensures HistOk(s') && LogOk(s') && SeenOk(s')
  {
    hide RunOpen, Handled;
    SeenKept(s, s');
    hide SeenOk;
    forall k | k in s'.frames ensures Faithful(s'.frames[k].prog, k, s'.frames[k].hist, s'.log) {
    }
  }

  /** Frame `id` receives the result `r` of its pending I/O action, and `log` records it. */
  lemma LogStep(s: State, s': State, id: Id, f': Frame, r: int)
    requires HistOk(s) && LogOk(s) && id in s.frames && s'.frames == s.frames[id := f']
    requires var f := s.frames[id];
             && f'.prog == f.prog && f'.hist == f.hist + [IoResult(r)] && Next(f).AwaitIo?
             && s'.log == s.log[OpId(id, |f.hist|) := r]
    ensures HistOk(s') && LogOk(s') && Extends(s.log, s'.log) && OpId(id, |s.frames[id].hist|) !in s.log
  {
    var f := s.frames[id];
    LogGrows(s, s', id, f', r);
    hide LogOk;
    Immediate(f.prog, id, f.hist, IoResult(r), s'.log);
    hide Next, HistOk, Answers;
    HistKept(s, s', id, Some(IoResult(r)));
  }

  lemma LogGrows(s: State, s': State, id: Id, f': Frame, r: int)
    requires LogOk(s) && id in s.frames && s'.frames == s.frames[id := f']
    requires f'.hist == s.frames[id].hist + [IoResult(r)]
    requires s'.log == s.log[OpId(id, |s.frames[id].hist|) := r]
    ensures LogOk(s') && Extends(s.log, s'.log) && OpId(id, |s.frames[id].hist|) !in s.log
  {
  }

  lemma NoEntryHistory(s: State, accept: nat)
    requires Histories(s) && HasTop(s) && Next(s.frames[Top(s)]).AwaitIo? && |s.sq| >= SQ_ENTRIES
    requires s.frames[Top(s)].status.Running?
    ensures Histories(ActIo(s, accept))
  {
    hide Histories, LifeOk;
    var id, s' := Top(s), ActIo(s, accept);
    var f' := s'.frames[id];
    assert s' == s.(frames := s.frames[id := f'], log := s.log[OpId(id, |s.frames[id].hist|) := NO_SQE_RESULT]);
    hide ActIo;
    NoEntryStep(s, s', id, f');
  }

  lemma NoEntryStep(s: State, s': State, id: Id, f': Frame)
    requires Histories(s) && id in s.frames && s.frames[id].status.Running? && Next(s.frames[id]).AwaitIo?
    requires f' == Receive(s.frames[id], IoResult(NO_SQE_RESULT))
    requires s' == s.(frames := s.frames[id := f'], log := s.log[OpId(id, |s.frames[id].hist|) := NO_SQE_RESULT])
    ensures Histories(s')
  {
    hide RingOk, HistOk, LogOk, SeenOk;
    LogStep(s, s', id, f', NO_SQE_RESULT);
    SeenKept(s, s');
    RingSame(s, s');
  }

  lemma SuspendIoHistory(s: State, accept: nat)
    requires Histories(s) && HasTop(s) && Next(s.frames[Top(s)]).AwaitIo? && |s.sq| < SQ_ENTRIES
    requires s.frames[Top(s)].status.Running?
    ensures Histories(ActIo(s, accept))
  {
    SuspendIoResult(s, accept);
    hide ActIo, RingOk, HistOk, LogOk, SeenOk;
    SuspendIoRing(s, accept);
    SilentStep(s, ActIo(s, accept));
  }

  lemma SuspendIoRing(s: State, accept: nat)
    requires RingOk(s) && HasTop(s) && |s.sq| < SQ_ENTRIES && s.frames[Top(s)].status.Running?
    ensures RingOk(ActIo(s, accept))
  {
    SuspendIoResult(s, accept);
    hide ActIo, Pending;
    RingAdds(s, ActIo(s, accept), Awaiter(OpId(Top(s), |s.frames[Top(s)].hist|)));
  }

  lemma SuspendIoResult(s: State, accept: nat)
    requires HasTop(s) && |s.sq| < SQ_ENTRIES
    ensures var id, s' := Top(s), ActIo(s, accept);
            var f := s.frames[id];
            && s'.frames == s.frames[id := f.(status := OnIo(|f.hist|), io := Some(IoData(Some(id), 0)))]
            && Pending(s') == Pending(s) + multiset{Awaiter(OpId(id, |f.hist|))}
            && s'.cq == s.cq && s'.phase == s.phase && s'.running == s.running && s'.log == s.log && s'.seen == s.seen
            && s'.roots == s.roots && s'.runs == s.runs
  {
    var id, s' := Top(s), ActIo(s, accept);
    var u := Awaiter(OpId(id, |s.frames[id].hist|));
    SubmitPending(s, u, accept);
    hide Pending;
    PendingSame(Submit(s.(sq := s.sq + [u]), accept), s');
  }

  /** However much of the queue the kernel accepts, nothing is lost. */
  lemma SubmitPending(s: State, u: UserData, accept: nat)
    ensures Pending(Submit(s.(sq := s.sq + [u]), accept)) == Pending(s) + multiset{u}
  {
    hide Users;
    var q := s.sq + [u];
    var s' := Submit(s.(sq := q), accept);
    assert Unhandled(s') == Unhandled(s);
    SubmitSplits(q, if accept < |q| then accept else |q|);
    assert multiset(s'.sq) + s'.flying == multiset(q) + s.flying;
    assert multiset(q) == multiset(s.sq) + multiset{u};
  }

  lemma SubmitSplits(q: seq<UserData>, k: nat)
    requires k <= |q|
    ensures multiset(q) == multiset(q[..k]) + multiset(q[k..])
  {
    assert q == q[..k] + q[k..];
  }

  lemma PendingSame(s: State, s': State)
    requires s'.sq == s.sq && s'.flying == s.flying && s'.cq == s.cq && s'.phase == s.phase
    ensures Pending(s') == Pending(s)
  {
    assert Unhandled(s') == Unhandled(s);
  }

  lemma IoHistory(s: State, accept: nat)
    requires FramesInv(s) && Histories(s) && HasTop(s) && Next(s.frames[Top(s)]).AwaitIo?
    ensures Histories(ActIo(s, accept))
  {
    hide FramesInv, Histories;
    TopFacts(s);
    hide ActIo;
    if |s.sq| >= SQ_ENTRIES {
      NoEntryHistory(s, accept);
    } else {
      SuspendIoHistory(s, accept);
    }
  }

  // ---- The end of a body. ----

  lemma LocalsHistory(s: State)
    requires Histories(s) && HasTop(s) && LocalsOwnable(s) && s.frames[Top(s)].status.Running?
    requires forall r :: IsRoot(s, r) ==> r.Root?
    requires forall k :: k in s.frames[Top(s)].vars.Values ==> k.Child?
    ensures Histories(AfterLocals(s))
  {
    var id, s' := Top(s), AfterLocals(s);
    hide Histories, Receives, SameDemand;
    SweptDemand(s, s');
    assert Receives(s, s', id, None) by { SweptReceives(s, s'); }
    QuietStep(s, s', id, None);
  }

  lemma SweptReceives(s: State, s': State)
    requires HasTop(s) && s' == AfterLocals(s)
    ensures Receives(s, s', Top(s), None)
  {
    hide Answers;
  }

  lemma SweptDemand(s: State, s': State)
    requires HasTop(s) && s' == AfterLocals(s) && LocalsOwnable(s) && s.frames[Top(s)].status.Running?
    requires forall r :: IsRoot(s, r) ==> r.Root?
    requires forall k :: k in s.frames[Top(s)].vars.Values ==> k.Child?
    ensures SameDemand(s, s')
  {
    var gone := s.frames[Top(s)].vars.Values;
    forall k | k in gone ensures Ownable(s, k) {
      var v :| v in s.frames[Top(s)].vars && s.frames[Top(s)].vars[v] == k;
    }
    assert !s.phase.Idle? && !s.phase.Launching? ==> IsRoot(s, s.phase.root);
    hide LocalsOwnable, IsRoot;
    assert forall k :: k in s.frames ==> k in s'.frames && (k !in gone ==> s'.frames[k].status == s.frames[k].status);
    assert forall k :: k in gone ==> k in s'.frames && !s.frames[k].status.OnIo? && !s'.frames[k].status.OnIo?;
    hide AfterLocals, Ownable;
  }

  lemma ToCallerHistory(s: State, o: Outcome, accept: nat)
    requires FramesInv(s) && Histories(s) && HasTop(s) && s.frames[Top(s)].vars == map[]
    requires s.frames[Top(s)].caller.Some?
    requires Ends(Next(s.frames[Top(s)])) && o == OutcomeOf(Next(s.frames[Top(s)]))
    ensures FinalSuspend(AtFinal(s, o), accept).Ok? && Histories(FinalSuspend(AtFinal(s, o), accept).state)
  {
    hide FramesInv, Histories, FinalSuspend, LifeOk;
    CallerBorn(s);
    TopFacts(s);
    CallerFacts(s);
    assert s.frames[Top(s)].value.None? && s.frames[Top(s)].ex.None? by { RunsEmpty(s); }
    ToCallerResult(s, o, accept);
    var id, p, s' := Top(s), s.frames[Top(s)].caller.value, FinalSuspend(AtFinal(s, o), accept).state;
    HistFact(s);
    AwaitAnswers(s, p, id, o);
    ToCallerQuiet(s, s', id, p, s'.frames[id], s'.frames[p], Awaited(o));
  }

  lemma RunsEmpty(s: State)
    requires FramesInv(s) && HasTop(s)
    ensures s.frames[Top(s)].value.None? && s.frames[Top(s)].ex.None?
  {
    hide FramesInv, VarsOk;
    TopFacts(s);
  }

  lemma CallerBorn(s: State)
    requires FramesInv(s) && HasTop(s) && s.frames[Top(s)].caller.Some?
    ensures var id, p := Top(s), s.frames[Top(s)].caller.value;
            id.Child? && p in s.frames && Born(s.frames[p], id.birth, s.frames[id])
  {
    CallerFacts(s);
    assert Child(s.frames[Top(s)].caller.value, Top(s).birth) in s.frames;
  }

  lemma ToCallerQuiet(s: State, s': State, id: Id, p: Id, f': Frame, p': Frame, x: Input)
    requires Histories(s) && SameRest(s, s') && id in s.frames && p in s.frames && id != p
    requires s'.frames == s.frames[id := f'][p := p']
    requires var f, g := s.frames[id], s.frames[p];
             && f'.prog == f.prog && f'.hist == f.hist && f.status.Running? && f'.status.Done?
             && p'.prog == g.prog && p'.hist == g.hist + [x] && g.status.OnTask? && p'.status.Running?
             && Answers(g.prog, p, g.hist, x, s.log)
    ensures Histories(s')
  {
    hide Histories, Receives, SameDemand;
    assert Receives(s, s', p, Some(x)) by { CallerReceives(s, s', id, p, f', p', x); }
    assert SameDemand(s, s') by { CallerDemand(s, s', id, p, f', p'); }
    QuietStep(s, s', p, Some(x));
  }

  lemma CallerReceives(s: State, s': State, id: Id, p: Id, f': Frame, p': Frame, x: Input)
    requires id in s.frames && p in s.frames && id != p && s'.frames == s.frames[id := f'][p := p'] && s'.log == s.log
    requires f'.prog == s.frames[id].prog && f'.hist == s.frames[id].hist && p'.prog == s.frames[p].prog
    requires p'.hist == s.frames[p].hist + [x]
    requires Answers(s.frames[p].prog, p, s.frames[p].hist, x, s.log)
    ensures Receives(s, s', p, Some(x))
  {
    hide Answers;
  }

  lemma CallerDemand(s: State, s': State, id: Id, p: Id, f': Frame, p': Frame)
    requires id in s.frames && p in s.frames && id != p && s'.frames == s.frames[id := f'][p := p']
    requires s'.phase == s.phase && s'.running == s.running
    requires s.frames[id].status.Running? && f'.status.Done? && s.frames[p].status.OnTask? && p'.status.Running?
    ensures SameDemand(s, s')
  {
  }

  lemma RootEndsHistory(s: State, o: Outcome, accept: nat)
    requires FramesInv(s) && Histories(s) && HasTop(s) && s.frames[Top(s)].vars == map[]
    requires s.frames[Top(s)].caller.None? && !s.frames[Top(s)].daemon
    requires Ends(Next(s.frames[Top(s)])) && o == OutcomeOf(Next(s.frames[Top(s)])) && |s.sq| < SQ_ENTRIES
    ensures FinalSuspend(AtFinal(s, o), accept).Ok? && Histories(FinalSuspend(AtFinal(s, o), accept).state)
  {
    hide FramesInv, Histories;
    TopFacts(s);
    var s' := FinalSuspend(AtFinal(s, o), accept).state;
    RootEndsResult(s, o, accept);
    hide FinalSuspend;
    RootEndsRing(s, s', accept);
  }

  lemma RootEndsRing(s: State, s': State, accept: nat)
    requires Histories(s) && HasTop(s) && IsRoot(s, Top(s)) && s.frames[Top(s)].status.Running?
    requires (s.phase.Dispatching? ==> s.running)
    requires Top(s) in s'.frames && s'.frames == s.frames[Top(s) := s'.frames[Top(s)]]
    requires var f, f' := s.frames[Top(s)], s'.frames[Top(s)];
             f'.prog == f.prog && f'.hist == f.hist && f'.status.Destroyed?
    requires s' == Submit(s.(sq := s.sq + [Marker]), accept).(stack := s'.stack, frames := s'.frames)
    ensures Histories(s')
  {
    hide RingOk, HistOk, LogOk, SeenOk;
    MarkerPending(s, s', accept);
    hide Pending;
    SilentStep(s, s');
    hide Silent, Submit;
    RingAdds(s, s', Marker);
  }

  lemma MarkerPending(s: State, s': State, accept: nat)
    requires s' == Submit(s.(sq := s.sq + [Marker]), accept).(stack := s'.stack, frames := s'.frames)
    ensures Pending(s') == Pending(s) + multiset{Marker}
  {
    SubmitPending(s, Marker, accept);
    hide Pending;
    PendingSame(Submit(s.(sq := s.sq + [Marker]), accept), s');
  }

  lemma EndHistory(s: State, o: Outcome, accept: nat)
    requires FramesInv(s) && Histories(s) && HasTop(s) && Ends(Next(s.frames[Top(s)]))
    requires o == OutcomeOf(Next(s.frames[Top(s)]))
    requires Disciplined(s, Act(accept)) && !NoEntryForMarker(s, Act(accept))
    ensures ActEnd(s, o, accept).Ok? && Histories(ActEnd(s, o, accept).state)
  {
    hide FramesInv, Histories, ActEnd, FinalSuspend, LifeOk;
    TopFacts(s);
    RootsAndKids(s);
    TopInjective(s);
    assert LocalsOwnable(s);
    hide Disciplined;
    EndResult(s, o, accept);
    LocalsKeep(s);
    LocalsHistory(s);
    EndFromHistory(s, o, accept);
  }

  lemma RootsAndKids(s: State)
    requires FramesInv(s) && HasTop(s)
    ensures forall r :: IsRoot(s, r) ==> r.Root?
    ensures forall k :: k in s.frames[Top(s)].vars.Values ==> k.Child?
  {
    hide StackOk, TreeOk, LinksOk, LivesOk;
  }

  lemma EndFromHistory(s: State, o: Outcome, accept: nat)
    requires HasTop(s) && HasTop(AfterLocals(s)) && FramesInv(AfterLocals(s)) && Histories(AfterLocals(s))
    requires Ends(Next(s.frames[Top(s)])) && o == OutcomeOf(Next(s.frames[Top(s)])) && !NoEntryForMarker(s, Act(accept))
    ensures var r := FinalSuspend(SetFrame(AfterLocals(s), Top(s), Finished(s, o)), accept);
            r.Ok? && Histories(r.state)
  {
    hide FramesInv, Histories;
    var s1 := AfterLocals(s);
    assert SetFrame(s1, Top(s), Finished(s, o)) == AtFinal(s1, o);
    if s1.frames[Top(s1)].caller.Some? {
      hide FinalSuspend;
      ToCallerHistory(s1, o, accept);
    } else if s1.frames[Top(s1)].daemon {
      TopFacts(s1);
      var s' := FinalSuspend(AtFinal(s1, o), accept).state;
      OneFrame(s1, s', Top(s1), s'.frames[Top(s1)], None);
    } else {
      hide FinalSuspend;
      RootEndsHistory(s1, o, accept);
    }
  }

  lemma AdvanceHistory(s: State, accept: nat)
    requires FramesInv(s) && Histories(s) && Allowed(s, Act(accept))
    requires Advance(s, accept).Ok?
    ensures Histories(Advance(s, accept).state)
  {
    hide FramesInv, Histories;
    match Next(s.frames[Top(s)])
    case AwaitContext => ContextHistory(s);
    case Create(child) => CreateHistory(s, child);
    case MoveConstruct(from) => MoveConstructHistory(s, from);
    case MoveAssign(to, from) => MoveAssignHistory(s, to, from);
    case Drop(v) => DropHistory(s, v);
    case AwaitIo => IoHistory(s, accept);
    case Launch(v) => LaunchHistory(s, v, false);
    case LaunchDetached(v) => LaunchHistory(s, v, true);
    case AwaitTask(v, byMove) => AwaitTaskHistory(s, v, byMove);
    case CoReturn(v) => EndHistory(s, Value(v), accept);
    case CoThrow(e) => EndHistory(s, Exception(e), accept);
  }

  // ---- The main thread, the loop and the kernel. ----

  lemma KernelPending(s: State, u: UserData, res: int)
    requires PhaseOk(s) && u in s.flying
    ensures var s' := KernelCompletes(s, u, res); Handled(s') == Handled(s) && Pending(s') == Pending(s)
  {
    hide Users;
    var s' := KernelCompletes(s, u, res);
    UsersSnoc(Unhandled(s), Cqe(u, res));
    assert Unhandled(s') == Unhandled(s) + [Cqe(u, res)];
    assert s.flying == s'.flying + multiset{u};
  }

  lemma KernelHistory(s: State, u: UserData, res: int)
    requires Histories(s) && PhaseOk(s) && u in s.flying
    ensures Histories(KernelCompletes(s, u, res))
  {
    var s' := KernelCompletes(s, u, res);
    KernelPending(s, u, res);
    hide Pending, RingOk, HistOk, LogOk, SeenOk, Handled;
    RingKept(s, s');
    SilentStep(s, s');
  }

  lemma StartHistory(s: State, s': State, r: Id)
    requires FramesInv(s) && Histories(s) && s.phase.Idle? && r == Root(s.roots)
    requires r in s'.frames && s'.frames == s.frames[r := s'.frames[r]] && s'.frames[r].hist == []
    requires s'.frames[r].status.Running?
    requires s'.sq == s.sq && s'.flying == s.flying && s'.cq == s.cq && s'.log == s.log && s'.seen == s.seen
    requires (s'.phase == Launching && s'.runs == s.runs) || (s'.phase == Starting(r) && s'.runs == s.runs + 1)
    ensures Histories(s')
  {
    assert r !in s.frames;
    hide FramesInv, RingOk, HistOk, LogOk, SeenOk;
    StartDemand(s, s', r);
    hide SameDemand;
    assert Pending(s') == Pending(s);
    RingKept(s, s');
    StartReceived(s, s', r);
    StartSeen(s, s');
  }

  lemma StartDemand(s: State, s': State, r: Id)
    requires s.phase.Idle? && r !in s.frames && r in s'.frames && s'.frames == s.frames[r := s'.frames[r]]
    requires s'.frames[r].status.Running?
    requires s'.phase == Launching || s'.phase == Starting(r)
    ensures SameDemand(s, s')
  {
  }

  lemma StartSeen(s: State, s': State)
    requires SeenOk(s) && s.phase.Idle? && s'.seen == s.seen && s'.log == s.log
    requires (s'.phase == Launching && s'.runs == s.runs) || (s'.phase.Starting? && s'.runs == s.runs + 1)
    ensures SeenOk(s')
  {
  }

  lemma StartReceived(s: State, s': State, r: Id)
    requires HistOk(s) && LogOk(s) && r !in s.frames && s'.log == s.log
    requires r in s'.frames && s'.frames == s.frames[r := s'.frames[r]] && s'.frames[r].hist == []
    ensures HistOk(s') && LogOk(s')
  {
  }

  lemma ReturnPending(s: State)
    requires PhaseOk(s) && Enabled(s, Return)
    ensures var s' := NativeReturn(s);
            && Handled(s') == Handled(s) && Pending(s') == Pending(s) && s'.frames == s.frames && s'.log == s.log
            && s'.runs == s.runs
            && (RunOpen(s') <==> RunOpen(s)) && (MarkerDue(s') <==> MarkerDue(s))
  {
    assert Unhandled(NativeReturn(s)) == Unhandled(s);
  }

  lemma ReturnHistory(s: State)
    requires Histories(s) && PhaseOk(s) && Enabled(s, Return)
    ensures Histories(NativeReturn(s))
  {
    ReturnPending(s);
    hide RingOk, HistOk, LogOk, SeenOk, Handled, Pending, NativeReturn, RunOpen, MarkerDue;
    RingKept(s, NativeReturn(s));
    SilentStep(s, NativeReturn(s));
  }

  /** Taking the head completion into the hand. */
  lemma TakeRing(s: State, s': State)
    requires RingOk(s) && s.phase.Waiting? && |s.cq| > 0 && s'.phase == Dispatching(s.phase.root)
    requires s'.sq == s.sq && s'.flying == s.flying && s'.cq == s.cq
    requires forall v: UserData :: Expected(s', v) == Expected(s, v) - if v == s.cq[0].user then 1 else 0
    ensures RingOk(s')
  {
    var u := s.cq[0].user;
    assert Users(s.cq) == multiset{u} + Users(s.cq[1..]);
    assert Pending(s) == Pending(s') + multiset{u};
    hide Pending;
    forall v: UserData ensures Pending(s')[v] == Expected(s', v) {
      assert Pending(s)[v] == Expected(s, v);
    }
  }

  lemma DispatchMarkerHistory(s: State)
    requires Histories(s) && PhaseOk(s) && Enabled(s, WaitOk) && s.cq[0].user.Marker?
    ensures Histories(Dispatch(s).state)
  {
    var s' := Dispatch(s).state;
    HeadDue(s);
    hide RingOk, HistOk, LogOk, SeenOk, Pending;
    TakeRing(s, s');
    MarkerSeen(s, s');
    assert HistOk(s') && LogOk(s') by { MarkerQuiet(s, s'); }
  }

  lemma MarkerQuiet(s: State, s': State)
    requires HistOk(s) && LogOk(s) && s'.frames == s.frames && s'.log == s.log
    ensures HistOk(s') && LogOk(s')
  {
  }

  lemma MarkerSeen(s: State, s': State)
    requires SeenOk(s) && s.phase.Waiting? && |s.cq| > 0 && s.cq[0].user.Marker? && s.running
    requires s' == s.(phase := Dispatching(s.phase.root), running := false)
    ensures SeenOk(s')
  {
    assert Handled(s') == s.seen + [s.cq[0]];
    assert Handled(s) == s.seen;
    UsersSnoc(s.seen, s.cq[0]);
  }

  lemma AwaiterTaken(s: State)
    requires FramesInv(s) && Enabled(s, WaitOk) && s.cq[0].user.Awaiter?
    requires var op := s.cq[0].user.op; op.id in s.frames && s.frames[op.id].status == OnIo(op.op)
    ensures var op, r := s.cq[0].user.op, Dispatch(s);
            var f := s.frames[op.id];
            && r.Ok? && s.running && op.op == |f.hist| && Next(f).AwaitIo?
            && r.state.frames == s.frames[op.id := Receive(f, IoResult(s.cq[0].res)).(status := Running, io := None)]
            && r.state == s.(phase := Dispatching(s.phase.root), stack := s.stack + [op.id], frames := r.state.frames,
               log := s.log[op := s.cq[0].res])
  {
    var op := s.cq[0].user.op;
    assert LifeOk(op.id, s.frames[op.id], IsRoot(s, op.id));
    assert PhaseOk(s);
    hide FramesInv;
    DispatchResult(s);
  }

  lemma DispatchAwaiterHistory(s: State)
    requires FramesInv(s) && Histories(s) && Enabled(s, WaitOk) && s.cq[0].user.Awaiter?
    requires var op := s.cq[0].user.op; op.id in s.frames && s.frames[op.id].status == OnIo(op.op)
    ensures Dispatch(s).Ok? && Histories(Dispatch(s).state)
  {
    var op := s.cq[0].user.op;
    hide FramesInv, Dispatch, RingOk, HistOk, LogOk, SeenOk;
    AwaiterTaken(s);
    var s' := Dispatch(s).state;
    LogStep(s, s', op.id, s'.frames[op.id], s.cq[0].res);
    DispatchSeen(s, s', op);
    AwaiterDemand(s, s', op, s'.frames[op.id]);
    hide Expected;
    TakeRing(s, s');
  }

  lemma AwaiterDemand(s: State, s': State, op: OpId, f': Frame)
    requires s.phase.Waiting? && s.running && op.id in s.frames && s.frames[op.id].status == OnIo(op.op)
    requires s'.frames == s.frames[op.id := f'] && f'.status.Running? && s'.phase == Dispatching(s.phase.root)
    requires s'.running
    ensures forall v: UserData :: Expected(s', v) == Expected(s, v) - if v == Awaiter(op) then 1 else 0
  {
  }

  lemma {:induction false} UsersNone(q: seq<Cqe>, u: UserData)
    ensures Users(q)[u] == 0 <==> forall i :: 0 <= i < |q| ==> q[i].user != u
  {
    if q != [] {
      UsersNone(q[1..], u);
      assert forall i :: 0 < i < |q| ==> q[i] == q[1..][i - 1];
    }
  }

  lemma DispatchSeen(s: State, s': State, op: OpId)
    requires SeenOk(s) && s.phase.Waiting? && |s.cq| > 0 && s.cq[0].user == Awaiter(op) && s.running
    requires op !in s.log && s'.log == s.log[op := s.cq[0].res]
    requires s'.phase == Dispatching(s.phase.root) && s'.cq == s.cq && s'.seen == s.seen && s'.runs == s.runs
    requires s'.running
    ensures SeenOk(s')
  {
    assert Handled(s') == s.seen + [s.cq[0]];
    assert Handled(s) == s.seen;
    UsersSnoc(s.seen, s.cq[0]);
    UsersNone(s.seen, Awaiter(op));
    hide Users;
  }

  lemma DispatchHistory(s: State)
    requires FramesInv(s) && Histories(s) && Enabled(s, WaitOk)
    ensures Dispatch(s).Ok? && Histories(Dispatch(s).state)
  {
    HeadDue(s);
    DispatchKeeps(s);
    assert PhaseOk(s);
    hide FramesInv, Histories;
    match s.cq[0].user
    case Null =>
    case Marker =>
      DispatchMarkerHistory(s);
    case Awaiter(op) =>
      DispatchAwaiterHistory(s);
  }

  lemma HeadDue(s: State)
    requires RingOk(s) && s.phase.Waiting? && |s.cq| > 0
    ensures Pending(s)[s.cq[0].user] == Expected(s, s.cq[0].user) > 0
    ensures s.cq[0].user.Awaiter? ==>
              s.cq[0].user.op.id in s.frames && s.frames[s.cq[0].user.op.id].status == OnIo(s.cq[0].user.op.op)
  {
    assert s.cq[0].user in Users(s.cq);
  }

  /** One allowed step: no fault, and the whole invariant again. */
  lemma StepKeeps(s: State, c: Choice)
    requires Inv(s) && Allowed(s, c)
    ensures Step(s, c).Ok? && Inv(Step(s, c).state)
  {
    assert PhaseOk(s) && Histories(s);
    hide FramesInv, RingOk, HistOk, LogOk, SeenOk;
    match c
    case Act(accept) =>
      AdvanceKeeps(s, accept);
      AdvanceHistory(s, accept);
    case Completes(u, res) =>
      KernelKeeps(s, u, res);
      KernelHistory(s, u, res);
    case WaitOk =>
      HeadDue(s) by { assert Histories(s); }
      DispatchKeeps(s);
      DispatchHistory(s);
    case WaitError(_) =>
    case Return =>
      ReturnKeeps(s);
      ReturnHistory(s);
    case StartRun(prog) =>
      StartKeeps(s, prog);
      StartHistory(s, BlockRun(s, prog), Root(s.roots));
    case StartDetached(prog) =>
      StartKeeps(s, prog);
      StartHistory(s, MainDetach(s, prog), Root(s.roots));
  }
}
