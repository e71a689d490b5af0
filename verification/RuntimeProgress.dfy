/**
  Runs come to an end. When every submit works and every operation completes with the result that a log
  gives, each step lowers what is left to do, and until `run` returns there is a next step.
 */
module RuntimeProgress {
  import opened Wrappers
  import opened Programs
  import opened Costs
  import opened Runtime
  import opened RuntimeInvariant
  import opened RuntimeSafety
  import opened RuntimeHistory
  import opened RuntimeTheorems
  import opened RuntimeLifetime
  import opened RuntimeEffects

  // ---- Sums. ----

  ghost function Sum(m: map<Id, int>): int
    decreases |m|
  {
    if m == map[] then 0
    else
      var k :| k in m;
      m[k] + Sum(m - {k})
  }

  lemma {:induction false} SumTakes(m: map<Id, int>, k: Id)
    requires k in m
    ensures Sum(m) == m[k] + Sum(m - {k})
    decreases |m|
  {
    var j :| j in m && Sum(m) == m[j] + Sum(m - {j});
    if j != k {
      SumTakes(m - {j}, k);
      SumTakes(m - {k}, j);
      assert m - {j} - {k} == m - {k} - {j};
    }
  }

  lemma SumSet(m: map<Id, int>, k: Id, n: int)
    ensures Sum(m[k := n]) == Sum(m) + n - if k in m then m[k] else 0
  {
    SumTakes(m[k := n], k);
    if k in m {
      SumTakes(m, k);
      assert m[k := n] - {k} == m - {k};
    } else {
      assert m[k := n] - {k} == m;
    }
  }

  lemma {:induction false} SumNat(m: map<Id, int>)
    requires forall k :: k in m ==> m[k] >= 0
    ensures Sum(m) >= 0
    decreases |m|
  {
    if m != map[] {
      var k :| k in m && Sum(m) == m[k] + Sum(m - {k});
      SumNat(m - {k});
    }
  }

  // ---- What is left to do. ----

  /** What a frame still has to do. A frame that awaits has started its task already. */
  ghost function Load(id: Id, f: Frame, log: IoLog): int {
    match f.status
    case Running => 10 * CostOf(f.prog, id, f.hist, log) + 4
    case OnIo(_) => 10 * CostOf(f.prog, id, f.hist, log)
    case OnTask(_) => 10 * (CostOf(f.prog, id, f.hist, log) - 1 - KidCostOf(f.prog, id, f.hist, log))
    case _ => 0
  }

  ghost function Loads(frames: map<Id, Frame>, log: IoLog): map<Id, int> {
    map id | id in frames :: Load(id, frames[id], log)
  }

  /** The main thread is inside a call that has to return. */
  function Busy(s: State): int {
    if s.phase.Idle? || s.phase.Waiting? then 0 else 1
  }

  ghost function Left(s: State, log: IoLog): int {
    Sum(Loads(s.frames, log)) + 3 * (|s.sq| + |s.flying|) + 2 * |Unhandled(s)| + Busy(s)
  }

  lemma LoadsSet(frames: map<Id, Frame>, id: Id, f: Frame, log: IoLog)
    ensures Sum(Loads(frames[id := f], log)) == Sum(Loads(frames, log))
            + Load(id, f, log) - if id in frames then Load(id, frames[id], log) else 0
  {
    assert Loads(frames[id := f], log) == Loads(frames, log)[id := Load(id, f, log)];
    SumSet(Loads(frames, log), id, Load(id, f, log));
  }

  lemma LoadsSetBoth(frames: map<Id, Frame>, a: Id, f: Frame, b: Id, g: Frame, log: IoLog)
    requires a in frames && a != b
    ensures Sum(Loads(frames[a := f][b := g], log)) ==
              Sum(Loads(frames, log)) + Load(a, f, log) - Load(a, frames[a], log)
                + Load(b, g, log) - if b in frames then Load(b, frames[b], log) else 0
  {
    LoadsSet(frames, a, f, log);
    LoadsSet(frames[a := f], b, g, log);
  }

  lemma {:induction false} SumPadded(m: map<Id, int>, m': map<Id, int>)
    requires m.Keys <= m'.Keys && forall k :: k in m' ==> m'[k] == if k in m then m[k] else 0
    ensures Sum(m') == Sum(m)
    decreases |m'|
  {
    if m' == map[] {
      assert m == map[];
    } else {
      var k :| k in m' && Sum(m') == m'[k] + Sum(m' - {k});
      SumPadded(m - {k}, m' - {k});
      if k in m {
        SumTakes(m, k);
      } else {
        assert m - {k} == m;
      }
    }
  }

  /** Apart from frame `id`, frames only change or appear while they have nothing to do. */
  ghost predicate OthersIdle(s: State, s': State, id: Id) {
    && id in s.frames && id in s'.frames && s.frames.Keys <= s'.frames.Keys
    && (forall k :: k in s.frames && k != id ==>
       s'.frames[k] == s.frames[k] || (!Active(s.frames[k]) && !Active(s'.frames[k])))
    && (forall k :: k in s'.frames && k !in s.frames ==> !Active(s'.frames[k]))
  }

  lemma LoadsQuiet(s: State, s': State, id: Id, log: IoLog)
    requires OthersIdle(s, s', id)
    ensures Sum(Loads(s'.frames, log)) == Sum(Loads(s.frames, log)) - Load(id, s.frames[id], log)
            + Load(id, s'.frames[id], log)
  {
    var m, m' := Loads(s.frames, log), Loads(s'.frames, log);
    var n := Load(id, s.frames[id], log);
    SumPadded(m, m'[id := n]);
    SumSet(m', id, n);
  }

  // ---- A run that keeps to a log. ----

  /** Nothing waits to be submitted, what was received is in the log, and what is unfinished ends on it. */
  ghost predicate OnLog(s: State, log: IoLog) {
    && s.sq == [] && Extends(s.log, log)
    && forall id :: id in s.frames && Active(s.frames[id]) ==> Halts(s.frames[id].prog, id, s.frames[id].hist, log)
  }

  /** What a frame received last is what the log gives it, and one action less is left. */
  lemma Paid(s': State, id: Id, f: Frame, x: Input, log: IoLog)
    requires Inv(s') && id in s'.frames && Extends(s'.log, log) && s'.frames[id].prog == f.prog
    requires s'.frames[id].hist == f.hist + [x]
    requires Halts(f.prog, id, f.hist, log) && !Ends(Next(f))
    ensures Halts(f.prog, id, f.hist + [x], log)
    ensures CostOf(f.prog, id, f.hist, log) == 1 + CostOf(f.prog, id, f.hist + [x], log)
            + KidCostOf(f.prog, id, f.hist, log)
  {
    hide Inv, Halts, CostOf, KidCostOf;
    FaithfulFact(s', id);
    var h := f.hist + [x];
    assert Answers(f.prog, id, h[..|f.hist|], h[|f.hist|], s'.log);
    assert h[..|f.hist|] == f.hist;
    CostAt(f.prog, id, f.hist, x, log, s'.log);
  }

  /** The top frame receives an input and goes on; others change only while they have nothing to do. */
  lemma ReceiveLowers(s: State, s': State, x: Input, log: IoLog)
    requires HasTop(s) && s.frames[Top(s)].status.Running? && OnLog(s, log) && Inv(s') && OthersIdle(s, s', Top(s))
    requires var f, f' := s.frames[Top(s)], s'.frames[Top(s)];
             f'.prog == f.prog && f'.hist == f.hist + [x] && f'.status.Running? && !Ends(Next(f))
    requires s'.sq == s.sq && s'.flying == s.flying && s'.cq == s.cq && s'.phase == s.phase && s'.log == s.log
    ensures OnLog(s', log) && Left(s', log) < Left(s, log)
  {
    hide Inv, Halts, CostOf, KidCostOf, Sum, Loads;
    var id, f := Top(s), s.frames[Top(s)];
    Paid(s', id, f, x, log);
    LoadsQuiet(s, s', id, log);
    assert Unhandled(s') == Unhandled(s);
  }

  // ---- The actions. ----

  /** What the action of the top frame leads to, when it lowers what is left. */
  ghost predicate Lowers(s: State, s': State, log: IoLog) {
    OnLog(s', log) && Left(s', log) < Left(s, log)
  }

  lemma ContextLowers(s: State, log: IoLog)
    requires FramesInv(s) && HasTop(s) && Next(s.frames[Top(s)]).AwaitContext? && OnLog(s, log) && Inv(ActContext(s))
    ensures Lowers(s, ActContext(s), log)
  {
    hide FramesInv, Inv, OnLog, LifeOk;
    TopFacts(s);
    ReceiveLowers(s, ActContext(s), ContextIs(s.frames[Top(s)].attached), log);
  }

  lemma CreateLowers(s: State, child: Program, log: IoLog)
    requires FramesInv(s) && HasTop(s) && Next(s.frames[Top(s)]) == Create(child) && OnLog(s, log)
    requires Inv(ActCreate(s, child))
    ensures Lowers(s, ActCreate(s, child), log)
  {
    hide FramesInv, Inv, OnLog, LifeOk;
    TopFacts(s);
    FreshKid(s);
    ReceiveLowers(s, ActCreate(s, child), Unit, log);
  }

  lemma MoveConstructLowers(s: State, from: nat, log: IoLog)
    requires FramesInv(s) && HasTop(s) && Next(s.frames[Top(s)]) == MoveConstruct(from) && OnLog(s, log)
    requires Inv(ActMoveConstruct(s, from))
    ensures Lowers(s, ActMoveConstruct(s, from), log)
  {
    hide FramesInv, Inv, OnLog, LifeOk;
    TopFacts(s);
    ReceiveLowers(s, ActMoveConstruct(s, from), Unit, log);
  }

  /** The top frame receives `Unit`, and the task in its variable `v` is destroyed. */
  lemma DestroyLowers(s: State, s': State, v: nat, log: IoLog)
    requires FramesInv(s) && HasTop(s) && !Ends(Next(s.frames[Top(s)])) && OnLog(s, log) && Inv(s')
    requires v in s.frames[Top(s)].vars && Ownable(s, s.frames[Top(s)].vars[v])
    requires var id, f, kid := Top(s), s.frames[Top(s)], s.frames[Top(s)].vars[v];
             && id in s'.frames && s'.frames[id] == Receive(f, Unit).(vars := s'.frames[id].vars)
             && s'.frames == s.frames[id := s'.frames[id]][kid := s.frames[kid].(status := Destroyed)]
             && SameRest(s, s')
    ensures Lowers(s, s', log)
  {
    hide FramesInv, Inv, OnLog, LifeOk;
    TopFacts(s);
    KidFacts(s, v);
    ReceiveLowers(s, s', Unit, log);
  }

  lemma MoveAssignLowers(s: State, to: nat, from: nat, log: IoLog)
    requires FramesInv(s) && HasTop(s) && Next(s.frames[Top(s)]) == MoveAssign(to, from) && Disciplined(s, Act(0))
    requires OnLog(s, log)
    requires ActMoveAssign(s, to, from).Ok? && Inv(ActMoveAssign(s, to, from).state)
    ensures Lowers(s, ActMoveAssign(s, to, from).state, log)
  {
    hide FramesInv, Inv, OnLog, LifeOk, Exchange;
    TopFacts(s);
    var s' := ActMoveAssign(s, to, from).state;
    if to != from && to in s.frames[Top(s)].vars {
      KidFacts(s, to);
      DestroyLowers(s, s', to, log);
    } else {
      ReceiveLowers(s, s', Unit, log);
    }
  }

  lemma DropLowers(s: State, v: nat, log: IoLog)
    requires FramesInv(s) && HasTop(s) && Next(s.frames[Top(s)]) == Drop(v) && Disciplined(s, Act(0)) && OnLog(s, log)
    requires ActDrop(s, v).Ok? && Inv(ActDrop(s, v).state)
    ensures Lowers(s, ActDrop(s, v).state, log)
  {
    hide FramesInv, Inv, OnLog, LifeOk;
    TopFacts(s);
    var s' := ActDrop(s, v).state;
    if v in s.frames[Top(s)].vars {
      KidFacts(s, v);
      DestroyLowers(s, s', v, log);
    } else {
      ReceiveLowers(s, s', Unit, log);
    }
  }

  lemma IoLowers(s: State, accept: nat, log: IoLog)
    requires HasTop(s) && s.frames[Top(s)].status.Running? && Next(s.frames[Top(s)]).AwaitIo? && OnLog(s, log)
    requires accept >= 1
    ensures Lowers(s, ActIo(s, accept), log)
  {
    hide Sum, Loads, Halts, CostOf, KidCostOf;
    var id, s' := Top(s), ActIo(s, accept);
    SuspendIoResult(s, accept);
    LoadsSet(s.frames, id, s'.frames[id], log);
    assert Unhandled(s') == Unhandled(s);
    assert s'.sq == [] && |s'.flying| == |s.flying| + 1;
  }

  /** The task in the variable that the next action names. */
  lemma NamedTask(s: State, v: nat)
    requires FramesInv(s) && HasTop(s) && v in s.frames[Top(s)].vars && Named(Next(s.frames[Top(s)])) == Some(v)
    ensures var f := s.frames[Top(s)];
            var kid := f.vars[v];
            && TaskAt(f.prog, Top(s), f.hist) == Some(kid) && kid in s.frames && kid != Top(s)
            && f.prog(f.hist[..kid.birth]) == Create(s.frames[kid].prog)
  {
    hide FramesInv, LifeOk;
    KidFacts(s, v);
    RunningVars(s, v);
    hide VarsAt;
  }

  lemma LaunchLowers(s: State, v: nat, detached: bool, log: IoLog)
    requires FramesInv(s) && HasTop(s) && Next(s.frames[Top(s)]) == (if detached then LaunchDetached(v) else Launch(v))
    requires Disciplined(s, Act(0)) && OnLog(s, log) && ActLaunch(s, v, detached).Ok?
    requires Inv(ActLaunch(s, v, detached).state)
    ensures Lowers(s, ActLaunch(s, v, detached).state, log)
  {
    hide FramesInv, Inv, LifeOk, Sum, Loads, Halts, CostOf, KidCostOf;
    TopFacts(s);
    NamedTask(s, v);
    LaunchResult(s, v, detached);
    hide ActLaunch, NextVars;
    var id, s' := Top(s), ActLaunch(s, v, detached).state;
    var kid := s.frames[id].vars[v];
    CreatedHist(s, kid);
    Paid(s', id, s.frames[id], Unit, log);
    StartPaid(s, s', id, kid, log);
    assert Unhandled(s') == Unhandled(s);
  }

  lemma CreatedHist(s: State, kid: Id)
    requires FramesInv(s) && kid in s.frames && s.frames[kid].status.Created?
    ensures s.frames[kid].hist == []
  {
    hide FramesInv;
    LifeFact(s, kid);
    hide VarsOk;
  }

  /** Frame `id` goes on or awaits, and the task that its action names starts to run: the cost of the task has
      been put aside. */
  lemma StartPaid(s: State, s': State, id: Id, kid: Id, log: IoLog)
    requires OnLog(s, log) && id in s.frames && kid in s.frames && id != kid && s.frames[id].status.Running?
    requires s.frames[kid].status.Created?
    requires id in s'.frames && kid in s'.frames && s'.frames == s.frames[id := s'.frames[id]][kid := s'.frames[kid]]
    requires var f, f' := s.frames[id], s'.frames[id];
             && !Ends(Next(f)) && f'.prog == f.prog && Halts(f.prog, id, f'.hist, log)
             && TaskAt(f.prog, id, f.hist) == Some(kid) && f.prog(f.hist[..kid.birth]) == Create(s.frames[kid].prog)
             && Named(Next(f)).Some?
             && Load(id, f', log) <= 10 * (CostOf(f.prog, id, f.hist, log) - 1 - KidCostOf(f.prog, id, f.hist, log)) + 4
    requires var k, k' := s.frames[kid], s'.frames[kid];
             k'.prog == k.prog && k.hist == [] && k'.hist == [] && k'.status.Running?
    ensures Sum(Loads(s'.frames, log)) < Sum(Loads(s.frames, log))
    ensures Halts(s'.frames[kid].prog, kid, s'.frames[kid].hist, log)
  {
    hide Sum, Loads, Halts, CostOf;
    var f := s.frames[id];
    var x := CostStep(f.prog, id, f.hist, log);
    LoadsSetBoth(s.frames, id, s'.frames[id], kid, s'.frames[kid], log);
  }

  lemma AwaitLowers(s: State, v: nat, byMove: bool, log: IoLog)
    requires FramesInv(s) && HasTop(s) && Next(s.frames[Top(s)]) == AwaitTask(v, byMove)
    requires Disciplined(s, Act(0)) && OnLog(s, log) && ActAwaitTask(s, v, byMove).Ok?
    requires Inv(ActAwaitTask(s, v, byMove).state)
    ensures Lowers(s, ActAwaitTask(s, v, byMove).state, log)
  {
    hide FramesInv, Inv, VarsOk, Sum, Loads, Halts, CostOf, KidCostOf, OnLog;
    TopFacts(s);
    KidFacts(s, v);
    NamedTask(s, v);
    AwaitResult(s, v, byMove);
    hide ActAwaitTask, NextVars, Disciplined;
    var id, s' := Top(s), ActAwaitTask(s, v, byMove).state;
    var kid := s.frames[id].vars[v];
    if s.frames[kid].status.Done? {
      var o := OutcomeOf(Next(s.frames[kid]));
      assert HoldsOutcome(s.frames[kid], o);
      hide LifeOk;
      ReceiveLowers(s, s', Awaited(o), log);
    } else if s.frames[kid].daemon {
      hide LifeOk;
      AwaitDaemonLowers(s, s', kid, log);
    } else {
      CreatedHist(s, kid);
      hide LifeOk;
      AwaitCreatedLowers(s, s', kid, log);
    }
  }

  lemma AwaitDaemonLowers(s: State, s': State, kid: Id, log: IoLog)
    requires HasTop(s) && OnLog(s, log) && kid in s.frames && kid != Top(s) && kid in s'.frames && Top(s) in s'.frames
    requires s'.frames == s.frames[Top(s) := s'.frames[Top(s)]][kid := s'.frames[kid]] && SameRest(s, s')
    requires var f, f' := s.frames[Top(s)], s'.frames[Top(s)];
             f.status.Running? && !Ends(Next(f)) && f'.prog == f.prog && f'.hist == f.hist && f'.status.OnTask?
    requires var k, k' := s.frames[kid], s'.frames[kid]; k'.prog == k.prog && k'.hist == k.hist && k'.status == k.status
    ensures Lowers(s, s', log)
  {
    hide Sum, Loads, Halts, CostOf;
    var f := s.frames[Top(s)];
    var x := CostStep(f.prog, Top(s), f.hist, log);
    LoadsSetBoth(s.frames, Top(s), s'.frames[Top(s)], kid, s'.frames[kid], log);
    assert Unhandled(s') == Unhandled(s);
  }

  lemma AwaitCreatedLowers(s: State, s': State, kid: Id, log: IoLog)
    requires HasTop(s) && OnLog(s, log) && kid in s.frames && kid != Top(s) && kid in s'.frames && Top(s) in s'.frames
    requires s'.frames == s.frames[Top(s) := s'.frames[Top(s)]][kid := s'.frames[kid]] && SameRest(s, s')
    requires var f, f' := s.frames[Top(s)], s'.frames[Top(s)];
             && f.status.Running? && !Ends(Next(f)) && f'.prog == f.prog && f'.hist == f.hist && f'.status.OnTask?
             && TaskAt(f.prog, Top(s), f.hist) == Some(kid)
             && f.prog(f.hist[..kid.birth]) == Create(s.frames[kid].prog) && Named(Next(f)).Some?
    requires var k, k' := s.frames[kid], s'.frames[kid];
             k.status.Created? && k'.prog == k.prog && k.hist == [] && k'.hist == [] && k'.status.Running?
    ensures Lowers(s, s', log)
  {
    hide Sum, Loads, Halts, CostOf, KidCostOf;
    StartPaid(s, s', Top(s), kid, log);
    assert Unhandled(s') == Unhandled(s);
  }

  // ---- The end of a body. ----

  /** A frame that is unchanged, or was and is without anything to do. */
  ghost predicate Idles(f: Frame, f': Frame) {
    f'.prog == f.prog && f'.hist == f.hist && (f' == f || (!Active(f) && !Active(f')))
  }

  lemma LocalsIdle(s: State)
    requires HasTop(s) && LocalsOwnable(s)
    ensures var s1 := AfterLocals(s);
            && s1.frames.Keys == s.frames.Keys && SameRest(s, s1)
            && s1.frames[Top(s)] == s.frames[Top(s)].(vars := map[])
            && forall k :: k in s.frames && k != Top(s) ==> Idles(s.frames[k], s1.frames[k])
  {
    forall k | k in s.frames[Top(s)].vars.Values ensures Ownable(s, k) {
      var v :| v in s.frames[Top(s)].vars && s.frames[Top(s)].vars[v] == k;
    }
    hide LocalsOwnable;
  }

  lemma LocalsLower(s: State, log: IoLog)
    requires HasTop(s) && LocalsOwnable(s) && OnLog(s, log) && s.frames[Top(s)].status.Running?
    ensures var s1 := AfterLocals(s);
            OnLog(s1, log) && Left(s1, log) <= Left(s, log) && s1.frames[Top(s)].status.Running?
  {
    hide Sum, Loads, Halts, CostOf, KidCostOf;
    var s1 := AfterLocals(s);
    LocalsIdle(s);
    hide AfterLocals, LocalsOwnable;
    assert OthersIdle(s, s1, Top(s));
    LoadsQuiet(s, s1, Top(s), log);
    hide OthersIdle;
    assert Unhandled(s1) == Unhandled(s);
  }

  lemma EndLowers(s: State, o: Outcome, accept: nat, log: IoLog)
    requires FramesInv(s) && HasTop(s) && Ends(Next(s.frames[Top(s)])) && o == OutcomeOf(Next(s.frames[Top(s)]))
    requires accept >= 1
    requires Disciplined(s, Act(accept)) && OnLog(s, log) && ActEnd(s, o, accept).Ok? && Inv(ActEnd(s, o, accept).state)
    ensures Lowers(s, ActEnd(s, o, accept).state, log)
  {
    hide FramesInv, Inv, LifeOk, OnLog, ActEnd, FinalSuspend;
    TopFacts(s);
    TopInjective(s);
    assert LocalsOwnable(s);
    hide Disciplined;
    EndResult(s, o, accept);
    LocalsKeep(s);
    LocalsLower(s, log);
    EndFromLowers(s, o, accept, log);
  }

  lemma EndFromLowers(s: State, o: Outcome, accept: nat, log: IoLog)
    requires HasTop(s) && HasTop(AfterLocals(s)) && FramesInv(AfterLocals(s)) && OnLog(AfterLocals(s), log)
    requires accept >= 1
    requires Left(AfterLocals(s), log) <= Left(s, log)
    requires Ends(Next(s.frames[Top(s)])) && o == OutcomeOf(Next(s.frames[Top(s)]))
    requires var r := FinalSuspend(SetFrame(AfterLocals(s), Top(s), Finished(s, o)), accept); r.Ok? && Inv(r.state)
    ensures Lowers(s, FinalSuspend(SetFrame(AfterLocals(s), Top(s), Finished(s, o)), accept).state, log)
  {
    hide FramesInv, Inv, OnLog, FinalSuspend, Left;
    var s1 := AfterLocals(s);
    assert SetFrame(s1, Top(s), Finished(s, o)) == AtFinal(s1, o);
    assert s1.frames[Top(s1)] == s.frames[Top(s)].(vars := map[]);
    hide AfterLocals;
    FinalLowers(s1, o, accept, log);
  }

  lemma FinalLowers(s: State, o: Outcome, accept: nat, log: IoLog)
    requires FramesInv(s) && HasTop(s) && Ends(Next(s.frames[Top(s)])) && o == OutcomeOf(Next(s.frames[Top(s)]))
    requires accept >= 1
    requires OnLog(s, log) && FinalSuspend(AtFinal(s, o), accept).Ok? && Inv(FinalSuspend(AtFinal(s, o), accept).state)
    ensures Lowers(s, FinalSuspend(AtFinal(s, o), accept).state, log)
  {
    hide FramesInv, Inv, OnLog, FinalSuspend, LifeOk, LinkOk, Left;
    TopFacts(s);
    if s.frames[Top(s)].caller.Some? {
      CallerFacts(s);
      CallerAwaits(s);
      RunsEmpty(s);
      ToCallerResult(s, o, accept);
      BackLowers(s, FinalSuspend(AtFinal(s, o), accept).state, o, log);
    } else if s.frames[Top(s)].daemon {
      DaemonLowers(s, o, accept, log);
    } else {
      RunsAttached(Top(s), s.frames[Top(s)], IsRoot(s, Top(s)));
      RootLowers(s, o, accept, log);
    }
  }

  lemma CallerAwaits(s: State)
    requires FramesInv(s) && HasTop(s) && s.frames[Top(s)].caller.Some?
    ensures var p := s.frames[Top(s)].caller.value; p in s.frames && Next(s.frames[p]).AwaitTask?
  {
    hide FramesInv;
    CallerFacts(s);
  }

  lemma BackLowers(s: State, s': State, o: Outcome, log: IoLog)
    requires HasTop(s) && s.frames[Top(s)].status.Running? && s.frames[Top(s)].caller.Some? && OnLog(s, log)
    requires Inv(s') && SameRest(s, s')
    requires var id, p := Top(s), s.frames[Top(s)].caller.value;
             && p in s.frames && p != id && s.frames[p].status.OnTask? && Next(s.frames[p]).AwaitTask?
             && s'.frames == s.frames[id := Finished(s, o)][p := Receive(s.frames[p], Awaited(o)).(status := Running)]
    ensures Lowers(s, s', log)
  {
    hide Inv, Sum, Loads, Halts, CostOf, KidCostOf;
    var id, p := Top(s), s.frames[Top(s)].caller.value;
    Paid(s', p, s.frames[p], Awaited(o), log);
    CostPositive(s.frames[id].prog, id, s.frames[id].hist, log);
    LoadsSetBoth(s.frames, id, s'.frames[id], p, s'.frames[p], log);
    assert Unhandled(s') == Unhandled(s);
  }

  lemma DaemonLowers(s: State, o: Outcome, accept: nat, log: IoLog)
    requires HasTop(s) && s.frames[Top(s)].status.Running? && s.frames[Top(s)].caller.None? && s.frames[Top(s)].daemon
    requires OnLog(s, log)
    ensures FinalSuspend(AtFinal(s, o), accept).Ok? && Lowers(s, FinalSuspend(AtFinal(s, o), accept).state, log)
  {
    hide Sum, Loads, Halts, CostOf, KidCostOf;
    var id, s' := Top(s), Pop(AtFinal(s, o));
    assert FinalSuspend(AtFinal(s, o), accept) == Ok(s');
    CostPositive(s.frames[id].prog, id, s.frames[id].hist, log);
    LoadsSet(s.frames, id, s'.frames[id], log);
    assert Unhandled(s') == Unhandled(s);
  }

  lemma RootLowers(s: State, o: Outcome, accept: nat, log: IoLog)
    requires HasTop(s) && s.frames[Top(s)].status.Running? && s.frames[Top(s)].caller.None?
    requires !s.frames[Top(s)].daemon && s.frames[Top(s)].attached
    requires OnLog(s, log) && accept >= 1
    ensures FinalSuspend(AtFinal(s, o), accept).Ok? && Lowers(s, FinalSuspend(AtFinal(s, o), accept).state, log)
  {
    hide FinalSuspend, Sum, Loads, Halts, CostOf, KidCostOf;
    RootEndsResult(s, o, accept);
    var id, s' := Top(s), FinalSuspend(AtFinal(s, o), accept).state;
    CostPositive(s.frames[id].prog, id, s.frames[id].hist, log);
    LoadsSet(s.frames, id, s'.frames[id], log);
    assert Unhandled(s') == Unhandled(s);
    assert s'.sq == [] && |s'.flying| == |s.flying| + 1;
  }

  // ---- Every step. ----

  /** What the environment does: it starts nothing new, no wait or submit fails, and completions bring the
      results of the log. */
  predicate Cooperates(c: Choice, log: IoLog) {
    match c
    case Act(accept) => accept >= 1
    case Completes(u, res) => u.Awaiter? ==> u.op in log && log[u.op] == res
    case WaitOk => true
    case Return => true
    case _ => false
  }

  lemma ActLowers(s: State, accept: nat, log: IoLog)
    requires FramesInv(s) && Allowed(s, Act(accept)) && OnLog(s, log) && accept >= 1
    requires Advance(s, accept).Ok? && Inv(Advance(s, accept).state)
    ensures Lowers(s, Advance(s, accept).state, log)
  {
    hide FramesInv, Inv, OnLog, Lowers, ActDrop, ActMoveAssign, ActLaunch, ActAwaitTask, ActEnd, ActIo;
    TopFacts(s);
    match Next(s.frames[Top(s)])
    case AwaitContext => ContextLowers(s, log);
    case Create(child) => CreateLowers(s, child, log);
    case MoveConstruct(from) => MoveConstructLowers(s, from, log);
    case MoveAssign(to, from) => MoveAssignLowers(s, to, from, log);
    case Drop(v) => DropLowers(s, v, log);
    case AwaitIo => IoLowers(s, accept, log);
    case Launch(v) => LaunchLowers(s, v, false, log);
    case LaunchDetached(v) => LaunchLowers(s, v, true, log);
    case AwaitTask(v, byMove) => AwaitLowers(s, v, byMove, log);
    case CoReturn(v) => EndLowers(s, Value(v), accept, log);
    case CoThrow(e) => EndLowers(s, Exception(e), accept, log);
  }

  lemma CompletesLowers(s: State, u: UserData, res: int, log: IoLog)
    requires PhaseOk(s) && u in s.flying && OnLog(s, log)
    ensures Lowers(s, KernelCompletes(s, u, res), log)
  {
    hide Sum, Loads, Halts;
    var s' := KernelCompletes(s, u, res);
    assert Unhandled(s') == Unhandled(s) + [Cqe(u, res)];
  }

  lemma DispatchLowers(s: State, log: IoLog)
    requires FramesInv(s) && Histories(s) && Enabled(s, WaitOk) && OnLog(s, log) && Dispatch(s).Ok?
    requires Inv(Dispatch(s).state)
    requires s.cq[0].user.Awaiter? ==> s.cq[0].user.op in log && log[s.cq[0].user.op] == s.cq[0].res
    ensures Lowers(s, Dispatch(s).state, log)
  {
    hide FramesInv, RingOk, HistOk, LogOk, SeenOk, Inv, Sum, Loads, Halts, CostOf, KidCostOf, OnLog;
    HeadDue(s);
    if s.cq[0].user.Awaiter? {
      AwaiterTaken(s);
      hide Dispatch;
      AwaiterLowers(s, Dispatch(s).state, s.cq[0].user.op, s.cq[0].res, log);
    } else {
      PlainLowers(s, Dispatch(s).state, log);
    }
  }

  lemma PlainLowers(s: State, s': State, log: IoLog)
    requires OnLog(s, log) && s.phase.Waiting? && |s.cq| > 0
    requires s' == s.(phase := Dispatching(s.phase.root), running := s'.running)
    ensures Lowers(s, s', log)
  {
    hide Sum, Loads, Halts;
  }

  lemma AwaiterLowers(s: State, s': State, op: OpId, res: int, log: IoLog)
    requires OnLog(s, log) && Inv(s') && s.phase.Waiting? && |s.cq| > 0 && op in log && log[op] == res
    requires op.id in s.frames && s.frames[op.id].status == OnIo(op.op) && Next(s.frames[op.id]).AwaitIo?
    requires s'.frames == s.frames[op.id := Receive(s.frames[op.id], IoResult(res)).(status := Running, io := None)]
    requires s' == s.(phase := Dispatching(s.phase.root), stack := s'.stack, frames := s'.frames,
             log := s.log[op := res])
    ensures Lowers(s, s', log)
  {
    hide Inv, Sum, Loads, Halts, CostOf, KidCostOf;
    Paid(s', op.id, s.frames[op.id], IoResult(res), log);
    NoKid(s.frames[op.id], op.id, log);
    LoadsSet(s.frames, op.id, s'.frames[op.id], log);
  }

  lemma NoKid(f: Frame, id: Id, log: IoLog)
    requires Next(f).AwaitIo?
    ensures KidCostOf(f.prog, id, f.hist, log) == 0
  {
  }

  lemma ReturnLowers(s: State, log: IoLog)
    requires Enabled(s, Return) && OnLog(s, log)
    ensures Lowers(s, NativeReturn(s), log)
  {
    hide Sum, Loads, Halts;
    assert Unhandled(NativeReturn(s)) == Unhandled(s);
  }

  /** The completions in the ring bring the results of the log. */
  ghost predicate Posted(s: State, log: IoLog) {
    forall i :: 0 <= i < |s.cq| && s.cq[i].user.Awaiter? ==>
      s.cq[i].user.op in log && log[s.cq[i].user.op] == s.cq[i].res
  }

  lemma StepLowers(s: State, c: Choice, log: IoLog)
    requires Inv(s) && Allowed(s, c) && Cooperates(c, log) && OnLog(s, log) && Posted(s, log)
    ensures Step(s, c).Ok? && Inv(Step(s, c).state) && Posted(Step(s, c).state, log) && Lowers(s, Step(s, c).state, log)
  {
    hide Inv, FramesInv, Histories, Lowers, OnLog, Advance, Dispatch, NativeReturn;
    StepKeeps(s, c);
    InvFrames(s);
    match c
    case Act(accept) =>
      AdvanceLeavesLoop(s, accept);
      ActLowers(s, accept, log);
    case Completes(u, res) =>
      PhaseFact(s);
      CompletesLowers(s, u, res, log);
    case WaitOk =>
      DispatchKeepsRing(s);
      DispatchLowers(s, log);
    case Return =>
      ReturnRing(s);
      ReturnLowers(s, log);
  }

  lemma PhaseFact(s: State)
    requires FramesInv(s)
    ensures PhaseOk(s)
  {
  }

  lemma DispatchKeepsRing(s: State)
    requires Enabled(s, WaitOk)
    ensures Dispatch(s).Ok? ==> Dispatch(s).state.cq == s.cq
  {
    hide Receive;
  }

  lemma ReturnRing(s: State)
    requires Enabled(s, Return)
    ensures NativeReturn(s).cq == s.cq || (|s.cq| > 0 && NativeReturn(s).cq == s.cq[1..])
  {
  }

  // ---- Whole runs. ----

  /** A run in which every choice is on offer and the environment cooperates. */
  predicate Follows(s: State, cs: seq<Choice>, log: IoLog)
    decreases |cs|
  {
    cs == [] || (Allowed(s, cs[0]) && Cooperates(cs[0], log) && Step(s, cs[0]).Ok?
      && Follows(Step(s, cs[0]).state, cs[1..], log))
  }

  /** `r` is the root of the run, with body `prog`, and has ended if the run is over. */
  ghost predicate RootIs(s: State, r: Id, prog: Program) {
    r in s.frames && s.frames[r].prog == prog && if s.phase.Idle? then Ended(s.frames[r])
      else !s.phase.Launching? && s.phase.root == r
  }

  lemma StepRoot(s: State, c: Choice, r: Id, prog: Program, log: IoLog)
    requires Inv(s) && Allowed(s, c) && Cooperates(c, log) && Step(s, c).Ok? && RootIs(s, r, prog)
    ensures RootIs(Step(s, c).state, r, prog)
  {
    hide Inv;
    InvSettles(s, c);
    if s.phase.Idle? {
      IdleStep(s, c, log);
    } else {
      RunStep(s, c, log);
    }
  }

  lemma IdleStep(s: State, c: Choice, log: IoLog)
    requires Inv(s) && Allowed(s, c) && Cooperates(c, log) && s.phase.Idle?
    ensures Step(s, c).Ok? && Step(s, c).state.frames == s.frames && Step(s, c).state.phase.Idle?
  {
    hide StackOk, GraphOk, RingOk, HistOk, LogOk, SeenOk;
  }

  lemma RunStep(s: State, c: Choice, log: IoLog)
    requires Inv(s) && Allowed(s, c) && Cooperates(c, log) && Step(s, c).Ok? && !s.phase.Idle? && !s.phase.Launching?
    ensures var s' := Step(s, c).state;
            if s'.phase.Idle? then RootEnded(s) && s'.frames == s.frames
               else !s'.phase.Launching? && s'.phase.root == s.phase.root
  {
    hide Inv, RootEnded, Advance, Dispatch, Disciplined, NoEntryForMarker;
    StopsStep(s, c);
    match c
    case Act(accept) => AdvanceLeavesLoop(s, accept);
    case WaitOk => DispatchPhase(s);
    case _ =>
  }

  /** Each move of a run that keeps to the log lowers what is left. */
  lemma {:induction false} FollowsLowers(s: State, cs: seq<Choice>, log: IoLog)
    requires Inv(s) && OnLog(s, log) && Posted(s, log) && Follows(s, cs, log)
    ensures Exec(s, cs).Ok?
    ensures var s' := Exec(s, cs).state;
            Inv(s') && OnLog(s', log) && Posted(s', log) && |cs| + Left(s', log) <= Left(s, log)
    decreases |cs|
  {
    hide Inv, OnLog, Posted, Step, Allowed, Left, Cooperates;
    if cs != [] {
      AllowedEnabled(s, cs[0]);
      StepLowers(s, cs[0], log);
      FollowsLowers(Step(s, cs[0]).state, cs[1..], log);
    }
  }

  lemma {:induction false} FollowsRoot(s: State, cs: seq<Choice>, r: Id, prog: Program, log: IoLog)
    requires Inv(s) && RootIs(s, r, prog) && Follows(s, cs, log)
    ensures Exec(s, cs).Ok? && RootIs(Exec(s, cs).state, r, prog)
    decreases |cs|
  {
    hide Inv, RootIs, Step, Allowed, Cooperates;
    if cs != [] {
      AllowedEnabled(s, cs[0]);
      StepKeeps(s, cs[0]);
      StepRoot(s, cs[0], r, prog, log);
      FollowsRoot(Step(s, cs[0]).state, cs[1..], r, prog, log);
    }
  }

  lemma LeftNat(s: State, log: IoLog)
    requires Inv(s) && OnLog(s, log)
    ensures Left(s, log) >= 0
  {
    hide Inv, Halts, CostOf, KidCostOf;
    forall id | id in s.frames ensures Load(id, s.frames[id], log) >= 0 {
      if s.frames[id].status.OnTask? {
        AwaitsTask(s, id);
        var x := CostStep(s.frames[id].prog, id, s.frames[id].hist, log);
      }
    }
    SumNat(Loads(s.frames, log));
  }

  lemma AwaitsTask(s: State, id: Id)
    requires Inv(s) && id in s.frames && s.frames[id].status.OnTask?
    ensures Next(s.frames[id]).AwaitTask?
  {
    assert LinkOk(s, id);
  }

  /** While `run` waits and nothing is queued, something is in flight or completed. */
  lemma SomethingDue(s: State)
    requires Inv(s) && s.phase.Waiting? && s.sq == []
    ensures s.cq != [] || s.flying != multiset{}
  {
    var r := s.phase.root;
    assert PhaseOk(s);
    if Active(s.frames[r]) {
      WakeupDue(s, r);
    } else {
      assert Pending(s)[Marker] == Expected(s, Marker) == 1;
    }
  }

  /** As long as the run is not over, there is a next move; only the discipline of the body can forbid it. */
  lemma NextMove(s: State, log: IoLog) returns (c: Choice)
    requires Inv(s) && OnLog(s, log) && !s.phase.Idle?
    ensures Enabled(s, c) && Cooperates(c, log) && (Disciplined(s, c) ==> Allowed(s, c))
  {
    hide Inv, OnLog, Disciplined;
    if s.stack != [] {
      c := Act(1);
      TopRuns(s);
      assert |s.sq| < SQ_ENTRIES by { QueueEmpty(s, log); }
    } else if !s.phase.Waiting? {
      c := Return;
      if s.phase.Dispatching? {
        LoopHead(s);
      }
    } else if s.cq != [] {
      c := WaitOk;
    } else {
      QueueEmpty(s, log);
      SomethingDue(s);
      var u :| u in s.flying;
      if u.Awaiter? {
        FlightLogged(s, u, log);
        c := Completes(u, log[u.op]);
      } else {
        c := Completes(u, 0);
      }
    }
  }

  lemma TopRuns(s: State)
    requires Inv(s) && s.stack != []
    ensures HasTop(s)
  {
    assert s.stack[|s.stack| - 1] in s.stack;
    assert IsRunning(s, s.stack[|s.stack| - 1]);
  }

  lemma QueueEmpty(s: State, log: IoLog)
    requires OnLog(s, log)
    ensures s.sq == []
  {
  }

  lemma LoopHead(s: State)
    requires Inv(s) && s.phase.Dispatching?
    ensures |s.cq| > 0
  {
  }

  lemma FlightDue(s: State, u: UserData)
    requires Inv(s) && u in s.flying && u.Awaiter?
    ensures u.op.id in s.frames && s.frames[u.op.id].status == OnIo(u.op.op)
  {
    hide FramesInv, HistOk, LogOk, SeenOk;
    assert Pending(s)[u] == Expected(s, u);
  }

  lemma FlightLogged(s: State, u: UserData, log: IoLog)
    requires Inv(s) && OnLog(s, log) && u in s.flying && u.Awaiter?
    ensures u.op in log
  {
    hide Inv, FramesInv, Halts, LifeOk;
    var op := u.op;
    FlightDue(s, u);
    InvFrames(s);
    LifeFact(s, op.id);
    var f := s.frames[op.id];
    IoLife(op.id, f, 0, IsRoot(s, op.id));
    assert Halts(f.prog, op.id, f.hist, log);
    var x := CostStep(f.prog, op.id, f.hist, log);
    var fuel: nat :| Answer(f.prog, op.id, f.hist, log, fuel) == Some(x);
  }

  /**
    `block_run` in an idle context that some run has reached, of a body that ends in direct style on the results of a
    log, with every task that it starts; what earlier runs left unfinished ends on the log too. If no submit or
    wait fails and operations complete with those results, in whatever order, then the run takes no more
    steps than a number fixed by the body, the log and what was left; until it is over there is a next
    step; and when it is over the root holds what the direct-style evaluator gives, and the next
    `block_run` finds such a context again.
   */
  lemma RunFinishes(before: seq<Choice>, t: State, prog: Program, log: IoLog, cs: seq<Choice>) returns (c: Choice)
    requires Reached(t, before) && t.phase.Idle? && OnLog(t, log) && Posted(t, log)
    requires Halts(prog, Root(t.roots), [], log) && Follows(BlockRun(t, prog), cs, log)
    ensures Exec(BlockRun(t, prog), cs).Ok?
    ensures |cs| <= Left(t, log) + 10 * CostOf(prog, Root(t.roots), [], log) + 5
    ensures var s, r := Exec(BlockRun(t, prog), cs).state, Root(t.roots);
            && OnLog(s, log) && Posted(s, log)
            && if s.phase.Idle? then RootIs(s, r, prog) && EndsAsDirect(s.frames[r], r, log)
               else Enabled(s, c) && Cooperates(c, log) && (Disciplined(s, c) ==> Allowed(s, c))
  {
    hide Inv, Exec, Follows, Halts, CostOf, OnLog, Posted, BlockRun;
    assert Inv(t) by { ReachedInv(before, t); }
    c := FinishesFrom(t, prog, log, cs);
  }

  lemma ReachedInv(cs: seq<Choice>, s: State)
    requires Reached(s, cs)
    ensures Inv(s)
  {
    RunsNeverFault(cs);
  }

  lemma FinishesFrom(t: State, prog: Program, log: IoLog, cs: seq<Choice>) returns (c: Choice)
    requires Inv(t) && t.phase.Idle? && OnLog(t, log) && Posted(t, log)
    requires Halts(prog, Root(t.roots), [], log) && Follows(BlockRun(t, prog), cs, log)
    ensures Exec(BlockRun(t, prog), cs).Ok?
    ensures |cs| <= Left(t, log) + 10 * CostOf(prog, Root(t.roots), [], log) + 5
    ensures var s, r := Exec(BlockRun(t, prog), cs).state, Root(t.roots);
            && OnLog(s, log) && Posted(s, log)
            && if s.phase.Idle? then RootIs(s, r, prog) && EndsAsDirect(s.frames[r], r, log)
               else Enabled(s, c) && Cooperates(c, log) && (Disciplined(s, c) ==> Allowed(s, c))
  {
    hide Inv, Exec, Follows, Halts, CostOf, OnLog, Posted, BlockRun, Left;
    var s0, r := BlockRun(t, prog), Root(t.roots);
    RunStarts(t, prog, log);
    FollowsLowers(s0, cs, log);
    FollowsRoot(s0, cs, r, prog, log);
    var s := Exec(s0, cs).state;
    LeftNat(s, log);
    c := Return;
    if s.phase.Idle? {
      EndedDirectly(s, r);
      SameOnMore(s, r, log);
    } else {
      c := NextMove(s, log);
    }
  }

  /** The first run of a fresh context. */
  lemma FirstRunFinishes(prog: Program, log: IoLog, cs: seq<Choice>) returns (c: Choice)
    requires Halts(prog, Root(0), [], log) && Follows(BlockRun(INITIAL, prog), cs, log)
    ensures Exec(BlockRun(INITIAL, prog), cs).Ok?
    ensures |cs| <= 10 * CostOf(prog, Root(0), [], log) + 5
    ensures var s, r := Exec(BlockRun(INITIAL, prog), cs).state, Root(0);
            if s.phase.Idle? then RootIs(s, r, prog) && EndsAsDirect(s.frames[r], r, log)
            else Enabled(s, c) && Cooperates(c, log) && (Disciplined(s, c) ==> Allowed(s, c))
  {
    hide Inv, Exec, Follows, Halts, CostOf, BlockRun;
    assert Reached(INITIAL, []) by { StaysPut(INITIAL); }
    assert OnLog(INITIAL, log) && Posted(INITIAL, log);
    assert Loads(INITIAL.frames, log) == map[];
    c := RunFinishes([], INITIAL, prog, log, cs);
  }

  lemma StaysPut(s: State)
    ensures Exec(s, []) == Ok(s)
  {
  }

  lemma SameOnMore(s: State, id: Id, log: IoLog)
    requires id in s.frames && EndsAsDirect(s.frames[id], id, s.log) && OnLog(s, log)
    ensures EndsAsDirect(s.frames[id], id, log)
  {
    hide Halts, HoldsOutcome;
    var f := s.frames[id];
    var fuel: nat :| Evaluate(f.prog, id, [], s.log, fuel) == Some(OutcomeOf(Next(f)));
    EvaluateMonotone(f.prog, id, [], s.log, log, fuel, fuel);
  }

  lemma RunStarts(t: State, prog: Program, log: IoLog)
    requires Inv(t) && t.phase.Idle? && OnLog(t, log) && Posted(t, log) && Halts(prog, Root(t.roots), [], log)
    ensures var s, r := BlockRun(t, prog), Root(t.roots);
            && Inv(s) && OnLog(s, log) && Posted(s, log) && RootIs(s, r, prog)
            && Left(s, log) == Left(t, log) + 10 * CostOf(prog, r, [], log) + 5
  {
    hide Inv, FramesInv, Halts, CostOf, KidCostOf, Sum, Loads;
    StepKeeps(t, StartRun(prog));
    InvFrames(t);
    FreshRoot(t);
    var s, r := BlockRun(t, prog), Root(t.roots);
    LoadsSet(t.frames, r, s.frames[r], log);
    assert Unhandled(s) == Unhandled(t);
  }

  /**
    `launch_detached` by the main thread in such a context, of a body that ends in direct style on the log: under the
    same conditions it takes a bounded number of steps, there is a next step until it has returned, and
    then the task has ended, or is suspended; it is never left aside unstarted or in the middle.
   */
  lemma DetachedFinishes(before: seq<Choice>, t: State, prog: Program, log: IoLog, cs: seq<Choice>) returns (c: Choice)
    requires Reached(t, before) && t.phase.Idle? && OnLog(t, log) && Posted(t, log)
    requires Halts(prog, Root(t.roots), [], log) && Follows(MainDetach(t, prog), cs, log)
    ensures Exec(MainDetach(t, prog), cs).Ok?
    ensures |cs| <= Left(t, log) + 10 * CostOf(prog, Root(t.roots), [], log) + 5
    ensures var s, r := Exec(MainDetach(t, prog), cs).state, Root(t.roots);
            && OnLog(s, log) && Posted(s, log) && r in s.frames && s.frames[r].prog == prog
            && if s.phase.Idle? then CameToRest(s.frames[r])
               else Enabled(s, c) && Cooperates(c, log) && (Disciplined(s, c) ==> Allowed(s, c))
  {
    hide Inv, Exec, Follows, Halts, CostOf, OnLog, Posted, MainDetach, Left;
    var s0, r := MainDetach(t, prog), Root(t.roots);
    assert Inv(t) by { ReachedInv(before, t); }
    DetachStarts(t, prog, log);
    FollowsLowers(s0, cs, log);
    FramesLast(s0, cs);
    var s := Exec(s0, cs).state;
    LeftNat(s, log);
    c := Return;
    if s.phase.Idle? {
      AtRest(s, r);
    } else {
      c := NextMove(s, log);
    }
  }

  /** A frame that has ended, or waits for an operation or a task. */
  predicate CameToRest(f: Frame) {
    f.status.Done? || f.status.Destroyed? || f.status.OnIo? || f.status.OnTask?
  }

  lemma AtRest(s: State, r: Id)
    requires Inv(s) && s.phase.Idle? && r in s.frames && !s.frames[r].status.Created?
    ensures CameToRest(s.frames[r])
  {
    assert !IsRunning(s, r);
  }

  lemma DetachStarts(t: State, prog: Program, log: IoLog)
    requires Inv(t) && t.phase.Idle? && OnLog(t, log) && Posted(t, log) && Halts(prog, Root(t.roots), [], log)
    ensures var s, r := MainDetach(t, prog), Root(t.roots);
            && Inv(s) && OnLog(s, log) && Posted(s, log) && r in s.frames && s.frames[r].prog == prog
            && !s.frames[r].status.Created? && s.frames[r].daemon
            && Left(s, log) == Left(t, log) + 10 * CostOf(prog, r, [], log) + 5
  {
    hide Inv, FramesInv, Halts, CostOf, KidCostOf, Sum, Loads;
    StepKeeps(t, StartDetached(prog));
    InvFrames(t);
    FreshRoot(t);
    var s, r := MainDetach(t, prog), Root(t.roots);
    LoadsSet(t.frames, r, s.frames[r], log);
    assert Unhandled(s) == Unhandled(t);
  }
}
