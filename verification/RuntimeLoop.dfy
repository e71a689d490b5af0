/** What the loop makes of what the environment offers: nothing that is on offer is passed over. */
module RuntimeLoop {
  import opened Runtime
  import opened RuntimeInvariant
  import opened RuntimeHistory
  import opened RuntimeTheorems

  /** The choices of a run in which `env` is offered one by one: each is taken if and only if it is allowed in the
      state reached when its turn comes, and a native call that can return does so at once. The run is over
      when the loop is. */
  function RunTrace(s: State, env: seq<Choice>): seq<Choice>
    decreases |env|
  {
    if Enabled(s, Return) then [Return] + Offered(NativeReturn(s), env) else Offered(s, env)
  }

  function Offered(s: State, env: seq<Choice>): seq<Choice>
    decreases |env|, 0
  {
    if env == [] || s.phase.Idle? then []
    else if !Allowed(s, env[0]) then RunTrace(s, env[1..])
    else
      match Step(s, env[0])
      case Fault(_) => [env[0]]
      case Ok(s1) => [env[0]] + RunTrace(s1, env[1..])
  }

  /** The turn of the first choice, in a state where nothing can return. */
  ghost predicate NextTurn(s: State, env: seq<Choice>)
    requires env != []
  {
    RunTrace(s, env) ==
      if !Allowed(s, env[0]) then RunTrace(s, env[1..])
      else
        match Step(s, env[0])
        case Fault(_) => [env[0]]
        case Ok(s1) => [env[0]] + RunTrace(s1, env[1..])
  }

  lemma TurnComes(s: State, env: seq<Choice>, used: nat)
    requires !Enabled(s, Return) && !s.phase.Idle? && used < |env|
    ensures env[used..][0] == env[used] && env[used..][1..] == env[used + 1..] && NextTurn(s, env[used..])
  {
    hide Allowed, Step;
    var es := env[used..];
    assert RunTrace(s, es) == Offered(s, es) && es != [];
  }

  // ---- Runs put together. ----

  lemma {:induction false} ExecSnoc(s: State, cs: seq<Choice>, c: Choice)
    requires Exec(s, cs).Ok? && Allowed(Exec(s, cs).state, c)
    ensures Exec(s, cs + [c]) == Step(Exec(s, cs).state, c)
    decreases |cs|
  {
    hide Allowed, Step;
    if cs == [] {
      assert [] + [c] == [c];
      assert [c][1..] == [];
      AllowedEnabled(s, c);
      ExecSingle(s, c);
    } else {
      assert (cs + [c])[1..] == cs[1..] + [c];
      if Allowed(s, cs[0]) {
        assert Enabled(s, cs[0]) by { AllowedEnabled(s, cs[0]); }
        ExecSnoc(Step(s, cs[0]).state, cs[1..], c);
      } else {
        ExecSnoc(s, cs[1..], c);
      }
    }
  }

  lemma ExecSingle(s: State, c: Choice)
    requires Allowed(s, c)
    ensures Exec(s, [c]) == Step(s, c)
  {
    assert [c][1..] == [];
    var r := Step(s, c);
    if r.Ok? {
      assert Exec(r.state, []) == r;
    }
  }

  lemma {:induction false} ExecAppend(s: State, cs: seq<Choice>, ds: seq<Choice>)
    requires Exec(s, cs).Ok?
    ensures Exec(s, cs + ds) == Exec(Exec(s, cs).state, ds)
    decreases |cs|
  {
    if cs == [] {
      assert cs + ds == ds;
    } else {
      assert (cs + ds)[1..] == cs[1..] + ds;
      if Allowed(s, cs[0]) {
        AllowedEnabled(s, cs[0]);
        ExecAppend(Step(s, cs[0]).state, cs[1..], ds);
      } else {
        ExecAppend(s, cs[1..], ds);
      }
    }
  }

  /** A choice that is not allowed is passed over. */
  lemma {:induction false} ExecSkips(s: State, cs: seq<Choice>, c: Choice)
    requires Exec(s, cs).Ok? && !Allowed(Exec(s, cs).state, c)
    ensures Exec(s, cs + [c]) == Exec(s, cs)
  {
    ExecAppend(s, cs, [c]);
    hide Allowed, Step;
    assert [c][1..] == [];
  }

  // ---- A run followed step by step. ----

  /** The run that `env` makes from `s0` has come as far as `trace`, to state `s`, and goes on with `rest`. */
  ghost predicate OnTrace(s0: State, env: seq<Choice>, trace: seq<Choice>, s: State, rest: seq<Choice>) {
    Exec(s0, trace) == Ok(s) && RunTrace(s0, env) == trace + RunTrace(s, rest)
  }

  lemma TraceStarts(s0: State, env: seq<Choice>)
    ensures OnTrace(s0, env, [], s0, env)
  {
    hide RunTrace;
  }

  lemma TraceTakes(s0: State, env: seq<Choice>, trace: seq<Choice>, s: State, all: seq<Choice>, used: nat)
    requires used < |all| && OnTrace(s0, env, trace, s, all[used..])
    requires Inv(s) && !Enabled(s, Return) && !s.phase.Idle? && Allowed(s, all[used])
    ensures Enabled(s, all[used]) && Step(s, all[used]).Ok?
    ensures OnTrace(s0, env, trace + [all[used]], Step(s, all[used]).state, all[used + 1..])
  {
    hide Inv, Allowed, Step, RunTrace;
    AllowedEnabled(s, all[used]);
    StepKeeps(s, all[used]);
    TurnComes(s, all, used);
    ExecSnoc(s0, trace, all[used]);
    hide NextTurn, Enabled;
    assert RunTrace(s, all[used..]) == [all[used]] + RunTrace(Step(s, all[used]).state, all[used + 1..]) by {
      TurnTakes(s, all[used..]);
    }
  }

  lemma TurnTakes(s: State, env: seq<Choice>)
    requires env != [] && NextTurn(s, env) && Allowed(s, env[0]) && Step(s, env[0]).Ok?
    ensures RunTrace(s, env) == [env[0]] + RunTrace(Step(s, env[0]).state, env[1..])
  {
    hide RunTrace, Step;
  }

  lemma TraceSkips(s0: State, env: seq<Choice>, trace: seq<Choice>, s: State, all: seq<Choice>, used: nat)
    requires used < |all| && OnTrace(s0, env, trace, s, all[used..])
    requires !Enabled(s, Return) && !s.phase.Idle? && !Allowed(s, all[used])
    ensures OnTrace(s0, env, trace, s, all[used + 1..])
  {
    hide Allowed, Step, RunTrace;
    TurnComes(s, all, used);
  }

  lemma TraceReturns(s0: State, env: seq<Choice>, trace: seq<Choice>, s: State, rest: seq<Choice>)
    requires OnTrace(s0, env, trace, s, rest) && Enabled(s, Return)
    ensures OnTrace(s0, env, trace + [Return], NativeReturn(s), rest)
  {
    hide RunTrace;
    ReturnsOnce(s);
    hide Step, Allowed, NativeReturn;
    ExecSnoc(s0, trace, Return);
    assert RunTrace(s, rest) == [Return] + RunTrace(NativeReturn(s), rest) by { ReturnTurn(s, rest); }
  }

  lemma ReturnTurn(s: State, env: seq<Choice>)
    requires Enabled(s, Return)
    ensures RunTrace(s, env) == [Return] + RunTrace(NativeReturn(s), env)
  {
    ReturnsOnce(s);
    hide Allowed, Step;
  }

  lemma TraceJoins(s0: State, env: seq<Choice>, trace: seq<Choice>, s: State, mid: seq<Choice>, more: seq<Choice>,
      s': State,
      rest: seq<Choice>)
    requires OnTrace(s0, env, trace, s, mid) && OnTrace(s, mid, more, s', rest)
    ensures OnTrace(s0, env, trace + more, s', rest)
  {
    hide RunTrace;
    ExecAppend(s0, trace, more);
    hide Exec;
    assert trace + (more + RunTrace(s', rest)) == trace + more + RunTrace(s', rest);
  }

  // ---- The turn of each choice. ----

  /** The state in which the `i`-th choice of `env` has its turn. */
  function TurnOf(s: State, env: seq<Choice>, i: nat): Checked<State>
    requires i <= |env|
  {
    Exec(s, RunTrace(s, env[..i]))
  }

  lemma ReturnsOnce(s: State)
    requires Enabled(s, Return)
    ensures !Enabled(NativeReturn(s), Return) && Allowed(s, Return) && Step(s, Return) == Ok(NativeReturn(s))
  {
  }

  /** The turns cut a run in two. */
  lemma {:induction false} TurnSplits(s: State, env: seq<Choice>, i: nat)
    requires Inv(s) && i <= |env|
    ensures TurnOf(s, env, i).Ok?
    ensures var u := TurnOf(s, env, i).state;
            && Inv(u) && !Enabled(u, Return)
            && RunTrace(s, env) == RunTrace(s, env[..i]) + Offered(u, env[i..])
    decreases |env|, 1
  {
    hide Inv, Allowed, Step, Offered;
    if Enabled(s, Return) {
      var s1 := NativeReturn(s);
      ReturnsOnce(s);
      StepKeeps(s, Return);
      OfferedSplits(s1, env, i);
      ExecAppend(s, [Return], Offered(s1, env[..i])) by { ExecSingle(s, Return); }
      ExecSingle(s, Return);
    } else {
      OfferedSplits(s, env, i);
    }
  }

  lemma {:induction false} OfferedSplits(s: State, env: seq<Choice>, i: nat)
    requires Inv(s) && i <= |env| && !Enabled(s, Return)
    ensures Exec(s, Offered(s, env[..i])).Ok?
    ensures var u := Exec(s, Offered(s, env[..i])).state;
            && Inv(u) && !Enabled(u, Return)
            && Offered(s, env) == Offered(s, env[..i]) + Offered(u, env[i..])
    decreases |env|, 0
  {
    hide Inv, Allowed, Step;
    if i == 0 || s.phase.Idle? {
      assert env[0..] == env;
      assert Offered(s, env[..i]) == [];
    } else {
      assert env[..i][0] == env[0] && env[..i][1..] == env[1..][..i - 1] && env[1..][i - 1..] == env[i..];
      if Allowed(s, env[0]) {
        AllowedEnabled(s, env[0]);
        StepKeeps(s, env[0]);
        var s1 := Step(s, env[0]).state;
        TurnSplits(s1, env[1..], i - 1);
        ExecSingle(s, env[0]);
        ExecAppend(s, [env[0]], RunTrace(s1, env[1..][..i - 1]));
      } else {
        TurnSplits(s, env[1..], i - 1);
      }
    }
  }

  lemma NoneOffered(s: State)
    ensures RunTrace(s, []) == if Enabled(s, Return) then [Return] else []
  {
  }

  lemma OneOffered(u: State, c: Choice)
    requires Inv(u) && !Enabled(u, Return)
    ensures if !u.phase.Idle? && Allowed(u, c) then [c] <= Offered(u, [c]) <= [c, Return] else Offered(u, [c]) == []
  {
    hide Inv, Allowed, Step, RunTrace;
    assert [c][1..] == [];
    NoneOffered(u);
    if !u.phase.Idle? && Allowed(u, c) {
      AllowedEnabled(u, c);
      StepKeeps(u, c);
      NoneOffered(Step(u, c).state);
      assert [c] + [Return] == [c, Return];
    }
  }

  /** Each choice that is allowed when its turn comes is taken, unless the run is over; no other is. */
  lemma TakenIfAllowed(s: State, env: seq<Choice>, i: nat)
    requires Inv(s) && i < |env|
    ensures TurnOf(s, env, i).Ok? && TurnOf(s, env, i + 1).Ok?
    ensures RunTrace(s, env[..i + 1]) <= RunTrace(s, env)
    ensures var u, t := TurnOf(s, env, i).state, RunTrace(s, env[..i]);
            if !u.phase.Idle? && Allowed(u, env[i]) then
              t + [env[i]] <= RunTrace(s, env[..i + 1]) <= t + [env[i], Return]
            else RunTrace(s, env[..i + 1]) == t
  {
    hide Inv, Allowed, Step, Offered, RunTrace;
    TurnSplits(s, env, i + 1);
    TurnSplits(s, env[..i + 1], i);
    assert env[..i + 1][..i] == env[..i] && env[..i + 1][i..] == [env[i]];
    OneOffered(TurnOf(s, env, i).state, env[i]);
  }

  // ---- What the offers lead to. ----

  lemma StepHandles(s: State, c: Choice)
    requires Inv(s) && Allowed(s, c) && Step(s, c).Ok?
    ensures Handled(s) <= Handled(Step(s, c).state)
    ensures c.WaitOk? ==> Handled(Step(s, c).state) == Handled(s) + [s.cq[0]]
  {
    hide Inv, FramesInv, Histories, Advance, Dispatch, Disciplined, NoEntryForMarker;
    InvFrames(s);
    match c
    case Act(accept) => AdvanceLeavesLoop(s, accept);
    case WaitOk =>
      DispatchPhase(s);
      DispatchLeavesRing(s);
    case Completes(u, res) => PostHandled(s, u, res);
    case Return => ReturnHandled(s);
    case _ =>
  }

  lemma PostHandled(s: State, u: UserData, res: int)
    requires FramesInv(s) && u in s.flying
    ensures Handled(KernelCompletes(s, u, res)) == Handled(s)
  {
    assert PhaseOk(s);
    KernelPending(s, u, res);
  }

  lemma ReturnHandled(s: State)
    requires FramesInv(s) && Enabled(s, Return)
    ensures Handled(NativeReturn(s)) == Handled(s)
  {
    assert PhaseOk(s);
    ReturnPending(s);
  }

  lemma {:induction false} HandledGrows(s: State, cs: seq<Choice>)
    requires Inv(s)
    ensures Exec(s, cs).Ok? && Inv(Exec(s, cs).state) && Handled(s) <= Handled(Exec(s, cs).state)
    decreases |cs|
  {
    hide Inv, Allowed, Step, Handled;
    if cs != [] {
      if Allowed(s, cs[0]) {
        AllowedEnabled(s, cs[0]);
        StepKeeps(s, cs[0]);
        StepHandles(s, cs[0]);
        HandledGrows(Step(s, cs[0]).state, cs[1..]);
      } else {
        HandledGrows(s, cs[1..]);
      }
    }
  }

  /** A wait that is offered while a completion is at hand takes it: at the end of the run it has been handled, in its
      place, and the frame that submitted the operation has received its result. */
  lemma WaitHandled(s: State, env: seq<Choice>, i: nat)
    requires Inv(s) && i < |env| && env[i].WaitOk? && TurnOf(s, env, i).Ok? && Enabled(TurnOf(s, env, i).state, WaitOk)
    ensures Exec(s, RunTrace(s, env)).Ok?
    ensures var u, s' := TurnOf(s, env, i).state, Exec(s, RunTrace(s, env)).state;
            && Handled(u) + [u.cq[0]] <= Handled(s')
            && (u.cq[0].user.Awaiter? ==> GaveResult(s', u.cq[0]))
  {
    hide Inv, Allowed, Step, RunTrace, Handled, Enabled;
    var u := TurnOf(s, env, i).state;
    var t := RunTrace(s, env[..i]);
    WaitTaken(u);
    TurnSplits(s, env, i);
    TakenIfAllowed(s, env, i);
    var rest := RunTrace(s, env)[|t| + 1..];
    assert RunTrace(s, env) == t + ([WaitOk] + rest);
    ExecAppend(s, t, [WaitOk] + rest);
    ExecAppend(u, [WaitOk], rest) by { ExecSingle(u, WaitOk); StepKeeps(u, WaitOk); }
    ExecSingle(u, WaitOk);
    StepKeeps(u, WaitOk);
    StepHandles(u, WaitOk);
    var u1 := Step(u, WaitOk).state;
    HandledGrows(u1, rest);
    var s' := Exec(s, RunTrace(s, env)).state;
    if u.cq[0].user.Awaiter? {
      HandledGives(s', |Handled(u)|);
    }
  }

  lemma WaitTaken(u: State)
    requires Enabled(u, WaitOk)
    ensures Allowed(u, WaitOk) && !u.phase.Idle? && |u.cq| > 0
  {
  }
}
