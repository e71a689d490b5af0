/** How much a body has still to do when the results of its I/O operations are given. */
module Costs {
  import opened Wrappers
  import opened Programs

  /** The task variable that an action starts or awaits. */
  function Named(a: Action): Option<nat> {
    match a
    case AwaitTask(v, _) => Some(v)
    case Launch(v) => Some(v)
    case LaunchDetached(v) => Some(v)
    case _ => None
  }

  /** The task in it. */
  function TaskAt(prog: Program, id: Id, hist: seq<Input>): Option<Id> {
    var vars := VarsAt(prog, id, hist);
    match Named(prog(hist))
    case Some(v) => if v in vars && vars[v].Child? && Creates(prog, hist, vars[v].birth) then Some(vars[v]) else None
    case None => None
  }

  /** The number of actions that a body takes from `hist` to its end, and with it those of the tasks that it
      starts or awaits from there on; none if one of them does not end. */
  function Cost(prog: Program, id: Id, hist: seq<Input>, log: IoLog, fuel: nat): Option<nat>
    decreases fuel, 0
  {
    if fuel == 0 then None
    else if Ends(prog(hist)) then Some(1)
    else
      match Answer(prog, id, hist, log, fuel)
      case None => None
      case Some(x) =>
        var rest, kid := Cost(prog, id, hist + [x], log, fuel - 1), KidCost(prog, id, hist, log, fuel - 1);
        if rest.Some? && kid.Some? then Some(1 + rest.value + kid.value) else None
  }

  function KidCost(prog: Program, id: Id, hist: seq<Input>, log: IoLog, fuel: nat): Option<nat>
    decreases fuel, 1
  {
    if Named(prog(hist)).None? then Some(0)
    else
      match TaskAt(prog, id, hist)
      case Some(kid) => Cost(prog(hist[..kid.birth]).child, kid, [], log, fuel)
      case None => None
  }

  lemma {:induction false} CostMonotone(prog: Program, id: Id, hist: seq<Input>, log: IoLog, fuel: nat, fuel': nat)
    requires fuel <= fuel' && Cost(prog, id, hist, log, fuel).Some?
    ensures Cost(prog, id, hist, log, fuel') == Cost(prog, id, hist, log, fuel)
    decreases fuel, 0
  {
    if !Ends(prog(hist)) {
      AnswerMonotone(prog, id, hist, log, log, fuel, fuel');
      var x := Answer(prog, id, hist, log, fuel).value;
      CostMonotone(prog, id, hist + [x], log, fuel - 1, fuel' - 1);
      KidCostMonotone(prog, id, hist, log, fuel - 1, fuel' - 1);
    }
  }

  lemma {:induction false} KidCostMonotone(prog: Program, id: Id, hist: seq<Input>, log: IoLog, fuel: nat, fuel': nat)
    requires fuel <= fuel' && KidCost(prog, id, hist, log, fuel).Some?
    ensures KidCost(prog, id, hist, log, fuel') == KidCost(prog, id, hist, log, fuel)
    decreases fuel, 1
  {
    if Named(prog(hist)).Some? {
      var kid := TaskAt(prog, id, hist).value;
      CostMonotone(prog(hist[..kid.birth]).child, kid, [], log, fuel, fuel');
    }
  }

  /** The body ends on these results, and so does every task that it starts or awaits. */
  ghost predicate Halts(prog: Program, id: Id, hist: seq<Input>, log: IoLog) {
    exists fuel: nat :: Cost(prog, id, hist, log, fuel).Some?
  }

  ghost function CostOf(prog: Program, id: Id, hist: seq<Input>, log: IoLog): nat {
    if Halts(prog, id, hist, log) then
      var fuel: nat :| Cost(prog, id, hist, log, fuel).Some?;
      Cost(prog, id, hist, log, fuel).value
    else 0
  }

  lemma CostIs(prog: Program, id: Id, hist: seq<Input>, log: IoLog, fuel: nat)
    requires Cost(prog, id, hist, log, fuel).Some?
    ensures Halts(prog, id, hist, log) && CostOf(prog, id, hist, log) == Cost(prog, id, hist, log, fuel).value
  {
    var other: nat :| Cost(prog, id, hist, log, other).Some?
      && CostOf(prog, id, hist, log) == Cost(prog, id, hist, log, other).value;
    if fuel <= other {
      CostMonotone(prog, id, hist, log, fuel, other);
    } else {
      CostMonotone(prog, id, hist, log, other, fuel);
    }
  }

  /** The cost of the task that the action at `hist` starts or awaits. */
  ghost function KidCostOf(prog: Program, id: Id, hist: seq<Input>, log: IoLog): nat {
    match TaskAt(prog, id, hist)
    case Some(kid) => CostOf(prog(hist[..kid.birth]).child, kid, [], log)
    case None => 0
  }

  /** One action pays one, and passes on the cost of the task that it names. */
  lemma CostStep(prog: Program, id: Id, hist: seq<Input>, log: IoLog) returns (x: Input)
    requires Halts(prog, id, hist, log) && !Ends(prog(hist))
    ensures Answers(prog, id, hist, x, log) && Halts(prog, id, hist + [x], log)
    ensures CostOf(prog, id, hist, log) == 1 + CostOf(prog, id, hist + [x], log) + KidCostOf(prog, id, hist, log)
    ensures Named(prog(hist)).Some? ==>
              TaskAt(prog, id, hist).Some? && var kid := TaskAt(prog, id, hist).value;
                Halts(prog(hist[..kid.birth]).child, kid, [], log)
  {
    var fuel: nat :| Cost(prog, id, hist, log, fuel).Some?;
    x := Answer(prog, id, hist, log, fuel).value;
    CostIs(prog, id, hist, log, fuel);
    CostIs(prog, id, hist + [x], log, fuel - 1);
    if Named(prog(hist)).Some? {
      var kid := TaskAt(prog, id, hist).value;
      CostIs(prog(hist[..kid.birth]).child, kid, [], log, fuel - 1);
    }
  }

  /** The same for an input that was received on part of the results. */
  lemma CostAt(prog: Program, id: Id, hist: seq<Input>, x: Input, log: IoLog, part: IoLog)
    requires Halts(prog, id, hist, log) && !Ends(prog(hist)) && Answers(prog, id, hist, x, part) && Extends(part, log)
    ensures Halts(prog, id, hist + [x], log)
    ensures CostOf(prog, id, hist, log) == 1 + CostOf(prog, id, hist + [x], log) + KidCostOf(prog, id, hist, log)
  {
    var y := CostStep(prog, id, hist, log);
    AnswersUnique(prog, id, hist, x, y, part, log);
  }

  lemma CostPositive(prog: Program, id: Id, hist: seq<Input>, log: IoLog)
    requires Halts(prog, id, hist, log)
    ensures CostOf(prog, id, hist, log) >= 1
  {
    if Ends(prog(hist)) {
      var fuel: nat :| Cost(prog, id, hist, log, fuel).Some?;
      CostIs(prog, id, hist, log, fuel);
    } else {
      var x := CostStep(prog, id, hist, log);
    }
  }

  /** A body that halts has an outcome in direct style. */
  lemma {:induction false} CostYields(prog: Program, id: Id, hist: seq<Input>, log: IoLog, fuel: nat)
    requires Cost(prog, id, hist, log, fuel).Some?
    ensures Evaluate(prog, id, hist, log, fuel).Some?
    decreases fuel
  {
    if !Ends(prog(hist)) {
      var x := Answer(prog, id, hist, log, fuel).value;
      CostYields(prog, id, hist + [x], log, fuel - 1);
    }
  }
}
