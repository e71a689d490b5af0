/**
  Coroutine bodies, and what they mean when they are called directly.

  A body is a strategy: given everything it has received so far, it says what it does next.
  This covers bodies that branch on I/O results, catch exceptions, or loop for ever.
 */
module Programs {
  import opened Wrappers

  /** What a finished task holds: a value or an exception. */
  datatype Outcome = Value(v: int) | Exception(e: int)

  /** What a body receives back from one of its actions. */
  datatype Input =
    | Unit
    | IoResult(res: int)
    | Awaited(outcome: Outcome)
    | ContextIs(attached: bool)   // the context pointer: attached, or null

  /** What a body does next. A task variable is named by the index of the action that declares it: `Create`,
      `MoveConstruct` and `Launch` each declare one. */
  datatype Action =
    | CoReturn(v: int)
    | CoThrow(e: int)
    | AwaitIo
    | AwaitContext
    | Create(child: Program)
    | MoveConstruct(from: nat)
    | MoveAssign(to: nat, from: nat)
    | AwaitTask(task: nat, byMove: bool)
    | Launch(task: nat)
    | LaunchDetached(task: nat)
    | Drop(task: nat)

  type Program = seq<Input> -> Action

  /** A coroutine frame, named by its place in the tree of creations. */
  datatype Id = Root(n: nat) | Child(parent: Id, birth: nat)

  /** The `op`-th action of frame `id`, when that is an I/O operation. */
  datatype OpId = OpId(id: Id, op: nat)

  type IoLog = map<OpId, int>

  predicate Ends(a: Action) {
    a.CoReturn? || a.CoThrow?
  }

  function OutcomeOf(a: Action): Outcome
    requires Ends(a)
  {
    if a.CoReturn? then Value(a.v) else Exception(a.e)
  }

  /** `hist[..b]` is where the body created the task named `b`. */
  predicate Creates(prog: Program, hist: seq<Input>, b: nat) {
    b < |hist| && prog(hist[..b]).Create?
  }

  // ---- Which handle each task variable holds. ----

  /** A task variable that holds no handle is not in the map. */
  type Vars = map<nat, Id>

  /** `std::exchange(from.handle_, nullptr)` into another variable. */
  function Exchange(vars: Vars, to: nat, from: nat): Vars {
    if from in vars then (vars - {from})[to := vars[from]] else vars - {to}
  }

  /** The variables of frame `id` after its `n`-th action. */
  function After(id: Id, vars: Vars, a: Action, n: nat): Vars {
    match a
    case Create(_) => vars[n := Child(id, n)]
    case MoveConstruct(from) => Exchange(vars, n, from)
    case MoveAssign(to, from) => if to == from || to >= n then vars else Exchange(vars, to, from)
    case AwaitTask(v, byMove) => if byMove then vars - {v} else vars
    case Launch(v) => Exchange(vars, n, v)
    case LaunchDetached(v) => vars - {v}
    case Drop(v) => vars - {v}
    case _ => vars
  }

  /** The variables of frame `id` once it has received `hist`. */
  function VarsAt(prog: Program, id: Id, hist: seq<Input>): Vars {
    if hist == [] then map[]
    else
      var h := hist[..|hist| - 1];
      After(id, VarsAt(prog, id, h), prog(h), |h|)
  }

  ghost predicate Injective(vars: Vars) {
    forall v, w :: v in vars && w in vars && vars[v] == vars[w] ==> v == w
  }

  lemma VarsSnoc(prog: Program, id: Id, hist: seq<Input>, x: Input)
    ensures VarsAt(prog, id, hist + [x]) == After(id, VarsAt(prog, id, hist), prog(hist), |hist|)
  {
    assert (hist + [x])[..|hist|] == hist;
  }

  /** What a variable holds. */
  function At(vars: Vars, v: nat): Option<Id> {
    if v in vars then Some(vars[v]) else None
  }

  /** The frame that action `n` destroys: the variable that holds it is destroyed or assigned over. */
  function Doomed(vars: Vars, a: Action, n: nat): set<Id> {
    match a
    case Drop(v) => if v in vars then {vars[v]} else {}
    case MoveAssign(to, from) => if to != from && to < n && to in vars then {vars[to]} else {}
    case _ => {}
  }

  /** The frame whose handle an action gives away: detached, or moved into an await. */
  function GivenAway(vars: Vars, a: Action): set<Id> {
    match a
    case LaunchDetached(v) => if v in vars then {vars[v]} else {}
    case AwaitTask(v, byMove) => if byMove && v in vars then {vars[v]} else {}
    case _ => {}
  }

  /** The frames that the variables of frame `id` have destroyed so far. */
  function DroppedBy(prog: Program, id: Id, hist: seq<Input>): set<Id> {
    if hist == [] then {}
    else
      var h := hist[..|hist| - 1];
      DroppedBy(prog, id, h) + Doomed(VarsAt(prog, id, h), prog(h), |h|)
  }

  /** The frames whose handle was given away so far. */
  function GivenBy(prog: Program, id: Id, hist: seq<Input>): set<Id> {
    if hist == [] then {}
    else
      var h := hist[..|hist| - 1];
      GivenBy(prog, id, h) + GivenAway(VarsAt(prog, id, h), prog(h))
  }

  /** The frames whose handle has left the variables of frame `id` for good. */
  function GivenUp(prog: Program, id: Id, hist: seq<Input>): set<Id> {
    DroppedBy(prog, id, hist) + GivenBy(prog, id, hist)
  }

  /** The frames that a body has created. */
  function CreatedBy(prog: Program, id: Id, hist: seq<Input>): set<Id> {
    set b: nat | b < |hist| && Creates(prog, hist, b) :: Child(id, b)
  }

  lemma CreatedSnoc(prog: Program, id: Id, hist: seq<Input>)
    requires hist != []
    ensures var h := hist[..|hist| - 1];
            CreatedBy(prog, id, hist) == CreatedBy(prog, id, h) + if prog(h).Create? then {Child(id, |h|)} else {}
  {
    var h := hist[..|hist| - 1];
    forall b: nat | b < |h| ensures hist[..b] == h[..b] {
    }
    forall k ensures k in CreatedBy(prog, id, hist) <==>
      k in CreatedBy(prog, id, h) || (k == Child(id, |h|) && prog(h).Create?) {
      if k.Child? && k.birth < |h| {
        assert hist[..k.birth] == h[..k.birth];
      }
    }
  }

  /** Nothing is lost and nothing doubled: each frame that a body has created is in exactly one of its variables, or
      was destroyed by them, or was given away; and each variable was declared. */
  ghost predicate Accounted(prog: Program, id: Id, hist: seq<Input>) {
    var vars, dropped, given := VarsAt(prog, id, hist), DroppedBy(prog, id, hist), GivenBy(prog, id, hist);
    && Injective(vars) && (forall v :: v in vars ==> v < |hist|)
    && vars.Values !! dropped && vars.Values !! given && dropped !! given
    && vars.Values + dropped + given == CreatedBy(prog, id, hist)
  }

  lemma {:induction false} EachFrameAccounted(prog: Program, id: Id, hist: seq<Input>)
    ensures Accounted(prog, id, hist)
    decreases |hist|
  {
    if hist != [] {
      var h := hist[..|hist| - 1];
      EachFrameAccounted(prog, id, h);
      CreatedSnoc(prog, id, hist);
      CreatedBefore(prog, id, h);
      AccountedOn(prog, id, hist);
    }
  }

  lemma CreatedBefore(prog: Program, id: Id, hist: seq<Input>)
    ensures forall k :: k in CreatedBy(prog, id, hist) ==> k.Child? && k.parent == id && k.birth < |hist|
  {
  }

  lemma AccountedOn(prog: Program, id: Id, hist: seq<Input>)
    requires hist != []
    requires var h := hist[..|hist| - 1];
             && Accounted(prog, id, h) && (forall k :: k in CreatedBy(prog, id, h) ==> k.Child? && k.birth < |h|)
             && CreatedBy(prog, id, hist) == CreatedBy(prog, id, h) + if prog(h).Create? then {Child(id, |h|)} else {}
    ensures Accounted(prog, id, hist)
  {
    hide CreatedBy, Injective, After, Doomed, GivenAway;
    var h := hist[..|hist| - 1];
    var before, dropped, given := VarsAt(prog, id, h), DroppedBy(prog, id, h), GivenBy(prog, id, h);
    assert Child(id, |h|) !in CreatedBy(prog, id, h);
    AfterKeeps(id, before, prog(h), |h|);
    var after, doomed, away := After(id, before, prog(h), |h|), Doomed(before, prog(h), |h|),
      GivenAway(before, prog(h));
    assert VarsAt(prog, id, hist) == after && DroppedBy(prog, id, hist) == dropped + doomed
           && GivenBy(prog, id, hist) == given + away;
    hide VarsAt, DroppedBy, GivenBy;
    var created := if prog(h).Create? then {Child(id, |h|)} else {};
    Partition(before.Values, dropped, given, after.Values, doomed, away, created);
  }

  /** Moving part of one of three disjoint sets into the others, and adding to it, keeps them disjoint. */
  lemma Partition(held: set<Id>, dropped: set<Id>, given: set<Id>, held': set<Id>, doomed: set<Id>, away: set<Id>,
      created: set<Id>)
    requires held !! dropped && held !! given && dropped !! given && created !! held + dropped + given
    requires held' !! doomed && held' !! away && doomed !! away && held' + doomed + away == held + created
    ensures held' !! dropped + doomed && held' !! given + away && dropped + doomed !! given + away
    ensures held' + (dropped + doomed) + (given + away) == held + dropped + given + created
  {
    assert held' <= held + created && doomed <= held + created && away <= held + created;
  }

  /** One action passes every handle on, or it is the new frame, or the action destroys it or gives it away. */
  lemma AfterKeeps(id: Id, vars: Vars, a: Action, n: nat)
    requires Injective(vars) && forall v :: v in vars ==> v < n
    requires Child(id, n) !in vars.Values
    ensures var after, doomed, given := After(id, vars, a, n), Doomed(vars, a, n), GivenAway(vars, a);
            && Injective(after) && (forall v :: v in after ==> v <= n)
            && after.Values !! doomed && after.Values !! given && doomed !! given
            && after.Values + doomed + given == vars.Values + if a.Create? then {Child(id, n)} else {}
  {
    var after, doomed, given := After(id, vars, a, n), Doomed(vars, a, n), GivenAway(vars, a);
    forall k | k in vars.Values ensures k in after.Values + doomed + given {
      var v :| v in vars && vars[v] == k;
      AfterHolds(id, vars, a, n, v);
    }
    AfterOnly(id, vars, a, n);
    hide After, Doomed, GivenAway;
    assert after.Values + doomed + given == vars.Values + if a.Create? then {Child(id, n)} else {};
  }

  lemma AfterOnly(id: Id, vars: Vars, a: Action, n: nat)
    requires Injective(vars) && (forall v :: v in vars ==> v < n) && Child(id, n) !in vars.Values
    ensures var after, doomed, given := After(id, vars, a, n), Doomed(vars, a, n), GivenAway(vars, a);
            && Injective(after) && (forall v :: v in after ==> v <= n)
            && after.Values !! doomed && after.Values !! given && doomed !! given
            && after.Values + doomed + given <= vars.Values + (if a.Create? then {Child(id, n)} else {})
            && (a.Create? ==> Child(id, n) in after.Values)
  {
    var after := After(id, vars, a, n);
    if a.Create? {
      assert after[n] == Child(id, n);
    }
  }

  /** Where the handle in variable `v` goes. */
  lemma AfterHolds(id: Id, vars: Vars, a: Action, n: nat, v: nat)
    requires v in vars && forall w :: w in vars ==> w < n
    ensures vars[v] in After(id, vars, a, n).Values + Doomed(vars, a, n) + GivenAway(vars, a)
  {
    var after := After(id, vars, a, n);
    match a
    case MoveConstruct(from) => assert (if v == from then n else v) in after
      && after[if v == from then n else v] == vars[v];
    case Launch(from) => assert (if v == from then n else v) in after && after[if v == from then n else v] == vars[v];
    case MoveAssign(to, from) =>
      if v == from && to != from && to < n {
        assert to in after && after[to] == vars[v];
      } else if !(v == to && to != from && to < n) {
        assert v in after && after[v] == vars[v];
      }
    case Create(_) => assert v in after && after[v] == vars[v];
    case AwaitTask(w, _) =>
      if v != w {
        assert v in after && after[v] == vars[v];
      } else if !a.byMove {
        assert v in after;
      }
    case LaunchDetached(w) =>
      if v != w {
        assert v in after && after[v] == vars[v];
      }
    case Drop(w) =>
      if v != w {
        assert v in after && after[v] == vars[v];
      }
    case _ => assert v in after;
  }

  /** After a move the target holds exactly what the source held, and the source nothing; a move to itself
      changes nothing. No other variable changes. */
  lemma MovesTransfer(prog: Program, id: Id, hist: seq<Input>, x: Input)
    ensures var before, after, n := VarsAt(prog, id, hist), VarsAt(prog, id, hist + [x]), |hist|;
            && (prog(hist).MoveConstruct? ==> Transfers(before, after, n, prog(hist).from))
            && (prog(hist).Launch? ==> Transfers(before, after, n, prog(hist).task))
            && (prog(hist).MoveAssign? && prog(hist).to < n ==>
                  var to, from := prog(hist).to, prog(hist).from;
                  if to == from then after == before else Transfers(before, after, to, from))
  {
    VarsSnoc(prog, id, hist, x);
    EachFrameAccounted(prog, id, hist);
    hide CreatedBy, DroppedBy, GivenBy, VarsAt;
  }

  /** What every other action does to the variables. */
  lemma OthersSet(prog: Program, id: Id, hist: seq<Input>, x: Input)
    ensures var before, after, n := VarsAt(prog, id, hist), VarsAt(prog, id, hist + [x]), |hist|;
            match prog(hist)
            case Create(_) => Sets(before, after, n, Some(Child(id, n)))
            case Drop(v) => Sets(before, after, v, None)
            case LaunchDetached(v) => Sets(before, after, v, None)
            case AwaitTask(v, byMove) => if byMove then Sets(before, after, v, None) else after == before
            case AwaitIo => after == before
            case AwaitContext => after == before
            case _ => true
  {
    VarsSnoc(prog, id, hist, x);
    hide VarsAt;
  }

  ghost predicate Sets(before: Vars, after: Vars, v: nat, k: Option<Id>) {
    At(after, v) == k && forall w :: w != v ==> At(after, w) == At(before, w)
  }

  ghost predicate Transfers(before: Vars, after: Vars, to: nat, from: nat) {
    && At(after, to) == At(before, from) && At(after, from) == None
    && (forall v :: v != to && v != from ==> At(after, v) == At(before, v))
  }

  /** Every variable was declared, and holds a frame that the body created. */
  ghost predicate OwnTasks(prog: Program, id: Id, hist: seq<Input>, vars: Vars) {
    forall v :: v in vars ==> v < |hist| && vars[v].Child? && vars[v].parent == id && Creates(prog, hist, vars[v].birth)
  }

  /** Each frame a body has created is held by one variable at most, and by none once it was given up. */
  lemma OneHolder(prog: Program, id: Id, hist: seq<Input>)
    ensures var vars := VarsAt(prog, id, hist);
            Injective(vars) && OwnTasks(prog, id, hist, vars) && vars.Values !! GivenUp(prog, id, hist)
    ensures forall k :: k in GivenUp(prog, id, hist) ==> k.Child? && k.parent == id && k.birth < |hist|
  {
    EachFrameAccounted(prog, id, hist);
    var vars := VarsAt(prog, id, hist);
    assert forall k :: k in CreatedBy(prog, id, hist) ==> k.Child? && k.parent == id && Creates(prog, hist, k.birth);
    hide VarsAt, DroppedBy, GivenBy, Injective;
    forall v | v in vars ensures vars[v] in CreatedBy(prog, id, hist) {
      assert vars[v] in vars.Values;
    }
  }

  // ---- Direct style: an await is a call, a launch does nothing until the task is awaited. ----

  /** What the next action answers, with `fuel` bounding the depth of calls. */
  function Answer(prog: Program, id: Id, hist: seq<Input>, log: IoLog, fuel: nat): Option<Input>
    decreases fuel, 0
  {
    match prog(hist)
    case CoReturn(_) => None
    case CoThrow(_) => None
    case AwaitIo =>
      if OpId(id, |hist|) in log then Some(IoResult(log[OpId(id, |hist|)])) else None
    case AwaitContext => Some(ContextIs(true))
    case AwaitTask(v, _) =>
      var vars := VarsAt(prog, id, hist);
      if v in vars && vars[v].Child? && Creates(prog, hist, vars[v].birth) && fuel > 0 then
        match Evaluate(prog(hist[..vars[v].birth]).child, vars[v], [], log, fuel - 1)
        case Some(o) => Some(Awaited(o))
        case None => None
      else None
    case _ => Some(Unit)
  }

  /** Runs a body from `hist` to its end by plain recursive calls. */
  function Evaluate(prog: Program, id: Id, hist: seq<Input>, log: IoLog, fuel: nat): Option<Outcome>
    decreases fuel, 1
  {
    if Ends(prog(hist)) then Some(OutcomeOf(prog(hist)))
    else if fuel == 0 then None
    else
      match Answer(prog, id, hist, log, fuel)
      case None => None
      case Some(x) => Evaluate(prog, id, hist + [x], log, fuel - 1)
  }

  ghost predicate Extends(log: IoLog, log': IoLog) {
    forall k :: k in log ==> k in log' && log'[k] == log[k]
  }

  lemma {:induction false} AnswerMonotone(prog: Program, id: Id, hist: seq<Input>, log: IoLog, log': IoLog, fuel: nat,
      fuel': nat)
    requires Extends(log, log') && fuel <= fuel'
    requires Answer(prog, id, hist, log, fuel).Some?
    ensures Answer(prog, id, hist, log', fuel') == Answer(prog, id, hist, log, fuel)
    decreases fuel, 0
  {
    match prog(hist)
    case AwaitTask(v, _) =>
      var kid := VarsAt(prog, id, hist)[v];
      EvaluateMonotone(prog(hist[..kid.birth]).child, kid, [], log, log', fuel - 1, fuel' - 1);
    case _ =>
  }

  /** More I/O results and more fuel never change an answer already obtained. */
  lemma {:induction false} EvaluateMonotone(prog: Program, id: Id, hist: seq<Input>, log: IoLog, log': IoLog,
      fuel: nat, fuel': nat)
    requires Extends(log, log') && fuel <= fuel'
    requires Evaluate(prog, id, hist, log, fuel).Some?
    ensures Evaluate(prog, id, hist, log', fuel') == Evaluate(prog, id, hist, log, fuel)
    decreases fuel, 1
  {
    if !Ends(prog(hist)) {
      AnswerMonotone(prog, id, hist, log, log', fuel, fuel');
      var x := Answer(prog, id, hist, log, fuel).value;
      EvaluateMonotone(prog, id, hist + [x], log, log', fuel - 1, fuel' - 1);
    }
  }

  /** The direct-style run from `hist` ends with outcome `o`. */
  ghost predicate Yields(prog: Program, id: Id, hist: seq<Input>, o: Outcome, log: IoLog) {
    exists fuel: nat :: Evaluate(prog, id, hist, log, fuel) == Some(o)
  }

  /** The direct-style answer at `hist` is `x`. */
  ghost predicate Answers(prog: Program, id: Id, hist: seq<Input>, x: Input, log: IoLog) {
    exists fuel: nat :: Answer(prog, id, hist, log, fuel) == Some(x)
  }

  /** Everything the body received is what the direct-style run gives it. */
  ghost predicate Faithful(prog: Program, id: Id, hist: seq<Input>, log: IoLog) {
    forall k :: 0 <= k < |hist| ==> Answers(prog, id, hist[..k], hist[k], log)
  }

  ghost predicate Compatible(log1: IoLog, log2: IoLog) {
    forall k :: k in log1 && k in log2 ==> log1[k] == log2[k]
  }

  /** Two evaluations whose I/O results do not conflict agree, whatever fuel each needs. */
  lemma YieldsUnique(prog: Program, id: Id, o1: Outcome, o2: Outcome, log1: IoLog, log2: IoLog)
    requires Yields(prog, id, [], o1, log1) && Yields(prog, id, [], o2, log2)
    requires Compatible(log1, log2)
    ensures o1 == o2
  {
    var f1: nat :| Evaluate(prog, id, [], log1, f1) == Some(o1);
    var f2: nat :| Evaluate(prog, id, [], log2, f2) == Some(o2);
    var both := log1 + log2;
    var f := if f1 < f2 then f2 else f1;
    EvaluateMonotone(prog, id, [], log1, both, f1, f);
    EvaluateMonotone(prog, id, [], log2, both, f2, f);
  }

  /** Two direct-style answers at the same point agree. */
  lemma AnswersUnique(prog: Program, id: Id, hist: seq<Input>, x1: Input, x2: Input, log1: IoLog, log2: IoLog)
    requires Answers(prog, id, hist, x1, log1) && Answers(prog, id, hist, x2, log2)
    requires Compatible(log1, log2)
    ensures x1 == x2
  {
    var f1: nat :| Answer(prog, id, hist, log1, f1) == Some(x1);
    var f2: nat :| Answer(prog, id, hist, log2, f2) == Some(x2);
    var both := log1 + log2;
    AnswerMonotone(prog, id, hist, log1, both, f1, f1 + f2);
    AnswerMonotone(prog, id, hist, log2, both, f2, f1 + f2);
  }

  lemma FaithfulExtends(prog: Program, id: Id, hist: seq<Input>, log: IoLog, log': IoLog)
    requires Faithful(prog, id, hist, log) && Extends(log, log')
    ensures Faithful(prog, id, hist, log')
  {
    forall k | 0 <= k < |hist| ensures Answers(prog, id, hist[..k], hist[k], log') {
      assert Answers(prog, id, hist[..k], hist[k], log);
      var fuel: nat :| Answer(prog, id, hist[..k], log, fuel) == Some(hist[k]);
      AnswerMonotone(prog, id, hist[..k], log, log', fuel, fuel);
    }
  }

  lemma FaithfulSnoc(prog: Program, id: Id, hist: seq<Input>, x: Input, log: IoLog)
    requires Faithful(prog, id, hist, log) && Answers(prog, id, hist, x, log)
    ensures Faithful(prog, id, hist + [x], log)
  {
    var h := hist + [x];
    forall k | 0 <= k < |h| ensures Answers(prog, id, h[..k], h[k], log) {
      assert h[..k] == hist[..k];
      if k < |hist| {
        assert Answers(prog, id, hist[..k], hist[k], log);
      } else {
        assert hist[..k] == hist;
      }
    }
  }

  /** A body that received faithful inputs up to its end ends as the direct-style run does. */
  lemma {:induction false} FaithfulYields(prog: Program, id: Id, hist: seq<Input>, k: nat, log: IoLog)
    requires Faithful(prog, id, hist, log) && k <= |hist|
    requires Ends(prog(hist))
    ensures Yields(prog, id, hist[..k], OutcomeOf(prog(hist)), log)
    decreases |hist| - k
  {
    var o := OutcomeOf(prog(hist));
    if k == |hist| {
      assert hist[..k] == hist;
      assert Evaluate(prog, id, hist[..k], log, 0) == Some(o);
    } else {
      FaithfulYields(prog, id, hist, k + 1, log);
      var f1: nat :| Evaluate(prog, id, hist[..k + 1], log, f1) == Some(o);
      assert Answers(prog, id, hist[..k], hist[k], log);
      var f2: nat :| Answer(prog, id, hist[..k], log, f2) == Some(hist[k]);
      var f := f1 + f2 + 1;
      AnswerMonotone(prog, id, hist[..k], log, log, f2, f);
      EvaluateMonotone(prog, id, hist[..k + 1], log, log, f1, f - 1);
      assert hist[..k] + [hist[k]] == hist[..k + 1];
      assert Evaluate(prog, id, hist[..k], log, f) == Some(o);
    }
  }
}
