/** The inductive invariant of the runtime. */
module RuntimeInvariant {
  import opened Wrappers
  import opened Programs
  import opened Runtime

  ghost predicate Distinct(st: seq<Id>) {
    forall i, j :: 0 <= i < j < |st| ==> st[i] != st[j]
  }

  ghost predicate IsRunning(s: State, id: Id) {
    id in s.frames && s.frames[id].status.Running?
  }

  /** The native stack holds exactly the running frames, each once. */
  ghost predicate StackOk(s: State) {
    Distinct(s.stack) && forall id :: id in s.stack <==> IsRunning(s, id)
  }

  /** `g` is the frame that `f` created in its `b`-th action. */
  ghost predicate Born(f: Frame, b: nat, g: Frame) {
    b < |f.hist| && f.prog(f.hist[..b]) == Create(g.prog)
  }

  /** Frames form a forest: every child was created by its parent, where its name says. */
  ghost predicate TreeOk(s: State) {
    && (forall p: Id, b: nat {:trigger Child(p, b)} :: Child(p, b) in s.frames ==>
          p in s.frames && Born(s.frames[p], b, s.frames[Child(p, b)]))
    && (forall n: nat {:trigger Root(n)} :: Root(n) in s.frames ==> n < s.roots)
  }

  /** A suspended await and the `caller_` it stored point at each other. */
  ghost predicate LinkOk(s: State, id: Id)
    requires id in s.frames
  {
    var f := s.frames[id];
    && (f.status.OnTask? ==>
          var c := f.status.callee;
          && c.Child? && c.parent == id
          && c in s.frames && Active(s.frames[c]) && s.frames[c].caller == Some(id)
          && Next(f).AwaitTask? && VarsHold(VarsAt(f.prog, id, f.hist), Next(f).task, c))
    && (f.caller.Some? ==>
          && id.Child? && f.caller.value == id.parent
          && (Active(f) ==> id.parent in s.frames && s.frames[id.parent].status == OnTask(id)))
  }

  predicate VarsHold(vars: Vars, v: nat, id: Id) {
    v in vars && vars[v] == id
  }

  ghost predicate LinksOk(s: State) {
    forall id :: id in s.frames ==> LinkOk(s, id)
  }

  predicate IsRoot(s: State, id: Id) {
    !s.phase.Idle? && !s.phase.Launching? && s.phase.root == id
  }

  /** What frame `id` holds at each point of its life; `root` says that it is the present root. */
  ghost predicate LifeOk(id: Id, f: Frame, root: bool) {
    && (f.status.Created? ==>
          id.Child? && f.hist == [] && f.caller.None? && !f.daemon && f.value.None? && f.ex.None? && f.vars == map[]
            && f.io.None?)
    && (Active(f) ==> VarsOk(id, f))
    && (Active(f) ==>
          f.value.None? && f.ex.None? && f.attached && (f.daemon || f.caller.Some? || root))
    && (f.status.OnIo? ==>
          f.status.op == |f.hist| && Next(f).AwaitIo? && f.io.Some? && f.io.value.handle == Some(id))
    && (f.status.Done? ==> Ends(Next(f)) && f.vars == map[] && HoldsOutcome(f, OutcomeOf(Next(f))))
    && (f.status.Destroyed? ==>
          && f.vars == map[]
          && (if Ended(f) then Ends(Next(f)) && HoldsOutcome(f, OutcomeOf(Next(f))) else id.Child? && f.hist == []))
  }

  /** What the actions so far leave in the variables; a move into the await under way is done. */
  ghost function VarsDue(id: Id, f: Frame): Vars {
    if f.status.OnTask? then After(id, VarsAt(f.prog, id, f.hist), Next(f), |f.hist|) else VarsAt(f.prog, id, f.hist)
  }

  /** The variables are as the actions so far left them, or gone at the end of the body: no two hold the same
      handle, and none holds a handle that was given up. */
  ghost predicate VarsOk(id: Id, f: Frame) {
    && (f.vars == VarsDue(id, f) || (Ends(Next(f)) && f.vars == map[]))
    && Injective(f.vars) && f.vars.Values !! GivenUp(f.prog, id, f.hist)
  }

  lemma VarsFollow(id: Id, f: Frame)
    requires f.vars == VarsDue(id, f) || (Ends(Next(f)) && f.vars == map[])
    ensures VarsOk(id, f)
  {
    OneHolder(f.prog, id, f.hist);
    hide VarsAt, GivenUp;
    var vars := VarsAt(f.prog, id, f.hist);
    if f.status.OnTask? {
      AfterKeeps(id, vars, Next(f), |f.hist|);
    }
  }

  /** The variables after the next action. */
  function NextVars(id: Id, f: Frame): Vars {
    After(id, f.vars, Next(f), |f.hist|)
  }

  lemma VarsReceive(id: Id, f: Frame, x: Input)
    requires VarsOk(id, f) && !f.status.OnTask? && !Ends(Next(f))
    ensures var vars := NextVars(id, f);
            VarsOk(id, Receive(f, x).(vars := vars)) && (!Next(f).Create? ==> vars.Values <= f.vars.Values)
    ensures Next(f).Create? ==> NextVars(id, f).Values <= f.vars.Values + {Child(id, |f.hist|)}
  {
    OneHolder(f.prog, id, f.hist);
    VarsSnoc(f.prog, id, f.hist, x);
    AfterKeeps(id, f.vars, Next(f), |f.hist|);
    hide VarsAt, GivenUp, After;
    VarsFollow(id, Receive(f, x).(vars := NextVars(id, f)));
  }

  lemma VarsResume(id: Id, f: Frame, x: Input)
    requires VarsOk(id, f) && f.status.OnTask? && !Ends(Next(f))
    ensures VarsOk(id, Receive(f, x).(status := Running))
  {
    VarsSnoc(f.prog, id, f.hist, x);
    VarsFollow(id, Receive(f, x).(status := Running));
  }

  /** The body has returned or thrown. */
  predicate Ended(f: Frame) {
    f.value.Some? || f.ex.Some?
  }

  /** The promise holds exactly one of a value or an exception, namely `o`. */
  predicate HoldsOutcome(f: Frame, o: Outcome) {
    match o
    case Value(v) => f.value == Some(v) && f.ex.None?
    case Exception(e) => f.ex == Some(e) && f.value.None?
  }

  ghost predicate LivesOk(s: State) {
    forall id :: id in s.frames ==> LifeOk(id, s.frames[id], IsRoot(s, id))
  }

  /** A handle in a task variable is the handle of a live frame that the owner of the variable created. */
  ghost predicate HeldOk(s: State) {
    forall p, k :: p in s.frames && k in s.frames[p].vars.Values ==>
      k.Child? && k.parent == p && k in s.frames && !s.frames[k].status.Destroyed?
  }

  ghost predicate PhaseOk(s: State) {
    && (s.phase.Idle? || s.phase.Waiting? ==> s.stack == [])
    && (s.phase.Idle? || s.phase.Launching? || s.phase.Starting? ==> !s.running)
    && (s.phase.Waiting? ==> s.running)
    && (s.phase.Dispatching? ==>
          |s.cq| > 0 && (s.running <==> !s.cq[0].user.Marker?) && (!s.running ==> s.stack == []))
    && (!s.phase.Idle? && !s.phase.Launching? ==>
          var r := s.phase.root;
          && r in s.frames && r.Root? && !s.frames[r].daemon && s.frames[r].caller.None?
          && (Active(s.frames[r]) || s.frames[r].status.Destroyed?)
          && (s.phase.Dispatching? && !s.running ==> s.frames[r].status.Destroyed?))
  }

  // ---- The ring: how often each entry is queued, in flight, or completed and not yet handled. ----

  function Users(q: seq<Cqe>): multiset<UserData> {
    if q == [] then multiset{} else multiset{q[0].user} + Users(q[1..])
  }

  lemma {:induction false} UsersSnoc(q: seq<Cqe>, c: Cqe)
    ensures Users(q + [c]) == Users(q) + multiset{c.user}
  {
    if q == [] {
      assert q + [c] == [c];
      assert [c][1..] == [];
    } else {
      assert (q + [c])[1..] == q[1..] + [c];
      UsersSnoc(q[1..], c);
    }
  }

  function Unhandled(s: State): seq<Cqe> {
    if s.phase.Dispatching? && |s.cq| > 0 then s.cq[1..] else s.cq
  }

  function Pending(s: State): multiset<UserData> {
    multiset(s.sq) + s.flying + Users(Unhandled(s))
  }

  /** The root of the present run is over and `run` has not taken its marker. */
  predicate MarkerDue(s: State) {
    && !s.phase.Idle? && !s.phase.Launching?
    && s.phase.root in s.frames && s.frames[s.phase.root].status.Destroyed?
    && (s.phase.Dispatching? ==> s.running)
  }

  function Expected(s: State, u: UserData): nat {
    match u
    case Null => 0
    case Marker => if MarkerDue(s) then 1 else 0
    case Awaiter(op) => if op.id in s.frames && s.frames[op.id].status == OnIo(op.op) then 1 else 0
  }

  ghost predicate RingOk(s: State) {
    forall u: UserData :: Pending(s)[u] == Expected(s, u)
  }

  // ---- Histories. ----

  /** Each body received what the direct-style run of it gives. */
  ghost predicate HistOk(s: State) {
    forall id :: id in s.frames ==> Faithful(s.frames[id].prog, id, s.frames[id].hist, s.log)
  }

  /** `log` records exactly I/O results that were received. */
  ghost predicate LogOk(s: State) {
    forall k :: k in s.log ==>
      k.id in s.frames && k.op < |s.frames[k.id].hist| && s.frames[k.id].hist[k.op] == IoResult(s.log[k])
  }

  /** The completions handled so far, the one in hand included. */
  function Handled(s: State): seq<Cqe> {
    if s.phase.Dispatching? && |s.cq| > 0 then s.seen + [s.cq[0]] else s.seen
  }

  function Markers(q: seq<Cqe>): nat {
    Users(q)[Marker]
  }

  /** A run that has not yet taken its marker. */
  predicate RunOpen(s: State) {
    !s.phase.Idle? && !s.phase.Launching? && (s.phase.Dispatching? ==> s.running)
  }

  ghost predicate SeenOk(s: State) {
    && (forall i :: 0 <= i < |Handled(s)| && Handled(s)[i].user.Awaiter? ==>
          Handled(s)[i].user.op in s.log && s.log[Handled(s)[i].user.op] == Handled(s)[i].res)
    && (forall i, j :: 0 <= i < j < |Handled(s)| && Handled(s)[i].user == Handled(s)[j].user ==>
       Handled(s)[i].user.Marker?)
    && (forall k :: k in s.log && s.log[k] != NO_SQE_RESULT ==> Users(Handled(s))[Awaiter(k)] == 1)
    && s.runs == Markers(Handled(s)) + (if RunOpen(s) then 1 else 0)
  }

  ghost predicate GraphOk(s: State) {
    TreeOk(s) && LinksOk(s) && LivesOk(s) && HeldOk(s)
  }

  ghost predicate FramesInv(s: State) {
    StackOk(s) && GraphOk(s) && PhaseOk(s)
  }

  ghost predicate Inv(s: State) {
    FramesInv(s) && RingOk(s) && HistOk(s) && LogOk(s) && SeenOk(s)
  }

  lemma InitialInv()
    ensures Inv(INITIAL)
  {
    hide StackOk, GraphOk, PhaseOk, RingOk, HistOk, LogOk, SeenOk;
    InitialFrames();
    InitialRing();
    InitialHistories();
  }

  lemma InitialFrames()
    ensures StackOk(INITIAL) && GraphOk(INITIAL) && PhaseOk(INITIAL)
  {
    hide LinkOk, LifeOk, Born;
  }

  lemma InitialRing()
    ensures RingOk(INITIAL)
  {
    forall u: UserData ensures Pending(INITIAL)[u] == Expected(INITIAL, u) {
      assert Users([]) == multiset{};
    }
  }

  lemma InitialHistories()
    ensures HistOk(INITIAL) && LogOk(INITIAL) && SeenOk(INITIAL)
  {
    hide Faithful;
    assert Users([]) == multiset{};
  }
}
