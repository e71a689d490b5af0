/**
  The coroutine runtime as a transition system: frames and their promises, the native stack of
  nested resumes, the submission and completion rings, and the loop. Anything that would be
  undefined behaviour in the program is an explicit `Fault`.
 */
module Runtime {
  import opened Wrappers
  import opened Programs

  /** Entries given to `io_uring_queue_init`. */
  const SQ_ENTRIES: nat := 1024

  /** What an awaiter reports when it could get no submission entry. */
  const NO_SQE_RESULT: int := -10086

  /** Where a frame stands. `OnIo(n)`: suspended in its n-th action, an I/O operation.
      `OnTask(c)`: suspended in an awaiter whose `callee_` is `c`. */
  datatype Status = Created | Running | OnIo(op: nat) | OnTask(callee: Id) | Done | Destroyed

  /** The `io_data` of an I/O awaiter; it lives inside the suspended frame. */
  datatype IoData = IoData(handle: Option<Id>, result: int)

  /** A frame with its promise. `vars` are its task variables that hold a handle. */
  datatype Frame = Frame(
    prog: Program,
    hist: seq<Input>,
    status: Status,
    caller: Option<Id>,
    attached: bool,
    daemon: bool,
    value: Option<int>,
    ex: Option<int>,
    vars: Vars,
    io: Option<IoData>)

  /** The user-data pointer of a ring entry. */
  datatype UserData = Null | Marker | Awaiter(op: OpId)

  datatype Cqe = Cqe(user: UserData, res: int)

  /** What the main thread is doing below the coroutines: nothing, `launch_detached`, the first
      resume of `block_run`, the wait in `run`, or the dispatch of the head completion. */
  datatype Phase =
    | Idle
    | Launching
    | Starting(root: Id)
    | Waiting(root: Id)
    | Dispatching(root: Id)

  /** `log`, `seen`, `roots` and `runs` are history: I/O results delivered, completions marked
      seen, top-level tasks started, and calls of `block_run`. */
  datatype State = State(
    frames: map<Id, Frame>,
    stack: seq<Id>,
    sq: seq<UserData>,
    flying: multiset<UserData>,
    cq: seq<Cqe>,
    running: bool,
    phase: Phase,
    log: IoLog,
    seen: seq<Cqe>,
    roots: nat,
    runs: nat)

  datatype Reason =
    | UseAfterDestroy | ResumeActive | EmptyValue | NullHandle | NullSqe
    | DoubleDestroy | DestroyUnfinished | DanglingData | NullResume

  datatype Checked<+T> = Ok(state: T) | Fault(why: Reason)

  function Fresh(prog: Program): Frame {
    Frame(prog, [], Created, None, false, false, None, None, map[], None)
  }

  predicate Active(f: Frame) {
    f.status.Running? || f.status.OnIo? || f.status.OnTask?
  }

  predicate Ownable(s: State, id: Id) {
    id in s.frames && (s.frames[id].status.Created? || s.frames[id].status.Done?)
  }

  function Next(f: Frame): Action {
    f.prog(f.hist)
  }

  function Receive(f: Frame, x: Input): Frame {
    f.(hist := f.hist + [x])
  }

  // ---- The native stack: each entry is the coroutine on top of one `resume()` call. ----

  predicate HasTop(s: State) {
    |s.stack| > 0 && s.stack[|s.stack| - 1] in s.frames
  }

  function Top(s: State): Id
    requires HasTop(s)
  {
    s.stack[|s.stack| - 1]
  }

  function Push(s: State, id: Id): State {
    s.(stack := s.stack + [id])
  }

  function Pop(s: State): State
    requires |s.stack| > 0
  {
    s.(stack := s.stack[..|s.stack| - 1])
  }

  /** Symmetric transfer: `id` takes over the top resume. */
  function Transfer(s: State, id: Id): State
    requires |s.stack| > 0
  {
    s.(stack := s.stack[..|s.stack| - 1] + [id])
  }

  function SetFrame(s: State, id: Id, f: Frame): State {
    s.(frames := s.frames[id := f])
  }

  // ---- Promises and handles. ----

  /** `get_value`: rethrows the exception, else reads the optional. */
  function GetValue(s: State, c: Id): Checked<Outcome> {
    if c !in s.frames || s.frames[c].status.Destroyed? then Fault(UseAfterDestroy)
    else if s.frames[c].ex.Some? then Ok(Exception(s.frames[c].ex.value))
    else if s.frames[c].value.Some? then Ok(Value(s.frames[c].value.value))
    else Fault(EmptyValue)
  }

  /** Resuming a handle: the frame continues with its awaiter's `await_resume`. */
  function Resume(s: State, h: Id): Checked<State> {
    if h !in s.frames || s.frames[h].status.Destroyed? then Fault(UseAfterDestroy)
    else
      var f := s.frames[h];
      match f.status
      case Created => Ok(SetFrame(s, h, f.(status := Running)))
      case OnIo(n) =>
        if f.io.None? then Fault(DanglingData)
        else
          var r := f.io.value.result;
          Ok(SetFrame(s, h, Receive(f, IoResult(r)).(status := Running, io := None))
             .(log := s.log[OpId(h, n) := r]))
      case OnTask(c) =>
        (match GetValue(s, c)
         case Fault(w) => Fault(w)
         case Ok(o) => Ok(SetFrame(s, h, Receive(f, Awaited(o)).(status := Running))))
      case _ => Fault(ResumeActive)
  }

  /** `coroutine_handle::destroy`. */
  function Destroy(s: State, id: Id): Checked<State> {
    if id !in s.frames || s.frames[id].status.Destroyed? then Fault(DoubleDestroy)
    else if !Ownable(s, id) then Fault(DestroyUnfinished)
    else Ok(SetFrame(s, id, s.frames[id].(status := Destroyed)))
  }

  /** Two variables hold the same handle. */
  predicate Shared(vars: Vars) {
    exists v, w | v in vars && w in vars :: v != w && vars[v] == vars[w]
  }

  /** Every frame in `gone` is destroyed. */
  function Swept(frames: map<Id, Frame>, gone: set<Id>): map<Id, Frame> {
    map k | k in frames :: if k in gone then frames[k].(status := Destroyed) else frames[k]
  }

  /** The destructors of the task variables of frame `id`, at the end of its body. */
  function DestroyVars(s: State, id: Id): Checked<State>
    requires id in s.frames
  {
    var vars := s.frames[id].vars;
    if Shared(vars) then Fault(DoubleDestroy)
    else if exists v | v in vars :: vars[v] !in s.frames || s.frames[vars[v]].status.Destroyed? then
      Fault(DoubleDestroy)
    else if exists v | v in vars :: !Ownable(s, vars[v]) then Fault(DestroyUnfinished)
    else Ok(s.(frames := Swept(s.frames, vars.Values)))
  }

  // ---- The ring. ----

  /** `io_uring_submit`: the kernel accepts the first `accept` entries. The return value is ignored, so
      the other entries stay queued, all of them if the call fails. */
  function Submit(s: State, accept: nat): State {
    var k := if accept < |s.sq| then accept else |s.sq|;
    s.(sq := s.sq[k..], flying := s.flying + multiset(s.sq[..k]))
  }

  /** `io_context::finish`. */
  function Finish(s: State, accept: nat): Checked<State> {
    if |s.sq| >= SQ_ENTRIES then Fault(NullSqe)
    else Ok(Submit(s.(sq := s.sq + [Marker]), accept))
  }

  // ---- What the running coroutine does next. ----

  function ActContext(s: State): State
    requires HasTop(s)
  {
    var f := s.frames[Top(s)];
    SetFrame(s, Top(s), Receive(f, ContextIs(f.attached)))
  }

  function ActCreate(s: State, child: Program): State
    requires HasTop(s)
  {
    var id, f := Top(s), s.frames[Top(s)];
    var s1 := SetFrame(s, Child(id, |f.hist|), Fresh(child));
    SetFrame(s1, id, Receive(f, Unit).(vars := f.vars[|f.hist| := Child(id, |f.hist|)]))
  }

  /** The move constructor of a task variable. */
  function ActMoveConstruct(s: State, from: nat): State
    requires HasTop(s)
  {
    var f := s.frames[Top(s)];
    SetFrame(s, Top(s), Receive(f, Unit).(vars := Exchange(f.vars, |f.hist|, from)))
  }

  /** The move assignment: unless both are the same variable, what `to` holds is destroyed and what `from`
      holds takes its place. */
  function ActMoveAssign(s: State, to: nat, from: nat): Checked<State>
    requires HasTop(s)
  {
    var f := s.frames[Top(s)];
    if to == from then Ok(SetFrame(s, Top(s), Receive(f, Unit)))
    else
      var s1 := SetFrame(s, Top(s), Receive(f, Unit).(vars := Exchange(f.vars, to, from)));
      if to in f.vars then Destroy(s1, f.vars[to]) else Ok(s1)
  }

  /** The destructor of a task variable. */
  function ActDrop(s: State, v: nat): Checked<State>
    requires HasTop(s)
  {
    var f := s.frames[Top(s)];
    var s1 := SetFrame(s, Top(s), Receive(f, Unit).(vars := f.vars - {v}));
    if v in f.vars then Destroy(s1, f.vars[v]) else Ok(s1)
  }

  /** An I/O awaiter, built and awaited on the spot. */
  function ActIo(s: State, accept: nat): State
    requires HasTop(s)
  {
    var id, f := Top(s), s.frames[Top(s)];
    var op := OpId(id, |f.hist|);
    if |s.sq| >= SQ_ENTRIES then
      SetFrame(s, id, Receive(f, IoResult(NO_SQE_RESULT))).(log := s.log[op := NO_SQE_RESULT])
    else
      var s1 := SetFrame(s, id, f.(status := OnIo(|f.hist|), io := Some(IoData(Some(id), 0))));
      Submit(Pop(s1).(sq := s.sq + [Awaiter(op)]), accept)
  }

  /** `launch` and `launch_detached`: context and daemon flag are set, then the task is resumed in a
      nested call. `launch` wraps the handle into a new task variable, `launch_detached` forgets it. */
  function ActLaunch(s: State, v: nat, detached: bool): Checked<State>
    requires HasTop(s)
  {
    var id, f := Top(s), s.frames[Top(s)];
    if v !in f.vars then Fault(NullHandle)
    else if f.vars[v] !in s.frames then Fault(UseAfterDestroy)
    else
      var kid := f.vars[v];
      var vars := if detached then f.vars - {v} else Exchange(f.vars, |f.hist|, v);
      var s1 := SetFrame(s, id, Receive(f, Unit).(vars := vars));
      var s2 := SetFrame(s1, kid, s.frames[kid].(attached := true, daemon := true));
      match Resume(s2, kid)
      case Fault(w) => Fault(w)
      case Ok(s3) => Ok(Push(s3, kid))
  }

  /** `co_await` on a task. */
  function ActAwaitTask(s: State, v: nat, byMove: bool): Checked<State>
    requires HasTop(s)
  {
    var id, f := Top(s), s.frames[Top(s)];
    var f1 := f.(vars := if byMove then f.vars - {v} else f.vars);
    if v !in f.vars then Fault(NullHandle)
    else if f.vars[v] !in s.frames || s.frames[f.vars[v]].status.Destroyed? then Fault(UseAfterDestroy)
    else
      var kid := f.vars[v];
      if s.frames[kid].status.Done? then
        match GetValue(s, kid)
        case Fault(w) => Fault(w)
        case Ok(o) => Ok(SetFrame(s, id, Receive(f1, Awaited(o))))
      else
        var s1 := SetFrame(s, id, f1.(status := OnTask(kid)));
        var s2 := SetFrame(s1, kid, s.frames[kid].(caller := Some(id), attached := f.attached));
        if s.frames[kid].daemon then Ok(Pop(s2))
        else Resume(Transfer(s2, kid), kid)
  }

  /** The final awaiter of frame `id`, which is on top of the stack and done. */
  function FinalSuspend(s: State, accept: nat): Checked<State>
    requires HasTop(s)
  {
    var id, f := Top(s), s.frames[Top(s)];
    if f.caller.Some? then Resume(Transfer(s, f.caller.value), f.caller.value)
    else if f.daemon then Ok(Pop(s))
    else
      match (if f.attached then Finish(s, accept) else Ok(s))
      case Fault(w) => Fault(w)
      case Ok(s1) =>
        match Destroy(s1, id)
        case Fault(w) => Fault(w)
        case Ok(s2) => Ok(s2.(stack := s.stack[..|s.stack| - 1]))
  }

  function StoreOutcome(f: Frame, o: Outcome): Frame {
    match o
    case Value(v) => f.(value := Some(v))
    case Exception(e) => f.(ex := Some(e))
  }

  /** `co_return` or an escaping exception: the promise is filled and the locals go, then the final
      awaiter runs. A value is stored before the locals go, an exception after. */
  function ActEnd(s: State, o: Outcome, accept: nat): Checked<State>
    requires HasTop(s)
  {
    match DestroyVars(s, Top(s))
    case Fault(w) => Fault(w)
    case Ok(s1) =>
      var f := StoreOutcome(s.frames[Top(s)], o).(status := Done, vars := map[]);
      FinalSuspend(SetFrame(s1, Top(s), f), accept)
  }

  function Advance(s: State, accept: nat): Checked<State>
    requires HasTop(s)
  {
    match Next(s.frames[Top(s)])
    case AwaitContext => Ok(ActContext(s))
    case Create(child) => Ok(ActCreate(s, child))
    case MoveConstruct(from) => Ok(ActMoveConstruct(s, from))
    case MoveAssign(to, from) => ActMoveAssign(s, to, from)
    case Drop(v) => ActDrop(s, v)
    case AwaitIo => Ok(ActIo(s, accept))
    case Launch(v) => ActLaunch(s, v, false)
    case LaunchDetached(v) => ActLaunch(s, v, true)
    case AwaitTask(v, byMove) => ActAwaitTask(s, v, byMove)
    case CoReturn(v) => ActEnd(s, Value(v), accept)
    case CoThrow(e) => ActEnd(s, Exception(e), accept)
  }

  // ---- The main thread and the kernel. ----

  function StartRoot(s: State, prog: Program, daemon: bool): State {
    Push(SetFrame(s, Root(s.roots), Fresh(prog).(attached := true, daemon := daemon, status := Running)), Root(s.roots))
      .(roots := s.roots + 1)
  }

  /** `block_run`, up to its first resume of the task. */
  function BlockRun(s: State, prog: Program): State {
    StartRoot(s, prog, false).(phase := Starting(Root(s.roots)), runs := s.runs + 1)
  }

  /** `launch_detached` called by the main thread outside any run. */
  function MainDetach(s: State, prog: Program): State {
    StartRoot(s, prog, true).(phase := Launching)
  }

  /** `uring_loop::resume` on the head completion, which stays in the ring until marked seen. */
  function Dispatch(s: State): Checked<State>
    requires s.phase.Waiting? && |s.cq| > 0
  {
    var s1 := s.(phase := Dispatching(s.phase.root));
    match s.cq[0].user
    case Null => Ok(s1)
    case Marker => Ok(s1.(running := false))
    case Awaiter(op) =>
      if op.id !in s.frames then Fault(DanglingData)
      else if s.frames[op.id].status != OnIo(op.op) || s.frames[op.id].io.None? then Fault(DanglingData)
      else
        var f := s.frames[op.id];
        var s2 := SetFrame(s1, op.id, f.(io := Some(f.io.value.(result := s.cq[0].res))));
        match f.io.value.handle
        case None => Fault(NullResume)
        case Some(h) => Resume(Push(s2, h), h)
  }

  /** The outermost `resume()` call returns to `launch_detached`, `block_run` or `run`. */
  function NativeReturn(s: State): State
    requires s.stack == [] && (s.phase.Launching? || s.phase.Starting? || (s.phase.Dispatching? && |s.cq| > 0))
  {
    match s.phase
    case Launching => s.(phase := Idle)
    case Starting(r) => s.(phase := Waiting(r), running := true)
    case _ =>
      s.(cq := s.cq[1..], seen := s.seen + [s.cq[0]],
         phase := if s.running then Waiting(s.phase.root) else Idle)
  }

  function KernelCompletes(s: State, u: UserData, res: int): State {
    s.(flying := s.flying - multiset{u}, cq := s.cq + [Cqe(u, res)])
  }

  /** One event. The environment chooses which, and how the kernel behaves. */
  datatype Choice =
    | Act(accept: nat)
    | Completes(user: UserData, res: int)
    | WaitOk
    | WaitError(code: int)
    | Return
    | StartRun(prog: Program)
    | StartDetached(prog: Program)

  predicate Enabled(s: State, c: Choice) {
    match c
    case Act(_) => HasTop(s)
    case Completes(u, _) => u in s.flying
    case WaitOk => s.phase.Waiting? && |s.cq| > 0
    case WaitError(_) => s.phase.Waiting?
    case Return => s.stack == [] && (s.phase.Launching? || s.phase.Starting? || (s.phase.Dispatching? && |s.cq| > 0))
    case StartRun(_) => s.phase.Idle?
    case StartDetached(_) => s.phase.Idle?
  }

  /** A failed wait has no completion: `resume_error` returns at once and the loop goes on. */
  function Step(s: State, c: Choice): Checked<State>
    requires Enabled(s, c)
  {
    match c
    case Act(accept) => Advance(s, accept)
    case Completes(u, res) => Ok(KernelCompletes(s, u, res))
    case WaitOk => Dispatch(s)
    case WaitError(_) => Ok(s)
    case Return => Ok(NativeReturn(s))
    case StartRun(prog) => Ok(BlockRun(s, prog))
    case StartDetached(prog) => Ok(MainDetach(s, prog))
  }

  /** What the runtime asks of the coroutine bodies: a task variable is awaited or launched only while it
      holds a handle, and named only once it is declared; only an unstarted task is launched; and no
      task is destroyed while it is running. */
  predicate Disciplined(s: State, c: Choice) {
    c.Act? && HasTop(s) ==>
      var id, f := Top(s), s.frames[Top(s)];
      match Next(f)
      case AwaitTask(v, _) => v in f.vars
      case Launch(v) => v in f.vars && f.vars[v] in s.frames && s.frames[f.vars[v]].status.Created?
      case LaunchDetached(v) => v in f.vars && f.vars[v] in s.frames && s.frames[f.vars[v]].status.Created?
      case MoveAssign(to, from) => to < |f.hist| && (to != from && to in f.vars ==> Ownable(s, f.vars[to]))
      case Drop(v) => v in f.vars ==> Ownable(s, f.vars[v])
      case CoReturn(_) => forall v | v in f.vars :: Ownable(s, f.vars[v])
      case CoThrow(_) => forall v | v in f.vars :: Ownable(s, f.vars[v])
      case _ => true
  }

  /** The root of a run ends while no submission entry is free: `finish` does not check for that. */
  predicate NoEntryForMarker(s: State, c: Choice) {
    && c.Act? && HasTop(s)
    && Ends(Next(s.frames[Top(s)]))
    && s.frames[Top(s)].caller.None? && !s.frames[Top(s)].daemon
    && |s.sq| >= SQ_ENTRIES
  }

  predicate Allowed(s: State, c: Choice) {
    Enabled(s, c) && Disciplined(s, c) && !NoEntryForMarker(s, c)
  }

  const INITIAL: State := State(map[], [], [], multiset{}, [], false, Idle, map[], [], 0, 0)

  /** A whole run: the choices in order, skipping those that are not on offer. */
  function Exec(s: State, cs: seq<Choice>): Checked<State>
    decreases |cs|
  {
    if cs == [] then Ok(s)
    else if !Allowed(s, cs[0]) then Exec(s, cs[1..])
    else
      match Step(s, cs[0])
      case Fault(w) => Fault(w)
      case Ok(s1) => Exec(s1, cs[1..])
  }
}
