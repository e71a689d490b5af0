/**
  What each event does, told from its effect: which frame is where afterwards, what it has received, and
  what stayed as it was.
 */
module RuntimeEffects {
  import opened Wrappers
  import opened Programs
  import opened Runtime
  import opened RuntimeInvariant
  import opened RuntimeFrames
  import opened RuntimeSafety
  import opened RuntimeHistory
  import opened RuntimeTheorems
  import opened RuntimeLifetime

  /** No frame outside `some` has changed. */
  ghost predicate OnlyChanged(s: State, s': State, some: set<Id>) {
    && (forall k :: k in s.frames && k !in some ==> k in s'.frames && s'.frames[k] == s.frames[k])
    && (forall k :: k in s'.frames && k !in some ==> k in s.frames)
  }

  /** The ring, the loop and the main thread have not changed. */
  ghost predicate RestSame(s: State, s': State) {
    && s'.sq == s.sq && s'.flying == s.flying && s'.cq == s.cq && s'.seen == s.seen
    && s'.phase == s.phase && s'.running == s.running && s'.roots == s.roots && s'.runs == s.runs
  }

  /** The running frame has received `x`, and goes on at the top of the native stack. */
  ghost predicate GoesOnWith(s: State, s': State, x: Input)
    requires HasTop(s)
  {
    var id := Top(s);
    && id in s'.frames && s'.stack == s.stack && s'.frames[id].status.Running?
    && s'.frames[id] == s.frames[id].(hist := s.frames[id].hist + [x], vars := s'.frames[id].vars)
  }

  /** A frame that has not started. */
  ghost predicate Unstarted(f: Frame, prog: Program) {
    && f.prog == prog && f.hist == [] && f.status.Created? && f.vars == map[]
    && f.caller.None? && f.value.None? && f.ex.None? && f.io.None? && !f.daemon && !f.attached
  }

  /** A frame that has just been resumed for the first time. */
  ghost predicate JustStarted(f: Frame, prog: Program, daemon: bool, caller: Option<Id>) {
    && f.prog == prog && f.hist == [] && f.status.Running? && f.vars == map[]
    && f.caller == caller && f.daemon == daemon && f.attached && f.value.None? && f.ex.None? && f.io.None?
  }

  // ---- The main thread. ----

  /** `launch_detached` from the main thread: the task runs at once, as an attached daemon. */
  lemma DetachedStarts(s: State, prog: Program)
    requires Inv(s) && Allowed(s, StartDetached(prog))
    ensures Step(s, StartDetached(prog)).Ok?
    ensures var s', r := Step(s, StartDetached(prog)).state, Root(s.roots);
            && r !in s.frames && r in s'.frames && OnlyChanged(s, s', {r})
            && JustStarted(s'.frames[r], prog, true, None)
            && s'.stack == [r] && s'.phase == Launching && s'.roots == s.roots + 1
            && RestSame(s, s'.(phase := s.phase, roots := s.roots))
  {
    RootIsNew(s);
  }

  /** `block_run`: the task runs at once, attached and no daemon, and is the root of the run. */
  lemma RootStarts(s: State, prog: Program)
    requires Inv(s) && Allowed(s, StartRun(prog))
    ensures Step(s, StartRun(prog)).Ok?
    ensures var s', r := Step(s, StartRun(prog)).state, Root(s.roots);
            && r !in s.frames && r in s'.frames && OnlyChanged(s, s', {r})
            && JustStarted(s'.frames[r], prog, false, None)
            && s'.stack == [r] && s'.phase == Starting(r) && s'.roots == s.roots + 1 && s'.runs == s.runs + 1
            && RestSame(s, s'.(phase := s.phase, roots := s.roots, runs := s.runs))
  {
    RootIsNew(s);
  }

  lemma RootIsNew(s: State)
    requires Inv(s)
    ensures Root(s.roots) !in s.frames && (s.phase.Idle? ==> s.stack == [])
  {
  }

  // ---- The running coroutine. ----

  lemma ContextEffect(s: State, accept: nat)
    requires Inv(s) && Allowed(s, Act(accept)) && Next(s.frames[Top(s)]).AwaitContext?
    ensures Step(s, Act(accept)).Ok?
    ensures var s' := Step(s, Act(accept)).state;
            GoesOnWith(s, s', ContextIs(true)) && OnlyChanged(s, s', {Top(s)}) && RestSame(s, s')
            && s'.frames[Top(s)].vars == s.frames[Top(s)].vars
  {
    hide Inv, FramesInv, VarsOk;
    InvFrames(s);
    TopFacts(s);
  }

  lemma StepCreates(s: State, accept: nat)
    requires Enabled(s, Act(accept)) && Next(s.frames[Top(s)]).Create?
    ensures Step(s, Act(accept)) == Ok(ActCreate(s, Next(s.frames[Top(s)]).child))
  {
    hide ActCreate;
  }

  lemma CreateShape(s: State)
    requires HasTop(s) && Next(s.frames[Top(s)]).Create? && s.frames[Top(s)].status.Running?
    requires Child(Top(s), |s.frames[Top(s)].hist|) !in s.frames && Child(Top(s), |s.frames[Top(s)].hist|) != Top(s)
    ensures var s', id, n := ActCreate(s, Next(s.frames[Top(s)]).child), Top(s), |s.frames[Top(s)].hist|;
            var kid := Child(id, n);
            && GoesOnWith(s, s', Unit) && RestSame(s, s') && OnlyChanged(s, s', {id, kid})
            && kid in s'.frames && Unstarted(s'.frames[kid], Next(s.frames[id]).child)
            && Sets(s.frames[id].vars, s'.frames[id].vars, n, Some(kid))
  {
  }

  /** `f()` for a coroutine `f`: a frame that has not started, held by the new variable. */
  lemma CreateEffect(s: State, accept: nat)
    requires Inv(s) && Allowed(s, Act(accept)) && Next(s.frames[Top(s)]).Create?
    ensures Step(s, Act(accept)).Ok?
    ensures var s', id, n := Step(s, Act(accept)).state, Top(s), |s.frames[Top(s)].hist|;
            var kid := Child(id, n);
            && GoesOnWith(s, s', Unit) && RestSame(s, s') && OnlyChanged(s, s', {id, kid})
            && kid !in s.frames && kid in s'.frames && Unstarted(s'.frames[kid], Next(s.frames[id]).child)
            && Sets(s.frames[id].vars, s'.frames[id].vars, n, Some(kid))
  {
    hide Inv, FramesInv, LifeOk, Step, ActCreate;
    InvFrames(s);
    assert Step(s, Act(accept)) == Ok(ActCreate(s, Next(s.frames[Top(s)]).child)) by { StepCreates(s, accept); }
    TopFacts(s);
    FreshKid(s);
    CreateShape(s);
  }

  lemma MoveConstructEffect(s: State, accept: nat)
    requires Inv(s) && Allowed(s, Act(accept)) && Next(s.frames[Top(s)]).MoveConstruct?
    ensures Step(s, Act(accept)).Ok?
    ensures var s', id, n := Step(s, Act(accept)).state, Top(s), |s.frames[Top(s)].hist|;
            && GoesOnWith(s, s', Unit) && RestSame(s, s') && OnlyChanged(s, s', {id})
            && Transfers(s.frames[id].vars, s'.frames[id].vars, n, Next(s.frames[id]).from)
  {
    hide Inv, FramesInv, LifeOk;
    InvFrames(s);
    TopFacts(s);
    VarsDeclared(s);
  }

  /** A variable is declared by an earlier action. */
  lemma VarsDeclared(s: State)
    requires FramesInv(s) && HasTop(s)
    ensures forall v :: v in s.frames[Top(s)].vars ==> v < |s.frames[Top(s)].hist|
  {
    hide FramesInv;
    TopFacts(s);
    OneHolder(s.frames[Top(s)].prog, Top(s), s.frames[Top(s)].hist);
    hide VarsAt, GivenUp;
  }

  /** The frame in a variable is destroyed, and nothing else. */
  ghost predicate Destroys(s: State, s': State, k: Option<Id>)
    requires HasTop(s)
  {
    match k
    case None => OnlyChanged(s, s', {Top(s)})
    case Some(kid) =>
      && OnlyChanged(s, s', {Top(s), kid}) && kid in s.frames && kid in s'.frames
      && s'.frames[kid] == s.frames[kid].(status := Destroyed)
  }

  /** The move assignment: what the target held is destroyed and it holds what the source held, unless both are
      the same variable. */
  lemma MoveAssignEffect(s: State, accept: nat)
    requires Inv(s) && Allowed(s, Act(accept)) && Next(s.frames[Top(s)]).MoveAssign?
    ensures Step(s, Act(accept)).Ok?
    ensures var s', id, a := Step(s, Act(accept)).state, Top(s), Next(s.frames[Top(s)]);
            && GoesOnWith(s, s', Unit) && RestSame(s, s')
            && if a.to == a.from then Destroys(s, s', None) && s'.frames[id].vars == s.frames[id].vars
               else
                 && Destroys(s, s', At(s.frames[id].vars, a.to))
                 && Transfers(s.frames[id].vars, s'.frames[id].vars, a.to, a.from)
  {
    hide Inv, FramesInv, LifeOk, Exchange, ActMoveAssign;
    InvFrames(s);
    StepKeeps(s, Act(accept));
    var a := Next(s.frames[Top(s)]);
    assert Step(s, Act(accept)) == ActMoveAssign(s, a.to, a.from);
    hide Step, Allowed;
    if a.to in s.frames[Top(s)].vars {
      KidFacts(s, a.to);
    }
    TopFacts(s);
    MoveAssignShape(s, a.to, a.from);
  }

  lemma MoveAssignShape(s: State, to: nat, from: nat)
    requires HasTop(s) && ActMoveAssign(s, to, from).Ok? && s.frames[Top(s)].status.Running?
    requires to in s.frames[Top(s)].vars ==>
             s.frames[Top(s)].vars[to] in s.frames && s.frames[Top(s)].vars[to] != Top(s)
    ensures var s', id := ActMoveAssign(s, to, from).state, Top(s);
            && GoesOnWith(s, s', Unit) && RestSame(s, s')
            && if to == from then Destroys(s, s', None) && s'.frames[id].vars == s.frames[id].vars
               else
                 && Destroys(s, s', At(s.frames[id].vars, to))
                 && Transfers(s.frames[id].vars, s'.frames[id].vars, to, from)
  {
  }

  lemma DropShape(s: State, v: nat)
    requires HasTop(s) && ActDrop(s, v).Ok? && s.frames[Top(s)].status.Running?
    requires v in s.frames[Top(s)].vars ==> s.frames[Top(s)].vars[v] in s.frames && s.frames[Top(s)].vars[v] != Top(s)
    ensures var s', id := ActDrop(s, v).state, Top(s);
            && GoesOnWith(s, s', Unit) && RestSame(s, s')
            && Destroys(s, s', At(s.frames[id].vars, v)) && Sets(s.frames[id].vars, s'.frames[id].vars, v, None)
  {
  }

  /** The destructor of a variable destroys what it holds. */
  lemma DropEffect(s: State, accept: nat)
    requires Inv(s) && Allowed(s, Act(accept)) && Next(s.frames[Top(s)]).Drop?
    ensures Step(s, Act(accept)).Ok?
    ensures var s', id, v := Step(s, Act(accept)).state, Top(s), Next(s.frames[Top(s)]).task;
            && GoesOnWith(s, s', Unit) && RestSame(s, s')
            && Destroys(s, s', At(s.frames[id].vars, v)) && Sets(s.frames[id].vars, s'.frames[id].vars, v, None)
  {
    hide Inv, FramesInv, LifeOk, ActDrop;
    InvFrames(s);
    StepKeeps(s, Act(accept));
    var v := Next(s.frames[Top(s)]).task;
    assert Step(s, Act(accept)) == ActDrop(s, v);
    hide Step, Allowed;
    if v in s.frames[Top(s)].vars {
      KidFacts(s, v);
    }
    TopFacts(s);
    DropShape(s, v);
  }

  /** With a full queue the operation is answered at once, by a failure; nothing is queued. */
  lemma NoEntryEffect(s: State, accept: nat)
    requires Inv(s) && Allowed(s, Act(accept)) && Next(s.frames[Top(s)]).AwaitIo? && |s.sq| >= SQ_ENTRIES
    ensures Step(s, Act(accept)).Ok?
    ensures var s' := Step(s, Act(accept)).state;
            && (exists r: int :: r < 0 && GoesOnWith(s, s', IoResult(r)))
            && s'.frames[Top(s)].vars == s.frames[Top(s)].vars
            && RestSame(s, s') && OnlyChanged(s, s', {Top(s)})
  {
    hide Inv, FramesInv, VarsOk;
    InvFrames(s);
    TopFacts(s);
    assert GoesOnWith(s, Step(s, Act(accept)).state, IoResult(NO_SQE_RESULT));
  }

  /** The entry `u` goes to the back of the submission queue, and the kernel takes entries from the front: as many as
      it accepts, or all. */
  ghost predicate Queues(s: State, s': State, u: UserData, accept: nat) {
    exists front: seq<UserData> ::
      && front + s'.sq == s.sq + [u] && s'.flying == s.flying + multiset(front)
      && |front| <= accept && (s'.sq == [] || |front| == accept)
  }

  lemma SubmitQueues(s: State, s': State, u: UserData, accept: nat)
    requires s' == Submit(s.(sq := s.sq + [u]), accept).(stack := s'.stack, frames := s'.frames)
    ensures Queues(s, s', u, accept)
  {
    var q := s.sq + [u];
    var k := if accept < |q| then accept else |q|;
    assert q[..k] + s'.sq == q;
  }

  lemma IoQueues(s: State, accept: nat)
    requires HasTop(s) && |s.sq| < SQ_ENTRIES
    ensures Queues(s, ActIo(s, accept), Awaiter(OpId(Top(s), |s.frames[Top(s)].hist|)), accept)
  {
    hide Queues;
    SubmitQueues(s, ActIo(s, accept), Awaiter(OpId(Top(s), |s.frames[Top(s)].hist|)), accept);
  }

  /** Otherwise the frame is suspended, the resumer goes on, and exactly this operation is outstanding in
      addition. */
  lemma IoEffect(s: State, accept: nat)
    requires Inv(s) && Allowed(s, Act(accept)) && Next(s.frames[Top(s)]).AwaitIo? && |s.sq| < SQ_ENTRIES
    ensures Step(s, Act(accept)).Ok?
    ensures var s', id, n := Step(s, Act(accept)).state, Top(s), |s.frames[Top(s)].hist|;
            && OnlyChanged(s, s', {id}) && id in s'.frames && s'.stack == s.stack[..|s.stack| - 1]
            && s'.frames[id] == s.frames[id].(status := OnIo(n), io := s'.frames[id].io)
            && Pending(s') == Pending(s) + multiset{Awaiter(OpId(id, n))}
            && Queues(s, s', Awaiter(OpId(id, n)), accept)
            && RestSame(s, s'.(sq := s.sq, flying := s.flying))
  {
    hide Inv, FramesInv, Pending, Queues;
    InvFrames(s);
    TopFacts(s);
    SuspendIoResult(s, accept);
    IoQueues(s, accept);
  }

  lemma CreatedWhole(id: Id, f: Frame)
    requires LifeOk(id, f, false) && f.status.Created?
    ensures f == Fresh(f.prog).(attached := f.attached)
  {
    hide VarsOk;
  }

  /** A launched task runs at once, as an attached daemon in a nested call; `launch` hands its handle to a new
      variable, `launch_detached` to none. */
  lemma LaunchEffect(s: State, accept: nat)
    requires Inv(s) && Allowed(s, Act(accept))
    requires Next(s.frames[Top(s)]).Launch? || Next(s.frames[Top(s)]).LaunchDetached?
    ensures Step(s, Act(accept)).Ok?
    ensures var s', id, f := Step(s, Act(accept)).state, Top(s), s.frames[Top(s)];
            && Next(f).task in f.vars && f.vars[Next(f).task] in s.frames
            && var kid := f.vars[Next(f).task];
               && id in s'.frames && kid in s'.frames && s'.stack == s.stack + [kid] && RestSame(s, s')
               && OnlyChanged(s, s', {id, kid}) && JustStarted(s'.frames[kid], s.frames[kid].prog, true, None)
               && s'.frames[id] == f.(hist := f.hist + [Unit], vars := s'.frames[id].vars)
               && if Next(f).Launch? then Transfers(f.vars, s'.frames[id].vars, |f.hist|, Next(f).task)
                  else Sets(f.vars, s'.frames[id].vars, Next(f).task, None)
  {
    hide Inv, FramesInv, VarsOk, ActLaunch;
    InvFrames(s);
    TopFacts(s);
    VarsDeclared(s);
    var v, detached := Next(s.frames[Top(s)]).task, Next(s.frames[Top(s)]).LaunchDetached?;
    assert v in s.frames[Top(s)].vars && s.frames[s.frames[Top(s)].vars[v]].status.Created?;
    assert Step(s, Act(accept)) == ActLaunch(s, v, detached);
    hide Step, Allowed;
    KidFacts(s, v);
    CreatedWhole(s.frames[Top(s)].vars[v], s.frames[s.frames[Top(s)].vars[v]]);
    hide LifeOk;
    LaunchResult(s, v, detached);
  }

  lemma AwaitShape(s: State, v: nat, byMove: bool)
    requires HasTop(s) && Next(s.frames[Top(s)]) == AwaitTask(v, byMove) && v in s.frames[Top(s)].vars
    requires var id, kid, f := Top(s), s.frames[Top(s)].vars[v], s.frames[Top(s)];
             && kid in s.frames && kid != id && f.status.Running? && f.attached
             && LifeOk(kid, s.frames[kid], false) && !s.frames[kid].status.Destroyed?
             && (Active(s.frames[kid]) ==> s.frames[kid].daemon)
    ensures ActAwaitTask(s, v, byMove).Ok?
    ensures var s', id, f := ActAwaitTask(s, v, byMove).state, Top(s), s.frames[Top(s)];
            && f.vars[v] in s'.frames && id in s'.frames && RestSame(s, s')
            && (if byMove then Sets(f.vars, s'.frames[id].vars, v, None) else s'.frames[id].vars == f.vars)
            && var kid := f.vars[v];
               var k := s.frames[kid];
               if k.status.Done? then
                 && Ends(Next(k)) && GoesOnWith(s, s', Awaited(OutcomeOf(Next(k)))) && OnlyChanged(s, s', {id})
               else
                 && OnlyChanged(s, s', {id, kid}) && s'.frames[kid].caller == Some(id)
                 && s'.frames[id] == f.(status := OnTask(kid), vars := s'.frames[id].vars)
                 && if k.status.Created? then
                      && s'.stack == s.stack[..|s.stack| - 1] + [kid]
                      && JustStarted(s'.frames[kid], k.prog, false, Some(id))
                    else
                      && s'.stack == s.stack[..|s.stack| - 1]
                      && s'.frames[kid] == k.(caller := Some(id), attached := true)
  {
    hide VarsOk, ActAwaitTask;
    AwaitVars(Top(s), s.frames[Top(s)], v, byMove);
    AwaitResult(s, v, byMove);
    hide NextVars;
    var k := s.frames[s.frames[Top(s)].vars[v]];
    if k.status.Done? {
      assert HoldsOutcome(k, OutcomeOf(Next(k)));
    }
    hide LifeOk;
  }

  /** An await on a finished task goes on at once with its outcome. Otherwise the frame is suspended on the task, which
      knows it as its caller: a task that has not started takes its place on the native stack, one that is
      under way is left to itself. */
  lemma AwaitEffect(s: State, accept: nat)
    requires Inv(s) && Allowed(s, Act(accept)) && Next(s.frames[Top(s)]).AwaitTask?
    ensures Step(s, Act(accept)).Ok?
    ensures var s', id, f := Step(s, Act(accept)).state, Top(s), s.frames[Top(s)];
            var v, byMove := Next(f).task, Next(f).byMove;
            && v in f.vars && f.vars[v] in s.frames && f.vars[v] in s'.frames && id in s'.frames && RestSame(s, s')
            && (if byMove then Sets(f.vars, s'.frames[id].vars, v, None) else s'.frames[id].vars == f.vars)
            && var kid := f.vars[v];
               var k := s.frames[kid];
               if k.status.Done? then
                 && Ends(Next(k)) && GoesOnWith(s, s', Awaited(OutcomeOf(Next(k)))) && OnlyChanged(s, s', {id})
               else
                 && OnlyChanged(s, s', {id, kid}) && s'.frames[kid].caller == Some(id)
                 && s'.frames[id] == f.(status := OnTask(kid), vars := s'.frames[id].vars)
                 && if k.status.Created? then
                      && s'.stack == s.stack[..|s.stack| - 1] + [kid]
                      && JustStarted(s'.frames[kid], k.prog, false, Some(id))
                    else
                      && s'.stack == s.stack[..|s.stack| - 1]
                      && s'.frames[kid] == k.(caller := Some(id), attached := true)
  {
    hide Inv, FramesInv, VarsOk, ActAwaitTask;
    InvFrames(s);
    TopFacts(s);
    var v, byMove := Next(s.frames[Top(s)]).task, Next(s.frames[Top(s)]).byMove;
    assert v in s.frames[Top(s)].vars;
    assert Step(s, Act(accept)) == ActAwaitTask(s, v, byMove);
    hide Step, Allowed;
    KidFacts(s, v);
    RunsAttached(Top(s), s.frames[Top(s)], IsRoot(s, Top(s)));
    hide LifeOk;
    AwaitShape(s, v, byMove);
  }

  // ---- The end of a body. ----

  /** A body that ends leaves its outcome in its promise, and the tasks in its variables are destroyed. */
  ghost predicate EndsWith(s: State, s': State, o: Outcome, status: Status)
    requires HasTop(s)
  {
    var id, f := Top(s), s.frames[Top(s)];
    && id in s'.frames && HoldsOutcome(s'.frames[id], o)
    && s'.frames[id] == f.(status := status, vars := map[], value := s'.frames[id].value, ex := s'.frames[id].ex)
    && (forall k :: k in f.vars.Values ==>
          k in s.frames && k in s'.frames && s'.frames[k] == s.frames[k].(status := Destroyed))
  }

  /** The end of an awaited task: its caller has received the outcome and takes its place. */
  lemma EndToCallerEffect(s: State, accept: nat)
    requires Inv(s) && Allowed(s, Act(accept)) && Ends(Next(s.frames[Top(s)])) && s.frames[Top(s)].caller.Some?
    ensures Step(s, Act(accept)).Ok?
    ensures var s', id, f := Step(s, Act(accept)).state, Top(s), s.frames[Top(s)];
            var p, o := f.caller.value, OutcomeOf(Next(f));
            && EndsWith(s, s', o, Done) && p in s.frames && p in s'.frames && s.frames[p].status == OnTask(id)
            && s'.frames[p] == s.frames[p].(hist := s.frames[p].hist + [Awaited(o)], status := Running)
            && s'.stack == s.stack[..|s.stack| - 1] + [p]
            && OnlyChanged(s, s', {id, p} + f.vars.Values) && RestSame(s, s')
  {
    hide Inv, FramesInv, LifeOk, FinalSuspend, LocalsGone, EndsWith, OnlyChanged, AfterLocals, Allowed, Step, LinkOk;
    InvFrames(s);
    EndStarts(s, accept);
    TopFacts(s);
    CallerFacts(s);
    RunsEmpty(s);
    LocalsShape(s);
    CallerNotLocal(s);
    var id, p := Top(s), s.frames[Top(s)].caller.value;
    var o, s1 := OutcomeOf(Next(s.frames[id])), AfterLocals(s);
    GoneTop(s, s1, p);
    ToCallerResult(s1, o, accept);
    FinishedShape(s1, o);
    hide Finished, AtFinal;
    var s' := FinalSuspend(AtFinal(s1, o), accept).state;
    EndsFrom(s, s1, s', s'.frames[id], p, s'.frames[p], o, Done);
  }

  /** The end of a daemon that nobody awaits: it is done and stays. */
  lemma EndOfDaemonEffect(s: State, accept: nat)
    requires Inv(s) && Allowed(s, Act(accept)) && Ends(Next(s.frames[Top(s)]))
    requires s.frames[Top(s)].caller.None? && s.frames[Top(s)].daemon
    ensures Step(s, Act(accept)).Ok?
    ensures var s', id, f := Step(s, Act(accept)).state, Top(s), s.frames[Top(s)];
            && EndsWith(s, s', OutcomeOf(Next(f)), Done) && s'.stack == s.stack[..|s.stack| - 1]
            && OnlyChanged(s, s', {id} + f.vars.Values) && RestSame(s, s')
  {
    hide Inv, FramesInv, LifeOk, FinalSuspend, LocalsGone, EndsWith, OnlyChanged, AfterLocals, Allowed, Step;
    InvFrames(s);
    EndStarts(s, accept);
    TopFacts(s);
    RunsEmpty(s);
    LocalsShape(s);
    var id := Top(s);
    var o, s1 := OutcomeOf(Next(s.frames[id])), AfterLocals(s);
    TopNotHeld(s);
    GoneTop(s, s1, id);
    DaemonEndsResult(s1, o, accept);
    FinishedShape(s1, o);
    hide Finished;
    var s' := FinalSuspend(AtFinal(s1, o), accept).state;
    EndsFrom(s, s1, s', s'.frames[id], id, s'.frames[id], o, Done);
    assert {id, id} == {id};
  }

  /** The end of the root of a run: its frame goes, and one marker more is outstanding. */
  lemma EndOfRootEffect(s: State, accept: nat)
    requires Inv(s) && Allowed(s, Act(accept)) && Ends(Next(s.frames[Top(s)]))
    requires s.frames[Top(s)].caller.None? && !s.frames[Top(s)].daemon
    ensures Step(s, Act(accept)).Ok?
    ensures var s', id, f := Step(s, Act(accept)).state, Top(s), s.frames[Top(s)];
            && EndsWith(s, s', OutcomeOf(Next(f)), Destroyed) && s'.stack == s.stack[..|s.stack| - 1]
            && OnlyChanged(s, s', {id} + f.vars.Values)
            && Pending(s') == Pending(s) + multiset{Marker} && Queues(s, s', Marker, accept)
            && RestSame(s, s'.(sq := s.sq, flying := s.flying))
  {
    hide Queues, Inv, FramesInv, VarsOk, FinalSuspend, LocalsGone, EndsWith, OnlyChanged, AfterLocals, Step, Pending;
    InvFrames(s);
    EndStarts(s, accept);
    TopFacts(s);
    assert |s.sq| < SQ_ENTRIES;
    hide Allowed;
    RunsEmpty(s);
    RunsAttached(Top(s), s.frames[Top(s)], IsRoot(s, Top(s)));
    hide LifeOk;
    LocalsShape(s);
    var id := Top(s);
    var o, s1 := OutcomeOf(Next(s.frames[id])), AfterLocals(s);
    TopNotHeld(s);
    GoneTop(s, s1, id);
    RootEndsResult(s1, o, accept);
    FinishedShape(s1, o);
    hide Finished, AtFinal;
    var s' := FinalSuspend(AtFinal(s1, o), accept).state;
    MarkerPending(s, s', accept);
    SubmitQueues(s, s', Marker, accept);
    EndsFrom(s, s1, s', s'.frames[id], id, s'.frames[id], o, Destroyed);
    assert {id, id} == {id};
  }

  /** The end of a body, once its locals are gone. */
  lemma EndStarts(s: State, accept: nat)
    requires FramesInv(s) && Inv(s) && Allowed(s, Act(accept)) && Ends(Next(s.frames[Top(s)]))
    ensures HasTop(s) && LocalsOwnable(s) && HasTop(AfterLocals(s)) && Top(AfterLocals(s)) == Top(s)
    ensures Step(s, Act(accept)).Ok?
    ensures Step(s, Act(accept)) == FinalSuspend(AtFinal(AfterLocals(s), OutcomeOf(Next(s.frames[Top(s)]))), accept)
  {
    hide Inv, FramesInv, FinalSuspend, ActEnd;
    StepKeeps(s, Act(accept));
    TopInjective(s);
    assert LocalsOwnable(s);
    EndResult(s, OutcomeOf(Next(s.frames[Top(s)])), accept);
  }

  /** The tasks in the variables of the top frame are destroyed, and its variables are gone. */
  ghost predicate LocalsGone(s: State, s1: State)
    requires HasTop(s)
  {
    var id, f := Top(s), s.frames[Top(s)];
    && s1.frames.Keys == s.frames.Keys && s1 == s.(frames := s1.frames)
    && id !in f.vars.Values && s1.frames[id] == f.(vars := map[])
    && (forall k :: k in f.vars.Values ==> k in s.frames && s1.frames[k] == s.frames[k].(status := Destroyed))
    && (forall k :: k in s.frames && k != id && k !in f.vars.Values ==> s1.frames[k] == s.frames[k])
  }

  lemma LocalsShape(s: State)
    requires FramesInv(s) && HasTop(s) && LocalsOwnable(s)
    ensures LocalsGone(s, AfterLocals(s))
  {
    hide FramesInv;
    TopNotHeld(s);
    forall k | k in s.frames[Top(s)].vars.Values ensures k in s.frames {
      var v :| v in s.frames[Top(s)].vars && s.frames[Top(s)].vars[v] == k;
      assert Ownable(s, s.frames[Top(s)].vars[v]);
    }
    hide LocalsOwnable;
  }

  lemma GoneTop(s: State, s1: State, p: Id)
    requires HasTop(s) && LocalsGone(s, s1) && p in s.frames && p !in s.frames[Top(s)].vars.Values
    ensures HasTop(s1) && Top(s1) == Top(s) && s1.frames[Top(s)] == s.frames[Top(s)].(vars := map[])
    ensures s1 == s.(frames := s1.frames) && p in s1.frames && (p != Top(s) ==> s1.frames[p] == s.frames[p])
  {
  }

  /** The top frame ends; `p`, if it is another frame, is its caller. */
  lemma EndsFrom(s: State, s1: State, s': State, f': Frame, p: Id, p': Frame, o: Outcome, status: Status)
    requires HasTop(s) && LocalsGone(s, s1) && HoldsOutcome(f', o) && p in s.frames
    requires p !in s.frames[Top(s)].vars.Values
    requires var f := s.frames[Top(s)]; f' == f.(status := status, vars := map[], value := f'.value, ex := f'.ex)
    requires s'.frames == if p == Top(s) then s1.frames[p := f'] else s1.frames[Top(s) := f'][p := p']
    ensures EndsWith(s, s', o, status) && OnlyChanged(s, s', {Top(s), p} + s.frames[Top(s)].vars.Values)
    ensures p != Top(s) ==> s1.frames[p] == s.frames[p]
  {
    hide HoldsOutcome;
  }

  /** The caller of a frame is suspended, so the frame does not own it. */
  lemma CallerNotLocal(s: State)
    requires FramesInv(s) && HasTop(s) && LocalsOwnable(s) && s.frames[Top(s)].caller.Some?
    ensures s.frames[Top(s)].caller.value !in s.frames[Top(s)].vars.Values
  {
    hide FramesInv;
    CallerFacts(s);
    forall k | k in s.frames[Top(s)].vars.Values ensures Ownable(s, k) {
      var v :| v in s.frames[Top(s)].vars && s.frames[Top(s)].vars[v] == k;
    }
  }

  lemma FinishedShape(s: State, o: Outcome)
    requires HasTop(s) && s.frames[Top(s)].value.None? && s.frames[Top(s)].ex.None?
    ensures var f, f' := s.frames[Top(s)], Finished(s, o);
            && HoldsOutcome(f', o) && f' == f.(status := Done, vars := map[], value := f'.value, ex := f'.ex)
  {
  }

  // ---- The discipline. ----

  /** A task that waits for an operation is launched once more: the handle of its awaiter would be resumed. */
  predicate LaunchesWaiting(s: State)
    requires HasTop(s)
  {
    var f, a := s.frames[Top(s)], Next(s.frames[Top(s)]);
    (a.Launch? || a.LaunchDetached?) && a.task in f.vars && f.vars[a.task] in s.frames
      && s.frames[f.vars[a.task]].status.OnIo?
  }

  /** A variable is assigned to before it is declared, which no program can write. */
  predicate AssignsUndeclared(s: State)
    requires HasTop(s)
  {
    Next(s.frames[Top(s)]).MoveAssign? && Next(s.frames[Top(s)]).to >= |s.frames[Top(s)].hist|
  }

  /** The discipline asks no more than it has to: an action that breaks it is a fault, unless it is one of these two. */
  lemma DisciplineNeeded(s: State, accept: nat)
    requires Inv(s) && Enabled(s, Act(accept)) && !Disciplined(s, Act(accept))
    ensures Step(s, Act(accept)).Fault? || LaunchesWaiting(s) || AssignsUndeclared(s)
  {
    hide Inv, FramesInv, VarsOk, FinalSuspend;
    InvFrames(s);
    TopFacts(s);
    var f := s.frames[Top(s)];
    match Next(f)
    case Launch(v) =>
      if !LaunchesWaiting(s) {
        LaunchNeeds(s, v, false);
      }
    case LaunchDetached(v) =>
      if !LaunchesWaiting(s) {
        LaunchNeeds(s, v, true);
      }
    case CoReturn(v) => EndNeeds(s, Value(v), accept);
    case CoThrow(e) => EndNeeds(s, Exception(e), accept);
    case MoveAssign(to, from) =>
      if to in f.vars {
        KidFacts(s, to);
      }
    case Drop(v) =>
      if v in f.vars {
        KidFacts(s, v);
      }
    case _ =>
  }

  lemma LaunchNeeds(s: State, v: nat, detached: bool)
    requires FramesInv(s) && HasTop(s)
    requires v in s.frames[Top(s)].vars && s.frames[Top(s)].vars[v] in s.frames ==>
               !s.frames[s.frames[Top(s)].vars[v]].status.Created? && !s.frames[s.frames[Top(s)].vars[v]].status.OnIo?
    ensures ActLaunch(s, v, detached).Fault?
  {
    hide FramesInv, VarsOk, Exchange;
    if v in s.frames[Top(s)].vars {
      KidFacts(s, v);
      var kid := s.frames[Top(s)].vars[v];
      if s.frames[kid].status.OnTask? {
        AwaitedEmpty(s, kid);
      }
    }
  }

  /** The task that a suspended frame awaits has no outcome yet. */
  lemma AwaitedEmpty(s: State, id: Id)
    requires FramesInv(s) && id in s.frames && s.frames[id].status.OnTask?
    ensures var c := s.frames[id].status.callee;
            c != id && c.Child? && c.parent == id && (c in s.frames ==> s.frames[c].value.None? && s.frames[c].ex.None?)
  {
    hide FramesInv, LifeOk;
    LinkFact(s, id);
    var c := s.frames[id].status.callee;
    NoCycle(id, c);
    LifeFact(s, c);
    assert s.frames[c].value.None? && s.frames[c].ex.None? by { ActiveEmpty(c, s.frames[c], IsRoot(s, c)); }
  }

  lemma ActiveEmpty(id: Id, f: Frame, root: bool)
    requires LifeOk(id, f, root) && Active(f)
    ensures f.value.None? && f.ex.None?
  {
    hide VarsOk;
  }

  lemma EndNeeds(s: State, o: Outcome, accept: nat)
    requires HasTop(s) && !LocalsOwnable(s)
    ensures ActEnd(s, o, accept).Fault?
  {
    hide FinalSuspend, StoreOutcome;
  }

  // ---- What a run has started. ----

  /** The bodies that the main thread starts in a run, in order. */
  function Starts(s: State, cs: seq<Choice>): seq<Program>
    decreases |cs|
  {
    if cs == [] then []
    else if !Allowed(s, cs[0]) then Starts(s, cs[1..])
    else
      match Step(s, cs[0])
      case Fault(_) => []
      case Ok(s1) => StartOf(cs[0]) + Starts(s1, cs[1..])
  }

  function StartOf(c: Choice): seq<Program> {
    match c
    case StartRun(prog) => [prog]
    case StartDetached(prog) => [prog]
    case _ => []
  }

  lemma ActRoots(s: State, accept: nat)
    requires Inv(s) && Allowed(s, Act(accept))
    ensures Step(s, Act(accept)).Ok? && Step(s, Act(accept)).state.roots == s.roots
  {
    hide Inv, Step, OnlyChanged, EndsWith, Pending;
    match Next(s.frames[Top(s)])
    case AwaitContext => ContextEffect(s, accept);
    case Create(_) => CreateEffect(s, accept);
    case MoveConstruct(_) => MoveConstructEffect(s, accept);
    case MoveAssign(_, _) => MoveAssignEffect(s, accept);
    case Drop(_) => DropEffect(s, accept);
    case AwaitIo =>
      if |s.sq| >= SQ_ENTRIES {
        NoEntryEffect(s, accept);
      } else {
        IoEffect(s, accept);
      }
    case Launch(_) => LaunchEffect(s, accept);
    case LaunchDetached(_) => LaunchEffect(s, accept);
    case AwaitTask(_, _) => AwaitEffect(s, accept);
    case CoReturn(_) => EndRoots(s, accept);
    case CoThrow(_) => EndRoots(s, accept);
  }

  lemma EndRoots(s: State, accept: nat)
    requires Inv(s) && Allowed(s, Act(accept)) && Ends(Next(s.frames[Top(s)]))
    ensures Step(s, Act(accept)).Ok? && Step(s, Act(accept)).state.roots == s.roots
  {
    hide Inv, Step, OnlyChanged, EndsWith, Pending;
    if s.frames[Top(s)].caller.Some? {
      EndToCallerEffect(s, accept);
    } else if s.frames[Top(s)].daemon {
      EndOfDaemonEffect(s, accept);
    } else {
      EndOfRootEffect(s, accept);
    }
  }

  lemma StepRoots(s: State, c: Choice)
    requires Inv(s) && Allowed(s, c)
    ensures Step(s, c).Ok? && Step(s, c).state.roots == s.roots + |StartOf(c)|
    ensures StartOf(c) != [] ==> Root(s.roots) in Step(s, c).state.frames
    ensures StartOf(c) != [] ==>
            JustStarted(Step(s, c).state.frames[Root(s.roots)], StartOf(c)[0], c.StartDetached?, None)
  {
    hide Inv, Advance, Dispatch, OnlyChanged;
    match c
    case Act(accept) => ActRoots(s, accept);
    case WaitOk =>
      StepKeeps(s, c);
      DispatchRoots(s);
    case StartRun(prog) => RootStarts(s, prog);
    case StartDetached(prog) => DetachedStarts(s, prog);
    case _ => StepKeeps(s, c);
  }

  lemma DispatchRoots(s: State)
    requires Enabled(s, WaitOk)
    ensures Dispatch(s).Ok? ==> Dispatch(s).state.roots == s.roots
  {
    hide Receive;
  }

  /** Frames last, with their bodies and with what they have received; what has started stays started. */
  lemma {:induction false} FramesLast(s: State, cs: seq<Choice>)
    requires Inv(s)
    ensures Exec(s, cs).Ok?
    ensures forall k :: k in s.frames ==>
            k in Exec(s, cs).state.frames && Onward(s.frames[k], Exec(s, cs).state.frames[k])
    decreases |cs|
  {
    hide Inv, Allowed, Step, GainsNone;
    if cs != [] {
      if Allowed(s, cs[0]) {
        AllowedEnabled(s, cs[0]);
        InvSettles(s, cs[0]);
        FramesLast(Step(s, cs[0]).state, cs[1..]);
      } else {
        FramesLast(s, cs[1..]);
      }
    }
  }

  /** Every body that the main thread has started in a run, by `block_run` or `launch_detached`, has its own root frame,
      which has started. */
  lemma {:induction false} RootsAreStarts(s: State, cs: seq<Choice>)
    requires Inv(s)
    ensures Exec(s, cs).Ok?
    ensures var s', starts := Exec(s, cs).state, Starts(s, cs);
            && s'.roots == s.roots + |starts|
            && (forall i :: 0 <= i < |starts| ==> RootRuns(s', s.roots + i, starts[i]))
    decreases |cs|
  {
    hide Inv, Allowed, Step, RootRuns, StartOf;
    if cs != [] {
      if Allowed(s, cs[0]) {
        AllowedEnabled(s, cs[0]);
        StepKeeps(s, cs[0]);
        StepRoots(s, cs[0]);
        var s1 := Step(s, cs[0]).state;
        RootsAreStarts(s1, cs[1..]);
        FirstStarts(s, s1, cs);
      } else {
        RootsAreStarts(s, cs[1..]);
      }
    }
  }

  /** Root `n` exists, has body `prog`, and has started. */
  ghost predicate RootRuns(s: State, n: nat, prog: Program) {
    Root(n) in s.frames && s.frames[Root(n)].prog == prog && !s.frames[Root(n)].status.Created?
  }

  lemma FirstStarts(s: State, s1: State, cs: seq<Choice>)
    requires cs != [] && Inv(s1) && Exec(s1, cs[1..]).Ok?
    requires StartOf(cs[0]) != [] ==>
               Root(s.roots) in s1.frames
                 && JustStarted(s1.frames[Root(s.roots)], StartOf(cs[0])[0], cs[0].StartDetached?, None)
    ensures |StartOf(cs[0])| <= 1
    ensures StartOf(cs[0]) != [] ==> RootRuns(Exec(s1, cs[1..]).state, s.roots, StartOf(cs[0])[0])
  {
    hide Inv, Exec;
    FramesLast(s1, cs[1..]);
  }
}
