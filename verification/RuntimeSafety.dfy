/** One step of the runtime: it keeps the frame invariant and never faults. */
module RuntimeSafety {
  import opened Wrappers
  import opened Programs
  import opened Runtime
  import opened RuntimeInvariant
  import opened RuntimeFrames

  // ---- What the invariant says about the frames a step touches. ----

  lemma TopFacts(s: State)
    requires FramesInv(s) && HasTop(s)
    ensures s.frames[Top(s)].status.Running? && LifeOk(Top(s), s.frames[Top(s)], IsRoot(s, Top(s)))
    ensures !s.phase.Idle? && !s.phase.Waiting? && (s.phase.Dispatching? ==> s.running)
  {
    assert Top(s) in s.stack;
    assert IsRunning(s, Top(s));
  }

  lemma KidFacts(s: State, v: nat)
    requires FramesInv(s) && HasTop(s) && v in s.frames[Top(s)].vars
    ensures var id, kid := Top(s), s.frames[Top(s)].vars[v];
            && kid.Child? && kid.parent == id && kid != id && kid in s.frames && !s.frames[kid].status.Destroyed?
            && Born(s.frames[id], kid.birth, s.frames[kid])
            && LifeOk(kid, s.frames[kid], false) && !IsRoot(s, kid)
            && (Active(s.frames[kid]) ==> s.frames[kid].daemon && s.frames[kid].caller.None?)
            && (s.frames[kid].status.Created? ==> s.frames[kid].caller.None?)
  {
    hide StackOk, PhaseOk, GraphOk, LifeOk, LinkOk;
    var id := Top(s);
    var kid := s.frames[id].vars[v];
    TopFacts(s);
    HeldFact(s, id, v);
    NotRoot(s, kid);
    NoCycle(id, kid);
    LifeFact(s, kid);
    LinkFact(s, kid);
    KidStatus(s, kid);
  }

  lemma HeldFact(s: State, p: Id, v: nat)
    requires FramesInv(s) && p in s.frames && v in s.frames[p].vars
    ensures var kid := s.frames[p].vars[v];
            kid.Child? && kid.parent == p && kid in s.frames && !s.frames[kid].status.Destroyed?
              && Born(s.frames[p], kid.birth, s.frames[kid])
  {
    hide StackOk, PhaseOk, LinksOk, LivesOk;
    var kid := s.frames[p].vars[v];
    assert kid in s.frames[p].vars.Values;
    assert kid == Child(p, kid.birth);
  }

  lemma LinkFact(s: State, id: Id)
    requires FramesInv(s) && id in s.frames
    ensures LinkOk(s, id)
  {
    hide StackOk, PhaseOk, TreeOk, LivesOk, HeldOk, LinkOk;
  }

  /** A task whose creator runs is not awaited. */
  lemma KidStatus(s: State, kid: Id)
    requires kid in s.frames && kid.Child? && kid.parent in s.frames && s.frames[kid.parent].status.Running?
    requires LinkOk(s, kid) && LifeOk(kid, s.frames[kid], false)
    ensures Active(s.frames[kid]) ==> s.frames[kid].daemon && s.frames[kid].caller.None?
    ensures s.frames[kid].status.Created? ==> s.frames[kid].caller.None?
  {
    hide VarsOk, VarsAt;
  }

  lemma CallerFacts(s: State)
    requires FramesInv(s) && HasTop(s) && s.frames[Top(s)].caller.Some?
    ensures var id, p := Top(s), s.frames[Top(s)].caller.value;
            && id == Child(p, id.birth) && p in s.frames && p != id
            && s.frames[p].status == OnTask(id) && LifeOk(p, s.frames[p], IsRoot(s, p)) && p !in s.stack
            && LinkOk(s, p)
  {
    TopFacts(s);
    var id := Top(s);
    assert LinkOk(s, id);
    var p := s.frames[id].caller.value;
    assert LinkOk(s, p);
    assert LifeOk(p, s.frames[p], IsRoot(s, p));
    assert !IsRunning(s, p);
    NoCycle(p, id);
  }

  /** As far as the main thread is concerned, the root is still what it was, or gone. */
  ghost predicate RootLasts(f: Frame, f': Frame) {
    !f.daemon && f.caller.None? && (Active(f) || f.status.Destroyed?) ==>
      !f'.daemon && f'.caller.None? && (Active(f') || f'.status.Destroyed?)
  }

  /** The main thread's side is unchanged. */
  lemma PhaseSame(s: State, s': State)
    requires PhaseOk(s) && s'.phase == s.phase && s'.running == s.running && s'.cq == s.cq
    requires forall r :: IsRoot(s, r) && r in s.frames ==> r in s'.frames && RootLasts(s.frames[r], s'.frames[r])
    requires !s.phase.Waiting? && !s.phase.Idle? && (s.phase.Dispatching? ==> s.running)
    ensures PhaseOk(s')
  {
  }

  lemma LifeFact(s: State, id: Id)
    requires FramesInv(s) && id in s.frames
    ensures LifeOk(id, s.frames[id], IsRoot(s, id))
  {
    hide StackOk, PhaseOk, TreeOk, LinksOk, HeldOk, LifeOk;
  }

  /** The top frame goes on without an await on a task, still running. */
  lemma TopGoesOn(s: State, s': State, f': Frame)
    requires FramesInv(s) && HasTop(s)
    requires s'.frames == s.frames[Top(s) := f'] && s'.stack == s.stack
    requires s'.phase == s.phase && s'.running == s.running && s'.cq == s.cq && s'.roots == s.roots
    requires f'.status.Running? && GoesOn(s.frames[Top(s)], f') && f'.vars.Values <= s.frames[Top(s)].vars.Values
    requires LifeOk(Top(s), f', IsRoot(s, Top(s)))
    ensures FramesInv(s')
  {
    hide GraphOk, StackOk, PhaseOk;
    TopFacts(s);
    hide LifeOk;
    GoOn(s, s', Top(s), f');
    StackSame(s, s');
    PhaseSame(s, s');
  }

  /** The top frame takes an action that creates nothing, receives `x`, and stays running. */
  lemma TopReceives(s: State, s': State, x: Input)
    requires FramesInv(s) && HasTop(s) && !Ends(Next(s.frames[Top(s)])) && !Next(s.frames[Top(s)]).Create?
    requires var f := s.frames[Top(s)]; s'.frames == s.frames[Top(s) := Receive(f, x).(vars := NextVars(Top(s), f))]
    requires s'.stack == s.stack && s'.phase == s.phase && s'.running == s.running && s'.cq == s.cq
    requires s'.roots == s.roots
    ensures FramesInv(s')
  {
    hide FramesInv, NextVars;
    TopFacts(s);
    VarsReceive(Top(s), s.frames[Top(s)], x);
    hide VarsOk;
    TopGoesOn(s, s', s'.frames[Top(s)]);
  }

  // ---- The running coroutine. ----

  lemma ContextKeeps(s: State)
    requires FramesInv(s) && HasTop(s) && Next(s.frames[Top(s)]).AwaitContext?
    ensures FramesInv(ActContext(s))
  {
    hide FramesInv;
    TopReceives(s, ActContext(s), ContextIs(s.frames[Top(s)].attached));
  }

  lemma CreateKeeps(s: State, child: Program)
    requires FramesInv(s) && HasTop(s) && Next(s.frames[Top(s)]) == Create(child)
    ensures FramesInv(ActCreate(s, child))
  {
    hide GraphOk, StackOk, PhaseOk;
    TopFacts(s);
    var id, s' := Top(s), ActCreate(s, child);
    var f, f' := s.frames[id], s'.frames[id];
    var kid := Child(id, |f.hist|);
    NoCycle(id, kid);
    NotRoot(s, kid);
    VarsReceive(id, f, Unit);
    hide LifeOk, VarsOk;
    CreateGraph(s, s', id, f', kid, child);
    StackSame(s, s');
    PhaseSame(s, s');
  }

  lemma NotRoot(s: State, kid: Id)
    requires PhaseOk(s) && kid.Child?
    ensures !IsRoot(s, kid)
  {
  }

  lemma CreateGraph(s: State, s': State, id: Id, f': Frame, kid: Id, child: Program)
    requires GraphOk(s) && id in s.frames && s.frames[id].status.Running? && kid == Child(id, |s.frames[id].hist|)
    requires !IsRoot(s, kid)
    requires s'.frames == s.frames[kid := Fresh(child)][id := f'] && s'.phase == s.phase && s'.roots == s.roots
    requires var f := s.frames[id];
             && Next(f) == Create(child) && f' == Receive(f, Unit).(vars := NextVars(id, f)) && VarsOk(id, f')
             && NextVars(id, f).Values <= f.vars.Values + {kid}
    ensures GraphOk(s') && kid !in s.frames
  {
    hide LinksOk, HeldOk, VarsOk, NextVars;
    assert Child(id, kid.birth) !in s.frames;
    hide TreeOk;
    var f := s.frames[id];
    assert f'.hist[..|f.hist|] == f.hist;
    assert LifeOk(id, f, IsRoot(s, id));
    hide LivesOk;
    Grow(s, s', id, f', kid, Fresh(child));
  }

  lemma MoveConstructKeeps(s: State, from: nat)
    requires FramesInv(s) && HasTop(s) && Next(s.frames[Top(s)]) == MoveConstruct(from)
    ensures FramesInv(ActMoveConstruct(s, from))
  {
    hide FramesInv;
    TopReceives(s, ActMoveConstruct(s, from), Unit);
  }

  lemma MoveAssignKeeps(s: State, to: nat, from: nat)
    requires FramesInv(s) && HasTop(s) && Next(s.frames[Top(s)]) == MoveAssign(to, from) && Disciplined(s, Act(0))
    ensures ActMoveAssign(s, to, from).Ok? && FramesInv(ActMoveAssign(s, to, from).state)
  {
    hide FramesInv, LifeOk;
    var id, f, s' := Top(s), s.frames[Top(s)], ActMoveAssign(s, to, from).state;
    var s1 := SetFrame(s, id, Receive(f, Unit).(vars := NextVars(id, f)));
    TopReceives(s, s1, Unit);
    if to != from && to in f.vars {
      KidFacts(s, to);
      TopInjective(s);
      TurnKeeps(s1, s', f.vars[to]);
    }
  }

  lemma TopInjective(s: State)
    requires FramesInv(s) && HasTop(s)
    ensures Injective(s.frames[Top(s)].vars)
  {
    TopFacts(s);
  }

  lemma DropKeeps(s: State, v: nat)
    requires FramesInv(s) && HasTop(s) && Next(s.frames[Top(s)]) == Drop(v) && Disciplined(s, Act(0))
    ensures ActDrop(s, v).Ok? && FramesInv(ActDrop(s, v).state)
  {
    hide FramesInv, LifeOk;
    var id, f, s' := Top(s), s.frames[Top(s)], ActDrop(s, v).state;
    var s1 := SetFrame(s, id, Receive(f, Unit).(vars := NextVars(id, f)));
    TopReceives(s, s1, Unit);
    if v in f.vars {
      KidFacts(s, v);
      TopInjective(s);
      TurnKeeps(s1, s', f.vars[v]);
    }
  }

  /** A frame that no variable holds is destroyed. */
  lemma TurnKeeps(s: State, s': State, kid: Id)
    requires FramesInv(s) && HasTop(s) && Ownable(s, kid) && kid.Child?
    requires s' == SetFrame(s, kid, s.frames[kid].(status := Destroyed))
    requires kid.parent in s.frames ==> kid !in s.frames[kid.parent].vars.Values
    ensures FramesInv(s')
  {
    hide GraphOk, StackOk, PhaseOk;
    TopFacts(s);
    LifeFact(s, kid);
    assert LifeOk(kid, s'.frames[kid], IsRoot(s, kid)) by { hide VarsOk; }
    hide LifeOk;
    Turn(s, s', kid, s'.frames[kid]);
    StackSame(s, s');
    PhaseSame(s, s');
  }

  lemma IoKeeps(s: State, accept: nat)
    requires FramesInv(s) && HasTop(s) && Next(s.frames[Top(s)]).AwaitIo?
    ensures FramesInv(ActIo(s, accept))
  {
    hide FramesInv;
    TopFacts(s);
    var id, s' := Top(s), ActIo(s, accept);
    if |s.sq| >= SQ_ENTRIES {
      hide LifeOk;
      TopReceives(s, s', IoResult(NO_SQE_RESULT));
    } else {
      var f' := s.frames[id].(status := OnIo(|s.frames[id].hist|), io := Some(IoData(Some(id), 0)));
      assert s'.frames == s.frames[id := f'] && s'.stack == s.stack[..|s.stack| - 1];
      assert s'.phase == s.phase && s'.running == s.running && s'.cq == s.cq && s'.roots == s.roots;
      hide ActIo;
      assert VarsOk(id, f');
      hide VarsOk;
      TopLeaves(s, s', f');
    }
  }

  /** The top frame is suspended by its awaiter and the native call returns. */
  lemma TopLeaves(s: State, s': State, f': Frame)
    requires FramesInv(s) && HasTop(s)
    requires s'.frames == s.frames[Top(s) := f'] && s'.stack == s.stack[..|s.stack| - 1]
    requires s'.phase == s.phase && s'.running == s.running && s'.cq == s.cq && s'.roots == s.roots
    requires !f'.status.Running? && GoesOn(s.frames[Top(s)], f') && f'.vars.Values <= s.frames[Top(s)].vars.Values
    requires LifeOk(Top(s), f', IsRoot(s, Top(s)))
    ensures FramesInv(s')
  {
    hide GraphOk, StackOk, PhaseOk;
    TopFacts(s);
    hide LifeOk;
    GoOn(s, s', Top(s), f');
    StackPopped(s, s');
    PhaseSame(s, s');
  }

  /** Everything but the frames and the native stack is as before. */
  ghost predicate SameRest(s: State, s': State) {
    && s'.sq == s.sq && s'.flying == s.flying && s'.cq == s.cq && s'.running == s.running && s'.phase == s.phase
    && s'.log == s.log && s'.seen == s.seen && s'.roots == s.roots && s'.runs == s.runs
  }

  lemma LaunchResult(s: State, v: nat, detached: bool)
    requires HasTop(s) && Next(s.frames[Top(s)]) == (if detached then LaunchDetached(v) else Launch(v))
    requires v in s.frames[Top(s)].vars && s.frames[Top(s)].vars[v] in s.frames && s.frames[Top(s)].vars[v] != Top(s)
    requires s.frames[s.frames[Top(s)].vars[v]].status.Created?
    ensures var id, kid, r := Top(s), s.frames[Top(s)].vars[v], ActLaunch(s, v, detached);
            && r.Ok? && SameRest(s, r.state) && r.state.stack == s.stack + [kid]
            && r.state.frames == s.frames[id := Receive(s.frames[id], Unit).(vars := NextVars(id, s.frames[id]))]
                                         [kid := s.frames[kid].(attached := true, daemon := true, status := Running)]
  {
  }

  lemma LaunchKeeps(s: State, v: nat, detached: bool)
    requires FramesInv(s) && HasTop(s)
    requires Next(s.frames[Top(s)]) == if detached then LaunchDetached(v) else Launch(v)
    requires Disciplined(s, Act(0))
    ensures ActLaunch(s, v, detached).Ok? && FramesInv(ActLaunch(s, v, detached).state)
  {
    hide FramesInv, LifeOk;
    KidFacts(s, v);
    LaunchResult(s, v, detached);
    hide ActLaunch, NextVars;
    var id, f := Top(s), s.frames[Top(s)];
    var kid := f.vars[v];
    var s1 := SetFrame(s, id, Receive(f, Unit).(vars := NextVars(id, f)));
    TopReceives(s, s1, Unit);
    KidStarts(s1, ActLaunch(s, v, detached).state, kid,
      s.frames[kid].(attached := true, daemon := true, status := Running));
  }

  /** An unstarted frame is resumed in a nested native call. */
  lemma KidStarts(s: State, s': State, kid: Id, k': Frame)
    requires FramesInv(s) && HasTop(s) && kid in s.frames && s.frames[kid].status.Created? && kid.Child?
    requires k' == s.frames[kid].(attached := true, daemon := true, status := Running)
    requires s'.frames == s.frames[kid := k'] && s'.stack == s.stack + [kid]
    requires s'.phase == s.phase && s'.running == s.running && s'.cq == s.cq && s'.roots == s.roots
    ensures FramesInv(s')
  {
    hide GraphOk, StackOk, PhaseOk;
    TopFacts(s);
    LifeFact(s, kid);
    StartedLife(kid, s.frames[kid], k', IsRoot(s, kid));
    hide LifeOk;
    assert s.frames[kid].caller.None? by { CreatedLife(kid, s.frames[kid], IsRoot(s, kid)); }
    Turn(s, s', kid, k');
    StackPushed(s, s', kid);
    PhaseSame(s, s') by { assert !IsRoot(s, kid) by { NotRoot(s, kid); } }
  }

  /** A task that starts has its caller, or is a daemon. */
  lemma StartedLife(kid: Id, k: Frame, k': Frame, root: bool)
    requires LifeOk(kid, k, root) && k.status.Created?
    requires k' == k.(status := Running, attached := true, daemon := k'.daemon, caller := k'.caller)
    requires (k'.daemon || k'.caller.Some?)
    ensures LifeOk(kid, k', root)
  {
    assert k'.vars == VarsAt(k'.prog, kid, k'.hist) by { hide VarsOk; }
    VarsFollow(kid, k');
    hide VarsOk;
  }

  lemma AwaitResult(s: State, v: nat, byMove: bool)
    requires HasTop(s) && Next(s.frames[Top(s)]) == AwaitTask(v, byMove)
    requires v in s.frames[Top(s)].vars && s.frames[Top(s)].vars[v] in s.frames && s.frames[Top(s)].vars[v] != Top(s)
    requires !s.frames[s.frames[Top(s)].vars[v]].status.Destroyed?
    ensures var id, kid, r := Top(s), s.frames[Top(s)].vars[v], ActAwaitTask(s, v, byMove);
            var f, k := s.frames[id], s.frames[kid];
            var f1 := f.(vars := NextVars(id, f));
            var k1 := k.(caller := Some(id), attached := f.attached);
            if k.status.Done? then
              forall o :: HoldsOutcome(k, o) ==>
                r.Ok? && SameRest(s, r.state) && r.state.stack == s.stack
                  && r.state.frames == s.frames[id := Receive(f1, Awaited(o))]
            else if k.daemon then
              r.Ok? && SameRest(s, r.state) && r.state.stack == s.stack[..|s.stack| - 1]
              && r.state.frames == s.frames[id := f1.(status := OnTask(kid))][kid := k1]
            else
              k.status.Created? ==>
                r.Ok? && SameRest(s, r.state) && r.state.stack == s.stack[..|s.stack| - 1] + [kid]
                && r.state.frames == s.frames[id := f1.(status := OnTask(kid))][kid := k1.(status := Running)]
  {
    hide Receive, NextVars, ActAwaitTask, HoldsOutcome;
    var kid := s.frames[Top(s)].vars[v];
    if s.frames[kid].status.Done? {
      forall o | HoldsOutcome(s.frames[kid], o)
        ensures var r := ActAwaitTask(s, v, byMove);
                && r.Ok? && SameRest(s, r.state) && r.state.stack == s.stack
                && var f := s.frames[Top(s)];
                   r.state.frames == s.frames[Top(s) := Receive(f.(vars := NextVars(Top(s), f)), Awaited(o))]
      {
        AwaitDone(s, v, byMove, o);
      }
    } else {
      AwaitStarts(s, v, byMove);
    }
  }

  lemma AwaitDone(s: State, v: nat, byMove: bool, o: Outcome)
    requires HasTop(s) && Next(s.frames[Top(s)]) == AwaitTask(v, byMove)
    requires v in s.frames[Top(s)].vars && s.frames[Top(s)].vars[v] in s.frames
    requires s.frames[s.frames[Top(s)].vars[v]].status.Done? && HoldsOutcome(s.frames[s.frames[Top(s)].vars[v]], o)
    ensures var id, f := Top(s), s.frames[Top(s)];
            ActAwaitTask(s, v, byMove) == Ok(SetFrame(s, id, Receive(f.(vars := NextVars(id, f)), Awaited(o))))
  {
    hide Receive, NextVars, Resume;
    AwaitVars(Top(s), s.frames[Top(s)], v, byMove);
  }

  lemma AwaitStarts(s: State, v: nat, byMove: bool)
    requires HasTop(s) && Next(s.frames[Top(s)]) == AwaitTask(v, byMove)
    requires v in s.frames[Top(s)].vars && s.frames[Top(s)].vars[v] in s.frames && s.frames[Top(s)].vars[v] != Top(s)
    requires !s.frames[s.frames[Top(s)].vars[v]].status.Destroyed? && !s.frames[s.frames[Top(s)].vars[v]].status.Done?
    ensures var id, f, kid, r := Top(s), s.frames[Top(s)], s.frames[Top(s)].vars[v], ActAwaitTask(s, v, byMove);
            var k1, stack := s.frames[kid].(caller := Some(id), attached := f.attached), s.stack[..|s.stack| - 1];
            var s1 := s.(frames := s.frames[id := f.(vars := NextVars(id, f), status := OnTask(kid))][kid := k1]);
            && (k1.daemon ==> r == Ok(s1.(stack := stack)))
            && (!k1.daemon && k1.status.Created? ==>
               r == Ok(s1.(stack := stack + [kid], frames := s1.frames[kid := k1.(status := Running)])))
  {
    hide Receive, NextVars, GetValue;
    AwaitVars(Top(s), s.frames[Top(s)], v, byMove);
  }

  lemma AwaitVars(id: Id, f: Frame, v: nat, byMove: bool)
    requires Next(f) == AwaitTask(v, byMove)
    ensures NextVars(id, f) == if byMove then f.vars - {v} else f.vars
  {
  }

  lemma AwaitTaskKeeps(s: State, v: nat, byMove: bool)
    requires FramesInv(s) && HasTop(s) && Next(s.frames[Top(s)]) == AwaitTask(v, byMove)
    requires Disciplined(s, Act(0))
    ensures ActAwaitTask(s, v, byMove).Ok? && FramesInv(ActAwaitTask(s, v, byMove).state)
  {
    hide FramesInv, VarsOk;
    TopFacts(s);
    KidFacts(s, v);
    AwaitResult(s, v, byMove);
    hide ActAwaitTask, NextVars;
    var id, kid, s' := Top(s), s.frames[Top(s)].vars[v], ActAwaitTask(s, v, byMove).state;
    if s.frames[kid].status.Done? {
      var o := OutcomeOf(Next(s.frames[kid]));
      assert HoldsOutcome(s.frames[kid], o);
      hide LifeOk;
      TopReceives(s, s', Awaited(o));
    } else {
      hide LifeOk;
      TopAwaits(s, s', v, s'.frames[id], s'.frames[kid]);
    }
  }

  /** The top frame is suspended in an await on the task in its variable `v`, which is started if it was not. */
  lemma TopAwaits(s: State, s': State, v: nat, f': Frame, k': Frame)
    requires FramesInv(s) && HasTop(s) && v in s.frames[Top(s)].vars && s.frames[Top(s)].vars[v] in s.frames
    requires var f := s.frames[Top(s)]; var kid := f.vars[v]; var k := s.frames[kid];
             && s'.frames == s.frames[Top(s) := f'][kid := k']
             && Next(f).AwaitTask? && Next(f).task == v && f' == f.(status := OnTask(kid), vars := NextVars(Top(s), f))
             && k' == k.(caller := Some(Top(s)), attached := f.attached, status := k'.status)
             && (if k.daemon then Active(k) && k'.status == k.status && s'.stack == s.stack[..|s.stack| - 1]
                 else k.status.Created? && k'.status.Running? && s'.stack == s.stack[..|s.stack| - 1] + [kid])
    requires s'.phase == s.phase && s'.running == s.running && s'.cq == s.cq && s'.roots == s.roots
    ensures FramesInv(s')
  {
    hide GraphOk, StackOk, PhaseOk, LifeOk, VarsOk, NextVars;
    var id, kid := Top(s), s.frames[Top(s)].vars[v];
    TopFacts(s);
    KidFacts(s, v);
    AwaitingVars(s, v, f');
    RunsAttached(id, s.frames[id], IsRoot(s, id));
    AwaitedLife(kid, s.frames[kid], k', s.frames[id]);
    LinkTop(s, s', v, f', k');
    AwaitingStack(s, s', kid, f', k');
    AwaitingPhase(s, s', kid, f', k');
  }

  lemma RunsAttached(id: Id, f: Frame, root: bool)
    requires LifeOk(id, f, root) && Active(f)
    ensures f.attached
  {
    hide VarsOk;
  }

  /** The variables of a frame that starts to await the task in `v`. */
  lemma AwaitingVars(s: State, v: nat, f': Frame)
    requires FramesInv(s) && HasTop(s) && v in s.frames[Top(s)].vars && Next(s.frames[Top(s)]).AwaitTask?
    requires Next(s.frames[Top(s)]).task == v
    requires f' == s.frames[Top(s)].(status := OnTask(s.frames[Top(s)].vars[v]),
             vars := NextVars(Top(s), s.frames[Top(s)]))
    ensures VarsOk(Top(s), f') && f'.vars.Values <= s.frames[Top(s)].vars.Values
    ensures VarsHold(VarsAt(f'.prog, Top(s), f'.hist), v, s.frames[Top(s)].vars[v])
  {
    hide FramesInv;
    TopFacts(s);
    VarsReceive(Top(s), s.frames[Top(s)], Unit);
    VarsFollow(Top(s), f');
  }

  lemma AwaitedLife(kid: Id, k: Frame, k': Frame, f: Frame)
    requires LifeOk(kid, k, false) && f.attached
    requires k' == k.(caller := k'.caller, attached := f.attached, status := k'.status) && k'.caller.Some?
    requires if k.daemon then Active(k) && k'.status == k.status else k.status.Created? && k'.status.Running?
    ensures LifeOk(kid, k', false)
  {
    if k.daemon {
      assert VarsOk(kid, k');
      hide VarsOk;
    } else {
      assert !k'.daemon by { hide VarsOk; }
      StartedLife(kid, k, k', false);
      hide VarsOk;
    }
  }

  lemma LinkTop(s: State, s': State, v: nat, f': Frame, k': Frame)
    requires FramesInv(s) && HasTop(s) && v in s.frames[Top(s)].vars && s.frames[Top(s)].vars[v] in s.frames
    requires var f := s.frames[Top(s)]; var kid := f.vars[v]; var k := s.frames[kid];
             && s'.frames == s.frames[Top(s) := f'][kid := k'] && s'.phase == s.phase && s'.roots == s.roots
             && Next(f).AwaitTask? && Next(f).task == v && f' == f.(status := OnTask(kid), vars := f'.vars)
             && k' == k.(caller := Some(Top(s)), attached := f.attached, status := k'.status)
             && LinkTarget(k, k') && LifeOk(kid, k', false) && VarsOk(Top(s), f') && f'.vars.Values <= f.vars.Values
             && VarsHold(VarsAt(f.prog, Top(s), f.hist), v, kid)
    ensures GraphOk(s')
  {
    hide LifeOk, VarsOk;
    TopFacts(s);
    KidFacts(s, v);
    assert GraphOk(s);
    hide FramesInv, GraphOk;
    Link(s, s', Top(s), f', s.frames[Top(s)].vars[v], k');
  }

  lemma AwaitingStack(s: State, s': State, kid: Id, f': Frame, k': Frame)
    requires FramesInv(s) && HasTop(s) && kid in s.frames && kid != Top(s)
    requires s'.frames == s.frames[Top(s) := f'][kid := k'] && f'.status.OnTask?
    requires var k := s.frames[kid];
             if k.daemon then k'.status == k.status && s'.stack == s.stack[..|s.stack| - 1]
             else k.status.Created? && k'.status.Running? && s'.stack == s.stack[..|s.stack| - 1] + [kid]
    ensures StackOk(s')
  {
    hide GraphOk, PhaseOk;
    if s.frames[kid].daemon {
      StackPopped(s, s');
    } else {
      StackTransferred(s, s', kid);
    }
  }

  lemma AwaitingPhase(s: State, s': State, kid: Id, f': Frame, k': Frame)
    requires FramesInv(s) && HasTop(s) && kid in s.frames && !IsRoot(s, kid)
    requires s'.frames == s.frames[Top(s) := f'][kid := k']
    requires f' == s.frames[Top(s)].(status := f'.status, vars := f'.vars) && Active(f')
    requires s'.phase == s.phase && s'.running == s.running && s'.cq == s.cq
    ensures PhaseOk(s')
  {
    hide GraphOk, StackOk, PhaseOk;
    TopFacts(s);
    PhaseSame(s, s');
  }

  // ---- The end of a body. ----

  /** The state once the locals of the top frame are gone. */
  function AfterLocals(s: State): State
    requires HasTop(s)
  {
    var id, f := Top(s), s.frames[Top(s)];
    s.(frames := Swept(s.frames, f.vars.Values)[id := f.(vars := map[])])
  }

  function Finished(s: State, o: Outcome): Frame
    requires HasTop(s)
  {
    StoreOutcome(s.frames[Top(s)], o).(status := Done, vars := map[])
  }

  predicate LocalsOwnable(s: State)
    requires HasTop(s)
  {
    forall v | v in s.frames[Top(s)].vars :: Ownable(s, s.frames[Top(s)].vars[v])
  }

  lemma EndResult(s: State, o: Outcome, accept: nat)
    requires HasTop(s) && LocalsOwnable(s) && Injective(s.frames[Top(s)].vars)
    ensures var s1 := AfterLocals(s);
            HasTop(s1) && ActEnd(s, o, accept) == FinalSuspend(SetFrame(s1, Top(s), Finished(s, o)), accept)
  {
    hide FinalSuspend, StoreOutcome;
    var s1, d := AfterLocals(s), DestroyVars(s, Top(s));
    assert d.Ok?;
    assert SetFrame(d.state, Top(s), Finished(s, o)).frames == SetFrame(s1, Top(s), Finished(s, o)).frames;
  }

  lemma LocalsCleared(s: State, s0: State)
    requires FramesInv(s) && HasTop(s) && s0 == SetFrame(s, Top(s), s.frames[Top(s)].(vars := map[]))
    requires Ends(Next(s.frames[Top(s)]))
    ensures FramesInv(s0)
  {
    hide FramesInv;
    TopFacts(s);
    VarsFollow(Top(s), s0.frames[Top(s)]);
    hide VarsOk;
    TopGoesOn(s, s0, s0.frames[Top(s)]);
  }

  lemma LocalsKeep(s: State)
    requires FramesInv(s) && HasTop(s) && LocalsOwnable(s) && Ends(Next(s.frames[Top(s)]))
    ensures FramesInv(AfterLocals(s)) && HasTop(AfterLocals(s))
  {
    hide FramesInv, Ends;
    var id, s1 := Top(s), AfterLocals(s);
    var gone := s.frames[id].vars.Values;
    var s0 := SetFrame(s, id, s.frames[id].(vars := map[]));
    LocalsCleared(s, s0);
    TopNotHeld(s);
    assert s1.frames == Swept(s0.frames, gone);
    hide AfterLocals, Swept;
    forall k | k in gone ensures Ownable(s0, k) && k.Child? && k.parent == id {
      var v :| v in s.frames[id].vars && s.frames[id].vars[v] == k;
      assert Ownable(s, s.frames[id].vars[v]);
      KidFacts(s, v);
    }
    LocalsSwept(s0, s1, gone);
  }

  /** No frame holds its own handle. */
  lemma TopNotHeld(s: State)
    requires FramesInv(s) && HasTop(s)
    ensures Top(s) !in s.frames[Top(s)].vars.Values
  {
    if Top(s) in s.frames[Top(s)].vars.Values {
      assert HeldOk(s);
      NoCycle(Top(s), Top(s));
    }
  }

  lemma LocalsSwept(s: State, s': State, gone: set<Id>)
    requires FramesInv(s) && HasTop(s) && s.frames[Top(s)].vars == map[]
    requires forall k :: k in gone ==> Ownable(s, k) && k.Child? && k.parent == Top(s)
    requires s' == s.(frames := Swept(s.frames, gone))
    ensures FramesInv(s')
  {
    hide GraphOk, StackOk, PhaseOk;
    TopFacts(s);
    hide LifeOk;
    Sweep(s, s', Top(s), gone);
    StackSame(s, s');
    PhaseSame(s, s');
  }

  // ---- Final suspension. `s` is the state with the locals gone and the top frame still running. ----

  function AtFinal(s: State, o: Outcome): State
    requires HasTop(s)
  {
    SetFrame(s, Top(s), Finished(s, o))
  }

  lemma FinishedLife(s: State, o: Outcome)
    requires FramesInv(s) && HasTop(s) && Ends(Next(s.frames[Top(s)])) && o == OutcomeOf(Next(s.frames[Top(s)]))
    ensures LifeOk(Top(s), Finished(s, o), IsRoot(s, Top(s)))
  {
    hide FramesInv;
    TopFacts(s);
    hide VarsOk;
  }

  lemma ToCallerResult(s: State, o: Outcome, accept: nat)
    requires HasTop(s) && s.frames[Top(s)].caller.Some? && s.frames[Top(s)].value.None? && s.frames[Top(s)].ex.None?
    requires var id, p := Top(s), s.frames[Top(s)].caller.value;
             p != id && p in s.frames && s.frames[p].status == OnTask(id)
    ensures var id, p, r := Top(s), s.frames[Top(s)].caller.value, FinalSuspend(AtFinal(s, o), accept);
            && r.Ok? && SameRest(s, r.state) && r.state.stack == s.stack[..|s.stack| - 1] + [p]
            && r.state.frames == s.frames[id := Finished(s, o)]
                                         [p := Receive(s.frames[p], Awaited(o)).(status := Running)]
  {
    var s1, id, p := AtFinal(s, o), Top(s), s.frames[Top(s)].caller.value;
    var s2 := Transfer(s1, p);
    assert FinalSuspend(s1, accept) == Resume(s2, p);
    hide FinalSuspend;
    assert GetValue(s2, id) == Ok(o);
    hide GetValue, Finished;
  }

  lemma ToCallerKeeps(s: State, o: Outcome, accept: nat)
    requires FramesInv(s) && HasTop(s) && s.frames[Top(s)].vars == map[] && s.frames[Top(s)].caller.Some?
    requires Ends(Next(s.frames[Top(s)])) && o == OutcomeOf(Next(s.frames[Top(s)]))
    ensures FinalSuspend(AtFinal(s, o), accept).Ok? && FramesInv(FinalSuspend(AtFinal(s, o), accept).state)
  {
    hide FramesInv;
    TopFacts(s);
    CallerFacts(s);
    FinishedLife(s, o);
    ToCallerResult(s, o, accept);
    var id, p, s' := Top(s), s.frames[Top(s)].caller.value, FinalSuspend(AtFinal(s, o), accept).state;
    hide FinalSuspend;
    CallerLife(s, p, o);
    hide LifeOk, LinkOk;
    HandBack(s, s', id, s'.frames[id], p, s'.frames[p]);
  }

  lemma CallerLife(s: State, p: Id, o: Outcome)
    requires p in s.frames && s.frames[p].status.OnTask? && LinkOk(s, p) && LifeOk(p, s.frames[p], IsRoot(s, p))
    ensures LifeOk(p, Receive(s.frames[p], Awaited(o)).(status := Running), IsRoot(s, p))
  {
    VarsResume(p, s.frames[p], Awaited(o));
    hide VarsOk, LinksOk;
  }

  /** The top frame is done and its caller takes its place on the native stack. */
  lemma HandBack(s: State, s': State, id: Id, f': Frame, p: Id, p': Frame)
    requires FramesInv(s) && HasTop(s) && id == Top(s) && p in s.frames && p != id && s.frames[p].status.OnTask?
    requires s.frames[id].status.Running?
    requires s'.frames == s.frames[id := f'][p := p'] && s'.stack == s.stack[..|s.stack| - 1] + [p]
    requires s'.phase == s.phase && s'.running == s.running && s'.cq == s.cq && s'.roots == s.roots
    requires var f, g := s.frames[id], s.frames[p];
             && f.caller == Some(p) && f' == f.(value := f'.value, ex := f'.ex, status := Done, vars := map[])
             && p' == g.(hist := p'.hist, status := Running) && g.hist <= p'.hist
    requires LifeOk(id, f', IsRoot(s, id)) && LifeOk(p, p', IsRoot(s, p))
    ensures FramesInv(s')
  {
    hide GraphOk, StackOk, PhaseOk;
    hide LifeOk;
    TopFacts(s);
    Unlink(s, s', id, f', p, p');
    StackTransferred(s, s', p);
    PhaseSame(s, s');
  }

  lemma DaemonEndsKeeps(s: State, o: Outcome, accept: nat)
    requires FramesInv(s) && HasTop(s) && s.frames[Top(s)].vars == map[] && s.frames[Top(s)].caller.None?
    requires s.frames[Top(s)].daemon
    requires Ends(Next(s.frames[Top(s)])) && o == OutcomeOf(Next(s.frames[Top(s)]))
    ensures FinalSuspend(AtFinal(s, o), accept).Ok? && FramesInv(FinalSuspend(AtFinal(s, o), accept).state)
  {
    hide FramesInv, LifeOk;
    FinishedLife(s, o);
    Leaves(s, FinalSuspend(AtFinal(s, o), accept).state, Finished(s, o));
  }

  /** The top frame, which nobody awaits, leaves the native stack for good. */
  lemma Leaves(s: State, s': State, f': Frame)
    requires FramesInv(s) && HasTop(s) && s.frames[Top(s)].caller.None?
    requires s'.frames == s.frames[Top(s) := f'] && s'.stack == s.stack[..|s.stack| - 1]
    requires s'.phase == s.phase && s'.running == s.running && s'.cq == s.cq && s'.roots == s.roots
    requires f' == s.frames[Top(s)].(value := f'.value, ex := f'.ex, status := f'.status, vars := map[])
    requires if f'.daemon then f'.status.Done? else f'.status.Destroyed?
    requires LifeOk(Top(s), f', IsRoot(s, Top(s)))
    ensures FramesInv(s')
  {
    hide FramesInv;
    TopFacts(s);
    if !f'.daemon {
      assert IsRoot(s, Top(s)) by { hide VarsOk; }
      RootIsRoot(s);
    }
    hide LifeOk;
    LeavesRest(s, s', f');
  }

  lemma RootIsRoot(s: State)
    requires FramesInv(s) && HasTop(s) && IsRoot(s, Top(s))
    ensures Top(s).Root?
  {
    assert PhaseOk(s);
  }

  lemma LeavesRest(s: State, s': State, f': Frame)
    requires FramesInv(s) && HasTop(s) && s.frames[Top(s)].caller.None?
    requires s'.frames == s.frames[Top(s) := f'] && s'.stack == s.stack[..|s.stack| - 1]
    requires s'.phase == s.phase && s'.running == s.running && s'.cq == s.cq && s'.roots == s.roots
    requires f' == s.frames[Top(s)].(value := f'.value, ex := f'.ex, status := f'.status, vars := map[])
    requires if f'.daemon then f'.status.Done? else f'.status.Destroyed? && Top(s).Root?
    requires LifeOk(Top(s), f', IsRoot(s, Top(s)))
    ensures FramesInv(s')
  {
    hide GraphOk, StackOk, PhaseOk;
    hide LifeOk;
    TopFacts(s);
    Retire(s, s', Top(s), f');
    StackPopped(s, s');
    PhaseSame(s, s');
  }

  lemma RootEndsResult(s: State, o: Outcome, accept: nat)
    requires HasTop(s) && s.frames[Top(s)].caller.None? && !s.frames[Top(s)].daemon && s.frames[Top(s)].attached
    requires |s.sq| < SQ_ENTRIES
    ensures var id, r := Top(s), FinalSuspend(AtFinal(s, o), accept);
            && r.Ok? && r.state.stack == s.stack[..|s.stack| - 1]
            && r.state.frames == s.frames[id := Finished(s, o).(status := Destroyed)]
            && r.state == Submit(s.(sq := s.sq + [Marker]), accept).(stack := r.state.stack, frames := r.state.frames)
  {
  }

  lemma RootEndsKeeps(s: State, o: Outcome, accept: nat)
    requires FramesInv(s) && HasTop(s) && s.frames[Top(s)].vars == map[] && s.frames[Top(s)].caller.None?
    requires !s.frames[Top(s)].daemon
    requires Ends(Next(s.frames[Top(s)])) && o == OutcomeOf(Next(s.frames[Top(s)])) && |s.sq| < SQ_ENTRIES
    ensures FinalSuspend(AtFinal(s, o), accept).Ok? && FramesInv(FinalSuspend(AtFinal(s, o), accept).state)
    ensures IsRoot(s, Top(s))
  {
    hide FramesInv;
    TopFacts(s);
    assert IsRoot(s, Top(s)) by { hide VarsOk; }
    FinishedLife(s, o);
    RootEndsResult(s, o, accept);
    var s' := FinalSuspend(AtFinal(s, o), accept).state;
    hide FinalSuspend;
    assert s'.phase == s.phase && s'.running == s.running && s'.cq == s.cq && s'.roots == s.roots;
    hide Submit;
    RootIsRoot(s);
    assert LifeOk(Top(s), s'.frames[Top(s)], IsRoot(s, Top(s))) by { hide VarsOk; }
    hide LifeOk;
    Leaves(s, s', s'.frames[Top(s)]);
  }

  lemma EndKeeps(s: State, o: Outcome, accept: nat)
    requires FramesInv(s) && HasTop(s) && Ends(Next(s.frames[Top(s)])) && o == OutcomeOf(Next(s.frames[Top(s)]))
    requires Disciplined(s, Act(accept)) && !NoEntryForMarker(s, Act(accept))
    ensures ActEnd(s, o, accept).Ok? && FramesInv(ActEnd(s, o, accept).state)
  {
    hide FramesInv, ActEnd, FinalSuspend;
    assert LocalsOwnable(s);
    TopInjective(s);
    hide Disciplined;
    EndResult(s, o, accept);
    LocalsKeep(s);
    hide Injective;
    EndFrom(s, o, accept);
  }

  lemma EndFrom(s: State, o: Outcome, accept: nat)
    requires HasTop(s) && HasTop(AfterLocals(s)) && FramesInv(AfterLocals(s))
    requires Ends(Next(s.frames[Top(s)])) && o == OutcomeOf(Next(s.frames[Top(s)])) && !NoEntryForMarker(s, Act(accept))
    ensures var r := FinalSuspend(SetFrame(AfterLocals(s), Top(s), Finished(s, o)), accept);
            r.Ok? && FramesInv(r.state)
  {
    hide FramesInv, FinalSuspend;
    var s1 := AfterLocals(s);
    assert SetFrame(s1, Top(s), Finished(s, o)) == AtFinal(s1, o);
    if s1.frames[Top(s1)].caller.Some? {
      ToCallerKeeps(s1, o, accept);
    } else if s1.frames[Top(s1)].daemon {
      DaemonEndsKeeps(s1, o, accept);
    } else {
      RootEndsKeeps(s1, o, accept);
    }
  }

  /** Whatever the running coroutine does next. */
  lemma AdvanceKeeps(s: State, accept: nat)
    requires FramesInv(s) && Allowed(s, Act(accept))
    ensures Advance(s, accept).Ok? && FramesInv(Advance(s, accept).state)
  {
    hide FramesInv;
    match Next(s.frames[Top(s)])
    case AwaitContext => ContextKeeps(s);
    case Create(child) => CreateKeeps(s, child);
    case MoveConstruct(from) => MoveConstructKeeps(s, from);
    case MoveAssign(to, from) => MoveAssignKeeps(s, to, from);
    case Drop(v) => DropKeeps(s, v);
    case AwaitIo => IoKeeps(s, accept);
    case Launch(v) => LaunchKeeps(s, v, false);
    case LaunchDetached(v) => LaunchKeeps(s, v, true);
    case AwaitTask(v, byMove) => AwaitTaskKeeps(s, v, byMove);
    case CoReturn(v) => EndKeeps(s, Value(v), accept);
    case CoThrow(e) => EndKeeps(s, Exception(e), accept);
  }

  // ---- The main thread, the loop and the kernel. ----

  lemma StartKeeps(s: State, prog: Program)
    requires FramesInv(s) && s.phase.Idle?
    ensures FramesInv(BlockRun(s, prog)) && FramesInv(MainDetach(s, prog))
  {
    var r := Root(s.roots);
    assert r !in s.frames;
    StartedKeeps(s, BlockRun(s, prog), r);
    StartedKeeps(s, MainDetach(s, prog), r);
  }

  lemma StartedKeeps(s: State, s': State, r: Id)
    requires FramesInv(s) && s.phase.Idle? && r == Root(s.roots) && r !in s.frames && r in s'.frames
    requires s'.frames == s.frames[r := s'.frames[r]] && s'.stack == s.stack + [r] && s'.roots == s.roots + 1
    requires s'.running == s.running
    requires var f := s'.frames[r]; f == Fresh(f.prog).(attached := true, daemon := f.daemon, status := Running)
    requires s'.phase == if s'.frames[r].daemon then Launching else Starting(r)
    ensures FramesInv(s')
  {
    hide GraphOk, StackOk;
    assert LifeOk(r, s'.frames[r], IsRoot(s', r)) by { VarsFollow(r, s'.frames[r]); }
    hide LifeOk;
    Plant(s, s', r, s'.frames[r]);
    StackPushed(s, s', r);
  }

  lemma ReturnKeeps(s: State)
    requires FramesInv(s) && Enabled(s, Return)
    ensures FramesInv(NativeReturn(s))
  {
    hide StackOk, PhaseOk, TreeOk, LinksOk, LivesOk, HeldOk;
    var s' := NativeReturn(s);
    assert s'.frames == s.frames && s'.stack == s.stack && s'.roots == s.roots;
    TreeKept(s, s');
    ReturnLives(s);
    SameLinks(s, s');
    ReturnPhase(s);
    StackSame(s, s');
  }

  lemma ReturnLives(s: State)
    requires LivesOk(s) && PhaseOk(s) && Enabled(s, Return)
    ensures LivesOk(NativeReturn(s))
  {
    hide LifeOk;
    forall id | id in s.frames ensures LifeOk(id, s.frames[id], IsRoot(NativeReturn(s), id)) {
      if IsRoot(s, id) != IsRoot(NativeReturn(s), id) {
        assert !Active(s.frames[id]);
        InactiveLife(id, s.frames[id]);
      }
    }
  }

  lemma InactiveLife(id: Id, f: Frame)
    requires LifeOk(id, f, true) && !Active(f)
    ensures LifeOk(id, f, false)
  {
  }

  lemma ReturnPhase(s: State)
    requires PhaseOk(s) && Enabled(s, Return)
    ensures PhaseOk(NativeReturn(s))
  {
  }

  lemma SameLinks(s: State, s': State)
    requires LinksOk(s) && HeldOk(s) && s'.frames == s.frames
    ensures LinksOk(s') && HeldOk(s')
  {
    assert forall id :: id in s.frames && LinkOk(s, id) ==> LinkOk(s', id);
  }

  lemma KernelKeeps(s: State, u: UserData, res: int)
    requires FramesInv(s)
    ensures FramesInv(KernelCompletes(s, u, res))
  {
    var s' := KernelCompletes(s, u, res);
    hide StackOk, PhaseOk, TreeOk, LinksOk, LivesOk, HeldOk;
    StackSame(s, s');
    TreeKept(s, s');
    SameLinks(s, s');
    SameLives(s, s');
    assert PhaseOk(s') by { KernelPhase(s, u, res); }
  }

  lemma KernelPhase(s: State, u: UserData, res: int)
    requires PhaseOk(s)
    ensures PhaseOk(KernelCompletes(s, u, res))
  {
  }

  lemma SameLives(s: State, s': State)
    requires LivesOk(s) && s'.frames == s.frames && forall id :: IsRoot(s', id) <==> IsRoot(s, id)
    ensures LivesOk(s')
  {
    hide LifeOk;
  }

  lemma DispatchResult(s: State)
    requires s.phase.Waiting? && |s.cq| > 0 && s.cq[0].user.Awaiter?
    requires var op := s.cq[0].user.op;
             && op.id in s.frames && s.frames[op.id].status == OnIo(op.op)
             && s.frames[op.id].io.Some? && s.frames[op.id].io.value.handle == Some(op.id)
    ensures var op, r := s.cq[0].user.op, Dispatch(s);
            var f' := Receive(s.frames[op.id], IoResult(s.cq[0].res)).(status := Running, io := None);
            && r.Ok?
            && r.state.frames == s.frames[op.id := f']
            && r.state == s.(phase := Dispatching(s.phase.root), stack := s.stack + [op.id], frames := r.state.frames,
               log := s.log[op := s.cq[0].res])
  {
  }

  lemma DispatchAwaiterKeeps(s: State)
    requires FramesInv(s) && Enabled(s, WaitOk) && s.cq[0].user.Awaiter?
    requires var op := s.cq[0].user.op; op.id in s.frames && s.frames[op.id].status == OnIo(op.op)
    ensures Dispatch(s).Ok? && FramesInv(Dispatch(s).state)
  {
    hide GraphOk, StackOk, LifeOk;
    var op := s.cq[0].user.op;
    var f := s.frames[op.id];
    LifeFact(s, op.id);
    IoLife(op.id, f, s.cq[0].res, IsRoot(s, op.id));
    DispatchResult(s);
    var s0, s' := s.(phase := Dispatching(s.phase.root)), Dispatch(s).state;
    hide Dispatch;
    DispatchGraph(s, s0);
    GoOn(s0, s', op.id, s'.frames[op.id]);
    StackPushed(s, s', op.id);
  }

  /** A frame suspended in I/O, before and after its completion. */
  lemma IoLife(id: Id, f: Frame, res: int, root: bool)
    requires LifeOk(id, f, root) && f.status.OnIo?
    ensures f.io.Some? && f.io.value.handle == Some(id) && f.status.op == |f.hist| && Next(f).AwaitIo?
    ensures LifeOk(id, Receive(f, IoResult(res)).(status := Running, io := None), root)
  {
    var f' := Receive(f, IoResult(res)).(status := Running, io := None);
    assert f.io.Some? && Next(f).AwaitIo? && VarsOk(id, f) by { hide VarsOk; }
    VarsReceive(id, f, IoResult(res));
    assert f'.vars == NextVars(id, f);
    assert VarsOk(id, f');
    hide VarsOk;
  }

  lemma DispatchGraph(s: State, s0: State)
    requires GraphOk(s) && s.phase.Waiting? && s0 == s.(phase := Dispatching(s.phase.root), running := s0.running)
    ensures GraphOk(s0)
  {
    hide TreeOk, LivesOk, LinksOk, HeldOk;
    TreeKept(s, s0);
    SameLinks(s, s0);
    SameLives(s, s0);
  }

  /** The user data of the head completion points into a frame suspended on that very operation. */
  lemma DispatchKeeps(s: State)
    requires FramesInv(s) && Enabled(s, WaitOk) && Pending(s)[s.cq[0].user] == Expected(s, s.cq[0].user)
    ensures Dispatch(s).Ok? && FramesInv(Dispatch(s).state)
    ensures !s.cq[0].user.Null?
  {
    hide GraphOk, StackOk;
    assert s.cq[0].user in Users(s.cq);
    hide Users;
    if s.cq[0].user.Awaiter? {
      hide FramesInv;
      DispatchAwaiterKeeps(s);
    } else {
      var s' := Dispatch(s).state;
      DispatchGraph(s, s');
      StackSame(s, s');
    }
  }
}
