/**
  The runtime as the program has it: an object whose methods update frames, rings and flags in
  place, with no run-time checks. Every method is proved equal to the checked operation of `Runtime`,
  so the checks could never have fired.
 */
module IoContexts {
  import opened Wrappers
  import opened Programs
  import opened Runtime
  import opened RuntimeInvariant
  import opened RuntimeSafety
  import opened RuntimeHistory
  import opened RuntimeTheorems
  import opened RuntimeLoop

  class IoContext {
    var frames: map<Id, Frame>
    var stack: seq<Id>
    var sq: seq<UserData>
    var flying: multiset<UserData>
    var cq: seq<Cqe>
    var running: bool
    var phase: Phase
    var roots: nat
    // histories
    var log: IoLog
    var seen: seq<Cqe>
    var runs: nat

    function View(): State
      reads this
    {
      State(frames, stack, sq, flying, cq, running, phase, log, seen, roots, runs)
    }

    ghost predicate Valid()
      reads this
    {
      Inv(View())
    }

    constructor ()
      ensures View() == INITIAL && Valid()
    {
      frames, stack, sq, flying, cq := map[], [], [], multiset{}, [];
      running, phase, roots, log, seen, runs := false, Idle, 0, map[], [], 0;
      new;
      InitialInv();
    }

    // ---- io_context ----

    /** `io_uring_submit`: the kernel accepts the first `accept` entries. */
    method SubmitQueued(accept: nat)
      modifies this`sq, this`flying
      ensures View() == Submit(old(View()), accept)
    {
      var k := if accept < |sq| then accept else |sq|;
      flying := flying + multiset(sq[..k]);
      sq := sq[k..];
    }

    /** `finish`: whatever the submit that follows accepts, one marker more is outstanding, and nothing else. */
    method FinishRun(accept: nat)
      requires |sq| < SQ_ENTRIES
      modifies this`sq, this`flying
      ensures Finish(old(View()), accept) == Ok(View())
      ensures Pending(View()) == Pending(old(View())) + multiset{Marker}
    {
      SubmitPending(View(), Marker, accept);
      hide Pending, Users;
      sq := sq + [Marker];
      SubmitQueued(accept);
    }

    /** `block_run` up to its first resume: context and flag are set, the handle is taken and resumed. */
    method StartBlockRun(prog: Program)
      requires Valid() && phase.Idle?
      modifies this
      ensures Valid() && View() == BlockRun(old(View()), prog)
    {
      hide Inv;
      StartReady(View(), prog);
      hide BlockRun;
      var r := Root(roots);
      roots, runs := roots + 1, runs + 1;
      frames := frames[r := Fresh(prog).(attached := true, daemon := false)];
      frames := frames[r := frames[r].(status := Running)];
      stack, phase := stack + [r], Starting(r);
      assert frames == BlockRun(old(View()), prog).frames;
    }

    /** `launch_detached` called by the main thread, up to its first resume. */
    method StartDetachedTask(prog: Program)
      requires Valid() && phase.Idle?
      modifies this
      ensures Valid() && View() == MainDetach(old(View()), prog)
    {
      hide Inv;
      DetachReady(View(), prog);
      hide MainDetach;
      var r := Root(roots);
      roots := roots + 1;
      frames := frames[r := Fresh(prog).(attached := true)];
      frames := frames[r := frames[r].(daemon := true)];
      frames := frames[r := frames[r].(status := Running)];
      stack, phase := stack + [r], Launching;
      assert frames == MainDetach(old(View()), prog).frames;
    }

    /** `launch` and `launch_detached`. */
    method LaunchTask(v: nat, detached: bool)
      requires Valid() && HasTop(View())
      requires Next(frames[Top(View())]) == if detached then LaunchDetached(v) else Launch(v)
      requires Disciplined(View(), Act(0))
      modifies this`frames, this`stack
      ensures Valid() && ActLaunch(old(View()), v, detached) == Ok(View())
    {
      hide Inv, ActLaunch, Disciplined, Receive, Exchange;
      LaunchReady(View(), v, detached);
      ghost var after := ActLaunch(View(), v, detached).state;
      var id := stack[|stack| - 1];
      var f := frames[id];
      var kid := f.vars[v];
      var vars := if detached then f.vars - {v} else Exchange(f.vars, |f.hist|, v);
      frames := frames[id := Receive(f, Unit).(vars := vars)];
      frames := frames[kid := frames[kid].(attached := true)];
      frames := frames[kid := frames[kid].(daemon := true)];
      frames := frames[kid := frames[kid].(status := Running)];
      stack := stack + [kid];
      assert frames == after.frames;
    }

    // ---- task ----

    /** The move assignment. */
    method MoveAssignTask(to: nat, from: nat)
      requires Valid() && HasTop(View()) && Next(frames[Top(View())]) == MoveAssign(to, from)
      requires Disciplined(View(), Act(0))
      modifies this`frames
      ensures Valid() && ActMoveAssign(old(View()), to, from) == Ok(View())
    {
      hide Inv;
      MoveAssignReady(View(), to, from);
      hide ActMoveAssign, Disciplined, Exchange;
      ghost var after := ActMoveAssign(View(), to, from).state;
      var id := stack[|stack| - 1];
      var f := frames[id];
      if to != from {
        if to in f.vars {
          frames := frames[f.vars[to] := frames[f.vars[to]].(status := Destroyed)];
        }
        frames := frames[id := f.(vars := Exchange(f.vars, to, from))];
      }
      frames := frames[id := Receive(frames[id], Unit)];
      assert frames == after.frames;
    }

    /** The destructor of a task variable. */
    method DropTask(v: nat)
      requires Valid() && HasTop(View()) && Next(frames[Top(View())]) == Drop(v) && Disciplined(View(), Act(0))
      modifies this`frames
      ensures Valid() && ActDrop(old(View()), v) == Ok(View())
    {
      hide Inv;
      DropReady(View(), v);
      hide ActDrop, Disciplined;
      ghost var after := ActDrop(View(), v).state;
      var id := stack[|stack| - 1];
      var f := frames[id];
      if v in f.vars {
        frames := frames[f.vars[v] := frames[f.vars[v]].(status := Destroyed)];
      }
      frames := frames[id := Receive(f, Unit).(vars := f.vars - {v})];
      assert frames == after.frames;
    }

    // ---- awaiters ----

    /** `base_uring_awaiter`: the constructor asks for an entry; `await_ready` reports when there is
        none; `await_suspend` stores the handle, submits, and returns to the resumer. */
    method AwaitOperation(accept: nat)
      requires Valid() && HasTop(View()) && Next(frames[Top(View())]).AwaitIo?
      modifies this
      ensures Valid() && View() == ActIo(old(View()), accept)
    {
      hide Inv;
      IoReady(View(), accept);
      hide Submit;
      var id := stack[|stack| - 1];
      var f := frames[id];
      var op := OpId(id, |f.hist|);
      if |sq| >= SQ_ENTRIES {
        frames := frames[id := Receive(f, IoResult(NO_SQE_RESULT))];
        log := log[op := NO_SQE_RESULT];
      } else {
        sq := sq + [Awaiter(op)];
        frames := frames[id := f.(status := OnIo(|f.hist|), io := Some(IoData(Some(id), 0)))];
        stack := stack[..|stack| - 1];
        SubmitQueued(accept);
      }
    }

    /** `base_task_awaiter`: `await_ready`, then `await_suspend` with its daemon branch. */
    method AwaitTaskVariable(v: nat, byMove: bool)
      requires Valid() && HasTop(View()) && Next(frames[Top(View())]) == AwaitTask(v, byMove)
      requires Disciplined(View(), Act(0))
      modifies this`frames, this`stack
      ensures Valid() && ActAwaitTask(old(View()), v, byMove) == Ok(View())
    {
      hide Inv;
      AwaitReady(View(), v, byMove);
      hide ActAwaitTask, Disciplined, HoldsOutcome;
      var id := stack[|stack| - 1];
      var f := frames[id];
      var callee := f.vars[v];
      var f1 := f.(vars := if byMove then f.vars - {v} else f.vars);
      if frames[callee].status.Done? {
        frames := frames[id := Receive(f1, Awaited(Stored(frames[callee])))];
      } else {
        frames := frames[id := f1.(status := OnTask(callee))];
        frames := frames[callee := frames[callee].(caller := Some(id), attached := f.attached)];
        if frames[callee].daemon {
          stack := stack[..|stack| - 1];
        } else {
          frames := frames[callee := frames[callee].(status := Running)];
          stack := stack[..|stack| - 1] + [callee];
        }
      }
      assert frames == ActAwaitTask(old(View()), v, byMove).state.frames;
    }

    /** The final awaiter of the top frame, which is done. */
    method FinalAwait(accept: nat)
      requires FinalOk(View())
      modifies this
      ensures FinalSuspend(old(View()), accept) == Ok(View())
    {
      FinalCases(View(), accept);
      hide FinalSuspend, Submit;
      var id := stack[|stack| - 1];
      var f := frames[id];
      if f.caller.Some? {
        var c := f.caller.value;
        frames := frames[c := Receive(frames[c], Awaited(Stored(f))).(status := Running)];
        stack := stack[..|stack| - 1] + [c];
      } else if f.daemon {
        stack := stack[..|stack| - 1];
      } else {
        FinishRun(accept);
        frames := frames[id := frames[id].(status := Destroyed)];
        stack := stack[..|stack| - 1];
      }
    }

    /** The destructors of the task variables of the top frame, in any order. Each finds its frame alive. */
    method DestroyLocals()
      requires HasTop(View()) && LocalsOwnable(View()) && Injective(frames[Top(View())].vars)
      requires Top(View()) !in frames[Top(View())].vars.Values
      modifies this`frames
      ensures View() == AfterLocals(old(View()))
    {
      hide Swept, Handles, Injective;
      ghost var s := View();
      var id := stack[|stack| - 1];
      var vars := frames[id].vars;
      SweepsNone(s, vars);
      var rest := vars.Keys;
      assert LocalsOwnable(s);
      while rest != {}
        invariant rest <= vars.Keys && frames == Swept(s.frames, Handles(vars, vars.Keys - rest))
        decreases rest
      {
        var v :| v in rest;
        assert Ownable(s, s.frames[Top(s)].vars[v]);
        StillAlive(s, vars, rest, v);
        assert Ownable(View(), vars[v]);
        frames := frames[vars[v] := frames[vars[v]].(status := Destroyed)];
        assert (rest - {v}) + {v} == rest;
        rest := rest - {v};
        SweptOneMore(s, vars, rest, v);
      }
      SweepsAll(s);
      frames := frames[id := frames[id].(vars := map[])];
    }

    /** `co_return`: the promise stores the value, then the locals go. An exception that leaves the body: the
        locals go, then the promise stores the exception. */
    method LeaveBody(o: Outcome)
      requires HasTop(View()) && LocalsOwnable(View()) && Injective(frames[Top(View())].vars)
      requires Top(View()) !in frames[Top(View())].vars.Values
      modifies this`frames
      ensures HasTop(AfterLocals(old(View()))) && View() == AtFinal(AfterLocals(old(View())), o)
    {
      hide AfterLocals, Injective, Ownable, Shared, LocalsOwnable;
      ghost var s := View();
      var id := stack[|stack| - 1];
      var f := frames[id];
      LocalsTop(s);
      if o.Value? {
        StoredLocals(s, f.(value := Some(o.v)));
        frames := frames[id := f.(value := Some(o.v))];
        DestroyLocals();
      } else {
        DestroyLocals();
        frames := frames[id := frames[id].(ex := Some(o.e))];
      }
      assert frames == AfterLocals(s).frames[id := StoreOutcome(f, o).(vars := map[])];
      FinishLocals(s, o);
      hide AtFinal, StoreOutcome;
      frames := frames[id := frames[id].(status := Done)];
    }

    /** The body returns or throws, and the final awaiter runs. */
    method EndBody(accept: nat)
      requires Valid() && HasTop(View()) && Ends(Next(frames[Top(View())]))
      requires Disciplined(View(), Act(accept)) && !NoEntryForMarker(View(), Act(accept))
      modifies this
      ensures Valid() && Advance(old(View()), accept) == Ok(View())
    {
      hide Inv, FramesInv, AfterLocals, Injective, FinalSuspend, Advance, Disciplined, NoEntryForMarker, AtFinal,
        LocalsOwnable;
      ghost var s := View();
      ghost var s1 := AfterLocals(s);
      var o := OutcomeOf(Next(frames[stack[|stack| - 1]]));
      EndReady(s, o, accept);
      EndIsFinal(s, o, accept);
      LeaveBody(o);
      FinalReady(s1, o);
      FinalAwait(accept);
    }

    /** The running coroutine takes its next action. */
    method AdvanceTop(accept: nat)
      requires Valid() && Allowed(View(), Act(accept))
      modifies this
      ensures Valid() && Advance(old(View()), accept) == Ok(View())
    {
      hide Inv, NoEntryForMarker;
      StepKeeps(View(), Act(accept));
      hide ActDrop, ActMoveAssign, ActLaunch, ActAwaitTask, ActIo, ActEnd;
      var id := stack[|stack| - 1];
      var f := frames[id];
      match Next(f)
      case AwaitContext =>
        frames := frames[id := Receive(f, ContextIs(f.attached))];
      case Create(child) =>
        frames := frames[Child(id, |f.hist|) := Fresh(child)];
        frames := frames[id := Receive(f, Unit).(vars := f.vars[|f.hist| := Child(id, |f.hist|)])];
      case MoveConstruct(from) =>
        frames := frames[id := Receive(f, Unit).(vars := Exchange(f.vars, |f.hist|, from))];
      case MoveAssign(to, from) => MoveAssignTask(to, from);
      case Drop(v) => DropTask(v);
      case AwaitIo => AwaitOperation(accept);
      case Launch(v) => LaunchTask(v, false);
      case LaunchDetached(v) => LaunchTask(v, true);
      case AwaitTask(v, byMove) => AwaitTaskVariable(v, byMove);
      case CoReturn(_) => EndBody(accept);
      case CoThrow(_) => EndBody(accept);
    }

    // ---- uring_loop ----

    /** `resume`: the marker stops the loop; any other completion stores its result through the user
        data and resumes the handle found there. */
    method ResumeHead()
      requires Valid() && phase.Waiting? && |cq| > 0
      modifies this
      ensures Valid() && Dispatch(old(View())) == Ok(View()) && phase.Dispatching?
    {
      hide Inv, FramesInv, Dispatch;
      HeadReady(View());
      ghost var after := Dispatch(View()).state;
      phase := Dispatching(phase.root);
      if cq[0].user.Marker? {
        running := false;
        return;
      }
      var op := cq[0].user.op;
      frames := frames[op.id := frames[op.id].(io := Some(frames[op.id].io.value.(result := cq[0].res)))];
      var h := frames[op.id].io.value.handle.value;
      var r := frames[h].io.value.result;
      log := log[OpId(h, frames[h].status.op) := r];
      frames := frames[h := Receive(frames[h], IoResult(r)).(status := Running, io := None)];
      stack := stack + [h];
      assert frames == after.frames;
    }

    /** The kernel posts the completion of an operation in flight. */
    method Post(user: UserData, res: int)
      requires Valid() && user in flying
      modifies this`flying, this`cq
      ensures Valid() && View() == KernelCompletes(old(View()), user, res)
    {
      hide Inv;
      StepKeeps(View(), Completes(user, res));
      flying := flying - multiset{user};
      cq := cq + [Cqe(user, res)];
    }

    /** `data->handle_()` in `resume`: coroutines run until the native stack is empty. The kernel goes on
        posting meanwhile. `env` says what it does, and how far the run is observed: everything offered there that
        is allowed when its turn comes is done, and `trace` is the part of the run that this makes. */
    method RunCoroutines(env: seq<Choice>, from: nat) returns (used: nat, ghost trace: seq<Choice>)
      requires Valid() && from <= |env|
      modifies this
      ensures Valid() && from <= used <= |env| && (stack == [] || used == |env|)
      ensures Exec(old(View()), env[from..used]) == Ok(View())
      ensures OnTrace(old(View()), env[from..], trace, View(), env[used..])
      ensures phase == old(phase) && running == old(running)
    {
      used, trace := from, [];
      hide Inv, Allowed, Step, OnTrace;
      assert env[from..from] == [];
      TraceStarts(View(), env[from..]);
      while stack != [] && used < |env|
        invariant Valid() && from <= used <= |env|
        invariant Exec(old(View()), env[from..used]) == Ok(View())
        invariant OnTrace(old(View()), env[from..], trace, View(), env[used..])
        invariant phase == old(phase) && running == old(running)
        decreases |env| - used
      {
        var c := env[used];
        assert env[from..used + 1] == env[from..used] + [c];
        StackBusy(View());
        if Allowed(View(), c) {
          BusyChoice(View(), c);
          TraceTakes(old(View()), env[from..], trace, View(), env, used);
          ExecSnoc(old(View()), env[from..used], c);
          if c.Act? {
            AdvanceLeavesLoop(View(), c.accept);
            AdvanceTop(c.accept);
          } else {
            Post(c.user, c.res);
          }
          trace := trace + [c];
        } else {
          TraceSkips(old(View()), env[from..], trace, View(), env, used);
          ExecSkips(old(View()), env[from..used], c);
        }
        used := used + 1;
      }
    }

    /** `io_uring_cqe_seen`, and the loop condition. */
    method MarkSeen()
      requires Valid() && phase.Dispatching? && stack == []
      modifies this
      ensures Valid() && Enabled(old(View()), Return) && View() == NativeReturn(old(View()))
    {
      hide Inv;
      LoopFacts(View());
      ReturnReady(View());
      seen := seen + [cq[0]];
      cq := cq[1..];
      phase := if running then Waiting(phase.root) else Idle;
    }

    /** `run`, entered when the first resume of `block_run` has returned. It takes everything that `env` offers and that
        is allowed when its turn comes, see `RunTrace`. If it stops, its last completion is the marker
        and every run so far has had exactly its own. */
    method Run(env: seq<Choice>) returns (ghost trace: seq<Choice>)
      requires Valid() && phase.Starting? && stack == []
      modifies this
      ensures Valid() && Exec(old(View()), trace) == Ok(View()) && trace == RunTrace(old(View()), env)
      ensures !running ==> phase.Idle? && |seen| > 0 && seen[|seen| - 1].user.Marker? && Markers(seen) == runs
    {
      hide Inv, Allowed, Step, Dispatch, Markers, OnTrace;
      var used := 0;
      ghost var s0 := View();
      trace := [Return];
      ReturnReady(View());
      TraceStarts(s0, env);
      TraceReturns(s0, env, [], s0, env);
      assert [] + [Return] == [Return] && env[0..] == env;
      running := true;
      phase := Waiting(phase.root);
      while running && used < |env|
        invariant Valid() && used <= |env| && OnTrace(s0, env, trace, View(), env[used..])
        invariant running ==> phase.Waiting?
        invariant !running ==> phase.Idle? && |seen| > 0 && seen[|seen| - 1].user.Marker?
        decreases |env| - used
      {
        var c := env[used];
        WaitingChoice(View(), c);
        if c.WaitOk? && |cq| > 0 {
          TraceTakes(s0, env, trace, View(), env, used);
          used := used + 1;
          ResumeHead();
          trace := trace + [WaitOk];
          ghost var mid, more := View(), [];
          ghost var rest := env[used..];
          used, more := RunCoroutines(env, used);
          TraceJoins(s0, env, trace, mid, rest, more, View(), env[used..]);
          trace := trace + more;
          LoopFacts(View());
          if stack != [] {
            BusyEnds(View());
            assert env[used..] == [];
            TraceEndsHere(s0, env, trace, View(), env[used..]);
            return;
          }
          ReturnReady(View());
          TraceReturns(s0, env, trace, View(), env[used..]);
          MarkSeen();
          trace := trace + [Return];
        } else if c.Completes? && c.user in flying {
          TraceTakes(s0, env, trace, View(), env, used);
          Post(c.user, c.res);
          trace := trace + [c];
          used := used + 1;
        } else if c.WaitError? {
          TraceTakes(s0, env, trace, View(), env, used);
          ErrorReady(View(), c);
          trace := trace + [c];
          used := used + 1;
        } else {
          TraceSkips(s0, env, trace, View(), env, used);
          used := used + 1;
        }
      }
      LoopFacts(View());
      RunEnds(View(), env[used..]);
      TraceEndsHere(s0, env, trace, View(), env[used..]);
    }
  }

  /** What `get_value` gives when it does not check: the exception if there is one, else the value. */
  function Stored(f: Frame): Outcome
    requires Ended(f)
  {
    if f.ex.Some? then Exception(f.ex.value) else Value(f.value.value)
  }

  // ---- What each method finds when it is called. ----

  lemma ActReady(s: State, accept: nat)
    requires Inv(s) && HasTop(s) && Disciplined(s, Act(0)) && !Ends(Next(s.frames[Top(s)]))
    ensures Advance(s, accept).Ok? && Inv(Advance(s, accept).state) && FramesInv(s)
  {
    assert Disciplined(s, Act(accept));
    InvFrames(s);
    hide Inv, Advance, Disciplined;
    StepKeeps(s, Act(accept));
  }

  lemma LaunchReady(s: State, v: nat, detached: bool)
    requires Inv(s) && HasTop(s) && Next(s.frames[Top(s)]) == if detached then LaunchDetached(v) else Launch(v)
    requires Disciplined(s, Act(0))
    ensures v in s.frames[Top(s)].vars
    ensures var id, kid, r := Top(s), s.frames[Top(s)].vars[v], ActLaunch(s, v, detached);
            && kid in s.frames && kid != id && r.Ok? && Inv(r.state) && SameRest(s, r.state)
            && r.state.stack == s.stack + [kid]
            && var f := s.frames[id];
               var vars := if detached then f.vars - {v} else Exchange(f.vars, |f.hist|, v);
               r.state.frames == s.frames[id := Receive(f, Unit).(vars := vars)]
                                         [kid := s.frames[kid].(attached := true, daemon := true, status := Running)]
  {
    hide Inv, FramesInv;
    ActReady(s, 0);
    KidFacts(s, v);
    LaunchResult(s, v, detached);
    hide ActLaunch, LifeOk;
  }

  /** The frames once the task in variable `v` of `f` is destroyed. */
  function WithoutTask(s: State, f: Frame, v: nat): map<Id, Frame> {
    if v in f.vars && f.vars[v] in s.frames then s.frames[f.vars[v] := s.frames[f.vars[v]].(status := Destroyed)]
    else s.frames
  }

  lemma DropReady(s: State, v: nat)
    requires Inv(s) && HasTop(s) && Next(s.frames[Top(s)]) == Drop(v) && Disciplined(s, Act(0))
    ensures var id, f, r := Top(s), s.frames[Top(s)], ActDrop(s, v);
            && r.Ok? && Inv(r.state) && SameRest(s, r.state) && r.state.stack == s.stack
            && (v in f.vars ==> f.vars[v] in s.frames && f.vars[v] != id)
            && r.state.frames == WithoutTask(s, f, v)[id := Receive(f, Unit).(vars := f.vars - {v})]
  {
    hide Inv, FramesInv, LifeOk;
    ActReady(s, 0);
    if v in s.frames[Top(s)].vars {
      KidFacts(s, v);
    }
  }

  lemma MoveAssignReady(s: State, to: nat, from: nat)
    requires Inv(s) && HasTop(s) && Next(s.frames[Top(s)]) == MoveAssign(to, from) && Disciplined(s, Act(0))
    ensures var id, f, r := Top(s), s.frames[Top(s)], ActMoveAssign(s, to, from);
            && r.Ok? && Inv(r.state) && SameRest(s, r.state) && r.state.stack == s.stack
            && (to in f.vars ==> f.vars[to] in s.frames && f.vars[to] != id)
            && r.state.frames ==
               if to == from then s.frames[id := Receive(f, Unit)]
               else WithoutTask(s, f, to)[id := Receive(f, Unit).(vars := Exchange(f.vars, to, from))]
  {
    hide Inv, FramesInv, LifeOk, Exchange;
    ActReady(s, 0);
    if to in s.frames[Top(s)].vars {
      KidFacts(s, to);
    }
  }

  lemma IoReady(s: State, accept: nat)
    requires Inv(s) && HasTop(s) && Next(s.frames[Top(s)]).AwaitIo?
    ensures Inv(ActIo(s, accept))
  {
    hide Inv, FramesInv;
    ActReady(s, accept);
  }

  lemma AwaitReady(s: State, v: nat, byMove: bool)
    requires Inv(s) && HasTop(s) && Next(s.frames[Top(s)]) == AwaitTask(v, byMove)
    requires Disciplined(s, Act(0))
    ensures v in s.frames[Top(s)].vars
    ensures var id, kid, r := Top(s), s.frames[Top(s)].vars[v], ActAwaitTask(s, v, byMove);
            && kid in s.frames && kid != id && r.Ok? && Inv(r.state) && SameRest(s, r.state)
            && var f, k := s.frames[id], s.frames[kid];
               var f1, k1 := f.(vars := if byMove then f.vars - {v} else f.vars),
                 k.(caller := Some(id), attached := f.attached);
               if k.status.Done? then
                 Ended(k) && r.state.stack == s.stack
                   && r.state.frames == s.frames[id := Receive(f1, Awaited(Stored(k)))]
               else if k.daemon then
                 r.state.stack == s.stack[..|s.stack| - 1]
                   && r.state.frames == s.frames[id := f1.(status := OnTask(kid))][kid := k1]
               else
                 r.state.stack == s.stack[..|s.stack| - 1] + [kid]
                 && r.state.frames == s.frames[id := f1.(status := OnTask(kid))][kid := k1.(status := Running)]
  {
    hide Inv, FramesInv, VarsOk;
    ActReady(s, 0);
    KidFacts(s, v);
    AwaitResult(s, v, byMove);
    hide ActAwaitTask;
    var k := s.frames[s.frames[Top(s)].vars[v]];
    if k.status.Done? {
      assert HoldsOutcome(k, Stored(k));
    }
  }

  /** What the final awaiter relies on. */
  predicate FinalOk(s: State) {
    && HasTop(s)
    && var id, f := Top(s), s.frames[Top(s)];
       && f.status.Done? && Ended(f)
       && (f.caller.Some? ==>
             var p := f.caller.value; p in s.frames && p != id && s.frames[p].status == OnTask(id))
       && (f.caller.None? && !f.daemon ==> f.attached && |s.sq| < SQ_ENTRIES)
  }

  lemma FinalCases(s: State, accept: nat)
    requires FinalOk(s)
    ensures var id, f, stack := Top(s), s.frames[Top(s)], s.stack[..|s.stack| - 1];
            FinalSuspend(s, accept) == Ok(
              if f.caller.Some? then
                var p := f.caller.value;
                var p' := Receive(s.frames[p], Awaited(Stored(f))).(status := Running);
                s.(stack := stack + [p], frames := s.frames[p := p'])
              else if f.daemon then s.(stack := stack)
              else
                var s1 := Submit(s.(sq := s.sq + [Marker]), accept);
                s1.(stack := stack, frames := s1.frames[id := f.(status := Destroyed)]))
  {
    hide Receive;
  }

  lemma FinalReady(s: State, o: Outcome)
    requires FramesInv(s) && HasTop(s)
    requires s.frames[Top(s)].caller.None? && !s.frames[Top(s)].daemon ==> |s.sq| < SQ_ENTRIES
    ensures FinalOk(AtFinal(s, o))
  {
    hide FramesInv, LifeOk, LinkOk;
    TopFacts(s);
    RunsAttached(Top(s), s.frames[Top(s)], IsRoot(s, Top(s)));
    if s.frames[Top(s)].caller.Some? {
      CallerFacts(s);
    }
  }

  lemma StartReady(s: State, prog: Program)
    requires Inv(s) && s.phase.Idle?
    ensures Inv(BlockRun(s, prog))
  {
    hide Inv;
    StepKeeps(s, StartRun(prog));
  }

  lemma DetachReady(s: State, prog: Program)
    requires Inv(s) && s.phase.Idle?
    ensures Inv(MainDetach(s, prog))
  {
    hide Inv;
    StepKeeps(s, StartDetached(prog));
  }

  /** The handles in some of the variables. */
  function Handles(vars: Vars, some: set<nat>): set<Id> {
    set v | v in some && v in vars :: vars[v]
  }

  lemma SweepsNone(s: State, vars: Vars)
    ensures Swept(s.frames, Handles(vars, vars.Keys - vars.Keys)) == s.frames
  {
    assert Handles(vars, vars.Keys - vars.Keys) == {};
  }

  lemma SweepsAll(s: State)
    requires HasTop(s) && Top(s) !in s.frames[Top(s)].vars.Values
    ensures var vars := s.frames[Top(s)].vars;
            var swept := Swept(s.frames, Handles(vars, vars.Keys - {}));
            && Top(s) in swept && swept[Top(s)] == s.frames[Top(s)]
            && AfterLocals(s) == s.(frames := swept[Top(s) := swept[Top(s)].(vars := map[])])
  {
    var vars := s.frames[Top(s)].vars;
    assert Handles(vars, vars.Keys - {}) == vars.Values;
  }

  lemma StillAlive(s: State, vars: Vars, rest: set<nat>, v: nat)
    requires Injective(vars) && v in rest && v in vars && Ownable(s, vars[v])
    ensures var frames := Swept(s.frames, Handles(vars, vars.Keys - rest));
            vars[v] in frames && frames[vars[v]] == s.frames[vars[v]]
  {
  }

  lemma SweptOneMore(s: State, vars: Vars, rest: set<nat>, v: nat)
    requires v in vars && v !in rest && vars[v] in s.frames
    ensures var before := Swept(s.frames, Handles(vars, vars.Keys - (rest + {v})));
            vars[v] in before
            && var after := Swept(s.frames, Handles(vars, vars.Keys - rest));
               after == before[vars[v] := before[vars[v]].(status := Destroyed)]
  {
    assert Handles(vars, vars.Keys - rest) == Handles(vars, vars.Keys - (rest + {v})) + {vars[v]};
    hide Handles;
  }

  /** Changing the rest of the top frame first does not change what the destructors do. */
  lemma StoredLocals(s: State, f': Frame)
    requires HasTop(s) && LocalsOwnable(s) && Top(s) !in s.frames[Top(s)].vars.Values
    requires f'.vars == s.frames[Top(s)].vars
    ensures var s1 := SetFrame(s, Top(s), f');
            && HasTop(s1) && LocalsOwnable(s1)
            && AfterLocals(s1) == SetFrame(AfterLocals(s), Top(s), f'.(vars := map[]))
  {
    var id, s1 := Top(s), SetFrame(s, Top(s), f');
    forall v | v in f'.vars ensures Ownable(s1, f'.vars[v]) {
      assert Ownable(s, s.frames[id].vars[v]);
      assert f'.vars[v] in s.frames[id].vars.Values;
    }
    assert AfterLocals(s1).frames == SetFrame(AfterLocals(s), id, f'.(vars := map[])).frames;
  }

  lemma FinishLocals(s: State, o: Outcome)
    requires HasTop(s)
    ensures var s1, f1 := AfterLocals(s), StoreOutcome(s.frames[Top(s)], o).(vars := map[]);
            HasTop(s1) && AtFinal(s1, o) == s1.(frames := s1.frames[Top(s) := f1][Top(s) := f1.(status := Done)])
  {
    LocalsTop(s);
    hide AfterLocals;
  }

  lemma LocalsTop(s: State)
    requires HasTop(s)
    ensures var s1 := AfterLocals(s);
            HasTop(s1) && Top(s1) == Top(s) && s1.frames[Top(s)] == s.frames[Top(s)].(vars := map[])
  {
  }

  lemma EndReady(s: State, o: Outcome, accept: nat)
    requires Inv(s) && HasTop(s) && Ends(Next(s.frames[Top(s)])) && o == OutcomeOf(Next(s.frames[Top(s)]))
    requires Disciplined(s, Act(accept)) && !NoEntryForMarker(s, Act(accept))
    ensures LocalsOwnable(s) && FramesInv(AfterLocals(s)) && HasTop(AfterLocals(s)) && Top(AfterLocals(s)) == Top(s)
    ensures AfterLocals(s).frames[Top(s)] == s.frames[Top(s)].(vars := map[]) && AfterLocals(s).sq == s.sq
    ensures s.frames[Top(s)].caller.None? && !s.frames[Top(s)].daemon ==> |s.sq| < SQ_ENTRIES
    ensures Injective(s.frames[Top(s)].vars) && Top(s) !in s.frames[Top(s)].vars.Values
    ensures Advance(s, accept).Ok? && Inv(Advance(s, accept).state)
  {
    hide Inv, FramesInv, Advance;
    InvFrames(s);
    EndStep(s, accept);
    assert LocalsOwnable(s);
    hide Disciplined;
    LocalsKeep(s);
    TopInjective(s);
    TopNotHeld(s);
  }

  lemma EndIsFinal(s: State, o: Outcome, accept: nat)
    requires HasTop(s) && Ends(Next(s.frames[Top(s)])) && o == OutcomeOf(Next(s.frames[Top(s)])) && LocalsOwnable(s)
    requires Injective(s.frames[Top(s)].vars)
    ensures HasTop(AfterLocals(s)) && Top(AfterLocals(s)) == Top(s)
    ensures Advance(s, accept) == FinalSuspend(AtFinal(AfterLocals(s), o), accept)
  {
    hide ActEnd, FinalSuspend;
    EndResult(s, o, accept);
  }

  lemma EndStep(s: State, accept: nat)
    requires Inv(s) && HasTop(s) && Disciplined(s, Act(accept)) && !NoEntryForMarker(s, Act(accept))
    ensures Advance(s, accept).Ok? && Inv(Advance(s, accept).state)
  {
    hide Inv, Advance, Disciplined, NoEntryForMarker;
    StepKeeps(s, Act(accept));
  }

  lemma HeadKnown(s: State)
    requires FramesInv(s) && Histories(s) && s.phase.Waiting? && |s.cq| > 0
    ensures Dispatch(s).Ok? && !s.cq[0].user.Null?
    ensures s.cq[0].user.Marker? ==> Dispatch(s).state == s.(phase := Dispatching(s.phase.root), running := false)
    ensures s.cq[0].user.Awaiter? ==>
              var op, s' := s.cq[0].user.op, Dispatch(s).state;
              && op.id in s.frames
              && var f := s.frames[op.id];
                 && f.status == OnIo(op.op) && f.io.Some? && f.io.value.handle == Some(op.id)
                 && s'.frames == s.frames[op.id := Receive(f, IoResult(s.cq[0].res)).(status := Running, io := None)]
                 && s' == s.(phase := Dispatching(s.phase.root), stack := s.stack + [op.id], frames := s'.frames,
                    log := s.log[op := s.cq[0].res])
  {
    hide FramesInv, RingOk, HistOk, LogOk, SeenOk;
    HeadDue(s);
    if s.cq[0].user.Awaiter? {
      var op := s.cq[0].user.op;
      hide Dispatch, LifeOk;
      LifeFact(s, op.id);
      IoLife(op.id, s.frames[op.id], s.cq[0].res, IsRoot(s, op.id));
      AwaiterTaken(s);
    }
  }

  lemma HeadReady(s: State)
    requires Inv(s) && s.phase.Waiting? && |s.cq| > 0
    ensures Dispatch(s).Ok? && Inv(Dispatch(s).state) && !s.cq[0].user.Null?
    ensures s.cq[0].user.Marker? ==> Dispatch(s).state == s.(phase := Dispatching(s.phase.root), running := false)
    ensures s.cq[0].user.Awaiter? ==>
              var op, s' := s.cq[0].user.op, Dispatch(s).state;
              && op.id in s.frames
              && var f := s.frames[op.id];
                 && f.status == OnIo(op.op) && f.io.Some? && f.io.value.handle == Some(op.id)
                 && s'.frames == s.frames[op.id := Receive(f, IoResult(s.cq[0].res)).(status := Running, io := None)]
                 && s' == s.(phase := Dispatching(s.phase.root), stack := s.stack + [op.id], frames := s'.frames,
                    log := s.log[op := s.cq[0].res])
  {
    hide Inv, FramesInv, Histories, Dispatch, Receive;
    InvFrames(s);
    WaitReady(s);
    StepKeeps(s, WaitOk);
    HeadKnown(s);
  }

  lemma LoopFacts(s: State)
    requires Inv(s)
    ensures s.phase.Waiting? ==> s.stack == [] && s.running
    ensures s.phase.Starting? ==> !s.running
    ensures s.phase.Dispatching? ==>
            |s.cq| > 0 && (s.running <==> !s.cq[0].user.Marker?) && (!s.running ==> s.stack == [])
    ensures s.phase.Idle? ==> Markers(s.seen) == s.runs
  {
  }

  lemma ReturnReady(s: State)
    requires Inv(s) && Enabled(s, Return)
    ensures Inv(NativeReturn(s)) && Allowed(s, Return) && Step(s, Return) == Ok(NativeReturn(s))
  {
    hide Inv;
    StepKeeps(s, Return);
  }

  lemma WaitReady(s: State)
    requires Enabled(s, WaitOk)
    ensures Allowed(s, WaitOk) && Step(s, WaitOk) == Dispatch(s)
  {
  }

  lemma ErrorReady(s: State, c: Choice)
    requires c.WaitError? && s.phase.Waiting?
    ensures Allowed(s, c) && Step(s, c) == Ok(s)
  {
  }

  // ---- The turns of the loop. ----

  /** While a coroutine runs, a choice that is allowed is one of it or of the kernel. */
  lemma BusyChoice(s: State, c: Choice)
    requires Inv(s) && s.stack != [] && Allowed(s, c)
    ensures c.Act? || c.Completes?
    ensures c.Act? ==> HasTop(s) && Step(s, c) == Advance(s, c.accept)
    ensures c.Completes? ==> c.user in s.flying && Step(s, c) == Ok(KernelCompletes(s, c.user, c.res))
  {
    hide Inv, Disciplined, NoEntryForMarker, Advance;
    StackBusy(s);
  }

  lemma StackBusy(s: State)
    requires Inv(s) && s.stack != []
    ensures !s.phase.Idle? && !s.phase.Waiting?
  {
  }

  lemma BusyEnds(s: State)
    requires Inv(s) && s.stack != []
    ensures RunTrace(s, []) == []
  {
    hide Inv;
    NoneOffered(s);
  }

  /** While the loop waits, only a wait, a completion or a failed wait is on offer. */
  lemma WaitingChoice(s: State, c: Choice)
    requires Inv(s) && s.phase.Waiting?
    ensures Allowed(s, c) <==> (c.WaitOk? && |s.cq| > 0) || (c.Completes? && c.user in s.flying) || c.WaitError?
    ensures !Enabled(s, Return)
    ensures c.WaitOk? && |s.cq| > 0 ==> Step(s, c) == Dispatch(s)
    ensures c.Completes? && c.user in s.flying ==> Step(s, c) == Ok(KernelCompletes(s, c.user, c.res))
  {
    hide Inv, Dispatch;
    LoopFacts(s);
  }

  lemma TraceEndsHere(s0: State, env: seq<Choice>, trace: seq<Choice>, s: State, rest: seq<Choice>)
    requires OnTrace(s0, env, trace, s, rest) && RunTrace(s, rest) == []
    ensures Exec(s0, trace) == Ok(s) && trace == RunTrace(s0, env)
  {
    hide RunTrace;
    assert trace + [] == trace;
  }

  lemma RunEnds(s: State, env: seq<Choice>)
    requires s.phase.Idle? || (s.phase.Waiting? && env == [])
    ensures RunTrace(s, env) == []
  {
  }
}
