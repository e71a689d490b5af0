/** Every operation keeps the frame invariant, and none of them faults. */
module RuntimeFrames {
  import opened Wrappers
  import opened Programs
  import opened Runtime
  import opened RuntimeInvariant

  // ---- How the native stack may change. ----

  lemma StackSame(s: State, s': State)
    requires StackOk(s) && s'.stack == s.stack
    requires forall k :: IsRunning(s', k) <==> IsRunning(s, k)
    ensures StackOk(s')
  {
  }

  lemma StackPopped(s: State, s': State)
    requires StackOk(s) && HasTop(s) && s'.stack == s.stack[..|s.stack| - 1]
    requires forall k :: IsRunning(s', k) <==> IsRunning(s, k) && k != Top(s)
    ensures StackOk(s')
  {
    assert s.stack == s'.stack + [Top(s)];
  }

  lemma StackPushed(s: State, s': State, t: Id)
    requires StackOk(s) && !IsRunning(s, t) && s'.stack == s.stack + [t]
    requires forall k :: IsRunning(s', k) <==> IsRunning(s, k) || k == t
    ensures StackOk(s')
  {
  }

  lemma StackTransferred(s: State, s': State, t: Id)
    requires StackOk(s) && HasTop(s) && !IsRunning(s, t) && s'.stack == s.stack[..|s.stack| - 1] + [t]
    requires forall k :: IsRunning(s', k) <==> (IsRunning(s, k) && k != Top(s)) || k == t
    ensures StackOk(s')
  {
    assert s.stack == s.stack[..|s.stack| - 1] + [Top(s)];
  }

  // ---- How the frames may change. ----

  /** Frames are only added, and their histories only grow. */
  ghost predicate Grows(s: State, s': State) {
    && s.roots <= s'.roots
    && (forall id :: id in s.frames ==>
          id in s'.frames && s'.frames[id].prog == s.frames[id].prog && s.frames[id].hist <= s'.frames[id].hist)
    && (forall n: nat {:trigger Root(n)} :: Root(n) in s'.frames && Root(n) !in s.frames ==> n < s'.roots)
    && (forall p: Id, b: nat {:trigger Child(p, b)} :: Child(p, b) in s'.frames && Child(p, b) !in s.frames ==>
          p in s'.frames && Born(s'.frames[p], b, s'.frames[Child(p, b)]))
  }

  lemma TreeKept(s: State, s': State)
    requires TreeOk(s) && Grows(s, s')
    ensures TreeOk(s')
  {
    forall p: Id, b: nat {:trigger Child(p, b)} | Child(p, b) in s'.frames
      ensures p in s'.frames && Born(s'.frames[p], b, s'.frames[Child(p, b)])
    {
      if Child(p, b) in s.frames {
        assert Born(s.frames[p], b, s.frames[Child(p, b)]);
        assert s'.frames[p].hist[..b] == s.frames[p].hist[..b];
      }
    }
  }

  lemma TreeSet(s: State, s': State, id: Id, f': Frame)
    requires TreeOk(s) && id in s.frames && s'.frames == s.frames[id := f'] && s'.roots == s.roots
    requires f'.prog == s.frames[id].prog && s.frames[id].hist <= f'.hist
    ensures TreeOk(s')
  {
    TreeKept(s, s');
  }

  lemma TreeSetBoth(s: State, s': State, a: Id, f: Frame, b: Id, g: Frame)
    requires TreeOk(s) && a in s.frames && b in s.frames && a != b && s'.frames == s.frames[a := f][b := g]
    requires s'.roots == s.roots
    requires f.prog == s.frames[a].prog && s.frames[a].hist <= f.hist
    requires g.prog == s.frames[b].prog && s.frames[b].hist <= g.hist
    ensures TreeOk(s')
  {
    TreeKept(s, s');
  }

  lemma TreeNew(s: State, s': State, id: Id, f': Frame, kid: Id, k': Frame)
    requires TreeOk(s) && id in s.frames && kid !in s.frames && kid.Child? && kid.parent == id
    requires s'.frames == s.frames[kid := k'][id := f'] && s'.roots == s.roots
    requires f'.prog == s.frames[id].prog && s.frames[id].hist <= f'.hist && Born(f', kid.birth, k')
    ensures TreeOk(s')
  {
    TreeKept(s, s');
  }

  lemma LivesSet(s: State, s': State, id: Id, f': Frame)
    requires LivesOk(s) && s'.frames == s.frames[id := f'] && LifeOk(id, f', IsRoot(s', id))
    requires forall k :: k in s.frames && k != id ==> (IsRoot(s', k) <==> IsRoot(s, k))
    ensures LivesOk(s')
  {
    hide LifeOk, IsRoot;
  }

  lemma LivesSetBoth(s: State, s': State, a: Id, f: Frame, b: Id, g: Frame)
    requires LivesOk(s) && s'.frames == s.frames[a := f][b := g] && a != b && s'.phase == s.phase
    requires LifeOk(a, f, IsRoot(s, a)) && LifeOk(b, g, IsRoot(s, b))
    ensures LivesOk(s')
  {
    hide LifeOk;
  }

  lemma HeldSet(s: State, s': State, id: Id, f': Frame)
    requires HeldOk(s) && id in s.frames && s'.frames == s.frames[id := f']
    requires f'.vars.Values <= s.frames[id].vars.Values
    requires f'.status.Destroyed? && id.Child? && id.parent in s.frames ==> id !in s.frames[id.parent].vars.Values
    ensures HeldOk(s')
  {
  }

  lemma HeldSetBoth(s: State, s': State, a: Id, f: Frame, b: Id, g: Frame)
    requires HeldOk(s) && a in s.frames && b in s.frames && a != b && s'.frames == s.frames[a := f][b := g]
    requires f.vars.Values <= s.frames[a].vars.Values && g.vars.Values <= s.frames[b].vars.Values
    requires !f.status.Destroyed? && !g.status.Destroyed?
    ensures HeldOk(s')
  {
    HeldSet(s, s.(frames := s.frames[a := f]), a, f);
    HeldSet(s.(frames := s.frames[a := f]), s', b, g);
  }

  /** A frame goes on without an await on a task starting or ending. */
  ghost predicate GoesOn(f: Frame, f': Frame) {
    && f'.prog == f.prog && f.hist <= f'.hist && f'.caller == f.caller && f'.daemon == f.daemon
    && Active(f) && Active(f') && !f.status.OnTask? && !f'.status.OnTask?
  }

  lemma GoOn(s: State, s': State, id: Id, f': Frame)
    requires GraphOk(s) && id in s.frames && s'.frames == s.frames[id := f'] && s'.phase == s.phase
    requires s'.roots == s.roots
    requires GoesOn(s.frames[id], f') && LifeOk(id, f', IsRoot(s, id)) && f'.vars.Values <= s.frames[id].vars.Values
    ensures GraphOk(s')
  {
    hide LinksOk, TreeOk, LivesOk, HeldOk, LifeOk;
    GoOnLinks(s, s', id, f');
    TreeSet(s, s', id, f');
    LivesSet(s, s', id, f');
    HeldSet(s, s', id, f');
  }

  lemma GoOnLinks(s: State, s': State, id: Id, f': Frame)
    requires LinksOk(s) && id in s.frames && s'.frames == s.frames[id := f']
    requires GoesOn(s.frames[id], f')
    ensures LinksOk(s')
  {
  }

  /** A frame that nobody awaits starts, or goes. */
  lemma Turn(s: State, s': State, id: Id, f': Frame)
    requires GraphOk(s) && id in s.frames && s'.frames == s.frames[id := f'] && s'.phase == s.phase
    requires s'.roots == s.roots
    requires var f := s.frames[id];
             && !Active(f) && f'.prog == f.prog && f'.hist == f.hist && f'.caller == f.caller && f'.vars == f.vars
             && (f'.status.Destroyed? || (f'.status.Running? && f'.caller.None?))
    requires LifeOk(id, f', IsRoot(s, id))
    requires f'.status.Destroyed? && id.Child? && id.parent in s.frames ==> id !in s.frames[id.parent].vars.Values
    ensures GraphOk(s')
  {
    hide LinksOk, TreeOk, LivesOk, HeldOk, LifeOk;
    TurnLinks(s, s', id, f');
    TreeSet(s, s', id, f');
    LivesSet(s, s', id, f');
    HeldSet(s, s', id, f');
  }

  lemma TurnLinks(s: State, s': State, id: Id, f': Frame)
    requires LinksOk(s) && id in s.frames && s'.frames == s.frames[id := f']
    requires !Active(s.frames[id]) && f'.caller == s.frames[id].caller
    requires (f'.status.Destroyed? || (f'.status.Running? && f'.caller.None?))
    ensures LinksOk(s')
  {
  }

  /** `id` starts to await `kid`. */
  lemma Link(s: State, s': State, id: Id, f': Frame, kid: Id, k': Frame)
    requires GraphOk(s) && id in s.frames && kid in s.frames && id != kid
    requires s'.frames == s.frames[id := f'][kid := k'] && s'.phase == s.phase && s'.roots == s.roots
    requires var f, k := s.frames[id], s.frames[kid];
             && kid.Child? && kid.parent == id
             && f.status.Running? && f' == f.(status := OnTask(kid), vars := f'.vars) && f'.vars.Values <= f.vars.Values
             && Next(f).AwaitTask? && VarsHold(VarsAt(f.prog, id, f.hist), Next(f).task, kid)
             && k'.prog == k.prog && k'.hist == k.hist && k'.vars == k.vars && k'.caller == Some(id)
             && k.caller.None?
    requires LinkTarget(s.frames[kid], k') && VarsOk(id, f')
    requires LifeOk(kid, k', IsRoot(s, kid))
    ensures GraphOk(s')
  {
    hide LinksOk, TreeOk, LivesOk, HeldOk, LifeOk;
    LinkLinks(s, s', id, f', kid, k');
    TreeSetBoth(s, s', id, f', kid, k');
    LinkLives(s, s', id, f', kid, k');
    HeldSetBoth(s, s', id, f', kid, k');
  }

  lemma LinkLives(s: State, s': State, id: Id, f': Frame, kid: Id, k': Frame)
    requires LivesOk(s) && id in s.frames && kid in s.frames && id != kid && s.frames[id].status.Running?
    requires s'.frames == s.frames[id := f'][kid := k'] && s'.phase == s.phase
    requires f' == s.frames[id].(status := OnTask(kid), vars := f'.vars) && VarsOk(id, f')
    requires LifeOk(kid, k', IsRoot(s, kid))
    ensures LivesOk(s')
  {
    assert LifeOk(id, f', IsRoot(s, id)) by {
      hide VarsOk;
      assert LifeOk(id, s.frames[id], IsRoot(s, id));
    }
    LivesSetBoth(s, s', id, f', kid, k');
  }

  ghost predicate LinkTarget(k: Frame, k': Frame) {
    Active(k') && (k'.status == k.status || (k.status.Created? && k'.status.Running?))
  }

  /** Names in the tree get longer downwards. */
  function Depth(id: Id): nat {
    if id.Root? then 0 else 1 + Depth(id.parent)
  }

  lemma NoCycle(id: Id, kid: Id)
    requires kid.Child? && kid.parent == id
    ensures id != kid && !(id.Child? && id.parent == kid)
  {
    assert Depth(kid) == 1 + Depth(id);
  }

  lemma LinkLinks(s: State, s': State, id: Id, f': Frame, kid: Id, k': Frame)
    requires LinksOk(s) && id in s.frames && kid in s.frames && id != kid && s'.frames == s.frames[id := f'][kid := k']
    requires var f, k := s.frames[id], s.frames[kid];
             && kid.Child? && kid.parent == id && k.caller.None? && k'.prog == k.prog && k'.hist == k.hist
             && f.status.Running? && f'.prog == f.prog && f'.hist == f.hist && f'.caller == f.caller
             && f'.status == OnTask(kid) && Next(f).AwaitTask?
             && VarsHold(VarsAt(f.prog, id, f.hist), Next(f).task, kid)
             && k'.caller == Some(id)
    requires LinkTarget(s.frames[kid], k')
    ensures LinksOk(s')
  {
    hide VarsAt;
    NoCycle(id, kid);
    forall k | k in s'.frames ensures LinkOk(s', k) {
      assert LinkOk(s, k);
      if k != id && k != kid {
        LinkOther(s, s', id, f', kid, k', k);
      }
    }
  }

  /** The links of another frame: it awaited neither, and neither is its parent in an await. */
  lemma LinkOther(s: State, s': State, id: Id, f': Frame, kid: Id, k': Frame, k: Id)
    requires LinksOk(s) && id in s.frames && kid in s.frames && id != kid && k in s.frames && k != id && k != kid
    requires s'.frames == s.frames[id := f'][kid := k'] && s.frames[id].status.Running? && s.frames[kid].caller.None?
    requires f'.caller == s.frames[id].caller && f'.status == OnTask(kid) && kid.Child? && kid.parent == id
    requires LinkTarget(s.frames[kid], k')
    ensures LinkOk(s', k)
  {
    hide VarsAt;
    assert LinkOk(s, k);
  }

  /** A frame that nobody awaits leaves, done or destroyed. */
  lemma Retire(s: State, s': State, id: Id, f': Frame)
    requires GraphOk(s) && id in s.frames && s'.frames == s.frames[id := f'] && s'.phase == s.phase
    requires s'.roots == s.roots
    requires var f := s.frames[id];
             && f.status.Running? && f'.prog == f.prog && f'.hist == f.hist && f.caller.None? && f'.caller.None?
             && f'.vars == map[]
             && (f'.status.Done? || (f'.status.Destroyed? && id.Root?))
    requires LifeOk(id, f', IsRoot(s, id))
    ensures GraphOk(s')
  {
    hide LinksOk, TreeOk, LivesOk, HeldOk, LifeOk;
    RetireLinks(s, s', id, f');
    TreeSet(s, s', id, f');
    LivesSet(s, s', id, f');
    RetireHeld(s, s', id, f');
  }

  lemma RetireHeld(s: State, s': State, id: Id, f': Frame)
    requires HeldOk(s) && id in s.frames && s'.frames == s.frames[id := f'] && f'.vars == map[]
    requires f'.status.Destroyed? ==> id.Root?
    ensures HeldOk(s')
  {
    HeldSet(s, s', id, f');
  }

  lemma RetireLinks(s: State, s': State, id: Id, f': Frame)
    requires LinksOk(s) && id in s.frames && s'.frames == s.frames[id := f']
    requires s.frames[id].status.Running? && s.frames[id].caller.None? && f'.caller.None? && !Active(f')
    ensures LinksOk(s')
  {
  }

  /** `id` is done and its caller goes on. */
  lemma Unlink(s: State, s': State, id: Id, f': Frame, p: Id, p': Frame)
    requires GraphOk(s) && id in s.frames && p in s.frames && id != p
    requires s'.frames == s.frames[id := f'][p := p'] && s'.phase == s.phase && s'.roots == s.roots
    requires var f, g := s.frames[id], s.frames[p];
             && f.status.Running? && f.caller == Some(p) && f'.status.Done?
             && f'.prog == f.prog && f'.hist == f.hist && f'.caller == f.caller && f'.vars == map[]
             && p'.prog == g.prog && g.hist <= p'.hist && p'.caller == g.caller && p'.status.Running?
             && p'.vars == g.vars
    requires LifeOk(id, f', IsRoot(s, id)) && LifeOk(p, p', IsRoot(s, p))
    ensures GraphOk(s')
  {
    hide LinksOk, TreeOk, LivesOk, HeldOk, LifeOk;
    UnlinkLinks(s, s', id, f', p, p');
    TreeSetBoth(s, s', id, f', p, p');
    LivesSetBoth(s, s', id, f', p, p');
    HeldSetBoth(s, s', id, f', p, p');
  }

  lemma UnlinkLinks(s: State, s': State, id: Id, f': Frame, p: Id, p': Frame)
    requires LinksOk(s) && id in s.frames && p in s.frames && id != p && s'.frames == s.frames[id := f'][p := p']
    requires s.frames[id].status.Running? && s.frames[id].caller == Some(p) && f'.caller == s.frames[id].caller
    requires !Active(f')
    requires p'.status.Running? && p'.caller == s.frames[p].caller
    ensures LinksOk(s')
  {
  }

  /** A new frame in the tree. */
  lemma Grow(s: State, s': State, id: Id, f': Frame, kid: Id, k': Frame)
    requires GraphOk(s) && id in s.frames && kid == Child(id, |s.frames[id].hist|)
    requires s'.frames == s.frames[kid := k'][id := f'] && s'.phase == s.phase && s'.roots == s.roots
    requires GoesOn(s.frames[id], f') && LifeOk(id, f', IsRoot(s, id))
    requires f'.vars.Values <= s.frames[id].vars.Values + {kid}
    requires k'.status.Created? && LifeOk(kid, k', IsRoot(s, kid)) && Born(f', kid.birth, k')
    ensures kid !in s.frames && GraphOk(s')
  {
    hide LinksOk, LivesOk, HeldOk, LifeOk;
    assert kid == Child(id, kid.birth);
    assert Child(id, kid.birth) !in s.frames;
    hide TreeOk;
    assert k'.caller.None? && k'.vars == map[] by { CreatedLife(kid, k', IsRoot(s, kid)); }
    GrowLinks(s, s', id, f', kid, k');
    TreeNew(s, s', id, f', kid, k');
    assert s'.frames == s.frames[id := f'][kid := k'] by { NoCycle(id, kid); }
    LivesSetBoth(s, s', id, f', kid, k');
    GrowHeld(s, s', id, f', kid, k');
  }

  lemma CreatedLife(id: Id, f: Frame, root: bool)
    requires LifeOk(id, f, root) && f.status.Created?
    ensures f.caller.None? && f.vars == map[] && f.hist == []
  {
    hide VarsOk;
  }

  lemma GrowHeld(s: State, s': State, id: Id, f': Frame, kid: Id, k': Frame)
    requires HeldOk(s) && id in s.frames && kid !in s.frames && kid.Child? && kid.parent == id
    requires s'.frames == s.frames[kid := k'][id := f'] && f'.vars.Values <= s.frames[id].vars.Values + {kid}
    requires k'.status.Created? && k'.vars == map[] && !f'.status.Destroyed?
    ensures HeldOk(s')
  {
  }

  lemma GrowLinks(s: State, s': State, id: Id, f': Frame, kid: Id, k': Frame)
    requires LinksOk(s) && id in s.frames && kid !in s.frames && s'.frames == s.frames[kid := k'][id := f']
    requires GoesOn(s.frames[id], f') && k'.status.Created? && k'.caller.None?
    ensures LinksOk(s')
  {
  }

  /** A new root of the forest. */
  lemma Plant(s: State, s': State, r: Id, f': Frame)
    requires GraphOk(s) && r == Root(s.roots) && s'.frames == s.frames[r := f'] && s'.roots == s.roots + 1
    requires forall k :: k in s.frames ==> IsRoot(s, k) ==> IsRoot(s', k)
    requires f'.status.Running? && f'.caller.None? && f'.vars == map[] && LifeOk(r, f', IsRoot(s', r))
    ensures r !in s.frames && GraphOk(s')
  {
    hide LinksOk, LivesOk, LifeOk, HeldOk;
    assert Root(s.roots) !in s.frames;
    PlantLinks(s, s', r, f');
    TreeKept(s, s');
    hide TreeOk;
    PlantLives(s, s', r, f');
    PlantHeld(s, s', r, f');
  }

  lemma PlantLives(s: State, s': State, r: Id, f': Frame)
    requires LivesOk(s) && r !in s.frames && s'.frames == s.frames[r := f'] && LifeOk(r, f', IsRoot(s', r))
    requires forall k :: k in s.frames ==> IsRoot(s, k) ==> IsRoot(s', k)
    ensures LivesOk(s')
  {
    hide VarsOk, HoldsOutcome, Next;
  }

  lemma PlantHeld(s: State, s': State, r: Id, f': Frame)
    requires HeldOk(s) && r !in s.frames && s'.frames == s.frames[r := f'] && f'.vars == map[]
    ensures HeldOk(s')
  {
  }

  lemma PlantLinks(s: State, s': State, r: Id, f': Frame)
    requires LinksOk(s) && r !in s.frames && s'.frames == s.frames[r := f']
    requires f'.status.Running? && f'.caller.None?
    ensures LinksOk(s')
  {
  }

  /** The destructors at the end of a body. */
  lemma Sweep(s: State, s': State, id: Id, gone: set<Id>)
    requires GraphOk(s) && id in s.frames && s.frames[id].vars == map[] && s'.phase == s.phase && s'.roots == s.roots
    requires forall k :: k in gone ==> Ownable(s, k) && k.Child? && k.parent == id
    requires s'.frames == Swept(s.frames, gone)
    ensures GraphOk(s')
  {
    SweepTree(s, s', gone);
    SweepLives(s, s', gone);
    SweepLinks(s, s', gone);
    hide TreeOk, LivesOk, LinksOk;
    SweepHeld(s, s', id, gone);
  }

  lemma SweepTree(s: State, s': State, gone: set<Id>)
    requires TreeOk(s) && s'.frames == Swept(s.frames, gone) && s'.roots == s.roots
    ensures TreeOk(s')
  {
    TreeKept(s, s');
  }

  lemma SweepLives(s: State, s': State, gone: set<Id>)
    requires LivesOk(s) && s'.frames == Swept(s.frames, gone) && s'.phase == s.phase
    requires forall k :: k in gone ==> Ownable(s, k)
    ensures LivesOk(s')
  {
    forall k | k in s'.frames ensures LifeOk(k, s'.frames[k], IsRoot(s', k)) {
      assert LifeOk(k, s.frames[k], IsRoot(s, k));
    }
  }

  lemma SweepHeld(s: State, s': State, id: Id, gone: set<Id>)
    requires HeldOk(s) && id in s.frames && s.frames[id].vars == map[] && s'.frames == Swept(s.frames, gone)
    requires forall k :: k in gone ==> k.Child? && k.parent == id
    ensures HeldOk(s')
  {
  }

  lemma SweepLinks(s: State, s': State, gone: set<Id>)
    requires LinksOk(s) && s'.frames == Swept(s.frames, gone)
    requires forall k :: k in gone ==> Ownable(s, k)
    ensures LinksOk(s')
  {
  }
}
