/** What becomes of every frame: it is destroyed exactly when its owner's variable is, and otherwise it stays. */
module RuntimeFate {
  import opened Wrappers
  import opened Programs
  import opened Runtime
  import opened RuntimeInvariant
  import opened RuntimeFrames
  import opened RuntimeSafety
  import opened RuntimeHistory
  import opened RuntimeTheorems
  import opened RuntimeLifetime
  import opened RuntimeEffects

  /** The frames that frame `p` has destroyed: by destroying a variable or assigning over it, and, once its body is
      over, those that were still in its variables. */
  ghost function Gone(p: Id, f: Frame): set<Id> {
    DroppedBy(f.prog, p, f.hist) + if Ended(f) then VarsAt(f.prog, p, f.hist).Values else {}
  }

  predicate IsGone(s: State, k: Id) {
    k in s.frames && s.frames[k].status.Destroyed?
  }

  ghost predicate FateOk(s: State) {
    && (forall p :: p in s.frames ==> FrameOk(p, s.frames[p]))
    && (forall k :: k in s.frames && k.Child? && k.parent in s.frames ==>
          (IsGone(s, k) <==> k in Gone(k.parent, s.frames[k.parent])))
  }

  /** The variables of an unfinished frame are as its actions left them; a root is destroyed when its body is over,
      unless it was detached. */
  ghost predicate FrameOk(p: Id, f: Frame) {
    && (Active(f) ==> f.vars == VarsDue(p, f))
    && (p.Root? ==> (f.status.Destroyed? <==> Ended(f) && !f.daemon))
  }

  /** A frame that has just come into being, as the next child of `p` or as a root. */
  ghost predicate Brandnew(s: State, f: Frame, k: Id, p: Id) {
    && !f.status.Destroyed? && f.hist == [] && !Ended(f)
    && (k.Child? ==> k.parent == p && p in s.frames && k.birth == |s.frames[p].hist|)
  }

  lemma GoneOld(p: Id, f: Frame)
    ensures forall k :: k in Gone(p, f) ==> k.Child? && k.parent == p && k.birth < |f.hist|
  {
    EachFrameAccounted(f.prog, p, f.hist);
    CreatedBefore(f.prog, p, f.hist);
    hide VarsAt, DroppedBy, GivenBy, CreatedBy, Injective;
  }

  /** A frame whose part does not change. */
  ghost predicate Steady(p: Id, f: Frame, f': Frame) {
    Gone(p, f') == Gone(p, f) && (f'.status.Destroyed? <==> f.status.Destroyed?) && FrameOk(p, f')
  }

  /** One step: frame `p` destroys those in `doomed`; all others are steady, or new. */
  ghost predicate Destroying(s: State, s': State, p: Id, doomed: set<Id>) {
    && p in s.frames && p in s'.frames && p !in doomed
    && Gone(p, s'.frames[p]) == Gone(p, s.frames[p]) + doomed && FrameOk(p, s'.frames[p])
    && (p.Child? ==> (s'.frames[p].status.Destroyed? <==> s.frames[p].status.Destroyed?))
    && (forall k :: k in s.frames && k != p ==>
          k in s'.frames && if k in doomed then Doomed1(s, s', k) else Steady(k, s.frames[k], s'.frames[k]))
    && (forall k :: k in doomed ==> k in s.frames && k.Child? && k.parent == p)
    && (forall k :: k in s'.frames && k !in s.frames ==> Brandnew(s, s'.frames[k], k, p) && FrameOk(k, s'.frames[k]))
  }

  ghost predicate Doomed1(s: State, s': State, k: Id)
    requires k in s.frames && k in s'.frames
  {
    s'.frames[k] == s.frames[k].(status := Destroyed)
  }

  lemma DoomedGone(s: State, s': State, p: Id, doomed: set<Id>)
    requires FateOk(s) && Destroying(s, s', p, doomed)
    ensures forall k :: k in doomed ==> Gone(k, s'.frames[k]) == Gone(k, s.frames[k])
    ensures forall k :: k in s'.frames ==> FrameOk(k, s'.frames[k])
  {
    hide VarsAt, VarsDue, DroppedBy;
    forall k | k in doomed ensures Gone(k, s'.frames[k]) == Gone(k, s.frames[k]) && FrameOk(k, s'.frames[k]) {
      assert Doomed1(s, s', k);
      GoneSame(k, s.frames[k], s'.frames[k]);
    }
    hide Gone, FrameOk;
  }

  lemma NewFate(s: State, s': State, p: Id, doomed: set<Id>, k: Id)
    requires Destroying(s, s', p, doomed) && k in s'.frames && k !in s.frames && k.Child? && k.parent in s'.frames
    ensures !IsGone(s', k) && k !in Gone(k.parent, s'.frames[k.parent])
  {
    hide Gone, FrameOk;
    assert Brandnew(s, s'.frames[k], k, p);
    GoneOld(p, s.frames[p]);
  }

  lemma FateKept(s: State, s': State, p: Id, doomed: set<Id>)
    requires FateOk(s) && TreeOk(s) && Destroying(s, s', p, doomed)
    ensures FateOk(s')
  {
    hide Gone, FrameOk, Brandnew, IsGone;
    DoomedGone(s, s', p, doomed);
    forall k | k in s'.frames && k.Child? && k.parent in s'.frames
      ensures IsGone(s', k) <==> k in Gone(k.parent, s'.frames[k.parent])
    {
      if k in s.frames {
        assert Child(k.parent, k.birth) in s.frames;
        OldFate(s, s', p, doomed, k);
      } else {
        NewFate(s, s', p, doomed, k);
      }
    }
  }

  lemma OldFate(s: State, s': State, p: Id, doomed: set<Id>, k: Id)
    requires FateOk(s) && Destroying(s, s', p, doomed) && k in s.frames && k.Child? && k.parent in s.frames
    requires forall d :: d in doomed ==> Gone(d, s'.frames[d]) == Gone(d, s.frames[d])
    ensures k.parent in s'.frames && (IsGone(s', k) <==> k in Gone(k.parent, s'.frames[k.parent]))
  {
    hide Gone, FrameOk;
  }

  // ---- How one frame's part changes. ----

  /** A frame that has received `x`: its action destroys what it dooms. */
  lemma GoneReceives(p: Id, f: Frame, f': Frame, x: Input)
    requires f'.prog == f.prog && f'.hist == f.hist + [x] && !Ended(f) && !Ended(f')
    ensures Gone(p, f') == Gone(p, f) + Doomed(VarsAt(f.prog, p, f.hist), Next(f), |f.hist|)
  {
    assert (f.hist + [x])[..|f.hist|] == f.hist;
  }

  lemma GoneSame(p: Id, f: Frame, f': Frame)
    requires f'.prog == f.prog && f'.hist == f.hist && Ended(f') == Ended(f)
    ensures Gone(p, f') == Gone(p, f)
  {
  }

  /** A frame whose body is over. */
  lemma GoneEnds(p: Id, f: Frame, f': Frame)
    requires f'.prog == f.prog && f'.hist == f.hist && !Ended(f) && Ended(f')
    ensures Gone(p, f') == Gone(p, f) + VarsAt(f.prog, p, f.hist).Values
  {
  }

  lemma SteadySame(s: State, k: Id)
    requires FateOk(s) && k in s.frames
    ensures Steady(k, s.frames[k], s.frames[k])
  {
    hide Gone, VarsAt, VarsDue;
  }

  // ---- The actions. ----

  lemma SetsSame(before: Vars, a: Vars, b: Vars, v: nat, k: Option<Id>)
    requires Sets(before, a, v, k) && Sets(before, b, v, k)
    ensures a == b
  {
    AtSame(a, b);
  }

  lemma TransfersSame(before: Vars, a: Vars, b: Vars, to: nat, from: nat)
    requires Transfers(before, a, to, from) && Transfers(before, b, to, from)
    ensures a == b
  {
    AtSame(a, b);
  }

  lemma AtSame(a: Vars, b: Vars)
    requires forall v :: At(a, v) == At(b, v)
    ensures a == b
  {
    forall v: nat ensures (v in a <==> v in b) && (v in a ==> a[v] == b[v]) {
      assert At(a, v) == At(b, v);
    }
  }

  /** The running frame as the invariant has it. */
  lemma TopExact(s: State)
    requires FateOk(s) && FramesInv(s) && HasTop(s)
    ensures var f := s.frames[Top(s)];
            f.status.Running? && !Ended(f) && f.vars == VarsAt(f.prog, Top(s), f.hist) && TreeOk(s)
            && (Top(s).Root? ==> !f.status.Destroyed?)
  {
    hide FramesInv;
    TopFacts(s);
    RunsEmpty(s);
    TreeFact(s);
  }

  lemma TreeFact(s: State)
    requires FramesInv(s)
    ensures TreeOk(s)
  {
  }

  /** The running frame takes an action that does not end it, and goes on. */
  lemma ReceiveFate(s: State, s': State, f': Frame, x: Input, doomed: set<Id>)
    requires FateOk(s) && FramesInv(s) && HasTop(s) && Top(s) in s'.frames && s'.frames[Top(s)] == f'
    requires var f := s.frames[Top(s)];
             && f' == f.(hist := f.hist + [x], vars := f'.vars) && !Ends(Next(f))
             && f'.vars == VarsAt(f.prog, Top(s), f.hist + [x]) && doomed == Doomed(f.vars, Next(f), |f.hist|)
    requires forall k :: k in s.frames && k != Top(s) ==>
               k in s'.frames && if k in doomed then Doomed1(s, s', k) else Steady(k, s.frames[k], s'.frames[k])
    requires forall k :: k in s'.frames && k !in s.frames ==>
             Brandnew(s, s'.frames[k], k, Top(s)) && FrameOk(k, s'.frames[k])
    ensures FateOk(s')
  {
    hide FramesInv, Gone, Steady, Brandnew, VarsAt, Doomed1;
    TopExact(s);
    var id, f := Top(s), s.frames[Top(s)];
    GoneReceives(id, f, f', x);
    DoomedOwn(s, doomed);
    FateKept(s, s', id, doomed);
  }

  /** A frame dooms tasks of its own only. */
  lemma DoomedOwn(s: State, doomed: set<Id>)
    requires FramesInv(s) && HasTop(s)
    requires doomed == Doomed(s.frames[Top(s)].vars, Next(s.frames[Top(s)]), |s.frames[Top(s)].hist|)
    ensures Top(s) !in doomed && forall k :: k in doomed ==> k in s.frames && k.Child? && k.parent == Top(s)
  {
    hide FramesInv, LifeOk;
    forall k | k in doomed ensures k in s.frames && k.Child? && k.parent == Top(s) && k != Top(s) {
      var v :| v in s.frames[Top(s)].vars && s.frames[Top(s)].vars[v] == k;
      KidFacts(s, v);
    }
  }

  /** An action after which no other frame has changed. */
  lemma AloneFate(s: State, s': State, x: Input)
    requires FateOk(s) && FramesInv(s) && HasTop(s) && GoesOnWith(s, s', x) && OnlyChanged(s, s', {Top(s)})
    requires var f := s.frames[Top(s)];
             && !Ends(Next(f)) && Doomed(f.vars, Next(f), |f.hist|) == {}
             && s'.frames[Top(s)].vars == VarsAt(f.prog, Top(s), f.hist + [x])
    ensures FateOk(s')
  {
    hide FramesInv, Steady, FateOk, VarsAt, Doomed;
    forall k | k in s.frames && k != Top(s) ensures k in s'.frames && Steady(k, s.frames[k], s'.frames[k]) {
      SteadySame(s, k);
    }
    ReceiveFate(s, s', s'.frames[Top(s)], x, {});
  }

  lemma ContextFate(s: State, accept: nat)
    requires Inv(s) && FateOk(s) && Allowed(s, Act(accept)) && Next(s.frames[Top(s)]).AwaitContext?
    ensures Step(s, Act(accept)).Ok? && FateOk(Step(s, Act(accept)).state)
  {
    hide Inv, FramesInv, FateOk, Step, VarsAt, OnlyChanged;
    InvFrames(s);
    ContextEffect(s, accept);
    TopExact(s);
    var f := s.frames[Top(s)];
    OthersSet(f.prog, Top(s), f.hist, ContextIs(true));
    AloneFate(s, Step(s, Act(accept)).state, ContextIs(true));
  }

  lemma MoveConstructFate(s: State, accept: nat)
    requires Inv(s) && FateOk(s) && Allowed(s, Act(accept)) && Next(s.frames[Top(s)]).MoveConstruct?
    ensures Step(s, Act(accept)).Ok? && FateOk(Step(s, Act(accept)).state)
  {
    hide Inv, FramesInv, FateOk, Step, VarsAt, OnlyChanged, Transfers;
    InvFrames(s);
    MoveConstructEffect(s, accept);
    TopExact(s);
    var f, s' := s.frames[Top(s)], Step(s, Act(accept)).state;
    MovesTransfer(f.prog, Top(s), f.hist, Unit);
    TransfersSame(f.vars, s'.frames[Top(s)].vars, VarsAt(f.prog, Top(s), f.hist + [Unit]), |f.hist|, Next(f).from);
    AloneFate(s, s', Unit);
  }

  /** An action that destroys at most the task in one variable. */
  lemma DestroyFate(s: State, s': State, k: Option<Id>)
    requires FateOk(s) && FramesInv(s) && HasTop(s) && GoesOnWith(s, s', Unit) && Destroys(s, s', k)
    requires var f := s.frames[Top(s)];
             && !Ends(Next(f)) && Doomed(f.vars, Next(f), |f.hist|) == (if k.Some? then {k.value} else {})
             && s'.frames[Top(s)].vars == VarsAt(f.prog, Top(s), f.hist + [Unit])
    ensures FateOk(s')
  {
    hide FramesInv, Steady, FateOk, VarsAt, Doomed;
    var doomed := if k.Some? then {k.value} else {};
    forall j | j in s.frames && j != Top(s) && j !in doomed ensures j in s'.frames
      && Steady(j, s.frames[j], s'.frames[j]) {
      SteadySame(s, j);
    }
    ReceiveFate(s, s', s'.frames[Top(s)], Unit, doomed);
  }

  lemma MoveAssignFate(s: State, accept: nat)
    requires Inv(s) && FateOk(s) && Allowed(s, Act(accept)) && Next(s.frames[Top(s)]).MoveAssign?
    ensures Step(s, Act(accept)).Ok? && FateOk(Step(s, Act(accept)).state)
  {
    hide Inv, FramesInv, FateOk, Step, VarsAt, Destroys, Transfers;
    InvFrames(s);
    MoveAssignEffect(s, accept);
    TopExact(s);
    var f, a, s' := s.frames[Top(s)], Next(s.frames[Top(s)]), Step(s, Act(accept)).state;
    MovesTransfer(f.prog, Top(s), f.hist, Unit);
    if a.to == a.from {
      DestroyFate(s, s', None);
    } else {
      TransfersSame(f.vars, s'.frames[Top(s)].vars, VarsAt(f.prog, Top(s), f.hist + [Unit]), a.to, a.from);
      DestroyFate(s, s', At(f.vars, a.to));
    }
  }

  lemma DropFate(s: State, accept: nat)
    requires Inv(s) && FateOk(s) && Allowed(s, Act(accept)) && Next(s.frames[Top(s)]).Drop?
    ensures Step(s, Act(accept)).Ok? && FateOk(Step(s, Act(accept)).state)
  {
    hide Inv, FramesInv, FateOk, Step, VarsAt, Destroys, Sets;
    InvFrames(s);
    DropEffect(s, accept);
    TopExact(s);
    var f, v, s' := s.frames[Top(s)], Next(s.frames[Top(s)]).task, Step(s, Act(accept)).state;
    OthersSet(f.prog, Top(s), f.hist, Unit);
    SetsSame(f.vars, s'.frames[Top(s)].vars, VarsAt(f.prog, Top(s), f.hist + [Unit]), v, None);
    DestroyFate(s, s', At(f.vars, v));
  }

  lemma CreateFate(s: State, accept: nat)
    requires Inv(s) && FateOk(s) && Allowed(s, Act(accept)) && Next(s.frames[Top(s)]).Create?
    ensures Step(s, Act(accept)).Ok? && FateOk(Step(s, Act(accept)).state)
  {
    hide Inv, FramesInv, FateOk, Step, VarsAt, Sets, Steady;
    InvFrames(s);
    CreateEffect(s, accept);
    TopExact(s);
    var f, n, s' := s.frames[Top(s)], |s.frames[Top(s)].hist|, Step(s, Act(accept)).state;
    OthersSet(f.prog, Top(s), f.hist, Unit);
    SetsSame(f.vars, s'.frames[Top(s)].vars, VarsAt(f.prog, Top(s), f.hist + [Unit]), n, Some(Child(Top(s), n)));
    forall k | k in s.frames && k != Top(s) ensures k in s'.frames && Steady(k, s.frames[k], s'.frames[k]) {
      SteadySame(s, k);
    }
    ReceiveFate(s, s', s'.frames[Top(s)], Unit, {});
  }

  lemma NoEntryFate(s: State, accept: nat)
    requires Inv(s) && FateOk(s) && Allowed(s, Act(accept)) && Next(s.frames[Top(s)]).AwaitIo? && |s.sq| >= SQ_ENTRIES
    ensures Step(s, Act(accept)).Ok? && FateOk(Step(s, Act(accept)).state)
  {
    hide Inv, FramesInv, FateOk, Step, VarsAt, OnlyChanged, GoesOnWith;
    InvFrames(s);
    NoEntryEffect(s, accept);
    TopExact(s);
    var f, s' := s.frames[Top(s)], Step(s, Act(accept)).state;
    var r: int :| r < 0 && GoesOnWith(s, s', IoResult(r));
    OthersSet(f.prog, Top(s), f.hist, IoResult(r));
    AloneFate(s, s', IoResult(r));
  }

  /** The running frame is suspended; at most one other frame is touched. */
  lemma SuspendFate(s: State, s': State, f': Frame, kid: Id)
    requires FateOk(s) && FramesInv(s) && HasTop(s) && Top(s) in s'.frames && s'.frames[Top(s)] == f'
    requires var f := s.frames[Top(s)];
             f'.prog == f.prog && f'.hist == f.hist && !Ended(f') && f'.vars == VarsDue(Top(s), f')
               && !f'.status.Destroyed?
    requires OnlyChanged(s, s', {Top(s), kid}) && kid in s.frames && kid in s'.frames
    requires kid != Top(s) ==> Steady(kid, s.frames[kid], s'.frames[kid])
    ensures FateOk(s')
  {
    hide FramesInv, Gone, Steady, VarsDue;
    TopExact(s);
    GoneSame(Top(s), s.frames[Top(s)], f');
    forall k | k in s.frames && k != Top(s) ensures k in s'.frames && Steady(k, s.frames[k], s'.frames[k]) {
      if k != kid {
        SteadySame(s, k);
      }
    }
    hide OnlyChanged;
    assert forall k :: k in s'.frames ==> k in s.frames by { OnlyOld(s, s', {Top(s), kid}); }
    FateKept(s, s', Top(s), {});
  }

  lemma OnlyOld(s: State, s': State, some: set<Id>)
    requires OnlyChanged(s, s', some) && forall k :: k in some ==> k in s.frames
    ensures forall k :: k in s'.frames ==> k in s.frames
  {
  }

  lemma IoFate(s: State, accept: nat)
    requires Inv(s) && FateOk(s) && Allowed(s, Act(accept)) && Next(s.frames[Top(s)]).AwaitIo? && |s.sq| < SQ_ENTRIES
    ensures Step(s, Act(accept)).Ok? && FateOk(Step(s, Act(accept)).state)
  {
    hide Inv, FramesInv, FateOk, Step, VarsAt, OnlyChanged, Pending;
    InvFrames(s);
    IoEffect(s, accept);
    TopExact(s);
    var id, s' := Top(s), Step(s, Act(accept)).state;
    assert {id, id} == {id};
    SuspendFate(s, s', s'.frames[id], id);
  }

  /** A task that starts has destroyed nothing, and holds nothing. */
  lemma StartSteady(kid: Id, k: Frame, k': Frame)
    requires kid.Child? && k.hist == [] && !Ended(k) && !k.status.Destroyed?
    requires k'.prog == k.prog && k'.hist == [] && !Ended(k') && k'.status.Running? && k'.vars == map[]
    ensures Steady(kid, k, k')
  {
  }

  /** A task that is only told its caller. */
  lemma CalledSteady(s: State, kid: Id, k': Frame)
    requires FateOk(s) && kid in s.frames && k' == s.frames[kid].(caller := k'.caller, attached := k'.attached)
    ensures Steady(kid, s.frames[kid], k')
  {
    assert VarsDue(kid, k') == VarsDue(kid, s.frames[kid]);
    hide VarsDue;
    GoneSame(kid, s.frames[kid], k');
    hide Gone;
  }

  lemma LaunchFate(s: State, accept: nat)
    requires Inv(s) && FateOk(s) && Allowed(s, Act(accept))
    requires Next(s.frames[Top(s)]).Launch? || Next(s.frames[Top(s)]).LaunchDetached?
    ensures Step(s, Act(accept)).Ok? && FateOk(Step(s, Act(accept)).state)
  {
    hide Inv, FramesInv, FateOk, Step, VarsAt, Transfers, Sets, LifeOk;
    InvFrames(s);
    LaunchEffect(s, accept);
    TopExact(s);
    var f, s' := s.frames[Top(s)], Step(s, Act(accept)).state;
    var v := Next(f).task;
    var kid := f.vars[v];
    MovesTransfer(f.prog, Top(s), f.hist, Unit);
    OthersSet(f.prog, Top(s), f.hist, Unit);
    if Next(f).Launch? {
      TransfersSame(f.vars, s'.frames[Top(s)].vars, VarsAt(f.prog, Top(s), f.hist + [Unit]), |f.hist|, v);
    } else {
      SetsSame(f.vars, s'.frames[Top(s)].vars, VarsAt(f.prog, Top(s), f.hist + [Unit]), v, None);
    }
    KidFacts(s, v);
    assert s.frames[kid].status.Created?;
    CreatedWhole(kid, s.frames[kid]);
    StartSteady(kid, s.frames[kid], s'.frames[kid]);
    KidReceives(s, s', kid);
  }

  /** The running frame goes on, and one task of it is touched. */
  lemma KidReceives(s: State, s': State, kid: Id)
    requires FateOk(s) && FramesInv(s) && HasTop(s) && Top(s) in s'.frames && kid in s.frames && kid in s'.frames
    requires var f, f' := s.frames[Top(s)], s'.frames[Top(s)];
             && f' == f.(hist := f.hist + [Unit], vars := f'.vars) && !Ends(Next(f))
             && f'.vars == VarsAt(f.prog, Top(s), f.hist + [Unit]) && Doomed(f.vars, Next(f), |f.hist|) == {}
    requires OnlyChanged(s, s', {Top(s), kid}) && Steady(kid, s.frames[kid], s'.frames[kid])
    ensures FateOk(s')
  {
    hide FramesInv, Steady, FateOk, VarsAt, Doomed;
    forall k | k in s.frames && k != Top(s) ensures k in s'.frames && Steady(k, s.frames[k], s'.frames[k]) {
      if k != kid {
        SteadySame(s, k);
      }
    }
    OnlyOld(s, s', {Top(s), kid});
    ReceiveFate(s, s', s'.frames[Top(s)], Unit, {});
  }

  lemma AwaitFate(s: State, accept: nat)
    requires Inv(s) && FateOk(s) && Allowed(s, Act(accept)) && Next(s.frames[Top(s)]).AwaitTask?
    ensures Step(s, Act(accept)).Ok? && FateOk(Step(s, Act(accept)).state)
  {
    hide Inv, FramesInv, FateOk, Step, VarsAt, Sets, LifeOk, OnlyChanged;
    InvFrames(s);
    AwaitEffect(s, accept);
    TopExact(s);
    var f, s' := s.frames[Top(s)], Step(s, Act(accept)).state;
    var v := Next(f).task;
    var kid := f.vars[v];
    KidFacts(s, v);
    if s.frames[kid].status.Done? {
      var x := Awaited(OutcomeOf(Next(s.frames[kid])));
      OthersSet(f.prog, Top(s), f.hist, x);
      if Next(f).byMove {
        SetsSame(f.vars, s'.frames[Top(s)].vars, VarsAt(f.prog, Top(s), f.hist + [x]), v, None);
      }
      AloneFate(s, s', x);
    } else {
      AwaitingDue(Top(s), f, s'.frames[Top(s)]);
      if s.frames[kid].status.Created? {
        CreatedWhole(kid, s.frames[kid]);
        StartSteady(kid, s.frames[kid], s'.frames[kid]);
      } else {
        CalledSteady(s, kid, s'.frames[kid]);
      }
      SuspendFate(s, s', s'.frames[Top(s)], kid);
    }
  }

  lemma AwaitingDue(id: Id, f: Frame, f': Frame)
    requires Next(f).AwaitTask? && f.vars == VarsAt(f.prog, id, f.hist) && f'.prog == f.prog && f'.hist == f.hist
    requires f'.status.OnTask?
    requires if Next(f).byMove then Sets(f.vars, f'.vars, Next(f).task, None) else f'.vars == f.vars
    ensures f'.vars == VarsDue(id, f')
  {
    hide VarsAt;
    if Next(f).byMove {
      assert Sets(f.vars, f.vars - {Next(f).task}, Next(f).task, None);
      SetsSame(f.vars, f'.vars, f.vars - {Next(f).task}, Next(f).task, None);
    }
  }

  // ---- The end of a body. ----

  lemma EndGone(s: State, s': State, o: Outcome, status: Status)
    requires FateOk(s) && FramesInv(s) && HasTop(s) && EndsWith(s, s', o, status) && (status.Done? || status.Destroyed?)
    requires Top(s).Child? ==> !status.Destroyed?
    requires Top(s).Root? ==> (status.Destroyed? <==> !s.frames[Top(s)].daemon)
    ensures var (id, f, f') := (Top(s), s.frames[Top(s)], s'.frames[Top(s)]);
            && Gone(id, f') == Gone(id, f) + f.vars.Values && FrameOk(id, f')
            && (id.Child? ==> (f'.status.Destroyed? <==> f.status.Destroyed?))
  {
    hide FramesInv, Gone, VarsAt;
    TopExact(s);
    GoneEnds(Top(s), s.frames[Top(s)], s'.frames[Top(s)]);
  }

  /** The body of the running frame ends, and the tasks in its variables go; `p`, if it is another frame, is its
      caller. */
  lemma EndFate(s: State, s': State, o: Outcome, status: Status, p: Id)
    requires FateOk(s) && FramesInv(s) && HasTop(s) && EndsWith(s, s', o, status) && (status.Done? || status.Destroyed?)
    requires Top(s).Child? ==> !status.Destroyed?
    requires Top(s).Root? ==> (status.Destroyed? <==> !s.frames[Top(s)].daemon)
    requires OnlyChanged(s, s', {Top(s), p} + s.frames[Top(s)].vars.Values) && p in s.frames && p in s'.frames
    requires p != Top(s) ==> p !in s.frames[Top(s)].vars.Values && Steady(p, s.frames[p], s'.frames[p])
    ensures FateOk(s')
  {
    hide FramesInv, Gone, Steady, VarsAt, FrameOk;
    TopExact(s);
    TopNotHeld(s);
    var id, f := Top(s), s.frames[Top(s)];
    var locals := f.vars.Values;
    EndGone(s, s', o, status);
    LocalsOwn(s);
    forall k | k in s.frames && k != id
      ensures k in s'.frames && if k in locals then Doomed1(s, s', k) else Steady(k, s.frames[k], s'.frames[k])
    {
      if k !in locals && k != p {
        SteadySame(s, k);
      }
    }
    OnlyOld(s, s', {id, p} + locals);
    hide OnlyChanged, EndsWith;
    FateKept(s, s', id, locals);
  }

  lemma LocalsOwn(s: State)
    requires FramesInv(s) && HasTop(s)
    ensures forall k :: k in s.frames[Top(s)].vars.Values ==> k in s.frames && k.Child? && k.parent == Top(s)
  {
    hide StackOk, PhaseOk, TreeOk, LinksOk, LivesOk;
  }

  lemma EndsFate(s: State, accept: nat)
    requires Inv(s) && FateOk(s) && Allowed(s, Act(accept)) && Ends(Next(s.frames[Top(s)]))
    ensures Step(s, Act(accept)).Ok? && FateOk(Step(s, Act(accept)).state)
  {
    hide Inv, FateOk, Step;
    if s.frames[Top(s)].caller.Some? {
      EndToCallerFate(s, accept);
    } else if s.frames[Top(s)].daemon {
      EndOfDaemonFate(s, accept);
    } else {
      EndOfRootFate(s, accept);
    }
  }

  lemma EndToCallerFate(s: State, accept: nat)
    requires Inv(s) && FateOk(s) && Allowed(s, Act(accept)) && Ends(Next(s.frames[Top(s)]))
    requires s.frames[Top(s)].caller.Some?
    ensures Step(s, Act(accept)).Ok? && FateOk(Step(s, Act(accept)).state)
  {
    hide Inv, FramesInv, FateOk, EndsWith, OnlyChanged, Step, Steady;
    InvFrames(s);
    EndToCallerEffect(s, accept);
    var f, s' := s.frames[Top(s)], Step(s, Act(accept)).state;
    CallerFate(s, s'.frames[f.caller.value], OutcomeOf(Next(f)));
    EndFate(s, s', OutcomeOf(Next(f)), Done, f.caller.value);
  }

  lemma EndOfDaemonFate(s: State, accept: nat)
    requires Inv(s) && FateOk(s) && Allowed(s, Act(accept)) && Ends(Next(s.frames[Top(s)]))
    requires s.frames[Top(s)].caller.None? && s.frames[Top(s)].daemon
    ensures Step(s, Act(accept)).Ok? && FateOk(Step(s, Act(accept)).state)
  {
    hide Inv, FramesInv, FateOk, OnlyChanged, Step, Steady;
    InvFrames(s);
    EndOfDaemonEffect(s, accept);
    var id := Top(s);
    assert {id, id} + s.frames[id].vars.Values == {id} + s.frames[id].vars.Values;
    EndFate(s, Step(s, Act(accept)).state, OutcomeOf(Next(s.frames[id])), Done, id);
  }

  lemma EndOfRootFate(s: State, accept: nat)
    requires Inv(s) && FateOk(s) && Allowed(s, Act(accept)) && Ends(Next(s.frames[Top(s)]))
    requires s.frames[Top(s)].caller.None? && !s.frames[Top(s)].daemon
    ensures Step(s, Act(accept)).Ok? && FateOk(Step(s, Act(accept)).state)
  {
    hide Inv, FramesInv, FateOk, OnlyChanged, Step, Steady, Pending;
    InvFrames(s);
    EndOfRootEffect(s, accept);
    OnlyRootsEnd(s);
    var id := Top(s);
    assert {id, id} + s.frames[id].vars.Values == {id} + s.frames[id].vars.Values;
    EndFate(s, Step(s, Act(accept)).state, OutcomeOf(Next(s.frames[id])), Destroyed, id);
  }

  lemma OnlyRootsEnd(s: State)
    requires FramesInv(s) && HasTop(s) && s.frames[Top(s)].caller.None? && !s.frames[Top(s)].daemon
    ensures Top(s).Root?
  {
    hide FramesInv, VarsOk;
    TopFacts(s);
    RootIsRoot(s);
  }

  /** The caller goes on with the outcome, and has destroyed nothing by it. */
  lemma CallerFate(s: State, p': Frame, o: Outcome)
    requires FateOk(s) && FramesInv(s) && HasTop(s) && s.frames[Top(s)].caller.Some?
    requires s.frames[Top(s)].caller.value in s.frames
    requires var g := s.frames[s.frames[Top(s)].caller.value];
             p' == g.(hist := g.hist + [Awaited(o)], status := Running)
    ensures var p := s.frames[Top(s)].caller.value;
            Top(s).Child? && p != Top(s) && p !in s.frames[Top(s)].vars.Values && Steady(p, s.frames[p], p')
  {
    hide FramesInv, LifeOk, VarsAt;
    CallerFacts(s);
    var p := s.frames[Top(s)].caller.value;
    var g := s.frames[p];
    ActiveEmpty(p, g, IsRoot(s, p));
    GoneReceives(p, g, p', Awaited(o));
    VarsSnoc(g.prog, p, g.hist, Awaited(o));
    LocalsOwn(s);
    if p in s.frames[Top(s)].vars.Values {
      NoCycle(Top(s), p);
    }
  }

  // ---- Every step. ----

  lemma DispatchFate(s: State)
    requires FramesInv(s) && Histories(s) && FateOk(s) && Enabled(s, WaitOk) && Dispatch(s).Ok?
    ensures FateOk(Dispatch(s).state)
  {
    hide FramesInv, RingOk, HistOk, LogOk, SeenOk, FateOk;
    HeadDue(s);
    if s.cq[0].user.Awaiter? {
      AwaiterTaken(s);
      hide Dispatch;
      TakenFate(s, Dispatch(s).state, s.cq[0].user.op.id, s.cq[0].res);
    } else {
      SameFate(s, Dispatch(s).state);
    }
  }

  /** A frame receives the result of its operation. */
  lemma TakenFate(s: State, s': State, id: Id, res: int)
    requires FateOk(s) && FramesInv(s) && id in s.frames && s.frames[id].status.OnIo? && Next(s.frames[id]).AwaitIo?
    requires s'.frames == s.frames[id := Receive(s.frames[id], IoResult(res)).(status := Running, io := None)]
    ensures FateOk(s')
  {
    hide FramesInv, LifeOk, Steady, Gone, FateOk;
    var f, f' := s.frames[id], s'.frames[id];
    LifeFact(s, id);
    ActiveEmpty(id, f, IsRoot(s, id));
    GoneReceives(id, f, f', IoResult(res));
    TreeFact(s);
    forall k | k in s.frames && k != id ensures Steady(k, s.frames[k], s'.frames[k]) {
      SteadySame(s, k);
    }
    IoFrameOk(s, id, f', res);
    hide FrameOk, VarsAt;
    FateKept(s, s', id, {});
  }

  lemma IoFrameOk(s: State, id: Id, f': Frame, res: int)
    requires FateOk(s) && id in s.frames && s.frames[id].status.OnIo? && Next(s.frames[id]).AwaitIo?
    requires f' == Receive(s.frames[id], IoResult(res)).(status := Running, io := None)
    requires !Ended(s.frames[id])
    ensures FrameOk(id, f')
  {
    VarsSnoc(f'.prog, id, s.frames[id].hist, IoResult(res));
    hide VarsAt;
    assert FrameOk(id, s.frames[id]);
  }

  lemma StartFate(s: State, s': State, r: Id)
    requires FateOk(s) && TreeOk(s) && r.Root? && r !in s.frames && r in s'.frames
    requires s'.frames == s.frames[r := s'.frames[r]]
    requires var f := s'.frames[r]; f.status.Running? && f.hist == [] && f.vars == map[] && !Ended(f)
    ensures FateOk(s')
  {
    hide Gone;
    forall k | k in s'.frames && k.Child? && k.parent in s'.frames
      ensures IsGone(s', k) <==> k in Gone(k.parent, s'.frames[k.parent])
    {
      assert Child(k.parent, k.birth) in s.frames;
    }
  }

  lemma ActFate(s: State, accept: nat)
    requires Inv(s) && FateOk(s) && Allowed(s, Act(accept))
    ensures Step(s, Act(accept)).Ok? && FateOk(Step(s, Act(accept)).state)
  {
    hide Inv, FateOk, Step;
    match Next(s.frames[Top(s)])
    case AwaitContext => ContextFate(s, accept);
    case Create(_) => CreateFate(s, accept);
    case MoveConstruct(_) => MoveConstructFate(s, accept);
    case MoveAssign(_, _) => MoveAssignFate(s, accept);
    case Drop(_) => DropFate(s, accept);
    case AwaitIo =>
      if |s.sq| >= SQ_ENTRIES {
        NoEntryFate(s, accept);
      } else {
        IoFate(s, accept);
      }
    case Launch(_) => LaunchFate(s, accept);
    case LaunchDetached(_) => LaunchFate(s, accept);
    case AwaitTask(_, _) => AwaitFate(s, accept);
    case CoReturn(_) => EndsFate(s, accept);
    case CoThrow(_) => EndsFate(s, accept);
  }

  lemma StepFate(s: State, c: Choice)
    requires Inv(s) && FateOk(s) && Allowed(s, c)
    ensures Step(s, c).Ok? && Inv(Step(s, c).state) && FateOk(Step(s, c).state)
  {
    hide Inv, FramesInv, Histories, FateOk, TreeOk, Advance, Dispatch;
    StepKeeps(s, c);
    InvFrames(s);
    TreeFact(s);
    match c
    case Act(accept) => ActFate(s, accept);
    case WaitOk => DispatchFate(s);
    case StartRun(prog) =>
      FreshRoot(s);
      StartFate(s, BlockRun(s, prog), Root(s.roots));
    case StartDetached(prog) =>
      FreshRoot(s);
      StartFate(s, MainDetach(s, prog), Root(s.roots));
    case _ => SameFate(s, Step(s, c).state);
  }

  lemma SameFate(s: State, s': State)
    requires FateOk(s) && s'.frames == s.frames
    ensures FateOk(s')
  {
    hide Gone, FrameOk;
    assert forall k :: IsGone(s', k) <==> IsGone(s, k);
  }

  lemma {:induction false} ExecFate(s: State, cs: seq<Choice>)
    requires Inv(s) && FateOk(s)
    ensures Exec(s, cs).Ok? && FateOk(Exec(s, cs).state)
    decreases |cs|
  {
    hide Inv, FateOk, Allowed, Step;
    if cs != [] {
      if Allowed(s, cs[0]) {
        AllowedEnabled(s, cs[0]);
        StepFate(s, cs[0]);
        ExecFate(Step(s, cs[0]).state, cs[1..]);
      } else {
        ExecFate(s, cs[1..]);
      }
    }
  }

  /** In every reachable state a task is destroyed if and only if its creator destroyed the variable that held it or
      assigned over it, or its body is over and it was still in one of its variables; a task that was
      detached or moved into an await never is. The root of a run is destroyed if and only if its body is over, and
      a task that the main thread detached never is. */
  lemma DestroyedExactly(cs: seq<Choice>, s: State)
    requires Reached(s, cs)
    ensures forall p, b: nat {:trigger Child(p, b)} :: Child(p, b) in s.frames ==>
              p in s.frames && (IsGone(s, Child(p, b)) <==> Child(p, b) in Gone(p, s.frames[p]))
    ensures forall p, k :: p in s.frames && k in GivenBy(s.frames[p].prog, p, s.frames[p].hist) ==> !IsGone(s, k)
    ensures forall k :: k in s.frames && k.Root? ==> (IsGone(s, k) <==> Ended(s.frames[k]) && !s.frames[k].daemon)
    ensures forall p :: p in s.frames && Active(s.frames[p]) && !s.frames[p].status.OnTask? ==>
              s.frames[p].vars == VarsAt(s.frames[p].prog, p, s.frames[p].hist)
  {
    hide Inv, FramesInv, TreeOk, FrameOk;
    InitialInv();
    assert FateOk(INITIAL);
    ExecFate(INITIAL, cs);
    RunsNeverFault(cs);
    InvFrames(s);
    TreeFact(s);
    forall p, b: nat {:trigger Child(p, b)} | Child(p, b) in s.frames
      ensures p in s.frames && (IsGone(s, Child(p, b)) <==> Child(p, b) in Gone(p, s.frames[p]))
    {
      ParentIn(s, p, b);
    }
    forall p, k | p in s.frames && k in GivenBy(s.frames[p].prog, p, s.frames[p].hist) ensures !IsGone(s, k) {
      GivenNotGone(s, p, k);
    }
    forall p | p in s.frames ensures FrameOk(p, s.frames[p]) {
    }
    FramesSay(s);
  }

  lemma ParentIn(s: State, p: Id, b: nat)
    requires TreeOk(s) && Child(p, b) in s.frames
    ensures p in s.frames
  {
  }

  lemma GivenNotGone(s: State, p: Id, k: Id)
    requires FateOk(s) && p in s.frames && k in GivenBy(s.frames[p].prog, p, s.frames[p].hist)
    ensures !IsGone(s, k)
  {
    var f := s.frames[p];
    EachFrameAccounted(f.prog, p, f.hist);
    CreatedBefore(f.prog, p, f.hist);
    hide VarsAt, DroppedBy, GivenBy, CreatedBy, FrameOk, Injective;
  }

  lemma FramesSay(s: State)
    requires forall p :: p in s.frames ==> FrameOk(p, s.frames[p])
    ensures forall k :: k in s.frames && k.Root? ==> (IsGone(s, k) <==> Ended(s.frames[k]) && !s.frames[k].daemon)
    ensures forall p :: p in s.frames && Active(s.frames[p]) && !s.frames[p].status.OnTask? ==>
              s.frames[p].vars == VarsAt(s.frames[p].prog, p, s.frames[p].hist)
  {
    hide VarsAt;
  }
}
