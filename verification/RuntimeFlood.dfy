/**
  A run that does fault. Failing submits fill the submission queue; when the root then ends,
  `finish` gets no entry and writes through a null pointer.
 */
module RuntimeFlood {
  import opened Programs
  import opened Runtime
  import opened RuntimeInvariant
  import opened RuntimeHistory
  import opened RuntimeTheorems

  function Idler(): Program {
    h => AwaitIo
  }

  /** Launches one waiting task after another, then returns. */
  function Flooder(): Program {
    h => if |h| >= 2 * SQ_ENTRIES then CoReturn(0) else if |h| % 2 == 0 then Create(Idler())
      else LaunchDetached(|h| - 1)
  }

  /** The root has launched `k` tasks and none of their operations was accepted. */
  ghost predicate Flooded(s: State, k: nat) {
    && Inv(s) && s.stack == [Root(0)] && Root(0) in s.frames && |s.sq| == k
    && var f := s.frames[Root(0)];
       f.prog == Flooder() && |f.hist| == 2 * k && f.vars == map[] && f.caller.None? && !f.daemon
  }

  lemma CreateRound(s: State, k: nat)
    requires Flooded(s, k) && k < SQ_ENTRIES
    ensures Allowed(s, Act(0)) && Step(s, Act(0)).Ok?
    ensures var s1, r := Step(s, Act(0)).state, Root(0);
            && Inv(s1) && s1.stack == [r] && r in s1.frames && |s1.sq| == k && Child(r, 2 * k) in s1.frames
            && s1.frames[Child(r, 2 * k)] == Fresh(Idler())
            && var f := s1.frames[r];
               f.prog == Flooder() && |f.hist| == 2 * k + 1 && f.vars == map[2 * k := Child(Root(0), 2 * k)]
                 && f.caller.None? && !f.daemon
  {
    hide Inv;
    assert Next(s.frames[Root(0)]) == Create(Idler());
    StepKeeps(s, Act(0));
  }

  lemma LaunchRound(s: State, k: nat)
    requires Inv(s) && s.stack == [Root(0)] && Root(0) in s.frames && |s.sq| == k && k < SQ_ENTRIES
    requires Child(Root(0), 2 * k) in s.frames
    requires s.frames[Child(Root(0), 2 * k)] == Fresh(Idler())
    requires var f := s.frames[Root(0)];
             f.prog == Flooder() && |f.hist| == 2 * k + 1 && f.vars == map[2 * k := Child(Root(0), 2 * k)]
               && f.caller.None? && !f.daemon
    ensures Allowed(s, Act(0)) && Step(s, Act(0)).Ok?
    ensures var s1, r, c := Step(s, Act(0)).state, Root(0), Child(Root(0), 2 * k);
            && Inv(s1) && s1.stack == [r, c] && r in s1.frames && |s1.sq| == k && c in s1.frames
            && s1.frames[c].prog == Idler()
            && var f := s1.frames[r];
               f.prog == Flooder() && |f.hist| == 2 * (k + 1) && f.vars == map[] && f.caller.None? && !f.daemon
  {
    hide Inv;
    assert Next(s.frames[Root(0)]) == LaunchDetached(2 * k);
    StepKeeps(s, Act(0));
  }

  lemma WaitRound(s: State, k: nat)
    requires Inv(s) && s.stack == [Root(0), Child(Root(0), 2 * k)] && Root(0) in s.frames && |s.sq| == k
    requires k < SQ_ENTRIES
    requires Child(Root(0), 2 * k) in s.frames && s.frames[Child(Root(0), 2 * k)].prog == Idler()
    requires var f := s.frames[Root(0)];
             f.prog == Flooder() && |f.hist| == 2 * (k + 1) && f.vars == map[] && f.caller.None? && !f.daemon
    ensures Allowed(s, Act(0)) && Step(s, Act(0)).Ok? && Flooded(Step(s, Act(0)).state, k + 1)
  {
    hide Inv;
    assert Next(s.frames[Child(Root(0), 2 * k)]) == AwaitIo;
    StepKeeps(s, Act(0));
  }

  function Fails(n: nat): seq<Choice> {
    seq(n, _ => Act(0))
  }

  lemma ExecOne(s: State, n: nat)
    requires Allowed(s, Act(0)) && Step(s, Act(0)).Ok?
    ensures Exec(s, Fails(n + 1)) == Exec(Step(s, Act(0)).state, Fails(n))
  {
    hide Allowed, Step;
    assert Fails(n + 1)[1..] == Fails(n);
  }

  lemma OneRound(s: State, k: nat, n: nat) returns (s': State)
    requires Flooded(s, k) && k < SQ_ENTRIES
    ensures Flooded(s', k + 1) && Exec(s, Fails(n + 3)) == Exec(s', Fails(n))
  {
    CreateRound(s, k);
    var s1 := Step(s, Act(0)).state;
    LaunchRound(s1, k);
    var s2 := Step(s1, Act(0)).state;
    WaitRound(s2, k);
    s' := Step(s2, Act(0)).state;
    hide Step, Allowed, Fails, Flooded, Inv, Flooder, Idler, Exec;
    ExecOne(s2, n);
    ExecOne(s1, n + 1);
    ExecOne(s, n + 2);
  }

  lemma {:induction false} FloodsOn(s: State, k: nat) returns (s': State)
    requires Flooded(s, k) && k <= SQ_ENTRIES
    ensures Exec(s, Fails(3 * (SQ_ENTRIES - k))) == Ok(s') && Flooded(s', SQ_ENTRIES)
    decreases SQ_ENTRIES - k
  {
    hide Flooded;
    if k == SQ_ENTRIES {
      s' := s;
    } else {
      var s1 := OneRound(s, k, 3 * (SQ_ENTRIES - (k + 1)));
      s' := FloodsOn(s1, k + 1);
    }
  }

  lemma FloodStarts()
    ensures Allowed(INITIAL, StartRun(Flooder()))
    ensures Step(INITIAL, StartRun(Flooder())) == Ok(BlockRun(INITIAL, Flooder()))
    ensures Flooded(BlockRun(INITIAL, Flooder()), 0)
  {
    hide Inv;
    InitialInv();
    StepKeeps(INITIAL, StartRun(Flooder()));
  }

  lemma FloodEnds(s: State)
    requires Flooded(s, SQ_ENTRIES)
    ensures Inv(s) && Enabled(s, Act(0)) && Disciplined(s, Act(0)) && NoEntryForMarker(s, Act(0))
  {
    hide Inv;
    assert Next(s.frames[Root(0)]) == CoReturn(0);
  }

  /** There is a run after which a disciplined step faults. */
  lemma SomeRunFaults() returns (cs: seq<Choice>, s: State)
    ensures Reached(s, cs) && Enabled(s, Act(0)) && Disciplined(s, Act(0)) && Step(s, Act(0)) == Fault(NullSqe)
  {
    hide Inv, Fails, Flooded, Step, Disciplined, NoEntryForMarker;
    var s0 := BlockRun(INITIAL, Flooder());
    FloodStarts();
    cs := [StartRun(Flooder())] + Fails(3 * SQ_ENTRIES);
    s := FloodsOn(s0, 0);
    assert cs[1..] == Fails(3 * SQ_ENTRIES);
    FloodEnds(s);
    FaultsOnlyWithoutEntry(s, Act(0));
  }
}
