/**
  `ssl_stream::handshake` as a machine over its suspension points, and two such machines connected by
  byte channels that take and give as little as they like.
 */
module HandshakePeers {
  import opened Records
  import opened TlsEngine

  const CHUNK: nat := 4096

  datatype Result = Success | EngineFailure | ReadEof | RawFailure(code: int)

  /** Where a handshake stands: about to call `perform`, awaiting raw input, sending a chunk it took
      from the engine, or over. */
  datatype Pc = Performing | Receiving | Sending(chunk: seq<byte>, sent: nat) | Over(result: Result)

  datatype Peer = Peer(e: Engine, pc: Pc)

  /** What happens at each point: `perform`, or the result of a raw operation. */
  datatype Event = Perform | RawSent(n: int) | RawReceived(n: int, data: seq<byte>)

  function Min(a: nat, b: nat): nat {
    if a < b then a else b
  }

  /** The switch on the status of `perform`. */
  function OnPerform(p: Peer): Peer {
    var (ret, e) := Negotiate(p.e);
    match PerformStatus(ret, e)
    case Ok => Peer(e, Over(Success))
    case WantRead => Peer(e, Receiving)
    case WantWrite =>
      var n := Min(CHUNK, |e.writeBio|);
      Peer(Drain(e, n), Sending(e.writeBio[..n], 0))
    case _ => Peer(e, Over(EngineFailure))
  }

  function OnSent(p: Peer, n: int): Peer
    requires p.pc.Sending?
  {
    if n < 0 then p.(pc := Over(RawFailure(n)))
    else if p.pc.sent + n < |p.pc.chunk| then p.(pc := Sending(p.pc.chunk, p.pc.sent + n))
    else p.(pc := Performing)
  }

  function OnReceived(p: Peer, n: int, data: seq<byte>): Peer
    requires p.pc.Receiving?
  {
    if n == 0 then p.(pc := Over(ReadEof))
    else if n < 0 then p.(pc := Over(RawFailure(n)))
    else Peer(Feed(p.e, data), Performing)
  }

  predicate Possible(p: Peer, ev: Event) {
    match ev
    case Perform => p.pc.Performing?
    case RawSent(n) => p.pc.Sending? && n <= |p.pc.chunk| - p.pc.sent
    case RawReceived(n, data) => p.pc.Receiving? && n <= CHUNK && |data| == if n > 0 then n else 0
  }

  function Follow(p: Peer, ev: Event): Peer
    requires Possible(p, ev)
  {
    match ev
    case Perform => OnPerform(p)
    case RawSent(n) => OnSent(p, n)
    case RawReceived(n, data) => OnReceived(p, n, data)
  }

  /** A run of the machine. */
  predicate Traced(p: Peer, evs: seq<Event>)
    decreases |evs|
  {
    evs == [] || (Possible(p, evs[0]) && Traced(Follow(p, evs[0]), evs[1..]))
  }

  function FollowAll(p: Peer, evs: seq<Event>): Peer
    requires Traced(p, evs)
    decreases |evs|
  {
    if evs == [] then p else FollowAll(Follow(p, evs[0]), evs[1..])
  }

  lemma {:induction false} TraceSnoc(p: Peer, evs: seq<Event>, ev: Event)
    requires Traced(p, evs) && Possible(FollowAll(p, evs), ev)
    ensures Traced(p, evs + [ev]) && FollowAll(p, evs + [ev]) == Follow(FollowAll(p, evs), ev)
    decreases |evs|
  {
    hide Possible, Follow;
    if evs == [] {
      assert evs + [ev] == [ev] && [ev][1..] == [];
      assert Traced(Follow(p, ev), []);
      assert FollowAll(Follow(p, ev), []) == Follow(p, ev);
    } else {
      assert (evs + [ev])[1..] == evs[1..] + [ev];
      TraceSnoc(Follow(p, evs[0]), evs[1..], ev);
    }
  }

  // ---- What a result says about the run. ----

  /** After this event the handshake goes on, unless it was the last `perform`. */
  predicate Clean(ev: Event) {
    match ev
    case Perform => true
    case RawSent(n) => n >= 0
    case RawReceived(n, _) => n > 0
  }

  predicate FailedWith(ev: Event, code: int) {
    code < 0 && match ev
                case Perform => false
                case RawSent(n) => n == code
                case RawReceived(n, _) => n == code
  }

  /** The result tells how the run ended: on the end of the input, on the raw failure it names, or on the
      answer of the engine. */
  ghost predicate EndsAs(result: Result, trace: seq<Event>) {
    && trace != []
    && (forall i :: 0 <= i < |trace| - 1 ==> Clean(trace[i]))
    && var last := trace[|trace| - 1];
       && (result == ReadEof <==> last.RawReceived? && last.n == 0)
       && (forall code :: result == RawFailure(code) <==> FailedWith(last, code))
       && (result.Success? || result.EngineFailure? <==> last.Perform?)
  }

  /** A run that is over ended as its result says, and until then nothing failed. */
  lemma {:induction false} TraceEnds(p: Peer, evs: seq<Event>)
    requires Traced(p, evs) && !p.pc.Over?
    ensures var pc := FollowAll(p, evs).pc;
            if pc.Over? then EndsAs(pc.result, evs) else forall ev <- evs :: Clean(ev)
    decreases |evs|
  {
    if evs != [] {
      var p1 := Follow(p, evs[0]);
      EventEnds(p, evs[0]);
      hide Follow, EndsAs, Clean;
      if p1.pc.Over? {
        assert evs[1..] == [];
        assert evs == [evs[0]];
      } else {
        TraceEnds(p1, evs[1..]);
        EndsLater(evs);
      }
    }
  }

  lemma EventEnds(p: Peer, ev: Event)
    requires Possible(p, ev) && !p.pc.Over?
    ensures var pc := Follow(p, ev).pc; if pc.Over? then EndsAs(pc.result, [ev]) else Clean(ev)
  {
    hide Negotiate, PerformStatus;
  }

  lemma EndsLater(evs: seq<Event>)
    requires evs != [] && Clean(evs[0])
    ensures forall result :: EndsAs(result, evs[1..]) ==> EndsAs(result, evs)
    ensures (forall ev <- evs[1..] :: Clean(ev)) ==> forall ev <- evs :: Clean(ev)
  {
    hide Clean, FailedWith;
    assert evs == [evs[0]] + evs[1..];
  }

  // ---- Two peers. ----

  /** Two peers and the bytes in flight between them. */
  datatype System = System(client: Peer, server: Peer, toServer: seq<byte>, toClient: seq<byte>)

  /** One peer, with the channel it reads and the channel it writes. */
  datatype Side = Side(peer: Peer, inbox: seq<byte>, outbox: seq<byte>)

  function SideOf(s: System, client: bool): Side {
    if client then Side(s.client, s.toClient, s.toServer) else Side(s.server, s.toServer, s.toClient)
  }

  function WithSide(s: System, client: bool, x: Side): System {
    if client then System(x.peer, s.server, x.outbox, x.inbox) else System(s.client, x.peer, x.inbox, x.outbox)
  }

  /** A move of one peer; `k` is how many bytes the channel takes or gives. */
  datatype Move = Move(client: bool, k: nat)

  /** A raw send takes at least one byte; a raw receive waits until there is one. */
  predicate CanMove(x: Side, k: nat) {
    match x.peer.pc
    case Performing => true
    case Sending(chunk, sent) => sent < |chunk| && 1 <= k <= |chunk| - sent
    case Receiving => 1 <= k <= CHUNK && k <= |x.inbox|
    case Over(_) => false
  }

  function MoveSide(x: Side, k: nat): Side
    requires CanMove(x, k)
  {
    match x.peer.pc
    case Performing => x.(peer := Follow(x.peer, Perform))
    case Sending(chunk, sent) => x.(peer := Follow(x.peer, RawSent(k)), outbox := x.outbox + chunk[sent..sent + k])
    case Receiving => x.(peer := Follow(x.peer, RawReceived(k, x.inbox[..k])), inbox := x.inbox[k..])
  }

  predicate Enabled(s: System, m: Move) {
    CanMove(SideOf(s, m.client), m.k)
  }

  function Step(s: System, m: Move): System
    requires Enabled(s, m)
  {
    WithSide(s, m.client, MoveSide(SideOf(s, m.client), m.k))
  }

  function NewPeer(script: seq<Flight>, client: bool): Peer {
    Peer(Engine(script, client, 0, false, NoError, [], false, [], [], [], []), Performing)
  }

  function Start(script: seq<Flight>): System {
    System(NewPeer(script, true), NewPeer(script, false), [], [])
  }

  // ---- The invariant. ----

  function Unsent(p: Peer): seq<byte> {
    if p.pc.Sending? && p.pc.sent <= |p.pc.chunk| then p.pc.chunk[p.pc.sent..] else []
  }

  /** What a peer knows of itself: it follows the script, and its point agrees with its engine. */
  predicate PeerOk(p: Peer, script: seq<Flight>, client: bool) {
    && p.e.script == script && p.e.isClient == client && !p.e.dead && OnScript(p.e)
    && (p.pc.Sending? ==> p.pc.sent < |p.pc.chunk| && |p.pc.chunk| <= |p.e.drained|)
    && (p.pc.Receiving? ==> p.e.writeBio == [] && Starved(p.e))
    && (p.pc.Over? ==> p.pc.result.Success? && p.e.at == |script| && p.e.writeBio == [])
  }

  /** Nothing is lost from `a` to `b`: what `b` was fed, what is in the channel, and what `a` still
      holds is what `a` emitted. */
  predicate Carried(a: Peer, channel: seq<byte>, b: Peer) {
    Fed(b.e) + channel + Unsent(a) + a.e.writeBio == Emitted(a.e)
  }

  predicate SystemOk(s: System, script: seq<Flight>) {
    && PeerOk(s.client, script, true) && PeerOk(s.server, script, false)
    && Carried(s.client, s.toServer, s.server) && Carried(s.server, s.toClient, s.client)
  }

  lemma CancelPrefix(a: seq<byte>, b: seq<byte>, c: seq<byte>)
    requires a + b <= a + c
    ensures b <= c
  {
    forall i | 0 <= i < |b| ensures b[i] == c[i] {
      assert (a + b)[|a| + i] == (a + c)[|a| + i];
    }
  }

  /** What a peer was fed is a prefix of what the other may ever send it, so its next flight cannot be
      wrong. */
  lemma NeverMismatched(e: Engine, other: Engine, rest: seq<byte>)
    requires other.script == e.script && other.isClient == !e.isClient && OnScript(other)
    requires e.at <= |e.script| && e.taken == Flights(e.script, !e.isClient, e.at) && Fed(e) + rest == Emitted(other)
    ensures !Mismatched(e)
  {
    if e.at < |e.script| && !Mine(e) {
      var flight := e.script[e.at].bytes;
      var all := Flights(e.script, !e.isClient, e.at + 1);
      assert all == e.taken + flight;
      if e.at < other.at {
        FlightsGrow(e.script, !e.isClient, e.at + 1, other.at);
        assert Fed(e) + rest == e.taken + (e.readBio + rest);
        CancelPrefix(e.taken, flight, e.readBio + rest);
        if |flight| <= |e.readBio| {
          assert (e.readBio + rest)[..|flight|] == e.readBio[..|flight|];
        }
      } else {
        FlightsGrow(e.script, !e.isClient, other.at, e.at);
        assert |e.readBio| == 0;
      }
    }
  }

  /** Nor can a peer that has been fed everything lack a flight the other has already emitted. */
  lemma NotStarvedBehind(e: Engine, other: Engine)
    requires other.script == e.script && other.isClient == !e.isClient && OnScript(e) && OnScript(other)
    requires Fed(e) == Emitted(other) && e.at < other.at
    ensures !Starved(e)
  {
    if e.at < |e.script| && !Mine(e) {
      FlightsGrow(e.script, !e.isClient, e.at + 1, other.at);
    }
  }

  lemma PerformSafe(a: Peer, b: Peer, back: seq<byte>, script: seq<Flight>, client: bool)
    requires PeerOk(a, script, client) && PeerOk(b, script, !client) && a.pc.Performing? && Carried(b, back, a)
    ensures var e := Negotiate(a.e).1; NegotiateDoes(a.e) && !e.dead && OnScript(e)
  {
    var e := Negotiate(a.e).1;
    NegotiateKeeps(a.e);
    NegotiateOnScript(a.e);
    hide Negotiate;
    if e.dead {
      var rest := back + Unsent(b) + b.e.writeBio;
      assert Fed(e) + rest == Fed(e) + back + Unsent(b) + b.e.writeBio;
      NeverMismatched(e, b.e, rest);
    }
  }

  lemma PerformKeeps(a: Peer, channel: seq<byte>, b: Peer, back: seq<byte>, script: seq<Flight>, client: bool)
    requires PeerOk(a, script, client) && PeerOk(b, script, !client) && a.pc.Performing?
    requires Carried(a, channel, b) && Carried(b, back, a)
    ensures var a' := OnPerform(a); PeerOk(a', script, client) && Carried(a', channel, b) && Carried(b, back, a')
  {
    PerformSafe(a, b, back, script, client);
    hide Negotiate, OnScript;
    var e := Negotiate(a.e).1;
    var n := Min(CHUNK, |e.writeBio|);
    DrainKeeps(e, n);
    GrownOutput(a.e, e);
    hide Emitted;
    PerformCarries(a, channel, b);
  }

  lemma PerformCarries(a: Peer, channel: seq<byte>, b: Peer)
    requires NegotiateDoes(a.e) && !Negotiate(a.e).1.dead && a.pc.Performing? && Carried(a, channel, b)
    ensures Carried(OnPerform(a), channel, b)
  {
    hide Negotiate;
    var e := Negotiate(a.e).1;
    var n := Min(CHUNK, |e.writeBio|);
    DrainKeeps(e, n);
    GrownOutput(a.e, e);
    hide Emitted;
    assert (Fed(b.e) + channel) + [] == Fed(b.e) + channel;
    assert (Fed(b.e) + channel) + a.e.writeBio == Emitted(a.e);
  }

  /** The output behind what was pending does not disturb what was drained. */
  lemma GrownOutput(e: Engine, e': Engine)
    requires e'.drained == e.drained && e.writeBio <= e'.writeBio
    ensures forall x :: x + e.writeBio == Emitted(e) ==> x + e'.writeBio == Emitted(e')
  {
    forall x | x + e.writeBio == Emitted(e) ensures x + e'.writeBio == Emitted(e') {
      assert |x| == |e.drained|;
      assert x == (x + e.writeBio)[..|x|] == (e.drained + e.writeBio)[..|x|] == e.drained;
    }
  }

  lemma DrainKeeps(e: Engine, n: nat)
    requires n <= |e.writeBio|
    ensures Emitted(Drain(e, n)) == Emitted(e) && (OnScript(e) ==> OnScript(Drain(e, n)))
    ensures forall x: seq<byte> :: x + e.writeBio[..n] + Drain(e, n).writeBio == x + e.writeBio
  {
    assert e.writeBio == e.writeBio[..n] + e.writeBio[n..];
    assert Emitted(Drain(e, n)) == e.drained + (e.writeBio[..n] + e.writeBio[n..]);
    forall x: seq<byte> ensures x + e.writeBio[..n] + e.writeBio[n..] == x + e.writeBio {
      assert x + e.writeBio[..n] + e.writeBio[n..] == x + (e.writeBio[..n] + e.writeBio[n..]);
    }
  }

  lemma SendKeeps(a: Peer, channel: seq<byte>, b: Peer, k: nat, script: seq<Flight>, client: bool)
    requires PeerOk(a, script, client) && a.pc.Sending? && 1 <= k <= |a.pc.chunk| - a.pc.sent && Carried(a, channel, b)
    ensures PeerOk(OnSent(a, k), script, client)
    ensures Carried(OnSent(a, k), channel + a.pc.chunk[a.pc.sent..a.pc.sent + k], b)
  {
    hide OnScript, PeerOk, Carried;
    SendPeer(a, k, script, client);
    SendCarries(a, channel, b, k);
  }

  lemma SendPeer(a: Peer, k: nat, script: seq<Flight>, client: bool)
    requires PeerOk(a, script, client) && a.pc.Sending? && 1 <= k <= |a.pc.chunk| - a.pc.sent
    ensures PeerOk(OnSent(a, k), script, client)
  {
    hide OnScript;
  }

  lemma SendCarries(a: Peer, channel: seq<byte>, b: Peer, k: nat)
    requires a.pc.Sending? && 1 <= k <= |a.pc.chunk| - a.pc.sent && Carried(a, channel, b)
    ensures Carried(OnSent(a, k), channel + a.pc.chunk[a.pc.sent..a.pc.sent + k], b)
  {
    var (chunk, sent) := (a.pc.chunk, a.pc.sent);
    var moved, rest := chunk[sent..sent + k], chunk[sent + k..];
    assert Unsent(a) == moved + rest && Unsent(OnSent(a, k)) == rest;
    hide Fed, Emitted, Unsent;
    Regroup(Fed(b.e) + channel, moved, rest);
    Regroup(Fed(b.e), channel, moved);
  }

  lemma ReceiveKeeps(a: Peer, inbox: seq<byte>, b: Peer, k: nat, script: seq<Flight>, client: bool)
    requires PeerOk(a, script, client) && a.pc.Receiving? && 1 <= k <= |inbox| && Carried(b, inbox, a)
    ensures PeerOk(OnReceived(a, k, inbox[..k]), script, client)
    ensures Carried(b, inbox[k..], OnReceived(a, k, inbox[..k]))
    ensures forall channel: seq<byte> :: Carried(a, channel, b) ==> Carried(OnReceived(a, k, inbox[..k]), channel, b)
  {
    hide PeerOk, Carried;
    ReceivePeer(a, k, inbox[..k], script, client);
    ReceiveCarries(a, inbox, b, k);
    forall channel: seq<byte> | Carried(a, channel, b) ensures Carried(OnReceived(a, k, inbox[..k]), channel, b) {
      ReceiveSends(a, channel, b, k, inbox[..k]);
    }
  }

  lemma ReceivePeer(a: Peer, k: nat, data: seq<byte>, script: seq<Flight>, client: bool)
    requires PeerOk(a, script, client) && a.pc.Receiving? && k > 0
    ensures PeerOk(OnReceived(a, k, data), script, client)
  {
  }

  lemma ReceiveCarries(a: Peer, inbox: seq<byte>, b: Peer, k: nat)
    requires a.pc.Receiving? && 1 <= k <= |inbox| && Carried(b, inbox, a)
    ensures Carried(b, inbox[k..], OnReceived(a, k, inbox[..k]))
  {
    var a' := OnReceived(a, k, inbox[..k]);
    Regroup(a.e.taken, a.e.readBio, inbox[..k]);
    assert Fed(a'.e) == Fed(a.e) + inbox[..k];
    hide Fed, Emitted, Unsent;
    assert inbox == inbox[..k] + inbox[k..];
    Regroup(Fed(a.e), inbox[..k], inbox[k..]);
  }

  lemma ReceiveSends(a: Peer, channel: seq<byte>, b: Peer, k: nat, data: seq<byte>)
    requires a.pc.Receiving? && k > 0 && Carried(a, channel, b)
    ensures Carried(OnReceived(a, k, data), channel, b)
  {
  }

  /** Every move keeps the invariant: no byte is lost, reordered or invented, and neither side fails. */
  lemma MoveKeeps(s: System, m: Move, script: seq<Flight>)
    requires SystemOk(s, script) && Enabled(s, m)
    ensures SystemOk(Step(s, m), script)
  {
    var x := SideOf(s, m.client);
    var other := if m.client then s.server else s.client;
    hide PeerOk, Carried;
    match x.peer.pc
    case Performing => PerformKeeps(x.peer, x.outbox, other, x.inbox, script, m.client);
    case Sending(chunk, sent) =>
      SendKeeps(x.peer, x.outbox, other, m.k, script, m.client);
      SendFed(x.peer, m.k, other, x.inbox);
    case Receiving => ReceiveKeeps(x.peer, x.inbox, other, m.k, script, m.client);
  }

  lemma SendFed(a: Peer, k: nat, b: Peer, back: seq<byte>)
    requires a.pc.Sending? && Carried(b, back, a)
    ensures Carried(b, back, OnSent(a, k))
  {
  }

  // ---- Deadlock freedom. ----

  /** A peer that waits for input while nothing is on its way is behind a flight it must send itself,
      so the two peers cannot both wait, and neither waits for a peer that is over. */
  lemma NeitherBehind(a: Peer, b: Peer, script: seq<Flight>, client: bool)
    requires PeerOk(a, script, client) && PeerOk(b, script, !client)
    requires Carried(b, [], a) && a.pc.Receiving? && (b.pc.Receiving? || b.pc.Over?)
    ensures b.e.at <= a.e.at && a.e.at < |script| && script[a.e.at].byClient != client
  {
    assert Fed(a.e) + [] + [] + [] == Fed(a.e);
    if a.e.at < b.e.at {
      NotStarvedBehind(a.e, b.e);
    }
  }

  lemma SomeoneMoves(s: System, script: seq<Flight>) returns (m: Move)
    requires SystemOk(s, script) && !(s.client.pc.Over? && s.server.pc.Over?)
    ensures Enabled(s, m)
  {
    hide OnScript, Starved, Carried;
    if s.client.pc.Performing? || s.client.pc.Sending? || (s.client.pc.Receiving? && s.toClient != []) {
      m := Move(true, 1);
    } else if s.server.pc.Performing? || s.server.pc.Sending? || (s.server.pc.Receiving? && s.toServer != []) {
      m := Move(false, 1);
    } else {
      if s.client.pc.Receiving? {
        NeitherBehind(s.client, s.server, script, true);
      }
      if s.server.pc.Receiving? {
        NeitherBehind(s.server, s.client, script, false);
      }
      assert false;
    }
  }

  // ---- Termination. ----

  function Total(script: seq<Flight>, byClient: bool): nat {
    |Flights(script, byClient, |script|)|
  }

  /** What is left to drain, to send and to receive, and whether `perform` is due. */
  function Work(p: Peer, own: nat, others: nat): int {
    2 * ((own - |p.e.drained|) + (own - |p.e.drained| + |Unsent(p)|) + (others - |Fed(p.e)|))
      + if p.pc.Performing? then 1 else 0
  }

  function Measure(s: System, script: seq<Flight>): int {
    Work(s.client, Total(script, true), Total(script, false))
      + Work(s.server, Total(script, false), Total(script, true))
  }

  lemma MeasureNat(s: System, script: seq<Flight>)
    requires SystemOk(s, script)
    ensures Measure(s, script) >= 0
  {
    FlightsGrow(script, true, s.client.e.at, |script|);
    FlightsGrow(script, false, s.server.e.at, |script|);
    assert |Fed(s.server.e)| <= |Emitted(s.client.e)|;
    assert |Fed(s.client.e)| <= |Emitted(s.server.e)|;
  }

  lemma PerformLessWork(p: Peer, own: nat, others: nat)
    requires p.pc.Performing?
    ensures Work(OnPerform(p), own, others) < Work(p, own, others)
  {
    NegotiateKeeps(p.e);
    hide Negotiate;
  }

  lemma MoveLessWork(x: Side, k: nat, own: nat, others: nat)
    requires CanMove(x, k)
    ensures Work(MoveSide(x, k).peer, own, others) < Work(x.peer, own, others)
  {
    match x.peer.pc
    case Performing =>
      hide OnPerform;
      PerformLessWork(x.peer, own, others);
    case Sending(chunk, sent) =>
    case Receiving =>
  }

  lemma MoveDecreases(s: System, m: Move, script: seq<Flight>)
    requires Enabled(s, m)
    ensures Measure(Step(s, m), script) < Measure(s, script)
  {
    MoveLessWork(SideOf(s, m.client), m.k, Total(script, m.client), Total(script, !m.client));
    hide MoveSide, Work, Total;
  }

  // ---- Whole runs. ----

  predicate Playable(s: System, ms: seq<Move>)
    decreases |ms|
  {
    ms == [] || (Enabled(s, ms[0]) && Playable(Step(s, ms[0]), ms[1..]))
  }

  function Play(s: System, ms: seq<Move>): System
    requires Playable(s, ms)
    decreases |ms|
  {
    if ms == [] then s else Play(Step(s, ms[0]), ms[1..])
  }

  lemma {:induction false} PlayKeeps(s: System, ms: seq<Move>, script: seq<Flight>)
    requires SystemOk(s, script) && Playable(s, ms)
    ensures SystemOk(Play(s, ms), script) && |ms| + Measure(Play(s, ms), script) <= Measure(s, script)
    decreases |ms|
  {
    hide SystemOk, Measure, Step;
    if ms != [] {
      MoveKeeps(s, ms[0], script);
      MoveDecreases(s, ms[0], script);
      PlayKeeps(Step(s, ms[0]), ms[1..], script);
    }
  }

  lemma StartOk(script: seq<Flight>)
    ensures SystemOk(Start(script), script)
    ensures Measure(Start(script), script) == 6 * (Total(script, true) + Total(script, false)) + 2
  {
  }

  /** Two peers on the same script, under any partial sends and receives: every run is bounded by a number
      fixed by the script; as long as a peer is not over some peer can move; neither ever fails; and when both are
      over each has sent all its flights, has been fed exactly all of the other's, and no byte is left
      anywhere. */
  lemma HandshakeCompletes(script: seq<Flight>, ms: seq<Move>) returns (m: Move)
    requires Playable(Start(script), ms)
    ensures |ms| <= 6 * (Total(script, true) + Total(script, false)) + 2
    ensures var s := Play(Start(script), ms);
            && (s.client.pc.Over? ==> s.client.pc.result.Success?)
            && (s.server.pc.Over? ==> s.server.pc.result.Success?)
            && if s.client.pc.Over? && s.server.pc.Over? then
                 && s.toServer == [] && s.toClient == []
                 && Emitted(s.client.e) == Fed(s.server.e) == Flights(script, true, |script|)
                 && Emitted(s.server.e) == Fed(s.client.e) == Flights(script, false, |script|)
                 && s.client.e.readBio == [] && s.server.e.readBio == []
               else Enabled(s, m)
  {
    StartOk(script);
    PlayKeeps(Start(script), ms, script);
    var s := Play(Start(script), ms);
    MeasureNat(s, script);
    m := Move(true, 0);
    if s.client.pc.Over? && s.server.pc.Over? {
      Finished(s.client, s.toServer, s.server, script, true);
      Finished(s.server, s.toClient, s.client, script, false);
    } else {
      hide Play;
      m := SomeoneMoves(s, script);
    }
  }

  lemma Finished(a: Peer, channel: seq<byte>, b: Peer, script: seq<Flight>, client: bool)
    requires PeerOk(a, script, client) && PeerOk(b, script, !client) && a.pc.Over? && b.pc.Over?
    requires Carried(a, channel, b)
    ensures channel == [] && b.e.readBio == [] && Emitted(a.e) == Fed(b.e) == Flights(script, client, |script|)
  {
    assert b.e.taken == Emitted(a.e);
    assert |Fed(b.e) + channel + [] + []| == |b.e.taken| + |b.e.readBio| + |channel|;
    assert Fed(b.e) == b.e.taken;
  }
}
