/** What holds over any history of `send` and `recv` calls, and from one end of a connection to the other. */
module StreamHistory {
  import opened Records
  import opened TlsEngine
  import opened HandshakePeers
  import opened SslStreams

  /** One call and its results. */
  datatype Call =
    | SendCall(data: seq<byte>, n: int, threw: bool)
    | RecvCall(len: nat, n: int, out: seq<byte>, chunk: seq<byte>, waited: bool)

  ghost predicate Does(c: Conn, call: Call, c': Conn) {
    match call
    case SendCall(data, n, threw) => SendDid(c, data, n, threw, c')
    case RecvCall(len, n, out, chunk, waited) => RecvDid(c, len, n, out, chunk, waited, c')
  }

  /** `cs` are the states between the calls, the first and the last included. */
  ghost predicate History(cs: seq<Conn>, calls: seq<Call>) {
    |cs| == |calls| + 1 && forall i :: 0 <= i < |calls| ==> Does(cs[i], calls[i], cs[i + 1])
  }

  lemma HistoryInit(cs: seq<Conn>, calls: seq<Call>)
    requires History(cs, calls) && calls != []
    ensures History(cs[..|calls|], calls[..|calls| - 1]) && cs[..|calls|][|calls| - 1] == cs[|calls| - 1]
    ensures Does(cs[|calls| - 1], calls[|calls| - 1], cs[|calls|])
  {
    var k := |calls| - 1;
    forall i | 0 <= i < k ensures Does(cs[..k + 1][i], calls[..k][i], cs[..k + 1][i + 1]) {
      assert Does(cs[i], calls[i], cs[i + 1]);
    }
  }

  predicate Succeeded(call: Call) {
    call.SendCall? ==> !call.threw && (call.n > 0 || call.data == [])
  }

  predicate AllSucceeded(calls: seq<Call>) {
    forall i :: 0 <= i < |calls| ==> Succeeded(calls[i])
  }

  function DataOf(call: Call): seq<byte> {
    if call.SendCall? then call.data else []
  }

  /** The plaintext handed to `send`. */
  function Offered(calls: seq<Call>): seq<byte> {
    if calls == [] then [] else Offered(calls[..|calls| - 1]) + DataOf(calls[|calls| - 1])
  }

  function OutOf(call: Call): seq<byte> {
    if call.RecvCall? then call.out else []
  }

  function ChunkOf(call: Call): seq<byte> {
    if call.RecvCall? then call.chunk else []
  }

  /** What `recv` delivered. */
  function Delivered(calls: seq<Call>): seq<byte> {
    if calls == [] then [] else Delivered(calls[..|calls| - 1]) + OutOf(calls[|calls| - 1])
  }

  /** What `recv` took from the raw stream. */
  function Chunks(calls: seq<Call>): seq<byte> {
    if calls == [] then [] else Chunks(calls[..|calls| - 1]) + ChunkOf(calls[|calls| - 1])
  }

  /** The bytes the raw stream accepted since `c`. */
  function Sent(c: Conn, c': Conn): seq<byte> {
    if |c.wire| <= |c'.wire| then c'.wire[|c.wire|..] else []
  }

  // ---- The sending side. ----

  /** As long as every send succeeds: all drained output is on the wire, the wire carries exactly what was
      offered, in whole records, and what is pending carries nothing. */
  ghost predicate SenderOk(c: Conn, c': Conn, data: seq<byte>) {
    && Healthy(c') && c.wire <= c'.wire
    && Framed(Sent(c, c')) && Plain(Sent(c, c')) == data
    && (!c'.e.dead ==> Framed(c'.e.writeBio) && Plain(c'.e.writeBio) == [])
  }

  lemma SenderStarts(c: Conn)
    requires Healthy(c) && c.e.writeBio == []
    ensures SenderOk(c, c, [])
  {
    assert Sent(c, c) == [];
    assert Framed([]) && Plain([]) == [];
  }

  lemma SenderRecvs(c: Conn, c1: Conn, data: seq<byte>, call: Call, c2: Conn)
    requires SenderOk(c, c1, data) && call.RecvCall? && Does(c1, call, c2)
    ensures SenderOk(c, c2, data)
  {
    hide Plain, Framed, Undelivered;
    if !c2.e.dead {
      FramedAppend(c1.e.writeBio, Added(c1.e, c2.e));
    }
  }

  /** The output of a send starts where the earlier output ended. */
  lemma SendOutput(c1: Conn, data: seq<byte>, n: int, threw: bool, c2: Conn)
    requires Healthy(c1) && SendDid(c1, data, n, threw, c2)
    ensures Emitted(c2.e) == c1.wire + (c1.e.writeBio + Output(c1.e, c2.e))
  {
    hide Plain, Framed;
  }

  /** If a send succeeds, the wire has gained the pending output and then the records of the send. */
  lemma SenderSends(c: Conn, c1: Conn, data: seq<byte>, call: Call, c2: Conn)
    requires SenderOk(c, c1, data) && call.SendCall? && Succeeded(call) && Does(c1, call, c2)
    ensures SenderOk(c, c2, data + call.data)
  {
    hide Framed, Plain;
    if call.data != [] {
      var out := c1.e.writeBio + Output(c1.e, c2.e);
      SendOutput(c1, call.data, call.n, call.threw, c2);
      assert c2.wire == Emitted(c2.e);
      assert Sent(c, c2) == Sent(c, c1) + out;
      FramedAppend(c1.e.writeBio, Output(c1.e, c2.e));
      FramedAppend(Sent(c, c1), out);
      assert Framed([]) && Plain([]) == [] by { EmptyCarriesNothing(); }
    } else {
      assert data + [] == data;
    }
  }

  /** If a send fails, the wire has gained at most that. `whole` is what it would have become. */
  lemma SenderFails(c: Conn, c1: Conn, data: seq<byte>, call: Call, c2: Conn) returns (whole: seq<byte>)
    requires SenderOk(c, c1, data) && call.SendCall? && Does(c1, call, c2)
    ensures c.wire <= c2.wire && Sent(c, c2) <= whole && Framed(whole) && Plain(whole) <= data + call.data
  {
    hide Framed, Plain, Sound;
    whole := Sent(c, c1);
    if call.data != [] && Established(c1.e) {
      assert !call.threw;
      var out := c1.e.writeBio + Output(c1.e, c2.e);
      SendOutput(c1, call.data, call.n, call.threw, c2);
      FramedAppend(c1.e.writeBio, Output(c1.e, c2.e));
      FramedAppend(Sent(c, c1), out);
      assert c2.wire <= c2.e.drained;
      assert c2.e.drained <= Emitted(c2.e) == c1.wire + out;
      hide SendDid;
      assert c1.wire + out == c.wire + (Sent(c, c1) + out);
      whole := Sent(c, c1) + out;
    } else {
      assert c2.wire == c1.wire;
    }
  }

  lemma PlainPrefix(a: seq<byte>, b: seq<byte>)
    requires a <= b
    ensures Plain(a) <= Plain(b)
  {
    PlainGrows(a, b[|a|..]);
    assert a + b[|a|..] == b;
  }

  lemma {:induction false} SenderHistory(cs: seq<Conn>, calls: seq<Call>)
    requires History(cs, calls) && AllSucceeded(calls) && Healthy(cs[0]) && cs[0].e.writeBio == []
    ensures SenderOk(cs[0], cs[|calls|], Offered(calls))
    decreases |calls|
  {
    hide SenderOk, Does, SendDid, RecvDid, Plain, Framed;
    if calls == [] {
      SenderStarts(cs[0]);
    } else {
      var k := |calls| - 1;
      HistoryInit(cs, calls);
      hide History;
      SenderHistory(cs[..k + 1], calls[..k]);
      assert Succeeded(calls[k]);
      hide AllSucceeded, Succeeded;
      if calls[k].SendCall? {
        SenderSends(cs[0], cs[k], Offered(calls[..k]), calls[k], cs[k + 1]);
      } else {
        SenderRecvs(cs[0], cs[k], Offered(calls[..k]), calls[k], cs[k + 1]);
        assert Offered(calls) == Offered(calls[..k]);
      }
    }
  }

  /** Up to and including the first failing send, the wire is the beginning of whole records that carry no more than
      was offered; as long as none failed, it is exactly such records, and they carry exactly that. */
  lemma WireWhole(cs: seq<Conn>, calls: seq<Call>) returns (whole: seq<byte>)
    requires History(cs, calls) && Healthy(cs[0]) && cs[0].e.writeBio == []
    requires calls == [] || AllSucceeded(calls[..|calls| - 1])
    ensures cs[0].wire <= cs[|calls|].wire && Sent(cs[0], cs[|calls|]) <= whole && Framed(whole)
    ensures Plain(whole) <= Offered(calls)
    ensures AllSucceeded(calls) ==> Sent(cs[0], cs[|calls|]) == whole && Plain(whole) == Offered(calls)
  {
    hide Plain, Framed, Does;
    if AllSucceeded(calls) {
      SenderHistory(cs, calls);
      whole := Sent(cs[0], cs[|calls|]);
    } else {
      var k := |calls| - 1;
      HistoryInit(cs, calls);
      SenderHistory(cs[..k + 1], calls[..k]);
      assert !Succeeded(calls[k]) by {
        assert forall i :: 0 <= i < k ==> calls[..k][i] == calls[i];
      }
      hide History, SenderOk;
      whole := SenderFails(cs[0], cs[k], Offered(calls[..k]), calls[k], cs[k + 1]);
    }
  }

  /** Up to and including the first failing send, the wire carries a prefix of what was offered; as long as
      none failed, exactly that. No part of it that arrives is malformed. */
  lemma WireCarriesOffered(cs: seq<Conn>, calls: seq<Call>)
    requires History(cs, calls) && Healthy(cs[0]) && cs[0].e.writeBio == []
    requires calls == [] || AllSucceeded(calls[..|calls| - 1])
    ensures cs[0].wire <= cs[|calls|].wire && Plain(Sent(cs[0], cs[|calls|])) <= Offered(calls)
    ensures AllSucceeded(calls) ==>
            Plain(Sent(cs[0], cs[|calls|])) == Offered(calls) && Framed(Sent(cs[0], cs[|calls|]))
    ensures forall part :: part <= Sent(cs[0], cs[|calls|]) ==> Sound(part)
  {
    hide Plain, Framed, Does, Sound, AllSucceeded, Sent;
    var whole := WireWhole(cs, calls);
    PlainPrefix(Sent(cs[0], cs[|calls|]), whole);
    forall part | part <= Sent(cs[0], cs[|calls|]) ensures Sound(part) {
      PrefixSound(part, whole);
    }
  }

  /** Up to and including the first failing send, the raw stream has accepted a prefix of everything the engine
      ever emitted, answers that `recv` left pending included. After a send of some data that succeeded, it
      has accepted all of it. */
  lemma WireOrder(cs: seq<Conn>, calls: seq<Call>)
    requires History(cs, calls) && Healthy(cs[0]) && calls != [] && AllSucceeded(calls[..|calls| - 1])
    ensures cs[|calls|].wire <= Emitted(cs[|calls|].e)
    ensures var call := calls[|calls| - 1];
            call.SendCall? && Succeeded(call) && call.data != [] ==>
              cs[|calls|].e.writeBio == [] && cs[|calls|].wire == Emitted(cs[|calls|].e)
  {
    var k := |calls| - 1;
    HistoryInit(cs, calls);
    HealthExact(cs[..k + 1], calls[..k]);
    assert NoneLost(calls[..k]) by {
      forall i | 0 <= i < k ensures !Loses(calls[..k][i]) {
        assert Succeeded(calls[..k][i]);
      }
    }
    hide History, AllSucceeded, Plain, Framed, Undelivered;
    assert cs[k + 1].e.drained <= Emitted(cs[k + 1].e);
  }

  /** A send that the raw stream ended before all of the output was out: by the contract of `Send`, one in which the
      raw stream answered zero or less. */
  predicate Loses(call: Call) {
    call.SendCall? && !call.threw && call.data != [] && call.n <= 0
  }

  predicate NoneLost(calls: seq<Call>) {
    forall i :: 0 <= i < |calls| ==> !Loses(calls[i])
  }

  lemma NoneLostSnoc(calls: seq<Call>)
    requires calls != []
    ensures NoneLost(calls) <==> NoneLost(calls[..|calls| - 1]) && !Loses(calls[|calls| - 1])
  {
    var k := |calls| - 1;
    assert forall i :: 0 <= i < k ==> calls[..k][i] == calls[i];
  }

  /** Every byte drained from the engine has been accepted, exactly as long as no send of some data was ended by
      the raw stream: what such a send drops is never made good. */
  lemma {:induction false} HealthExact(cs: seq<Conn>, calls: seq<Call>)
    requires History(cs, calls) && Healthy(cs[0])
    ensures Healthy(cs[|calls|]) <==> NoneLost(calls)
    ensures |cs[|calls|].wire| <= |cs[|calls|].e.drained|
    ensures Healthy(cs[|calls|]) <==> |cs[|calls|].wire| == |cs[|calls|].e.drained|
    decreases |calls|
  {
    hide Does, Loses;
    if calls == [] {
      assert NoneLost(calls);
    } else {
      var k := |calls| - 1;
      HistoryInit(cs, calls);
      hide History;
      HealthExact(cs[..k + 1], calls[..k]);
      NoneLostSnoc(calls);
      HealthStep(cs[k], calls[k], cs[k + 1]);
    }
  }

  lemma HealthStep(c: Conn, call: Call, c': Conn)
    requires Does(c, call, c')
    ensures |c'.wire| - |c.wire| <= |c'.e.drained| - |c.e.drained|
    ensures Healthy(c) ==> (Healthy(c') <==> !Loses(call)) && (Healthy(c') <==> |c'.wire| == |c'.e.drained|)
  {
    hide Plain, Framed, Undelivered, Residue, Sound;
  }

  /** A send of one byte, step by step: the engine is written to and drained, and the raw stream takes all of that or
      answers zero. */
  lemma OneByteSend(c: Conn, b: byte, all: bool) returns (c': Conn)
    requires Established(c.e) && c.e.writeBio == []
    ensures var e1 := SslWrite(c.e, [b]).1;
            c' == c.(e := Drain(e1, |e1.writeBio|), wire := c.wire + if all then e1.writeBio else [])
    ensures SendDid(c, [b], if all then 1 else 0, false, c')
    ensures Established(c'.e) && c'.e.writeBio == [] && c'.e.drained == c.e.drained + Encode(Data, [b])
    ensures c'.wire == c.wire + if all then Encode(Data, [b]) else []
  {
    var (res, e1) := SslWrite(c.e, [b]);
    var c1, n := c.(e := e1), |e1.writeBio|;
    OneByteWrite(c.e, b);
    c' := c.(e := Drain(e1, n), wire := c.wire + if all then e1.writeBio else []);
    hide SslWrite, Encode, SendDid, SendSoFar;
    assert [b][..0] == [] && [b][..1] == [b] && e1.writeBio[..n] == e1.writeBio;
    SendStarts(c);
    SendWrites(c, [b], 0, c, res, c1);
    if all {
      SendDrains(c, [b], c1, n, c');
      SendEnds(c, [b], c');
    } else {
      assert c'.wire == c1.wire + e1.writeBio[..n][..0];
      SendFails(c, [b], 1, c1, n, 0, 0, c');
    }
  }

  lemma OneByteWrite(e: Engine, b: byte)
    requires Established(e) && e.writeBio == []
    ensures SslWrite(e, [b]) == (1, e.(writeBio := Encode(Data, [b]), lastError := NoError)) && |Encode(Data, [b])| > 0
  {
    assert [] + Encode(Data, [b]) == Encode(Data, [b]);
  }

  /** A failing send and a successful one after it: the wire is then not what the engine emitted, not even its
      beginning. Both sends are what the engine and the loops do. */
  lemma LostOnTheWire() returns (cs: seq<Conn>, calls: seq<Call>)
    ensures History(cs, calls) && |calls| == 2 && Healthy(cs[0]) && Loses(calls[0])
    ensures calls[1].SendCall? && Succeeded(calls[1]) && calls[1].data != []
    ensures !(cs[2].wire <= Emitted(cs[2].e))
  {
    hide SendDid, Encode, SslWrite;
    var c0 := Conn(Engine([], true, 0, false, NoError, [], false, [], [], [], []), [], [], []);
    var c1 := OneByteSend(c0, 7, false);
    var c2 := OneByteSend(c1, 8, true);
    calls := [SendCall([7], 0, false), SendCall([8], 1, false)];
    cs := [c0, c1, c2];
    EncodedFirst(7);
    EncodedFirst(8);
    assert c2.wire[HEADER] == 8 && Emitted(c2.e)[HEADER] == 7;
  }

  lemma EncodedFirst(b: byte)
    ensures |Encode(Data, [b])| == HEADER + 1 && Encode(Data, [b])[HEADER] == b
  {
  }

  // ---- The receiving side. ----

  /** Over any history, what was to come out at the start, given what has come in since and whatever
      comes later, is what has come out and what is still to come out. */
  lemma {:induction false} ReceiverConserves(cs: seq<Conn>, calls: seq<Call>, future: seq<byte>)
    requires History(cs, calls)
    ensures Undelivered(cs[0].e, Chunks(calls) + future) == Delivered(calls) + Undelivered(cs[|calls|].e, future)
    ensures Chunks(calls) + cs[|calls|].incoming == cs[0].incoming
    decreases |calls|
  {
    hide Undelivered, Does, SendDid, RecvDid;
    if calls == [] {
      assert [] + future == future;
    } else {
      var k := |calls| - 1;
      HistoryInit(cs, calls);
      hide History;
      var later := ChunkOf(calls[k]) + future;
      ReceiverConserves(cs[..k + 1], calls[..k], later);
      StepConserves(cs[k], calls[k], cs[k + 1], future);
      Regroup(Chunks(calls[..k]), ChunkOf(calls[k]), future);
      Regroup(Chunks(calls[..k]), ChunkOf(calls[k]), cs[k + 1].incoming);
      Regroup(Delivered(calls[..k]), OutOf(calls[k]), Undelivered(cs[k + 1].e, future));
    }
  }

  /** One call of either kind. */
  lemma StepConserves(c: Conn, call: Call, c': Conn, future: seq<byte>)
    requires Does(c, call, c')
    ensures Undelivered(c.e, ChunkOf(call) + future) == OutOf(call) + Undelivered(c'.e, future)
    ensures ChunkOf(call) + c'.incoming == c.incoming
  {
    hide Undelivered;
    if call.SendCall? {
      SameUndelivered(c.e, c'.e, future);
      assert [] + future == future;
    }
  }

  lemma SameUndelivered(e: Engine, e': Engine, future: seq<byte>)
    requires SameInput(e, e')
    ensures Undelivered(e', future) == Undelivered(e, future)
  {
  }

  // ---- End to end. ----

  /**
    `a` sends on one side, up to and including its first failing send if there is one; `b` receives on the
    other. The bytes that reach `b`, some of them perhaps before its history starts, are a prefix of those
    the raw stream of `a` accepted. Then `b` has delivered a prefix of the plaintext offered to `a`, under any
    chunking and buffer sizes. If no send failed and everything has arrived, `b` has delivered all of it
    exactly when nothing deliverable is left in its engine or on its wire.
   */
  lemma EndToEnd(a: seq<Conn>, sends: seq<Call>, b: seq<Conn>, recvs: seq<Call>)
    requires History(a, sends) && Healthy(a[0]) && a[0].e.writeBio == []
    requires sends == [] || AllSucceeded(sends[..|sends| - 1])
    requires History(b, recvs) && b[0].e.pending == []
    requires b[0].e.readBio + b[0].incoming <= Sent(a[0], a[|sends|])
    ensures Delivered(recvs) <= Offered(sends)
    ensures AllSucceeded(sends) && b[0].e.readBio + b[0].incoming == Sent(a[0], a[|sends|]) ==>
              (Delivered(recvs) == Offered(sends) <==> Undelivered(b[|recvs|].e, b[|recvs|].incoming) == [])
  {
    WireCarriesOffered(a, sends);
    ReceiverConserves(b, recvs, b[|recvs|].incoming);
    hide Plain, Does, Framed, AllSucceeded, Undelivered;
    Meet(Sent(a[0], a[|sends|]), Offered(sends), b[0], Delivered(recvs), b[|recvs|]);
  }

  /** Where the two sides meet. */
  lemma Meet(sent: seq<byte>, offered: seq<byte>, b: Conn, delivered: seq<byte>, b': Conn)
    requires b.e.pending == [] && b.e.readBio + b.incoming <= sent && Plain(sent) <= offered
    requires Undelivered(b.e, b.incoming) == delivered + Undelivered(b'.e, b'.incoming)
    ensures delivered <= offered
    ensures Plain(sent) == offered && b.e.readBio + b.incoming == sent ==>
            (delivered == offered <==> Undelivered(b'.e, b'.incoming) == [])
  {
    hide Plain;
    PlainPrefix(b.e.readBio + b.incoming, sent);
    assert Undelivered(b.e, b.incoming) == Plain(b.e.readBio + b.incoming);
    hide Undelivered;
    PrefixOfWhole(delivered, Undelivered(b'.e, b'.incoming), Plain(sent), offered);
  }

  lemma PrefixOfWhole(a: seq<byte>, b: seq<byte>, c: seq<byte>, d: seq<byte>)
    requires a + b <= c <= d
    ensures a <= d && (a + b == d ==> (a == d <==> b == []))
  {
    if a + b == d && a == d {
      assert |b| == 0;
    }
  }

  /**
    A whole connection: both sides complete `handshake` on one script, in opposite roles, then `a` sends up to
    and including its first failing send and `b` receives. What `b` received and has still to receive is a
    prefix of what the raw stream of `a` accepted, handshake included. Then `b` has delivered a prefix of the
    plaintext offered to `a`, although application data may have come in with the last flight.
   */
  lemma WholeConnection(a0: Conn, a: seq<Conn>, sends: seq<Call>, b0: Conn, b: seq<Conn>, recvs: seq<Call>)
    requires History(a, sends) && History(b, recvs)
    requires sends == [] || AllSucceeded(sends[..|sends| - 1])
    requires HandshakeDid(a0, Success, a[0]) && HandshakeDid(b0, Success, b[0]) && Healthy(a0)
    requires OnScript(a0.e.(isClient := a[0].e.isClient)) && OnScript(b0.e.(isClient := b[0].e.isClient))
    requires a0.e.script == b0.e.script && a[0].e.isClient != b[0].e.isClient && b0.e.pending == []
    requires Fed(b[0].e) == b[0].received && b[0].received + b[0].incoming <= a[|sends|].wire
    ensures Delivered(recvs) <= Offered(sends)
    ensures AllSucceeded(sends) && b[0].received + b[0].incoming == a[|sends|].wire ==>
              (Delivered(recvs) == Offered(sends) <==> Undelivered(b[|recvs|].e, b[|recvs|].incoming) == [])
  {
    AfterHandshake(a0, a[0]);
    WireCarriesOffered(a, sends);
    CutFlights(a[0].wire, a[0], b[0], a[|sends|]);
    EndToEnd(a, sends, b, recvs);
  }

  /** A stream on which `handshake` succeeded is ready for the history of sends. */
  lemma AfterHandshake(c: Conn, c': Conn)
    requires HandshakeDid(c, Success, c') && Healthy(c)
    ensures Healthy(c') && c'.e.writeBio == [] && c'.wire == Emitted(c'.e)
  {
    assert c'.e.drained + [] == c'.e.drained;
  }

  /** What lies beyond the flights of `a` is what it sent since, and what `b` holds beyond them. */
  lemma CutFlights(flights: seq<byte>, a: Conn, b: Conn, a': Conn)
    requires a.wire == flights && flights <= a'.wire && Fed(b.e) == b.received && b.received + b.incoming <= a'.wire
    requires Fed(b.e) == flights + b.e.readBio
    ensures b.e.readBio + b.incoming <= Sent(a, a')
    ensures b.received + b.incoming == a'.wire ==> b.e.readBio + b.incoming == Sent(a, a')
  {
    var held := b.e.readBio + b.incoming;
    assert b.received + b.incoming == flights + held;
    assert (flights + held)[|flights|..] == held;
  }

  // ---- A receiver that is fed what a sender sent. ----

  /** As long as what has come in and is to come in is sound, a live receiver stays live, and a receive that took
      input does not fail. */
  lemma {:induction false} SoundStaysLive(cs: seq<Conn>, calls: seq<Call>)
    requires History(cs, calls) && Established(cs[0].e) && Sound(cs[0].e.readBio + cs[0].incoming)
    ensures Established(cs[|calls|].e) && Sound(cs[|calls|].e.readBio + cs[|calls|].incoming)
    decreases |calls|
  {
    hide Does, Sound;
    if calls != [] {
      var k := |calls| - 1;
      HistoryInit(cs, calls);
      hide History;
      SoundStaysLive(cs[..k + 1], calls[..k]);
      StepStaysLive(cs[k], calls[k], cs[k + 1]);
    }
  }

  lemma StepStaysLive(c: Conn, call: Call, c': Conn)
    requires Does(c, call, c') && Established(c.e) && Sound(c.e.readBio + c.incoming)
    ensures Established(c'.e) && Sound(c'.e.readBio + c'.incoming)
    ensures call.RecvCall? && call.chunk != [] ==> call.n >= 0
    ensures call.RecvCall? && !call.waited ==> call.n > 0
  {
    hide Plain, Framed, Undelivered;
  }

  /** A receiver whose input is what the raw stream of an honest sender accepted, up to and including its first
      failing send, never fails of itself: a negative result means that the raw stream was asked and gave
      nothing. */
  lemma HonestWireNeverFails(a: seq<Conn>, sends: seq<Call>, b: seq<Conn>, recvs: seq<Call>, i: nat)
    requires History(a, sends) && Healthy(a[0]) && a[0].e.writeBio == []
    requires sends == [] || AllSucceeded(sends[..|sends| - 1])
    requires History(b, recvs) && Established(b[0].e) && b[0].e.readBio + b[0].incoming <= Sent(a[0], a[|sends|])
    requires i < |recvs| && recvs[i].RecvCall?
    ensures Established(b[i].e) && Established(b[i + 1].e)
    ensures recvs[i].n < 0 ==> recvs[i].waited && recvs[i].chunk == []
  {
    WireCarriesOffered(a, sends);
    hide Plain, Framed, Sound, AllSucceeded, Sent;
    HistoryPart(b, recvs, i);
    SoundStaysLive(b[..i + 1], recvs[..i]);
    hide History;
    StepStaysLive(b[i], recvs[i], b[i + 1]);
  }

  lemma HistoryPart(cs: seq<Conn>, calls: seq<Call>, i: nat)
    requires History(cs, calls) && i < |calls|
    ensures History(cs[..i + 1], calls[..i]) && Does(cs[i], calls[i], cs[i + 1])
  {
    hide Does;
    forall j | 0 <= j < i ensures Does(cs[..i + 1][j], calls[..i][j], cs[..i + 1][j + 1]) {
      assert Does(cs[j], calls[j], cs[j + 1]);
    }
  }

  // ---- Waiting and progress. ----

  /** `recv` on a live engine asks the raw stream exactly when the engine holds no data, whatever was called
      before. This is the contract of `Recv`, at any point of a history; the work is in `SslReadGives`. */
  lemma NeverWaitsForNothing(cs: seq<Conn>, calls: seq<Call>, i: nat)
    requires History(cs, calls) && i < |calls| && calls[i].RecvCall? && calls[i].len > 0 && Established(cs[i].e)
    ensures calls[i].waited <==> cs[i].e.pending == [] && Plain(cs[i].e.readBio) == []
    ensures calls[i].waited ==> calls[i].chunk != [] || calls[i].n <= 0
  {
    assert Does(cs[i], calls[i], cs[i + 1]);
    assert cs[i].e.readBio + [] == cs[i].e.readBio;
  }

  /** A call that delivered data or took input. */
  predicate Productive(call: Call) {
    call.RecvCall? && (call.n > 0 || call.chunk != [])
  }

  function CountProductive(calls: seq<Call>): nat {
    if calls == [] then 0 else CountProductive(calls[..|calls| - 1]) + if Productive(calls[|calls| - 1]) then 1 else 0
  }

  function Unread(c: Conn): nat {
    2 * |c.incoming| + |c.e.readBio| + |c.e.pending|
  }

  /** Every productive receive brings the end nearer, even one that returns 0 on part of a record. */
  lemma {:induction false} ProductiveCallsBounded(cs: seq<Conn>, calls: seq<Call>)
    requires History(cs, calls)
    ensures CountProductive(calls) + Unread(cs[|calls|]) <= Unread(cs[0])
    decreases |calls|
  {
    if calls != [] {
      var k := |calls| - 1;
      HistoryInit(cs, calls);
      ProductiveCallsBounded(cs[..k + 1], calls[..k]);
      hide History, Plain, Framed, Undelivered;
    }
  }

  /** A receive that took input, on an engine that is live after it, returned 0 exactly when no record with data
      was completed: a consequence of the contract of `Recv`, for which `SslReadGives` does the work. */
  lemma ZeroMeansPartial(c: Conn, len: nat, n: int, out: seq<byte>, chunk: seq<byte>, c': Conn)
    requires RecvDid(c, len, n, out, chunk, true, c') && chunk != [] && Established(c'.e)
    ensures n == 0 <==> Undelivered(c.e, chunk) == []
  {
    assert chunk + [] == chunk;
    assert Undelivered(c.e, chunk + []) == out + Undelivered(c'.e, []);
  }

  /** So 0 does not mean the end of the stream: here it comes back for the head of a record whose data has
      not been received yet. */
  lemma ZeroBeforeEnd() returns (c: Conn, chunk: seq<byte>, c': Conn)
    ensures RecvDid(c, HEADER, 0, [], chunk, true, c') && Established(c'.e) && c'.incoming != []
    ensures Undelivered(c'.e, c'.incoming) != []
  {
    var record := Encode(Data, [7]);
    HeadOfRecord(7);
    hide Parse, Encode, Plain, Residue, RecvDid;
    var e := Engine([], true, 0, false, NoError, [], false, [], [], [], []);
    c := Conn(e, [], record, []);
    chunk := record[..HEADER];
    StarvedRead(e);
    var e1 := Feed(SslRead(e, HEADER).2, chunk);
    assert e1.readBio == chunk;
    StarvedRead(e1);
    hide SslRead;
    c' := Conn(SslRead(e1, HEADER).2, [], record[HEADER..], chunk);
    assert c.received + chunk == chunk;
    RecvAfterWait(c, HEADER, chunk, 0, [], c');
    assert c'.e.readBio + c'.incoming == record;
  }

  lemma HeadOfRecord(b: byte)
    ensures var record := Encode(Data, [b]);
            && |record| > HEADER && Parse([]).Incomplete? && Parse(record[..HEADER]).Incomplete? && Plain(record) == [b]
  {
    FramedOne(Data, [b]);
    hide Plain;
  }

  lemma StarvedRead(e: Engine)
    requires Established(e) && e.pending == [] && Parse(e.readBio).Incomplete?
    ensures SslRead(e, HEADER) == (-1, [], e.(lastError := ErrWantRead))
  {
    hide Parse;
  }
}
