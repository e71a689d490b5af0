/** `ssl_stream` over its engine and a raw stream: the three pumps. */
module SslStreams {
  import opened Records
  import opened TlsEngine
  import opened HandshakePeers

  /**
    A raw stream that gives and takes as little as it likes. `plan` is what it is going to answer, one
    entry a call; when the plan is used up every call fails. `incoming` is what the peer has sent.
    `wire`, `received`, `answers` and `asked` are histories: the bytes taken, the bytes given, every result,
    and how much each receive asked for.
   */
  class RawStream {
    var plan: seq<int>
    var incoming: seq<byte>
    ghost var wire: seq<byte>
    ghost var received: seq<byte>
    ghost var answers: seq<int>
    ghost var asked: seq<nat>

    constructor (plan: seq<int>, incoming: seq<byte>)
      ensures this.plan == plan && this.incoming == incoming && wire == [] && received == []
      ensures answers == [] && asked == []
    {
      this.plan, this.incoming, wire, received, answers, asked := plan, incoming, [], [], [], [];
    }

    method Answer() returns (n: int)
      modifies this`plan
      ensures n >= 0 ==> |plan| < |old(plan)|
      ensures |plan| <= |old(plan)|
    {
      if plan == [] {
        n := -1;
      } else {
        n := plan[0];
        plan := plan[1..];
      }
    }

    /** Takes a prefix of `buf[from..to]`, or fails with a negative code. */
    method Send(buf: array<byte>, from: nat, to: nat) returns (n: int)
      requires from <= to <= buf.Length
      modifies this`plan, this`wire, this`answers
      ensures answers == old(answers) + [n]
      ensures n <= to - from && |plan| <= |old(plan)| && (n >= 0 ==> |plan| < |old(plan)|)
      ensures wire == old(wire) + if n > 0 then buf[from..from + n] else []
    {
      n := Answer();
      if n > to - from {
        n := to - from;
      }
      answers := answers + [n];
      if n > 0 {
        wire := wire + buf[from..from + n];
      }
    }

    /** Fills a prefix of `buf` with the next bytes of the peer; 0 at the end, negative on failure. */
    method Recv(buf: array<byte>) returns (n: int)
      modifies this`plan, this`incoming, this`received, this`answers, this`asked, buf
      ensures answers == old(answers) + [n] && asked == old(asked) + [buf.Length]
      ensures n <= buf.Length && |plan| <= |old(plan)| && (n >= 0 ==> |plan| < |old(plan)|)
      ensures n > 0 ==> n <= |old(incoming)| && buf[..n] == old(incoming)[..n] && incoming == old(incoming)[n..]
      ensures n > 0 ==> received == old(received) + buf[..n]
      ensures n <= 0 ==> incoming == old(incoming) && received == old(received)
    {
      n := Answer();
      if n > buf.Length {
        n := buf.Length;
      }
      if n > |incoming| {
        n := |incoming|;
      }
      answers, asked := answers + [n], asked + [buf.Length];
      if n > 0 {
        forall i | 0 <= i < n {
          buf[i] := incoming[i];
        }
        received := received + buf[..n];
        incoming := incoming[n..];
      }
    }
  }

  /** `ssl_engine`: the SSL object with its two memory queues. */
  class SslEngine {
    var ssl: Engine

    /** `SSL_set_connect_state` or `SSL_set_accept_state`. */
    method SetRole(client: bool)
      modifies this
      ensures ssl == old(ssl).(isClient := client)
    {
      ssl := ssl.(isClient := client);
    }

    constructor (ssl: Engine)
      ensures this.ssl == ssl
    {
      this.ssl := ssl;
    }

    method Perform() returns (status: Status)
      modifies this
      ensures var (ret, e) := Negotiate(old(ssl)); ssl == e && status == PerformStatus(ret, e)
      ensures old(ssl).writeBio <= ssl.writeBio && Fed(ssl) == Fed(old(ssl))
      ensures status == WantWrite <==> ssl.writeBio != []
      ensures status == Ok <==> ssl.writeBio == [] && Established(ssl)
      ensures status == WantRead <==> ssl.writeBio == [] && Starved(ssl)
      ensures status == Error <==> ssl.writeBio == [] && ssl.dead
    {
      NegotiateKeeps(ssl);
      PerformExact(ssl);
      hide Negotiate, Established, Starved, Fed;
      var (ret, e) := Negotiate(ssl);
      ssl := e;
      if |ssl.writeBio| > 0 {
        return WantWrite;
      }
      if GetError(ssl, ret) == ErrSyscall {
        return Error;
      }
      return GetSslStatus(ssl, ret);
    }

    method Write(buf: array<byte>, len: nat) returns (n: int)
      requires len <= buf.Length
      modifies this
      ensures n == len && ssl == Feed(old(ssl), buf[..len])
    {
      ssl := Feed(ssl, buf[..len]);
      n := len;
    }

    method Read(buf: array<byte>) returns (n: int)
      modifies this, buf
      ensures if old(ssl).writeBio == [] then n == -1 && ssl == old(ssl)
              else
                && n == Min(buf.Length, |old(ssl).writeBio|)
                && ssl == Drain(old(ssl), n) && buf[..n] == old(ssl).writeBio[..n]
    {
      if ssl.writeBio == [] {
        return -1;
      }
      var m := Min(buf.Length, |ssl.writeBio|);
      forall i | 0 <= i < m {
        buf[i] := ssl.writeBio[i];
      }
      ssl := Drain(ssl, m);
      n := m;
    }

    /** Reads into `buf[from..from + len]`. */
    method SslRead(buf: array<byte>, from: nat, len: nat) returns (n: int, status: Status)
      requires from + len <= buf.Length
      modifies this, buf
      ensures var (ret, out, e) := TlsEngine.SslRead(old(ssl), len);
              && n == ret && ssl == e && status == GetSslStatus(e, ret)
              && (n > 0 ==> |out| == n <= len && buf[from..from + n] == out)
      ensures buf[..from] == old(buf[..from])
      ensures n <= 0 ==> buf[..] == old(buf[..])
      ensures n > 0 ==> buf[from + n..] == old(buf[from + n..])
    {
      var (ret, out, e) := TlsEngine.SslRead(ssl, len);
      if len > 0 {
        SslReadGives(ssl, len);
      }
      if ret > 0 {
        forall i | 0 <= i < ret {
          buf[from + i] := out[i];
        }
      }
      ssl := e;
      n, status := ret, GetSslStatus(e, ret);
    }

    method SslWrite(buf: array<byte>, from: nat) returns (n: int)
      requires from <= buf.Length
      modifies this
      ensures (n, ssl) == TlsEngine.SslWrite(old(ssl), buf[from..])
    {
      var (ret, e) := TlsEngine.SslWrite(ssl, buf[from..]);
      ssl := e;
      n := ret;
    }

    method WritePending() returns (n: nat)
      ensures n == |ssl.writeBio|
    {
      n := |ssl.writeBio|;
    }
  }

  /** A stream as a value: its engine, what the raw stream accepted, has still to give, and has given. */
  datatype Conn = Conn(e: Engine, wire: seq<byte>, incoming: seq<byte>, received: seq<byte>)

  /** The raw stream has accepted everything that was drained for it. */
  predicate Healthy(c: Conn) {
    c.wire == c.e.drained
  }

  /** The output of an engine since an earlier moment. */
  function Output(e: Engine, e': Engine): seq<byte> {
    if |Emitted(e)| <= |Emitted(e')| then Emitted(e')[|Emitted(e)|..] else []
  }

  /** Sending leaves the input side of the engine alone. */
  predicate SameInput(e: Engine, e': Engine) {
    SameSession(e, e') && e'.readBio == e.readBio && e'.taken == e.taken && e'.pending == e.pending && e'.dead == e.dead
  }

  /** What one call of `send` promises. `n` is its result, unless it threw. */
  ghost predicate SendDid(c: Conn, data: seq<byte>, n: int, threw: bool, c': Conn) {
    && SameInput(c.e, c'.e) && c'.incoming == c.incoming && c'.received == c.received
    && Emitted(c.e) <= Emitted(c'.e) && c.wire <= c'.wire
    && Framed(Output(c.e, c'.e)) && Plain(Output(c.e, c'.e)) <= data
    && (data == [] ==> c' == c)
    && (threw <==> data != [] && !Established(c.e))
    && (threw ==> Emitted(c'.e) == Emitted(c.e) && c'.wire == c.wire)
    && |c'.wire| - |c.wire| <= |c'.e.drained| - |c.e.drained|
    && (Healthy(c) ==> c'.wire <= c'.e.drained && (Healthy(c') <==> threw || data == [] || n > 0))
    && (!threw && (n > 0 || data == []) ==>
          && n == |data| && Plain(Output(c.e, c'.e)) == data
          && (data != [] ==> c'.e.writeBio == []))
  }

  class SslStream {
    const engine: SslEngine
    const raw: RawStream
    var leftover: seq<byte>

    ghost function View(): Conn
      reads engine, raw
    {
      Conn(engine.ssl, raw.wire, raw.incoming, raw.received)
    }

    /** Nothing is ever left over, and the engine was fed what the raw stream gave. */
    ghost predicate Valid()
      reads this, engine, raw
    {
      leftover == [] && Fed(engine.ssl) == raw.received
    }

    constructor (engine: SslEngine, raw: RawStream)
      requires Fed(engine.ssl) == raw.received
      ensures this.engine == engine && this.raw == raw && Valid()
    {
      this.engine, this.raw, leftover := engine, raw, [];
    }

    method ReadLeftover(buf: array<byte>) returns (n: nat)
      modifies this, buf
      ensures n == Min(buf.Length, |old(leftover)|) && leftover == old(leftover)[n..]
      ensures buf[..n] == old(leftover)[..n] && buf[n..] == old(buf[n..])
    {
      if leftover == [] {
        return 0;
      }
      n := Min(buf.Length, |leftover|);
      forall i | 0 <= i < n {
        buf[i] := leftover[i];
      }
      leftover := leftover[n..];
    }

    method ClearLeft() returns (size: nat)
      requires Valid()
      modifies this
      ensures size == 0 && Valid()
    {
      size := |leftover|;
      leftover := [];
    }

    /** The innermost loop of `handshake`: the first `count` bytes of `chunk` go to the raw stream, until it
        fails. An answer of zero is tried again. */
    method FlushChunk(chunk: array<byte>, count: nat, ghost p: Peer, ghost past: seq<Event>)
      returns (r: int, ghost sent: nat, ghost trace: seq<Event>)
      requires 0 < count <= chunk.Length && Traced(p, past)
      requires FollowAll(p, past) == Peer(engine.ssl, Sending(chunk[..count], 0))
      modifies raw
      ensures sent <= count && (r >= 0 ==> sent == count && |raw.plan| < |old(raw.plan)|)
      ensures View() == old(View()).(wire := old(raw.wire) + chunk[..count][..sent]) && raw.asked == old(raw.asked)
      ensures Traced(p, trace)
      ensures FollowAll(p, trace) == Peer(engine.ssl, if r < 0 then Over(RawFailure(r)) else Performing)
      ensures Reported(old(raw.answers), past, raw.answers, trace)
    {
      hide Traced, FollowAll, Reported;
      NothingReported(raw.answers, past);
      var bytesSent := 0;
      r, trace := 0, past;
      while bytesSent < count
        invariant 0 <= bytesSent <= count && r >= 0
        invariant |raw.plan| <= |old(raw.plan)| && (bytesSent > 0 ==> |raw.plan| < |old(raw.plan)|)
        invariant raw.asked == old(raw.asked)
        invariant View() == old(View()).(wire := old(raw.wire) + chunk[..count][..bytesSent])
        invariant Traced(p, trace) && Reported(old(raw.answers), past, raw.answers, trace)
        invariant var pc := if bytesSent < count then Sending(chunk[..count], bytesSent) else Performing;
                  FollowAll(p, trace) == Peer(engine.ssl, pc)
        decreases |raw.plan|
      {
        ghost var before := raw.answers;
        r := raw.Send(chunk, bytesSent, count);
        TraceSnoc(p, trace, RawSent(r));
        ReportsMore(old(raw.answers), past, before, trace, RawSent(r));
        trace := trace + [RawSent(r)];
        if r < 0 {
          sent := bytesSent;
          return;
        }
        assert chunk[..count][..bytesSent] + chunk[bytesSent..bytesSent + r] == chunk[..count][..bytesSent + r];
        bytesSent := bytesSent + r;
      }
      sent := count;
    }

    /** `handshake`. `trace` is the run of the machine of `HandshakePeers` that this call makes. */
    method Handshake(client: bool) returns (result: Result, ghost trace: seq<Event>)
      requires Valid()
      modifies engine, raw
      ensures Valid() && HandshakeDid(old(View()), result, View())
      ensures Traced(Peer(old(engine.ssl).(isClient := client), Performing), trace)
      ensures FollowAll(Peer(old(engine.ssl).(isClient := client), Performing), trace) == Peer(engine.ssl, Over(result))
      ensures raw.answers == old(raw.answers) + RawResults(trace)
      ensures EndsAs(result, trace) && AnsweredAs(result, old(raw.answers), raw.answers)
      ensures AskedAlways(CHUNK, old(raw.asked), raw.asked)
    {
      hide PerformStatus, Established, Starved, OnScript, EndsAs, AnsweredAs, Fed, Negotiate;
      hide HandshakeSoFar, HandshakeDid, Traced, FollowAll, Reported, RawResults;
      ghost var c := View();
      engine.SetRole(client);
      ghost var p := Peer(engine.ssl, Performing);
      trace := [];
      HandshakeStarts(c, View(), p);
      ghost var was := raw.answers;
      NothingReported(was, []);
      var buf := new byte[CHUNK];
      while true
        invariant Valid() && HandshakeSoFar(c, View()) && buf.Length == CHUNK
        invariant Traced(p, trace) && FollowAll(p, trace) == Peer(engine.ssl, Performing)
        invariant Reported(was, [], raw.answers, trace) && AskedAlways(CHUNK, old(raw.asked), raw.asked)
        decreases |raw.plan|
      {
        ghost var before := View();
        TraceSnoc(p, trace, Perform);
        ReportsMore(was, [], raw.answers, trace, Perform);
        var status := engine.Perform();
        trace := trace + [Perform];
        HandshakePerforms(c, before, View());
        if status == Ok {
          result := Success;
          HandshakeEnds(c, before, result, View());
          ReportedAll(was, raw.answers, trace);
          EndsAnswered(p, was, raw.answers, trace);
          return;
        } else if status == WantRead {
          HandshakeReads(c, View());
          before := View();
          ghost var answered := raw.answers;
          var r := raw.Recv(buf);
          TraceSnoc(p, trace, RawReceived(r, if r > 0 then buf[..r] else []));
          ReportsMore(was, [], answered, trace, RawReceived(r, if r > 0 then buf[..r] else []));
          trace := trace + [RawReceived(r, if r > 0 then buf[..r] else [])];
          ReportedAll(was, raw.answers, trace);
          if r == 0 {
            result := ReadEof;
            EndsAnswered(p, was, raw.answers, trace);
            return;
          }
          if r < 0 {
            result := RawFailure(r);
            EndsAnswered(p, was, raw.answers, trace);
            return;
          }
          FeedFed(engine.ssl, buf[..r]);
          var res := engine.Write(buf, r);
          if res <= 0 {
            assert false;
          }
          HandshakeFeeds(c, before, buf[..r], View());
        } else if status == WantWrite {
          before := View();
          var taken := engine.Read(buf);
          if taken <= 0 {
            assert false;
          }
          DrainFed(before.e, taken);
          ghost var answered := raw.answers;
          var r, sent, more := FlushChunk(buf, taken, p, trace);
          ReportsChain(was, answered, trace, raw.answers, more);
          trace := more;
          if r < 0 {
            result := RawFailure(r);
            ReportedAll(was, raw.answers, trace);
            HandshakeBreaks(c, before, taken, sent, result, View());
            EndsAnswered(p, was, raw.answers, trace);
            return;
          }
          HandshakeDrains(c, before, taken, View());
        } else {
          result := EngineFailure;
          HandshakeEnds(c, before, result, View());
          ReportedAll(was, raw.answers, trace);
          EndsAnswered(p, was, raw.answers, trace);
          return;
        }
      }
    }

    /** `recv`: what is left over, else what the engine holds, else one chunk of the raw stream and what the
        engine then holds. The branch that fills `leftover` is never reached. */
    method Recv(buf: array<byte>) returns (n: int, ghost chunk: seq<byte>, ghost waited: bool)
      requires Valid()
      modifies this, engine, raw, buf
      ensures Valid() && buf.Length >= n
      ensures RecvDid(old(View()), buf.Length, n, if n > 0 then buf[..n] else [], chunk, waited, View())
      ensures if waited then Asked(old(raw.answers), raw.answers, chunk, n) else raw.answers == old(raw.answers)
      ensures raw.asked == if waited then old(raw.asked) + [buf.Length] else old(raw.asked)
      ensures !waited && old(engine.ssl.pending) != [] ==> n == Min(buf.Length, |old(engine.ssl.pending)|)
      ensures buf[if n > 0 then n else 0..] == old(buf[..])[if n > 0 then n else 0..]
    {
      hide RecvDid, SslRead, Fed, Outputs, Undelivered, Front, FirstData, Residue, Parse, Plain;
      ghost var c := View();
      var len := buf.Length;
      chunk, waited := [], false;
      n := ReadLeftover(buf);
      if n > 0 {
        assert false;
      }
      var status;
      n, status := engine.SslRead(buf, 0, len);
      if n > 0 {
        RecvAtOnce(c, len, n, buf[..n], View());
        if c.e.pending != [] {
          AmountAtOnce(c, len, n, buf[..n], View());
        }
        return;
      }
      var rawBuf := new byte[len];
      waited := true;
      ghost var c0 := View();
      var received := raw.Recv(rawBuf);
      if received <= 0 {
        RecvNothing(c, len, received, View());
        n := received;
        return;
      }
      chunk := rawBuf[..received];
      ghost var e0 := engine.ssl;
      var written := engine.Write(rawBuf, received);
      FeedFed(e0, chunk);
      if written <= 0 {
        assert false;
      }
      var total, done := 0, false;
      while !done
        invariant buf.Length == len && leftover == [] && total <= len && raw.answers == old(raw.answers) + [received]
        invariant raw.asked == old(raw.asked) + [len] && buf[total..] == old(buf[..])[total..]
        invariant View() == Conn(engine.ssl, c.wire, c.incoming[received..], c.received + chunk)
        invariant !done ==> total == 0 && engine.ssl == Feed(e0, chunk)
        invariant done ==> Valid() && RecvDid(c, len, total, buf[..total], chunk, true, View())
        decreases !done
      {
        if len - total > 0 {
          SslReadGives(engine.ssl, len);
          SslReadKeeps(engine.ssl, len);
          var decrypted;
          decrypted, status := engine.SslRead(buf, total, len - total);
          if decrypted > 0 {
            total := total + decrypted;
            if status != Ok {
              assert false;
            }
            done := true;
            RecvAfterWait(c, len, chunk, total, buf[..total], View());
          } else if status == WantRead || status == WantWrite {
            done := true;
            RecvAfterWait(c, len, chunk, 0, [], View());
          } else {
            n := -1;
            RecvAfterWait(c, len, chunk, -1, [], View());
            return;
          }
        } else {
          assert false;
        }
      }
      n := total;
    }

    /** The innermost loop of `send`: the first `count` bytes of `chunk` go to the raw stream, until it
        answers zero or less. */
    method PushChunk(chunk: array<byte>, count: nat) returns (r: int, ghost sent: nat)
      requires count <= chunk.Length
      modifies raw
      ensures if r > 0 then sent == count else sent < count
      ensures View() == old(View()).(wire := old(raw.wire) + chunk[..count][..sent])
      ensures StoppedBy(old(raw.answers), raw.answers, r)
    {
      var bytesSent := 0;
      r := 1;
      while bytesSent < count
        invariant 0 <= bytesSent <= count && r > 0
        invariant View() == old(View()).(wire := old(raw.wire) + chunk[..bytesSent])
        invariant StoppedBy(old(raw.answers), raw.answers, 1)
        decreases count - bytesSent
      {
        r := raw.Send(chunk, bytesSent, count);
        if r <= 0 {
          sent := bytesSent;
          assert chunk[..count][..sent] == chunk[..sent];
          return;
        }
        assert chunk[..bytesSent] + chunk[bytesSent..bytesSent + r] == chunk[..bytesSent + r];
        bytesSent := bytesSent + r;
      }
      sent := count;
      assert chunk[..count][..sent] == chunk[..count];
    }

    /** `send`: encrypts all of `buf` and pushes every pending byte to the raw stream. A raw result of zero
        or less ends it at once. */
    method Send(buf: array<byte>) returns (n: int, threw: bool)
      requires Valid()
      modifies engine, raw
      ensures Valid() && SendDid(old(View()), buf[..], n, threw, View())
      ensures StoppedBy(old(raw.answers), raw.answers, if threw || buf.Length == 0 then 1 else n)
      ensures Healthy(old(View())) ==> (Healthy(View()) <==> AllTaken(old(raw.answers), raw.answers))
    {
      hide SendDid, SendSoFar, Fed, SslWrite, StoppedBy, AllTaken;
      ghost var was := raw.answers;
      NotStopped(was);
      ghost var c := View();
      ghost var data := buf[..];
      SendStarts(c);
      var consumed := 0;
      n, threw := 0, false;
      var writeBuf := new byte[CHUNK];
      while consumed < buf.Length
        invariant consumed <= buf.Length && buf[..] == data && Valid() && SendSoFar(c, data[..consumed], View())
        invariant StoppedBy(was, raw.answers, 1)
        invariant if consumed > 0 then engine.ssl.writeBio == [] && Established(c.e) else View() == c
        decreases buf.Length - consumed
      {
        ghost var before := View();
        var res := engine.SslWrite(buf, consumed);
        SendWrites(c, data, consumed, before, res, View());
        if res <= 0 {
          threw := true;
          HealthByAnswers(c, data, n, threw, View(), was, raw.answers);
          return;
        }
        consumed := consumed + res;
        while true
          invariant buf[..] == data && Valid() && SendSoFar(c, data[..consumed], View()) && Established(c.e)
          invariant StoppedBy(was, raw.answers, 1)
          decreases |engine.ssl.writeBio|
        {
          var pending := engine.WritePending();
          if pending <= 0 {
            break;
          }
          before := View();
          var taken := engine.Read(writeBuf);
          ghost var answered := raw.answers;
          var r, sent := PushChunk(writeBuf, taken);
          StopsLater(was, answered, raw.answers, r);
          DrainFed(before.e, taken);
          if r <= 0 {
            n := r;
            SendFails(c, data, consumed, before, taken, sent, r, View());
            HealthByAnswers(c, data, n, threw, View(), was, raw.answers);
            return;
          }
          SendDrains(c, data[..consumed], before, taken, View());
        }
      }
      n := consumed;
      StoppedAny(was, raw.answers, n);
      SendEnds(c, data, View());
      HealthByAnswers(c, data, n, threw, View(), was, raw.answers);
    }
  }

  // ---- The results of the raw stream. ----

  /** The raw results in a run of the handshake machine. */
  function RawResults(trace: seq<Event>): seq<int> {
    if trace == [] then [] else RawResults(trace[..|trace| - 1]) + RawResult(trace[|trace| - 1])
  }

  function RawResult(ev: Event): seq<int> {
    match ev
    case Perform => []
    case RawSent(n) => [n]
    case RawReceived(n, _) => [n]
  }

  /** Each receive since `was` asked for `n` bytes. */
  ghost predicate AskedAlways(n: nat, was: seq<nat>, asked: seq<nat>) {
    was <= asked && forall i :: |was| <= i < |asked| ==> asked[i] == n
  }

  /** Of the answers since `was` only the last may be negative, and then the handshake reports it; otherwise it
      reports no raw failure, and the end of the input only when the last answer is zero. */
  ghost predicate AnsweredAs(result: Result, was: seq<int>, answers: seq<int>) {
    && was <= answers
    && (forall i :: |was| <= i < |answers| - 1 ==> answers[i] >= 0)
    && (forall code ::
          result == RawFailure(code) <==> |was| < |answers| && answers[|answers| - 1] == code && code < 0)
    && (result == ReadEof ==> |was| < |answers| && answers[|answers| - 1] == 0)
  }

  lemma {:induction false} CleanResults(trace: seq<Event>)
    requires forall ev <- trace :: Clean(ev)
    ensures forall n <- RawResults(trace) :: n >= 0
  {
    if trace != [] {
      var front, last := trace[..|trace| - 1], trace[|trace| - 1];
      CleanResults(front);
      assert Clean(last);
      assert forall n <- RawResult(last) :: n >= 0;
      hide RawResult;
      assert RawResults(trace) == RawResults(front) + RawResult(last);
    }
  }

  lemma RawResultsLast(trace: seq<Event>, ev: Event)
    ensures RawResults(trace + [ev]) == RawResults(trace) + RawResult(ev)
  {
    assert (trace + [ev])[..|trace|] == trace;
  }

  lemma AnswersEnd(result: Result, was: seq<int>, front: seq<int>, answers: seq<int>, last: Event)
    requires answers == was + (front + RawResult(last))
    requires forall i :: |was| <= i < |was| + |front| ==> answers[i] >= 0
    requires result == ReadEof <==> last.RawReceived? && last.n == 0
    requires forall code :: result == RawFailure(code) <==> FailedWith(last, code)
    ensures AnsweredAs(result, was, answers)
  {
    if last.Perform? {
      assert forall code :: result != RawFailure(code);
    } else {
      assert answers[|answers| - 1] == last.n;
    }
  }

  lemma EndsInAnswer(result: Result, was: seq<int>, answers: seq<int>, trace: seq<Event>)
    requires EndsAs(result, trace) && answers == was + RawResults(trace)
    ensures AnsweredAs(result, was, answers)
  {
    hide RawResults, Clean;
    var before, last := trace[..|trace| - 1], trace[|trace| - 1];
    var front := RawResults(before);
    RawResultsLast(before, last);
    assert before + [last] == trace;
    CleanResults(before);
    forall i | |was| <= i < |was| + |front| ensures answers[i] >= 0 {
      assert answers[i] == front[i - |was|] && front[i - |was|] in front;
    }
    AnswersEnd(result, was, front, answers, last);
  }

  lemma EndsAnswered(p: Peer, was: seq<int>, answers: seq<int>, trace: seq<Event>)
    requires Traced(p, trace) && p.pc.Performing? && FollowAll(p, trace).pc.Over? && answers == was + RawResults(trace)
    ensures var result := FollowAll(p, trace).pc.result; EndsAs(result, trace) && AnsweredAs(result, was, answers)
  {
    TraceEnds(p, trace);
    hide Traced, FollowAll, Clean, EndsAs, AnsweredAs;
    EndsInAnswer(FollowAll(p, trace).pc.result, was, answers, trace);
  }

  /** What the raw stream has answered since `was` is what `trace` has gained since `past`. */
  ghost predicate Reported(was: seq<int>, past: seq<Event>, answers: seq<int>, trace: seq<Event>) {
    exists more: seq<int> :: answers == was + more && RawResults(trace) == RawResults(past) + more
  }

  lemma NothingReported(was: seq<int>, past: seq<Event>)
    ensures Reported(was, past, was, past)
  {
    hide RawResults;
    assert was == was + [] && RawResults(past) == RawResults(past) + [];
  }

  lemma ReportsMore(was: seq<int>, past: seq<Event>, answers: seq<int>, trace: seq<Event>, ev: Event)
    requires Reported(was, past, answers, trace)
    ensures Reported(was, past, answers + RawResult(ev), trace + [ev])
    ensures ev.Perform? ==> answers + RawResult(ev) == answers
  {
    hide RawResults;
    RawResultsLast(trace, ev);
    var more :| answers == was + more && RawResults(trace) == RawResults(past) + more;
    assert answers + RawResult(ev) == was + (more + RawResult(ev));
    assert RawResults(trace + [ev]) == RawResults(past) + (more + RawResult(ev));
  }

  lemma ReportsChain(was: seq<int>, mid: seq<int>, midTrace: seq<Event>, answers: seq<int>, trace: seq<Event>)
    requires Reported(was, [], mid, midTrace) && Reported(mid, midTrace, answers, trace)
    ensures Reported(was, [], answers, trace)
  {
    hide RawResults;
    var m1 :| mid == was + m1 && RawResults(midTrace) == RawResults([]) + m1;
    var m2 :| answers == mid + m2 && RawResults(trace) == RawResults(midTrace) + m2;
    assert answers == was + (m1 + m2) && RawResults(trace) == RawResults([]) + (m1 + m2);
  }

  lemma ReportedAll(was: seq<int>, answers: seq<int>, trace: seq<Event>)
    requires Reported(was, [], answers, trace)
    ensures answers == was + RawResults(trace)
  {
  }

  /** Since `was` the raw stream has answered, each time with a positive count, except perhaps that the last
      answer is `r` if that is not positive. */
  ghost predicate StoppedBy(was: seq<int>, answers: seq<int>, r: int) {
    && was <= answers
    && (forall i :: |was| <= i < (if r > 0 then |answers| else |answers| - 1) ==> answers[i] > 0)
    && (r <= 0 ==> |was| < |answers| && answers[|answers| - 1] == r)
  }

  /** Each answer since `was` was a positive count. */
  predicate AllTaken(was: seq<int>, answers: seq<int>) {
    forall i :: |was| <= i < |answers| ==> answers[i] > 0
  }

  /** A send keeps the wire complete exactly when the raw stream took something each time it was asked. */
  lemma HealthByAnswers(c: Conn, data: seq<byte>, n: int, threw: bool, c': Conn, was: seq<int>, answers: seq<int>)
    requires SendDid(c, data, n, threw, c') && StoppedBy(was, answers, if threw || data == [] then 1 else n)
    ensures Healthy(c) ==> (Healthy(c') <==> AllTaken(was, answers))
  {
    hide Plain, Framed, SameInput;
  }

  lemma NotStopped(was: seq<int>)
    ensures StoppedBy(was, was, 1)
  {
  }

  lemma StopsLater(was: seq<int>, mid: seq<int>, answers: seq<int>, r: int)
    requires StoppedBy(was, mid, 1) && StoppedBy(mid, answers, r)
    ensures StoppedBy(was, answers, r)
    ensures r > 0 ==> StoppedBy(was, answers, 1)
  {
  }

  lemma StoppedAny(was: seq<int>, answers: seq<int>, n: nat)
    requires StoppedBy(was, answers, 1)
    ensures n > 0 ==> StoppedBy(was, answers, n)
  {
  }

  /** The raw stream was asked once; an answer of zero or less is passed on, any other is the size of `chunk`. */
  ghost predicate Asked(was: seq<int>, answers: seq<int>, chunk: seq<byte>, n: int) {
    |answers| > 0 && answers == was + [answers[|answers| - 1]]
    && var r := answers[|answers| - 1]; if r <= 0 then n == r && chunk == [] else |chunk| == r
  }

  // ---- The steps of `handshake`. ----

  predicate EndsWith(s: seq<byte>, tail: seq<byte>) {
    |tail| <= |s| && s[|s| - |tail|..] == tail
  }

  /** A handshake under way, about to call `perform`. */
  ghost predicate HandshakeSoFar(c: Conn, c': Conn) {
    && c'.e.script == c.e.script && c'.e.pending == c.e.pending
    && c.wire <= c'.wire && c.received <= c'.received && c.received + c.incoming == c'.received + c'.incoming
    && (Healthy(c) ==> Healthy(c'))
    && (c.e.dead ==> c'.e.dead)
    && (c'.e.dead && !c.e.dead ==> EndsWith(Emitted(c'.e), ALERT))
    && (OnScript(c.e.(isClient := c'.e.isClient)) && !c'.e.dead ==> OnScript(c'.e))
  }

  /** What one call of `handshake` promises. Success and engine failure are reported only when everything
      the engine emitted, the alert of a failure included, has been sent. After success from the start
      of the script, what is still in `readBio` is exactly what was received past the flights of the
      peer. */
  ghost predicate HandshakeDid(c: Conn, result: Result, c': Conn) {
    && c'.e.script == c.e.script && c'.e.pending == c.e.pending
    && c.wire <= c'.wire && c.received <= c'.received && c.received + c.incoming == c'.received + c'.incoming
    && (Healthy(c) ==> c'.wire <= Emitted(c'.e))
    && (result.Success? ==> Established(c'.e))
    && (result.EngineFailure? ==> c'.e.dead)
    && (result.Success? || result.EngineFailure? ==> c'.e.writeBio == [] && (Healthy(c) ==> c'.wire == Emitted(c'.e)))
    && (result.EngineFailure? && !c.e.dead && Healthy(c) ==> EndsWith(c'.wire, ALERT))
    && (result.Success? && OnScript(c.e.(isClient := c'.e.isClient)) ==>
          && Emitted(c'.e) == Flights(c'.e.script, c'.e.isClient, |c'.e.script|)
          && Fed(c'.e) == Flights(c'.e.script, !c'.e.isClient, |c'.e.script|) + c'.e.readBio)
  }

  // ---- The steps of `recv`. ----

  /** What one call of `recv` promises: `out` is what it delivered, `chunk` what it took from the raw
      stream, and `waited` whether it asked the raw stream at all. It delivers the record in hand, or as much of
      it as fits. */
  ghost predicate RecvDid(c: Conn, len: nat, n: int, out: seq<byte>, chunk: seq<byte>, waited: bool, c': Conn) {
    && c'.wire == c.wire && SameSession(c.e, c'.e) && Outputs(c.e, c'.e, []) && (c.e.dead ==> c'.e.dead)
    && chunk + c'.incoming == c.incoming && c'.received == c.received + chunk && |chunk| <= len
    && (forall x :: Undelivered(c.e, chunk + x) == out + Undelivered(c'.e, x))
    && |out| == (if n > 0 then n else 0) && n <= len
    && (n > 0 ==> out + c'.e.pending == Front(c.e, chunk) && (n == len || c'.e.pending == []))
    && (!waited ==> chunk == [] && n > 0)
    && (len > 0 ==> (!waited <==> Established(c.e) && Undelivered(c.e, []) != []))
    && (chunk != [] ==> if Established(c'.e) then n >= 0 else n == -1)
    && (chunk != [] && n == 0 ==> Undelivered(c'.e, []) == [])
    && Residue(c'.e.readBio + c'.incoming) == Residue(c.e.readBio + c.incoming)
    && (c'.e.dead && !c.e.dead ==> !Sound(c.e.readBio + c.incoming))
    && |c'.e.readBio| + |c'.e.pending| + |out| <= |c.e.readBio| + |c.e.pending| + |chunk|
  }

  /** A malformed record is never overcome. */
  lemma BadStays(e: Engine, x: seq<byte>)
    requires Parse(e.readBio).Bad?
    ensures !Sound(e.readBio + x)
  {
    ParseExtends(e.readBio, x);
  }

  /** One read, seen from what is still to come in. */
  lemma ReadKeepsSound(e: Engine, len: nat, x: seq<byte>)
    ensures var e' := SslRead(e, len).2;
            && Residue(e'.readBio + x) == Residue(e.readBio + x)
            && (e'.dead && !e.dead ==> !Sound(e.readBio + x))
  {
    SslReadKeeps(e, len);
    hide SslRead, Residue, Parse, Undelivered, Fed, Outputs;
    if SslRead(e, len).2.dead && !e.dead {
      BadStays(SslRead(e, len).2, x);
    }
  }

  /** A read that finds data at once. */
  lemma RecvAtOnce(c: Conn, len: nat, n: int, out: seq<byte>, c': Conn)
    requires (n, out, c'.e) == SslRead(c.e, len) && c' == c.(e := c'.e) && n > 0
    ensures RecvDid(c, len, n, out, [], false, c') && Fed(c'.e) == Fed(c.e)
  {
    hide SslRead, Undelivered, Fed, Outputs, GetSslStatus, Parse, Residue, Sound, Front;
    SomeLength(c.e, len);
    SslReadKeeps(c.e, len);
    SslReadGives(c.e, len);
    ReadKeepsSound(c.e, len, c.incoming);
    forall x ensures Undelivered(c.e, [] + x) == out + Undelivered(c'.e, x) {
      assert [] + x == x;
    }
  }

  lemma AmountAtOnce(c: Conn, len: nat, n: int, out: seq<byte>, c': Conn)
    requires RecvDid(c, len, n, out, [], false, c') && c.e.pending != []
    ensures n == Min(len, |c.e.pending|)
  {
    hide Plain, Undelivered, Outputs, Residue, Sound, Fed;
  }

  lemma SomeLength(e: Engine, len: nat)
    requires SslRead(e, len).0 > 0
    ensures len > 0
  {
  }

  /** A read that finds none, after which the raw stream gives nothing either. */
  lemma RecvNothing(c: Conn, len: nat, n: int, c': Conn)
    requires SslRead(c.e, len).0 <= 0 && c' == c.(e := SslRead(c.e, len).2) && n <= 0
    ensures RecvDid(c, len, n, [], [], true, c') && Fed(c'.e) == Fed(c.e)
  {
    hide SslRead, Undelivered, Fed, Outputs, Residue, Sound;
    SslReadKeeps(c.e, len);
    if len > 0 {
      SslReadGives(c.e, len);
    }
    ReadKeepsSound(c.e, len, c.incoming);
    forall x ensures Undelivered(c.e, [] + x) == [] + Undelivered(c'.e, x) {
      assert [] + x == x;
    }
  }

  /** A read that finds none, then `chunk` from the raw stream, then a second read. */
  lemma RecvAfterWait(c: Conn, len: nat, chunk: seq<byte>, n: int, out: seq<byte>, c': Conn)
    requires len > 0 && SslRead(c.e, len).0 <= 0 && 0 < |chunk| <= len && chunk <= c.incoming
    requires var e1 := Feed(SslRead(c.e, len).2, chunk);
             && out == SslRead(e1, len).1 && c'.e == SslRead(e1, len).2
             && n == if SslRead(e1, len).0 > 0 then SslRead(e1, len).0
                else if GetSslStatus(c'.e, SslRead(e1, len).0) == WantRead then 0 else -1
    requires c'.wire == c.wire && c'.incoming == c.incoming[|chunk|..] && c'.received == c.received + chunk
    ensures RecvDid(c, len, n, out, chunk, true, c') && Fed(c'.e) == Fed(c.e) + chunk
  {
    var e0 := SslRead(c.e, len).2;
    var e1 := Feed(e0, chunk);
    FeedFed(e0, chunk);
    RecvGives(c.e, len, chunk);
    ReadsKeep(c.e, len, chunk);
    ReadsKeepSound(c.e, len, chunk, c'.incoming);
    hide SslRead, Undelivered, Fed, Outputs, Residue, Sound;
    assert chunk + c.incoming[|chunk|..] == c.incoming;
  }

  lemma ReadsKeepSound(e: Engine, len: nat, chunk: seq<byte>, x: seq<byte>)
    ensures var e' := SslRead(Feed(SslRead(e, len).2, chunk), len).2;
            && Residue(e'.readBio + x) == Residue(e.readBio + (chunk + x))
            && (e'.dead && !e.dead ==> !Sound(e.readBio + (chunk + x)))
  {
    hide SslRead, Residue, Sound;
    var e0 := SslRead(e, len).2;
    var e1 := Feed(e0, chunk);
    ReadKeepsSound(e, len, chunk + x);
    assert e0.readBio + (chunk + x) == e1.readBio + x;
    ReadKeepsSound(e1, len, x);
    SameSound(e0.readBio + (chunk + x), e.readBio + (chunk + x));
  }

  lemma SameSound(a: seq<byte>, b: seq<byte>)
    requires Residue(a) == Residue(b)
    ensures Sound(a) == Sound(b)
  {
  }

  /** What two reads with a chunk between them keep. */
  lemma ReadsKeep(e: Engine, len: nat, chunk: seq<byte>)
    requires SslRead(e, len).0 <= 0
    ensures var e1 := Feed(SslRead(e, len).2, chunk);
            var (_, out, e') := SslRead(e1, len);
            && SameSession(e, e') && Outputs(e, e', []) && (e.dead ==> e'.dead) && Fed(e') == Fed(e1)
            && Fed(SslRead(e, len).2) == Fed(e)
            && (forall x :: Undelivered(e, chunk + x) == out + Undelivered(e', x))
            && |e'.readBio| + |e'.pending| + |out| <= |e.readBio| + |e.pending| + |chunk|
  {
    var e0 := SslRead(e, len).2;
    var e1 := Feed(e0, chunk);
    var (_, out, e') := SslRead(e1, len);
    SslReadKeeps(e, len);
    SslReadKeeps(e1, len);
    hide SslRead;
    RecvOutputs(e, e0, e1, e');
    RecvConserves(e, e0, e1, e', chunk, out);
  }

  /** What two reads with a chunk between them give. */
  lemma RecvGives(e: Engine, len: nat, chunk: seq<byte>)
    requires len > 0 && SslRead(e, len).0 <= 0
    ensures var e1 := Feed(SslRead(e, len).2, chunk);
            var (n, out, e') := SslRead(e1, len);
            && !(Established(e) && Undelivered(e, []) != [])
            && |out| == (if n > 0 then n else 0) && n <= len
            && (n > 0 ==> Established(e'))
            && (n > 0 ==> out + e'.pending == Front(e, chunk) && (n == len || e'.pending == []))
            && (n <= 0 ==> (Established(e') <==> GetSslStatus(e', n) == WantRead))
            && (n <= 0 && Established(e') ==> Undelivered(e', []) == [])
  {
    var e1 := Feed(SslRead(e, len).2, chunk);
    SslReadGives(e, len);
    SslReadGives(e1, len);
    SslReadKeeps(e1, len);
    FrontKept(e, len, chunk);
    hide SslRead, Undelivered, Fed, Outputs, Front;
    var e' := SslRead(e1, len).2;
    assert Undelivered(e1, []) == SslRead(e1, len).1 + Undelivered(e', []);
  }

  /** A read that finds nothing leaves the next record in hand to the one after it. */
  lemma FrontKept(e: Engine, len: nat, chunk: seq<byte>)
    requires len > 0 && SslRead(e, len).0 <= 0
    ensures var e1 := Feed(SslRead(e, len).2, chunk); Front(e1, []) == Front(e, chunk)
  {
    SslReadKeeps(e, len);
    hide SslRead, Undelivered, Fed, Outputs, FirstData, Residue, Parse;
    var e0 := SslRead(e, len).2;
    assert (e0.readBio + chunk) + [] == e0.readBio + chunk;
  }

  lemma FeedFed(e: Engine, chunk: seq<byte>)
    ensures Fed(Feed(e, chunk)) == Fed(e) + chunk
  {
  }

  lemma RecvOutputs(e: Engine, e0: Engine, e1: Engine, e': Engine)
    requires Outputs(e, e0, []) && e1.writeBio == e0.writeBio && e1.drained == e0.drained && e1.dead == e0.dead
    requires Outputs(e1, e', [])
    requires e1.dead ==> e'.dead && Added(e1, e') == []
    ensures Outputs(e, e', [])
  {
    hide Plain, Framed;
    if e1.dead {
      assert e'.writeBio == e0.writeBio;
    } else {
      OutputsMore(e, e1, e', []);
    }
  }

  lemma RecvConserves(e: Engine, e0: Engine, e1: Engine, e': Engine, chunk: seq<byte>, out: seq<byte>)
    requires forall x :: Undelivered(e, x) == [] + Undelivered(e0, x)
    requires e1 == Feed(e0, chunk)
    requires forall x :: Undelivered(e1, x) == out + Undelivered(e', x)
    ensures forall x :: Undelivered(e, chunk + x) == out + Undelivered(e', x)
  {
    hide Plain;
    forall x ensures Undelivered(e, chunk + x) == out + Undelivered(e', x) {
      assert Undelivered(e, chunk + x) == [] + Undelivered(e0, chunk + x);
      assert e0.readBio + (chunk + x) == e1.readBio + x;
    }
  }

  // ---- The steps of `send`. ----

  /** A send under way: `data` has been taken by the engine, and no raw send has failed. */
  ghost predicate SendSoFar(c: Conn, data: seq<byte>, c': Conn) {
    && SameInput(c.e, c'.e) && c'.incoming == c.incoming && c'.received == c.received
    && Emitted(c.e) <= Emitted(c'.e) && c.wire <= c'.wire
    && Framed(Output(c.e, c'.e)) && Plain(Output(c.e, c'.e)) == data
    && |c'.wire| - |c.wire| == |c'.e.drained| - |c.e.drained|
    && (Healthy(c) ==> Healthy(c'))
  }

  lemma DrainFed(e: Engine, n: nat)
    requires n <= |e.writeBio|
    ensures Fed(Drain(e, n)) == Fed(e)
  {
  }

  lemma SendStarts(c: Conn)
    ensures SendSoFar(c, [], c)
  {
    assert Output(c.e, c.e) == [];
    assert Framed([]) && Plain([]) == [];
  }

  lemma EmittedMore(e: Engine, e': Engine, x: seq<byte>)
    requires e'.drained == e.drained && e'.writeBio == e.writeBio + x
    ensures Emitted(e') == Emitted(e) + x
  {
  }

  lemma SuffixMore(a: seq<byte>, b: seq<byte>, x: seq<byte>)
    requires a <= b
    ensures a <= b + x && (b + x)[|a|..] == b[|a|..] + x
  {
  }

  /** One write in the middle of a send; if it takes nothing, the engine was never usable. */
  lemma SendWrites(c: Conn, data: seq<byte>, consumed: nat, c1: Conn, res: int, c2: Conn)
    requires consumed < |data| && SendSoFar(c, data[..consumed], c1)
    requires if consumed > 0 then Established(c.e) else c1 == c
    requires (res, c2.e) == SslWrite(c1.e, data[consumed..]) && c2 == c1.(e := c2.e)
    ensures res <= |data| - consumed
    ensures res > 0 ==> SendSoFar(c, data[..consumed + res], c2)
    ensures res <= 0 ==> SendDid(c, data, 0, true, c2)
    ensures (res > 0 <==> Established(c.e)) && Fed(c2.e) == Fed(c1.e)
  {
    hide Plain, Framed, SslWrite;
    SslWriteKeeps(c1.e, data[consumed..]);
    if res > 0 {
      var out := Added(c1.e, c2.e);
      EmittedMore(c1.e, c2.e, out);
      SuffixMore(Emitted(c.e), Emitted(c1.e), out);
      FramedAppend(Output(c.e, c1.e), out);
      hide Emitted;
      assert data[..consumed] + data[consumed..][..res] == data[..consumed + res];
    } else {
      assert data[..consumed] <= data;
      assert Emitted(c2.e) == Emitted(c1.e);
    }
  }

  /** A chunk leaves the engine and is accepted in full. */
  lemma SendDrains(c: Conn, data: seq<byte>, c1: Conn, taken: nat, c2: Conn)
    requires SendSoFar(c, data, c1) && taken <= |c1.e.writeBio|
    requires c2 == c1.(e := Drain(c1.e, taken), wire := c1.wire + c1.e.writeBio[..taken])
    ensures SendSoFar(c, data, c2)
  {
    hide Plain, Framed;
    DrainKeeps(c1.e, taken);
    hide Emitted;
  }

  /** A chunk leaves the engine and is accepted in part only. */
  lemma SendFails(c: Conn, data: seq<byte>, consumed: nat, c1: Conn, taken: nat, sent: nat, r: int, c2: Conn)
    requires 0 < consumed <= |data| && SendSoFar(c, data[..consumed], c1) && taken <= |c1.e.writeBio| && sent < taken
    requires r <= 0
    requires Established(c.e)
    requires c2 == c1.(e := Drain(c1.e, taken), wire := c1.wire + c1.e.writeBio[..taken][..sent])
    ensures SendDid(c, data, r, false, c2)
  {
    hide Plain, Framed;
    DrainKeeps(c1.e, taken);
    hide Emitted;
    assert data[..consumed] <= data;
    assert c1.wire + c1.e.writeBio[..taken][..sent] <= c1.wire + c1.e.writeBio[..taken];
  }

  lemma SendEnds(c: Conn, data: seq<byte>, c': Conn)
    requires SendSoFar(c, data[..|data|], c') && (data == [] ==> c' == c)
    requires (data != [] ==> c'.e.writeBio == [] && Established(c.e))
    ensures SendDid(c, data, |data|, false, c')
  {
    hide Plain, Framed;
    assert data[..|data|] == data;
  }

  // ---- The steps of `handshake`, proved. ----

  lemma HandshakeStarts(c: Conn, c1: Conn, p: Peer)
    requires c1 == c.(e := c1.e) && c1.e == c.e.(isClient := c1.e.isClient)
    ensures HandshakeSoFar(c, c1) && Fed(c1.e) == Fed(c.e)
    ensures Traced(p, []) && FollowAll(p, []) == p
  {
  }

  lemma HandshakePerforms(c: Conn, c1: Conn, c2: Conn)
    requires HandshakeSoFar(c, c1) && c2 == c1.(e := Negotiate(c1.e).1)
    ensures HandshakeSoFar(c, c2) && Fed(c2.e) == Fed(c1.e)
    ensures PerformStatus(Negotiate(c1.e).0, c2.e) == WantWrite ==> c2.e.writeBio != []
  {
    NegotiateKeeps(c1.e);
    if OnScript(c.e.(isClient := c2.e.isClient)) && !c1.e.dead {
      NegotiateOnScript(c1.e);
    }
    hide Negotiate, OnScript;
    assert |Emitted(c1.e)| <= |Emitted(c2.e)|;
    if c2.e.dead && !c1.e.dead {
      var w := c2.e.writeBio;
      assert Emitted(c2.e)[|Emitted(c2.e)| - |ALERT|..] == w[|w| - |ALERT|..];
    } else if c1.e.dead {
      assert Emitted(c2.e) == Emitted(c1.e);
    }
  }

  lemma HandshakeEnds(c: Conn, c1: Conn, result: Result, c2: Conn)
    requires HandshakeSoFar(c, c2) && c2 == c1.(e := Negotiate(c1.e).1)
    requires var status := PerformStatus(Negotiate(c1.e).0, c2.e);
             if result.Success? then status == Ok
                else result.EngineFailure? && (status == Error || status == ErrorSyscall)
    ensures HandshakeDid(c, result, c2)
  {
    NegotiateKeeps(c1.e);
    hide Negotiate;
    assert c2.e.drained + [] == c2.e.drained;
  }

  lemma HandshakeReads(c: Conn, c2: Conn)
    requires HandshakeSoFar(c, c2)
    ensures forall result: Result :: result.ReadEof? || result.RawFailure? ==> HandshakeDid(c, result, c2)
  {
    assert c2.e.drained <= Emitted(c2.e);
  }

  lemma HandshakeFeeds(c: Conn, c1: Conn, chunk: seq<byte>, c2: Conn)
    requires HandshakeSoFar(c, c1) && chunk <= c1.incoming
    requires c2 == Conn(Feed(c1.e, chunk), c1.wire, c1.incoming[|chunk|..], c1.received + chunk)
    ensures HandshakeSoFar(c, c2)
  {
    assert c1.incoming == chunk + c1.incoming[|chunk|..];
    assert Emitted(c2.e) == Emitted(c1.e);
    assert c1.received + c1.incoming == c2.received + c2.incoming;
  }

  lemma HandshakeDrains(c: Conn, c1: Conn, taken: nat, c2: Conn)
    requires HandshakeSoFar(c, c1) && taken <= |c1.e.writeBio|
    requires c2 == c1.(e := Drain(c1.e, taken), wire := c1.wire + c1.e.writeBio[..taken])
    ensures HandshakeSoFar(c, c2)
  {
    DrainKeeps(c1.e, taken);
  }

  lemma HandshakeBreaks(c: Conn, c1: Conn, taken: nat, sent: nat, result: Result, c2: Conn)
    requires HandshakeSoFar(c, c1) && taken <= |c1.e.writeBio| && sent <= taken && result.RawFailure?
    requires c2 == c1.(e := Drain(c1.e, taken), wire := c1.wire + c1.e.writeBio[..taken][..sent])
    ensures HandshakeDid(c, result, c2)
  {
    assert c1.wire + c1.e.writeBio[..taken][..sent] <= c1.wire + c1.e.writeBio[..taken];
    assert c2.e.drained <= Emitted(c2.e);
  }
}
