/**
  The TLS engine behind `ssl_engine`: a handshake that follows a script of flights, then the record
  layer of `Records`, between two in-memory byte queues.
 */
module TlsEngine {
  import opened Records

  /** `ssl_status`. */
  datatype Status = Ok | Error | ErrorSyscall | WantRead | WantWrite

  /** The codes of `SSL_get_error` that `get_ssl_status` tells apart. */
  datatype SslError = NoError | ErrWantRead | ErrWantWrite | ErrSyscall | ErrSsl | ErrOther

  /** One flight of the handshake and the side that sends it. */
  datatype Flight = Flight(byClient: bool, bytes: seq<byte>)

  /** What a fatal error makes the engine send. */
  const ALERT: seq<byte> := [21, 3, 3, 0, 2, 2, 40]

  /** A control record that asks for a reply, and the reply. */
  const ASK: seq<byte> := [1]
  const REPLY: seq<byte> := [0]

  /**
    The engine. `at` flights are over; `pending` is data of a record already opened; `partial` is the
    mode in which a write stops after one record. `drained` and `taken` are histories: everything ever
    read out of `writeBio`, and everything the engine ever consumed of `readBio`.
   */
  datatype Engine = Engine(
    script: seq<Flight>,
    isClient: bool,
    at: nat,
    dead: bool,
    lastError: SslError,
    pending: seq<byte>,
    partial: bool,
    readBio: seq<byte>,
    writeBio: seq<byte>,
    drained: seq<byte>,
    taken: seq<byte>)

  /** Everything the engine ever put into `writeBio`. */
  function Emitted(e: Engine): seq<byte> {
    e.drained + e.writeBio
  }

  /** Everything ever put into `readBio`. */
  function Fed(e: Engine): seq<byte> {
    e.taken + e.readBio
  }

  predicate Established(e: Engine) {
    !e.dead && e.at >= |e.script|
  }

  function Emit(e: Engine, bytes: seq<byte>): Engine {
    e.(writeBio := e.writeBio + bytes)
  }

  function Consume(e: Engine, n: nat): Engine
    requires n <= |e.readBio|
  {
    e.(readBio := e.readBio[n..], taken := e.taken + e.readBio[..n])
  }

  function Fail(e: Engine): Engine {
    Emit(e, ALERT).(dead := true, lastError := ErrSsl)
  }

  /** `SSL_get_error` right after an operation that returned `n`. */
  function GetError(e: Engine, n: int): SslError {
    if n > 0 then NoError else e.lastError
  }

  /** `get_ssl_status`. */
  function GetSslStatus(e: Engine, n: int): Status {
    match GetError(e, n)
    case NoError => Ok
    case ErrWantRead => WantRead
    case ErrWantWrite => WantWrite
    case ErrSyscall => ErrorSyscall
    case _ => Error
  }

  // ---- Handshake. ----

  predicate Mine(e: Engine)
    requires e.at < |e.script|
  {
    e.script[e.at].byClient == e.isClient
  }

  /** `SSL_connect` or `SSL_accept`: sends its own flights and takes those of the peer, until the script is
      over or input is missing. */
  function Negotiate(e: Engine): (int, Engine)
    decreases |e.script| - e.at
  {
    if e.dead then (-1, e.(lastError := ErrSsl))
    else if e.at >= |e.script| then (1, e.(lastError := NoError))
    else if Mine(e) then Negotiate(Emit(e, e.script[e.at].bytes).(at := e.at + 1))
    else
      var flight := e.script[e.at].bytes;
      if |e.readBio| < |flight| then (-1, e.(lastError := ErrWantRead))
      else if e.readBio[..|flight|] != flight then (-1, Fail(e))
      else Negotiate(Consume(e, |flight|).(at := e.at + 1))
  }

  /** `ssl_engine::perform`: pending output comes before any result. */
  function PerformStatus(ret: int, e: Engine): Status {
    if |e.writeBio| > 0 then WantWrite
    else if GetError(e, ret) == ErrSyscall then Error
    else GetSslStatus(e, ret)
  }

  // ---- Data. ----

  /** Hands out at most `len` bytes of the opened record. */
  function Deliver(e: Engine, len: nat): (int, seq<byte>, Engine) {
    var n := if len < |e.pending| then len else |e.pending|;
    (n, e.pending[..n], e.(pending := e.pending[n..], lastError := NoError))
  }

  /** `SSL_read`: the result, the bytes, the engine after. */
  function SslRead(e: Engine, len: nat): (int, seq<byte>, Engine)
    decreases |e.readBio|
  {
    if !Established(e) then (-1, [], e.(lastError := ErrSsl))
    else if len == 0 then (0, [], e.(lastError := ErrOther))
    else if e.pending != [] then Deliver(e, len)
    else
      match Parse(e.readBio)
      case Incomplete => (-1, [], e.(lastError := ErrWantRead))
      case Bad => (-1, [], Fail(e))
      case Record(Data, payload, rest) =>
        if payload == [] then SslRead(Consume(e, |e.readBio| - |rest|), len)
        else Deliver(Consume(e, |e.readBio| - |rest|).(pending := payload), len)
      case Record(Control, payload, rest) =>
        var e1 := Consume(e, |e.readBio| - |rest|);
        SslRead(if payload == ASK then Emit(e1, Encode(Control, REPLY)) else e1, len)
  }

  /** `SSL_write`: the result and the engine after. */
  function SslWrite(e: Engine, data: seq<byte>): (int, Engine) {
    if !Established(e) then (-1, e.(lastError := ErrSsl))
    else if e.partial && |data| > MAX_FRAGMENT then
      (MAX_FRAGMENT, Emit(e, Encode(Data, data[..MAX_FRAGMENT])).(lastError := NoError))
    else (|data|, Emit(e, Fragments(data)).(lastError := NoError))
  }

  /** `BIO_write` on `readBio`. */
  function Feed(e: Engine, bytes: seq<byte>): Engine {
    e.(readBio := e.readBio + bytes)
  }

  /** `BIO_read` on `writeBio`. */
  function Drain(e: Engine, n: nat): Engine
    requires n <= |e.writeBio|
  {
    e.(writeBio := e.writeBio[n..], drained := e.drained + e.writeBio[..n])
  }

  // ---- What the operations keep and promise. ----

  /** The data still to come out of the engine when `future` is still to come in. */
  function Undelivered(e: Engine, future: seq<byte>): seq<byte> {
    e.pending + Plain(e.readBio + future)
  }

  /** The data in hand when `future` is still to come in: what is left of the record already opened, else the
      data of the next record that carries any. */
  function Front(e: Engine, future: seq<byte>): seq<byte> {
    if e.pending != [] then e.pending else FirstData(e.readBio + future)
  }

  /** The output an operation added behind what was pending. */
  function Added(e: Engine, e': Engine): seq<byte> {
    if |e.writeBio| <= |e'.writeBio| then e'.writeBio[|e.writeBio|..] else []
  }

  /** An operation adds output that carries `data`, in whole records unless the engine fails. */
  predicate Outputs(e: Engine, e': Engine, data: seq<byte>) {
    && e'.drained == e.drained && e'.writeBio == e.writeBio + Added(e, e')
    && Plain(Added(e, e')) == data && (!e'.dead ==> Framed(Added(e, e')))
  }

  lemma OutputsMore(e: Engine, e1: Engine, e2: Engine, data: seq<byte>)
    requires e1.writeBio == e.writeBio + Added(e, e1) && e1.drained == e.drained && Framed(Added(e, e1))
    requires Plain(Added(e, e1)) == []
    requires Outputs(e1, e2, data)
    ensures Outputs(e, e2, data)
  {
    hide Plain, Framed;
    FramedAppend(Added(e, e1), Added(e1, e2));
    assert Added(e, e2) == Added(e, e1) + Added(e1, e2);
  }

  /** The parts of the engine that reading and writing data leave alone. */
  predicate SameSession(e: Engine, e': Engine) {
    e'.script == e.script && e'.isClient == e.isClient && e'.at == e.at && e'.partial == e.partial
  }

  /** One read: nothing fed is lost, the data is conserved whatever comes later, and what the read
      emits carries no data. */
  ghost predicate ReadKeeps(e: Engine, len: nat) {
    var (n, out, e') := SslRead(e, len);
    && Fed(e') == Fed(e) && SameSession(e, e') && Outputs(e, e', [])
    && (e.dead ==> e'.dead && Added(e, e') == [])
    && (forall x :: Undelivered(e, x) == out + Undelivered(e', x))
    && |e'.readBio| + |e'.pending| + |out| <= |e.readBio| + |e.pending|
    && (forall x :: Residue(e'.readBio + x) == Residue(e.readBio + x))
    && (e'.dead && !e.dead ==> Parse(e'.readBio).Bad?)
    && (n <= 0 ==> out == [] && e'.pending == e.pending)
    && (n <= 0 ==> forall x :: FirstData(e'.readBio + x) == FirstData(e.readBio + x))
  }

  /** The engine once the first complete record of `readBio` is taken off, and answered if it asks. */
  function AfterRecord(e: Engine): Engine
    requires Parse(e.readBio).Record?
  {
    var e1 := Consume(e, |e.readBio| - |Parse(e.readBio).rest|);
    if Parse(e.readBio).kind.Control? && Parse(e.readBio).payload == ASK then Emit(e1, Encode(Control, REPLY)) else e1
  }

  /** A record without data is skipped. */
  predicate Skips(e: Engine, len: nat) {
    Established(e) && len > 0 && e.pending == [] && Parse(e.readBio).Record?
      && (Parse(e.readBio).kind.Data? ==> Parse(e.readBio).payload == [])
  }

  lemma SkipRecord(e: Engine, len: nat)
    requires Skips(e, len)
    ensures var e2 := AfterRecord(e);
            && SslRead(e, len) == SslRead(e2, len) && Fed(e2) == Fed(e) && SameSession(e, e2) && e2.pending == []
            && Established(e2)
            && Outputs(e, e2, []) && Framed(Added(e, e2)) && |e2.readBio| < |e.readBio|
            && (forall x :: Plain(e.readBio + x) == Plain(e2.readBio + x))
            && (forall x :: Residue(e2.readBio + x) == Residue(e.readBio + x))
            && (forall x :: FirstData(e2.readBio + x) == FirstData(e.readBio + x))
  {
    hide SslRead, Framed, Plain, Residue, FirstData, Fed, Parse, Outputs;
    var e2 := AfterRecord(e);
    SkipRead(e, len);
    SkipAnswer(e);
    RecordPlain(e.readBio);
    SkipInput(e);
    assert Parse(e.readBio).kind.Data? ==> Parse(e.readBio).payload == [];
    forall x ensures Plain(e.readBio + x) == Plain(e2.readBio + x)
      && Residue(e2.readBio + x) == Residue(e.readBio + x)
      && FirstData(e2.readBio + x) == FirstData(e.readBio + x) {
      assert Plain(e.readBio + x) == [] + Plain(Parse(e.readBio).rest + x);
    }
  }

  /** Taking off a record moves it from the input to what was consumed. */
  lemma SkipInput(e: Engine)
    requires Parse(e.readBio).Record?
    ensures var e2 := AfterRecord(e);
            && Fed(e2) == Fed(e) && SameSession(e, e2) && e2.pending == e.pending && e2.dead == e.dead
            && e2.readBio == Parse(e.readBio).rest
  {
    hide Parse;
    RecordPlain(e.readBio);
    ConsumeFed(e, |e.readBio| - |Parse(e.readBio).rest|);
    hide Fed;
  }

  lemma ConsumeFed(e: Engine, n: nat)
    requires n <= |e.readBio|
    ensures Fed(Consume(e, n)) == Fed(e)
  {
    assert e.readBio == e.readBio[..n] + e.readBio[n..];
  }

  lemma SkipRead(e: Engine, len: nat)
    requires Skips(e, len)
    ensures SslRead(e, len) == SslRead(AfterRecord(e), len) && |AfterRecord(e).readBio| < |e.readBio|
  {
    hide Plain;
  }

  lemma SkipAnswer(e: Engine)
    requires Parse(e.readBio).Record?
    ensures Outputs(e, AfterRecord(e), []) && Framed(Added(e, AfterRecord(e)))
  {
    var e2 := AfterRecord(e);
    FramedOne(Control, REPLY);
    EmptyCarriesNothing();
    hide Plain, Framed, Encode;
    var reply := Encode(Control, REPLY);
    assert e2.writeBio == e.writeBio || e2.writeBio == e.writeBio + reply;
    hide AfterRecord, Parse;
    if e2.writeBio != e.writeBio {
      assert Added(e, e2) == reply;
    }
  }

  lemma EmptyCarriesNothing()
    ensures Plain([]) == [] && Framed([]) && Plain(ALERT) == []
  {
  }

  /** A read that does not skip. */
  lemma ReadAtOnce(e: Engine, len: nat)
    requires !Skips(e, len)
    ensures ReadKeeps(e, len)
  {
    AtOnceConserves(e, len);
    AtOnceFed(e, len);
    AtOnceResidue(e, len);
    AtOnceEmits(e, len);
    if SslRead(e, len).0 <= 0 {
      AtOnceFirst(e, len);
    }
    hide SslRead, Skips, Plain, FirstData, Framed, Undelivered, Fed, Residue, Outputs, Added, Parse;
  }

  lemma OpensRead(e: Engine, len: nat)
    requires !Skips(e, len) && Opens(e, len)
    ensures Parse(e.readBio).kind.Data? && e.pending == []
    ensures var (n, out, e') := SslRead(e, len);
            e'.readBio == Parse(e.readBio).rest && out + e'.pending == Parse(e.readBio).payload
  {
    RecordPlain(e.readBio);
    hide Parse, Plain;
  }

  lemma AtOnceConserves(e: Engine, len: nat)
    requires !Skips(e, len)
    ensures var (n, out, e') := SslRead(e, len);
            && (forall x :: Undelivered(e, x) == out + Undelivered(e', x))
            && |e'.readBio| + |e'.pending| + |out| <= |e.readBio| + |e.pending|
  {
    hide Plain, Parse, SslRead, Skips;
    if Opens(e, len) {
      RecordPlain(e.readBio);
      OpensRead(e, len);
      hide Opens;
    } else {
      AtOnceSame(e, len);
    }
  }

  /** A read that takes a new record. */
  predicate Opens(e: Engine, len: nat) {
    Established(e) && len > 0 && e.pending == [] && Parse(e.readBio).Record?
  }

  /** Otherwise nothing of the input is touched. */
  lemma AtOnceSame(e: Engine, len: nat)
    requires !Opens(e, len)
    ensures var (n, out, e') := SslRead(e, len); e'.readBio == e.readBio && out + e'.pending == e.pending
  {
    hide Parse;
  }

  lemma AtOnceResidue(e: Engine, len: nat)
    requires !Skips(e, len)
    ensures var e' := SslRead(e, len).2;
            && (forall x :: Residue(e'.readBio + x) == Residue(e.readBio + x))
            && (e'.dead && !e.dead ==> Parse(e'.readBio).Bad?)
  {
    hide Plain, Residue, Parse;
    if Opens(e, len) {
      RecordPlain(e.readBio);
    } else {
      AtOnceSame(e, len);
    }
  }

  lemma AtOnceEmits(e: Engine, len: nat)
    requires !Skips(e, len)
    ensures var e' := SslRead(e, len).2;
            SameSession(e, e') && Outputs(e, e', []) && (e.dead ==> e'.dead && Added(e, e') == [])
  {
    EmptyCarriesNothing();
    hide Plain, Framed, Parse;
    var e' := SslRead(e, len).2;
    assert e'.writeBio == e.writeBio || e'.writeBio == e.writeBio + ALERT;
    assert Added(e, e') == if e'.writeBio == e.writeBio then [] else ALERT;
  }

  /** A read that opens no record with data leaves what is in hand as it was. */
  lemma AtOnceFirst(e: Engine, len: nat)
    requires !Skips(e, len) && SslRead(e, len).0 <= 0
    ensures var (_, out, e') := SslRead(e, len); out == [] && e'.pending == e.pending && e'.readBio == e.readBio
  {
    hide Parse, FirstData;
  }

  lemma AtOnceFed(e: Engine, len: nat)
    requires !Skips(e, len)
    ensures Fed(SslRead(e, len).2) == Fed(e)
  {
    if Parse(e.readBio).Record? {
      ConsumeFed(e, |e.readBio| - |Parse(e.readBio).rest|);
    }
    hide Parse, Plain;
  }

  lemma {:induction false} SslReadKeeps(e: Engine, len: nat)
    ensures ReadKeeps(e, len)
    decreases |e.readBio|
  {
    if Skips(e, len) {
      SkipRecord(e, len);
      var e2 := AfterRecord(e);
      hide SslRead, AfterRecord, Plain, Framed, Residue, Skips, Parse;
      SslReadKeeps(e2, len);
      OutputsMore(e, e2, SslRead(e2, len).2, []);
      assert forall x :: Undelivered(e, x) == Undelivered(e2, x);
    } else {
      hide SslRead, Skips, ReadKeeps;
      ReadAtOnce(e, len);
    }
  }

  lemma RecordPlain(b: seq<byte>)
    requires Parse(b).Record?
    ensures Parse(b).rest == b[|b| - |Parse(b).rest|..] && |Parse(b).payload| + |Parse(b).rest| <= |b|
    ensures var data := if Parse(b).kind.Data? then Parse(b).payload else [];
            forall x :: Plain(b + x) == data + Plain(Parse(b).rest + x)
    ensures forall x :: Residue(Parse(b).rest + x) == Residue(b + x)
    ensures forall x ::
      FirstData(b + x) ==
        if Parse(b).kind.Data? && Parse(b).payload != [] then Parse(b).payload else FirstData(Parse(b).rest + x)
  {
    forall x
      ensures Plain(b + x) == (if Parse(b).kind.Data? then Parse(b).payload else []) + Plain(Parse(b).rest + x)
      ensures Residue(Parse(b).rest + x) == Residue(b + x)
      ensures FirstData(b + x) ==
        if Parse(b).kind.Data? && Parse(b).payload != [] then Parse(b).payload else FirstData(Parse(b).rest + x)
    {
      ParseExtends(b, x);
    }
  }

  /** A read gives data exactly when the engine is live and holds some, and then it gives all of the record in
      hand or as much of it as was asked for; otherwise it has used up every
      complete record, and either asks for more input or has failed on a malformed one. */
  lemma {:induction false} SslReadGives(e: Engine, len: nat)
    requires len > 0
    ensures ReadGives(e, len)
    decreases |e.readBio|
  {
    assert e.readBio + [] == e.readBio;
    if Skips(e, len) {
      SkipRecord(e, len);
      var e2 := AfterRecord(e);
      assert e2.readBio + [] == e2.readBio;
      assert Undelivered(e, []) == Undelivered(e2, []);
      hide SslRead, AfterRecord, Plain, Framed, Skips, Parse, Undelivered;
      SslReadGives(e2, len);
    } else {
      GivesAtOnce(e, len);
    }
  }

  ghost predicate ReadGives(e: Engine, len: nat) {
    var (n, out, e') := SslRead(e, len);
    && (n > 0 <==> Established(e) && Undelivered(e, []) != [])
    && (n > 0 ==> |out| == n <= len && Established(e') && GetSslStatus(e', n) == Ok)
    && (n > 0 ==> out + e'.pending == Front(e, []) && (n == len || e'.pending == []))
    && (n <= 0 && Established(e) ==>
          && e'.pending == []
          && if e'.dead then Parse(e'.readBio).Bad? && GetSslStatus(e', n) == Error
             else Parse(e'.readBio).Incomplete? && GetSslStatus(e', n) == WantRead)
    && (n <= 0 && !Established(e) ==> GetSslStatus(e', n) == Error)
  }

  lemma GivesFront(e: Engine, len: nat)
    requires len > 0 && !Skips(e, len)
    ensures var (n, out, e') := SslRead(e, len);
            n > 0 ==> out + e'.pending == Front(e, []) && (n == len || e'.pending == [])
  {
    assert e.readBio + [] == e.readBio;
    hide Parse;
  }

  lemma GivesAtOnce(e: Engine, len: nat)
    requires len > 0 && !Skips(e, len)
    ensures ReadGives(e, len)
  {
    assert e.readBio + [] == e.readBio;
    GivesFront(e, len);
    hide FirstData;
  }

  /** A write takes some of the data, in order, and emits exactly records that carry it. */
  lemma SslWriteKeeps(e: Engine, data: seq<byte>)
    ensures var (n, e') := SslWrite(e, data);
            && e' == e.(writeBio := e'.writeBio, lastError := e'.lastError)
            && (n < 0 <==> !Established(e)) && (n == 0 <==> Established(e) && data == [])
            && (n < 0 ==> e'.writeBio == e.writeBio)
            && (n >= 0 ==> n <= |data| && Outputs(e, e', data[..n]))
            && (0 <= n < |data| ==> e.partial && n == MAX_FRAGMENT)
  {
    if Established(e) {
      var out := if e.partial && |data| > MAX_FRAGMENT then Encode(Data, data[..MAX_FRAGMENT]) else Fragments(data);
      assert Added(e, Emit(e, out)) == out;
      FragmentsCarry(data);
      assert data[..|data|] == data;
      if |data| > MAX_FRAGMENT {
        FramedOne(Data, data[..MAX_FRAGMENT]);
      }
    }
  }

  // ---- Handshake. ----

  /** The bytes that one side sends in the first `n` flights. */
  function Flights(script: seq<Flight>, byClient: bool, n: nat): seq<byte>
    requires n <= |script|
  {
    if n == 0 then []
    else Flights(script, byClient, n - 1) + if script[n - 1].byClient == byClient then script[n - 1].bytes else []
  }

  lemma {:induction false} FlightsGrow(script: seq<Flight>, byClient: bool, m: nat, n: nat)
    requires m <= n <= |script|
    ensures Flights(script, byClient, m) <= Flights(script, byClient, n)
  {
    if m < n {
      FlightsGrow(script, byClient, m, n - 1);
    }
  }

  /** The engine has emitted exactly its own flights so far, and consumed exactly those of the peer. */
  predicate OnScript(e: Engine) {
    && e.at <= |e.script|
    && Emitted(e) == Flights(e.script, e.isClient, e.at)
    && e.taken == Flights(e.script, !e.isClient, e.at)
  }

  /** The input that the next flight of the peer still lacks. */
  predicate Starved(e: Engine) {
    !e.dead && e.at < |e.script| && !Mine(e) && |e.readBio| < |e.script[e.at].bytes|
  }

  /** The input does not start with the next flight of the peer. */
  predicate Mismatched(e: Engine) {
    && e.at < |e.script| && !Mine(e)
    && var flight := e.script[e.at].bytes;
       |flight| <= |e.readBio| && e.readBio[..|flight|] != flight
  }

  ghost predicate NegotiateDoes(e: Engine) {
    var (n, e') := Negotiate(e);
    Negotiated(e, n, e')
  }

  /** What a handshake operation with result `n` leads to. */
  ghost predicate Negotiated(e: Engine, n: int, e': Engine) {
    && e'.script == e.script && e'.isClient == e.isClient && e'.pending == e.pending && e'.partial == e.partial
    && Fed(e') == Fed(e) && e'.drained == e.drained && e.writeBio <= e'.writeBio && e.at <= e'.at
    && (n > 0 <==> Established(e'))
    && (n > 0 ==> GetError(e', n) == NoError)
    && (n <= 0 ==> if e'.dead then e'.lastError == ErrSsl else e'.lastError == ErrWantRead && Starved(e'))
    && (e.dead ==> e'.dead && e'.writeBio == e.writeBio)
    && (e'.dead && !e.dead ==> |e'.writeBio| >= |ALERT| && e'.writeBio[|e'.writeBio| - |ALERT|..] == ALERT)
  }

  lemma {:induction false} NegotiateKeeps(e: Engine)
    ensures NegotiateDoes(e)
    decreases |e.script| - e.at
  {
    hide Negotiated;
    if Advances(e) {
      var e1 := AfterFlight(e);
      NegotiateGoesOn(e);
      hide Negotiate, Advances, AfterFlight;
      NegotiateKeeps(e1);
      NegotiatedOn(e, e1, Negotiate(e1).0, Negotiate(e1).1);
    } else {
      NegotiateStops(e);
    }
  }

  /** The next flight can be sent, or has come in. */
  predicate Advances(e: Engine) {
    !e.dead && e.at < |e.script| && (Mine(e) || (!Starved(e) && !Mismatched(e)))
  }

  function AfterFlight(e: Engine): Engine
    requires Advances(e)
  {
    if Mine(e) then Emit(e, e.script[e.at].bytes).(at := e.at + 1)
    else Consume(e, |e.script[e.at].bytes|).(at := e.at + 1)
  }

  lemma NegotiateGoesOn(e: Engine)
    requires Advances(e)
    ensures var e1 := AfterFlight(e);
            && Negotiate(e) == Negotiate(e1) && |e1.script| - e1.at < |e.script| - e.at && e1.at <= |e1.script|
            && !e.dead && e1 == e.(at := e.at + 1, readBio := e1.readBio, taken := e1.taken, writeBio := e1.writeBio)
            && Fed(e1) == Fed(e) && e.writeBio <= e1.writeBio
  {
    if !Mine(e) {
      ConsumeFed(e, |e.script[e.at].bytes|);
    }
  }

  lemma NegotiatedOn(e: Engine, e1: Engine, n: int, e': Engine)
    requires Negotiated(e1, n, e') && !e.dead
    requires e1 == e.(at := e.at + 1, readBio := e1.readBio, taken := e1.taken, writeBio := e1.writeBio)
    requires Fed(e1) == Fed(e) && e.writeBio <= e1.writeBio
    ensures Negotiated(e, n, e')
  {
    hide Fed, Starved, Established;
  }

  lemma NegotiateStops(e: Engine)
    requires !Advances(e)
    ensures NegotiateDoes(e)
  {
    if Negotiate(e).1.writeBio != e.writeBio {
      assert (e.writeBio + ALERT)[|e.writeBio|..] == ALERT;
    }
  }

  /** `perform` tells its caller exactly where the engine stands, and output comes first: there is nothing to
      send behind any other answer. */
  lemma PerformExact(e: Engine)
    ensures var (ret, e') := Negotiate(e);
            var status := PerformStatus(ret, e');
            && (status == WantWrite <==> e'.writeBio != [])
            && (status == Ok <==> e'.writeBio == [] && Established(e'))
            && (status == WantRead <==> e'.writeBio == [] && Starved(e'))
            && (status == Error <==> e'.writeBio == [] && e'.dead)
  {
    NegotiateKeeps(e);
    hide Negotiate;
  }

  /** While it does not fail, the handshake stays on its script. */
  lemma {:induction false} NegotiateOnScript(e: Engine)
    requires OnScript(e) && !e.dead
    ensures var e' := Negotiate(e).1; !e'.dead ==> OnScript(e')
    ensures var e' := Negotiate(e).1;
            e'.dead ==>
              && Mismatched(e') && e'.script == e.script && e'.isClient == e.isClient
              && e'.taken == Flights(e'.script, !e'.isClient, e'.at)
    decreases |e.script| - e.at
  {
    hide OnScript;
    if Advances(e) {
      FlightOnScript(e);
      NegotiateGoesOn(e);
      hide Negotiate, Advances, AfterFlight, Mismatched;
      NegotiateOnScript(AfterFlight(e));
    } else {
      StopsOnScript(e);
    }
  }

  lemma FlightOnScript(e: Engine)
    requires OnScript(e) && Advances(e)
    ensures OnScript(AfterFlight(e)) && !AfterFlight(e).dead
  {
    if Mine(e) {
      assert Emitted(AfterFlight(e)) == Emitted(e) + e.script[e.at].bytes;
    }
  }

  lemma StopsOnScript(e: Engine)
    requires OnScript(e) && !e.dead && !Advances(e)
    ensures var e' := Negotiate(e).1;
            if e'.dead then Mismatched(e') && e' == Fail(e) else OnScript(e')
    ensures var e' := Negotiate(e).1; e'.dead ==> e'.taken == Flights(e'.script, !e'.isClient, e'.at)
  {
  }
}
