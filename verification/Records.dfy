/**
  A small record layer, framed as in section 5.1 of RFC 8446: a type, a version, a length of two
  bytes, and a fragment of at most 2^14 bytes. Fragments are not encrypted.
 */
module Records {
  type byte = x: int | 0 <= x < 256

  const MAX_FRAGMENT: nat := 0x4000
  const HEADER: nat := 5
  const CONTROL_TYPE: byte := 22
  const DATA_TYPE: byte := 23

  datatype Kind = Data | Control

  datatype Parsed = Incomplete | Bad | Record(kind: Kind, payload: seq<byte>, rest: seq<byte>)

  function TypeOf(kind: Kind): byte {
    if kind.Data? then DATA_TYPE else CONTROL_TYPE
  }

  function Encode(kind: Kind, payload: seq<byte>): seq<byte>
    requires |payload| <= MAX_FRAGMENT
  {
    [TypeOf(kind), 3, 3, |payload| / 256, |payload| % 256] + payload
  }

  function Length(hi: int, lo: int): int {
    hi * 256 + lo
  }

  /** The first record of `b`, if it is all there. */
  function Parse(b: seq<byte>): Parsed {
    if |b| < HEADER then Incomplete
    else if b[0] != CONTROL_TYPE && b[0] != DATA_TYPE then Bad
    else
      var n := Length(b[3], b[4]);
      if n > MAX_FRAGMENT then Bad
      else if |b| < HEADER + n then Incomplete
      else Record(if b[0] == DATA_TYPE then Data else Control, b[HEADER..HEADER + n], b[HEADER + n..])
  }

  lemma ParseEncoded(kind: Kind, payload: seq<byte>, rest: seq<byte>)
    requires |payload| <= MAX_FRAGMENT
    ensures Parse(Encode(kind, payload) + rest) == Record(kind, payload, rest)
  {
    var b := Encode(kind, payload) + rest;
    assert b[HEADER..HEADER + |payload|] == payload;
    assert b[HEADER + |payload|..] == rest;
  }

  /** More input never changes a record, or an error, that was already there. */
  lemma ParseExtends(b: seq<byte>, x: seq<byte>)
    requires !Parse(b).Incomplete?
    ensures Parse(b).Bad? ==> Parse(b + x).Bad?
    ensures Parse(b).Record? ==> Parse(b + x) == Parse(b).(rest := Parse(b).rest + x)
  {
    if Parse(b).Record? {
      var n := Length(b[3], b[4]);
      assert (b + x)[HEADER..HEADER + n] == b[HEADER..HEADER + n];
      assert (b + x)[HEADER + n..] == b[HEADER + n..] + x;
    }
  }

  /** The data in the complete records at the front of `b`. */
  function Plain(b: seq<byte>): seq<byte>
    decreases |b|
  {
    match Parse(b)
    case Record(kind, payload, rest) => (if kind.Data? then payload else []) + Plain(rest)
    case _ => []
  }

  /** What follows the complete records at the front of `b`. */
  function Residue(b: seq<byte>): seq<byte>
    decreases |b|
  {
    match Parse(b)
    case Record(_, _, rest) => Residue(rest)
    case _ => b
  }

  /** The data of the first record at the front of `b` that carries any. */
  function FirstData(b: seq<byte>): seq<byte>
    decreases |b|
  {
    match Parse(b)
    case Record(kind, payload, rest) => if kind.Data? && payload != [] then payload else FirstData(rest)
    case _ => []
  }

  lemma DataUnfolds(b: seq<byte>)
    ensures var p := Parse(b);
            if p.Record? then
              && |p.rest| < |b| && Plain(b) == (if p.kind.Data? then p.payload else []) + Plain(p.rest)
              && FirstData(b) == if p.kind.Data? && p.payload != [] then p.payload else FirstData(p.rest)
            else Plain(b) == [] && FirstData(b) == []
  {
    if Parse(b).Record? {
      assert |Parse(b).rest| < |b|;
    }
    hide Parse;
  }

  /** It is the front of all the data, and there is one exactly when there is data. */
  lemma {:induction false} FirstDataLeads(b: seq<byte>)
    ensures FirstData(b) <= Plain(b) && (FirstData(b) == [] <==> Plain(b) == [])
    decreases |b|
  {
    hide Parse, Plain, FirstData;
    DataUnfolds(b);
    if Parse(b).Record? {
      FirstDataLeads(Parse(b).rest);
    }
  }

  /** `b` is a sequence of complete records. */
  predicate Framed(b: seq<byte>) {
    Residue(b) == []
  }

  lemma {:induction false} PlainSplit(b: seq<byte>, x: seq<byte>)
    ensures Plain(b + x) == Plain(b) + Plain(Residue(b) + x)
    ensures Residue(b + x) == Residue(Residue(b) + x)
    decreases |b|
  {
    if Parse(b).Record? {
      ParseExtends(b, x);
      PlainSplit(Parse(b).rest, x);
    }
  }

  /** Bytes that pass from the end of one part to the front of another. */
  lemma Regroup(front: seq<byte>, moved: seq<byte>, back: seq<byte>)
    ensures front + (moved + back) == front + moved + back
  {
  }

  /** What more input adds is more data. */
  lemma PlainGrows(b: seq<byte>, x: seq<byte>)
    ensures Plain(b) <= Plain(b + x)
  {
    PlainSplit(b, x);
  }

  lemma FramedAppend(a: seq<byte>, b: seq<byte>)
    requires Framed(a)
    ensures Plain(a + b) == Plain(a) + Plain(b)
    ensures Framed(a + b) <==> Framed(b)
  {
    PlainSplit(a, b);
    assert [] + b == b;
  }

  /** What comes after the complete records at the front of `b` may still become a record. */
  predicate Sound(b: seq<byte>) {
    !Parse(Residue(b)).Bad?
  }

  /** Whatever arrives of a sequence of complete records is sound. */
  lemma PrefixSound(a: seq<byte>, b: seq<byte>)
    requires Framed(b) && a <= b
    ensures Sound(a)
  {
    var x := b[|a|..];
    assert a + x == b;
    PlainSplit(a, x);
    if !Sound(a) {
      ParseExtends(Residue(a), x);
    }
  }

  lemma FramedOne(kind: Kind, payload: seq<byte>)
    requires |payload| <= MAX_FRAGMENT
    ensures Framed(Encode(kind, payload)) && Plain(Encode(kind, payload)) == if kind.Data? then payload else []
  {
    ParseEncoded(kind, payload, []);
    assert Encode(kind, payload) + [] == Encode(kind, payload);
  }

  /** Data cut into records of at most 2^14 bytes. */
  function Fragments(data: seq<byte>): seq<byte>
    decreases |data|
  {
    if data == [] then []
    else if |data| <= MAX_FRAGMENT then Encode(Data, data)
    else Encode(Data, data[..MAX_FRAGMENT]) + Fragments(data[MAX_FRAGMENT..])
  }

  /** Fragmentation loses nothing: the records carry the data, in order, and nothing else. */
  lemma {:induction false} FragmentsCarry(data: seq<byte>)
    ensures Framed(Fragments(data)) && Plain(Fragments(data)) == data
    ensures data != [] ==> Fragments(data) != []
    decreases |data|
  {
    if data == [] {
    } else if |data| <= MAX_FRAGMENT {
      FramedOne(Data, data);
    } else {
      var first := Encode(Data, data[..MAX_FRAGMENT]);
      FramedOne(Data, data[..MAX_FRAGMENT]);
      FragmentsCarry(data[MAX_FRAGMENT..]);
      FramedAppend(first, Fragments(data[MAX_FRAGMENT..]));
      assert data[..MAX_FRAGMENT] + data[MAX_FRAGMENT..] == data;
    }
  }
}
