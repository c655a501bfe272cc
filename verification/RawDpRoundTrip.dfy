/** The writer and the reader of structured data-point values are inverse to each other. */
module RawDpRoundTrip {
  import opened Wrappers
  import opened Bytes
  import opened Slices
  import opened RawDp

  const SINT_LIMIT: int := 0x10_0000_0000_0000  // 2^52

  // ---------------------------------------------------------------------------------------------
  // What the writer lets through
  // ---------------------------------------------------------------------------------------------

  /** Zig-zag is undone exactly, and the values the varint then accepts are [-2^52, 2^52). */
  lemma ZigzagIsUndone(v: int)
    ensures Unzigzag(Zigzag(v)) == v
    ensures Zigzag(v) <= MAX_SAFE <==> -SINT_LIMIT <= v < SINT_LIMIT
  {
  }

  /** The item fits the 32-bit tags and lengths the reader's varints carry. */
  predicate Fits32(item: Item) {
    match item
    case Sub(field, items) =>
      && 1 <= field < 0x2000_0000
      && (forall i | 0 <= i < |items| :: Fits32(items[i]))
      && (Encode(items).Some? ==> |Encode(items).value| < TWO32)
    case Raw(field, bytes) => 1 <= field < 0x2000_0000 && |bytes| < TWO32
    case _ => 1 <= item.field < 0x2000_0000
  }

  predicate AllFit32(items: seq<Item>) {
    forall i | 0 <= i < |items| :: Fits32(items[i])
  }

  /** How many bytes the varint of `n` takes. */
  function VarintSize(n: int): nat {
    if n <= 0x7f then 1 else 1 + VarintSize(n / 0x80)
  }

  /** How many bytes a call takes, counted without writing it. */
  function ItemSize(item: Item): nat
    decreases item, 1
  {
    match item
    case Int(field, value) => VarintSize(field * 8) + VarintSize(value)
    case Sint(field, v) => VarintSize(field * 8) + VarintSize(Zigzag(v))
    case Bool(field, _) => VarintSize(field * 8) + 1
    case Raw(field, bytes) => VarintSize(field * 8 + 2) + VarintSize(|bytes|) + |bytes|
    case Sub(field, items) => VarintSize(field * 8 + 2) + VarintSize(Size(items)) + Size(items)
  }

  function Size(items: seq<Item>): nat
    decreases items, 0
  {
    if items == [] then 0 else ItemSize(items[0]) + Size(items[1..])
  }

  /**
   * What the writer accepts of a call: a positive field number whose tag is a safe integer, a safe non-negative
   * value or one within zig-zag's range, and a length that is safe, at every depth.
   */
  predicate Accepted(item: Item)
    decreases item, 1
  {
    match item
    case Int(field, value) => TagFits(field, VARINT) && 0 <= value <= MAX_SAFE
    case Sint(field, v) => TagFits(field, VARINT) && -SINT_LIMIT <= v < SINT_LIMIT
    case Bool(field, _) => TagFits(field, VARINT)
    case Raw(field, bytes) => TagFits(field, LENGTH_DELIMITED) && |bytes| <= MAX_SAFE
    case Sub(field, items) => TagFits(field, LENGTH_DELIMITED) && AllAccepted(items) && Size(items) <= MAX_SAFE
  }

  predicate AllAccepted(items: seq<Item>)
    decreases items, 0
  {
    items == [] || (Accepted(items[0]) && AllAccepted(items[1..]))
  }

  lemma {:induction false} VarintTakesItsSize(n: nat)
    ensures |Varint(n)| == VarintSize(n)
  {
    if n > 0x7f { VarintTakesItsSize(n / 0x80); }
  }

  /**
   * The writer throws on a message exactly when some field number, value or length of it, at any depth, is one
   * it does not accept; and a message it accepts takes exactly the bytes counted.
   */
  lemma {:induction false} WriterThrowsExactlyOutOfRange(items: seq<Item>)
    ensures Encode(items).Some? <==> AllAccepted(items)
    ensures AllAccepted(items) ==> |Encode(items).value| == Size(items)
    decreases items, 0
  {
    if items != [] {
      ItemThrowsExactlyOutOfRange(items[0]);
      WriterThrowsExactlyOutOfRange(items[1..]);
    }
  }

  lemma {:induction false} ItemThrowsExactlyOutOfRange(item: Item)
    ensures EncodeItem(item).Some? <==> Accepted(item)
    ensures Accepted(item) ==> |EncodeItem(item).value| == ItemSize(item)
    decreases item, 1
  {
    match item
    case Int(field, value) =>
      if Accepted(item) {
        VarintTakesItsSize(field * 8);
        VarintTakesItsSize(value);
      }
    case Sint(field, v) =>
      ZigzagIsUndone(v);
      if Accepted(item) {
        VarintTakesItsSize(field * 8);
        VarintTakesItsSize(Zigzag(v));
      }
    case Bool(field, flag) =>
      if Accepted(item) { VarintTakesItsSize(field * 8); }
    case Raw(field, bytes) =>
      if Accepted(item) { RecordSize(field, |bytes|); }
    case Sub(field, items) =>
      WriterThrowsExactlyOutOfRange(items);
      if Accepted(item) { RecordSize(field, Size(items)); }
  }

  lemma RecordSize(field: nat, n: nat)
    ensures |Varint(field * 8 + 2)| == VarintSize(field * 8 + 2) && |Varint(n)| == VarintSize(n)
  {
    VarintTakesItsSize(field * 8 + 2);
    VarintTakesItsSize(n);
  }

  // ---------------------------------------------------------------------------------------------
  // What reading back means
  // ---------------------------------------------------------------------------------------------

  /** The field list carries the message: the same calls, in order, sub-messages readable to the bottom. */
  ghost predicate Carries(p: Platform, fs: seq<Field>, items: seq<Item>)
    requires Sound(p)
    decreases items, 0
  {
    |fs| == |items| && forall i | 0 <= i < |items| :: CarriesItem(p, fs[i], items[i])
  }

  ghost predicate CarriesItem(p: Platform, f: Field, item: Item)
    requires Sound(p)
    decreases item, 1
  {
    match item
    case Int(field, value) => f.IntField? && f.field == field && f.value == value
    case Sint(field, v) => f.IntField? && f.field == field && Unzigzag(f.value) == v
    case Bool(field, flag) => f.IntField? && f.field == field && f.value == if flag then 1 else 0
    case Raw(field, bytes) => f.BytesField? && f.field == field && f.bytes == bytes
    case Sub(field, items) =>
      && f.BytesField? && f.field == field
      && Nested(p, f.bytes).Some? && Carries(p, Nested(p, f.bytes).value, items)
  }

  // ---------------------------------------------------------------------------------------------
  // The round trip
  // ---------------------------------------------------------------------------------------------

  lemma Uint32Reads(p: Platform, s: seq<Byte>, n: nat, rest: seq<Byte>)
    requires Sound(p) && n < TWO32 && s == Varint(n) + rest
    ensures p.uint32(s) == Some((n, |Varint(n)|)) && s[|Varint(n)|..] == rest
  {
  }

  lemma TagReads(p: Platform, field: nat, wire: nat, rest: seq<Byte>)
    requires Sound(p) && field < 0x2000_0000 && wire < 8
    ensures var tag := Varint(field * 8 + wire);
      ReadField(p, tag + rest) ==
      match ReadPayload(p, field, wire, rest) {
        case None => None
        case Some((f, n)) => Some((f, |tag| + n))
      }
  {
    var tag := field * 8 + wire;
    assert tag / 8 == field && tag % 8 == wire;
    Uint32Reads(p, Varint(tag) + rest, tag, rest);
  }

  lemma VarintPayloadReads(p: Platform, field: nat, value: nat, rest: seq<Byte>)
    requires Sound(p) && value < TWO64
    ensures ReadPayload(p, field, VARINT, Varint(value) + rest) == Some((IntField(field, value), |Varint(value)|))
  {
    assert p.uint64(Varint(value) + rest) == Some((value, |Varint(value)|));
  }

  lemma BytesPayloadReads(p: Platform, field: nat, bytes: seq<Byte>, rest: seq<Byte>)
    requires Sound(p) && |bytes| < TWO32
    ensures ReadPayload(p, field, LENGTH_DELIMITED, Varint(|bytes|) + (bytes + rest))
      == Some((BytesField(field, bytes), |Varint(|bytes|)| + |bytes|))
  {
    var prefix := Varint(|bytes|);
    var s := prefix + (bytes + rest);
    Uint32Reads(p, s, |bytes|, bytes + rest);
    Assoc(prefix, bytes, rest);
    Cut(prefix, bytes, rest);
  }

  lemma VarintFieldReads(p: Platform, field: int, value: int, rest: seq<Byte>)
    requires Sound(p) && 1 <= field < 0x2000_0000 && 0 <= value <= MAX_SAFE
    ensures VarintField(field, value).Some?
    ensures ReadField(p, VarintField(field, value).value + rest)
      == Some((IntField(field, value), |VarintField(field, value).value|))
  {
    Assoc(Varint(field * 8 + VARINT), Varint(value), rest);
    TagReads(p, field, VARINT, Varint(value) + rest);
    VarintPayloadReads(p, field, value, rest);
  }

  lemma BytesRecordReads(p: Platform, field: int, bytes: seq<Byte>, rest: seq<Byte>)
    requires Sound(p) && 1 <= field < 0x2000_0000 && |bytes| < TWO32
    ensures BytesRecord(field, bytes).Some?
    ensures ReadField(p, BytesRecord(field, bytes).value + rest)
      == Some((BytesField(field, bytes), |BytesRecord(field, bytes).value|))
  {
    var tag, len := Varint(field * 8 + LENGTH_DELIMITED), Varint(|bytes|);
    Assoc(tag, len, bytes);
    Assoc(tag, len + bytes, rest);
    Assoc(len, bytes, rest);
    TagReads(p, field, LENGTH_DELIMITED, len + (bytes + rest));
    BytesPayloadReads(p, field, bytes, rest);
  }

  lemma {:induction false} ItemReads(p: Platform, item: Item, rest: seq<Byte>) returns (f: Field)
    requires Sound(p) && Fits32(item) && EncodeItem(item).Some?
    ensures ReadField(p, EncodeItem(item).value + rest) == Some((f, |EncodeItem(item).value|))
    ensures CarriesItem(p, f, item)
    decreases item, 1
  {
    match item
    case Int(field, value) =>
      VarintFieldReads(p, field, value, rest);
      f := IntField(field, value);
    case Sint(field, v) =>
      ZigzagIsUndone(v);
      VarintFieldReads(p, field, Zigzag(v), rest);
      f := IntField(field, Zigzag(v));
    case Bool(field, flag) =>
      VarintFieldReads(p, field, if flag then 1 else 0, rest);
      f := IntField(field, if flag then 1 else 0);
    case Raw(field, bytes) =>
      BytesRecordReads(p, field, bytes, rest);
      f := BytesField(field, bytes);
    case Sub(field, items) =>
      BytesRecordReads(p, field, Encode(items).value, rest);
      WrittenBodyReads(p, items);
      f := BytesField(field, Encode(items).value);
  }

  /** Every body the writer builds is read as the fields written, in order and to any depth. */
  lemma {:induction false} WrittenBodyReads(p: Platform, items: seq<Item>)
    requires Sound(p) && AllFit32(items) && Encode(items).Some?
    ensures Nested(p, Encode(items).value).Some?
    ensures Carries(p, Nested(p, Encode(items).value).value, items)
    decreases items, 0
  {
    if items != [] {
      var head, rest := EncodeItem(items[0]).value, Encode(items[1..]).value;
      var f := ItemReads(p, items[0], rest);
      WrittenBodyReads(p, items[1..]);
      assert (head + rest)[|head|..] == rest;
      var fs := Nested(p, rest).value;
      assert Nested(p, head + rest) == Some([f] + fs);
      forall i | 0 <= i < |items| ensures CarriesItem(p, ([f] + fs)[i], items[i]) {
        if i > 0 { assert CarriesItem(p, fs[i - 1], items[1..][i - 1]); }
      }
    }
  }

  /** The envelope `finish` and `reframe` put around a body opens to the reading of that body. */
  lemma EnvelopeOpens(p: Platform, body: seq<Byte>)
    requires Sound(p) && |body| < TWO32
    ensures Decode(p, p.toBase64(Varint(|body|) + body)) == Nested(p, body)
  {
    var buf := Varint(|body|) + body;
    Uint32Reads(p, buf, |body|, body);
  }

  /** The writer's finished value decodes to the message it was built from. */
  method WriteThenRead(p: Platform, items: seq<Item>) returns (r: Option<seq<Field>>)
    requires Sound(p) && AllFit32(items)
    requires Encode(items).Some? ==> |Encode(items).value| < TWO32
    ensures r.Some? <==> AllAccepted(items)
    ensures r.Some? ==> Carries(p, r.value, items)
  {
    WriterThrowsExactlyOutOfRange(items);
    var w := new RawDpWriter();
    var ok := w.Build(items);
    if !ok { return None; }
    var value := w.Finish(p);
    assert w.body == Encode(items).value;
    EnvelopeOpens(p, w.body);
    WrittenBodyReads(p, items);
    r := Decode(p, value.value);
  }

  // ---------------------------------------------------------------------------------------------
  // The wire, octet by octet
  // ---------------------------------------------------------------------------------------------

  lemma VarintOf150()
    ensures Varint(150) == [0x96, 0x01] && Varint(8) == [0x08] && Varint(0x12) == [0x12] && Varint(0x1a) == [0x1a]
    ensures Varint(7) == [7] && Varint(3) == [3] && Varint(0x10) == [0x10] && Varint(1) == [1] && Varint(0x18) == [0x18]
  {
    assert Varint(1) == [1];
  }

  /**
   * The examples of the Protocol Buffers encoding guide: 150 in field 1, the string "testing" in field 2, and the
   * first of these as a sub-message in field 3; and a negative number, zig-zagged, and a flag.
   */
  lemma GuideExamples()
    ensures Encode([Int(1, 150)]) == Some([0x08, 0x96, 0x01])
    ensures Encode([Raw(2, [0x74, 0x65, 0x73, 0x74, 0x69, 0x6e, 0x67])])
      == Some([0x12, 0x07, 0x74, 0x65, 0x73, 0x74, 0x69, 0x6e, 0x67])
    ensures Encode([Sub(3, [Int(1, 150)])]) == Some([0x1a, 0x03, 0x08, 0x96, 0x01])
    ensures Encode([Sint(2, -2)]) == Some([0x10, 0x03]) && Encode([Bool(3, true)]) == Some([0x18, 0x01])
  {
    VarintOf150();
    assert [0x08] + [0x96, 0x01] == [0x08, 0x96, 0x01] && [0x10] + [3] == [0x10, 0x03] && [0x18] + [1] == [0x18, 0x01];
    assert EncodeItem(Int(1, 150)) == Some(Varint(8) + Varint(150));
    assert EncodeItem(Sint(2, -2)) == Some(Varint(0x10) + Varint(3));
    assert EncodeItem(Bool(3, true)) == Some(Varint(0x18) + Varint(1));
    var testing: seq<Byte> := [0x74, 0x65, 0x73, 0x74, 0x69, 0x6e, 0x67];
    assert EncodeItem(Raw(2, testing)) == Some(Varint(0x12) + Varint(7) + testing);
    assert [0x12] + [7] + testing == [0x12, 0x07, 0x74, 0x65, 0x73, 0x74, 0x69, 0x6e, 0x67];
    One(Int(1, 150));
    assert EncodeItem(Sub(3, [Int(1, 150)])) == Some(Varint(0x1a) + Varint(3) + [0x08, 0x96, 0x01]);
    assert [0x1a] + [3] + [0x08, 0x96, 0x01] == [0x1a, 0x03, 0x08, 0x96, 0x01];
    One(Raw(2, [0x74, 0x65, 0x73, 0x74, 0x69, 0x6e, 0x67]));
    One(Sub(3, [Int(1, 150)]));
    One(Sint(2, -2));
    One(Bool(3, true));
  }

  lemma One(item: Item)
    ensures Encode([item]) == EncodeItem(item)
  {
    assert [item][1..] == [];
    if EncodeItem(item).Some? { assert EncodeItem(item).value + [] == EncodeItem(item).value; }
  }

  /** Zig-zag's own table. */
  lemma ZigzagTable()
    ensures Zigzag(0) == 0 && Zigzag(-1) == 1 && Zigzag(1) == 2 && Zigzag(-2) == 3 && Zigzag(2) == 4
  {
  }

  /** The low `k` octets of `n`, lowest first: what a fixed-width field holds. */
  function Fixed(n: nat, k: nat): (r: seq<Byte>)
    ensures |r| == k
  {
    if k == 0 then [] else [n % 0x100] + Fixed(n / 0x100, k - 1)
  }

  lemma {:induction false} FixedIsRead(n: nat, k: nat, bound: nat)
    requires n < bound && bound == Octets(k)
    ensures LittleEndian(Fixed(n, k)) == n
  {
    if k > 0 {
      FixedIsRead(n / 0x100, k - 1, Octets(k - 1));
      assert Fixed(n, k)[1..] == Fixed(n / 0x100, k - 1);
    }
  }

  /** How many values `k` octets can hold. */
  function Octets(k: nat): nat {
    if k == 0 then 1 else 0x100 * Octets(k - 1)
  }

  /** Fixed-width fields, which the writer never writes: eight octets under wire type 1, four under wire type 5. */
  lemma FixedFieldsAreRead(p: Platform, field: nat, n: nat, rest: seq<Byte>)
    requires Sound(p) && 1 <= field < 0x2000_0000
    ensures n < Octets(8) ==>
      ReadField(p, Varint(field * 8 + 1) + Fixed(n, 8) + rest) == Some((IntField(field, n), |Varint(field * 8 + 1)| + 8))
    ensures n < Octets(4) ==>
      ReadField(p, Varint(field * 8 + 5) + Fixed(n, 4) + rest) == Some((IntField(field, n), |Varint(field * 8 + 5)| + 4))
  {
    hide Fixed, LittleEndian, Varint;
    if n < Octets(8) {
      FixedIsRead(n, 8, Octets(8));
      Assoc(Varint(field * 8 + 1), Fixed(n, 8), rest);
      Uint32Reads(p, Varint(field * 8 + 1) + (Fixed(n, 8) + rest), field * 8 + 1, Fixed(n, 8) + rest);
      assert (Fixed(n, 8) + rest)[..8] == Fixed(n, 8);
    }
    if n < Octets(4) {
      FixedIsRead(n, 4, Octets(4));
      Assoc(Varint(field * 8 + 5), Fixed(n, 4), rest);
      Uint32Reads(p, Varint(field * 8 + 5) + (Fixed(n, 4) + rest), field * 8 + 5, Fixed(n, 4) + rest);
      assert (Fixed(n, 4) + rest)[..4] == Fixed(n, 4);
    }
  }

  /** The other wire types, and fixed-width fields cut short, are no field. */
  lemma OtherWireTypesAreRefused(p: Platform, field: nat, wire: nat, rest: seq<Byte>)
    requires Sound(p) && 1 <= field < 0x2000_0000 && wire < 8
    requires wire == 3 || wire == 4 || wire > 5 || (wire == 1 && |rest| < 8) || (wire == 5 && |rest| < 4)
    ensures ReadField(p, Varint(field * 8 + wire) + rest) == None
  {
    Uint32Reads(p, Varint(field * 8 + wire) + rest, field * 8 + wire, rest);
  }

  /** A length prefix that is not the length of what follows is refused, whether it says too little or too much. */
  lemma WrongLengthIsRefused(p: Platform, value: string, n: nat, body: seq<Byte>)
    requires Sound(p) && n < TWO32 && n != |body|
    requires p.fromBase64(value) == Varint(n) + body
    ensures Decode(p, value) == None
  {
    Uint32Reads(p, Varint(n) + body, n, body);
  }

  /** And nothing else is asked of the envelope: with the right length the value is read as its body. */
  lemma DecodesIffLengthIsRight(p: Platform, value: string, n: nat, body: seq<Byte>)
    requires Sound(p) && n < TWO32 && value != "" && p.fromBase64(value) == Varint(n) + body
    ensures Decode(p, value) == if n == |body| then Nested(p, body) else None
  {
    Uint32Reads(p, Varint(n) + body, n, body);
  }

  lemma LengthVarintIsShort(n: nat)
    requires n < TWO32
    ensures |Varint(n)| <= 5
  {
    var a, b, c, d := n / 0x80, n / 0x80 / 0x80, n / 0x80 / 0x80 / 0x80, n / 0x80 / 0x80 / 0x80 / 0x80;
    assert a < 0x200_0000 && b < 0x4_0000 && c < 0x800 && d < 0x10;
    assert |Varint(d)| == 1;
    assert |Varint(c)| <= 2 && |Varint(b)| <= 3 && |Varint(a)| <= 4;
  }

  /** No proper prefix of a framed value opens: the reader never answers from part of a message. */
  lemma TruncatedEnvelopeIsRefused(p: Platform, body: seq<Byte>, kept: nat, value: string)
    requires Sound(p) && |body| < TWO32
    requires kept < |Varint(|body|) + body| && p.fromBase64(value) == (Varint(|body|) + body)[..kept]
    ensures Decode(p, value) == None
  {
    var prefix := Varint(|body|);
    var buf := (prefix + body)[..kept];
    if kept < |prefix| {
      VarintMeansItsValue(|body|);
      LengthVarintIsShort(|body|);
      assert forall i | 0 <= i < |buf| :: buf[i] == prefix[i];
      assert Unfinished(buf);
    } else {
      assert buf == prefix + body[..kept - |prefix|];
    }
  }
}

/** The contract assumed of the platform can be met, so the results above are about something. */
module PlatformExists {
  import opened Wrappers
  import opened Bytes
  import opened RawDp

  function ReadVarint(s: seq<Byte>): (r: Option<(nat, nat)>)
    ensures r.Some? ==> 0 < r.value.1 <= |s|
  {
    if s == [] then None
    else if s[0] < 0x80 then Some((s[0] as int, 1))
    else match ReadVarint(s[1..])
      case None => None
      case Some((v, used)) => Some(((s[0] as int) - 0x80 + 0x80 * v, used + 1))
  }

  function ReadBelow(s: seq<Byte>, limit: nat): Option<(nat, nat)> {
    if ReadVarint(s).Some? && ReadVarint(s).value.0 < limit then ReadVarint(s) else None
  }

  lemma {:induction false} ReadsBack(n: nat, rest: seq<Byte>)
    ensures ReadVarint(Varint(n) + rest) == Some((n, |Varint(n)|))
    decreases n
  {
    if n > 0x7f {
      ReadsBack(n / 0x80, rest);
      assert (Varint(n) + rest)[1..] == Varint(n / 0x80) + rest;
    }
  }

  lemma {:induction false} UnfinishedIsRefused(s: seq<Byte>)
    requires Unfinished(s)
    ensures ReadVarint(s) == None
    decreases |s|
  {
    if s != [] {
      assert Unfinished(s[1..]);
      UnfinishedIsRefused(s[1..]);
    }
  }

  function AsText(b: seq<Byte>): string {
    seq(|b|, i requires 0 <= i < |b| => b[i] as char)
  }

  function AsBytes(t: string): seq<Byte> {
    seq(|t|, i requires 0 <= i < |t| => (t[i] as int) % 0x100)
  }

  lemma ContractCanBeMet()
    ensures exists p: Platform :: Sound(p)
  {
    var p := Platform(s => ReadBelow(s, TWO32), s => ReadBelow(s, TWO64), AsText, AsBytes);
    forall n: nat, rest {
      ReadsBack(n, rest);
    }
    forall s | Unfinished(s) ensures ReadVarint(s) == None {
      UnfinishedIsRefused(s);
    }
    forall b ensures AsBytes(AsText(b)) == b {
    }
    assert Sound(p);
  }
}
