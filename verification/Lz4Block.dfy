/**
 * The raw LZ4 block decoder (src/core/lz4-block.ts).
 *
 * The format is given twice and independently: `Print` writes a block out as bytes and `Meaning` says which
 * output it stands for. The decoder reads bytes with a cursor. The results connect the two in both
 * directions, so the decoder accepts exactly the printed blocks whose meaning has the requested size.
 */
module Lz4Block {
  import opened Wrappers
  import opened Bytes
  import opened Slices

  const MAX_OUTPUT: int := 64 * 1024 * 1024
  const MIN_MATCH: nat := 4

  // ---------------------------------------------------------------------------------------------
  // The format
  // ---------------------------------------------------------------------------------------------

  /**
   * A block as the decoder accepts it: sequences of literals and a match, ending in one of two ways.
   *
   * `Done` ends the block where a sequence could have started, which covers the empty block and a block
   * that stops right after a match. `Tail` ends it on a literal run; nothing reads the low nibble of that
   * run's token, so `spare` is free. The LZ4 Block Format Description's "End of block conditions" allow
   * only the second, with at least five literals, so this is the wider language the code accepts.
   */
  datatype Block =
    | Done
    | Tail(spare: nat, literals: seq<Byte>)
    | Sequence(literals: seq<Byte>, offset: nat, length: nat, rest: Block)

  /** A block that fits the format's fields: a nibble, a two-byte offset, a match of at least four. */
  predicate WellFormed(b: Block) {
    match b
    case Done => true
    case Tail(spare, _) => spare < 16
    case Sequence(_, offset, length, rest) => offset < 0x1_0000 && MIN_MATCH <= length && WellFormed(rest)
  }

  /** The four-bit part of a length. */
  function Nibble(n: nat): (r: nat) {
    if n < 15 then n else 15
  }

  /** The bytes that follow a saturated nibble: as many 255s as fit, then one byte below 255. */
  function Chain(n: nat): (r: seq<Byte>)
    ensures |r| > 0
  {
    if n < 255 then [n] else [255] + Chain(n - 255)
  }

  function Extension(n: nat): seq<Byte> {
    if n < 15 then [] else Chain(n - 15)
  }

  /** A token and the literals it announces. */
  function LiteralRun(token: Byte, literals: seq<Byte>): (r: seq<Byte>) {
    [token] + (Extension(|literals|) + literals)
  }

  /** The back-reference of a sequence: a little-endian offset and the rest of the match length. */
  function MatchFields(offset: nat, length: nat): (r: seq<Byte>)
    requires offset < 0x1_0000 && MIN_MATCH <= length
  {
    [offset % 256, offset / 256] + Extension(length - MIN_MATCH)
  }

  function Token(b: Block): Byte
    requires WellFormed(b) && !b.Done?
  {
    16 * Nibble(|b.literals|) + if b.Tail? then b.spare else Nibble(b.length - MIN_MATCH)
  }

  function Print(b: Block): seq<Byte>
    requires WellFormed(b)
  {
    match b
    case Done => []
    case Tail(_, literals) => LiteralRun(Token(b), literals)
    case Sequence(literals, offset, length, rest) =>
      LiteralRun(Token(b), literals) + (MatchFields(offset, length) + Print(rest))
  }

  /** Append `length` bytes, each copied from `offset` bytes back in the output as it stands by then. */
  function CopyMatch(out: seq<Byte>, offset: nat, length: nat): (r: seq<Byte>)
    requires 0 < offset <= |out|
    ensures |r| == |out| + length
    decreases length
  {
    if length == 0 then out else CopyMatch(out + [out[|out| - offset]], offset, length - 1)
  }

  /** The output a block stands for after `out`, or `None` where a match points nowhere. */
  function Meaning(b: Block, out: seq<Byte>): Option<seq<Byte>> {
    match b
    case Done => Some(out)
    case Tail(_, literals) => Some(out + literals)
    case Sequence(literals, offset, length, rest) =>
      var grown := out + literals;
      if offset == 0 || offset > |grown| then None
      else Meaning(rest, CopyMatch(grown, offset, length))
  }

  /** Block `b` is written as `bytes` and stands for exactly `size` bytes, `out`. */
  ghost predicate Reading(bytes: seq<Byte>, size: int, b: Block, out: seq<Byte>) {
    WellFormed(b) && Print(b) == bytes && Meaning(b, []) == Some(out) && |out| == size
  }

  // ---------------------------------------------------------------------------------------------
  // Laws of the format
  // ---------------------------------------------------------------------------------------------

  /**
   * A match that overlaps its own output extends it periodically: what was there stays, and every new byte
   * equals the one `offset` places before it, whether or not that one is new as well.
   */
  lemma {:induction false} MatchIsPeriodic(out: seq<Byte>, offset: nat, length: nat)
    requires 0 < offset <= |out|
    ensures CopyMatch(out, offset, length)[..|out|] == out
    ensures forall j | |out| <= j < |out| + length ::
      CopyMatch(out, offset, length)[j] == CopyMatch(out, offset, length)[j - offset]
    decreases length
  {
    if length > 0 {
      var next := out + [out[|out| - offset]];
      var r := CopyMatch(out, offset, length);
      MatchIsPeriodic(next, offset, length - 1);
      assert r[..|out|] == r[..|next|][..|out|] == out;
      assert r[|out|] == r[..|next|][|out|] == out[|out| - offset];
      assert r[|out| - offset] == r[..|out|][|out| - offset];
    }
  }

  lemma MeaningGrows(b: Block, out: seq<Byte>)
    ensures Meaning(b, out).Some? ==> |Meaning(b, out).value| >= |out|
  {
  }

  // ---------------------------------------------------------------------------------------------
  // The reader, as a function of the cursor
  // ---------------------------------------------------------------------------------------------

  /** Continue a length from `pos`: the total and the cursor after it, or `None` off the end. */
  function ReadChain(block: seq<Byte>, pos: nat, sum: nat): (r: Option<(nat, nat)>)
    requires pos <= |block|
    ensures r.Some? ==> pos < r.value.1 <= |block|
    decreases |block| - pos
  {
    if pos == |block| then None
    else if block[pos] != 255 then Some((sum + block[pos], pos + 1))
    else ReadChain(block, pos + 1, sum + 255)
  }

  function ReadLength(block: seq<Byte>, pos: nat, base: nat): (r: Option<(nat, nat)>)
    requires pos <= |block|
    ensures r.Some? ==> pos <= r.value.1 <= |block|
  {
    if base != 15 then Some((base, pos)) else ReadChain(block, pos, 15)
  }

  /** The literal run at `pos`: its bytes, and the cursor after it. */
  function ReadRun(block: seq<Byte>, pos: nat): (r: Option<(seq<Byte>, nat)>)
    requires pos < |block|
    ensures r.Some? ==> pos < r.value.1 <= |block|
  {
    match ReadLength(block, pos + 1, block[pos] / 16)
    case None => None
    case Some((n, start)) =>
      if start + n > |block| then None else Some((block[start..start + n], start + n))
  }

  /** The match fields at `pos`: offset, length, and the cursor after them. */
  function ReadMatch(block: seq<Byte>, pos: nat, nibble: nat): (r: Option<(nat, nat, nat)>)
    requires pos <= |block|
    ensures r.Some? ==> pos + 2 <= r.value.2 <= |block| && MIN_MATCH <= r.value.1
  {
    if pos + 2 > |block| then None
    else
      match ReadLength(block, pos + 2, nibble)
      case None => None
      case Some((extra, next)) => Some((Le16(block[pos], block[pos + 1]), extra + MIN_MATCH, next))
  }

  function Finish(out: seq<Byte>, size: nat): Option<seq<Byte>> {
    if |out| == size then Some(out) else None
  }

  /** What the decoder answers once it stands at `pos` with `out` written. */
  function DecodeAt(block: seq<Byte>, pos: nat, out: seq<Byte>, size: nat): Option<seq<Byte>>
    requires pos <= |block|
    decreases |block| - pos
  {
    if pos == |block| then Finish(out, size)
    else
      match ReadRun(block, pos)
      case None => None
      case Some((literals, after)) =>
        var grown := out + literals;
        if |grown| > size then None
        else if after == |block| then Finish(grown, size)
        else
          match ReadMatch(block, after, block[pos] % 16)
          case None => None
          case Some((offset, length, next)) =>
            if offset == 0 || offset > |grown| || |grown| + length > size then None
            else DecodeAt(block, next, CopyMatch(grown, offset, length), size)
  }

  // ---------------------------------------------------------------------------------------------
  // The reader against the format
  // ---------------------------------------------------------------------------------------------

  lemma {:induction false} ChainReadBack(block: seq<Byte>, pos: nat, sum: nat, n: nat)
    requires pos + |Chain(n)| <= |block| && block[pos..pos + |Chain(n)|] == Chain(n)
    ensures ReadChain(block, pos, sum) == Some((sum + n, pos + |Chain(n)|))
    decreases n
  {
    var c := Chain(n);
    assert block[pos] == c[0];
    if n >= 255 {
      assert block[pos + 1..pos + |c|] == block[pos..pos + |c|][1..] == Chain(n - 255);
      ChainReadBack(block, pos + 1, sum + 255, n - 255);
    }
  }

  lemma LengthReadBack(block: seq<Byte>, pos: nat, n: nat)
    requires pos + |Extension(n)| <= |block| && block[pos..pos + |Extension(n)|] == Extension(n)
    ensures ReadLength(block, pos, Nibble(n)) == Some((n, pos + |Extension(n)|))
  {
    if n >= 15 { ChainReadBack(block, pos, 15, n - 15); }
  }

  lemma {:induction false} ChainIsPrinted(block: seq<Byte>, pos: nat, sum: nat)
    requires pos <= |block| && ReadChain(block, pos, sum).Some?
    ensures var (total, next) := ReadChain(block, pos, sum).value;
      total >= sum && block[pos..next] == Chain(total - sum)
    decreases |block| - pos
  {
    var (total, next) := ReadChain(block, pos, sum).value;
    if block[pos] == 255 {
      ChainIsPrinted(block, pos + 1, sum + 255);
      assert block[pos..next] == [block[pos]] + block[pos + 1..next];
    }
  }

  lemma LengthIsPrinted(block: seq<Byte>, pos: nat, base: nat)
    requires pos <= |block| && base < 16 && ReadLength(block, pos, base).Some?
    ensures var (n, next) := ReadLength(block, pos, base).value;
      Nibble(n) == base && block[pos..next] == Extension(n)
  {
    if base == 15 { ChainIsPrinted(block, pos, 15); }
  }

  /** A printed literal run is read as its literals. */
  lemma RunReadBack(block: seq<Byte>, pos: nat, token: Byte, literals: seq<Byte>, suffix: seq<Byte>)
    requires pos <= |block| && block[pos..] == LiteralRun(token, literals) + suffix
    requires token / 16 == Nibble(|literals|)
    ensures pos < |block| && block[pos] == token
    ensures ReadRun(block, pos) == Some((literals, |block| - |suffix|))
    ensures block[|block| - |suffix|..] == suffix
  {
    hide Extension, Nibble, ReadLength;
    CutFour(block, pos, [token], Extension(|literals|), literals, suffix);
    assert block[pos] == block[pos..pos + 1][0];
    LengthReadBack(block, pos + 1, |literals|);
  }

  lemma OffsetSplits(offset: nat)
    requires offset < 0x1_0000
    ensures Le16(offset % 256, offset / 256) == offset
  {
  }

  lemma FirstTwo(block: seq<Byte>, pos: nat, o: seq<Byte>)
    requires |o| == 2 && pos + 2 <= |block| && block[pos..pos + 2] == o
    ensures block[pos] == o[0] && block[pos + 1] == o[1]
  {
    assert block[pos..pos + 2][0] == block[pos] && block[pos..pos + 2][1] == block[pos + 1];
  }

  lemma MatchBytes(block: seq<Byte>, pos: nat, offset: nat, length: nat, suffix: seq<Byte>)
    requires offset < 0x1_0000 && MIN_MATCH <= length
    requires pos <= |block| && block[pos..] == MatchFields(offset, length) + suffix
    ensures var next := pos + 2 + |Extension(length - MIN_MATCH)|;
      && next + |suffix| == |block|
      && block[pos] == offset % 256 && block[pos + 1] == offset / 256
      && block[pos + 2..next] == Extension(length - MIN_MATCH)
      && block[next..] == suffix
  {
    hide Extension;
    var o: seq<Byte> := [offset % 256, offset / 256];
    CutThree(block, pos, o, Extension(length - MIN_MATCH), suffix);
    FirstTwo(block, pos, o);
  }

  /** Printed match fields are read as their offset and length. */
  lemma MatchReadBack(block: seq<Byte>, pos: nat, offset: nat, length: nat, suffix: seq<Byte>)
    requires offset < 0x1_0000 && MIN_MATCH <= length
    requires pos <= |block| && block[pos..] == MatchFields(offset, length) + suffix
    ensures ReadMatch(block, pos, Nibble(length - MIN_MATCH)) == Some((offset, length, |block| - |suffix|))
    ensures block[|block| - |suffix|..] == suffix
  {
    hide Extension, MatchFields, Le16, Nibble, ReadLength;
    MatchBytes(block, pos, offset, length, suffix);
    OffsetSplits(offset);
    LengthReadBack(block, pos + 2, length - MIN_MATCH);
  }

  /** What is read as a literal run is the print of that run. */
  lemma RunIsPrinted(block: seq<Byte>, pos: nat)
    requires pos < |block| && ReadRun(block, pos).Some?
    ensures var (literals, after) := ReadRun(block, pos).value;
      block[pos..after] == LiteralRun(block[pos], literals) && block[pos] / 16 == Nibble(|literals|)
  {
    var (n, start) := ReadLength(block, pos + 1, block[pos] / 16).value;
    LengthIsPrinted(block, pos + 1, block[pos] / 16);
    assert block[pos..start + n] == [block[pos]] + (block[pos + 1..start] + block[start..start + n]);
  }

  lemma MatchIsPrinted(block: seq<Byte>, pos: nat, nibble: nat)
    requires pos <= |block| && nibble < 16 && ReadMatch(block, pos, nibble).Some?
    ensures var (offset, length, next) := ReadMatch(block, pos, nibble).value;
      offset < 0x1_0000 && block[pos..next] == MatchFields(offset, length) && Nibble(length - MIN_MATCH) == nibble
  {
    var (offset, length, next) := ReadMatch(block, pos, nibble).value;
    LengthIsPrinted(block, pos + 2, nibble);
    assert block[pos..next] == [block[pos], block[pos + 1]] + block[pos + 2..next];
  }

  /** The bytes of a non-empty block after its first literal run. */
  ghost function AfterRun(b: Block): seq<Byte>
    requires WellFormed(b) && !b.Done?
  {
    if b.Tail? then [] else MatchFields(b.offset, b.length) + Print(b.rest)
  }

  lemma PrintParts(b: Block)
    requires WellFormed(b) && !b.Done?
    ensures Print(b) == LiteralRun(Token(b), b.literals) + AfterRun(b)
    ensures b.Tail? ==> AfterRun(b) == []
    ensures b.Sequence? ==> AfterRun(b) == MatchFields(b.offset, b.length) + Print(b.rest)
    ensures b.Sequence? ==> |AfterRun(b)| > |Print(b.rest)|
  {
    hide Token, LiteralRun, Extension;
  }

  lemma TokenParts(b: Block)
    requires WellFormed(b) && !b.Done?
    ensures Token(b) / 16 == Nibble(|b.literals|)
    ensures Token(b) % 16 == if b.Tail? then b.spare else Nibble(b.length - MIN_MATCH)
  {
  }

  /** A printed block that is not `Done` starts with its literal run. */
  lemma HeadReadBack(block: seq<Byte>, pos: nat, b: Block)
    requires pos <= |block| && WellFormed(b) && !b.Done? && block[pos..] == Print(b)
    ensures pos < |block| && block[pos] == Token(b)
    ensures ReadRun(block, pos) == Some((b.literals, |block| - |AfterRun(b)|))
    ensures pos < |block| - |AfterRun(b)| && block[|block| - |AfterRun(b)|..] == AfterRun(b)
  {
    hide Print, Token, LiteralRun, Extension, AfterRun, MatchFields, ReadRun, Nibble;
    PrintParts(b);
    TokenParts(b);
    RunReadBack(block, pos, Token(b), b.literals, AfterRun(b));
    RunIsNotEmpty(Token(b), b.literals);
  }

  lemma RunIsNotEmpty(token: Byte, literals: seq<Byte>)
    ensures |LiteralRun(token, literals)| > 0
  {
  }

  /** A printed block that is not `Done` is read part by part. */
  lemma BlockReadBack(block: seq<Byte>, pos: nat, b: Block)
    requires pos <= |block| && WellFormed(b) && !b.Done? && block[pos..] == Print(b)
    ensures pos < |block| && block[pos] == Token(b)
    ensures ReadRun(block, pos) == Some((b.literals, |block| - |AfterRun(b)|))
    ensures b.Tail? <==> |AfterRun(b)| == 0
    ensures b.Sequence? ==>
      var next := |block| - |Print(b.rest)|;
      && ReadMatch(block, |block| - |AfterRun(b)|, Token(b) % 16) == Some((b.offset, b.length, next))
      && pos < next && block[next..] == Print(b.rest)
  {
    hide Print, Extension, LiteralRun, MatchFields, Token, Nibble, ReadRun, ReadMatch, AfterRun;
    HeadReadBack(block, pos, b);
    TokenParts(b);
    PrintParts(b);
    if b.Sequence? {
      MatchReadBack(block, |block| - |AfterRun(b)|, b.offset, b.length, Print(b.rest));
    }
  }

  /** The decoder takes one whole sequence. */
  lemma SequenceStep(block: seq<Byte>, pos: nat, out: seq<Byte>, size: nat,
                     literals: seq<Byte>, after: nat, offset: nat, length: nat, next: nat)
    requires pos < |block| && ReadRun(block, pos) == Some((literals, after)) && after < |block|
    requires ReadMatch(block, after, block[pos] % 16) == Some((offset, length, next))
    requires 0 < offset <= |out + literals| && |out + literals| + length <= size
    ensures next <= |block|
    ensures DecodeAt(block, pos, out, size) == DecodeAt(block, next, CopyMatch(out + literals, offset, length), size)
  {
    hide ReadRun, ReadMatch, CopyMatch;
  }

  /** The decoder takes a last literal run, or nothing. */
  lemma LastStep(block: seq<Byte>, pos: nat, out: seq<Byte>, size: nat, literals: seq<Byte>)
    requires pos < |block| && ReadRun(block, pos) == Some((literals, |block|)) && |out + literals| == size
    ensures DecodeAt(block, pos, out, size) == Some(out + literals)
  {
    hide ReadRun;
  }

  lemma MeaningOfSequence(b: Block, out: seq<Byte>)
    requires b.Sequence? && Meaning(b, out).Some?
    ensures 0 < b.offset <= |out + b.literals|
    ensures var copied := CopyMatch(out + b.literals, b.offset, b.length);
      && Meaning(b, out) == Meaning(b.rest, copied) && |copied| == |out + b.literals| + b.length
      && |copied| <= |Meaning(b, out).value|
  {
    hide CopyMatch;
    MeaningGrows(b.rest, CopyMatch(out + b.literals, b.offset, b.length));
  }

  lemma DecodesLastBlock(block: seq<Byte>, pos: nat, out: seq<Byte>, size: nat, b: Block)
    requires pos <= |block| && WellFormed(b) && !b.Sequence? && block[pos..] == Print(b)
    requires Meaning(b, out).Some? && |Meaning(b, out).value| == size
    ensures DecodeAt(block, pos, out, size) == Meaning(b, out)
  {
    hide Extension, LiteralRun, MatchFields, Token, Nibble, ReadRun, ReadMatch, AfterRun, DecodeAt;
    if b.Done? {
      NothingLeft(block, pos, out, size);
    } else {
      BlockReadBack(block, pos, b);
      LastStep(block, pos, out, size, b.literals);
    }
  }

  /** Every printed block whose meaning has the requested size is read as that meaning. */
  lemma {:induction false} DecodesEveryPrintedBlock(block: seq<Byte>, pos: nat, out: seq<Byte>, size: nat, b: Block)
    requires pos <= |block| && WellFormed(b) && block[pos..] == Print(b)
    requires Meaning(b, out).Some? && |Meaning(b, out).value| == size
    ensures DecodeAt(block, pos, out, size) == Meaning(b, out)
    decreases b
  {
    hide Print, CopyMatch, ReadRun, ReadMatch, Token, LiteralRun, MatchFields, AfterRun, Extension, DecodeAt, Meaning;
    if b.Sequence? {
      BlockReadBack(block, pos, b);
      MeaningOfSequence(b, out);
      var after, next := |block| - |AfterRun(b)|, |block| - |Print(b.rest)|;
      SequenceStep(block, pos, out, size, b.literals, after, b.offset, b.length, next);
      DecodesEveryPrintedBlock(block, next, CopyMatch(out + b.literals, b.offset, b.length), size, b.rest);
    } else {
      DecodesLastBlock(block, pos, out, size, b);
    }
  }

  lemma NothingLeft(block: seq<Byte>, pos: nat, out: seq<Byte>, size: nat)
    requires pos <= |block| && block[pos..] == [] && |out| == size
    ensures DecodeAt(block, pos, out, size) == Some(out)
  {
  }

  /** The bytes from `pos` on are the print of the sequence read there and the rest printed after it. */
  lemma SequenceIsPrinted(block: seq<Byte>, pos: nat, rest: Block)
    requires pos < |block| && ReadRun(block, pos).Some?
    requires var (_, after) := ReadRun(block, pos).value; ReadMatch(block, after, block[pos] % 16).Some?
    requires var (_, after) := ReadRun(block, pos).value;
      var (_, _, next) := ReadMatch(block, after, block[pos] % 16).value;
      WellFormed(rest) && Print(rest) == block[next..]
    ensures var (literals, after) := ReadRun(block, pos).value;
      var (offset, length, _) := ReadMatch(block, after, block[pos] % 16).value;
      var b := Sequence(literals, offset, length, rest);
      WellFormed(b) && Print(b) == block[pos..]
  {
    var (literals, after) := ReadRun(block, pos).value;
    var (offset, length, next) := ReadMatch(block, after, block[pos] % 16).value;
    RunIsPrinted(block, pos);
    MatchIsPrinted(block, after, block[pos] % 16);
    hide ReadRun, ReadMatch, LiteralRun, MatchFields, Extension;
    var b := Sequence(literals, offset, length, rest);
    assert Token(b) == block[pos];
    Halve(block, after, next);
    Halve(block, pos, after);
  }

  lemma Halve(s: seq<Byte>, i: nat, j: nat)
    requires i <= j <= |s|
    ensures s[i..] == s[i..j] + s[j..]
  {
  }

  /** Whatever the decoder accepts is some printed block, read with its meaning. */
  lemma {:induction false} AcceptsOnlyPrintedBlocks(block: seq<Byte>, pos: nat, out: seq<Byte>, size: nat)
    returns (b: Block)
    requires pos <= |block| && DecodeAt(block, pos, out, size).Some?
    ensures WellFormed(b) && Print(b) == block[pos..]
    ensures Meaning(b, out) == DecodeAt(block, pos, out, size)
    ensures |DecodeAt(block, pos, out, size).value| == size
    decreases |block| - pos
  {
    if pos == |block| { return Done; }
    var (literals, after) := ReadRun(block, pos).value;
    if after == |block| {
      RunIsPrinted(block, pos);
      assert block[pos..after] == block[pos..];
      return Tail(block[pos] % 16, literals);
    }
    var (offset, length, next) := ReadMatch(block, after, block[pos] % 16).value;
    var rest := AcceptsOnlyPrintedBlocks(block, next, CopyMatch(out + literals, offset, length), size);
    SequenceIsPrinted(block, pos, rest);
    b := Sequence(literals, offset, length, rest);
  }

  lemma {:induction false} SameBytesSameBlock(block: seq<Byte>, pos: nat, b: Block, c: Block)
    requires pos <= |block| && WellFormed(b) && WellFormed(c)
    requires block[pos..] == Print(b) && block[pos..] == Print(c)
    ensures b == c
    decreases b
  {
    hide Print, Extension, LiteralRun, MatchFields, Token, Nibble, ReadRun, ReadMatch, AfterRun;
    OnlyDoneIsEmpty(b);
    OnlyDoneIsEmpty(c);
    if !b.Done? && !c.Done? {
      TokenParts(b);
      TokenParts(c);
      BlockReadBack(block, pos, b);
      BlockReadBack(block, pos, c);
      if b.Sequence? {
        SameBytesSameBlock(block, |block| - |Print(b.rest)|, b.rest, c.rest);
      }
    }
  }

  lemma OnlyDoneIsEmpty(b: Block)
    requires WellFormed(b)
    ensures Print(b) == [] <==> b.Done?
  {
    hide Extension, MatchFields, Token;
  }

  /** The bytes determine the block, so no input has two readings. */
  lemma PrintIsInjective(b: Block, c: Block)
    requires WellFormed(b) && WellFormed(c) && Print(b) == Print(c)
    ensures b == c
  {
    assert Print(b)[0..] == Print(b);
    SameBytesSameBlock(Print(b), 0, b, c);
  }

  /** A block has at most one reading, at one size: the bytes settle the sequences and so the output. */
  lemma AtMostOneReading(block: seq<Byte>, size: int, b: Block, o: seq<Byte>, size': int, b': Block, o': seq<Byte>)
    requires Reading(block, size, b, o) && Reading(block, size', b', o')
    ensures b == b' && o == o' && size == size'
  {
    PrintIsInjective(b, b');
  }

  // ---------------------------------------------------------------------------------------------
  // The format, octet by octet
  // ---------------------------------------------------------------------------------------------

  function Total(s: seq<Byte>): nat {
    if s == [] then 0 else s[0] + Total(s[1..])
  }

  /** A saturated length is fifteen and the sum of the octets that follow it, each 255 but the last. */
  lemma {:induction false} ChainAddsUp(n: nat)
    ensures Total(Chain(n)) == n
    ensures forall i | 0 <= i < |Chain(n)| - 1 :: Chain(n)[i] == 255
    ensures Chain(n)[|Chain(n)| - 1] < 255
  {
    if n < 255 {
      assert Chain(n)[1..] == [];
    } else {
      ChainAddsUp(n - 255);
      assert Chain(n)[1..] == Chain(n - 255);
    }
  }

  /**
   * One sequence in octets: "AB" and six bytes copied from two back, then "!". The token has the literal count
   * above the match length less four, and the offset is little-endian.
   */
  lemma OneSequenceInOctets()
    ensures var b := Sequence([0x41, 0x42], 2, 6, Tail(0, [0x21]));
      && WellFormed(b) && Print(b) == [0x22, 0x41, 0x42, 0x02, 0x00, 0x10, 0x21]
      && Meaning(b, []) == Some([0x41, 0x42, 0x41, 0x42, 0x41, 0x42, 0x41, 0x42, 0x21])
  {
    var b := Sequence([0x41, 0x42], 2, 6, Tail(0, [0x21]));
    TailInOctets();
    assert Extension(2) == [] && Token(b) == 0x22;
    assert LiteralRun(0x22, [0x41, 0x42]) == [0x22, 0x41, 0x42];
    assert MatchFields(2, 6) == [0x02, 0x00];
    assert Print(b) == [0x22, 0x41, 0x42] + ([0x02, 0x00] + [0x10, 0x21]);
    CopyOfTwo();
    var none: seq<Byte> := [];
    assert none + [0x41, 0x42] == [0x41, 0x42];
    var copied: seq<Byte> := [0x41, 0x42, 0x41, 0x42, 0x41, 0x42, 0x41, 0x42];
    assert Meaning(b, none) == Meaning(Tail(0, [0x21]), copied);
    assert copied + [0x21] == [0x41, 0x42, 0x41, 0x42, 0x41, 0x42, 0x41, 0x42, 0x21];
  }

  /** Where the code is laxer than the format's end conditions: an empty block, and one that ends on a match. */
  lemma LaxEnds()
    ensures DecodeAt([], 0, [], 0) == Some([])
    ensures DecodeAt([0x22, 0x41, 0x42, 0x02, 0x00], 0, [], 8)
      == Some([0x41, 0x42, 0x41, 0x42, 0x41, 0x42, 0x41, 0x42])
  {
    var b := Sequence([0x41, 0x42], 2, 6, Done);
    var block: seq<Byte> := [0x22, 0x41, 0x42, 0x02, 0x00];
    assert Extension(2) == [] && Token(b) == 0x22;
    assert LiteralRun(0x22, [0x41, 0x42]) == [0x22, 0x41, 0x42];
    assert MatchFields(2, 6) == [0x02, 0x00];
    assert Print(b) == [0x22, 0x41, 0x42] + ([0x02, 0x00] + []);
    assert Print(b) == block && block[0..] == block;
    CopyOfTwo();
    var none: seq<Byte> := [];
    assert none + [0x41, 0x42] == [0x41, 0x42];
    DecodesEveryPrintedBlock(block, 0, none, 8, b);
  }

  lemma TailInOctets()
    ensures Print(Tail(0, [0x21])) == [0x10, 0x21]
  {
    assert Extension(1) == [];
    assert LiteralRun(0x10, [0x21]) == [0x10, 0x21];
  }

  lemma CopyOfTwo()
    ensures CopyMatch([0x41, 0x42], 2, 6) == [0x41, 0x42, 0x41, 0x42, 0x41, 0x42, 0x41, 0x42]
  {
    var a: seq<Byte> := [0x41, 0x42];
    assert CopyMatch(a, 2, 6) == CopyMatch(a + [0x41], 2, 5);
    assert CopyMatch(a + [0x41], 2, 5) == CopyMatch(a + [0x41] + [0x42], 2, 4);
    assert CopyMatch(a + [0x41] + [0x42], 2, 4) == CopyMatch(a + [0x41] + [0x42] + [0x41], 2, 3);
    assert CopyMatch(a + [0x41] + [0x42] + [0x41], 2, 3) == CopyMatch(a + [0x41] + [0x42] + [0x41] + [0x42], 2, 2);
    var b := a + [0x41] + [0x42] + [0x41] + [0x42];
    assert CopyMatch(b, 2, 2) == CopyMatch(b + [0x41], 2, 1);
    assert CopyMatch(b + [0x41], 2, 1) == CopyMatch(b + [0x41] + [0x42], 2, 0);
  }

  // ---------------------------------------------------------------------------------------------
  // The decoder
  // ---------------------------------------------------------------------------------------------

  /** Read a length whose leading nibble may have saturated, advancing the cursor. */
  method Extend(block: seq<Byte>, start: nat, base: nat) returns (len: Option<nat>, pos: nat)
    requires start <= |block|
    ensures pos <= |block|
    ensures (if len.Some? then Some((len.value, pos)) else None) == ReadLength(block, start, base)
  {
    pos := start;
    if base != 15 { return Some(base), pos; }
    var sum: nat := base;
    while true
      invariant start <= pos <= |block|
      invariant ReadChain(block, pos, sum) == ReadLength(block, start, base)
      decreases |block| - pos
    {
      if pos >= |block| { return None, pos; }
      var extra := block[pos];
      pos := pos + 1;
      sum := sum + extra;
      if extra != 0xff { return Some(sum), pos; }
    }
  }

  /** Copy a literal run into the output. */
  method CopyLiterals(block: seq<Byte>, pos: nat, n: nat, out: array<Byte>, written: nat)
    requires pos + n <= |block| && written + n <= out.Length
    modifies out
    ensures out[..written + n] == old(out[..written]) + block[pos..pos + n]
  {
    for i := 0 to n
      invariant out[..written + i] == old(out[..written]) + block[pos..pos + i]
    {
      out[written + i] := block[pos + i];
      assert out[..written + i + 1] == out[..written + i] + [block[pos + i]];
    }
  }

  /** Copy a match byte by byte, so the bytes it reads may be ones it just wrote. */
  method CopyBack(out: array<Byte>, written: nat, offset: nat, length: nat)
    requires 0 < offset <= written && written + length <= out.Length
    modifies out
    ensures out[..written + length] == CopyMatch(old(out[..written]), offset, length)
  {
    var from := written - offset;
    ghost var all := CopyMatch(out[..written], offset, length);
    for i := 0 to length
      invariant from == written - offset + i
      invariant CopyMatch(out[..written + i], offset, length - i) == all
    {
      ghost var before := out[..written + i];
      out[written + i] := out[from];
      from := from + 1;
      assert out[..written + i + 1] == before + [before[|before| - offset]];
    }
  }

  /** What the cursor reader answers is exactly what the format says, in both directions. */
  lemma DecodeMeetsFormat(block: seq<Byte>, size: nat)
    ensures DecodeAt(block, 0, [], size).Some? ==>
      exists b :: Reading(block, size, b, DecodeAt(block, 0, [], size).value)
    ensures forall b, o :: Reading(block, size, b, o) ==> DecodeAt(block, 0, [], size) == Some(o)
  {
    assert block[0..] == block;
    if DecodeAt(block, 0, [], size).Some? {
      var b := AcceptsOnlyPrintedBlocks(block, 0, [], size);
      assert Reading(block, size, b, DecodeAt(block, 0, [], size).value);
    }
    forall b, o | Reading(block, size, b, o) ensures DecodeAt(block, 0, [], size) == Some(o) {
      DecodesEveryPrintedBlock(block, 0, [], size, b);
    }
  }

  /** Read the token and literal run at `start` and copy the literals out. */
  method TakeRun(block: seq<Byte>, start: nat, out: array<Byte>, from: nat)
    returns (ok: bool, pos: nat, written: nat)
    requires start < |block| && from <= out.Length
    modifies out
    ensures ok <==> ReadRun(block, start).Some? && from + |ReadRun(block, start).value.0| <= out.Length
    ensures ok ==> pos == ReadRun(block, start).value.1 && from <= written <= out.Length
    ensures ok ==> out[..written] == old(out[..from]) + ReadRun(block, start).value.0
  {
    var token := block[start];
    var literals;
    literals, pos := Extend(block, start + 1, token / 16);
    written := from;
    if literals.None? { return false, pos, written; }
    if pos + literals.value > |block| || from + literals.value > out.Length { return false, pos, written; }
    CopyLiterals(block, pos, literals.value, out, from);
    return true, pos + literals.value, from + literals.value;
  }

  /** Read the offset and match length at `start` and copy the match from the output already there. */
  method TakeMatch(block: seq<Byte>, start: nat, nibble: nat, out: array<Byte>, from: nat)
    returns (ok: bool, pos: nat, written: nat)
    requires start < |block| && from <= out.Length
    modifies out
    ensures ok ==> ReadMatch(block, start, nibble).Some?
    ensures ReadMatch(block, start, nibble).Some? ==>
      var (offset, length, next) := ReadMatch(block, start, nibble).value;
      && (ok <==> 0 < offset <= from && from + length <= out.Length)
      && (ok ==> pos == next && from <= written <= out.Length)
      && (ok ==> out[..written] == CopyMatch(old(out[..from]), offset, length))
  {
    pos, written := start, from;
    if pos + 2 > |block| { return false, pos, written; }
    var offset := Le16(block[pos], block[pos + 1]);
    if offset == 0 || offset > written { return false, pos, written; }
    var extra;
    extra, pos := Extend(block, pos + 2, nibble);
    if extra.None? { return false, pos, written; }
    var length := extra.value + MIN_MATCH;
    if written + length > out.Length { return false, pos, written; }
    CopyBack(out, written, offset, length);
    return true, pos, written + length;
  }

  /**
   * Decompress a block into exactly `size` bytes.
   *
   * The answer is the reading of the block whenever it has one of that size, and `None` exactly when it has
   * none or the size is out of range.
   */
  method Decompress(block: seq<Byte>, size: int) returns (r: Option<array<Byte>>)
    ensures r.Some? ==> fresh(r.value)
    ensures r.Some? ==> 0 <= size <= MAX_OUTPUT && exists b :: Reading(block, size, b, r.value[..])
    ensures r.None? ==> !(0 <= size <= MAX_OUTPUT && exists b, o :: Reading(block, size, b, o))
  {
    if size < 0 || size > MAX_OUTPUT { return None; }
    DecodeMeetsFormat(block, size);
    ghost var answer := DecodeAt(block, 0, [], size);
    var out := new Byte[size];
    var pos: nat, written: nat, ok := 0, 0, true;
    while pos < |block|
      invariant pos <= |block| && written <= out.Length
      invariant DecodeAt(block, pos, out[..written], size) == answer
      decreases |block| - pos
    {
      var token := block[pos];
      ok, pos, written := TakeRun(block, pos, out, written);
      if !ok { return None; }
      if pos == |block| { break; }
      ok, pos, written := TakeMatch(block, pos, token % 16, out, written);
      if !ok { return None; }
    }
    assert written == size ==> out[..written] == out[..];
    return if written == size then Some(out) else None;
  }
}
