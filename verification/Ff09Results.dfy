/** What the `ff09` frames guarantee. */
module Ff09Results {
  import opened Wrappers
  import opened Bytes
  import opened Slices
  import opened Ff09

  // ---------------------------------------------------------------------------------------------
  // The frame
  // ---------------------------------------------------------------------------------------------

  lemma UnsealedLayout(commandCode: nat, ct: Octets)
    ensures var preXor := Unsealed(commandCode, ct);
      && |preXor| == HEADER + |ct| && preXor[0] == 0xff && preXor[1] == 0x09
      && preXor[2..4] == U16Le(HEADER + |ct| + 1) && preXor[HEADER..] == ct
  {
    hide U16Le, U16Be;
  }

  /**
   * A frame that was assembled decrypts, under the same key and identity, to exactly the plaintext sealed in
   * it, as long as its length fits the two-octet header; a longer one is refused.
   */
  lemma DecryptUndoesAssemble(
    c: Cipher, commandCode: nat, plain: Octets, adminUserId: string, deviceSn: string, keyTime: int)
    requires Sound(c) && commandCode < 0x4000 && IdentityToDecrypt(adminUserId, deviceSn)
    ensures var frame := Assemble(c, commandCode, plain, adminUserId, deviceSn, keyTime);
      Decrypt(c, frame, keyTime, adminUserId, deviceSn) ==
        if 10 + (|plain| / 16 + 1) * 16 <= 0xffff then Some(plain) else None
  {
    hide Unsealed, Key, Iv, Checked;
    var ct := c.encrypt(Key(adminUserId, keyTime), Iv(deviceSn), plain);
    SealedLayout(commandCode, ct);
  }

  /** A sealed frame passes its self-checks exactly when its length fits the header. */
  lemma SealedLayout(commandCode: nat, ct: Octets)
    ensures var preXor := Unsealed(commandCode, ct);
      var frame := preXor + [XorAll(preXor)];
      && |frame| == 10 + |ct| && frame[HEADER..|frame| - 1] == ct
      && (Checked(frame) <==> 10 + |ct| <= 0xffff)
  {
    hide Unsealed, XorAll, U16Le, U16Be, ReadU16Le;
    var preXor, n := Unsealed(commandCode, ct), HEADER + |ct| + 1;
    UnsealedLayout(commandCode, ct);
    WordBack(n);
    var frame := preXor + [XorAll(preXor)];
    assert frame[..n - 1] == preXor && frame[2..4] == preXor[2..4] && frame[HEADER..n - 1] == preXor[HEADER..];
    assert n % 0x1_0000 == n <==> n <= 0xffff;
  }

  /**
   * The frame octet by octet: the two of the marker, its length with the low octet first, the three that never
   * change, the command with its flag and the high octet first, the cipher text, and the checksum of the rest.
   */
  lemma AssembledOctets(
    c: Cipher, commandCode: nat, plain: Octets, adminUserId: string, deviceSn: string, keyTime: int)
    requires Sound(c) && commandCode < 0x4000
    ensures var frame := Assemble(c, commandCode, plain, adminUserId, deviceSn, keyTime);
      var n := |frame|;
      && n == 10 + (|plain| / 16 + 1) * 16
      && frame[0] == 0xff && frame[1] == 0x09
      && (frame[2] as int) + 0x100 * (frame[3] as int) == n % 0x1_0000
      && frame[4] == 0x03 && frame[5] == 0x00 && frame[6] == 0x02
      && 0x100 * (frame[7] as int) + frame[8] == 0x4000 + commandCode
      && frame[9..n - 1] == c.encrypt(Key(adminUserId, keyTime), Iv(deviceSn), plain)
      && frame[n - 1] == XorAll(frame[..n - 1])
  {
    hide Key, Iv, XorAll, Unsealed;
    var ct := c.encrypt(Key(adminUserId, keyTime), Iv(deviceSn), plain);
    var preXor := Unsealed(commandCode, ct);
    var frame := Assemble(c, commandCode, plain, adminUserId, deviceSn, keyTime);
    assert frame == preXor + [XorAll(preXor)];
    HeaderOctets(commandCode, ct);
    assert frame[..|frame| - 1] == preXor && frame[9..|frame| - 1] == preXor[9..];
    CommandFits(commandCode);
    TwoOctets(|frame|);
  }

  lemma HeaderOctets(commandCode: nat, ct: Octets)
    ensures var preXor := Unsealed(commandCode, ct);
      var size := HEADER + |ct| + 1;
      && |preXor| == HEADER + |ct| && preXor[9..] == ct
      && preXor[0] == 0xff && preXor[1] == 0x09
      && preXor[2] == size % 0x100 && preXor[3] == size / 0x100 % 0x100
      && preXor[4] == 0x03 && preXor[5] == 0x00 && preXor[6] == 0x02
      && preXor[7] == (0x4000 + commandCode) / 0x100 % 0x100 && preXor[8] == (0x4000 + commandCode) % 0x100
  {
  }

  lemma CommandFits(commandCode: nat)
    requires commandCode < 0x4000
    ensures var n := 0x4000 + commandCode; 0x100 * (n / 0x100 % 0x100) + n % 0x100 == n
  {
  }

  lemma TwoOctets(n: int)
    ensures n % 0x100 + 0x100 * (n / 0x100 % 0x100) == n % 0x1_0000
  {
  }

  lemma TwoWords(n: int)
    ensures n % 0x1_0000 + 0x1_0000 * (n / 0x1_0000 % 0x1_0000) == n % 0x1_0000_0000
  {
  }

  lemma ShortWordsInOctets(n: int)
    ensures (U16Le(n)[0] as int) + 0x100 * (U16Le(n)[1] as int) == n % 0x1_0000
    ensures 0x100 * (U16Be(n)[0] as int) + U16Be(n)[1] == n % 0x1_0000
  {
    TwoOctets(n);
  }

  lemma LongWordsInOctets(n: int)
    ensures U32Le(n)[..2] == U16Le(n) && U32Le(n)[2..] == U16Le(n / 0x1_0000)
    ensures U32Be(n)[..2] == U16Be(n / 0x1_0000) && U32Be(n)[2..] == U16Be(n)
  {
    hide U16Le, U16Be;
  }

  /** The words of the format: low octet first in fields and length, high octet first in key and command. */
  lemma WordsInOctets(n: int)
    ensures (U16Le(n)[0] as int) + 0x100 * (U16Le(n)[1] as int) == n % 0x1_0000
    ensures 0x100 * (U16Be(n)[0] as int) + U16Be(n)[1] == n % 0x1_0000
    ensures var b := U32Le(n);
      (b[0] as int) + 0x100 * (b[1] as int) + 0x1_0000 * (b[2] as int) + 0x100_0000 * (b[3] as int) == n % 0x1_0000_0000
    ensures var b := U32Be(n);
      0x100_0000 * (b[0] as int) + 0x1_0000 * (b[1] as int) + 0x100 * (b[2] as int) + b[3] == n % 0x1_0000_0000
  {
    hide U16Le, U16Be, U32Le, U32Be;
    ShortWordsInOctets(n);
    ShortWordsInOctets(n / 0x1_0000);
    LongWordsInOctets(n);
    TwoWords(n);
    var l, b := U32Le(n), U32Be(n);
    assert l[0] == l[..2][0] && l[1] == l[..2][1] && l[2] == l[2..][0] && l[3] == l[2..][1];
    assert b[0] == b[..2][0] && b[1] == b[..2][1] && b[2] == b[2..][0] && b[3] == b[2..][1];
  }

  /** The key is the last twelve characters of the account id and the key time; the vector the serial number. */
  lemma KeyAndVector(adminUserId: string, deviceSn: string, keyTime: int)
    requires |adminUserId| >= 12
    ensures var key := Key(adminUserId, keyTime);
      && |key| == 16
      && (forall i | 0 <= i < 12 :: key[i] == adminUserId[|adminUserId| - 12 + i] as int % 0x100)
      && 0x100_0000 * (key[12] as int) + 0x1_0000 * (key[13] as int) + 0x100 * (key[14] as int) + key[15]
         == keyTime % 0x1_0000_0000
    ensures var iv := Iv(deviceSn);
      && |iv| == 16
      && (forall i | 0 <= i < 16 :: iv[i] == if i < |deviceSn| then deviceSn[i] as int % 0x100 else 0)
  {
    hide U32Be;
    WordsInOctets(keyTime);
  }

  /** What decryption asks before it uses the cipher, and that it gives the cipher what lies between. */
  lemma DecryptAsksFirst(c: Cipher, frame: Octets, keyTime: int, adminUserId: string, deviceSn: string)
    ensures var n := |frame|;
      Decrypt(c, frame, keyTime, adminUserId, deviceSn) ==
        if |adminUserId| >= 12 && |deviceSn| > 0 && n >= 10 && frame[0] == 0xff && frame[1] == 0x09
           && (frame[2] as int) + 0x100 * (frame[3] as int) == n && XorAll(frame[..n - 1]) == frame[n - 1]
        then c.decrypt(Key(adminUserId, keyTime), Iv(deviceSn), frame[9..n - 1]) else None
  {
    hide XorAll, Key, Iv;
    if |frame| >= 4 { assert frame[2..4][0] == frame[2] && frame[2..4][1] == frame[3]; }
  }

  /** Bit `i` of a number. */
  function Bit(n: nat, i: nat): nat {
    if i == 0 then n % 2 else Bit(n / 2, i - 1)
  }

  lemma {:induction false} BitsOfXor(a: nat, b: nat, k: nat, i: nat)
    requires i < k
    ensures Bit(XorBits(a, b, k), i) == (Bit(a, i) + Bit(b, i)) % 2
  {
    var low, rest := (a + b) % 2, XorBits(a / 2, b / 2, k - 1);
    LowAndRest(low, rest);
    if i == 0 {
      SumParity(a, b);
    } else {
      BitsOfXor(a / 2, b / 2, k - 1, i - 1);
    }
  }

  lemma LowAndRest(low: nat, rest: nat)
    requires low < 2
    ensures (low + 2 * rest) % 2 == low && (low + 2 * rest) / 2 == rest
  {
  }

  lemma SumParity(a: nat, b: nat)
    ensures (a + b) % 2 == (a % 2 + b % 2) % 2
  {
  }

  lemma {:induction false} BitIsBit(n: nat, i: nat)
    ensures Bit(n, i) < 2
  {
    if i > 0 { BitIsBit(n / 2, i - 1); }
  }

  /** The checksum's operation, bit by bit: set where exactly one of the two is. */
  lemma XorIsBitwise(a: Byte, b: Byte, i: nat)
    requires i < 8
    ensures Bit(Xor(a, b), i) == 1 <==> Bit(a, i) != Bit(b, i)
  {
    BitsOfXor(a, b, 8, i);
    BitIsBit(a, i);
    BitIsBit(b, i);
  }

  lemma {:induction false} XorBitsTellApart(a: nat, b: nat, c: nat, k: nat)
    requires a < PowerOfTwo(k) && b < PowerOfTwo(k) && a != b
    ensures XorBits(a, c, k) != XorBits(b, c, k) && XorBits(c, a, k) != XorBits(c, b, k)
  {
    if k > 0 {
      if a / 2 != b / 2 {
        XorBitsTellApart(a / 2, b / 2, c / 2, k - 1);
        LowBitsSettle((a + c) % 2, XorBits(a / 2, c / 2, k - 1), (b + c) % 2, XorBits(b / 2, c / 2, k - 1));
        LowBitsSettle((c + a) % 2, XorBits(c / 2, a / 2, k - 1), (c + b) % 2, XorBits(c / 2, b / 2, k - 1));
      } else {
        ParityDiffers(a, b, c);
      }
    }
  }

  lemma LowBitsSettle(x: nat, p: nat, y: nat, q: nat)
    requires x < 2 && y < 2 && p != q
    ensures x + 2 * p != y + 2 * q
  {
  }

  lemma ParityDiffers(a: nat, b: nat, c: nat)
    requires a / 2 == b / 2 && a != b
    ensures (a + c) % 2 != (b + c) % 2
  {
  }

  lemma XorTellsApart(a: Byte, b: Byte, c: Byte)
    requires a != b
    ensures Xor(a, c) != Xor(b, c) && Xor(c, a) != Xor(c, b)
  {
    assert PowerOfTwo(2) == 4 && PowerOfTwo(4) == 16 && PowerOfTwo(6) == 64 && PowerOfTwo(8) == 0x100;
    XorBitsTellApart(a, b, c, 8);
  }

  lemma {:induction false} OneChangeShows(s: Octets, i: nat, b: Byte)
    requires i < |s| && b != s[i]
    ensures XorAll(s[i := b]) != XorAll(s)
  {
    hide Xor;
    var n := |s| - 1;
    if i == n {
      assert s[i := b][..n] == s[..n];
      XorTellsApart(b, s[n], XorAll(s[..n]));
    } else {
      OneChangeShows(s[..n], i, b);
      assert s[i := b][..n] == s[..n][i := b];
      XorTellsApart(XorAll(s[i := b][..n]), XorAll(s[..n]), s[n]);
    }
  }

  /** Changing any single octet of a frame that passes its self-checks, to anything else, makes it fail them. */
  lemma AnyOneOctetIsDetected(frame: Octets, i: nat, b: Byte)
    requires Checked(frame) && i < |frame| && b != frame[i]
    ensures !Checked(frame[i := b])
  {
    hide ReadU16Le;
    var n := |frame| - 1;
    var changed := frame[i := b];
    if i == n {
      assert changed[..n] == frame[..n];
    } else {
      assert changed[..n] == frame[..n][i := b];
      OneChangeShows(frame[..n], i, b);
    }
  }

  /** So decryption of an assembled frame with one octet changed throws, whatever the key. */
  lemma TamperedFrameIsRefused(
    c: Cipher, commandCode: nat, plain: Octets, adminUserId: string, deviceSn: string, keyTime: int,
    i: nat, b: Byte, key: int, admin: string, sn: string)
    requires Sound(c) && commandCode < 0x4000 && IdentityToDecrypt(adminUserId, deviceSn)
    requires 10 + (|plain| / 16 + 1) * 16 <= 0xffff
    requires var frame := Assemble(c, commandCode, plain, adminUserId, deviceSn, keyTime);
      i < |frame| && b != frame[i]
    ensures var frame := Assemble(c, commandCode, plain, adminUserId, deviceSn, keyTime);
      Decrypt(c, frame[i := b], key, admin, sn) == None
  {
    hide Assemble, Key, Iv, Sound, Checked;
    DecryptUndoesAssemble(c, commandCode, plain, adminUserId, deviceSn, keyTime);
    AnyOneOctetIsDetected(Assemble(c, commandCode, plain, adminUserId, deviceSn, keyTime), i, b);
  }

  // ---------------------------------------------------------------------------------------------
  // The fields
  // ---------------------------------------------------------------------------------------------

  /** The fields under their separators, up to the separator that would wrap to zero. */
  function FieldMap(fields: seq<Octets>, sep: nat): map<Byte, Octets> {
    if fields == [] || sep >= 0x100 then map[]
    else map[U8(sep) := fields[0]] + FieldMap(fields[1..], sep + 1)
  }

  predicate AllZero(s: Octets) {
    forall i | 0 <= i < |s| :: s[i] == 0
  }

  lemma ParseStops(rest: Octets, fields: map<Byte, Octets>)
    requires |rest| > 0 ==> rest[0] == 0
    ensures Parse(rest, fields) == fields
  {
  }

  lemma ParseStep(sep: Byte, f: Octets, more: Octets, fields: map<Byte, Octets>)
    requires |f| <= 0xff && sep != 0
    ensures Parse([sep, U8(|f|)] + f + more, fields) == Parse(more, fields[sep := f])
  {
    var rest := [sep, U8(|f|)] + f + more;
    Cut([sep, U8(|f|)], f, more);
    assert rest[0] == sep && rest[1] == U8(|f|);
  }

  lemma AddFirst(fields: map<Byte, Octets>, k: Byte, v: Octets, rest: map<Byte, Octets>)
    ensures fields[k := v] + rest == fields + (map[k := v] + rest)
  {
  }

  lemma TagIsNotZero(sep: nat)
    requires 0 < sep < 0x100
    ensures U8(sep) != 0
  {
  }

  /** Parsing what was written, with any zero padding behind it. */
  lemma {:induction false} ParseReadsFields(fields: seq<Octets>, sep: nat, pad: Octets, known: map<Byte, Octets>)
    requires Short(fields) && 0 < sep <= 0x100 && AllZero(pad)
    ensures Parse(Tlv(fields, sep) + pad, known) == known + FieldMap(fields, sep)
    decreases |fields|
  {
    hide U8, Parse;
    if fields == [] {
      assert Tlv(fields, sep) + pad == pad;
      ParseStops(pad, known);
    } else if sep == 0x100 {
      Wraps();
      ParseStops(Tlv(fields, sep) + pad, known);
    } else {
      var f, more := fields[0], Tlv(fields[1..], sep + 1) + pad;
      TagIsNotZero(sep);
      assert Tlv(fields, sep) + pad == [U8(sep), U8(|f|)] + f + more;
      ParseStep(U8(sep), f, more, known);
      ParseReadsFields(fields[1..], sep + 1, pad, known[U8(sep) := f]);
      AddFirst(known, U8(sep), f, FieldMap(fields[1..], sep + 1));
    }
  }

  lemma Wraps()
    ensures U8(0x100) == 0
  {
  }

  lemma TagIs(tag: Byte, sep: nat)
    requires sep < 0x100
    ensures tag == U8(sep) <==> tag == sep
  {
  }

  lemma {:induction false} FieldMapHolds(fields: seq<Octets>, sep: nat, tag: Byte)
    ensures tag in FieldMap(fields, sep) <==> sep <= tag < sep + |fields|
    ensures tag in FieldMap(fields, sep) ==> FieldMap(fields, sep)[tag] == fields[tag - sep]
    decreases |fields|
  {
    hide U8;
    if fields != [] && sep < 0x100 {
      TagIs(tag, sep);
      FieldMapHolds(fields[1..], sep + 1, tag);
      if sep < tag < sep + |fields| {
        assert fields[1..][tag - (sep + 1)] == fields[tag - sep];
      }
    }
  }

  /** The fields, each under its own separator, as far as one octet counts. */
  ghost predicate Recovered(parsed: map<Byte, Octets>, fields: seq<Octets>) {
    && (forall tag: Byte :: tag in parsed <==> FIRST_TAG <= tag < FIRST_TAG + |fields|)
    && (forall tag: Byte | tag in parsed :: FIRST_TAG <= tag < FIRST_TAG + |fields|
                                           && parsed[tag] == fields[tag - FIRST_TAG])
  }

  lemma ParsedIsRecovered(fields: seq<Octets>, pad: Octets)
    requires Short(fields) && AllZero(pad)
    ensures Recovered(Parse(Tlv(fields, FIRST_TAG) + pad, map[]), fields)
  {
    hide Tlv, Parse, FieldMap;
    ParseReadsFields(fields, FIRST_TAG, pad, map[]);
    var m := FieldMap(fields, FIRST_TAG);
    assert map[] + m == m;
    forall tag: Byte
      ensures tag in m <==> FIRST_TAG <= tag < FIRST_TAG + |fields|
      ensures tag in m ==> m[tag] == fields[tag - FIRST_TAG]
    {
      FieldMapHolds(fields, FIRST_TAG, tag);
    }
  }

  /**
   * The settings parser recovers, after a status octet and whatever zero padding follows, exactly the first 95
   * fields written, each under its own separator, and nothing else; the 96th separator wraps to zero.
   */
  lemma ParserRecoversFields(status: Byte, fields: seq<Octets>, pad: Octets)
    requires Short(fields) && AllZero(pad)
    ensures var parsed := ParsedSettings([status] + Tlv(fields, FIRST_TAG) + pad);
      parsed.Some? && parsed.value.status == status && Recovered(parsed.value.fields, fields)
  {
    hide Tlv, Parse, Recovered;
    var plain := [status] + Tlv(fields, FIRST_TAG) + pad;
    assert plain[1..] == Tlv(fields, FIRST_TAG) + pad;
    ParsedIsRecovered(fields, pad);
  }

  /** Where field `j` starts in the octets written. */
  function Offset(fields: seq<Octets>, j: nat): nat
    requires j <= |fields|
  {
    if j == 0 then 0 else 2 + |fields[0]| + Offset(fields[1..], j - 1)
  }

  lemma OctetsAre(sep: nat, length: nat)
    ensures U8(sep) == sep % 0x100 && (length <= 0xff ==> U8(length) == length)
  {
  }

  /** Each field in octets: its separator, its length, and itself. */
  lemma {:induction false} FieldInOctets(fields: seq<Octets>, sep: nat, j: nat)
    requires Short(fields) && j < |fields|
    ensures var at, tlv := Offset(fields, j), Tlv(fields, sep);
      && at + 2 + |fields[j]| <= |tlv|
      && tlv[at] == (sep + j) % 0x100 && tlv[at + 1] == |fields[j]|
      && tlv[at + 2..at + 2 + |fields[j]|] == fields[j]
    decreases |fields|
  {
    hide U8;
    OctetsAre(sep + j, |fields[j]|);
    OctetsAre(sep, |fields[0]|);
    var head, rest := [U8(sep), U8(|fields[0]|)], Tlv(fields[1..], sep + 1);
    assert Tlv(fields, sep) == head + fields[0] + rest;
    if j == 0 {
      Cut(head, fields[0], rest);
    } else {
      FieldInOctets(fields[1..], sep + 1, j - 1);
      var at := Offset(fields[1..], j - 1);
      var skipped := |head| + |fields[0]|;
      assert (head + fields[0] + rest)[skipped..] == rest;
      TailSlice(head + fields[0] + rest, skipped, at + 2, at + 2 + |fields[j]|);
      assert (head + fields[0] + rest)[skipped + at] == rest[at];
      assert (head + fields[0] + rest)[skipped + at + 1] == rest[at + 1];
    }
  }

  /** A field cut short ends the parse and is not answered. */
  lemma CutFieldIsNoField(sep: Byte, length: Byte, cut: Octets, known: map<Byte, Octets>)
    requires |cut| < length as int
    ensures Parse([sep, length] + cut, known) == known && Parse([sep], known) == known && Parse([], known) == known
  {
  }

  /** Of two fields with one separator the later one counts. */
  lemma LaterFieldCounts(sep: Byte, f: Octets, g: Octets, rest: Octets, known: map<Byte, Octets>)
    requires sep != 0 && |f| <= 0xff && |g| <= 0xff
    ensures Parse([sep, U8(|f|)] + f + ([sep, U8(|g|)] + g + rest), known) == Parse(rest, known[sep := g])
  {
    hide Parse;
    ParseStep(sep, f, [sep, U8(|g|)] + g + rest, known);
    ParseStep(sep, g, rest, known[sep := f]);
    assert known[sep := f][sep := g] == known[sep := g];
  }

  /** Padding adds zeros only, up to the next whole block and at least one block. */
  lemma PaddingIsLeast(data: Octets)
    ensures var p := Padded(data);
      && |p| % 16 == 0 && |p| >= 16 && |data| <= |p| && (|p| < |data| + 16 || |p| == 16)
      && p[..|data|] == data && AllZero(p[|data|..])
  {
  }

  // ---------------------------------------------------------------------------------------------
  // The auto-lock read-modify-write
  // ---------------------------------------------------------------------------------------------

  predicate HasWord(fields: map<Byte, Octets>, tag: Byte) {
    tag in fields && |fields[tag]| >= 2
  }

  /** The fields of a request plaintext, which has no status octet. */
  function RequestFields(c: Cipher, frame: Octets, keyTime: int, adminUserId: string, deviceSn: string)
    : Option<map<Byte, Octets>>
  {
    match Decrypt(c, frame, keyTime, adminUserId, deviceSn)
    case None => None
    case Some(plain) => Some(Parse(plain, map[]))
  }

  /** What the lock reads out of a settings write: nine fields and no other. */
  ghost predicate Writes(
    sent: map<Byte, Octets>, unixTime: int, adminUserId: string, enabled: bool, delay: Octets, a7: Octets, a8: Octets)
  {
    && (forall tag: Byte :: tag in sent <==> 0xa1 <= tag <= 0xa9)
    && sent[0xa1] == U32Le(unixTime) && sent[0xa2] == Ascii(adminUserId) && sent[0xa3] == [0]
    && sent[0xa4] == [if enabled then 1 else 0] && sent[0xa5] == delay && sent[0xa6] == [0]
    && sent[0xa7] == a7 && sent[0xa8] == a8 && sent[0xa9] == [0]
  }

  lemma {:induction false} TlvLength(fields: seq<Octets>, sep: nat)
    requires Short(fields)
    ensures |Tlv(fields, sep)| <= 0x101 * |fields|
    decreases |fields|
  {
    if fields != [] { TlvLength(fields[1..], sep + 1); }
  }

  /** A settings write decrypts to the nine fields it was built from. */
  lemma SettingsAreSent(
    c: Cipher, adminUserId: string, deviceSn: string, enabled: bool, delay: int, a7: int, a8: int,
    unixTime: int, keyTime: int)
    requires Sound(c) && IdentityToBuild(adminUserId, deviceSn)
    ensures var frame := BuildSettings(c, adminUserId, deviceSn, enabled, delay, a7, a8, unixTime, keyTime);
      && (frame.Some? <==> |adminUserId| <= 0xff)
      && (frame.Some? ==>
            var sent := RequestFields(c, frame.value, keyTime, adminUserId, deviceSn);
            sent.Some?
            && Writes(sent.value, unixTime, adminUserId, enabled, U16Le(delay), U16Le(a7), U16Le(a8)))
  {
    hide Assemble, Decrypt, Parse, Padded, U16Le, U32Le, Tlv, FieldMap;
    var fields := SettingsFields(adminUserId, enabled, delay, a7, a8, unixTime);
    assert |fields[1]| == |adminUserId|;
    if |adminUserId| <= 0xff {
      assert Short(fields);
      var plain := Padded(Tlv(fields, FIRST_TAG));
      PaddingIsLeast(Tlv(fields, FIRST_TAG));
      TlvLength(fields, FIRST_TAG);
      DecryptUndoesAssemble(c, SET_SETTINGS, plain, adminUserId, deviceSn, keyTime);
      var pad := plain[|Tlv(fields, FIRST_TAG)|..];
      assert plain == Tlv(fields, FIRST_TAG) + pad;
      ParsedIsRecovered(fields, pad);
    }
  }

  /** A settings frame is built exactly for an identity the encoder takes: neither too short nor too long. */
  lemma SettingsAreBuiltIff(
    c: Cipher, adminUserId: string, deviceSn: string, enabled: bool, delay: int, a7: int, a8: int,
    unixTime: int, keyTime: int)
    ensures BuildSettings(c, adminUserId, deviceSn, enabled, delay, a7, a8, unixTime, keyTime).Some? <==>
      12 <= |adminUserId| <= 0xff && 1 <= |deviceSn| <= 16
  {
    hide Assemble, Padded, Tlv, U16Le, U32Le;
    var fields := SettingsFields(adminUserId, enabled, delay, a7, a8, unixTime);
    assert |fields[1]| == |adminUserId|;
    assert Short(fields) <==> |adminUserId| <= 0xff;
  }

  /**
   * The auto-lock write: built exactly when the reply decrypts and carries the three words it needs and the
   * identity can be written; and the frame sent then carries, bit for bit, the reply's schedule start and end,
   * its delay unless a new one is given, the new enable state, and zero for the rest — A6 among them, so a
   * schedule that was on is not preserved.
   */
  lemma AutolockWritePreserves(
    c: Cipher, reply: Octets, replyKeyTime: int, adminUserId: string, deviceSn: string, enabled: bool,
    delay: Option<int>, unixTime: int, keyTime: int)
    requires Sound(c)
    ensures var plain := Decrypt(c, reply, replyKeyTime, adminUserId, deviceSn);
      var frame := AutolockSet(c, reply, replyKeyTime, adminUserId, deviceSn, enabled, delay, unixTime, keyTime);
      if plain.Some? && ParsedSettings(plain.value).Some? then
        var held := ParsedSettings(plain.value).value.fields;
        && (frame.Some? <==>
              HasWord(held, 0xa2) && HasWord(held, 0xa4) && HasWord(held, 0xa5)
              && |deviceSn| <= 16 && |adminUserId| <= 0xff)
        && (frame.Some? ==>
              var sent := RequestFields(c, frame.value, keyTime, adminUserId, deviceSn);
              sent.Some?
              && Writes(sent.value, unixTime, adminUserId, enabled,
                        if delay.Some? then U16Le(delay.value) else held[0xa2][..2], held[0xa4][..2], held[0xa5][..2]))
      else frame == None
  {
    hide Checked, Sound, Parse, BuildSettings, RequestFields, U16Le, U32Le, Writes, ReadU16Le;
    var plain := Decrypt(c, reply, replyKeyTime, adminUserId, deviceSn);
    if plain.Some? && ParsedSettings(plain.value).Some? {
      var held := ParsedSettings(plain.value).value.fields;
      if HasWord(held, 0xa2) && HasWord(held, 0xa4) && HasWord(held, 0xa5) {
        var seconds := if delay.Some? then delay.value else WordAt(held, 0xa2).value;
        var a7, a8 := WordAt(held, 0xa4).value, WordAt(held, 0xa5).value;
        WordForth(held[0xa2]);
        WordForth(held[0xa4]);
        WordForth(held[0xa5]);
        if |deviceSn| <= 16 {
          SettingsAreSent(c, adminUserId, deviceSn, enabled, seconds, a7, a8, unixTime, keyTime);
        } else {
          LongSerialIsRefused(c, adminUserId, deviceSn, enabled, seconds, a7, a8, unixTime, keyTime);
        }
      }
    }
  }

  lemma LongSerialIsRefused(
    c: Cipher, adminUserId: string, deviceSn: string, enabled: bool, delay: int, a7: int, a8: int,
    unixTime: int, keyTime: int)
    requires !IdentityToBuild(adminUserId, deviceSn)
    ensures BuildSettings(c, adminUserId, deviceSn, enabled, delay, a7, a8, unixTime, keyTime) == None
  {
  }

  /** The write that answers a reply holding `held` is sent, and the lock reads `sent` out of it. */
  ghost predicate Answered(
    c: Cipher, reply: Octets, replyKeyTime: int, adminUserId: string, deviceSn: string, enabled: bool,
    delay: Option<int>, unixTime: int, keyTime: int, held: map<Byte, Octets>, sent: map<Byte, Octets>)
  {
    var plain := Decrypt(c, reply, replyKeyTime, adminUserId, deviceSn);
    var frame := AutolockSet(c, reply, replyKeyTime, adminUserId, deviceSn, enabled, delay, unixTime, keyTime);
    && plain.Some? && ParsedSettings(plain.value).Some? && ParsedSettings(plain.value).value.fields == held
    && frame.Some? && RequestFields(c, frame.value, keyTime, adminUserId, deviceSn) == Some(sent)
  }

  /**
   * The schedule switch: a reply carries it under 0xa3, and the write that answers it sends it back as it was
   * exactly when it was off, in the one octet that says so.
   */
  lemma ScheduleSwitchIsKeptIff(
    c: Cipher, reply: Octets, replyKeyTime: int, adminUserId: string, deviceSn: string, enabled: bool,
    delay: Option<int>, unixTime: int, keyTime: int, held: map<Byte, Octets>, sent: map<Byte, Octets>)
    requires Sound(c) && 0xa3 in held
    requires Answered(c, reply, replyKeyTime, adminUserId, deviceSn, enabled, delay, unixTime, keyTime, held, sent)
    ensures 0xa6 in sent
    ensures sent[0xa6] == held[0xa3] <==> held[0xa3] == [0]
  {
    hide Checked, Sound, Parse, BuildSettings, RequestFields, U16Le, U32Le, ReadU16Le, AutolockSet, Decrypt;
    AutolockWritePreserves(c, reply, replyKeyTime, adminUserId, deviceSn, enabled, delay, unixTime, keyTime);
  }

  const GET_SETTINGS := 53

  /** A settings reply of five fields: enabled, a delay of 90 seconds, a schedule that is on, and its two times. */
  function ScheduledReply(c: Cipher, adminUserId: string, deviceSn: string, replyKeyTime: int): Octets {
    var fields: seq<Octets> := [[1], [90, 0], [1], [22, 0], [6, 30]];
    Assemble(c, GET_SETTINGS, [0] + Tlv(fields, FIRST_TAG), adminUserId, deviceSn, replyKeyTime)
  }

  lemma ScheduledReplyReads(c: Cipher, adminUserId: string, deviceSn: string, replyKeyTime: int)
    requires Sound(c) && IdentityToDecrypt(adminUserId, deviceSn)
    ensures var reply := ScheduledReply(c, adminUserId, deviceSn, replyKeyTime);
      var plain := Decrypt(c, reply, replyKeyTime, adminUserId, deviceSn);
      && plain.Some? && ParsedSettings(plain.value).Some?
      && Recovered(ParsedSettings(plain.value).value.fields, [[1], [90, 0], [1], [22, 0], [6, 30]])
  {
    hide Sound, Assemble, Decrypt, Tlv, Parse, Recovered;
    var fields: seq<Octets> := [[1], [90, 0], [1], [22, 0], [6, 30]];
    var plain := [0] + Tlv(fields, FIRST_TAG);
    TlvLength(fields, FIRST_TAG);
    DecryptUndoesAssemble(c, GET_SETTINGS, plain, adminUserId, deviceSn, replyKeyTime);
    ParserRecoversFields(0, fields, []);
    assert [0] + Tlv(fields, FIRST_TAG) + [] == plain;
  }

  /** A reply whose schedule is on: the write is built, and what it sends turns the schedule off. */
  lemma ScheduleIsTurnedOff(
    c: Cipher, adminUserId: string, deviceSn: string, replyKeyTime: int, enabled: bool, delay: Option<int>,
    unixTime: int, keyTime: int) returns (held: map<Byte, Octets>, sent: map<Byte, Octets>)
    requires Sound(c) && IdentityToBuild(adminUserId, deviceSn) && |adminUserId| <= 0xff
    ensures Answered(
      c, ScheduledReply(c, adminUserId, deviceSn, replyKeyTime), replyKeyTime, adminUserId, deviceSn, enabled, delay,
      unixTime, keyTime, held, sent)
    ensures 0xa3 in held && held[0xa3] == [1] && 0xa6 in sent && sent[0xa6] == [0]
  {
    hide Checked, Sound, Parse, BuildSettings, RequestFields, U16Le, U32Le, ReadU16Le, AutolockSet, Decrypt;
    hide ScheduledReply;
    var reply := ScheduledReply(c, adminUserId, deviceSn, replyKeyTime);
    ScheduledReplyReads(c, adminUserId, deviceSn, replyKeyTime);
    AutolockWritePreserves(c, reply, replyKeyTime, adminUserId, deviceSn, enabled, delay, unixTime, keyTime);
    held := ParsedSettings(Decrypt(c, reply, replyKeyTime, adminUserId, deviceSn).value).value.fields;
    var frame := AutolockSet(c, reply, replyKeyTime, adminUserId, deviceSn, enabled, delay, unixTime, keyTime);
    sent := RequestFields(c, frame.value, keyTime, adminUserId, deviceSn).value;
  }

  // ---------------------------------------------------------------------------------------------
  // The assumption on the cipher can be met
  // ---------------------------------------------------------------------------------------------

  function PadOnly(plain: Octets): Octets {
    var n := 16 - |plain| % 16;
    plain + seq(n, _ => U8(n))
  }

  function Unpad(ct: Octets): Option<Octets> {
    if ct == [] || |ct| < ct[|ct| - 1] then None else Some(ct[..|ct| - ct[|ct| - 1]])
  }

  /** The padding alone, with no cipher at all, meets it. */
  lemma SomeCipherIsSound()
    ensures Sound(Cipher((_, _, plain) => PadOnly(plain), (_, _, ct) => Unpad(ct)))
  {
    forall plain: Octets
      ensures Unpad(PadOnly(plain)) == Some(plain) && |PadOnly(plain)| == (|plain| / 16 + 1) * 16
    {
      var n := 16 - |plain| % 16;
      var ct := PadOnly(plain);
      assert ct[|ct| - 1] == U8(n) && ct[..|plain|] == plain;
    }
  }
}
