/**
 * The container around one clean record (src/model/clean-record-detail.ts): a two-byte marker, a length of
 * undocumented width, the message, and a checksum. The reader tries the widths 2, 4 and 1.
 */
module CleanRecord {
  import opened Wrappers
  import opened Bytes

  const MAGIC: seq<Byte> := [0xaa, 0x01]
  const CHECKSUM_BYTES: nat := 2

  function Sum(s: seq<Byte>): nat {
    if s == [] then 0 else Sum(s[..|s| - 1]) + s[|s| - 1]
  }

  function BigEndian(s: seq<Byte>): nat {
    if s == [] then 0 else BigEndian(s[..|s| - 1]) * 256 + s[|s| - 1]
  }

  function Power(width: nat): (r: nat)
    ensures r > 0
  {
    if width == 0 then 1 else 256 * Power(width - 1)
  }

  /** The low `width` bytes of `n`, most significant first. */
  function Digits(n: nat, width: nat): (r: seq<Byte>)
    ensures |r| == width
  {
    if width == 0 then [] else Digits(n / 256, width - 1) + [n % 256]
  }

  predicate IsWidth(width: nat) {
    width == 1 || width == 2 || width == 4
  }

  /** What a writer of width `width` makes of `body`. */
  function Container(body: seq<Byte>, width: nat): seq<Byte> {
    var sealed := MAGIC + Digits(|body|, width) + body;
    sealed + Digits(Sum(sealed) % 0x1_0000, CHECKSUM_BYTES)
  }

  // ---------------------------------------------------------------------------------------------
  // The reader
  // ---------------------------------------------------------------------------------------------

  predicate Sealed(blob: seq<Byte>) {
    var end := |blob| - CHECKSUM_BYTES;
    && |blob| >= |MAGIC| + 1 + CHECKSUM_BYTES
    && blob[..|MAGIC|] == MAGIC
    && Sum(blob[..end]) % 0x1_0000 == BigEndian(blob[end..])
  }

  /** A length field of this width agrees with the body it precedes. */
  predicate Fits(blob: seq<Byte>, width: nat) {
    var start, end := |MAGIC| + width, |blob| - CHECKSUM_BYTES;
    start <= end && BigEndian(blob[|MAGIC|..start]) == end - start
  }

  function FirstFit(blob: seq<Byte>, widths: seq<nat>): Option<seq<Byte>> {
    if widths == [] then None
    else if Fits(blob, widths[0]) then Some(blob[|MAGIC| + widths[0]..|blob| - CHECKSUM_BYTES])
    else FirstFit(blob, widths[1..])
  }

  function Unwrap(blob: seq<Byte>, widths: seq<nat>): Option<seq<Byte>> {
    if Sealed(blob) then FirstFit(blob, widths) else None
  }

  /** The reader; it tries the widths in the order 2, 4, 1. */
  method UnwrapCleanRecordBlob(blob: seq<Byte>) returns (body: Option<seq<Byte>>)
    ensures body == Unwrap(blob, [2, 4, 1])
  {
    if |blob| < |MAGIC| + 1 + CHECKSUM_BYTES { return None; }
    if blob[0] != MAGIC[0] || blob[1] != MAGIC[1] {
      assert blob[..|MAGIC|][0] == blob[0] && blob[..|MAGIC|][1] == blob[1];
      return None;
    }
    var end := |blob| - CHECKSUM_BYTES;
    var sum: nat := 0;
    for i := 0 to end
      invariant sum == Sum(blob[..i])
    {
      assert blob[..i + 1][..i] == blob[..i];
      sum := sum + blob[i];
    }
    var stated: nat := (blob[end] as int) * 256 + blob[end + 1];
    assert stated == BigEndian(blob[end..]) by {
      assert blob[end..][..1] == [blob[end]];
      assert BigEndian(blob[end..][..1]) == blob[end] as int;
    }
    if sum % 0x1_0000 != stated { return None; }
    assert blob[..|MAGIC|] == MAGIC;
    var widths: seq<nat> := [2, 4, 1];
    assert widths[0..] == widths;
    for k := 0 to |widths|
      invariant FirstFit(blob, widths[k..]) == FirstFit(blob, widths)
    {
      assert widths[k..][1..] == widths[k + 1..];
      var start := |MAGIC| + widths[k];
      if start <= end {
        var declared: nat := 0;
        for i := |MAGIC| to start
          invariant declared == BigEndian(blob[|MAGIC|..i])
        {
          assert blob[|MAGIC|..i + 1][..i - |MAGIC|] == blob[|MAGIC|..i];
          declared := declared * 256 + blob[i];
        }
        if declared == end - start { return Some(blob[start..end]); }
      }
    }
    return None;
  }

  // ---------------------------------------------------------------------------------------------
  // Results
  // ---------------------------------------------------------------------------------------------

  lemma {:induction false} DigitsAreRead(n: nat, width: nat)
    requires n < Power(width)
    ensures BigEndian(Digits(n, width)) == n
  {
    if width > 0 {
      DigitsAreRead(n / 256, width - 1);
      assert Digits(n, width)[..width - 1] == Digits(n / 256, width - 1);
    }
  }

  lemma {:induction false} ReadIsDigits(s: seq<Byte>)
    ensures BigEndian(s) < Power(|s|) && Digits(BigEndian(s), |s|) == s
  {
    if s != [] {
      var n := |s| - 1;
      ReadIsDigits(s[..n]);
      assert BigEndian(s) / 256 == BigEndian(s[..n]);
      assert s == s[..n] + [s[n]];
    }
  }

  lemma Parts(body: seq<Byte>, width: nat)
    ensures var blob := Container(body, width);
      var start, end := |MAGIC| + width, |blob| - CHECKSUM_BYTES;
      && end == start + |body|
      && blob[..end] == MAGIC + Digits(|body|, width) + body
      && blob[end..] == Digits(Sum(MAGIC + Digits(|body|, width) + body) % 0x1_0000, CHECKSUM_BYTES)
      && blob[..|MAGIC|] == MAGIC && blob[|MAGIC|..start] == Digits(|body|, width) && blob[start..end] == body
  {
  }

  /** A container is accepted and fits the width it was written with, which brackets exactly its body. */
  lemma ContainerFits(body: seq<Byte>, width: nat)
    requires IsWidth(width) && |body| < Power(width)
    ensures var blob := Container(body, width);
      Sealed(blob) && Fits(blob, width) && blob[|MAGIC| + width..|blob| - CHECKSUM_BYTES] == body
  {
    Parts(body, width);
    assert Power(1) == 256 && Power(2) == 0x1_0000;
    DigitsAreRead(|body|, width);
    DigitsAreRead(Sum(MAGIC + Digits(|body|, width) + body) % 0x1_0000, CHECKSUM_BYTES);
  }

  lemma PutTogether(blob: seq<Byte>, b: nat, c: nat, digits: seq<Byte>, sum: seq<Byte>)
    requires |MAGIC| <= b <= c <= |blob|
    requires blob[..|MAGIC|] == MAGIC && blob[|MAGIC|..b] == digits && blob[c..] == sum
    ensures blob[..c] == MAGIC + digits + blob[b..c]
    ensures blob == (MAGIC + digits + blob[b..c]) + sum
  {
  }

  lemma LengthIsPrinted(blob: seq<Byte>, width: nat)
    requires |MAGIC| + width <= |blob| - CHECKSUM_BYTES && Fits(blob, width)
    ensures var n := |blob| - CHECKSUM_BYTES - (|MAGIC| + width);
      n < Power(width) && blob[|MAGIC|..|MAGIC| + width] == Digits(n, width)
  {
    hide BigEndian, Digits, Power;
    ReadIsDigits(blob[|MAGIC|..|MAGIC| + width]);
  }

  lemma ChecksumIsPrinted(blob: seq<Byte>)
    requires Sealed(blob)
    ensures var end := |blob| - CHECKSUM_BYTES;
      blob[end..] == Digits(Sum(blob[..end]) % 0x1_0000, CHECKSUM_BYTES)
  {
    hide BigEndian, Digits, Power, Sum;
    ReadIsDigits(blob[|blob| - CHECKSUM_BYTES..]);
  }

  /** Conversely a blob that is accepted and fits a width is the container of what it brackets. */
  lemma FittingIsContainer(blob: seq<Byte>, width: nat)
    requires IsWidth(width) && Sealed(blob) && Fits(blob, width)
    ensures var body := blob[|MAGIC| + width..|blob| - CHECKSUM_BYTES];
      |body| < Power(width) && blob == Container(body, width)
  {
    hide BigEndian, Digits, Sum, Power;
    var start, end := |MAGIC| + width, |blob| - CHECKSUM_BYTES;
    LengthIsPrinted(blob, width);
    ChecksumIsPrinted(blob);
    PutTogether(blob, start, end, Digits(end - start, width), blob[end..]);
    assert |blob[start..end]| == end - start;
  }

  lemma Leading(s: seq<Byte>, width: nat)
    requires (width == 1 && |s| >= 2) || (width == 2 && |s| >= 4)
    ensures width == 1 ==> BigEndian(s[..2]) >= 256 * BigEndian(s[..1])
    ensures width == 2 ==> BigEndian(s[..4]) >= 0x1_0000 * BigEndian(s[..2])
  {
    if width == 1 {
      assert s[..2][..1] == s[..1];
    } else {
      assert s[..4][..3] == s[..3] && s[..3][..2] == s[..2];
    }
  }

  /** At most one width fits any blob. */
  lemma AtMostOneWidthFits(blob: seq<Byte>, a: nat, b: nat)
    requires IsWidth(a) && IsWidth(b) && Fits(blob, a) && Fits(blob, b)
    ensures a == b
  {
    if a > b {
      AtMostOneWidthFits(blob, b, a);
    } else if a < b {
      var s := blob[|MAGIC|..];
      assert forall w: nat | w <= |s| :: blob[|MAGIC|..|MAGIC| + w] == s[..w];
      if a == 1 { Leading(s, 1); }
      if b == 4 { Leading(s, 2); }
      assert false;
    }
  }

  lemma {:induction false} FirstFitIsTheFit(blob: seq<Byte>, widths: seq<nat>, width: nat)
    requires (forall w | w in widths :: IsWidth(w)) && width in widths && Fits(blob, width)
    ensures FirstFit(blob, widths) == Some(blob[|MAGIC| + width..|blob| - CHECKSUM_BYTES])
  {
    if Fits(blob, widths[0]) {
      AtMostOneWidthFits(blob, width, widths[0]);
    } else {
      FirstFitIsTheFit(blob, widths[1..], width);
    }
  }

  lemma {:induction false} NoFit(blob: seq<Byte>, widths: seq<nat>)
    requires FirstFit(blob, widths).Some?
    ensures exists w | w in widths ::
      Fits(blob, w) && FirstFit(blob, widths).value == blob[|MAGIC| + w..|blob| - CHECKSUM_BYTES]
  {
    if Fits(blob, widths[0]) {
      assert widths[0] in widths;
    } else {
      NoFit(blob, widths[1..]);
    }
  }

  ghost predicate TriesAll(widths: seq<nat>) {
    forall w: nat :: w in widths <==> IsWidth(w)
  }

  /**
   * In whatever order the three widths are tried, the reader answers `body` exactly when the blob is the
   * container of `body` at one of them.
   */
  lemma UnwrapsExactlyContainers(blob: seq<Byte>, widths: seq<nat>, body: seq<Byte>)
    requires TriesAll(widths)
    ensures Unwrap(blob, widths) == Some(body) <==>
      exists width :: IsWidth(width) && |body| < Power(width) && blob == Container(body, width)
  {
    if Unwrap(blob, widths) == Some(body) {
      NoFit(blob, widths);
      var w :| w in widths && Fits(blob, w) && body == blob[|MAGIC| + w..|blob| - CHECKSUM_BYTES];
      FittingIsContainer(blob, w);
    }
    forall width | IsWidth(width) && |body| < Power(width) && blob == Container(body, width)
      ensures Unwrap(blob, widths) == Some(body)
    {
      ContainerFits(body, width);
      FirstFitIsTheFit(blob, widths, width);
    }
  }

  /** So the order is irrelevant. */
  lemma OrderIsIrrelevant(blob: seq<Byte>, widths: seq<nat>, others: seq<nat>)
    requires TriesAll(widths) && TriesAll(others)
    ensures Unwrap(blob, widths) == Unwrap(blob, others)
  {
    if Unwrap(blob, widths).Some? {
      UnwrapsExactlyContainers(blob, widths, Unwrap(blob, widths).value);
      UnwrapsExactlyContainers(blob, others, Unwrap(blob, widths).value);
    }
    if Unwrap(blob, others).Some? {
      UnwrapsExactlyContainers(blob, widths, Unwrap(blob, others).value);
      UnwrapsExactlyContainers(blob, others, Unwrap(blob, others).value);
    }
  }

  /** The checksum adds every octet once, wherever the message is cut. */
  lemma {:induction false} SumAddsUp(a: seq<Byte>, b: seq<Byte>)
    ensures Sum(a + b) == Sum(a) + Sum(b)
    ensures forall x: Byte :: Sum([x]) == x
    decreases |b|
  {
    forall x: Byte ensures Sum([x]) == x {
      assert [x][..0] == [];
    }
    if b == [] {
      assert a + b == a;
    } else {
      SumAddsUp(a, b[..|b| - 1]);
      assert (a + b)[..|a + b| - 1] == a + b[..|b| - 1];
    }
  }

  /** One container in octets: the marker, a two-octet length, the body, and the checksum, most significant first. */
  lemma OneContainerInOctets()
    ensures Container([0x07], 2) == [0xaa, 0x01, 0x00, 0x01, 0x07, 0x00, 0xb3]
    ensures Container([0xff], 1) == [0xaa, 0x01, 0x01, 0xff, 0x01, 0xab]
  {
    DigitsOf(1);
    DigitsOf(0xb3);
    DigitsOf(0x1ab);
    assert Digits(1, 1) == [] + [1];
    SumOfFive(0xaa, 0x01, 0x00, 0x01, 0x07);
    SumOfFive(0xaa, 0x01, 0x01, 0xff, 0x00);
    assert [0xaa, 0x01, 0x01, 0xff, 0x00] == [0xaa, 0x01, 0x01, 0xff] + [0x00];
    SumAddsUp([0xaa, 0x01, 0x01, 0xff], [0x00]);
    assert MAGIC + Digits(1, 2) + [0x07] == [0xaa, 0x01, 0x00, 0x01, 0x07];
    assert MAGIC + Digits(1, 1) + [0xff] == [0xaa, 0x01, 0x01, 0xff];
  }

  lemma DigitsOf(n: nat)
    requires n < 0x1_0000
    ensures Digits(n, 2) == [n / 0x100, n % 0x100]
  {
    assert Digits(n / 0x100, 1) == [] + [n / 0x100 % 0x100];
  }

  lemma SumOfFive(a: Byte, b: Byte, c: Byte, d: Byte, e: Byte)
    ensures Sum([a, b, c, d, e]) == (a as int) + b + c + d + e
  {
    SumAddsUp([a], [b]);
    SumAddsUp([a, b], [c]);
    SumAddsUp([a, b, c], [d]);
    SumAddsUp([a, b, c, d], [e]);
    assert [a] + [b] == [a, b] && [a, b] + [c] == [a, b, c] && [a, b, c] + [d] == [a, b, c, d];
    assert [a, b, c, d] + [e] == [a, b, c, d, e];
  }
}
