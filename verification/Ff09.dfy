/**
 * The `ff09` lock frames (src/transport/ff09.ts): tag-length-value fields, zero padding, a cipher, and an outer
 * frame with a length and an XOR checksum; and the read-modify-write of the auto-lock settings.
 *
 * The hexadecimal text around a frame and the random part of its key time are outside the model: frames are
 * octets and the key time is a parameter. AES-128-CBC is a pair of functions assumed inverse to each other.
 */
module Ff09 {
  import opened Wrappers
  import opened Bytes

  type Octets = seq<Byte>

  datatype Cipher = Cipher(
    encrypt: (Octets, Octets, Octets) -> Octets,
    decrypt: (Octets, Octets, Octets) -> Option<Octets>)

  /** Decryption undoes encryption, which pads to whole blocks and always adds some padding. */
  ghost predicate Sound(c: Cipher) {
    forall key, iv, plain {:trigger c.encrypt(key, iv, plain)} ::
      && c.decrypt(key, iv, c.encrypt(key, iv, plain)) == Some(plain)
      && |c.encrypt(key, iv, plain)| == (|plain| / 16 + 1) * 16
  }

  // ---------------------------------------------------------------------------------------------
  // Fixed-width words
  // ---------------------------------------------------------------------------------------------

  function U8(n: int): Byte {
    n % 0x100
  }

  function U16Le(n: int): (r: Octets)
    ensures |r| == 2
  {
    [U8(n), U8(n / 0x100)]
  }

  function U16Be(n: int): (r: Octets)
    ensures |r| == 2
  {
    [U8(n / 0x100), U8(n)]
  }

  function U32Be(n: int): (r: Octets)
    ensures |r| == 4
  {
    U16Be(n / 0x1_0000) + U16Be(n)
  }

  function U32Le(n: int): (r: Octets)
    ensures |r| == 4
  {
    U16Le(n) + U16Le(n / 0x1_0000)
  }

  function ReadU16Le(b: Octets): nat
    requires |b| >= 2
  {
    Le16(b[0], b[1])
  }

  lemma WordBack(n: int)
    ensures ReadU16Le(U16Le(n)) == n % 0x1_0000
  {
  }

  lemma WordForth(b: Octets)
    requires |b| >= 2
    ensures U16Le(ReadU16Le(b)) == b[..2]
  {
    var lo, hi := b[0] as int, b[1] as int;
    assert (lo + 0x100 * hi) / 0x100 == hi && (lo + 0x100 * hi) % 0x100 == lo && hi % 0x100 == hi;
  }

  // ---------------------------------------------------------------------------------------------
  // Tagged fields
  // ---------------------------------------------------------------------------------------------

  const FIRST_TAG := 0xa1

  predicate Short(fields: seq<Octets>) {
    forall i | 0 <= i < |fields| :: |fields[i]| <= 0xff
  }

  /** Separators count up from the first; the octet that carries one wraps. */
  function Tlv(fields: seq<Octets>, sep: nat): Octets {
    if fields == [] then [] else [U8(sep), U8(|fields[0]|)] + fields[0] + Tlv(fields[1..], sep + 1)
  }

  lemma {:induction false} TlvGrows(fields: seq<Octets>, last: Octets, sep: nat)
    ensures Tlv(fields + [last], sep) == Tlv(fields, sep) + [U8(sep + |fields|), U8(|last|)] + last
  {
    if fields == [] {
      assert Tlv([last][1..], sep + 1) == [];
      assert [] + [last] == [last];
    } else {
      var all := fields + [last];
      assert all[1..] == fields[1..] + [last];
      TlvGrows(fields[1..], last, sep + 1);
    }
  }

  /** `writeTlv`: refuses a field whose length does not fit one octet. */
  method WriteTlv(fields: seq<Octets>) returns (r: Option<Octets>)
    ensures r == if Short(fields) then Some(Tlv(fields, FIRST_TAG)) else None
  {
    var sep, out: Octets := FIRST_TAG, [];
    for i := 0 to |fields|
      invariant Short(fields[..i]) && sep == FIRST_TAG + i && out == Tlv(fields[..i], FIRST_TAG)
    {
      var f := fields[i];
      if |f| > 0xff { return None; }
      assert fields[..i + 1] == fields[..i] + [f];
      TlvGrows(fields[..i], f, FIRST_TAG);
      out := out + [U8(sep), U8(|f|)] + f;
      sep := sep + 1;
    }
    assert fields[..|fields|] == fields;
    return Some(out);
  }

  function Zeros(n: nat): Octets {
    seq(n, _ => 0)
  }

  /** `zeroPadToBlock`. */
  function Padded(data: Octets): Octets {
    var n := |data|;
    var size := if n < 16 then 16 else (n + 15) / 16 * 16;
    data + Zeros(size - n)
  }

  /** The parser's loop, on what is left of the plaintext. */
  function Parse(rest: Octets, fields: map<Byte, Octets>): map<Byte, Octets>
    decreases |rest|
  {
    if |rest| < 2 || rest[0] == 0 || 2 + rest[1] > |rest| then fields
    else
      var next: nat := 2 + rest[1] as int;
      Parse(rest[next..], fields[rest[0] := rest[2..next]])
  }

  datatype Settings = Settings(status: Byte, fields: map<Byte, Octets>)

  /** `parseFf09SettingsResponse`. */
  method ParseSettingsResponse(plain: Octets) returns (r: Option<Settings>)
    ensures r == ParsedSettings(plain)
  {
    if |plain| < 1 { return None; }
    var fields: map<Byte, Octets>, i := map[], 1;
    while i + 2 <= |plain|
      invariant 1 <= i <= |plain|
      invariant Parse(plain[i..], fields) == Parse(plain[1..], map[])
      decreases |plain| - i
    {
      var sep := plain[i];
      if sep == 0 { break; }
      var len: nat := plain[i + 1];
      if i + 2 + len > |plain| { break; }
      ghost var rest := plain[i..];
      assert rest[2..2 + len] == plain[i + 2..i + 2 + len] && rest[2 + len..] == plain[i + 2 + len..];
      fields := fields[sep := plain[i + 2..i + 2 + len]];
      i := i + 2 + len;
    }
    return Some(Settings(plain[0], fields));
  }

  function ParsedSettings(plain: Octets): Option<Settings> {
    if |plain| < 1 then None else Some(Settings(plain[0], Parse(plain[1..], map[])))
  }

  // ---------------------------------------------------------------------------------------------
  // Frames
  // ---------------------------------------------------------------------------------------------

  /** The exclusive or of the low `k` bits. */
  function XorBits(a: nat, b: nat, k: nat): nat {
    if k == 0 then 0 else (a + b) % 2 + 2 * XorBits(a / 2, b / 2, k - 1)
  }

  lemma {:induction false} XorBitsFit(a: nat, b: nat, k: nat)
    ensures XorBits(a, b, k) < PowerOfTwo(k)
  {
    if k > 0 { XorBitsFit(a / 2, b / 2, k - 1); }
  }

  /** JavaScript's `^` on octets. */
  function Xor(a: Byte, b: Byte): Byte {
    XorBitsFit(a, b, 8);
    assert PowerOfTwo(2) == 4 && PowerOfTwo(4) == 16 && PowerOfTwo(6) == 64 && PowerOfTwo(8) == 0x100;
    XorBits(a, b, 8)
  }

  function XorAll(s: Octets): Byte {
    if s == [] then 0 else Xor(XorAll(s[..|s| - 1]), s[|s| - 1])
  }

  method XorOf(s: Octets) returns (xor: Byte)
    ensures xor == XorAll(s)
  {
    xor := 0;
    for i := 0 to |s|
      invariant xor == XorAll(s[..i])
    {
      assert s[..i + 1][..i] == s[..i];
      xor := Xor(xor, s[i]);
    }
    assert s[..|s|] == s;
  }

  /** Node's "ascii" encoding keeps the low octet of each character. */
  function Ascii(s: string): (r: Octets)
    ensures |r| == |s|
  {
    seq(|s|, i requires 0 <= i < |s| => U8(s[i] as int))
  }

  function Key(adminUserId: string, keyTime: int): Octets {
    var from := if |adminUserId| > 12 then |adminUserId| - 12 else 0;
    Ascii(adminUserId[from..]) + U32Be(keyTime)
  }

  /** The serial number in a 16-octet buffer, cut off or filled up with zeros. */
  function Iv(deviceSn: string): Octets {
    var b := Ascii(deviceSn);
    if |b| >= 16 then b[..16] else b + Zeros(16 - |b|)
  }

  const HEADER := 9

  function Unsealed(commandCode: nat, ct: Octets): Octets {
    [0xff, 0x09] + U16Le(HEADER + |ct| + 1) + [0x03, 0x00, 0x02] + U16Be(0x4000 + commandCode) + ct
  }

  /** `assembleFf09Frame`; command codes are below 0x4000. */
  function Assemble(c: Cipher, commandCode: nat, plain: Octets, adminUserId: string, deviceSn: string, keyTime: int)
    : Octets
    requires commandCode < 0x4000
  {
    var preXor := Unsealed(commandCode, c.encrypt(Key(adminUserId, keyTime), Iv(deviceSn), plain));
    preXor + [XorAll(preXor)]
  }

  method AssembleFrame(c: Cipher, commandCode: nat, plain: Octets, adminUserId: string, deviceSn: string, keyTime: int)
    returns (frame: Octets)
    requires commandCode < 0x4000
    ensures frame == Assemble(c, commandCode, plain, adminUserId, deviceSn, keyTime)
  {
    var ct := c.encrypt(Key(adminUserId, keyTime), Iv(deviceSn), plain);
    var body := [0x03, 0x00, 0x02] + U16Be(0x4000 + commandCode) + ct;
    var size := 2 + 2 + |body| + 1;
    var preXor := [0xff, 0x09] + U16Le(size) + body;
    assert preXor == Unsealed(commandCode, ct);
    var xor := XorOf(preXor);
    frame := preXor + [xor];
  }

  predicate IdentityToDecrypt(adminUserId: string, deviceSn: string) {
    |adminUserId| >= 12 && deviceSn != ""
  }

  /** The self-checks of a frame: magic, stated length, checksum. */
  predicate Checked(frame: Octets) {
    var n := |frame|;
    && n >= 10 && frame[0] == 0xff && frame[1] == 0x09
    && ReadU16Le(frame[2..4]) == n
    && XorAll(frame[..n - 1]) == frame[n - 1]
  }

  /** `decryptFf09Frame`: `None` is any of its exceptions, the cipher's own included. */
  function Decrypt(c: Cipher, frame: Octets, keyTime: int, adminUserId: string, deviceSn: string): Option<Octets> {
    if IdentityToDecrypt(adminUserId, deviceSn) && Checked(frame)
    then c.decrypt(Key(adminUserId, keyTime), Iv(deviceSn), frame[HEADER..|frame| - 1])
    else None
  }

  method DecryptFrame(c: Cipher, frame: Octets, keyTime: int, adminUserId: string, deviceSn: string)
    returns (plain: Option<Octets>)
    ensures plain == Decrypt(c, frame, keyTime, adminUserId, deviceSn)
  {
    if adminUserId == "" || deviceSn == "" || |adminUserId| < 12 { return None; }
    if |frame| < 10 || frame[0] != 0xff || frame[1] != 0x09 { return None; }
    if ReadU16Le(frame[2..4]) != |frame| { return None; }
    var xor := XorOf(frame[..|frame| - 1]);
    if xor != frame[|frame| - 1] { return None; }
    return c.decrypt(Key(adminUserId, keyTime), Iv(deviceSn), frame[HEADER..|frame| - 1]);
  }

  // ---------------------------------------------------------------------------------------------
  // Auto-lock settings
  // ---------------------------------------------------------------------------------------------

  const SET_SETTINGS := 52

  predicate IdentityToBuild(adminUserId: string, deviceSn: string) {
    |adminUserId| >= 12 && 0 < |deviceSn| <= 16
  }

  function SettingsFields(
    adminUserId: string, enabled: bool, delay: int, a7: int, a8: int, unixTime: int): seq<Octets>
  {
    [U32Le(unixTime), Ascii(adminUserId), [0], [if enabled then 1 else 0], U16Le(delay), [0], U16Le(a7), U16Le(a8), [0]]
  }

  /** `buildFf09SettingsFrame`. */
  function BuildSettings(
    c: Cipher, adminUserId: string, deviceSn: string, enabled: bool, delay: int, a7: int, a8: int,
    unixTime: int, keyTime: int): Option<Octets>
  {
    var fields := SettingsFields(adminUserId, enabled, delay, a7, a8, unixTime);
    if IdentityToBuild(adminUserId, deviceSn) && Short(fields)
    then Some(Assemble(c, SET_SETTINGS, Padded(Tlv(fields, FIRST_TAG)), adminUserId, deviceSn, keyTime))
    else None
  }

  function WordAt(fields: map<Byte, Octets>, tag: Byte): Option<nat> {
    if tag in fields && |fields[tag]| >= 2 then Some(ReadU16Le(fields[tag])) else None
  }

  /** `buildFf09AutolockSetFrame`: decrypt the settings reply, read three fields, write the settings back. */
  method BuildAutolockSetFrame(
    c: Cipher, reply: Octets, replyKeyTime: int, adminUserId: string, deviceSn: string, enabled: bool,
    delay: Option<int>, unixTime: int, keyTime: int) returns (frame: Option<Octets>)
    ensures frame == AutolockSet(c, reply, replyKeyTime, adminUserId, deviceSn, enabled, delay, unixTime, keyTime)
  {
    var plain := DecryptFrame(c, reply, replyKeyTime, adminUserId, deviceSn);
    if plain.None? { return None; }
    var parsed := ParseSettingsResponse(plain.value);
    if parsed.None? { return None; }
    var fields := parsed.value.fields;
    var currentDelay, a7, a8 := WordAt(fields, 0xa2), WordAt(fields, 0xa4), WordAt(fields, 0xa5);
    if currentDelay.None? || a7.None? || a8.None? { return None; }
    var seconds := if delay.Some? then delay.value else currentDelay.value;
    return BuildSettings(c, adminUserId, deviceSn, enabled, seconds, a7.value, a8.value, unixTime, keyTime);
  }

  function AutolockSet(
    c: Cipher, reply: Octets, replyKeyTime: int, adminUserId: string, deviceSn: string, enabled: bool,
    delay: Option<int>, unixTime: int, keyTime: int): Option<Octets>
  {
    match Decrypt(c, reply, replyKeyTime, adminUserId, deviceSn)
    case None => None
    case Some(plain) =>
      match ParsedSettings(plain)
      case None => None
      case Some(s) =>
        var current, a7, a8 := WordAt(s.fields, 0xa2), WordAt(s.fields, 0xa4), WordAt(s.fields, 0xa5);
        if current.None? || a7.None? || a8.None? then None
        else
          BuildSettings(c, adminUserId, deviceSn, enabled, if delay.Some? then delay.value else current.value,
                        a7.value, a8.value, unixTime, keyTime)
  }
}
