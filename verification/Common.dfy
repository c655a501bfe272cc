/** Small vocabulary shared by every component of the model. */
module Wrappers {
  datatype Option<+T> = None | Some(value: T)

  datatype Result<+T> = Ok(value: T) | Err(message: string)
}

/** Octets as integers, the form the wire formats compute with. */
module Bytes {
  type Byte = x: int | 0 <= x < 256

  const TWO32: nat := 0x1_0000_0000

  function PowerOfTwo(k: nat): (r: nat)
    ensures r > 0
  {
    if k == 0 then 1 else 2 * PowerOfTwo(k - 1)
  }

  function Le16(lo: Byte, hi: Byte): (r: nat)
    ensures r < 0x1_0000
  {
    (lo as int) + 256 * (hi as int)
  }
}

/** Cutting sequences where they were joined. */
module Slices {
  lemma Cut<T>(a: seq<T>, b: seq<T>, c: seq<T>)
    ensures (a + b + c)[|a|..|a| + |b|] == b
    ensures (a + b + c)[|a| + |b|..] == c
  {
  }

  lemma Assoc<T>(a: seq<T>, b: seq<T>, c: seq<T>)
    ensures a + b + c == a + (b + c)
  {
  }

  lemma TailSlice<T>(s: seq<T>, p: nat, i: nat, j: nat)
    requires p <= |s| && i <= j <= |s| - p
    ensures s[p..][i..j] == s[p + i..p + j]
    ensures s[p..][j..] == s[p + j..]
  {
  }

  lemma CutHead<T>(s: seq<T>, p: nat, b: seq<T>, c: seq<T>)
    requires p <= |s| && s[p..] == b + c
    ensures p + |b| + |c| == |s|
    ensures s[p..p + |b|] == b
    ensures s[p + |b|..] == c
  {
    TailSlice(s, p, 0, |b|);
    assert |s[p..]| == |b| + |c|;
    assert (b + c)[..|b|] == b && (b + c)[|b|..] == c;
    assert s[p..][0..|b|] == b;
  }

  lemma CutThree<T>(s: seq<T>, p: nat, b: seq<T>, c: seq<T>, d: seq<T>)
    requires p <= |s| && s[p..] == (b + c) + d
    ensures p + |b| + |c| + |d| == |s|
    ensures s[p..p + |b|] == b
    ensures s[p + |b|..p + |b| + |c|] == c
    ensures s[p + |b| + |c|..] == d
  {
    Assoc(b, c, d);
    CutHead(s, p, b, c + d);
    CutHead(s, p + |b|, c, d);
  }

  /** Cut a head `a`, a part `b`, a part `c` and the rest `d` out of a sequence known from `p` on. */
  lemma CutFour<T>(s: seq<T>, p: nat, a: seq<T>, b: seq<T>, c: seq<T>, d: seq<T>)
    requires p <= |s| && s[p..] == a + (b + c) + d
    ensures p + |a| + |b| + |c| + |d| == |s|
    ensures s[p..p + |a|] == a
    ensures s[p + |a|..p + |a| + |b|] == b
    ensures s[p + |a| + |b|..p + |a| + |b| + |c|] == c
    ensures s[p + |a| + |b| + |c|..] == d
  {
    Assoc(a, b + c, d);
    CutHead(s, p, a, (b + c) + d);
    CutThree(s, p + |a|, b, c, d);
  }
}

/** Walking a set one element at a time. */
module Sets {
  method Pick<T>(s: set<T>) returns (x: T)
    requires s != {}
    ensures x in s
  {
    x :| x in s;
  }
}
