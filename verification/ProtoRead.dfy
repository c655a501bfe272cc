/**
 * The field readers every structured data-point decoder shares (src/model/proto-read.ts), and what they
 * answer on a message the writer built.
 */
module ProtoRead {
  import opened Wrappers
  import opened Bytes
  import opened RawDp
  import opened RawDpRoundTrip

  /** The first field with this number, or `None`. */
  function Find(fields: seq<Field>, n: nat): (r: Option<Field>) {
    if fields == [] then None
    else if fields[0].field == n then Some(fields[0])
    else Find(fields[1..], n)
  }

  function IntAt(fields: Option<seq<Field>>, n: nat): nat {
    if fields.None? then 0
    else match Find(fields.value, n)
      case Some(IntField(_, v)) => v
      case _ => 0
  }

  predicate FlagAt(fields: Option<seq<Field>>, n: nat) {
    fields.Some? && match Find(fields.value, n) { case Some(IntField(_, v)) => v != 0 case _ => false }
  }

  /** `signed`: JavaScript's remainder and quotient on a non-negative number. */
  function SignedAt(fields: Option<seq<Field>>, n: nat): int {
    Unzigzag(IntAt(fields, n))
  }

  function BytesAt(fields: Option<seq<Field>>, n: nat): Option<seq<Byte>> {
    if fields.None? then None
    else match Find(fields.value, n)
      case Some(BytesField(_, b)) => if b == [] then None else Some(b)
      case _ => None
  }

  function SubAt(p: Platform, fields: Option<seq<Field>>, n: nat): Option<seq<Field>>
    requires Sound(p)
  {
    if fields.None? then None
    else match Find(fields.value, n)
      case Some(BytesField(_, b)) => Nested(p, b)
      case _ => None
  }

  /** Every repeat of one length-delimited field, stepped into. */
  function Each(p: Platform, fields: seq<Field>, n: nat): seq<seq<Field>>
    requires Sound(p)
  {
    if fields == [] then []
    else
      var here := match fields[0] {
        case BytesField(k, b) => if k != n then [] else (match Nested(p, b) case Some(fs) => [fs] case None => [])
        case IntField(_, _) => []
      };
      here + Each(p, fields[1..], n)
  }

  // ---------------------------------------------------------------------------------------------
  // What the readers answer on a written message
  // ---------------------------------------------------------------------------------------------

  /** The first call with this field number. */
  function FirstItem(items: seq<Item>, n: nat): Option<Item> {
    if items == [] then None
    else if items[0].field == n then Some(items[0])
    else FirstItem(items[1..], n)
  }

  lemma {:induction false} FirstFieldIsFirstItem(p: Platform, fs: seq<Field>, items: seq<Item>, n: nat)
    requires Sound(p) && Carries(p, fs, items)
    ensures FirstItem(items, n).None? <==> Find(fs, n).None?
    ensures FirstItem(items, n).Some? ==> CarriesItem(p, Find(fs, n).value, FirstItem(items, n).value)
    decreases |items|
  {
    if items != [] {
      assert CarriesItem(p, fs[0], items[0]);
      assert fs[0].field == items[0].field;
      assert Carries(p, fs[1..], items[1..]) by {
        forall i | 0 <= i < |items[1..]| ensures CarriesItem(p, fs[1..][i], items[1..][i]) {
          assert CarriesItem(p, fs[i + 1], items[i + 1]);
        }
      }
      FirstFieldIsFirstItem(p, fs[1..], items[1..], n);
    }
  }

  /**
   * Each reader answers the argument of the FIRST call with its number, and the zero of its type when there
   * is none. Later repeats do not count, so this is not proto3's last-one-wins merging.
   */
  lemma ReadersAnswerTheFirstCall(p: Platform, fs: seq<Field>, items: seq<Item>, n: nat)
    requires Sound(p) && Carries(p, fs, items)
    ensures match FirstItem(items, n)
      case None =>
        && IntAt(Some(fs), n) == 0 && SignedAt(Some(fs), n) == 0 && !FlagAt(Some(fs), n)
        && BytesAt(Some(fs), n) == None && SubAt(p, Some(fs), n) == None
      case Some(Int(_, v)) => IntAt(Some(fs), n) == v
      case Some(Sint(_, v)) => SignedAt(Some(fs), n) == v
      case Some(Bool(_, b)) => FlagAt(Some(fs), n) == b
      case Some(Raw(_, b)) => BytesAt(Some(fs), n) == if b == [] then None else Some(b)
      case Some(Sub(_, inner)) =>
        SubAt(p, Some(fs), n).Some? && Carries(p, SubAt(p, Some(fs), n).value, inner)
  {
    FirstFieldIsFirstItem(p, fs, items, n);
  }

  /** Asked of the first field with the number for what it is not, every reader answers as if it were absent. */
  lemma WrongKindIsAbsent(p: Platform, fs: seq<Field>, n: nat)
    requires Sound(p) && Find(fs, n).Some?
    ensures Find(fs, n).value.BytesField? ==>
      IntAt(Some(fs), n) == 0 && !FlagAt(Some(fs), n) && SignedAt(Some(fs), n) == 0
    ensures Find(fs, n).value.IntField? ==> BytesAt(Some(fs), n) == None && SubAt(p, Some(fs), n) == None
    ensures IntAt(None, n) == 0 && !FlagAt(None, n) && BytesAt(None, n) == None && SubAt(p, None, n) == None
  {
  }

  /** `each` works field by field ... */
  lemma {:induction false} EachIsFieldByField(p: Platform, a: seq<Field>, b: seq<Field>, n: nat)
    requires Sound(p)
    ensures Each(p, a + b, n) == Each(p, a, n) + Each(p, b, n)
    decreases |a|
  {
    hide Sound, Nested;
    if a == [] {
      assert a + b == b;
    } else {
      EachIsFieldByField(p, a[1..], b, n);
      assert (a + b)[1..] == a[1..] + b;
    }
  }

  /** ... and steps into a field exactly when it is bytes, has the number and can be read. */
  lemma EachOfOne(p: Platform, f: Field, n: nat)
    requires Sound(p)
    ensures Each(p, [f], n) ==
      (if f.BytesField? && f.field == n && Nested(p, f.bytes).Some? then [Nested(p, f.bytes).value] else [])
  {
    hide Sound, Nested;
    assert [f][1..] == [];
  }

  /** The sub-messages written under one number, in order. */
  function Repeats(items: seq<Item>, n: nat): seq<seq<Item>> {
    if items == [] then []
    else (if items[0].Sub? && items[0].field == n then [items[0].items] else []) + Repeats(items[1..], n)
  }

  /** `each` answers every repeat, in order and readable to the bottom. */
  lemma {:induction false} EachAnswersEveryRepeat(p: Platform, fs: seq<Field>, items: seq<Item>, n: nat)
    requires Sound(p) && Carries(p, fs, items)
    requires forall i | 0 <= i < |items| :: items[i].Raw? ==> items[i].field != n
    ensures |Each(p, fs, n)| == |Repeats(items, n)|
    ensures forall j | 0 <= j < |Repeats(items, n)| :: Carries(p, Each(p, fs, n)[j], Repeats(items, n)[j])
    decreases |items|
  {
    if items != [] {
      assert CarriesItem(p, fs[0], items[0]);
      assert Carries(p, fs[1..], items[1..]) by {
        forall i | 0 <= i < |items[1..]| ensures CarriesItem(p, fs[1..][i], items[1..][i]) {
          assert CarriesItem(p, fs[i + 1], items[i + 1]);
        }
      }
      EachAnswersEveryRepeat(p, fs[1..], items[1..], n);
      var hit := items[0].Sub? && items[0].field == n;
      forall j | 0 <= j < |Repeats(items, n)|
        ensures Carries(p, Each(p, fs, n)[j], Repeats(items, n)[j])
      {
        if hit && j > 0 {
          assert Repeats(items, n)[j] == Repeats(items[1..], n)[j - 1];
        }
      }
    }
  }
}
