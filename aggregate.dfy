/** The grouped frequency tables of get_matchup: rows grouped by (balls,
    strikes), then value_counts of the outcome or pitch-type column, either as
    raw counts or normalized by the size of the group. */
module Aggregate {
  import opened Events

  /** The measured column: `type` (pitch outcome) or `pitch_type`. */
  datatype Attribute = PitchOutcome | PitchType

  /** A table row index: (balls, strikes, category). */
  type Key = (int, int, string)

  function Category(e: Event, attr: Attribute): string
  {
    match attr
    case PitchOutcome => e.outcome
    case PitchType => e.pitchType
  }

  function KeyOf(e: Event, attr: Attribute): Key
  {
    (e.balls, e.strikes, Category(e, attr))
  }

  /** The measured column of each row, in row order. */
  function Categories(events: seq<Event>, attr: Attribute): (r: seq<string>)
    ensures |r| == |events|
  {
    if events == [] then [] else [Category(events[0], attr)] + Categories(events[1..], attr)
  }

  /** The row index of each row, in row order. */
  function KeySeq(events: seq<Event>, attr: Attribute): (r: seq<Key>)
    ensures |r| == |events|
  {
    if events == [] then [] else [KeyOf(events[0], attr)] + KeySeq(events[1..], attr)
  }

  /** The rows of one count state (one groupby group). */
  function Group(events: seq<Event>, balls: int, strikes: int): seq<Event>
  {
    Select(events, CountState(balls, strikes))
  }

  function GroupSize(events: seq<Event>, balls: int, strikes: int): nat
  {
    |Group(events, balls, strikes)|
  }

  /** value_counts within the group of the key: how often its category occurs there. */
  function Count(events: seq<Event>, attr: Attribute, k: Key): nat
  {
    multiset(Categories(Group(events, k.0, k.1), attr))[k.2]
  }

  /** value_counts(): one row per observed (balls, strikes, category). */
  function RawCounts(events: seq<Event>, attr: Attribute): map<Key, nat>
  {
    map k | k in KeySeq(events, attr) :: Count(events, attr, k)
  }

  /** value_counts(normalize=True) for one observed key, as an exact ratio. */
  function Frequency(events: seq<Event>, attr: Attribute, k: Key): (r: real)
    requires k in KeySeq(events, attr)
    ensures 0.0 < r <= 1.0
  {
    CountWithinGroup(events, attr, k);
    Count(events, attr, k) as real / GroupSize(events, k.0, k.1) as real
  }

  /** value_counts(normalize=True): one row per observed key. */
  function Frequencies(events: seq<Event>, attr: Attribute): map<Key, real>
  {
    map k | k in KeySeq(events, attr) :: Frequency(events, attr, k)
  }

  // ----- counting -----

  /** The count of a key is the number of rows with exactly that (balls,
      strikes, category). */
  lemma {:induction false} CountIsKeyMultiplicity(events: seq<Event>, attr: Attribute, k: Key)
    ensures Count(events, attr, k) == multiset(KeySeq(events, attr))[k]
  {
    if events != [] {
      var e := events[0];
      var rest := events[1..];
      var g := Group(rest, k.0, k.1);
      assert events == [e] + rest;
      if Keeps(CountState(k.0, k.1), e) {
        assert Group(events, k.0, k.1) == [e] + g;
        assert Categories([e] + g, attr) == [Category(e, attr)] + Categories(g, attr);
      } else {
        assert Group(events, k.0, k.1) == g;
      }
      assert KeySeq(events, attr) == [KeyOf(e, attr)] + KeySeq(rest, attr);
      CountIsKeyMultiplicity(rest, attr, k);
    }
  }

  /** A key is in the tables exactly when its category occurs in its group. */
  lemma PresentKey(events: seq<Event>, attr: Attribute, k: Key)
    ensures k in KeySeq(events, attr) <==> k.2 in Categories(Group(events, k.0, k.1), attr)
  {
    CountIsKeyMultiplicity(events, attr, k);
  }

  lemma {:induction false} MultiplicityBound(xs: seq<string>, c: string)
    ensures multiset(xs)[c] <= |xs|
  {
    if xs != [] {
      assert xs == [xs[0]] + xs[1..];
      MultiplicityBound(xs[1..], c);
    }
  }

  /** An observed key counts at least once and at most its whole group. */
  lemma CountWithinGroup(events: seq<Event>, attr: Attribute, k: Key)
    requires k in KeySeq(events, attr)
    ensures 0 < Count(events, attr, k) <= GroupSize(events, k.0, k.1)
  {
    PresentKey(events, attr, k);
    MultiplicityBound(Categories(Group(events, k.0, k.1), attr), k.2);
  }

  /** Both tables have a row for exactly the observed keys, and each normalized
      value is the raw count over the size of its group. */
  lemma NormalizedIsRawOverGroup(events: seq<Event>, attr: Attribute, k: Key)
    ensures k in RawCounts(events, attr) <==> k in Frequencies(events, attr)
    ensures k in RawCounts(events, attr) <==> exists e :: e in events && KeyOf(e, attr) == k
    ensures k in RawCounts(events, attr) ==>
      && GroupSize(events, k.0, k.1) > 0
      && Frequencies(events, attr)[k] == RawCounts(events, attr)[k] as real / GroupSize(events, k.0, k.1) as real
  {
    KeySeqMembership(events, attr, k);
    if k in RawCounts(events, attr) {
      CountWithinGroup(events, attr, k);
      assert RawCounts(events, attr)[k] == Count(events, attr, k);
    }
  }

  lemma RatioSum(r: real, s: real, x: real, y: real, t: real, g: real)
    requires g != 0.0 && r == x / g && s == y / g && t == x + y
    ensures r + s == t / g
  {
  }

  lemma RatioOfEquals(r: real, x: real, g: real)
    requires g != 0.0 && r == x / g && x == g
    ensures r == 1.0
  {
  }

  lemma {:induction false} KeySeqMembership(events: seq<Event>, attr: Attribute, k: Key)
    ensures k in KeySeq(events, attr) <==> exists e :: e in events && KeyOf(e, attr) == k
  {
    if events != [] {
      KeySeqMembership(events[1..], attr, k);
      assert events == [events[0]] + events[1..];
      if k == KeyOf(events[0], attr) {
        assert events[0] in events;
      }
    }
  }

  /** No rows, no table rows. */
  lemma EmptyTables(events: seq<Event>, attr: Attribute)
    ensures events == [] <==> RawCounts(events, attr) == map[]
    ensures events == [] <==> Frequencies(events, attr) == map[]
  {
    if events != [] {
      assert KeyOf(events[0], attr) in KeySeq(events, attr);
      assert KeyOf(events[0], attr) in RawCounts(events, attr);
      assert KeyOf(events[0], attr) in Frequencies(events, attr);
    }
  }

  // ----- per-group sums -----

  predicate NoDuplicates<T(==)>(xs: seq<T>)
  {
    forall i, j :: 0 <= i < j < |xs| ==> xs[i] != xs[j]
  }

  /** The distinct elements of a sequence. */
  function Distinct(xs: seq<string>): (r: seq<string>)
    ensures NoDuplicates(r)
    ensures forall c :: c in r <==> c in xs
  {
    if xs == [] then []
    else
      var r := Distinct(xs[1..]);
      if xs[0] in r then r else [xs[0]] + r
  }

  /** The categories observed in one count state, each once. */
  function GroupCategories(events: seq<Event>, attr: Attribute, balls: int, strikes: int): seq<string>
  {
    Distinct(Categories(Group(events, balls, strikes), attr))
  }

  /** Sum of the multiplicities in `xs` of the elements of `cs`. */
  function SumMultiplicities(xs: seq<string>, cs: seq<string>): nat
  {
    if cs == [] then 0 else multiset(xs)[cs[0]] + SumMultiplicities(xs, cs[1..])
  }

  function SumCounts(t: map<Key, nat>, balls: int, strikes: int, cs: seq<string>): nat
    requires forall c :: c in cs ==> (balls, strikes, c) in t
  {
    if cs == [] then 0 else t[(balls, strikes, cs[0])] + SumCounts(t, balls, strikes, cs[1..])
  }

  function SumFrequencies(t: map<Key, real>, balls: int, strikes: int, cs: seq<string>): real
    requires forall c :: c in cs ==> (balls, strikes, c) in t
  {
    if cs == [] then 0.0 else t[(balls, strikes, cs[0])] + SumFrequencies(t, balls, strikes, cs[1..])
  }

  lemma {:induction false} SumMultiplicitiesCons(x: string, xs: seq<string>, cs: seq<string>)
    ensures SumMultiplicities([x] + xs, cs) == multiset(cs)[x] + SumMultiplicities(xs, cs)
  {
    if cs != [] {
      assert cs == [cs[0]] + cs[1..];
      SumMultiplicitiesCons(x, xs, cs[1..]);
    }
  }

  lemma {:induction false} DistinctMultiplicity(cs: seq<string>, x: string)
    requires NoDuplicates(cs) && x in cs
    ensures multiset(cs)[x] == 1
  {
    assert cs == [cs[0]] + cs[1..];
    if cs[0] == x {
      assert x !in cs[1..] by {
        forall j | 0 <= j < |cs[1..]| ensures cs[1..][j] != x {
          assert cs[1..][j] == cs[j + 1];
        }
      }
    } else {
      DistinctMultiplicity(cs[1..], x);
    }
  }

  /** Counting each distinct element once, with its multiplicity, counts every element. */
  lemma {:induction false} SumMultiplicitiesTotal(xs: seq<string>, cs: seq<string>)
    requires NoDuplicates(cs)
    requires forall c :: c in xs ==> c in cs
    ensures SumMultiplicities(xs, cs) == |xs|
  {
    if xs == [] {
      SumMultiplicitiesEmpty(cs);
    } else {
      assert xs == [xs[0]] + xs[1..];
      SumMultiplicitiesCons(xs[0], xs[1..], cs);
      DistinctMultiplicity(cs, xs[0]);
      SumMultiplicitiesTotal(xs[1..], cs);
    }
  }

  lemma {:induction false} SumMultiplicitiesEmpty(cs: seq<string>)
    ensures SumMultiplicities([], cs) == 0
  {
    if cs != [] {
      SumMultiplicitiesEmpty(cs[1..]);
    }
  }

  lemma {:induction false} SumCountsIsSumMultiplicities(events: seq<Event>, attr: Attribute, balls: int, strikes: int, cs: seq<string>)
    requires forall c :: c in cs ==> (balls, strikes, c) in RawCounts(events, attr)
    ensures SumCounts(RawCounts(events, attr), balls, strikes, cs)
         == SumMultiplicities(Categories(Group(events, balls, strikes), attr), cs)
  {
    if cs != [] {
      SumCountsIsSumMultiplicities(events, attr, balls, strikes, cs[1..]);
    }
  }

  lemma {:induction false} SumFrequenciesIsScaledSumCounts(events: seq<Event>, attr: Attribute, balls: int, strikes: int, cs: seq<string>)
    requires GroupSize(events, balls, strikes) > 0
    requires forall c :: c in cs ==> (balls, strikes, c) in RawCounts(events, attr)
    ensures forall c :: c in cs ==> (balls, strikes, c) in Frequencies(events, attr)
    ensures SumFrequencies(Frequencies(events, attr), balls, strikes, cs)
         == SumCounts(RawCounts(events, attr), balls, strikes, cs) as real / GroupSize(events, balls, strikes) as real
  {
    if cs != [] {
      SumFrequenciesIsScaledSumCounts(events, attr, balls, strikes, cs[1..]);
      var g := GroupSize(events, balls, strikes) as real;
      var x := RawCounts(events, attr)[(balls, strikes, cs[0])] as real;
      var y := SumCounts(RawCounts(events, attr), balls, strikes, cs[1..]) as real;
      var t := SumCounts(RawCounts(events, attr), balls, strikes, cs) as real;
      assert Frequencies(events, attr)[(balls, strikes, cs[0])] == x / g;
      RatioSum(Frequencies(events, attr)[(balls, strikes, cs[0])],
               SumFrequencies(Frequencies(events, attr), balls, strikes, cs[1..]), x, y, t, g);
    }
  }

  /** The observed categories of a group are exactly its table rows, and their
      raw counts add up to the size of the group. */
  lemma RawCountsSumToGroupSize(events: seq<Event>, attr: Attribute, balls: int, strikes: int)
    ensures NoDuplicates(GroupCategories(events, attr, balls, strikes))
    ensures forall c :: (balls, strikes, c) in RawCounts(events, attr) <==> c in GroupCategories(events, attr, balls, strikes)
    ensures SumCounts(RawCounts(events, attr), balls, strikes, GroupCategories(events, attr, balls, strikes))
         == GroupSize(events, balls, strikes)
  {
    var cats := Categories(Group(events, balls, strikes), attr);
    var cs := GroupCategories(events, attr, balls, strikes);
    forall c ensures (balls, strikes, c) in RawCounts(events, attr) <==> c in cs {
      PresentKey(events, attr, (balls, strikes, c));
    }
    SumCountsIsSumMultiplicities(events, attr, balls, strikes, cs);
    SumMultiplicitiesTotal(cats, cs);
  }

  /** For a group that is present, the normalized values over its categories
      add up to one. */
  lemma FrequenciesSumToOne(events: seq<Event>, attr: Attribute, balls: int, strikes: int)
    requires GroupSize(events, balls, strikes) > 0
    ensures NoDuplicates(GroupCategories(events, attr, balls, strikes))
    ensures forall c :: (balls, strikes, c) in Frequencies(events, attr) <==> c in GroupCategories(events, attr, balls, strikes)
    ensures SumFrequencies(Frequencies(events, attr), balls, strikes, GroupCategories(events, attr, balls, strikes)) == 1.0
  {
    var cs := GroupCategories(events, attr, balls, strikes);
    RawCountsSumToGroupSize(events, attr, balls, strikes);
    SumFrequenciesIsScaledSumCounts(events, attr, balls, strikes, cs);
    RatioOfEquals(SumFrequencies(Frequencies(events, attr), balls, strikes, cs),
                  SumCounts(RawCounts(events, attr), balls, strikes, cs) as real,
                  GroupSize(events, balls, strikes) as real);
  }
}
