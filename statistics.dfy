/** Summaries of the per-country arrival totals: the ten largest totals
    (`top10`) and the min/mid/max breakpoints of the fill colour scale
    (`arrivalsMinMax`). */
module Statistics {
  import opened JsValue

  /** One member of `totalsByCountry`: a country code and a JSON number or
      null. A totals object is the sequence of its members in enumeration
      order (`Object.entries`). */
  datatype Entry = Entry(key: string, value: Option<int>)

  /** `arrivals?.totalsByCountry || {}`. */
  function TotalsOf(totalsByCountry: Option<seq<Entry>>): seq<Entry> {
    totalsByCountry.GetOr([])
  }

  /** `Number(totals[key] ?? 0)`: the total recorded for `key`, 0 when the key
      is absent or its value is null. */
  function ArrivalsFor(totals: seq<Entry>, key: string): (r: int)
    ensures (forall i | 0 <= i < |totals| :: totals[i].key != key) ==> r == 0
    ensures forall i | 0 <= i < |totals| ::
              totals[i].key == key && (forall j | 0 <= j < i :: totals[j].key != key)
              ==> r == CountOf(totals[i].value)
    decreases |totals|
  {
    if totals == [] then 0
    else if totals[0].key == key then CountOf(totals[0].value)
    else
      var r := ArrivalsFor(totals[1..], key);
      assert forall i | 1 <= i < |totals| :: totals[i] == totals[1..][i - 1];
      r
  }

  /** The members of a JSON object have pairwise different keys. */
  predicate DistinctKeys(totals: seq<Entry>) {
    forall i, j | 0 <= i < j < |totals| :: totals[i].key != totals[j].key
  }

  /** In an object with distinct keys, the lookup of a member's key gives
      that member's value. */
  lemma ArrivalsForMember(totals: seq<Entry>, i: nat)
    requires DistinctKeys(totals) && i < |totals|
    ensures ArrivalsFor(totals, totals[i].key) == CountOf(totals[i].value)
  {
  }

  // ----- top10 -----

  /** `{ iso2, value: Number(value || 0) }`. */
  datatype Ranked = Ranked(iso2: string, value: int)

  function Ranking(totals: seq<Entry>): (r: seq<Ranked>)
    ensures |r| == |totals|
    ensures forall i | 0 <= i < |r| :: r[i].iso2 == totals[i].key && r[i].value == CountOf(totals[i].value)
  {
    seq(|totals|, i requires 0 <= i < |totals| => Ranked(totals[i].key, CountOf(totals[i].value)))
  }

  ghost predicate NonIncreasing(s: seq<Ranked>) {
    forall i, j | 0 <= i <= j < |s| :: s[j].value <= s[i].value
  }

  /** The members of `s` whose value is `v`, in order. */
  function WithValue(s: seq<Ranked>, v: int): seq<Ranked>
    decreases |s|
  {
    if s == [] then [] else (if s[0].value == v then [s[0]] else []) + WithValue(s[1..], v)
  }

  /** Inserts `x` in front of the first member whose value does not exceed
      its own, so that `x` stays ahead of later equal members. */
  function Insert(x: Ranked, t: seq<Ranked>): (r: seq<Ranked>)
    ensures |r| == |t| + 1
    decreases |t|
  {
    if t == [] || t[0].value <= x.value then [x] + t else [t[0]] + Insert(x, t[1..])
  }

  /** The stable sort by `(a, b) => b.value - a.value`. */
  function SortDescending(s: seq<Ranked>): (r: seq<Ranked>)
    ensures |r| == |s|
    decreases |s|
  {
    if s == [] then [] else Insert(s[0], SortDescending(s[1..]))
  }

  lemma {:induction false} InsertMultiset(x: Ranked, t: seq<Ranked>)
    ensures multiset(Insert(x, t)) == multiset{x} + multiset(t)
    decreases |t|
  {
    if t != [] && t[0].value > x.value {
      InsertMultiset(x, t[1..]);
      assert t == [t[0]] + t[1..];
    }
  }

  lemma TailNonIncreasing(t: seq<Ranked>)
    requires t != [] && NonIncreasing(t)
    ensures NonIncreasing(t[1..])
    ensures forall y | y in multiset(t[1..]) :: y.value <= t[0].value
  {
    forall y | y in multiset(t[1..]) ensures y.value <= t[0].value {
      var k :| 0 <= k < |t[1..]| && t[1..][k] == y;
      assert t[k + 1] == y;
    }
  }

  lemma ConsNonIncreasing(h: Ranked, t: seq<Ranked>)
    requires NonIncreasing(t)
    requires forall y | y in t :: y.value <= h.value
    ensures NonIncreasing([h] + t)
  {
    var r := [h] + t;
    forall i, j | 0 <= i <= j < |r| ensures r[j].value <= r[i].value {
      if j > 0 {
        assert r[j] == t[j - 1] && r[j] in t;
        if i > 0 { assert r[i] == t[i - 1]; }
      }
    }
  }

  lemma {:induction false} InsertSorted(x: Ranked, t: seq<Ranked>)
    requires NonIncreasing(t)
    ensures NonIncreasing(Insert(x, t))
    decreases |t|
  {
    if t == [] || t[0].value <= x.value {
      forall y | y in t ensures y.value <= x.value {
        var k :| 0 <= k < |t| && t[k] == y;
      }
      ConsNonIncreasing(x, t);
    } else {
      TailNonIncreasing(t);
      var rest := Insert(x, t[1..]);
      InsertSorted(x, t[1..]);
      InsertMultiset(x, t[1..]);
      forall y | y in rest ensures y.value <= t[0].value {
        assert y in multiset(rest);
      }
      ConsNonIncreasing(t[0], rest);
    }
  }

  lemma {:induction false} InsertWithValue(x: Ranked, t: seq<Ranked>, v: int)
    requires NonIncreasing(t)
    ensures WithValue(Insert(x, t), v) == (if x.value == v then [x] else []) + WithValue(t, v)
    decreases |t|
  {
    if t == [] || t[0].value <= x.value {
      assert ([x] + t)[1..] == t;
    } else {
      TailNonIncreasing(t);
      var rest := Insert(x, t[1..]);
      InsertWithValue(x, t[1..], v);
      var r := [t[0]] + rest;
      assert r[1..] == rest;
      assert WithValue(r, v) == (if t[0].value == v then [t[0]] else []) + WithValue(rest, v);
    }
  }

  lemma {:induction false} SortDescendingSpec(s: seq<Ranked>)
    ensures multiset(SortDescending(s)) == multiset(s)
    ensures NonIncreasing(SortDescending(s))
    ensures forall v :: WithValue(SortDescending(s), v) == WithValue(s, v)
    decreases |s|
  {
    if s != [] {
      SortDescendingSpec(s[1..]);
      InsertMultiset(s[0], SortDescending(s[1..]));
      InsertSorted(s[0], SortDescending(s[1..]));
      assert s == [s[0]] + s[1..];
      forall v ensures WithValue(SortDescending(s), v) == WithValue(s, v) {
        InsertWithValue(s[0], SortDescending(s[1..]), v);
        assert WithValue(s, v) == (if s[0].value == v then [s[0]] else []) + WithValue(s[1..], v);
      }
    }
  }

  function Min(a: int, b: int): int { if a <= b then a else b }

  /** The list `top10` builds: the ranking sorted by descending value, cut
      to its first ten members. */
  function Top10(totals: seq<Entry>): seq<Ranked> {
    var sorted := SortDescending(Ranking(totals));
    SortDescendingSpec(Ranking(totals));
    sorted[..Min(10, |totals|)]
  }

  /** The members of the ranking that `top10` leaves out. */
  function Top10Dropped(totals: seq<Entry>): seq<Ranked> {
    var sorted := SortDescending(Ranking(totals));
    SortDescendingSpec(Ranking(totals));
    sorted[Min(10, |totals|)..]
  }

  lemma {:induction false} WithValueAppend(a: seq<Ranked>, b: seq<Ranked>, v: int)
    ensures WithValue(a + b, v) == WithValue(a, v) + WithValue(b, v)
    decreases |a|
  {
    if a == [] {
      assert a + b == b;
    } else {
      assert (a + b)[0] == a[0] && (a + b)[1..] == a[1..] + b;
      WithValueAppend(a[1..], b, v);
    }
  }

  /** `top10` has min(10, n) members in non-increasing order; together with
      the members it drops it is exactly the ranking of the totals (each a
      code with its value, falsy values as 0); no dropped member exceeds a
      kept one; and members with equal values keep their order in the
      totals. */
  lemma {:induction false} Top10Spec(totals: seq<Entry>)
    ensures var r, d := Top10(totals), Top10Dropped(totals);
      && |r| == Min(10, |totals|)
      && NonIncreasing(r)
      && multiset(r) + multiset(d) == multiset(Ranking(totals))
      && (forall x, y | x in d && y in r :: x.value <= y.value)
      && (forall v :: WithValue(r, v) + WithValue(d, v) == WithValue(Ranking(totals), v))
  {
    var s := SortDescending(Ranking(totals));
    SortDescendingSpec(Ranking(totals));
    var k := Min(10, |totals|);
    var r, d := s[..k], s[k..];
    assert s == r + d;
    forall x, y | x in d && y in r ensures x.value <= y.value {
      var i :| 0 <= i < |r| && r[i] == y;
      var j :| 0 <= j < |d| && d[j] == x;
      assert s[i] == y && s[k + j] == x;
    }
    forall v ensures WithValue(r, v) + WithValue(d, v) == WithValue(Ranking(totals), v) {
      WithValueAppend(r, d, v);
    }
  }

  // ----- arrivalsMinMax -----

  /** The three breakpoints of the fill colour ramp. */
  datatype Scale = Scale(min: int, mid: int, max: int)

  function MinOf(s: seq<int>): (m: int)
    requires |s| > 0
    ensures m in s
    ensures forall x | x in s :: m <= x
    decreases |s|
  {
    if |s| == 1 then s[0]
    else
      var m := MinOf(s[1..]);
      assert s == [s[0]] + s[1..];
      if s[0] <= m then s[0] else m
  }

  function MaxOf(s: seq<int>): (m: int)
    requires |s| > 0
    ensures m in s
    ensures forall x | x in s :: x <= m
    decreases |s|
  {
    if |s| == 1 then s[0]
    else
      var m := MaxOf(s[1..]);
      assert s == [s[0]] + s[1..];
      if m <= s[0] then s[0] else m
  }

  /** `Object.values(m).map((x) => Number(x || 0))`. */
  function Values(totals: seq<Entry>): (r: seq<int>)
    ensures |r| == |totals|
    ensures forall i | 0 <= i < |r| :: r[i] == CountOf(totals[i].value)
  {
    seq(|totals|, i requires 0 <= i < |totals| => CountOf(totals[i].value))
  }

  /** `Math.round(x / 2)` for an integer `x`: halves round up. */
  function HalfRounded(x: int): (r: int)
    ensures x <= 2 * r <= x + 1
  {
    (x + 1) / 2
  }

  /** `arrivalsMinMax`: the smallest and largest value and their rounded
      midpoint, or the fixed scale 0, 1, 1 when there are no totals. */
  function ArrivalsMinMax(totals: seq<Entry>): Scale {
    var vals := Values(totals);
    if |vals| == 0 then Scale(0, 1, 1)
    else
      var lo, hi := MinOf(vals), MaxOf(vals);
      Scale(lo, HalfRounded(lo + hi), hi)
  }

  /** With no totals the scale is 0, 1, 1. Otherwise min and max are values
      of the totals that bound every value, min <= mid <= max, and mid is
      the midpoint of min and max rounded half up. */
  lemma ArrivalsMinMaxSpec(totals: seq<Entry>)
    ensures var sc := ArrivalsMinMax(totals);
      && (totals == [] ==> sc == Scale(0, 1, 1))
      && (totals != [] ==>
            && (exists i | 0 <= i < |totals| :: CountOf(totals[i].value) == sc.min)
            && (exists i | 0 <= i < |totals| :: CountOf(totals[i].value) == sc.max)
            && (forall i | 0 <= i < |totals| :: sc.min <= CountOf(totals[i].value) <= sc.max)
            && sc.min <= sc.mid <= sc.max
            && sc.min + sc.max <= 2 * sc.mid <= sc.min + sc.max + 1)
  {
    var vals := Values(totals);
    if totals != [] {
      var sc := ArrivalsMinMax(totals);
      assert sc.min in vals && sc.max in vals;
      forall i | 0 <= i < |totals| ensures sc.min <= CountOf(totals[i].value) <= sc.max {
        assert vals[i] in vals;
      }
    }
  }

  /** The breakpoints are not always strictly increasing: the empty default
      and two totals that differ by one both give mid == max, and equal
      totals give min == mid == max. */
  lemma ArrivalsMinMaxTies()
    ensures ArrivalsMinMax([]).mid == ArrivalsMinMax([]).max
    ensures var t := [Entry("HU", Some(4)), Entry("AT", Some(5))];
      ArrivalsMinMax(t) == Scale(4, 5, 5)
    ensures var t := [Entry("HU", Some(7))];
      ArrivalsMinMax(t) == Scale(7, 7, 7)
  {
    var t := [Entry("HU", Some(4)), Entry("AT", Some(5))];
    assert Values(t) == [4, 5];
    assert Values([Entry("HU", Some(7))]) == [7];
  }
}
