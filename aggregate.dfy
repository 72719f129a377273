/**
 * The arithmetic shared by the dashboard (dashboard.js) and the popup
 * (popup.js): sums over the `[domain, time]` entries of daily buckets, the
 * productivity score, grouping into objects keyed by label, and the
 * `sort(...).slice(0, n)` used for every top-N list.
 */
module Aggregate {
  import opened Wrappers
  import opened JsObject
  import opened Category
  import opened Storage

  /** One `[domain, time]` pair of a daily bucket. */
  type Entry = (Domain, nat)

  /** An entry of 25 minutes or more counts as a focus session. */
  const FocusSessionMs := 25 * 60 * 1000

  /**
   * `Object.values(days).forEach(sites => Object.entries(sites).forEach(...))`:
   * every entry the nested loops visit, day by day, in property order.
   */
  function Flatten(dd: DailyData): seq<Entry> {
    if dd == [] then [] else Flatten(dd[..|dd| - 1]) + dd[|dd| - 1].1
  }

  lemma FlattenSnoc(dd: DailyData, i: nat)
    requires i < |dd|
    ensures Flatten(dd[..i + 1]) == Flatten(dd[..i]) + dd[i].1
  {
    assert dd[..i + 1][..i] == dd[..i];
  }

  lemma PrefixSnoc<T>(s: seq<T>, j: nat)
    requires j < |s|
    ensures s[..j + 1] == s[..j] + [s[j]]
    ensures (s[..j] + [s[j]])[..j] == s[..j]
  {
  }

  /** `timeData[domain]?.category?.type`. */
  function KindOf(td: TimeData, d: Domain): Option<CategoryType> {
    match Get(td, d)
    case None => None
    case Some(r) => Some(r.category.kind)
  }

  /** The time of the entries whose domain has a record of type k. */
  function KindTotal(td: TimeData, es: seq<Entry>, k: CategoryType): nat {
    if es == [] then 0
    else
      var e := es[|es| - 1];
      KindTotal(td, es[..|es| - 1], k) + (if KindOf(td, e.0) == Some(k) then e.1 else 0)
  }

  /** The time of the entries that are neither productive nor unproductive, or have no record. */
  function OtherTotal(td: TimeData, es: seq<Entry>): nat {
    if es == [] then 0
    else
      var e := es[|es| - 1];
      OtherTotal(td, es[..|es| - 1]) +
        (if KindOf(td, e.0) != Some(Productive) && KindOf(td, e.0) != Some(Unproductive) then e.1 else 0)
  }

  /** The number of entries of at least 25 minutes. */
  function FocusCount(es: seq<Entry>): nat {
    if es == [] then 0
    else FocusCount(es[..|es| - 1]) + (if es[|es| - 1].1 >= FocusSessionMs then 1 else 0)
  }

  /** Every millisecond is productive, unproductive, or other, exactly once. */
  lemma {:induction false} KindTotalsSplit(td: TimeData, es: seq<Entry>)
    ensures ValuesSum(es) == KindTotal(td, es, Productive) + KindTotal(td, es, Unproductive) + OtherTotal(td, es)
  {
    if es != [] {
      KindTotalsSplit(td, es[..|es| - 1]);
    }
  }

  /** Productive and unproductive time together never exceed the total. */
  lemma KindTotalsBound(td: TimeData, es: seq<Entry>)
    ensures KindTotal(td, es, Productive) + KindTotal(td, es, Unproductive) <= ValuesSum(es)
    ensures KindTotal(td, es, Productive) <= ValuesSum(es)
  {
    KindTotalsSplit(td, es);
  }

  /** A kind's time over two runs of entries is its time over each. */
  lemma {:induction false} KindTotalAppend(td: TimeData, a: seq<Entry>, b: seq<Entry>, k: CategoryType)
    ensures KindTotal(td, a + b, k) == KindTotal(td, a, k) + KindTotal(td, b, k)
    decreases |b|
  {
    if b == [] {
      assert a + b == a;
    } else {
      var b0 := b[..|b| - 1];
      assert (a + b)[..|a + b| - 1] == a + b0;
      assert (a + b)[|a + b| - 1] == b[|b| - 1];
      KindTotalAppend(td, a, b0, k);
    }
  }

  /** Focus sessions are disjoint entries of at least 25 minutes each. */
  lemma {:induction false} FocusCountBound(es: seq<Entry>)
    ensures FocusCount(es) <= |es|
    ensures FocusCount(es) * FocusSessionMs <= ValuesSum(es)
  {
    if es != [] {
      FocusCountBound(es[..|es| - 1]);
    }
  }

  /**
   * `Math.round((productive / total) * 100)`, or 0 when there is no time, in
   * exact arithmetic: the percentage rounded to the nearest integer, halves up.
   */
  function Score(productive: nat, total: nat): (s: nat)
    ensures total == 0 ==> s == 0
    ensures total > 0 ==> 2 * total * s <= 200 * productive + total < 2 * total * (s + 1)
    ensures productive <= total ==> s <= 100
    ensures productive == total ==> s == (if total == 0 then 0 else 100)
  {
    if total == 0 then 0
    else
      var s := (200 * productive + total) / (2 * total);
      ScoreBound(productive, total, s);
      s
  }

  lemma ScoreBound(p: nat, t: nat, s: nat)
    requires t > 0 && s == (200 * p + t) / (2 * t)
    ensures p <= t ==> s <= 100
    ensures p == t ==> s == 100
  {
    var d := 2 * t;
    assert d * s <= 200 * p + t < d * s + d;
    ProductSign(s - 101, d);
    ProductSign(99 - s, d);
  }

  /** A product with a non-negative factor is non-negative. */
  lemma ProductSign(a: int, b: nat)
    ensures a >= 0 ==> a * b >= 0
  {
  }

  /** `Math.round(ms / 60000)`: the nearest whole minute, halves up. */
  function MinutesRounded(ms: nat): (m: nat)
    ensures 60000 * m <= ms + 30000 < 60000 * m + 60000
  {
    (ms + 30000) / 60000
  }

  /** The key an entry is grouped under, None when the loop skips it. */
  datatype Grouping =
    | ByChartLabel   // `timeData[domain]?.category?.category || 'Other'`
    | ByRecordLabel  // `category.category`, only for domains with a record
    | ByDomain       // the domain itself (`siteTimes`)

  function GroupKey(td: TimeData, g: Grouping, d: Domain): Option<string> {
    match g
    case ByDomain => Some(d)
    case ByRecordLabel =>
      (match Get(td, d) case None => None case Some(r) => Some(r.category.name))
    case ByChartLabel =>
      (match Get(td, d)
       case Some(r) => if r.category.name != "" then Some(r.category.name) else Some(OtherLabel)
       case None => Some(OtherLabel))
  }

  /** One turn of a grouping loop: `groups[key] = (groups[key] || 0) + time`, nothing for an entry without a key. */
  function GroupStep(td: TimeData, g: Grouping, acc: Obj<string, nat>, e: Entry): Obj<string, nat> {
    match GroupKey(td, g, e.0)
    case None => acc
    case Some(l) =>
      var t: nat := OrZero(acc, l) + e.1;
      Put(acc, l, t)
  }

  /** A grouping loop run over the entries, in order, on the object acc. */
  function GroupInto(td: TimeData, g: Grouping, acc: Obj<string, nat>, es: seq<Entry>): Obj<string, nat> {
    if es == [] then acc else GroupStep(td, g, GroupInto(td, g, acc, es[..|es| - 1]), es[|es| - 1])
  }

  /** A grouping loop run over the entries on a fresh `{}`. */
  function Group(td: TimeData, g: Grouping, es: seq<Entry>): Obj<string, nat> {
    GroupInto(td, g, [], es)
  }

  /** The last entry is the last turn of the loop. */
  lemma GroupLast(td: TimeData, g: Grouping, es: seq<Entry>)
    requires es != []
    ensures Group(td, g, es) == GroupStep(td, g, Group(td, g, es[..|es| - 1]), es[|es| - 1])
  {
  }

  /** Running a grouping loop over a + b is running it over a and then, on the result, over b. */
  lemma {:induction false} GroupIntoAppend(td: TimeData, g: Grouping, acc: Obj<string, nat>, a: seq<Entry>, b: seq<Entry>)
    ensures GroupInto(td, g, acc, a + b) == GroupInto(td, g, GroupInto(td, g, acc, a), b)
    decreases |b|
  {
    if b == [] {
      assert a + b == a;
    } else {
      var b0 := b[..|b| - 1];
      assert (a + b)[..|a + b| - 1] == a + b0;
      assert (a + b)[|a + b| - 1] == b[|b| - 1];
      GroupIntoAppend(td, g, acc, a, b0);
    }
  }

  /** The time of the entries grouped under l. */
  function KeyTotal(td: TimeData, g: Grouping, es: seq<Entry>, l: string): nat {
    if es == [] then 0
    else
      var e := es[|es| - 1];
      KeyTotal(td, g, es[..|es| - 1], l) + (if GroupKey(td, g, e.0) == Some(l) then e.1 else 0)
  }

  /** The time of the entries that are grouped at all. */
  function GroupedTotal(td: TimeData, g: Grouping, es: seq<Entry>): nat {
    if es == [] then 0
    else
      var e := es[|es| - 1];
      GroupedTotal(td, g, es[..|es| - 1]) + (if GroupKey(td, g, e.0).Some? then e.1 else 0)
  }

  /** The labels of a grouping are distinct. */
  lemma {:induction false} GroupKeysUnique(td: TimeData, g: Grouping, es: seq<Entry>)
    ensures KeysUnique(Group(td, g, es))
  {
    if es != [] {
      var acc := Group(td, g, es[..|es| - 1]);
      GroupKeysUnique(td, g, es[..|es| - 1]);
      var e: Entry := es[|es| - 1];
      assert Group(td, g, es) == GroupStep(td, g, acc, e);
      match GroupKey(td, g, e.0)
      case None =>
      case Some(k) =>
        var t: nat := OrZero(acc, k) + e.1;
        PutKeysUnique(acc, k, t);
    }
  }

  /** The groups together hold all grouped time. */
  lemma {:induction false} GroupSum(td: TimeData, g: Grouping, es: seq<Entry>)
    ensures ValuesSum(Group(td, g, es)) == GroupedTotal(td, g, es)
  {
    if es != [] {
      var acc := Group(td, g, es[..|es| - 1]);
      GroupSum(td, g, es[..|es| - 1]);
      var e: Entry := es[|es| - 1];
      assert Group(td, g, es) == GroupStep(td, g, acc, e);
      match GroupKey(td, g, e.0)
      case None =>
      case Some(k) =>
        var t: nat := OrZero(acc, k) + e.1;
        ValuesSumPut(acc, k, t);
    }
  }

  /** Each group holds exactly the time of the entries grouped under it; a label no entry has reads as 0. */
  lemma {:induction false} GroupGet(td: TimeData, g: Grouping, es: seq<Entry>, l: string)
    ensures OrZero(Group(td, g, es), l) == KeyTotal(td, g, es, l)
  {
    if es != [] {
      var es0 := es[..|es| - 1];
      var e: Entry := es[|es| - 1];
      var acc := Group(td, g, es0);
      GroupGet(td, g, es0, l);
      GroupLast(td, g, es);
      assert KeyTotal(td, g, es, l) == KeyTotal(td, g, es0, l) + if GroupKey(td, g, e.0) == Some(l) then e.1 else 0;
      match GroupKey(td, g, e.0)
      case None =>
      case Some(k) =>
        var t: nat := OrZero(acc, k) + e.1;
        assert Group(td, g, es) == Put(acc, k, t);
        GetPut(acc, k, t, l);
        assert OrZero(Put(acc, k, t), l) == if l == k then t else OrZero(acc, l);
    }
  }

  /** The chart's grouping puts every entry somewhere: unknown domains go to 'Other'. */
  lemma {:induction false} ChartGroupsEverything(td: TimeData, es: seq<Entry>)
    ensures GroupedTotal(td, ByChartLabel, es) == ValuesSum(es)
  {
    if es != [] {
      ChartGroupsEverything(td, es[..|es| - 1]);
    }
  }

  /** Grouping by domain sums, for each domain, its entries. */
  lemma {:induction false} DomainGroupsEverything(td: TimeData, es: seq<Entry>)
    ensures GroupedTotal(td, ByDomain, es) == ValuesSum(es)
  {
    if es != [] {
      DomainGroupsEverything(td, es[..|es| - 1]);
    }
  }

  /** Some group is non-empty as soon as some grouped entry has time. */
  lemma GroupNonEmpty(td: TimeData, g: Grouping, es: seq<Entry>)
    ensures GroupedTotal(td, g, es) > 0 ==> |Group(td, g, es)| > 0
  {
    GroupSum(td, g, es);
  }

  /** The time of the entries for domain d. */
  function EntrySum(es: seq<Entry>, d: Domain): nat {
    if es == [] then 0
    else EntrySum(es[..|es| - 1], d) + (if es[|es| - 1].0 == d then es[|es| - 1].1 else 0)
  }

  /** The number of entries for domain d. */
  function EntryCount(es: seq<Entry>, d: Domain): nat {
    if es == [] then 0
    else EntryCount(es[..|es| - 1], d) + (if es[|es| - 1].0 == d then 1 else 0)
  }

  /** The number of days whose bucket has an entry for d. */
  function DaysWith(dd: DailyData, d: Domain): nat {
    if dd == [] then 0
    else DaysWith(dd[..|dd| - 1], d) + (if Has(dd[|dd| - 1].1, d) then 1 else 0)
  }

  lemma {:induction false} EntryCountZero(es: seq<Entry>, d: Domain)
    ensures EntryCount(es, d) == 0 ==> EntrySum(es, d) == 0
  {
    if es != [] {
      EntryCountZero(es[..|es| - 1], d);
    }
  }

  lemma {:induction false} DomainKeyTotal(td: TimeData, es: seq<Entry>, d: Domain)
    ensures KeyTotal(td, ByDomain, es, d) == EntrySum(es, d)
  {
    if es != [] {
      DomainKeyTotal(td, es[..|es| - 1], d);
    }
  }

  lemma {:induction false} EntriesAppend(a: seq<Entry>, b: seq<Entry>, d: Domain)
    ensures EntrySum(a + b, d) == EntrySum(a, d) + EntrySum(b, d)
    ensures EntryCount(a + b, d) == EntryCount(a, d) + EntryCount(b, d)
    decreases |b|
  {
    if b == [] {
      assert a + b == a;
    } else {
      var b0 := b[..|b| - 1];
      assert a + b == (a + b0) + [b[|b| - 1]];
      assert (a + b)[..|a + b| - 1] == a + b0;
      EntriesAppend(a, b0, d);
    }
  }

  /** In a bucket (distinct domains) a domain's entries are its one property, if any. */
  lemma {:induction false} BucketEntries(b: Bucket, d: Domain)
    requires KeysUnique(b)
    ensures EntrySum(b, d) == TimeOn(b, d)
    ensures EntryCount(b, d) == if Has(b, d) then 1 else 0
  {
    if b != [] {
      var b0 := b[..|b| - 1];
      KeysUniqueSnoc(b);
      BucketEntries(b0, d);
      GetAppend(b0, b[|b| - 1], d);
      PutHas(b0, b[|b| - 1].0, b[|b| - 1].1, d);
      PutShape(b0, b[|b| - 1].0, b[|b| - 1].1);
    }
  }

  /**
   * Over well-formed days, the entries the nested loops visit for d add up to
   * d's total over days, and there is one of them per day d appears on.
   */
  lemma {:induction false} FlattenEntries(dd: DailyData, d: Domain)
    requires forall i :: 0 <= i < |dd| ==> KeysUnique(dd[i].1)
    ensures EntrySum(Flatten(dd), d) == DomainTotal(dd, d)
    ensures EntryCount(Flatten(dd), d) == DaysWith(dd, d)
  {
    if dd != [] {
      var n := |dd| - 1;
      var dd0 := dd[..n];
      assert forall i :: 0 <= i < |dd0| ==> dd0[i] == dd[i];
      FlattenEntries(dd0, d);
      assert Flatten(dd) == Flatten(dd0) + dd[n].1;
      EntriesAppend(Flatten(dd0), dd[n].1, d);
      BucketEntries(dd[n].1, d);
    }
  }

  /** The time of a `[label, time]` pair, the sort key of the top-N lists. */
  function Amount(x: (string, nat)): nat {
    x.1
  }

  /** Every `[label, time]` pair of a grouping holds the time of its label. */
  lemma GroupEntry(td: TimeData, g: Grouping, es: seq<Entry>, c: (string, nat))
    requires c in Group(td, g, es)
    ensures c.1 == KeyTotal(td, g, es, c.0)
  {
    var r := Group(td, g, es);
    GroupKeysUnique(td, g, es);
    var i :| 0 <= i < |r| && r[i] == c;
    IndexOfUnique(r, i);
    GroupGet(td, g, es, c.0);
  }

  /** Non-increasing by key: what `sort((a, b) => key(b) - key(a))` produces. */
  predicate SortedDesc<T>(s: seq<T>, key: T -> nat) {
    forall i, j :: 0 <= i < j < |s| ==> key(s[i]) >= key(s[j])
  }

  /** Inserts x into a sorted list after every element whose key is at least x's (stable). */
  function InsertDesc<T(==)>(t: seq<T>, x: T, key: T -> nat): (r: seq<T>)
    requires SortedDesc(t, key)
    ensures SortedDesc(r, key)
    ensures multiset(r) == multiset(t) + multiset{x}
    ensures forall y :: y in r ==> y == x || y in t
    ensures |r| == |t| + 1
  {
    if t == [] || key(t[|t| - 1]) >= key(x) then t + [x]
    else
      var last := t[|t| - 1];
      var r0 := InsertDesc(t[..|t| - 1], x, key);
      assert t == t[..|t| - 1] + [last];
      assert forall y :: y in r0 ==> key(y) >= key(last);
      r0 + [last]
  }

  /**
   * `Array.prototype.sort` with a comparator `key(b) - key(a)`: a stable
   * ordering by key, largest first. The result is sorted and a permutation of
   * the input.
   */
  function SortDesc<T(==)>(s: seq<T>, key: T -> nat): (r: seq<T>)
    ensures SortedDesc(r, key)
    ensures multiset(r) == multiset(s)
    ensures |r| == |s|
  {
    if s == [] then []
    else
      assert s == s[..|s| - 1] + [s[|s| - 1]];
      InsertDesc(SortDesc(s[..|s| - 1], key), s[|s| - 1], key)
  }

  /** The elements of s whose key is v, in their order in s. */
  function WithKey<T>(s: seq<T>, key: T -> nat, v: nat): seq<T> {
    if s == [] then []
    else WithKey(s[..|s| - 1], key, v) + (if key(s[|s| - 1]) == v then [s[|s| - 1]] else [])
  }

  lemma WithKeySnoc<T>(s: seq<T>, x: T, key: T -> nat, v: nat)
    ensures WithKey(s + [x], key, v) == WithKey(s, key, v) + (if key(x) == v then [x] else [])
  {
    assert (s + [x])[..|s|] == s;
  }

  /** Inserting x puts it after every element of its own key. */
  lemma {:induction false} InsertDescStable<T>(t: seq<T>, x: T, key: T -> nat, v: nat)
    requires SortedDesc(t, key)
    ensures WithKey(InsertDesc(t, x, key), key, v) == WithKey(t, key, v) + (if key(x) == v then [x] else [])
    decreases |t|
  {
    if t == [] || key(t[|t| - 1]) >= key(x) {
      WithKeySnoc(t, x, key, v);
    } else {
      var t0, last := t[..|t| - 1], t[|t| - 1];
      var r0 := InsertDesc(t0, x, key);
      assert InsertDesc(t, x, key) == r0 + [last];
      InsertDescStable(t0, x, key, v);
      WithKeySnoc(r0, last, key, v);
      assert WithKey(t, key, v) == WithKey(t0, key, v) + (if key(last) == v then [last] else []);
    }
  }

  /**
   * The sort is stable: for every key, the elements with that key come out in
   * their input order.
   */
  lemma {:induction false} SortDescStable<T>(s: seq<T>, key: T -> nat, v: nat)
    ensures WithKey(SortDesc(s, key), key, v) == WithKey(s, key, v)
  {
    if s != [] {
      var s0, x := s[..|s| - 1], s[|s| - 1];
      SortDescStable(s0, key, v);
      InsertDescStable(SortDesc(s0, key), x, key, v);
    }
  }

  /** `s.slice(0, n)`. */
  function Take<T>(s: seq<T>, n: nat): (r: seq<T>)
    ensures |r| == if |s| < n then |s| else n
    ensures r == s[..|r|]
  {
    if |s| <= n then s else s[..n]
  }

  /**
   * The first n of a sorted permutation are the n largest: each shown element is
   * an input element, and none is smaller than an input element left out.
   */
  lemma TopN<T>(s: seq<T>, key: T -> nat, n: nat)
    ensures var r := SortDesc(s, key); var shown := Take(r, n);
      && |shown| <= n
      && SortedDesc(shown, key)
      && (forall y :: y in shown ==> y in s)
      && (forall i, j :: 0 <= i < |shown| <= j < |r| ==> key(shown[i]) >= key(r[j]))
  {
    var r := SortDesc(s, key);
    var shown := Take(r, n);
    forall y | y in shown ensures y in s {
      assert y in multiset(r);
    }
  }

  /** An input element not among the first n has a key no larger than any shown. */
  lemma TopNLeftOut<T>(s: seq<T>, key: T -> nat, n: nat, x: T, y: T)
    requires var shown := Take(SortDesc(s, key), n); x in s && x !in shown && y in shown
    ensures key(x) <= key(y)
  {
    var r := SortDesc(s, key);
    var shown := Take(r, n);
    TopN(s, key, n);
    assert x in multiset(r);
    var j :| 0 <= j < |r| && r[j] == x;
    assert j >= |shown|;
    var i :| 0 <= i < |shown| && shown[i] == y;
  }

  /** No element occurs twice. */
  predicate Distinct<T(==)>(s: seq<T>) {
    forall i, j :: 0 <= i < j < |s| ==> s[i] != s[j]
  }

  lemma {:induction false} DistinctCount<T>(s: seq<T>, x: T)
    requires Distinct(s)
    ensures multiset(s)[x] <= 1
  {
    if s != [] {
      var s0 := s[..|s| - 1];
      assert s == s0 + [s[|s| - 1]];
      assert Distinct(s0);
      DistinctCount(s0, x);
      assert s[|s| - 1] !in s0;
    }
  }

  /** A list without repeats keeps having none once sorted and cut to its first n. */
  lemma TopNDistinct<T>(s: seq<T>, key: T -> nat, n: nat)
    requires Distinct(s)
    ensures Distinct(Take(SortDesc(s, key), n))
  {
    var r := SortDesc(s, key);
    forall i, j | 0 <= i < j < |r| ensures r[i] != r[j] {
      if r[i] == r[j] {
        assert r == r[..j] + r[j..];
        assert r[i] in r[..j] && r[j] in r[j..];
        assert multiset(r)[r[i]] >= 2 by {
          assert multiset(r) == multiset(r[..j]) + multiset(r[j..]);
        }
        DistinctCount(s, r[i]);
        assert false;
      }
    }
  }

  /** When fewer than n are shown, every input element is shown. */
  lemma TopNAll<T>(s: seq<T>, key: T -> nat, n: nat)
    requires |Take(SortDesc(s, key), n)| < n
    ensures forall x :: x in s ==> x in Take(SortDesc(s, key), n)
  {
    var r := SortDesc(s, key);
    assert Take(r, n) == r;
    forall x | x in s ensures x in r {
      assert x in multiset(s);
    }
  }

  /** The head of the sorted list has the largest key of all. */
  lemma SortDescHead<T>(s: seq<T>, key: T -> nat)
    requires |s| > 0
    ensures forall y :: y in s ==> key(y) <= key(SortDesc(s, key)[0])
  {
    var r := SortDesc(s, key);
    forall y | y in s ensures key(y) <= key(r[0]) {
      assert y in multiset(r);
      var j :| 0 <= j < |r| && r[j] == y;
    }
  }

  /** Grouping by domain and sorting puts a domain with the most time first, whenever there is any time. */
  lemma TopSite(td: TimeData, es: seq<Entry>)
    requires ValuesSum(es) > 0
    ensures var r := SortDesc(Group(td, ByDomain, es), Amount);
      && |r| > 0
      && r[0].1 == EntrySum(es, r[0].0)
      && forall d :: EntrySum(es, d) <= r[0].1
  {
    var st := Group(td, ByDomain, es);
    DomainGroupsEverything(td, es);
    GroupNonEmpty(td, ByDomain, es);
    var r := SortDesc(st, Amount);
    assert r[0] in multiset(st);
    GroupEntry(td, ByDomain, es, r[0]);
    DomainKeyTotal(td, es, r[0].0);
    SortDescHead(st, Amount);
    forall d ensures EntrySum(es, d) <= r[0].1 {
      DomainKeyTotal(td, es, d);
      GroupGet(td, ByDomain, es, d);
      var i := IndexOf(st, d);
      if i >= 0 {
        assert st[i] in st;
      }
    }
  }

  /** A label missing from the first n groups has no more time than any group shown. */
  lemma TopGroupsLeftOut(td: TimeData, g: Grouping, es: seq<Entry>, n: nat, l: string, c: (string, nat))
    requires var top := Take(SortDesc(Group(td, g, es), Amount), n);
      (forall c' :: c' in top ==> c'.0 != l) && c in top
    ensures KeyTotal(td, g, es, l) <= c.1
  {
    var groups := Group(td, g, es);
    var sorted := SortDesc(groups, Amount);
    var top := Take(sorted, n);
    TopN(groups, Amount, n);
    GroupGet(td, g, es, l);
    var i := IndexOf(groups, l);
    if i >= 0 {
      assert groups[i] in multiset(sorted);
      var j :| 0 <= j < |sorted| && sorted[j] == groups[i];
      assert j >= |top|;
      var k :| 0 <= k < |top| && top[k] == c;
    }
  }

  /**
   * The first n groups, largest first: each holds its label's whole time, and
   * no label left out has more time than one shown.
   */
  lemma TopGroups(td: TimeData, g: Grouping, es: seq<Entry>, n: nat)
    ensures var top := Take(SortDesc(Group(td, g, es), Amount), n);
      && |top| <= n
      && SortedDesc(top, Amount)
      && (forall c :: c in top ==> c.1 == KeyTotal(td, g, es, c.0))
      && (forall l :: (forall c :: c in top ==> c.0 != l) ==>
            forall c :: c in top ==> KeyTotal(td, g, es, l) <= c.1)
  {
    var groups := Group(td, g, es);
    var top := Take(SortDesc(groups, Amount), n);
    TopN(groups, Amount, n);
    forall c | c in top ensures c.1 == KeyTotal(td, g, es, c.0) {
      GroupEntry(td, g, es, c);
    }
    forall l, c | (forall c' :: c' in top ==> c'.0 != l) && c in top
      ensures KeyTotal(td, g, es, l) <= c.1
    {
      TopGroupsLeftOut(td, g, es, n, l, c);
    }
  }
}
