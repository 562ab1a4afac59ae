/**
 * How the features of the contribution table are ranked: a stable sort by
 * contribution, largest first, of which the first three entries are
 * reported under their public names.
 */
module Ranking {
  import opened Features

  /** The table rows other than the baseline, in table order. */
  function WithoutBaseline(table: seq<Entry>): (items: seq<Entry>)
    ensures forall e :: e in items <==> e in table && e.0 != Baseline
  {
    if table == [] then []
    else
      var rest := WithoutBaseline(table[1..]);
      assert forall e :: e in table <==> e == table[0] || e in table[1..];
      if table[0].0 == Baseline then rest else [table[0]] + rest
  }

  /** Every row other than the baseline is kept as often as it occurs. */
  lemma {:induction false} WithoutBaselineCounts(table: seq<Entry>)
    ensures forall e :: multiset(WithoutBaseline(table))[e] == if e.0 == Baseline then 0 else multiset(table)[e]
  {
    if table != [] {
      WithoutBaselineCounts(table[1..]);
      assert table == [table[0]] + table[1..];
    }
  }

  /** Dropping the baseline keeps the remaining rows in insertion order. */
  lemma {:induction false} WithoutBaselineInOrder(table: seq<Entry>)
    requires InInsertionOrder(table)
    ensures InInsertionOrder(WithoutBaseline(table))
  {
    if table != [] {
      WithoutBaselineInOrder(table[1..]);
      var rest := WithoutBaseline(table[1..]);
      forall e | e in rest
        ensures Rank(table[0].0) < Rank(e.0)
      {
        var k :| 0 <= k < |table[1..]| && table[1..][k] == e;
        assert table[k + 1] == e;
      }
    }
  }

  lemma {:induction false} WithoutBaselineKeeps(table: seq<Entry>)
    requires forall e :: e in table ==> e.0 != Baseline
    ensures WithoutBaseline(table) == table
  {
    if table != [] {
      assert forall e :: e in table[1..] ==> e in table;
      WithoutBaselineKeeps(table[1..]);
    }
  }

  /**
   * Inserts `x` into `t` in front of the first row whose contribution is not
   * larger than that of `x`.
   */
  function InsertDesc(x: Entry, t: seq<Entry>): seq<Entry>
  {
    if t == [] || t[0].1 <= x.1 then [x] + t
    else [t[0]] + InsertDesc(x, t[1..])
  }

  /**
   * Sorts by contribution, largest first, keeping rows with equal
   * contributions in their original order (a stable descending sort).
   */
  function SortDesc(s: seq<Entry>): seq<Entry>
  {
    if s == [] then [] else InsertDesc(s[0], SortDesc(s[1..]))
  }

  /** Inserting adds exactly the one row. */
  lemma {:induction false} InsertDescPermutes(x: Entry, t: seq<Entry>)
    ensures multiset(InsertDesc(x, t)) == multiset(t) + multiset{x}
  {
    if t != [] && t[0].1 > x.1 {
      InsertDescPermutes(x, t[1..]);
      assert t == [t[0]] + t[1..];
    }
  }

  /** The sort is a permutation of its input. */
  lemma {:induction false} SortDescPermutes(s: seq<Entry>)
    ensures multiset(SortDesc(s)) == multiset(s)
  {
    if s != [] {
      SortDescPermutes(s[1..]);
      InsertDescPermutes(s[0], SortDesc(s[1..]));
      assert s == [s[0]] + s[1..];
    }
  }

  /** Contributions never increase along `r`. */
  predicate NonIncreasing(r: seq<Entry>)
  {
    forall i, j :: 0 <= i < j < |r| ==> r[i].1 >= r[j].1
  }

  lemma {:induction false} InsertDescNonIncreasing(x: Entry, t: seq<Entry>)
    requires NonIncreasing(t)
    ensures NonIncreasing(InsertDesc(x, t))
  {
    if t == [] || t[0].1 <= x.1 {
    } else {
      var rest := InsertDesc(x, t[1..]);
      assert NonIncreasing(t[1..]);
      InsertDescNonIncreasing(x, t[1..]);
      InsertDescPermutes(x, t[1..]);
      forall e | e in rest
        ensures e.1 <= t[0].1
      {
        assert e in multiset(rest);
        assert e == x || e in t[1..];
      }
      var r := [t[0]] + rest;
      forall i, j | 0 <= i < j < |r|
        ensures r[i].1 >= r[j].1
      {
        if i == 0 {
          assert r[j] in rest;
        } else {
          assert r[i] == rest[i - 1] && r[j] == rest[j - 1];
        }
      }
    }
  }

  /** The sort's output never lists a smaller contribution before a larger one. */
  lemma {:induction false} SortDescNonIncreasing(s: seq<Entry>)
    ensures NonIncreasing(SortDesc(s))
  {
    if s != [] {
      SortDescNonIncreasing(s[1..]);
      InsertDescNonIncreasing(s[0], SortDesc(s[1..]));
    }
  }

  /** `a` ranks before `b`: a larger contribution, or an equal one inserted earlier. */
  predicate Outranks(a: Entry, b: Entry)
  {
    a.1 > b.1 || (a.1 == b.1 && Rank(a.0) < Rank(b.0))
  }

  /** Every row ranks before every later row. */
  predicate StrictlyRanked(r: seq<Entry>)
  {
    forall i, j :: 0 <= i < j < |r| ==> Outranks(r[i], r[j])
  }

  /** A row that ranks before every row of a ranked sequence can go in front of it. */
  lemma PrependRanked(a: Entry, t: seq<Entry>)
    requires StrictlyRanked(t)
    requires forall e :: e in t ==> Outranks(a, e)
    ensures StrictlyRanked([a] + t)
  {
    var r := [a] + t;
    forall i, j | 0 <= i < j < |r|
      ensures Outranks(r[i], r[j])
    {
      if i == 0 {
        assert r[j] in t;
      } else {
        assert r[i] == t[i - 1] && r[j] == t[j - 1];
      }
    }
  }

  lemma {:induction false} InsertDescRanked(x: Entry, t: seq<Entry>)
    requires StrictlyRanked(t)
    requires forall e :: e in t ==> Rank(x.0) < Rank(e.0)
    ensures StrictlyRanked(InsertDesc(x, t))
  {
    if t == [] || t[0].1 <= x.1 {
      forall e | e in t
        ensures Outranks(x, e)
      {
        var j :| 0 <= j < |t| && t[j] == e;
        assert j == 0 || Outranks(t[0], t[j]);
      }
      PrependRanked(x, t);
    } else {
      var rest := InsertDesc(x, t[1..]);
      assert StrictlyRanked(t[1..]);
      assert forall e :: e in t[1..] ==> e in t;
      InsertDescRanked(x, t[1..]);
      InsertDescPermutes(x, t[1..]);
      forall e | e in rest
        ensures Outranks(t[0], e)
      {
        assert e in multiset(rest);
        assert e == x || e in t[1..];
        if e != x {
          var k :| 0 <= k < |t[1..]| && t[1..][k] == e;
          assert t[k + 1] == e;
        }
      }
      PrependRanked(t[0], rest);
    }
  }

  /**
   * Sorting rows that are in insertion order yields them ordered by contribution,
   * largest first, with ties in insertion order.
   */
  lemma {:induction false} SortDescRanked(s: seq<Entry>)
    requires InInsertionOrder(s)
    ensures StrictlyRanked(SortDesc(s))
  {
    if s != [] {
      assert InInsertionOrder(s[1..]);
      SortDescRanked(s[1..]);
      SortDescPermutes(s[1..]);
      var t := SortDesc(s[1..]);
      forall e | e in t
        ensures Rank(s[0].0) < Rank(e.0)
      {
        assert e in multiset(t);
        var k :| 0 <= k < |s[1..]| && s[1..][k] == e;
        assert s[k + 1] == e;
      }
      InsertDescRanked(s[0], t);
    }
  }

  const TOP_COUNT := 3

  /** The first three rows of the sorted table (fewer when the table is shorter). */
  function TopEntries(items: seq<Entry>): seq<Entry>
  {
    var ranked := SortDesc(items);
    ranked[..if |ranked| < TOP_COUNT then |ranked| else TOP_COUNT]
  }

  /**
   * For rows in insertion order, the top entries are the best three under
   * `Outranks`: taken from the table, listed in rank order, and each ranks
   * before every row left out.
   */
  lemma TopEntriesAreBest(items: seq<Entry>)
    requires InInsertionOrder(items)
    ensures |TopEntries(items)| == if |items| < TOP_COUNT then |items| else TOP_COUNT
    ensures forall e :: e in TopEntries(items) ==> e in items
    ensures StrictlyRanked(TopEntries(items))
    ensures forall c, e :: c in TopEntries(items) && e in items && e !in TopEntries(items) ==> Outranks(c, e)
  {
    var ranked := SortDesc(items);
    var top := TopEntries(items);
    var k := |top|;
    SortDescRanked(items);
    SortDescPermutes(items);
    assert |ranked| == |items| by {
      assert |multiset(ranked)| == |multiset(items)|;
    }
    forall e | e in top
      ensures e in items
    {
      assert e in multiset(ranked);
    }
    forall c, e | c in top && e in items && e !in top
      ensures Outranks(c, e)
    {
      assert e in multiset(ranked);
      var j :| 0 <= j < |ranked| && ranked[j] == e;
      var i :| 0 <= i < k && top[i] == c;
    }
  }

  /** The public names of the reported features. */
  const NAME_MAP: map<string, string> := map[
    "albumin_low" := "albumin",
    "systolic_bp" := "systolic_bp",
    "heart_rate" := "heart_rate",
    "diabetes_mellitus" := "diabetes_mellitus",
    "hypertension" := "hypertension",
    "anemia" := "anemia",
    "age" := "age",
    "creatinine" := "creatinine"]

  /** Public name of a table key; a key without an entry keeps its own name. */
  function Normalize(name: string): string
  {
    if name in NAME_MAP then NAME_MAP[name] else name
  }

  /** Normalisation renames "albumin_low" to "albumin" and changes nothing else. */
  lemma NormalizeRenamesOnlyAlbumin(name: string)
    ensures Normalize(name) == if name == "albumin_low" then "albumin" else name
  {
  }

  /** Reported when no feature contributed. */
  const FALLBACK_FEATURES := ["creatinine", "age", "diabetes_mellitus"]

  /** The reported feature names: the top entries' keys, or the fallback, normalised. */
  function TopFeatures(items: seq<Entry>): seq<string>
  {
    var top := TopEntries(items);
    var keys := seq(|top|, i requires 0 <= i < |top| => Key(top[i].0));
    var chosen := if keys == [] then FALLBACK_FEATURES else keys;
    seq(|chosen|, i requires 0 <= i < |chosen| => Normalize(chosen[i]))
  }

  /** The public name under which a feature is reported. */
  function PublicName(f: Feature): string
  {
    Normalize(Key(f))
  }

  lemma PublicNameInjective(f: Feature, g: Feature)
    requires f != g
    ensures PublicName(f) != PublicName(g)
  {
  }

  lemma PublicNameNotBaseline(f: Feature)
    requires f != Baseline
    ensures PublicName(f) != "baseline"
  {
  }

  /** Rows in insertion order never repeat a feature. */
  lemma SameFeatureSameRow(items: seq<Entry>, c: Entry, e: Entry)
    requires InInsertionOrder(items)
    requires c in items && e in items && c.0 == e.0
    ensures c == e
  {
    var a :| 0 <= a < |items| && items[a] == c;
    var b :| 0 <= b < |items| && items[b] == e;
    assert !(a < b) && !(b < a);
  }

  lemma FallbackNamesArePublic()
    ensures TopFeatures([]) == FALLBACK_FEATURES
  {
    assert TopEntries([]) == [];
    var names := TopFeatures([]);
    assert |names| == 3;
    assert names[0] == Normalize("creatinine") == "creatinine";
    assert names[1] == Normalize("age") == "age";
    assert names[2] == Normalize("diabetes_mellitus") == "diabetes_mellitus";
  }

  /** With at least one row, the reported names are the public names of the top entries. */
  lemma TopNamesArePublic(items: seq<Entry>)
    requires InInsertionOrder(items)
    requires items != []
    ensures |TopFeatures(items)| == |TopEntries(items)|
    ensures forall i :: 0 <= i < |TopEntries(items)| ==> TopFeatures(items)[i] == PublicName(TopEntries(items)[i].0)
  {
    TopEntriesAreBest(items);
  }

  /**
   * The reported features: one to three distinct names, never "baseline";
   * the fallback list when no feature contributed, and otherwise the public
   * names of the top entries, in rank order.
   */
  lemma TopFeaturesShape(items: seq<Entry>)
    requires InInsertionOrder(items)
    requires forall e :: e in items ==> e.0 != Baseline
    ensures 1 <= |TopFeatures(items)| <= TOP_COUNT
    ensures forall i, j :: 0 <= i < j < |TopFeatures(items)| ==> TopFeatures(items)[i] != TopFeatures(items)[j]
    ensures "baseline" !in TopFeatures(items)
    ensures items == [] ==> TopFeatures(items) == FALLBACK_FEATURES
    ensures items != [] ==>
      && |TopFeatures(items)| == |TopEntries(items)|
      && forall i :: 0 <= i < |TopEntries(items)| ==> TopFeatures(items)[i] == PublicName(TopEntries(items)[i].0)
  {
    if items == [] {
      FallbackNamesArePublic();
    } else {
      var top := TopEntries(items);
      var names := TopFeatures(items);
      TopEntriesAreBest(items);
      TopNamesArePublic(items);
      forall i, j | 0 <= i < j < |names|
        ensures names[i] != names[j]
      {
        assert Outranks(top[i], top[j]);
        if top[i].0 == top[j].0 {
          SameFeatureSameRow(items, top[i], top[j]);
        }
        PublicNameInjective(top[i].0, top[j].0);
      }
      forall i | 0 <= i < |names|
        ensures names[i] != "baseline"
      {
        assert top[i] in items;
        PublicNameNotBaseline(top[i].0);
      }
    }
  }
}
