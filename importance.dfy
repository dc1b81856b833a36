/** The feature-importance report of `train_model`: the classifier's
    importances normalised to sum to 1, paired with the expanded column
    names, and cut to the ten largest. */
module Importance {
  import opened Ranking
  import Features

  /** One `(column name, importance)` item of the importance dictionary. */
  datatype Entry = Entry(name: string, weight: real)

  function Weight(e: Entry): real {
    e.weight
  }

  /** How many entries the report keeps. */
  const ReportSize: nat := 10

  /** The numeric columns of the training pipeline, in declared order. */
  const NumericFeatures: seq<string> := [
    Features.TotalTimeColumn,
    Features.HighIntentColumn,
    Features.ActivityScoreColumn,
    Features.InteractionColumn
  ]

  /** The categorical columns of the training pipeline, in declared order. */
  const CategoricalFeatures: seq<string> := [
    "Lead Origin", "Lead Source", Features.LastActivityColumn, Features.TagsColumn
  ]

  function Sum(xs: seq<real>): real {
    if |xs| == 0 then 0.0 else xs[0] + Sum(xs[1..])
  }

  /** Every item divided by `d`. */
  function Scale(xs: seq<real>, d: real): (r: seq<real>)
    requires d != 0.0
    ensures |r| == |xs|
    ensures forall i :: 0 <= i < |xs| ==> r[i] == xs[i] / d
  {
    if |xs| == 0 then [] else [xs[0] / d] + Scale(xs[1..], d)
  }

  lemma {:induction false} SumOfScale(xs: seq<real>, d: real)
    requires d != 0.0
    ensures Sum(Scale(xs, d)) == Sum(xs) / d
  {
    if |xs| > 0 {
      SumOfScale(xs[1..], d);
      assert Scale(xs, d)[1..] == Scale(xs[1..], d);
    }
  }

  /** `importances / importances.sum()` when the sum is positive: the
      result then sums to 1 and keeps each item's share; otherwise the
      importances are returned unchanged. */
  function Normalize(importances: seq<real>): (r: seq<real>)
    ensures |r| == |importances|
    ensures Sum(importances) > 0.0 ==> Sum(r) == 1.0
    ensures Sum(importances) > 0.0 ==>
              forall i :: 0 <= i < |r| ==> r[i] == importances[i] / Sum(importances)
    ensures Sum(importances) <= 0.0 ==> r == importances
  {
    var total := Sum(importances);
    if total > 0.0 then
      SumOfScale(importances, total);
      Scale(importances, total)
    else importances
  }

  /** `numeric_features + list(onehot_columns)`: the numeric columns in
      declared order, then the one-hot columns the encoder produced. */
  function FeatureNames(onehotColumns: seq<string>): (r: seq<string>)
    ensures |r| == |NumericFeatures| + |onehotColumns|
    ensures r[..|NumericFeatures|] == NumericFeatures
    ensures r[|NumericFeatures|..] == onehotColumns
  {
    NumericFeatures + onehotColumns
  }

  /** `zip(names, weights)`: pairs up to the shorter of the two. */
  function Zip(names: seq<string>, weights: seq<real>): (r: seq<Entry>)
    ensures |r| == if |names| <= |weights| then |names| else |weights|
    ensures forall i :: 0 <= i < |r| ==> r[i] == Entry(names[i], weights[i])
  {
    if |names| == 0 || |weights| == 0 then []
    else [Entry(names[0], weights[0])] + Zip(names[1..], weights[1..])
  }

  function Names(d: seq<Entry>): set<string> {
    set i | 0 <= i < |d| :: d[i].name
  }

  predicate DistinctNames(d: seq<Entry>) {
    forall i, j :: 0 <= i < j < |d| ==> d[i].name != d[j].name
  }

  lemma NamesCons(x: Entry, rest: seq<Entry>)
    ensures Names([x] + rest) == {x.name} + Names(rest)
  {
    var r := [x] + rest;
    assert r[0].name == x.name;
    forall n | n in Names(r) ensures n in {x.name} + Names(rest) {
      var i :| 0 <= i < |r| && r[i].name == n;
      if i > 0 { assert rest[i - 1].name == n; }
    }
    forall n | n in Names(rest) ensures n in Names(r) {
      var i :| 0 <= i < |rest| && rest[i].name == n;
      assert r[i + 1].name == n;
    }
  }

  /** `d[e.name] = e.weight` on an insertion-ordered dictionary: an existing
      key keeps its place and takes the new value; a new key goes last. */
  function Put(d: seq<Entry>, e: Entry): (r: seq<Entry>)
    ensures Names(r) == Names(d) + {e.name}
    ensures DistinctNames(d) ==> DistinctNames(r)
    ensures e in r
    ensures forall x :: x in r ==> x == e || x in d
    ensures e.name !in Names(d) ==> r == d + [e]
  {
    if |d| == 0 then
      NamesCons(e, []);
      [e]
    else if d[0].name == e.name then
      PutAtHead(d, e);
      [e] + d[1..]
    else
      var rest := Put(d[1..], e);
      PutBehindHead(d, e, rest);
      [d[0]] + rest
  }

  /** The case of `Put` where the key is the first one. */
  lemma PutAtHead(d: seq<Entry>, e: Entry)
    requires |d| > 0 && d[0].name == e.name
    ensures Names([e] + d[1..]) == Names(d) + {e.name}
    ensures DistinctNames(d) ==> DistinctNames([e] + d[1..])
    ensures forall x :: x in [e] + d[1..] ==> x == e || x in d
    ensures e.name in Names(d)
  {
    NamesCons(d[0], d[1..]);
    NamesCons(e, d[1..]);
    assert d == [d[0]] + d[1..];
    if DistinctNames(d) {
      var r := [e] + d[1..];
      forall i, j | 0 <= i < j < |r| ensures r[i].name != r[j].name {
        assert r[i].name == d[i].name && r[j].name == d[j].name;
      }
    }
  }

  /** The case of `Put` where the key is not the first one: `rest` is the
      result of putting `e` into the tail. */
  lemma PutBehindHead(d: seq<Entry>, e: Entry, rest: seq<Entry>)
    requires |d| > 0 && d[0].name != e.name
    requires Names(rest) == Names(d[1..]) + {e.name}
    requires DistinctNames(d[1..]) ==> DistinctNames(rest)
    requires e in rest
    requires forall x :: x in rest ==> x == e || x in d[1..]
    requires e.name !in Names(d[1..]) ==> rest == d[1..] + [e]
    ensures Names([d[0]] + rest) == Names(d) + {e.name}
    ensures DistinctNames(d) ==> DistinctNames([d[0]] + rest)
    ensures forall x :: x in [d[0]] + rest ==> x == e || x in d
    ensures e.name !in Names(d) ==> [d[0]] + rest == d + [e]
  {
    NamesCons(d[0], d[1..]);
    NamesCons(d[0], rest);
    assert d == [d[0]] + d[1..];
    if DistinctNames(d) {
      DistinctTail(d);
      DistinctCons(d[0], rest);
    }
    if e.name !in Names(d) {
      assert [d[0]] + (d[1..] + [e]) == d + [e];
    }
  }

  /** The tail of a list with distinct names has distinct names, none of
      them the head's. */
  lemma DistinctTail(d: seq<Entry>)
    requires |d| > 0 && DistinctNames(d)
    ensures DistinctNames(d[1..])
    ensures d[0].name !in Names(d[1..])
  {
    var tail := d[1..];
    forall i, j | 0 <= i < j < |tail| ensures tail[i].name != tail[j].name {
      assert tail[i] == d[i + 1] && tail[j] == d[j + 1];
    }
    forall k | 0 <= k < |tail| ensures tail[k].name != d[0].name {
      assert tail[k] == d[k + 1];
    }
  }

  /** An entry whose name a list with distinct names lacks can go in front. */
  lemma DistinctCons(x: Entry, rest: seq<Entry>)
    requires DistinctNames(rest) && x.name !in Names(rest)
    ensures DistinctNames([x] + rest)
  {
    var r := [x] + rest;
    forall i, j | 0 <= i < j < |r| ensures r[i].name != r[j].name {
      assert r[j] == rest[j - 1];
      if i > 0 {
        assert r[i] == rest[i - 1];
      }
    }
  }

  /** `dict(pairs)`: the pairs entered one after the other. */
  function DictOf(pairs: seq<Entry>): (r: seq<Entry>)
    ensures DistinctNames(r)
    ensures Names(r) == Names(pairs)
    ensures forall x :: x in r ==> x in pairs
    ensures DistinctNames(pairs) ==> r == pairs
  {
    if |pairs| == 0 then []
    else
      var init := pairs[..|pairs| - 1];
      var last := pairs[|pairs| - 1];
      assert pairs == init + [last];
      assert Names(pairs) == Names(init) + {last.name} by {
        forall n | n in Names(pairs) ensures n in Names(init) + {last.name} {
          var i :| 0 <= i < |pairs| && pairs[i].name == n;
          if i < |pairs| - 1 { assert init[i].name == n; }
        }
        forall n | n in Names(init) ensures n in Names(pairs) {
          var i :| 0 <= i < |init| && init[i].name == n;
          assert pairs[i].name == n;
        }
      }
      Put(DictOf(init), last)
  }

  /** The `feature_importance` of `train_model`: `dict` of the top ten of
      `dict(zip(feature_names, normalised importances))`. */
  function FeatureImportance(importances: seq<real>, onehotColumns: seq<string>): (r: seq<Entry>)
    ensures |r| <= ReportSize
    ensures DistinctNames(r)
    ensures NonIncreasing(r, Weight)
    ensures var full := DictOf(Zip(FeatureNames(onehotColumns), Normalize(importances)));
            && |r| == (if |full| < ReportSize then |full| else ReportSize)
            && (forall x :: x in r ==> x in full)
            && (forall x, y :: x in r && y in full && y !in r ==> x.weight >= y.weight)
            && (forall v :: WithKey(r, Weight, v) <= WithKey(full, Weight, v))
  {
    var full := DictOf(Zip(FeatureNames(onehotColumns), Normalize(importances)));
    var top := Top(full, ReportSize, Weight);
    SubMultisetKeepsDistinct(top, full);
    assert DictOf(top) == top;
    forall x, y | x in top && y in full && y !in top ensures x.weight >= y.weight {
      assert Weight(x) >= Weight(y);
    }
    DictOf(top)
  }

  /** Part of a list with distinct names has distinct names and only
      entries of the list. */
  lemma SubMultisetKeepsDistinct(r: seq<Entry>, d: seq<Entry>)
    requires DistinctNames(d) && multiset(r) <= multiset(d)
    ensures forall x :: x in r ==> x in d
    ensures DistinctNames(r)
  {
    forall x | x in r ensures x in d {
      assert x in multiset(r);
    }
    forall i, j | 0 <= i < j < |r| ensures r[i].name != r[j].name {
      if r[i].name == r[j].name {
        SameNameSameEntry(d, r[i], r[j]);
        TwiceCountsTwice(r, i, j);
        var a :| 0 <= a < |d| && d[a] == r[i];
        DistinctCountsOnce(d, a);
      }
    }
  }

  lemma SameNameSameEntry(d: seq<Entry>, x: Entry, y: Entry)
    requires DistinctNames(d) && x in d && y in d && x.name == y.name
    ensures x == y
  {
  }

  lemma TwiceCountsTwice(r: seq<Entry>, i: nat, j: nat)
    requires i < j < |r| && r[i] == r[j]
    ensures multiset(r)[r[i]] >= 2
  {
    assert r == r[..i] + [r[i]] + r[i + 1..j] + [r[j]] + r[j + 1..];
  }

  /** In a list with distinct names each entry occurs once. */
  lemma {:induction false} DistinctCountsOnce(d: seq<Entry>, a: nat)
    requires DistinctNames(d) && a < |d|
    ensures multiset(d)[d[a]] == 1
  {
    assert d == [d[0]] + d[1..];
    if a == 0 {
      assert d[0] !in d[1..] by {
        forall j | 0 <= j < |d[1..]| ensures d[1..][j] != d[0] {
          assert d[j + 1].name != d[0].name;
        }
      }
    } else {
      DistinctCountsOnce(d[1..], a - 1);
      assert d[a] != d[0] by { assert d[a].name != d[0].name; }
    }
  }

  /** With distinct column names, which is what the encoder produces, every
      column keeps its normalised importance in the full dictionary. */
  lemma FullDictionaryIsZip(importances: seq<real>, onehotColumns: seq<string>)
    requires DistinctNames(Zip(FeatureNames(onehotColumns), Normalize(importances)))
    ensures DictOf(Zip(FeatureNames(onehotColumns), Normalize(importances)))
            == Zip(FeatureNames(onehotColumns), Normalize(importances))
  {
  }
}
