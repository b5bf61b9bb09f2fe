/**
 * Tallies keyed by a string into an insertion-ordered dictionary: the
 * `bet_types` dictionaries of the performance tracker and of the
 * performance-tracking route. Each item is a key and a value to add up.
 */
module Grouping {

  /** The distinct keys in order of first appearance (the dictionary's key order). */
  function Keys(items: seq<(string, real)>): (ks: seq<string>)
    ensures forall k :: k in ks <==> exists i :: 0 <= i < |items| && items[i].0 == k
    ensures forall i, j :: 0 <= i < j < |ks| ==> ks[i] != ks[j]
    ensures |ks| <= |items|
  {
    if items == [] then []
    else
      var prev := Keys(items[..|items| - 1]);
      var k := items[|items| - 1].0;
      assert forall i :: 0 <= i < |items| - 1 ==> items[..|items| - 1][i] == items[i];
      if k in prev then prev else prev + [k]
  }

  /** How many items carry key `k`. */
  function CountOf(items: seq<(string, real)>, k: string): nat
  {
    if items == [] then 0
    else CountOf(items[..|items| - 1], k) + (if items[|items| - 1].0 == k then 1 else 0)
  }

  /** The sum of the values of the items with key `k`. */
  function SumOf(items: seq<(string, real)>, k: string): real
  {
    if items == [] then 0.0
    else SumOf(items[..|items| - 1], k) + (if items[|items| - 1].0 == k then items[|items| - 1].1 else 0.0)
  }

  lemma {:induction false} SumOfAbsent(items: seq<(string, real)>, k: string)
    requires k !in Keys(items)
    ensures SumOf(items, k) == 0.0
  {
    if items != [] {
      assert forall i :: 0 <= i < |items| - 1 ==> items[..|items| - 1][i] == items[i];
      SumOfAbsent(items[..|items| - 1], k);
    }
  }

  /** The counts of the keys `ks`, added up. */
  function SumCounts(ks: seq<string>, items: seq<(string, real)>): nat
  {
    if ks == [] then 0 else SumCounts(ks[..|ks| - 1], items) + CountOf(items, ks[|ks| - 1])
  }

  lemma {:induction false} CountOfPositive(items: seq<(string, real)>, k: string)
    ensures CountOf(items, k) > 0 <==> k in Keys(items)
  {
    if items != [] {
      CountOfPositive(items[..|items| - 1], k);
    }
  }

  /** Adding an item with key `k` adds one to the total over `ks` iff `k` is one of them. */
  lemma {:induction false} SumCountsStep(ks: seq<string>, items: seq<(string, real)>, item: (string, real))
    requires forall i, j :: 0 <= i < j < |ks| ==> ks[i] != ks[j]
    ensures SumCounts(ks, items + [item]) == SumCounts(ks, items) + (if item.0 in ks then 1 else 0)
  {
    var extended := items + [item];
    assert extended[..|extended| - 1] == items;
    if ks != [] {
      var init := ks[..|ks| - 1];
      assert forall i, j :: 0 <= i < j < |init| ==> init[i] != init[j];
      SumCountsStep(init, items, item);
      assert item.0 in ks <==> item.0 in init || item.0 == ks[|ks| - 1];
      if item.0 == ks[|ks| - 1] {
        assert item.0 !in init;
      }
    }
  }

  /** Every item is counted exactly once: the counts of the keys add up to the number of items. */
  lemma {:induction false} CountsCoverItems(items: seq<(string, real)>)
    ensures SumCounts(Keys(items), items) == |items|
  {
    if items != [] {
      var prev := items[..|items| - 1];
      var item := items[|items| - 1];
      assert items == prev + [item];
      CountsCoverItems(prev);
      SumCountsStep(Keys(prev), prev, item);
      if item.0 !in Keys(prev) {
        CountOfPositive(prev, item.0);
        var ks := Keys(items);
        assert ks[..|ks| - 1] == Keys(prev);
      }
    }
  }

  /** What one more item does to the keys, the counts and the totals. */
  lemma GroupStep(items: seq<(string, real)>, i: nat)
    requires i < |items|
    ensures var prefix, next, k := items[..i], items[..i + 1], items[i].0;
      && Keys(next) == (if k in Keys(prefix) then Keys(prefix) else Keys(prefix) + [k])
      && (forall key :: CountOf(next, key) == CountOf(prefix, key) + (if key == k then 1 else 0))
      && (forall key :: SumOf(next, key) == SumOf(prefix, key) + (if key == k then items[i].1 else 0.0))
  {
    assert items[..i + 1][..i] == items[..i];
  }

  /** One dictionary entry: how many items had the key and the sum of their values. */
  datatype Tally = Tally(count: nat, total: real)

  /** The dictionary `keys`/`tallies` describes exactly the items `seen`. */
  ghost predicate Describes(keys: seq<string>, tallies: map<string, Tally>, seen: seq<(string, real)>)
  {
    && keys == Keys(seen)
    && (forall k :: k in tallies <==> k in keys)
    && (forall k :: k in tallies ==> tallies[k] == Tally(CountOf(seen, k), SumOf(seen, k)))
  }

  /** One turn of the dictionary loop: create the entry if the key is new, then add to it. */
  method AddItem(keys: seq<string>, tallies: map<string, Tally>, items: seq<(string, real)>, i: nat)
    returns (keys': seq<string>, tallies': map<string, Tally>)
    requires i < |items| && Describes(keys, tallies, items[..i])
    ensures Describes(keys', tallies', items[..i + 1])
  {
    var prefix, next := items[..i], items[..i + 1];
    var k, v := items[i].0, items[i].1;
    GroupStep(items, i);
    keys', tallies' := keys, tallies;
    if k !in tallies' {
      CountOfPositive(prefix, k);
      SumOfAbsent(prefix, k);
      keys' := keys' + [k];
      tallies' := tallies'[k := Tally(0, 0.0)];
    }
    ghost var before := tallies';
    assert before[k] == Tally(CountOf(prefix, k), SumOf(prefix, k));
    tallies' := tallies'[k := Tally(tallies'[k].count + 1, tallies'[k].total + v)];
    forall key | key in tallies' ensures tallies'[key] == Tally(CountOf(next, key), SumOf(next, key)) {
      if key != k {
        assert tallies'[key] == before[key];
      }
    }
  }

  /** The dictionary loop: keys in first-appearance order, a count and a running total per key. */
  method GroupByKey(items: seq<(string, real)>) returns (keys: seq<string>, tallies: map<string, Tally>)
    ensures keys == Keys(items)
    ensures forall k :: k in tallies <==> k in keys
    ensures forall k :: k in tallies ==> tallies[k] == Tally(CountOf(items, k), SumOf(items, k))
    ensures forall k :: k in tallies ==> tallies[k].count > 0
  {
    keys, tallies := [], map[];
    var i := 0;
    while i < |items|
      invariant 0 <= i <= |items|
      invariant Describes(keys, tallies, items[..i])
    {
      keys, tallies := AddItem(keys, tallies, items, i);
      i := i + 1;
    }
    assert items[..|items|] == items;
    forall k | k in tallies ensures tallies[k].count > 0 {
      CountOfPositive(items, k);
    }
  }
}
