/**
 * Aggregation of the inflation rights an issuance operation assigns: the
 * enumerated list of (seal, amount) assignments is folded, left to right,
 * into a map from resolved seal to the summed amount and the positions of
 * the assignments that target it.
 */
module InflationFold {
  import opened Wrappers
  import opened Operations
  import opened AssetError

  /** Assignment positions are stored as `u16`, so at most 2^16 of them fit. */
  const MAX_ASSIGNMENTS: int := 0x1_0000

  /** Maximum inflation allowed through one seal, and the assignment indices granting it. */
  datatype InflationEntry = InflationEntry(amount: AtomicValue, indices: seq<U16>)

  type InflationMap = map<OutPoint, InflationEntry>

  /** Sum of all amounts of a list of assignments. */
  function Total<K>(pairs: seq<(K, AtomicValue)>): nat
    decreases |pairs|
  {
    if |pairs| == 0 then 0 else Total(pairs[..|pairs| - 1]) + pairs[|pairs| - 1].1
  }

  /** The assignments can be folded without the index cast or the sum overflowing. */
  predicate Fits<K>(pairs: seq<(K, AtomicValue)>) {
    |pairs| <= MAX_ASSIGNMENTS && Total(pairs) <= U64_MAX
  }

  /** Sum of the amounts of the assignments whose seal is `k`. */
  function SumFor(pairs: seq<(OutPoint, AtomicValue)>, k: OutPoint): nat
    decreases |pairs|
  {
    if |pairs| == 0 then 0
    else
      var n := |pairs| - 1;
      SumFor(pairs[..n], k) + (if pairs[n].0 == k then pairs[n].1 else 0)
  }

  /** The seals that some assignment targets. */
  ghost function Seals(pairs: seq<(OutPoint, AtomicValue)>): set<OutPoint> {
    set i | 0 <= i < |pairs| :: pairs[i].0
  }

  predicate StrictlyIncreasing(s: seq<U16>) {
    forall i, j :: 0 <= i < j < |s| ==> s[i] < s[j]
  }

  /** `indices` lists, in increasing order, exactly the positions of the assignments to `k`. */
  ghost predicate PositionsOf(pairs: seq<(OutPoint, AtomicValue)>, k: OutPoint, indices: seq<U16>) {
    && StrictlyIncreasing(indices)
    && forall i: int :: i in indices <==> 0 <= i < |pairs| && pairs[i].0 == k
  }

  /**
   * The functional specification of the fold: one entry per targeted seal,
   * holding the sum of that seal's amounts and the ordered list of its
   * assignment positions.
   */
  ghost predicate Summarises(m: InflationMap, pairs: seq<(OutPoint, AtomicValue)>) {
    && m.Keys == Seals(pairs)
    && forall k :: k in m ==> m[k].amount == SumFor(pairs, k) && PositionsOf(pairs, k, m[k].indices)
  }

  /** One step of the fold: add `amount` and `index` to the entry of `seal`, creating it empty first. */
  function Accumulate(acc: InflationMap, seal: OutPoint, index: U16, amount: AtomicValue): (r: InflationMap)
    requires seal in acc ==> acc[seal].amount + amount <= U64_MAX
    ensures r.Keys == acc.Keys + {seal}
    ensures forall k :: k in acc && k != seal ==> r[k] == acc[k]
    ensures seal in acc ==> r[seal].amount == acc[seal].amount + amount && r[seal].indices == acc[seal].indices + [index]
    ensures seal !in acc ==> r[seal] == InflationEntry(amount, [index])
  {
    var item := if seal in acc then acc[seal] else InflationEntry(0, []);
    acc[seal := InflationEntry(item.amount + amount, item.indices + [index])]
  }

  /** The fold over the enumerated assignments, starting from the empty map. */
  function Aggregate(pairs: seq<(OutPoint, AtomicValue)>): (r: InflationMap)
    requires Fits(pairs)
    ensures Summarises(r, pairs)
    decreases |pairs|
  {
    if |pairs| == 0 then map[]
    else
      var n := |pairs| - 1;
      var acc := Aggregate(pairs[..n]);
      AccumulateStep(acc, pairs);
      Accumulate(acc, pairs[n].0, n, pairs[n].1)
  }

  lemma {:induction false} SumForBounded(pairs: seq<(OutPoint, AtomicValue)>, k: OutPoint)
    ensures SumFor(pairs, k) <= Total(pairs)
    decreases |pairs|
  {
    if |pairs| > 0 {
      SumForBounded(pairs[..|pairs| - 1], k);
    }
  }

  lemma {:induction false} SumForAbsent(pairs: seq<(OutPoint, AtomicValue)>, k: OutPoint)
    requires k !in Seals(pairs)
    ensures SumFor(pairs, k) == 0
    decreases |pairs|
  {
    if |pairs| > 0 {
      var n := |pairs| - 1;
      SealsSnoc(pairs);
      SumForAbsent(pairs[..n], k);
    }
  }

  lemma SealsSnoc(pairs: seq<(OutPoint, AtomicValue)>)
    requires |pairs| > 0
    ensures Seals(pairs) == Seals(pairs[..|pairs| - 1]) + {pairs[|pairs| - 1].0}
  {
    var n := |pairs| - 1;
    var prefix := pairs[..n];
    forall k | k in Seals(pairs) ensures k in Seals(prefix) + {pairs[n].0} {
      var i :| 0 <= i < |pairs| && pairs[i].0 == k;
      if i < n {
        assert prefix[i].0 == k;
      }
    }
    forall k | k in Seals(prefix) ensures k in Seals(pairs) {
      var i :| 0 <= i < n && prefix[i].0 == k;
      assert pairs[i].0 == k;
    }
  }

  /** A seal no assignment targets has no positions and a zero sum. */
  lemma AbsentSeal(pairs: seq<(OutPoint, AtomicValue)>, k: OutPoint)
    requires k !in Seals(pairs)
    ensures SumFor(pairs, k) == 0 && PositionsOf(pairs, k, [])
  {
    SumForAbsent(pairs, k);
    forall i | 0 <= i < |pairs| ensures pairs[i].0 != k {
      assert pairs[i].0 in Seals(pairs);
    }
  }

  /** Appending an assignment appends its position to its own seal's list and to no other. */
  lemma PositionsSnoc(pairs: seq<(OutPoint, AtomicValue)>, k: OutPoint, indices: seq<U16>)
    requires 0 < |pairs| <= MAX_ASSIGNMENTS
    requires PositionsOf(pairs[..|pairs| - 1], k, indices)
    ensures PositionsOf(pairs, k, if pairs[|pairs| - 1].0 == k then indices + [|pairs| - 1] else indices)
  {
    var n := |pairs| - 1;
    var prefix := pairs[..n];
    var after: seq<U16> := if pairs[n].0 == k then indices + [n] else indices;
    forall i: int ensures i in after <==> 0 <= i < |pairs| && pairs[i].0 == k {
      if 0 <= i < n {
        assert pairs[i] == prefix[i];
      }
    }
    forall i, j | 0 <= i < j < |after| ensures after[i] < after[j] {
      if j >= |indices| {
        assert indices[i] in indices;
      }
    }
  }

  /** Accumulating the last assignment into a summary of the others summarises them all. */
  lemma AccumulateStep(acc: InflationMap, pairs: seq<(OutPoint, AtomicValue)>)
    requires 0 < |pairs| && Fits(pairs)
    requires Summarises(acc, pairs[..|pairs| - 1])
    ensures pairs[|pairs| - 1].0 in acc ==> acc[pairs[|pairs| - 1].0].amount + pairs[|pairs| - 1].1 <= U64_MAX
    ensures Summarises(Accumulate(acc, pairs[|pairs| - 1].0, |pairs| - 1, pairs[|pairs| - 1].1), pairs)
  {
    var n := |pairs| - 1;
    var prefix := pairs[..n];
    var seal, amount := pairs[n].0, pairs[n].1;
    SumForBounded(prefix, seal);
    var r := Accumulate(acc, seal, n, amount);
    SealsSnoc(pairs);
    forall k | k in r
      ensures r[k].amount == SumFor(pairs, k) && PositionsOf(pairs, k, r[k].indices)
    {
      var before := if k in acc then acc[k] else InflationEntry(0, []);
      if k !in acc {
        AbsentSeal(prefix, k);
      }
      PositionsSnoc(pairs, k, before.indices);
    }
  }

  /** Sum of the amounts of the entries of `m` under `keys`. */
  ghost function SumOver(m: InflationMap, keys: set<OutPoint>): nat
    requires keys <= m.Keys
    decreases keys
  {
    if keys == {} then 0
    else
      var k :| k in keys;
      m[k].amount + SumOver(m, keys - {k})
  }

  /** Sum of the amounts of all entries of an inflation map. */
  ghost function EntryTotal(m: InflationMap): nat {
    SumOver(m, m.Keys)
  }

  /** `SumOver` does not depend on which key its definition picks first. */
  lemma {:induction false} SumOverRemove(m: InflationMap, keys: set<OutPoint>, k: OutPoint)
    requires keys <= m.Keys && k in keys
    ensures SumOver(m, keys) == m[k].amount + SumOver(m, keys - {k})
    decreases keys
  {
    var k' :| k' in keys && SumOver(m, keys) == m[k'].amount + SumOver(m, keys - {k'});
    if k' != k {
      SumOverRemove(m, keys - {k'}, k);
      SumOverRemove(m, keys - {k}, k');
      assert keys - {k'} - {k} == keys - {k} - {k'};
    }
  }

  /** Maps that agree on `keys` have the same sum over them. */
  lemma {:induction false} SumOverAgree(m1: InflationMap, m2: InflationMap, keys: set<OutPoint>)
    requires keys <= m1.Keys && keys <= m2.Keys
    requires forall k :: k in keys ==> m1[k] == m2[k]
    ensures SumOver(m1, keys) == SumOver(m2, keys)
    decreases keys
  {
    if keys != {} {
      var k :| k in keys;
      SumOverRemove(m1, keys, k);
      SumOverRemove(m2, keys, k);
      SumOverAgree(m1, m2, keys - {k});
    }
  }

  /** The entries of the aggregated map together carry exactly the total of all assignments. */
  lemma {:induction false} AggregatePreservesTotal(pairs: seq<(OutPoint, AtomicValue)>)
    requires Fits(pairs)
    ensures EntryTotal(Aggregate(pairs)) == Total(pairs)
    decreases |pairs|
  {
    if |pairs| > 0 {
      var n := |pairs| - 1;
      var seal := pairs[n].0;
      var acc := Aggregate(pairs[..n]);
      AggregatePreservesTotal(pairs[..n]);
      AccumulateStep(acc, pairs);
      AccumulateAddsAmount(acc, seal, n, pairs[n].1);
    }
  }

  /** One fold step raises the total of the entries by exactly the accumulated amount. */
  lemma AccumulateAddsAmount(acc: InflationMap, seal: OutPoint, index: U16, amount: AtomicValue)
    requires seal in acc ==> acc[seal].amount + amount <= U64_MAX
    ensures EntryTotal(Accumulate(acc, seal, index, amount)) == EntryTotal(acc) + amount
  {
    var r := Accumulate(acc, seal, index, amount);
    SumOverRemove(r, r.Keys, seal);
    assert r.Keys - {seal} == acc.Keys - {seal};
    SumOverAgree(r, acc, acc.Keys - {seal});
    if seal in acc {
      SumOverRemove(acc, acc.Keys, seal);
    } else {
      assert acc.Keys - {seal} == acc.Keys;
    }
  }

  /** Every assignment position appears in exactly one entry: the one of its own seal. */
  lemma IndexListsPartition(pairs: seq<(OutPoint, AtomicValue)>, m: InflationMap)
    requires Summarises(m, pairs)
    ensures forall i :: 0 <= i < |pairs| ==> pairs[i].0 in m && i in m[pairs[i].0].indices
    ensures forall k, i :: k in m && i in m[k].indices ==> 0 <= i < |pairs| && pairs[i].0 == k
  {
    forall i | 0 <= i < |pairs| ensures pairs[i].0 in m {
      assert pairs[i].0 in Seals(pairs);
    }
  }

  /** Two strictly increasing lists with the same elements are equal. */
  lemma {:induction false} IncreasingListsUnique(a: seq<U16>, b: seq<U16>)
    requires StrictlyIncreasing(a) && StrictlyIncreasing(b)
    requires forall x: int :: x in a <==> x in b
    ensures a == b
    decreases |a|
  {
    if |a| > 0 {
      assert a[0] in b;
    }
    if |b| > 0 {
      assert b[0] in a;
    }
    if |a| > 0 {
      assert a[0] == b[0];
      forall x: int ensures x in a[1..] <==> x in b[1..] {
        if x in a[1..] {
          assert x in a && x != a[0];
        }
        if x in b[1..] {
          assert x in b && x != b[0];
        }
      }
      IncreasingListsUnique(a[1..], b[1..]);
      assert a == [a[0]] + a[1..];
      assert b == [b[0]] + b[1..];
    }
  }

  /** The specification pins the map down: at most one map summarises a list of assignments. */
  lemma SummaryIsUnique(m1: InflationMap, m2: InflationMap, pairs: seq<(OutPoint, AtomicValue)>)
    requires Summarises(m1, pairs) && Summarises(m2, pairs)
    ensures m1 == m2
  {
    forall k | k in m1 ensures m1[k] == m2[k] {
      IncreasingListsUnique(m1[k].indices, m2[k].indices);
    }
  }

  /** Two assignments of 30 and 70 to one seal, around one of 5 to another, give (100, [0, 2]) and (5, [1]). */
  lemma SameSealAmountsAreSummed(a: OutPoint, b: OutPoint)
    requires a != b
    ensures Fits([(a, 30), (b, 5), (a, 70)])
    ensures Aggregate([(a, 30), (b, 5), (a, 70)])
         == map[a := InflationEntry(100, [0, 2]), b := InflationEntry(5, [1])]
  {
    var pairs: seq<(OutPoint, AtomicValue)> := [(a, 30), (b, 5), (a, 70)];
    assert pairs[..2] == [(a, 30), (b, 5)];
    TwoSealsAggregate(a, b);
    assert Total(pairs) == 105;
    var m2 := Aggregate(pairs[..2]);
    assert Aggregate(pairs) == Accumulate(m2, a, 2, 70);
    var zero: seq<U16> := [0];
    assert zero + [2] == [0, 2];
    assert Accumulate(m2, a, 2, 70) == m2[a := InflationEntry(100, [0, 2])];
  }

  lemma TwoSealsAggregate(a: OutPoint, b: OutPoint)
    requires a != b
    ensures Fits([(a, 30), (b, 5)]) && Total([(a, 30), (b, 5)]) == 35
    ensures Aggregate([(a, 30), (b, 5)]) == map[a := InflationEntry(30, [0]), b := InflationEntry(5, [1])]
  {
    var pairs: seq<(OutPoint, AtomicValue)> := [(a, 30), (b, 5)];
    assert pairs[..1] == [(a, 30)];
    assert pairs[..1][..0] == [];
    assert Total(pairs[..1]) == Total(pairs[..1][..0]) + 30 == 30;
    assert Total(pairs) == 35;
    assert Aggregate(pairs[..1]) == map[a := InflationEntry(30, [0])];
    assert Aggregate(pairs) == Accumulate(Aggregate(pairs[..1]), b, 1, 5);
  }

  /** Rebinding the seals of a list of assignments keeps its total. */
  lemma {:induction false} RekeyKeepsTotal<A, B>(xs: seq<(A, AtomicValue)>, ys: seq<(B, AtomicValue)>)
    requires |xs| == |ys|
    requires forall i :: 0 <= i < |xs| ==> ys[i].1 == xs[i].1
    ensures Total(ys) == Total(xs)
    decreases |xs|
  {
    if |xs| > 0 {
      RekeyKeepsTotal(xs[..|xs| - 1], ys[..|ys| - 1]);
    }
  }

  /** The assignments with every seal resolved against the witness transaction. */
  function RevealAll(xs: seq<(Seal, AtomicValue)>, revealSeal: (Seal, Txid) -> OutPoint, witnessTx: Txid)
    : (r: seq<(OutPoint, AtomicValue)>)
    ensures |r| == |xs| && Total(r) == Total(xs)
    ensures forall i :: 0 <= i < |xs| ==> r[i] == (revealSeal(xs[i].0, witnessTx), xs[i].1)
  {
    var r := seq(|xs|, i requires 0 <= i < |xs| => (revealSeal(xs[i].0, witnessTx), xs[i].1));
    RekeyKeepsTotal(xs, r);
    r
  }

  /** Every seal of the list resolves to an outpoint. */
  predicate AllResolve(xs: seq<(Seal, AtomicValue)>, resolve: Seal -> Option<OutPoint>) {
    forall i :: 0 <= i < |xs| ==> resolve(xs[i].0).Some?
  }

  /** The assignments with every seal resolved, when all of them resolve. */
  function ResolveAll(xs: seq<(Seal, AtomicValue)>, resolve: Seal -> Option<OutPoint>)
    : (r: seq<(OutPoint, AtomicValue)>)
    requires AllResolve(xs, resolve)
    ensures |r| == |xs| && Total(r) == Total(xs)
    ensures forall i :: 0 <= i < |xs| ==> r[i] == (resolve(xs[i].0).value, xs[i].1)
  {
    var r := seq(|xs|, i requires 0 <= i < |xs| => (resolve(xs[i].0).value, xs[i].1));
    RekeyKeepsTotal(xs, r);
    r
  }

  lemma AllResolveSnoc(xs: seq<(Seal, AtomicValue)>, resolve: Seal -> Option<OutPoint>)
    requires |xs| > 0
    ensures AllResolve(xs, resolve)
        <==> AllResolve(xs[..|xs| - 1], resolve) && resolve(xs[|xs| - 1].0).Some?
  {
    var n := |xs| - 1;
    if AllResolve(xs[..n], resolve) && resolve(xs[n].0).Some? {
      forall i | 0 <= i < |xs| ensures resolve(xs[i].0).Some? {
        if i < n {
          assert xs[i] == xs[..n][i];
        }
      }
    }
  }

  /** Accumulating the last resolved seal into a summary of the others summarises them all. */
  lemma TryAggregateStep(acc: InflationMap, xs: seq<(Seal, AtomicValue)>, resolve: Seal -> Option<OutPoint>)
    requires 0 < |xs| && Fits(xs) && AllResolve(xs, resolve)
    requires Summarises(acc, ResolveAll(xs[..|xs| - 1], resolve))
    ensures var (seal, amount) := (resolve(xs[|xs| - 1].0).value, xs[|xs| - 1].1);
      && (seal in acc ==> acc[seal].amount + amount <= U64_MAX)
      && Summarises(Accumulate(acc, seal, |xs| - 1, amount), ResolveAll(xs, resolve))
  {
    var n := |xs| - 1;
    var pairs := ResolveAll(xs, resolve);
    assert pairs[..n] == ResolveAll(xs[..n], resolve);
    AccumulateStep(acc, pairs);
  }

  /**
   * The fallible fold used for genesis: seals are resolved one by one while
   * folding, and the first seal that does not resolve aborts the fold.
   */
  function TryAggregate(xs: seq<(Seal, AtomicValue)>, resolve: Seal -> Option<OutPoint>)
    : (r: Result<InflationMap, Error>)
    requires Fits(xs)
    ensures r.Success? <==> AllResolve(xs, resolve)
    ensures r.Failure? ==> r.error == SealUnresolved
    ensures r.Success? ==> Summarises(r.value, ResolveAll(xs, resolve))
    decreases |xs|
  {
    if |xs| == 0 then Success(map[])
    else
      var n := |xs| - 1;
      AllResolveSnoc(xs, resolve);
      match TryAggregate(xs[..n], resolve)
      case Failure(e) => Failure(e)
      case Success(acc) =>
        match resolve(xs[n].0)
        case None => Failure(SealUnresolved)
        case Some(seal) =>
          TryAggregateStep(acc, xs, resolve);
          Success(Accumulate(acc, seal, n, xs[n].1))
  }
}
