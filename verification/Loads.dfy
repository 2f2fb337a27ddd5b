/** Van loads: nearest-expiry-first normalisation keeps the goods and settles. */
module Loads {
  import opened Fefo
  import opened Ledger
  import opened Money
  import opened TableLemmas
  import opened Tables
  import opened Wrappers

  lemma {:induction false} SumSplits<T>(xs: seq<T>, w: T -> real, i: nat)
    requires i < |xs|
    ensures SumOf(xs, w) == SumOf(xs[..i] + xs[i + 1..], w) + w(xs[i])
  {
    assert xs == xs[..i] + ([xs[i]] + xs[i + 1..]);
    SumConcat(xs[..i], [xs[i]] + xs[i + 1..], w);
    SumConcat([xs[i]], xs[i + 1..], w);
    SumOne(xs[i], w);
    SumConcat(xs[..i], xs[i + 1..], w);
  }

  lemma RestPermutes<T>(xs: seq<T>, ys: seq<T>, i: nat)
    requires xs != [] && multiset(xs) == multiset(ys) && i < |ys| && ys[i] == xs[0]
    ensures multiset(xs[1..]) == multiset(ys[..i] + ys[i + 1..])
  {
    assert xs == [xs[0]] + xs[1..];
    assert ys == ys[..i] + [ys[i]] + ys[i + 1..];
    assert multiset(xs) == multiset{xs[0]} + multiset(xs[1..]);
    assert multiset(ys) == multiset{xs[0]} + multiset(ys[..i] + ys[i + 1..]);
    assert multiset(xs[1..]) == multiset(xs) - multiset{xs[0]};
  }

  /** Reordering does not change a total. */
  lemma {:induction false} SumPermutes<T>(xs: seq<T>, ys: seq<T>, w: T -> real)
    requires multiset(xs) == multiset(ys)
    ensures SumOf(xs, w) == SumOf(ys, w)
    decreases |xs|
  {
    assert |xs| == |multiset(xs)| == |multiset(ys)| == |ys|;
    if xs != [] {
      assert xs[0] in multiset(ys);
      var i :| 0 <= i < |ys| && ys[i] == xs[0];
      RestPermutes(xs, ys, i);
      SumPermutes(xs[1..], ys[..i] + ys[i + 1..], w);
      SumSplits(xs, w, 0);
      SumSplits(ys, w, i);
      assert xs[..0] + xs[1..] == xs[1..];
    }
  }

  /** Sorting the batches loses no goods. */
  lemma SortKeepsTotal(batches: seq<LoadBatch>)
    ensures SumOf(SortByExpiry(batches, BatchExpiry), BatchQuantity) == SumOf(batches, BatchQuantity)
  {
    SortIsStable(batches, BatchExpiry);
    SumPermutes(SortByExpiry(batches, BatchExpiry), batches, BatchQuantity);
  }

  /** A blank headline batch becomes one of nearest expiry, and a blank quantity
      the total of the batches as they came. */
  lemma NormalisedHeadline(v: VanLoad, k: nat)
    requires NormaliseVanLoad(v).Success? && v.batches != []
    requires k < |NormaliseVanLoad(v).value.batches|
    ensures var n := NormaliseVanLoad(v).value;
      && n.batches != [] && multiset(n.batches) == multiset(v.batches)
      && !Before(n.batches[k].expiry, n.batches[0].expiry)
      && (v.batch == "" ==> n.batch == n.batches[0].batch && n.expiry == n.batches[0].expiry)
      && (v.quantity <= 0.0 ==> n.quantity == Round2(SumOf(v.batches, BatchQuantity)))
  {
    SortIsStable(v.batches, BatchExpiry);
    SortKeepsTotal(v.batches);
    BeforeAsymmetric(NormaliseVanLoad(v).value.batches[k].expiry, NormaliseVanLoad(v).value.batches[0].expiry);
    var s := SortByExpiry(v.batches, BatchExpiry);
    assert |s| == |multiset(s)| == |multiset(v.batches)|;
    if k > 0 {
      assert !Before(BatchExpiry(s[k]), BatchExpiry(s[0]));
    }
  }

  /** A quantity that is positive but rounds to nothing. */
  predicate VanishingQuantity(q: real)
  {
    0.0 < q < 0.005
  }

  lemma RoundsToZero(q: real)
    ensures q > 0.0 ==> (Round2(q) > 0.0 <==> !VanishingQuantity(q))
    ensures VanishingQuantity(q) ==> Round2(q) == 0.0
  {
  }

  /** The quantity normalising settles on, from the typed one and the batch total. */
  function SettledQuantity(q: real, total: real, hasBatches: bool): real
  {
    Round2(if hasBatches && q <= 0.0 then total else q)
  }

  lemma QuantityTwice(q: real, total: real, hasBatches: bool)
    requires hasBatches || q > 0.0
    ensures var once := SettledQuantity(q, total, hasBatches);
      ((hasBatches || once > 0.0) && SettledQuantity(once, total, hasBatches) == once)
      <==> (!VanishingQuantity(q) || (hasBatches && Round2(total) == 0.0))
  {
    var once := SettledQuantity(q, total, hasBatches);
    RoundsToZero(q);
    RoundNear(q);
    RoundNear(total);
    RoundFixesCents(once);
  }

  lemma NormalisedQuantity(v: VanLoad)
    ensures NormaliseVanLoad(v).Success? <==> v.batches != [] || v.quantity > 0.0
    ensures NormaliseVanLoad(v).Success? ==>
      NormaliseVanLoad(v).value.quantity
        == SettledQuantity(v.quantity, SumOf(v.batches, BatchQuantity), v.batches != [])
  {
    SortKeepsTotal(v.batches);
    SortSize(v.batches);
  }

  lemma SortSize(batches: seq<LoadBatch>)
    ensures |SortByExpiry(batches, BatchExpiry)| == |batches|
  {
    SortIsStable(batches, BatchExpiry);
    var s := SortByExpiry(batches, BatchExpiry);
    assert |s| == |multiset(s)| == |multiset(batches)|;
  }

  /** Everything but the quantity is settled by normalising once. */
  lemma RestTwice(v: VanLoad)
    requires NormaliseVanLoad(v).Success? && NormaliseVanLoad(NormaliseVanLoad(v).value).Success?
    ensures NormaliseVanLoad(NormaliseVanLoad(v).value).value.(quantity := 0.0)
         == NormaliseVanLoad(v).value.(quantity := 0.0)
  {
    SortIdempotent(v.batches, BatchExpiry);
    SortSize(v.batches);
  }

  /** Normalising again changes nothing, except that a quantity rounded away to
      zero the first time is read as blank the second. */
  lemma NormaliseTwice(v: VanLoad)
    requires NormaliseVanLoad(v).Success?
    ensures NormaliseVanLoad(NormaliseVanLoad(v).value) == NormaliseVanLoad(v)
       <==> !VanishingQuantity(v.quantity) || (v.batches != [] && Round2(SumOf(v.batches, BatchQuantity)) == 0.0)
  {
    var n := NormaliseVanLoad(v).value;
    NormalisedQuantity(v);
    NormalisedQuantity(n);
    SortKeepsTotal(v.batches);
    SortSize(v.batches);
    assert n.batches == SortByExpiry(v.batches, BatchExpiry);
    QuantityTwice(v.quantity, SumOf(v.batches, BatchQuantity), v.batches != []);
    if NormaliseVanLoad(n).Success? {
      RestTwice(v);
      var m := NormaliseVanLoad(n).value;
      assert m == n <==> m.quantity == n.quantity by {
        assert m == m.(quantity := 0.0).(quantity := m.quantity);
        assert n == n.(quantity := 0.0).(quantity := n.quantity);
      }
    }
  }
}
