/** Nearest-expiry-first ordering: `sort.SliceStable` under the comparator of
    sortByExpiry. Any stable sort gives the same list (SortIsTheOnlyStableSort),
    so an insertion sort stands for the library's. */
module Fefo {

  /** Go's `<` on strings. */
  predicate TextLess(a: string, b: string)
  {
    if b == "" then false
    else if a == "" then true
    else if a[0] != b[0] then a[0] < b[0]
    else TextLess(a[1..], b[1..])
  }

  /** The texts agree up to `k`, where the first ends or has the smaller character. */
  predicate FirstDiffers(a: string, b: string, k: nat)
  {
    k <= |a| && k < |b| && a[..k] == b[..k] && (k == |a| || a[k] < b[k])
  }

  /** The order of texts is that of dictionaries, which for dates written year first is that of time. */
  lemma {:induction false} TextLessIff(a: string, b: string)
    ensures TextLess(a, b) <==> exists k: nat :: FirstDiffers(a, b, k)
  {
    if a == "" && b != "" {
      assert FirstDiffers(a, b, 0);
    } else if a != "" && b != "" && a[0] == b[0] {
      TextLessIff(a[1..], b[1..]);
      if k: nat :| FirstDiffers(a, b, k) {
        assert a[1..][..k - 1] == a[..k][1..] && b[1..][..k - 1] == b[..k][1..];
        assert FirstDiffers(a[1..], b[1..], k - 1);
      }
      if k: nat :| FirstDiffers(a[1..], b[1..], k) {
        assert a[..k + 1] == [a[0]] + a[1..][..k] && b[..k + 1] == [b[0]] + b[1..][..k];
        assert FirstDiffers(a, b, k + 1);
      }
    } else if a != "" && b != "" && a[0] < b[0] {
      assert FirstDiffers(a, b, 0);
    } else if k: nat :| FirstDiffers(a, b, k) {
      assert k > 0 ==> a[..k][0] == b[..k][0];
    }
  }

  /** The comparator: blanks are never before anything and after every date. */
  predicate Before(a: string, b: string)
  {
    if a == "" then false
    else if b == "" then true
    else TextLess(a, b)
  }

  /** `x` goes in front of the first item it is strictly before. */
  function InsertFromRight<T>(sorted: seq<T>, x: T, expiry: T -> string): seq<T>
  {
    if sorted == [] then [x]
    else
      var last := sorted[|sorted| - 1];
      if Before(expiry(x), expiry(last))
      then InsertFromRight(sorted[..|sorted| - 1], x, expiry) + [last]
      else sorted + [x]
  }

  function SortByExpiry<T>(items: seq<T>, expiry: T -> string): seq<T>
  {
    if items == [] then []
    else InsertFromRight(SortByExpiry(items[..|items| - 1], expiry), items[|items| - 1], expiry)
  }

  // ---- the order ----------------------------------------------------------

  lemma {:induction false} TextLessTransitive(a: string, b: string, c: string)
    ensures TextLess(a, b) && TextLess(b, c) ==> TextLess(a, c)
    ensures !TextLess(a, a)
    ensures TextLess(a, b) || a == b || TextLess(b, a)
    decreases |a| + |b| + |c|
  {
    if a != "" {
      TextLessTransitive(a[1..], if b == "" then "" else b[1..], if c == "" then "" else c[1..]);
      if b != "" && a[0] == b[0] && a[1..] == b[1..] {
        assert a == [a[0]] + a[1..] && b == [b[0]] + b[1..];
      }
    }
  }

  /** Not-after is transitive, so "sorted" can be read off neighbours. */
  lemma NotBeforeTransitive(a: string, b: string, c: string)
    requires !Before(b, a) && !Before(c, b)
    ensures !Before(c, a)
  {
    TextLessTransitive(a, b, c);
    TextLessTransitive(c, a, b);
    TextLessTransitive(c, b, a);
  }

  lemma BeforeAsymmetric(a: string, b: string)
    ensures Before(a, b) ==> !Before(b, a)
    ensures !Before(a, b) && !Before(b, a) ==> a == b
  {
    TextLessTransitive(a, b, a);
    TextLessTransitive(b, a, b);
  }

  // ---- what a stable sort is ----------------------------------------------

  ghost predicate InOrder<T>(items: seq<T>, expiry: T -> string)
  {
    forall i, j :: 0 <= i < j < |items| ==> !Before(expiry(items[j]), expiry(items[i]))
  }

  /** The items of one expiry, in the order they stand. */
  function OfExpiry<T>(items: seq<T>, expiry: T -> string, e: string): seq<T>
  {
    if items == [] then []
    else
      var last := items[|items| - 1];
      OfExpiry(items[..|items| - 1], expiry, e) + (if expiry(last) == e then [last] else [])
  }

  /** Sorted, and batches of equal expiry keep their relative order. That the
      result is a permutation follows (StableSortPermutes). */
  ghost predicate StableSortOf<T>(sorted: seq<T>, items: seq<T>, expiry: T -> string)
  {
    && InOrder(sorted, expiry)
    && (forall e :: OfExpiry(sorted, expiry, e) == OfExpiry(items, expiry, e))
  }

  lemma {:induction false} OfExpiryConcat<T>(a: seq<T>, b: seq<T>, expiry: T -> string, e: string)
    ensures OfExpiry(a + b, expiry, e) == OfExpiry(a, expiry, e) + OfExpiry(b, expiry, e)
  {
    if b == [] {
      assert a + b == a;
    } else {
      var ab := a + b;
      assert ab[..|ab| - 1] == a + b[..|b| - 1];
      OfExpiryConcat(a, b[..|b| - 1], expiry, e);
    }
  }

  lemma {:induction false} InsertPermutes<T>(sorted: seq<T>, x: T, expiry: T -> string)
    ensures multiset(InsertFromRight(sorted, x, expiry)) == multiset(sorted) + multiset{x}
  {
    if sorted != [] {
      var n := |sorted| - 1;
      assert sorted == sorted[..n] + [sorted[n]];
      InsertPermutes(sorted[..n], x, expiry);
    }
  }

  lemma InsertMembers<T>(sorted: seq<T>, x: T, expiry: T -> string)
    ensures forall y :: y in InsertFromRight(sorted, x, expiry) ==> y == x || y in sorted
  {
  }

  lemma {:induction false} InsertInOrder<T>(sorted: seq<T>, x: T, expiry: T -> string)
    requires InOrder(sorted, expiry)
    ensures InOrder(InsertFromRight(sorted, x, expiry), expiry)
  {
    if sorted != [] {
      var n := |sorted| - 1;
      var init, last := sorted[..n], sorted[n];
      if Before(expiry(x), expiry(last)) {
        InsertInOrder(init, x, expiry);
        InsertMembers(init, x, expiry);
        BeforeAsymmetric(expiry(x), expiry(last));
        var lower := InsertFromRight(init, x, expiry);
        forall i | 0 <= i < |lower| ensures !Before(expiry(last), expiry(lower[i])) {
          assert lower[i] in lower;
        }
      } else {
        forall i | 0 <= i < n ensures !Before(expiry(x), expiry(sorted[i])) {
          NotBeforeTransitive(expiry(sorted[i]), expiry(last), expiry(x));
        }
      }
    }
  }

  lemma {:induction false} InsertKeepsExpiry<T>(sorted: seq<T>, x: T, expiry: T -> string, e: string)
    ensures OfExpiry(InsertFromRight(sorted, x, expiry), expiry, e)
         == OfExpiry(sorted, expiry, e) + (if expiry(x) == e then [x] else [])
  {
    if sorted == [] {
      OfOne(x, expiry, e);
    } else {
      var n := |sorted| - 1;
      var init, last := sorted[..n], sorted[n];
      if Before(expiry(x), expiry(last)) {
        BeforeAsymmetric(expiry(x), expiry(last));
        InsertKeepsExpiry(init, x, expiry, e);
        var lower := InsertFromRight(init, x, expiry);
        assert (lower + [last])[..|lower|] == lower;
      } else {
        assert (sorted + [x])[..|sorted|] == sorted;
      }
    }
  }

  lemma OfOne<T>(x: T, expiry: T -> string, e: string)
    ensures OfExpiry([x], expiry, e) == if expiry(x) == e then [x] else []
  {
  }

  lemma {:induction false} SortIsStable<T>(items: seq<T>, expiry: T -> string)
    ensures StableSortOf(SortByExpiry(items, expiry), items, expiry)
    ensures multiset(SortByExpiry(items, expiry)) == multiset(items)
  {
    if items != [] {
      var n := |items| - 1;
      var init, x := items[..n], items[n];
      assert items == init + [x];
      SortIsStable(init, expiry);
      var before := SortByExpiry(init, expiry);
      forall e ensures OfExpiry(SortByExpiry(items, expiry), expiry, e) == OfExpiry(items, expiry, e) {
        InsertKeepsExpiry(before, x, expiry, e);
      }
      InsertInOrder(before, x, expiry);
      InsertPermutes(before, x, expiry);
    }
  }

  lemma {:induction false} OfExpiryMembers<T>(items: seq<T>, expiry: T -> string, e: string)
    ensures forall x :: x in OfExpiry(items, expiry, e) <==> x in items && expiry(x) == e
  {
    if items != [] {
      OfExpiryMembers(items[..|items| - 1], expiry, e);
      assert items == items[..|items| - 1] + [items[|items| - 1]];
    }
  }

  lemma OfExpiryTail<T>(items: seq<T>, expiry: T -> string, e: string)
    requires items != []
    ensures OfExpiry(items, expiry, e)
         == (if expiry(items[0]) == e then [items[0]] else []) + OfExpiry(items[1..], expiry, e)
  {
    assert items == [items[0]] + items[1..];
    OfExpiryConcat([items[0]], items[1..], expiry, e);
    OfOne(items[0], expiry, e);
  }

  /** Two stable sorts of the same list are the same list: the comparator leaves
      the sorting algorithm no choice. */
  lemma {:induction false} StableSortUnique<T>(s: seq<T>, t: seq<T>, expiry: T -> string)
    requires InOrder(s, expiry) && InOrder(t, expiry)
    requires forall e :: OfExpiry(s, expiry, e) == OfExpiry(t, expiry, e)
    ensures s == t
    decreases |s|
  {
    if s == [] || t == [] {
      NothingOfAnyExpiry(s, t, expiry);
    } else {
      HeadsAgree(s, t, expiry);
      forall e ensures OfExpiry(s[1..], expiry, e) == OfExpiry(t[1..], expiry, e) {
        OfExpiryTail(s, expiry, e);
        OfExpiryTail(t, expiry, e);
        var head := if expiry(s[0]) == e then [s[0]] else [];
        assert OfExpiry(s[1..], expiry, e) == (head + OfExpiry(s[1..], expiry, e))[|head|..];
        assert OfExpiry(t[1..], expiry, e) == (head + OfExpiry(t[1..], expiry, e))[|head|..];
      }
      StableSortUnique(s[1..], t[1..], expiry);
      assert s == [s[0]] + s[1..] && t == [t[0]] + t[1..];
    }
  }

  lemma NothingOfAnyExpiry<T>(s: seq<T>, t: seq<T>, expiry: T -> string)
    requires s == [] || t == []
    requires forall e :: OfExpiry(s, expiry, e) == OfExpiry(t, expiry, e)
    ensures s == t
  {
    if s != [] {
      OfExpiryTail(s, expiry, expiry(s[0]));
    }
    if t != [] {
      OfExpiryTail(t, expiry, expiry(t[0]));
    }
  }

  lemma HeadsAgree<T>(s: seq<T>, t: seq<T>, expiry: T -> string)
    requires s != [] && t != [] && InOrder(s, expiry) && InOrder(t, expiry)
    requires forall e :: OfExpiry(s, expiry, e) == OfExpiry(t, expiry, e)
    ensures s[0] == t[0]
  {
    var a, b := expiry(s[0]), expiry(t[0]);
    OfExpiryMembers(s, expiry, b);
    OfExpiryMembers(t, expiry, b);
    OfExpiryMembers(s, expiry, a);
    OfExpiryMembers(t, expiry, a);
    assert t[0] in OfExpiry(s, expiry, b);
    assert s[0] in OfExpiry(t, expiry, a);
    var i :| 0 <= i < |s| && s[i] == t[0];
    var j :| 0 <= j < |t| && t[j] == s[0];
    BeforeAsymmetric(a, b);
    assert i > 0 ==> !Before(expiry(s[i]), expiry(s[0]));
    assert j > 0 ==> !Before(expiry(t[j]), expiry(t[0]));
    assert a == b;
    OfExpiryTail(s, expiry, a);
    OfExpiryTail(t, expiry, a);
    assert OfExpiry(s, expiry, a)[0] == s[0] && OfExpiry(t, expiry, a)[0] == t[0];
  }

  /** The order the source gets from its library is this one. */
  lemma SortIsTheOnlyStableSort<T>(sorted: seq<T>, items: seq<T>, expiry: T -> string)
    ensures StableSortOf(sorted, items, expiry) <==> sorted == SortByExpiry(items, expiry)
  {
    SortIsStable(items, expiry);
    if StableSortOf(sorted, items, expiry) {
      StableSortUnique(sorted, SortByExpiry(items, expiry), expiry);
    }
  }

  /** Non-blank expiries stand ascending in front, blanks at the end. */
  lemma SortedShape<T>(items: seq<T>, expiry: T -> string, i: nat, j: nat)
    requires i < j < |SortByExpiry(items, expiry)|
    ensures var s := SortByExpiry(items, expiry);
      && (expiry(s[i]) == "" ==> expiry(s[j]) == "")
      && (expiry(s[j]) != "" ==> expiry(s[i]) == expiry(s[j]) || TextLess(expiry(s[i]), expiry(s[j])))
  {
    var s := SortByExpiry(items, expiry);
    SortIsStable(items, expiry);
    assert !Before(expiry(s[j]), expiry(s[i]));
    TextLessTransitive(expiry(s[i]), expiry(s[j]), "");
  }

  lemma SortIdempotent<T>(items: seq<T>, expiry: T -> string)
    ensures SortByExpiry(SortByExpiry(items, expiry), expiry) == SortByExpiry(items, expiry)
  {
    SortIsStable(items, expiry);
    SortIsTheOnlyStableSort(SortByExpiry(items, expiry), SortByExpiry(items, expiry), expiry);
  }

  // ---- in place --------------------------------------------------------------

  /** The items above position j have already made way for x. */
  ghost predicate Sinking<T>(sorted: seq<T>, x: T, expiry: T -> string, j: nat)
    requires j <= |sorted|
  {
    InsertFromRight(sorted, x, expiry) == InsertFromRight(sorted[..j], x, expiry) + sorted[j..]
  }

  lemma SinkingStarts<T>(sorted: seq<T>, x: T, expiry: T -> string)
    ensures Sinking(sorted, x, expiry, |sorted|)
  {
    assert sorted[..|sorted|] == sorted && sorted[|sorted|..] == [];
  }

  lemma InsertSplit<T>(sorted: seq<T>, x: T, expiry: T -> string, j: nat)
    requires 0 < j <= |sorted| && Before(expiry(x), expiry(sorted[j - 1])) && Sinking(sorted, x, expiry, j)
    ensures Sinking(sorted, x, expiry, j - 1)
  {
    assert sorted[..j][..j - 1] == sorted[..j - 1];
    assert sorted[j - 1..] == [sorted[j - 1]] + sorted[j..];
  }

  lemma InsertHere<T>(sorted: seq<T>, x: T, expiry: T -> string, j: nat)
    requires j <= |sorted| && Sinking(sorted, x, expiry, j) && (j == 0 || !Before(expiry(x), expiry(sorted[j - 1])))
    ensures InsertFromRight(sorted, x, expiry) == sorted[..j] + [x] + sorted[j..]
  {
  }

  /** Swaps item `i` down past the items it is strictly before. */
  method SinkInPlace<T>(a: array<T>, i: nat, expiry: T -> string)
    requires i < a.Length
    modifies a
    ensures a[..i + 1] == InsertFromRight(old(a[..i]), old(a[i]), expiry)
    ensures forall k :: i < k < a.Length ==> a[k] == old(a[k])
  {
    ghost var sorted, x := a[..i], a[i];
    var j := i;
    SinkingStarts(sorted, x, expiry);
    while j > 0 && Before(expiry(a[j]), expiry(a[j - 1]))
      invariant 0 <= j <= i && a[j] == x
      invariant forall k :: 0 <= k < j ==> a[k] == sorted[k]
      invariant forall k :: j < k <= i ==> a[k] == sorted[k - 1]
      invariant forall k :: i < k < a.Length ==> a[k] == old(a[k])
      invariant Sinking(sorted, x, expiry, j)
    {
      InsertSplit(sorted, x, expiry, j);
      a[j], a[j - 1] := a[j - 1], a[j];
      j := j - 1;
    }
    InsertHere(sorted, x, expiry, j);
    assert a[..i + 1] == sorted[..j] + [x] + sorted[j..];
  }

  /** Sorts the slice in place, as the library does with a short slice. */
  method SortInPlace<T>(a: array<T>, expiry: T -> string)
    modifies a
    ensures a[..] == SortByExpiry(old(a[..]), expiry)
  {
    ghost var was := a[..];
    for i := 0 to a.Length
      invariant a[..i] == SortByExpiry(was[..i], expiry)
      invariant forall k :: i <= k < a.Length ==> a[k] == was[k]
    {
      assert was[..i + 1][..i] == was[..i];
      SinkInPlace(a, i, expiry);
    }
    assert was[..a.Length] == was;
  }
}
