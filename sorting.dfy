/** `Array.prototype.sort` with a comparator that subtracts integer keys:
    a stable sort by an integer key. The specification is a functional
    insertion sort; the method sorts an array in place and is proved to leave
    exactly that sequence in it. */
module Sorting {

  /** Inserts `x` into `s` after every element whose key is at most `x`'s. */
  function Insert<T>(s: seq<T>, x: T, key: T -> int): (r: seq<T>)
    ensures |r| == |s| + 1
  {
    if s == [] || key(s[|s| - 1]) <= key(x) then s + [x]
    else Insert(s[..|s| - 1], x, key) + [s[|s| - 1]]
  }

  /** Inserting adds exactly `x`. */
  lemma {:induction false} InsertPermutes<T>(s: seq<T>, x: T, key: T -> int)
    ensures multiset(Insert(s, x, key)) == multiset(s) + multiset{x}
    decreases |s|
  {
    if s != [] && key(s[|s| - 1]) > key(x) {
      var init := s[..|s| - 1];
      InsertPermutes(init, x, key);
      assert s == init + [s[|s| - 1]];
    }
  }

  /** The stable sort of `s` by `key`. */
  function SortedBy<T>(s: seq<T>, key: T -> int): (r: seq<T>)
    ensures |r| == |s|
  {
    if s == [] then [] else Insert(SortedBy(s[..|s| - 1], key), s[|s| - 1], key)
  }

  ghost predicate Ordered<T>(s: seq<T>, key: T -> int) {
    forall i, j :: 0 <= i < j < |s| ==> key(s[i]) <= key(s[j])
  }

  /** Inserting into an ordered sequence keeps it ordered. */
  lemma {:induction false} InsertOrdered<T>(s: seq<T>, x: T, key: T -> int)
    requires Ordered(s, key)
    ensures Ordered(Insert(s, x, key), key)
    decreases |s|
  {
    if s != [] && key(s[|s| - 1]) > key(x) {
      var init := s[..|s| - 1];
      assert Ordered(init, key);
      InsertOrdered(init, x, key);
      var r := Insert(init, x, key);
      // every element of r is x or an element of init, all at most the last of s
      InsertPermutes(init, x, key);
      forall i | 0 <= i < |r| ensures key(r[i]) <= key(s[|s| - 1]) {
        assert r[i] in multiset(init) + multiset{x};
        if r[i] != x {
          assert r[i] in init;
        }
      }
    }
  }

  /** The sort is ordered by the key and is a permutation of its input. */
  lemma {:induction false} SortedByCorrect<T>(s: seq<T>, key: T -> int)
    ensures Ordered(SortedBy(s, key), key)
    ensures multiset(SortedBy(s, key)) == multiset(s)
    decreases |s|
  {
    if s != [] {
      var init := s[..|s| - 1];
      SortedByCorrect(init, key);
      InsertOrdered(SortedBy(init, key), s[|s| - 1], key);
      InsertPermutes(SortedBy(init, key), s[|s| - 1], key);
      assert s == init + [s[|s| - 1]];
    }
  }

  /** Insertion sort in place: the array ends up holding `SortedBy` of what it
      held. */
  method SortInPlace<T>(a: array<T>, key: T -> int)
    modifies a
    ensures a[..] == SortedBy(old(a[..]), key)
  {
    ghost var original := a[..];
    var i := 0;
    while i < a.Length
      invariant 0 <= i <= a.Length
      invariant a[..i] == SortedBy(original[..i], key)
      invariant forall k :: i <= k < a.Length ==> a[k] == original[k]
    {
      ghost var done := a[..i];
      ghost var next := original[i];
      assert a[i] == next;
      assert original[..i + 1][..i] == original[..i];
      assert SortedBy(original[..i + 1], key) == Insert(done, next, key);
      InsertLast(a, i, key);
      assert a[..i + 1] == Insert(done, next, key);
      i := i + 1;
    }
    assert a[..] == a[..a.Length];
    assert original[..a.Length] == original;
  }

  /** `x` lands right after the last element whose key is at most its own:
      when every element from `j` on has a larger key and the one before `j`
      does not, the insertion puts `x` at index `j`. */
  lemma {:induction false} InsertAt<T>(prefix: seq<T>, x: T, key: T -> int, j: nat)
    requires j <= |prefix| && (j == 0 || key(prefix[j - 1]) <= key(x))
    requires forall k :: j <= k < |prefix| ==> key(prefix[k]) > key(x)
    ensures Insert(prefix, x, key) == prefix[..j] + [x] + prefix[j..]
    decreases |prefix|
  {
    if j < |prefix| {
      var init := prefix[..|prefix| - 1];
      var last := prefix[|prefix| - 1];
      assert init[..j] == prefix[..j];
      InsertAt(init, x, key, j);
      assert prefix[j..] == init[j..] + [last];
    } else {
      assert prefix[..j] == prefix;
    }
  }

  /** One step of the sort: moves `a[i]` back into the sorted prefix
      `a[..i]`, shifting larger elements one place to the right. */
  method InsertLast<T>(a: array<T>, i: nat, key: T -> int)
    requires i < a.Length
    modifies a
    ensures a[..i + 1] == Insert(old(a[..i]), old(a[i]), key)
    ensures forall k :: i < k < a.Length ==> a[k] == old(a[k])
  {
    ghost var prefix := a[..i];
    var x := a[i];
    var j := i;
    while j > 0 && key(a[j - 1]) > key(x)
      invariant 0 <= j <= i
      invariant forall k :: 0 <= k < j ==> a[k] == prefix[k]
      invariant forall k :: j < k <= i ==> a[k] == prefix[k - 1]
      invariant forall k :: i < k < a.Length ==> a[k] == old(a[k])
      invariant forall k :: j <= k < i ==> key(prefix[k]) > key(x)
    {
      a[j] := a[j - 1];
      j := j - 1;
    }
    a[j] := x;
    InsertAt(prefix, x, key, j);
    ghost var sorted := prefix[..j] + [x] + prefix[j..];
    forall k | 0 <= k <= i ensures a[k] == sorted[k] {
      if k < j {
        assert sorted[k] == prefix[k];
      } else if k > j {
        assert sorted[k] == prefix[k - 1];
      }
    }
    assert a[..i + 1] == sorted;
  }
}
