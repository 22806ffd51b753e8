/** Counting by key into a plain object, one increment per element, and
    reading it back with `Object.entries`: one `(key, count)` pair per distinct
    key, in the order the keys were first seen. */
module Tally {
  import opened Strings
  import opened Js

  /** How many times `k` occurs in `keys`. */
  function Occurrences(keys: seq<String>, k: String): (n: nat)
    ensures n <= |keys|
    ensures n > 0 <==> k in keys
  {
    if keys == [] then 0
    else (if keys[0] == k then 1 else 0) + Occurrences(keys[1..], k)
  }

  lemma {:induction false} OccurrencesSnoc(keys: seq<String>, x: String, k: String)
    ensures Occurrences(keys + [x], k) == Occurrences(keys, k) + (if x == k then 1 else 0)
    decreases |keys|
  {
    if keys == [] {
      assert keys + [x] == [x];
    } else {
      assert (keys + [x])[1..] == keys[1..] + [x];
      OccurrencesSnoc(keys[1..], x, k);
    }
  }

  function SumCounts(entries: seq<(String, nat)>): nat {
    if entries == [] then 0 else entries[0].1 + SumCounts(entries[1..])
  }

  lemma {:induction false} SumCountsSnoc(entries: seq<(String, nat)>, e: (String, nat))
    ensures SumCounts(entries + [e]) == SumCounts(entries) + e.1
    decreases |entries|
  {
    if entries == [] {
      assert entries + [e] == [e];
    } else {
      assert (entries + [e])[1..] == entries[1..] + [e];
      SumCountsSnoc(entries[1..], e);
    }
  }

  lemma {:induction false} SumCountsBump(entries: seq<(String, nat)>, j: nat)
    requires j < |entries|
    ensures SumCounts(entries[j := (entries[j].0, entries[j].1 + 1)]) == SumCounts(entries) + 1
    decreases |entries|
  {
    if j > 0 {
      SumCountsBump(entries[1..], j - 1);
      assert entries[j := (entries[j].0, entries[j].1 + 1)][1..]
          == entries[1..][j - 1 := (entries[j].0, entries[j].1 + 1)];
    }
  }

  /** No key is listed twice. */
  ghost predicate DistinctKeys(entries: seq<(String, nat)>) {
    forall i, j :: 0 <= i < j < |entries| ==> entries[i].0 != entries[j].0
  }

  /** What `Object.entries` of the counting object holds after `keys`. */
  ghost predicate TallyOf(entries: seq<(String, nat)>, keys: seq<String>) {
    && DistinctKeys(entries)
    && (forall i :: 0 <= i < |entries| ==> entries[i].1 == Occurrences(keys, entries[i].0))
    && (forall k :: k in keys <==> exists i :: 0 <= i < |entries| && entries[i].0 == k)
  }

  /** The keys of the entries, in entry order. */
  function KeysOf(entries: seq<(String, nat)>): (ks: seq<String>)
    ensures |ks| == |entries|
    ensures forall i :: 0 <= i < |entries| ==> ks[i] == entries[i].0
  {
    if entries == [] then [] else [entries[0].0] + KeysOf(entries[1..])
  }

  /** The distinct keys of `keys`, each once, in the order they are first
      seen: the reference for the order a counting object's non-index keys
      come back in. */
  function FirstSeen(keys: seq<String>): (d: seq<String>)
    ensures forall k :: k in d <==> k in keys
    ensures forall i, j :: 0 <= i < j < |d| ==> d[i] != d[j]
    decreases |keys|
  {
    if keys == [] then []
    else
      var init := keys[..|keys| - 1];
      assert keys == init + [keys[|keys| - 1]];
      var d := FirstSeen(init);
      if keys[|keys| - 1] in d then d else d + [keys[|keys| - 1]]
  }

  /** The position of the first occurrence of `k`, or `|keys|` when absent. */
  function FirstIndex(keys: seq<String>, k: String): (n: nat)
    ensures n <= |keys| && (n < |keys| <==> k in keys)
    ensures n < |keys| ==> keys[n] == k
    ensures forall j :: 0 <= j < n ==> keys[j] != k
  {
    if keys == [] then 0
    else if keys[0] == k then 0
    else 1 + FirstIndex(keys[1..], k)
  }

  lemma {:induction false} FirstIndexSnoc(keys: seq<String>, x: String, k: String)
    requires k in keys
    ensures FirstIndex(keys + [x], k) == FirstIndex(keys, k)
  {
    var n := FirstIndex(keys, k);
    var m := FirstIndex(keys + [x], k);
    assert (keys + [x])[n] == k;
    assert forall j :: 0 <= j < n ==> (keys + [x])[j] == keys[j];
    assert m <= n;
    assert keys[m] == (keys + [x])[m];
  }

  /** `FirstSeen` lists the keys in the order of their first occurrences. */
  lemma {:induction false} FirstSeenOrder(keys: seq<String>)
    ensures forall i, j :: 0 <= i < j < |FirstSeen(keys)| ==>
              FirstIndex(keys, FirstSeen(keys)[i]) < FirstIndex(keys, FirstSeen(keys)[j])
    decreases |keys|
  {
    if keys != [] {
      var init := keys[..|keys| - 1];
      var x := keys[|keys| - 1];
      assert keys == init + [x];
      var d0 := FirstSeen(init);
      FirstSeenOrder(init);
      forall k | k in init ensures FirstIndex(keys, k) == FirstIndex(init, k) {
        FirstIndexSnoc(init, x, k);
      }
      var d := FirstSeen(keys);
      assert d == if x in d0 then d0 else d0 + [x];
      forall i, j | 0 <= i < j < |d|
        ensures FirstIndex(keys, d[i]) < FirstIndex(keys, d[j])
      {
        assert d[i] == d0[i] && d[i] in d0;
        if j < |d0| {
          assert d[j] == d0[j] && d[j] in d0;
        } else {
          assert d[j] == x && x !in init;
        }
      }
    }
  }

  /** Index of the entry for `k`, if there is one. */
  function Find(entries: seq<(String, nat)>, k: String): (r: Option<nat>)
    ensures r.Some? ==> r.value < |entries| && entries[r.value].0 == k
    ensures r.None? ==> forall i :: 0 <= i < |entries| ==> entries[i].0 != k
  {
    if entries == [] then None
    else if entries[0].0 == k then Some(0)
    else match Find(entries[1..], k)
      case None => None
      case Some(i) => Some(i + 1)
  }

  /** `acc[k] = (acc[k] || 0) + 1` */
  function Bump(entries: seq<(String, nat)>, k: String): seq<(String, nat)> {
    match Find(entries, k)
    case Some(j) => entries[j := (k, entries[j].1 + 1)]
    case None => entries + [(k, 1)]
  }

  /** One counting step keeps the entries a tally of the keys read so far and
      adds one to the total. */
  lemma BumpTally(entries: seq<(String, nat)>, keys: seq<String>, k: String)
    requires TallyOf(entries, keys)
    ensures TallyOf(Bump(entries, k), keys + [k])
    ensures SumCounts(Bump(entries, k)) == SumCounts(entries) + 1
    ensures |Bump(entries, k)| <= |entries| + 1
  {
    forall c ensures Occurrences(keys + [k], c) == Occurrences(keys, c) + (if k == c then 1 else 0) {
      OccurrencesSnoc(keys, k, c);
    }
    match Find(entries, k)
    case Some(j) =>
      SumCountsBump(entries, j);
      BumpFound(entries, keys, k, j);
    case None =>
      SumCountsSnoc(entries, (k, 1));
      BumpNew(entries, keys, k);
  }

  lemma BumpFound(entries: seq<(String, nat)>, keys: seq<String>, k: String, j: nat)
    requires TallyOf(entries, keys)
    requires j < |entries| && entries[j].0 == k
    requires forall c :: Occurrences(keys + [k], c) == Occurrences(keys, c) + (if k == c then 1 else 0)
    ensures TallyOf(entries[j := (k, entries[j].1 + 1)], keys + [k])
  {
    var r := entries[j := (k, entries[j].1 + 1)];
    assert forall i :: 0 <= i < |r| ==> r[i].0 == entries[i].0;
    forall c | c in keys + [k] ensures exists i :: 0 <= i < |r| && r[i].0 == c {
      if c != k {
        assert c in keys;
        var i :| 0 <= i < |entries| && entries[i].0 == c;
        assert r[i].0 == c;
      } else {
        assert r[j].0 == c;
      }
    }
    forall c | exists i :: 0 <= i < |r| && r[i].0 == c ensures c in keys + [k] {
      var i :| 0 <= i < |r| && r[i].0 == c;
      assert entries[i].0 == c;
    }
  }

  lemma BumpNew(entries: seq<(String, nat)>, keys: seq<String>, k: String)
    requires TallyOf(entries, keys)
    requires forall i :: 0 <= i < |entries| ==> entries[i].0 != k
    requires forall c :: Occurrences(keys + [k], c) == Occurrences(keys, c) + (if k == c then 1 else 0)
    ensures TallyOf(entries + [(k, 1)], keys + [k])
  {
    var r := entries + [(k, 1)];
    assert k !in keys;
    assert Occurrences(keys + [k], k) == 1;
    forall c | c in keys + [k] ensures exists i :: 0 <= i < |r| && r[i].0 == c {
      if c != k {
        assert c in keys;
        var i :| 0 <= i < |entries| && entries[i].0 == c;
        assert r[i].0 == c;
      } else {
        assert r[|entries|].0 == c;
      }
    }
    forall c | exists i :: 0 <= i < |r| && r[i].0 == c ensures c in keys + [k] {
      var i :| 0 <= i < |r| && r[i].0 == c;
      if i < |entries| {
        assert entries[i].0 == c;
      }
    }
  }

  /** One counting step adds the key at the end exactly when it is new. */
  lemma BumpKeys(entries: seq<(String, nat)>, keys: seq<String>, k: String)
    requires TallyOf(entries, keys) && KeysOf(entries) == FirstSeen(keys)
    ensures KeysOf(Bump(entries, k)) == FirstSeen(keys + [k])
  {
    assert (keys + [k])[..|keys|] == keys;
    match Find(entries, k)
    case Some(j) =>
      assert k in keys;
      assert KeysOf(entries[j := (k, entries[j].1 + 1)]) == KeysOf(entries);
    case None =>
      assert k !in keys;
      assert KeysOf(entries + [(k, 1)]) == KeysOf(entries) + [k];
  }

  lemma PrefixSnoc(keys: seq<String>, n: nat)
    requires n < |keys|
    ensures keys[..n + 1] == keys[..n] + [keys[n]]
  {
  }

  /** The counting `reduce` over `keys`, in order. Every distinct key gets one
      entry, its count is its number of occurrences, and the counts add up to
      the number of keys. The entries come in the order the keys were first
      seen. */
  method Count(keys: seq<String>) returns (entries: seq<(String, nat)>)
    ensures TallyOf(entries, keys)
    ensures KeysOf(entries) == FirstSeen(keys)
    ensures forall i :: 0 <= i < |entries| ==> entries[i].1 >= 1
    ensures SumCounts(entries) == |keys|
    ensures |entries| <= |keys|
  {
    entries := [];
    var n := 0;
    while n < |keys|
      invariant 0 <= n <= |keys|
      invariant TallyOf(entries, keys[..n])
      invariant KeysOf(entries) == FirstSeen(keys[..n])
      invariant SumCounts(entries) == n
      invariant |entries| <= n
    {
      PrefixSnoc(keys, n);
      BumpTally(entries, keys[..n], keys[n]);
      BumpKeys(entries, keys[..n], keys[n]);
      entries := Bump(entries, keys[n]);
      n := n + 1;
    }
    assert keys[..n] == keys;
    forall i | 0 <= i < |entries| ensures entries[i].1 >= 1 {
      assert entries[i].0 in keys;
    }
  }
}
