/**
  Generic sequence operations the server's collections need: ordering by a
  date key, newest first (`.sort({ date: -1 })`), and deleting the entry with
  a given identity (`findByIdAndDelete`).
*/
module Collections {

  /** Newest first: keys never increase along the sequence. */
  ghost predicate SortedDesc<T>(s: seq<T>, key: T -> int) {
    forall i, j :: 0 <= i < j < |s| ==> key(s[i]) >= key(s[j])
  }

  /** Insert `x` before the first entry that is not newer than it. */
  function InsertDesc<T>(x: T, s: seq<T>, key: T -> int): (r: seq<T>)
    requires SortedDesc(s, key)
    ensures |r| == |s| + 1
    ensures r[0] == x || (s != [] && r[0] == s[0])
    ensures SortedDesc(r, key)
    ensures multiset(r) == multiset(s) + multiset{x}
  {
    if s == [] then [x]
    else if key(x) >= key(s[0]) then [x] + s
    else
      var rest := InsertDesc(x, s[1..], key);
      assert s == [s[0]] + s[1..];
      [s[0]] + rest
  }

  /** The entries of `s`, newest first. Entries with equal keys keep no
      particular order, as for the database's sort. */
  function SortDesc<T>(s: seq<T>, key: T -> int): (r: seq<T>)
    ensures SortedDesc(r, key)
    ensures multiset(r) == multiset(s)
  {
    if s == [] then []
    else
      assert s == [s[0]] + s[1..];
      InsertDesc(s[0], SortDesc(s[1..], key), key)
  }

  /** No identity occurs twice. */
  ghost predicate IdsUnique<T>(s: seq<T>, idOf: T -> nat) {
    forall i, j :: 0 <= i < j < |s| ==> idOf(s[i]) != idOf(s[j])
  }

  /** Every identity is below `bound` (identities are handed out in increasing order). */
  ghost predicate IdsBelow<T>(s: seq<T>, idOf: T -> nat, bound: nat) {
    forall i :: 0 <= i < |s| ==> idOf(s[i]) < bound
  }

  /** The reference meaning of a delete: every entry with identity `id` is gone,
      the others stay in order. */
  function Without<T>(s: seq<T>, idOf: T -> nat, id: nat): (r: seq<T>)
    ensures |r| <= |s|
    ensures forall x :: x in r ==> x in s && idOf(x) != id
    ensures forall x :: x in s && idOf(x) != id ==> x in r
  {
    if s == [] then []
    else (if idOf(s[0]) == id then [] else [s[0]]) + Without(s[1..], idOf, id)
  }

  lemma {:induction false} WithoutAbsent<T>(s: seq<T>, idOf: T -> nat, id: nat)
    requires forall k :: 0 <= k < |s| ==> idOf(s[k]) != id
    ensures Without(s, idOf, id) == s
  {
    if s != [] {
      WithoutAbsent(s[1..], idOf, id);
    }
  }

  /** Deleting from a list that starts with `x` decides `x` first. */
  lemma WithoutCons<T>(x: T, t: seq<T>, idOf: T -> nat, id: nat)
    ensures Without([x] + t, idOf, id) == (if idOf(x) == id then [] else [x]) + Without(t, idOf, id)
  {
    assert ([x] + t)[1..] == t;
  }

  /** With unique identities, deleting by identity removes exactly the one
      entry that carries it. */
  lemma {:induction false} WithoutAt<T>(s: seq<T>, idOf: T -> nat, i: nat)
    requires IdsUnique(s, idOf)
    requires i < |s|
    ensures Without(s, idOf, idOf(s[i])) == s[..i] + s[i + 1..]
  {
    var id := idOf(s[i]);
    var tail := s[1..];
    assert s == [s[0]] + tail;
    WithoutCons(s[0], tail, idOf, id);
    if i == 0 {
      forall k | 0 <= k < |tail| ensures idOf(tail[k]) != id {
        assert tail[k] == s[k + 1];
      }
      WithoutAbsent(tail, idOf, id);
      assert s[i + 1..] == tail;
    } else {
      TailIdsUnique(s, idOf);
      assert tail[i - 1] == s[i];
      WithoutAt(tail, idOf, i - 1);
      SliceAround(s, i);
    }
  }

  /** Cutting position `i > 0` out of `s` is its head followed by cutting
      position `i - 1` out of its tail. */
  lemma SliceAround<T>(s: seq<T>, i: nat)
    requires 0 < i < |s|
    ensures s[..i] + s[i + 1..] == [s[0]] + (s[1..][..i - 1] + s[1..][i..])
  {
    assert s[..i] == [s[0]] + s[1..][..i - 1];
    assert s[i + 1..] == s[1..][i..];
  }

  lemma TailIdsUnique<T>(s: seq<T>, idOf: T -> nat)
    requires IdsUnique(s, idOf) && s != []
    ensures IdsUnique(s[1..], idOf)
  {
    var tail := s[1..];
    forall a, b | 0 <= a < b < |tail| ensures idOf(tail[a]) != idOf(tail[b]) {
      assert tail[a] == s[a + 1] && tail[b] == s[b + 1];
    }
  }

  /** Deleting keeps identities unique and below the bound. */
  lemma RemoveAtKeepsIds<T>(s: seq<T>, idOf: T -> nat, i: nat, bound: nat)
    requires IdsUnique(s, idOf) && IdsBelow(s, idOf, bound)
    requires i < |s|
    ensures IdsUnique(s[..i] + s[i + 1..], idOf) && IdsBelow(s[..i] + s[i + 1..], idOf, bound)
  {
    var r := s[..i] + s[i + 1..];
    forall k | 0 <= k < |r| ensures r[k] == s[if k < i then k else k + 1] {
    }
  }

  /** The position of the entry with identity `id`, or |s| when there is none. */
  method FindById<T>(s: seq<T>, idOf: T -> nat, id: nat) returns (i: nat)
    ensures i <= |s|
    ensures i < |s| ==> idOf(s[i]) == id
    ensures forall k :: 0 <= k < i ==> idOf(s[k]) != id
  {
    i := 0;
    while i < |s| && idOf(s[i]) != id
      invariant i <= |s|
      invariant forall k :: 0 <= k < i ==> idOf(s[k]) != id
    {
      i := i + 1;
    }
  }
}
