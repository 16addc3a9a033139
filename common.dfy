/** Small helpers shared by the models: an optional value and duplicate-free sequences,
    which stand for the insertion order of Python dicts and sets. */
module Common {

  datatype Option<T> = None | Some(value: T)

  /** No element occurs twice. */
  predicate NoDup<T(==)>(s: seq<T>) {
    forall i, j :: 0 <= i < j < |s| ==> s[i] != s[j]
  }

  /** The set of elements of a sequence. */
  function Elems<T>(s: seq<T>): set<T> {
    set x | x in s
  }

  /** `s` with every occurrence of `x` removed, order kept (deleting a dict key). */
  function Without<T(==)>(s: seq<T>, x: T): (r: seq<T>)
    ensures Elems(r) == Elems(s) - {x}
    ensures NoDup(s) ==> NoDup(r)
    ensures x !in s ==> r == s
  {
    if s == [] then []
    else if s[0] == x then Without(s[1..], x)
    else
      var t := Without(s[1..], x);
      assert Elems(s) == {s[0]} + Elems(s[1..]);
      assert Elems([s[0]] + t) == {s[0]} + Elems(t);
      assert NoDup(s) ==> s[0] !in t;
      [s[0]] + t
  }

  /** Deleting the one occurrence of `x`, at index `k`, keeps every other element in
      its place, as deleting a key from a Python dict keeps the insertion order. */
  lemma {:induction false} WithoutDeletesInPlace<T>(s: seq<T>, x: T, k: int)
    requires 0 <= k < |s| && s[k] == x && x !in s[..k] && x !in s[k + 1..]
    ensures Without(s, x) == s[..k] + s[k + 1..]
  {
    if k == 0 {
      assert s[1..] == s[k + 1..];
    } else {
      assert s[0] != x by { assert s[0] in s[..k]; }
      assert s[1..][..k - 1] == s[1..k];
      assert s[1..][k..] == s[k + 1..];
      WithoutDeletesInPlace(s[1..], x, k - 1);
      assert s[..k] == [s[0]] + s[1..k];
    }
  }

  /** In a duplicate-free sequence, removing the element at `k` cuts out that one
      position. */
  lemma NoDupWithoutAt<T>(s: seq<T>, k: int)
    requires NoDup(s) && 0 <= k < |s|
    ensures Without(s, s[k]) == s[..k] + s[k + 1..]
  {
    var before, after := s[..k], s[k + 1..];
    forall i | 0 <= i < |before| ensures before[i] != s[k] {
      assert before[i] == s[i];
    }
    forall i | 0 <= i < |after| ensures after[i] != s[k] {
      assert after[i] == s[k + 1 + i];
    }
    WithoutDeletesInPlace(s, s[k], k);
  }

  /** `s` with `x` added at the end unless it is already there (inserting a new key). */
  function AddLast<T(==)>(s: seq<T>, x: T): (r: seq<T>)
    ensures Elems(r) == Elems(s) + {x}
    ensures NoDup(s) ==> NoDup(r)
    ensures x in s ==> r == s
  {
    if x in s then s else s + [x]
  }

  /** A duplicate-free sequence has as many elements as its set. */
  lemma {:induction false} NoDupCard<T>(s: seq<T>)
    requires NoDup(s)
    ensures |Elems(s)| == |s|
  {
    if s != [] {
      NoDupCard(s[1..]);
      assert Elems(s) == {s[0]} + Elems(s[1..]);
      assert s[0] !in Elems(s[1..]);
    }
  }
}
