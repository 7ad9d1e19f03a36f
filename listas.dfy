/**
 * The two array updates the list stores share: `list.filter(x => x.id !== id)`
 * and `list.map(x => x.id === id ? y : x)`. `key` reads the record's id.
 */
module Listas {

  /** `s.filter(x => key(x) !== id)`: every element with that id goes, the rest stay in order. */
  function RemoveById<T>(s: seq<T>, key: T -> int, id: int): (r: seq<T>)
    ensures |r| <= |s|
    ensures forall i :: 0 <= i < |r| ==> key(r[i]) != id
    ensures forall i :: 0 <= i < |r| ==> r[i] in s
    ensures forall i :: 0 <= i < |s| && key(s[i]) != id ==> s[i] in r
    ensures (forall i :: 0 <= i < |s| ==> key(s[i]) != id) ==> r == s
  {
    if s == [] then []
    else if key(s[0]) == id then RemoveById(s[1..], key, id)
    else [s[0]] + RemoveById(s[1..], key, id)
  }

  /** Filtering a concatenation filters each part: the survivors keep their
      relative order. */
  lemma {:induction false} RemoveByIdConcat<T>(a: seq<T>, b: seq<T>, key: T -> int, id: int)
    ensures RemoveById(a + b, key, id) == RemoveById(a, key, id) + RemoveById(b, key, id)
  {
    if a == [] {
      assert a + b == b;
    } else {
      assert (a + b)[0] == a[0];
      assert (a + b)[1..] == a[1..] + b;
      RemoveByIdConcat(a[1..], b, key, id);
    }
  }

  /** Removing twice is removing once. */
  lemma RemoveByIdIdempotent<T>(s: seq<T>, key: T -> int, id: int)
    ensures RemoveById(RemoveById(s, key, id), key, id) == RemoveById(s, key, id)
  {
  }

  /** The number of elements of `s` whose id is `id`. */
  function CountId<T>(s: seq<T>, key: T -> int, id: int): (n: nat)
    ensures n <= |s|
  {
    if s == [] then 0 else (if key(s[0]) == id then 1 else 0) + CountId(s[1..], key, id)
  }

  /** Exactly the elements carrying the id are dropped. */
  lemma {:induction false} RemoveByIdLength<T>(s: seq<T>, key: T -> int, id: int)
    ensures |RemoveById(s, key, id)| == |s| - CountId(s, key, id)
  {
    if s != [] {
      RemoveByIdLength(s[1..], key, id);
    }
  }

  /** `s.map(x => key(x) === id ? y : x)`: every element with that id becomes `y`,
      the others and the length stay. */
  function ReplaceById<T>(s: seq<T>, key: T -> int, id: int, y: T): (r: seq<T>)
    ensures |r| == |s|
    ensures forall i :: 0 <= i < |s| ==> r[i] == (if key(s[i]) == id then y else s[i])
  {
    if s == [] then []
    else [if key(s[0]) == id then y else s[0]] + ReplaceById(s[1..], key, id, y)
  }

  /** A replacement that keeps the id changes nothing outside that id. */
  lemma {:induction false} ReplaceByIdKeepsOthers<T>(s: seq<T>, key: T -> int, id: int, y: T)
    requires key(y) == id
    ensures RemoveById(ReplaceById(s, key, id, y), key, id) == RemoveById(s, key, id)
  {
    var r := ReplaceById(s, key, id, y);
    if s != [] {
      assert r[1..] == ReplaceById(s[1..], key, id, y);
      ReplaceByIdKeepsOthers(s[1..], key, id, y);
    }
  }
}
