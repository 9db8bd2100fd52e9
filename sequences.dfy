/** Order-preserving removal by key, as every store removes a record by id. */
module Sequences {
  /** The elements of `s` whose key differs from `id`, in their original order. */
  function RemoveKey<T>(s: seq<T>, key: T -> string, id: string): (r: seq<T>)
    ensures |r| <= |s|
    ensures forall i :: 0 <= i < |r| ==> r[i] in s && key(r[i]) != id
    ensures forall i :: 0 <= i < |s| && key(s[i]) != id ==> s[i] in r
    ensures (forall i :: 0 <= i < |s| ==> key(s[i]) != id) ==> r == s
  {
    if s == [] then []
    else if key(s[0]) == id then RemoveKey(s[1..], key, id)
    else [s[0]] + RemoveKey(s[1..], key, id)
  }

  /** Removal distributes over concatenation, so the survivors keep their relative order. */
  lemma {:induction false} RemoveKeyConcat<T>(a: seq<T>, b: seq<T>, key: T -> string, id: string)
    ensures RemoveKey(a + b, key, id) == RemoveKey(a, key, id) + RemoveKey(b, key, id)
  {
    if a == [] {
      assert a + b == b;
    } else {
      assert (a + b)[1..] == a[1..] + b;
      RemoveKeyConcat(a[1..], b, key, id);
    }
  }

  /** Removing the same key twice is the same as removing it once. */
  lemma RemoveKeyIdempotent<T>(s: seq<T>, key: T -> string, id: string)
    ensures RemoveKey(RemoveKey(s, key, id), key, id) == RemoveKey(s, key, id)
  {
  }

  /** No value occurs twice. */
  predicate NoDuplicates<T(==)>(s: seq<T>)
  {
    forall i, j :: 0 <= i < j < |s| ==> s[i] != s[j]
  }
}
