/**
 * The list rewrites the screen stores perform with Kotlin's `map`, `filter`
 * and `find`, keyed by an item's id.
 */
module ListOps {
  import opened Wrappers

  /** `list.map(f)`. */
  function MapSeq<A, B>(s: seq<A>, f: A -> B): (r: seq<B>)
    ensures |r| == |s|
    ensures forall i :: 0 <= i < |s| ==> r[i] == f(s[i])
  {
    if s == [] then [] else [f(s[0])] + MapSeq(s[1..], f)
  }

  /** `list.map { if (idOf(it) == id) x else it }`. */
  function ReplaceById<T>(s: seq<T>, idOf: T -> int, id: int, x: T): (r: seq<T>)
    ensures |r| == |s|
    ensures forall i :: 0 <= i < |s| && idOf(s[i]) == id ==> r[i] == x
    ensures forall i :: 0 <= i < |s| && idOf(s[i]) != id ==> r[i] == s[i]
  {
    if s == [] then []
    else [if idOf(s[0]) == id then x else s[0]] + ReplaceById(s[1..], idOf, id, x)
  }

  /** Number of items carrying `id`. */
  function CountId<T>(s: seq<T>, idOf: T -> int, id: int): (n: nat)
    ensures n <= |s|
  {
    if s == [] then 0 else (if idOf(s[0]) == id then 1 else 0) + CountId(s[1..], idOf, id)
  }

  /** `list.filter { idOf(it) != id }`. */
  function RemoveById<T>(s: seq<T>, idOf: T -> int, id: int): (r: seq<T>)
    ensures |r| == |s| - CountId(s, idOf, id)
    ensures forall i :: 0 <= i < |r| ==> idOf(r[i]) != id
    ensures forall i :: 0 <= i < |s| && idOf(s[i]) != id ==> s[i] in r
    ensures forall i :: 0 <= i < |r| ==> r[i] in s
  {
    if s == [] then []
    else if idOf(s[0]) == id then RemoveById(s[1..], idOf, id)
    else [s[0]] + RemoveById(s[1..], idOf, id)
  }

  /** `list.find { idOf(it) == id }`: the first item carrying `id`, if any. */
  function FindById<T>(s: seq<T>, idOf: T -> int, id: int): (r: Option<T>)
    ensures r.None? <==> forall i :: 0 <= i < |s| ==> idOf(s[i]) != id
    ensures r.Some? ==> exists i :: 0 <= i < |s| && s[i] == r.value && idOf(s[i]) == id
                                   && forall j :: 0 <= j < i ==> idOf(s[j]) != id
  {
    if s == [] then None
    else if idOf(s[0]) == id then
      assert s[0] == s[0];
      Some(s[0])
    else
      var r := FindById(s[1..], idOf, id);
      assert r.Some? ==> exists i :: 0 <= i < |s| && s[i] == r.value && idOf(s[i]) == id
                                     && forall j :: 0 <= j < i ==> idOf(s[j]) != id by {
        if r.Some? {
          var k :| 0 <= k < |s[1..]| && s[1..][k] == r.value && idOf(s[1..][k]) == id
                   && forall j :: 0 <= j < k ==> idOf(s[1..][j]) != id;
          assert s[k + 1] == r.value;
        }
      }
      r
  }

  /** Filtering distributes over concatenation: survivors keep their relative order. */
  lemma {:induction false} RemoveByIdConcat<T>(a: seq<T>, b: seq<T>, idOf: T -> int, id: int)
    ensures RemoveById(a + b, idOf, id) == RemoveById(a, idOf, id) + RemoveById(b, idOf, id)
    decreases |a|
  {
    if a == [] {
      assert a + b == b;
    } else {
      assert (a + b)[0] == a[0];
      assert (a + b)[1..] == a[1..] + b;
      RemoveByIdConcat(a[1..], b, idOf, id);
      if idOf(a[0]) != id {
        calc {
          RemoveById(a + b, idOf, id);
          [a[0]] + RemoveById(a[1..] + b, idOf, id);
          [a[0]] + (RemoveById(a[1..], idOf, id) + RemoveById(b, idOf, id));
          ([a[0]] + RemoveById(a[1..], idOf, id)) + RemoveById(b, idOf, id);
        }
      }
    }
  }

  /** Removing an id the list does not hold leaves the list as it is. */
  lemma {:induction false} RemoveByIdAbsent<T>(s: seq<T>, idOf: T -> int, id: int)
    requires forall i :: 0 <= i < |s| ==> idOf(s[i]) != id
    ensures RemoveById(s, idOf, id) == s
  {
    if s != [] {
      RemoveByIdAbsent(s[1..], idOf, id);
      assert [s[0]] + s[1..] == s;
    }
  }

  /** A second removal of the same id changes nothing. */
  lemma RemoveByIdIdempotent<T>(s: seq<T>, idOf: T -> int, id: int)
    ensures RemoveById(RemoveById(s, idOf, id), idOf, id) == RemoveById(s, idOf, id)
  {
    RemoveByIdAbsent(RemoveById(s, idOf, id), idOf, id);
  }

  /** `find` comes back empty exactly when `filter` keeps everything. */
  lemma FindNoneIffRemoveKeepsAll<T>(s: seq<T>, idOf: T -> int, id: int)
    ensures FindById(s, idOf, id).None? <==> RemoveById(s, idOf, id) == s
  {
    if FindById(s, idOf, id).None? {
      RemoveByIdAbsent(s, idOf, id);
    } else {
      CountIdPositive(s, idOf, id);
    }
  }

  lemma {:induction false} CountIdPositive<T>(s: seq<T>, idOf: T -> int, id: int)
    requires exists i :: 0 <= i < |s| && idOf(s[i]) == id
    ensures CountId(s, idOf, id) > 0
  {
    if idOf(s[0]) != id {
      var i :| 0 <= i < |s| && idOf(s[i]) == id;
      assert s[1..][i - 1] == s[i];
      CountIdPositive(s[1..], idOf, id);
    }
  }

  /** Replacing an id the list does not hold leaves the list as it is. */
  lemma {:induction false} ReplaceByIdAbsent<T>(s: seq<T>, idOf: T -> int, id: int, x: T)
    ensures (forall i :: 0 <= i < |s| ==> idOf(s[i]) != id) ==> ReplaceById(s, idOf, id, x) == s
  {
    if s != [] && forall i :: 0 <= i < |s| ==> idOf(s[i]) != id {
      assert forall i :: 0 <= i < |s[1..]| ==> idOf(s[1..][i]) == idOf(s[i + 1]);
      ReplaceByIdAbsent(s[1..], idOf, id, x);
      assert [s[0]] + s[1..] == s;
    }
  }

  /**
   * Replacing and then removing an id is the same as removing it: a
   * replacement touches nothing but the items that carry the id.
   */
  lemma {:induction false} RemoveAfterReplace<T>(s: seq<T>, idOf: T -> int, id: int, x: T)
    requires idOf(x) == id
    ensures RemoveById(ReplaceById(s, idOf, id, x), idOf, id) == RemoveById(s, idOf, id)
  {
    if s != [] {
      var r := ReplaceById(s, idOf, id, x);
      assert r[1..] == ReplaceById(s[1..], idOf, id, x);
      RemoveAfterReplace(s[1..], idOf, id, x);
    }
  }
}
