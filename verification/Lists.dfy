/** list.remove and lists without repetition. */
module Lists {

  /** The list without the first occurrence of `e`. */
  function RemoveFirst<E(==)>(s: seq<E>, e: E): seq<E> {
    if s == [] then []
    else if s[0] == e then s[1..]
    else [s[0]] + RemoveFirst(s[1..], e)
  }

  lemma {:induction false} RemoveFirstRemovesOne<E>(s: seq<E>, e: E)
    ensures multiset(RemoveFirst(s, e)) == multiset(s) - multiset{e}
    ensures e !in s ==> RemoveFirst(s, e) == s
  {
    if s != [] {
      assert s == [s[0]] + s[1..];
      if s[0] != e {
        RemoveFirstRemovesOne(s[1..], e);
        assert RemoveFirst(s, e) == [s[0]] + RemoveFirst(s[1..], e);
      }
    }
  }

  ghost predicate NoDuplicates<E>(s: seq<E>) {
    forall i, j :: 0 <= i < j < |s| ==> s[i] != s[j]
  }

  lemma {:induction false} RemoveFirstOfDistinct<E>(s: seq<E>, e: E)
    requires NoDuplicates(s)
    ensures NoDuplicates(RemoveFirst(s, e))
    ensures forall x :: x in RemoveFirst(s, e) <==> x in s && x != e
  {
    if s != [] {
      RemoveFirstOfDistinct(s[1..], e);
      assert s == [s[0]] + s[1..];
      assert s[0] !in s[1..];
      if s[0] != e {
        var rest := RemoveFirst(s[1..], e);
        assert s[0] !in rest;
        assert forall j :: 0 < j < |rest| + 1 ==> ([s[0]] + rest)[j] in rest;
      }
    }
  }

  lemma {:induction false} RemoveFirstOfDistinctAt<E>(s: seq<E>, e: E, i: nat)
    requires NoDuplicates(s) && i < |RemoveFirst(s, e)|
    ensures RemoveFirst(s, e)[i] in s && RemoveFirst(s, e)[i] != e
  {
    if s[0] != e && i > 0 {
      RemoveFirstOfDistinctAt(s[1..], e, i - 1);
    }
  }
}
