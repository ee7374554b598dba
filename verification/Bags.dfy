/** How often an element occurs in finitely many multisets together: used to state that nothing
    is lost or duplicated while it moves between the lists of many objects. */
module Bags {

  function Total<T(==)>(parts: seq<multiset<T>>, x: T): nat {
    if parts == [] then 0 else parts[0][x] + Total(parts[1..], x)
  }

  lemma HeadAndTail<T>(s: seq<T>, x: T)
    requires s != []
    ensures multiset(s)[x] == (if s[0] == x then 1 else 0) + multiset(s[1..])[x]
  {
    assert s == [s[0]] + s[1..];
  }

  lemma {:induction false} TotalAppend<T>(parts: seq<multiset<T>>, b: multiset<T>, x: T)
    ensures Total(parts + [b], x) == Total(parts, x) + b[x]
  {
    if parts == [] {
      assert parts + [b] == [b];
    } else {
      assert (parts + [b])[1..] == parts[1..] + [b];
      TotalAppend(parts[1..], b, x);
    }
  }

  lemma {:induction false} TotalUpdate<T>(parts: seq<multiset<T>>, i: nat, b: multiset<T>, x: T)
    requires i < |parts|
    ensures Total(parts[i := b], x) == Total(parts, x) - parts[i][x] + b[x]
  {
    if i == 0 {
      assert parts[0 := b][1..] == parts[1..];
    } else {
      assert parts[i := b][1..] == parts[1..][i - 1 := b];
      TotalUpdate(parts[1..], i - 1, b, x);
    }
  }

  lemma {:induction false} PartOfTotal<T>(parts: seq<multiset<T>>, i: nat, x: T)
    requires i < |parts|
    ensures parts[i][x] <= Total(parts, x)
  {
    if i > 0 {
      PartOfTotal(parts[1..], i - 1, x);
    }
  }

  /** What occurs in the total occurs in one of the parts. */
  lemma {:induction false} WitnessOfTotal<T>(parts: seq<multiset<T>>, x: T) returns (i: nat)
    requires Total(parts, x) > 0
    ensures i < |parts| && x in parts[i]
  {
    if x in parts[0] {
      i := 0;
    } else {
      i := WitnessOfTotal(parts[1..], x);
      i := i + 1;
    }
  }

  lemma {:induction false} TotalOfNone<T>(parts: seq<multiset<T>>, x: T)
    requires forall i :: 0 <= i < |parts| ==> x !in parts[i]
    ensures Total(parts, x) == 0
  {
    if parts != [] {
      TotalOfNone(parts[1..], x);
    }
  }
}
