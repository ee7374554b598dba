/** Names as sequences of segments separated by dots. */
module DottedNames {

  predicate DotFree(s: string) { '.' !in s }

  function Split(s: string): (segments: seq<string>)
    ensures segments != []
  {
    if s == "" then [""]
    else if s[0] == '.' then [""] + Split(s[1..])
    else var rest := Split(s[1..]); [[s[0]] + rest[0]] + rest[1..]
  }

  function Join(segments: seq<string>): string
    requires segments != []
  {
    if |segments| == 1 then segments[0] else segments[0] + "." + Join(segments[1..])
  }

  function Dots(s: string): nat {
    if s == "" then 0 else (if s[0] == '.' then 1 else 0) + Dots(s[1..])
  }

  lemma {:induction false} SplitOfDotFree(s: string)
    requires DotFree(s)
    ensures Split(s) == [s]
  {
    if s != "" {
      SplitOfDotFree(s[1..]);
      assert [s[0]] + s[1..] == s && s[0] in s;
    }
  }

  lemma {:induction false} SplitConcat(a: string, b: string)
    ensures Split(a + "." + b) == Split(a) + Split(b)
  {
    if a == "" {
      assert (a + "." + b)[1..] == b;
    } else {
      assert (a + "." + b)[1..] == a[1..] + "." + b;
      SplitConcat(a[1..], b);
    }
  }

  lemma {:induction false} SplitUndoesJoin(segments: seq<string>)
    requires segments != [] && forall x :: x in segments ==> DotFree(x)
    ensures Split(Join(segments)) == segments
  {
    assert segments[0] in segments;
    SplitOfDotFree(segments[0]);
    if |segments| > 1 {
      assert forall x :: x in segments[1..] ==> x in segments;
      SplitUndoesJoin(segments[1..]);
      SplitConcat(segments[0], Join(segments[1..]));
    }
  }

  lemma {:induction false} JoinUndoesSplit(s: string)
    ensures Join(Split(s)) == s
    ensures forall x :: x in Split(s) ==> DotFree(x)
  {
    if s != "" {
      JoinUndoesSplit(s[1..]);
      var rest := Split(s[1..]);
      if s[0] == '.' {
        assert Split(s)[1..] == rest;
      } else {
        assert Split(s)[1..] == rest[1..];
        assert rest[0] in rest;
      }
    }
  }

  /** Splitting gives a joined path back exactly if its segments contain no dots. */
  lemma SplitUndoesJoinExactly(segments: seq<string>)
    requires segments != []
    ensures Split(Join(segments)) == segments <==> forall x :: x in segments ==> DotFree(x)
  {
    JoinUndoesSplit(Join(segments));
    if forall x :: x in segments ==> DotFree(x) {
      SplitUndoesJoin(segments);
    }
  }

  lemma {:induction false} SegmentsAndDots(s: string)
    ensures |Split(s)| == Dots(s) + 1
  {
    if s != "" {
      SegmentsAndDots(s[1..]);
    }
  }

  lemma {:induction false} JoinConcat(a: seq<string>, b: seq<string>)
    requires a != [] && b != []
    ensures Join(a + b) == Join(a) + "." + Join(b)
  {
    if |a| == 1 {
      assert (a + b)[1..] == b;
    } else {
      assert (a + b)[1..] == a[1..] + b;
      JoinConcat(a[1..], b);
    }
  }

  /** A textual prefix that ends at a dot is a proper prefix of the segments. */
  lemma PrefixIsBySegments(a: string, n: string)
    ensures a + "." <= n <==> |Split(a)| < |Split(n)| && Split(a) <= Split(n)
    ensures a + "." <= n ==> Split(n) == Split(a) + Split(n[|a| + 1..])
  {
    if a + "." <= n {
      TextPrefixSplits(a, n);
    } else if |Split(a)| < |Split(n)| && Split(a) <= Split(n) {
      SegmentPrefixJoins(a, n);
    }
  }

  lemma TextPrefixSplits(a: string, n: string)
    requires a + "." <= n
    ensures Split(n) == Split(a) + Split(n[|a| + 1..])
  {
    assert n == a + "." + n[|a| + 1..];
    SplitConcat(a, n[|a| + 1..]);
  }

  lemma SegmentPrefixJoins(a: string, n: string)
    requires |Split(a)| < |Split(n)| && Split(a) <= Split(n)
    ensures a + "." <= n
  {
    var tail := Split(n)[|Split(a)|..];
    assert Split(n) == Split(a) + tail;
    JoinConcat(Split(a), tail);
    JoinUndoesSplit(a);
    JoinUndoesSplit(n);
    assert n == a + "." + Join(tail);
  }

  lemma EqualIsBySegments(a: string, n: string)
    ensures a == n <==> Split(a) == Split(n)
  {
    JoinUndoesSplit(a);
    JoinUndoesSplit(n);
  }

  /** rfind: the position of the last dot, -1 if there is none. */
  function LastDot(s: string): (i: int)
    ensures -1 <= i < |s|
    ensures i == -1 <==> DotFree(s)
    ensures i >= 0 ==> s[i] == '.' && DotFree(s[i + 1..])
  {
    if s == "" then -1
    else if s[|s| - 1] == '.' then |s| - 1
    else
      var i := LastDot(s[..|s| - 1]);
      assert s == s[..|s| - 1] + [s[|s| - 1]];
      assert i >= 0 ==> s[i + 1..] == s[..|s| - 1][i + 1..] + [s[|s| - 1]];
      i
  }

  /** The text before the last dot consists of all segments but the last. */
  lemma ParentDropsLastSegment(s: string)
    requires !DotFree(s)
    ensures |Split(s)| > 1 && Split(s[..LastDot(s)]) == Split(s)[..|Split(s)| - 1]
  {
    var i := LastDot(s);
    assert s == s[..i] + "." + s[i + 1..];
    SplitConcat(s[..i], s[i + 1..]);
    SplitOfDotFree(s[i + 1..]);
  }
}
