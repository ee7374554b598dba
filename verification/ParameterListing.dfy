/** Listing parameter names by prefix and depth (list_parameters, rclpy/node.py:946-1004). */
module ParameterListing {
  import opened DottedNames
  import opened Lists

  const DEPTH_RECURSIVE: nat := 0

  /** The condition under which the loop keeps a name. */
  predicate Listed(name: string, prefixes: seq<string>, depth: nat) {
    || (prefixes == [] && depth == DEPTH_RECURSIVE)
    || (prefixes == [] && Dots(name) < depth)
    || exists i :: 0 <= i < |prefixes| && UnderPrefix(name, prefixes[i], depth)
  }

  predicate UnderPrefix(name: string, prefix: string, depth: nat) {
    name == prefix || (prefix + "." <= name && (depth == DEPTH_RECURSIVE || Dots(name[|prefix| + 1..]) < depth))
  }

  /** The rule in terms of segments: at most `depth` of them (any number for depth 0), counted after
      the prefix if there are prefixes. */
  ghost predicate WithinDepth(name: string, prefixes: seq<string>, depth: nat) {
    if prefixes == [] then depth == 0 || |Split(name)| <= depth
    else exists p :: p in prefixes && Below(name, p, depth)
  }

  /** `name` consists of the segments of `p` and at most `depth` more. */
  ghost predicate Below(name: string, p: string, depth: nat) {
    Split(p) <= Split(name) && (depth == 0 || |Split(name)| - |Split(p)| <= depth)
  }

  lemma UnderPrefixBySegments(name: string, p: string, depth: nat)
    ensures UnderPrefix(name, p, depth) <==> Below(name, p, depth)
  {
    PrefixIsBySegments(p, name);
    EqualIsBySegments(p, name);
    if p + "." <= name {
      SegmentsAndDots(name[|p| + 1..]);
    }
  }

  /** Main result: the textual condition of the code is the segment rule, for all names. */
  lemma ListedIsWithinDepth(name: string, prefixes: seq<string>, depth: nat)
    ensures Listed(name, prefixes, depth) <==> WithinDepth(name, prefixes, depth)
  {
    SegmentsAndDots(name);
    forall p ensures UnderPrefix(name, p, depth) <==> Below(name, p, depth) {
      UnderPrefixBySegments(name, p, depth);
    }
    if p :| p in prefixes && UnderPrefix(name, p, depth) {
      var i :| 0 <= i < |prefixes| && prefixes[i] == p;
    }
  }

  /** A greater depth lists no fewer names, and the recursive listing has them all. */
  lemma ListingGrowsWithDepth(name: string, prefixes: seq<string>, depth: nat, deeper: nat)
    requires Listed(name, prefixes, depth)
    requires deeper == 0 || (depth != 0 && depth <= deeper)
    ensures Listed(name, prefixes, deeper)
  {
    ListedIsWithinDepth(name, prefixes, depth);
    ListedIsWithinDepth(name, prefixes, deeper);
  }

  datatype Listing = Rejected | Listing(names: seq<string>, prefixes: seq<string>)

  /** The parent of a name that has one. */
  function Parent(name: string): string
    requires !DotFree(name)
  {
    name[..LastDot(name)]
  }

  /** The listing: exactly the names that meet the rule, each once, and exactly the immediate
      parents of the listed names, each once. The order is that of the dictionary, which is not
      modelled. A negative depth is an error. */
  method ListParameters(params: set<string>, prefixes: seq<string>, depth: int) returns (r: Listing)
    ensures depth < 0 <==> r.Rejected?
    ensures depth >= 0 ==>
      && NoDuplicates(r.names) && NoDuplicates(r.prefixes)
      && (forall n :: n in r.names <==> n in params && WithinDepth(n, prefixes, depth))
      && (forall n :: n in r.names && !DotFree(n) ==> Parent(n) in r.prefixes)
      && (forall p :: p in r.prefixes ==> exists n :: n in r.names && !DotFree(n) && Parent(n) == p)
  {
    if depth < 0 {
      return Rejected;
    }
    var names: seq<string>, parents: seq<string> := [], [];
    var todo := params;
    while todo != {}
      invariant todo <= params && NoDuplicates(names) && NoDuplicates(parents)
      invariant forall n :: n in names <==> n in params - todo && Listed(n, prefixes, depth)
      invariant forall n :: n in names && !DotFree(n) ==> Parent(n) in parents
      invariant forall p :: p in parents ==> exists n :: n in names && !DotFree(n) && Parent(n) == p
      decreases todo
    {
      var name :| name in todo;
      todo := todo - {name};
      if Listed(name, prefixes, depth) {
        ghost var names0 := names;
        names := names + [name];
        assert name in names && forall n :: n in names0 ==> n in names;
        var last := LastDot(name);
        if last != -1 {
          var prefix := name[..last];
          if prefix !in parents {
            parents := parents + [prefix];
          }
        }
      }
    }
    forall n ensures Listed(n, prefixes, depth) <==> WithinDepth(n, prefixes, depth) {
      ListedIsWithinDepth(n, prefixes, depth);
    }
    r := Listing(names, parents);
  }
}
