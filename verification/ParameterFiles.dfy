/** Flattening nested parameter dictionaries (_unpack_parameter_dict, rclpy/parameter.py:545-567). */
module ParameterFiles {
  import opened Options
  import opened DottedNames

  /** What a parameter file holds: values, and dictionaries in insertion order. */
  datatype Tree<V> = Leaf(value: V) | Dict(items: seq<(string, Tree<V>)>)

  datatype Message<M> = Message(name: string, value: M)

  /** The flattening of the first `n` items of a dictionary. */
  function FlattenFirst<V, M>(convert: V -> M, namespace: string, dict: Tree<V>, n: nat): map<string, Message<M>>
    requires dict.Dict? && n <= |dict.items|
    decreases dict, n
  {
    if n == 0 then map[]
    else
      var before := FlattenFirst(convert, namespace, dict, n - 1);
      var (key, tree) := dict.items[n - 1];
      var name := namespace + key;
      match tree
      case Leaf(v) => before[name := Message(name, convert(v))]
      case Dict(children) => before + FlattenFirst(convert, name + ".", tree, |children|)
  }

  function Flatten<V, M>(convert: V -> M, namespace: string, dict: Tree<V>): map<string, Message<M>>
    requires dict.Dict?
  {
    FlattenFirst(convert, namespace, dict, |dict.items|)
  }

  /** The recursion of the source: a loop that fills a local dictionary. */
  method Unpack<V, M>(convert: V -> M, namespace: string, dict: Tree<V>) returns (parameters: map<string, Message<M>>)
    requires dict.Dict?
    ensures parameters == Flatten(convert, namespace, dict)
    decreases dict
  {
    parameters := map[];
    for i := 0 to |dict.items|
      invariant parameters == FlattenFirst(convert, namespace, dict, i)
    {
      var name := namespace + dict.items[i].0;
      var tree := dict.items[i].1;
      match tree {
        case Leaf(v) =>
          parameters := parameters[name := Message(name, convert(v))];
        case Dict(children) =>
          var nested := Unpack(convert, name + ".", tree);
          parameters := parameters + nested;
      }
    }
  }

  /** Keys are distinct, as in any dictionary, and contain no dots. */
  ghost predicate WellFormed<V>(dict: Tree<V>)
    requires dict.Dict?
    decreases dict
  {
    && (forall i, j :: 0 <= i < j < |dict.items| ==> dict.items[i].0 != dict.items[j].0)
    && (forall i :: 0 <= i < |dict.items| ==> DotFree(dict.items[i].0))
    && (forall i :: 0 <= i < |dict.items| && dict.items[i].1.Dict? ==> WellFormed(dict.items[i].1))
  }

  /** The value at a path of keys among the first `n` items, if the path leads to one. */
  function LookupFirst<V>(dict: Tree<V>, n: nat, path: seq<string>): Option<V>
    requires dict.Dict? && n <= |dict.items|
    decreases dict, n
  {
    if n == 0 || path == [] then None
    else
      var (key, tree) := dict.items[n - 1];
      if path[0] != key then LookupFirst(dict, n - 1, path)
      else match tree
        case Leaf(v) => if |path| == 1 then Some(v) else None
        case Dict(children) => LookupFirst(tree, |children|, path[1..])
  }

  function Lookup<V>(dict: Tree<V>, path: seq<string>): Option<V>
    requires dict.Dict?
  {
    LookupFirst(dict, |dict.items|, path)
  }

  lemma {:induction false} LookupNeedsKey<V>(dict: Tree<V>, n: nat, path: seq<string>)
    requires dict.Dict? && n <= |dict.items| && path != []
    requires forall i :: 0 <= i < n ==> dict.items[i].0 != path[0]
    ensures LookupFirst(dict, n, path) == None
    decreases n
  {
    if n > 0 {
      LookupNeedsKey(dict, n - 1, path);
    }
  }

  lemma SplitHead(rest: string, key: string)
    requires DotFree(key)
    ensures rest == key <==> Split(rest) == [key]
    ensures key + "." <= rest <==> |Split(rest)| > 1 && Split(rest)[0] == key
    ensures key + "." <= rest ==> Split(rest)[1..] == Split(rest[|key| + 1..])
  {
    SplitOfDotFree(key);
    EqualIsBySegments(rest, key);
    PrefixIsBySegments(key, rest);
  }

  ghost predicate NamesAPath<V, M>(convert: V -> M, namespace: string, dict: Tree<V>, n: nat, name: string)
    requires dict.Dict? && n <= |dict.items|
  {
    var flat := FlattenFirst(convert, namespace, dict, n);
    && (name in flat <==> namespace <= name && LookupFirst(dict, n, Split(name[|namespace|..])).Some?)
    && (name in flat ==> flat[name] == Message(name, convert(LookupFirst(dict, n, Split(name[|namespace|..])).value)))
  }

  lemma {:induction false} FlattenFirstNamesPaths<V, M>(convert: V -> M, namespace: string, dict: Tree<V>, n: nat,
                                                        name: string)
    requires dict.Dict? && n <= |dict.items| && WellFormed(dict)
    ensures NamesAPath(convert, namespace, dict, n, name)
    decreases dict, n
  {
    if n > 0 {
      var (key, tree) := dict.items[n - 1];
      FlattenFirstNamesPaths(convert, namespace, dict, n - 1, name);
      if namespace <= name {
        var rest := name[|namespace|..];
        assert name == namespace + rest;
        SplitHead(rest, key);
        if Split(rest)[0] == key {
          LookupNeedsKey(dict, n - 1, Split(rest));
        }
      }
      match tree
      case Leaf(v) => LeafNamesPath(convert, namespace, dict, n, name, v);
      case Dict(children) =>
        FlattenFirstNamesPaths(convert, namespace + key + ".", tree, |children|, name);
        DictNamesPath(convert, namespace, dict, n, name);
    }
  }

  /** The step for an item that is a value. */
  lemma LeafNamesPath<V, M>(convert: V -> M, namespace: string, dict: Tree<V>, n: nat, name: string, v: V)
    requires dict.Dict? && 0 < n <= |dict.items| && dict.items[n - 1].1 == Leaf(v) && DotFree(dict.items[n - 1].0)
    requires NamesAPath(convert, namespace, dict, n - 1, name)
    requires namespace <= name && Split(name[|namespace|..])[0] == dict.items[n - 1].0 ==>
      LookupFirst(dict, n - 1, Split(name[|namespace|..])) == None
    ensures NamesAPath(convert, namespace, dict, n, name)
  {
    var key := dict.items[n - 1].0;
    if namespace <= name {
      var rest := name[|namespace|..];
      assert name == namespace + rest;
      SplitHead(rest, key);
      assert name == namespace + key <==> rest == key;
      assert |Split(rest)| == 1 ==> Split(rest) == [Split(rest)[0]];
    }
  }

  /** The step for an item that is a dictionary. */
  lemma DictNamesPath<V, M>(convert: V -> M, namespace: string, dict: Tree<V>, n: nat, name: string)
    requires dict.Dict? && 0 < n <= |dict.items| && dict.items[n - 1].1.Dict? && DotFree(dict.items[n - 1].0)
    requires NamesAPath(convert, namespace, dict, n - 1, name)
    requires var (key, tree) := dict.items[n - 1];
      NamesAPath(convert, namespace + key + ".", tree, |tree.items|, name)
    requires namespace <= name && Split(name[|namespace|..])[0] == dict.items[n - 1].0 ==>
      LookupFirst(dict, n - 1, Split(name[|namespace|..])) == None
    ensures NamesAPath(convert, namespace, dict, n, name)
  {
    var (key, tree) := dict.items[n - 1];
    if namespace <= name {
      var rest := name[|namespace|..];
      assert name == namespace + rest;
      SplitHead(rest, key);
      if key + "." <= rest {
        assert name == namespace + key + "." + rest[|key| + 1..];
        assert name[|namespace + key + "."|..] == rest[|key| + 1..];
      }
    }
  }

  /** Main result: for dictionaries with dot-free keys, flattening and looking up are inverse. A
      name is produced exactly when splitting it at the dots (after the namespace) gives the path
      of a value, and then its message carries the name itself and that value. */
  lemma FlattenedNamesArePaths<V, M>(convert: V -> M, namespace: string, dict: Tree<V>, name: string)
    requires dict.Dict? && WellFormed(dict)
    ensures var flat := Flatten(convert, namespace, dict);
      && (name in flat <==> namespace <= name && Lookup(dict, Split(name[|namespace|..])).Some?)
      && (name in flat ==> flat[name] == Message(name, convert(Lookup(dict, Split(name[|namespace|..])).value)))
  {
    FlattenFirstNamesPaths(convert, namespace, dict, |dict.items|, name);
  }

  lemma {:induction false} PathsAreDotFree<V>(dict: Tree<V>, n: nat, path: seq<string>)
    requires dict.Dict? && n <= |dict.items| && WellFormed(dict) && LookupFirst(dict, n, path).Some?
    ensures path != [] && forall k :: k in path ==> DotFree(k)
    decreases dict, n
  {
    var (key, tree) := dict.items[n - 1];
    if path[0] != key {
      PathsAreDotFree(dict, n - 1, path);
    } else {
      match tree
      case Leaf(v) =>
      case Dict(children) =>
        PathsAreDotFree(tree, |children|, path[1..]);
        assert path == [path[0]] + path[1..];
    }
  }

  // ----- dots in keys -----

  lemma {:induction false} NamespaceSplits<V, M>(convert: V -> M, a: string, b: string, dict: Tree<V>, n: nat, y: string)
    requires dict.Dict? && n <= |dict.items|
    ensures var outer, inner := FlattenFirst(convert, a + b, dict, n), FlattenFirst(convert, b, dict, n);
      && (a + y in outer <==> y in inner)
      && (y in inner ==> outer[a + y].value == inner[y].value)
    decreases dict, n
  {
    if n > 0 {
      var (key, tree) := dict.items[n - 1];
      NamespaceSplits(convert, a, b, dict, n - 1, y);
      assert (a + b) + key == a + (b + key);
      SamePrefix(a, y, b + key);
      if tree.Dict? {
        assert (a + b) + key + "." == a + (b + key + ".");
        NamespaceSplits(convert, a, b + key + ".", tree, |tree.items|, y);
      }
    }
  }

  lemma SamePrefix(a: string, y: string, z: string)
    ensures a + y == a + z <==> y == z
  {
    assert (a + y)[|a|..] == y && (a + z)[|a|..] == z;
  }

  lemma {:induction false} NamesMatchKeys<V, M>(convert: V -> M, namespace: string, dict: Tree<V>, n: nat, name: string)
    requires dict.Dict? && n <= |dict.items|
    ensures name in FlattenFirst(convert, namespace, dict, n) ==>
      namespace <= name && FlattenFirst(convert, namespace, dict, n)[name].name == name
    decreases dict, n
  {
    if n > 0 {
      var (key, tree) := dict.items[n - 1];
      NamesMatchKeys(convert, namespace, dict, n - 1, name);
      if tree.Dict? {
        NamesMatchKeys(convert, namespace + key + ".", tree, |tree.items|, name);
      }
    }
  }

  /** For every dictionary, whatever its keys: a namespace does nothing but prefix every name, and
      every message carries the name it is entered under. */
  lemma NamespaceOnlyPrefixes<V, M>(convert: V -> M, namespace: string, dict: Tree<V>, name: string)
    requires dict.Dict?
    ensures var flat, plain := Flatten(convert, namespace, dict), Flatten(convert, "", dict);
      && (namespace + name in flat <==> name in plain)
      && (name in plain ==> flat[namespace + name].value == plain[name].value)
      && (name in flat ==> namespace <= name && flat[name].name == name)
  {
    assert namespace + "" == namespace;
    NamespaceSplits(convert, namespace, "", dict, |dict.items|, name);
    NamesMatchKeys(convert, namespace, dict, |dict.items|, name);
  }

  /** Keys are distinct, as in any dictionary. */
  ghost predicate DistinctKeys<V>(dict: Tree<V>)
    requires dict.Dict?
    decreases dict
  {
    && (forall i, j :: 0 <= i < j < |dict.items| ==> dict.items[i].0 != dict.items[j].0)
    && (forall i :: 0 <= i < |dict.items| && dict.items[i].1.Dict? ==> DistinctKeys(dict.items[i].1))
  }

  /** `path` leads to a value and its keys join to the rest of `name`. */
  ghost predicate Joins<V>(namespace: string, dict: Tree<V>, n: nat, name: string, path: seq<string>)
    requires dict.Dict? && n <= |dict.items|
  {
    path != [] && LookupFirst(dict, n, path).Some? && name == namespace + Join(path)
  }

  /** A path for the first `n - 1` items is one for the first `n`. */
  lemma EarlierPath<V>(dict: Tree<V>, n: nat, path: seq<string>)
    requires dict.Dict? && 0 < n <= |dict.items| && DistinctKeys(dict) && path != []
    requires LookupFirst(dict, n - 1, path).Some?
    ensures LookupFirst(dict, n, path) == LookupFirst(dict, n - 1, path)
  {
    if path[0] == dict.items[n - 1].0 {
      LookupNeedsKey(dict, n - 1, path);
    }
  }

  /** A name that is produced comes from a path that joins to it, and carries its value. */
  lemma {:induction false} NameHasPath<V, M>(convert: V -> M, namespace: string, dict: Tree<V>, n: nat, name: string)
    returns (path: seq<string>)
    requires dict.Dict? && n <= |dict.items| && DistinctKeys(dict)
    requires name in FlattenFirst(convert, namespace, dict, n)
    ensures Joins(namespace, dict, n, name, path)
    ensures FlattenFirst(convert, namespace, dict, n)[name].value == convert(LookupFirst(dict, n, path).value)
    decreases dict, n
  {
    var (key, tree) := dict.items[n - 1];
    if tree.Leaf? && name == namespace + key {
      path := [key];
    } else if tree.Dict? && name in FlattenFirst(convert, namespace + key + ".", tree, |tree.items|) {
      var rest := NameHasPath(convert, namespace + key + ".", tree, |tree.items|, name);
      path := [key] + rest;
      assert path[1..] == rest;
      assert namespace + Join(path) == (namespace + key + ".") + Join(rest);
    } else {
      path := NameHasPath(convert, namespace, dict, n - 1, name);
      EarlierPath(dict, n, path);
    }
  }

  lemma {:induction false} PathHasName<V, M>(convert: V -> M, namespace: string, dict: Tree<V>, n: nat, path: seq<string>)
    requires dict.Dict? && n <= |dict.items| && path != [] && LookupFirst(dict, n, path).Some?
    ensures namespace + Join(path) in FlattenFirst(convert, namespace, dict, n)
    decreases dict, n
  {
    var (key, tree) := dict.items[n - 1];
    if path[0] != key {
      PathHasName(convert, namespace, dict, n - 1, path);
    } else if tree.Leaf? {
      assert path == [key];
    } else {
      assert path[1..] != [];
      PathHasName(convert, namespace + key + ".", tree, |tree.items|, path[1..]);
      assert namespace + Join(path) == (namespace + key + ".") + Join(path[1..]);
    }
  }

  /** Main result for every dictionary, dots in keys or not: the names produced are exactly the
      joined paths of its values, and each carries the value of a path that joins to it. */
  lemma NamesAreJoinedPaths<V, M>(convert: V -> M, namespace: string, dict: Tree<V>, name: string)
    requires dict.Dict? && DistinctKeys(dict)
    ensures var flat := Flatten(convert, namespace, dict);
      && (name in flat <==> exists path :: Joins(namespace, dict, |dict.items|, name, path))
      && (name in flat ==> exists path ::
            Joins(namespace, dict, |dict.items|, name, path) && flat[name] == Message(name, convert(Lookup(dict, path).value)))
  {
    NamesMatchKeys(convert, namespace, dict, |dict.items|, name);
    if name in Flatten(convert, namespace, dict) {
      var path := NameHasPath(convert, namespace, dict, |dict.items|, name);
    }
    if path :| Joins(namespace, dict, |dict.items|, name, path) {
      PathHasName(convert, namespace, dict, |dict.items|, path);
    }
  }

  /** No key of a dictionary extends another key of it by a dot. Dot-free keys are a special case. */
  ghost predicate Unambiguous<V>(dict: Tree<V>)
    requires dict.Dict?
    decreases dict
  {
    && (forall i, j :: 0 <= i < |dict.items| && 0 <= j < |dict.items| ==> !(dict.items[i].0 + "." <= dict.items[j].0))
    && (forall i :: 0 <= i < |dict.items| && dict.items[i].1.Dict? ==> Unambiguous(dict.items[i].1))
  }

  lemma {:induction false} WellFormedIsUnambiguous<V>(dict: Tree<V>)
    requires dict.Dict? && WellFormed(dict)
    ensures Unambiguous(dict) && DistinctKeys(dict)
    decreases dict
  {
    forall i, j | 0 <= i < |dict.items| && 0 <= j < |dict.items| ensures !(dict.items[i].0 + "." <= dict.items[j].0) {
      var a, b := dict.items[i].0, dict.items[j].0;
      if |a| < |b| {
        assert b[|a|] in b && (a + ".")[|a|] == '.';
      }
    }
    forall i | 0 <= i < |dict.items| && dict.items[i].1.Dict?
      ensures Unambiguous(dict.items[i].1) && DistinctKeys(dict.items[i].1)
    {
      WellFormedIsUnambiguous(dict.items[i].1);
    }
  }

  /** The item through which a path leads. */
  lemma {:induction false} PathItem<V>(dict: Tree<V>, n: nat, path: seq<string>) returns (i: nat)
    requires dict.Dict? && n <= |dict.items| && LookupFirst(dict, n, path).Some?
    ensures i < n && path != [] && dict.items[i].0 == path[0]
    ensures match dict.items[i].1
      case Leaf(v) => |path| == 1 && LookupFirst(dict, n, path) == Some(v)
      case Dict(children) => |path| > 1 && LookupFirst(dict, n, path) == Lookup(dict.items[i].1, path[1..])
    decreases n
  {
    if path[0] != dict.items[n - 1].0 {
      i := PathItem(dict, n - 1, path);
    } else {
      i := n - 1;
    }
  }

  /** The text of a path is its first key, alone or followed by a dot and the rest. */
  lemma JoinHead(path: seq<string>)
    requires path != []
    ensures path[0] <= Join(path)
    ensures |path| == 1 ==> Join(path) == path[0]
    ensures |path| > 1 ==> path[0] + "." <= Join(path) && Join(path)[|path[0]| + 1..] == Join(path[1..])
  {
    if |path| > 1 {
      assert Join(path) == path[0] + "." + Join(path[1..]);
    }
  }

  /** In an unambiguous dictionary different values have different names. */
  lemma {:induction false} UnambiguousPathsDiffer<V>(dict: Tree<V>, p: seq<string>, q: seq<string>)
    requires dict.Dict? && DistinctKeys(dict) && Unambiguous(dict)
    requires Lookup(dict, p).Some? && Lookup(dict, q).Some? && p != [] && q != [] && Join(p) == Join(q)
    ensures p == q
    decreases dict
  {
    var i := PathItem(dict, |dict.items|, p);
    var j := PathItem(dict, |dict.items|, q);
    JoinHead(p);
    JoinHead(q);
    SameHead(p[0], q[0], Join(p), |p| > 1, |q| > 1);
    assert i == j;
    if dict.items[i].1.Dict? {
      UnambiguousPathsDiffer(dict.items[i].1, p[1..], q[1..]);
      assert p == [p[0]] + p[1..] && q == [q[0]] + q[1..];
    } else {
      assert p == [p[0]] && q == [q[0]];
    }
  }

  lemma SameHead(a: string, b: string, text: string, moreA: bool, moreB: bool)
    requires a <= text && b <= text
    requires if moreA then a + "." <= text else text == a
    requires if moreB then b + "." <= text else text == b
    requires !(a + "." <= b) && !(b + "." <= a)
    ensures a == b
  {
    assert a == text[..|a|] && b == text[..|b|];
    assert moreA ==> text[..|a| + 1] == a + ".";
    assert moreB ==> text[..|b| + 1] == b + ".";
  }

  /** Hence every value appears, under its own name: the joined path. With dot-free keys splitting
      the name gives the path back. */
  lemma EveryValueHasItsOwnName<V, M>(convert: V -> M, namespace: string, dict: Tree<V>, path: seq<string>,
                                      other: seq<string>)
    requires dict.Dict? && DistinctKeys(dict) && Unambiguous(dict) && Lookup(dict, path).Some? && Lookup(dict, other).Some?
    ensures path != [] && other != []
    ensures namespace + Join(path) == namespace + Join(other) ==> path == other
    ensures var name := namespace + Join(path);
      && name in Flatten(convert, namespace, dict)
      && Flatten(convert, namespace, dict)[name] == Message(name, convert(Lookup(dict, path).value))
    ensures WellFormed(dict) ==> Split(Join(path)) == path
  {
    var i := PathItem(dict, |dict.items|, path);
    var j := PathItem(dict, |dict.items|, other);
    SamePrefix(namespace, Join(path), Join(other));
    if Join(path) == Join(other) {
      UnambiguousPathsDiffer(dict, path, other);
    }
    var name := namespace + Join(path);
    PathHasName(convert, namespace, dict, |dict.items|, path);
    NamesMatchKeys(convert, namespace, dict, |dict.items|, name);
    var source := NameHasPath(convert, namespace, dict, |dict.items|, name);
    SamePrefix(namespace, Join(path), Join(source));
    UnambiguousPathsDiffer(dict, path, source);
    if WellFormed(dict) {
      PathsAreDotFree(dict, |dict.items|, path);
      SplitUndoesJoin(path);
    }
  }

  /** Without that, values can collide: two values, one name. */
  lemma DottedKeysCollide()
    ensures exists dict: Tree<int> ::
      && dict.Dict? && Lookup(dict, ["a.b"]) == Some(1) && Lookup(dict, ["a", "b"]) == Some(2)
      && Flatten((v: int) => v, "", dict).Keys == {"a.b"}
  {
    var inner: Tree<int> := Dict([("b", Leaf(2))]);
    var dict: Tree<int> := Dict([("a.b", Leaf(1)), ("a", inner)]);
    var id := (v: int) => v;
    assert ["a", "b"][1..] == ["b"];
    assert LookupFirst(inner, 1, ["b"]) == Some(2);
    assert LookupFirst(dict, 1, ["a.b"]) == Some(1);
    assert "" + "a" + "." + "b" == "a.b" && "" + "a.b" == "a.b";
    assert FlattenFirst(id, "" + "a" + ".", inner, 0) == map[];
    assert FlattenFirst(id, "" + "a" + ".", inner, 1).Keys == {"a.b"};
    assert FlattenFirst(id, "", dict, 0) == map[];
    assert FlattenFirst(id, "", dict, 1).Keys == {"a.b"};
    assert FlattenFirst(id, "", dict, 2).Keys == {"a.b"};
    assert Flatten(id, "", dict).Keys == {"a.b"};
  }
}
