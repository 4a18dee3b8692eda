/**
 * The route tree of the router generator as a value: every node holds one
 * URL segment (`part`), the HTTP methods declared for the route that ends
 * there, and its child segments in insertion order. `Append` is what
 * `Path.append` does to the tree, `AppendRoute` what `PathFinder.append`
 * does to the top-level list; the mutable classes in module `Mapper` are
 * proved to follow these functions.
 */
module RouteTree {
  import opened Wrappers
  import opened Text
  import opened Js

  /** `new Method(method)`: a method name as it appears among the Path-Item's keys. */
  datatype Method = Method(verb: string)

  datatype RouteNode = RouteNode(part: string, methods: seq<Method>, children: seq<RouteNode>)

  /** The operations a Path-Item may declare, in the order the generators list them. */
  const HttpMethods: seq<string> := ["get", "put", "post", "delete", "options", "head", "patch", "trace"]

  // ---------------------------------------------------------------- methods of a Path-Item

  /** `keys.filter(it => methods.includes(it))`: the method names among the keys, in key order. */
  function FilterMethods(keys: seq<string>): (r: seq<string>)
    ensures forall k :: k in r <==> k in keys && k in HttpMethods
    ensures (forall i :: 0 <= i < |keys| ==> keys[i] in HttpMethods) ==> r == keys
    ensures |r| <= |keys|
    decreases |keys|
  {
    if |keys| == 0 then []
    else (if keys[0] in HttpMethods then [keys[0]] else []) + FilterMethods(keys[1..])
  }

  /** Filtering distributes over concatenation, so the kept keys stay in key order. */
  lemma {:induction false} FilterMethodsAppend(a: seq<string>, b: seq<string>)
    ensures FilterMethods(a + b) == FilterMethods(a) + FilterMethods(b)
    decreases |a|
  {
    if |a| > 0 {
      assert (a + b)[1..] == a[1..] + b;
      FilterMethodsAppend(a[1..], b);
    } else {
      assert a + b == b;
    }
  }

  function Methods(verbs: seq<string>): (r: seq<Method>)
    ensures |r| == |verbs|
    ensures forall i :: 0 <= i < |verbs| ==> r[i] == Method(verbs[i])
  {
    seq(|verbs|, i requires 0 <= i < |verbs| => Method(verbs[i]))
  }

  /** The `Method`s a Path-Item contributes: its own keys that name an HTTP method, in key order. */
  function MethodsOf(item: Json): seq<Method>
  {
    Methods(FilterMethods(OwnKeys(item)))
  }

  /** A `$ref` Path-Item declares no method: `$ref` is not among the eight names. */
  lemma RefItemHasNoMethods(ref: Json)
    ensures MethodsOf(Obj([Field("$ref", ref)])) == []
  {
    var keys := OwnKeys(Obj([Field("$ref", ref)]));
    assert keys == ["$ref"];
    assert "$ref" !in HttpMethods;
    assert FilterMethods(keys) == FilterMethods(keys[1..]);
  }

  // ---------------------------------------------------------------- appending a route

  /** `paths.find(it => it.part === part)` as an index: the first child with that part, or |cs| when none. */
  function FindChild(cs: seq<RouteNode>, part: string): (k: nat)
    ensures k <= |cs|
    ensures k < |cs| ==> cs[k].part == part
    ensures forall j :: 0 <= j < k ==> cs[j].part != part
    decreases |cs|
  {
    if |cs| == 0 then 0
    else if cs[0].part == part then 0
    else 1 + FindChild(cs[1..], part)
  }

  /**
   * `path.append(route, item)`: an empty route adds the item's methods to the
   * node; otherwise the head segment is appended among the children.
   */
  function Append(t: RouteNode, route: seq<string>, item: Json): (r: RouteNode)
    ensures r.part == t.part
    decreases |route|, 1
  {
    if |route| == 0 then t.(methods := t.methods + MethodsOf(item))
    else t.(children := AppendChild(t.children, route[0], route[1..], item))
  }

  /**
   * Appending `root/rest` to a list of children: the first child whose part is
   * `root` receives `rest`; when there is none, a new node `root` receiving
   * `rest` is added at the end.
   */
  function AppendChild(cs: seq<RouteNode>, root: string, rest: seq<string>, item: Json): (r: seq<RouteNode>)
    ensures |r| == |cs| || |r| == |cs| + 1
    ensures forall i :: 0 <= i < |cs| ==> r[i].part == cs[i].part
    ensures |r| == |cs| + 1 ==> r[|cs|].part == root
    decreases |rest| + 1, 0
  {
    var k := FindChild(cs, root);
    if k < |cs| then cs[k := Append(cs[k], rest, item)]
    else cs + [Append(RouteNode(root, [], []), rest, item)]
  }

  /** `route.substring(1).split('/')`: the first character is dropped, whatever it is, and empty segments are kept. */
  function RouteSegments(route: string): (r: seq<string>)
    ensures |r| >= 1
    ensures |route| > 0 ==> r == Split(route[1..], '/')
  {
    var tail := Substring(route, 1, |route|);
    assert |route| > 0 ==> tail == route[1..];
    Split(tail, '/')
  }

  /** `pathFinder.append(route, item)` on the list of top-level nodes. */
  function AppendRoute(forest: seq<RouteNode>, route: string, item: Json): seq<RouteNode>
  {
    var segs := RouteSegments(route);
    AppendChild(forest, segs[0], segs[1..], item)
  }

  // ---------------------------------------------------------------- building from a document

  /** `openapi.info.title.replace(/\W+/g, '')`: a missing `info`, a missing title or a title that is not a string throws. */
  function ApiName(doc: Json): (r: Outcome<string>)
    ensures r.Ok? <==> InfoTitle(doc).Some?
    ensures r.Ok? ==> r.value == WordCharsOnly(InfoTitle(doc).value)
    ensures r.Ok? ==> forall i :: 0 <= i < |r.value| ==> IsWordChar(r.value[i])
  {
    var info :- Get(Some(doc), "info");
    var title :- Get(info, "title");
    if title.Some? && title.value.Str? then Ok(WordCharsOnly(title.value.s)) else Err(TypeError)
  }

  /**
   * Appending the routes `keys` of the `paths` object in order; reading a
   * null Path-Item's keys throws.
   */
  function AppendAll(forest: seq<RouteNode>, paths: Json, keys: seq<string>): (r: Outcome<seq<RouteNode>>)
    decreases |keys|
  {
    if |keys| == 0 then Ok(forest)
    else
      var before :- AppendAll(forest, paths, keys[..|keys| - 1]);
      var item := OwnGet(paths, keys[|keys| - 1]);
      if IsNullish(item) then Err(TypeError) else Ok(AppendRoute(before, keys[|keys| - 1], item.value))
  }

  /** Appending the routes of one more key. */
  lemma AppendAllStep(forest: seq<RouteNode>, paths: Json, keys: seq<string>, i: nat)
    requires i < |keys|
    ensures AppendAll(forest, paths, keys[..i + 1]) ==
      (var before :- AppendAll(forest, paths, keys[..i]);
       var item := OwnGet(paths, keys[i]);
       if IsNullish(item) then Err(TypeError) else Ok(AppendRoute(before, keys[i], item.value)))
  {
    assert keys[..i + 1][..i] == keys[..i];
  }

  /** Once a prefix of the routes fails, appending all of them fails. */
  lemma {:induction false} AppendAllFails(forest: seq<RouteNode>, paths: Json, keys: seq<string>, n: nat)
    requires n <= |keys|
    requires AppendAll(forest, paths, keys[..n]).Err?
    ensures AppendAll(forest, paths, keys).Err?
    decreases |keys|
  {
    if n < |keys| {
      var init := keys[..|keys| - 1];
      assert init[..n] == keys[..n];
      AppendAllFails(forest, paths, init, n);
    } else {
      assert keys[..n] == keys;
    }
  }

  /**
   * `PathFinder.from(openapi)` as a value: the api name and the top-level
   * nodes. `Object.keys(openapi.paths)` throws when `paths` is missing.
   */
  function FromDocument(doc: Json): Outcome<(string, seq<RouteNode>)>
  {
    var paths :- Get(Some(doc), "paths");
    var keys :- ObjectKeys(paths);
    var name :- ApiName(doc);
    var forest :- AppendAll([], paths.value, keys);
    Ok((name, forest))
  }

  // ---------------------------------------------------------------- what a tree records

  /** The methods recorded for a route: those of the node reached by following its segments, none if there is no such node. */
  function MethodsAt(t: RouteNode, route: seq<string>): seq<Method>
    decreases |route|
  {
    if |route| == 0 then t.methods
    else
      var k := FindChild(t.children, route[0]);
      if k < |t.children| then MethodsAt(t.children[k], route[1..]) else []
  }

  /** The number of `Method`s in a subtree. */
  function MethodCount(t: RouteNode): nat
    decreases t, 1
  {
    |t.methods| + SumCounts(t.children)
  }

  function SumCounts(cs: seq<RouteNode>): nat
    decreases cs, 0
  {
    if |cs| == 0 then 0 else SumCounts(cs[..|cs| - 1]) + MethodCount(cs[|cs| - 1])
  }

  /** No two children of one node share a part. */
  predicate DistinctSiblings(cs: seq<RouteNode>)
  {
    forall i, j :: 0 <= i < j < |cs| ==> cs[i].part != cs[j].part
  }

  /** Every node of the tree has children with pairwise distinct parts. */
  predicate DistinctParts(t: RouteNode)
    decreases t, 1
  {
    DistinctForest(t.children)
  }

  predicate DistinctForest(cs: seq<RouteNode>)
    decreases cs, 0
  {
    DistinctSiblings(cs) && forall i :: 0 <= i < |cs| ==> DistinctParts(cs[i])
  }

  /**
   * `s` survives inside `t`: same part, `s`'s methods are a prefix of `t`'s,
   * and every child of `s` survives in the child of `t` at the same position.
   */
  predicate Embeds(s: RouteNode, t: RouteNode)
    decreases s
  {
    s.part == t.part && s.methods <= t.methods && |s.children| <= |t.children| &&
    forall i :: 0 <= i < |s.children| ==> Embeds(s.children[i], t.children[i])
  }

  // ---------------------------------------------------------------- lemmas: FindChild

  /** `find` looks only at the parts. */
  lemma {:induction false} FindChildSameParts(cs: seq<RouteNode>, ds: seq<RouteNode>, p: string)
    requires |cs| == |ds|
    requires forall i :: 0 <= i < |cs| ==> cs[i].part == ds[i].part
    ensures FindChild(cs, p) == FindChild(ds, p)
    decreases |cs|
  {
    if |cs| > 0 && cs[0].part != p {
      FindChildSameParts(cs[1..], ds[1..], p);
    }
  }

  /** A child added at the end is found only when no earlier child has its part. */
  lemma {:induction false} FindChildSnoc(cs: seq<RouteNode>, c: RouteNode, p: string)
    ensures FindChild(cs, p) < |cs| ==> FindChild(cs + [c], p) == FindChild(cs, p)
    ensures FindChild(cs, p) == |cs| && c.part == p ==> FindChild(cs + [c], p) == |cs|
    ensures FindChild(cs, p) == |cs| && c.part != p ==> FindChild(cs + [c], p) == |cs| + 1
    decreases |cs|
  {
    if |cs| > 0 {
      assert (cs + [c])[1..] == cs[1..] + [c];
      FindChildSnoc(cs[1..], c, p);
    } else {
      assert [c][1..] == [];
    }
  }

  /** On distinct siblings, the child found for a part is the only one with that part. */
  lemma FindChildUnique(cs: seq<RouteNode>, i: nat)
    requires DistinctSiblings(cs) && i < |cs|
    ensures FindChild(cs, cs[i].part) == i
  {
  }

  // ---------------------------------------------------------------- lemmas: Append

  /** Appending at the empty route adds the Path-Item's methods; appending anywhere records them at the route's node. */
  lemma {:induction false} AppendAtRoute(t: RouteNode, route: seq<string>, item: Json)
    ensures MethodsAt(Append(t, route, item), route) == MethodsAt(t, route) + MethodsOf(item)
    decreases |route|
  {
    if |route| > 0 {
      var cs, root, rest := t.children, route[0], route[1..];
      var r := Append(t, route, item);
      var k := FindChild(cs, root);
      if k < |cs| {
        FindChildSameParts(cs, r.children, root);
        AppendAtRoute(cs[k], rest, item);
      } else {
        var c := Append(RouteNode(root, [], []), rest, item);
        FindChildSnoc(cs, c, root);
        AppendAtRoute(RouteNode(root, [], []), rest, item);
        EmptyNodeHasNoMethods(root, rest);
      }
    }
  }

  lemma {:induction false} EmptyNodeHasNoMethods(part: string, route: seq<string>)
    ensures MethodsAt(RouteNode(part, [], []), route) == []
  {
  }

  /** Appending at one route leaves the methods recorded for every other route as they were. */
  lemma {:induction false} AppendElsewhere(t: RouteNode, route: seq<string>, other: seq<string>, item: Json)
    requires other != route
    ensures MethodsAt(Append(t, route, item), other) == MethodsAt(t, other)
    decreases |route|
  {
    var r := Append(t, route, item);
    if |route| == 0 {
      assert r.children == t.children;
    } else if |other| > 0 {
      var cs, root, rest := t.children, route[0], route[1..];
      var k := FindChild(cs, root);
      var ko := FindChild(cs, other[0]);
      if k < |cs| {
        assert r.children == AppendChild(cs, root, rest, item);
        assert r.children == cs[k := Append(cs[k], rest, item)];
        FindChildSameParts(cs, r.children, other[0]);
        if ko == k {
          assert other[1..] != rest by {
            assert other == [other[0]] + other[1..] && route == [root] + rest;
          }
          AppendElsewhere(cs[k], rest, other[1..], item);
        }
      } else {
        var c := Append(RouteNode(root, [], []), rest, item);
        FindChildSnoc(cs, c, other[0]);
        if other[0] == root {
          assert other[1..] != rest by {
            assert other == [other[0]] + other[1..] && route == [root] + rest;
          }
          AppendElsewhere(RouteNode(root, [], []), rest, other[1..], item);
          EmptyNodeHasNoMethods(root, other[1..]);
        }
      }
    }
  }

  /** Appending adds exactly the Path-Item's methods to the subtree's count. */
  lemma {:induction false} AppendCount(t: RouteNode, route: seq<string>, item: Json)
    ensures MethodCount(Append(t, route, item)) == MethodCount(t) + |MethodsOf(item)|
    decreases |route|
  {
    if |route| > 0 {
      var cs, root, rest := t.children, route[0], route[1..];
      var k := FindChild(cs, root);
      var r := Append(t, route, item);
      assert r.methods == t.methods && r.children == AppendChild(cs, root, rest, item);
      if k < |cs| {
        var c := Append(cs[k], rest, item);
        assert r.children == cs[k := c];
        AppendCount(cs[k], rest, item);
        SumCountsUpdate(cs, k, c);
      } else {
        var c := Append(RouteNode(root, [], []), rest, item);
        assert r.children == cs + [c];
        AppendCount(RouteNode(root, [], []), rest, item);
        assert (cs + [c])[..|cs|] == cs;
        assert SumCounts(r.children) == SumCounts(cs) + MethodCount(c);
      }
    }
  }

  lemma {:induction false} SumCountsAppend(a: seq<RouteNode>, b: seq<RouteNode>)
    ensures SumCounts(a + b) == SumCounts(a) + SumCounts(b)
    decreases |b|
  {
    if |b| == 0 {
      assert a + b == a;
    } else {
      assert (a + b)[..|a + b| - 1] == a + b[..|b| - 1];
      SumCountsAppend(a, b[..|b| - 1]);
    }
  }

  lemma SumCountsUpdate(cs: seq<RouteNode>, k: nat, c: RouteNode)
    requires k < |cs|
    ensures SumCounts(cs[k := c]) == SumCounts(cs) - MethodCount(cs[k]) + MethodCount(c)
  {
    assert cs == cs[..k] + [cs[k]] + cs[k + 1..];
    assert cs[k := c] == cs[..k] + [c] + cs[k + 1..];
    SumCountsAppend(cs[..k] + [cs[k]], cs[k + 1..]);
    SumCountsAppend(cs[..k] + [c], cs[k + 1..]);
    SumCountsAppend(cs[..k], [cs[k]]);
    SumCountsAppend(cs[..k], [c]);
    assert [cs[k]][..0] == [] && [c][..0] == [];
  }

  /** A child is reused when one has the head segment, and one is created only when none has it. */
  lemma ChildReusedOrCreated(cs: seq<RouteNode>, root: string, rest: seq<string>, item: Json)
    ensures (exists i :: 0 <= i < |cs| && cs[i].part == root) ==> |AppendChild(cs, root, rest, item)| == |cs|
    ensures (forall i :: 0 <= i < |cs| ==> cs[i].part != root) ==> |AppendChild(cs, root, rest, item)| == |cs| + 1
  {
  }

  /** Appending never breaks the "no two siblings share a part" invariant, anywhere in the tree. */
  lemma {:induction false} AppendKeepsDistinct(t: RouteNode, route: seq<string>, item: Json)
    requires DistinctParts(t)
    ensures DistinctParts(Append(t, route, item))
    decreases |route|, 1
  {
    if |route| > 0 {
      AppendChildKeepsDistinct(t.children, route[0], route[1..], item);
    }
  }

  lemma {:induction false} AppendChildKeepsDistinct(cs: seq<RouteNode>, root: string, rest: seq<string>, item: Json)
    requires DistinctForest(cs)
    ensures DistinctForest(AppendChild(cs, root, rest, item))
    decreases |rest| + 1, 0
  {
    var r := AppendChild(cs, root, rest, item);
    var k := FindChild(cs, root);
    if k < |cs| {
      AppendKeepsDistinct(cs[k], rest, item);
    } else {
      AppendKeepsDistinct(RouteNode(root, [], []), rest, item);
    }
    assert DistinctSiblings(r);
    forall i | 0 <= i < |r|
      ensures DistinctParts(r[i])
    {
      if i < |cs| && i != k {
        assert r[i] == cs[i];
      }
    }
  }

  /** Every node is embedded in itself. */
  lemma {:induction false} EmbedsReflexive(t: RouteNode)
    ensures Embeds(t, t)
    decreases t
  {
    forall i | 0 <= i < |t.children|
      ensures Embeds(t.children[i], t.children[i])
    {
      EmbedsReflexive(t.children[i]);
    }
  }

  /** Append never removes a method or a node: the old tree is embedded in the new one. */
  lemma {:induction false} AppendEmbeds(t: RouteNode, route: seq<string>, item: Json)
    ensures Embeds(t, Append(t, route, item))
    decreases |route|
  {
    var r := Append(t, route, item);
    var cs := t.children;
    if |route| > 0 {
      var k := FindChild(cs, route[0]);
      if k < |cs| {
        AppendEmbeds(cs[k], route[1..], item);
      }
    }
    forall i | 0 <= i < |cs|
      ensures Embeds(cs[i], r.children[i])
    {
      if r.children[i] == cs[i] {
        EmbedsReflexive(cs[i]);
      }
    }
  }

  // ---------------------------------------------------------------- lemmas: appending a route to the forest

  /** The methods the forest records for a list of segments, read through a root node above the top-level nodes. */
  function ForestMethodsAt(forest: seq<RouteNode>, segs: seq<string>): seq<Method>
  {
    MethodsAt(RouteNode("", [], forest), segs)
  }

  /** `pathFinder.append` is `path.append` on a root node above the top-level nodes, with the route's segments. */
  lemma AppendRouteIsRootAppend(forest: seq<RouteNode>, route: string, item: Json)
    ensures RouteNode("", [], AppendRoute(forest, route, item)) == Append(RouteNode("", [], forest), RouteSegments(route), item)
  {
  }

  /** Appending a route records the Path-Item's methods at that route's segments. */
  lemma AppendRouteAtRoute(forest: seq<RouteNode>, route: string, item: Json)
    ensures ForestMethodsAt(AppendRoute(forest, route, item), RouteSegments(route))
         == ForestMethodsAt(forest, RouteSegments(route)) + MethodsOf(item)
  {
    AppendRouteIsRootAppend(forest, route, item);
    AppendAtRoute(RouteNode("", [], forest), RouteSegments(route), item);
  }

  /** Appending a route leaves what is recorded for every other list of segments as it was. */
  lemma AppendRouteElsewhere(forest: seq<RouteNode>, route: string, other: seq<string>, item: Json)
    requires other != RouteSegments(route)
    ensures ForestMethodsAt(AppendRoute(forest, route, item), other) == ForestMethodsAt(forest, other)
  {
    AppendRouteIsRootAppend(forest, route, item);
    AppendElsewhere(RouteNode("", [], forest), RouteSegments(route), other, item);
  }

  /** Appending a route adds exactly the Path-Item's methods to the forest's count. */
  lemma AppendRouteCount(forest: seq<RouteNode>, route: string, item: Json)
    ensures SumCounts(AppendRoute(forest, route, item)) == SumCounts(forest) + |MethodsOf(item)|
  {
    AppendRouteIsRootAppend(forest, route, item);
    AppendCount(RouteNode("", [], forest), RouteSegments(route), item);
  }

  /** Appending a route keeps sibling parts distinct at every level of the forest. */
  lemma AppendRouteKeepsDistinct(forest: seq<RouteNode>, route: string, item: Json)
    requires DistinctForest(forest)
    ensures DistinctForest(AppendRoute(forest, route, item))
  {
    var segs := RouteSegments(route);
    AppendChildKeepsDistinct(forest, segs[0], segs[1..], item);
  }

  // ---------------------------------------------------------------- lemmas: routes given as text

  /** A route written "/s1/.../sn" with no '/' inside the segments has exactly the segments s1 ... sn. */
  lemma RouteSegmentsOfJoin(segs: seq<string>)
    requires |segs| >= 1
    requires forall i :: 0 <= i < |segs| ==> '/' !in segs[i]
    ensures RouteSegments("/" + Join(segs, "/")) == segs
  {
    assert ("/" + Join(segs, "/"))[1..] == Join(segs, "/");
    SplitJoin(segs, '/');
  }

  /** A trailing '/' yields a final empty segment, so "/x/" creates a node "" below "x". */
  lemma TrailingSlash(x: string)
    requires '/' !in x
    ensures RouteSegments("/" + x + "/") == [x, ""]
  {
    assert ("/" + x + "/")[1..] == x + ['/'] + "";
    SplitAppend(x, "", '/');
    SplitWithoutSeparator(x, '/');
  }

  /** Appending "/x" and then "/x/y" to no routes gives one top-level node x holding a single child y. */
  lemma NestedRoutes(x: string, y: string, p: Json, q: Json)
    requires '/' !in x && '/' !in y
    ensures AppendRoute(AppendRoute([], "/" + x, p), "/" + x + "/" + y, q)
         == [RouteNode(x, MethodsOf(p), [RouteNode(y, MethodsOf(q), [])])]
  {
    NestedSegments(x, y);
    NestedAppend(x, y, p, q);
  }

  lemma NestedSegments(x: string, y: string)
    requires '/' !in x && '/' !in y
    ensures RouteSegments("/" + x) == [x]
    ensures RouteSegments("/" + x + "/" + y) == [x, y]
  {
    assert Join([x], "/") == x;
    RouteSegmentsOfJoin([x]);
    assert Join([x, y], "/") == x + "/" + y;
    RouteSegmentsOfJoin([x, y]);
    assert "/" + x + "/" + y == "/" + Join([x, y], "/");
  }

  lemma NestedAppend(x: string, y: string, p: Json, q: Json)
    ensures AppendChild(AppendChild([], x, [], p), x, [y], q)
         == [RouteNode(x, MethodsOf(p), [RouteNode(y, MethodsOf(q), [])])]
  {
    var f1 := AppendChild([], x, [], p);
    assert [] + MethodsOf(p) == MethodsOf(p);
    assert f1 == [RouteNode(x, MethodsOf(p), [])];
    assert FindChild(f1, x) == 0;
    assert [] + MethodsOf(q) == MethodsOf(q);
    assert Append(RouteNode(y, [], []), [], q) == RouteNode(y, MethodsOf(q), []);
    assert AppendChild([], y, [], q) == [RouteNode(y, MethodsOf(q), [])];
    assert [y][1..] == [];
    assert Append(f1[0], [y], q) == RouteNode(x, MethodsOf(p), [RouteNode(y, MethodsOf(q), [])]);
  }
}
