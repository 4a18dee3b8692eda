/**
 * The mutable route tree of the router generator: `Path` nodes whose
 * `append` pushes methods and children in place, and the `PathFinder` that
 * holds the top-level nodes and builds them from a document's `paths`.
 *
 * Each object carries a ghost `Tree` (or `Forest`) value and a footprint
 * `Repr`; `Valid()` ties the fields to the ghost value and keeps the
 * footprints of siblings apart, so that appending below one child leaves
 * every other child untouched. Every mutating method is proved to do to the
 * ghost value exactly what the functions of module `RouteTree` say, and to
 * keep the invariant that no two children of a node share a part.
 */
module Mapper {
  import opened Wrappers
  import opened Text
  import opened Js
  import RouteTree

  /** `paths.find(it => it.part === part)` as an index: the first node with that part, or |ps| when none. */
  function FindPath(ps: seq<Path>, part: string): (k: nat)
    ensures k <= |ps|
    ensures k < |ps| ==> ps[k].part == part
    ensures forall j :: 0 <= j < k ==> ps[j].part != part
    decreases |ps|
  {
    if |ps| == 0 then 0
    else if ps[0].part == part then 0
    else 1 + FindPath(ps[1..], part)
  }

  /** Searching the objects finds the same position as searching their trees. */
  lemma {:induction false} FindPathMatchesTree(ps: seq<Path>, cs: seq<RouteTree.RouteNode>, part: string)
    requires |ps| == |cs|
    requires forall i :: 0 <= i < |ps| ==> ps[i].part == cs[i].part
    ensures FindPath(ps, part) == RouteTree.FindChild(cs, part)
    decreases |ps|
  {
    if |ps| > 0 && ps[0].part != part {
      FindPathMatchesTree(ps[1..], cs[1..], part);
    }
  }

  /** `class Path`: one segment of the route tree, its methods and its child segments. */
  class Path {
    const part: string
    var paths: seq<Path>
    var methods: seq<RouteTree.Method>
    ghost var Tree: RouteTree.RouteNode
    ghost var Repr: set<object>

    ghost predicate Valid()
      reads this, Repr
      ensures Valid() ==> this in Repr && Tree.part == part
      decreases Repr, 1
    {
      this in Repr &&
      Tree.part == part && Tree.methods == methods && |Tree.children| == |paths| &&
      (forall i :: 0 <= i < |paths| ==> paths[i] in Repr && ValidChild(i)) &&
      (forall i, j :: 0 <= i < j < |paths| ==> paths[i].Repr !! paths[j].Repr) &&
      RouteTree.DistinctParts(Tree)
    }

    /** The i-th child lies inside this node's footprint, is valid, and its tree is the i-th subtree. */
    ghost predicate ValidChild(i: int)
      reads this, Repr
      decreases Repr, 0
    {
      this in Repr && 0 <= i < |paths| && i < |Tree.children| &&
      paths[i] in Repr && paths[i].Repr <= Repr && this !in paths[i].Repr &&
      paths[i].Valid() && paths[i].Tree == Tree.children[i]
    }

    /** `new Path(part)`: a segment with no methods and no children. */
    constructor(part: string)
      ensures Valid() && fresh(Repr)
      ensures Tree == RouteTree.RouteNode(part, [], [])
    {
      this.part := part;
      paths := [];
      methods := [];
      Tree := RouteTree.RouteNode(part, [], []);
      Repr := {this};
    }

    /**
     * `append(route, path)`: with no segments left, push one `Method` per
     * Path-Item key that names an HTTP method; otherwise descend into the
     * child with the head segment, creating it at the end when there is
     * none. Returns the receiver.
     */
    method Append(route: seq<string>, item: Json) returns (r: Path)
      requires Valid()
      requires !item.Null?
      modifies Repr
      ensures r == this
      ensures Valid() && fresh(Repr - old(Repr))
      ensures Tree == RouteTree.Append(old(Tree), route, item)
      decreases |route|, 1
    {
      if |route| == 0 {
        AddMethods(item);
      } else {
        var root, rest := route[0], route[1..];
        forall i | 0 <= i < |paths|
          ensures paths[i].part == Tree.children[i].part
        {
          assert ValidChild(i);
        }
        FindPathMatchesTree(paths, Tree.children, root);
        var k := FindPath(paths, root);
        if k < |paths| {
          AppendBelowChild(k, rest, item);
        } else {
          AddChild(root, rest, item);
        }
      }
      r := this;
    }

    /** The end of the route: push one `Method` per HTTP method among the Path-Item's keys, in key order. */
    method AddMethods(item: Json)
      requires Valid()
      modifies this
      ensures Valid() && Repr == old(Repr)
      ensures methods == old(methods) + RouteTree.MethodsOf(item)
      ensures Tree == old(Tree).(methods := methods)
    {
      var verbs := RouteTree.FilterMethods(OwnKeys(item));
      var i := 0;
      while i < |verbs|
        invariant 0 <= i <= |verbs|
        invariant methods == old(methods) + RouteTree.Methods(verbs[..i])
        invariant paths == old(paths) && Tree == old(Tree) && Repr == old(Repr)
      {
        assert RouteTree.Methods(verbs[..i + 1]) == RouteTree.Methods(verbs[..i]) + [RouteTree.Method(verbs[i])];
        methods := methods + [RouteTree.Method(verbs[i])];
        i := i + 1;
      }
      assert verbs[..|verbs|] == verbs;
      Tree := Tree.(methods := methods);
      forall i | 0 <= i < |paths|
        ensures ValidChild(i)
      {
        assert old(ValidChild(i));
      }
      assert RouteTree.DistinctParts(Tree) by {
        assert Tree.children == old(Tree).children;
      }
      assert forall i, j :: 0 <= i < j < |paths| ==> paths[i].Repr !! paths[j].Repr;
    }

    /** The head segment names the k-th child: append the rest of the route below it. */
    method AppendBelowChild(k: nat, rest: seq<string>, item: Json)
      requires Valid()
      requires !item.Null?
      requires k < |paths| && k == RouteTree.FindChild(Tree.children, paths[k].part)
      modifies Repr
      ensures Valid() && fresh(Repr - old(Repr))
      ensures Tree == old(Tree).(children := RouteTree.AppendChild(old(Tree).children, old(paths[k].part), rest, item))
      decreases |rest| + 1, 0
    {
      var existing := paths[k];
      assert ValidChild(k);
      RouteTree.AppendChildKeepsDistinct(Tree.children, existing.part, rest, item);
      var _ := existing.Append(rest, item);
      Repr := Repr + existing.Repr;
      Tree := Tree.(children := Tree.children[k := existing.Tree]);
      forall i | 0 <= i < |paths|
        ensures ValidChild(i)
      {
        if i != k {
          assert old(ValidChild(i));
          assert old(paths[i].Repr) !! old(existing.Repr);
        }
      }
      assert RouteTree.DistinctParts(Tree);
      forall i, j | 0 <= i < j < |paths|
        ensures paths[i].Repr !! paths[j].Repr
      {
        assert old(paths[i].Repr !! paths[j].Repr);
      }
    }

    /** No child has the head segment: create one at the end and append the rest of the route below it. */
    method AddChild(root: string, rest: seq<string>, item: Json)
      requires Valid()
      requires !item.Null?
      requires RouteTree.FindChild(Tree.children, root) == |paths|
      modifies Repr
      ensures Valid() && fresh(Repr - old(Repr))
      ensures Tree == old(Tree).(children := RouteTree.AppendChild(old(Tree).children, root, rest, item))
      decreases |rest| + 1, 0
    {
      RouteTree.AppendChildKeepsDistinct(Tree.children, root, rest, item);
      var p := new Path(root);
      var _ := p.Append(rest, item);
      paths := paths + [p];
      Repr := Repr + p.Repr;
      Tree := Tree.(children := Tree.children + [p.Tree]);
      forall i | 0 <= i < |paths|
        ensures ValidChild(i)
      {
        if i < |paths| - 1 {
          assert old(ValidChild(i));
        }
      }
      assert RouteTree.DistinctParts(Tree);
      forall i, j | 0 <= i < j < |paths|
        ensures paths[i].Repr !! paths[j].Repr
      {
        if j < |paths| - 1 {
          assert old(paths[i].Repr !! paths[j].Repr);
        }
      }
    }
  }

  /** `class PathFinder`: the api name and the top-level segments of every route. */
  class PathFinder {
    const apiName: string
    var paths: seq<Path>
    ghost var Forest: seq<RouteTree.RouteNode>
    ghost var Repr: set<object>

    ghost predicate Valid()
      reads this, Repr
      ensures Valid() ==> this in Repr
    {
      this in Repr && |Forest| == |paths| &&
      (forall i :: 0 <= i < |paths| ==> paths[i] in Repr && ValidChild(i)) &&
      (forall i, j :: 0 <= i < j < |paths| ==> paths[i].Repr !! paths[j].Repr) &&
      RouteTree.DistinctForest(Forest)
    }

    /** The i-th top-level node lies inside the footprint, is valid, and its tree is the i-th of the forest. */
    ghost predicate ValidChild(i: int)
      reads this, Repr
    {
      this in Repr && 0 <= i < |paths| && i < |Forest| &&
      paths[i] in Repr && paths[i].Repr <= Repr && this !in paths[i].Repr &&
      paths[i].Valid() && paths[i].Tree == Forest[i]
    }

    /** `new PathFinder(apiName)`: no routes yet. */
    constructor(apiName: string)
      ensures Valid() && fresh(Repr)
      ensures this.apiName == apiName && Forest == []
    {
      this.apiName := apiName;
      paths := [];
      Forest := [];
      Repr := {this};
    }

    /**
     * `append(route, path)`: drop the route's first character, split the rest
     * on '/', and append the segments below the top-level node named by the
     * first one, creating it at the end when there is none. Returns the receiver.
     */
    method Append(route: string, item: Json) returns (r: PathFinder)
      requires Valid()
      requires !item.Null?
      modifies Repr
      ensures r == this
      ensures Valid() && fresh(Repr - old(Repr))
      ensures Forest == RouteTree.AppendRoute(old(Forest), route, item)
    {
      var segs := RouteTree.RouteSegments(route);
      var root, rest := segs[0], segs[1..];
      forall i | 0 <= i < |paths|
        ensures paths[i].part == Forest[i].part
      {
        assert ValidChild(i);
      }
      FindPathMatchesTree(paths, Forest, root);
      var k := FindPath(paths, root);
      if k < |paths| {
        AppendBelowNode(k, rest, item);
      } else {
        AddNode(root, rest, item);
      }
      r := this;
    }

    /** The first segment names the k-th top-level node: append the rest of the route below it. */
    method AppendBelowNode(k: nat, rest: seq<string>, item: Json)
      requires Valid()
      requires !item.Null?
      requires k < |paths| && k == RouteTree.FindChild(Forest, paths[k].part)
      modifies Repr
      ensures Valid() && fresh(Repr - old(Repr))
      ensures Forest == RouteTree.AppendChild(old(Forest), old(paths[k].part), rest, item)
    {
      var existing := paths[k];
      assert ValidChild(k);
      RouteTree.AppendChildKeepsDistinct(Forest, existing.part, rest, item);
      var _ := existing.Append(rest, item);
      Repr := Repr + existing.Repr;
      Forest := Forest[k := existing.Tree];
      forall i | 0 <= i < |paths|
        ensures ValidChild(i)
      {
        if i != k {
          assert old(ValidChild(i));
          assert old(paths[i].Repr) !! old(existing.Repr);
        }
      }
      assert RouteTree.DistinctForest(Forest);
      forall i, j | 0 <= i < j < |paths|
        ensures paths[i].Repr !! paths[j].Repr
      {
        assert old(paths[i].Repr !! paths[j].Repr);
      }
    }

    /** No top-level node has the first segment: create one at the end and append the rest of the route below it. */
    method AddNode(root: string, rest: seq<string>, item: Json)
      requires Valid()
      requires !item.Null?
      requires RouteTree.FindChild(Forest, root) == |paths|
      modifies Repr
      ensures Valid() && fresh(Repr - old(Repr))
      ensures Forest == RouteTree.AppendChild(old(Forest), root, rest, item)
    {
      RouteTree.AppendChildKeepsDistinct(Forest, root, rest, item);
      var p := new Path(root);
      var _ := p.Append(rest, item);
      paths := paths + [p];
      Repr := Repr + p.Repr;
      Forest := Forest + [p.Tree];
      forall i | 0 <= i < |paths|
        ensures ValidChild(i)
      {
        if i < |paths| - 1 {
          assert old(ValidChild(i));
        }
      }
      assert RouteTree.DistinctForest(Forest);
      forall i, j | 0 <= i < j < |paths|
        ensures paths[i].Repr !! paths[j].Repr
      {
        if j < |paths| - 1 {
          assert old(paths[i].Repr !! paths[j].Repr);
        }
      }
    }

    /**
     * `PathFinder.from(openapi)`: a finder named after the title with every
     * non-word character removed, with every key of `paths` appended in key
     * order. Fails as the source does when `paths` or the title is missing,
     * when the title is not a string, or when a Path-Item is null.
     */
    static method From(doc: Json) returns (r: Outcome<PathFinder>)
      ensures r.Err? <==> RouteTree.FromDocument(doc).Err?
      ensures r.Ok? ==> fresh(r.value.Repr) && r.value.Valid()
      ensures r.Ok? ==> r.value.apiName == RouteTree.FromDocument(doc).value.0
      ensures r.Ok? ==> r.value.Forest == RouteTree.FromDocument(doc).value.1
    {
      var pathsValue :- Get(Some(doc), "paths");
      var keys :- ObjectKeys(pathsValue);
      var name :- RouteTree.ApiName(doc);
      var finder := new PathFinder(name);
      var i := 0;
      while i < |keys|
        invariant 0 <= i <= |keys|
        invariant fresh(finder.Repr) && finder.Valid()
        invariant finder.apiName == name
        invariant RouteTree.AppendAll([], pathsValue.value, keys[..i]) == Ok(finder.Forest)
      {
        var item := OwnGet(pathsValue.value, keys[i]);
        RouteTree.AppendAllStep([], pathsValue.value, keys, i);
        if IsNullish(item) {
          RouteTree.AppendAllFails([], pathsValue.value, keys, i + 1);
          return Err(TypeError);
        }
        finder := finder.Append(keys[i], item.value);
        i := i + 1;
      }
      assert keys[..|keys|] == keys;
      r := Ok(finder);
    }
  }
}
