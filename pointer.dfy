/**
 * Resolution of local JSON pointers such as `#/components/schemas/Widget`
 * (`traverse` and `traversePath` of the SDK generator). Resolution is total:
 * whatever the pointer and the document, the answer is a value or
 * `undefined`, never an exception.
 */
module Pointer {
  import opened Wrappers
  import opened Text
  import opened Js

  /** `typeof v === 'object'` (null aside, which is falsy anyway). */
  predicate IsObjectLike(v: Json)
  {
    v.Arr? || v.Obj? || v.Null?
  }

  /**
   * `traverse(parts, obj)`: follow the keys one by one through own properties.
   * The result is `undefined` when there are no keys, when the current value
   * is not a non-null object, or when a key is not an own property.
   */
  function Traverse(parts: seq<string>, obj: Value): (r: Value)
    ensures |parts| == 0 ==> r.None?
    ensures !(obj.Some? && (obj.value.Obj? || obj.value.Arr?)) ==> r.None?
    ensures |parts| > 0 && obj.Some? && !HasOwn(obj.value, parts[0]) ==> r.None?
    ensures |parts| == 1 && obj.Some? && obj.value.Obj? ==> r == Lookup(obj.value.fields, parts[0])
    decreases |parts|
  {
    if Truthy(obj) && |parts| > 0 && IsObjectLike(obj.value) then
      var nextKey := parts[0];
      if HasOwn(obj.value, nextKey) then
        var next := OwnGet(obj.value, nextKey);
        if |parts| == 1 then next else Traverse(parts[1..], next)
      else None
    else None
  }

  /** `traversePath(path, obj)`: drop the first "#/" (wherever it is), split on '/', traverse. */
  function TraversePath(path: string, obj: Value): Value
  {
    Traverse(PointerKeys(path), obj)
  }

  /** The keys a pointer designates: `path.replace('#/', '').split('/')`. */
  function PointerKeys(path: string): (r: seq<string>)
    ensures |r| >= 1
  {
    Split(ReplaceFirst(path, "#/", ""), '/')
  }

  /** Traversing a longer key list is traversing its two halves in turn. */
  lemma {:induction false} TraverseAppend(p: seq<string>, q: seq<string>, obj: Value)
    requires |p| > 0 && |q| > 0
    ensures Traverse(p + q, obj) == Traverse(q, Traverse(p, obj))
    decreases |p|
  {
    var pq := p + q;
    assert pq[0] == p[0];
    if Truthy(obj) && IsObjectLike(obj.value) && HasOwn(obj.value, p[0]) {
      var next := OwnGet(obj.value, p[0]);
      if |p| == 1 {
        assert pq[1..] == q;
      } else {
        assert pq[1..] == p[1..] + q;
        TraverseAppend(p[1..], q, next);
      }
    }
  }

  /** Round trip: the pointer "#/k1/.../kn" designates exactly the keys k1 ... kn. */
  lemma {:induction false} PointerKeysOfJoin(keys: seq<string>)
    requires |keys| >= 1
    requires forall i :: 0 <= i < |keys| ==> '/' !in keys[i]
    ensures PointerKeys("#/" + Join(keys, "/")) == keys
  {
    assert "#/" <= "#/" + Join(keys, "/");
    assert ("#/" + Join(keys, "/"))[2..] == Join(keys, "/");
    assert ReplaceFirst("#/" + Join(keys, "/"), "#/", "") == Join(keys, "/");
    SplitJoin(keys, '/');
  }

  lemma {:induction false} TraversePathOfKeys(keys: seq<string>, obj: Value)
    requires |keys| >= 1
    requires forall i :: 0 <= i < |keys| ==> '/' !in keys[i]
    ensures TraversePath("#/" + Join(keys, "/"), obj) == Traverse(keys, obj)
  {
    PointerKeysOfJoin(keys);
  }

  /**
   * `traversePath('#/components/schemas/X', doc)` is `doc.components.schemas.X`
   * when that chain of keys exists, and `undefined` when the last key is missing.
   */
  lemma {:induction false} SchemaPointer(doc: seq<Field>, components: seq<Field>, schemas: seq<Field>, x: string)
    requires '/' !in x
    requires Lookup(doc, "components") == Some(Obj(components))
    requires Lookup(components, "schemas") == Some(Obj(schemas))
    ensures TraversePath("#/components/schemas/" + x, Some(Obj(doc))) == Lookup(schemas, x)
  {
    var keys := ["components", "schemas", x];
    SchemaPointerKeys(x);
    forall i | 0 <= i < |keys|
      ensures '/' !in keys[i]
    {
      assert keys[i] == "components" || keys[i] == "schemas" || keys[i] == x;
    }
    TraversePathOfKeys(keys, Some(Obj(doc)));
    assert ["components"] + ["schemas", x] == keys;
    TraverseAppend(["components"], ["schemas", x], Some(Obj(doc)));
    assert ["schemas"] + [x] == ["schemas", x];
    TraverseAppend(["schemas"], [x], Some(Obj(components)));
  }

  lemma SchemaPointerKeys(x: string)
    ensures "#/components/schemas/" + x == "#/" + Join(["components", "schemas", x], "/")
  {
    var keys := ["components", "schemas", x];
    assert keys[1..] == ["schemas", x] && keys[1..][1..] == [x];
    assert Join([x], "/") == x;
    assert Join(["schemas", x], "/") == "schemas" + "/" + x;
  }

  /** Only the first "#/" is removed: a second one stays inside a key. */
  lemma RepeatedPrefixKept()
    ensures PointerKeys("#/a#/b") == ["a#", "b"]
  {
    assert ReplaceFirst("#/a#/b", "#/", "") == "a#/b";
    assert "a#/b" == "a#" + ['/'] + "b";
    SplitAppend("a#", "b", '/');
    SplitWithoutSeparator("a#", '/');
    SplitWithoutSeparator("b", '/');
  }
}
