/**
 * The SDK generator's view of an OpenAPI document: its path entries (with a
 * `$ref` Path-Item resolved), the operations of a Path-Item with the
 * Path-Item's parameters appended to each, the resolved parameters of an
 * operation, and the `params` argument built from the path parameters.
 */
module Operations {
  import opened Wrappers
  import opened Text
  import opened Js
  import opened Pointer
  import RouteTree

  // ---------------------------------------------------------------- $ref resolution

  /** `Object.prototype.hasOwnProperty.call(v, key)`: throws on null and undefined. */
  function HasOwnProperty(v: Value, key: string): (r: Outcome<bool>)
    ensures r.Err? <==> IsNullish(v)
    ensures r.Ok? ==> r.value == HasOwn(v.value, key)
  {
    if IsNullish(v) then Err(TypeError) else Ok(HasOwn(v.value, key))
  }

  /** `traversePath(ref, oas)`: `ref.replace(...)` throws unless the reference is a string. */
  function ResolveRef(ref: Value, doc: Json): (r: Outcome<Value>)
    ensures r.Ok? <==> ref.Some? && ref.value.Str?
    ensures r.Ok? ==> r.value == TraversePath(ref.value.s, Some(doc))
  {
    if ref.Some? && ref.value.Str? then Ok(TraversePath(ref.value.s, Some(doc))) else Err(TypeError)
  }

  /** `hasOwnProperty.call(v, '$ref') ? traversePath(v.$ref, oas) : v`. */
  function Deref(v: Value, doc: Json): (r: Outcome<Value>)
  {
    var has :- HasOwnProperty(v, "$ref");
    if has then ResolveRef(OwnGet(v.value, "$ref"), doc) else Ok(v)
  }

  /**
   * A value without a `$ref` is kept as it is, a `$ref` string is resolved
   * against the whole document, and only null, undefined and a non-string
   * `$ref` throw.
   */
  lemma DerefCases(v: Value, doc: Json)
    ensures IsNullish(v) ==> Deref(v, doc).Err?
    ensures !IsNullish(v) && !HasOwn(v.value, "$ref") ==> Deref(v, doc) == Ok(v)
    ensures !IsNullish(v) && HasOwn(v.value, "$ref") && OwnGet(v.value, "$ref").value.Str? ==>
      Deref(v, doc) == Ok(TraversePath(OwnGet(v.value, "$ref").value.s, Some(doc)))
    ensures !IsNullish(v) && HasOwn(v.value, "$ref") && !OwnGet(v.value, "$ref").value.Str? ==>
      Deref(v, doc).Err?
  {
  }

  /** `{"$ref": "#/components/schemas/X"}` dereferences to `doc.components.schemas.X` (or undefined). */
  lemma {:induction false} DerefSchemaRef(doc: seq<Field>, components: seq<Field>, schemas: seq<Field>, x: string)
    requires '/' !in x
    requires Lookup(doc, "components") == Some(Obj(components))
    requires Lookup(components, "schemas") == Some(Obj(schemas))
    ensures Deref(Some(Obj([Field("$ref", Str("#/components/schemas/" + x))])), Obj(doc)) == Ok(Lookup(schemas, x))
  {
    var ref := Obj([Field("$ref", Str("#/components/schemas/" + x))]);
    assert Keys([Field("$ref", Str("#/components/schemas/" + x))]) == ["$ref"];
    assert OwnGet(ref, "$ref") == Some(Str("#/components/schemas/" + x));
    SchemaPointer(doc, components, schemas, x);
  }

  // ---------------------------------------------------------------- pathsFrom

  /** One entry of `pathsFrom`: the path template and its (resolved) Path-Item, possibly undefined. */
  datatype PathEntry = PathEntry(path: string, definition: Value)

  function PathEntryOf(doc: Json, paths: Json, key: string): Outcome<PathEntry>
  {
    var definition :- Deref(OwnGet(paths, key), doc);
    Ok(PathEntry(key, definition))
  }

  /** `pathsFrom(oas)`: one entry per key of `oas.paths`, in key order. */
  function PathsFrom(doc: Json): Outcome<seq<PathEntry>>
  {
    var paths :- Get(Some(doc), "paths");
    var keys :- ObjectKeys(paths);
    var pathsValue := paths.value;
    MapAll(keys, key => PathEntryOf(doc, pathsValue, key))
  }

  /**
   * The entries follow the keys of `paths` one for one, and each definition is
   * the Path-Item with its `$ref` (if any) resolved.
   */
  lemma PathsFromEntries(doc: Json)
    requires PathsFrom(doc).Ok?
    ensures var paths := OwnGet(doc, "paths");
      paths.Some? && !paths.value.Null? &&
      var keys := OwnKeys(paths.value);
      var entries := PathsFrom(doc).value;
      |entries| == |keys| &&
      forall i :: 0 <= i < |keys| ==>
        entries[i].path == keys[i] && Deref(OwnGet(paths.value, keys[i]), doc) == Ok(entries[i].definition)
  {
    var paths := OwnGet(doc, "paths");
    var keys := OwnKeys(paths.value);
    var f := key => PathEntryOf(doc, paths.value, key);
    assert PathsFrom(doc) == MapAll(keys, f);
    MapAllResults(keys, f);
    var entries := PathsFrom(doc).value;
    forall i | 0 <= i < |keys|
      ensures entries[i].path == keys[i] && Deref(OwnGet(paths.value, keys[i]), doc) == Ok(entries[i].definition)
    {
      assert f(keys[i]) == Ok(entries[i]);
    }
  }

  /** A path whose Path-Item is null makes `hasOwnProperty.call` throw, so the whole generation fails. */
  lemma {:induction false} NullPathItemFails(doc: Json, key: string)
    requires OwnGet(doc, "paths").Some? && !OwnGet(doc, "paths").value.Null?
    requires key in OwnKeys(OwnGet(doc, "paths").value)
    requires OwnGet(OwnGet(doc, "paths").value, key) == Some(Null)
    ensures PathsFrom(doc).Err?
  {
    var paths := OwnGet(doc, "paths");
    var keys := OwnKeys(paths.value);
    var f := k => PathEntryOf(doc, paths.value, k);
    assert PathsFrom(doc) == MapAll(keys, f);
    MapAllResults(keys, f);
    var i :| 0 <= i < |keys| && keys[i] == key;
    assert f(keys[i]).Err?;
  }

  // ---------------------------------------------------------------- methodOperations

  /** An operation of a Path-Item: the method key and the operation with merged parameters. */
  datatype MethodOperation = MethodOperation(verb: string, definition: Json)

  /** `[...(operation.parameters ?? []), ...(path.parameters ?? [])]`. */
  function MergedParameters(operation: Value, path: Json): Outcome<seq<Json>>
  {
    var own :- Get(operation, "parameters");
    var ownItems :- Iterate(Some(Coalesce(own, Arr([]))));
    var shared :- Get(Some(path), "parameters");
    var sharedItems :- Iterate(Some(Coalesce(shared, Arr([]))));
    Ok(ownItems + sharedItems)
  }

  /** The parameter list of a value: its `parameters` array, or none when the key is absent. */
  predicate ParameterList(v: Json, ps: seq<Json>)
  {
    (OwnGet(v, "parameters") == Some(Arr(ps))) || (OwnGet(v, "parameters").None? && ps == [])
  }

  /**
   * The operation's own parameters come first, the Path-Item's after them,
   * duplicates included.
   */
  lemma {:induction false} MergedParametersOrder(operation: Json, path: Json, own: seq<Json>, shared: seq<Json>)
    requires !operation.Null? && !path.Null?
    requires ParameterList(operation, own) && ParameterList(path, shared)
    ensures MergedParameters(Some(operation), path) == Ok(own + shared)
  {
  }

  /** `{...operation, parameters: [...]}` for the method key `key`. */
  function OperationOf(path: Json, key: string): Outcome<MethodOperation>
  {
    var operation := OwnGet(path, key);
    var parameters :- MergedParameters(operation, path);
    Ok(MethodOperation(key, Obj(SetField(SpreadFields(operation), "parameters", Arr(parameters)))))
  }

  /** `methodOperations(path)`: the operations under the HTTP-method keys, in key order. */
  function MethodOperations(path: Json): Outcome<seq<MethodOperation>>
  {
    var keys :- ObjectKeys(Some(path));
    MapAll(RouteTree.FilterMethods(keys), key => OperationOf(path, key))
  }

  /**
   * `op` is the operation built for `key`: it is tagged with the key and keeps
   * every field of the operation but `parameters`, which becomes the merged list.
   */
  ghost predicate BuiltFrom(path: Json, key: string, op: MethodOperation)
  {
    var operation := OwnGet(path, key);
    op.verb == key && op.definition.Obj? &&
    MergedParameters(operation, path).Ok? &&
    Lookup(op.definition.fields, "parameters") == Some(Arr(MergedParameters(operation, path).value)) &&
    forall k :: k != "parameters" ==> Lookup(op.definition.fields, k) == Lookup(SpreadFields(operation), k)
  }

  lemma OperationOfShape(path: Json, key: string)
    requires OperationOf(path, key).Ok?
    ensures BuiltFrom(path, key, OperationOf(path, key).value)
  {
  }

  /** One operation per HTTP-method key, in key order, each built from the operation under that key. */
  lemma MethodOperationsShape(path: Json)
    requires MethodOperations(path).Ok?
    ensures var methods := RouteTree.FilterMethods(OwnKeys(path));
      var ops := MethodOperations(path).value;
      |ops| == |methods| && forall i :: 0 <= i < |ops| ==> BuiltFrom(path, methods[i], ops[i])
  {
    var methods := RouteTree.FilterMethods(OwnKeys(path));
    var f := key => OperationOf(path, key);
    assert MethodOperations(path) == MapAll(methods, f);
    MapAllResults(methods, f);
    var ops := MethodOperations(path).value;
    forall i | 0 <= i < |ops|
      ensures BuiltFrom(path, methods[i], ops[i])
    {
      assert f(methods[i]) == Ok(ops[i]);
      OperationOfShape(path, methods[i]);
    }
  }

  /** An operation that is null (`get: null`) makes `operation.parameters` throw. */
  lemma {:induction false} NullOperationFails(fields: seq<Field>, verb: string)
    requires verb in RouteTree.HttpMethods && verb in Keys(fields)
    requires Lookup(fields, verb) == Some(Null)
    ensures MethodOperations(Obj(fields)).Err?
  {
    var methods := RouteTree.FilterMethods(Keys(fields));
    var f := key => OperationOf(Obj(fields), key);
    assert OperationOf(Obj(fields), verb).Err?;
    assert MethodOperations(Obj(fields)) == MapAll(methods, f);
    assert verb in methods;
    var i :| 0 <= i < |methods| && methods[i] == verb;
    assert f(methods[i]).Err?;
    MapAllResults(methods, f);
  }

  // ---------------------------------------------------------------- operationParameters

  /** `(operation.parameters ?? []).map(deref)`: `.map` throws unless the list is an array. */
  function OperationParameters(doc: Json, operation: Json): Outcome<seq<Value>>
  {
    var ps :- Get(Some(operation), "parameters");
    var list := Coalesce(ps, Arr([]));
    if list.Arr? then MapAll(list.items, it => Deref(Some(it), doc))
    else Err(TypeError)
  }

  /** Each parameter is resolved in place: the list keeps its length and order. */
  lemma OperationParametersResolved(doc: Json, operation: Json, items: seq<Json>)
    requires !operation.Null? && OwnGet(operation, "parameters") == Some(Arr(items))
    requires OperationParameters(doc, operation).Ok?
    ensures var ps := OperationParameters(doc, operation).value;
      |ps| == |items| && forall i :: 0 <= i < |items| ==> Deref(Some(items[i]), doc) == Ok(ps[i])
  {
    var f := it => Deref(Some(it), doc);
    assert OperationParameters(doc, operation) == MapAll(items, f);
    MapAllResults(items, f);
    var ps := OperationParameters(doc, operation).value;
    forall i | 0 <= i < |items|
      ensures Deref(Some(items[i]), doc) == Ok(ps[i])
    {
      assert f(items[i]) == Ok(ps[i]);
    }
  }

  // ---------------------------------------------------------------- path parameters

  /** `it.in === 'path'`, where reading `in` throws on null and undefined. */
  function InPath(p: Value): Outcome<bool>
  {
    var location :- Get(p, "in");
    Ok(location == Some(Str("path")))
  }

  /** `parameters.filter(it => it.in === 'path').map(it => it.name)`. */
  function PathParameters(ps: seq<Value>): (r: Outcome<seq<Value>>)
    ensures r.Ok? ==> |r.value| <= |ps|
    decreases |ps|
  {
    if |ps| == 0 then Ok([])
    else
      var names :- PathParameters(ps[..|ps| - 1]);
      var last := ps[|ps| - 1];
      var inPath :- InPath(last);
      Ok(if inPath then names + [OwnGet(last.value, "name")] else names)
  }

  /**
   * The list fails exactly when some parameter is null or undefined (a `$ref`
   * that resolves to nothing, say); its value otherwise is given by
   * `PathParametersOne` and `PathParametersAppend`.
   */
  lemma {:induction false} PathParametersFail(ps: seq<Value>)
    ensures PathParameters(ps).Err? <==> exists i :: 0 <= i < |ps| && IsNullish(ps[i])
    decreases |ps|
  {
    if |ps| > 0 {
      var init := ps[..|ps| - 1];
      PathParametersFail(init);
      assert forall i :: 0 <= i < |init| ==> init[i] == ps[i];
      if PathParameters(ps).Err? && !PathParameters(init).Err? {
        assert IsNullish(ps[|ps| - 1]);
      }
    }
  }

  /**
   * One parameter: reading its `in` throws when it is null or undefined;
   * otherwise its name is kept exactly when it is located in the path.
   */
  lemma PathParametersOne(p: Value)
    ensures PathParameters([p]).Ok? <==> !IsNullish(p)
    ensures !IsNullish(p) ==>
      PathParameters([p]).value == (if OwnGet(p.value, "in") == Some(Str("path")) then [OwnGet(p.value, "name")] else [])
  {
    assert [p][..0] == [];
  }

  /**
   * Filtering distributes over concatenation: the path parameters of `a + b`
   * are those of `a` followed by those of `b`, and the list fails exactly
   * when one of the halves does.
   */
  lemma {:induction false} PathParametersAppend(a: seq<Value>, b: seq<Value>)
    ensures PathParameters(a + b).Ok? <==> PathParameters(a).Ok? && PathParameters(b).Ok?
    ensures PathParameters(a + b).Ok? ==>
      PathParameters(a + b).value == PathParameters(a).value + PathParameters(b).value
    decreases |b|
  {
    if |b| == 0 {
      assert a + b == a;
    } else {
      var init, last := b[..|b| - 1], b[|b| - 1];
      assert (a + b)[..|a + b| - 1] == a + init;
      assert (a + b)[|a + b| - 1] == last;
      PathParametersAppend(a, init);
    }
  }

  /** `pathParamsParam`: no argument at all without path parameters, else `params: {a: string; b: string}`. */
  function PathParamsParam(names: seq<Value>): (r: Option<string>)
    ensures r.None? <==> |names| == 0
    ensures r.Some? ==> "params: {" <= r.value && |r.value| > 0
  {
    if |names| == 0 then None
    else Some("params: {" + Join(ParamEntries(names), "; ") + "}")
  }

  /** `${it}: string` for each name, in order. */
  function ParamEntries(names: seq<Value>): (r: seq<string>)
    ensures |r| == |names|
    ensures forall i :: 0 <= i < |names| ==> r[i] == ToStr(names[i]) + ": string"
  {
    seq(|names|, i requires 0 <= i < |names| => ToStr(names[i]) + ": string")
  }

  /** Every path parameter gets its own entry in the `params` argument. */
  lemma {:induction false} PathParamsParamMentions(names: seq<Value>, i: nat)
    requires i < |names|
    ensures PathParamsParam(names).Some?
    ensures Occurs(ToStr(names[i]) + ": string", PathParamsParam(names).value)
  {
    var entries := ParamEntries(names);
    assert entries[i] == ToStr(names[i]) + ": string";
    JoinContains(entries, "; ", i);
    OccursInside(entries[i], Join(entries, "; "), "params: {", "}");
  }
}
