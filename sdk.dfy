/**
 * `generateSdkFrom`: one async method per operation of every path, each
 * typed by its responses, and an import line naming every referenced type
 * once. The import list is a mutable array that `returnType` pushes onto;
 * here it is an `ImportList` object, and each method that pushes is proved
 * against a function computing the text and the imports together.
 */
module Sdk {
  import opened Wrappers
  import opened Text
  import opened Js
  import opened Naming
  import opened Operations
  import opened Types

  /** The `imports` array shared by all the calls of one generation. */
  class ImportList {
    var items: seq<Json>

    constructor()
      ensures items == []
    {
      items := [];
    }

    /** `imports.push(...xs)`. */
    method Push(xs: seq<Json>)
      modifies this
      ensures items == old(items) + xs
    {
      items := items + xs;
    }
  }

  // ---------------------------------------------------------------- returnType

  /** The union member for one status code, and the imports its type needs. */
  function ResponseMember(doc: Json, responses: Json, code: string): (r: Outcome<(string, seq<Json>)>)
    ensures r.Ok? ==> |r.value.1| <= 1
  {
    var t :- TypeFrom(doc, OwnGet(responses, code));
    Ok((MemberText(code, t.0), t.1))
  }

  /** `{ statusCode: 200; result: Widget }`. */
  function MemberText(code: string, typeName: Json): string
  {
    StatusField + code + ResultField + JsonToStr(typeName) + MemberClose
  }

  const StatusField: string := "{ statusCode: "
  const ResultField: string := "; result: "
  const MemberClose: string := " }"

  /** The members for the listed status codes and the imports they need, both in code order. */
  function ResponseMembers(doc: Json, responses: Json, codes: seq<string>): Outcome<(seq<string>, seq<Json>)>
    decreases |codes|
  {
    if |codes| == 0 then Ok(([], []))
    else
      var done :- ResponseMembers(doc, responses, codes[..|codes| - 1]);
      var m :- ResponseMember(doc, responses, codes[|codes| - 1]);
      Ok((done.0 + [m.0], done.1 + m.1))
  }

  /** `returnType(oas, method, imports)` as a value: the union text and the imports pushed. */
  function ReturnTypeOf(doc: Json, operation: Json): Outcome<(string, seq<Json>)>
  {
    var responses :- Get(Some(operation), "responses");
    var codes :- ObjectKeys(responses);
    var ms :- ResponseMembers(doc, responses.value, codes);
    Ok((Join(ms.0, " | "), ms.1))
  }

  /**
   * `returnType`: the union of one member per status code; every name a
   * member's type needs is pushed onto `imports`, in status-code order.
   */
  method ReturnType(doc: Json, operation: Json, imports: ImportList) returns (r: Outcome<string>)
    modifies imports
    ensures r.Err? <==> ReturnTypeOf(doc, operation).Err?
    ensures r.Ok? ==> (r.value == ReturnTypeOf(doc, operation).value.0 &&
                       imports.items == old(imports.items) + ReturnTypeOf(doc, operation).value.1)
  {
    var responses :- Get(Some(operation), "responses");
    var codes :- ObjectKeys(responses);
    var members :- PushMembers(doc, responses.value, codes, imports);
    return Ok(Join(members, " | "));
  }

  /** The `map` of `returnType`: the members for `codes`, pushing each one's imports in turn. */
  method PushMembers(doc: Json, responses: Json, codes: seq<string>, imports: ImportList)
    returns (r: Outcome<seq<string>>)
    modifies imports
    ensures r.Err? <==> ResponseMembers(doc, responses, codes).Err?
    ensures r.Ok? ==> (r.value == ResponseMembers(doc, responses, codes).value.0 &&
                       imports.items == old(imports.items) + ResponseMembers(doc, responses, codes).value.1)
  {
    var members: seq<string> := [];
    ghost var pushed: seq<Json> := [];
    var i := 0;
    while i < |codes|
      invariant 0 <= i <= |codes|
      invariant ResponseMembers(doc, responses, codes[..i]) == Ok((members, pushed))
      invariant imports.items == old(imports.items) + pushed
    {
      ResponseMembersStep(doc, responses, codes, i);
      var member := PushResponse(doc, responses, codes[i], imports);
      if member.Err? {
        ResponseMembersFail(doc, responses, codes, i + 1);
        return Err(TypeError);
      }
      ghost var added := ResponseMember(doc, responses, codes[i]).value.1;
      AppendAssociative(old(imports.items), pushed, added);
      pushed := pushed + added;
      members := members + [member.value];
      i := i + 1;
    }
    assert codes[..i] == codes;
    return Ok(members);
  }

  /**
   * The callback of `returnType` for one status code: type the response,
   * push the names it needs, and return the union member.
   */
  method PushResponse(doc: Json, responses: Json, code: string, imports: ImportList) returns (r: Outcome<string>)
    modifies imports
    ensures r.Err? <==> ResponseMember(doc, responses, code).Err?
    ensures r.Ok? ==> (r.value == ResponseMember(doc, responses, code).value.0 &&
                       imports.items == old(imports.items) + ResponseMember(doc, responses, code).value.1)
  {
    var response := OwnGet(responses, code);
    var t :- TypeFrom(doc, response);
    var (typeName, newImports) := t;
    imports.Push(newImports);
    return Ok(MemberText(code, typeName));
  }

  /** The members for one more status code. */
  lemma ResponseMembersStep(doc: Json, responses: Json, codes: seq<string>, i: nat)
    requires i < |codes|
    ensures ResponseMembers(doc, responses, codes[..i + 1]) ==
      (var done :- ResponseMembers(doc, responses, codes[..i]);
       var m :- ResponseMember(doc, responses, codes[i]);
       Ok((done.0 + [m.0], done.1 + m.1)))
  {
    assert codes[..i + 1][..i] == codes[..i];
  }

  /** A failure among the first `n` status codes fails the whole union. */
  lemma {:induction false} ResponseMembersFail(doc: Json, responses: Json, codes: seq<string>, n: nat)
    requires n <= |codes| && ResponseMembers(doc, responses, codes[..n]).Err?
    ensures ResponseMembers(doc, responses, codes).Err?
    decreases |codes|
  {
    if n < |codes| {
      assert codes[..|codes| - 1][..n] == codes[..n];
      ResponseMembersFail(doc, responses, codes[..|codes| - 1], n);
    } else {
      assert codes[..n] == codes;
    }
  }

  /** The imports the type of each status code's response needs, one list per code. */
  function CodeImports(doc: Json, responses: Json, codes: seq<string>): (r: seq<seq<Json>>)
    ensures |r| == |codes|
  {
    seq(|codes|, i requires 0 <= i < |codes| =>
      var t := TypeFrom(doc, OwnGet(responses, codes[i]));
      if t.Ok? then t.value.1 else [])
  }

  /**
   * One member per status code, in key order, each the member for that
   * code's response; the imports are those of each code's response type,
   * in code order.
   */
  lemma {:induction false} ResponseMembersPerCode(doc: Json, responses: Json, codes: seq<string>)
    requires ResponseMembers(doc, responses, codes).Ok?
    ensures var ms := ResponseMembers(doc, responses, codes).value;
      |ms.0| == |codes| &&
      forall i :: 0 <= i < |codes| ==>
        ResponseMember(doc, responses, codes[i]).Ok? && ms.0[i] == ResponseMember(doc, responses, codes[i]).value.0
    ensures ResponseMembers(doc, responses, codes).value.1 == Flatten(CodeImports(doc, responses, codes))
    decreases |codes|
  {
    if |codes| > 0 {
      var init, last := codes[..|codes| - 1], codes[|codes| - 1];
      ResponseMembersPerCode(doc, responses, init);
      var done := ResponseMembers(doc, responses, init).value;
      var m := ResponseMember(doc, responses, last).value;
      var ms := ResponseMembers(doc, responses, codes).value;
      assert ms == (done.0 + [m.0], done.1 + m.1);
      forall i | 0 <= i < |codes|
        ensures ResponseMember(doc, responses, codes[i]).Ok? && ms.0[i] == ResponseMember(doc, responses, codes[i]).value.0
      {
        if i < |init| {
          assert codes[i] == init[i] && ms.0[i] == done.0[i];
        } else {
          assert i == |codes| - 1 == |done.0|;
          assert codes[i] == last && ms.0[i] == m.0;
        }
      }
      CodeImportsSnoc(doc, responses, codes);
    }
  }

  /** The imports of one more status code come after those of the codes before it. */
  lemma CodeImportsSnoc(doc: Json, responses: Json, codes: seq<string>)
    requires |codes| > 0
    ensures var last := TypeFrom(doc, OwnGet(responses, codes[|codes| - 1]));
      Flatten(CodeImports(doc, responses, codes)) ==
      Flatten(CodeImports(doc, responses, codes[..|codes| - 1])) + (if last.Ok? then last.value.1 else [])
  {
    var init := codes[..|codes| - 1];
    var all, front := CodeImports(doc, responses, codes), CodeImports(doc, responses, init);
    assert all[..|init|] == front by {
      forall i | 0 <= i < |init|
        ensures all[i] == front[i]
      {
        assert codes[i] == init[i];
      }
    }
  }

  /**
   * The imports `returnType` pushes: those of the type of each response in
   * `responses`, in key order; every response is typed.
   */
  lemma ReturnTypeImports(doc: Json, operation: Json)
    requires ReturnTypeOf(doc, operation).Ok?
    ensures var responses := OwnGet(operation, "responses");
      responses.Some? && !responses.value.Null? &&
      (forall code :: code in OwnKeys(responses.value) ==> TypeFrom(doc, OwnGet(responses.value, code)).Ok?) &&
      ReturnTypeOf(doc, operation).value.1 == Flatten(CodeImports(doc, responses.value, OwnKeys(responses.value)))
  {
    var responses := OwnGet(operation, "responses");
    var codes := OwnKeys(responses.value);
    ResponseMembersPerCode(doc, responses.value, codes);
  }

  // ---------------------------------------------------------------- sdkMethod

  const QueryParameters: string := "queryParameters: Record<string, string> = {}"
  const Headers: string := "headers: Record<string, string> = {}"

  /** `bodyParam && \`body: ${bodyParam}\``: no entry for an absent or empty body type. */
  function BodyParam(bodyType: Option<string>): Option<string>
  {
    if bodyType.Some? && bodyType.value != "" then Some("body: " + bodyType.value) else None
  }

  /** The truthy entries of a candidate list, in order (`.filter(it => !!it)`). */
  function Present(candidates: seq<Option<string>>): (r: seq<string>)
    ensures |r| <= |candidates|
    decreases |candidates|
  {
    if |candidates| == 0 then []
    else
      var c := candidates[|candidates| - 1];
      Present(candidates[..|candidates| - 1]) + (if c.Some? && c.value != "" then [c.value] else [])
  }

  /** The parameter list of a generated method. */
  function SdkParams(pathParams: Option<string>, bodyType: Option<string>): seq<string>
  {
    Present([pathParams, BodyParam(bodyType), Some(QueryParameters), Some(Headers)])
  }

  /**
   * The parameters come in a fixed order: path parameters and body when
   * present, then query parameters and headers always.
   */
  lemma SdkParamsOrder(pathParams: Option<string>, bodyType: Option<string>)
    requires pathParams.Some? ==> pathParams.value != ""
    ensures SdkParams(pathParams, bodyType) ==
      (if pathParams.Some? then [pathParams.value] else []) +
      (if bodyType.Some? && bodyType.value != "" then ["body: " + bodyType.value] else []) +
      [QueryParameters, Headers]
  {
    var cs := [pathParams, BodyParam(bodyType), Some(QueryParameters), Some(Headers)];
    var c3, c2, c1 := cs[..3], cs[..2], cs[..1];
    assert c3[..2] == c2 && c2[..1] == c1 && c1[..0] == [];
    assert Present(c1) == (if pathParams.Some? then [pathParams.value] else []);
    assert Present(c2) == Present(c1) + (if bodyType.Some? && bodyType.value != "" then ["body: " + bodyType.value] else []);
    assert Present(c3) == Present(c2) + [QueryParameters];
    assert Present(cs) == Present(c3) + [Headers];
  }

  /** `    async getWidgetsById`: the HTTP method followed by the path's name. */
  function MethodName(verb: string, path: string): string
  {
    "    async " + verb + PathName(path)
  }

  /** The text of a generated method: its name, then its parameters, return type and body. */
  function MethodText(path: string, verb: string, params: seq<string>, returned: string,
                      bodyType: Option<string>, pathParams: Option<string>, dispatch: string): string
  {
    MethodName(verb, path) + "(" + MethodRest(path, params, returned, bodyType, pathParams, dispatch)
  }

  function MethodRest(path: string, params: seq<string>, returned: string,
                      bodyType: Option<string>, pathParams: Option<string>, dispatch: string): string
  {
    Join(params, ", ") + PromiseOpen + returned + PromiseClose +
    ResourceLine + path + PathLine + ReplaceChar(path, '{', ParamsPrefix) + CallLine +
    (if bodyType.Some? && bodyType.value != "" then "body" else "undefined") + ", " +
    (if pathParams.Some? then "params" else "{}") + CallTail + dispatch + ThrowLine
  }

  const PromiseOpen: string := "): Promise<("
  const PromiseClose: string := ") & {headers: Record<string, string>}>{\n"
  const ResourceLine: string := "      const resource = '"
  const PathLine: string := "';\n      const path = `"
  const ParamsPrefix: string := "${params."
  const CallLine: string := "`;\n      const result = await this.caller.call(resource, path, "
  const CallTail: string := ", queryParameters, headers);\n      "
  const ThrowLine: string := "\n      throw new Error(`Unknown status ${result.statusCode} returned from ${path}`)\n    }"

  /** `sdkMethod(...)` as a value: the method text and the imports its return type pushes. */
  function SdkMethodOf(path: string, verb: string, pathParameters: seq<Value>, doc: Json, operation: Json)
    : Outcome<(string, seq<Json>)>
  {
    var pathParams := PathParamsParam(pathParameters);
    var bodyType :- BodyFrom(doc, operation);
    var returned :- ReturnTypeOf(doc, operation);
    var dispatch :- BodyValue(doc, operation);
    Ok((MethodText(path, verb, SdkParams(pathParams, bodyType), returned.0, bodyType, pathParams, dispatch),
        returned.1))
  }

  /** `sdkMethod`: the text of one SDK method; the return type's imports are pushed onto `imports`. */
  method SdkMethod(path: string, verb: string, pathParameters: seq<Value>, doc: Json, operation: Json,
                   imports: ImportList) returns (r: Outcome<string>)
    modifies imports
    ensures r.Err? <==> SdkMethodOf(path, verb, pathParameters, doc, operation).Err?
    ensures r.Ok? ==> (r.value == SdkMethodOf(path, verb, pathParameters, doc, operation).value.0 &&
                       imports.items == old(imports.items) + SdkMethodOf(path, verb, pathParameters, doc, operation).value.1)
  {
    var pathParams := PathParamsParam(pathParameters);
    var bodyType :- BodyFrom(doc, operation);
    var params := SdkParams(pathParams, bodyType);
    var returned :- ReturnType(doc, operation, imports);
    var dispatch :- BodyValue(doc, operation);
    return Ok(MethodText(path, verb, params, returned, bodyType, pathParams, dispatch));
  }

  /** A generated method is named by the HTTP method followed by the path's name. */
  lemma MethodTextStart(path: string, verb: string, params: seq<string>, returned: string,
                        bodyType: Option<string>, pathParams: Option<string>, dispatch: string)
    ensures MethodName(verb, path) + "(" <= MethodText(path, verb, params, returned, bodyType, pathParams, dispatch)
  {
  }

  // ---------------------------------------------------------------- generateSdkFrom

  /** The method and imports for one operation of the Path-Item at `path`. */
  function OperationMethod(doc: Json, path: string, op: MethodOperation): Outcome<(string, seq<Json>)>
  {
    var parameters :- OperationParameters(doc, op.definition);
    var pathParameters :- PathParameters(parameters);
    SdkMethodOf(path, op.verb, pathParameters, doc, op.definition)
  }

  /** The methods (and imports) of a list of operations, in order. */
  function OperationMethods(doc: Json, path: string, ops: seq<MethodOperation>): Outcome<(seq<string>, seq<Json>)>
    decreases |ops|
  {
    if |ops| == 0 then Ok(([], []))
    else
      var done :- OperationMethods(doc, path, ops[..|ops| - 1]);
      var m :- OperationMethod(doc, path, ops[|ops| - 1]);
      Ok((done.0 + [m.0], done.1 + m.1))
  }

  /** The methods of one path entry: none when its Path-Item is falsy (a `$ref` resolving to nothing). */
  function EntryMethods(doc: Json, entry: PathEntry): Outcome<(seq<string>, seq<Json>)>
  {
    if !Truthy(entry.definition) then Ok(([], []))
    else
      var ops :- MethodOperations(entry.definition.value);
      OperationMethods(doc, entry.path, ops)
  }

  /** `paths.flatMap(...)`: the methods of all entries, in path order. */
  function EntriesMethods(doc: Json, entries: seq<PathEntry>): Outcome<(seq<string>, seq<Json>)>
    decreases |entries|
  {
    if |entries| == 0 then Ok(([], []))
    else
      var done :- EntriesMethods(doc, entries[..|entries| - 1]);
      var m :- EntryMethods(doc, entries[|entries| - 1]);
      Ok((done.0 + m.0, done.1 + m.1))
  }

  /** `oas.info.title.replace(/ /g, '') + 'Sdk'`: `.replace` throws unless the title is a string. */
  function SdkName(doc: Json): (r: Outcome<string>)
    ensures r.Ok? <==> InfoTitle(doc).Some?
    ensures r.Ok? ==> r.value == ReplaceChar(InfoTitle(doc).value, ' ', "") + "Sdk"
    ensures r.Ok? ==> |r.value| >= 3 && r.value[|r.value| - 3..] == "Sdk" && ' ' !in r.value
    ensures r.Ok? ==> forall ch :: ch != ' ' ==> multiset(r.value[..|r.value| - 3])[ch] == multiset(InfoTitle(doc).value)[ch]
  {
    var info :- Get(Some(doc), "info");
    var title :- Get(info, "title");
    if title.Some? && title.value.Str? then Ok(ReplaceChar(title.value.s, ' ', "") + "Sdk")
    else Err(TypeError)
  }

  /** `[...new Set(xs)]`: each value once, at its first occurrence. */
  function Dedup(xs: seq<Json>): (r: seq<Json>)
    ensures forall x :: x in r <==> x in xs
    ensures NoDuplicates(r)
    decreases |xs|
  {
    if |xs| == 0 then []
    else
      var done := Dedup(xs[..|xs| - 1]);
      var x := xs[|xs| - 1];
      assert forall y :: y in xs <==> y in xs[..|xs| - 1] || y == x by {
        assert xs == xs[..|xs| - 1] + [x];
      }
      if x in done then done else done + [x]
  }

  /** The position of the first occurrence of `x` in `xs`. */
  function FirstIndex<T(==)>(xs: seq<T>, x: T): (r: nat)
    requires x in xs
    ensures r < |xs| && xs[r] == x && x !in xs[..r]
  {
    if xs[0] == x then 0 else 1 + FirstIndex(xs[1..], x)
  }

  /** Appending a value does not move the first occurrence of a value already present. */
  lemma {:induction false} FirstIndexSnoc<T>(xs: seq<T>, x: T, y: T)
    requires y in xs
    ensures FirstIndex(xs + [x], y) == FirstIndex(xs, y)
  {
    var k := FirstIndex(xs, y);
    var ys := xs + [x];
    assert ys[k] == y && ys[..k] == xs[..k];
    FirstIndexUnique(ys, y, k);
  }

  /** The first occurrence is the one position holding the value with none before it. */
  lemma {:induction false} FirstIndexUnique<T>(xs: seq<T>, x: T, k: nat)
    requires k < |xs| && xs[k] == x && x !in xs[..k]
    ensures FirstIndex(xs, x) == k
  {
  }

  /**
   * `[...new Set(xs)]` lists the values in the order of their first
   * occurrence in `xs`.
   */
  lemma {:induction false} DedupFirstOccurrenceOrder(xs: seq<Json>)
    ensures forall i, j :: 0 <= i < j < |Dedup(xs)| ==> FirstIndex(xs, Dedup(xs)[i]) < FirstIndex(xs, Dedup(xs)[j])
    decreases |xs|
  {
    if |xs| > 0 {
      var init, x := xs[..|xs| - 1], xs[|xs| - 1];
      var done := Dedup(init);
      DedupFirstOccurrenceOrder(init);
      assert xs == init + [x];
      forall y | y in done
        ensures FirstIndex(xs, y) == FirstIndex(init, y) < |init|
      {
        FirstIndexSnoc(init, x, y);
      }
      if x !in done {
        assert x !in xs[..|init|];
        FirstIndexUnique(xs, x, |init|);
        var r := Dedup(xs);
        assert r == done + [x];
        forall i, j | 0 <= i < j < |r|
          ensures FirstIndex(xs, r[i]) < FirstIndex(xs, r[j])
        {
          assert r[i] == done[i] && r[i] in done;
          if j < |done| {
            assert r[j] == done[j] && r[j] in done;
          }
        }
      }
    }
  }

  predicate NoDuplicates<T(==)>(xs: seq<T>)
  {
    forall i, j :: 0 <= i < j < |xs| ==> xs[i] != xs[j]
  }

  const CallerConstructor: string :=
    "  constructor(\n" +
    "    private readonly caller: {\n" +
    "      call(\n" +
    "        resource: string,\n" +
    "        path: string,\n" +
    "        body: string | undefined,\n" +
    "        pathParameters: Record<string, string>,\n" +
    "        queryParameters: Record<string, string>,\n" +
    "        headers: Record<string, string>\n" +
    "      ): Promise<{ statusCode: number, body: string, headers: Record<string, string> }>\n" +
    "    }\n" +
    "  ){}\n"

  const ImportOpen: string := "import { "
  const ImportClose: string := " } from './model';\n\n"
  const ClassOpen: string := "class "
  const ClassBrace: string := " {\n"
  const MethodSeparator: string := "\n\n"
  const ClassClose: string := "\n}"

  /** The generated module: the import line, then the class holding the methods. */
  function SdkText(imports: seq<Json>, name: string, methods: seq<string>): string
  {
    ImportOpen + Join(ItemsToStr(Dedup(imports)), ", ") + ImportClose +
    ClassOpen + name + ClassBrace + CallerConstructor + Join(methods, MethodSeparator) + ClassClose
  }

  /** `generateSdkFrom(oas)` as a value. */
  function GenerateSdk(doc: Json): Outcome<string>
  {
    var name :- SdkName(doc);
    var entries :- PathsFrom(doc);
    var ms :- EntriesMethods(doc, entries);
    Ok(SdkText(ms.1, name, ms.0))
  }

  /** Every method handed to the class appears verbatim in the module text. */
  lemma SdkTextHasMethod(imports: seq<Json>, name: string, methods: seq<string>, i: nat)
    requires i < |methods|
    ensures Occurs(methods[i], SdkText(imports, name, methods))
  {
    JoinContains(methods, MethodSeparator, i);
    OccursInside(methods[i], Join(methods, MethodSeparator),
      ImportOpen + Join(ItemsToStr(Dedup(imports)), ", ") + ImportClose + ClassOpen + name + ClassBrace + CallerConstructor,
      ClassClose);
  }

  /** The operations a path entry contributes: none when its Path-Item is falsy or has no readable keys. */
  function OperationsOf(entry: PathEntry): seq<MethodOperation>
  {
    if Truthy(entry.definition) && MethodOperations(entry.definition.value).Ok? then
      MethodOperations(entry.definition.value).value
    else []
  }

  /**
   * A generated module holds, verbatim, the method of every operation of
   * every path entry (the entries follow the keys of `paths`, see
   * `PathsFromEntries`; the operations follow the HTTP-method keys of each
   * Path-Item, see `MethodOperationsShape`).
   */
  lemma GenerateSdkHasEveryMethod(doc: Json)
    requires GenerateSdk(doc).Ok?
    ensures PathsFrom(doc).Ok?
    ensures forall e :: e in PathsFrom(doc).value && Truthy(e.definition) ==>
      MethodOperations(e.definition.value).Ok?
    ensures forall e, op :: e in PathsFrom(doc).value && op in OperationsOf(e) ==>
      OperationMethod(doc, e.path, op).Ok? && Occurs(OperationMethod(doc, e.path, op).value.0, GenerateSdk(doc).value)
  {
    GenerateSdkParts(doc);
    EveryOperationInText(doc, PathsFrom(doc).value, SdkName(doc).value);
  }

  /** Every path entry's operations succeed, and each operation's method is in the text built from all entries' methods. */
  lemma EveryOperationInText(doc: Json, entries: seq<PathEntry>, name: string)
    requires EntriesMethods(doc, entries).Ok?
    ensures forall e :: e in entries && Truthy(e.definition) ==> MethodOperations(e.definition.value).Ok?
    ensures var ms := EntriesMethods(doc, entries).value;
      forall e, op :: e in entries && op in OperationsOf(e) ==>
        OperationMethod(doc, e.path, op).Ok? && Occurs(OperationMethod(doc, e.path, op).value.0, SdkText(ms.1, name, ms.0))
  {
    var ms := EntriesMethods(doc, entries).value;
    EntriesMethodsPerEntry(doc, entries);
    forall e | e in entries && Truthy(e.definition)
      ensures MethodOperations(e.definition.value).Ok?
    {
      EntryMethodsOps(doc, e);
    }
    forall e, op | e in entries && op in OperationsOf(e)
      ensures OperationMethod(doc, e.path, op).Ok? && Occurs(OperationMethod(doc, e.path, op).value.0, SdkText(ms.1, name, ms.0))
    {
      var i :| 0 <= i < |entries| && entries[i] == e;
      var j :| 0 <= j < |OperationsOf(e)| && OperationsOf(e)[j] == op;
      OperationInText(doc, entries, name, i, j);
    }
  }

  /**
   * The import line of a generated module names, once each and in order of
   * first use, exactly the types the operations' methods import: a name is
   * imported if and only if some operation of some path entry needs it.
   */
  lemma GenerateSdkImports(doc: Json)
    requires GenerateSdk(doc).Ok?
    ensures PathsFrom(doc).Ok? && EntriesMethods(doc, PathsFrom(doc).value).Ok?
    ensures var imports := Dedup(EntriesMethods(doc, PathsFrom(doc).value).value.1);
      ImportOpen + Join(ItemsToStr(imports), ", ") + ImportClose <= GenerateSdk(doc).value &&
      NoDuplicates(imports) &&
      forall x :: x in imports <==>
        exists e, op :: e in PathsFrom(doc).value && op in OperationsOf(e) &&
          OperationMethod(doc, e.path, op).Ok? && x in OperationMethod(doc, e.path, op).value.1
  {
    GenerateSdkParts(doc);
    var entries := PathsFrom(doc).value;
    var ms := EntriesMethods(doc, entries).value;
    SdkTextImportLine(ms.1, SdkName(doc).value, ms.0);
    EveryImportFromOperation(doc, entries);
  }

  /** A generated module opens with the import line of the deduplicated imports. */
  lemma SdkTextImportLine(imports: seq<Json>, name: string, methods: seq<string>)
    ensures ImportOpen + Join(ItemsToStr(Dedup(imports)), ", ") + ImportClose <= SdkText(imports, name, methods)
  {
  }

  /** The imports of all entries are exactly the imports of their operations' methods. */
  lemma EveryImportFromOperation(doc: Json, entries: seq<PathEntry>)
    requires EntriesMethods(doc, entries).Ok?
    ensures forall x :: x in EntriesMethods(doc, entries).value.1 <==>
      exists e, op :: e in entries && op in OperationsOf(e) &&
        OperationMethod(doc, e.path, op).Ok? && x in OperationMethod(doc, e.path, op).value.1
  {
    forall x
      ensures x in EntriesMethods(doc, entries).value.1 <==>
        exists e, op :: e in entries && op in OperationsOf(e) &&
          OperationMethod(doc, e.path, op).Ok? && x in OperationMethod(doc, e.path, op).value.1
    {
      if x in EntriesMethods(doc, entries).value.1 {
        ImportFromOperation(doc, entries, x);
      }
      if exists e, op :: e in entries && op in OperationsOf(e) &&
          OperationMethod(doc, e.path, op).Ok? && x in OperationMethod(doc, e.path, op).value.1 {
        var e, op :| e in entries && op in OperationsOf(e) &&
          OperationMethod(doc, e.path, op).Ok? && x in OperationMethod(doc, e.path, op).value.1;
        var i :| 0 <= i < |entries| && entries[i] == e;
        var j :| 0 <= j < |OperationsOf(e)| && OperationsOf(e)[j] == op;
        OperationImportIncluded(doc, entries, i, j, x);
      }
    }
  }

  /** Each import of all entries comes from the method of some operation of some entry. */
  lemma ImportFromOperation(doc: Json, entries: seq<PathEntry>, x: Json)
    requires EntriesMethods(doc, entries).Ok? && x in EntriesMethods(doc, entries).value.1
    ensures
      exists e, op :: e in entries && op in OperationsOf(e) &&
        OperationMethod(doc, e.path, op).Ok? && x in OperationMethod(doc, e.path, op).value.1
  {
    EntriesMethodsPerEntry(doc, entries);
    var imports := EntryImports(doc, entries);
    FlattenContains(imports, x);
    var i :| 0 <= i < |imports| && x in imports[i];
    var e := entries[i];
    EntryMethodsOps(doc, e);
    var ops := OperationsOf(e);
    var perOp := OperationImports(doc, e.path, ops);
    assert x in Flatten(perOp);
    FlattenContains(perOp, x);
    var j :| 0 <= j < |perOp| && x in perOp[j];
    assert ops[j] in ops;
    assert x in OperationMethod(doc, e.path, ops[j]).value.1;
  }

  /** An import of the `j`-th operation of the `i`-th entry is an import of all entries. */
  lemma OperationImportIncluded(doc: Json, entries: seq<PathEntry>, i: nat, j: nat, x: Json)
    requires EntriesMethods(doc, entries).Ok?
    requires i < |entries| && j < |OperationsOf(entries[i])|
    requires var m := OperationMethod(doc, entries[i].path, OperationsOf(entries[i])[j]);
      m.Ok? && x in m.value.1
    ensures x in EntriesMethods(doc, entries).value.1
  {
    var e := entries[i];
    EntriesMethodsPerEntry(doc, entries);
    EntryMethodsOps(doc, e);
    var perOp := OperationImports(doc, e.path, OperationsOf(e));
    assert x in perOp[j];
    FlattenContains(perOp, x);
    var imports := EntryImports(doc, entries);
    assert x in imports[i];
    FlattenContains(imports, x);
  }

  /** A generated module is the text built from the class name and the methods of all path entries. */
  lemma GenerateSdkParts(doc: Json)
    requires GenerateSdk(doc).Ok?
    ensures SdkName(doc).Ok? && PathsFrom(doc).Ok? && EntriesMethods(doc, PathsFrom(doc).value).Ok?
    ensures var ms := EntriesMethods(doc, PathsFrom(doc).value).value;
      GenerateSdk(doc).value == SdkText(ms.1, SdkName(doc).value, ms.0)
  {
  }

  /** The method of the `j`-th operation of the `i`-th entry is in the text built from all entries' methods. */
  lemma OperationInText(doc: Json, entries: seq<PathEntry>, name: string, i: nat, j: nat)
    requires EntriesMethods(doc, entries).Ok?
    requires i < |entries| && j < |OperationsOf(entries[i])|
    ensures var op := OperationsOf(entries[i])[j];
      var ms := EntriesMethods(doc, entries).value;
      OperationMethod(doc, entries[i].path, op).Ok? &&
      Occurs(OperationMethod(doc, entries[i].path, op).value.0, SdkText(ms.1, name, ms.0))
  {
    var ms := EntriesMethods(doc, entries).value;
    var texts := EntryTexts(doc, entries);
    EntriesMethodsPerEntry(doc, entries);
    EntryMethodsOps(doc, entries[i]);
    assert texts[i] == EntryMethods(doc, entries[i]).value.0;
    FlattenIndex(texts, i, j);
    var k :| 0 <= k < |ms.0| && ms.0[k] == texts[i][j];
    SdkTextHasMethod(ms.1, name, ms.0, k);
  }

  /** The method lists of the entries, one list per entry (empty for an entry that fails). */
  function EntryTexts(doc: Json, entries: seq<PathEntry>): (r: seq<seq<string>>)
    ensures |r| == |entries|
  {
    seq(|entries|, i requires 0 <= i < |entries| =>
      if EntryMethods(doc, entries[i]).Ok? then EntryMethods(doc, entries[i]).value.0 else [])
  }

  /** The imports of the entries, one list per entry (empty for an entry that fails). */
  function EntryImports(doc: Json, entries: seq<PathEntry>): (r: seq<seq<Json>>)
    ensures |r| == |entries|
  {
    seq(|entries|, i requires 0 <= i < |entries| =>
      if EntryMethods(doc, entries[i]).Ok? then EntryMethods(doc, entries[i]).value.1 else [])
  }

  /** The imports of one more entry come after those of the entries before it. */
  lemma EntryImportsSnoc(doc: Json, entries: seq<PathEntry>)
    requires |entries| > 0
    ensures var last := EntryMethods(doc, entries[|entries| - 1]);
      Flatten(EntryImports(doc, entries)) ==
      Flatten(EntryImports(doc, entries[..|entries| - 1])) + (if last.Ok? then last.value.1 else [])
  {
    var init := entries[..|entries| - 1];
    var all, front := EntryImports(doc, entries), EntryImports(doc, init);
    assert all[..|init|] == front by {
      forall i | 0 <= i < |init|
        ensures all[i] == front[i]
      {
        assert entries[i] == init[i];
      }
    }
  }

  /** The methods and imports of all entries are those of each entry, one list after the other. */
  lemma {:induction false} EntriesMethodsPerEntry(doc: Json, entries: seq<PathEntry>)
    requires EntriesMethods(doc, entries).Ok?
    ensures forall i :: 0 <= i < |entries| ==> EntryMethods(doc, entries[i]).Ok?
    ensures EntriesMethods(doc, entries).value.0 == Flatten(EntryTexts(doc, entries))
    ensures EntriesMethods(doc, entries).value.1 == Flatten(EntryImports(doc, entries))
    decreases |entries|
  {
    if |entries| > 0 {
      var n := |entries| - 1;
      var init, last := entries[..n], entries[n];
      EntriesMethodsStep(doc, entries, n);
      assert entries[..n + 1] == entries;
      var done := EntriesMethods(doc, init).value;
      var m := EntryMethods(doc, last).value;
      assert EntriesMethods(doc, entries).value.0 == done.0 + m.0;
      EntriesMethodsPerEntry(doc, init);
      var texts := EntryTexts(doc, entries);
      var front := EntryTexts(doc, init);
      assert texts[..n] == front by {
        forall i | 0 <= i < n
          ensures texts[i] == front[i]
        {
          assert entries[i] == init[i];
        }
      }
      assert texts[n] == m.0;
      assert Flatten(texts) == Flatten(front) + m.0;
      EntryImportsSnoc(doc, entries);
      forall i | 0 <= i < |entries|
        ensures EntryMethods(doc, entries[i]).Ok?
      {
        if i < n {
          assert entries[i] == init[i];
        } else {
          assert i == n;
        }
      }
    }
  }

  /**
   * The methods of one path entry: none for a falsy Path-Item, otherwise one
   * per operation, in order, each that operation's method.
   */
  lemma EntryMethodsOps(doc: Json, entry: PathEntry)
    requires EntryMethods(doc, entry).Ok?
    ensures !Truthy(entry.definition) ==> EntryMethods(doc, entry).value.0 == []
    ensures Truthy(entry.definition) ==> MethodOperations(entry.definition.value).Ok?
    ensures var ops := OperationsOf(entry);
      var texts := EntryMethods(doc, entry).value.0;
      |texts| == |ops| &&
      forall j :: 0 <= j < |ops| ==>
        OperationMethod(doc, entry.path, ops[j]).Ok? && texts[j] == OperationMethod(doc, entry.path, ops[j]).value.0
    ensures EntryMethods(doc, entry).value.1 == Flatten(OperationImports(doc, entry.path, OperationsOf(entry)))
  {
    if Truthy(entry.definition) {
      OperationMethodsPerOp(doc, entry.path, MethodOperations(entry.definition.value).value);
    }
  }

  /**
   * One method per operation, in order, each that operation's method; the
   * imports are those of each operation's method, in order.
   */
  lemma {:induction false} OperationMethodsPerOp(doc: Json, path: string, ops: seq<MethodOperation>)
    requires OperationMethods(doc, path, ops).Ok?
    ensures var ms := OperationMethods(doc, path, ops).value;
      |ms.0| == |ops| &&
      forall j :: 0 <= j < |ops| ==>
        OperationMethod(doc, path, ops[j]).Ok? && ms.0[j] == OperationMethod(doc, path, ops[j]).value.0
    ensures OperationMethods(doc, path, ops).value.1 == Flatten(OperationImports(doc, path, ops))
    decreases |ops|
  {
    if |ops| > 0 {
      var init, last := ops[..|ops| - 1], ops[|ops| - 1];
      OperationMethodsPerOp(doc, path, init);
      var done := OperationMethods(doc, path, init).value;
      var m := OperationMethod(doc, path, last).value;
      var ms := OperationMethods(doc, path, ops).value;
      assert ms == (done.0 + [m.0], done.1 + m.1);
      forall j | 0 <= j < |ops|
        ensures OperationMethod(doc, path, ops[j]).Ok? && ms.0[j] == OperationMethod(doc, path, ops[j]).value.0
      {
        if j < |init| {
          assert ops[j] == init[j] && ms.0[j] == done.0[j];
        } else {
          assert j == |ops| - 1 == |done.0|;
          assert ops[j] == last && ms.0[j] == m.0;
        }
      }
      OperationImportsSnoc(doc, path, ops);
    }
  }

  /** The imports of each operation's method, one list per operation. */
  function OperationImports(doc: Json, path: string, ops: seq<MethodOperation>): (r: seq<seq<Json>>)
    ensures |r| == |ops|
  {
    seq(|ops|, j requires 0 <= j < |ops| =>
      var m := OperationMethod(doc, path, ops[j]);
      if m.Ok? then m.value.1 else [])
  }

  /** The imports of one more operation come after those of the operations before it. */
  lemma OperationImportsSnoc(doc: Json, path: string, ops: seq<MethodOperation>)
    requires |ops| > 0
    ensures var last := OperationMethod(doc, path, ops[|ops| - 1]);
      Flatten(OperationImports(doc, path, ops)) ==
      Flatten(OperationImports(doc, path, ops[..|ops| - 1])) + (if last.Ok? then last.value.1 else [])
  {
    var init := ops[..|ops| - 1];
    var all, front := OperationImports(doc, path, ops), OperationImports(doc, path, init);
    assert all[..|init|] == front by {
      forall j | 0 <= j < |init|
        ensures all[j] == front[j]
      {
        assert ops[j] == init[j];
      }
    }
  }

  /** The imports an operation's method pushes are those of its return type. */
  lemma OperationMethodImports(doc: Json, path: string, op: MethodOperation)
    requires OperationMethod(doc, path, op).Ok?
    ensures ReturnTypeOf(doc, op.definition).Ok?
    ensures OperationMethod(doc, path, op).value.1 == ReturnTypeOf(doc, op.definition).value.1
  {
  }

  /** `generateSdkFrom`: the SDK module for a document. */
  method GenerateSdkFrom(doc: Json) returns (r: Outcome<string>)
    ensures r.Err? <==> GenerateSdk(doc).Err?
    ensures r.Ok? ==> r.value == GenerateSdk(doc).value
  {
    var name :- SdkName(doc);
    var entries :- PathsFrom(doc);
    var imports := new ImportList();
    var methods: seq<string> := [];
    var i := 0;
    while i < |entries|
      invariant 0 <= i <= |entries|
      invariant EntriesMethods(doc, entries[..i]) == Ok((methods, imports.items))
    {
      EntriesMethodsStep(doc, entries, i);
      var entryMethods := PushEntry(doc, entries[i], imports);
      if entryMethods.Err? {
        EntriesMethodsFail(doc, entries, i + 1);
        return Err(TypeError);
      }
      methods := methods + entryMethods.value;
      i := i + 1;
    }
    assert entries[..i] == entries;
    return Ok(SdkText(imports.items, name, methods));
  }

  /** The `flatMap` callback: the methods of one path entry, pushing their imports. */
  method PushEntry(doc: Json, entry: PathEntry, imports: ImportList) returns (r: Outcome<seq<string>>)
    modifies imports
    ensures r.Err? <==> EntryMethods(doc, entry).Err?
    ensures r.Ok? ==> (r.value == EntryMethods(doc, entry).value.0 &&
                       imports.items == old(imports.items) + EntryMethods(doc, entry).value.1)
  {
    if !Truthy(entry.definition) {
      return Ok([]);
    }
    var ops :- MethodOperations(entry.definition.value);
    r := PushOperations(doc, entry.path, ops, imports);
  }

  /** The methods of the operations of one path, pushing the imports of each in turn. */
  method PushOperations(doc: Json, path: string, ops: seq<MethodOperation>, imports: ImportList)
    returns (r: Outcome<seq<string>>)
    modifies imports
    ensures r.Err? <==> OperationMethods(doc, path, ops).Err?
    ensures r.Ok? ==> (r.value == OperationMethods(doc, path, ops).value.0 &&
                       imports.items == old(imports.items) + OperationMethods(doc, path, ops).value.1)
  {
    var methods: seq<string> := [];
    ghost var pushed: seq<Json> := [];
    var j := 0;
    while j < |ops|
      invariant 0 <= j <= |ops|
      invariant OperationMethods(doc, path, ops[..j]) == Ok((methods, pushed))
      invariant imports.items == old(imports.items) + pushed
    {
      OperationMethodsStep(doc, path, ops, j);
      var text := PushOperation(doc, path, ops[j], imports);
      if text.Err? {
        OperationMethodsFail(doc, path, ops, j + 1);
        return Err(TypeError);
      }
      ghost var added := OperationMethod(doc, path, ops[j]).value.1;
      AppendAssociative(old(imports.items), pushed, added);
      pushed := pushed + added;
      methods := methods + [text.value];
      j := j + 1;
    }
    assert ops[..j] == ops;
    return Ok(methods);
  }

  /** The `map` callback over the operations: resolve the parameters, keep the path ones, emit the method. */
  method PushOperation(doc: Json, path: string, op: MethodOperation, imports: ImportList) returns (r: Outcome<string>)
    modifies imports
    ensures r.Err? <==> OperationMethod(doc, path, op).Err?
    ensures r.Ok? ==> (r.value == OperationMethod(doc, path, op).value.0 &&
                       imports.items == old(imports.items) + OperationMethod(doc, path, op).value.1)
  {
    var parameters :- OperationParameters(doc, op.definition);
    var pathParameters :- PathParameters(parameters);
    r := SdkMethod(path, op.verb, pathParameters, doc, op.definition, imports);
  }

  /** The methods of one more entry. */
  lemma EntriesMethodsStep(doc: Json, entries: seq<PathEntry>, i: nat)
    requires i < |entries|
    ensures EntriesMethods(doc, entries[..i + 1]) ==
      (var done :- EntriesMethods(doc, entries[..i]);
       var m :- EntryMethods(doc, entries[i]);
       Ok((done.0 + m.0, done.1 + m.1)))
  {
    assert entries[..i + 1][..i] == entries[..i];
  }

  /** The methods of one more operation. */
  lemma OperationMethodsStep(doc: Json, path: string, ops: seq<MethodOperation>, j: nat)
    requires j < |ops|
    ensures OperationMethods(doc, path, ops[..j + 1]) ==
      (var done :- OperationMethods(doc, path, ops[..j]);
       var m :- OperationMethod(doc, path, ops[j]);
       Ok((done.0 + [m.0], done.1 + m.1)))
  {
    assert ops[..j + 1][..j] == ops[..j];
  }

  /** A failure in the first `n` entries fails the whole generation. */
  lemma {:induction false} EntriesMethodsFail(doc: Json, entries: seq<PathEntry>, n: nat)
    requires n <= |entries|
    requires EntriesMethods(doc, entries[..n]).Err?
    ensures EntriesMethods(doc, entries).Err?
    decreases |entries|
  {
    if n < |entries| {
      assert entries[..|entries| - 1][..n] == entries[..n];
      EntriesMethodsFail(doc, entries[..|entries| - 1], n);
    } else {
      assert entries[..n] == entries;
    }
  }

  /** A failure in the first `n` operations fails the whole list. */
  lemma {:induction false} OperationMethodsFail(doc: Json, path: string, ops: seq<MethodOperation>, n: nat)
    requires n <= |ops|
    requires OperationMethods(doc, path, ops[..n]).Err?
    ensures OperationMethods(doc, path, ops).Err?
    decreases |ops|
  {
    if n < |ops| {
      assert ops[..|ops| - 1][..n] == ops[..n];
      OperationMethodsFail(doc, path, ops[..|ops| - 1], n);
    } else {
      assert ops[..n] == ops;
    }
  }
}
