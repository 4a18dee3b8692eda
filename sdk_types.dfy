/**
 * How the SDK generator types a response or a request body: the first media
 * type of the `content` map decides; for `application/json` the schema's
 * `$ref` names the type (a response uses the referenced schema's `title`
 * when it has one), anything else is typed `string`. Also the status-code
 * dispatch emitted in each SDK method.
 */
module Types {
  import opened Wrappers
  import opened Text
  import opened Js
  import opened Pointer
  import opened Operations

  const JsonMediaType: string := "application/json"

  /**
   * `Object.keys(def.content ?? fallback)[0]` and `def.content[type].schema`:
   * the first media type (undefined for an empty map) and its schema. The
   * schema is read from `def.content` itself, so a missing `content` throws
   * even though the key list fell back.
   */
  function ContentSchema(def: Value, fallback: Json): (r: Outcome<(Option<string>, Value)>)
    ensures r.Ok? ==> Get(def, "content").Ok? && !IsNullish(Get(def, "content").value)
  {
    var content :- Get(def, "content");
    var keys :- ObjectKeys(Some(Coalesce(content, fallback)));
    var kind := First(keys);
    var media :- Get(content, KeyOf(kind));
    var schema :- Get(media, "schema");
    Ok((kind, schema))
  }

  /**
   * `def` is a response or body that is not a `$ref` and whose `content` map
   * lists `mediaType: media` first; whatever other fields `def` and its
   * `content` hold.
   */
  predicate FirstMediaType(def: Json, mediaType: string, media: Json)
  {
    def.Obj? && "$ref" !in Keys(def.fields) &&
    var content := Lookup(def.fields, "content");
    content.Some? && content.value.Obj? && |content.value.fields| > 0 &&
    content.value.fields[0] == Field(mediaType, media)
  }

  /** The media object's schema is an object whose `$ref` is `ref`. */
  predicate RefSchema(media: Json, ref: Json)
  {
    !media.Null? && OwnGet(media, "schema").Some? && !OwnGet(media, "schema").value.Null? &&
    OwnGet(OwnGet(media, "schema").value, "$ref") == Some(ref)
  }

  /** The media object's schema is given inline: a value without a `$ref`. */
  predicate InlineSchema(media: Json)
  {
    !media.Null? && OwnGet(media, "schema").Some? && !OwnGet(media, "schema").value.Null? &&
    OwnGet(OwnGet(media, "schema").value, "$ref").None?
  }

  /** Only the first entry of `content` is read; a null media object throws when its schema is read. */
  lemma {:induction false} ContentSchemaOfFirstMedia(def: Json, mediaType: string, media: Json)
    requires FirstMediaType(def, mediaType, media)
    ensures ContentSchema(Some(def), Arr([Str("application/text")])) ==
      if media.Null? then Err(TypeError) else Ok((Some(mediaType), OwnGet(media, "schema")))
  {
    var content := Lookup(def.fields, "content").value;
    assert Get(Some(def), "content") == Ok(Some(content));
    assert Keys(content.fields)[0] == mediaType;
    assert Lookup(content.fields, mediaType) == Some(media);
  }

  /**
   * Without a `content` map the fallback only names the key "0"; the schema
   * is then read from the missing `content` and the read throws.
   */
  lemma {:induction false} MissingContentFails(fields: seq<Field>)
    requires "content" !in Keys(fields)
    ensures ContentSchema(Some(Obj(fields)), Arr([Str("application/text")])).Err?
  {
  }

  // ---------------------------------------------------------------- typeFrom

  /**
   * `typeFrom(oas, response)`: the result type and the names it needs
   * imported. The schema reference is resolved before it is tested, so an
   * inline JSON schema (no `$ref`) throws, and a reference that resolves to
   * nothing throws when its `title` is read.
   */
  function TypeFrom(doc: Json, response: Value): (r: Outcome<(Json, seq<Json>)>)
    ensures r.Ok? ==> r.value.1 == [] || r.value.1 == [r.value.0]
    ensures r.Ok? && r.value.1 == [] ==> r.value.0 == Str("string") || r.value.0 == Str("unknown")
  {
    var def :- Deref(response, doc);
    var cs :- ContentSchema(def, Arr([Str("application/text")]));
    if cs.0 == Some(JsonMediaType) then SchemaType(doc, cs.1)
    else Ok((Str("string"), []))
  }

  /** The JSON branch of `typeFrom`: the type named by the schema's `$ref`. */
  function SchemaType(doc: Json, schema: Value): (r: Outcome<(Json, seq<Json>)>)
    ensures r.Ok? ==> r.value.1 == [] || r.value.1 == [r.value.0]
    ensures r.Ok? && r.value.1 == [] ==> r.value.0 == Str("unknown")
  {
    var refValue :- Get(schema, "$ref");
    var typeDef :- ResolveRef(refValue, doc);
    if Truthy(refValue) then
      var title :- Get(typeDef, "title");
      var typeName := Coalesce(title, Str(AfterLastSlash(refValue.value.s)));
      Ok((typeName, [typeName]))
    else Ok((Str("unknown"), []))
  }

  /**
   * `typeFrom` reads nothing of a response but its first media type and that
   * media object's schema: JSON is typed by the schema, any other media type
   * is `string`, and a null media object throws.
   */
  lemma {:induction false} TypeFromFirstMedia(doc: Json, response: Json, mediaType: string, media: Json)
    requires FirstMediaType(response, mediaType, media)
    ensures TypeFrom(doc, Some(response)) ==
      if media.Null? then Err(TypeError)
      else if mediaType == JsonMediaType then SchemaType(doc, OwnGet(media, "schema"))
      else Ok((Str("string"), []))
  {
    DerefCases(Some(response), doc);
    ContentSchemaOfFirstMedia(response, mediaType, media);
  }

  /** A `$ref` response is typed as the response it points to. */
  lemma {:induction false} TypeFromResponseRef(doc: Json, response: Json, ref: string, target: Json, mediaType: string, media: Json)
    requires !response.Null? && OwnGet(response, "$ref") == Some(Str(ref))
    requires TraversePath(ref, Some(doc)) == Some(target)
    requires FirstMediaType(target, mediaType, media)
    ensures TypeFrom(doc, Some(response)) == TypeFrom(doc, Some(target))
  {
    DerefCases(Some(response), doc);
    DerefCases(Some(target), doc);
  }

  /** A non-JSON first media type is typed `string` and imports nothing, whatever its schema. */
  lemma {:induction false} TypeFromOther(doc: Json, response: Json, mediaType: string, media: Json)
    requires FirstMediaType(response, mediaType, media) && !media.Null?
    requires mediaType != JsonMediaType
    ensures TypeFrom(doc, Some(response)) == Ok((Str("string"), []))
  {
    TypeFromFirstMedia(doc, response, mediaType, media);
  }

  /** A reference to a schema with a `title` is typed by that title, which is imported. */
  lemma {:induction false} TypeFromTitled(doc: Json, response: Json, media: Json, ref: string, target: seq<Field>, title: Json)
    requires FirstMediaType(response, JsonMediaType, media) && RefSchema(media, Str(ref))
    requires ref != ""
    requires TraversePath(ref, Some(doc)) == Some(Obj(target))
    requires Lookup(target, "title") == Some(title) && !title.Null?
    ensures TypeFrom(doc, Some(response)) == Ok((title, [title]))
  {
    TypeFromJson(doc, response, media, Str(ref));
  }

  /** A reference to a schema without a `title` is typed by the reference's last segment. */
  lemma {:induction false} TypeFromUntitled(doc: Json, response: Json, media: Json, ref: string, target: seq<Field>)
    requires FirstMediaType(response, JsonMediaType, media) && RefSchema(media, Str(ref))
    requires ref != ""
    requires TraversePath(ref, Some(doc)) == Some(Obj(target))
    requires "title" !in Keys(target)
    ensures TypeFrom(doc, Some(response)) ==
      Ok((Str(AfterLastSlash(ref)), [Str(AfterLastSlash(ref))]))
  {
    TypeFromJson(doc, response, media, Str(ref));
  }

  /** A reference that resolves to nothing makes `typeDef.title` throw. */
  lemma {:induction false} TypeFromDangling(doc: Json, response: Json, media: Json, ref: string)
    requires FirstMediaType(response, JsonMediaType, media) && RefSchema(media, Str(ref))
    requires ref != ""
    requires TraversePath(ref, Some(doc)).None?
    ensures TypeFrom(doc, Some(response)).Err?
  {
    TypeFromJson(doc, response, media, Str(ref));
  }

  /** An inline JSON schema has no `$ref`: resolving `undefined` throws before the `unknown` branch is reached. */
  lemma {:induction false} TypeFromInlineSchema(doc: Json, response: Json, media: Json)
    requires FirstMediaType(response, JsonMediaType, media) && InlineSchema(media)
    ensures TypeFrom(doc, Some(response)).Err?
  {
    TypeFromFirstMedia(doc, response, JsonMediaType, media);
    assert SchemaType(doc, OwnGet(media, "schema")).Err?;
  }

  /** The type is `unknown` only for the empty reference `""`, the one falsy string. */
  lemma {:induction false} TypeFromUnknown(doc: Json, response: Json, media: Json, ref: Json)
    requires FirstMediaType(response, JsonMediaType, media) && RefSchema(media, ref)
    ensures TypeFrom(doc, Some(response)).Ok? &&
      TypeFrom(doc, Some(response)).value.0 == Str("unknown") &&
      TypeFrom(doc, Some(response)).value.1 == []
      <==> ref == Str("")
  {
    TypeFromJson(doc, response, media, ref);
  }

  /** `typeFrom` on a response whose first media type is JSON with a schema `{"$ref": ref, ...}`. */
  lemma {:induction false} TypeFromJson(doc: Json, response: Json, media: Json, ref: Json)
    requires FirstMediaType(response, JsonMediaType, media) && RefSchema(media, ref)
    ensures TypeFrom(doc, Some(response)) ==
      if !ref.Str? then Err(TypeError)
      else if ref.s == "" then Ok((Str("unknown"), []))
      else
        var typeDef := TraversePath(ref.s, Some(doc));
        if IsNullish(typeDef) then Err(TypeError)
        else
          var typeName := Coalesce(OwnGet(typeDef.value, "title"), Str(AfterLastSlash(ref.s)));
          Ok((typeName, [typeName]))
  {
    TypeFromFirstMedia(doc, response, JsonMediaType, media);
    SchemaTypeOfRef(doc, OwnGet(media, "schema").value, ref);
  }

  /** The JSON branch for any schema carrying a `$ref`, whatever else it holds. */
  lemma SchemaTypeOfRef(doc: Json, schema: Json, ref: Json)
    requires !schema.Null? && OwnGet(schema, "$ref") == Some(ref)
    ensures SchemaType(doc, Some(schema)) ==
      if !ref.Str? then Err(TypeError)
      else if ref.s == "" then Ok((Str("unknown"), []))
      else
        var typeDef := TraversePath(ref.s, Some(doc));
        if IsNullish(typeDef) then Err(TypeError)
        else
          var typeName := Coalesce(OwnGet(typeDef.value, "title"), Str(AfterLastSlash(ref.s)));
          Ok((typeName, [typeName]))
  {
    assert Get(Some(schema), "$ref") == Ok(Some(ref));
    if ref.Str? && ref.s != "" {
      assert Truthy(Some(ref));
      var typeDef := TraversePath(ref.s, Some(doc));
      assert ResolveRef(Some(ref), doc) == Ok(typeDef);
    }
  }

  // ---------------------------------------------------------------- bodyFrom

  /**
   * `bodyFrom(oas, operation)`: no body argument when `requestBody` is falsy;
   * otherwise the body type, where a JSON reference contributes only its text
   * after the last '/', whatever it resolves to.
   */
  function BodyFrom(doc: Json, operation: Json): (r: Outcome<Option<string>>)
  {
    var body :- Get(Some(operation), "requestBody");
    if !Truthy(body) then Ok(None)
    else
      var def :- Deref(body, doc);
      var cs :- ContentSchema(def, Arr([Str("application/text")]));
      if cs.0 == Some(JsonMediaType) then BodySchemaType(cs.1)
      else Ok(Some("string"))
  }

  /** The JSON branch of `bodyFrom`: the text after the last '/' of the schema's `$ref`, never resolved. */
  function BodySchemaType(schema: Value): Outcome<Option<string>>
  {
    var refValue :- Get(schema, "$ref");
    if !Truthy(refValue) then Ok(Some("unknown"))
    else if refValue.value.Str? then Ok(Some(AfterLastSlash(refValue.value.s)))
    else Err(TypeError)
  }

  /** There is no body argument exactly when the operation's `requestBody` is falsy. */
  lemma BodyFromNone(doc: Json, operation: Json)
    requires !operation.Null?
    ensures BodyFrom(doc, operation) == Ok(None) <==> !Truthy(OwnGet(operation, "requestBody"))
  {
  }

  /**
   * `bodyFrom` reads nothing of a request body but its first media type and
   * that media object's schema, like `typeFrom`, but with the JSON branch of
   * `BodySchemaType`.
   */
  lemma {:induction false} BodyFromFirstMedia(doc: Json, operation: Json, body: Json, mediaType: string, media: Json)
    requires !operation.Null? && OwnGet(operation, "requestBody") == Some(body)
    requires FirstMediaType(body, mediaType, media)
    ensures BodyFrom(doc, operation) ==
      if media.Null? then Err(TypeError)
      else if mediaType == JsonMediaType then BodySchemaType(OwnGet(media, "schema"))
      else Ok(Some("string"))
  {
    DerefCases(Some(body), doc);
    ContentSchemaOfFirstMedia(body, mediaType, media);
  }

  /** A JSON body typed by a reference is named by the reference's last segment, resolved or not. */
  lemma {:induction false} BodyFromRef(doc: Json, operation: Json, body: Json, media: Json, ref: string)
    requires !operation.Null? && OwnGet(operation, "requestBody") == Some(body)
    requires FirstMediaType(body, JsonMediaType, media) && RefSchema(media, Str(ref))
    requires ref != ""
    ensures BodyFrom(doc, operation) == Ok(Some(AfterLastSlash(ref)))
  {
    BodyFromFirstMedia(doc, operation, body, JsonMediaType, media);
    assert Truthy(Some(Str(ref)));
  }

  /** An inline JSON schema body is typed `unknown` (unlike a response, which throws). */
  lemma {:induction false} BodyFromInlineSchema(doc: Json, operation: Json, body: Json, media: Json)
    requires !operation.Null? && OwnGet(operation, "requestBody") == Some(body)
    requires FirstMediaType(body, JsonMediaType, media) && InlineSchema(media)
    ensures BodyFrom(doc, operation) == Ok(Some("unknown"))
  {
    BodyFromFirstMedia(doc, operation, body, JsonMediaType, media);
  }

  /** A body of another media type is typed `string`, whatever its schema. */
  lemma {:induction false} BodyFromOther(doc: Json, operation: Json, body: Json, mediaType: string, media: Json)
    requires !operation.Null? && OwnGet(operation, "requestBody") == Some(body)
    requires FirstMediaType(body, mediaType, media) && !media.Null?
    requires mediaType != JsonMediaType
    ensures BodyFrom(doc, operation) == Ok(Some("string"))
  {
    BodyFromFirstMedia(doc, operation, body, mediaType, media);
  }

  // ---------------------------------------------------------------- bodyValue

  /** `ifCode(code, json)`: the branch returning the parsed or the raw body for one status code. */
  function IfCode(code: string, json: bool): string
  {
    "if(result.statusCode === " + code + ") {\n        return { statusCode: " + code +
    ", headers: result.headers, result: " + (if json then "JSON.parse(result.body)" else "result.body") +
    "  };\n      }"
  }

  /** `types[0] === 'application/json'` for the response under `code`. */
  function IsJsonResponse(doc: Json, responses: Json, code: string): Outcome<bool>
  {
    var def :- Deref(OwnGet(responses, code), doc);
    var content :- Get(def, "content");
    var types :- ObjectKeys(Some(Coalesce(content, Obj([]))));
    Ok(First(types) == Some(JsonMediaType))
  }

  function Branch(doc: Json, responses: Json, code: string): Outcome<string>
  {
    var json :- IsJsonResponse(doc, responses, code);
    Ok(IfCode(code, json))
  }

  /** The branches of `bodyValue`, one per status code of `responses`. */
  function BodyBranches(doc: Json, operation: Json): Outcome<seq<string>>
  {
    var responses :- Get(Some(operation), "responses");
    var codes :- ObjectKeys(responses);
    var responsesValue := responses.value;
    MapAll(codes, code => Branch(doc, responsesValue, code))
  }

  /** `bodyValue(oas, method)`: the branches chained with " else ". */
  function BodyValue(doc: Json, operation: Json): Outcome<string>
  {
    var branches :- BodyBranches(doc, operation);
    Ok(Join(branches, " else "))
  }

  /**
   * One branch per status code, in key order, each parsing the body as JSON
   * exactly when that response's first media type is `application/json`.
   */
  lemma BodyBranchesPerCode(doc: Json, operation: Json)
    requires BodyBranches(doc, operation).Ok?
    ensures var responses := OwnGet(operation, "responses");
      !operation.Null? && responses.Some? && !responses.value.Null? &&
      var codes := OwnKeys(responses.value);
      var branches := BodyBranches(doc, operation).value;
      |branches| == |codes| &&
      forall i :: 0 <= i < |codes| ==>
        IsJsonResponse(doc, responses.value, codes[i]).Ok? &&
        branches[i] == IfCode(codes[i], IsJsonResponse(doc, responses.value, codes[i]).value)
  {
    var responses := OwnGet(operation, "responses");
    var codes := OwnKeys(responses.value);
    var f := code => Branch(doc, responses.value, code);
    assert BodyBranches(doc, operation) == MapAll(codes, f);
    MapAllResults(codes, f);
    var branches := BodyBranches(doc, operation).value;
    forall i | 0 <= i < |codes|
      ensures IsJsonResponse(doc, responses.value, codes[i]).Ok? &&
        branches[i] == IfCode(codes[i], IsJsonResponse(doc, responses.value, codes[i]).value)
    {
      assert f(codes[i]) == Ok(branches[i]);
    }
  }

  /** The dispatch parses the body as JSON exactly when the response's first media type is JSON. */
  lemma {:induction false} IsJsonResponseOfFirstMedia(doc: Json, responses: Json, code: string, response: Json, mediaType: string, media: Json)
    requires !responses.Null? && OwnGet(responses, code) == Some(response)
    requires FirstMediaType(response, mediaType, media)
    ensures IsJsonResponse(doc, responses, code) == Ok(mediaType == JsonMediaType)
  {
    DerefCases(Some(response), doc);
    var content := Lookup(response.fields, "content").value;
    assert Keys(content.fields)[0] == mediaType;
  }

  /**
   * An inline JSON response schema is dispatched as JSON, yet `typeFrom`
   * throws on it, so generating the SDK throws as a whole.
   */
  lemma {:induction false} InlineJsonResponse(doc: Json, responses: Json, code: string, response: Json, media: Json)
    requires !responses.Null? && OwnGet(responses, code) == Some(response)
    requires FirstMediaType(response, JsonMediaType, media) && InlineSchema(media)
    ensures IsJsonResponse(doc, responses, code) == Ok(true)
    ensures TypeFrom(doc, Some(response)).Err?
  {
    IsJsonResponseOfFirstMedia(doc, responses, code, response, JsonMediaType, media);
    TypeFromInlineSchema(doc, response, media);
  }
}
