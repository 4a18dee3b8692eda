# schema-api-ts core in Dafny

This project models the two code generators of schema-api-ts. Both read a parsed OpenAPI
document.

- **Router generator** (`src/mapper.ts`).
  - `PathFinder.from` builds a mutable tree of `Path` nodes from the keys of `paths`.
  - Each route is split on '/', and one node is reused or created per segment.
  - Each node collects one `Method` per HTTP-method key of its Path-Item.
  - `routerDefinition` / `apiDefinition` then print the tree as an abstract
    `@hexlabs/apigateway-ts` class. The class has one `bind(...)` per node and method, one abstract
    handler per method, and a `get…Uri` and a `get…Operations` function per node.
  - `pathInfo` prints the tree as a nested `{'/part': {methods, paths}}` map.
- **SDK generator** (`src/sdk-mapper.ts`, `generateSdkFrom`). It emits one async method per
  operation of every path. For each method it:
  - resolves `$ref` Path-Items and parameters with `traversePath`;
  - merges operation-level and path-level parameters;
  - types the request body and every response by its first media type;
  - pushes every referenced type name onto a shared `imports` array;
  - prints a dispatch on the status code.

  The module starts with an import line that names, once each, exactly the types its methods
  import (`Sdk.GenerateSdkImports`).

## How the model is organised

| module | file | what it holds |
|---|---|---|
| `Wrappers` | wrappers.dfy | `Option`, `Result` |
| `Text` | text.dfy | the JavaScript string operations used: `split`, `join`, `substring`, `toUpperCase`, `replace`, `lastIndexOf`, number printing |
| `Js` | json.dfy | the document as a JSON value, plus JavaScript property access. Reading a property of `null`/`undefined` throws; also `Object.keys`, truthiness, `??`, spread, `String(v)`, and `map` with a throwing callback |
| `Pointer` | pointer.dfy | `traverse` / `traversePath` |
| `Naming` | naming.dfy | `capitilize`, `name`, `pathName` |
| `RouteTree` | route_tree.dfy | the route tree as a value, and what `append` does to it |
| `Mapper` | mapper.dfy | the classes `Path` and `PathFinder`, whose methods update their fields in place |
| `Router` | router.dfy | `routerDefinition`, `apiDefinition`, `pathInfo` |
| `Operations` | sdk_operations.dfy | `pathsFrom`, `methodOperations`, `operationParameters`, `pathParamsParam` |
| `Types` | sdk_types.dfy | `typeFrom`, `bodyFrom`, `ifCode`, `bodyValue` |
| `Sdk` | sdk.dfy | `returnType`, `sdkMethod`, `generateSdkFrom` and the shared import list |

**JSON and exceptions.**
- A JSON object is a list of fields in `Object.keys` order. A property read takes the first field
  with that key.
- JavaScript `undefined` is `None`.
- Every operation that can throw a `TypeError` returns `Outcome<T>` (`Ok` or `Err(TypeError)`).
  It does not demand well-formed input. The error paths are therefore part of the model and of
  its lemmas.

**Mutable state.**
- `Path` and `PathFinder` are classes. `Path` has `paths` and `methods` fields and
  `PathFinder` has a `paths` field; their methods modify these fields.
- Each object carries a ghost tree (`Tree`, `Forest`) and a footprint `Repr`.
- `Valid()` keeps the fields equal to the ghost tree and keeps siblings' footprints disjoint.
- Every mutating method is proved to change the ghost tree exactly as `RouteTree.Append` /
  `RouteTree.AppendChild` say, and to keep sibling parts distinct.
- The `imports` array of `generateSdkFrom` is the class `Sdk.ImportList`.
  - `ReturnType`, `SdkMethod`, `PushEntry` and the other pushing methods are proved against
    functions that compute the text and the pushed names together.
  - `GenerateSdkFrom` is proved equal to the function `GenerateSdk`, error cases included.

**Where the code's behaviour is surprising, the model follows the code:**
- **Inline JSON response schema.** A response whose JSON schema is inline (no `$ref`) does not
  get the type `unknown`. `typeFrom` resolves `ref['$ref']` before testing it, so
  `undefined.replace` throws (`Types.TypeFromInlineSchema`). Only the empty reference `""`
  gives `unknown` (`Types.TypeFromUnknown`).
- **Request-body type.** A request body is not typed the way a response is. `bodyFrom`
  ignores the target's `title` and never resolves the reference. It takes the text after the
  last '/' (`Types.BodyFromRef`), and an inline schema gives `unknown`
  (`Types.BodyFromInlineSchema`).
- **Route segments.** Routes are not split into non-empty segments. The first character is
  dropped and empty segments are kept, so `/a/` gives the segments `a` and ``
  (`RouteTree.TrailingSlash`).
- **`$ref` Path-Items in the router.** The router generator does not resolve a `$ref`
  Path-Item, so such a path yields a node without methods (`RouteTree.RefItemHasNoMethods`).
- **Dangling references.** A reference whose target is missing gives `undefined` from
  `traversePath`. But `typeFrom` then throws when it reads `.title` (`Types.TypeFromDangling`).

## Model

| member | source | states |
|---|---|---|
| Text.Split | src/sdk-mapper.ts:13 | `split` gives at least one piece and no piece contains the separator |
| Text.JoinSplit | src/sdk-mapper.ts:13 | joining the pieces of a split with the separator gives back the string |
| Text.SplitJoin | src/mapper.ts:79 | splitting a join of separator-free pieces gives back the pieces |
| Text.Substring | src/mapper.ts:44 | `substring` never grows the string and is the slice when the bounds are in order |
| Text.ReplaceFirstAt | src/sdk-mapper.ts:29 | `replace` with a string pattern replaces the leftmost occurrence only and keeps the text before and after it |
| Text.ReplaceFirstAbsent | src/sdk-mapper.ts:29 | without any occurrence of the pattern, `replace` returns the string unchanged |
| Text.ReplaceChar | src/sdk-mapper.ts:129 | a global one-character replace maps that character to the replacement and keeps any other one. With an empty replacement it keeps every other character with its count and shortens the string by the number of occurrences; an absent character changes nothing |
| Text.ReplaceCharAppend | src/sdk-mapper.ts:118 | the global replace distributes over concatenation, so with the one-character case it fixes the result, order included |
| Text.WordCharsOnly | src/mapper.ts:117 | `replace(/\W+/g, '')` keeps only word characters, keeps every one of them, and is the identity on a word; one character is kept exactly when it is a word character, and `WordCharsOnlyAppend` fixes the order |
| Text.WordCharsOnlyAppend | src/mapper.ts:117 | the removal distributes over concatenation, so the word characters stay in their order |
| Text.AfterLastSlash | src/sdk-mapper.ts:68 | the text after the last '/' has no '/' and is a suffix of the reference |
| Text.AfterLastSlashIsLastPiece | src/sdk-mapper.ts:108 | the text after the last '/' is the last piece of the split on '/' |
| Js.OwnGet | src/sdk-mapper.ts:19-20 | a property read yields a value exactly when the key is an own property |
| Js.SetField | src/sdk-mapper.ts:43 | `{...o, parameters: p}` reads `p` at `parameters` and keeps every other key's value |
| Js.MapAllResults | src/sdk-mapper.ts:33-37 | a `map` that does not throw gives one result per element, in order; it throws exactly when some callback throws |
| Pointer.Traverse | src/sdk-mapper.ts:16-26 | traversal gives `undefined` for no keys, a non-object, or a missing key, and the property for one key |
| Pointer.TraverseAppend | src/sdk-mapper.ts:16-26 | traversing a key list is traversing its two halves one after the other |
| Pointer.PointerKeysOfJoin | src/sdk-mapper.ts:29 | the keys of `#/k1/…/kn` are `k1 … kn` |
| Pointer.TraversePathOfKeys | src/sdk-mapper.ts:28-30 | `traversePath('#/k1/…/kn')` follows exactly those keys |
| Pointer.SchemaPointer | src/sdk-mapper.ts:28-30 | `#/components/schemas/X` resolves to the schema `X`, or to `undefined` without throwing when it is missing |
| Pointer.RepeatedPrefixKept | src/sdk-mapper.ts:29 | only the first `#/` is removed |
| Naming.Capitalize | src/sdk-mapper.ts:5-7 | the first character is upper-cased (ASCII `toUpperCase`), the rest kept, the length unchanged |
| Naming.Name | src/sdk-mapper.ts:8-10 | `name(part)`; `NameOfPlaceholder`, `NameDropsLastCharacter` and `LoneBrace` state what it gives |
| Naming.NameOfPlaceholder | src/sdk-mapper.ts:8-10 | a part `{x}` is named `By` + capitalised `x` |
| Naming.NameDropsLastCharacter | src/mapper.ts:46-48 | a part starting with `{` loses its first and last character, whatever the last one is |
| Naming.LoneBrace | src/sdk-mapper.ts:9 | the part `{` is named `By{`, because `substring(1, 0)` swaps its bounds |
| Naming.PathName | src/sdk-mapper.ts:12-14 | `pathName(path)`: the names of the '/'-pieces, concatenated; `PathNameAppend` states it |
| Naming.NamesOfAppend | src/sdk-mapper.ts:13 | naming the parts of two lists is naming each list, concatenated |
| Naming.PathNameAppend | src/sdk-mapper.ts:12-14 | the name of `a/b` is the name of `a` followed by that of `b` |
| RouteTree.FilterMethods | src/mapper.ts:20-21 | exactly the keys among the eight HTTP methods are kept, and a list of methods is kept whole |
| RouteTree.FilterMethodsAppend | src/mapper.ts:21 | filtering keeps key order (it distributes over concatenation) |
| RouteTree.RefItemHasNoMethods | src/mapper.ts:116 | a `$ref` Path-Item gives its node no methods |
| RouteTree.FindChild | src/mapper.ts:24 | `find` gives the first child with the part, or none when no child has it |
| RouteTree.Append | src/mapper.ts:18-32 | appending keeps the node's part |
| RouteTree.AppendChild | src/mapper.ts:23-29 | appending below the children keeps their parts and adds at most one child, at the end, named by the head segment |
| RouteTree.RouteSegments | src/mapper.ts:79 | the segments are the split of the route without its first character |
| RouteTree.RouteSegmentsOfJoin | src/mapper.ts:79 | `/s1/…/sn` gives the segments `s1 … sn` |
| RouteTree.TrailingSlash | src/mapper.ts:79 | a trailing '/' gives a trailing empty segment |
| RouteTree.AppendRoute | src/mapper.ts:78-87 | `PathFinder.append` on the top-level nodes; the `AppendRoute…` lemmas state what it does |
| RouteTree.AppendRouteIsRootAppend | src/mapper.ts:78-87 | appending a route to the top-level nodes is `Path.append` of its segments on a root node above them |
| RouteTree.AppendRouteAtRoute | src/mapper.ts:78-87 | after appending a route, its segments hold their old methods followed by the Path-Item's methods |
| RouteTree.AppendRouteElsewhere | src/mapper.ts:78-87 | appending a route leaves the methods at every other list of segments unchanged |
| RouteTree.AppendRouteCount | src/mapper.ts:78-87 | appending a route adds exactly the Path-Item's methods to the forest's method count |
| RouteTree.AppendRouteKeepsDistinct | src/mapper.ts:80-85 | appending a route never creates two siblings with the same part, at any level |
| RouteTree.ApiName | src/mapper.ts:117 | the api name is the word characters of `info.title`; it fails exactly when `info` is missing or null or the title is not a string |
| RouteTree.FromDocument | src/mapper.ts:114-118 | `PathFinder.from` on values: the api name, then each key of `paths` appended in key order; `AppendAllFails` and `Mapper.PathFinder.From` state its failures |
| RouteTree.AppendAllFails | src/mapper.ts:114-118 | a failure while appending a prefix of the keys fails the whole reduction |
| RouteTree.AppendAtRoute | src/mapper.ts:18-32 | after an append, the node at the route holds its old methods followed by the Path-Item's methods |
| RouteTree.AppendElsewhere | src/mapper.ts:18-32 | an append leaves the methods at every other route unchanged |
| RouteTree.AppendCount | src/mapper.ts:18-32 | an append adds exactly the Path-Item's methods to the tree's method count |
| RouteTree.ChildReusedOrCreated | src/mapper.ts:24-29 | an existing child with the head segment is reused; a child is created only when none has it |
| RouteTree.FindChildUnique | src/mapper.ts:24 | with distinct sibling parts, the child found for a part is the one with that part |
| RouteTree.AppendKeepsDistinct | src/mapper.ts:24-29 | appending never creates two siblings with the same part, anywhere in the tree |
| RouteTree.AppendChildKeepsDistinct | src/mapper.ts:23-29 | the same holds for a list of children receiving a route |
| RouteTree.AppendEmbeds | src/mapper.ts:18-32 | an append removes nothing: every node and method of the old tree is still there |
| RouteTree.NestedRoutes | src/mapper.ts:78-87 | appending `/x` and then `/x/y` gives one node `x` with one child `y` |
| Mapper.FindPath | src/mapper.ts:24 | `paths.find` over the objects: the first with the part, or none |
| Mapper.FindPathMatchesTree | src/mapper.ts:80 | searching the objects finds the same position as `RouteTree.FindChild` on their ghost trees |
| Mapper.Path.constructor | src/mapper.ts:15-16 | a new node has no methods and no children |
| Mapper.Path.Append | src/mapper.ts:18-32 | `append` returns the receiver and changes its tree exactly as `RouteTree.Append`, keeping it valid |
| Mapper.Path.AddMethods | src/mapper.ts:19-21 | pushes one `Method` per HTTP-method key, in key order, and changes nothing else |
| Mapper.Path.AppendBelowChild | src/mapper.ts:25-26 | appends the rest of the route below the existing child, leaving its siblings untouched |
| Mapper.Path.AddChild | src/mapper.ts:27-28 | creates the child at the end and appends the rest of the route below it |
| Mapper.PathFinder.constructor | src/mapper.ts:76 | a new finder has the api name and no routes |
| Mapper.PathFinder.Append | src/mapper.ts:78-87 | `append` returns the receiver and changes its forest exactly as `RouteTree.AppendRoute` |
| Mapper.PathFinder.AppendBelowNode | src/mapper.ts:81-82 | appends below the existing top-level node |
| Mapper.PathFinder.AddNode | src/mapper.ts:83-85 | creates the top-level node at the end and appends below it |
| Mapper.PathFinder.From | src/mapper.ts:114-118 | fails exactly when `RouteTree.FromDocument` fails (missing `paths`, missing or non-string title, null Path-Item); otherwise holds the name and forest it computes |
| Router.HandlerNamesShape | src/mapper.ts:57-62 | a node's own handler names are one per method, in method order, each `<method><names>Handler` as `Method.routerDefinition` names it |
| Router.Definition | src/mapper.ts:53-71 | `Path.routerDefinition` as its three results; `DefinitionAtPath`, `HandlerCount`, `IdFunctionCount`, `UriSubstitutesParameters` and `ChildBindNested` state them |
| Router.RootDefinition | src/mapper.ts:53 | the call with the default arguments; `RootIsEmptyPath` states they are those of the empty path |
| Router.ForestDefinition | src/mapper.ts:93-99 | `PathFinder.routerDefinition`: the root definitions of the top-level nodes, combined in order |
| Router.ApiDefinition | src/mapper.ts:104-112 | the api class text; `ApiHandlerCount` states its handler declarations |
| Router.IdFunctions | src/mapper.ts:61-70 | every node contributes at least its own two functions |
| Router.PathInfo | src/mapper.ts:34-41 | a node's entry is keyed `/` + its part and holds exactly `methods`, the node's method names in order, and `paths`, the merge of its children's entries |
| Router.PathInfos | src/mapper.ts:38 | the merge of the children's entries; `PathInfosKeepsChildren` and `PathInfosOnlyChildren` state it |
| Router.HandlerCount | src/mapper.ts:53-71 | a node declares exactly one handler per method in its subtree |
| Router.ChildHandlerCount | src/mapper.ts:62 | the children together declare one handler per method below them |
| Router.IdFunctionCount | src/mapper.ts:61-70 | a subtree yields exactly two id functions per node |
| Router.ChildIdFunctionCount | src/mapper.ts:61 | the children together yield two id functions per node below them |
| Router.ApiHandlerCount | src/mapper.ts:104-112 | the api class declares exactly one abstract handler per method of the whole tree |
| Router.PlaceholdersAppend | src/mapper.ts:55 | the parameters collected along a path are those of its prefix followed by those of the rest |
| Router.LiteralPath | src/mapper.ts:55-63 | a path without placeholders has no parameters and prints its parts as they are |
| Router.UriSubstitutesParameters | src/mapper.ts:55-66 | the `get…Uri` function substitutes exactly its parameters into its path, in parameter order (`{x}` becomes `${x}`) |
| Router.NamesFollowPath | src/mapper.ts:54 | the names handed down are the names of the path from the root |
| Router.ParametersFollowPath | src/mapper.ts:55 | the parameters handed down are the placeholders of the path from the root |
| Router.DefinitionAtPath | src/mapper.ts:53-71 | at a node reached by a path, handlers and id functions are named after the full path, and the Uri function takes the placeholders of the full path |
| Router.RootIsEmptyPath | src/mapper.ts:93-99 | the root call's defaults are those of the empty path |
| Router.ChildBindNested | src/mapper.ts:58-70 | each child's bind text appears verbatim inside its parent's |
| Router.BindTextContains | src/mapper.ts:70 | every listed bind occurs in the node's bind text |
| Router.PathInfosKeepsChildren | src/mapper.ts:38 | with distinct sibling parts, merging the children's entries keeps every child's entry |
| Router.PathInfosOnlyChildren | src/mapper.ts:89-91 | the merged map has no key other than the children's |
| Operations.DerefCases | src/sdk-mapper.ts:35-36 | a value without `$ref` is kept; a string `$ref` is resolved with `traversePath`; null, undefined and a non-string `$ref` throw |
| Operations.DerefSchemaRef | src/sdk-mapper.ts:50-51 | a `{"$ref": "#/components/schemas/X"}` parameter resolves to the schema `X` |
| Operations.PathsFrom | src/sdk-mapper.ts:32-38 | `pathsFrom`; `PathsFromEntries` and `NullPathItemFails` state it |
| Operations.PathsFromEntries | src/sdk-mapper.ts:32-38 | one entry per key of `paths`, in key order, each holding its dereferenced Path-Item |
| Operations.NullPathItemFails | src/sdk-mapper.ts:35 | a null Path-Item makes `pathsFrom` throw |
| Operations.MethodOperations | src/sdk-mapper.ts:39-46 | `methodOperations`; `MethodOperationsShape` and `NullOperationFails` state it |
| Operations.MergedParametersOrder | src/sdk-mapper.ts:43 | merged parameters are the operation's own, then the Path-Item's, duplicates kept |
| Operations.OperationOfShape | src/sdk-mapper.ts:42-44 | an operation keeps every field but `parameters`, which becomes the merged list |
| Operations.MethodOperationsShape | src/sdk-mapper.ts:39-46 | one operation per HTTP-method key, in key order, each built from the operation under that key |
| Operations.NullOperationFails | src/sdk-mapper.ts:42-43 | a null operation makes `methodOperations` throw |
| Operations.OperationParameters | src/sdk-mapper.ts:48-53 | `operationParameters`; `OperationParametersResolved` states it |
| Operations.OperationParametersResolved | src/sdk-mapper.ts:48-53 | each parameter is dereferenced in place: same length, same order |
| Operations.PathParameters | src/sdk-mapper.ts:136 | filtering keeps at most as many names as there are parameters; `PathParametersOne` and `PathParametersAppend` give its value |
| Operations.PathParametersFail | src/sdk-mapper.ts:136 | the filter throws exactly when some parameter is `null` or `undefined` |
| Operations.PathParametersOne | src/sdk-mapper.ts:136 | one parameter: throws exactly when it is `null` or `undefined`, otherwise keeps its `name` exactly when its `in` is `path` |
| Operations.PathParametersAppend | src/sdk-mapper.ts:136 | filter-then-map distributes over concatenation: the names of `a + b` are those of `a` followed by those of `b`, and it throws exactly when one half does |
| Operations.PathParamsParam | src/sdk-mapper.ts:55-58 | no argument exactly when there are no path parameters; otherwise a `params: {` record |
| Operations.PathParamsParamMentions | src/sdk-mapper.ts:55-58 | every path parameter is named in the record |
| Types.ContentSchema | src/sdk-mapper.ts:62-63 | the schema is found only when `content` is present |
| Types.ContentSchemaOfFirstMedia | src/sdk-mapper.ts:62-63 | only the first media type of `content` is read, with its `schema`; a null media object throws |
| Types.MissingContentFails | src/sdk-mapper.ts:62-63 | without `content` the fallback names key `0`, and the read of the missing `content` throws |
| Types.TypeFrom | src/sdk-mapper.ts:60-74 | the imports are empty or exactly the type; a type with no import is `string` or `unknown` |
| Types.SchemaType | src/sdk-mapper.ts:64-72 | in the JSON branch, a type with no import is `unknown` |
| Types.TypeFromFirstMedia | src/sdk-mapper.ts:60-74 | whatever the content map holds after its first entry: a null first media object throws, a JSON one is typed by its schema, any other is `string` with no import |
| Types.TypeFromResponseRef | src/sdk-mapper.ts:61 | a `$ref` response is typed as the response it points to |
| Types.TypeFromOther | src/sdk-mapper.ts:73 | a non-JSON media type gives `string` and no import |
| Types.TypeFromTitled | src/sdk-mapper.ts:67-69 | a reference to a titled schema gives the title, imported |
| Types.TypeFromUntitled | src/sdk-mapper.ts:68 | a reference to an untitled schema gives the text after its last '/', imported |
| Types.TypeFromDangling | src/sdk-mapper.ts:66-68 | a reference that resolves to nothing throws |
| Types.TypeFromInlineSchema | src/sdk-mapper.ts:65-66 | an inline JSON schema throws |
| Types.TypeFromUnknown | src/sdk-mapper.ts:67-71 | the type is `unknown` with no import exactly for the reference `""` |
| Types.TypeFromJson | src/sdk-mapper.ts:60-74 | the full case analysis of a JSON response typed by a `$ref` |
| Types.SchemaTypeOfRef | src/sdk-mapper.ts:64-72 | the same analysis for the schema `{"$ref": ref}` |
| Types.BodyFrom | src/sdk-mapper.ts:101-112 | `bodyFrom`; the `BodyFrom…` lemmas state it |
| Types.BodyFromNone | src/sdk-mapper.ts:102 | there is no body argument exactly when `requestBody` is falsy |
| Types.BodyFromFirstMedia | src/sdk-mapper.ts:101-112 | whatever the content map holds after its first entry: a null first media object throws, a JSON one is named from its schema's `$ref`, any other is `string` |
| Types.BodyFromRef | src/sdk-mapper.ts:106-108 | a referenced JSON body is typed by the text after the last '/', resolved or not |
| Types.BodyFromInlineSchema | src/sdk-mapper.ts:107-109 | an inline JSON body schema gives `unknown` |
| Types.BodyFromOther | src/sdk-mapper.ts:111 | a body of another media type gives `string` |
| Types.IfCode | src/sdk-mapper.ts:85-89 | `ifCode`: the branch for one status code |
| Types.BodyValue | src/sdk-mapper.ts:91-99 | `bodyValue`: the branches joined by ` else `; `BodyBranchesPerCode` states them |
| Types.BodyBranchesPerCode | src/sdk-mapper.ts:91-99 | one branch per status code, in key order, each `ifCode` for whether that response is JSON |
| Types.IsJsonResponseOfFirstMedia | src/sdk-mapper.ts:94-96 | a branch parses the body as JSON exactly when the response's first media type is `application/json` |
| Types.InlineJsonResponse | src/sdk-mapper.ts:94-96 | an inline JSON response is parsed as JSON in the dispatch although `typeFrom` throws on it |
| Sdk.ImportList.constructor | src/sdk-mapper.ts:131 | the import list starts empty |
| Sdk.ImportList.Push | src/sdk-mapper.ts:80 | `push(...xs)` appends `xs` in order |
| Sdk.ResponseMember | src/sdk-mapper.ts:77-81 | a status code adds at most one import |
| Sdk.ReturnTypeOf | src/sdk-mapper.ts:76-83 | `returnType` as text and pushed imports together; `ResponseMembersPerCode`, `ReturnTypeImports` and `ResponseMembersFail` state it |
| Sdk.ReturnTypeImports | src/sdk-mapper.ts:77-80 | the pushed imports are the `typeFrom` imports of each response, one after the other in status-code order, and every response is typed |
| Sdk.PushResponse | src/sdk-mapper.ts:78-81 | types one response, pushes exactly its imports, returns its union member |
| Sdk.PushMembers | src/sdk-mapper.ts:77-82 | the members for all codes, the imports pushed in code order; throws as the fold does |
| Sdk.ReturnType | src/sdk-mapper.ts:76-83 | the union of the members, the imports appended to the list; throws exactly when `ReturnTypeOf` does |
| Sdk.ResponseMembersFail | src/sdk-mapper.ts:77-82 | a failure at one status code fails the whole union |
| Sdk.ResponseMembersPerCode | src/sdk-mapper.ts:76-83 | one member per status code, in order, each that code's member; the imports are each code's `typeFrom` imports, concatenated in code order |
| Sdk.SdkParamsOrder | src/sdk-mapper.ts:117 | the parameters are path record, body, query, headers, in that order, absent ones dropped |
| Sdk.MethodTextStart | src/sdk-mapper.ts:119 | a method is named by its HTTP method followed by the path's name |
| Sdk.SdkMethodOf | src/sdk-mapper.ts:114-126 | `sdkMethod` as text and pushed imports together; `MethodTextStart` and `SdkParamsOrder` state its parts |
| Sdk.SdkMethod | src/sdk-mapper.ts:114-126 | the method text and pushed imports are those of `SdkMethodOf`, error cases included |
| Sdk.OperationMethods | src/sdk-mapper.ts:134-138 | the methods of one path's operations; `OperationMethodsPerOp` states them |
| Sdk.OperationMethodsPerOp | src/sdk-mapper.ts:134-138 | one method per operation, in order, each that operation's method; the imports are each operation's, concatenated in order |
| Sdk.OperationMethodImports | src/sdk-mapper.ts:115-119 | an operation's method pushes exactly the imports of its return type |
| Sdk.EntriesMethods | src/sdk-mapper.ts:132-140 | the `flatMap` over the paths; `EntriesMethodsPerEntry` states it |
| Sdk.EntriesMethodsPerEntry | src/sdk-mapper.ts:132-140 | the methods and the imports of all paths are each path's, one list after the other |
| Sdk.EntryMethodsOps | src/sdk-mapper.ts:133-139 | a falsy Path-Item gives no methods; otherwise one method per operation, in order; the imports are its operations', in order |
| Sdk.PushOperation | src/sdk-mapper.ts:135-137 | one operation's method and imports |
| Sdk.PushOperations | src/sdk-mapper.ts:134-138 | the methods of one path's operations, in order, with their imports |
| Sdk.PushEntry | src/sdk-mapper.ts:132-140 | a falsy Path-Item gives no methods; otherwise its operations' methods |
| Sdk.OperationMethodsFail | src/sdk-mapper.ts:134-138 | a failing operation fails its path |
| Sdk.EntriesMethodsFail | src/sdk-mapper.ts:132-140 | a failing path fails the generation |
| Sdk.SdkName | src/sdk-mapper.ts:129 | the class name is `info.title` without its spaces, followed by `Sdk`: every other character of the title is kept with its count. It fails exactly when `info` is missing or null or the title is not a string |
| Sdk.Dedup | src/sdk-mapper.ts:141 | `[...new Set(xs)]` has the same members as `xs` and no duplicates |
| Sdk.DedupFirstOccurrenceOrder | src/sdk-mapper.ts:141 | the deduplicated names come in the order of their first occurrence |
| Sdk.SdkTextHasMethod | src/sdk-mapper.ts:141-157 | every method appears verbatim in the module text |
| Sdk.GenerateSdk | src/sdk-mapper.ts:128-158 | `generateSdkFrom` as a function; `GenerateSdkHasEveryMethod` and `GenerateSdkImports` state it |
| Sdk.GenerateSdkHasEveryMethod | src/sdk-mapper.ts:128-158 | in a generated module every path's truthy Path-Item has its operations, and the method of every operation of every path succeeds and occurs verbatim in the text |
| Sdk.GenerateSdkImports | src/sdk-mapper.ts:131-141 | the module opens with the import line of the deduplicated imports; a name is in it exactly when the method of some operation of some path imports it, and no name twice |
| Sdk.EveryImportFromOperation | src/sdk-mapper.ts:131-139 | the imports pushed over all paths are exactly the imports of their operations' methods |
| Sdk.EveryOperationInText | src/sdk-mapper.ts:132-141 | every operation of every truthy Path-Item has a method, and that method is in the text built from all the paths' methods |
| Sdk.GenerateSdkFrom | src/sdk-mapper.ts:128-158 | the module equals `GenerateSdk(doc)` and fails exactly when it fails |

## Left out

- Reading files and writing the generated text are not modelled: they are I/O. The
  commented-out driver at `src/mapper.ts:120-136` is not code.
- `src/hydra.ts` is not part of this model. It holds a JSON-Schema constant, which the
  generators do not read.
- The OpenAPI types `OAS`, `OASPath`, `OASOperation` and friends come from `src/oas.ts`, which is
  not part of this model. The types `PathInfo` (from `@hexlabs/kloudformation-ts`) and
  `JSONSchema` (from `json-schema-to-typescript`) come from external libraries. None of these
  types is modelled: the document is any JSON value.
- The behaviour of the generated code when it runs (the `caller` transport, the thrown
  "Unknown status" error, `JSON.parse`) is left out. The model produces its text only.
- Numbers are integers: floating point, `NaN` and number printing beyond integers are left out.
- Strings are sequences of characters. UTF-16 surrogate pairs are not modelled, and
  `toUpperCase` and `\W` cover ASCII only.
- Keys come in the order of the field list. JavaScript's ordering of integer-like keys before
  other keys is not modelled.
- A `Js.Obj` field list may hold the same key twice, which a parsed JSON object cannot. Every
  read takes the first field with the key (`Js.Lookup`), and `Js.SetField` overwrites every
  field with the key, so the later duplicates are never seen.
- Inherited prototype members (`toString`, `constructor`) are treated as absent when a property
  is read.
- JSON-pointer `~0`/`~1` escapes are not decoded; the source does not decode them either.
- `Set` compares objects by reference. `Sdk.Dedup` compares structurally, which differs only
  when a schema `title` is an object or an array.
- `Mapper.Path.Append` requires a non-null Path-Item. `Object.keys(null)` would throw there, and
  `Mapper.PathFinder.From` reports that case as an error before calling it.
- `Mapper.Path.Append` and the other class methods check the objects' fields against the ghost
  tree. `pathInfo`, `routerDefinition` and `apiDefinition` only read the tree, so they are
  modelled as functions of that ghost tree (`Router.PathInfo`, `Router.Definition`,
  `Router.ApiDefinition`).
- When `generateSdkFrom` throws, names already pushed onto `imports` are discarded with the
  exception. The model's methods therefore say nothing about the list on the error path.
