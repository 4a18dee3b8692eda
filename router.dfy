/**
 * The router emitter: `routerDefinition` of `Method`, `Path` and
 * `PathFinder`, `apiDefinition`, and the `pathInfo` summaries, as functions
 * of the route tree. Every node yields a nested `bind('/part', router([...]))`
 * expression, the names of the handlers its subtree needs, and two accessor
 * functions per node (`get<Names>Uri` and `get<Names>Operations`).
 *
 * A node's names and Uri parameters are built from accumulators handed down
 * by its ancestors; the lemmas show they are exactly what the node's full
 * root-to-node path determines.
 */
module Router {
  import opened Wrappers
  import opened Text
  import opened Js
  import opened Naming
  import opened RouteTree

  /** The three results of `routerDefinition`: the bind expression, the handler names, the accessor functions. */
  datatype RouterDef = RouterDef(bind: string, handlers: seq<string>, idFunctions: seq<string>)

  // ---------------------------------------------------------------- Method

  /**
   * `Method.routerDefinition(parentNames)`: exactly one handler name,
   * `verb + parentNames + 'Handler'`, and a bind of the upper-cased verb that
   * calls that very handler.
   */
  function MethodDefinition(m: Method, parentNames: string): (r: (string, seq<string>))
    ensures r.1 == [m.verb + parentNames + "Handler"]
    ensures r.0 == "bind(HttpMethod." + Upper(m.verb) + ", (...args) => this." + r.1[0] + "(...args))"
  {
    var name := m.verb + parentNames + "Handler";
    ("bind(HttpMethod." + Upper(m.verb) + ", (...args) => this." + name + "(...args))", [name])
  }

  /** `methods.map(method => method.routerDefinition(names)).map(it => it[0])`. */
  function MethodBinds(ms: seq<Method>, names: string): (r: seq<string>)
    ensures |r| == |ms|
  {
    seq(|ms|, i requires 0 <= i < |ms| => MethodDefinition(ms[i], names).0)
  }

  /** `methods.map(method => method.routerDefinition(names)).flatMap(it => it[1])`. */
  function HandlerNames(ms: seq<Method>, names: string): seq<string>
  {
    Flatten(seq(|ms|, i requires 0 <= i < |ms| => MethodDefinition(ms[i], names).1))
  }

  /** One handler per method, in method order, each named `verb + names + 'Handler'`. */
  lemma {:induction false} HandlerNamesShape(ms: seq<Method>, names: string)
    ensures |HandlerNames(ms, names)| == |ms|
    ensures forall i :: 0 <= i < |ms| ==> HandlerNames(ms, names)[i] == ms[i].verb + names + "Handler"
    decreases |ms|
  {
    if |ms| > 0 {
      var init := ms[..|ms| - 1];
      HandlerNamesShape(init, names);
      var xss := seq(|ms|, i requires 0 <= i < |ms| => MethodDefinition(ms[i], names).1);
      assert xss[..|ms| - 1] == seq(|init|, i requires 0 <= i < |init| => MethodDefinition(init[i], names).1);
    }
  }

  // ---------------------------------------------------------------- Path

  /** The names handed to the children: the parent's names followed by this node's name. */
  function NextNames(parentNames: string, part: string): string
  {
    parentNames + Name(part)
  }

  /** The parameters handed to the children: a `{x}` node adds x at the end. */
  function NextParameters(parameters: seq<string>, part: string): seq<string>
  {
    if IsPlaceholder(part) then parameters + [Inner(part)] else parameters
  }

  /** `parts.map(it => it.startsWith('{') ? '${' + inner + '}' : it)`: placeholders become template substitutions. */
  function Ids(parts: seq<string>): (r: seq<string>)
    ensures |r| == |parts|
    ensures forall i :: 0 <= i < |parts| && IsPlaceholder(parts[i]) ==> r[i] == "${" + Inner(parts[i]) + "}"
    ensures forall i :: 0 <= i < |parts| && !IsPlaceholder(parts[i]) ==> r[i] == parts[i]
  {
    seq(|parts|, i requires 0 <= i < |parts| => if IsPlaceholder(parts[i]) then "${" + Inner(parts[i]) + "}" else parts[i])
  }

  /** `parameters.map(it => `${it}: string`)`. */
  function Typed(params: seq<string>): (r: seq<string>)
    ensures |r| == |params|
    ensures forall i :: 0 <= i < |params| ==> r[i] == params[i] + ": string"
  {
    seq(|params|, i requires 0 <= i < |params| => params[i] + ": string")
  }

  /** The text of `get<names>Uri(<params>): string`, returning the node's path with its parameters substituted. */
  function UriFunction(names: string, params: seq<string>, parts: seq<string>): string
  {
    "get" + names + "Uri(" + Join(Typed(params), ", ") + "): string {\n    return `/" + Join(Ids(parts), "/") + "`;\n}"
  }

  /** `methods.map(method => "'" + method.method.toUpperCase() + "'")`. */
  function Quoted(ms: seq<Method>): (r: seq<string>)
    ensures |r| == |ms|
    ensures forall i :: 0 <= i < |ms| ==> r[i] == "'" + Upper(ms[i].verb) + "'"
  {
    seq(|ms|, i requires 0 <= i < |ms| => "'" + Upper(ms[i].verb) + "'")
  }

  /** The text of `get<names>Operations(): string[]`, returning the node's methods upper-cased. */
  function OperationsFunction(names: string, ms: seq<Method>): string
  {
    "get" + names + "Operations(): string[] {\n    return [" + Join(Quoted(ms), ", ") + "];\n}"
  }

  /**
   * `path.routerDefinition(parentNames, parentParts, parameters)`. The three
   * parts of the result are computed by the three functions below, each of
   * which recurses over the children as the source's `map`/`flatMap` do.
   */
  function Definition(n: RouteNode, parentNames: string, parentParts: seq<string>, parameters: seq<string>): RouterDef
  {
    RouterDef(Bind(n, parentNames), Handlers(n, parentNames), IdFunctions(n, parentNames, parentParts, parameters))
  }

  /** The bind expression: the node's method binds, then its children's binds, inside `bind('/part', router([...]))`. */
  function Bind(n: RouteNode, parentNames: string): string
    decreases n, 1
  {
    var names := NextNames(parentNames, n.part);
    BindText(n.part, MethodBinds(n.methods, names) + ChildBinds(n.children, names))
  }

  /** `bind('/part', router([\n<binds joined by ",\n">\n]))`. */
  function BindText(part: string, binds: seq<string>): string
  {
    BindOpen + part + BindRouter + Join(binds, BindSeparator) + BindClose
  }

  const BindOpen: string := "bind('/"
  const BindRouter: string := "', router([\n"
  const BindSeparator: string := ",\n"
  const BindClose: string := "\n]))"

  /** `resourceDefinitions.map(it => it[0])`. */
  function ChildBinds(cs: seq<RouteNode>, names: string): (r: seq<string>)
    ensures |r| == |cs|
    ensures forall i :: 0 <= i < |cs| ==> r[i] == Bind(cs[i], names)
    decreases cs, 0
  {
    seq(|cs|, i requires 0 <= i < |cs| => Bind(cs[i], names))
  }

  /** The handler names: the node's own, in method order, then each child's list, in child order. */
  function Handlers(n: RouteNode, parentNames: string): seq<string>
    decreases n, 1
  {
    var names := NextNames(parentNames, n.part);
    HandlerNames(n.methods, names) + ChildHandlers(n.children, names)
  }

  /** `resourceDefinitions.flatMap(it => it[1])`. */
  function ChildHandlers(cs: seq<RouteNode>, names: string): seq<string>
    decreases cs, 0
  {
    if |cs| == 0 then [] else ChildHandlers(cs[..|cs| - 1], names) + Handlers(cs[|cs| - 1], names)
  }

  /** The accessor functions: all the children's, then this node's Uri function and Operations function. */
  function IdFunctions(n: RouteNode, parentNames: string, parentParts: seq<string>, parameters: seq<string>): (r: seq<string>)
    ensures |r| >= 2
    decreases n, 1
  {
    var names := NextNames(parentNames, n.part);
    var params := NextParameters(parameters, n.part);
    var parts := parentParts + [n.part];
    ChildIdFunctions(n.children, names, parts, params) + [UriFunction(names, params, parts), OperationsFunction(names, n.methods)]
  }

  /** `resourceDefinitions.flatMap(it => it[2])`. */
  function ChildIdFunctions(cs: seq<RouteNode>, names: string, parts: seq<string>, params: seq<string>): seq<string>
    decreases cs, 0
  {
    if |cs| == 0 then []
    else ChildIdFunctions(cs[..|cs| - 1], names, parts, params) + IdFunctions(cs[|cs| - 1], names, parts, params)
  }

  /** `path.routerDefinition()` with its default arguments: no names, no parts, no parameters. */
  function RootDefinition(n: RouteNode): RouterDef
  {
    Definition(n, "", [], [])
  }

  // ---------------------------------------------------------------- PathFinder

  /**
   * `PathFinder.routerDefinition()`: the root definitions of the top-level
   * nodes, their binds inside `router([...])`, their handlers and accessor
   * functions one node after the other.
   */
  function ForestDefinition(forest: seq<RouteNode>): RouterDef
  {
    RouterDef("router([\n" + Join(ChildBinds(forest, ""), ",\n") + "\n])", ChildHandlers(forest, ""), ChildIdFunctions(forest, "", [], []))
  }

  /** `abstract <handler>: Handler;` for every handler. */
  function Declarations(handlers: seq<string>): (r: seq<string>)
    ensures |r| == |handlers|
    ensures forall i :: 0 <= i < |handlers| ==> r[i] == "abstract " + handlers[i] + ": Handler;"
  {
    seq(|handlers|, i requires 0 <= i < |handlers| => "abstract " + handlers[i] + ": Handler;")
  }

  /** `apiDefinition()`: the abstract api class with the router, one abstract handler per handler name, and the accessors. */
  function ApiDefinition(apiName: string, forest: seq<RouteNode>): string
  {
    var d := ForestDefinition(forest);
    "//@ts-ignore\nimport {Api, bind, Handler, HttpMethod, lookup, route, router} from '@hexlabs/apigateway-ts';\n"
      + "export abstract class " + apiName + " {\n"
      + "   handle = " + d.bind + ";\n"
      + "   " + Join(Declarations(d.handlers), "\n") + "\n"
      + "   " + Join(d.idFunctions, "\n") + "\n}"
  }

  // ---------------------------------------------------------------- pathInfo

  /** `path.pathInfo()`: a single entry `'/' + part` holding the method names and the merged entries of the children. */
  function PathInfo(n: RouteNode): (r: Field)
    ensures r.key == "/" + n.part
    ensures r.value.Obj? && Keys(r.value.fields) == ["methods", "paths"]
    ensures var ms := Lookup(r.value.fields, "methods");
            ms.Some? && ms.value.Arr? && |ms.value.items| == |n.methods|
            && forall i :: 0 <= i < |n.methods| ==> ms.value.items[i] == Str(n.methods[i].verb)
    ensures Lookup(r.value.fields, "paths") == Some(Obj(PathInfos(n.children)))
    decreases n, 1
  {
    Field("/" + n.part, Obj([
      Field("methods", Arr(seq(|n.methods|, i requires 0 <= i < |n.methods| => Str(n.methods[i].verb)))),
      Field("paths", Obj(PathInfos(n.children)))]))
  }

  /** `paths.reduce((acc, path) => ({...acc, ...path.pathInfo()}), {})`: a later entry with the same key overwrites an earlier one. */
  function PathInfos(cs: seq<RouteNode>): seq<Field>
    decreases cs, 0
  {
    if |cs| == 0 then []
    else
      var f := PathInfo(cs[|cs| - 1]);
      SetField(PathInfos(cs[..|cs| - 1]), f.key, f.value)
  }

  // ---------------------------------------------------------------- lemmas: counts

  /** A node's handler list has one entry per `Method` in its subtree. */
  lemma {:induction false} HandlerCount(n: RouteNode, parentNames: string)
    ensures |Handlers(n, parentNames)| == MethodCount(n)
    decreases n, 1
  {
    var names := NextNames(parentNames, n.part);
    HandlerNamesShape(n.methods, names);
    ChildHandlerCount(n.children, names);
  }

  lemma {:induction false} ChildHandlerCount(cs: seq<RouteNode>, names: string)
    ensures |ChildHandlers(cs, names)| == SumCounts(cs)
    decreases cs, 0
  {
    if |cs| > 0 {
      ChildHandlerCount(cs[..|cs| - 1], names);
      HandlerCount(cs[|cs| - 1], names);
    }
  }

  /** The number of nodes in a subtree. */
  function NodeCount(t: RouteNode): nat
    decreases t, 1
  {
    1 + SumNodes(t.children)
  }

  function SumNodes(cs: seq<RouteNode>): nat
    decreases cs, 0
  {
    if |cs| == 0 then 0 else SumNodes(cs[..|cs| - 1]) + NodeCount(cs[|cs| - 1])
  }

  /** Every node of the subtree contributes exactly two accessor functions. */
  lemma {:induction false} IdFunctionCount(n: RouteNode, parentNames: string, parentParts: seq<string>, parameters: seq<string>)
    ensures |IdFunctions(n, parentNames, parentParts, parameters)| == 2 * NodeCount(n)
    decreases n, 1
  {
    ChildIdFunctionCount(n.children, NextNames(parentNames, n.part), parentParts + [n.part], NextParameters(parameters, n.part));
  }

  lemma {:induction false} ChildIdFunctionCount(cs: seq<RouteNode>, names: string, parts: seq<string>, params: seq<string>)
    ensures |ChildIdFunctions(cs, names, parts, params)| == 2 * SumNodes(cs)
    decreases cs, 0
  {
    if |cs| > 0 {
      ChildIdFunctionCount(cs[..|cs| - 1], names, parts, params);
      IdFunctionCount(cs[|cs| - 1], names, parts, params);
    }
  }

  /** The api class declares one abstract handler per `Method` of the whole forest. */
  lemma ApiHandlerCount(forest: seq<RouteNode>)
    ensures |Declarations(ForestDefinition(forest).handlers)| == SumCounts(forest)
  {
    ChildHandlerCount(forest, "");
  }

  // ---------------------------------------------------------------- lemmas: names and parameters follow the path

  /** The placeholder names of a path, root to leaf. */
  function Placeholders(parts: seq<string>): seq<string>
    decreases |parts|
  {
    if |parts| == 0 then []
    else
      var last := parts[|parts| - 1];
      Placeholders(parts[..|parts| - 1]) + (if IsPlaceholder(last) then [Inner(last)] else [])
  }

  /** Placeholders of a longer path: those of the first part of the path, then those of the rest. */
  lemma {:induction false} PlaceholdersAppend(a: seq<string>, b: seq<string>)
    ensures Placeholders(a + b) == Placeholders(a) + Placeholders(b)
    decreases |b|
  {
    if |b| == 0 {
      assert a + b == a;
    } else {
      var ab := a + b;
      assert ab[..|ab| - 1] == a + b[..|b| - 1];
      PlaceholdersAppend(a, b[..|b| - 1]);
    }
  }

  /** A piece of a Uri template that is a substitution `${x}`. */
  predicate IsSubstitution(id: string)
  {
    |id| >= 3 && id[..2] == "${" && id[|id| - 1] == '}'
  }

  /** The names substituted into a Uri template, in order. */
  function Substitutions(ids: seq<string>): seq<string>
  {
    if |ids| == 0 then []
    else
      var last := ids[|ids| - 1];
      Substitutions(ids[..|ids| - 1]) + (if IsSubstitution(last) then [last[2..|last| - 1]] else [])
  }

  /**
   * The Uri function substitutes exactly its parameters into its path, in
   * parameter order: the template pieces are the path's parts with each
   * `{x}` turned into `${x}`, so the substitutions are the placeholders.
   * (A literal part that itself reads `${x}` would count as one too.)
   */
  lemma {:induction false} UriSubstitutesParameters(parts: seq<string>)
    requires forall i :: 0 <= i < |parts| && !IsPlaceholder(parts[i]) ==> !IsSubstitution(parts[i])
    ensures Substitutions(Ids(parts)) == Placeholders(parts)
    decreases |parts|
  {
    if |parts| > 0 {
      var init, last := parts[..|parts| - 1], parts[|parts| - 1];
      assert Ids(parts)[..|parts| - 1] == Ids(init);
      UriSubstitutesParameters(init);
      if IsPlaceholder(last) {
        var id := "${" + Inner(last) + "}";
        assert id[..2] == "${" && id[2..|id| - 1] == Inner(last);
      }
    }
  }

  /** A path without placeholders has no Uri parameters, and its Uri path is the path itself. */
  lemma LiteralPath(parts: seq<string>)
    requires forall i :: 0 <= i < |parts| ==> !IsPlaceholder(parts[i])
    ensures Placeholders(parts) == []
    ensures Ids(parts) == parts
  {
    if |parts| > 0 {
      LiteralPath(parts[..|parts| - 1]);
    }
  }

  /** The names handed down are the names of the whole path so far. */
  lemma NamesFollowPath(path: seq<string>, part: string)
    ensures NextNames(NamesOf(path), part) == NamesOf(path + [part])
  {
    NamesOfAppend(path, [part]);
    SingletonNames(part);
  }

  /** The parameters handed down are the placeholders of the whole path so far. */
  lemma ParametersFollowPath(path: seq<string>, part: string)
    ensures NextParameters(Placeholders(path), part) == Placeholders(path + [part])
  {
    assert (path + [part])[..|path|] == path;
  }

  /**
   * The definition of a node reached by `path`, computed with the accumulators
   * of that path: its handlers and names are those of the full path to the
   * node, its Uri function takes the placeholders of the full path in
   * root-to-leaf order, and its children are defined with the accumulators
   * of the longer path, so the same holds at every depth.
   */
  lemma DefinitionAtPath(n: RouteNode, path: seq<string>)
    ensures var full := path + [n.part];
            && Handlers(n, NamesOf(path)) == HandlerNames(n.methods, NamesOf(full)) + ChildHandlers(n.children, NamesOf(full))
            && IdFunctions(n, NamesOf(path), path, Placeholders(path))
                 == ChildIdFunctions(n.children, NamesOf(full), full, Placeholders(full))
                    + [UriFunction(NamesOf(full), Placeholders(full), full), OperationsFunction(NamesOf(full), n.methods)]
  {
    NamesFollowPath(path, n.part);
    ParametersFollowPath(path, n.part);
  }

  /** The root call's empty accumulators are those of the empty path. */
  lemma RootIsEmptyPath(n: RouteNode)
    ensures RootDefinition(n) == Definition(n, NamesOf([]), [], Placeholders([]))
  {
  }

  /** Each child's bind expression appears verbatim inside its parent's. */
  lemma ChildBindNested(n: RouteNode, parentNames: string, i: nat)
    requires i < |n.children|
    ensures Occurs(Bind(n.children[i], NextNames(parentNames, n.part)), Bind(n, parentNames))
  {
    var names := NextNames(parentNames, n.part);
    var all := MethodBinds(n.methods, names) + ChildBinds(n.children, names);
    var j := |n.methods| + i;
    assert all[j] == Bind(n.children[i], names);
    assert Bind(n, parentNames) == BindText(n.part, all);
    BindTextContains(n.part, all, j);
  }

  /** Every bind listed inside a bind expression occurs in its text. */
  lemma BindTextContains(part: string, binds: seq<string>, j: nat)
    requires j < |binds|
    ensures Occurs(binds[j], BindText(part, binds))
  {
    JoinContains(binds, BindSeparator, j);
    OccursInside(binds[j], Join(binds, BindSeparator), BindOpen + part + BindRouter, BindClose);
  }

  // ---------------------------------------------------------------- lemmas: pathInfo

  /** With distinct sibling parts, merging the children's entries keeps one entry per child, each with that child's summary. */
  lemma {:induction false} PathInfosKeepsChildren(cs: seq<RouteNode>)
    requires DistinctSiblings(cs)
    ensures forall i :: 0 <= i < |cs| ==> Lookup(PathInfos(cs), "/" + cs[i].part) == Some(PathInfo(cs[i]).value)
    decreases |cs|
  {
    if |cs| > 0 {
      var init, last := cs[..|cs| - 1], cs[|cs| - 1];
      PathInfosKeepsChildren(init);
      forall i | 0 <= i < |cs| - 1
        ensures Lookup(PathInfos(cs), "/" + cs[i].part) == Some(PathInfo(cs[i]).value)
      {
        assert init[i] == cs[i];
        assert "/" + cs[i].part != "/" + last.part by {
          assert cs[i].part != last.part;
          assert ("/" + cs[i].part)[1..] == cs[i].part && ("/" + last.part)[1..] == last.part;
        }
      }
    }
  }

  /** An entry that no child produces is absent from the merge. */
  lemma {:induction false} PathInfosOnlyChildren(cs: seq<RouteNode>, key: string)
    requires forall i :: 0 <= i < |cs| ==> key != "/" + cs[i].part
    ensures Lookup(PathInfos(cs), key) == None
    decreases |cs|
  {
    if |cs| > 0 {
      PathInfosOnlyChildren(cs[..|cs| - 1], key);
    }
  }
}
