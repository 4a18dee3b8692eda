/**
 * A parsed OpenAPI document as a JSON value, and the few JavaScript
 * operations the generators apply to such values: own-property tests and
 * reads (which throw a TypeError on `null` and `undefined`), `Object.keys`,
 * truthiness, `??`, array and object spread, and conversion to text.
 *
 * Objects are association lists in `Object.keys` enumeration order; a
 * property read takes the first entry with the key.
 */
module Js {
  import opened Wrappers
  import opened Text

  datatype Json =
    | Null
    | Bool(b: bool)
    | Num(n: int)
    | Str(s: string)
    | Arr(items: seq<Json>)
    | Obj(fields: seq<Field>)

  datatype Field = Field(key: string, value: Json)

  /** A JavaScript value as the generators see it: `None` is `undefined`. */
  type Value = Option<Json>

  /** The only exception the generators can raise. */
  datatype Exception = TypeError

  type Outcome<T> = Result<T, Exception>

  // ---------------------------------------------------------------- objects

  function Keys(fields: seq<Field>): (r: seq<string>)
    ensures |r| == |fields|
    ensures forall i :: 0 <= i < |fields| ==> r[i] == fields[i].key
  {
    seq(|fields|, i requires 0 <= i < |fields| => fields[i].key)
  }

  /** The value stored under `key`, the first such entry if several. */
  function Lookup(fields: seq<Field>, key: string): (r: Option<Json>)
    ensures r.Some? <==> key in Keys(fields)
    ensures r.Some? ==> exists i :: 0 <= i < |fields| && fields[i] == Field(key, r.value)
    decreases |fields|
  {
    if |fields| == 0 then None
    else if fields[0].key == key then Some(fields[0].value)
    else
      assert Keys(fields) == [fields[0].key] + Keys(fields[1..]);
      Lookup(fields[1..], key)
  }

  /** The string keys "0", "1", ... of a list of length n. */
  function IndexKeys(n: nat): (r: seq<string>)
    ensures |r| == n
    ensures forall i :: 0 <= i < n ==> r[i] == NatToString(i)
  {
    seq(n, i requires 0 <= i < n => NatToString(i))
  }

  /** `Object.prototype.hasOwnProperty.call(v, key)` for a value that is not null or undefined. */
  predicate HasOwn(v: Json, key: string)
  {
    match v
    case Obj(fields) => key in Keys(fields)
    case Arr(items) => key == "length" || (ParseIndex(key).Some? && ParseIndex(key).value < |items|)
    case Str(s) => key == "length" || (ParseIndex(key).Some? && ParseIndex(key).value < |s|)
    case _ => false
  }

  /** `v[key]` for a value that is not null or undefined; `None` when `key` is not an own property. */
  function OwnGet(v: Json, key: string): (r: Value)
    ensures r.Some? <==> HasOwn(v, key)
  {
    match v
    case Obj(fields) => Lookup(fields, key)
    case Arr(items) =>
      if key == "length" then Some(Num(|items|))
      else if ParseIndex(key).Some? && ParseIndex(key).value < |items| then Some(items[ParseIndex(key).value])
      else None
    case Str(s) =>
      if key == "length" then Some(Num(|s|))
      else if ParseIndex(key).Some? && ParseIndex(key).value < |s| then Some(Str([s[ParseIndex(key).value]]))
      else None
    case _ => None
  }

  predicate IsNullish(v: Value)
  {
    v.None? || v.value.Null?
  }

  /** `v[key]`: reading a property of `null` or `undefined` throws. */
  function Get(v: Value, key: string): (r: Outcome<Value>)
    ensures r.Err? <==> IsNullish(v)
    ensures r.Ok? ==> r.value == OwnGet(v.value, key)
  {
    if IsNullish(v) then Err(TypeError) else Ok(OwnGet(v.value, key))
  }

  /** The document's `info.title` when `info` is present and the title is a string. */
  function InfoTitle(doc: Json): Option<string>
  {
    var info := OwnGet(doc, "info");
    if IsNullish(info) then None
    else
      var title := OwnGet(info.value, "title");
      if title.Some? && title.value.Str? then Some(title.value.s) else None
  }

  /** `Object.keys(v)` for a value that is not null or undefined. */
  function OwnKeys(v: Json): seq<string>
  {
    match v
    case Obj(fields) => Keys(fields)
    case Arr(items) => IndexKeys(|items|)
    case Str(s) => IndexKeys(|s|)
    case _ => []
  }

  /** `Object.keys(v)`: throws on `null` and `undefined`. */
  function ObjectKeys(v: Value): (r: Outcome<seq<string>>)
    ensures r.Err? <==> IsNullish(v)
    ensures r.Ok? ==> r.value == OwnKeys(v.value)
  {
    if IsNullish(v) then Err(TypeError) else Ok(OwnKeys(v.value))
  }

  /** The property key `k` denotes when it may be `undefined` (`obj[undefined]` reads key "undefined"). */
  function KeyOf(k: Option<string>): string
  {
    if k.Some? then k.value else "undefined"
  }

  /** `keys[0]`: the first key, or `undefined` when there is none. */
  function First(keys: seq<string>): (r: Option<string>)
    ensures r.Some? <==> |keys| > 0
    ensures r.Some? ==> r.value == keys[0]
  {
    if |keys| > 0 then Some(keys[0]) else None
  }

  // ---------------------------------------------------------------- truthiness, ??

  /** JavaScript truthiness (numbers are integers here, so NaN does not arise). */
  predicate Truthy(v: Value)
  {
    match v
    case None => false
    case Some(j) =>
      match j
      case Null => false
      case Bool(b) => b
      case Num(n) => n != 0
      case Str(s) => s != ""
      case _ => true
  }

  /** `v ?? d`. */
  function Coalesce(v: Value, d: Json): (r: Json)
    ensures IsNullish(v) ==> r == d
    ensures !IsNullish(v) ==> r == v.value
  {
    if IsNullish(v) then d else v.value
  }

  // ---------------------------------------------------------------- spread

  /** `[...v]`: arrays give their items, strings their characters; anything else is not iterable. */
  function Iterate(v: Value): (r: Outcome<seq<Json>>)
    ensures v.Some? && v.value.Arr? ==> r == Ok(v.value.items)
    ensures r.Ok? ==> v.Some? && (v.value.Arr? || v.value.Str?)
  {
    match v
    case Some(Arr(items)) => Ok(items)
    case Some(Str(s)) => Ok(seq(|s|, i requires 0 <= i < |s| => Str([s[i]])))
    case _ => Err(TypeError)
  }

  /** `{...v}`: the own enumerable properties of `v`; nothing for primitives other than strings. */
  function SpreadFields(v: Value): seq<Field>
  {
    match v
    case Some(Obj(fields)) => fields
    case Some(Arr(items)) => seq(|items|, i requires 0 <= i < |items| => Field(NatToString(i), items[i]))
    case Some(Str(s)) => seq(|s|, i requires 0 <= i < |s| => Field(NatToString(i), Str([s[i]])))
    case _ => []
  }

  /**
   * `{...fields, key: value}`: an existing entry keeps its position and takes
   * the new value; otherwise the entry is added at the end. Every other key
   * keeps its value.
   */
  function SetField(fields: seq<Field>, key: string, value: Json): (r: seq<Field>)
    ensures Lookup(r, key) == Some(value)
    ensures forall k :: k != key ==> Lookup(r, k) == Lookup(fields, k)
    decreases |fields|
  {
    if |fields| == 0 then [Field(key, value)]
    else
      var rest := SetField(fields[1..], key, value);
      var head := if fields[0].key == key then Field(key, value) else fields[0];
      SetFieldCons(fields, key, value, head, rest);
      [head] + rest
  }

  /** Setting a key in the tail and replacing the head when it has that key sets it in the whole list. */
  lemma SetFieldCons(fields: seq<Field>, key: string, value: Json, head: Field, rest: seq<Field>)
    requires |fields| > 0 && head == (if fields[0].key == key then Field(key, value) else fields[0])
    requires Lookup(rest, key) == Some(value)
    requires forall k :: k != key ==> Lookup(rest, k) == Lookup(fields[1..], k)
    ensures Lookup([head] + rest, key) == Some(value)
    ensures forall k :: k != key ==> Lookup([head] + rest, k) == Lookup(fields, k)
  {
    var r := [head] + rest;
    assert r[0] == head && r[1..] == rest;
    forall k | k != key
      ensures Lookup(r, k) == Lookup(fields, k)
    {
      if fields[0].key == k {
        assert head == fields[0];
      }
    }
  }

  // ---------------------------------------------------------------- text

  /**
   * `String(v)` as a template literal or `join` renders it: arrays are the
   * comma-joined renderings of their items (null and undefined items as ""),
   * objects "[object Object]".
   */
  function ToStr(v: Value): string
  {
    match v
    case None => "undefined"
    case Some(j) => JsonToStr(j)
  }

  function JsonToStr(j: Json): string
  {
    match j
    case Null => "null"
    case Bool(b) => if b then "true" else "false"
    case Num(n) => IntToString(n)
    case Str(s) => s
    case Arr(items) => Join(ItemsToStr(items), ",")
    case Obj(_) => "[object Object]"
  }

  function ItemsToStr(items: seq<Json>): (r: seq<string>)
    ensures |r| == |items|
  {
    if |items| == 0 then []
    else [if items[0].Null? then "" else JsonToStr(items[0])] + ItemsToStr(items[1..])
  }

  // ---------------------------------------------------------------- map with exceptions

  /**
   * `xs.map(f)` where `f` may throw: the results in order, or the exception
   * as soon as one call throws.
   */
  function MapAll<T, U>(xs: seq<T>, f: T -> Outcome<U>): (r: Outcome<seq<U>>)
    decreases |xs|
  {
    if |xs| == 0 then Ok([])
    else
      var done :- MapAll(xs[..|xs| - 1], f);
      var last :- f(xs[|xs| - 1]);
      Ok(done + [last])
  }

  /** The results of a map that does not throw are the callback's results, in order. */
  lemma {:induction false} MapAllResults<T, U>(xs: seq<T>, f: T -> Outcome<U>)
    ensures var r := MapAll(xs, f);
      r.Ok? ==> |r.value| == |xs| && forall i :: 0 <= i < |xs| ==> f(xs[i]) == Ok(r.value[i])
    ensures MapAll(xs, f).Err? <==> exists i :: 0 <= i < |xs| && f(xs[i]).Err?
    decreases |xs|
  {
    if |xs| > 0 {
      var init := xs[..|xs| - 1];
      MapAllResults(init, f);
      assert forall i :: 0 <= i < |init| ==> init[i] == xs[i];
    }
  }

}
