/**
 * Identifier mangling shared by the router emitter and the SDK generator:
 * a path segment becomes a capitalised name, a `{param}` segment becomes
 * "By" followed by the capitalised parameter name, and a path becomes the
 * concatenation of its segments' names.
 */
module Naming {
  import opened Text

  /** `capitilize`: upper-case the first character, keep the rest; "" stays "". */
  function Capitalize(name: string): (r: string)
    ensures |r| == |name|
    ensures |name| > 0 ==> r[0] == UpperChar(name[0]) && r[1..] == name[1..]
  {
    Upper(Substring(name, 0, 1)) + Substring(name, 1, |name|)
  }

  /** A segment that starts with '{' stands for a path parameter. */
  predicate IsPlaceholder(part: string)
  {
    StartsWith(part, '{')
  }

  /** `part.substring(1, part.length - 1)`: the parameter name between the braces. */
  function Inner(part: string): string
  {
    Substring(part, 1, |part| - 1)
  }

  /** `name(part)`: "By" + capitalised parameter for a placeholder, the capitalised segment otherwise. */
  function Name(part: string): string
  {
    if IsPlaceholder(part) then "By" + Capitalize(Inner(part)) else Capitalize(part)
  }

  /** The names of a list of segments, concatenated in order. */
  function NamesOf(parts: seq<string>): string
  {
    MapConcat(Name, parts)
  }

  /** `pathName(path)`: `path.split('/').map(name).join('')`. */
  function PathName(path: string): string
  {
    NamesOf(Split(path, '/'))
  }

  lemma NamesOfAppend(a: seq<string>, b: seq<string>)
    ensures NamesOf(a + b) == NamesOf(a) + NamesOf(b)
  {
    MapConcatAppend(Name, a, b);
  }

  /** The name of `a/b` is the name of `a` followed by the name of `b`. */
  lemma {:induction false} PathNameAppend(a: string, b: string)
    ensures PathName(a + "/" + b) == PathName(a) + PathName(b)
  {
    SplitAppend(a, b, '/');
    NamesOfAppend(Split(a, '/'), Split(b, '/'));
  }

  /** A `{x}` segment is named "By" + capitalised x. */
  lemma {:induction false} NameOfPlaceholder(x: string)
    ensures Name("{" + x + "}") == "By" + Capitalize(x)
  {
    var part := "{" + x + "}";
    assert part[1..|part| - 1] == x;
  }

  /** Between the braces means from the second to the next-to-last character, whatever the last one is. */
  lemma {:induction false} NameDropsLastCharacter(part: string)
    requires IsPlaceholder(part) && |part| >= 2
    ensures Name(part) == "By" + Capitalize(part[1..|part| - 1])
  {
  }

  /** A lone "{" has no inner text: `substring(1, 0)` swaps its bounds and gives "{" itself. */
  lemma LoneBrace()
    ensures Name("{") == "By{"
  {
    assert Substring("{", 1, 0) == "{";
    assert Capitalize("{") == "{";
  }

  lemma SingletonNames(x: string)
    ensures NamesOf([x]) == Name(x)
  {
    assert [x][..0] == [];
    assert MapConcat(Name, [x]) == MapConcat(Name, []) + Name(x);
  }
}
