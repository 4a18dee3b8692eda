/**
 * The JavaScript string operations the two generators use, with their
 * JavaScript meaning: `split` on a one-character separator, `join`,
 * `substring` (which clamps and swaps its bounds), `replace` with a string
 * pattern (first occurrence only) and with a global one-character regular
 * expression, `lastIndexOf`, `toUpperCase` (ASCII letters only) and the
 * decimal rendering of integers.
 */
module Text {
  import opened Wrappers

  // ---------------------------------------------------------------- split / join

  /** `s.split(sep)`: the pieces between separators; never empty. */
  function Split(s: string, sep: char): (r: seq<string>)
    ensures |r| >= 1
    ensures forall i :: 0 <= i < |r| ==> sep !in r[i]
    decreases |s|
  {
    if |s| == 0 then [""]
    else
      var rest := Split(s[1..], sep);
      if s[0] == sep then [""] + rest
      else [[s[0]] + rest[0]] + rest[1..]
  }

  /** `parts.join(sep)`; the join of no parts is "". */
  function Join(parts: seq<string>, sep: string): string
    decreases |parts|
  {
    if |parts| == 0 then ""
    else if |parts| == 1 then parts[0]
    else parts[0] + sep + Join(parts[1..], sep)
  }

  /** `parts.map(f).join('')`, built from the last part backwards. */
  function MapConcat(f: string -> string, parts: seq<string>): string
    decreases |parts|
  {
    if |parts| == 0 then "" else MapConcat(f, parts[..|parts| - 1]) + f(parts[|parts| - 1])
  }

  /** Mapping and concatenating distributes over appending the lists. */
  lemma {:induction false} MapConcatAppend(f: string -> string, a: seq<string>, b: seq<string>)
    ensures MapConcat(f, a + b) == MapConcat(f, a) + MapConcat(f, b)
    decreases |b|
  {
    if |b| == 0 {
      assert a + b == a;
    } else {
      var ab := a + b;
      assert ab[..|ab| - 1] == a + b[..|b| - 1];
      MapConcatAppend(f, a, b[..|b| - 1]);
    }
  }

  /** `x` appears verbatim somewhere in `s`. */
  ghost predicate Occurs(x: string, s: string)
  {
    exists pre: string, post: string :: s == pre + x + post
  }

  /** `xss.flat()`: the lists one after the other, built from the last list backwards. */
  function Flatten<T>(xss: seq<seq<T>>): seq<T>
    decreases |xss|
  {
    if |xss| == 0 then [] else Flatten(xss[..|xss| - 1]) + xss[|xss| - 1]
  }

  /** Every element of every list is an element of the flattened list. */
  lemma {:induction false} FlattenIndex<T>(xss: seq<seq<T>>, i: nat, j: nat)
    requires i < |xss| && j < |xss[i]|
    ensures xss[i][j] in Flatten(xss)
    decreases |xss|
  {
    var init := xss[..|xss| - 1];
    if i < |init| {
      assert init[i] == xss[i];
      FlattenIndex(init, i, j);
    }
  }

  /** An element of the flattened list is an element of one of the lists, and conversely. */
  lemma {:induction false} FlattenContains<T>(xss: seq<seq<T>>, x: T)
    ensures x in Flatten(xss) <==> exists i :: 0 <= i < |xss| && x in xss[i]
    decreases |xss|
  {
    if |xss| > 0 {
      var init := xss[..|xss| - 1];
      FlattenContains(init, x);
      assert forall i :: 0 <= i < |init| ==> init[i] == xss[i];
      if x in Flatten(xss) && x !in xss[|xss| - 1] {
        var i :| 0 <= i < |init| && x in init[i];
        assert x in xss[i];
      }
    }
  }

  lemma {:induction false} SplitWithoutSeparator(s: string, sep: char)
    requires sep !in s
    ensures Split(s, sep) == [s]
    decreases |s|
  {
    if |s| > 0 {
      SplitWithoutSeparator(s[1..], sep);
      assert [s[0]] + s[1..] == s;
    }
  }

  /** Splitting distributes over a separator: the pieces of `a/b` are those of `a` then those of `b`. */
  lemma {:induction false} SplitAppend(a: string, b: string, sep: char)
    ensures Split(a + [sep] + b, sep) == Split(a, sep) + Split(b, sep)
    decreases |a|
  {
    var s := a + [sep] + b;
    if |a| == 0 {
      assert s[1..] == b;
    } else {
      assert s[1..] == a[1..] + [sep] + b;
      SplitAppend(a[1..], b, sep);
    }
  }

  /** Joining the pieces of a split gives the string back. */
  lemma {:induction false} JoinSplit(s: string, sep: char)
    ensures Join(Split(s, sep), [sep]) == s
    decreases |s|
  {
    if |s| > 0 {
      var rest := Split(s[1..], sep);
      JoinSplit(s[1..], sep);
      if s[0] == sep {
        assert Split(s, sep) == [""] + rest;
        assert ([""] + rest)[1..] == rest;
      } else {
        var r := Split(s, sep);
        assert r == [[s[0]] + rest[0]] + rest[1..];
        if |rest| == 1 {
          assert s == [s[0]] + s[1..];
        } else {
          assert r[1..] == rest[1..];
          assert Join(rest, [sep]) == rest[0] + [sep] + Join(rest[1..], [sep]);
          assert s == [s[0]] + s[1..];
        }
      }
    }
  }

  /** Splitting a join of separator-free pieces gives the pieces back. */
  lemma {:induction false} SplitJoin(parts: seq<string>, sep: char)
    requires |parts| >= 1
    requires forall i :: 0 <= i < |parts| ==> sep !in parts[i]
    ensures Split(Join(parts, [sep]), sep) == parts
    decreases |parts|
  {
    SplitWithoutSeparator(parts[0], sep);
    if |parts| > 1 {
      SplitJoin(parts[1..], sep);
      SplitAppend(parts[0], Join(parts[1..], [sep]), sep);
      assert parts == [parts[0]] + parts[1..];
    }
  }

  /** A piece of a list appears verbatim inside the list's join. */
  lemma {:induction false} JoinContains(parts: seq<string>, sep: string, i: nat)
    requires i < |parts|
    ensures Occurs(parts[i], Join(parts, sep))
    decreases |parts|
  {
    if |parts| == 1 {
      assert Join(parts, sep) == "" + parts[0] + "";
    } else if i == 0 {
      assert Join(parts, sep) == "" + parts[0] + (sep + Join(parts[1..], sep));
    } else {
      JoinContains(parts[1..], sep, i - 1);
      var pre: string, post: string :| Join(parts[1..], sep) == pre + parts[1..][i - 1] + post;
      assert Join(parts, sep) == (parts[0] + sep + pre) + parts[i] + post;
    }
  }

  /** Text that occurs in `s` still occurs once `s` is wrapped. */
  lemma OccursInside(x: string, s: string, head: string, tail: string)
    requires Occurs(x, s)
    ensures Occurs(x, head + s + tail)
  {
    var pre: string, post: string :| s == pre + x + post;
    assert head + s + tail == (head + pre) + x + (post + tail);
  }

  // ---------------------------------------------------------------- substring, startsWith

  function Clamp(i: int, len: nat): (r: nat)
    ensures r <= len
  {
    if i < 0 then 0 else if i > len then len else i
  }

  /** `s.substring(start, end)`: both bounds clamped to [0, |s|], swapped when start > end. */
  function Substring(s: string, start: int, end: int): (r: string)
    ensures |r| <= |s|
    ensures 0 <= start <= end <= |s| ==> r == s[start..end]
  {
    var a := Clamp(start, |s|);
    var b := Clamp(end, |s|);
    if a <= b then s[a..b] else s[b..a]
  }

  /** `s.startsWith(c)` for a one-character prefix. */
  predicate StartsWith(s: string, c: char)
  {
    |s| > 0 && s[0] == c
  }

  // ---------------------------------------------------------------- case

  /** `toUpperCase` on one character, ASCII letters only. */
  function UpperChar(c: char): (r: char)
    ensures 'a' <= c <= 'z' ==> 'A' <= r <= 'Z'
    ensures !('a' <= c <= 'z') ==> r == c
  {
    if 'a' <= c <= 'z' then (c as int - 'a' as int + 'A' as int) as char else c
  }

  function Upper(s: string): (r: string)
    ensures |r| == |s|
    ensures forall i :: 0 <= i < |s| ==> r[i] == UpperChar(s[i])
  {
    seq(|s|, i requires 0 <= i < |s| => UpperChar(s[i]))
  }

  // ---------------------------------------------------------------- replace

  /** `s.replace(pat, rep)` with a string pattern: only the first occurrence is replaced. */
  function ReplaceFirst(s: string, pat: string, rep: string): (r: string)
    ensures pat <= s ==> r == rep + s[|pat|..]
    decreases |s|
  {
    if pat <= s then rep + s[|pat|..]
    else if |s| == 0 then s
    else [s[0]] + ReplaceFirst(s[1..], pat, rep)
  }

  /** Without any occurrence of `pat`, `replace` returns the string unchanged. */
  lemma {:induction false} ReplaceFirstAbsent(s: string, pat: string, rep: string)
    requires forall k :: 0 <= k <= |s| ==> !(pat <= s[k..])
    ensures ReplaceFirst(s, pat, rep) == s
    decreases |s|
  {
    assert s[0..] == s;
    if |s| > 0 {
      forall k | 0 <= k <= |s[1..]|
        ensures !(pat <= s[1..][k..])
      {
        assert s[1..][k..] == s[k + 1..];
      }
      ReplaceFirstAbsent(s[1..], pat, rep);
    }
  }

  /** The leftmost occurrence of `pat`, at `k`, is the one replaced; the text around it is kept. */
  lemma {:induction false} ReplaceFirstAt(s: string, pat: string, rep: string, k: nat)
    requires k <= |s| && pat <= s[k..]
    requires forall j :: 0 <= j < k ==> !(pat <= s[j..])
    ensures ReplaceFirst(s, pat, rep) == s[..k] + rep + s[k + |pat|..]
    decreases k
  {
    if k == 0 {
      assert s[0..] == s;
    } else {
      assert !(pat <= s) by {
        assert s[0..] == s;
      }
      var t := s[1..];
      assert ReplaceFirst(s, pat, rep) == [s[0]] + ReplaceFirst(t, pat, rep);
      assert t[k - 1..] == s[k..];
      forall j | 0 <= j < k - 1
        ensures !(pat <= t[j..])
      {
        assert t[j..] == s[j + 1..];
      }
      ReplaceFirstAt(t, pat, rep, k - 1);
      assert s[..k] == [s[0]] + t[..k - 1];
      assert t[k - 1 + |pat|..] == s[k + |pat|..];
    }
  }

  /** `s.replace(/c/g, rep)`: every occurrence of the character `c` is replaced. */
  function ReplaceChar(s: string, c: char, rep: string): (r: string)
    ensures c !in s ==> r == s
    ensures c !in rep ==> c !in r
    ensures |s| == 1 ==> r == (if s[0] == c then rep else s)
    ensures rep == "" ==> forall ch :: ch != c ==> multiset(r)[ch] == multiset(s)[ch]
    ensures rep == "" ==> |r| == |s| - multiset(s)[c]
    decreases |s|
  {
    if |s| == 0 then ""
    else
      assert s == [s[0]] + s[1..];
      (if s[0] == c then rep else [s[0]]) + ReplaceChar(s[1..], c, rep)
  }

  /** Replacing distributes over concatenation, so with the one-character case it fixes the result entirely. */
  lemma {:induction false} ReplaceCharAppend(a: string, b: string, c: char, rep: string)
    ensures ReplaceChar(a + b, c, rep) == ReplaceChar(a, c, rep) + ReplaceChar(b, c, rep)
    decreases |a|
  {
    if |a| == 0 {
      assert a + b == b;
      assert ReplaceChar(a, c, rep) == "";
    } else {
      var ab := a + b;
      assert ab[0] == a[0] && ab[1..] == a[1..] + b;
      ReplaceCharAppend(a[1..], b, c, rep);
      ReplaceCharCons(ab, c, rep);
      ReplaceCharCons(a, c, rep);
      AppendAssociative(if a[0] == c then rep else [a[0]], ReplaceChar(a[1..], c, rep), ReplaceChar(b, c, rep));
    }
  }

  /** The first character is replaced or kept, then the rest is processed. */
  lemma ReplaceCharCons(s: string, c: char, rep: string)
    requires |s| > 0
    ensures ReplaceChar(s, c, rep) == (if s[0] == c then rep else [s[0]]) + ReplaceChar(s[1..], c, rep)
  {
  }

  /** A character of the regular-expression class `\w`. */
  predicate IsWordChar(c: char)
  {
    ('a' <= c <= 'z') || ('A' <= c <= 'Z') || ('0' <= c <= '9') || c == '_'
  }

  /** `s.replace(/\W+/g, '')`: every non-word character removed, word characters kept in order. */
  function WordCharsOnly(s: string): (r: string)
    ensures forall i :: 0 <= i < |r| ==> IsWordChar(r[i])
    ensures (forall i :: 0 <= i < |s| ==> IsWordChar(s[i])) ==> r == s
    ensures forall c :: IsWordChar(c) ==> multiset(r)[c] == multiset(s)[c]
    ensures |s| == 1 ==> r == (if IsWordChar(s[0]) then s else "")
    decreases |s|
  {
    if |s| == 0 then ""
    else
      var rest := WordCharsOnly(s[1..]);
      assert s == [s[0]] + s[1..];
      if IsWordChar(s[0]) then [s[0]] + rest else rest
  }

  /**
   * Removing non-word characters distributes over concatenation, so with the
   * one-character case it fixes the result, order included.
   */
  lemma {:induction false} WordCharsOnlyAppend(a: string, b: string)
    ensures WordCharsOnly(a + b) == WordCharsOnly(a) + WordCharsOnly(b)
    decreases |a|
  {
    if |a| == 0 {
      assert a + b == b;
      assert WordCharsOnly(a) == "";
    } else {
      var ab := a + b;
      assert ab[0] == a[0] && ab[1..] == a[1..] + b;
      WordCharsOnlyAppend(a[1..], b);
      WordCharsOnlyCons(ab);
      WordCharsOnlyCons(a);
      var head := if IsWordChar(a[0]) then [a[0]] else [];
      AppendAssociative(head, WordCharsOnly(a[1..]), WordCharsOnly(b));
    }
  }

  /** The first character is kept exactly when it is a word character. */
  lemma WordCharsOnlyCons(s: string)
    requires |s| > 0
    ensures WordCharsOnly(s) == (if IsWordChar(s[0]) then [s[0]] else []) + WordCharsOnly(s[1..])
  {
  }

  /** Concatenation is associative. */
  lemma AppendAssociative<T>(a: seq<T>, b: seq<T>, c: seq<T>)
    ensures a + b + c == a + (b + c)
  {
  }

  // ---------------------------------------------------------------- lastIndexOf

  /** `s.lastIndexOf(c)`: the last position of `c`, or -1. */
  function LastIndexOf(s: string, c: char): (r: int)
    ensures -1 <= r < |s|
    ensures r >= 0 ==> s[r] == c
    ensures forall i :: r < i < |s| ==> s[i] != c
    decreases |s|
  {
    if |s| == 0 then -1
    else if s[|s| - 1] == c then |s| - 1
    else LastIndexOf(s[..|s| - 1], c)
  }

  /** `s.substring(s.lastIndexOf('/') + 1)`. */
  function AfterLastSlash(s: string): (r: string)
    ensures '/' !in r
    ensures exists k :: 0 <= k <= |s| && r == s[k..]
  {
    s[LastIndexOf(s, '/') + 1..]
  }

  /** The text after the last '/' is the last piece of `split('/')`. */
  lemma {:induction false} AfterLastSlashIsLastPiece(s: string)
    ensures AfterLastSlash(s) == Split(s, '/')[|Split(s, '/')| - 1]
  {
    var k := LastIndexOf(s, '/');
    if k < 0 {
      assert '/' !in s;
      SplitWithoutSeparator(s, '/');
    } else {
      var a, b := s[..k], s[k + 1..];
      assert s == a + ['/'] + b;
      assert '/' !in b;
      SplitAppend(a, b, '/');
      SplitWithoutSeparator(b, '/');
    }
  }

  // ---------------------------------------------------------------- numbers

  function DigitChar(d: nat): (r: char)
    requires d < 10
    ensures '0' <= r <= '9'
    ensures (r == '0') == (d == 0)
  {
    "0123456789"[d]
  }

  predicate IsDigit(c: char)
  {
    '0' <= c <= '9'
  }

  /** Decimal rendering of a natural number, as `String(n)` gives it. */
  function NatToString(n: nat): (r: string)
    ensures |r| >= 1
    ensures forall i :: 0 <= i < |r| ==> IsDigit(r[i])
    ensures (r[0] == '0') == (n == 0)
  {
    if n < 10 then [DigitChar(n)] else NatToString(n / 10) + [DigitChar(n % 10)]
  }

  /** Decimal rendering of an integer, with a leading '-' for negatives. */
  function IntToString(n: int): string
  {
    if n < 0 then "-" + NatToString(-n) else NatToString(n)
  }

  /** The value of a string of decimal digits. */
  function DigitsValue(s: string): nat
    requires forall i :: 0 <= i < |s| ==> IsDigit(s[i])
    decreases |s|
  {
    if |s| == 0 then 0
    else
      assert IsDigit(s[|s| - 1]);
      DigitsValue(s[..|s| - 1]) * 10 + (s[|s| - 1] as int - '0' as int)
  }

  /**
   * The array index a property key denotes: a canonical decimal numeral
   * (no sign, no leading zero unless it is "0"), otherwise none.
   */
  function ParseIndex(s: string): (r: Option<nat>)
    ensures r.Some? ==> |s| >= 1 && forall i :: 0 <= i < |s| ==> IsDigit(s[i])
  {
    if |s| == 0 || (|s| > 1 && s[0] == '0') then None
    else if forall i :: 0 <= i < |s| ==> IsDigit(s[i]) then Some(DigitsValue(s))
    else None
  }

  /** Rendering an index and parsing it back gives the index. */
  lemma {:induction false} ParseNatToString(n: nat)
    ensures ParseIndex(NatToString(n)) == Some(n)
  {
    DigitsValueNatToString(n);
  }

  lemma {:induction false} DigitsValueNatToString(n: nat)
    ensures DigitsValue(NatToString(n)) == n
  {
    if n >= 10 {
      var s := NatToString(n);
      DigitsValueNatToString(n / 10);
      assert s[..|s| - 1] == NatToString(n / 10);
    } else {
      assert "0123456789"[n] as int - '0' as int == n;
    }
  }
}
