/**
 * The few pieces of JavaScript string and value semantics that the FLUX
 * client relies on: optional values, `undefined`/`null`/string identifiers
 * compared with `===`, `String.prototype.trim`, ASCII case mapping,
 * `startsWith`/`includes`/`endsWith`, `replace` with a string pattern,
 * `split` on a one-character separator, `join`, and the decimal rendering of
 * a non-negative integer.
 */
module JsText {

  datatype Option<+T> = None | Some(value: T)

  datatype Result<+T> = Ok(value: T) | Err(message: string)

  /** A value read from an object field: absent (`undefined`), `null`, or a string. */
  datatype JsId = Undefined | Null | Str(s: string)

  /** JavaScript truthiness of such a value: only a non-empty string is truthy. */
  predicate Truthy(v: JsId)
  {
    v.Str? && v.s != ""
  }

  /** A nullable string (`null` or a string) as held in React state. */
  predicate Present(v: Option<string>)
  {
    v.Some? && v.value != ""
  }

  // ---------------------------------------------------------------------
  // Whitespace, as `trim` and the regular-expression class `\s` see it
  // (WhiteSpace and LineTerminator of ECMAScript).
  // ---------------------------------------------------------------------

  predicate IsLineTerminator(c: char)
  {
    c == '\n' || c == '\r' || c == '\U{2028}' || c == '\U{2029}'
  }

  predicate IsWhite(c: char)
  {
    || IsLineTerminator(c)
    || c == ' ' || c == '\t' || c == '\U{000B}' || c == '\U{000C}'
    || c == '\U{00A0}' || c == '\U{FEFF}' || c == '\U{1680}'
    || ('\U{2000}' <= c <= '\U{200A}')
    || c == '\U{202F}' || c == '\U{205F}' || c == '\U{3000}'
  }

  predicate AllWhite(s: string)
  {
    forall i :: 0 <= i < |s| ==> IsWhite(s[i])
  }

  /** `s.trimStart()`: the suffix of `s` left after dropping leading whitespace. */
  function TrimStart(s: string): (r: string)
    ensures |r| <= |s| && r == s[|s| - |r|..]
    ensures r != [] ==> !IsWhite(r[0])
    ensures r == [] <==> AllWhite(s)
  {
    if s != [] && IsWhite(s[0]) then
      assert AllWhite(s) <==> AllWhite(s[1..]) by {
        assert forall i :: 0 < i < |s| ==> s[i] == s[1..][i - 1];
      }
      TrimStart(s[1..])
    else
      s
  }

  /** `s.trimEnd()`: the prefix of `s` left after dropping trailing whitespace. */
  function TrimEnd(s: string): (r: string)
    ensures |r| <= |s| && r == s[..|r|]
    ensures r != [] ==> !IsWhite(r[|r| - 1])
    ensures r == [] <==> AllWhite(s)
  {
    if s != [] && IsWhite(s[|s| - 1]) then
      assert AllWhite(s) <==> AllWhite(s[..|s| - 1]) by {
        assert forall i :: 0 <= i < |s| - 1 ==> s[i] == s[..|s| - 1][i];
      }
      TrimEnd(s[..|s| - 1])
    else
      s
  }

  /**
   * `s.trim()`: the part of `s` between its leading and trailing whitespace;
   * empty exactly when `s` is all whitespace.
   */
  function Trim(s: string): (r: string)
    ensures var k := |s| - |TrimStart(s)|; k + |r| <= |s| && r == s[k..k + |r|]
    ensures r != [] ==> !IsWhite(r[0]) && !IsWhite(r[|r| - 1])
    ensures r == [] <==> AllWhite(s)
  {
    var a := TrimStart(s);
    var r := TrimEnd(a);
    TrimDeSusPartes(s, a, r);
    r
  }

  /** What `Trim` promises, from what `TrimStart` and `TrimEnd` promise. */
  lemma TrimDeSusPartes(s: string, a: string, r: string)
    requires |a| <= |s| && a == s[|s| - |a|..]
    requires (a != [] ==> !IsWhite(a[0])) && (a == [] <==> AllWhite(s))
    requires |r| <= |a| && r == a[..|r|]
    requires (r != [] ==> !IsWhite(r[|r| - 1])) && (r == [] <==> AllWhite(a))
    ensures var k := |s| - |a|; k + |r| <= |s| && r == s[k..k + |r|]
    ensures r != [] ==> !IsWhite(r[0]) && !IsWhite(r[|r| - 1])
    ensures r == [] <==> AllWhite(s)
  {
    if a != [] {
      assert !AllWhite(a) by { assert !IsWhite(a[0]); }
      assert r[0] == a[0];
    }
  }

  /** `!s.trim()`: the string is empty or only whitespace. */
  predicate Blank(s: string)
  {
    Trim(s) == ""
  }

  /** Trimming twice is trimming once. */
  lemma TrimIdempotent(s: string)
    ensures Trim(Trim(s)) == Trim(s)
  {
    var t := Trim(s);
    assert t == [] || TrimStart(t) == t;
  }

  /** A string with no whitespace at either end is its own trim. */
  lemma TrimOfTrimmed(s: string)
    requires s != [] && !IsWhite(s[0]) && !IsWhite(s[|s| - 1])
    ensures Trim(s) == s
  {
    assert TrimStart(s) == s;
    assert TrimEnd(s) == s;
  }

  // ---------------------------------------------------------------------
  // Case mapping, restricted to the ASCII letters.
  // ---------------------------------------------------------------------

  function UpperChar(c: char): char
  {
    if 'a' <= c <= 'z' then (c as int - 32) as char else c
  }

  function LowerChar(c: char): char
  {
    if 'A' <= c <= 'Z' then (c as int + 32) as char else c
  }

  /** `s.toUpperCase()` on ASCII letters; every other character is kept. */
  function ToUpper(s: string): (r: string)
    ensures |r| == |s|
    ensures forall i :: 0 <= i < |s| ==> r[i] == UpperChar(s[i])
  {
    if s == [] then [] else [UpperChar(s[0])] + ToUpper(s[1..])
  }

  /** `s.toLowerCase()` on ASCII letters; every other character is kept. */
  function ToLower(s: string): (r: string)
    ensures |r| == |s|
    ensures forall i :: 0 <= i < |s| ==> r[i] == LowerChar(s[i])
  {
    if s == [] then [] else [LowerChar(s[0])] + ToLower(s[1..])
  }

  /** A string without upper-case ASCII letters is its own lower-case form. */
  lemma ToLowerOfLower(s: string)
    requires forall i :: 0 <= i < |s| ==> !('A' <= s[i] <= 'Z')
    ensures ToLower(s) == s
  {
  }

  lemma ToUpperIdempotent(s: string)
    ensures ToUpper(ToUpper(s)) == ToUpper(s)
  {
  }

  // ---------------------------------------------------------------------
  // Searching.
  // ---------------------------------------------------------------------

  /** `s.startsWith(p)` */
  predicate StartsWith(s: string, p: string)
  {
    |p| <= |s| && s[..|p|] == p
  }

  /** `s.endsWith(p)` */
  predicate EndsWith(s: string, p: string)
  {
    |p| <= |s| && s[|s| - |p|..] == p
  }

  /** The first index at or after `from` where `p` occurs in `s`. */
  function IndexFrom(s: string, p: string, from: nat): (r: Option<nat>)
    requires from <= |s|
    ensures r.Some? ==> from <= r.value <= |s| - |p| && s[r.value..r.value + |p|] == p
    ensures r.Some? ==> forall j :: from <= j < r.value ==> !StartsWith(s[j..], p)
    ensures r.None? ==> forall j :: from <= j <= |s| ==> !StartsWith(s[j..], p)
    decreases |s| - from
  {
    if StartsWith(s[from..], p) then
      assert s[from..][..|p|] == s[from..from + |p|];
      Some(from)
    else if from == |s| then None
    else IndexFrom(s, p, from + 1)
  }

  /** `s.indexOf(p)` with `-1` as `None`. */
  function IndexOf(s: string, p: string): Option<nat>
  {
    IndexFrom(s, p, 0)
  }

  /** `s.includes(p)` */
  predicate Includes(s: string, p: string)
  {
    IndexOf(s, p).Some?
  }

  lemma IncludesIff(s: string, p: string)
    ensures Includes(s, p) <==> exists j :: 0 <= j <= |s| && StartsWith(s[j..], p)
  {
    if Includes(s, p) {
      var j := IndexOf(s, p).value;
      assert s[j..][..|p|] == s[j..j + |p|];
      assert StartsWith(s[j..], p);
    }
  }

  /** A string that starts with `p` includes it. */
  lemma StartsWithIncludes(s: string, p: string)
    requires StartsWith(s, p)
    ensures Includes(s, p)
  {
    assert s[0..] == s;
  }

  /** An occurrence of `p` inside `b` is an occurrence inside `a + b`. */
  lemma IncludesInSuffix(a: string, b: string, p: string)
    requires Includes(b, p)
    ensures Includes(a + b, p)
  {
    IncludesIff(b, p);
    var j :| 0 <= j <= |b| && StartsWith(b[j..], p);
    assert (a + b)[|a| + j..] == b[j..];
    IncludesIff(a + b, p);
  }

  /** A pattern with a character that `s` lacks does not occur in `s`. */
  lemma NotIncludesMissingChar(s: string, p: string, i: nat)
    requires i < |p| && p[i] !in s
    ensures !Includes(s, p)
  {
    IncludesIff(s, p);
    forall j | 0 <= j <= |s|
      ensures !StartsWith(s[j..], p)
    {
      if |p| <= |s| - j {
        assert s[j..][..|p|][i] == s[j + i];
      }
    }
  }

  /** An occurrence of `p + q` is an occurrence of `p`. */
  lemma IncludesPrefixOfPattern(s: string, p: string, q: string)
    requires Includes(s, p + q)
    ensures Includes(s, p)
  {
    IncludesIff(s, p + q);
    var j :| 0 <= j <= |s| && StartsWith(s[j..], p + q);
    assert s[j..][..|p|] == (p + q)[..|p|] == p;
    IncludesIff(s, p);
  }

  /** No occurrence of `p` in `a + b` starts at index `j` (see `NotIncludesConcat`). */
  lemma NotStartsAtInConcat(a: string, b: string, p: string, j: nat)
    requires !Includes(a, p) && !Includes(b, p)
    requires forall l :: 1 <= l < |p| && l <= |b| ==> b[..l] != p[|p| - l..]
    requires j <= |a + b|
    ensures !StartsWith((a + b)[j..], p)
  {
    IncludesIff(a, p);
    IncludesIff(b, p);
    var s := a + b;
    if |p| > |s| - j {
    } else if j + |p| <= |a| {
      assert s[j..][..|p|] == a[j..][..|p|];
      assert !StartsWith(a[j..], p);
    } else if j >= |a| {
      assert s[j..] == b[j - |a|..];
      assert !StartsWith(b[j - |a|..], p);
    } else {
      var l := j + |p| - |a|;
      assert s[j..][..|p|][|p| - l..] == b[..l];
    }
  }

  /**
   * `p` does not occur in `a + b` if it occurs in neither part and no
   * non-empty proper suffix of `p` starts `b` (so no occurrence straddles
   * the boundary).
   */
  lemma NotIncludesConcat(a: string, b: string, p: string)
    requires !Includes(a, p) && !Includes(b, p)
    requires forall l :: 1 <= l < |p| && l <= |b| ==> b[..l] != p[|p| - l..]
    ensures !Includes(a + b, p)
  {
    IncludesIff(a + b, p);
    forall j | 0 <= j <= |a + b|
      ensures !StartsWith((a + b)[j..], p)
    {
      NotStartsAtInConcat(a, b, p, j);
    }
  }

  /** `s.replace(p, r)` with a string pattern: only the first occurrence is replaced. */
  function ReplaceFirst(s: string, p: string, rep: string): string
  {
    match IndexOf(s, p)
    case None => s
    case Some(i) => s[..i] + rep + s[i + |p|..]
  }

  /** Replacing a prefix by the empty string strips that prefix. */
  lemma ReplacePrefix(p: string, t: string)
    ensures ReplaceFirst(p + t, p, "") == t
  {
    assert StartsWith(p + t, p);
    assert (p + t)[0..] == p + t;
    assert (p + t)[|p|..] == t;
  }

  // ---------------------------------------------------------------------
  // Splitting and joining.
  // ---------------------------------------------------------------------

  /** `s.split(sep)` for a one-character separator: at least one piece, and the pieces joined back give `s`. */
  function Split(s: string, sep: char): (r: seq<string>)
    ensures |r| >= 1
    ensures forall k :: 0 <= k < |r| ==> sep !in r[k]
    ensures Join(r, [sep]) == s
  {
    if s == [] then [""]
    else
      var rest := Split(s[1..], sep);
      if s[0] == sep then
        assert s == [sep] + s[1..];
        [""] + rest
      else
        JoinConsFirst(s[0], rest, [sep]);
        assert s == [s[0]] + s[1..];
        [[s[0]] + rest[0]] + rest[1..]
  }

  /** `parts.join(sep)` */
  function Join(parts: seq<string>, sep: string): string
  {
    if |parts| == 0 then ""
    else if |parts| == 1 then parts[0]
    else parts[0] + sep + Join(parts[1..], sep)
  }

  lemma JoinConsFirst(c: char, parts: seq<string>, sep: string)
    requires |parts| >= 1
    ensures Join([[c] + parts[0]] + parts[1..], sep) == [c] + Join(parts, sep)
  {
    var q := [[c] + parts[0]] + parts[1..];
    assert q[1..] == parts[1..];
  }

  /** `s.split(sep).pop()`: the last piece of the split. */
  function LastPiece(s: string, sep: char): string
  {
    var p := Split(s, sep);
    p[|p| - 1]
  }

  /** The last piece holds no separator, ends `s`, and is the whole of `s` or follows a separator. */
  lemma {:induction false} LastPieceShape(s: string, sep: char)
    ensures var r := LastPiece(s, sep);
      sep !in r && EndsWith(s, r) && (|r| < |s| ==> s[|s| - |r| - 1] == sep)
  {
    if s != [] {
      LastPieceShape(s[1..], sep);
      var rest := Split(s[1..], sep);
      var r := LastPiece(s, sep);
      if s[0] != sep && |rest| == 1 {
        assert r == [s[0]] + rest[0];
        assert s == [s[0]] + s[1..];
      } else {
        assert r == rest[|rest| - 1];
        assert s[|s| - |r|..] == s[1..][|s[1..]| - |r|..];
      }
    }
  }

  /** A string with no separator splits into itself alone. */
  lemma {:induction false} SplitWithoutSep(b: string, sep: char)
    requires sep !in b
    ensures Split(b, sep) == [b]
  {
    if b != [] {
      SplitWithoutSep(b[1..], sep);
      assert b == [b[0]] + b[1..];
    }
  }

  /** `a + sep + b` splits into `a` and `b` when neither holds the separator. */
  lemma {:induction false} SplitTwo(a: string, sep: char, b: string)
    requires sep !in a && sep !in b
    ensures Split(a + [sep] + b, sep) == [a, b]
  {
    var s := a + [sep] + b;
    if a == [] {
      assert s[1..] == b;
      SplitWithoutSep(b, sep);
    } else {
      assert s[1..] == a[1..] + [sep] + b;
      SplitTwo(a[1..], sep, b);
      assert a == [a[0]] + a[1..];
    }
  }

  /** The last piece of `a + sep + b`, when `b` holds no separator, is `b`. */
  lemma {:induction false} LastPieceAfterSep(a: string, sep: char, b: string)
    requires sep !in b
    ensures |Split(a + [sep] + b, sep)| >= 2
    ensures LastPiece(a + [sep] + b, sep) == b
  {
    var s := a + [sep] + b;
    if a == [] {
      assert s[1..] == b;
      SplitWithoutSep(b, sep);
    } else {
      assert s[1..] == a[1..] + [sep] + b;
      LastPieceAfterSep(a[1..], sep, b);
    }
  }

  // ---------------------------------------------------------------------
  // Ordering of strings.
  // ---------------------------------------------------------------------

  /**
   * `a.localeCompare(b) <= 0`, read as lexicographic order on characters
   * (Unicode scalar values): `a` is a prefix of `b`, or is smaller at the
   * first position where they differ.
   */
  predicate LexLe(a: string, b: string)
  {
    if a == [] then true
    else if b == [] then false
    else if a[0] != b[0] then a[0] < b[0]
    else LexLe(a[1..], b[1..])
  }

  lemma {:induction false} LexLeTotal(a: string, b: string)
    ensures LexLe(a, b) || LexLe(b, a)
  {
    if a != [] && b != [] && a[0] == b[0] {
      LexLeTotal(a[1..], b[1..]);
    }
  }

  lemma {:induction false} LexLeTrans(a: string, b: string, c: string)
    requires LexLe(a, b) && LexLe(b, c)
    ensures LexLe(a, c)
  {
    if a != [] && b != [] && c != [] && a[0] == b[0] && b[0] == c[0] {
      LexLeTrans(a[1..], b[1..], c[1..]);
    }
  }

  lemma {:induction false} LexLeAntisym(a: string, b: string)
    requires LexLe(a, b) && LexLe(b, a)
    ensures a == b
  {
    if a != [] && b != [] {
      LexLeAntisym(a[1..], b[1..]);
      assert a == [a[0]] + a[1..] && b == [b[0]] + b[1..];
    }
  }

  // ---------------------------------------------------------------------
  // Numbers as text.
  // ---------------------------------------------------------------------

  predicate IsDigit(c: char)
  {
    '0' <= c <= '9'
  }

  function DigitValue(c: char): nat
    requires IsDigit(c)
  {
    c as int - '0' as int
  }

  predicate AllDigits(s: string)
  {
    forall i :: 0 <= i < |s| ==> IsDigit(s[i])
  }

  /** The value of a string of decimal digits. */
  function DecimalValue(s: string): nat
    requires AllDigits(s)
  {
    if s == [] then 0 else 10 * DecimalValue(s[..|s| - 1]) + DigitValue(s[|s| - 1])
  }

  /** `${n}` for a non-negative integer: its decimal digits, no leading zero. */
  function NatToString(n: nat): (r: string)
    ensures r != [] && AllDigits(r) && DecimalValue(r) == n
    ensures |r| > 1 ==> r[0] != '0'
    ensures '-' !in r && '/' !in r
  {
    var d := ['0' + (n % 10) as char];
    if n < 10 then d
    else
      var r := NatToString(n / 10) + d;
      assert r[..|r| - 1] == NatToString(n / 10);
      r
  }
}
