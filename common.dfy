/** Values and JavaScript string operations shared by the web components:
    an Option type for `null`/`undefined`, truthiness of strings, and the
    `String.prototype` methods the components call (`startsWith`, `split`
    on one character, `trim`). */
module Common {

  /** A value that may be missing (`null` or `undefined` in the source). */
  datatype Option<+T> = None | Some(value: T)

  /** JavaScript truthiness of a string that may be missing: `null`,
      `undefined` and `''` are falsy, every other string is truthy. */
  predicate Truthy(s: Option<string>) {
    s.Some? && s.value != ""
  }

  /** `s.startsWith(prefix)`. */
  predicate StartsWith(s: string, prefix: string) {
    |prefix| <= |s| && s[..|prefix|] == prefix
  }

  /** The code points `String.prototype.trim` removes: the WhiteSpace and
      LineTerminator productions of ECMA-262 (sections 12.2 and 12.3), that is
      TAB, VT, FF, SP, NBSP, ZWNBSP, the other Unicode "Zs" spaces, LF, CR,
      LINE SEPARATOR and PARAGRAPH SEPARATOR. */
  predicate IsJsWhitespace(c: char) {
    || c == '\t' || c == '\n' || c == '\U{000B}' || c == '\U{000C}' || c == '\r'
    || c == ' ' || c == '\U{00A0}' || c == '\U{1680}'
    || ('\U{2000}' <= c <= '\U{200A}')
    || c == '\U{2028}' || c == '\U{2029}' || c == '\U{202F}' || c == '\U{205F}'
    || c == '\U{3000}' || c == '\U{FEFF}'
  }

  /** Every character of `s` is whitespace (true of the empty string). */
  predicate AllWhitespace(s: string) {
    forall i :: 0 <= i < |s| ==> IsJsWhitespace(s[i])
  }

  /** `s` with its leading whitespace removed. */
  function TrimStart(s: string): string {
    if s != "" && IsJsWhitespace(s[0]) then TrimStart(s[1..]) else s
  }

  /** `s` with its trailing whitespace removed. */
  function TrimEnd(s: string): string {
    if s != "" && IsJsWhitespace(s[|s| - 1]) then TrimEnd(s[..|s| - 1]) else s
  }

  /** `TrimStart` cuts a whitespace-only prefix and stops at the first
      other character. */
  lemma {:induction false} TrimStartSpec(s: string)
    ensures var r := TrimStart(s);
            && |r| <= |s| && r == s[|s| - |r|..]
            && (r != "" ==> !IsJsWhitespace(r[0]))
            && AllWhitespace(s[..|s| - |r|])
  {
    if s != "" && IsJsWhitespace(s[0]) {
      TrimStartSpec(s[1..]);
      var r := TrimStart(s[1..]);
      assert s[..|s| - |r|] == [s[0]] + s[1..][..|s| - 1 - |r|];
    }
  }

  /** `TrimEnd` cuts a whitespace-only suffix and stops at the last other
      character. */
  lemma {:induction false} TrimEndSpec(s: string)
    ensures var r := TrimEnd(s);
            && |r| <= |s| && r == s[..|r|]
            && (r != "" ==> !IsJsWhitespace(r[|r| - 1]))
            && AllWhitespace(s[|r|..])
  {
    if s != "" && IsJsWhitespace(s[|s| - 1]) {
      TrimEndSpec(s[..|s| - 1]);
      var r := TrimEnd(s[..|s| - 1]);
      assert s[|r|..] == s[..|s| - 1][|r|..] + [s[|s| - 1]];
    }
  }

  /** `s.trim()`. */
  function Trim(s: string): string {
    TrimEnd(TrimStart(s))
  }

  /** The trim of `s` is the slice of `s` left once whitespace is cut off on
      either side, and it neither starts nor ends with whitespace. */
  lemma TrimIsSlice(s: string)
    ensures exists a, b :: 0 <= a <= b <= |s| && Trim(s) == s[a..b]
                           && AllWhitespace(s[..a]) && AllWhitespace(s[b..])
    ensures Trim(s) != "" ==> !IsJsWhitespace(Trim(s)[0]) && !IsJsWhitespace(Trim(s)[|Trim(s)| - 1])
  {
    var t := TrimStart(s);
    var r := TrimEnd(t);
    TrimStartSpec(s);
    TrimEndSpec(t);
    assert r == s[|s| - |t|..][..|r|] == s[|s| - |t|..|s| - |t| + |r|];
    assert s[|s| - |t| + |r|..] == t[|r|..];
    if r != "" {
      assert r[0] == t[0];
    }
  }

  /** A string is blank — `!s.trim()` holds — exactly when every character
      of it is whitespace. */
  lemma {:induction false} TrimEmptyIff(s: string)
    ensures Trim(s) == "" <==> AllWhitespace(s)
  {
    TrimIsSlice(s);
    var a, b :| 0 <= a <= b <= |s| && Trim(s) == s[a..b]
                && AllWhitespace(s[..a]) && AllWhitespace(s[b..]);
    if Trim(s) == "" {
      assert a == b;
      forall i | 0 <= i < |s| ensures IsJsWhitespace(s[i]) {
        if i < a { assert s[..a][i] == s[i]; } else { assert s[b..][i - b] == s[i]; }
      }
    }
  }

  /** The index of the first `sep` in `s`, or `|s|` when there is none. */
  function IndexOf(s: string, sep: char): (i: nat)
    ensures i <= |s|
    ensures i < |s| ==> s[i] == sep
    ensures forall j :: 0 <= j < i ==> s[j] != sep
  {
    if s == "" then 0
    else if s[0] == sep then 0
    else 1 + IndexOf(s[1..], sep)
  }

  /** `s.split(sep)` for a one-character separator: the maximal
      separator-free segments between occurrences of `sep`, always at least
      one (`''.split('\n')` is `['']`). */
  function Split(s: string, sep: char): (parts: seq<string>)
    ensures |parts| >= 1
    ensures forall k :: 0 <= k < |parts| ==> sep !in parts[k]
    decreases |s|
  {
    var i := IndexOf(s, sep);
    if i == |s| then [s] else [s[..i]] + Split(s[i + 1..], sep)
  }

  /** `parts.join(sep)`. */
  function Join(parts: seq<string>, sep: char): string {
    if |parts| == 0 then ""
    else if |parts| == 1 then parts[0]
    else parts[0] + [sep] + Join(parts[1..], sep)
  }

  /** Joining the segments back with the separator gives the original text:
      `split` loses and invents nothing. */
  lemma {:induction false} JoinSplit(s: string, sep: char)
    ensures Join(Split(s, sep), sep) == s
    decreases |s|
  {
    var i := IndexOf(s, sep);
    if i < |s| {
      var rest := Split(s[i + 1..], sep);
      var parts := [s[..i]] + rest;
      assert Split(s, sep) == parts;
      assert parts[1..] == rest;
      assert Join(parts, sep) == s[..i] + [sep] + Join(rest, sep);
      JoinSplit(s[i + 1..], sep);
      assert s == s[..i] + [sep] + s[i + 1..];
    } else {
      assert Split(s, sep) == [s];
    }
  }

  /** The concatenation of `f(x)` for every `x` of `s`, in order. */
  function FlatMap<A, B>(s: seq<A>, f: A -> seq<B>): seq<B> {
    if s == [] then [] else f(s[0]) + FlatMap(s[1..], f)
  }

  /** `FlatMap` of a concatenation is the concatenation of the `FlatMap`s. */
  lemma {:induction false} FlatMapAppend<A, B>(a: seq<A>, b: seq<A>, f: A -> seq<B>)
    ensures FlatMap(a + b, f) == FlatMap(a, f) + FlatMap(b, f)
  {
    if a == [] {
      assert a + b == b;
    } else {
      assert (a + b)[1..] == a[1..] + b;
      FlatMapAppend(a[1..], b, f);
    }
  }

  /** Concatenation is associative (stated once, for any element type). */
  lemma AppendAssoc<T>(a: seq<T>, b: seq<T>, c: seq<T>)
    ensures a + b + c == a + (b + c)
  {
  }
}
