/**
 * The string operations of the chat page that are not plain concatenation:
 * `String.prototype.trim`, `toLowerCase` and `split(sep).pop()`.
 */
module Text {

  /** WhiteSpace and LineTerminator code points, the characters `trim` removes. */
  predicate IsWhitespace(c: char) {
    c == ' ' || c == '\t' || c == '\n' || c == '\r' || c == '\U{000B}' || c == '\U{000C}'
    || c == '\U{00A0}' || c == '\U{FEFF}' || c == '\U{1680}'
    || ('\U{2000}' <= c && c <= '\U{200A}')
    || c == '\U{2028}' || c == '\U{2029}' || c == '\U{202F}' || c == '\U{205F}' || c == '\U{3000}'
  }

  predicate AllWhitespace(s: string) {
    forall i :: 0 <= i < |s| ==> IsWhitespace(s[i])
  }

  /** The number of whitespace characters `s` starts with. */
  function LeadingSpace(s: string): (n: nat)
    ensures n <= |s|
    ensures forall i :: 0 <= i < n ==> IsWhitespace(s[i])
    ensures n < |s| ==> !IsWhitespace(s[n])
  {
    if s == [] || !IsWhitespace(s[0]) then 0 else 1 + LeadingSpace(s[1..])
  }

  /** The number of whitespace characters `s` ends with. */
  function TrailingSpace(s: string): (n: nat)
    ensures n <= |s|
    ensures forall i :: |s| - n <= i < |s| ==> IsWhitespace(s[i])
    ensures n < |s| ==> !IsWhitespace(s[|s| - n - 1])
  {
    if s == [] || !IsWhitespace(s[|s| - 1]) then 0 else 1 + TrailingSpace(s[..|s| - 1])
  }

  /**
   * `s.trim()`: the part of `s` between its leading and its trailing
   * whitespace. It is empty exactly when `s` is all whitespace, and
   * otherwise neither starts nor ends with whitespace.
   */
  function Trim(s: string): (r: string)
    ensures |r| <= |s|
    ensures r == [] <==> AllWhitespace(s)
    ensures r != [] ==> !IsWhitespace(r[0]) && !IsWhitespace(r[|r| - 1])
  {
    var a := LeadingSpace(s);
    var b := TrailingSpace(s[a..]);
    TrimEnds(s, a, s[a..], b);
    s[a..|s| - b]
  }

  lemma TrimEnds(s: string, a: nat, t: string, b: nat)
    requires a == LeadingSpace(s) && t == s[a..] && b == TrailingSpace(t)
    ensures var r := s[a..|s| - b];
      (r == [] <==> AllWhitespace(s))
      && (r != [] ==> !IsWhitespace(r[0]) && !IsWhitespace(r[|r| - 1]))
  {
    if a < |s| {
      assert s[a] == t[0];
      assert b < |t|;
      assert s[|s| - b - 1] == t[|t| - b - 1];
    }
  }

  /** What `Trim` removes is whitespace, on both sides of an infix of `s`. */
  lemma TrimIsInfix(s: string)
    ensures var r, a := Trim(s), LeadingSpace(s);
      a + |r| <= |s| && r == s[a..a + |r|]
      && (forall i :: 0 <= i < a ==> IsWhitespace(s[i]))
      && (forall i :: a + |r| <= i < |s| ==> IsWhitespace(s[i]))
  {
    var a := LeadingSpace(s);
    var b := TrailingSpace(s[a..]);
    forall i | |s| - b <= i < |s| ensures IsWhitespace(s[i]) {
      assert s[a..][i - a] == s[i];
    }
  }

  lemma TrimIdempotent(s: string)
    ensures Trim(Trim(s)) == Trim(s)
  {
    var r := Trim(s);
    assert r != [] ==> LeadingSpace(r) == 0 && r[0..] == r && TrailingSpace(r) == 0;
  }

  /** ASCII case mapping; every other character is left as it is. */
  function LowerChar(c: char): char {
    if 'A' <= c <= 'Z' then (c as int + 32) as char else c
  }

  /** `s.toLowerCase()` restricted to the ASCII letters. */
  function ToLower(s: string): (r: string)
    ensures |r| == |s|
    ensures forall i :: 0 <= i < |s| ==> r[i] == LowerChar(s[i])
  {
    if s == [] then [] else [LowerChar(s[0])] + ToLower(s[1..])
  }

  lemma {:induction false} ToLowerIdempotent(s: string)
    ensures ToLower(ToLower(s)) == ToLower(s)
  {
    var l := ToLower(s);
    assert forall i :: 0 <= i < |s| ==> ToLower(l)[i] == LowerChar(LowerChar(s[i])) == l[i];
  }

  lemma ToLowerAppend(a: string, b: string)
    ensures ToLower(a + b) == ToLower(a) + ToLower(b)
  {
    assert forall i :: 0 <= i < |a + b| ==> ToLower(a + b)[i] == (ToLower(a) + ToLower(b))[i];
  }

  /** `s.split(sep)`: the pieces between the occurrences of `sep`, at least one. */
  function Split(s: string, sep: char): (parts: seq<string>)
    ensures |parts| >= 1
    ensures forall k :: 0 <= k < |parts| ==> sep !in parts[k]
    ensures sep in s <==> |parts| > 1
  {
    if s == [] then [[]]
    else
      var rest := Split(s[1..], sep);
      if s[0] == sep then [[]] + rest else [[s[0]] + rest[0]] + rest[1..]
  }

  /** `parts.join(sep)`, the inverse of `Split`. */
  function Join(parts: seq<string>, sep: char): string
    requires |parts| >= 1
  {
    if |parts| == 1 then parts[0] else parts[0] + [sep] + Join(parts[1..], sep)
  }

  lemma {:induction false} JoinSplit(s: string, sep: char)
    ensures Join(Split(s, sep), sep) == s
  {
    if s != [] {
      JoinSplit(s[1..], sep);
      var rest := Split(s[1..], sep);
      if s[0] == sep {
        assert Split(s, sep)[1..] == rest;
      } else {
        var parts := Split(s, sep);
        if |rest| == 1 {
          assert parts == [[s[0]] + rest[0]];
        } else {
          assert parts[1..] == rest[1..];
          assert Join(rest, sep) == rest[0] + [sep] + Join(rest[1..], sep);
        }
      }
    }
  }

  lemma {:induction false} SplitJoin(parts: seq<string>, sep: char)
    requires |parts| >= 1
    requires forall k :: 0 <= k < |parts| ==> sep !in parts[k]
    ensures Split(Join(parts, sep), sep) == parts
    decreases |parts|, |parts[0]|
  {
    var s := Join(parts, sep);
    if parts[0] == [] {
      if |parts| > 1 {
        assert s == [sep] + Join(parts[1..], sep);
        assert s[1..] == Join(parts[1..], sep);
        SplitJoin(parts[1..], sep);
        assert Split(s, sep) == [[]] + parts[1..];
      }
    } else {
      var tail := [parts[0][1..]] + parts[1..];
      JoinFirstChar(parts, sep);
      assert forall k :: 0 <= k < |tail| ==> sep !in tail[k] by {
        assert forall k :: 1 <= k < |tail| ==> tail[k] == parts[k];
      }
      SplitJoin(tail, sep);
      assert tail[1..] == parts[1..];
      assert [s[0]] + parts[0][1..] == parts[0];
    }
  }

  /** Joining pieces whose first is non-empty starts with that piece's first character. */
  lemma JoinFirstChar(parts: seq<string>, sep: char)
    requires |parts| >= 1 && parts[0] != []
    ensures var s := Join(parts, sep);
      s != [] && s[0] == parts[0][0] && s[1..] == Join([parts[0][1..]] + parts[1..], sep)
  {
    var tail := [parts[0][1..]] + parts[1..];
    assert tail[1..] == parts[1..];
    if |parts| > 1 {
      assert Join(parts, sep) == parts[0] + [sep] + Join(parts[1..], sep);
      assert Join(tail, sep) == parts[0][1..] + [sep] + Join(parts[1..], sep);
    }
  }

  /** `s.split('.').pop()`: the text after the last dot, or all of `s` when it has none. */
  function Extension(s: string): string {
    var parts := Split(s, '.');
    parts[|parts| - 1]
  }

  /** `e` is the dot-free suffix of `s` after its last dot, or all of `s` when it has no dot. */
  predicate IsLastDotSuffix(s: string, e: string) {
    |e| <= |s| && e == s[|s| - |e|..] && '.' !in e
    && ('.' in s <==> |e| < |s|)
    && (|e| < |s| ==> s[|s| - |e| - 1] == '.')
  }

  /**
   * The extension is a dot-free suffix of the name; it is the whole name
   * when the name has no dot, and otherwise the character before it is a dot.
   */
  lemma {:induction false} ExtensionIsLastDotSuffix(s: string)
    ensures IsLastDotSuffix(s, Extension(s))
  {
    if s != [] {
      var t := s[1..];
      ExtensionIsLastDotSuffix(t);
      ExtensionStep(s);
      if s[0] == '.' || '.' in t {
        LastDotSuffixShift(s, Extension(t));
      } else {
        LastDotSuffixNoDot(s, Extension(t));
      }
    }
  }

  /** How the last piece of `s` relates to the last piece of `s[1..]`. */
  lemma ExtensionStep(s: string)
    requires s != []
    ensures Extension(s)
      == if s[0] == '.' || '.' in s[1..] then Extension(s[1..]) else [s[0]] + Extension(s[1..])
  {
  }

  lemma LastDotSuffixShift(s: string, e: string)
    requires s != [] && IsLastDotSuffix(s[1..], e)
    requires s[0] == '.' || '.' in s[1..]
    ensures IsLastDotSuffix(s, e)
  {
    var t := s[1..];
    assert s == [s[0]] + t;
    assert s[|s| - |e|..] == t[|t| - |e|..];
    if |e| < |t| {
      assert s[|s| - |e| - 1] == t[|t| - |e| - 1];
    }
  }

  lemma LastDotSuffixNoDot(s: string, e: string)
    requires s != [] && IsLastDotSuffix(s[1..], e)
    requires s[0] != '.' && '.' !in s[1..]
    ensures IsLastDotSuffix(s, [s[0]] + e)
  {
    var t := s[1..];
    assert e == t;
    assert s == [s[0]] + t;
  }

  /** `ToLower` applied to every piece. */
  function LowerAll(parts: seq<string>): (r: seq<string>)
    ensures |r| == |parts|
  {
    if parts == [] then [] else [ToLower(parts[0])] + LowerAll(parts[1..])
  }

  lemma {:induction false} LowerAllLast(parts: seq<string>)
    requires parts != []
    ensures LowerAll(parts)[|parts| - 1] == ToLower(parts[|parts| - 1])
  {
    if |parts| > 1 {
      LowerAllLast(parts[1..]);
    }
  }

  lemma {:induction false} SplitToLower(s: string)
    ensures Split(ToLower(s), '.') == LowerAll(Split(s, '.'))
  {
    if s != [] {
      var t := s[1..];
      SplitToLower(t);
      assert ToLower(s) == [LowerChar(s[0])] + ToLower(t);
      assert ToLower(s)[1..] == ToLower(t);
      var rest := Split(t, '.');
      if s[0] == '.' {
        assert LowerChar(s[0]) == '.';
        assert LowerAll(Split(s, '.')) == [ToLower([])] + LowerAll(rest);
      } else {
        assert LowerChar(s[0]) != '.';
        ToLowerAppend([s[0]], rest[0]);
        var p := Split(s, '.');
        assert p == [[s[0]] + rest[0]] + rest[1..];
        assert LowerAll(p) == [ToLower([s[0]] + rest[0])] + LowerAll(rest[1..]);
        assert LowerAll(rest) == [ToLower(rest[0])] + LowerAll(rest[1..]);
      }
    }
  }

  /** Lower-casing commutes with taking the extension, since it never creates or removes a dot. */
  lemma ExtensionToLower(s: string)
    ensures Extension(ToLower(s)) == ToLower(Extension(s))
  {
    SplitToLower(s);
    LowerAllLast(Split(s, '.'));
  }
}
