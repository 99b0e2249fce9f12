/**
 * The JavaScript string built-ins the sheet scripts rely on, as total functions over
 * `seq<char>`: `trim`, `includes`, `split` on one character, ASCII `toLowerCase`,
 * and decimal rendering of a natural number.
 */
module JsString {

  /** The ECMAScript WhiteSpace and LineTerminator code points: exactly what `trim` strips. */
  predicate IsJsWhitespace(c: char) {
    c == '\t' || c == '\n' || c == '\U{000B}' || c == '\U{000C}' || c == '\r' || c == ' ' ||
    c == '\U{00A0}' || c == '\U{1680}' || ('\U{2000}' <= c <= '\U{200A}') ||
    c == '\U{2028}' || c == '\U{2029}' || c == '\U{202F}' || c == '\U{205F}' ||
    c == '\U{3000}' || c == '\U{FEFF}'
  }

  function TrimStart(s: string): string
    decreases |s|
  {
    if s != [] && IsJsWhitespace(s[0]) then TrimStart(s[1..]) else s
  }

  function TrimEnd(s: string): string
    decreases |s|
  {
    if s != [] && IsJsWhitespace(s[|s| - 1]) then TrimEnd(s[..|s| - 1]) else s
  }

  /** `String.prototype.trim`. */
  function Trim(s: string): string {
    TrimEnd(TrimStart(s))
  }

  /** `TrimStart` drops a white-space prefix and stops at the first other character. */
  lemma {:induction false} TrimStartFacts(s: string)
    ensures var r := TrimStart(s);
      |r| <= |s| && r == s[|s| - |r|..] && (r == [] || !IsJsWhitespace(r[0])) &&
      forall i :: 0 <= i < |s| - |r| ==> IsJsWhitespace(s[i])
    decreases |s|
  {
    if s != [] && IsJsWhitespace(s[0]) {
      TrimStartFacts(s[1..]);
    }
  }

  /** `TrimEnd` drops a white-space suffix and stops at the last other character. */
  lemma {:induction false} TrimEndFacts(s: string)
    ensures var r := TrimEnd(s);
      |r| <= |s| && r == s[..|r|] && (r == [] || !IsJsWhitespace(r[|r| - 1])) &&
      forall i :: |r| <= i < |s| ==> IsJsWhitespace(s[i])
    decreases |s|
  {
    if s != [] && IsJsWhitespace(s[|s| - 1]) {
      TrimEndFacts(s[..|s| - 1]);
    }
  }

  /** Where the trimmed text begins in the input. */
  function TrimOffset(s: string): nat {
    TrimStartFacts(s);
    |s| - |TrimStart(s)|
  }

  /**
   * What `trim` keeps is one contiguous piece of the input with no white space at either
   * end, and everything it drops before and after that piece is white space.
   */
  lemma TrimShape(s: string)
    ensures var r, a := Trim(s), TrimOffset(s);
      a + |r| <= |s| && r == s[a..a + |r|] &&
      (r == [] || (!IsJsWhitespace(r[0]) && !IsJsWhitespace(r[|r| - 1]))) &&
      (forall i :: 0 <= i < a ==> IsJsWhitespace(s[i])) &&
      (forall i :: a + |r| <= i < |s| ==> IsJsWhitespace(s[i]))
  {
    var t := TrimStart(s);
    var r := TrimEnd(t);
    TrimStartFacts(s);
    TrimEndFacts(t);
    var a := |s| - |t|;
    assert r == s[a..a + |r|];
    if r != [] {
      assert r[0] == t[0];
    }
    forall i | a + |r| <= i < |s|
      ensures IsJsWhitespace(s[i])
    {
      assert s[i] == t[i - a];
    }
  }

  /** `trim` is idempotent: a trimmed string is its own trim. */
  lemma TrimIdempotent(s: string)
    ensures Trim(Trim(s)) == Trim(s)
  {
    var r := Trim(s);
    TrimShape(s);
    if r != [] {
      assert TrimStart(r) == r;
      assert TrimEnd(r) == r;
    } else {
      assert TrimStart(r) == r;
    }
  }

  /** A character absent from the input is absent from its trim. */
  lemma TrimKeepsOut(s: string, c: char)
    requires c !in s
    ensures c !in Trim(s)
  {
    TrimShape(s);
  }

  /** A string of white space only trims to the empty string. */
  lemma TrimAllWhitespace(s: string)
    requires forall i :: 0 <= i < |s| ==> IsJsWhitespace(s[i])
    ensures Trim(s) == ""
  {
    TrimStartFacts(s);
    assert TrimStart(s) == [];
  }

  /** `trim` yields the empty string exactly when every character of the input is white space. */
  lemma TrimEmptyIff(s: string)
    ensures Trim(s) == "" <==> forall i :: 0 <= i < |s| ==> IsJsWhitespace(s[i])
  {
    var t := TrimStart(s);
    TrimStartFacts(s);
    TrimEndFacts(t);
    if t != [] {
      assert !IsJsWhitespace(t[0]) && s[|s| - |t|] == t[0];
      assert TrimEnd(t) != [];
    }
  }

  predicate StartsWith(s: string, p: string) {
    |p| <= |s| && s[..|p|] == p
  }

  /** `t` occurs in `s` starting at index `i`. */
  ghost predicate OccursAt(s: string, t: string, i: int) {
    0 <= i && i + |t| <= |s| && s[i..i + |t|] == t
  }

  /** `String.prototype.includes`: a left-to-right search for an occurrence of `t`. */
  function Includes(s: string, t: string): (r: bool)
    ensures r <==> exists i :: OccursAt(s, t, i)
    decreases |s|
  {
    if StartsWith(s, t) then
      assert OccursAt(s, t, 0);
      true
    else if s == [] then
      assert forall i :: !OccursAt(s, t, i);
      false
    else
      var r := Includes(s[1..], t);
      forall i
        ensures OccursAt(s[1..], t, i) <==> OccursAt(s, t, i + 1)
      {
        if 0 <= i && i + 1 + |t| <= |s| {
          assert s[1..][i..i + |t|] == s[i + 1..i + 1 + |t|];
        }
      }
      assert forall i :: OccursAt(s, t, i) ==> i == 0 || OccursAt(s[1..], t, i - 1);
      r
  }

  /** Number of occurrences of `c` in `s`. */
  function CountChar(s: string, c: char): nat
    decreases |s|
  {
    if s == [] then 0
    else CountChar(s[..|s| - 1], c) + (if s[|s| - 1] == c then 1 else 0)
  }

  /** `s.split(sep)` for a one-character separator: the pieces between separators, in order. */
  function Split(s: string, sep: char): (parts: seq<string>)
    ensures |parts| >= 1
    decreases |s|
  {
    if s == [] then [""]
    else
      var parts := Split(s[..|s| - 1], sep);
      var c := s[|s| - 1];
      if c == sep then parts + [""]
      else parts[..|parts| - 1] + [parts[|parts| - 1] + [c]]
  }

  /** `xs.join(sep)`: the inverse of `Split`. */
  function Join(xs: seq<string>, sep: char): string
    requires |xs| >= 1
    decreases |xs|
  {
    if |xs| == 1 then xs[0] else Join(xs[..|xs| - 1], sep) + [sep] + xs[|xs| - 1]
  }

  /**
   * Splitting yields one piece more than there are separators, no piece holds the
   * separator, and joining the pieces back gives the input.
   */
  lemma {:induction false} SplitJoin(s: string, sep: char)
    ensures |Split(s, sep)| == CountChar(s, sep) + 1
    ensures forall k :: 0 <= k < |Split(s, sep)| ==> sep !in Split(s, sep)[k]
    ensures Join(Split(s, sep), sep) == s
    decreases |s|
  {
    if s != [] {
      var init := s[..|s| - 1];
      var c := s[|s| - 1];
      SplitJoin(init, sep);
      var parts := Split(init, sep);
      if c == sep {
        assert Split(s, sep) == parts + [""];
        assert (parts + [""])[..|parts|] == parts;
        assert s == init + [c];
      } else {
        var n := |parts|;
        var last := parts[n - 1] + [c];
        assert Split(s, sep) == parts[..n - 1] + [last];
        if n == 1 {
          assert s == init + [c];
        } else {
          assert (parts[..n - 1] + [last])[..n - 1] == parts[..n - 1];
          assert Join(parts, sep) == Join(parts[..n - 1], sep) + [sep] + parts[n - 1];
          assert s == init + [c];
        }
      }
    }
  }

  function LowerChar(c: char): char {
    if 'A' <= c <= 'Z' then (c as int + 32) as char else c
  }

  /** `toLowerCase`, restricted to the ASCII letters. */
  function LowerCase(s: string): (r: string)
    ensures |r| == |s|
    ensures forall i :: 0 <= i < |s| ==> r[i] == LowerChar(s[i])
  {
    seq(|s|, i requires 0 <= i < |s| => LowerChar(s[i]))
  }

  function DigitChar(d: nat): char
    requires d < 10
  {
    "0123456789"[d]
  }

  /** `String(n)` for a natural number: its decimal digits, with no leading zero. */
  function NatToString(n: nat): (r: string)
    ensures |r| >= 1
    ensures forall i :: 0 <= i < |r| ==> '0' <= r[i] <= '9'
    ensures r[0] == '0' ==> n == 0 && r == "0"
  {
    if n < 10 then [DigitChar(n)] else NatToString(n / 10) + [DigitChar(n % 10)]
  }

  /** The number a string of decimal digits denotes, most significant digit first. */
  function DecimalValue(s: string): nat
    requires forall i :: 0 <= i < |s| ==> '0' <= s[i] <= '9'
    decreases |s|
  {
    if s == [] then 0
    else 10 * DecimalValue(s[..|s| - 1]) + ((s[|s| - 1] as int) - ('0' as int))
  }

  /** Reading back the rendered digits gives the number: `String(n)` denotes `n`. */
  lemma {:induction false} NatToStringValue(n: nat)
    ensures DecimalValue(NatToString(n)) == n
    decreases n
  {
    var r := NatToString(n);
    if n >= 10 {
      NatToStringValue(n / 10);
      assert r[..|r| - 1] == NatToString(n / 10);
    }
  }

  /** Distinct numbers render as distinct strings. */
  lemma NatToStringInjective(m: nat, n: nat)
    requires NatToString(m) == NatToString(n)
    ensures m == n
  {
    NatToStringValue(m);
    NatToStringValue(n);
  }
}
