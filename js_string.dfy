/**
 * The two JavaScript string built-ins the symbol normaliser relies on:
 * `String.prototype.toUpperCase` (modelled for ASCII letters only) and
 * `String.prototype.trim`, which strips ECMAScript white space and line
 * terminators from both ends.
 */
module JsString {

  /** ECMAScript WhiteSpace and LineTerminator code points, the ones `trim` removes. */
  predicate IsSpace(c: char) {
    c == ' ' || c == '\t' || c == '\n' || c == '\r' || c == '\U{000B}' || c == '\U{000C}'
    || c == '\U{00A0}' || c == '\U{1680}' || ('\U{2000}' <= c <= '\U{200A}')
    || c == '\U{2028}' || c == '\U{2029}' || c == '\U{202F}' || c == '\U{205F}'
    || c == '\U{3000}' || c == '\U{FEFF}'
  }

  predicate IsLower(c: char) {
    'a' <= c <= 'z'
  }

  /** Case mapping of one character: ASCII lower-case letters move up by 32 code points. */
  function UpperChar(c: char): (u: char)
    ensures !IsLower(u)
    ensures IsLower(c) ==> u as int == c as int - ('a' as int - 'A' as int)
    ensures !IsLower(c) ==> u == c
  {
    if IsLower(c) then (c as int - ('a' as int - 'A' as int)) as char else c
  }

  ghost predicate IsUpperCased(s: string) {
    forall i :: 0 <= i < |s| ==> !IsLower(s[i])
  }

  ghost predicate IsTrimmed(s: string) {
    s == [] || (!IsSpace(s[0]) && !IsSpace(s[|s| - 1]))
  }

  /** `s.toUpperCase()`: the same length, every character case-mapped in place. */
  function ToUpperCase(s: string): (r: string)
    ensures |r| == |s|
    ensures forall i :: 0 <= i < |s| ==> r[i] == UpperChar(s[i])
    ensures IsUpperCased(r)
  {
    seq(|s|, i requires 0 <= i < |s| => UpperChar(s[i]))
  }

  /** Dropping leading white space leaves a suffix that is empty or starts with a non-space. */
  function TrimStart(s: string): (r: string)
    ensures |r| <= |s| && r == s[|s| - |r|..]
    ensures r == [] || !IsSpace(r[0])
  {
    if s != [] && IsSpace(s[0]) then TrimStart(s[1..]) else s
  }

  /** Dropping trailing white space leaves a prefix that is empty or ends with a non-space. */
  function TrimEnd(s: string): (r: string)
    ensures |r| <= |s| && r == s[..|r|]
    ensures r == [] || !IsSpace(r[|r| - 1])
  {
    if s != [] && IsSpace(s[|s| - 1]) then TrimEnd(s[..|s| - 1]) else s
  }

  /**
   * `s.trim()`: what is left of `s` after removing the white space at both
   * ends, a prefix of the suffix `TrimStart(s)`; it neither starts nor ends
   * with white space.
   */
  function Trim(s: string): (r: string)
    ensures IsTrimmed(r)
    ensures |r| <= |TrimStart(s)| && r == TrimStart(s)[..|r|]
  {
    var t := TrimStart(s);
    var r := TrimEnd(t);
    assert r != [] ==> r[0] == t[0];
    r
  }

  /** Only white space is dropped at the start. */
  lemma {:induction false} TrimStartDropsSpace(s: string)
    ensures forall i :: 0 <= i < |s| - |TrimStart(s)| ==> IsSpace(s[i])
  {
    if s != [] && IsSpace(s[0]) {
      TrimStartDropsSpace(s[1..]);
      forall i | 1 <= i < |s| - |TrimStart(s)|
        ensures IsSpace(s[i])
      {
        assert s[i] == s[1..][i - 1];
      }
    }
  }

  /** Only white space is dropped at the end. */
  lemma {:induction false} TrimEndDropsSpace(s: string)
    ensures forall i :: |TrimEnd(s)| <= i < |s| ==> IsSpace(s[i])
  {
    if s != [] && IsSpace(s[|s| - 1]) {
      TrimEndDropsSpace(s[..|s| - 1]);
      forall i | |TrimEnd(s)| <= i < |s| - 1
        ensures IsSpace(s[i])
      {
        assert s[i] == s[..|s| - 1][i];
      }
    }
  }

  /** What `trim` drops on either side is white space only. */
  lemma TrimDropsSpace(s: string)
    ensures var i := |s| - |TrimStart(s)|;
      (forall k :: 0 <= k < i ==> IsSpace(s[k]))
      && (forall k :: i + |Trim(s)| <= k < |s| ==> IsSpace(s[k]))
  {
    var t := TrimStart(s);
    var r := TrimEnd(t);
    assert Trim(s) == r;
    TrimStartDropsSpace(s);
    TrimEndDropsSpace(t);
    forall k | |s| - |t| + |r| <= k < |s|
      ensures IsSpace(s[k])
    {
      var j := k - (|s| - |t|);
      assert |r| <= j < |t| && s[k] == t[j];
    }
  }

  /** Upper-casing a string that has no lower-case letter changes nothing. */
  lemma UpperCasedFixed(s: string)
    requires IsUpperCased(s)
    ensures ToUpperCase(s) == s
  {
  }

  /** Trimming a string without white space at its ends changes nothing. */
  lemma TrimmedFixed(s: string)
    requires IsTrimmed(s)
    ensures Trim(s) == s
  {
  }

  /** Trim keeps only characters of its input, so it keeps a string upper-cased. */
  lemma TrimKeepsUpperCased(s: string)
    requires IsUpperCased(s)
    ensures IsUpperCased(Trim(s))
  {
  }

  /** Case mapping never turns a character into white space or white space into something else. */
  lemma UpperCharKeepsSpace(c: char)
    ensures IsSpace(UpperChar(c)) <==> IsSpace(c)
  {
  }

  /** Upper-casing commutes with dropping leading white space. */
  lemma {:induction false} TrimStartUpperCase(s: string)
    ensures TrimStart(ToUpperCase(s)) == ToUpperCase(TrimStart(s))
  {
    if s != [] {
      UpperCharKeepsSpace(s[0]);
      assert ToUpperCase(s)[1..] == ToUpperCase(s[1..]);
      if IsSpace(s[0]) {
        TrimStartUpperCase(s[1..]);
      }
    }
  }

  /** Upper-casing commutes with dropping trailing white space. */
  lemma {:induction false} TrimEndUpperCase(s: string)
    ensures TrimEnd(ToUpperCase(s)) == ToUpperCase(TrimEnd(s))
  {
    if s != [] {
      UpperCharKeepsSpace(s[|s| - 1]);
      assert ToUpperCase(s)[..|s| - 1] == ToUpperCase(s[..|s| - 1]);
      if IsSpace(s[|s| - 1]) {
        TrimEndUpperCase(s[..|s| - 1]);
      }
    }
  }

  /** Trimming and upper-casing can be done in either order: `s.toUpperCase().trim() == s.trim().toUpperCase()`. */
  lemma TrimUpperCaseCommute(s: string)
    ensures Trim(ToUpperCase(s)) == ToUpperCase(Trim(s))
  {
    TrimStartUpperCase(s);
    TrimEndUpperCase(TrimStart(s));
  }
}
