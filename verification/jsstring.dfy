/**
 * The two JavaScript string operations the room-code input goes through:
 * `String.prototype.trim` and `String.prototype.toUpperCase`.
 */
module JsString {

  /** The WhiteSpace and LineTerminator code points of ECMAScript, which `trim` strips. */
  predicate IsTrimmable(c: char)
  {
    || c == '\t' || c == '\n' || c == '\U{000B}' || c == '\U{000C}' || c == '\r' || c == ' '
    || c == '\U{00A0}' || c == '\U{1680}' || ('\U{2000}' <= c <= '\U{200A}')
    || c == '\U{2028}' || c == '\U{2029}' || c == '\U{202F}' || c == '\U{205F}'
    || c == '\U{3000}' || c == '\U{FEFF}'
  }

  /** Drops the longest trimmable prefix. */
  function TrimStart(s: string): string
  {
    if |s| > 0 && IsTrimmable(s[0]) then TrimStart(s[1..]) else s
  }

  /** Drops the longest trimmable suffix. */
  function TrimEnd(s: string): string
  {
    if |s| > 0 && IsTrimmable(s[|s| - 1]) then TrimEnd(s[..|s| - 1]) else s
  }

  /** `s.trim()`. */
  function Trim(s: string): string
  {
    TrimEnd(TrimStart(s))
  }

  /** `TrimStart` keeps a suffix, drops only whitespace, and stops at the first non-whitespace character. */
  lemma {:induction false} TrimStartDropsLeadingRun(s: string)
    ensures |TrimStart(s)| <= |s| && TrimStart(s) == s[|s| - |TrimStart(s)|..]
    ensures forall i :: 0 <= i < |s| - |TrimStart(s)| ==> IsTrimmable(s[i])
    ensures |TrimStart(s)| > 0 ==> !IsTrimmable(TrimStart(s)[0])
  {
    if |s| > 0 && IsTrimmable(s[0]) {
      TrimStartDropsLeadingRun(s[1..]);
    }
  }

  /** `TrimEnd` keeps a prefix, drops only whitespace, and stops at the last non-whitespace character. */
  lemma {:induction false} TrimEndDropsTrailingRun(s: string)
    ensures |TrimEnd(s)| <= |s| && TrimEnd(s) == s[..|TrimEnd(s)|]
    ensures forall i :: |TrimEnd(s)| <= i < |s| ==> IsTrimmable(s[i])
    ensures |TrimEnd(s)| > 0 ==> !IsTrimmable(TrimEnd(s)[|TrimEnd(s)| - 1])
  {
    if |s| > 0 && IsTrimmable(s[|s| - 1]) {
      TrimEndDropsTrailingRun(s[..|s| - 1]);
    }
  }

  /**
   * `trim` keeps exactly the slice between the leading and the trailing
   * run of whitespace, and that slice neither starts nor ends with whitespace.
   */
  lemma TrimIsCoreSlice(s: string)
    ensures exists i, j ::
              && 0 <= i <= j <= |s| && Trim(s) == s[i..j]
              && (forall k :: 0 <= k < i ==> IsTrimmable(s[k]))
              && (forall k :: j <= k < |s| ==> IsTrimmable(s[k]))
    ensures Trim(s) == [] || (!IsTrimmable(Trim(s)[0]) && !IsTrimmable(Trim(s)[|Trim(s)| - 1]))
  {
    var t := TrimStart(s);
    TrimStartDropsLeadingRun(s);
    TrimEndDropsTrailingRun(t);
    var r := Trim(s);
    var i := |s| - |t|;
    var j := i + |r|;
    assert t == s[i..];
    assert r == t[..|r|];
    assert r == s[i..j];
    assert forall k :: j <= k < |s| ==> IsTrimmable(s[k]) by {
      forall k | j <= k < |s|
        ensures IsTrimmable(s[k])
      {
        assert s[k] == t[k - i];
      }
    }
    assert forall k :: 0 <= k < i ==> IsTrimmable(s[k]);
    if r != [] {
      assert r[0] == t[0];
    }
  }

  /** A string with no whitespace at either end is left alone by `trim`. */
  lemma TrimOfTrimmed(s: string)
    requires s == [] || (!IsTrimmable(s[0]) && !IsTrimmable(s[|s| - 1]))
    ensures Trim(s) == s
  {
  }

  /** Trimming twice is trimming once. */
  lemma TrimIdempotent(s: string)
    ensures Trim(Trim(s)) == Trim(s)
  {
    TrimIsCoreSlice(s);
    TrimOfTrimmed(Trim(s));
  }

  /**
   * The upper-case form of one character, as `toUpperCase` produces it for
   * ASCII letters and for the characters whose upper case lies entirely in
   * ASCII (dotless i, long s, sharp s and the Latin ligatures). Every other
   * character is kept as it is (see README).
   */
  function UpperCaseOf(c: char): (u: string)
    ensures IsAscii(c) ==> u == [AsciiUpper(c)]
    ensures forall i :: 0 <= i < |u| ==> !('a' <= u[i] <= 'z')
  {
    if 'a' <= c <= 'z' then [(c as int - 32) as char]
    else if c == '\U{0131}' then "I"
    else if c == '\U{017F}' then "S"
    else if c == '\U{00DF}' then "SS"
    else if c == '\U{FB00}' then "FF"
    else if c == '\U{FB01}' then "FI"
    else if c == '\U{FB02}' then "FL"
    else if c == '\U{FB03}' then "FFI"
    else if c == '\U{FB04}' then "FFL"
    else if c == '\U{FB05}' || c == '\U{FB06}' then "ST"
    else [c]
  }

  /** The ASCII case mapping: a-z to A-Z, everything else unchanged. */
  function AsciiUpper(c: char): char
  {
    if 'a' <= c <= 'z' then (c as int - 32) as char else c
  }

  predicate IsAscii(c: char)
  {
    c < '\U{0080}'
  }

  /** `s.toUpperCase()`. */
  function ToUpperCase(s: string): string
  {
    if s == [] then [] else UpperCaseOf(s[0]) + ToUpperCase(s[1..])
  }

  /** No letter a-z survives `toUpperCase`. */
  lemma {:induction false} ToUpperCaseLeavesNoLowercase(s: string)
    ensures forall i :: 0 <= i < |ToUpperCase(s)| ==> !('a' <= ToUpperCase(s)[i] <= 'z')
  {
    if s != [] {
      ToUpperCaseLeavesNoLowercase(s[1..]);
    }
  }

  /** Upper-casing distributes over concatenation. */
  lemma {:induction false} ToUpperCaseAppend(a: string, b: string)
    ensures ToUpperCase(a + b) == ToUpperCase(a) + ToUpperCase(b)
  {
    if a == [] {
      assert a + b == b;
    } else {
      assert (a + b)[1..] == a[1..] + b;
      ToUpperCaseAppend(a[1..], b);
    }
  }

  /** Where every character upper-cases to a single character, `toUpperCase` works position by position. */
  lemma {:induction false} ToUpperCasePointwise(s: string)
    requires forall i :: 0 <= i < |s| ==> |UpperCaseOf(s[i])| == 1
    ensures |ToUpperCase(s)| == |s|
    ensures forall i :: 0 <= i < |s| ==> ToUpperCase(s)[i] == UpperCaseOf(s[i])[0]
  {
    if s != [] {
      ToUpperCasePointwise(s[1..]);
      assert ToUpperCase(s) == UpperCaseOf(s[0]) + ToUpperCase(s[1..]);
    }
  }

  /** On ASCII input `toUpperCase` maps each letter a-z to A-Z and keeps every other character. */
  lemma ToUpperCaseAscii(s: string)
    requires forall i :: 0 <= i < |s| ==> IsAscii(s[i])
    ensures |ToUpperCase(s)| == |s|
    ensures forall i :: 0 <= i < |s| ==> ToUpperCase(s)[i] == AsciiUpper(s[i])
  {
    ToUpperCasePointwise(s);
  }
}
