/** Kotlin's `String.trim()` on the JVM, as used by the create screen's validation. */
module Text {

  /**
   * Kotlin's `Char.isWhitespace()` on the JVM: `Character.isWhitespace` or
   * `Character.isSpaceChar` (the Unicode space, line and paragraph separators).
   */
  predicate IsWhitespace(c: char) {
    || ('\t' <= c <= '\r')
    || ('\U{1C}' <= c <= '\U{1F}')
    || c == ' '
    || c == '\U{A0}'
    || c == '\U{1680}'
    || ('\U{2000}' <= c <= '\U{200A}')
    || c == '\U{2028}'
    || c == '\U{2029}'
    || c == '\U{202F}'
    || c == '\U{205F}'
    || c == '\U{3000}'
  }

  /** Kotlin's `isBlank()`: every character is whitespace (true of the empty string). */
  predicate IsBlank(s: string) {
    forall i :: 0 <= i < |s| ==> IsWhitespace(s[i])
  }

  /** Length of the longest all-whitespace prefix. */
  function LeadingBlanks(s: string): (n: nat)
    ensures n <= |s|
  {
    if s != [] && IsWhitespace(s[0]) then 1 + LeadingBlanks(s[1..]) else 0
  }

  /** The prefix counted by `LeadingBlanks` is whitespace and cannot be extended. */
  lemma {:induction false} LeadingBlanksSpec(s: string)
    ensures forall k :: 0 <= k < LeadingBlanks(s) ==> IsWhitespace(s[k])
    ensures LeadingBlanks(s) < |s| ==> !IsWhitespace(s[LeadingBlanks(s)])
  {
    if s != [] && IsWhitespace(s[0]) {
      var rest := s[1..];
      LeadingBlanksSpec(rest);
      forall k | 1 <= k < LeadingBlanks(s) ensures IsWhitespace(s[k]) {
        assert s[k] == rest[k - 1];
      }
      if LeadingBlanks(s) < |s| {
        assert s[LeadingBlanks(s)] == rest[LeadingBlanks(rest)];
      }
    }
  }

  /** Length of the longest all-whitespace suffix. */
  function TrailingBlanks(s: string): (n: nat)
    ensures n <= |s|
  {
    if s != [] && IsWhitespace(s[|s| - 1]) then 1 + TrailingBlanks(s[..|s| - 1]) else 0
  }

  /** The suffix counted by `TrailingBlanks` is whitespace and cannot be extended. */
  lemma {:induction false} TrailingBlanksSpec(s: string)
    ensures forall k :: |s| - TrailingBlanks(s) <= k < |s| ==> IsWhitespace(s[k])
    ensures TrailingBlanks(s) < |s| ==> !IsWhitespace(s[|s| - 1 - TrailingBlanks(s)])
  {
    if s != [] && IsWhitespace(s[|s| - 1]) {
      var init := s[..|s| - 1];
      TrailingBlanksSpec(init);
      var m := TrailingBlanks(init);
      forall k | |s| - TrailingBlanks(s) <= k < |s| - 1 ensures IsWhitespace(s[k]) {
        assert s[k] == init[k];
      }
      if TrailingBlanks(s) < |s| {
        assert s[|s| - 2 - m] == init[|init| - 1 - m];
      }
    }
  }

  /**
   * `trim()`: the input with its leading and trailing whitespace removed. It
   * is empty exactly when the input is blank, and otherwise neither starts
   * nor ends with whitespace.
   */
  function Trim(s: string): (r: string)
    ensures r == [] <==> IsBlank(s)
    ensures r != [] ==> !IsWhitespace(r[0]) && !IsWhitespace(r[|r| - 1])
  {
    var i := LeadingBlanks(s);
    var t := TrailingBlanks(s[i..]);
    TrimBlankCases(s, i, t);
    s[i..|s| - t]
  }

  /**
   * `trim()` keeps a contiguous piece of the input: the slice that starts
   * right after the leading whitespace.
   */
  lemma TrimIsInnerSlice(s: string)
    ensures LeadingBlanks(s) + |Trim(s)| <= |s|
    ensures Trim(s) == s[LeadingBlanks(s)..LeadingBlanks(s) + |Trim(s)|]
  {
    var i := LeadingBlanks(s);
    var t := TrailingBlanks(s[i..]);
    TrimBlankCases(s, i, t);
    InnerSlice(s, i, t, Trim(s));
  }

  /** What `trim()` drops after the kept slice is whitespace only. */
  lemma TrimDropsOnlyWhitespace(s: string)
    ensures LeadingBlanks(s) + |Trim(s)| <= |s|
    ensures forall k :: LeadingBlanks(s) + |Trim(s)| <= k < |s| ==> IsWhitespace(s[k])
  {
    var i := LeadingBlanks(s);
    var t := TrailingBlanks(s[i..]);
    TrimBlankCases(s, i, t);
    InnerSlice(s, i, t, Trim(s));
  }

  lemma InnerSlice(s: string, i: nat, t: nat, r: string)
    requires i + t <= |s| && r == s[i..|s| - t]
    requires forall k :: |s| - t <= k < |s| ==> IsWhitespace(s[k])
    ensures i + |r| <= |s| && r == s[i..i + |r|]
    ensures forall k :: i + |r| <= k < |s| ==> IsWhitespace(s[k])
  {
  }

  lemma TrimBlankCases(s: string, i: nat, t: nat)
    requires i == LeadingBlanks(s) && t == TrailingBlanks(s[i..])
    ensures i + t <= |s|
    ensures forall k :: |s| - t <= k < |s| ==> IsWhitespace(s[k])
    ensures i + t == |s| <==> IsBlank(s)
    ensures i + t < |s| ==> !IsWhitespace(s[i]) && !IsWhitespace(s[|s| - t - 1])
  {
    LeadingBlanksSpec(s);
    TrailingOfRest(s, i, t);
    if i + t == |s| {
      AllBlank(s, i);
    } else {
      assert i < |s| && !IsWhitespace(s[i]);
    }
  }

  lemma TrailingOfRest(s: string, i: nat, t: nat)
    requires i <= |s| && t == TrailingBlanks(s[i..])
    ensures i + t <= |s|
    ensures forall k :: |s| - t <= k < |s| ==> IsWhitespace(s[k])
    ensures i + t < |s| ==> !IsWhitespace(s[|s| - t - 1])
  {
    var rest := s[i..];
    TrailingBlanksSpec(rest);
    forall k | |s| - t <= k < |s| ensures IsWhitespace(s[k]) {
      assert s[k] == rest[k - i];
    }
    if i + t < |s| {
      assert s[|s| - t - 1] == rest[|rest| - 1 - t];
    }
  }

  lemma AllBlank(s: string, i: nat)
    requires i <= |s|
    requires forall k :: 0 <= k < i ==> IsWhitespace(s[k])
    requires forall k :: i <= k < |s| ==> IsWhitespace(s[k])
    ensures IsBlank(s)
  {
  }

  /** Trimming a trimmed string changes nothing. */
  lemma TrimIdempotent(s: string)
    ensures Trim(Trim(s)) == Trim(s)
  {
    var r := Trim(s);
    if r != [] {
      assert LeadingBlanks(r) == 0;
      assert r[0..] == r;
      assert TrailingBlanks(r) == 0;
    }
  }
}
