/**
 * The reflection-text check of the completion activity: JavaScript's
 * `String.prototype.trim`, the UTF-16 `length` of a string, the rule that a
 * reflection needs at least 12 code units once trimmed, and the rule that
 * enables the submit button (src/components/Universe.jsx).
 */
module Reflection {

  /** The minimum engagement signal, in UTF-16 code units of the trimmed text. */
  const MinReflectionLength: nat := 12

  /** The characters `trim` removes: ECMAScript WhiteSpace (tab, vertical tab,
      form feed, space, no-break space, byte-order mark and the other Unicode
      space separators) and LineTerminator (LF, CR, LS, PS). */
  predicate IsWhitespace(c: char)
    ensures IsWhitespace(c) ==> c as int <= 0xFFFF
    ensures c as int < 0x80 ==> (IsWhitespace(c) <==> c in "\t\n\U{B}\U{C}\r ")
  {
    || c == '\t' || c == '\U{B}' || c == '\U{C}' || c == ' ' || c == '\U{A0}' || c == '\U{FEFF}'
    || c == '\U{1680}' || ('\U{2000}' <= c <= '\U{200A}') || c == '\U{202F}' || c == '\U{205F}' || c == '\U{3000}'
    || c == '\n' || c == '\r' || c == '\U{2028}' || c == '\U{2029}'
  }

  /** Drops the leading whitespace of `s`: what is left is a suffix of `s`
      that does not start with whitespace, and all that was dropped is
      whitespace. */
  function TrimStart(s: string): (r: string)
    ensures |r| <= |s| && r == s[|s| - |r|..]
    ensures forall k :: 0 <= k < |s| - |r| ==> IsWhitespace(s[k])
    ensures r == [] || !IsWhitespace(r[0])
  {
    if s != [] && IsWhitespace(s[0]) then TrimStart(s[1..]) else s
  }

  /** Drops the trailing whitespace of `s`, symmetrically. */
  function TrimEnd(s: string): (r: string)
    ensures |r| <= |s| && r == s[..|r|]
    ensures forall k :: |r| <= k < |s| ==> IsWhitespace(s[k])
    ensures r == [] || !IsWhitespace(r[|r| - 1])
  {
    if s != [] && IsWhitespace(s[|s| - 1]) then TrimEnd(s[..|s| - 1]) else s
  }

  /** `s.trim()`: the contiguous part of `s` left after removing whitespace at
      both ends; it neither starts nor ends with whitespace, and everything
      removed is whitespace. */
  function Trim(s: string): (r: string)
    ensures var lead := |s| - |TrimStart(s)|;
              && lead + |r| <= |s|
              && r == s[lead..lead + |r|]
              && (forall k :: 0 <= k < lead ==> IsWhitespace(s[k]))
              && (forall k :: lead + |r| <= k < |s| ==> IsWhitespace(s[k]))
    ensures r == [] || (!IsWhitespace(r[0]) && !IsWhitespace(r[|r| - 1]))
  {
    TrimEnd(TrimStart(s))
  }

  /** Trimming removes everything exactly when the text is whitespace only. */
  lemma TrimEmptyIffWhitespace(s: string)
    ensures Trim(s) == [] <==> forall k :: 0 <= k < |s| ==> IsWhitespace(s[k])
  {
    var t := TrimStart(s);
    assert t != [] ==> t[0] == s[|s| - |t|];
  }

  /** A text that neither starts nor ends with whitespace is its own trim. */
  lemma TrimOfUntrimmed(s: string)
    requires s != [] && !IsWhitespace(s[0]) && !IsWhitespace(s[|s| - 1])
    ensures Trim(s) == s
  {
    assert TrimStart(s) == s;
  }

  /** Trimming twice is trimming once. */
  lemma TrimIdempotent(s: string)
    ensures Trim(Trim(s)) == Trim(s)
  {
    var t := Trim(s);
    if t != [] {
      assert TrimStart(t) == t;
      assert TrimEnd(t) == t;
    }
  }

  /** `s.length`: the number of UTF-16 code units, where a character outside
      the Basic Multilingual Plane takes a surrogate pair. */
  function Utf16Length(s: string): (n: nat)
    ensures |s| <= n <= 2 * |s|
    ensures |s| == 1 ==> n == if s[0] as int > 0xFFFF then 2 else 1
    ensures (forall k :: 0 <= k < |s| ==> s[k] as int <= 0xFFFF) ==> n == |s|
    ensures (forall k :: 0 <= k < |s| ==> s[k] as int > 0xFFFF) ==> n == 2 * |s|
  {
    if s == [] then 0 else (if s[0] as int > 0xFFFF then 2 else 1) + Utf16Length(s[1..])
  }

  /** The code units of a concatenation are those of its parts; with the
      one-character case above this fixes the count of every string. */
  lemma {:induction false} Utf16LengthAppend(a: string, b: string)
    ensures Utf16Length(a + b) == Utf16Length(a) + Utf16Length(b)
  {
    if a != [] {
      assert (a + b)[0] == a[0];
      assert (a + b)[1..] == a[1..] + b;
      Utf16LengthAppend(a[1..], b);
    } else {
      assert a + b == b;
    }
  }

  /** The guard of `handleComplete`: the draft is non-empty and its trimmed
      text has at least 12 code units. The emptiness test adds nothing, since
      an empty draft trims to nothing; at least six characters must survive
      trimming. */
  predicate IsValidReflection(text: string)
    ensures IsValidReflection(text) <==> Utf16Length(Trim(text)) >= MinReflectionLength
    ensures IsValidReflection(text) ==> |Trim(text)| >= MinReflectionLength / 2
  {
    !(text == "" || Utf16Length(Trim(text)) < MinReflectionLength)
  }

  /** The `disabled` expression of the submit button, negated: the button is
      enabled exactly when no submit is in flight and `handleComplete` would
      accept the draft. */
  predicate SubmitEnabled(loading: bool, text: string)
    ensures SubmitEnabled(loading, text) <==> !loading && IsValidReflection(text)
  {
    !(loading || Utf16Length(Trim(text)) < MinReflectionLength)
  }

  /** The button is enabled exactly when no submit is in flight and
      `handleComplete` would accept the draft. */
  lemma SubmitEnabledIffValid(loading: bool, text: string)
    ensures SubmitEnabled(loading, text) <==> !loading && IsValidReflection(text)
  {
    if text == "" {
      assert Trim(text) == [];
    }
  }

  /** A whitespace-only draft, of any length, is rejected. */
  lemma WhitespaceOnlyRejected(text: string)
    requires forall k :: 0 <= k < |text| ==> IsWhitespace(text[k])
    ensures !IsValidReflection(text)
  {
    TrimEmptyIffWhitespace(text);
  }

  /** Six characters outside the Basic Multilingual Plane (six emoji, say)
      are twelve code units, so a draft of them alone is accepted. */
  lemma AstralReflectionAccepted(text: string)
    requires |text| == 6
    requires forall k :: 0 <= k < |text| ==> text[k] as int > 0xFFFF
    ensures IsValidReflection(text)
  {
    TrimOfUntrimmed(text);
  }

  /** A draft whose trimmed text has at least 12 characters is accepted; when
      that text lies in the Basic Multilingual Plane, a draft is accepted
      exactly when its trimmed text has at least 12 characters. */
  lemma ValidityByTrimmedLength(text: string)
    ensures |Trim(text)| >= MinReflectionLength ==> IsValidReflection(text)
    ensures (forall k :: 0 <= k < |Trim(text)| ==> Trim(text)[k] as int <= 0xFFFF) ==>
              (IsValidReflection(text) <==> |Trim(text)| >= MinReflectionLength)
  {
    if text == "" {
      assert Trim(text) == [];
    }
  }
}
