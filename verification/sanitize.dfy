/**
 The message clean-up in `apiError`: every character outside
 `a-z`, `A-Z`, `0-9` and space is dropped (the regular expression
 `[^a-zA-Z0-9 ]+` replaced by nothing), then the rest is lower-cased. What
 survives the filter is ASCII, so lower-casing it is ASCII lower-casing.
 */
module Sanitize {
  import opened Decimal

  predicate IsUpper(c: char) { 'A' <= c <= 'Z' }
  predicate IsLower(c: char) { 'a' <= c <= 'z' }

  /** The characters the regular expression does not match. */
  predicate Kept(c: char) {
    IsUpper(c) || IsLower(c) || IsDigit(c) || c == ' '
  }

  /** The characters a sanitised message can hold. */
  predicate Clean(c: char) {
    IsLower(c) || IsDigit(c) || c == ' '
  }

  function Strip(s: string): (r: string)
    ensures |r| <= |s|
    ensures forall i :: 0 <= i < |r| ==> Kept(r[i])
  {
    if |s| == 0 then []
    else (if Kept(s[0]) then [s[0]] else []) + Strip(s[1..])
  }

  function LowerChar(c: char): (d: char)
    ensures IsUpper(c) ==> IsLower(d) && d as int == c as int + 32
    ensures !IsUpper(c) ==> d == c
  {
    if IsUpper(c) then (c as int + 32) as char else c
  }

  function Lower(s: string): (r: string)
    ensures |r| == |s|
    ensures forall i :: 0 <= i < |s| ==> r[i] == LowerChar(s[i])
  {
    seq(|s|, i requires 0 <= i < |s| => LowerChar(s[i]))
  }

  /** The message text `apiError` puts after the field name. */
  function Sanitized(msg: string): (r: string)
    ensures |r| <= |msg|
    ensures forall i :: 0 <= i < |r| ==> Clean(r[i])
  {
    Lower(Strip(msg))
  }

  /** Stripping is a character-by-character filter: it splits over concatenation. */
  lemma {:induction false} StripAppend(a: string, b: string)
    ensures Strip(a + b) == Strip(a) + Strip(b)
  {
    if |a| > 0 {
      assert (a + b)[1..] == a[1..] + b;
      StripAppend(a[1..], b);
    } else {
      assert a + b == b;
    }
  }

  /** A kept character survives and any other disappears; order is preserved. */
  lemma StripOne(c: char)
    ensures Strip([c]) == (if Kept(c) then [c] else [])
  {
  }

  /** A string holding only kept characters passes unchanged. */
  lemma {:induction false} StripKeepsKept(s: string)
    requires forall i :: 0 <= i < |s| ==> Kept(s[i])
    ensures Strip(s) == s
  {
    if |s| > 0 {
      StripKeepsKept(s[1..]);
    }
  }

  /** Stripping twice is stripping once. */
  lemma StripIdempotent(s: string)
    ensures Strip(Strip(s)) == Strip(s)
  {
    StripKeepsKept(Strip(s));
  }

  /** A string with no upper-case letter is its own lower-case form. */
  lemma LowerNoUpper(s: string)
    requires forall i :: 0 <= i < |s| ==> !IsUpper(s[i])
    ensures Lower(s) == s
  {
  }

  /** A message of lower-case letters, digits and spaces is already sanitised. */
  lemma SanitizedOfClean(s: string)
    requires forall i :: 0 <= i < |s| ==> Clean(s[i])
    ensures Sanitized(s) == s
  {
    StripKeepsKept(s);
    LowerNoUpper(s);
  }

  /** A string of dropped characters strips to nothing. */
  lemma {:induction false} StripNoneKept(p: string)
    requires forall i :: 0 <= i < |p| ==> !Kept(p[i])
    ensures Strip(p) == []
  {
    if |p| > 0 {
      StripNoneKept(p[1..]);
    }
  }

  /** Clean words followed by punctuation sanitise to the words alone. */
  lemma SanitizedDropsPunctuation(w: string, p: string)
    requires forall i :: 0 <= i < |w| ==> Clean(w[i])
    requires forall i :: 0 <= i < |p| ==> !Kept(p[i])
    ensures Sanitized(w + p) == w
  {
    StripAppend(w, p);
    StripKeepsKept(w);
    StripNoneKept(p);
    assert Strip(w + p) == w;
    SanitizedOfClean(w);
  }

  /** Sanitising a sanitised message changes nothing. */
  lemma SanitizedIdempotent(msg: string)
    ensures Sanitized(Sanitized(msg)) == Sanitized(msg)
  {
    var r := Sanitized(msg);
    StripKeepsKept(r);
    LowerNoUpper(r);
  }
}
