/**
 * The two string operations of Python that the bot's decisions rest on:
 * `str.strip()` (applied to every transcription) and the substring test
 * `needle in haystack` (applied to the post-submit URL and page text).
 */
module Text {

  /** Python's `str.isspace` for a single character: the Unicode whitespace set. */
  predicate IsSpace(c: char) {
    || c == ' ' || c == '\t' || c == '\n' || c == '\r' || c == '\U{B}' || c == '\U{C}'
    || ('\U{1C}' <= c <= '\U{1F}')
    || c == '\U{85}' || c == '\U{A0}' || c == '\U{1680}'
    || ('\U{2000}' <= c <= '\U{200A}')
    || c == '\U{2028}' || c == '\U{2029}' || c == '\U{202F}' || c == '\U{205F}' || c == '\U{3000}'
  }

  ghost predicate AllSpace(s: string) {
    forall k :: 0 <= k < |s| ==> IsSpace(s[k])
  }

  /**
   * `r` is what remains of `s` once the whitespace run `s[..i]` in front and
   * the whitespace run after `s[i + |r|..]` are cut off.
   */
  ghost predicate TrimmedAt(s: string, r: string, i: int) {
    0 <= i <= i + |r| <= |s| && s[i..i + |r|] == r && AllSpace(s[..i]) && AllSpace(s[i + |r|..])
  }

  /** Putting a whitespace character back in front keeps `r` a trimmed slice. */
  lemma TrimmedAfterLeadingSpace(s: string, r: string)
    requires s != [] && IsSpace(s[0])
    requires exists i :: TrimmedAt(s[1..], r, i)
    ensures exists i :: TrimmedAt(s, r, i)
  {
    var i :| TrimmedAt(s[1..], r, i);
    assert s[i + 1..i + 1 + |r|] == s[1..][i..i + |r|];
    assert s[..i + 1] == [s[0]] + s[1..][..i];
    assert s[i + 1 + |r|..] == s[1..][i + |r|..];
    assert TrimmedAt(s, r, i + 1);
  }

  /** Putting a whitespace character back at the end keeps `r` a trimmed slice. */
  lemma TrimmedBeforeTrailingSpace(s: string, t: string, r: string)
    requires s != [] && IsSpace(s[|s| - 1]) && t == s[..|s| - 1]
    requires exists i :: TrimmedAt(t, r, i)
    ensures exists i :: TrimmedAt(s, r, i)
  {
    var i :| TrimmedAt(t, r, i);
    assert s[i..i + |r|] == t[i..i + |r|];
    assert s[..i] == t[..i];
    assert s[i + |r|..] == t[i + |r|..] + [s[|s| - 1]];
    assert TrimmedAt(s, r, i);
  }

  /**
   * Python's `s.strip()`: whitespace is removed from both ends, so the result
   * neither starts nor ends with whitespace (see `StripIsTrimmedSlice` for
   * what is kept).
   */
  function Strip(s: string): (r: string)
    ensures r == [] || (!IsSpace(r[0]) && !IsSpace(r[|r| - 1]))
    decreases |s|
  {
    if s != [] && IsSpace(s[0]) then Strip(s[1..])
    else if s != [] && IsSpace(s[|s| - 1]) then Strip(s[..|s| - 1])
    else s
  }

  /** What `Strip` keeps is a slice of `s` with only whitespace around it. */
  lemma {:induction false} StripIsTrimmedSlice(s: string)
    ensures exists i :: TrimmedAt(s, Strip(s), i)
    decreases |s|
  {
    if s != [] && IsSpace(s[0]) {
      StripIsTrimmedSlice(s[1..]);
      TrimmedAfterLeadingSpace(s, Strip(s));
    } else if s != [] && IsSpace(s[|s| - 1]) {
      StripIsTrimmedSlice(s[..|s| - 1]);
      TrimmedBeforeTrailingSpace(s, s[..|s| - 1], Strip(s));
    } else {
      assert Strip(s) == s;
      assert TrimmedAt(s, s, 0);
    }
  }

  /** Stripping yields the empty string exactly when `s` is all whitespace. */
  lemma StripEmptyIffAllSpace(s: string)
    ensures Strip(s) == [] <==> AllSpace(s)
  {
    var r := Strip(s);
    StripIsTrimmedSlice(s);
    var i :| TrimmedAt(s, r, i);
    if r == [] {
      forall k | 0 <= k < |s| ensures IsSpace(s[k]) {
        if k < i { assert s[..i][k] == s[k]; } else { assert s[i..][k - i] == s[k]; }
      }
    } else {
      assert s[i] == r[0];
    }
  }

  /** Stripping twice is stripping once. */
  lemma StripIdempotent(s: string)
    ensures Strip(Strip(s)) == Strip(s)
  {
    var r := Strip(s);
    assert r == [] || (!IsSpace(r[0]) && !IsSpace(r[|r| - 1]));
  }

  /** `pattern` is the slice of `text` that starts at `i`. */
  ghost predicate OccursAt(pattern: string, text: string, i: int) {
    0 <= i <= |text| - |pattern| && text[i..i + |pattern|] == pattern
  }

  /** Python's `pattern in text` for strings: some slice of `text` equals `pattern`. */
  ghost predicate OccursIn(pattern: string, text: string) {
    exists i :: OccursAt(pattern, text, i)
  }

  /** The substring test, computed by scanning `text` from the left. */
  function Contains(text: string, pattern: string): bool
    decreases |text|
  {
    if |pattern| > |text| then false
    else if text[..|pattern|] == pattern then true
    else Contains(text[1..], pattern)
  }

  /** When `pattern` is not at the front of `text`, it occurs in `text` exactly when it occurs in the tail. */
  lemma OccursInTail(text: string, pattern: string)
    requires |text| >= 1 && !OccursAt(pattern, text, 0)
    ensures OccursIn(pattern, text) <==> OccursIn(pattern, text[1..])
  {
    var tail := text[1..];
    if i :| OccursAt(pattern, tail, i) {
      assert text[i + 1..i + 1 + |pattern|] == tail[i..i + |pattern|];
      assert OccursAt(pattern, text, i + 1);
    }
    if i :| OccursAt(pattern, text, i) {
      assert tail[i - 1..i - 1 + |pattern|] == text[i..i + |pattern|];
      assert OccursAt(pattern, tail, i - 1);
    }
  }

  /** The scan finds `pattern` exactly when it occurs somewhere in `text`. */
  lemma {:induction false} ContainsIffOccurs(text: string, pattern: string)
    ensures Contains(text, pattern) <==> OccursIn(pattern, text)
    decreases |text|
  {
    if |pattern| > |text| {
      assert !OccursIn(pattern, text);
    } else if text[..|pattern|] == pattern {
      assert OccursAt(pattern, text, 0);
    } else {
      ContainsIffOccurs(text[1..], pattern);
      OccursInTail(text, pattern);
    }
  }

}
