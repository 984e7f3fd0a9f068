/** Python's `str.strip()` with no argument, and the blank test the entity
    factories build on it (`not s or len(s.strip()) == 0`). */
module Text {

  /** The characters for which Python's `str.isspace()` is true. */
  predicate IsSpace(c: char) {
    || ('\U{0009}' <= c <= '\U{000D}')
    || ('\U{001C}' <= c <= '\U{0020}')
    || c == '\U{0085}' || c == '\U{00A0}' || c == '\U{1680}'
    || ('\U{2000}' <= c <= '\U{200A}')
    || c == '\U{2028}' || c == '\U{2029}' || c == '\U{202F}' || c == '\U{205F}' || c == '\U{3000}'
  }

  /** The factories' emptiness test `not s or not s.strip()`: empty, or
      whitespace only. `BlankIffStripsToEmpty` ties it to `Strip`. */
  predicate Blank(s: string) {
    forall k :: 0 <= k < |s| ==> IsSpace(s[k])
  }

  /** `s.lstrip()`: drops leading whitespace. */
  function TrimStart(s: string): string
    decreases |s|
  {
    if |s| > 0 && IsSpace(s[0]) then TrimStart(s[1..]) else s
  }

  /** What `lstrip` leaves: the suffix of `s` after its run of leading
      whitespace, starting with a non-space when non-empty. */
  lemma {:induction false} TrimStartSpec(s: string)
    ensures var r := TrimStart(s);
            && |r| <= |s| && r == s[|s| - |r|..]
            && Blank(s[..|s| - |r|])
            && (|r| > 0 ==> !IsSpace(r[0]))
    decreases |s|
  {
    if |s| > 0 && IsSpace(s[0]) {
      TrimStartSpec(s[1..]);
      var r := TrimStart(s);
      assert s[1..][|s| - 1 - |r|..] == s[|s| - |r|..];
      assert forall k :: 0 < k < |s| - |r| ==> s[k] == s[1..][..|s| - 1 - |r|][k - 1];
    } else {
      assert s[|s| - |s|..] == s;
    }
  }

  /** `s.rstrip()`: drops trailing whitespace. */
  function TrimEnd(s: string): string
    decreases |s|
  {
    if |s| > 0 && IsSpace(s[|s| - 1]) then TrimEnd(s[..|s| - 1]) else s
  }

  /** What `rstrip` leaves: the prefix of `s` before its run of trailing
      whitespace, ending with a non-space when non-empty. */
  lemma {:induction false} TrimEndSpec(s: string)
    ensures var r := TrimEnd(s);
            && |r| <= |s| && r == s[..|r|]
            && Blank(s[|r|..])
            && (|r| > 0 ==> !IsSpace(r[|r| - 1]))
    decreases |s|
  {
    if |s| > 0 && IsSpace(s[|s| - 1]) {
      var init := s[..|s| - 1];
      TrimEndSpec(init);
      var r := TrimEnd(s);
      assert init[..|r|] == s[..|r|];
      assert forall k :: |r| <= k < |s| - 1 ==> s[k] == init[k];
    } else {
      assert s[..|s|] == s;
    }
  }

  /** `s.strip()`. */
  function Strip(s: string): string {
    TrimEnd(TrimStart(s))
  }

  /** A stripped string is a contiguous piece of the input with only
      whitespace cut away on either side, and it neither starts nor ends with
      whitespace. */
  lemma StripShape(s: string)
    ensures exists i, j :: 0 <= i <= j <= |s| && Strip(s) == s[i..j]
              && Blank(s[..i]) && Blank(s[j..])
    ensures |Strip(s)| > 0 ==> !IsSpace(Strip(s)[0]) && !IsSpace(Strip(s)[|Strip(s)| - 1])
  {
    var t := TrimStart(s);
    var r := TrimEnd(t);
    TrimStartSpec(s);
    TrimEndSpec(t);
    var i := |s| - |t|;
    var j := i + |r|;
    assert r == s[i..j];
    assert s[j..] == t[|r|..];
    if |r| > 0 {
      assert r[0] == t[0];
    }
  }

  /** A string is blank exactly when stripping leaves nothing. */
  lemma BlankIffStripsToEmpty(s: string)
    ensures Blank(s) <==> |Strip(s)| == 0
  {
    var t := TrimStart(s);
    TrimStartSpec(s);
    TrimEndSpec(t);
    assert t[0..] == t;
    assert s[..|s|] == s;
  }

  /** Non-empty, and neither starting nor ending with whitespace: what the
      factories store after stripping a non-blank field. */
  predicate Trimmed(s: string) {
    |s| > 0 && !IsSpace(s[0]) && !IsSpace(s[|s| - 1])
  }

  /** Stripping never lengthens. */
  lemma StripShrinks(s: string)
    ensures |Strip(s)| <= |s|
  {
    TrimStartSpec(s);
    TrimEndSpec(TrimStart(s));
  }

  /** Stripping a non-blank string yields a trimmed one. */
  lemma StripYieldsTrimmed(s: string)
    requires !Blank(s)
    ensures Trimmed(Strip(s))
  {
    var t := TrimStart(s);
    BlankIffStripsToEmpty(s);
    TrimStartSpec(s);
    TrimEndSpec(t);
    assert Strip(s)[0] == t[0];
  }

  /** A trimmed string is not blank and strips to itself. */
  lemma TrimmedIsFixed(s: string)
    requires Trimmed(s)
    ensures Strip(s) == s && !Blank(s)
  {
    assert TrimStart(s) == s;
    assert TrimEnd(s) == s;
  }

  /** Stripping twice is stripping once. */
  lemma StripIdempotent(s: string)
    ensures Strip(Strip(s)) == Strip(s)
  {
    BlankIffStripsToEmpty(s);
    if !Blank(s) {
      StripYieldsTrimmed(s);
      TrimmedIsFixed(Strip(s));
    }
  }
}
