/**
 * The JavaScript string semantics the client relies on: truthiness of a `prompt()`
 * answer and `String.prototype.trim`, which strips the ECMAScript WhiteSpace and
 * LineTerminator characters from both ends.
 */
module JsString {
  import opened Wrappers

  /** ECMAScript WhiteSpace (tab, vertical tab, form feed, space, no-break space, BOM, Unicode Zs) and LineTerminator. */
  predicate IsJsSpace(c: char)
  {
    || c == '\t' || c == '\U{000B}' || c == '\U{000C}' || c == ' ' || c == '\U{00A0}' || c == '\U{FEFF}'
    || c == '\U{1680}' || ('\U{2000}' <= c <= '\U{200A}') || c == '\U{202F}' || c == '\U{205F}' || c == '\U{3000}'
    || c == '\n' || c == '\r' || c == '\U{2028}' || c == '\U{2029}'
  }

  /** Every character of `s` is whitespace (vacuously true of the empty string). */
  predicate AllSpace(s: string)
  {
    forall c :: c in s ==> IsJsSpace(c)
  }

  /** `s` neither starts nor ends with whitespace. */
  predicate Trimmed(s: string)
  {
    s == [] || (!IsJsSpace(s[0]) && !IsJsSpace(s[|s| - 1]))
  }

  /** A `prompt()` answer is truthy when it is a string (not `null`) and not empty. */
  predicate Truthy(answer: Option<string>)
  {
    answer.Some? && answer.value != ""
  }


  /** `s` without its leading whitespace; `TrimStartDropsLeadingSpace` says what it removes. */
  function TrimStart(s: string): (r: string)
    ensures |r| <= |s|
  {
    if s != [] && IsJsSpace(s[0]) then TrimStart(s[1..]) else s
  }

  /** `s` without its trailing whitespace; `TrimEndDropsTrailingSpace` says what it removes. */
  function TrimEnd(s: string): (r: string)
    ensures |r| <= |s|
  {
    if s != [] && IsJsSpace(s[|s| - 1]) then TrimEnd(s[..|s| - 1]) else s
  }

  /** `String.prototype.trim`: `TrimIsSlice` says it is a slice of `s` with whitespace on both sides. */
  function Trim(s: string): (r: string)
    ensures Trimmed(r)
    ensures |r| <= |s|
  {
    var front := TrimStart(s);
    TrimStartDropsLeadingSpace(s);
    TrimEndDropsTrailingSpace(front);
    TrimEndKeepsFirst(front);
    TrimEnd(front)
  }

  /** `TrimStart` keeps a suffix of `s`, drops an all-whitespace prefix, and does not start with whitespace. */
  lemma {:induction false} TrimStartDropsLeadingSpace(s: string)
    ensures TrimStart(s) == s[|s| - |TrimStart(s)|..]
    ensures AllSpace(s[..|s| - |TrimStart(s)|])
    ensures TrimStart(s) == [] || !IsJsSpace(TrimStart(s)[0])
  {
    if s != [] && IsJsSpace(s[0]) {
      var r := TrimStart(s[1..]);
      TrimStartDropsLeadingSpace(s[1..]);
      assert s[1..][|s| - 1 - |r|..] == s[|s| - |r|..];
      assert [s[0]] + s[1..][..|s| - 1 - |r|] == s[..|s| - |r|];
    }
  }

  /** `TrimEnd` keeps a prefix of `s`, drops an all-whitespace suffix, and does not end with whitespace. */
  lemma {:induction false} TrimEndDropsTrailingSpace(s: string)
    ensures TrimEnd(s) == s[..|TrimEnd(s)|]
    ensures AllSpace(s[|TrimEnd(s)|..])
    ensures TrimEnd(s) == [] || !IsJsSpace(TrimEnd(s)[|TrimEnd(s)| - 1])
  {
    if s != [] && IsJsSpace(s[|s| - 1]) {
      var t := s[..|s| - 1];
      var r := TrimEnd(t);
      TrimEndDropsTrailingSpace(t);
      assert t[..|r|] == s[..|r|];
      assert t[|r|..] + [s[|s| - 1]] == s[|r|..];
    }
  }

  /** Trimming the end of a string that does not start with whitespace keeps that property. */
  lemma TrimEndKeepsFirst(s: string)
    requires s == [] || !IsJsSpace(s[0])
    ensures TrimEnd(s) == [] || !IsJsSpace(TrimEnd(s)[0])
  {
    TrimEndDropsTrailingSpace(s);
    if TrimEnd(s) != [] {
      assert TrimEnd(s)[0] == s[0];
    }
  }

  /** What `trim` removes is whitespace: its result is a slice of `s` with whitespace only on either side. */
  lemma TrimIsSlice(s: string)
    ensures exists i :: 0 <= i <= |s| - |Trim(s)| && Trim(s) == s[i..i + |Trim(s)|] && AllSpace(s[..i]) && AllSpace(s[i + |Trim(s)|..])
  {
    TrimStartDropsLeadingSpace(s);
    TrimEndDropsTrailingSpace(TrimStart(s));
    TrimSlice(s, TrimStart(s), Trim(s));
  }

  /** A prefix of a suffix of `s` that each cut off whitespace only is a slice of `s` with whitespace on both sides. */
  lemma TrimSlice(s: string, front: string, r: string)
    requires |front| <= |s| && front == s[|s| - |front|..] && AllSpace(s[..|s| - |front|])
    requires |r| <= |front| && r == front[..|r|] && AllSpace(front[|r|..])
    ensures exists i :: 0 <= i <= |s| - |r| && r == s[i..i + |r|] && AllSpace(s[..i]) && AllSpace(s[i + |r|..])
  {
    var i := |s| - |front|;
    assert s[i..][..|r|] == s[i..i + |r|];
    assert s[i + |r|..] == front[|r|..];
    assert 0 <= i <= |s| - |r| && r == s[i..i + |r|] && AllSpace(s[..i]) && AllSpace(s[i + |r|..]);
  }

  /** A string that is already trimmed is its own trim. */
  lemma {:induction false} TrimOfTrimmed(s: string)
    requires Trimmed(s)
    ensures Trim(s) == s
  {
  }

  /** `trim` is idempotent. */
  lemma TrimIdempotent(s: string)
    ensures Trim(Trim(s)) == Trim(s)
  {
    TrimOfTrimmed(Trim(s));
  }

  /** A string trims to `''` exactly when it is empty or whitespace only. */
  lemma TrimEmptyIffAllSpace(s: string)
    ensures Trim(s) == "" <==> AllSpace(s)
  {
    var front := TrimStart(s);
    TrimStartDropsLeadingSpace(s);
    TrimEndDropsTrailingSpace(front);
    TrimmedSliceEmptyIffAllSpace(s, front, TrimEnd(front));
  }

  /**
   * A trimmed prefix of a suffix of `s`, where each cut dropped whitespace only, is empty
   * exactly when `s` is all whitespace.
   */
  lemma TrimmedSliceEmptyIffAllSpace(s: string, front: string, r: string)
    requires |front| <= |s| && front == s[|s| - |front|..] && AllSpace(s[..|s| - |front|])
    requires |r| <= |front| && r == front[..|r|] && AllSpace(front[|r|..]) && Trimmed(r)
    ensures r == "" <==> AllSpace(s)
  {
    var i := |s| - |front|;
    if r == "" {
      assert s == s[..i] + front;
    } else {
      assert r[0] == s[i];
    }
  }
}
