/**
 * The pieces of JavaScript's string library that the response-cleaning code
 * relies on: the white-space class shared by `\s` and `String.prototype.trim`,
 * trimming, searching for a substring or a character, and global replacement
 * of a literal pattern by the empty string.
 */
module JsString {
  import opened Wrappers

  /** The characters that `\s` matches and that `trim` removes. */
  predicate IsWhitespace(c: char) {
    || c == '\t' || c == '\n' || c == '\U{B}' || c == '\U{C}' || c == '\r' || c == ' '
    || c == '\U{A0}' || c == '\U{1680}' || ('\U{2000}' <= c <= '\U{200A}')
    || c == '\U{2028}' || c == '\U{2029}' || c == '\U{202F}' || c == '\U{205F}'
    || c == '\U{3000}' || c == '\U{FEFF}'
  }

  predicate AllWhitespace(s: string) {
    forall i :: 0 <= i < |s| ==> IsWhitespace(s[i])
  }

  /** Neither end of `s` is white space. */
  predicate IsTrimmed(s: string) {
    |s| == 0 || (!IsWhitespace(s[0]) && !IsWhitespace(s[|s| - 1]))
  }

  /** `s` with its leading white space removed: a suffix of `s`. */
  function TrimStart(s: string): (r: string)
    ensures |r| <= |s| && r == s[|s| - |r|..]
    ensures AllWhitespace(s[..|s| - |r|])
    ensures |r| > 0 ==> !IsWhitespace(r[0])
  {
    if |s| > 0 && IsWhitespace(s[0]) then TrimStart(s[1..]) else s
  }

  /** `s` with its trailing white space removed: a prefix of `s`. */
  function TrimEnd(s: string): (r: string)
    ensures |r| <= |s| && r == s[..|r|]
    ensures AllWhitespace(s[|r|..])
    ensures |r| > 0 ==> !IsWhitespace(r[|r| - 1])
  {
    if |s| > 0 && IsWhitespace(s[|s| - 1]) then TrimEnd(s[..|s| - 1]) else s
  }

  /**
   * `String.prototype.trim`: the result is what is left of `s` once a run of
   * white space is cut from each end, neither of its ends is white space, and
   * it is empty exactly when `s` is all white space.
   */
  function Trim(s: string): (r: string)
    ensures IsTrimmed(r)
    ensures r == "" <==> AllWhitespace(s)
    ensures CutFromEnds(s, r)
    ensures |r| <= |s|
  {
    var t := TrimStart(s);
    var r := TrimEnd(t);
    TrimEnds(s, t, r);
    TrimPieces(s, t, r);
    r
  }

  /** `s` is a run of white space, then `r`, then a run of white space. */
  ghost predicate CutFromEnds(s: string, r: string) {
    exists i: nat :: (i + |r| <= |s| && s == s[..i] + r + s[i + |r|..]
                      && AllWhitespace(s[..i]) && AllWhitespace(s[i + |r|..]))
  }

  /** The facts `Trim` promises, from those of its two halves. */
  lemma TrimEnds(s: string, t: string, r: string)
    requires t == TrimStart(s) && r == TrimEnd(t)
    ensures IsTrimmed(r)
    ensures r == "" <==> AllWhitespace(s)
  {
    var n := |s| - |t|;
    assert |r| > 0 ==> r[0] == t[0];
    assert |t| > 0 ==> s[n] == t[0];
    if r == "" {
      assert t[|r|..] == t;
      assert AllWhitespace(t);
      assert s[..n] == s;
    }
  }

  /** `s` is the white space cut from the front, the result, and the white space cut from the back. */
  lemma TrimPieces(s: string, t: string, r: string)
    requires |t| <= |s| && t == s[|s| - |t|..] && AllWhitespace(s[..|s| - |t|])
    requires |r| <= |t| && r == t[..|r|] && AllWhitespace(t[|r|..])
    ensures CutFromEnds(s, r)
  {
    var n := |s| - |t|;
    assert s[n + |r|..] == t[|r|..];
    assert t == r + t[|r|..];
    assert s == s[..n] + t;
    assert n + |r| <= |s| && s == s[..n] + r + s[n + |r|..] && AllWhitespace(s[..n]) && AllWhitespace(s[n + |r|..]);
  }

  /** Trimming a string whose ends are not white space gives it back unchanged. */
  lemma TrimTrimmed(s: string)
    requires IsTrimmed(s)
    ensures Trim(s) == s
  {
  }

  /** `pat` occurs in `s` at index `i`. */
  predicate MatchAt(s: string, pat: string, i: nat) {
    i + |pat| <= |s| && s[i..i + |pat|] == pat
  }

  /** `pat` occurs nowhere in `s`. */
  ghost predicate NoMatch(s: string, pat: string) {
    forall i: nat :: !MatchAt(s, pat, i)
  }

  /** `s.indexOf(pat, from)`: the first index at or after `from` where `pat` occurs. */
  function IndexOf(s: string, pat: string, from: nat): (r: Option<nat>)
    ensures r.Some? ==> from <= r.value && MatchAt(s, pat, r.value)
    ensures r.Some? ==> forall i: nat :: from <= i < r.value ==> !MatchAt(s, pat, i)
    ensures r.None? ==> forall i: nat :: from <= i ==> !MatchAt(s, pat, i)
    decreases |s| - from
  {
    if from + |pat| > |s| then None
    else if MatchAt(s, pat, from) then Some(from)
    else IndexOf(s, pat, from + 1)
  }

  /** `s.indexOf(c, from)` for a single character. */
  function IndexOfChar(s: string, c: char, from: nat): (r: Option<nat>)
    ensures r.Some? ==> from <= r.value < |s| && s[r.value] == c
    ensures r.Some? ==> forall i :: from <= i < r.value ==> s[i] != c
    ensures r.None? ==> forall i :: from <= i < |s| ==> s[i] != c
    decreases |s| - from
  {
    if from >= |s| then None
    else if s[from] == c then Some(from)
    else IndexOfChar(s, c, from + 1)
  }

  /** The first occurrence of `c` at or after `from` is found by IndexOfChar. */
  lemma IndexOfCharFinds(s: string, c: char, from: nat, k: nat)
    requires from <= k < |s| && s[k] == c
    requires forall i :: from <= i < k ==> s[i] != c
    ensures IndexOfChar(s, c, from) == Some(k)
  {
  }

  /** `s.lastIndexOf(c)` for a single character. */
  function LastIndexOfChar(s: string, c: char): (r: Option<nat>)
    ensures r.Some? ==> r.value < |s| && s[r.value] == c
    ensures r.Some? ==> forall i :: r.value < i < |s| ==> s[i] != c
    ensures r.None? ==> forall i :: 0 <= i < |s| ==> s[i] != c
  {
    if |s| == 0 then None
    else if s[|s| - 1] == c then Some(|s| - 1)
    else LastIndexOfChar(s[..|s| - 1], c)
  }

  /** The last occurrence of `c` is found by LastIndexOfChar. */
  lemma LastIndexOfCharFinds(s: string, c: char, k: nat)
    requires k < |s| && s[k] == c
    requires forall i :: k < i < |s| ==> s[i] != c
    ensures LastIndexOfChar(s, c) == Some(k)
  {
  }

  /**
   * `s.replace(/pat/g, '')` for a literal pattern: scanning from the left,
   * every occurrence that does not overlap an earlier removed one is dropped.
   * A string without the pattern is left as it is.
   */
  function RemoveAll(s: string, pat: string): (r: string)
    requires |pat| > 0
    ensures |r| <= |s|
    ensures NoMatch(s, pat) ==> r == s
  {
    ScanShorter(s, pat);
    ScanKeepsNoMatch(s, pat);
    Scan(s, pat)
  }

  /** The left-to-right scan behind RemoveAll. */
  function Scan(s: string, pat: string): string
    requires |pat| > 0
    decreases |s|
  {
    if |s| == 0 then ""
    else if MatchAt(s, pat, 0) then Scan(s[|pat|..], pat)
    else [s[0]] + Scan(s[1..], pat)
  }

  lemma {:induction false} ScanShorter(s: string, pat: string)
    requires |pat| > 0
    ensures |Scan(s, pat)| <= |s|
    decreases |s|
  {
    if |s| == 0 {
    } else if MatchAt(s, pat, 0) {
      ScanShorter(s[|pat|..], pat);
    } else {
      ScanShorter(s[1..], pat);
    }
  }

  lemma {:induction false} ScanKeepsNoMatch(s: string, pat: string)
    requires |pat| > 0
    ensures NoMatch(s, pat) ==> Scan(s, pat) == s
    decreases |s|
  {
    if |s| > 0 && NoMatch(s, pat) {
      assert !MatchAt(s, pat, 0);
      NoMatchTail(s, pat);
      ScanKeepsNoMatch(s[1..], pat);
      assert [s[0]] + s[1..] == s;
    }
  }

  /**
   * The replacement, described by where the pattern first occurs: a string
   * without it is kept, and otherwise the text before the first occurrence is
   * kept, the occurrence is dropped, and the scan resumes right after it.
   */
  lemma RemoveAllFirstMatch(s: string, pat: string, k: nat)
    requires |pat| > 0 && IndexOf(s, pat, 0) == Some(k)
    ensures k + |pat| <= |s|
    ensures RemoveAll(s, pat) == s[..k] + RemoveAll(s[k + |pat|..], pat)
  {
    ScanFirstMatch(s, pat, k);
  }

  lemma {:induction false} ScanFirstMatch(s: string, pat: string, k: nat)
    requires |pat| > 0 && IndexOf(s, pat, 0) == Some(k)
    ensures k + |pat| <= |s|
    ensures Scan(s, pat) == s[..k] + Scan(s[k + |pat|..], pat)
    decreases k
  {
    if k == 0 {
      assert s[..0] + Scan(s[|pat|..], pat) == Scan(s[|pat|..], pat);
    } else {
      assert !MatchAt(s, pat, 0);
      IndexOfShift(s, pat, 0);
      ScanFirstMatch(s[1..], pat, k - 1);
      ScanSkip(s, pat, k);
    }
  }

  /** Keeping the first character carries the description of `s[1..]` over to `s`. */
  lemma ScanSkip(s: string, pat: string, k: nat)
    requires |pat| > 0 && 0 < k && k + |pat| <= |s| && !MatchAt(s, pat, 0)
    requires Scan(s[1..], pat) == s[1..][..k - 1] + Scan(s[1..][k - 1 + |pat|..], pat)
    ensures Scan(s, pat) == s[..k] + Scan(s[k + |pat|..], pat)
  {
    DropShift(s, k - 1 + |pat|);
    ConsTake(s, k);
    ConsAssoc(s[0], s[1..][..k - 1], Scan(s[k + |pat|..], pat), s[..k]);
  }

  lemma DropShift(s: string, m: nat)
    requires 0 < |s| && m < |s|
    ensures s[1..][m..] == s[m + 1..]
  {
  }

  lemma ConsTake(s: string, k: nat)
    requires 0 < k <= |s|
    ensures [s[0]] + s[1..][..k - 1] == s[..k]
  {
  }

  lemma ConsAssoc(c: char, a: string, b: string, x: string)
    requires [c] + a == x
    ensures [c] + (a + b) == x + b
  {
  }

  /** Searching `s[1..]` from `from` finds what searching `s` from `from + 1` does, one place earlier. */
  lemma {:induction false} IndexOfShift(s: string, pat: string, from: nat)
    requires |s| > 0
    ensures IndexOf(s[1..], pat, from).None? ==> IndexOf(s, pat, from + 1).None?
    ensures IndexOf(s[1..], pat, from).Some? ==> IndexOf(s, pat, from + 1) == Some(IndexOf(s[1..], pat, from).value + 1)
    decreases |s| - from
  {
    MatchShift(s, pat, from);
    if from + 1 + |pat| <= |s| && !MatchAt(s, pat, from + 1) {
      IndexOfShift(s, pat, from + 1);
    }
  }

  /** An occurrence in `s[1..]` is one in `s`, one place further on. */
  lemma MatchShift(s: string, pat: string, i: nat)
    requires |s| > 0
    ensures MatchAt(s[1..], pat, i) <==> MatchAt(s, pat, i + 1)
  {
    if i + 1 + |pat| <= |s| {
      assert s[1..][i..i + |pat|] == s[i + 1..i + 1 + |pat|];
    }
  }

  /** Dropping the first character cannot create an occurrence. */
  lemma NoMatchTail(s: string, pat: string)
    requires |s| > 0
    ensures NoMatch(s, pat) ==> NoMatch(s[1..], pat)
  {
    if NoMatch(s, pat) {
      NoMatchSlice(s, pat, 1, |s|);
      assert s[1..|s|] == s[1..];
    }
  }

  /** A slice of a string in which `pat` does not occur does not contain it either. */
  lemma NoMatchSlice(s: string, pat: string, i: nat, j: nat)
    requires i <= j <= |s| && NoMatch(s, pat)
    ensures NoMatch(s[i..j], pat)
  {
    forall k: nat ensures !MatchAt(s[i..j], pat, k) {
      if k + |pat| <= j - i {
        SliceOfSlice(s, i, j, k, |pat|);
        assert !MatchAt(s, pat, i + k);
      }
    }
  }

  /** A window of a slice is the window of the string, shifted by the slice's start. */
  lemma SliceOfSlice(s: string, i: nat, j: nat, k: nat, n: nat)
    requires i <= j <= |s| && k + n <= j - i
    ensures s[i..j][k..k + n] == s[i + k..i + k + n]
  {
    var window, shifted := s[i..j][k..k + n], s[i + k..i + k + n];
    assert forall m | 0 <= m < n :: window[m] == shifted[m];
  }

  /** Trimming cannot create an occurrence of a pattern. */
  lemma TrimKeepsNoMatch(s: string, pat: string)
    requires NoMatch(s, pat)
    ensures NoMatch(Trim(s), pat)
  {
    var i := TrimIsSlice(s);
    NoMatchSlice(s, pat, i, i + |Trim(s)|);
  }

  /** The trimmed string is a contiguous slice of the original. */
  lemma TrimIsSlice(s: string) returns (i: nat)
    ensures i + |Trim(s)| <= |s| && Trim(s) == s[i..i + |Trim(s)|]
  {
    var t := TrimStart(s);
    i := |s| - |t|;
    assert Trim(s) == t[..|TrimEnd(t)|];
  }
}
