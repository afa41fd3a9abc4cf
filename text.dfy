/**
 * The string operations the search relies on: `str.lower()`, `str.strip()`,
 * `" ".join(...)` and the literal match `re.search(re.escape(q), text)`.
 * Lower-casing is modelled on ASCII letters only.
 */
module Text {
  import opened Wrappers

  predicate IsUpper(c: char) {
    'A' <= c <= 'Z'
  }

  function LowerChar(c: char): (r: char)
    ensures !IsUpper(r)
    ensures !IsUpper(c) ==> r == c
  {
    if IsUpper(c) then (c as int + 32) as char else c
  }

  /** `s.lower()`, restricted to ASCII letters. */
  function Lower(s: string): (r: string)
    ensures |r| == |s|
    ensures forall i :: 0 <= i < |r| ==> r[i] == LowerChar(s[i])
  {
    seq(|s|, i requires 0 <= i < |s| => LowerChar(s[i]))
  }

  /** The characters for which Python's `str.isspace()` holds. */
  predicate IsSpace(c: char) {
    || c == ' ' || c == '\t' || c == '\n' || c == '\r'
    || c == '\U{000B}' || c == '\U{000C}'
    || ('\U{001C}' <= c <= '\U{001F}')
    || c == '\U{0085}' || c == '\U{00A0}' || c == '\U{1680}'
    || ('\U{2000}' <= c <= '\U{200A}')
    || c == '\U{2028}' || c == '\U{2029}' || c == '\U{202F}' || c == '\U{205F}' || c == '\U{3000}'
  }

  predicate AllSpace(s: string) {
    forall i :: 0 <= i < |s| ==> IsSpace(s[i])
  }

  /** Every character of `s` at an index in [lo, hi) is whitespace. */
  predicate SpaceBetween(s: string, lo: int, hi: int) {
    forall i :: lo <= i < hi && 0 <= i < |s| ==> IsSpace(s[i])
  }

  /** `s.lstrip()`: the suffix of `s` left after dropping leading whitespace. */
  function StripStart(s: string): (r: string)
    ensures |r| <= |s| && r == s[|s| - |r|..]
    ensures forall i :: 0 <= i < |s| - |r| ==> IsSpace(s[i])
    ensures r == [] || !IsSpace(r[0])
  {
    if s != [] && IsSpace(s[0]) then StripStart(s[1..]) else s
  }

  /** `s.rstrip()`: the prefix of `s` left after dropping trailing whitespace. */
  function StripEnd(s: string): (r: string)
    ensures |r| <= |s| && r == s[..|r|]
    ensures forall i :: |r| <= i < |s| ==> IsSpace(s[i])
    ensures r == [] || !IsSpace(r[|r| - 1])
  {
    if s != [] && IsSpace(s[|s| - 1]) then StripEnd(s[..|s| - 1]) else s
  }

  /** `s.strip()`: `s` without its leading and trailing whitespace. */
  function Strip(s: string): (r: string)
    ensures |r| <= |s|
    ensures r == [] || (!IsSpace(r[0]) && !IsSpace(r[|r| - 1]))
    ensures r == [] <==> AllSpace(s)
    ensures exists a :: OccursAt(r, s, a) && SpaceBetween(s, 0, a) && SpaceBetween(s, a + |r|, |s|)
  {
    StripEnds(s);
    StripEmpty(s);
    var t := StripStart(s);
    var r := StripEnd(t);
    SliceBetweenSpace(s, t, r);
    r
  }

  lemma StripEnds(s: string)
    ensures var r := StripEnd(StripStart(s));
      r == [] || (!IsSpace(r[0]) && !IsSpace(r[|r| - 1]))
  {
    var t := StripStart(s);
    var r := StripEnd(t);
    assert r != [] ==> r[0] == t[0];
  }

  lemma StripEmpty(s: string)
    ensures StripEnd(StripStart(s)) == [] <==> AllSpace(s)
  {
    var t := StripStart(s);
    var r := StripEnd(t);
    assert t != [] ==> !IsSpace(s[|s| - |t|]) by {
      if t != [] { assert t[0] == s[|s| - |t|]; }
    }
    if r == [] {
      assert t == [];
    }
  }

  /**
   * A prefix `r` of a suffix `t` of `s`, with only whitespace cut off on
   * either side, is the slice of `s` between that whitespace.
   */
  lemma SliceBetweenSpace(s: string, t: string, r: string)
    requires |t| <= |s| && t == s[|s| - |t|..]
    requires |r| <= |t| && r == t[..|r|]
    requires forall i :: 0 <= i < |s| - |t| ==> IsSpace(s[i])
    requires forall i :: |r| <= i < |t| ==> IsSpace(t[i])
    ensures var a := |s| - |t|;
      OccursAt(r, s, a) && SpaceBetween(s, 0, a) && SpaceBetween(s, a + |r|, |s|)
  {
    var a := |s| - |t|;
    assert s[a..a + |r|] == r;
    forall i | a + |r| <= i < |s| ensures IsSpace(s[i]) {
      assert s[i] == t[i - a];
    }
  }

  /** `pat` occurs in `text` at offset `i`. */
  predicate OccursAt(pat: string, text: string, i: int) {
    0 <= i <= |text| - |pat| && text[i..i + |pat|] == pat
  }

  /** `pat` occurs as a contiguous piece of `text`. */
  ghost predicate IsSubstring(pat: string, text: string) {
    exists i :: OccursAt(pat, text, i)
  }

  /**
   * The offset of the leftmost occurrence of `pat` in `text`, or None:
   * what `re.search(re.escape(pat), text)` finds, the pattern being taken
   * literally.
   */
  function Find(text: string, pat: string): (r: Option<nat>)
    ensures r.Some? ==> OccursAt(pat, text, r.value)
    ensures r.Some? ==> forall j :: 0 <= j < r.value ==> !OccursAt(pat, text, j)
    ensures r.None? ==> forall j :: !OccursAt(pat, text, j)
    decreases |text|
  {
    if |pat| > |text| then None
    else if text[..|pat|] == pat then Some(0)
    else
      var rest := Find(text[1..], pat);
      forall j | 1 <= j
        ensures OccursAt(pat, text, j) <==> OccursAt(pat, text[1..], j - 1)
      {
        if j <= |text| - |pat| {
          var a, b := text[j..j + |pat|], text[1..][j - 1..j - 1 + |pat|];
          assert |a| == |b| && forall k :: 0 <= k < |a| ==> a[k] == b[k];
          assert a == b;
        }
      }
      assert !OccursAt(pat, text, 0);
      match rest
      case None => None
      case Some(k) => Some(k + 1)
  }

  /** `" ".join(parts)`. */
  function JoinWithSpace(parts: seq<string>): (r: string)
  {
    if |parts| == 0 then ""
    else if |parts| == 1 then parts[0]
    else parts[0] + " " + JoinWithSpace(parts[1..])
  }

  /** Every joined part can be found in the joined string. */
  lemma {:induction false} JoinContainsParts(parts: seq<string>, k: nat)
    requires k < |parts|
    ensures IsSubstring(parts[k], JoinWithSpace(parts))
  {
    var r := JoinWithSpace(parts);
    if |parts| == 1 {
      assert OccursAt(parts[0], r, 0);
    } else if k == 0 {
      assert OccursAt(parts[0], r, 0);
    } else {
      JoinContainsParts(parts[1..], k - 1);
      var t := JoinWithSpace(parts[1..]);
      var i :| OccursAt(parts[k], t, i);
      var off := |parts[0]| + 1;
      assert r == (parts[0] + " ") + t;
      assert r[off + i..off + i + |parts[k]|] == t[i..i + |parts[k]|];
      assert OccursAt(parts[k], r, off + i);
    }
  }

  /** A substring of `text` stays a substring after both are lower-cased. */
  lemma SubstringLower(pat: string, text: string)
    requires IsSubstring(pat, text)
    ensures IsSubstring(Lower(pat), Lower(text))
  {
    var i :| OccursAt(pat, text, i);
    assert Lower(text)[i..i + |pat|] == Lower(pat);
    assert OccursAt(Lower(pat), Lower(text), i);
  }

  /** A leftmost-match search succeeds exactly when the pattern occurs. */
  lemma FindIff(text: string, pat: string)
    ensures Find(text, pat).Some? <==> IsSubstring(pat, text)
  {
    var r := Find(text, pat);
    if r.Some? {
      assert OccursAt(pat, text, r.value);
    }
  }
}
