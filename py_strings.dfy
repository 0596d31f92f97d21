/** The Python string built-ins the evaluator relies on: substring membership
    (`pat in s`), `str.find`, slicing with Python's treatment of negative and
    out-of-range bounds, and `str.strip()` with no argument. */
module PyStrings {

  /** `pat` occurs in `s` starting at index `i`. */
  predicate OccursAt(s: string, pat: string, i: int)
  {
    0 <= i && i + |pat| <= |s| && s[i..i + |pat|] == pat
  }

  /** Python's `pat in s`. */
  predicate In(s: string, pat: string)
  {
    exists i | 0 <= i <= |s| - |pat| :: OccursAt(s, pat, i)
  }

  /** `str.find` started at index `i`: the first occurrence at or after `i`, or -1. */
  function FindFrom(s: string, pat: string, i: nat): (r: int)
    decreases |s| - i
    ensures r == -1 || (i <= r && OccursAt(s, pat, r))
    ensures r == -1 ==> forall j :: i <= j ==> !OccursAt(s, pat, j)
    ensures r != -1 ==> forall j :: i <= j < r ==> !OccursAt(s, pat, j)
  {
    if i + |pat| > |s| then -1
    else if s[i..i + |pat|] == pat then i
    else FindFrom(s, pat, i + 1)
  }

  /** Python's `s.find(pat)`: the lowest index at which `pat` occurs, or -1
      when it does not occur at all. */
  function Find(s: string, pat: string): (r: int)
    ensures r == -1 <==> !In(s, pat)
    ensures r != -1 ==> OccursAt(s, pat, r) && forall j :: 0 <= j < r ==> !OccursAt(s, pat, j)
  {
    FindFrom(s, pat, 0)
  }

  /** An occurrence with none before it is what `Find` returns. */
  lemma FindFirst(s: string, pat: string, k: int)
    requires OccursAt(s, pat, k)
    requires forall j :: 0 <= j < k ==> !OccursAt(s, pat, j)
    ensures Find(s, pat) == k
  {
  }

  /** The first occurrence of a non-empty `pat` in `pre + pat + post` is right
      after `pre` when `pat` does not already occur in `pre` extended by all
      but the last character of `pat`. */
  lemma FindAfter(pre: string, pat: string, post: string)
    requires |pat| > 0
    requires !In(pre + pat[..|pat| - 1], pat)
    ensures Find(pre + pat + post, pat) == |pre|
  {
    var s := pre + pat + post;
    var head := pre + pat[..|pat| - 1];
    assert s[|pre|..|pre| + |pat|] == pat;
    forall j | 0 <= j < |pre|
      ensures !OccursAt(s, pat, j)
    {
      assert s[j..j + |pat|] == head[j..j + |pat|];
      assert !OccursAt(head, pat, j);
    }
    FindFirst(s, pat, |pre|);
  }

  /** A string holding a non-empty `pat` is the text before its first
      occurrence, `pat`, and the rest; and `pat` does not occur in the text
      before it extended by all but the last character of `pat`. */
  lemma FirstOccurrenceSplit(s: string, pat: string)
    requires |pat| > 0 && In(s, pat)
    ensures var i := Find(s, pat);
            && s == s[..i] + pat + s[i + |pat|..]
            && !In(s[..i] + pat[..|pat| - 1], pat)
  {
    var i := Find(s, pat);
    assert s[i..i + |pat|] == pat;
    assert s == s[..i] + s[i..i + |pat|] + s[i + |pat|..];
    var h := s[..i + |pat| - 1];
    assert h == s[..i] + pat[..|pat| - 1];
    forall j | 0 <= j <= |h| - |pat|
      ensures !OccursAt(h, pat, j)
    {
      assert h[j..j + |pat|] == s[j..j + |pat|];
      assert !OccursAt(s, pat, j);
    }
  }

  /** An occurrence inside a slice is an occurrence in the whole string. */
  lemma InSlice(s: string, a: nat, b: nat, pat: string)
    requires a <= b <= |s|
    requires In(s[a..b], pat)
    ensures In(s, pat)
  {
    var t := s[a..b];
    var j := Find(t, pat);
    assert t[j..j + |pat|] == pat;
    forall k | 0 <= k < |pat|
      ensures pat[k] == s[a + j + k]
    {
      assert pat[k] == t[j + k];
    }
    assert s[a + j..a + j + |pat|] == pat;
    assert OccursAt(s, pat, a + j);
  }

  /** Where `q` starts with `pat`, every occurrence of `q` is one of `pat`. */
  lemma InPrefixPattern(s: string, q: string, pat: string)
    requires pat <= q
    requires In(s, q)
    ensures In(s, pat)
  {
    var j := Find(s, q);
    assert s[j..j + |q|] == q;
    assert s[j..j + |pat|] == s[j..j + |q|][..|pat|];
    assert OccursAt(s, pat, j);
  }

  /** Python's normalisation of a slice bound against a length `n`: a negative
      bound counts from the end, and the result is clamped to `0..n`. */
  function SliceBound(i: int, n: nat): (b: nat)
    ensures b <= n
    ensures 0 <= i <= n ==> b == i
    ensures i < 0 && -i <= n ==> b == n + i
    ensures i > n ==> b == n
    ensures i + n < 0 ==> b == 0
  {
    if i < 0 then (if i + n < 0 then 0 else i + n)
    else if i > n then n
    else i
  }

  /** Python's `s[lo:hi]`. */
  function Slice<T>(s: seq<T>, lo: int, hi: int): seq<T>
  {
    var a, b := SliceBound(lo, |s|), SliceBound(hi, |s|);
    if a < b then s[a..b] else []
  }

  /** `s[i:]` for an index inside the sequence is its suffix from `i`. */
  lemma SliceFrom<T>(s: seq<T>, i: int)
    requires 0 <= i <= |s|
    ensures Slice(s, i, |s|) == s[i..]
  {
  }

  /** `s[:j]`: for `j >= 0` the first `j` elements (all when `j` is past the
      end); for `j == -1` everything but the last element, and nothing at all
      when `s` is empty. */
  lemma SliceTo<T>(s: seq<T>, j: int)
    requires -1 <= j
    ensures j >= 0 ==> Slice(s, 0, j) == s[..if j <= |s| then j else |s|]
    ensures j == -1 ==> Slice(s, 0, j) == if s == [] then [] else s[..|s| - 1]
  {
  }

  /** Python's `str.isspace()` for one character: the code points that Python
      counts as whitespace. */
  predicate IsSpace(c: char)
  {
    var n := c as int;
    (9 <= n <= 13) || (28 <= n <= 32) || n == 0x85 || n == 0xA0 || n == 0x1680
    || (0x2000 <= n <= 0x200A) || n == 0x2028 || n == 0x2029 || n == 0x202F
    || n == 0x205F || n == 0x3000
  }

  /** `s.lstrip()`: `s` without its leading whitespace. */
  function TrimStart(s: string): string
  {
    if s != [] && IsSpace(s[0]) then TrimStart(s[1..]) else s
  }

  /** `s.rstrip()`: `s` without its trailing whitespace. */
  function TrimEnd(s: string): string
  {
    if s != [] && IsSpace(s[|s| - 1]) then TrimEnd(s[..|s| - 1]) else s
  }

  /** `s.strip()`: both ends trimmed. */
  function Strip(s: string): string
  {
    TrimEnd(TrimStart(s))
  }

  /** `lstrip` leaves a suffix of `s` that does not start with whitespace, and
      everything it removed is whitespace. */
  lemma {:induction false} TrimStartSpec(s: string)
    ensures var r := TrimStart(s);
            && |r| <= |s| && r == s[|s| - |r|..]
            && (r == [] || !IsSpace(r[0]))
            && forall k :: 0 <= k < |s| - |r| ==> IsSpace(s[k])
  {
    if s != [] && IsSpace(s[0]) {
      var t := s[1..];
      TrimStartSpec(t);
      var r := TrimStart(t);
      assert TrimStart(s) == r;
      assert t[|t| - |r|..] == s[|s| - |r|..];
      forall k | 0 <= k < |s| - |r|
        ensures IsSpace(s[k])
      {
        if k > 0 {
          assert s[k] == t[k - 1];
        }
      }
    }
  }

  /** `rstrip` leaves a prefix of `s` that does not end with whitespace, and
      everything it removed is whitespace. */
  lemma {:induction false} TrimEndSpec(s: string)
    ensures var r := TrimEnd(s);
            && |r| <= |s| && r == s[..|r|]
            && (r == [] || !IsSpace(r[|r| - 1]))
            && forall k :: |r| <= k < |s| ==> IsSpace(s[k])
  {
    if s != [] && IsSpace(s[|s| - 1]) {
      var t := s[..|s| - 1];
      TrimEndSpec(t);
      var r := TrimEnd(t);
      assert TrimEnd(s) == r;
      assert t[..|r|] == s[..|r|];
      forall k | |r| <= k < |s|
        ensures IsSpace(s[k])
      {
        if k < |t| {
          assert s[k] == t[k];
        }
      }
    }
  }

  /** `strip` leaves the contiguous part of `s` that neither starts nor ends
      with whitespace once the whitespace at both ends is removed. */
  lemma StripSpec(s: string)
    ensures var r := Strip(s);
            && (r == [] || (!IsSpace(r[0]) && !IsSpace(r[|r| - 1])))
            && exists i :: StrippedAt(s, r, i)
  {
    var t := TrimStart(s);
    TrimStartSpec(s);
    TrimEndSpec(t);
    var r := TrimEnd(t);
    assert StrippedAt(s, r, |s| - |t|);
  }

  /** Stripping twice is stripping once. */
  lemma StripIdempotent(s: string)
    ensures Strip(Strip(s)) == Strip(s)
  {
    StripSpec(s);
  }

  /** `r` is `s` with `s[..i]` and everything after `r` removed, all of which is
      whitespace. */
  ghost predicate StrippedAt(s: string, r: string, i: int)
  {
    && 0 <= i && i + |r| <= |s|
    && r == s[i..i + |r|]
    && (forall k :: 0 <= k < i ==> IsSpace(s[k]))
    && (forall k :: i + |r| <= k < |s| ==> IsSpace(s[k]))
  }
}
