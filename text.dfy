/**
 * The Python string primitives the omnibox relies on: `str.isspace` on one
 * character, `str.strip()`, `str.split(None, 1)` and `str.lower()`. Strip
 * and split are written the way CPython computes them, by walking indices
 * over the string.
 */
module Text {

  /** Python's notion of whitespace for `strip()` and `split()` with no separator. */
  predicate IsSpace(c: char)
  {
    ('\t' <= c <= '\r') || ('\U{1c}' <= c <= '\U{1f}') || c == ' '
    || c == '\U{85}' || c == '\U{a0}' || c == '\U{1680}'
    || ('\U{2000}' <= c <= '\U{200a}') || c == '\U{2028}' || c == '\U{2029}'
    || c == '\U{202f}' || c == '\U{205f}' || c == '\U{3000}'
  }

  /** Every character of `s[lo..hi]` is whitespace. */
  predicate SpaceRange(s: string, lo: nat, hi: nat)
    requires lo <= hi <= |s|
  {
    forall p :: lo <= p < hi ==> IsSpace(s[p])
  }

  /** No character of `s[lo..hi]` is whitespace. */
  predicate TokenRange(s: string, lo: nat, hi: nat)
    requires lo <= hi <= |s|
  {
    forall p :: lo <= p < hi ==> !IsSpace(s[p])
  }

  /** Blank: empty or whitespace only. */
  predicate AllSpace(s: string)
  {
    SpaceRange(s, 0, |s|)
  }

  predicate NoSpace(s: string)
  {
    TokenRange(s, 0, |s|)
  }

  /** Neither starts nor ends with whitespace. */
  predicate Trimmed(s: string)
  {
    s == [] || (!IsSpace(s[0]) && !IsSpace(s[|s| - 1]))
  }

  /** The first index at or after `i` that is not whitespace (or the end). */
  function SkipSpace(s: string, i: nat): (r: nat)
    requires i <= |s|
    ensures i <= r <= |s| && SpaceRange(s, i, r)
    ensures r < |s| ==> !IsSpace(s[r])
    decreases |s| - i
  {
    if i < |s| && IsSpace(s[i]) then SkipSpace(s, i + 1) else i
  }

  /** The first index at or after `i` that is whitespace (or the end). */
  function SkipToken(s: string, i: nat): (r: nat)
    requires i <= |s|
    ensures i <= r <= |s| && TokenRange(s, i, r)
    ensures r < |s| ==> IsSpace(s[r])
    decreases |s| - i
  {
    if i < |s| && !IsSpace(s[i]) then SkipToken(s, i + 1) else i
  }

  /** The smallest index down to `i` such that `s[r..j]` is all whitespace. */
  function TrimEnd(s: string, i: nat, j: nat): (r: nat)
    requires i <= j <= |s|
    ensures i <= r <= j && SpaceRange(s, r, j)
    ensures i < r ==> !IsSpace(s[r - 1])
    decreases j
  {
    if i < j && IsSpace(s[j - 1]) then TrimEnd(s, i, j - 1) else j
  }

  /** SkipSpace is determined by what it promises. */
  lemma SkipSpaceAt(s: string, i: nat, r: nat)
    requires i <= r <= |s| && SpaceRange(s, i, r)
    requires r < |s| ==> !IsSpace(s[r])
    ensures SkipSpace(s, i) == r
  {
  }

  /** SkipToken is determined by what it promises. */
  lemma SkipTokenAt(s: string, i: nat, r: nat)
    requires i <= r <= |s| && TokenRange(s, i, r)
    requires r < |s| ==> IsSpace(s[r])
    ensures SkipToken(s, i) == r
  {
  }

  /** TrimEnd is determined by what it promises. */
  lemma TrimEndAt(s: string, i: nat, j: nat, r: nat)
    requires i <= r <= j <= |s| && SpaceRange(s, r, j)
    requires i < r ==> !IsSpace(s[r - 1])
    ensures TrimEnd(s, i, j) == r
  {
  }

  /** `s.strip()`: `s` without its leading and trailing whitespace. */
  function Strip(s: string): (r: string)
    ensures Trimmed(r) && |r| <= |s|
    ensures r == [] <==> AllSpace(s)
  {
    var i := SkipSpace(s, 0);
    var e := TrimEnd(s, i, |s|);
    assert i == |s| ==> SpaceRange(s, i, |s|);
    s[i..e]
  }

  /**
   * Strip returns exactly the part between a whitespace prefix and a
   * whitespace suffix that neither starts nor ends with whitespace.
   */
  lemma StripAt(s: string, i: nat, e: nat)
    requires i <= e <= |s| && SpaceRange(s, 0, i) && SpaceRange(s, e, |s|)
    requires i < e ==> !IsSpace(s[i]) && !IsSpace(s[e - 1])
    ensures Strip(s) == s[i..e]
  {
    if i < e {
      SkipSpaceAt(s, 0, i);
      TrimEndAt(s, i, |s|, e);
    } else {
      var q := SkipSpace(s, 0);
      assert SpaceRange(s, 0, |s|) by {
        forall p | 0 <= p < |s| ensures IsSpace(s[p]) {
          if p >= i { assert p >= e; }
        }
      }
      assert Strip(s) == [];
    }
  }

  /** A trimmed string is its own strip. */
  lemma StripTrimmed(s: string)
    requires Trimmed(s)
    ensures Strip(s) == s
  {
    StripAt(s, 0, |s|);
    assert s[0..|s|] == s;
  }

  /** A whitespace range of `s` is one of its suffix `s[g..]`, shifted by `g`. */
  lemma SuffixSpaceRange(s: string, g: nat, lo: nat, hi: nat)
    requires lo <= hi && g + hi <= |s| && SpaceRange(s, g + lo, g + hi)
    ensures SpaceRange(s[g..], lo, hi)
  {
    forall p | lo <= p < hi
      ensures IsSpace(s[g..][p])
    {
      assert s[g..][p] == s[g + p];
    }
  }

  /** A slice of the suffix `s[g..]` is the slice of `s` shifted by `g`. */
  lemma SliceOfSuffix(s: string, g: nat, a: nat, b: nat)
    requires g <= a <= b <= |s|
    ensures s[g..][a - g..b - g] == s[a..b]
  {
  }

  /** StripAt, stated for a suffix `s[g..]` in the indices of `s`. */
  lemma StripSuffixAt(s: string, g: nat, i: nat, e: nat)
    requires g <= i <= e <= |s| && SpaceRange(s, g, i) && SpaceRange(s, e, |s|)
    requires i < e ==> !IsSpace(s[i]) && !IsSpace(s[e - 1])
    ensures Strip(s[g..]) == s[i..e]
  {
    SuffixSpaceRange(s, g, 0, i - g);
    SuffixSpaceRange(s, g, e - g, |s| - g);
    if i < e {
      assert s[g..][i - g] == s[i] && s[g..][e - g - 1] == s[e - 1];
    }
    StripAt(s[g..], i - g, e - g);
    SliceOfSuffix(s, g, i, e);
  }

  /** Dropping some leading whitespace first does not change the strip. */
  lemma StripDropsLeadingSpace(s: string, g: nat)
    requires g <= |s| && SpaceRange(s, 0, g)
    ensures Strip(s[g..]) == Strip(s)
  {
    var i := SkipSpace(s, 0);
    var e := TrimEnd(s, i, |s|);
    assert g <= i;
    StripSuffixAt(s, g, i, e);
    StripAt(s, i, e);
  }

  /** `c.lower()` for one character; only the ASCII letters are mapped. */
  function LowerChar(c: char): char
  {
    if 'A' <= c <= 'Z' then (c as int + 32) as char else c
  }

  predicate HasNoUpper(s: string)
  {
    forall i :: 0 <= i < |s| ==> !('A' <= s[i] <= 'Z')
  }

  /** `s.lower()`, character by character. */
  function Lower(s: string): (r: string)
    ensures |r| == |s| && HasNoUpper(r)
    ensures forall i :: 0 <= i < |s| ==> (IsSpace(r[i]) <==> IsSpace(s[i]))
    ensures HasNoUpper(s) ==> r == s
  {
    seq(|s|, i requires 0 <= i < |s| => LowerChar(s[i]))
  }

  lemma LowerConcat(a: string, b: string)
    ensures Lower(a + b) == Lower(a) + Lower(b)
  {
    assert forall i :: 0 <= i < |a + b| ==> Lower(a + b)[i] == (Lower(a) + Lower(b))[i];
  }

  /**
   * `s.split(None, 1)`: skip leading whitespace, take the first run of
   * non-whitespace, skip the whitespace after it, and keep whatever is left
   * (trailing whitespace included) as a second item when it is not empty.
   */
  function SplitOnce(s: string): (r: seq<string>)
    ensures |r| <= 2
    ensures r == [] <==> AllSpace(s)
    ensures forall k :: 0 <= k < |r| ==> r[k] != []
    ensures |r| >= 1 ==> NoSpace(r[0])
    ensures |r| == 2 ==> !IsSpace(r[1][0])
  {
    var i := SkipSpace(s, 0);
    if i == |s| then []
    else
      var j := SkipToken(s, i + 1);
      var k := SkipSpace(s, j);
      if k == |s| then [s[i..j]] else [s[i..j], s[k..]]
  }
}
