/** Rust's `str::replace(pattern, replacement)` and the per-frame
    `iter().map(|x| x.replace(..)).collect()` that every patch macro is
    built from. */
module TextReplace {

  /** True when `pat` occurs in `s` starting at position `i`. */
  predicate OccursAt(s: string, pat: string, i: nat) {
    i + |pat| <= |s| && s[i..i + |pat|] == pat
  }

  /** `s.replace(pat, rep)`: scan from the left; at each position where
      `pat` starts, emit `rep` and resume after the match, otherwise copy
      one character. Matches therefore never overlap. An empty pattern
      matches at every character boundary, as in Rust. */
  function Replace(s: string, pat: string, rep: string): (r: string)
    ensures |pat| == |rep| ==> |r| == |s|
    ensures |pat| > 0 && |s| < |pat| ==> r == s
    decreases |s|
  {
    if |pat| == 0 then
      if |s| == 0 then rep else rep + [s[0]] + Replace(s[1..], pat, rep)
    else if |s| < |pat| then s
    else if s[..|pat|] == pat then rep + Replace(s[|pat|..], pat, rep)
    else [s[0]] + Replace(s[1..], pat, rep)
  }

  /** Replacing a pattern by itself changes nothing. */
  lemma {:induction false} ReplaceSelf(s: string, pat: string)
    ensures Replace(s, pat, pat) == s
    decreases |s|
  {
    if |pat| == 0 {
      if |s| > 0 {
        ReplaceSelf(s[1..], pat);
        assert s == [s[0]] + s[1..];
      }
    } else if |s| >= |pat| {
      if s[..|pat|] == pat {
        ReplaceSelf(s[|pat|..], pat);
        assert s == s[..|pat|] + s[|pat|..];
      } else {
        ReplaceSelf(s[1..], pat);
        assert s == [s[0]] + s[1..];
      }
    }
  }

  /** Occurrences in the tail of a text are the occurrences one position
      further on in the text. */
  lemma OccursShift(s: string, pat: string, i: nat)
    requires |s| > 0
    ensures OccursAt(s[1..], pat, i) == OccursAt(s, pat, i + 1)
  {
    if i + |pat| <= |s[1..]| {
      assert s[1..][i..i + |pat|] == s[i + 1..i + 1 + |pat|];
    }
  }

  /** Occurrences after a prefix of length `n` are the occurrences `n`
      positions further on in the text. */
  lemma OccursDrop(s: string, pat: string, n: nat, i: nat)
    requires n <= |s|
    ensures OccursAt(s[n..], pat, i) == OccursAt(s, pat, i + n)
  {
    if i + |pat| <= |s[n..]| {
      assert s[n..][i..i + |pat|] == s[i + n..i + n + |pat|];
    }
  }

  /** One differing character rules out an occurrence. */
  lemma Mismatch(s: string, pat: string, i: nat, k: nat)
    requires i + |pat| <= |s| ==> k < |pat| && s[i + k] != pat[k]
    ensures !OccursAt(s, pat, i)
  {
    if i + |pat| <= |s| {
      assert s[i..i + |pat|][k] != pat[k];
    }
  }

  /** Where the pattern does not occur, nothing changes. */
  lemma {:induction false} ReplaceAbsent(s: string, pat: string, rep: string)
    requires |pat| > 0
    requires forall i: nat | i <= |s| :: !OccursAt(s, pat, i)
    ensures Replace(s, pat, rep) == s
    decreases |s|
  {
    if |s| >= |pat| {
      assert !OccursAt(s, pat, 0);
      forall i: nat | i <= |s[1..]| ensures !OccursAt(s[1..], pat, i) {
        OccursShift(s, pat, i);
      }
      ReplaceAbsent(s[1..], pat, rep);
      assert s == [s[0]] + s[1..];
    }
  }

  /** An occurrence at the very start, with no further occurrence, is
      replaced and the rest copied. */
  lemma ReplaceAtStart(s: string, pat: string, rep: string)
    requires |pat| > 0 && OccursAt(s, pat, 0)
    requires forall i: nat | |pat| <= i <= |s| :: !OccursAt(s, pat, i)
    ensures Replace(s, pat, rep) == rep + s[|pat|..]
  {
    var tail := s[|pat|..];
    forall i: nat | i <= |tail| ensures !OccursAt(tail, pat, i) {
      OccursDrop(s, pat, |pat|, i);
    }
    ReplaceAbsent(tail, pat, rep);
  }

  /** The first occurrence at `k`, with no further occurrence after it, is
      the only place that changes. */
  lemma {:induction false} ReplaceOnce(s: string, pat: string, rep: string, k: nat)
    requires |pat| > 0 && OccursAt(s, pat, k)
    requires forall i: nat | i < k :: !OccursAt(s, pat, i)
    requires forall i: nat | k + |pat| <= i <= |s| :: !OccursAt(s, pat, i)
    ensures Replace(s, pat, rep) == s[..k] + rep + s[k + |pat|..]
    decreases k
  {
    if k == 0 {
      ReplaceAtStart(s, pat, rep);
    } else {
      var t := s[1..];
      OccursShift(s, pat, k - 1);
      forall i: nat | i < k - 1 ensures !OccursAt(t, pat, i) {
        OccursShift(s, pat, i);
      }
      forall i: nat | k - 1 + |pat| <= i <= |t| ensures !OccursAt(t, pat, i) {
        OccursShift(s, pat, i);
      }
      ReplaceOnce(t, pat, rep, k - 1);
      ReplaceStep(s, pat, rep);
      SpliceShift(s, rep, k, |pat|);
    }
  }

  lemma SpliceShift(s: string, rep: string, k: nat, n: nat)
    requires 0 < k && k + n <= |s|
    ensures [s[0]] + (s[1..][..k - 1] + rep + s[1..][k - 1 + n..]) == s[..k] + rep + s[k + n..]
  {
    assert s[..k] == [s[0]] + s[1..][..k - 1];
    assert s[1..][k - 1 + n..] == s[k + n..];
  }

  /** One step of the scan past a position where the pattern does not start. */
  lemma ReplaceStep(s: string, pat: string, rep: string)
    requires |pat| > 0 && |s| > 0 && !OccursAt(s, pat, 0)
    ensures Replace(s, pat, rep) == [s[0]] + Replace(s[1..], pat, rep)
  {
    if |s| < |pat| {
      assert s == [s[0]] + s[1..];
    }
  }

  /** A text exactly as long as the pattern is either the pattern, and is
      replaced whole, or is left alone. */
  lemma ReplaceWhole(s: string, pat: string, rep: string)
    requires |pat| > 0 && |s| == |pat|
    ensures Replace(s, pat, rep) == if s == pat then rep else s
  {
    if s != pat {
      assert s[..|pat|] == s;
      assert Replace(s[1..], pat, rep) == s[1..];
      assert s == [s[0]] + s[1..];
    }
  }

  /** `frames.iter().map(|x| x.replace(pat, rep)).collect()`. */
  function ReplaceAll(frames: seq<string>, pat: string, rep: string): (r: seq<string>)
    ensures |r| == |frames|
  {
    seq(|frames|, i requires 0 <= i < |frames| => Replace(frames[i], pat, rep))
  }

  /** All frames of the given width. */
  predicate UniformWidth(frames: seq<string>, width: nat) {
    forall i | 0 <= i < |frames| :: |frames[i]| == width
  }

  /** When every frame is exactly as wide as the pattern, the patch swaps
      each frame equal to the pattern for the replacement and keeps every
      other frame. */
  lemma ReplaceAllWhole(frames: seq<string>, pat: string, rep: string)
    requires |pat| > 0 && UniformWidth(frames, |pat|)
    ensures |ReplaceAll(frames, pat, rep)| == |frames|
    ensures forall i | 0 <= i < |frames| ::
      ReplaceAll(frames, pat, rep)[i] == if frames[i] == pat then rep else frames[i]
  {
    forall i | 0 <= i < |frames|
      ensures ReplaceAll(frames, pat, rep)[i] == if frames[i] == pat then rep else frames[i]
    {
      ReplaceWhole(frames[i], pat, rep);
    }
  }

  lemma ReplaceAllSelf(frames: seq<string>, pat: string)
    ensures ReplaceAll(frames, pat, pat) == frames
  {
    forall i | 0 <= i < |frames| ensures ReplaceAll(frames, pat, pat)[i] == frames[i] {
      ReplaceSelf(frames[i], pat);
    }
  }

  /** Applying the same whole-frame patch twice gives the result of
      applying it once. */
  lemma ReplaceAllIdempotent(frames: seq<string>, pat: string, rep: string)
    requires |pat| > 0 && |rep| == |pat| && UniformWidth(frames, |pat|)
    ensures ReplaceAll(ReplaceAll(frames, pat, rep), pat, rep) == ReplaceAll(frames, pat, rep)
  {
    var once := ReplaceAll(frames, pat, rep);
    ReplaceAllWhole(frames, pat, rep);
    ReplaceAllWhole(once, pat, rep);
  }
}
