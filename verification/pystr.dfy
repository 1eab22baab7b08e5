/** The few Python string operations the server relies on, with Python's
    semantics written out: slices clamp their bounds instead of failing,
    and `rstrip` removes every trailing occurrence of a character. */
module PyStr {

  function Min(a: int, b: int): int { if a <= b then a else b }

  /** Python's `s[lo:hi]` for non-negative bounds: each bound is clamped to
      the length of `s`, and the slice is empty when `lo >= hi`. */
  function Slice(s: string, lo: nat, hi: nat): (r: string)
    ensures |r| == if hi <= lo || |s| <= lo then 0 else Min(hi, |s|) - lo
    ensures forall k :: 0 <= k < |r| ==> r[k] == s[lo + k]
    ensures lo <= hi <= |s| ==> r == s[lo..hi]
  {
    if hi <= lo || |s| <= lo then "" else s[lo..Min(hi, |s|)]
  }

  /** Python's `s.rstrip(c)` for a one-character argument: the longest
      prefix of `s` that does not end in `c`; everything removed is `c`. */
  function RStrip(s: string, c: char): (r: string)
    ensures r <= s
    ensures r == [] || r[|r| - 1] != c
    ensures forall k :: |r| <= k < |s| ==> s[k] == c
    decreases |s|
  {
    if |s| > 0 && s[|s| - 1] == c then RStrip(s[..|s| - 1], c) else s
  }

  /** Python's `s.startswith(p)`. */
  predicate StartsWith(s: string, p: string) {
    |p| <= |s| && s[..|p|] == p
  }

  /** Appending `c` before stripping it changes nothing: `(s + c).rstrip(c)`
      equals `s.rstrip(c)`. */
  lemma RStripAbsorbs(s: string, c: char)
    ensures RStrip(s + [c], c) == RStrip(s, c)
  {
  }
}
