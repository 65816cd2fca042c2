/** jade3/utils.py: `slim_history`, the history trimmer that pins the head. */
module Slim {

  /** Python's `s[a:]` for any integer `a`; a negative `a` counts from the end. */
  function SliceFrom<T>(s: seq<T>, a: int): (r: seq<T>)
    ensures a >= 0 ==> r == s[if a <= |s| then a else |s|..]
    ensures a < 0 ==> r == s[if -a <= |s| then |s| + a else 0..]
  {
    if a >= 0 then s[if a <= |s| then a else |s|..]
    else s[if -a <= |s| then |s| + a else 0..]
  }

  /** `[hist[0]] + hist[-(keep-1):]` when `hist` is longer than `keep`, else `hist`.
      Trimming reads `hist[0]`, so an empty history with a negative `keep` would
      raise; that is the one input excluded. */
  function SlimHistory<T>(hist: seq<T>, keep: int): (r: seq<T>)
    requires hist != [] || keep >= 0
    ensures |hist| <= keep ==> r == hist
    ensures |hist| > keep ==> r != [] && r[0] == hist[0]
    ensures keep >= 2 && |hist| > keep ==> |r| == keep && r[1..] == hist[|hist| - (keep - 1)..]
    ensures keep == 1 && |hist| > 1 ==> r == [hist[0]] + hist
  {
    if |hist| > keep then [hist[0]] + SliceFrom(hist, -(keep - 1)) else hist
  }

  /** With `keep >= 2` the result never exceeds `keep`, and trimming is idempotent. */
  lemma SlimHistoryIdempotent<T>(hist: seq<T>, keep: int)
    requires keep >= 2
    ensures |SlimHistory(hist, keep)| <= keep
    ensures SlimHistory(SlimHistory(hist, keep), keep) == SlimHistory(hist, keep)
  {
  }

  /** With `keep == 1`, `-(keep-1)` is `-0 == 0`, so the slice is the whole list:
      the "trimmed" history is one element LONGER than the input, and applying it
      again grows it again. */
  lemma SlimHistoryKeepOneGrows<T>(hist: seq<T>)
    requires |hist| > 1
    ensures |SlimHistory(hist, 1)| == |hist| + 1
    ensures |SlimHistory(SlimHistory(hist, 1), 1)| == |hist| + 2
  {
  }
}
