/** The JavaScript string primitives the translation layer relies on. */
module Strings {

  /** `s.lastIndexOf(c)` for a one-character needle: the position of the last
      occurrence of `c` in `s`, or -1 when `c` does not occur. */
  function LastIndexOf(s: string, c: char): (r: int)
    ensures -1 <= r < |s|
    ensures r >= 0 ==> s[r] == c
    ensures forall j :: r < j < |s| ==> s[j] != c
  {
    if |s| == 0 then -1
    else if s[|s| - 1] == c then |s| - 1
    else LastIndexOf(s[..|s| - 1], c)
  }

  /** The contract of `LastIndexOf` pins its result down: any `k` that is an
      occurrence of `c` (or -1) with no occurrence after it is the answer. */
  lemma LastIndexOfUnique(s: string, c: char, k: int)
    requires -1 <= k < |s|
    requires k >= 0 ==> s[k] == c
    requires forall j :: k < j < |s| ==> s[j] != c
    ensures LastIndexOf(s, c) == k
  {
  }
}
