/**
 * Python's slicing of lists and strings with one bound, for any integer bound:
 * a negative bound counts from the end and every bound is clipped to the length.
 */
module Slices {

  function Min(a: int, b: int): int { if a <= b then a else b }

  function Max(a: int, b: int): int { if a >= b then a else b }

  /** `s[:k]` */
  function Prefix<T>(s: seq<T>, k: int): (r: seq<T>)
    ensures |r| == if k >= 0 then Min(k, |s|) else Max(0, |s| + k)
    ensures r == s[..|r|]
  {
    if k >= 0 then
      (if k <= |s| then s[..k] else s)
    else
      (if |s| + k >= 0 then s[..|s| + k] else [])
  }

  /** `s[k:]` */
  function Suffix<T>(s: seq<T>, k: int): (r: seq<T>)
    ensures |r| == if k >= 0 then Max(0, |s| - k) else Min(-k, |s|)
    ensures r == s[|s| - |r|..]
  {
    if k >= 0 then
      (if k <= |s| then s[k..] else [])
    else
      (if |s| + k >= 0 then s[|s| + k..] else s)
  }
}
