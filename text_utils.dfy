/** `truncate` from the shared utilities. */
module TextUtils {
  import opened Strings

  /** `str.slice(0, end)`: a negative end counts from the back. */
  function SliceTo(s: string, end: int): (r: string)
    ensures StartsWith(s, r)
    ensures 0 <= end ==> |r| == Min(|s|, end)
    ensures end < 0 ==> |r| == if |s| + end < 0 then 0 else |s| + end
  {
    if end >= 0 then Take(s, end)
    else if |s| + end < 0 then [] else s[..|s| + end]
  }

  /**
   * `truncate(str, length)`: a string within the length comes back as is;
   * a longer one keeps a prefix of itself, as `slice(0, length)` measures
   * it, followed by "...".
   */
  function Truncate(s: string, length: int): (r: string)
    ensures |s| <= length ==> r == s
    ensures |s| > length ==> && EndsWith(r, "...")
                             && StartsWith(s, r[..|r| - 3])
                             && |r| - 3 == (if 0 <= length then length else if |s| + length < 0 then 0 else |s| + length)
    ensures 0 <= length ==> && |r| == (if |s| <= length then |s| else length + 3)
                            && StartsWith(r, s[..Min(|s|, length)])
  {
    if |s| > length then SliceTo(s, length) + "..." else s
  }
}
