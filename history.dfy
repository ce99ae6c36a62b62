/** Bounded, oldest-first histories: a body's trail of past positions
    (append, then drop the head once the length exceeds 500) and the drag
    controller's window of cursor samples (a deque with a maximum length
    of 10). Both are the same operation on a sequence. */
module History {
  /** Append `x`, then drop the oldest entry if the result is longer than `cap`. */
  function Push<T>(s: seq<T>, x: T, cap: nat): (r: seq<T>)
    requires cap > 0
    ensures |r| > 0 && r[|r| - 1] == x
    ensures |s| < cap ==> r == s + [x]
    ensures |s| >= cap ==> |r| == |s| && r == s[1..] + [x]
    ensures |s| <= cap ==> |r| <= cap
  {
    var t := s + [x];
    if |t| > cap then t[1..] else t
  }
}
