/** Python's collections.deque created with a maxlen, as used for every bounded
    buffer of the pipeline: appends go to the right end, and an append to a full
    deque first evicts the leftmost (oldest) entry. */
module Deques {

  /** deque.append(x) on a deque holding q with maxlen cap. A maxlen of 0 keeps
      the deque empty. The result is the newest entries of q + [x], as many as fit. */
  function Append<T>(q: seq<T>, x: T, cap: nat): (r: seq<T>)
    requires |q| <= cap
    ensures |r| == if |q| < cap then |q| + 1 else cap
    ensures cap > 0 ==> r[|r| - 1] == x
  {
    if |q| < cap then q + [x] else (q + [x])[1..]
  }

  /** The append keeps the newest entries in order: the result is a suffix of
      q + [x], so whatever is evicted is the oldest. */
  lemma AppendEvictsOldest<T>(q: seq<T>, x: T, cap: nat)
    requires |q| <= cap
    ensures var r := Append(q, x, cap); r == (q + [x])[|q| + 1 - |r|..]
  {
  }

  /** The last min(cap, |s|) entries of s: what a deque with maxlen cap holds
      after every entry of s has been appended to it, in order. */
  function Window<T>(s: seq<T>, cap: nat): (r: seq<T>)
    ensures |r| <= cap && |r| <= |s|
  {
    if |s| <= cap then s else s[|s| - cap..]
  }

  /** Appending to the window of a stream gives the window of the longer stream:
      the deque keeps the newest cap entries and evicts oldest first. */
  lemma WindowAppend<T>(s: seq<T>, x: T, cap: nat)
    ensures Window(s + [x], cap) == Append(Window(s, cap), x, cap)
  {
    var w := Window(s, cap);
    if |s| < cap {
      assert Window(s + [x], cap) == s + [x];
    } else if |s| == cap {
      assert w == s;
      assert Window(s + [x], cap) == (s + [x])[1..];
    } else {
      assert (s + [x])[|s| + 1 - cap..] == (w + [x])[1..];
    }
  }
}
