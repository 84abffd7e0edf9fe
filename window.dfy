/**
 * The bounded history the engine keeps in a `collections.deque(maxlen=cap)`:
 * appending to a full deque drops its oldest entry, and a deque of capacity 0
 * stays empty.
 */
module Window {

  function Min(a: nat, b: nat): nat {
    if a < b then a else b
  }

  /** The last `min(cap, |s|)` entries of `s`, oldest first. */
  function Last<T>(cap: nat, s: seq<T>): (w: seq<T>)
    ensures |w| == Min(cap, |s|)
    ensures w == s[|s| - |w|..]
  {
    s[|s| - Min(cap, |s|)..]
  }

  /** `deque.append(x)` on a deque created with `maxlen=cap`. */
  function Push<T>(window: seq<T>, x: T, cap: nat): seq<T> {
    if |window| < cap then window + [x]
    else if window == [] then []
    else window[1..] + [x]
  }

  /** Pushing onto the window of `s` gives the window of `s + [x]`: the deque always holds a suffix. */
  lemma PushLast<T>(cap: nat, s: seq<T>, x: T)
    ensures Push(Last(cap, s), x, cap) == Last(cap, s + [x])
  {
    var w := Last(cap, s);
    var t := s + [x];
    if |w| < cap {
      assert w + [x] == t[|t| - Min(cap, |t|)..];
    } else if w != [] {
      assert w[1..] + [x] == t[|t| - Min(cap, |t|)..];
    }
  }

  /** A window never holds more than its capacity. */
  lemma PushBounded<T>(window: seq<T>, x: T, cap: nat)
    requires |window| <= cap
    ensures |Push(window, x, cap)| <= cap
    ensures cap > 0 ==> Push(window, x, cap)[|Push(window, x, cap)| - 1] == x
  {
  }
}
