/**
 * Bounded windows over sequences, shared by both simulators.
 *
 * - `LastN` is JavaScript's `slice(-n)`: the most recent `n` entries.
 * - `Take` is JavaScript's `slice(0, n)`: the first `n` entries.
 * - `Slide` is the C++ idiom "push_back, then erase the front when the
 *   container grew past its cap".
 */
module Windows {

  function Min(a: int, b: int): int { if a <= b then a else b }

  /** The last `n` elements of `s`, or all of `s` when it is shorter. */
  function LastN<T>(s: seq<T>, n: nat): (r: seq<T>)
    ensures |r| == Min(|s|, n)
    ensures r == s[|s| - |r|..]
  {
    if |s| <= n then s else s[|s| - n..]
  }

  /** The first `n` elements of `s`, or all of `s` when it is shorter. */
  function Take<T>(s: seq<T>, n: nat): (r: seq<T>)
    ensures |r| == Min(|s|, n)
    ensures r == s[..|r|]
  {
    if |s| <= n then s else s[..n]
  }

  /** Append `x`, then drop the oldest element if the window exceeds `cap`. */
  function Slide<T>(w: seq<T>, x: T, cap: nat): (r: seq<T>)
    ensures |w| <= cap ==> |r| <= cap
  {
    var grown := w + [x];
    if |grown| > cap then grown[1..] else grown
  }

  /** Trimming twice loses nothing: the last `n` of (last `n` of `a`) ++ `b`
      are the last `n` of `a ++ b`. This is why a capped buffer that is
      trimmed after every batch holds the most recent `n` entries ever seen. */
  lemma LastNOfAppend<T>(a: seq<T>, b: seq<T>, n: nat)
    ensures LastN(LastN(a, n) + b, n) == LastN(a + b, n)
  {
    if |a| > n {
      assert LastN(a, n) + b == (a + b)[|a| - n..];
      LastNOfSuffix(a + b, |a| - n, n);
    }
  }

  /** Dropping a prefix that leaves at least `n` elements keeps the last `n`. */
  lemma LastNOfSuffix<T>(s: seq<T>, k: nat, n: nat)
    requires k + n <= |s|
    ensures LastN(s[k..], n) == LastN(s, n)
  {
    assert s[k..][|s| - k - n..] == s[|s| - n..];
  }

  /** One `Slide` step on a window within its cap keeps exactly the most
      recent `cap` values: FIFO order, length at most `cap`. */
  lemma SlideIsLastN<T>(w: seq<T>, x: T, cap: nat)
    requires |w| <= cap
    ensures Slide(w, x, cap) == LastN(w + [x], cap)
    ensures |Slide(w, x, cap)| <= cap
  {
  }

  /** A window kept by `Slide` from the start is the last `cap` values of
      everything that was ever pushed. */
  lemma {:induction false} SlideHistory<T>(h: seq<T>, x: T, cap: nat)
    ensures Slide(LastN(h, cap), x, cap) == LastN(h + [x], cap)
  {
    SlideIsLastN(LastN(h, cap), x, cap);
    LastNOfAppend(h, [x], cap);
  }

  /** Prepending to a prefix of at most `n - 1` entries is the first `n`
      entries of the prepended stream; a newest-first log capped this way is
      always the `n` most recent entries. */
  lemma {:induction false} PrependTake<T>(h: seq<T>, e: T, n: nat)
    requires n >= 1
    ensures [e] + Take(Take(h, n), n - 1) == Take([e] + h, n)
  {
    var lhs := [e] + Take(Take(h, n), n - 1);
    var rhs := Take([e] + h, n);
    assert |lhs| == |rhs|;
    forall k | 0 <= k < |lhs| ensures lhs[k] == rhs[k] {
      if k > 0 {
        assert lhs[k] == Take(h, n)[k - 1] == h[k - 1];
      }
    }
  }
}
