/** Time and counting vocabulary shared by every component.
    Instants and durations are nanoseconds; instant 0 is the zero time, which no clock reading precedes. */
module Units {
  type Time = nat

  datatype Option<+T> = None | Some(value: T)

  const SECOND: nat := 1_000_000_000
  const MINUTE: nat := 60 * SECOND
  const HOUR: nat := 60 * MINUTE

  function Min(a: int, b: int): int {
    if a <= b then a else b
  }

  function Max(a: int, b: int): int {
    if a >= b then a else b
  }
}

/** Cardinality arguments: fibres of a finite set, and sums over a finite map. */
module Counting {

  ghost function Fiber<S, K>(s: set<S>, f: S -> K, k: K): set<S> {
    set x | x in s && f(x) == k
  }

  /** A set that maps into `keys` with at most `bound` elements over each key has at most `bound * |keys|` elements. */
  lemma {:induction false} FiberBound<S(!new), K(!new)>(s: set<S>, f: S -> K, keys: set<K>, bound: nat)
    requires forall x :: x in s ==> f(x) in keys
    requires forall k :: k in keys ==> |Fiber(s, f, k)| <= bound
    ensures |s| <= bound * |keys|
    decreases |keys|
  {
    if keys == {} {
      assert s == {};
    } else {
      var k :| k in keys;
      var fiber := Fiber(s, f, k);
      var rest := s - fiber;
      forall k' | k' in keys - {k}
        ensures |Fiber(rest, f, k')| <= bound
      {
        assert Fiber(rest, f, k') == Fiber(s, f, k');
      }
      FiberBound(rest, f, keys - {k}, bound);
      assert |s| == |rest| + |fiber|;
      assert |keys| == |keys - {k}| + 1;
      assert bound * |keys| == bound * |keys - {k}| + bound;
    }
  }

  lemma SubsetSize<T>(a: set<T>, b: set<T>)
    requires a <= b
    ensures |a| <= |b|
  {
    assert b == a + (b - a);
  }
}

module Powers {
  function Pow2(n: nat): (p: nat)
    ensures p >= 1
  {
    if n == 0 then 1 else 2 * Pow2(n - 1)
  }

  /** The powers that backoff runs through. */
  lemma Pow2Table()
    ensures Pow2(0) == 1 && Pow2(1) == 2 && Pow2(2) == 4 && Pow2(3) == 8
    ensures Pow2(4) == 16 && Pow2(5) == 32 && Pow2(6) == 64 && Pow2(7) == 128 && Pow2(8) == 256
  {
    assert Pow2(1) == 2 * Pow2(0);
    assert Pow2(2) == 2 * Pow2(1);
    assert Pow2(3) == 2 * Pow2(2);
    assert Pow2(4) == 2 * Pow2(3);
    assert Pow2(5) == 2 * Pow2(4);
    assert Pow2(6) == 2 * Pow2(5);
    assert Pow2(7) == 2 * Pow2(6);
    assert Pow2(8) == 2 * Pow2(7);
  }
}

/** Doubling delays clamped to [lo, hi], and the spacing they force on a run of failures. */
module Backoff {
  import opened Units
  import opened Powers

  /** The update both backoff tables perform on a failure. */
  function NextDelay(delay: nat, lo: nat, hi: nat): nat {
    Min(Max(delay * 2, lo), hi)
  }

  /** The delay after `n` failures in a row. */
  function Delay(n: nat, lo: nat, hi: nat): nat {
    if n == 0 then 0 else Min(lo * Pow2(n - 1), hi)
  }

  lemma DelayStep(n: nat, lo: nat, hi: nat)
    requires 0 < lo <= hi
    ensures NextDelay(Delay(n, lo, hi), lo, hi) == Delay(n + 1, lo, hi)
    ensures lo <= Delay(n + 1, lo, hi) <= hi
  {
    if n > 0 {
      var p := lo * Pow2(n - 1);
      assert p >= lo by { assert Pow2(n - 1) >= 1; }
      assert lo * Pow2(n) == 2 * p;
    }
    assert lo * Pow2(n) >= lo by { assert Pow2(n) >= 1; }
  }

  /** Each failure comes at least the delay imposed by the failures before it after its predecessor. */
  ghost predicate Spaced(times: seq<Time>, lo: nat, hi: nat) {
    forall i {:trigger times[i]} :: 0 < i < |times| ==> times[i] >= times[i - 1] + Delay(i, lo, hi)
  }

  /** Delay(1) + ... + Delay(k). */
  function TotalDelay(k: nat, lo: nat, hi: nat): nat {
    if k == 0 then 0 else TotalDelay(k - 1, lo, hi) + Delay(k, lo, hi)
  }

  lemma {:induction false} SpacedTotal(times: seq<Time>, lo: nat, hi: nat, k: nat)
    requires Spaced(times, lo, hi)
    requires k < |times|
    ensures times[k] >= times[0] + TotalDelay(k, lo, hi)
  {
    if k == 0 {
    } else {
      SpacedTotal(times, lo, hi, k - 1);
    }
  }

  lemma SpacedAppend(times: seq<Time>, t: Time, lo: nat, hi: nat)
    requires Spaced(times, lo, hi)
    requires times != [] ==> t >= times[|times| - 1] + Delay(|times|, lo, hi)
    ensures Spaced(times + [t], lo, hi)
  {
    var longer := times + [t];
    forall i | 0 < i < |longer| ensures longer[i] >= longer[i - 1] + Delay(i, lo, hi) {
      assert longer[i - 1] == times[i - 1];
      if i < |times| { assert longer[i] == times[i]; }
    }
  }
}
