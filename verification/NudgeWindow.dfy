/** The rolling window of nudges.  A nudge is recorded with its iteration; the run is stopped when enough of
    them fall into the trailing window, and the window forgets the rest. */
module NudgeWindow {

  /** The iterations of `h` from `lo` on. */
  function Since(h: seq<int>, lo: int): seq<int> {
    if h == [] then []
    else Since(h[..|h| - 1], lo) + if h[|h| - 1] >= lo then [h[|h| - 1]] else []
  }

  predicate Ordered(h: seq<int>) {
    forall i, j :: 0 <= i < j < |h| ==> h[i] <= h[j]
  }

  lemma SinceOneMore(h: seq<int>, e: int, lo: int)
    ensures Since(h + [e], lo) == Since(h, lo) + if e >= lo then [e] else []
  {
    assert (h + [e])[..|h|] == h;
  }

  /** Forgetting early and then later is forgetting later. */
  lemma {:induction false} SinceTwice(h: seq<int>, lo: int, lo': int)
    requires lo <= lo'
    ensures Since(Since(h, lo), lo') == Since(h, lo')
  {
    if h != [] {
      var init, last := h[..|h| - 1], h[|h| - 1];
      SinceTwice(init, lo, lo');
      if last >= lo {
        assert Since(h, lo) == Since(init, lo) + [last];
        SinceOneMore(Since(init, lo), last, lo');
      } else {
        assert Since(h, lo) == Since(init, lo) && Since(h, lo') == Since(init, lo');
      }
    }
  }

  function Current(h: seq<int>, window: nat): seq<int> {
    if h == [] then [] else Since(h, h[|h| - 1] - window + 1)
  }

  lemma PrunedThenRecorded(h: seq<int>, iter: int, lo: int, cutoff: int)
    requires lo <= cutoff
    ensures Since(Since(h, lo) + [iter], cutoff) == Since(h + [iter], cutoff)
  {
    SinceOneMore(Since(h, lo), iter, cutoff);
    SinceTwice(h, lo, cutoff);
    SinceOneMore(h, iter, cutoff);
  }

  lemma CurrentOf(h: seq<int>, iter: int, window: nat)
    ensures Current(h + [iter], window) == Since(h + [iter], iter - window + 1)
  {
  }

  /** Pruning what was current and pruning the whole history give the same. */
  lemma CurrentAdvances(h: seq<int>, iter: int, window: nat)
    requires Ordered(h) && (h != [] ==> h[|h| - 1] <= iter)
    ensures Ordered(h + [iter])
    ensures Since(Current(h, window) + [iter], iter - window + 1) == Current(h + [iter], window)
  {
    CurrentOf(h, iter, window);
    PrunedThenRecorded(h, iter, if h == [] then iter - window + 1 else h[|h| - 1] - window + 1, iter - window + 1);
  }

  /** Whether the last of the nudges recorded in `h` stops the run, judged on the whole history. */
  predicate Fires(h: seq<int>, max: nat, window: nat)
    requires h != []
  {
    |Current(h, window)| >= max
  }

  /** How many of the nudges were recorded from iteration `lo` on and before `hi`. */
  function Between(h: seq<int>, lo: int, hi: int): nat {
    if h == [] then 0
    else Between(h[..|h| - 1], lo, hi) + if lo <= h[|h| - 1] < hi then 1 else 0
  }

  lemma {:induction false} SinceIsBetween(h: seq<int>, lo: int, hi: int)
    requires forall i :: 0 <= i < |h| ==> h[i] < hi
    ensures |Since(h, lo)| == Between(h, lo, hi)
  {
    if h != [] { SinceIsBetween(h[..|h| - 1], lo, hi); }
  }

  /** A nudge stops the run exactly when the window that ends with its iteration holds `max` nudges. */
  lemma FiresIff(h: seq<int>, max: nat, window: nat)
    requires h != [] && Ordered(h)
    ensures var last := h[|h| - 1];
      Fires(h, max, window) <==> Between(h, last - window + 1, last + 1) >= max
  {
    var last := h[|h| - 1];
    SinceIsBetween(h, last - window + 1, last + 1);
  }

  lemma FiresNow(h: seq<int>, iter: int, max: nat, window: nat)
    requires Ordered(h + [iter])
    ensures Fires(h + [iter], max, window) <==> Between(h + [iter], iter - window + 1, iter + 1) >= max
  {
    FiresIff(h + [iter], max, window);
  }

  class Window {
    const max: nat
    const window: nat
    var recents: seq<int>
    ghost var history: seq<int>

    ghost predicate Valid()
      reads this
    {
      && Ordered(history)
      && recents == Current(history, window)
    }

    constructor (max: nat, window: nat)
      ensures Valid() && history == [] && this.max == max && this.window == window
    {
      this.max, this.window := max, window;
      recents, history := [], [];
    }

    /** Keeps, in place, the recorded iterations that are not older than `cutoff`. */
    method Prune(cutoff: int)
      modifies this`recents
      ensures recents == Since(old(recents), cutoff)
    {
      var keep := 0;
      for i := 0 to |recents|
        invariant 0 <= keep <= i <= |recents| == |old(recents)|
        invariant recents[..keep] == Since(old(recents)[..i], cutoff)
        invariant forall k :: i <= k < |recents| ==> recents[k] == old(recents)[k]
      {
        var e := recents[i];
        assert old(recents)[..i + 1] == old(recents)[..i] + [e];
        SinceOneMore(old(recents)[..i], e, cutoff);
        if e >= cutoff {
          ghost var kept := recents[..keep];
          recents := recents[keep := e];
          keep := keep + 1;
          assert recents[..keep] == kept + [e];
        }
      }
      assert old(recents)[..|old(recents)|] == old(recents);
      recents := recents[..keep];
    }

    /** For iteration numbers that never go back, the pruned window answers as the full history would. */
    method RecordAndCheck(iter: int) returns (stop: bool)
      requires Valid() && (history != [] ==> history[|history| - 1] <= iter)
      modifies this
      ensures Valid() && history == old(history) + [iter]
      ensures stop == Fires(history, max, window)
      ensures stop <==> Between(history, iter - window + 1, iter + 1) >= max
    {
      CurrentAdvances(history, iter, window);
      FiresNow(history, iter, max, window);
      recents := recents + [iter];
      Prune(iter - window + 1);
      history := history + [iter];
      return |recents| >= max;
    }
  }

  // ---- a run that is never stopped ----

  /** No prefix of the history fired. */
  predicate NeverFired(h: seq<int>, max: nat, window: nat) {
    forall k :: 0 < k <= |h| ==> !Fires(h[..k], max, window)
  }

  lemma {:induction false} BetweenAtMostSince(h: seq<int>, lo: int, hi: int, cutoff: int)
    requires cutoff <= lo
    ensures Between(h, lo, hi) <= |Since(h, cutoff)|
  {
    if h != [] { BetweenAtMostSince(h[..|h| - 1], lo, hi, cutoff); }
  }

  lemma {:induction false} BetweenSplits(h: seq<int>, lo: int, mid: int, hi: int)
    requires lo <= mid <= hi
    ensures Between(h, lo, hi) == Between(h, lo, mid) + Between(h, mid, hi)
  {
    if h != [] { BetweenSplits(h[..|h| - 1], lo, mid, hi); }
  }

  lemma {:induction false} BetweenIsAll(h: seq<int>, lo: int, hi: int)
    requires forall i :: 0 <= i < |h| ==> lo <= h[i] < hi
    ensures Between(h, lo, hi) == |h|
  {
    if h != [] { BetweenIsAll(h[..|h| - 1], lo, hi); }
  }

  /** A window's worth of iterations holds fewer nudges than would stop the run. */
  lemma {:induction false} OneWindow(h: seq<int>, max: nat, window: nat, lo: int)
    requires NeverFired(h, max, window) && max >= 1
    ensures Between(h, lo, lo + window) <= max - 1
  {
    if h != [] {
      var init, last := h[..|h| - 1], h[|h| - 1];
      if lo <= last < lo + window {
        BetweenAtMostSince(h, lo, lo + window, last - window + 1);
        assert h[..|h|] == h;
        assert !Fires(h, max, window);
      } else {
        forall k | 0 < k <= |init|
          ensures !Fires(init[..k], max, window)
        {
          assert init[..k] == h[..k];
        }
        OneWindow(init, max, window, lo);
      }
    }
  }

  lemma {:induction false} BetweenIsNothing(h: seq<int>, lo: int)
    ensures Between(h, lo, lo) == 0
  {
    if h != [] { BetweenIsNothing(h[..|h| - 1], lo); }
  }

  lemma OneMoreTime(a: nat, n: nat)
    requires n > 0
    ensures 0 <= (n - 1) * a && (n - 1) * a + a == n * a && a * (n - 1) + a == a * n
  {
  }

  lemma {:induction false} ManyWindows(h: seq<int>, max: nat, window: nat, lo: int, blocks: nat)
    requires NeverFired(h, max, window) && max >= 1 && window >= 1
    ensures Between(h, lo, lo + blocks * window) <= (max - 1) * blocks
  {
    if blocks > 0 {
      ManyWindows(h, max, window, lo, blocks - 1);
      OneWindow(h, max, window, lo + (blocks - 1) * window);
      OneMoreTime(window, blocks);
      OneMoreTime(max - 1, blocks);
      BetweenSplits(h, lo, lo + (blocks - 1) * window, lo + blocks * window);
    } else {
      BetweenIsNothing(h, lo);
    }
  }

  /** A run over `n` iterations from `first` that the window never stops has at most
      `(max - 1) * ceil(n / window)` nudges. */
  lemma NudgesAreBounded(h: seq<int>, max: nat, window: nat, first: int, n: nat)
    requires max >= 1 && window >= 1 && NeverFired(h, max, window)
    requires forall i :: 0 <= i < |h| ==> first <= h[i] < first + n
    ensures |h| <= (max - 1) * ((n + window - 1) / window)
  {
    var blocks := (n + window - 1) / window;
    assert n <= blocks * window;
    BetweenIsAll(h, first, first + n);
    BetweenSplits(h, first, first + n, first + blocks * window);
    ManyWindows(h, max, window, first, blocks);
  }
}
