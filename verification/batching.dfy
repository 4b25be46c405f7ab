/** The batching loop shared by every phase of the daily sweep:
    `for (let i = 0; i < items.length; i += W) { const batch = items.slice(i, i + W); ... }`
    cuts a snapshot list into consecutive windows of width W. */
module Batching {
  import opened Seqs

  function Min(a: int, b: int): int {
    if a <= b then a else b
  }

  /** `Array.prototype.slice(i, j)` for non-negative indices: both ends are
      clamped to the length, and an empty range gives the empty list */
  function Slice<T>(xs: seq<T>, i: nat, j: nat): (r: seq<T>)
    ensures i <= j && i <= |xs| ==> r == xs[i..Min(j, |xs|)]
  {
    var lo, hi := Min(i, |xs|), Min(j, |xs|);
    if lo <= hi then xs[lo..hi] else []
  }

  /** The windows the loop visits from index `i` on */
  function WindowsFrom<T>(xs: seq<T>, w: nat, i: nat): seq<seq<T>>
    requires w >= 1
    decreases |xs| - i
  {
    if i >= |xs| then [] else [Slice(xs, i, i + w)] + WindowsFrom(xs, w, i + w)
  }

  /** The windows of the whole list, in loop order: put back together they are
      the list; there are ceil(N / w) of them; all are full but the last, which
      holds between 1 and `w` items; there are none exactly for an empty list */
  function Windows<T>(xs: seq<T>, w: nat): (ws: seq<seq<T>>)
    requires w >= 1
    ensures Flatten(ws) == xs
    ensures |xs| <= |ws| * w && (|ws| == 0 || (|ws| - 1) * w < |xs|)
    ensures forall k :: 0 <= k < |ws| - 1 ==> |ws[k]| == w
    ensures |ws| > 0 ==> 1 <= |ws[|ws| - 1]| <= w
    ensures xs == [] <==> ws == []
  {
    WindowsFromCover(xs, w, 0);
    WindowsFromCount(xs, w, 0);
    WindowsFromSizes(xs, w, 0);
    WindowsFrom(xs, w, 0)
  }

  /** One turn of the loop: the window at `i`, then the windows after it */
  lemma WindowsFromStep<T>(xs: seq<T>, w: nat, i: nat)
    requires w >= 1 && i < |xs|
    ensures Flatten(WindowsFrom(xs, w, i)) == xs[i..Min(i + w, |xs|)] + Flatten(WindowsFrom(xs, w, i + w))
  {
    var rest := WindowsFrom(xs, w, i + w);
    var ws := [Slice(xs, i, i + w)] + rest;
    assert WindowsFrom(xs, w, i) == ws;
    assert ws[1..] == rest;
  }

  /** The windows, put back together, are the list from `i` on: every item is in
      exactly one window, and windows follow the list's order */
  lemma {:induction false} WindowsFromCover<T>(xs: seq<T>, w: nat, i: nat)
    requires w >= 1 && i <= |xs|
    ensures Flatten(WindowsFrom(xs, w, i)) == xs[i..]
    decreases |xs| - i
  {
    if i < |xs| {
      WindowsFromStep(xs, w, i);
      if i + w <= |xs| {
        WindowsFromCover(xs, w, i + w);
        assert xs[i..] == xs[i..i + w] + xs[i + w..];
      } else {
        assert WindowsFrom(xs, w, i + w) == [];
        assert xs[i..Min(i + w, |xs|)] == xs[i..];
      }
    }
  }

  /** Every window is full except possibly the last, which holds between 1 and
      `w` items */
  lemma {:induction false} WindowsFromSizes<T>(xs: seq<T>, w: nat, i: nat)
    requires w >= 1
    ensures var ws := WindowsFrom(xs, w, i);
      && (forall k :: 0 <= k < |ws| - 1 ==> |ws[k]| == w)
      && (|ws| > 0 ==> 1 <= |ws[|ws| - 1]| <= w)
    decreases |xs| - i
  {
    if i < |xs| {
      var rest := WindowsFrom(xs, w, i + w);
      var ws := [Slice(xs, i, i + w)] + rest;
      assert WindowsFrom(xs, w, i) == ws;
      WindowsFromSizes(xs, w, i + w);
      forall k | 0 <= k < |ws| - 1 ensures |ws[k]| == w {
        if k > 0 {
          assert ws[k] == rest[k - 1];
        } else {
          assert rest != [];
        }
      }
      if rest != [] {
        assert ws[|ws| - 1] == rest[|rest| - 1];
      }
    }
  }

  /** There are ceil(N / w) windows: the least k with N <= k * w */
  lemma {:induction false} WindowsFromCount<T>(xs: seq<T>, w: nat, i: nat)
    requires w >= 1 && i <= |xs|
    ensures var k := |WindowsFrom(xs, w, i)|;
      |xs| - i <= k * w && (k == 0 || (k - 1) * w < |xs| - i)
    decreases |xs| - i
  {
    if i < |xs| {
      var rest := WindowsFrom(xs, w, i + w);
      assert |WindowsFrom(xs, w, i)| == 1 + |rest|;
      if i + w <= |xs| {
        WindowsFromCount(xs, w, i + w);
        var k := |rest|;
        assert (k + 1) * w == k * w + w;
        assert k * w == (k - 1) * w + w;
      } else {
        assert rest == [];
      }
    }
  }
}
