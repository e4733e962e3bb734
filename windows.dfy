/** The block windows the record scanners request, one `get_blocks_in_range`
    call each: the 49-wide windows `get_unspent_records` walks down from the
    end of the range, and the 50-aligned windows `scan_records` and
    `get_program_records` walk up from the start.  Each window sequence is
    defined the way the loop builds it, step by step; the lemmas give its
    closed form and its properties. */
module Windows {
  import opened Wrappers
  import opened Lib
  import Chain

  /** The half-open height interval [lo, hi) of one request. */
  datatype Window = Window(lo: u32, hi: u32)

  const DESCENDING_STEP: nat := 49
  const ALIGNED_STEP: nat := 50

  /** `u32::saturating_sub`. */
  function SaturatingSub(a: nat, b: nat): (r: nat)
    ensures r <= a
    ensures r == if a >= b then a - b else 0
  {
    if a >= b then a - b else 0
  }

  function Min(a: int, b: int): int {
    if a <= b then a else b
  }

  function Max(a: int, b: int): int {
    if a >= b then a else b
  }

  /** How many heights `(start..end).step_by(step)` yields. */
  function StepCount(start: nat, end: nat, step: nat): nat
    requires step > 0
    decreases end - start
  {
    if start >= end then 0 else 1 + StepCount(start + step, end, step)
  }

  /** There are as many heights as windows of `step` needed to cover `start..end`: the ceiling of the quotient. */
  lemma {:induction false} StepCountIsCeiling(start: nat, end: nat, step: nat)
    requires step > 0
    ensures var n := StepCount(start, end, step);
            (start >= end ==> n == 0)
            && (start < end ==> n >= 1 && step * (n - 1) < end - start <= step * n)
    decreases end - start
  {
    if start < end {
      StepCountIsCeiling(start + step, end, step);
      var m := StepCount(start + step, end, step);
      assert step * (m + 1) == step * m + step;
      if m > 0 {
        assert step * m == step * (m - 1) + step;
      }
    }
  }

  /* ---------- get_unspent_records: descending windows ---------- */

  /** The first window: the 49 heights below `end`, not clamped to the range's start. */
  function FirstDescending(end: u32): Window {
    Window(SaturatingSub(end, DESCENDING_STEP), end)
  }

  /** The window after `w`: it ends where `w` began and reaches 49 lower, but not below `start`. */
  function NextDescending(start: u32, w: Window): Window {
    var lo := SaturatingSub(w.lo, DESCENDING_STEP);
    Window(if lo < start then start else lo, w.lo)
  }

  /** The windows the loop still requests when its `step_by` counter is at
      `h` and its current window is `w`. */
  function DescendingFrom(start: u32, end: u32, h: nat, w: Window): seq<Window>
    decreases end - h
  {
    if h >= end then [] else [w] + DescendingFrom(start, end, h + DESCENDING_STEP, NextDescending(start, w))
  }

  /** What a walk down keeps: the windows `ahead` of it at `h`, whose next window is `w`. */
  ghost predicate DescendingAhead(ahead: seq<Window>, start: u32, end: u32, h: nat, w: Window) {
    ahead == DescendingFrom(start, end, h, w)
  }

  /** Below `end` the next window is requested, then the walk goes on from the one after it. */
  lemma DescendingStep(ahead: seq<Window>, start: u32, end: u32, h: nat, w: Window)
    requires h < end && DescendingAhead(ahead, start, end, h, w)
    ensures ahead == [w] + ahead[1..]
    ensures DescendingAhead(ahead[1..], start, end, h + DESCENDING_STEP, NextDescending(start, w))
  {
  }

  /** At or above `end` nothing is left. */
  lemma DescendingDone(ahead: seq<Window>, start: u32, end: u32, h: nat, w: Window)
    requires h >= end && DescendingAhead(ahead, start, end, h, w)
    ensures ahead == []
  {
  }

  /** Every window `get_unspent_records` requests for `start..end` when it does not stop early. */
  function DescendingWindows(start: u32, end: u32): seq<Window> {
    DescendingFrom(start, end, start, FirstDescending(end))
  }

  /** The closed form of the `i`-th descending window. */
  function DescendingAt(start: u32, end: u32, i: nat): Window {
    if i == 0 then FirstDescending(end)
    else Window(Max(SaturatingSub(end, DESCENDING_STEP * (i + 1)), start), SaturatingSub(end, DESCENDING_STEP * i))
  }

  lemma NextDescendingAt(start: u32, end: u32, i: nat)
    requires start + DESCENDING_STEP * (i + 1) < end
    ensures NextDescending(start, DescendingAt(start, end, i)) == DescendingAt(start, end, i + 1)
  {
  }

  lemma {:induction false} DescendingFromAt(start: u32, end: u32, i: nat, w: Window)
    requires start + DESCENDING_STEP * i < end ==> w == DescendingAt(start, end, i)
    ensures var ws := DescendingFrom(start, end, start + DESCENDING_STEP * i, w);
            |ws| == StepCount(start + DESCENDING_STEP * i, end, DESCENDING_STEP)
            && forall j :: 0 <= j < |ws| ==> ws[j] == DescendingAt(start, end, i + j)
    decreases end - (start + DESCENDING_STEP * i)
  {
    var h := start + DESCENDING_STEP * i;
    if h < end {
      if h + DESCENDING_STEP < end {
        NextDescendingAt(start, end, i);
      }
      assert h + DESCENDING_STEP == start + DESCENDING_STEP * (i + 1);
      DescendingFromAt(start, end, i + 1, NextDescending(start, w));
      var ws := DescendingFrom(start, end, h, w);
      var rest := DescendingFrom(start, end, h + DESCENDING_STEP, NextDescending(start, w));
      assert ws == [w] + rest;
      forall j | 0 <= j < |ws|
        ensures ws[j] == DescendingAt(start, end, i + j)
      {
        if j > 0 {
          assert ws[j] == rest[j - 1];
          assert i + 1 + (j - 1) == i + j;
        }
      }
    }
  }

  /** The descending windows, in closed form: how many there are, and each one. */
  lemma DescendingWindowsClosedForm(start: u32, end: u32)
    ensures var ws := DescendingWindows(start, end);
            (start >= end ==> |ws| == 0)
            && (start < end ==> DESCENDING_STEP * (|ws| - 1) < end - start <= DESCENDING_STEP * |ws|)
            && forall i :: 0 <= i < |ws| ==> ws[i] == DescendingAt(start, end, i)
  {
    DescendingFromAt(start, end, 0, FirstDescending(end));
    StepCountIsCeiling(start, end, DESCENDING_STEP);
  }

  /** The shape of the descending windows: the first is `(end - 49, end)`
      saturated at 0 and not clamped to `start`; each later one ends where
      the previous one began and reaches 49 lower, clamped up to `start`; all
      are non-empty, at most 49 wide, inside `0..end`; the last reaches
      `start` (or, when there is only one, reaches below it). */
  lemma DescendingWindowsShape(start: u32, end: u32)
    ensures var ws := DescendingWindows(start, end);
            (start >= end <==> ws == [])
            && (start < end ==> ws[0] == Window(SaturatingSub(end, DESCENDING_STEP), end))
            && (forall i :: 0 < i < |ws| ==>
                  ws[i].hi == ws[i - 1].lo && ws[i].lo == Max(ws[i].hi - DESCENDING_STEP, start))
            && (forall i :: 0 <= i < |ws| ==>
                  ws[i].lo < ws[i].hi <= end && ws[i].hi - ws[i].lo <= DESCENDING_STEP)
            && (|ws| > 0 ==> ws[|ws| - 1].lo <= start)
            && (|ws| > 1 ==> ws[|ws| - 1].lo == start)
  {
    var ws := DescendingWindows(start, end);
    DescendingWindowsClosedForm(start, end);
    if |ws| > 0 {
      var n := |ws|;
      if n > 1 {
        assert ws[n - 1].lo == Max(end - DESCENDING_STEP * n, start);
      }
    }
  }

  /** Every descending window passes the `get_blocks_in_range` guards. */
  lemma DescendingWindowsPassGuard(start: u32, end: u32)
    ensures forall w :: w in DescendingWindows(start, end) ==> Chain.CheckBlockRange(w.lo, w.hi).Ok?
  {
    DescendingWindowsShape(start, end);
  }

  /** A 10-block range is served by one 49-block window reaching below its start. */
  lemma FirstDescendingNotClamped()
    ensures DescendingWindows(10, 20) == [Window(0, 20)]
  {
    DescendingWindowsClosedForm(10, 20);
  }

  /** The example range of the `get_unspent_records` documentation. */
  lemma DescendingWindowsExample()
    ensures DescendingWindows(0, 100) == [Window(51, 100), Window(2, 51), Window(0, 2)]
  {
    DescendingWindowsClosedForm(0, 100);
  }

  /* ---------- scan_records and get_program_records: aligned windows ---------- */

  /** `start - start % 50`. */
  function AlignDown(n: u32): (r: u32)
    ensures r <= n && r % ALIGNED_STEP == 0 && n - r < ALIGNED_STEP
  {
    n - n % ALIGNED_STEP
  }

  /** `end + (50 - end % 50)`: the loop's upper limit, always past `end`.
      It must fit in a `u32`. */
  function AlignedLimit(end: u32): (r: nat)
    ensures end < r <= end + ALIGNED_STEP && r % ALIGNED_STEP == 0
  {
    end + (ALIGNED_STEP - end % ALIGNED_STEP)
  }

  predicate AlignedLimitFits(end: u32) {
    AlignedLimit(end) <= U32_MAX
  }

  /** The windows the loop requests from height `s` on: `[s, min(s + 50, end))`
      for every `s` below `end`, 50 apart. */
  function AscendingFrom(s: nat, end: u32): seq<Window>
    decreases end - s
  {
    if s >= end then [] else [Window(s, Min(s + ALIGNED_STEP, end))] + AscendingFrom(s + ALIGNED_STEP, end)
  }

  /** Every window `scan_records` and `get_program_records` request for `start..end`. */
  function AlignedWindows(start: u32, end: u32): seq<Window> {
    AscendingFrom(AlignDown(start), end)
  }

  lemma {:induction false} AscendingFromAt(s: nat, end: u32)
    ensures var ws := AscendingFrom(s, end);
            |ws| == StepCount(s, end, ALIGNED_STEP)
            && forall i :: 0 <= i < |ws| ==>
                 ws[i].lo == s + ALIGNED_STEP * i && ws[i].hi == Min(s + ALIGNED_STEP * (i + 1), end)
    decreases end - s
  {
    if s < end {
      AscendingFromAt(s + ALIGNED_STEP, end);
      var ws := AscendingFrom(s, end);
      var rest := AscendingFrom(s + ALIGNED_STEP, end);
      forall i | 0 <= i < |ws|
        ensures ws[i].lo == s + ALIGNED_STEP * i && ws[i].hi == Min(s + ALIGNED_STEP * (i + 1), end)
      {
        if i > 0 {
          assert ws[i] == rest[i - 1];
          assert s + ALIGNED_STEP + ALIGNED_STEP * (i - 1) == s + ALIGNED_STEP * i;
        }
      }
    }
  }

  /** The aligned windows: they start at `start` rounded down to a multiple of
      50 and ascend in steps of 50, each `[s, min(s + 50, end))`, up to the
      first `s >= end`; all are non-empty, at most 50 wide, contiguous, and
      the last ends at `end`. */
  lemma AlignedWindowsShape(start: u32, end: u32)
    ensures var s0 := AlignDown(start);
            var ws := AlignedWindows(start, end);
            (s0 >= end ==> |ws| == 0)
            && (s0 < end ==> ALIGNED_STEP * (|ws| - 1) < end - s0 <= ALIGNED_STEP * |ws|)
            && (forall i :: 0 <= i < |ws| ==>
                  ws[i].lo == s0 + ALIGNED_STEP * i && ws[i].hi == Min(s0 + ALIGNED_STEP * (i + 1), end))
            && (forall i :: 0 <= i < |ws| ==>
                  ws[i].lo % ALIGNED_STEP == 0 && ws[i].lo < ws[i].hi <= end
                  && ws[i].hi - ws[i].lo <= ALIGNED_STEP)
            && (forall i :: 0 < i < |ws| ==> ws[i].lo == ws[i - 1].hi)
            && (|ws| > 0 ==> ws[0].lo == s0 && ws[|ws| - 1].hi == end)
  {
    var s0 := AlignDown(start);
    AscendingFromAt(s0, end);
    StepCountIsCeiling(s0, end, ALIGNED_STEP);
    var ws := AlignedWindows(start, end);
    forall i | 0 <= i < |ws|
      ensures ws[i].lo % ALIGNED_STEP == 0
    {
      assert ws[i].lo == s0 + ALIGNED_STEP * i;
    }
  }

  /** Every aligned window passes the `get_blocks_in_range` guards. */
  lemma AlignedWindowsPassGuard(start: u32, end: u32)
    ensures forall w :: w in AlignedWindows(start, end) ==> Chain.CheckBlockRange(w.lo, w.hi).Ok?
  {
    AlignedWindowsShape(start, end);
  }

  /** An empty range whose end is not aligned still requests the blocks from
      the multiple of 50 below it; an aligned one requests nothing. */
  lemma AlignedEmptyRange()
    ensures AlignedWindows(60, 60) == [Window(50, 60)]
    ensures AlignedWindows(50, 50) == []
  {
    AlignedWindowsShape(60, 60);
  }

  /** `scan_records(75..180, ..)` reads three windows, the first from height 50. */
  lemma AlignedWindowsExample()
    ensures AlignedWindows(75, 180) == [Window(50, 100), Window(100, 150), Window(150, 180)]
  {
    AlignedWindowsShape(75, 180);
  }
}
