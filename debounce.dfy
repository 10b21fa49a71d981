/** Rising-edge detection on sampled button levels. Each button keeps the level
    it had on the previous cycle; a press is reported only on the cycle where
    the level goes from released to pressed. There is no timing filter. */
module Debounce {

  /** The rising-edge rule: pressed now, not pressed on the previous sample. */
  predicate Edge(now: bool, last: bool)
  {
    now && !last
  }

  /** Polls one button. The stored previous level is passed in and its new value
      handed back, standing for the source's by-reference parameter. */
  method ButtonPressed(now: bool, lastState: bool) returns (pressed: bool, newLastState: bool)
    ensures pressed <==> now && !lastState
    ensures newLastState == now
  {
    pressed := now && !lastState;
    newLastState := now;
  }

  /** Number of presses reported over a trace of levels, one poll per level,
      starting from the stored level `last`. */
  function CountEdges(levels: seq<bool>, last: bool): nat
  {
    if levels == [] then 0
    else (if Edge(levels[0], last) then 1 else 0) + CountEdges(levels[1..], levels[0])
  }

  /** The stored level after polling the whole trace. */
  function FinalLevel(levels: seq<bool>, last: bool): bool
  {
    if levels == [] then last else levels[|levels| - 1]
  }

  function Repeat(level: bool, n: nat): seq<bool>
  {
    seq(n, _ => level)
  }

  /** The presses over a concatenated trace are those of each part, the second part
      starting from the level the first one left behind. */
  lemma {:induction false} CountEdgesAppend(xs: seq<bool>, ys: seq<bool>, last: bool)
    ensures CountEdges(xs + ys, last) == CountEdges(xs, last) + CountEdges(ys, FinalLevel(xs, last))
  {
    if xs == [] {
      assert xs + ys == ys;
    } else {
      assert (xs + ys)[1..] == xs[1..] + ys;
      CountEdgesAppend(xs[1..], ys, xs[0]);
      assert FinalLevel(xs[1..], xs[0]) == FinalLevel(xs, last);
    }
  }

  /** A released button reports nothing, whatever was stored before. */
  lemma {:induction false} ReleasedReportsNothing(n: nat, last: bool)
    ensures CountEdges(Repeat(false, n), last) == 0
  {
    if n > 0 {
      assert Repeat(false, n)[1..] == Repeat(false, n - 1);
      ReleasedReportsNothing(n - 1, false);
    }
  }

  /** A button held since before the trace reports nothing however long it is held. */
  lemma {:induction false} HeldReportsNothing(n: nat)
    ensures CountEdges(Repeat(true, n), true) == 0
  {
    if n > 0 {
      assert Repeat(true, n)[1..] == Repeat(true, n - 1);
      HeldReportsNothing(n - 1);
    }
  }

  /** Pressing a released button and holding it K >= 1 cycles reports exactly one press. */
  lemma PressReportsOnce(k: nat)
    requires k >= 1
    ensures CountEdges(Repeat(true, k), false) == 1
  {
    assert Repeat(true, k)[1..] == Repeat(true, k - 1);
    HeldReportsNothing(k - 1);
  }

  /** Idle for `a` cycles, pressed for `k >= 1` cycles, then released for `b` cycles:
      exactly one press is reported over the whole trace. */
  lemma SinglePress(a: nat, k: nat, b: nat, last: bool)
    requires k >= 1
    requires a >= 1 || !last
    ensures CountEdges(Repeat(false, a) + Repeat(true, k) + Repeat(false, b), last) == 1
  {
    var idle, held, rel := Repeat(false, a), Repeat(true, k), Repeat(false, b);
    CountEdgesAppend(idle + held, rel, last);
    CountEdgesAppend(idle, held, last);
    ReleasedReportsNothing(a, last);
    PressReportsOnce(k);
    assert FinalLevel(idle + held, last) == true;
    ReleasedReportsNothing(b, true);
  }
}
