/** The per-cycle decision logic of the rail tester: one call of the control loop
    reads the rails, derives PSU presence, enforces the load interlock, handles the
    menu, load and spare buttons, and picks the page to show. */
module Tester {
  import opened Conditioning
  import opened Debounce
  import opened Display

  /** The sampled levels of the menu, load and spare buttons (true when pressed). */
  datatype Levels = Levels(menu: bool, load: bool, spare: bool)

  /** What the hardware supplies to one cycle: the raw ADC codes of each rail
      and the button levels. */
  datatype Inputs = Inputs(codes12: seq<int>, codes5: seq<int>, codes3: seq<int>, levels: Levels)

  /** Every rail is sampled SAMPLES times per cycle. */
  predicate WellFormed(inputs: Inputs)
  {
    |inputs.codes12| == SAMPLES && |inputs.codes5| == SAMPLES && |inputs.codes3| == SAMPLES
  }

  /** The controller's globals and the three MOSFET gate levels it drives. */
  datatype State = State(
    psuOn: bool, loadOn: bool, currentPage: nat,
    lastMenuState: bool, lastLoadState: bool, lastSpareState: bool,
    fet3v3: bool, fet5v: bool, fet12v: bool)

  /** The three gates are at the level of the load flag. */
  predicate GatesFollowLoad(s: State)
  {
    s.fet3v3 == s.loadOn && s.fet5v == s.loadOn && s.fet12v == s.loadOn
  }

  /** Between cycles: the page is 0 or 1, the gates follow the load flag, and
      the load is off whenever the supply is absent. */
  predicate Inv(s: State)
  {
    && s.currentPage <= 1
    && GatesFollowLoad(s)
    && (!s.psuOn ==> !s.loadOn)
  }

  /** The state after start-up: load off and driven low, page 0, no button seen. */
  const INITIAL: State := State(false, false, 0, false, false, false, false, false, false)

  /** The uncalibrated 12 V reconstruction, which decides presence. */
  function Raw12(inputs: Inputs): real
    requires WellFormed(inputs)
  {
    RailVoltage(Rail12, PinVoltage(inputs.codes12))
  }

  /** The calibrated voltages, which are displayed and classified. */
  function CalibratedReadings(inputs: Inputs): Readings
    requires WellFormed(inputs)
  {
    Readings(Measure(Rail12, inputs.codes12), Measure(Rail5, inputs.codes5), Measure(Rail3, inputs.codes3))
  }

  /** The state after `setLoad(on)`: the load flag and all three gates take `on`. */
  function WithLoad(s: State, on: bool): State
  {
    s.(loadOn := on, fet3v3 := on, fet5v := on, fet12v := on)
  }

  /** Phase 1: presence is recomputed from the uncalibrated 12 V value. */
  function SensePresence(s: State, v12: real): State
  {
    s.(psuOn := PsuPresent(v12))
  }

  /** A level that is rewritten to `level` when `driven` holds and kept otherwise. */
  function Drive(current: bool, driven: bool, level: bool): bool
  {
    if driven then level else current
  }

  /** The page after a menu poll: the other one on a press, the same one otherwise. */
  function NextPage(page: nat, pressed: bool): nat
  {
    if pressed then (page + 1) % 2 else page
  }

  /** Phase 2: with the supply absent, a load that is on is switched off
      (the flag and all three gates are driven low). */
  function ForceOffIfAbsent(s: State): State
  {
    var off := !s.psuOn && s.loadOn;
    s.(loadOn := Drive(s.loadOn, off, false),
       fet3v3 := Drive(s.fet3v3, off, false),
       fet5v := Drive(s.fet5v, off, false),
       fet12v := Drive(s.fet12v, off, false))
  }

  /** Phase 3: a menu press moves to the other page. */
  function HandleMenu(s: State, level: bool): State
  {
    s.(lastMenuState := level, currentPage := NextPage(s.currentPage, Edge(level, s.lastMenuState)))
  }

  /** Phase 4: a load press sets the load (flag and gates) to its negation when
      the supply is present and to off otherwise. */
  function HandleLoad(s: State, level: bool): State
  {
    var pressed := Edge(level, s.lastLoadState);
    var on := if s.psuOn then !s.loadOn else false;
    s.(lastLoadState := level,
       loadOn := Drive(s.loadOn, pressed, on),
       fet3v3 := Drive(s.fet3v3, pressed, on),
       fet5v := Drive(s.fet5v, pressed, on),
       fet12v := Drive(s.fet12v, pressed, on))
  }

  /** Phase 5: the spare button only updates its edge memory. */
  function HandleSpare(s: State, level: bool): State
  {
    s.(lastSpareState := level)
  }

  /** The decisions of one cycle, phase by phase, given the uncalibrated 12 V
      value `v12` and the button levels. */
  function Step(s: State, v12: real, b: Levels): State
  {
    var afterInterlock := ForceOffIfAbsent(SensePresence(s, v12));
    var afterMenu := HandleMenu(afterInterlock, b.menu);
    HandleSpare(HandleLoad(afterMenu, b.load), b.spare)
  }

  /** One cycle of the control loop on the abstract state. */
  function Cycle(s: State, inputs: Inputs): State
    requires WellFormed(inputs)
  {
    Step(s, Raw12(inputs), inputs.levels)
  }

  /** The load flag at the end of a cycle, as a decision table: off without the
      supply, otherwise flipped by a press and kept without one. */
  function NextLoad(loadOn: bool, psuOn: bool, loadEdge: bool): bool
  {
    if !psuOn then false else if loadEdge then !loadOn else loadOn
  }

  /** The page a state puts on the display, given the calibrated readings. */
  function PageFor(s: State, v: Readings): Screen
  {
    if s.currentPage == 0 then VoltagesPage(v, s.psuOn, s.loadOn) else StatusPage(v)
  }

  /** The page shown at the end of a cycle that ended in state `s`. */
  function ScreenOf(s: State, inputs: Inputs): Screen
    requires WellFormed(inputs)
  {
    PageFor(s, CalibratedReadings(inputs))
  }

  predicate AllWellFormed(trace: seq<Inputs>)
  {
    forall i :: 0 <= i < |trace| ==> WellFormed(trace[i])
  }

  /** The state after running the cycles of `trace` in order. */
  function Run(s: State, trace: seq<Inputs>): State
    requires AllWellFormed(trace)
    decreases |trace|
  {
    if trace == [] then s else Run(Cycle(s, trace[0]), trace[1..])
  }

  /** The menu button levels seen over a trace. */
  function MenuLevels(trace: seq<Inputs>): seq<bool>
  {
    seq(|trace|, i requires 0 <= i < |trace| => trace[i].levels.menu)
  }

  /** The rail-reading part of a cycle: averages each rail's codes, reconstructs the
      rail voltages through the dividers and applies the calibration multipliers.
      Returns the uncalibrated 12 V value and the three calibrated values. */
  method ReadRails(inputs: Inputs) returns (v12: real, readings: Readings)
    requires WellFormed(inputs)
    ensures v12 == Raw12(inputs)
    ensures readings == CalibratedReadings(inputs)
    ensures readings.v12 == Calibrate(Rail12, v12)
  {
    var v12Adc := ReadAnalogAveraged(inputs.codes12);
    var v5Adc := ReadAnalogAveraged(inputs.codes5);
    var v3Adc := ReadAnalogAveraged(inputs.codes3);

    v12 := DividerToRail(v12Adc, MB12_R_TOP, MB12_R_BOTTOM);
    var v5 := DividerToRail(v5Adc, MB5_R_TOP, MB5_R_BOTTOM);
    var v3 := DividerToRail(v3Adc, MB3_R_TOP, MB3_R_BOTTOM);

    var v12Cal := v12 * CAL12;
    var v5Cal := v5 * CAL5;
    var v3Cal := v3 * CAL3;
    readings := Readings(v12Cal, v5Cal, v3Cal);
  }

  /** The controller, with the source's globals as fields. */
  class RailTester {
    var psuOn: bool
    var loadOn: bool
    // Never negative, so the source's truncating % and Dafny's % agree on it.
    var currentPage: nat
    var lastMenuState: bool
    var lastLoadState: bool
    var lastSpareState: bool
    // Levels last written to the three MOSFET gates.
    var fet3v3: bool
    var fet5v: bool
    var fet12v: bool

    function Snapshot(): State
      reads this
    {
      State(psuOn, loadOn, currentPage, lastMenuState, lastLoadState, lastSpareState, fet3v3, fet5v, fet12v)
    }

    ghost predicate Valid()
      reads this
    {
      Inv(Snapshot())
    }

    /** Start-up: the globals' initial values, then the load switched off. */
    constructor ()
      ensures Valid()
      ensures Snapshot() == INITIAL
    {
      psuOn := false;
      loadOn := false;
      currentPage := 0;
      lastMenuState, lastLoadState, lastSpareState := false, false, false;
      new;
      SetLoad(false);
    }

    /** Sets the load flag and drives all three gates to the same level. */
    method SetLoad(on: bool)
      modifies this
      ensures Snapshot() == WithLoad(old(Snapshot()), on)
    {
      loadOn := on;
      fet3v3 := on;
      fet5v := on;
      fet12v := on;
    }

    /** If the supply is absent, forces the load off. */
    method ApplyInterlock()
      modifies this
      ensures Snapshot() == ForceOffIfAbsent(old(Snapshot()))
    {
      if !psuOn && loadOn {
        SetLoad(false);
      }
    }

    /** Polls the menu button; a press moves to the other page. */
    method PollMenu(level: bool)
      modifies this
      ensures Snapshot() == HandleMenu(old(Snapshot()), level)
    {
      var pressed;
      pressed, lastMenuState := ButtonPressed(level, lastMenuState);
      if pressed {
        currentPage := (currentPage + 1) % 2;
      }
    }

    /** Polls the load button; a press toggles the load while the supply is present
        and switches it off otherwise. */
    method PollLoad(level: bool)
      modifies this
      ensures Snapshot() == HandleLoad(old(Snapshot()), level)
    {
      var pressed;
      pressed, lastLoadState := ButtonPressed(level, lastLoadState);
      if pressed {
        if psuOn {
          SetLoad(!loadOn);
        } else {
          SetLoad(false);
        }
      }
    }

    /** Polls the spare button, which has no effect beyond its edge memory. */
    method PollSpare(level: bool)
      modifies this
      ensures Snapshot() == HandleSpare(old(Snapshot()), level)
    {
      var _, last := ButtonPressed(level, lastSpareState);
      lastSpareState := last;
    }

    /** Puts the current page on the display: the voltages page on page 0,
        the status page otherwise. */
    method ShowPage(v: Readings) returns (screen: Screen)
      ensures screen == PageFor(Snapshot(), v)
    {
      if currentPage == 0 {
        screen := VoltagesPage(v, psuOn, loadOn);
      } else {
        screen := ShowStatus(v);
      }
    }

    /** Recomputes presence from the uncalibrated 12 V value. */
    method SensePsu(v12: real)
      modifies this
      ensures Snapshot() == SensePresence(old(Snapshot()), v12)
    {
      psuOn := v12 > PSU_ON_THRESHOLD;
    }

    /** The decision blocks of one cycle, in source order: presence, interlock,
        then the menu, load and spare buttons. */
    method Decide(v12: real, levels: Levels)
      modifies this
      ensures Snapshot() == Step(old(Snapshot()), v12, levels)
    {
      SensePsu(v12);
      ApplyInterlock();
      PollMenu(levels.menu);
      PollLoad(levels.load);
      PollSpare(levels.spare);
    }

    /** One pass of the control loop: read the rails, run the decision blocks,
        show the current page. Returns the page put on the display. */
    method Loop(inputs: Inputs) returns (screen: Screen)
      requires Valid()
      requires WellFormed(inputs)
      modifies this
      ensures Valid()
      ensures Snapshot() == Cycle(old(Snapshot()), inputs)
      ensures screen == ScreenOf(Snapshot(), inputs)
    {
      var v12, readings := ReadRails(inputs);
      StepPreservesInv(Snapshot(), v12, inputs.levels);
      Decide(v12, inputs.levels);
      screen := ShowPage(readings);
    }
  }

  /** A cycle keeps the between-cycle invariant. */
  lemma StepPreservesInv(s: State, v12: real, b: Levels)
    requires Inv(s)
    ensures Inv(Step(s, v12, b))
  {
  }

  /** Safety: at the end of every cycle with the supply absent the load is off and
      all three gates are low, whatever the previous load flag and button levels. */
  lemma InterlockSafety(s: State, v12: real, b: Levels)
    requires GatesFollowLoad(s)
    ensures var t := Step(s, v12, b);
      !t.psuOn ==> !t.loadOn && !t.fet3v3 && !t.fet5v && !t.fet12v
  {
  }

  /** The load flag follows the decision table: off without the supply, flipped by
      a load press while the supply is present, kept otherwise. */
  lemma LoadDecision(s: State, v12: real, b: Levels)
    ensures var t := Step(s, v12, b);
      t.loadOn == NextLoad(s.loadOn, PsuPresent(v12), Edge(b.load, s.lastLoadState))
  {
  }

  /** The load is switched on only by a rising edge of the load button seen while
      the supply is present. */
  lemma LoadOnlyEnabledByPress(s: State, v12: real, b: Levels)
    ensures var t := Step(s, v12, b);
      !s.loadOn && t.loadOn ==> t.psuOn && Edge(b.load, s.lastLoadState)
  {
    LoadDecision(s, v12, b);
  }

  /** With the supply present a load press flips the load and no press leaves it;
      the gates follow the flag in both cases. */
  lemma LoadToggle(s: State, v12: real, b: Levels)
    requires GatesFollowLoad(s)
    ensures var t := Step(s, v12, b);
      && (t.psuOn && Edge(b.load, s.lastLoadState) ==> t.loadOn == !s.loadOn)
      && (t.psuOn && !Edge(b.load, s.lastLoadState) ==> t.loadOn == s.loadOn)
      && t.fet3v3 == t.loadOn && t.fet5v == t.loadOn && t.fet12v == t.loadOn
  {
    LoadDecision(s, v12, b);
  }

  /** The page changes only on a menu rising edge, and then to the other page;
      the edge memories record this cycle's levels. */
  lemma PageToggle(s: State, v12: real, b: Levels)
    requires s.currentPage <= 1
    ensures var t := Step(s, v12, b);
      && t.currentPage <= 1
      && (t.currentPage != s.currentPage <==> Edge(b.menu, s.lastMenuState))
      && t.lastMenuState == b.menu && t.lastLoadState == b.load && t.lastSpareState == b.spare
  {
  }

  /** Presence comes from the uncalibrated 12 V value; the display and the
      classification use the calibrated ones. */
  lemma CycleObservations(s: State, inputs: Inputs)
    requires WellFormed(inputs)
    ensures var t := Cycle(s, inputs);
      && t.psuOn == PsuPresent(RailVoltage(Rail12, PinVoltage(inputs.codes12)))
      && (t.currentPage != 0 ==> ScreenOf(t, inputs) == StatusPage(CalibratedReadings(inputs)))
      && (t.currentPage == 0 ==> ScreenOf(t, inputs).readings.v12 == Calibrate(Rail12, Raw12(inputs)))
      && (t.currentPage == 0 ==> ScreenOf(t, inputs) == VoltagesPage(CalibratedReadings(inputs), t.psuOn, t.loadOn))
  {
  }

  /** Every state a run reaches from a good state is good; in particular the run
      never ends a cycle with the load on while the supply is absent. */
  lemma {:induction false} RunPreservesInv(s: State, trace: seq<Inputs>)
    requires Inv(s)
    requires AllWellFormed(trace)
    ensures Inv(Run(s, trace))
    decreases |trace|
  {
    if trace != [] {
      StepPreservesInv(s, Raw12(trace[0]), trace[0].levels);
      RunPreservesInv(Cycle(s, trace[0]), trace[1..]);
    }
  }

  lemma ParityShift(p: int, e: int, n: int)
    requires 0 <= p <= 1 && 0 <= e <= 1 && n >= 0
    ensures ((p + e) % 2 + n) % 2 == (p + e + n) % 2
  {
  }

  /** The presses counted over a trace's menu levels: the first cycle's, then the
      rest's, starting from the first cycle's level. */
  lemma MenuEdgesUnfold(trace: seq<Inputs>, last: bool)
    requires trace != []
    ensures var m := trace[0].levels.menu;
      CountEdges(MenuLevels(trace), last)
        == (if Edge(m, last) then 1 else 0) + CountEdges(MenuLevels(trace[1..]), m)
  {
    assert MenuLevels(trace)[0] == trace[0].levels.menu;
    assert MenuLevels(trace[1..]) == MenuLevels(trace)[1..];
  }

  /** After a run the page has moved by the number of menu presses, modulo 2. */
  lemma {:induction false} RunPageParity(s: State, trace: seq<Inputs>)
    requires s.currentPage <= 1
    requires AllWellFormed(trace)
    ensures Run(s, trace).currentPage == (s.currentPage + CountEdges(MenuLevels(trace), s.lastMenuState)) % 2
    decreases |trace|
  {
    if trace != [] {
      var b := trace[0].levels;
      var t := Cycle(s, trace[0]);
      PageToggle(s, Raw12(trace[0]), b);
      var e := if Edge(b.menu, s.lastMenuState) then 1 else 0;
      assert t.currentPage == (s.currentPage + e) % 2;
      MenuEdgesUnfold(trace, s.lastMenuState);
      RunPageParity(t, trace[1..]);
      ParityShift(s.currentPage, e, CountEdges(MenuLevels(trace[1..]), t.lastMenuState));
    }
  }

  /** From start-up, N menu presses leave the voltages page shown if N is even and
      the status page if N is odd. */
  lemma PagesFromStart(trace: seq<Inputs>)
    requires AllWellFormed(trace)
    ensures Run(INITIAL, trace).currentPage == CountEdges(MenuLevels(trace), false) % 2
  {
    RunPageParity(INITIAL, trace);
  }

  /** From start-up every cycle ends in a good state: in particular the load is never
      left on, nor any gate high, while the supply is absent. */
  lemma SafeFromStart(trace: seq<Inputs>)
    requires AllWellFormed(trace)
    ensures Inv(Run(INITIAL, trace))
    ensures var t := Run(INITIAL, trace);
      !t.psuOn ==> !t.loadOn && !t.fet3v3 && !t.fet5v && !t.fet12v
  {
    RunPreservesInv(INITIAL, trace);
  }

  /** Starting on the voltages page, one press of the menu button, held for any
      number of cycles and then released, leaves the status page shown. */
  lemma OnePressShowsStatus(trace: seq<Inputs>, a: nat, k: nat, b: nat)
    requires AllWellFormed(trace)
    requires k >= 1
    requires MenuLevels(trace) == Repeat(false, a) + Repeat(true, k) + Repeat(false, b)
    ensures Run(INITIAL, trace).currentPage == 1
  {
    PagesFromStart(trace);
    SinglePress(a, k, b, false);
  }
}
