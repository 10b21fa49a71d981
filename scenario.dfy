/** A concrete session with the tester: a healthy supply is switched on, the
    status page is selected, the load is enabled, and then the 12 V rail
    collapses. */
module Scenario {
  import opened Conditioning
  import opened Display
  import opened Tester

  function Samples(code: int): seq<int>
  {
    seq(SAMPLES, _ => code)
  }

  /** A healthy supply reads 796, 511 and 337 on the three converters. */
  function Healthy(levels: Levels): Inputs
  {
    Inputs(Samples(796), Samples(511), Samples(337), levels)
  }

  /** The 12 V rail reads zero; the other rails are unchanged. */
  function Collapsed(levels: Levels): Inputs
  {
    Inputs(Samples(0), Samples(511), Samples(337), levels)
  }

  const NONE: Levels := Levels(false, false, false)

  /** About 11.98 V uncalibrated and 12.01, 5.05 and 3.29 V calibrated: present and
      inside every band. */
  lemma HealthyReadings(levels: Levels)
    ensures WellFormed(Healthy(levels))
    ensures PsuPresent(Raw12(Healthy(levels)))
    ensures Pass(CalibratedReadings(Healthy(levels)))
  {
    SumConstant(796, SAMPLES);
    SumConstant(511, SAMPLES);
    SumConstant(337, SAMPLES);
  }

  /** A 12 V rail reading zero is not a present supply. */
  lemma CollapsedReadings(levels: Levels)
    ensures WellFormed(Collapsed(levels))
    ensures !PsuPresent(Raw12(Collapsed(levels)))
  {
    SumConstant(0, SAMPLES);
  }

  /** Cycle 1 presses the menu button: the supply is seen, the status page shows PASS
      with "all ok". Cycle 2 releases it and presses the load button: the load and all
      gates go on. Cycle 3 keeps the button held while the 12 V rail collapses: the
      interlock switches everything off, and the status page is still shown. */
  lemma Session()
    ensures var in1 := Healthy(Levels(true, false, false));
      var in2 := Healthy(Levels(false, true, false));
      var in3 := Collapsed(Levels(false, true, false));
      WellFormed(in1) && WellFormed(in2) && WellFormed(in3) &&
      var t1 := Cycle(INITIAL, in1);
      var t2 := Cycle(t1, in2);
      var t3 := Cycle(t2, in3);
      && t1.psuOn && !t1.loadOn && t1.currentPage == 1
      && ScreenOf(t1, in1) == StatusScreen("ATX: PASS", "all ok")
      && t2.loadOn && t2.fet3v3 && t2.fet5v && t2.fet12v && t2.currentPage == 1
      && !t3.psuOn && !t3.loadOn && !t3.fet3v3 && !t3.fet5v && !t3.fet12v && t3.currentPage == 1
  {
    var in1 := Healthy(Levels(true, false, false));
    var in2 := Healthy(Levels(false, true, false));
    var in3 := Collapsed(Levels(false, true, false));
    HealthyReadings(in1.levels);
    HealthyReadings(in2.levels);
    CollapsedReadings(in3.levels);
    var v := CalibratedReadings(in1);
    PassIffNoneFailing(v);
    DetailAllOkIffPass(v);
    assert StatusPage(v) == StatusScreen("ATX: PASS", "all ok");
  }

  /** Nine codes of 66 and one of 70 (total 664) reconstruct the 12 V rail at just
      under 1.0 V, so the supply counts as absent, while the calibrated value shown
      for that rail is just above 1.0 V: presence and display use different values. */
  lemma PresenceIgnoresCalibration(s: State)
    ensures var inp := Inputs(seq(9, _ => 66) + [70], Samples(511), Samples(337), NONE);
      && WellFormed(inp)
      && !Cycle(s, inp).psuOn
      && CalibratedReadings(inp).v12 > PSU_ON_THRESHOLD
  {
    var c := seq(9, _ => 66) + [70];
    assert c[..9] == seq(9, _ => 66);
    SumConstant(66, 9);
    SumConstant(511, SAMPLES);
    SumConstant(337, SAMPLES);
  }
}
