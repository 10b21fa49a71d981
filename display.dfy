/** Pass/fail classification of the calibrated rails against the ATX tolerance
    bands, and the choice of what the two display pages show. Rendering of digits
    and cursor placement is outside the model: a page is recorded as the values
    and fixed strings it puts on the display. */
module Display {
  import opened Conditioning

  // ATX tolerance bands (plus or minus 5 percent), inclusive at both ends.
  const MB12_MIN: real := 11.40
  const MB12_MAX: real := 12.60
  const MB5_MIN: real := 4.75
  const MB5_MAX: real := 5.25
  const MB3_MIN: real := 3.135
  const MB3_MAX: real := 3.465

  function MinOf(r: Rail): real
  {
    match r
    case Rail12 => MB12_MIN
    case Rail5 => MB5_MIN
    case Rail3 => MB3_MIN
  }

  function MaxOf(r: Rail): real
  {
    match r
    case Rail12 => MB12_MAX
    case Rail5 => MB5_MAX
    case Rail3 => MB3_MAX
  }

  /** The three calibrated rail voltages of one cycle. */
  datatype Readings = Readings(v12: real, v5: real, v3: real)
  {
    function Of(r: Rail): real
    {
      match r
      case Rail12 => v12
      case Rail5 => v5
      case Rail3 => v3
    }
  }

  /** Band membership, inclusive at both bounds: only a non-empty band holds a value,
      and both bounds of a non-empty band are in it. */
  predicate InRange(v: real, vmin: real, vmax: real)
    ensures InRange(v, vmin, vmax) ==> vmin <= vmax
    ensures vmin <= vmax && (v == vmin || v == vmax) ==> InRange(v, vmin, vmax)
  {
    v >= vmin && v <= vmax
  }

  predicate InBand(r: Rail, v: Readings)
  {
    InRange(v.Of(r), MinOf(r), MaxOf(r))
  }

  /** The aggregate verdict shown as PASS. */
  predicate Pass(v: Readings)
  {
    InBand(Rail12, v) && InBand(Rail5, v) && InBand(Rail3, v)
  }

  /** The rails in the order the status line names them. */
  const ALL_RAILS: seq<Rail> := [Rail12, Rail5, Rail3]

  /** The rails of `rails` that are out of band, in their original order. */
  function FailingAmong(rails: seq<Rail>, v: Readings): seq<Rail>
  {
    if rails == [] then []
    else (if InBand(rails[0], v) then [] else [rails[0]]) + FailingAmong(rails[1..], v)
  }

  /** The token that names a failing rail on the status line. */
  function Label(r: Rail): string
  {
    match r
    case Rail12 => "12 "
    case Rail5 => "5 "
    case Rail3 => "3.3 "
  }

  function Labels(rails: seq<Rail>): string
  {
    if rails == [] then "" else Label(rails[0]) + Labels(rails[1..])
  }

  /** First status line. */
  function Headline(v: Readings): string
  {
    if Pass(v) then "ATX: PASS" else "ATX: FAIL"
  }

  /** Second status line: the failing rails, or "all ok" when there are none. */
  function Detail(v: Readings): string
  {
    var failing := FailingAmong(ALL_RAILS, v);
    if failing == [] then "all ok" else Labels(failing)
  }

  /** What one page shows. The voltages page carries the calibrated readings
      (printed with two decimals) and the presence and load indicators. */
  datatype Screen =
    | VoltagesScreen(readings: Readings, psuTag: string, loadTag: string)
    | StatusScreen(headline: string, detail: string)

  function PsuTag(psuOn: bool): string
  {
    if psuOn then "P:Y" else "P:N"
  }

  function LoadTag(loadOn: bool): string
  {
    if loadOn then "L:Y" else "L:N"
  }

  /** The voltages page: the calibrated readings, "P:Y" exactly when the supply is
      present and "L:Y" exactly when the load is on. */
  function VoltagesPage(v: Readings, psuOn: bool, loadOn: bool): (screen: Screen)
    ensures screen.VoltagesScreen? && screen.readings == v
    ensures screen.psuTag == "P:Y" <==> psuOn
    ensures screen.loadTag == "L:Y" <==> loadOn
  {
    VoltagesScreen(v, PsuTag(psuOn), LoadTag(loadOn))
  }

  function StatusPage(v: Readings): Screen
  {
    StatusScreen(Headline(v), Detail(v))
  }

  /** Builds the status page the way the display is written: the verdict, then
      each failing rail's token in turn, then "all ok" if nothing failed. */
  method ShowStatus(v: Readings) returns (screen: Screen)
    ensures screen == StatusPage(v)
    ensures screen.headline == "ATX: PASS" <==> Pass(v)
  {
    var ok12 := InRange(v.v12, MB12_MIN, MB12_MAX);
    var ok5 := InRange(v.v5, MB5_MIN, MB5_MAX);
    var ok3 := InRange(v.v3, MB3_MIN, MB3_MAX);

    var line1 := if ok12 && ok5 && ok3 then "ATX: PASS" else "ATX: FAIL";

    var line2 := "";
    if !ok12 { line2 := line2 + "12 "; }
    assert line2 == Token(!ok12, "12 ");
    if !ok5 { line2 := line2 + "5 "; }
    assert line2 == Token(!ok12, "12 ") + Token(!ok5, "5 ");
    if !ok3 { line2 := line2 + "3.3 "; }
    assert line2 == Token(!ok12, "12 ") + Token(!ok5, "5 ") + Token(!ok3, "3.3 ");
    if ok12 && ok5 && ok3 { line2 := line2 + "all ok"; }

    DetailByTokens(v);
    screen := StatusScreen(line1, line2);
  }

  /** A token that is printed only when its condition holds. */
  function Token(printed: bool, text: string): string
  {
    if printed then text else ""
  }

  /** The second line is the tokens of the failing rails, in order, followed by
      "all ok" when none failed. */
  lemma DetailByTokens(v: Readings)
    ensures Detail(v) == Token(!InBand(Rail12, v), "12 ") + Token(!InBand(Rail5, v), "5 ")
                         + Token(!InBand(Rail3, v), "3.3 ") + Token(Pass(v), "all ok")
  {
    var ok12, ok5, ok3 := InBand(Rail12, v), InBand(Rail5, v), InBand(Rail3, v);
    assert FailingAmong([Rail3], v) == if ok3 then [] else [Rail3];
    assert FailingAmong([Rail5, Rail3], v) == (if ok5 then [] else [Rail5]) + FailingAmong([Rail3], v);
    assert FailingAmong(ALL_RAILS, v) == (if ok12 then [] else [Rail12]) + FailingAmong([Rail5, Rail3], v);
    LabelsAppend(if ok12 then [] else [Rail12], FailingAmong([Rail5, Rail3], v));
    LabelsAppend(if ok5 then [] else [Rail5], FailingAmong([Rail3], v));
    assert Labels([Rail12]) == "12 " && Labels([Rail5]) == "5 " && Labels([Rail3]) == "3.3 ";
  }

  lemma {:induction false} LabelsAppend(xs: seq<Rail>, ys: seq<Rail>)
    ensures Labels(xs + ys) == Labels(xs) + Labels(ys)
  {
    if xs == [] {
      assert xs + ys == ys;
    } else {
      assert (xs + ys)[0] == xs[0];
      assert (xs + ys)[1..] == xs[1..] + ys;
      LabelsAppend(xs[1..], ys);
    }
  }

  /** Both bounds of a band belong to it, and nothing outside does. */
  lemma InRangeInclusive(v: real, vmin: real, vmax: real)
    requires vmin <= vmax
    ensures InRange(vmin, vmin, vmax) && InRange(vmax, vmin, vmax)
    ensures v < vmin || v > vmax ==> !InRange(v, vmin, vmax)
  {
  }

  /** A rail is listed exactly when it is one of the rails considered and out of band. */
  lemma {:induction false} FailingAmongMembers(rails: seq<Rail>, v: Readings, r: Rail)
    ensures r in FailingAmong(rails, v) <==> r in rails && !InBand(r, v)
  {
    if rails != [] {
      FailingAmongMembers(rails[1..], v, r);
      assert r in rails <==> r == rails[0] || r in rails[1..];
    }
  }

  /** The filtered list never grows, and it is empty exactly when every rail considered is in band. */
  lemma {:induction false} FailingAmongShorter(rails: seq<Rail>, v: Readings)
    ensures |FailingAmong(rails, v)| <= |rails|
    ensures FailingAmong(rails, v) == [] <==> forall i :: 0 <= i < |rails| ==> InBand(rails[i], v)
  {
    if rails != [] {
      FailingAmongShorter(rails[1..], v);
      assert forall i :: 1 <= i < |rails| ==> rails[i] == rails[1..][i - 1];
    }
  }

  /** PASS is shown exactly when no rail is out of band. */
  lemma PassIffNoneFailing(v: Readings)
    ensures Pass(v) <==> FailingAmong(ALL_RAILS, v) == []
  {
    FailingAmongShorter(ALL_RAILS, v);
    assert ALL_RAILS[0] == Rail12 && ALL_RAILS[1] == Rail5 && ALL_RAILS[2] == Rail3;
  }

  /** The second line reads "all ok" exactly when the verdict is PASS; otherwise it
      is the failing rails' tokens, and `FailingAmongMembers` says which rails those are. */
  lemma DetailAllOkIffPass(v: Readings)
    ensures Detail(v) == "all ok" <==> Pass(v)
  {
    PassIffNoneFailing(v);
    var failing := FailingAmong(ALL_RAILS, v);
    if failing != [] {
      assert Labels(failing) == Label(failing[0]) + Labels(failing[1..]);
      assert Labels(failing)[0] != 'a';
    }
  }

  /** The boundary cases of the tolerance bands. */
  lemma ClassificationExamples()
    ensures Pass(Readings(11.40, 5.00, 3.30))
    ensures !InBand(Rail12, Readings(11.39, 5.00, 3.30)) && !Pass(Readings(11.39, 5.00, 3.30))
    ensures Detail(Readings(11.39, 5.00, 3.30)) == "12 "
    ensures Pass(Readings(12.60, 5.25, 3.465))
  {
    assert FailingAmong(ALL_RAILS, Readings(11.39, 5.00, 3.30)) == [Rail12];
    assert Labels([Rail12]) == "12 " + Labels([]);
  }
}
