/**
 * Concrete frames worked through the classifier end to end: the angles
 * each one measures, the flags it earns and where its dots land.
 */
module FormScenarios {
  import opened PoseTypes
  import opened PoseGeometry
  import opened CameraPose

  /** A landmark the classifier never reads (indices 0 to 10). */
  const Unread: PosePoint := PosePoint(0.0, 0.0, None)

  /** The portrait viewport of the scenarios. */
  const Portrait: Size := Size(400.0, 800.0)

  /** A fully visible landmark. */
  function Seen(x: real, y: real): PosePoint {
    PosePoint(x, y, Some(1.0))
  }

  /**
   * A 17-landmark frame: left shoulder, right shoulder, left elbow, right
   * elbow, left wrist, right wrist at indices 11 to 16, as the detector
   * numbers them.
   */
  function Frame(lsh: PosePoint, rsh: PosePoint, lel: PosePoint,
                 rel: PosePoint, lwr: PosePoint, rwr: PosePoint): (pts: seq<PosePoint>)
    ensures |pts| == 17
    ensures pts[11] == lsh && pts[12] == rsh && pts[13] == lel
    ensures pts[14] == rel && pts[15] == lwr && pts[16] == rwr
  {
    seq(11, _ => Unread) + [lsh, rsh, lel, rel, lwr, rwr]
  }

  /**
   * Both arms hanging straight down, right-handed: the upper arms are
   * vertical, so the shoulder slopes divide by zero. Both elbows measure
   * 180, the dominant shoulder 90 (not flipped, +infinity is not below 0)
   * and the other shoulder -90 (flipped, +infinity is at least 0).
   */
  function HangingFrame(): seq<PosePoint> {
    Frame(Seen(0.6, 0.3), Seen(0.4, 0.3), Seen(0.6, 0.5),
          Seen(0.4, 0.5), Seen(0.6, 0.6), Seen(0.4, 0.6))
  }

  /** The roles right-handed play gives the hanging frame. */
  function HangingArm(): Arm {
    Arm(Seen(0.4, 0.3), Seen(0.6, 0.3), Seen(0.4, 0.5),
        Seen(0.6, 0.5), Seen(0.4, 0.6), Seen(0.6, 0.6))
  }

  /** Each shoulder line of the hanging arm meets its vertical upper arm at 90 degrees. */
  lemma HangingShoulderLines(m: Libm)
    requires Lawful(m)
    ensures var a := HangingArm();
      AngleDeg(m, Vector(a.rs, a.ls), Vector(a.ls, a.le)) == 90.0 &&
      AngleDeg(m, Vector(a.ls, a.rs), Vector(a.rs, a.re)) == 90.0
  {
    AngleDegPerpendicular(m, Vec(-0.2, 0.0), Vec(0.0, -0.2));
    AngleDegPerpendicular(m, Vec(0.2, 0.0), Vec(0.0, -0.2));
  }

  /** Both arms of the hanging frame are straight: 180 degrees at each elbow. */
  lemma HangingElbows(m: Libm)
    requires Lawful(m)
    ensures var a := HangingArm();
      ElbowAngle(m, a.ls, a.le, a.lw) == 180.0 && ElbowAngle(m, a.rs, a.re, a.rw) == 180.0
  {
    AngleDegOpposite(m, Vec(0.0, 0.1), Vec(0.0, -0.2), -2.0);
  }

  /**
   * The angles of the hanging frame, right-handed: the non-dominant
   * shoulder flips because its elbow lies below it, the dominant one
   * does not.
   */
  lemma HangingAngles(m: Libm)
    requires Lawful(m)
    ensures MeasureAngles(m, HangingArm()) == Angles(-90.0, 180.0, 180.0, 90.0)
  {
    var a := HangingArm();
    HangingShoulderLines(m);
    HangingElbows(m);
    NdShoulderFlipsVerticalArm(a.rs, a.ls, a.le);
    ShoulderFlipsVerticalArm(a.ls, a.rs, a.re);
  }

  /**
   * The hanging frame, right-handed, on the 400 x 800 viewport: every dot
   * is bad, the shoulders at y = 240 and the elbows at y = 400, the
   * dominant side at x = 240 and the other at x = 160.
   */
  lemma HangingAssessment(m: Libm)
    requires Lawful(m)
    ensures Assess(HangingFrame(), Portrait, false, m) ==
      Some(Overlays(OverlayDot(160.0, 240.0, false), OverlayDot(160.0, 400.0, false),
                    OverlayDot(240.0, 400.0, false), OverlayDot(240.0, 240.0, false)))
  {
    var pts := HangingFrame();
    assert Select(pts, false) == HangingArm();
    GateIndices(pts, false);
    HangingAngles(m);
  }

  /**
   * Arms out to the sides with the forearms bent, right-handed: the
   * dominant forearm points up, the other down; both upper arms continue
   * the shoulder line.
   */
  function BentFrame(): seq<PosePoint> {
    Frame(Seen(0.6, 0.3), Seen(0.4, 0.3), Seen(0.8, 0.3),
          Seen(0.2, 0.3), Seen(0.8, 0.5), Seen(0.2, 0.1))
  }

  /** The roles right-handed play gives the bent frame. */
  function BentArm(): Arm {
    Arm(Seen(0.4, 0.3), Seen(0.6, 0.3), Seen(0.2, 0.3),
        Seen(0.8, 0.3), Seen(0.2, 0.1), Seen(0.8, 0.5))
  }

  /**
   * The angles of the bent frame: both elbows 90, both shoulders 0 (the
   * non-dominant one is negated, 0 >= 0, and stays 0).
   */
  lemma BentAngles(m: Libm)
    requires Lawful(m)
    ensures MeasureAngles(m, BentArm()) == Angles(0.0, 90.0, 90.0, 0.0)
  {
    var a := BentArm();
    assert NdShoulderAngle(m, a.rs, a.ls, a.le) == 0.0 by {
      AngleDegParallel(m, Vec(-0.2, 0.0), Vec(-0.2, 0.0), 1.0);
    }
    assert ElbowAngle(m, a.ls, a.le, a.lw) == 90.0 by {
      AngleDegPerpendicular(m, Vec(0.0, 0.2), Vec(-0.2, 0.0));
    }
    assert ElbowAngle(m, a.rs, a.re, a.rw) == 90.0 by {
      AngleDegPerpendicular(m, Vec(0.0, -0.2), Vec(0.2, 0.0));
    }
    assert ShoulderAngle(m, a.ls, a.rs, a.re) == 0.0 by {
      AngleDegParallel(m, Vec(0.2, 0.0), Vec(0.2, 0.0), 1.0);
    }
  }

  /** The bent frame earns four good dots. */
  lemma BentAssessment(m: Libm)
    requires Lawful(m)
    ensures Assess(BentFrame(), Portrait, false, m) ==
      Some(Overlays(OverlayDot(160.0, 240.0, true), OverlayDot(80.0, 240.0, true),
                    OverlayDot(320.0, 240.0, true), OverlayDot(240.0, 240.0, true)))
  {
    var pts := BentFrame();
    assert Select(pts, false) == BentArm();
    GateIndices(pts, false);
    BentAngles(m);
  }

  /**
   * The bent frame with the dominant wrist seen at visibility 0.5 fails
   * the gate, while the non-dominant wrist at 0.5 is ignored.
   */
  lemma WristVisibility(m: Libm)
    ensures var f := BentFrame();
      Assess(f[16 := f[16].(visibility := Some(0.5))], Portrait, false, m).None? &&
      Assess(f[15 := f[15].(visibility := Some(0.5))], Portrait, false, m).Some?
  {
    var f := BentFrame();
    AssessNoneIff(f[16 := f[16].(visibility := Some(0.5))], Portrait, false, m);
    AssessNoneIff(f[15 := f[15].(visibility := Some(0.5))], Portrait, false, m);
  }

  /**
   * A session on a new screen: a bent frame sets four good dots, a short
   * frame then leaves them shown, and after a switch to left-handed play
   * the hanging frame replaces them.
   */
  method Session(m: Libm) returns (afterBent: seq<Option<OverlayDot>>,
                                   afterShort: seq<Option<OverlayDot>>,
                                   afterToggle: seq<Option<OverlayDot>>)
    requires Lawful(m)
    ensures afterBent == afterShort ==
      [Some(OverlayDot(160.0, 240.0, true)), Some(OverlayDot(80.0, 240.0, true)),
       Some(OverlayDot(320.0, 240.0, true)), Some(OverlayDot(240.0, 240.0, true))]
    ensures afterToggle ==
      [Some(OverlayDot(240.0, 240.0, false)), Some(OverlayDot(240.0, 400.0, false)),
       Some(OverlayDot(160.0, 400.0, false)), Some(OverlayDot(160.0, 240.0, false))]
  {
    var view := new CameraPoseView();
    BentAssessment(m);
    view.UpdateOverlays(BentFrame(), Portrait, m);
    afterBent := view.Dots();
    view.UpdateOverlays(BentFrame()[..16], Portrait, m);
    afterShort := view.Dots();
    view.ToggleHandedness();
    LeftyHangingAssessment(m);
    view.UpdateOverlays(HangingFrame(), Portrait, m);
    afterToggle := view.Dots();
  }

  /**
   * The hanging frame played left-handed: the roles of the arms swap, so
   * the dominant dots move to x = 160 and the other dots to x = 240, and
   * all four are still bad.
   */
  lemma LeftyHangingAssessment(m: Libm)
    requires Lawful(m)
    ensures Assess(HangingFrame(), Portrait, true, m) ==
      Some(Overlays(OverlayDot(240.0, 240.0, false), OverlayDot(240.0, 400.0, false),
                    OverlayDot(160.0, 400.0, false), OverlayDot(160.0, 240.0, false)))
  {
    var pts := HangingFrame();
    var a := Select(pts, true);
    assert a == Swapped(HangingArm());
    GateIndices(pts, true);
    HangingShoulderLines(m);
    HangingElbows(m);
    NdShoulderFlipsVerticalArm(a.rs, a.ls, a.le);
    ShoulderFlipsVerticalArm(a.ls, a.rs, a.re);
  }
}
