/**
 * The form classifier of the camera screen: for one frame of landmarks it
 * picks the arm landmarks by handedness, gates on their visibility,
 * measures four joint angles and sets the four overlay dots, each at a
 * mirrored screen position with a good/bad flag.
 */
module CameraPose {
  import opened PoseTypes
  import opened PoseGeometry

  /** The least visibility a gated landmark may have. */
  const MinVisibility: real := 0.6

  /** One dot drawn over the camera feed. */
  datatype OverlayDot = OverlayDot(x: real, y: real, isGood: bool)

  /**
   * The six landmarks the classifier reads, by role: `r*` is the dominant
   * (playing) arm and `l*` the other one, whatever side the detector saw.
   */
  datatype Arm = Arm(rs: PosePoint, ls: PosePoint, re: PosePoint,
                     le: PosePoint, rw: PosePoint, lw: PosePoint)

  /** The four joint angles of a frame, in degrees; the shoulder angles carry a sign. */
  datatype Angles = Angles(ndD: real, ndC: real, c: real, d: real)

  /** The four dots one frame produces, in the order the classifier sets them. */
  datatype Overlays = Overlays(shoulder2: OverlayDot, elbow2: OverlayDot,
                               elbow: OverlayDot, shoulder: OverlayDot)

  // ---------------------------------------------------------------------
  // Landmark selection

  /**
   * The roles of landmarks 11 to 16 (shoulders, elbows, wrists; the lower
   * index is the detector's left side). Left-handed play takes them in
   * index order; right-handed play swaps each left/right pair.
   */
  function Select(pts: seq<PosePoint>, isLeftyMode: bool): Arm
    requires |pts| > 16
  {
    if isLeftyMode then Arm(pts[11], pts[12], pts[13], pts[14], pts[15], pts[16])
    else Arm(pts[12], pts[11], pts[14], pts[13], pts[16], pts[15])
  }

  /** Exchange the dominant and the non-dominant arm. */
  function Swapped(a: Arm): Arm {
    Arm(a.ls, a.rs, a.le, a.re, a.lw, a.rw)
  }

  // ---------------------------------------------------------------------
  // Visibility gate

  /** Every landmark of the list is seen with enough confidence. */
  predicate AllVisible(ps: seq<PosePoint>) {
    forall i :: 0 <= i < |ps| ==> Vis(ps[i]) >= MinVisibility
  }

  /** The gate: both shoulders, the dominant elbow and the dominant wrist. */
  predicate PassesGate(a: Arm) {
    AllVisible([a.rs, a.ls, a.re, a.rw])
  }

  // ---------------------------------------------------------------------
  // Angles and sign flips

  /**
   * The non-dominant shoulder angle is negated when the slope from the
   * non-dominant shoulder ls to its elbow le is at least the slope from ls
   * to the dominant shoulder rs (floating-point `>=`, false on NaN).
   */
  predicate NdShoulderFlips(rs: PosePoint, ls: PosePoint, le: PosePoint) {
    AtLeast(SlopeOf(le.y - ls.y, le.x - ls.x), SlopeOf(rs.y - ls.y, rs.x - ls.x))
  }

  /**
   * The dominant shoulder angle is negated when the slope from the
   * dominant shoulder rs to its elbow re is below the slope from rs to the
   * other shoulder ls (floating-point `<`, false on NaN).
   */
  predicate ShoulderFlips(ls: PosePoint, rs: PosePoint, re: PosePoint) {
    Less(SlopeOf(re.y - rs.y, re.x - rs.x), SlopeOf(ls.y - rs.y, ls.x - rs.x))
  }

  /** `ndD`: the angle between the shoulder line and the non-dominant upper arm, signed. */
  function NdShoulderAngle(m: Libm, rs: PosePoint, ls: PosePoint, le: PosePoint): real {
    var ndD := AngleDeg(m, Vector(rs, ls), Vector(ls, le));
    if NdShoulderFlips(rs, ls, le) then -ndD else ndD
  }

  /** `D`: the angle between the shoulder line and the dominant upper arm, signed. */
  function ShoulderAngle(m: Libm, ls: PosePoint, rs: PosePoint, re: PosePoint): real {
    var d := AngleDeg(m, Vector(ls, rs), Vector(rs, re));
    if ShoulderFlips(ls, rs, re) then -d else d
  }

  /** `ndC` and `C`: the angle between forearm and upper arm at an elbow. */
  function ElbowAngle(m: Libm, s: PosePoint, e: PosePoint, w: PosePoint): real {
    AngleDeg(m, Vector(w, e), Vector(s, e))
  }

  /** The four angles of a frame. */
  function MeasureAngles(m: Libm, a: Arm): Angles {
    Angles(NdShoulderAngle(m, a.rs, a.ls, a.le), ElbowAngle(m, a.ls, a.le, a.lw),
           ElbowAngle(m, a.rs, a.re, a.rw), ShoulderAngle(m, a.ls, a.rs, a.re))
  }

  // ---------------------------------------------------------------------
  // Thresholds

  /** `!(v < lo || v > hi)`, the way every threshold is written. */
  predicate Within(v: real, lo: real, hi: real) {
    !(v < lo || v > hi)
  }

  /** The dominant elbow is good in [35, 98.1] degrees. */
  predicate ElbowGood(c: real) {
    Within(c, 35.0, 98.1)
  }

  /** The dominant shoulder range: [-10, 30] left-handed, [-31.3, 16.7] right-handed. */
  predicate ShoulderGood(d: real, isLeftyMode: bool) {
    if isLeftyMode then Within(d, -10.0, 30.0) else Within(d, -31.3, 16.7)
  }

  /** The non-dominant shoulder range: [-31.3, 16.7] left-handed, [-10, 30] right-handed. */
  predicate Shoulder2Good(ndD: real, isLeftyMode: bool) {
    if isLeftyMode then Within(ndD, -31.3, 16.7) else Within(ndD, -10.0, 30.0)
  }

  /** The non-dominant elbow depends on both elbow angles. */
  predicate Elbow2Good(ndC: real, c: real) {
    !(ndC < 90.0 || ndC > 180.0 || ndC + c < 120.0 || ndC + c > 240.0)
  }

  /** A dot at the screen position of landmark p. */
  function DotAt(p: PosePoint, size: Size, isGood: bool): OverlayDot {
    var s := Screen(p, size);
    OverlayDot(s.x, s.y, isGood)
  }

  /** The four dots of a frame whose landmarks passed the gate. */
  function Classify(a: Arm, size: Size, isLeftyMode: bool, m: Libm): Overlays {
    var g := MeasureAngles(m, a);
    Overlays(DotAt(a.ls, size, Shoulder2Good(g.ndD, isLeftyMode)),
             DotAt(a.le, size, Elbow2Good(g.ndC, g.c)),
             DotAt(a.re, size, ElbowGood(g.c)),
             DotAt(a.rs, size, ShoulderGood(g.d, isLeftyMode)))
  }

  /**
   * What one call of `updateOverlays` decides: nothing for a short frame
   * or a frame failing the gate, otherwise four new dots.
   */
  function Assess(pts: seq<PosePoint>, size: Size, isLeftyMode: bool, m: Libm): Option<Overlays> {
    if |pts| <= 16 then None
    else
      var a := Select(pts, isLeftyMode);
      if !PassesGate(a) then None else Some(Classify(a, size, isLeftyMode, m))
  }

  // ---------------------------------------------------------------------
  // The view's state

  /** The state of the camera screen the classifier reads and writes. */
  class CameraPoseView {
    var isLeftyMode: bool
    var shoulder2: Option<OverlayDot>
    var elbow2: Option<OverlayDot>
    var elbow: Option<OverlayDot>
    var shoulder: Option<OverlayDot>

    /** The four dots as drawn. */
    function Dots(): seq<Option<OverlayDot>>
      reads this
    {
      [shoulder2, elbow2, elbow, shoulder]
    }

    /** A new screen is right-handed and shows no dots. */
    constructor()
      ensures !isLeftyMode
      ensures Dots() == [None, None, None, None]
    {
      isLeftyMode := false;
      shoulder2, elbow2, elbow, shoulder := None, None, None, None;
    }

    /** The handedness button. */
    method ToggleHandedness()
      modifies this`isLeftyMode
      ensures isLeftyMode == !old(isLeftyMode)
    {
      isLeftyMode := !isLeftyMode;
    }

    /**
     * `updateOverlays`: the early returns leave every dot as it was; once
     * both guards pass, all four dots are replaced by the assessment of
     * the frame.
     */
    method UpdateOverlays(pts: seq<PosePoint>, size: Size, m: Libm)
      modifies this`shoulder2, this`elbow2, this`elbow, this`shoulder
      ensures |pts| <= 16 ==> unchanged(this)
      ensures Assess(pts, size, isLeftyMode, m).None? ==> unchanged(this)
      ensures Assess(pts, size, isLeftyMode, m).Some? ==>
        var o := Assess(pts, size, isLeftyMode, m).value;
        shoulder2 == Some(o.shoulder2) && elbow2 == Some(o.elbow2) &&
        elbow == Some(o.elbow) && shoulder == Some(o.shoulder)
    {
      if |pts| <= 16 {
        return;
      }

      var rs, ls, re, le, rw, lw;
      if isLeftyMode {
        rs, ls, re, le, rw, lw := pts[11], pts[12], pts[13], pts[14], pts[15], pts[16];
      } else {
        rs, ls, re, le, rw, lw := pts[12], pts[11], pts[14], pts[13], pts[16], pts[15];
      }
      ghost var a := Arm(rs, ls, re, le, rw, lw);
      assert a == Select(pts, isLeftyMode);

      if !AllVisible([rs, ls, re, rw]) {
        return;
      }
      AssessGated(pts, size, isLeftyMode, m);

      SetShoulder2(rs, ls, le, size, m);
      var ndC := ElbowAngle(m, ls, le, lw);
      var c := SetElbow(rs, re, rw, size, m);
      SetShoulder(ls, rs, re, size, m);
      elbow2 := Some(DotAt(le, size, Elbow2Good(ndC, c)));
    }

    /** The non-dominant shoulder section of `updateOverlays`. */
    method SetShoulder2(rs: PosePoint, ls: PosePoint, le: PosePoint, size: Size, m: Libm)
      modifies this`shoulder2
      ensures shoulder2 == Some(DotAt(ls, size, Shoulder2Good(NdShoulderAngle(m, rs, ls, le), isLeftyMode)))
    {
      var lrshoulder := Vector(rs, ls);
      var ellshoulder := Vector(ls, le);
      var ndD := AngleDeg(m, lrshoulder, ellshoulder);
      var nslope1 := SlopeOf(rs.y - ls.y, rs.x - ls.x);
      var nslope2 := SlopeOf(le.y - ls.y, le.x - ls.x);
      if AtLeast(nslope2, nslope1) {
        ndD := -ndD;
      }
      shoulder2 := Some(DotAt(ls, size, Shoulder2Good(ndD, isLeftyMode)));
    }

    /** The dominant elbow section of `updateOverlays`; it hands `C` on to the non-dominant elbow. */
    method SetElbow(rs: PosePoint, re: PosePoint, rw: PosePoint, size: Size, m: Libm) returns (c: real)
      modifies this`elbow
      ensures c == ElbowAngle(m, rs, re, rw)
      ensures elbow == Some(DotAt(re, size, ElbowGood(c)))
    {
      var elshoulder := Vector(rs, re);
      var rewrist := Vector(rw, re);
      c := AngleDeg(m, rewrist, elshoulder);
      elbow := Some(DotAt(re, size, ElbowGood(c)));
    }

    /** The dominant shoulder section of `updateOverlays`. */
    method SetShoulder(ls: PosePoint, rs: PosePoint, re: PosePoint, size: Size, m: Libm)
      modifies this`shoulder
      ensures shoulder == Some(DotAt(rs, size, ShoulderGood(ShoulderAngle(m, ls, rs, re), isLeftyMode)))
    {
      var rlshoulder := Vector(ls, rs);
      var elshoulder := Vector(rs, re);
      var d := AngleDeg(m, rlshoulder, elshoulder);
      var slope1 := SlopeOf(ls.y - rs.y, ls.x - rs.x);
      var slope2 := SlopeOf(re.y - rs.y, re.x - rs.x);
      if Less(slope2, slope1) {
        d := -d;
      }
      shoulder := Some(DotAt(rs, size, ShoulderGood(d, isLeftyMode)));
    }
  }

  // ---------------------------------------------------------------------
  // Properties

  /** Once both guards pass, the assessment is the classification of the selected arm. */
  lemma AssessGated(pts: seq<PosePoint>, size: Size, isLeftyMode: bool, m: Libm)
    requires |pts| > 16 && PassesGate(Select(pts, isLeftyMode))
    ensures Assess(pts, size, isLeftyMode, m) == Some(Classify(Select(pts, isLeftyMode), size, isLeftyMode, m))
  {
  }

  /** Exchanging the arms twice gives the arm back. */
  lemma SwappedInvolutive(a: Arm)
    ensures Swapped(Swapped(a)) == a
    ensures Swapped(a) != a <==> a.rs != a.ls || a.re != a.le || a.rw != a.lw
  {
  }

  /**
   * Whatever the handedness, the two shoulders are landmarks 11 and 12,
   * the two elbows 13 and 14 and the two wrists 15 and 16.
   */
  lemma SelectPairs(pts: seq<PosePoint>, isLeftyMode: bool)
    requires |pts| > 16
    ensures var a := Select(pts, isLeftyMode);
      ((a.rs, a.ls) == (pts[11], pts[12]) || (a.rs, a.ls) == (pts[12], pts[11])) &&
      ((a.re, a.le) == (pts[13], pts[14]) || (a.re, a.le) == (pts[14], pts[13])) &&
      ((a.rw, a.lw) == (pts[15], pts[16]) || (a.rw, a.lw) == (pts[16], pts[15]))
  {
  }

  /**
   * Flipping handedness exchanges the roles of the two arms and nothing
   * else: the landmark values themselves are untouched.
   */
  lemma SelectToggle(pts: seq<PosePoint>, isLeftyMode: bool)
    requires |pts| > 16
    ensures Select(pts, !isLeftyMode) == Swapped(Select(pts, isLeftyMode))
  {
  }

  /**
   * The gate reads landmarks 11 and 12 and one elbow and one wrist: 13
   * and 15 left-handed, 14 and 16 right-handed. A missing visibility
   * counts as 1.
   */
  lemma GateIndices(pts: seq<PosePoint>, isLeftyMode: bool)
    requires |pts| > 16
    ensures PassesGate(Select(pts, isLeftyMode)) <==>
      Vis(pts[11]) >= 0.6 && Vis(pts[12]) >= 0.6 &&
      if isLeftyMode then Vis(pts[13]) >= 0.6 && Vis(pts[15]) >= 0.6
      else Vis(pts[14]) >= 0.6 && Vis(pts[16]) >= 0.6
  {
    var a := Select(pts, isLeftyMode);
    var g := [a.rs, a.ls, a.re, a.rw];
    assert g[0] == a.rs && g[1] == a.ls && g[2] == a.re && g[3] == a.rw;
  }

  /** The non-dominant elbow and wrist are never gated. */
  lemma GateIgnoresNonDominantArm(a: Arm, le: PosePoint, lw: PosePoint)
    ensures PassesGate(a.(le := le, lw := lw)) == PassesGate(a)
  {
    var b := a.(le := le, lw := lw);
    assert [b.rs, b.ls, b.re, b.rw] == [a.rs, a.ls, a.re, a.rw];
  }

  /** No assessment exactly for a short frame or a frame failing the gate. */
  lemma AssessNoneIff(pts: seq<PosePoint>, size: Size, isLeftyMode: bool, m: Libm)
    ensures Assess(pts, size, isLeftyMode, m).None? <==>
      |pts| <= 16 ||
      Vis(pts[11]) < 0.6 || Vis(pts[12]) < 0.6 ||
      (if isLeftyMode then Vis(pts[13]) < 0.6 || Vis(pts[15]) < 0.6
       else Vis(pts[14]) < 0.6 || Vis(pts[16]) < 0.6)
  {
    if |pts| > 16 {
      GateIndices(pts, isLeftyMode);
    }
  }

  /**
   * Where the dots go: the dominant shoulder and elbow dots at landmarks
   * 12 and 14 right-handed (11 and 13 left-handed), the non-dominant ones
   * at 11 and 13 (12 and 14), each mirrored into the viewport.
   */
  lemma DotPlacement(pts: seq<PosePoint>, size: Size, isLeftyMode: bool, m: Libm)
    requires Assess(pts, size, isLeftyMode, m).Some?
    ensures var o := Assess(pts, size, isLeftyMode, m).value;
      var dom, nd := if isLeftyMode then 11 else 12, if isLeftyMode then 12 else 11;
      Point(o.shoulder.x, o.shoulder.y) == Screen(pts[dom], size) &&
      Point(o.elbow.x, o.elbow.y) == Screen(pts[dom + 2], size) &&
      Point(o.shoulder2.x, o.shoulder2.y) == Screen(pts[nd], size) &&
      Point(o.elbow2.x, o.elbow2.y) == Screen(pts[nd + 2], size)
  {
  }

  /**
   * Toggling handedness on a frame that passes the gate both ways swaps
   * the dominant and non-dominant dot positions.
   */
  lemma TogglePlacement(pts: seq<PosePoint>, size: Size, isLeftyMode: bool, m: Libm)
    requires Assess(pts, size, isLeftyMode, m).Some?
    requires Assess(pts, size, !isLeftyMode, m).Some?
    ensures var o, t := Assess(pts, size, isLeftyMode, m).value, Assess(pts, size, !isLeftyMode, m).value;
      (t.shoulder.x, t.shoulder.y) == (o.shoulder2.x, o.shoulder2.y) &&
      (t.shoulder2.x, t.shoulder2.y) == (o.shoulder.x, o.shoulder.y) &&
      (t.elbow.x, t.elbow.y) == (o.elbow2.x, o.elbow2.y) &&
      (t.elbow2.x, t.elbow2.y) == (o.elbow.x, o.elbow.y)
  {
    DotPlacement(pts, size, isLeftyMode, m);
    DotPlacement(pts, size, !isLeftyMode, m);
  }

  /** Every threshold test is interval membership, both ends included. */
  lemma WithinIff(v: real, lo: real, hi: real)
    ensures Within(v, lo, hi) <==> lo <= v <= hi
  {
  }

  /**
   * The good flags of a frame, as closed intervals on its angles; the two
   * shoulder ranges are the same pair, swapped by handedness.
   */
  lemma FlagsIff(a: Arm, size: Size, isLeftyMode: bool, m: Libm)
    ensures var o, g := Classify(a, size, isLeftyMode, m), MeasureAngles(m, a);
      (o.elbow.isGood <==> 35.0 <= g.c <= 98.1) &&
      (o.elbow2.isGood <==> 90.0 <= g.ndC <= 180.0 && 120.0 <= g.ndC + g.c <= 240.0) &&
      (o.shoulder.isGood <==>
        if isLeftyMode then -10.0 <= g.d <= 30.0 else -31.3 <= g.d <= 16.7) &&
      (o.shoulder2.isGood <==>
        if isLeftyMode then -31.3 <= g.ndD <= 16.7 else -10.0 <= g.ndD <= 30.0)
  {
  }

  /** The two shoulder ranges trade places with handedness. */
  lemma ShoulderRangesSwap(x: real, isLeftyMode: bool)
    ensures Shoulder2Good(x, isLeftyMode) == ShoulderGood(x, !isLeftyMode)
  {
  }

  /** The dominant elbow range includes both ends: 35 and 98.1 pass, 34.99 and 98.11 do not. */
  lemma ElbowBoundaries()
    ensures ElbowGood(35.0) && ElbowGood(98.1)
    ensures !ElbowGood(34.99) && !ElbowGood(98.11)
  {
  }

  /**
   * The non-dominant elbow needs both conditions: 150 degrees lies in
   * [90, 180], yet with a dominant elbow of 100 the sum 250 fails it.
   */
  lemma Elbow2NeedsSum()
    ensures 90.0 <= 150.0 <= 180.0 && !Elbow2Good(150.0, 100.0)
    ensures Elbow2Good(150.0, 60.0)
  {
  }

  /**
   * Under a lawful math library the elbow angles lie in [0, 180] and the
   * signed shoulder angles in [-180, 180], their magnitudes being the
   * unsigned angles.
   */
  lemma AngleRanges(m: Libm, a: Arm)
    requires Lawful(m)
    ensures var g := MeasureAngles(m, a);
      0.0 <= g.c <= 180.0 && 0.0 <= g.ndC <= 180.0 &&
      -180.0 <= g.d <= 180.0 && -180.0 <= g.ndD <= 180.0
  {
    AngleDegBounds(m, Vector(a.rs, a.ls), Vector(a.ls, a.le));
    AngleDegBounds(m, Vector(a.ls, a.rs), Vector(a.rs, a.re));
    AngleDegBounds(m, Vector(a.lw, a.le), Vector(a.ls, a.le));
    AngleDegBounds(m, Vector(a.rw, a.re), Vector(a.rs, a.re));
  }

  /**
   * A straight dominant arm (180 degrees) always fails the non-dominant
   * elbow, and so does any dominant angle above 150.
   */
  lemma Elbow2FailsForStraightArm(ndC: real, c: real)
    requires 150.0 < c
    ensures !Elbow2Good(ndC, c)
  {
  }

  /**
   * When the dominant upper arm is vertical in the frame (elbow straight
   * below or above the shoulder) and the shoulders are not, the dominant
   * shoulder flips exactly when the elbow is above the shoulder: the
   * division by zero gives +infinity or -infinity, or NaN when the elbow
   * sits on the shoulder.
   */
  lemma ShoulderFlipsVerticalArm(ls: PosePoint, rs: PosePoint, re: PosePoint)
    requires re.x == rs.x && ls.x != rs.x
    ensures ShoulderFlips(ls, rs, re) <==> re.y < rs.y
  {
  }

  /**
   * The non-dominant side tests `>=`, so for a vertical upper arm it
   * flips exactly when the elbow is below the shoulder.
   */
  lemma NdShoulderFlipsVerticalArm(rs: PosePoint, ls: PosePoint, le: PosePoint)
    requires le.x == ls.x && rs.x != ls.x
    ensures NdShoulderFlips(rs, ls, le) <==> le.y > ls.y
  {
  }

  /**
   * With no vertical pair the dominant flip is a cross-product sign test
   * of the upper arm against the shoulder line.
   */
  lemma ShoulderFlipsCross(ls: PosePoint, rs: PosePoint, re: PosePoint)
    requires re.x != rs.x && ls.x != rs.x
    ensures ShoulderFlips(ls, rs, re) <==>
      (re.x - rs.x) * (ls.x - rs.x) *
        ((re.y - rs.y) * (ls.x - rs.x) - (ls.y - rs.y) * (re.x - rs.x)) < 0.0
  {
    SlopeLessIffCross(re.y - rs.y, re.x - rs.x, ls.y - rs.y, ls.x - rs.x);
  }

  /**
   * With no vertical pair the non-dominant flip is the complement of the
   * same cross-product test taken from the other shoulder.
   */
  lemma NdShoulderFlipsCross(rs: PosePoint, ls: PosePoint, le: PosePoint)
    requires le.x != ls.x && rs.x != ls.x
    ensures NdShoulderFlips(rs, ls, le) <==>
      !((le.x - ls.x) * (rs.x - ls.x) *
        ((le.y - ls.y) * (rs.x - ls.x) - (rs.y - ls.y) * (le.x - ls.x)) < 0.0)
  {
    SlopeLessIffCross(le.y - ls.y, le.x - ls.x, rs.y - ls.y, rs.x - ls.x);
  }

  /**
   * With level shoulders and the dominant elbow below its shoulder, `D`
   * flips exactly when the elbow lies at a smaller x than the shoulder,
   * whichever side the other shoulder is on: the sign changes as the
   * elbow crosses the vertical, and the vertical itself does not flip.
   */
  lemma ShoulderFlipsLevelShoulders(ls: PosePoint, rs: PosePoint, re: PosePoint)
    requires ls.y == rs.y && ls.x != rs.x && rs.y < re.y
    ensures ShoulderFlips(ls, rs, re) <==> re.x < rs.x
  {
    var dx, dy := re.x - rs.x, re.y - rs.y;
    if dx != 0.0 {
      assert SlopeOf(ls.y - rs.y, ls.x - rs.x) == Finite(0.0);
      assert dy / dx * dx == dy;
      if dx < 0.0 {
        assert dy / dx < 0.0;
      } else {
        assert 0.0 < dy / dx;
      }
    }
  }

  /**
   * The elbow crossing the vertical below the dominant shoulder, with the
   * other shoulder to the right: a hundredth to the left flips `D`; on the
   * vertical and a hundredth to the right it does not.
   */
  lemma ShoulderFlipsAcrossVertical()
    ensures var ls, rs := PosePoint(0.6, 0.3, None), PosePoint(0.4, 0.3, None);
      ShoulderFlips(ls, rs, PosePoint(0.39, 0.5, None)) &&
      !ShoulderFlips(ls, rs, PosePoint(0.4, 0.5, None)) &&
      !ShoulderFlips(ls, rs, PosePoint(0.41, 0.5, None))
  {
    var ls, rs := PosePoint(0.6, 0.3, None), PosePoint(0.4, 0.3, None);
    ShoulderFlipsLevelShoulders(ls, rs, PosePoint(0.39, 0.5, None));
    ShoulderFlipsLevelShoulders(ls, rs, PosePoint(0.4, 0.5, None));
    ShoulderFlipsLevelShoulders(ls, rs, PosePoint(0.41, 0.5, None));
  }
}
