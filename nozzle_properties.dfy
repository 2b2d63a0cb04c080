/**
 * Properties of the Zippy nozzle's tip scan and offset compensation. None of them
 * assumes anything of the rotation primitive unless a requires clause says so.
 */
module NozzleProperties {
  import opened Options
  import opened Locations
  import opened ZippyNozzles

  /** When some tip is loaded, the scan ends on the last loaded one, whatever it started from. */
  lemma {:induction false} ScanEndsOnLastLoaded(tips: seq<NozzleTip>, prev: Option<NozzleTip>, k: nat)
    requires k < |tips| && tips[k].loaded
    requires forall j :: k < j < |tips| ==> !tips[j].loaded
    ensures LastLoaded(tips, prev) == Some(tips[k])
  {
    var next := if tips[0].loaded then Some(tips[0]) else prev;
    if k == 0 {
      ScanKeepsPrevious(tips[1..], next);
    } else {
      ScanEndsOnLastLoaded(tips[1..], next, k - 1);
    }
  }

  /**
   * When no tip is loaded, the scan leaves the previous tip in place; it does not clear
   * it. This follows from LastLoaded's contract: its result is prev or a loaded tip.
   */
  lemma ScanKeepsPrevious(tips: seq<NozzleTip>, prev: Option<NozzleTip>)
    requires forall j :: 0 <= j < |tips| ==> !tips[j].loaded
    ensures LastLoaded(tips, prev) == prev
  {
  }

  /**
   * Adding a tip and scanning: a loaded new tip becomes the mounted one; an unloaded
   * one changes nothing.
   */
  lemma {:induction false} ScanAfterAdd(tips: seq<NozzleTip>, t: NozzleTip, prev: Option<NozzleTip>)
    ensures LastLoaded(tips + [t], prev) == if t.loaded then Some(t) else LastLoaded(tips, prev)
  {
    if tips == [] {
      assert [t][1..] == [];
    } else {
      var next := if tips[0].loaded then Some(tips[0]) else prev;
      assert (tips + [t])[1..] == tips[1..] + [t];
      ScanAfterAdd(tips[1..], t, next);
    }
  }

  /**
   * With no tip mounted, nothing applied in X/Y, and a rotation primitive that keeps
   * the origin fixed, a compensated move commands the target's X/Y/Z and records no offset.
   */
  lemma NoTipIsNeutral(target: Location, current: Location, applied: Location, geo: Geometry)
    requires forall angle: real :: geo.rotatePoint(Point(0.0, 0.0), angle) == Point(0.0, 0.0)
    requires applied.x == 0.0 && applied.y == 0.0
    ensures var p := PlanMove(target, current, TipOffset(None, target), applied, geo);
            && p.commanded.x == target.x && p.commanded.y == target.y && p.commanded.z == target.z
            && p.newApplied.x == 0.0 && p.newApplied.y == 0.0 && p.newApplied.z == 0.0
  {
  }

  /**
   * Without those conditions a no-tip move can shift X/Y: with (1, 1) still applied
   * and a rotation by 0 degrees that changes nothing, a move to (5, 5, 0) at 0 degrees
   * is compensated to (6, 6, 0).
   */
  lemma NoTipWithStaleOffsetShifts(geo: Geometry)
    requires geo.rotatePoint(Point(0.0, 0.0), 0.0) == Point(0.0, 0.0)
    requires geo.rotatePoint(Point(1.0, 1.0), 0.0) == Point(1.0, 1.0)
    ensures var target := Location(5.0, 5.0, 0.0, 0.0);
            var p := PlanMove(target, target, TipOffset(None, target), Location(1.0, 1.0, 0.0, 0.0), geo);
            && p.accepted && p.commanded.x == 6.0 && p.commanded.y == 6.0 && p.commanded.z == 0.0
  {
  }

  /**
   * After a successful compensated move with some tip, a further move with the same
   * tip from a present rotation equal to its target rotation needs no change in
   * offset: it commands that target's X and Y.
   */
  lemma RepeatAtSameRotationIsUncompensated(t1: Location, c1: Location, t2: Location, c2: Location,
                                            offset: Location, applied: Location, geo: Geometry)
    requires PlanMove(t1, c1, offset, applied, geo).accepted
    requires c2.rotation == t2.rotation
    ensures var p2 := PlanMove(t2, c2, offset, PlanMove(t1, c1, offset, applied, geo).newApplied, geo);
            p2.commanded.x == t2.x && p2.commanded.y == t2.y && p2.commanded.z == t2.z
  {
  }

  /**
   * A quarter turn with tip offset (2, 1): from (10, 10, 5) at 0 degrees to
   * (10, 10, 5) at 90 degrees, with (2, 1) already applied, the spindle is sent to
   * (13, 9, 5) and (2, 1) stays applied.
   */
  lemma QuarterTurnIsCompensated(geo: Geometry)
    requires geo.rotatePoint(Point(2.0, 1.0), 90.0) == Point(-1.0, 2.0)
    requires geo.rotatePoint(Point(2.0, 1.0), 0.0) == Point(2.0, 1.0)
    ensures var offset := Location(2.0, 1.0, 0.0, 0.0);
            var p := PlanMove(Location(10.0, 10.0, 5.0, 90.0), Location(10.0, 10.0, 5.0, 0.0),
                              offset, offset, geo);
            && p.accepted
            && p.commanded.x == 13.0 && p.commanded.y == 9.0 && p.commanded.z == 5.0
            && p.newApplied == offset
  {
  }

  /**
   * The same quarter turn towards (0.5, 0.5, 5): the compensated Y would be -0.5,
   * so the target goes out unchanged and the applied offset is cleared.
   */
  lemma QuarterTurnNearOriginIsRejected(geo: Geometry)
    requires geo.rotatePoint(Point(2.0, 1.0), 90.0) == Point(-1.0, 2.0)
    requires geo.rotatePoint(Point(2.0, 1.0), 0.0) == Point(2.0, 1.0)
    ensures var offset := Location(2.0, 1.0, 0.0, 0.0);
            var target := Location(0.5, 0.5, 5.0, 90.0);
            var p := PlanMove(target, Location(10.0, 10.0, 5.0, 0.0), offset, offset, geo);
            && !p.accepted && p.commanded == target && p.newApplied == Origin
  {
  }
}
