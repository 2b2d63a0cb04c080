/**
 * The Zippy nozzle: a spindle whose interchangeable tip sits off the rotation axis.
 * Every compensated move re-scans the tips for the mounted one and shifts the
 * commanded spindle position so that the tip's rotated offset is accounted for,
 * carrying the offset it last applied from one move to the next.
 */
module ZippyNozzles {
  import opened Options
  import opened Locations

  /** A nozzle tip: its id, whether it is mounted, and its offset measured at rotation 0. */
  datatype NozzleTip = NozzleTip(id: string, loaded: bool, offset: Location)

  /** One move handed to the downstream mover, with the outcome it reported. */
  datatype Command = Command(location: Location, speed: real, succeeded: bool)

  /** What a compensated move commands and which offset it records as applied on success. */
  datatype Plan = Plan(accepted: bool, commanded: Location, newApplied: Location)

  /**
   * The value the scan loop leaves in currentNozzleTip when it starts from prev:
   * the loop visits the tips in order and takes every one that is loaded.
   */
  function LastLoaded(tips: seq<NozzleTip>, prev: Option<NozzleTip>): (r: Option<NozzleTip>)
    ensures r == prev || (r.Some? && r.value in tips && r.value.loaded)
    decreases |tips|
  {
    if tips == [] then prev
    else LastLoaded(tips[1..], if tips[0].loaded then Some(tips[0]) else prev)
  }

  /** The offset compensation works with: the mounted tip's, or zero X/Y/Z when there is none. */
  function TipOffset(tip: Option<NozzleTip>, target: Location): (o: Location)
    ensures tip.None? ==> o.x == 0.0 && o.y == 0.0 && o.z == 0.0 && o.rotation == target.rotation
    ensures tip.Some? ==> o == tip.value.offset
  {
    match tip
    case None => target.Derive(Some(0.0), Some(0.0), Some(0.0), None)
    case Some(t) => t.offset
  }

  /**
   * The change in offset: the tip offset rotated to the target rotation, minus the
   * applied offset rotated to the present rotation, with Z change zero.
   */
  function DeltaOffset(target: Location, current: Location, ntOffset: Location, applied: Location,
                       geo: Geometry): (d: Location)
    ensures d.z == 0.0 && d.rotation == target.rotation
    ensures target.rotation == current.rotation && ntOffset.ToPoint() == applied.ToPoint()
            ==> d.x == 0.0 && d.y == 0.0
  {
    var newP := geo.rotatePoint(ntOffset.ToPoint(), target.rotation);
    var oldP := geo.rotatePoint(applied.ToPoint(), current.rotation);
    target.Derive(Some(newP.x - oldP.x), Some(newP.y - oldP.y), Some(0.0), None)
  }

  /** The compensated location: the target minus the change in offset. */
  function AdjustedLocation(target: Location, current: Location, ntOffset: Location, applied: Location,
                            geo: Geometry): (a: Location)
    ensures a.x == target.x - (geo.rotatePoint(ntOffset.ToPoint(), target.rotation).x
                               - geo.rotatePoint(applied.ToPoint(), current.rotation).x)
    ensures a.y == target.y - (geo.rotatePoint(ntOffset.ToPoint(), target.rotation).y
                               - geo.rotatePoint(applied.ToPoint(), current.rotation).y)
    ensures a.z == target.z
    ensures a.rotation == geo.rotationDiff(target.rotation, target.rotation)
    ensures target.rotation == current.rotation && ntOffset.ToPoint() == applied.ToPoint()
            ==> a.x == target.x && a.y == target.y
  {
    target.Subtract(DeltaOffset(target, current, ntOffset, applied, geo), geo.rotationDiff)
  }

  /** The boundary test of the compensated branch: X and Y both strictly positive. */
  predicate InCompensationBounds(l: Location)
  {
    l.x > 0.0 && l.y > 0.0
  }

  /**
   * The decision of moveTo: command the adjusted location and record the tip offset
   * when the adjusted location is in bounds; otherwise command the target as given
   * and record a zero offset.
   */
  function PlanMove(target: Location, current: Location, ntOffset: Location, applied: Location,
                    geo: Geometry): (p: Plan)
    ensures p.accepted <==> InCompensationBounds(AdjustedLocation(target, current, ntOffset, applied, geo))
    ensures p.accepted ==> p.commanded == AdjustedLocation(target, current, ntOffset, applied, geo)
    ensures p.commanded.z == target.z
    ensures p.commanded == target || p.accepted
    ensures p.accepted ==> p.commanded.x > 0.0 && p.commanded.y > 0.0 && p.newApplied == ntOffset
    ensures !p.accepted ==> p.newApplied == Origin
    ensures target.rotation == current.rotation && ntOffset.ToPoint() == applied.ToPoint()
            ==> p.commanded.x == target.x && p.commanded.y == target.y
                && (p.accepted <==> target.x > 0.0 && target.y > 0.0)
  {
    var adjusted := AdjustedLocation(target, current, ntOffset, applied, geo);
    if InCompensationBounds(adjusted) then Plan(true, adjusted, ntOffset)
    else Plan(false, target, applied.Derive(Some(0.0), Some(0.0), Some(0.0), Some(0.0)))
  }

  /**
   * A nozzle with its tips, the tip it believes mounted and the offset it last
   * applied. The downstream mover is represented by the log of commands it was given.
   */
  class ZippyNozzle {
    var nozzletips: seq<NozzleTip>
    var currentNozzleTip: Option<NozzleTip>
    /** The persisted id of the tip set by SetNozzleTip. */
    var currentNozzleTipId: Option<string>
    var appliedOffset: Location
    /** Every move handed to the downstream mover, oldest first. */
    ghost var commands: seq<Command>

    /** A nozzle over the given tips: scans them for the mounted one; no offset is applied yet. */
    constructor (tips: seq<NozzleTip>)
      ensures nozzletips == tips
      ensures currentNozzleTip == LastLoaded(tips, None)
      ensures currentNozzleTipId == None
      ensures appliedOffset == Origin
      ensures commands == []
    {
      nozzletips := tips;
      currentNozzleTip := None;
      currentNozzleTipId := None;
      commands := [];
      new;
      ScanNozzleTips();
      appliedOffset := Origin;
    }

    /** The scan loop: every loaded tip, in order, becomes the current one. */
    method ScanNozzleTips()
      modifies this`currentNozzleTip
      ensures currentNozzleTip == LastLoaded(nozzletips, old(currentNozzleTip))
    {
      for i := 0 to |nozzletips|
        invariant LastLoaded(nozzletips[i..], currentNozzleTip) == LastLoaded(nozzletips, old(currentNozzleTip))
      {
        assert nozzletips[i..][1..] == nozzletips[i + 1..];
        if nozzletips[i].loaded {
          currentNozzleTip := Some(nozzletips[i]);
        }
      }
    }

    /** A move that bypasses compensation: the location goes downstream unchanged. */
    method UncompMoveTo(location: Location, speed: real, succeeds: bool) returns (moved: bool)
      modifies this`commands
      ensures commands == old(commands) + [Command(location, speed, succeeds)]
      ensures moved == succeeds
    {
      commands := commands + [Command(location, speed, succeeds)];
      moved := succeeds;
    }

    /**
     * A compensated move to location, with current the nozzle's present location
     * and succeeds the outcome the downstream mover reports. Exactly one command is
     * issued; the applied offset is updated only when it succeeds.
     */
    method MoveTo(location: Location, speed: real, current: Location, geo: Geometry, succeeds: bool)
      returns (moved: bool)
      modifies this`currentNozzleTip, this`appliedOffset, this`commands
      ensures currentNozzleTip == LastLoaded(nozzletips, old(currentNozzleTip))
      ensures var offset := TipOffset(currentNozzleTip, location);
              var adjusted := AdjustedLocation(location, current, offset, old(appliedOffset), geo);
              if InCompensationBounds(adjusted) then
                && commands == old(commands) + [Command(adjusted, speed, succeeds)]
                && appliedOffset == (if succeeds then offset else old(appliedOffset))
              else
                && commands == old(commands) + [Command(location, speed, succeeds)]
                && appliedOffset == (if succeeds then Origin else old(appliedOffset))
      ensures moved == succeeds
    {
      ScanNozzleTips();
      var ntOffset := TipOffset(currentNozzleTip, location);
      var plan := PlanMove(location, current, ntOffset, appliedOffset, geo);
      commands := commands + [Command(plan.commanded, speed, succeeds)];
      moved := succeeds;
      if moved {
        appliedOffset := plan.newApplied;
      }
    }

    /**
     * Marks t as the mounted tip and records its id. A null tip (None) is stored
     * first; reading its id then throws, so ok is false and the id is not updated.
     */
    method SetNozzleTip(t: Option<NozzleTip>) returns (ok: bool)
      modifies this`currentNozzleTip, this`currentNozzleTipId
      ensures currentNozzleTip == t
      ensures ok == t.Some?
      ensures currentNozzleTipId == if t.Some? then Some(t.value.id) else old(currentNozzleTipId)
    {
      currentNozzleTip := t;
      if t.None? {
        return false;
      }
      currentNozzleTipId := Some(t.value.id);
      ok := true;
    }

    /** Forgets the applied offset without moving. */
    method ClearAppliedOffset()
      modifies this`appliedOffset
      ensures appliedOffset == Origin
    {
      appliedOffset := appliedOffset.Derive(Some(0.0), Some(0.0), Some(0.0), Some(0.0));
    }

    /** Appends a tip to the nozzle's tips. */
    method AddNozzleTip(t: NozzleTip)
      modifies this`nozzletips
      ensures nozzletips == old(nozzletips) + [t]
    {
      nozzletips := nozzletips + [t];
    }
  }
}
