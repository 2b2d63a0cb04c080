# Zippy nozzle: rotation-dependent tip-offset compensation

This project models the Zippy nozzle of OpenPnP's pick-and-place controller. A nozzle
carries interchangeable tips. A tip's contact point is not on the spindle's rotation
axis, and its stored offset is measured at rotation 0. On every compensated move, the nozzle:

- re-scans its tips for the mounted one: the last tip flagged loaded or, if none is,
  the previous one;
- rotates the tip offset to the target rotation;
- rotates the recorded applied offset to the present rotation;
- subtracts the difference from the target's X and Y.

If the result has X and Y both strictly positive, that location is commanded and the tip
offset is recorded as applied. Otherwise the target is commanded unchanged and the applied
offset is reset to zero. The applied offset is committed only when the downstream move
returns.

Files:

- `options.dfy`: `Option`, standing for Java references that may be null.
- `locations.dfy`: `Location` (X, Y, Z, rotation), with `Derive` (Java's `derive`,
  where a `None` component means "keep") and `Subtract`, and `Point`. It also holds
  `Geometry`, which bundles the two primitives that are not part of this model:
  `Utils2D.rotatePoint` and the rotation component of `Location.subtract`. Both are
  arbitrary functions, so every property holds for any rotation primitive that meets
  each lemma's stated requirements.
- `zippy_nozzle.dfy`:
  - the tip scan as the function `LastLoaded`;
  - the compensation as the functions `TipOffset`, `DeltaOffset`, `AdjustedLocation`
    and `PlanMove`;
  - the class `ZippyNozzle`, with the fields `nozzletips`, `currentNozzleTip`,
    `currentNozzleTipId` and `appliedOffset`, plus a ghost log `commands` of the
    moves handed to the downstream mover (`super.moveTo`).
- `nozzle_properties.dfy`: lemmas about the scan and the compensation, including the
  two worked scenarios.

Inputs that come from outside the nozzle are parameters:

- the present location (`getLocation()`) is `current`;
- the outcome of the downstream move (normal return or exception) is `succeeds`;
- the rotation primitives are `geo`.

A move that throws is modelled as `MoveTo` returning `false` after logging the command.

Three consequences of the code are worth spelling out:

- The recorded applied offset is the tip offset of the last successful accepted move.
  It is zero after a successful rejected move, after `clearAppliedOffset`, and before
  any move. Neither `uncompMoveTo` nor a failed move changes it.
- With no tip mounted, a move leaves X/Y unchanged if the rotation primitive maps the
  origin to itself and the applied offset has zero X/Y (`NoTipIsNeutral`). A rejected
  move leaves them unchanged anyway. Without these conditions, an accepted no-tip move
  can shift X/Y, for instance when an offset is still applied
  (`NoTipWithStaleOffsetShifts`).
- After an accepted move with no tip, the applied offset is `location.derive(0, 0, 0, null)`.
  That value has zero X/Y/Z but keeps the target's rotation (`TipOffset`, case `None`).

## Model

| member | source | states |
|---|---|---|
| `ZippyNozzles.LastLoaded` | gui/src/main/java/org/openpnp/machine/zippy/ZippyNozzle.java:68-72 | the value the scan loop leaves in the current tip, visiting the tips in order from the previous value; it is that previous value or a loaded tip of the list |
| `ZippyNozzles.TipOffset` | gui/src/main/java/org/openpnp/machine/zippy/ZippyNozzle.java:78-81 | with no mounted tip the offset used has X = Y = Z = 0 (rotation taken from the target); otherwise it is exactly the mounted tip's stored offset |
| `ZippyNozzles.DeltaOffset` | gui/src/main/java/org/openpnp/machine/zippy/ZippyNozzle.java:84-100 | the change in offset has Z = 0 and the target's rotation, and is zero in X/Y whenever the target rotation equals the present rotation and the applied offset has the tip offset's X/Y, for any rotation primitive |
| `ZippyNozzles.AdjustedLocation` | gui/src/main/java/org/openpnp/machine/zippy/ZippyNozzle.java:90-103 | adjusted X/Y are the target's minus (rotated tip offset − rotated applied offset); adjusted Z is the target's Z; when rotation and offset are unchanged the adjusted X/Y are the target's |
| `ZippyNozzles.PlanMove` | gui/src/main/java/org/openpnp/machine/zippy/ZippyNozzle.java:113-123 | compensation is accepted exactly when the adjusted location passes `InCompensationBounds`, the strict X > 0 && Y > 0 test of line 114; an accepted plan commands the adjusted location (so never X or Y ≤ 0) and records the tip offset; a rejected one commands the unmodified target and records the zero location; the target's Z is always kept; with rotation and offset unchanged, the target's X/Y are commanded and compensation is accepted exactly when both are positive |
| `ZippyNozzles.ZippyNozzle.constructor` | gui/src/main/java/org/openpnp/machine/zippy/ZippyNozzle.java:49-57 | `tips` stands for the content of the inherited tip list at construction; the new nozzle's current tip is the scan's result starting from none, no id is recorded, and the applied offset is zero |
| `ZippyNozzles.ZippyNozzle.ScanNozzleTips` | gui/src/main/java/org/openpnp/machine/zippy/ZippyNozzle.java:68-72 | the loop leaves in `currentNozzleTip` exactly what `LastLoaded` gives from the previous value (loop invariant over the unscanned suffix) |
| `ZippyNozzles.ZippyNozzle.UncompMoveTo` | gui/src/main/java/org/openpnp/machine/zippy/ZippyNozzle.java:59-61 | exactly one command, carrying the location unchanged, is issued; nothing else, in particular not `appliedOffset`, changes; the downstream outcome is propagated |
| `ZippyNozzles.ZippyNozzle.MoveTo` | gui/src/main/java/org/openpnp/machine/zippy/ZippyNozzle.java:63-125 | the tips are re-scanned; exactly one command is issued: the adjusted location if its X and Y are both > 0, else the original one; on success `appliedOffset` becomes the tip offset (accepted) or zero (rejected); on failure `appliedOffset` is unchanged; the tips are unchanged |
| `ZippyNozzles.ZippyNozzle.SetNozzleTip` | gui/src/main/java/org/openpnp/machine/zippy/ZippyNozzle.java:140-143 | the given tip (possibly null) becomes current; for a non-null tip its id is recorded and the call succeeds; for null the id is left as it was and the call fails, as the null dereference at line 142 does; nothing else changes |
| `ZippyNozzles.ZippyNozzle.ClearAppliedOffset` | gui/src/main/java/org/openpnp/machine/zippy/ZippyNozzle.java:145-147 | `appliedOffset` becomes zero in X, Y, Z and rotation, and no command is issued |
| `ZippyNozzles.ZippyNozzle.AddNozzleTip` | gui/src/main/java/org/openpnp/machine/zippy/ZippyNozzle.java:157-159 | the tip is appended at the end of the tip list; nothing else changes |
| `NozzleProperties.ScanEndsOnLastLoaded` | gui/src/main/java/org/openpnp/machine/zippy/ZippyNozzle.java:68-72 | if tip k is loaded and no later tip is, the scan ends on tip k whatever it started from (last one wins) |
| `NozzleProperties.ScanKeepsPrevious` | gui/src/main/java/org/openpnp/machine/zippy/ZippyNozzle.java:50-54 | if no tip is loaded the scan leaves the previous current tip in place rather than resetting it to none |
| `NozzleProperties.ScanAfterAdd` | gui/src/main/java/org/openpnp/machine/zippy/ZippyNozzle.java:157-159 | after a tip is appended, the scan picks it if it is loaded and is otherwise unaffected by it |
| `NozzleProperties.NoTipIsNeutral` | gui/src/main/java/org/openpnp/machine/zippy/ZippyNozzle.java:78-103 | with no tip, zero applied X/Y and a rotation that fixes the origin, the target's X/Y/Z are commanded and zero X/Y/Z recorded |
| `NozzleProperties.NoTipWithStaleOffsetShifts` | gui/src/main/java/org/openpnp/machine/zippy/ZippyNozzle.java:78-117 | with no tip but (1, 1) still applied and a rotation by 0 that changes nothing, a move to (5, 5, 0) is accepted and commands (6, 6, 0) |
| `NozzleProperties.RepeatAtSameRotationIsUncompensated` | gui/src/main/java/org/openpnp/machine/zippy/ZippyNozzle.java:96-117 | after an accepted move, a move with the same tip from a present rotation equal to the target's commands the target's X/Y/Z |
| `NozzleProperties.QuarterTurnIsCompensated` | gui/src/main/java/org/openpnp/machine/zippy/ZippyNozzle.java:84-117 | tip offset (2, 1), from (10, 10, 5) at 0° to 90°: (13, 9, 5) is commanded and (2, 1) stays applied |
| `NozzleProperties.QuarterTurnNearOriginIsRejected` | gui/src/main/java/org/openpnp/machine/zippy/ZippyNozzle.java:113-123 | same turn towards (0.5, 0.5, 5): compensated Y would be −0.5, so the target is commanded unchanged and the applied offset is zero |

## Left out

- The body of `Utils2D.rotatePoint` (sine/cosine floating-point math) is not part of this
  model. It is an arbitrary function. Properties that need more of it (the origin stays
  fixed, concrete rotated values) state that as a requirement. Full-turn periodicity
  (a point rotated through 360° returns to itself) is not assumed, so nothing is stated
  about it.
- The rotation of the compensated location comes from `Location.subtract`, which is not
  part of this model. It is left to the parameter `rotationDiff`. If `subtract`
  subtracted rotations component-wise, that rotation would be 0. No contract depends on
  which it is.
- Length units: every coordinate is taken to be in one unit. The source builds its
  points from raw X/Y without converting the tip offset's unit, and that is not modelled.
- Coordinates are reals. IEEE doubles, rounding and NaN are not modelled. The code does
  no finiteness check on the locations it is given.
- Tip load/unload state is set in `ZippyNozzleTip`, which is not part of this model. The
  loaded flags are fixed values in the tip list. A `ZippyNozzleTip` is modelled as a
  record, so `currentNozzleTip` holds a value, not a shared reference.
- The casts `(ZippyNozzleTip)nt` in the scan loops (ZippyNozzle.java:51 and :69) are not
  modelled: every tip is a Zippy tip. In the source, a tip of another class throws
  ClassCastException part-way through the scan. In `moveTo` that happens before any
  command, with the current tip already updated from earlier tips in the list.
- The constructor's tip list is inherited from `ReferenceNozzle`, which is not part of
  this model. Java's `ZippyNozzle()` takes no arguments; the constructor's `tips`
  parameter stands for that list's content when the constructor runs.
- `getNozzleTip` is a plain getter of `currentNozzleTip` and has no member of its own.
- `canHandle` and `canPickAndPlace` are not modelled. They depend on downcasts, Java
  reference comparison of id strings, and `Part`, `Feeder` and `NozzleTip.canHandle`,
  none of which is part of this model.
- `moveToSafeZ` is not modelled. It sends a NaN-sentinel location straight to the driver
  and fires a machine event (driver I/O).
- Logging and the XML persistence annotation on `currentNozzleTipid` are not modelled.
  The persisted id is kept as a field, but nothing in the nozzle reads it.
- The downstream mover is represented only by the ghost command log and the `succeeds`
  outcome. The physical motion and the exception's payload are not modelled.
- Concurrency is not modelled. The nozzle is used by one caller at a time, and each
  method is atomic in the model.
- `PgrCamera.java` is not modelled. It is a capture thread with wait/notify and vendor
  camera SDK calls.
