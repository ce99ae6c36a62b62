# Cosmic Canvas — a Dafny model of the simulation core

Cosmic Canvas is a pygame gravity sandbox. Bodies ("planets") attract each
other, merge when they touch, grow through the stages PLANET, BROWN_DWARF,
STAR, GIANT and BLACK_HOLE as their mass crosses fixed thresholds, and a
BLACK_HOLE swallows whatever comes inside its radius. The user pans and
zooms the camera, grabs and throws bodies, spawns new ones with a right
click, edits the selected body's properties in text boxes while paused and
nudges its mass with the arrow keys.

This project models the exact, stateful logic of that program with `real`
in place of Python floats:

- `stages.dfy` (module `Stages`): the stage rule `update_stage` as a
  function of (stage, colour, mass), with its thresholds and colours.
- `simulation.dfy` (module `Simulation`): the `Planet` class (constructor,
  `update_stage`, `update` with its gravity sum, event-horizon absorption,
  merging, integration and trail), the pure specification of the inner loop
  of `update` over a list that shrinks while it is iterated (`Step`,
  `Scan`), mass bookkeeping (`LiveMass`, `TotalMass`), and the `World`
  class holding the global state of the main loop: the body list, the
  selected and held body, the drag samples, the pause flag and the
  scenario name, with the world tick and the mouse and keyboard handlers.
- `cameras.dfy` (module `Cameras`): `screen_to_world`, `world_to_screen`
  and the `Camera` class for the zoom, offset and pan globals.
- `input_boxes.dfy` (module `InputBoxes`): `InputBox.handle_event`, the
  text-editing state machine with its character filter.
- `history.dfy` (module `History`): the bounded history used for a body's
  trail (500 positions) and for the drag samples (`deque(maxlen=10)`).
- `lists.dfy`, `vectors.dfy`, `wrappers.dfy`: Python's `list.remove`
  (first occurrence, by identity), 2-vectors, and `Option`.

The parts that are floating-point approximations rather than exact logic
are parameters of the model (`Simulation.Physics`): the Euclidean norm
`np.linalg.norm`, the radius from a mass `int(mass ** (1/3.0))` (returning
`None` where `int()` of an infinite root raises `OverflowError`), and the
radius of a merged body `int((r1**3 + r2**3) ** (1/3.0))` (returning `None`
where the integer sum of cubes is too large to convert to a float, which
also raises `OverflowError`). These two are the ways an update can raise.
The force
formula itself, `G·m1·m2/r²` along the unit vector, and the semi-implicit
integration order (velocity first, then position with the new velocity)
are kept.

## Model

| member | source | states |
|---|---|---|
| Stages.StageFor | Cosmic_Canvas.py:21-24 | The stage a mass implies, for each stage exactly the mass interval between its threshold (80000, 200000, 800000, 2000000) and the next. |
| Stages.UpdateStage | Cosmic_Canvas.py:110-122 | The if/elif chain yields the higher-ranked of the current stage and the stage the mass implies; the colour changes exactly when the stage does, and then to that stage's fixed colour. |
| Stages.StageColor | Cosmic_Canvas.py:111-122 | The colours the stage rule assigns (BROWN_DWARF (139, 69, 19), STAR (255, 255, 200), GIANT (255, 140, 0), BLACK_HOLE black) are valid 0-255 colours, and black is the BLACK_HOLE's alone. |
| Stages.StageColorIdentifiesStage | Cosmic_Canvas.py:111-122 | No two stages after PLANET share a colour. |
| Stages.StageNeverDecreases | Cosmic_Canvas.py:110-122 | The stage never goes down, so lowering the mass (Down key) leaves the stage where it was; below 80000 nothing changes. |
| Stages.StageMonotoneInMass | Cosmic_Canvas.py:110-122 | More mass never yields a lower stage. |
| Stages.UpdateStageIdempotent | Cosmic_Canvas.py:110-122 | Running `update_stage` twice is the same as running it once. |
| Stages.BlackHoleIsTerminal | Cosmic_Canvas.py:111-113 | A BLACK_HOLE stays a BLACK_HOLE with its colour, whatever the mass. |
| Stages.PlanetKeepsItsColor | Cosmic_Canvas.py:100-108 | A new body below the brown-dwarf threshold stays a PLANET with the colour it was given. |
| History.Push | Cosmic_Canvas.py:161-163 | Appending to a bounded history: the new element is last, nothing is dropped below the capacity, exactly the oldest element is dropped at it, and the length never exceeds the capacity (trail of 500, and the 10-sample deque of line 207). |
| Lists.RemoveFirst | Cosmic_Canvas.py:156 | `list.remove` drops the first occurrence: the list is one shorter, the elements before it keep their index and the ones after it move down by one. |
| Lists.RemoveFirstFacts | Cosmic_Canvas.py:156 | After `list.remove`, every remaining element was there before, every other element is still there, and in a list without duplicates the removed body is gone. |
| Cameras.WorldToScreen | Cosmic_Canvas.py:94-96 | The camera offset is the world point drawn at the screen centre, and for a non-zero zoom the only one. |
| Cameras.ScreenToWorld | Cosmic_Canvas.py:90-92 | For a non-zero zoom, `world_to_screen` of the result gives back the screen point. |
| Cameras.ScreenToWorldUndoesWorldToScreen | Cosmic_Canvas.py:90-96 | For a non-zero zoom, `screen_to_world` of `world_to_screen(w)` is `w`. |
| Cameras.ZoomedOffset | Cosmic_Canvas.py:389-396 | After changing the zoom and correcting the offset, the world point under the cursor is the one that was there before. |
| Cameras.PannedOffset | Cosmic_Canvas.py:451-455 | After a pan step, the world point under the current cursor is the one that was under the previous pan position. |
| Cameras.Camera.constructor | Cosmic_Canvas.py:84-87 | The camera starts at zoom 1 over the screen centre, not panning. |
| Cameras.Camera.WheelZoom | Cosmic_Canvas.py:389-396 | Wheel up multiplies the zoom by 1.1 and wheel down divides it; the zoom stays positive and the world point under the cursor does not move. |
| Cameras.Camera.BeginPan | Cosmic_Canvas.py:397-399 | Middle button down starts panning from the cursor; zoom and offset are unchanged. |
| Cameras.Camera.EndPan | Cosmic_Canvas.py:430-432 | Middle button up stops panning and forgets the start point; zoom and offset are unchanged. |
| Cameras.Camera.PanFrame | Cosmic_Canvas.py:451-455 | While panning, the world point under the cursor is the one that was under the previous pan position, and the cursor becomes the new pan position; otherwise nothing changes. |
| Cameras.Camera.Reset | Cosmic_Canvas.py:221-222 | The camera is put back at zoom 1 over the screen centre. |
| InputBoxes.EditedText | Cosmic_Canvas.py:63-71 | Return leaves the text unchanged, Backspace drops the last character (empty stays empty), any other key appends its text exactly when that text is a substring of "0123456789.-" (the empty text included). |
| InputBoxes.FilterOnOneCharacter | Cosmic_Canvas.py:70 | For a single character, the substring filter accepts exactly the characters of "0123456789.-". |
| InputBoxes.EditKeepsNumericText | Cosmic_Canvas.py:63-71 | Editing never brings a character outside "0123456789.-" into a text that had none. |
| InputBoxes.InputBox.constructor | Cosmic_Canvas.py:50-58 | A new box holds its text and property name and is inactive. |
| InputBoxes.InputBox.HandleEvent | Cosmic_Canvas.py:60-72 | A mouse press activates the box exactly when it is inside it; an inactive box ignores keys; 'enter' is returned exactly for Return in an active box; an active box's text changes as `EditedText` says. |
| Simulation.Merged | Cosmic_Canvas.py:146-156 | Merging sums the masses, takes the given combined radius, applies the stage rule (never lowering the stage) and keeps the trail. |
| Simulation.MergedConservesMomentum | Cosmic_Canvas.py:150-154 | A merge conserves momentum and puts the merged body at the centre of mass of the two. |
| Simulation.GravityPullsTowardsOther | Cosmic_Canvas.py:141-144 | The pull of one body on another lies on the line between them and, for positive masses, points towards the other body. |
| Simulation.GravityIsMutual | Cosmic_Canvas.py:141-144 | The forces the formula gives the two bodies of a pair are opposite. |
| Simulation.Advance | Cosmic_Canvas.py:158-163 | Integration: mass times the velocity change is the total force times DT, the position moves by the new velocity times DT, the new position is appended to the trail, which below 500 keeps every old position and at 500 drops exactly the oldest, so it stays within 500; nothing else changes. |
| Simulation.Step | Cosmic_Canvas.py:131-156 | One iteration of the inner loop: the index moves on by one; the mass and stage never go down; the list is unchanged or loses exactly the visited body (never the updating one), and then the mass grows by exactly that body's mass; otherwise, without an exception, the mass is unchanged. |
| Simulation.Scan | Cosmic_Canvas.py:130-156 | The whole inner loop runs to the end of the list or to the first exception; the mass and stage never go down, the trail is untouched, bodies only leave the list, the updating body stays in it, and a list without duplicates keeps none. |
| Simulation.EventHorizonRule | Cosmic_Canvas.py:135-139 | A BLACK_HOLE absorbs any other body closer than its radius, whatever the masses and at distance 0 too: its mass grows by exactly the other's, the pair adds no force, it stays a BLACK_HOLE, and the other body leaves the list unless the radius computation raises. |
| Simulation.MergeRule | Cosmic_Canvas.py:141-156 | Outside the event horizon, the other body's pull is added exactly when the distance is positive; the other body is merged and removed exactly when it is at a positive distance below the sum of the radii, no heavier, and the combined radius can be computed; the pass raises exactly when that computation fails; otherwise the updating body is unchanged. |
| Simulation.StaleBlackHoleEmptiesList | Cosmic_Canvas.py:461-466 | A BLACK_HOLE that is no longer in the list still absorbs a body that is: the list [other] is emptied and its mass is lost. |
| Simulation.TotalIsLiveMass | Cosmic_Canvas.py:130-156 | The list's total mass counts the updating body's own mass when read through the loop's in-flight view. |
| Simulation.StepConservesMass | Cosmic_Canvas.py:131-156 | One iteration without an exception keeps the total mass of the list, counting the updating body's in-flight mass. |
| Simulation.ScanConservesMass | Cosmic_Canvas.py:130-156 | The whole inner loop without an exception keeps the total mass of the list, counting the updating body's in-flight mass. |
| Simulation.Planet.constructor | Cosmic_Canvas.py:100-108 | A new body has the given position, velocity, mass and radius, an empty trail, and the stage and colour the stage rule gives a PLANET of that mass. |
| Simulation.Planet.UpdateStage | Cosmic_Canvas.py:110-122 | `update_stage` writes the stage and colour `Stages.UpdateStage` gives and nothing else. |
| Simulation.Planet.Update | Cosmic_Canvas.py:124-163 | A held body only has its velocity zeroed. Any other body ends as the inner loop `Scan` leaves it, then advanced by `Advance` with the summed force unless an exception was raised; the list ends as `Scan` leaves it. The mass never goes down, the trail stays within 500, bodies only leave the list. |
| Simulation.Planet.ScanLive | Cosmic_Canvas.py:129-156 | The inner loop over the live list computes exactly what `Scan` specifies: the body, the list, the force and whether it raised. |
| Simulation.Planet.ScanStep | Cosmic_Canvas.py:131-156 | After one iteration on the live list, the rest of the loop ends where the whole loop from that index would have, so the loop body keeps the loop's specified outcome. |
| Simulation.Planet.Interact | Cosmic_Canvas.py:131-156 | One iteration on the live list does exactly what `Step` specifies. |
| Simulation.Planet.AbsorbAt | Cosmic_Canvas.py:135-139 | One iteration on a body inside the event horizon does exactly what `Step` specifies; the mass does not go down and bodies only leave the list. |
| Simulation.Planet.AttractAt | Cosmic_Canvas.py:141-156 | One iteration on a body outside the event horizon (the pull, then the merge) does exactly what `Step` specifies; the mass does not go down and bodies only leave the list. |
| Simulation.Planet.Absorb | Cosmic_Canvas.py:135-139 | The event-horizon branch: the mass grows by the other's; either the radius computation raises, or the radius is recomputed and the other leaves the list. |
| Simulation.Planet.MergeWith | Cosmic_Canvas.py:148-156 | The merge branch raises, leaving the body and the list unchanged, exactly when the combined radius cannot be computed; otherwise it leaves the body equal to `Merged` of the two and removes the other from the list. |
| Simulation.Planet.SetMass | Cosmic_Canvas.py:442-449 | Setting the mass recomputes the radius (floored at 2 where the program does so) and applies the stage rule, or reports that the radius computation raises; position, velocity and trail are untouched. |
| Simulation.World.constructor | Cosmic_Canvas.py:204-213 | The program starts with no bodies, no selection, no held body, no drag samples, running, with no scenario. |
| Simulation.World.TickAsWritten | Cosmic_Canvas.py:461-466 | Every body of the copied list, absorbed ones included, takes its turn: each body reported in `faulted` is out of the list with its trail unchanged, and every other body of the copy that is not held has been advanced exactly once (its new position appended to its old trail, within the cap of 500); a held body is stopped in place; bodies only leave the list, masses never go down, and the list stays without duplicates and within its bounds. |
| Simulation.World.Tick | Cosmic_Canvas.py:461-466 | The tick with absorbed bodies skipped: each body reported in `faulted` is out of the list with its trail unchanged; every body left in the list that is not held has been advanced exactly once (its new position appended to its old trail); the other guarantees of the tick hold; and when `faulted` is empty, the total mass of the list is the same after the tick as before. |
| Simulation.World.Visit | Cosmic_Canvas.py:462-466 | One turn of the tick as written: the body is updated as `UpdateAny` says; a body that is not held and does not raise has its new position appended to its old trail; a body that raises keeps its trail and is out of the list afterwards. |
| Simulation.World.VisitLive | Cosmic_Canvas.py:462-466 | One turn of the corrected tick: a body no longer in the list is passed over unchanged; a body in the list is updated as `UpdateLive` says, raises exactly when it leaves the list, keeps its trail when it raises and otherwise has its new position appended to it, and the list's total mass is kept unless it raises. |
| Simulation.World.UpdateLive | Cosmic_Canvas.py:463 | Updating a body that is in the list has the outcome `Planet.Update` gives (a held body stopped; otherwise the body and the list as `Scan` and `Advance` leave them, raising exactly when `Scan` does), the body stays in the list, and the list's total mass is kept unless the update raises. |
| Simulation.World.UpdateAny | Cosmic_Canvas.py:463 | Updating any body of the tick's copy, in the list or not, has the outcome `Planet.Update` gives: a body that is not held and does not raise has its new position appended to its old trail, and one that raises keeps its trail; the list stays without duplicates. |
| Simulation.UnderCursor | Cosmic_Canvas.py:408-410 | A click exactly on a body's drawn centre hits it, whatever its radius, because of the 5-pixel margin (for a norm that is 0 on the zero vector and a non-negative zoom). |
| Simulation.World.FirstUnderCursor | Cosmic_Canvas.py:407-415 | Finds the first body in list order under the cursor (screen distance below the drawn radius plus 5), or reports that there is none. |
| Simulation.World.Grab | Cosmic_Canvas.py:405-415 | A left click selects and holds the first body under the cursor and restarts the samples with exactly the cursor; with no body under it, nothing is selected or held. |
| Simulation.World.DragFrame | Cosmic_Canvas.py:457-459 | A held body moves to the world point under the cursor, nothing else about it changes, and the cursor joins the samples (at most 10 kept). |
| Simulation.ThrowVelocity | Cosmic_Canvas.py:424-428 | The throw velocity is the screen displacement between the oldest and newest sample divided by the zoom (the factors 0.2 and 5 cancel). |
| Simulation.World.Release | Cosmic_Canvas.py:422-429 | Releasing lets go of the held body; with more than one sample its velocity becomes the throw velocity, otherwise it is unchanged; the world's invariant is kept. |
| Simulation.World.Spawn | Cosmic_Canvas.py:416-420 | A right click appends one new body at rest under the cursor with the given mass and colour, as a PLANET with an empty trail, leaving the rest of the list as it was. |
| Simulation.World.EditProperty | Cosmic_Canvas.py:358-372 | Enter in a box writes the parsed value to the selected body: a non-positive mass is rejected but the radius (floored at 2) and stage are recomputed (where the radius computation raises, the mass is written and radius, stage and colour are kept), positions and velocities are set one component at a time, and an unparsable value or the stage box changes nothing. |
| Simulation.World.DeleteSelectedAsWritten | Cosmic_Canvas.py:439-441 | `planets.remove(selected)` raises exactly when the selected body is no longer in the list; otherwise the body leaves the list and the selection is dropped. |
| Simulation.World.DeleteSelected | Cosmic_Canvas.py:439-441 | Delete removes the selected body from the list if it is there and drops the selection; afterwards the body is not in the list. |
| Simulation.World.HandleKey | Cosmic_Canvas.py:434-449 | Space toggles the pause; with a selection, Delete leaves the body's own fields alone, raises exactly when the selected body has already left the list and otherwise removes it and drops the selection, and while running Up multiplies the mass by 1.1 (radius not floored) and Down by 0.9 (radius floored at 2), each followed by the stage rule (where the radius computation raises, the mass is written and radius, stage and colour are kept); any other key, no selection or a paused Up/Down changes nothing. |
| Simulation.World.LoadScenarioReset | Cosmic_Canvas.py:216-224 | Loading a scenario empties the list, drops the selection and the held body, resets the camera to zoom 1 over the screen centre and records the scenario name. |

## Left out

- Rendering and UI (`Button`, `InputBox.draw`, `Planet.draw`, `draw_ui`, `draw_instructions`, the display, clock and event polling): pygame I/O with no logic to prove.
- The event dispatch of the main loop (which handler runs for which event, the pause and hamburger buttons, the menu, the rule that an active box swallows key presses and left clicks on the canvas, and the order of the per-frame steps): each handler is modelled as its own method and the dispatch between them is not.
- The refresh of the input boxes from the selected body (`last_selected_planet_for_boxes`, lines 337-347): it only formats numbers into text.
- The norm and the cube-root radii are parameters (`Simulation.Physics`), because floating point does not compute them exactly (`64 ** (1/3.0)` truncates to 3); no property of exact roots is claimed.
- Floating-point rounding, overflow and NaN are not modelled; reals are exact. The two overflows that change control flow, `int()` of an infinite cube root and the conversion to float of a too large sum of cubes, are the `None` of `Physics.massRadius` and `Physics.volumeRadius`; which masses and radii lead there is not modelled.
- `float(box.text)` parsing is a library call: `Simulation.World.EditProperty` receives its result as an optional real, `None` for a text that does not parse.
- The random spawn mass and colour and the randomness of the scenario presets: the spawn takes them as parameters; the preset bodies of `load_scenario` (lines 229-283) and `circular_velocity` use random angles, trigonometry and square roots and are not part of this model, only the reset before them is.
- Simulation.World.Tick: states conservation of the list's total mass only for a tick whose `faulted` is empty, because a body whose update raises is removed together with the mass it had absorbed earlier in that update.
- Simulation.World.TickAsWritten: does not state conservation of mass, because it does not hold (see Findings).
- Simulation.World.TickAsWritten and Simulation.World.Tick: the contract does not tie `faulted` to the updates that raised (a tick that reported every body as faulted and emptied the list would still meet it), and it does not restate body by body the state each update left, because the intermediate states of the tick cannot be named in a postcondition; `Simulation.World.Visit`, `Simulation.World.VisitLive`, `Simulation.World.UpdateAny` and `Simulation.World.UpdateLive` state both for one turn. What the ticks do promise for every body is its trail: unchanged for a reported body, extended by exactly one position for every other body that is not held.
- Simulation.Planet.Update: requires positive masses for the updating body and the others in the list, which every body of the program has (spawned between 200 and 500, presets positive, edits reject non-positive masses, Down scales by 0.9); a zero mass, for which numpy would divide by zero, is not modelled.
- Simulation.World.EditProperty and Simulation.World.HandleKey: where the radius computation raises, or Delete finds the selected body gone, the program ends with an uncaught exception; the model reports it as `raised`, with the mass already written in the first case, and does not model the end of the program.

## Findings

| source | as written | input that shows it | evidently intended | confidence | as-written member | corrected member |
|---|---|---|---|---|---|---|
| Cosmic_Canvas.py:461-466 | The tick updates every body of the copy `planets[:]`, including one absorbed earlier in the same tick, and that stale body can still absorb bodies of the live list. | Two overlapping BLACK_HOLE bodies A (3000000) and B (2500000), A first in the list, closer than B's radius: A absorbs B, then the stale B absorbs A and the list is empty; `Simulation.StaleBlackHoleEmptiesList` proves the list loses the other body's whole mass. | A body that has left the list takes no further part in the tick, so the list's total mass is kept. | not executed | Simulation.World.TickAsWritten | Simulation.World.Tick |
| Cosmic_Canvas.py:439-441 | Delete calls `planets.remove(selected_planet)` unconditionally, which raises `ValueError` (uncaught) when the selected body has already merged into or been absorbed by another. | Select a body, let a tick merge it into a heavier one (`Simulation.EventHorizonRule` and `Simulation.MergeRule` show it leaves the list), press Delete: `Simulation.World.DeleteSelectedAsWritten` reports the raise. | Delete removes the body if it is still there and drops the selection either way. | not executed | Simulation.World.DeleteSelectedAsWritten | Simulation.World.DeleteSelected |
