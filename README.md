# Physics sandbox interaction core, in Dafny

This project models the interactive part of a small 2D physics sandbox built on `let_engine`
(`src/main.rs`). The window, the GUI, the renderer and the physics solver are engine
collaborators; the model keeps what the program itself decides on each pass of its event loop:

- **Place mode**: the spawn template follows the cursor. A left press edge spawns an object from
  the template into the registry `spawned_objects`. A right press edge removes the object the ray
  cast hits.
- **Select mode**: a left press picks the object under the cursor. While the button is held, the
  target is re-cast on every pass and the link arrow is shown or hidden. On the release edge a
  fixed joint is made between the selection and a different target.
- **Any mode**: the middle button's press edge captures the pan anchors. A pass in which egui has
  the focus stops right after the panel.
- **Keyboard**: typed characters edit the label text.
- **Physics thread**: it waits `target.saturating_sub(elapsed)` after each tick.

Layout:

- `wrappers.dfy`: `Option`.
- `scene.dfy`: the objects of the registry (transform, square collider, body kind, appearance), the
  start-up platform, and the object a spawn builds from the template.
- `interaction.dfy`: the state the event-loop closure captures (`State`), one pass's inputs
  (`Frame`), and the pass itself as a pure transition `FrameStep`. It is built from `ApplyPanel`,
  `PlacePass`, `SelectPass` (`Pick`, `Track`, `Release`) and `Pan`, following the source's order.
- `interaction_properties.dfy`: what one pass does, for every state and frame.
- `runs.dfy`: passes in sequence (`Run`). Spawns are exactly the left press edges in place mode.
  Focused passes change nothing. Spawn-then-remove restores the registry. A drag into empty space
  makes no joint.
- `event_loop.dfy`: the class `Sandbox`, whose fields are the closure's variables. Its methods
  update the fields step by step in the source's order. Each method is proved to agree with the
  pure transition of the same step.
- `text_edit.dfy`: the `ReceivedCharacter` edit rule and its consequences over a stream of
  characters.
- `tick_system.dfy`: the wait computation, the pacing of consecutive cycles, and the
  no-catch-up policy.

The engine is an oracle. Each `Frame` carries:

- the button states;
- the cursor in world and in scaled coordinates;
- the camera position;
- the one result of `layer.cast_ray` for that pass;
- the identifier `layer.add_object` hands out;
- `live`, the transform `object.update()` reads back for an identifier.

Engine calls are emitted as `Effect`s (`Added`, `Removed`, `Joined`). The two `unwrap()`s on
registry lookups (src/main.rs:311, 337) are the `Panicked` outcome.

Behaviour kept exactly as the code has it:

- `last` is shared by both modes.
- `last2` is updated only in place mode.
- A release clears the target only when a joint is made.
- Switching mode only flips `select` (src/main.rs:243-245); it clears neither the target nor the
  selection.
- The selection is never cleared by a release.
- A miss on a press keeps the previous selection.
- A press on an unregistered identifier clears the selection.
- With no selection, a press that misses keeps the old target, since the target is only touched
  while something is selected (src/main.rs:328).
- Pressing on an object makes it its own target, so releasing there makes no joint. This, and a
  press never panicking, rest on the one ray-cast answer per pass described below: the source
  casts twice (src/main.rs:321, 331) while the physics thread runs.
- The joint's first anchor is the world-space difference of the two clones' last-read positions. In
  the release pass those are the positions read in an earlier pass.
- In a pass with both a left and a right press edge, the spawn happens first, so the right click's
  lookup sees the new object.
- Removing an object panics rather than reporting "not found" when the hit identifier is not
  registered.
- Joints whose endpoint is removed later are neither retracted nor checked.

## Model

| member | source | states |
|---|---|---|
| `EventLoop.Sandbox.constructor` | src/main.rs:124-167 | The registry holds only the platform (fixed, 5 x 0.1, restitution 0). All edge flags are false. Nothing is selected or targeted. The template is unanchored, 0.07 x 0.07, in the default colour. |
| `EventLoop.Sandbox.MainEventsCleared` | src/main.rs:211-416 | One pass updates the closure's variables exactly as `Interaction.FrameStep` does. It returns the same engine calls, or the same panic site. The text is unchanged. |
| `EventLoop.Sandbox.ApplyPanelValues` | src/main.rs:212-258 | The panel writes the anchoring, size, rotation and colour. It toggles the mode on a click and records the focus. Nothing else changes. |
| `EventLoop.Sandbox.PlaceMode` | src/main.rs:266-317 | The place-mode branch agrees with `PlacePass`: template at the cursor, spawn on a left press edge, remove on a right press edge, panic on an unregistered hit. |
| `EventLoop.Sandbox.SelectMode` | src/main.rs:318-393 | The select-mode branch agrees with `SelectPass`: pick, track, join on release, set `last`, refresh the selection. |
| `EventLoop.Sandbox.PickOnPress` | src/main.rs:319-325 | Only `selected_object` changes. It changes only on a left press edge that hits: to the registered object's clone, or to nothing. |
| `EventLoop.Sandbox.TrackTarget` | src/main.rs:326-364 | It agrees with `Track`. With left up or no selection, only the arrow is hidden. Otherwise it panics exactly when the hit is unregistered. |
| `EventLoop.Sandbox.Retarget` | src/main.rs:328-358 | With left held and a selection: the selection and the hit object are refreshed from the engine, and the target is the hit or nothing. The arrow is shown iff its ends differ. |
| `EventLoop.Sandbox.JoinOnRelease` | src/main.rs:365-381 | It agrees with `Release`. On a release edge with a selection and a different target, it emits one joint and clears the target. Otherwise nothing changes. |
| `EventLoop.Sandbox.CapturePan` | src/main.rs:399-415 | The middle press edge captures the scaled cursor and the camera position. `right` becomes the middle button's state. |
| `EventLoop.Sandbox.ReceivedCharacter` | src/main.rs:188-202 | With egui focused the text is unchanged. Otherwise the text is `TextEdit.Edit` of the old text. |
| `InteractionProperties.FocusedFrameIsSkipped` | src/main.rs:256-262 | A focused pass applies only the panel and makes no engine call. Edge flags, selection, target, registry, pan anchors and arrow are unchanged. |
| `InteractionProperties.EdgeFlags` | src/main.rs:274-414 | After a pass that runs, `last` is the left button in both modes. `last2` is the right button in place mode and unchanged in select mode. `right` is the middle button. |
| `InteractionProperties.SpawnFollowsTemplate` | src/main.rs:274-296 | A spawned object's body is Fixed iff anchored, else Dynamic. Its collider is a square of the template size with restitution 0 and `Min`. Its colour is the template's. Its transform is the cursor with size (1,1) and the template rotation. Its appearance size is the template size. |
| `InteractionProperties.PlaceSpawn` | src/main.rs:274-300 | In place mode without a right press edge, a left press edge adds exactly the new id mapped to that object and leaves the other entries alone. Without the edge, the registry is unchanged and nothing is emitted. |
| `InteractionProperties.SpawnGrowsRegistry` | src/main.rs:297-298 | In a pass without a right press edge, a spawn with an identifier the registry does not hold grows it by exactly one. |
| `InteractionProperties.PlaceRemove` | src/main.rs:274-316 | On a right press edge, the lookup runs against the registry after this pass's spawn, if any. A hit registered there removes exactly that key, shrinking it by one, after the spawn's effect. A miss changes nothing beyond the spawn. A hit not registered there panics at the first lookup. |
| `InteractionProperties.SelectPick` | src/main.rs:319-351 | With one ray-cast answer per pass, a select-mode left press never panics. A registered hit selects that object, refreshed, and targets it too. An unregistered hit clears the selection. A miss keeps the selection and, if there is one, clears the target. |
| `InteractionProperties.SelectRetarget` | src/main.rs:319-358 | While left is held with a selection after this pass's pick, the press pass included, the target is the refreshed hit object, or nothing on a miss. An unregistered hit panics. The arrow is visible iff its length is non-zero. |
| `InteractionProperties.ArrowHidden` | src/main.rs:326-364 | In select mode the arrow is hidden when left is up or nothing is selected. |
| `InteractionProperties.JointOnRelease` | src/main.rs:365-381 | On the left release edge, a joint is emitted iff both a selection and a target exist with different ids. It has anchor1 = target minus selection and anchor2 = (0,0), and only then is the target cleared. The selection is kept. |
| `InteractionProperties.NoJointWithoutRelease` | src/main.rs:365-381 | No pass without a left release edge emits a joint. |
| `InteractionProperties.SelectKeepsRegistry` | src/main.rs:318-393 | A select-mode pass keeps the registry's keys and emits at most one call, a joint. |
| `InteractionProperties.PanAnchors` | src/main.rs:399-404 | The pan anchors change exactly on the middle button's press edge, to the scaled cursor and the camera position. |
| `Runs.SpawnsArePressEdges` | src/main.rs:274-300 | Over any passes up to a panic, the number of spawns equals the number of left press edges in place-mode passes. `last` is tracked across both modes and across focused passes. |
| `Runs.HeldLeftSpawnsOnce` | src/main.rs:274-300 | Holding left in place mode for any number of passes spawns once, or never if `last` was already set. |
| `Runs.FocusedRunIsSkipped` | src/main.rs:256-262 | Any number of focused passes make no engine call and leave the interaction state as it was. |
| `Runs.SpawnThenRemove` | src/main.rs:274-316 | A spawn followed by a right click on the new object emits exactly an addition and a removal, and the registry returns to what it was. |
| `Runs.DragIntoEmptySpaceMakesNoJoint` | src/main.rs:319-381 | Press on a registered object, drag over empty space, release: no engine call, nothing targeted, the object still selected. |
| `TextEdit.Edit` | src/main.rs:192-198 | Backspace leaves the prefix one character shorter, or the empty text. DEL leaves the text unchanged. Any other character extends the text by exactly that character at the end. |
| `TextEdit.BackspaceUndoesTyping` | src/main.rs:193-196 | Backspace right after a printable character restores the text. |
| `TextEdit.TypingAppends` | src/main.rs:196 | A stream of printable characters appends exactly those characters in order. |
| `TextEdit.BackspacesErase` | src/main.rs:193-195 | `n` backspaces remove the last `n` characters, or all of them. |
| `TextEdit.DeletesIgnored` | src/main.rs:196-197 | Any number of DEL characters leave the text unchanged. |
| `TickSystem.SaturatingSub` | src/main.rs:431 | The wait brings elapsed up to at least the target. It is 0 or exactly target - elapsed, and never more than the target. |
| `TickSystem.Elapsed` | src/main.rs:429 | The elapsed time exists iff the clock did not go backwards (otherwise the `unwrap` panics), and start + elapsed = now. |
| `TickSystem.WaitIsLeast` | src/main.rs:431 | No wait shorter than the computed one reaches the target. |
| `TickSystem.CycleLength` | src/main.rs:426-434 | Tick plus wait is the longer of the tick and the target step. |
| `TickSystem.StepScenarios` | src/main.rs:425-431 | With the 1/180 s step, a tick of half the step waits the other half, and a tick of twice the step waits 0. |
| `TickSystem.TickCycles` | src/main.rs:426-434 | Over the measured ticks, each wait is the saturating difference. Under an exact sleep, the wall time is at least one step per cycle, and never less than the ticks' own work. |
| `TickSystem.OverrunsAreNotCaughtUp` | src/main.rs:426-434 | Under an exact sleep, when every tick overruns, the wall time is exactly the ticks' work: nothing is fast-forwarded. |
| `TickSystem.FastTicksKeepTheRate` | src/main.rs:426-434 | Under an exact sleep, when every tick fits in the step, the wall time is exactly one step per cycle. |

## Left out

- Window and event-loop plumbing (window builder, fullscreen toggle, close and Escape): I/O.
- Panel rendering and its sliders: the panel's results are the `Panel` inputs. The rotation slider
  is taken as already converted to radians (`to_radians` is floating point). The time-scale slider
  and the physics parameters it sets are left out.
- Fonts, labels, materials and indicator geometry: foreign engine calls.
  - The label updates after a text edit are not modelled; the text itself is.
  - The place indicator's visibility and transform are not modelled. Its initial visibility is an
    engine default.
  - The arrow's vertices, rotation and `angle_between` are not modelled. Only its visibility is
    kept.
- Floating point: positions, sizes and colours are reals.
  - The arrow's length is zero iff its two ends coincide, so `length == 0.0` is modelled as
    equality of the two points.
  - Zoom (mouse wheel) and the pan offset while the middle button is held are not modelled, and
    zoom is not claimed to stay positive.
  - The camera position is a frame input.
- The physics step, ray-cast geometry and joint solving are engine internals. The ray cast is one
  `Option<Id>` per pass: every cast in a pass is at the same cursor, and concurrent physics between
  them is not modelled. `object.update()` is the frame's `live` transform for that identifier.
  `object.update()` (src/main.rs:329, 384) and `add_joint` (src/main.rs:370) are taken to succeed
  on a held clone whose object was removed in place mode before the switch back: `live` is total
  and the joint is still emitted.
- `layer.remove_object(...).unwrap()` at src/main.rs:312 is taken to succeed. Registry entries are
  always objects that were added to the layer and not yet removed.
- The tick thread, `sleep` and the concurrency between the physics thread and the event loop are
  left out. `TickCycles` runs the loop body over a finite list of measured tick durations (in
  nanoseconds) instead of forever, and the target is the constant 5 555 556 ns.
- TickSystem.WallTime: it is the ticks plus the computed waits. It assumes `sleep(w)` lasts exactly
  `w` and that no time passes between the end of a sleep and the next clock reading.
- `EventLoop.Sandbox.MainEventsCleared`: after a panic the process is gone, so the contract says
  nothing about the fields in that case.
