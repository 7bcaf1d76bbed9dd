/**
 * The interaction pass the event loop runs on every `MainEventsCleared`
 * (src/main.rs:211-416), as a pure transition from the sandbox's state and
 * one frame's inputs to the next state and the engine calls it makes.
 *
 * The graphics and physics engine is an oracle: the frame carries the ray
 * cast's answer, the identifier `add_object` hands out, and the transforms
 * `object.update()` reads back. Spawning, removing and joining are emitted
 * as effects; the two `unwrap()`s on registry lookups are panics.
 */
module Interaction {
  import opened Wrappers
  import opened Scene

  /** What the egui panel leaves behind this frame (src/main.rs:212-258). */
  datatype Panel = Panel(
    anchored: bool,     // the "Anchored" checkbox, bound to `fixed`
    size: Vec2,         // the "Size X" / "Size Y" sliders
    rotation: real,     // the "Rotation" slider, already in radians
    color: Color,       // the four colour sliders
    modeClicked: bool,  // the "Spawn" / "Select" button was clicked
    focused: bool)      // egui has the pointer or the keyboard

  /** One pass of the event loop's inputs. */
  datatype Frame = Frame(
    panel: Panel,
    leftDown: bool,
    rightDown: bool,
    middleDown: bool,
    cursor: Vec2,          // `input.cursor_to_world(&layer)`
    scaledCursor: Vec2,    // `input.scaled_cursor(&layer)`
    camera: Vec2,          // the camera's position when the pass runs
    hit: Option<Id>,       // `layer.cast_ray` at the cursor
    newId: Id,             // the identifier `layer.add_object` assigns
    live: Id -> Transform) // the transform `object.update()` reads back

  /** A clone of a registered object, as `selected_object` and `targeted_object` hold it. */
  datatype Snapshot = Snapshot(id: Id, copy: SceneObject) {
    function Position(): Vec2 {
      copy.transform.position
    }
  }

  /** The variables the event-loop closure captures and updates. */
  datatype State = State(
    select: bool,       // select mode (true) or place mode (false)
    last: bool,         // left button state of the previous pass, shared by both modes
    last2: bool,        // right button state, updated in place mode only
    right: bool,        // middle button state (the pan edge flag)
    selected: Option<Snapshot>,
    targeted: Option<Snapshot>,
    spawned: map<Id, SceneObject>,
    fixed: bool,        // the template's anchoring
    color: Color,       // the template's colour
    template: Transform,
    mouseLock: Vec2,    // pan anchor: pointer
    cameraLock: Vec2,   // pan anchor: camera
    arrowVisible: bool,
    focused: bool)      // `egui_focused`

  /** The engine calls a pass makes. */
  datatype Effect =
    | Added(id: Id, item: SceneObject)
    | Removed(id: Id)
    | Joined(first: Id, second: Id, anchor1: Vec2, anchor2: Vec2)

  /** The two `unwrap()`s of a registry lookup (src/main.rs:311, 337). */
  datatype PanicSite = RemoveLookup | TargetLookup

  datatype Outcome = Running(state: State, effects: seq<Effect>) | Panicked(site: PanicSite)

  const DefaultColor := Color(0.874509804, 0.082352941, 0.082352941, 1.0)

  /** The state before the first pass (src/main.rs:124-167). */
  function Initial(platformId: Id, platformAt: Vec2): State {
    State(false, false, false, false, None, None,
          map[platformId := Platform(platformAt)],
          false, DefaultColor, Transform(Origin, Vec2(0.07, 0.07), 0.0),
          Origin, Origin, false, false)
  }

  /** The panel writes its bound values, toggles the mode and reports focus (src/main.rs:212-258). */
  function ApplyPanel(s: State, p: Panel): State {
    s.(fixed := p.anchored,
       template := s.template.(size := p.size, rotation := p.rotation),
       color := p.color,
       select := s.select != p.modeClicked,
       focused := p.focused)
  }

  predicate LeftPress(s: State, f: Frame) {
    f.leftDown && !s.last
  }

  predicate LeftRelease(s: State, f: Frame) {
    !f.leftDown && s.last
  }

  predicate RightPress(s: State, f: Frame) {
    f.rightDown && !s.last2
  }

  /** The object a spawn in this frame creates: the template placed at the cursor. */
  function Spawn(s: State, f: Frame): SceneObject {
    FromTemplate(s.fixed, s.color, s.template.(position := f.cursor))
  }

  /** Place mode (src/main.rs:266-317). */
  function PlacePass(s: State, f: Frame): Outcome {
    var spawned := if LeftPress(s, f) then s.spawned[f.newId := Spawn(s, f)] else s.spawned;
    var added := if LeftPress(s, f) then [Added(f.newId, Spawn(s, f))] else [];
    var s1 := s.(template := s.template.(position := f.cursor), spawned := spawned, last := f.leftDown);
    if RightPress(s, f) && f.hit.Some? then
      if f.hit.value in spawned then
        Running(s1.(spawned := spawned - {f.hit.value}, last2 := f.rightDown), added + [Removed(f.hit.value)])
      else
        Panicked(RemoveLookup)
    else
      Running(s1.(last2 := f.rightDown), added)
  }

  /** `selected_object` after a left press edge that hits (src/main.rs:319-325). */
  function Pick(s: State, f: Frame): Option<Snapshot> {
    if LeftPress(s, f) && f.hit.Some? then
      if f.hit.value in s.spawned then Some(Snapshot(f.hit.value, s.spawned[f.hit.value])) else None
    else
      s.selected
  }

  /** `object.update()` on a held clone: its transform is read back from the engine. */
  function Refresh(o: Option<Snapshot>, live: Id -> Transform): Option<Snapshot> {
    match o
    case None => None
    case Some(sn) => Some(sn.(copy := sn.copy.(transform := live(sn.id))))
  }

  /** While left is held with a selection: retarget and size the arrow (src/main.rs:326-364). */
  function Track(s: State, f: Frame): Outcome {
    if !f.leftDown || s.selected.None? then
      Running(s.(arrowVisible := false), [])
    else
      var from := Refresh(s.selected, f.live);
      var origin := f.live(s.selected.value.id).position;
      match f.hit
      case None =>
        Running(s.(selected := from, targeted := None, arrowVisible := origin != f.cursor), [])
      case Some(id) =>
        if id in s.spawned then
          var target := Snapshot(id, s.spawned[id].(transform := f.live(id)));
          Running(s.(selected := from, spawned := s.spawned[id := target.copy],
                     targeted := Some(target), arrowVisible := origin != target.Position()), [])
        else
          Panicked(TargetLookup)
  }

  /** On the left release edge, join the selection to a different target (src/main.rs:365-381). */
  function Release(s: State, f: Frame): (State, seq<Effect>) {
    if LeftRelease(s, f) && s.selected.Some? && s.targeted.Some?
       && s.selected.value.id != s.targeted.value.id
    then
      var a, b := s.selected.value, s.targeted.value;
      (s.(targeted := None), [Joined(a.id, b.id, b.Position().Minus(a.Position()), Origin)])
    else
      (s, [])
  }

  /** Select mode (src/main.rs:318-393). */
  function SelectPass(s: State, f: Frame): Outcome {
    match Track(s.(selected := Pick(s, f)), f)
    case Panicked(site) => Panicked(site)
    case Running(s1, _) =>
      var r := Release(s1, f);
      Running(r.0.(last := f.leftDown, selected := Refresh(r.0.selected, f.live)), r.1)
  }

  /** The middle button's press edge captures the pan anchors (src/main.rs:399-415). */
  function Pan(s: State, f: Frame): State {
    var s1 := if f.middleDown && !s.right then s.(mouseLock := f.scaledCursor, cameraLock := f.camera) else s;
    s1.(right := f.middleDown)
  }

  /** The pass of the mode the panel leaves selected. */
  function ModePass(p: State, f: Frame): Outcome {
    if p.select then SelectPass(p, f) else PlacePass(p, f)
  }

  /** One `MainEventsCleared` pass (src/main.rs:211-416). */
  function FrameStep(s: State, f: Frame): Outcome {
    var p := ApplyPanel(s, f.panel);
    if p.focused then
      Running(p, [])
    else
      match ModePass(p, f)
      case Panicked(site) => Panicked(site)
      case Running(q, effects) => Running(Pan(q, f), effects)
  }

  /** The pass runs, in place mode. */
  predicate PlaceFrame(s: State, f: Frame) {
    !f.panel.focused && s.select == f.panel.modeClicked
  }

  /** The pass runs, in select mode. */
  predicate SelectFrame(s: State, f: Frame) {
    !f.panel.focused && s.select != f.panel.modeClicked
  }
}
