/**
 * The event-loop closure of src/main.rs:169-421 as an object: the variables
 * it captures are fields, and each event it handles is a method that
 * updates them in the source's own order.
 */
module EventLoop {
  import opened Wrappers
  import opened Scene
  import opened Interaction
  import TextEdit

  class Sandbox {
    var select: bool
    var last: bool
    var last2: bool
    var right: bool
    var selected: Option<Snapshot>
    var targeted: Option<Snapshot>
    var spawned: map<Id, SceneObject>
    var fixed: bool
    var color: Color
    var template: Transform
    var mouseLock: Vec2
    var cameraLock: Vec2
    var arrowVisible: bool
    var focused: bool
    /** The label text the keyboard edits. */
    var text: string

    /** The interaction state these fields hold. */
    function Model(): State
      reads this
    {
      State(select, last, last2, right, selected, targeted, spawned, fixed, color, template,
            mouseLock, cameraLock, arrowVisible, focused)
    }

    /** Start-up: the platform is the only registered object (src/main.rs:124-167). */
    constructor (platformId: Id, platformAt: Vec2, initialText: string)
      ensures Model() == Initial(platformId, platformAt)
      ensures text == initialText
    {
      select, last, last2, right := false, false, false, false;
      selected, targeted := None, None;
      spawned := map[platformId := Platform(platformAt)];
      fixed, color := false, DefaultColor;
      template := Transform(Origin, Vec2(0.07, 0.07), 0.0);
      mouseLock, cameraLock := Origin, Origin;
      arrowVisible, focused := false, false;
      text := initialText;
    }

    /**
     * One `MainEventsCleared` pass (src/main.rs:211-416). It makes the
     * engine calls `effects`, or stops at an `unwrap()` that panics, after
     * which the process is gone and the fields no longer matter.
     */
    method MainEventsCleared(f: Frame) returns (effects: seq<Effect>, panic: Option<PanicSite>)
      modifies this
      ensures text == old(text)
      ensures match FrameStep(old(Model()), f)
        case Running(s, es) => panic == None && effects == es && Model() == s
        case Panicked(site) => panic == Some(site)
    {
      ApplyPanelValues(f.panel);
      if focused {
        return [], None;
      }
      if !select {
        effects, panic := PlaceMode(f);
      } else {
        effects, panic := SelectMode(f);
      }
      if panic.None? {
        CapturePan(f);
      }
    }

    /** The panel writes its bound values and reports whether it has focus (src/main.rs:212-258). */
    method ApplyPanelValues(p: Panel)
      modifies this
      ensures Model() == ApplyPanel(old(Model()), p) && text == old(text)
    {
      fixed := p.anchored;
      template := template.(size := p.size, rotation := p.rotation);
      color := p.color;
      if p.modeClicked {
        select := !select;
      }
      focused := p.focused;
    }

    /** Place mode: spawn on a left press edge, remove on a right press edge (src/main.rs:266-317). */
    method PlaceMode(f: Frame) returns (effects: seq<Effect>, panic: Option<PanicSite>)
      modifies this
      ensures text == old(text)
      ensures match PlacePass(old(Model()), f)
        case Running(s, es) => panic == None && effects == es && Model() == s
        case Panicked(site) => panic == Some(site)
    {
      effects, panic := [], None;
      template := template.(position := f.cursor);
      if f.leftDown && !last {
        var item := FromTemplate(fixed, color, template);
        spawned := spawned[f.newId := item];
        effects := effects + [Added(f.newId, item)];
      }
      last := f.leftDown;
      if f.rightDown && !last2 && f.hit.Some? {
        var id := f.hit.value;
        if id !in spawned {
          panic := Some(RemoveLookup);
          return;
        }
        spawned := spawned - {id};
        effects := effects + [Removed(id)];
      }
      last2 := f.rightDown;
    }

    /** Select mode: pick, retarget while held, join on release (src/main.rs:318-393). */
    method SelectMode(f: Frame) returns (effects: seq<Effect>, panic: Option<PanicSite>)
      modifies this
      ensures text == old(text)
      ensures match SelectPass(old(Model()), f)
        case Running(s, es) => panic == None && effects == es && Model() == s
        case Panicked(site) => panic == Some(site)
    {
      effects := [];
      PickOnPress(f);
      panic := TrackTarget(f);
      if panic.Some? {
        return;
      }
      effects := JoinOnRelease(f);
      last := f.leftDown;
      if selected.Some? {
        var sel := selected.value;
        selected := Some(sel.(copy := sel.copy.(transform := f.live(sel.id))));
      }
    }

    /** A left press edge that hits selects the registered object, or nothing (src/main.rs:319-325). */
    method PickOnPress(f: Frame)
      modifies this
      ensures Model() == old(Model()).(selected := Pick(old(Model()), f)) && text == old(text)
    {
      if f.leftDown && !last && f.hit.Some? {
        var id := f.hit.value;
        selected := if id in spawned then Some(Snapshot(id, spawned[id])) else None;
      }
    }

    /** While left is held with a selection: retarget and size the arrow (src/main.rs:326-364). */
    method TrackTarget(f: Frame) returns (panic: Option<PanicSite>)
      modifies this
      ensures text == old(text)
      ensures panic.None? <==> Track(old(Model()), f).Running?
      ensures panic.None? ==> Model() == Track(old(Model()), f).state
      ensures panic.Some? ==> panic.value == Track(old(Model()), f).site
    {
      if f.leftDown && selected.Some? {
        panic := Retarget(f);
      } else {
        arrowVisible := false;
        panic := None;
      }
    }

    /** The held-button branch: refresh the selection, follow the ray, hide a zero-length arrow. */
    method Retarget(f: Frame) returns (panic: Option<PanicSite>)
      requires f.leftDown && selected.Some?
      modifies this
      ensures text == old(text)
      ensures panic.None? <==> Track(old(Model()), f).Running?
      ensures panic.None? ==> Model() == Track(old(Model()), f).state
      ensures panic.Some? ==> panic.value == Track(old(Model()), f).site
    {
      panic := None;
      var sel := selected.value;
      selected := Some(sel.(copy := sel.copy.(transform := f.live(sel.id))));
      var origin := selected.value.Position();
      if f.hit.None? {
        targeted := None;
        // The arrow is shown unless its length is exactly zero.
        arrowVisible := origin != f.cursor;
        return;
      }
      var id := f.hit.value;
      if id !in spawned {
        panic := Some(TargetLookup);
        return;
      }
      var target := Snapshot(id, spawned[id].(transform := f.live(id)));
      spawned := spawned[id := target.copy];
      targeted := Some(target);
      arrowVisible := origin != target.Position();
    }

    /** On the left release edge, join the selection to a different target (src/main.rs:365-381). */
    method JoinOnRelease(f: Frame) returns (effects: seq<Effect>)
      modifies this
      ensures Model() == Release(old(Model()), f).0 && effects == Release(old(Model()), f).1
      ensures text == old(text)
    {
      effects := [];
      if !f.leftDown && last && selected.Some? && targeted.Some? {
        var a, b := selected.value, targeted.value;
        if a.id != b.id {
          effects := [Joined(a.id, b.id, b.Position().Minus(a.Position()), Origin)];
          targeted := None;
        }
      }
    }

    /** The middle button's press edge captures the pan anchors (src/main.rs:399-415). */
    method CapturePan(f: Frame)
      modifies this
      ensures Model() == Pan(old(Model()), f) && text == old(text)
    {
      if f.middleDown && !right {
        mouseLock := f.scaledCursor;
        cameraLock := f.camera;
      }
      right := f.middleDown;
    }

    /** A typed character edits the label text unless egui has focus (src/main.rs:188-202). */
    method ReceivedCharacter(c: char)
      modifies this`text
      ensures text == if focused then old(text) else TextEdit.Edit(old(text), c)
    {
      if focused {
        return;
      }
      text := TextEdit.Edit(text, c);
    }
  }
}
