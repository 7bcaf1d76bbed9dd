/**
 * Sequences of passes: the event loop runs `FrameStep` once per
 * `MainEventsCleared` until a panic ends the process.
 */
module Runs {
  import opened Wrappers
  import opened Scene
  import opened Interaction
  import opened InteractionProperties

  /** Consecutive passes, stopping at the first panic; the effects of all passes in order. */
  function Run(s: State, fs: seq<Frame>): Outcome
    decreases |fs|
  {
    if fs == [] then
      Running(s, [])
    else
      match FrameStep(s, fs[0])
      case Panicked(site) => Panicked(site)
      case Running(s1, e1) =>
        match Run(s1, fs[1..])
        case Panicked(site) => Panicked(site)
        case Running(s2, e2) => Running(s2, e1 + e2)
  }

  /** How many objects a list of engine calls spawns. */
  function Additions(es: seq<Effect>): nat {
    if es == [] then 0 else (if es[0].Added? then 1 else 0) + Additions(es[1..])
  }

  lemma {:induction false} AdditionsAppend(a: seq<Effect>, b: seq<Effect>)
    ensures Additions(a + b) == Additions(a) + Additions(b)
  {
    if a == [] {
      assert a + b == b;
    } else {
      assert (a + b)[1..] == a[1..] + b;
      AdditionsAppend(a[1..], b);
    }
  }

  /**
   * Reference count of left-button press edges that fall in place-mode
   * passes: the mode follows the panel's clicks, and the edge flag follows
   * the button in every pass the panel does not swallow.
   */
  function PlacePresses(select: bool, last: bool, fs: seq<Frame>): nat
    decreases |fs|
  {
    if fs == [] then
      0
    else
      var f := fs[0];
      var mode := select != f.panel.modeClicked;
      if f.panel.focused then
        PlacePresses(mode, last, fs[1..])
      else
        (if !mode && f.leftDown && !last then 1 else 0) + PlacePresses(mode, f.leftDown, fs[1..])
  }

  /** A place-mode pass spawns once on a left press edge and never otherwise. */
  lemma PlaceAdditions(p: State, f: Frame)
    requires PlacePass(p, f).Running?
    ensures Additions(PlacePass(p, f).effects) == if LeftPress(p, f) then 1 else 0
  {
    var es := PlacePass(p, f).effects;
    var spawned := if LeftPress(p, f) then [Added(f.newId, Spawn(p, f))] else [];
    if RightPress(p, f) && f.hit.Some? {
      assert es == spawned + [Removed(f.hit.value)];
      AdditionsAppend(spawned, [Removed(f.hit.value)]);
    } else {
      assert es == spawned;
    }
  }

  /** One pass: the new mode and edge flag, and whether it spawned. */
  lemma FrameAdditions(s: State, f: Frame)
    requires FrameStep(s, f).Running?
    ensures FrameStep(s, f).state.select == (s.select != f.panel.modeClicked)
    ensures FrameStep(s, f).state.last == if f.panel.focused then s.last else f.leftDown
    ensures Additions(FrameStep(s, f).effects) == if PlaceFrame(s, f) && LeftPress(s, f) then 1 else 0
  {
    var p := ApplyPanel(s, f.panel);
    if !f.panel.focused {
      var o := ModePass(p, f);
      assert FrameStep(s, f) == Running(Pan(o.state, f), o.effects);
      PassKeepsMode(p, f);
      EdgeFlags(s, f);
      if p.select {
        SelectKeepsRegistry(s, f);
        if o.effects != [] {
          assert o.effects[0].Joined? && o.effects[1..] == [];
        }
      } else {
        PlaceAdditions(p, f);
      }
    }
  }

  /** Every spawn is a press edge of the left button in place mode: holding the button down spawns once. */
  lemma {:induction false} SpawnsArePressEdges(s: State, fs: seq<Frame>)
    requires Run(s, fs).Running?
    ensures Additions(Run(s, fs).effects) == PlacePresses(s.select, s.last, fs)
    decreases |fs|
  {
    if fs != [] {
      var first := FrameStep(s, fs[0]);
      FrameAdditions(s, fs[0]);
      SpawnsArePressEdges(first.state, fs[1..]);
      AdditionsAppend(first.effects, Run(first.state, fs[1..]).effects);
    }
  }

  /** Passes that all hold the left button down count no press edge once the flag is set. */
  lemma {:induction false} HeldPassesHaveNoPress(fs: seq<Frame>)
    requires forall i :: 0 <= i < |fs| ==> fs[i].leftDown && !fs[i].panel.focused && !fs[i].panel.modeClicked
    ensures PlacePresses(false, true, fs) == 0
    decreases |fs|
  {
    if fs != [] {
      HeldPassesHaveNoPress(fs[1..]);
    }
  }

  /** Holding the left button in place mode for any number of passes spawns exactly once, or never if it was already down. */
  lemma HeldLeftSpawnsOnce(s: State, fs: seq<Frame>)
    requires Run(s, fs).Running? && |fs| > 0 && !s.select
    requires forall i :: 0 <= i < |fs| ==> fs[i].leftDown && !fs[i].panel.focused && !fs[i].panel.modeClicked
    ensures Additions(Run(s, fs).effects) == if s.last then 0 else 1
  {
    SpawnsArePressEdges(s, fs);
    HeldPassesHaveNoPress(fs[1..]);
  }

  /** However many passes egui keeps the focus, the interaction state is untouched and no engine call is made. */
  lemma {:induction false} FocusedRunIsSkipped(s: State, fs: seq<Frame>)
    requires forall i :: 0 <= i < |fs| ==> fs[i].panel.focused
    ensures Run(s, fs).Running? && Run(s, fs).effects == []
    ensures SameInteraction(Run(s, fs).state, s)
    decreases |fs|
  {
    if fs != [] {
      FocusedFrameIsSkipped(s, fs[0]);
      var s1 := FrameStep(s, fs[0]).state;
      FocusedRunIsSkipped(s1, fs[1..]);
    }
  }

  /** Two passes that both run: the second starts from the first's state, and their effects concatenate. */
  lemma RunPair(s: State, f1: Frame, f2: Frame)
    requires FrameStep(s, f1).Running? && FrameStep(FrameStep(s, f1).state, f2).Running?
    ensures var o1 := FrameStep(s, f1); var o2 := FrameStep(o1.state, f2);
      Run(s, [f1, f2]) == Running(o2.state, o1.effects + o2.effects)
  {
    var o1 := FrameStep(s, f1);
    var o2 := FrameStep(o1.state, f2);
    assert [f1, f2][1..] == [f2] && [f2][1..] == [];
    assert Run(o2.state, []) == Running(o2.state, []);
    assert o2.effects + [] == o2.effects;
    assert Run(o1.state, [f2]) == Running(o2.state, o2.effects);
  }

  /** The spawning pass of `SpawnThenRemove`. */
  lemma SpawnPass(s: State, f: Frame)
    requires PlaceFrame(s, f) && LeftPress(s, f) && !f.rightDown
    ensures var o := FrameStep(s, f);
      && o.Running? && o.effects == [Added(f.newId, Spawn(ApplyPanel(s, f.panel), f))]
      && o.state.spawned == s.spawned[f.newId := Spawn(ApplyPanel(s, f.panel), f)]
      && o.state.last && !o.state.last2 && !o.state.select
  {
    PlaceSpawn(s, f);
    EdgeFlags(s, f);
    FrameAdditions(s, f);
  }

  /** The removing pass of `SpawnThenRemove`. */
  lemma RemovePass(s: State, f: Frame)
    requires !s.select && s.last && !s.last2 && f.hit.Some? && f.hit.value in s.spawned
    requires !f.panel.focused && !f.panel.modeClicked && f.rightDown
    ensures var o := FrameStep(s, f);
      o.Running? && o.effects == [Removed(f.hit.value)] && o.state.spawned == s.spawned - {f.hit.value}
  {
    assert PlaceFrame(s, f) && RightPress(s, f) && !LeftPress(s, f);
    PlaceRemove(s, f);
  }

  /** Spawning an object and right-clicking it in the next pass leaves the registry as it was. */
  lemma SpawnThenRemove(s: State, f1: Frame, f2: Frame)
    requires PlaceFrame(s, f1) && LeftPress(s, f1) && !f1.rightDown && f1.newId !in s.spawned
    requires !f2.panel.focused && !f2.panel.modeClicked && f2.rightDown && f2.hit == Some(f1.newId)
    ensures Run(s, [f1, f2]).Running?
    ensures Run(s, [f1, f2]).state.spawned == s.spawned
    ensures Run(s, [f1, f2]).effects == [Added(f1.newId, Spawn(ApplyPanel(s, f1.panel), f1)), Removed(f1.newId)]
  {
    SpawnPass(s, f1);
    var s1 := FrameStep(s, f1).state;
    RemovePass(s1, f2);
    assert s1.spawned - {f1.newId} == s.spawned;
    RunPair(s, f1, f2);
  }

  /** Press on a registered object, drag into empty space, release: no joint is made and nothing is targeted. */
  lemma DragIntoEmptySpaceMakesNoJoint(s: State, press: Frame, drag: Frame, release: Frame, a: Id)
    requires SelectFrame(s, press) && LeftPress(s, press) && press.hit == Some(a) && a in s.spawned
    requires !drag.panel.focused && !drag.panel.modeClicked && drag.leftDown && drag.hit.None?
    requires !release.panel.focused && !release.panel.modeClicked && !release.leftDown
    ensures Run(s, [press, drag, release]).Running?
    ensures Run(s, [press, drag, release]).effects == []
    ensures Run(s, [press, drag, release]).state.targeted == None
    ensures Run(s, [press, drag, release]).state.selected.Some?
    ensures Run(s, [press, drag, release]).state.selected.value.id == a
  {
    SelectPick(s, press);
    EdgeFlags(s, press);
    FrameAdditions(s, press);
    var s1 := FrameStep(s, press).state;
    assert SelectFrame(s1, drag) && s1.last && s1.selected.Some? && s1.selected.value.id == a;
    SelectRetarget(s1, drag);
    EdgeFlags(s1, drag);
    FrameAdditions(s1, drag);
    var s2 := FrameStep(s1, drag).state;
    assert SelectFrame(s2, release) && LeftRelease(s2, release) && s2.targeted.None?;
    JointOnRelease(s2, release);
    var s3 := FrameStep(s2, release).state;
    assert Run(s3, []) == Running(s3, []);
    assert [press, drag, release][1..] == [drag, release];
    assert [drag, release][1..] == [release];
    assert [release][1..] == [];
    assert Run(s2, [release]) == Running(s3, []);
    assert Run(s1, [drag, release]) == Running(s3, []);
  }
}
