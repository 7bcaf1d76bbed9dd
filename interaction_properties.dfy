/** What one interaction pass does, stated about `Interaction.FrameStep` for every state and frame. */
module InteractionProperties {
  import opened Wrappers
  import opened Scene
  import opened Interaction

  /** The parts of the state the interaction pass itself owns (everything but the panel's values). */
  predicate SameInteraction(a: State, b: State) {
    && a.last == b.last && a.last2 == b.last2 && a.right == b.right
    && a.selected == b.selected && a.targeted == b.targeted && a.spawned == b.spawned
    && a.template.position == b.template.position
    && a.mouseLock == b.mouseLock && a.cameraLock == b.cameraLock
    && a.arrowVisible == b.arrowVisible
  }

  /** A pass in which egui has focus returns right after the panel (src/main.rs:256-262). */
  lemma FocusedFrameIsSkipped(s: State, f: Frame)
    requires f.panel.focused
    ensures FrameStep(s, f) == Running(ApplyPanel(s, f.panel), [])
    ensures SameInteraction(FrameStep(s, f).state, s) && FrameStep(s, f).state.focused
  {
  }

  /** `last` follows the left button in both modes, `last2` the right button in place mode only, `right` the middle button. */
  lemma EdgeFlags(s: State, f: Frame)
    requires !f.panel.focused && FrameStep(s, f).Running?
    ensures FrameStep(s, f).state.last == f.leftDown
    ensures FrameStep(s, f).state.last2 == if SelectFrame(s, f) then s.last2 else f.rightDown
    ensures FrameStep(s, f).state.right == f.middleDown
  {
  }

  /** The object a place-mode spawn creates, in terms of this pass's panel and cursor. */
  lemma SpawnFollowsTemplate(s: State, f: Frame)
    ensures var o := Spawn(ApplyPanel(s, f.panel), f);
      && o.body == (if f.panel.anchored then Fixed else Dynamic)
      && o.collider == Collider(f.panel.size.x, f.panel.size.y, 0.0, Min)
      && o.appearance == Appearance(f.panel.color, f.panel.size)
      && o.transform == Transform(f.cursor, UnitSize, f.panel.rotation)
  {
  }

  /** Place mode without a right press edge: a left press edge adds exactly the new id; otherwise nothing changes. */
  lemma PlaceSpawn(s: State, f: Frame)
    requires PlaceFrame(s, f) && !RightPress(s, f)
    ensures FrameStep(s, f).Running?
    ensures var o := FrameStep(s, f); var added := Spawn(ApplyPanel(s, f.panel), f);
      && (LeftPress(s, f) ==>
            && o.effects == [Added(f.newId, added)]
            && o.state.spawned.Keys == s.spawned.Keys + {f.newId}
            && o.state.spawned[f.newId] == added
            && (forall id :: id in s.spawned && id != f.newId ==> o.state.spawned[id] == s.spawned[id]))
      && (!LeftPress(s, f) ==> o.effects == [] && o.state.spawned == s.spawned)
  {
  }

  /** With a fresh identifier a spawn grows the registry by exactly one. */
  lemma SpawnGrowsRegistry(s: State, f: Frame)
    requires PlaceFrame(s, f) && !RightPress(s, f) && LeftPress(s, f) && f.newId !in s.spawned
    ensures FrameStep(s, f).Running? && |FrameStep(s, f).state.spawned| == |s.spawned| + 1
  {
    PlaceSpawn(s, f);
  }

  /**
   * Place mode, right press edge: the lookup runs against the registry after
   * this pass's spawn, if any. A hit removes exactly that entry, a miss
   * nothing, and a hit that is not registered panics.
   */
  lemma PlaceRemove(s: State, f: Frame)
    requires PlaceFrame(s, f) && RightPress(s, f)
    ensures var item := Spawn(ApplyPanel(s, f.panel), f);
      var reg := if LeftPress(s, f) then s.spawned[f.newId := item] else s.spawned;
      var added := if LeftPress(s, f) then [Added(f.newId, item)] else [];
      && (f.hit.None? ==>
            && FrameStep(s, f).Running?
            && FrameStep(s, f).state.spawned == reg && FrameStep(s, f).effects == added)
      && (f.hit.Some? && f.hit.value in reg ==>
            && FrameStep(s, f).Running?
            && FrameStep(s, f).state.spawned == reg - {f.hit.value}
            && |FrameStep(s, f).state.spawned| == |reg| - 1
            && FrameStep(s, f).effects == added + [Removed(f.hit.value)])
      && (f.hit.Some? && f.hit.value !in reg ==> FrameStep(s, f) == Panicked(RemoveLookup))
  {
  }

  /** A left press edge in select mode picks what the ray hits, keeps the selection on a miss, and never panics. */
  lemma SelectPick(s: State, f: Frame)
    requires SelectFrame(s, f) && LeftPress(s, f)
    ensures FrameStep(s, f).Running? && FrameStep(s, f).effects == []
    ensures var t := FrameStep(s, f).state;
      match f.hit
      case Some(id) =>
        if id in s.spawned then
          && t.selected == Some(Snapshot(id, s.spawned[id].(transform := f.live(id))))
          && t.targeted == t.selected
        else
          t.selected == None && t.targeted == s.targeted && !t.arrowVisible
      case None =>
        && (t.selected.Some? <==> s.selected.Some?)
        && (s.selected.Some? ==> t.selected.value.id == s.selected.value.id && t.targeted == None)
  {
  }

  /** While left is held with a selection after this pass's pick (the press pass included), the target is what the ray hits; the arrow shows unless its length is zero. */
  lemma SelectRetarget(s: State, f: Frame)
    requires SelectFrame(s, f) && f.leftDown && Pick(s, f).Some?
    ensures var from := f.live(Pick(s, f).value.id).position;
      match f.hit
      case None =>
        && FrameStep(s, f).Running?
        && FrameStep(s, f).state.targeted == None
        && FrameStep(s, f).state.arrowVisible == (from != f.cursor)
      case Some(id) =>
        if id in s.spawned then
          && FrameStep(s, f).Running?
          && FrameStep(s, f).state.targeted == Some(Snapshot(id, s.spawned[id].(transform := f.live(id))))
          && FrameStep(s, f).state.arrowVisible == (from != f.live(id).position)
        else
          FrameStep(s, f) == Panicked(TargetLookup)
    ensures FrameStep(s, f).Running? ==>
      && FrameStep(s, f).state.selected == Refresh(Pick(s, f), f.live)
      && FrameStep(s, f).effects == []
  {
  }

  /** The arrow is hidden when left is up or nothing is selected. */
  lemma ArrowHidden(s: State, f: Frame)
    requires SelectFrame(s, f) && FrameStep(s, f).Running?
    requires !f.leftDown || Pick(s, f).None?
    ensures !FrameStep(s, f).state.arrowVisible
  {
  }

  /** On the left release edge a joint is emitted iff a selection and a different target exist; only then is the target cleared. */
  lemma JointOnRelease(s: State, f: Frame)
    requires SelectFrame(s, f) && LeftRelease(s, f)
    ensures FrameStep(s, f).Running?
    ensures var o := FrameStep(s, f);
      var joins := s.selected.Some? && s.targeted.Some? && s.selected.value.id != s.targeted.value.id;
      && (o.effects != [] <==> joins)
      && (joins ==>
            && o.effects == [Joined(s.selected.value.id, s.targeted.value.id,
                                    s.targeted.value.Position().Minus(s.selected.value.Position()), Origin)]
            && o.state.targeted == None)
      && (!joins ==> o.state.targeted == s.targeted)
      && (o.state.selected.Some? <==> s.selected.Some?)
      && (s.selected.Some? ==> o.state.selected.value.id == s.selected.value.id)
  {
  }

  /** No pass other than a left release edge emits a joint. */
  lemma NoJointWithoutRelease(s: State, f: Frame)
    requires !LeftRelease(s, f) && FrameStep(s, f).Running?
    ensures forall e | e in FrameStep(s, f).effects :: !e.Joined?
  {
  }

  /** Select mode never adds or removes registry entries; it only refreshes the target's transform. */
  lemma SelectKeepsRegistry(s: State, f: Frame)
    requires SelectFrame(s, f) && FrameStep(s, f).Running?
    ensures FrameStep(s, f).state.spawned.Keys == s.spawned.Keys
    ensures |FrameStep(s, f).effects| <= 1
    ensures forall e | e in FrameStep(s, f).effects :: e.Joined?
  {
    var p := ApplyPanel(s, f.panel);
    var t := Track(p.(selected := Pick(p, f)), f);
    assert t.Running? && t.state.spawned.Keys == s.spawned.Keys;
    var r := Release(t.state, f);
    assert r.0.spawned == t.state.spawned && |r.1| <= 1 && forall e | e in r.1 :: e.Joined?;
    assert FrameStep(s, f).state.spawned == r.0.spawned && FrameStep(s, f).effects == r.1;
  }

  /** Neither mode's pass changes the mode. */
  lemma PassKeepsMode(p: State, f: Frame)
    requires ModePass(p, f).Running?
    ensures ModePass(p, f).state.select == p.select
  {
    if p.select {
      var t := Track(p.(selected := Pick(p, f)), f);
      assert t.state.select == p.select;
    }
  }

  /** Neither mode's pass touches the pan flag or the pan anchors. */
  lemma PassKeepsPan(p: State, f: Frame)
    requires ModePass(p, f).Running?
    ensures var q := ModePass(p, f).state;
      q.right == p.right && q.mouseLock == p.mouseLock && q.cameraLock == p.cameraLock
  {
    if p.select {
      var t := Track(p.(selected := Pick(p, f)), f);
      assert t.state.right == p.right && t.state.mouseLock == p.mouseLock && t.state.cameraLock == p.cameraLock;
    }
  }

  /** The middle button's press edge, and only it, captures the pan anchors. */
  lemma PanAnchors(s: State, f: Frame)
    requires !f.panel.focused && FrameStep(s, f).Running?
    ensures var t := FrameStep(s, f).state;
      if f.middleDown && !s.right then
        t.mouseLock == f.scaledCursor && t.cameraLock == f.camera
      else
        t.mouseLock == s.mouseLock && t.cameraLock == s.cameraLock
  {
    var p := ApplyPanel(s, f.panel);
    PassKeepsPan(p, f);
    assert FrameStep(s, f).state == Pan(ModePass(p, f).state, f);
  }
}
