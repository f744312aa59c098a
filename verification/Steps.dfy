/** The steps of the desktop: every operation keeps the invariants, so they hold in every state that
    can be reached. */
module Steps {
  import opened Prelude
  import opened Views
  import opened Columns
  import opened Rearranging
  import opened Layout
  import opened Animation
  import opened AnimationQueue
  import opened Tiling
  import opened Desktop
  import opened Invariants
  import opened Preservation

  // ---------------------------------------------------------------------------------------
  // Changes that leave the bones alone
  // ---------------------------------------------------------------------------------------

  lemma SameBonesKeep(s: State, t: State)
    requires Inv(s) && SameBones(s, t) && t.seat.focusStack == s.seat.focusStack && LayerOk(t)
    ensures Inv(t)
  {
    hide BonesOk, BonesOf, StackOk;
    StackOkElsewhere(s, t, None);
  }

  lemma FocusingKeeps(s: State, view: Option<ViewId>, condense: bool)
    requires Inv(s) && IsMapped(s, view, None)
    ensures Inv(FocusView(s, view, condense))
  {
    hide BonesOk, BonesOf, StackOk, FocusView, IsMapped;
    FocusViewKeeps(s, view, condense, None);
  }

  lemma FocusingLayerKeeps(s: State, layer: Option<LayerId>)
    requires Inv(s) && (layer.Some? ==> layer.value in s.layers && s.layers[layer.value].mapped)
    ensures Inv(FocusLayer(s, layer))
  {
    hide BonesOk, BonesOf, StackOk, FocusLayer;
    FocusLayerKeeps(s, layer, None);
  }

  lemma ShowingKeeps(s: State, v: ViewId, condense: bool)
    requires Inv(s)
    ensures Inv(Show(s, v, condense))
  {
    hide BonesOk, BonesOf, StackOk, Show;
    ShowKeepsBones(s, v, condense);
    SameBonesKeep(s, Show(s, v, condense));
  }

  predicate IsMappedView(s: State, v: ViewId)
  {
    Located(s, v) && Table(s)[v].mapped
  }

  lemma MappedIsLocated(s: State, v: ViewId)
    requires Inv(s) && v in Table(s) && Table(s)[v].mapped
    ensures Located(s, v)
    ensures BonesOf(s).ws[Home(s, v)] == Skeleton(s.workspaces[Home(s, v)])
    ensures BonesOf(s).cores[v] == CoreOf(Table(s)[v])
  {
    hide Occurrences, FullscreenOk, Assigned, Balanced;
    assert BonesOf(s).cores[v].mapped;
  }

  /** Only views and workspaces differ, and no assertion has failed. */
  ghost predicate SameRest(s: State, t: State)
  {
    t == s.(workspaces := t.workspaces, screen := t.screen) && Unharmed(s.screen, t.screen)
  }

  /** The invariants while one view is neither mapped nor off the focus stack yet. */
  ghost predicate InvBut(s: State, but: Option<ViewId>)
  {
    && BonesOk(BonesOf(s))
    && StackOk(s, but) && LayerOk(s)
    && !s.screen.fault && TasksKnown(Table(s), s.screen.tasks)
  }

  /** Putting bones and the rest together again. */
  lemma InvButFromBones(s: State, t: State, but: Option<ViewId>)
    requires Inv(s) && BonesOk(BonesOf(t)) && SameRest(s, t)
    requires forall v | v in s.seat.focusStack && Some(v) != but :: v in BonesOf(t).cores && BonesOf(t).cores[v].mapped
    ensures InvBut(t, but)
  {
    hide BonesOk, NoDuplicates;
  }

  lemma InvFromBones(s: State, t: State)
    requires Inv(s) && BonesOk(BonesOf(t)) && SameRest(s, t)
    requires forall v | v in s.seat.focusStack :: v in BonesOf(t).cores && BonesOf(t).cores[v].mapped
    ensures Inv(t)
  {
    hide BonesOk, NoDuplicates;
  }

  lemma BonesApart(s: State)
    ensures |BonesOf(s).ws| == |s.workspaces| && BonesOf(s).cores == Cores(Table(s))
    ensures BonesOf(s).outputs == s.env.outputs.Keys && BonesOf(s).pending == Pending(s.screen.tasks)
  {
  }

  lemma StackCores(s: State)
    requires FocusOk(s)
    ensures forall v | v in s.seat.focusStack :: v in BonesOf(s).cores && BonesOf(s).cores[v].mapped
  {
  }

  lemma CoresTell(s: State, v: ViewId)
    requires v in BonesOf(s).cores
    ensures v in Table(s) && BonesOf(s).cores[v] == CoreOf(Table(s)[v])
  {
  }

  lemma CoreApart(s: State, v: ViewId)
    requires v in Table(s)
    ensures v in BonesOf(s).cores && BonesOf(s).cores[v] == CoreOf(Table(s)[v])
  {
  }

  // ---------------------------------------------------------------------------------------
  // Mapping
  // ---------------------------------------------------------------------------------------

  predicate CanMap(s: State, v: ViewId)
  {
    v in Table(s) && !Table(s)[v].mapped && Table(s)[v].expansion != Fullscreen && FocusedWorkspace(s).Some?
  }

  /** The state of `map_view` before the focus changes. */
  function Mapped(s: State, v: ViewId, geometry: Box): State
    requires v in Table(s) && FocusedWorkspace(s).Some?
  {
    var s1 := WithTable(s, Table(s)[v := NewlyMapped(Table(s)[v], geometry)]);
    var i := FocusedWorkspace(s).value;
    InWorkspace(s1, i, AddView(s1.workspaces[i], s1.screen, s1.env, v, FocusedView(s1), false, false))
  }

  lemma MappedBones(s: State, v: ViewId, geometry: Box)
    requires v in Table(s) && FocusedWorkspace(s).Some? && Placement(BonesOf(s))
    ensures var i := FocusedWorkspace(s).value;
            var b := BonesOf(s);
            BonesOf(Mapped(s, v, geometry)) ==
              b.(ws := b.ws[i := WithView(b.ws[i], v, FocusedView(s), false)],
                 cores := b.cores[v := MappedCore(b.cores[v], i, b.ws[i].output)])
    ensures MapView(s, v, geometry) == FocusView(Mapped(s, v, geometry), Some(v), false)
    ensures SameRest(s, Mapped(s, v, geometry))
  {
    hide Placement, WithView, AddView, Told, FocusView, FocusedWorkspace, CoreOf, View.ChangeOutput, Cores, Pending;
    var s1 := WithTable(s, Table(s)[v := NewlyMapped(Table(s)[v], geometry)]);
    var i := FocusedWorkspace(s).value;
    SameCursorWorkspace(s, s1);
    AddViewBones(s1.workspaces[i], s1.screen, s1.env, v, FocusedView(s1), false, false);
    InWorkspaceBones(s1, i, AddView(s1.workspaces[i], s1.screen, s1.env, v, FocusedView(s1), false, false));
    IndexIsPlace(s, i);
    CoresUpdate(Table(s), v, NewlyMapped(Table(s)[v], geometry));
    CoreApart(s, v);
    MappedCoreIs(Table(s)[v], geometry, i, s.workspaces[i].output);
  }

  lemma SameCursorWorkspace(s: State, t: State)
    requires s.workspaces == t.workspaces && s.seat.cursor == t.seat.cursor
    ensures FocusedWorkspace(s) == FocusedWorkspace(t)
  {
  }

  lemma IndexIsPlace(s: State, i: nat)
    requires Placement(BonesOf(s)) && i < |s.workspaces|
    ensures s.workspaces[i].index == i && BonesOf(s).ws[i] == Skeleton(s.workspaces[i])
  {
    hide Occurrences;
    assert BonesOf(s).ws[i].index == i;
  }

  lemma MappedCoreIs(view: View, geometry: Box, i: nat, output: Option<OutputId>)
    ensures CoreOf(NewlyMapped(view, geometry).(workspaceId := i).ChangeOutput(None, output)) ==
            MappedCore(CoreOf(view), i, output)
  {
  }

  lemma MappedKeeps(s: State, v: ViewId, geometry: Box)
    requires Inv(s) && CanMap(s, v)
    ensures Inv(Mapped(s, v, geometry)) && IsMapped(Mapped(s, v, geometry), Some(v), None)
  {
    hide Placement, FullscreenOk, Assigned, Balanced, BonesOf, Mapped, MapView, NoDuplicates;
    var t := Mapped(s, v, geometry);
    BonesApart(s);
    CoreApart(s, v);
    MappedBones(s, v, geometry);
    MappingKeeps(BonesOf(s), BonesOf(t), FocusedWorkspace(s).value, v, FocusedView(s), false);
    StackCores(s);
    CoresTell(t, v);
    InvFromBones(s, t);
  }

  lemma MapViewKeeps(s: State, v: ViewId, geometry: Box)
    requires Inv(s) && CanMap(s, v)
    ensures Inv(MapView(s, v, geometry))
  {
    hide Placement, FullscreenOk, Assigned, Balanced, BonesOf, Mapped, FocusView, MapView, StackOk, IsMapped;
    MappedKeeps(s, v, geometry);
    MappedBones(s, v, geometry);
    FocusingKeeps(Mapped(s, v, geometry), Some(v), false);
  }

  // ---------------------------------------------------------------------------------------
  // Unmapping
  // ---------------------------------------------------------------------------------------

  lemma WithdrawnBones(s: State, v: ViewId)
    requires Placement(BonesOf(s)) && Located(s, v) && Table(s)[v].mapped
    ensures var i := Home(s, v);
            var b := BonesOf(s);
            BonesOf(Withdrawn(s, v)) ==
              b.(ws := b.ws[i := WithoutView(Dismissed(b.ws[i], v), v)],
                 cores := b.cores[v := UnmappedCore(b.cores[v], b.ws[i].output)])
    ensures SameRest(s, Withdrawn(s, v))
  {
    hide Placement, WithoutView, RemoveFromWorkspace, Told, CoreOf, View.ChangeOutput, Cores;
    var i := Home(s, v);
    var gone := Table(s)[v].(mapped := false);
    var s1 := WithTable(s, Table(s)[v := gone]);
    RemoveBones(s1.workspaces[i], s1.screen, s1.env, v, false);
    InWorkspaceBones(s1, i, RemoveFromWorkspace(s1.workspaces[i], s1.screen, s1.env, v, false));
    IndexIsPlace(s, i);
    CoresUpdate(Table(s), v, gone);
    CoreApart(s, v);
    UnmappedCoreIs(Table(s)[v], s.workspaces[i].output);
  }

  lemma UnmappedCoreIs(view: View, output: Option<OutputId>)
    ensures CoreOf(view.(mapped := false).ChangeOutput(output, None)) == UnmappedCore(CoreOf(view), output)
  {
  }

  lemma WithdrawingKeeps(s: State, v: ViewId)
    requires Inv(s) && v in Table(s)
    ensures InvBut(Withdrawn(s, v), Some(v))
  {
    hide Placement, FullscreenOk, Assigned, Balanced, BonesOf, Withdrawn, NoDuplicates;
    if Table(s)[v].mapped {
      MappedIsLocated(s, v);
      var t := Withdrawn(s, v);
      BonesApart(s);
      CoreApart(s, v);
      WithdrawnBones(s, v);
      UnmappingKeeps(BonesOf(s), BonesOf(t), Home(s, v), v);
      StackCores(s);
      InvButFromBones(s, t, Some(v));
    } else {
      NothingWithdrawn(s, v);
    }
  }

  lemma NothingWithdrawn(s: State, v: ViewId)
    requires v in Table(s) && !Table(s)[v].mapped
    ensures Withdrawn(s, v) == s
  {
  }

  lemma HidingKeeps(s: State, v: ViewId)
    requires InvBut(s, Some(v))
    ensures InvBut(HideView(s, v), Some(v))
  {
    hide BonesOk, BonesOf, StackOk, FocusView;
    var next := FirstMapped(s.seat.focusStack, Table(s), v);
    if FocusedView(s) == Some(v) && next.Some? {
      FocusViewKeeps(s, next, true, Some(v));
    }
  }

  lemma ForgettingKeeps(s: State, v: ViewId)
    requires InvBut(s, Some(v))
    ensures Inv(s.(seat := s.seat.(focusStack := Without(s.seat.focusStack, v))))
  {
    hide BonesOk;
    var t := s.(seat := s.seat.(focusStack := Without(s.seat.focusStack, v)));
    SeatIsNoBone(s, t);
    WithoutElements(s.seat.focusStack, v);
    WithoutNoDuplicates(s.seat.focusStack, v);
  }

  lemma UnmapViewKeeps(s: State, v: ViewId)
    requires Inv(s) && v in Table(s)
    ensures Inv(UnmapView(s, v))
  {
    hide Inv, InvBut, Withdrawn, HideView;
    WithdrawingKeeps(s, v);
    HidingKeeps(Withdrawn(s, v), v);
    ForgettingKeeps(HideView(Withdrawn(s, v), v), v);
  }

  // ---------------------------------------------------------------------------------------
  // Fullscreen
  // ---------------------------------------------------------------------------------------

  lemma ExitCores(s: Screen, v: ViewId)
    requires v in s.views && s.views[v].saved.Some?
    ensures var r := ExitFullscreen(s, v);
            Cores(r.views) == Cores(s.views)[v := RecoveringCore(CoreOf(s.views[v]))] && Unharmed(s, r)
  {
    CoresUpdate(s.views, v, Unfullscreened(s.views[v]));
  }

  lemma LeftBones(s: State, i: nat)
    requires BonesOk(BonesOf(s)) && i < |s.workspaces|
    ensures var t := InWorkspace(s, i, SetFullscreen(s.workspaces[i], s.screen, s.env, None));
            BonesOf(t) == Unexpanded(BonesOf(s), i) && SameRest(s, t)
  {
    hide Placement, FullscreenOk, Assigned, Balanced, ExitFullscreen, Arrange;
    var w := s.workspaces[i];
    BonesApart(s);
    IndexIsPlace(s, i);
    LeavingKeeps(BonesOf(s), i);
    if w.fullscreen.Some? {
      CoresTell(s, w.fullscreen.value);
      ExitCores(s.screen, w.fullscreen.value);
    }
    var s1 := if w.fullscreen.Some? then ExitFullscreen(s.screen, w.fullscreen.value) else s.screen;
    ArrangeKeeps(w.(fullscreen := None), s1, s.env, true);
    InWorkspaceBones(s, i, SetFullscreen(w, s.screen, s.env, None));
  }

  lemma EnteredCores(s: Screen, v: ViewId)
    requires v in s.views && CanSave(s.views[v])
    ensures var r := EnterFullscreen(s, v);
            && v in r.views && r.views[v].saved.Some? && Unharmed(s, r)
            && Cores(r.views) ==
               Cores(s.views)[v := CoreOf(s.views[v]).(expansion := Fullscreen, saved := r.views[v].saved)]
  {
    CoresUpdate(s.views, v, Fullscreened(s.views[v]));
  }

  predicate CanFullscreen(s: State, v: ViewId, on: bool)
  {
    Located(s, v) && Table(s)[v].mapped && (on ==> Table(s)[v].expansion == Normal)
  }

  /** v replaces the fullscreen view of its workspace. */
  function ExpandedBones(b: Bones, i: nat, v: ViewId, saved: Option<SavedState>): Bones
    requires i < |b.ws| && v in b.cores
  {
    b.(ws := b.ws[i := b.ws[i].(fullscreen := Some(v))],
       cores := b.cores[v := b.cores[v].(expansion := Fullscreen, saved := saved)])
  }

  lemma BonesAfterExpanding(s: State, i: nat, v: ViewId)
    requires BonesOk(BonesOf(s)) && Located(s, v) && Home(s, v) == i && Table(s)[v].mapped
             && Table(s)[v].expansion == Normal
    ensures i < |BonesOf(s).ws| && v in Unexpanded(BonesOf(s), i).cores
    ensures var t := InWorkspace(s, i, SetFullscreen(s.workspaces[i], s.screen, s.env, Some(v)));
            && SameRest(s, t) && v in BonesOf(t).cores && BonesOf(t).cores[v].saved.Some?
            && BonesOf(t) == ExpandedBones(Unexpanded(BonesOf(s), i), i, v, BonesOf(t).cores[v].saved)
  {
    hide BonesOk, ExitFullscreen, EnterFullscreen, Arrange, CoreOf, Cores, CanSave, Pending, TasksKnown;
    var w := s.workspaces[i];
    var s1 := if w.fullscreen.Some? then ExitFullscreen(s.screen, w.fullscreen.value) else s.screen;
    Unexpanding(s, i, v);
    EnteredCores(s1, v);
    var s2 := EnterFullscreen(s1, v);
    CoresAt(s1.views, v);
    ArrangeKeeps(w.(fullscreen := Some(v)), s2, s.env, true);
    InWorkspaceBones(s, i, SetFullscreen(w, s.screen, s.env, Some(v)));
  }

  lemma ExpandingKeeps(s: State, i: nat, v: ViewId)
    requires BonesOk(BonesOf(s)) && Located(s, v) && Home(s, v) == i && Table(s)[v].mapped
             && Table(s)[v].expansion == Normal
    ensures var t := InWorkspace(s, i, SetFullscreen(s.workspaces[i], s.screen, s.env, Some(v)));
            BonesOk(BonesOf(t)) && SameRest(s, t) && SameSeats(BonesOf(s), BonesOf(t))
  {
    hide BonesOk, BonesOf, SetFullscreen, FullscreenOk;
    var t := InWorkspace(s, i, SetFullscreen(s.workspaces[i], s.screen, s.env, Some(v)));
    BonesAfterExpanding(s, i, v);
    LeavingKeeps(BonesOf(s), i);
    CoreApart(s, v);
    NotYetFullscreen(BonesOf(s), i, v);
    EnteringKeeps(Unexpanded(BonesOf(s), i), BonesOf(t), i, v);
  }

  lemma NotYetFullscreen(b: Bones, i: nat, v: ViewId)
    requires BonesOk(b) && i < |b.ws| && v in b.cores && b.cores[v].expansion != Fullscreen
    ensures Unexpanded(b, i).cores[v] == b.cores[v]
  {
    hide Placement, Assigned, Balanced;
  }

  /** The outputs of workspaces and whether views are mapped are the same. */
  ghost predicate SameSeats(b: Bones, b': Bones)
  {
    && |b'.ws| == |b.ws| && (forall i | 0 <= i < |b.ws| :: b'.ws[i].output == b.ws[i].output)
    && (forall v | v in b.cores && b.cores[v].mapped :: v in b'.cores && b'.cores[v].mapped)
  }

  lemma InvFromSameSeats(s: State, t: State)
    requires Inv(s) && BonesOk(BonesOf(t)) && SameRest(s, t) && SameSeats(BonesOf(s), BonesOf(t))
    ensures Inv(t)
  {
    hide BonesOk, BonesOf;
    StackCores(s);
    BonesApart(s); BonesApart(t);
    InvFromBones(s, t);
  }

  /** The view that was fullscreen is not v, so v can still save its place. */
  lemma Unexpanding(s: State, i: nat, v: ViewId)
    requires BonesOk(BonesOf(s)) && Located(s, v) && Home(s, v) == i && Table(s)[v].mapped
             && Table(s)[v].expansion == Normal
    ensures var w := s.workspaces[i];
            var s1 := if w.fullscreen.Some? then ExitFullscreen(s.screen, w.fullscreen.value) else s.screen;
            && v in s1.views && s1.views[v] == Table(s)[v] && CanSave(s1.views[v]) && Unharmed(s.screen, s1)
            && Cores(s1.views) == Unexpanded(BonesOf(s), i).cores
            && BonesOf(s).ws[i] == Skeleton(w)
  {
    hide Placement, Assigned, Balanced;
    var w := s.workspaces[i];
    BonesApart(s);
    IndexIsPlace(s, i);
    CoreApart(s, v);
    LeavingKeeps(BonesOf(s), i);
    if w.fullscreen.Some? {
      CoresTell(s, w.fullscreen.value);
      ExitCores(s.screen, w.fullscreen.value);
    }
  }

  lemma RequestingKeeps(s: State, v: ViewId, on: bool)
    requires Inv(s) && CanFullscreen(s, v, on)
    ensures Inv(RequestFullscreen(s, v, on))
  {
    hide BonesOk, BonesOf, SetFullscreen, StackOk, LayerOk, Unharmed, TasksKnown;
    var i := Home(s, v);
    var t := RequestFullscreen(s, v, on);
    if on {
      ExpandingKeeps(s, i, v);
    } else {
      BonesApart(s);
      LeftBones(s, i);
      LeavingKeeps(BonesOf(s), i);
    }
    InvFromSameSeats(s, t);
  }

  // ---------------------------------------------------------------------------------------
  // Changing workspaces
  // ---------------------------------------------------------------------------------------

  lemma HandedBones(s: State, v: ViewId, j: nat)
    requires BonesOk(BonesOf(s)) && v in Table(s) && j < |s.workspaces|
    ensures j < |BonesOf(s).ws| && v in BonesOf(s).cores
    ensures var t := HandOverFullscreen(s, v, j);
            BonesOf(t) == Handed(BonesOf(s), v, j) && SameRest(s, t)
  {
    hide BonesOk, SetFullscreen, ArrangeIn, CoreOf, Cores;
    BonesApart(s);
    CoreApart(s, v);
    CoreExpansion(Table(s)[v]);
    if Table(s)[v].expansion == Fullscreen {
      LeftBones(s, j);
      NothingToLeave(s, j);
      var s1 := if s.workspaces[j].fullscreen.None? then s
                else InWorkspace(s, j, SetFullscreen(s.workspaces[j], s.screen, s.env, None));
      assert BonesOf(s1) == Unexpanded(BonesOf(s), j);
      var w := s1.workspaces[j].(fullscreen := Some(v));
      var s2 := s1.(workspaces := s1.workspaces[j := w]);
      InWorkspaceBones(s1, j, (w, s1.screen));
      assert s2 == InWorkspace(s1, j, (w, s1.screen));
      ArrangeInKeepsBones(s2, j);
    }
  }

  lemma CoreExpansion(view: View)
    ensures CoreOf(view).expansion == view.expansion
  {
  }

  lemma NothingToLeave(s: State, j: nat)
    requires j < |s.workspaces|
    ensures s.workspaces[j].fullscreen.None? ==> Unexpanded(BonesOf(s), j) == BonesOf(s)
  {
  }

  lemma PulledBones(s: State, v: ViewId, j: nat)
    requires v in Table(s) && j < |s.workspaces|
    ensures var t := PulledOnto(s, v, j);
            BonesOf(t) == BonesOf(s) && SameRest(s, t) && t.workspaces == s.workspaces
              && t.screen.views.Keys == s.screen.views.Keys
  {
    var t := PulledOnto(s, v, j);
    if t != s {
      CoresUpdate(Table(s), v, Table(t)[v]);
      assert BonesOf(t).ws == BonesOf(s).ws;
    }
  }

  lemma TakenBones(s: State, v: ViewId, i: nat)
    requires v in Table(s) && i < |s.workspaces|
    ensures i < |BonesOf(s).ws| && v in BonesOf(s).cores
    ensures var t := InWorkspace(s, i, RemoveFromWorkspace(s.workspaces[i], s.screen, s.env, v, false));
            BonesOf(t) == Taken(BonesOf(s), v, i) && SameRest(s, t) && Table(t).Keys == Table(s).Keys
  {
    hide RemoveFromWorkspace, WithoutView, Told, CoreOf, View.ChangeOutput, Cores;
    RemoveBones(s.workspaces[i], s.screen, s.env, v, false);
    InWorkspaceBones(s, i, RemoveFromWorkspace(s.workspaces[i], s.screen, s.env, v, false));
    CoreApart(s, v);
    CoreToldApart(Table(s)[v], s.workspaces[i].output, None);
    CoreEvents(Table(s)[v]);
  }

  lemma CoreEvents(view: View)
    ensures CoreOf(view).events == view.events
  {
  }

  lemma GivenBones(s: State, v: ViewId, j: nat, floating: bool)
    requires v in Table(s) && j < |s.workspaces| && s.workspaces[j].index == j
    ensures j < |BonesOf(s).ws| && v in BonesOf(s).cores
    ensures var t := InWorkspace(s, j, AddView(s.workspaces[j], s.screen, s.env, v, None, floating, false));
            BonesOf(t) == Given(BonesOf(s), v, j, floating) && SameRest(s, t) && Table(t).Keys == Table(s).Keys
  {
    hide AddView, WithView, Told, CoreOf, View.ChangeOutput, Cores;
    AddViewBones(s.workspaces[j], s.screen, s.env, v, None, floating, false);
    InWorkspaceBones(s, j, AddView(s.workspaces[j], s.screen, s.env, v, None, floating, false));
    CoreApart(s, v);
    GivenCore(Table(s)[v], j, s.workspaces[j].output);
  }

  lemma GivenCore(view: View, j: nat, output: Option<OutputId>)
    ensures CoreOf(view.(workspaceId := j).ChangeOutput(None, output)) ==
            CoreOf(view).(workspaceId := j, events := Told(CoreOf(view).events, None, output))
  {
  }

  lemma HandedShape(b: Bones, v: ViewId, i: nat, j: nat)
    requires v in b.cores && i < |b.ws| && j < |b.ws| && i != j
    ensures |Handed(b, v, j).ws| == |b.ws| && v in Handed(b, v, j).cores
    ensures var t := Taken(Handed(b, v, j), v, i);
            |t.ws| == |b.ws| && v in t.cores && t.ws[j].index == b.ws[j].index
  {
  }

  lemma BonesIndex(s: State, j: nat)
    requires j < |s.workspaces|
    ensures j < |BonesOf(s).ws| && BonesOf(s).ws[j].index == s.workspaces[j].index
  {
  }

  lemma TransplantedBones(s: State, v: ViewId, j: nat)
    requires BonesOk(BonesOf(s)) && Located(s, v) && Table(s)[v].mapped && j < |s.workspaces| && Home(s, v) != j
    ensures var i := Home(s, v);
            var b := BonesOf(s);
            var t := Transplanted(s, v, j);
            && j < |b.ws| && i < |b.ws| && v in b.cores && v in Handed(b, v, j).cores
               && v in Taken(Handed(b, v, j), v, i).cores
            && BonesOf(t) == Given(Taken(Handed(b, v, j), v, i), v, j, v in s.workspaces[i].floating)
            && SameRest(s, t)
  {
    hide Placement, FullscreenOk, Assigned, Balanced, BonesOf, HandOverFullscreen, PulledOnto, RemoveFromWorkspace,
      AddView, Handed, Taken, Given;
    var i := Home(s, v);
    var floating := v in s.workspaces[i].floating;
    HandedBones(s, v, j);
    var s1 := HandOverFullscreen(s, v, j);
    BonesApart(s); BonesApart(s1);
    HandedShape(BonesOf(s), v, i, j);
    PulledBones(s1, v, j);
    var s2 := if floating && Table(s)[v].expansion != Fullscreen then PulledOnto(s1, v, j) else s1;
    TakenBones(s2, v, i);
    var s3 := InWorkspace(s2, i, RemoveFromWorkspace(s2.workspaces[i], s2.screen, s2.env, v, false));
    IndexIsPlace(s, j);
    BonesIndex(s, j);
    BonesIndex(s3, j);
    GivenBones(s3, v, j, floating);
  }

  lemma TransplantKeepsInv(s: State, v: ViewId, j: nat)
    requires Inv(s) && Located(s, v) && Table(s)[v].mapped && j < |s.workspaces| && Home(s, v) != j
    ensures Inv(Transplanted(s, v, j)) && |Transplanted(s, v, j).workspaces| == |s.workspaces|
  {
    hide BonesOk, BonesOf, Transplanted, Handed, Taken, Given;
    var i := Home(s, v);
    var b := BonesOf(s);
    TransplantedBones(s, v, j);
    CoreApart(s, v);
    var floating := v in s.workspaces[i].floating;
    TransplantingKeeps(b, v, i, j, floating);
    TransplantedSeats(b, v, i, j, floating);
    InvFromSameSeats(s, Transplanted(s, v, j));
    BonesApart(s); BonesApart(Transplanted(s, v, j));
  }

  lemma TransplantedSeats(b: Bones, v: ViewId, i: nat, j: nat, floating: bool)
    requires i < |b.ws| && j < |b.ws| && v in b.cores && v in Handed(b, v, j).cores
             && v in Taken(Handed(b, v, j), v, i).cores
    ensures SameSeats(b, Given(Taken(Handed(b, v, j), v, i), v, j, floating))
  {
    hide Told;
  }

  lemma FirstOfStack(s: State, i: int, skip: Option<ViewId>)
    requires FocusOk(s)
    ensures IsMapped(s, FirstOf(s.seat.focusStack, Table(s), i, skip), None)
  {
  }

  lemma ChangingWorkspaceKeeps(s: State, v: ViewId, j: nat)
    requires Inv(s) && v in Table(s) && Table(s)[v].mapped && j < |s.workspaces|
    ensures Inv(ChangeWorkspace(s, v, j))
  {
    hide BonesOk, BonesOf, Transplanted, StackOk, IsMapped, FocusView;
    MappedIsLocated(s, v);
    if Home(s, v) != j {
      TransplantKeepsInv(s, v, j);
      var s1 := Transplanted(s, v, j);
      var i := s1.workspaces[Home(s, v)].index;
      FirstOfStack(s1, i, Some(v));
      FocusingKeeps(s1, FirstOf(s1.seat.focusStack, Table(s1), i, Some(v)), false);
    }
  }

  // ---------------------------------------------------------------------------------------
  // Commands on the focused view
  // ---------------------------------------------------------------------------------------

  lemma FocusedIsLocated(s: State)
    requires Inv(s) && FocusedView(s).Some?
    ensures Located(s, FocusedView(s).value) && Table(s)[FocusedView(s).value].mapped
  {
    MappedIsLocated(s, FocusedView(s).value);
  }

  lemma SwappedBones(s: State, v: ViewId, fullscreen: bool)
    requires v in Table(s) && (fullscreen ==> Table(s)[v].saved.Some?)
    ensures var t := SizesSwapped(s, v, fullscreen);
            && t.workspaces == s.workspaces && t.env == s.env && SameRest(s, t) && v in Table(t)
            && CoreOf(Table(t)[v]) == CoreOf(Table(s)[v]).(saved := Table(t)[v].saved)
            && Table(t)[v].saved.Some? == Table(s)[v].saved.Some?
            && Cores(Table(t)) == Cores(Table(s))[v := CoreOf(Table(t)[v])]
  {
    CoresUpdate(Table(s), v, Table(SizesSwapped(s, v, fullscreen))[v]);
  }

  /** Taking a view out and putting it back in, in the middle of which nobody is told. */
  lemma RefloatedBones(s: State, v: ViewId, i: nat)
    requires v in Table(s) && i < |s.workspaces| && (s.workspaces[i].fullscreen == Some(v) ==> Table(s)[v].saved.Some?)
    ensures i < |BonesOf(s).ws|
    ensures var b, t := BonesOf(s), Refloated(s, v, i);
            && SameRest(s, t) && v in Table(t) && Table(t)[v].saved.Some? == Table(s)[v].saved.Some?
            && BonesOf(t).cores == b.cores[v := CoreOf(Table(s)[v]).(saved := Table(t)[v].saved)]
            && exists nextTo, floating ::
                 BonesOf(t).ws == b.ws[i := WithView(WithoutView(b.ws[i], v), v, nextTo, floating)]
  {
    hide SizesSwapped, RemoveFromWorkspace, AddView, WithView, WithoutView, CoreOf, Cores, LastTile;
    var floating := v in s.workspaces[i].floating;
    var fullscreen := s.workspaces[i].fullscreen == Some(v);
    SwappedBones(s, v, fullscreen);
    var s1 := SizesSwapped(s, v, fullscreen);
    RemoveBones(s1.workspaces[i], s1.screen, s1.env, v, true);
    InWorkspaceBones(s1, i, RemoveFromWorkspace(s1.workspaces[i], s1.screen, s1.env, v, true));
    var s2 := InWorkspace(s1, i, RemoveFromWorkspace(s1.workspaces[i], s1.screen, s1.env, v, true));
    var last := LastTile(s2.workspaces[i].columns);
    AddViewBones(s2.workspaces[i], s2.screen, s2.env, v, last, !floating, true);
    InWorkspaceBones(s2, i, AddView(s2.workspaces[i], s2.screen, s2.env, v, last, !floating, true));
    var t := Refloated(s, v, i);
    assert Cores(Table(t)) == Cores(Table(s1));
    CoresAt(Table(t), v);
    CoresAt(Table(s1), v);
    SavedApart(Table(t)[v], Table(s1)[v]);
    BonesApart(s);
    assert BonesOf(t).ws == BonesOf(s).ws[i := WithView(WithoutView(BonesOf(s).ws[i], v), v, last, !floating)];
  }

  lemma SavedApart(a: View, b: View)
    requires CoreOf(a) == CoreOf(b)
    ensures a.saved == b.saved
  {
  }

  lemma RefloatingKeepsInv(s: State, v: ViewId)
    requires Inv(s) && Located(s, v) && Table(s)[v].mapped
    ensures Inv(Refloated(s, v, Home(s, v)))
  {
    hide Placement, FullscreenOk, Assigned, Balanced, BonesOf, Refloated, WithView, WithoutView, StackOk;
    var i := Home(s, v);
    var t := Refloated(s, v, i);
    BonesApart(s);
    CoreApart(s, v);
    FullscreenIsSaved(s, i, v);
    RefloatedBones(s, v, i);
    var b := BonesOf(s);
    var nextTo, floating :| BonesOf(t).ws == b.ws[i := WithView(WithoutView(b.ws[i], v), v, nextTo, floating)];
    BonesApart(t);
    RefloatingKeeps(b, BonesOf(t), i, v, nextTo, floating);
    SameOutputs(b.ws[i], v, nextTo, floating);
    InvFromSameSeats(s, t);
  }

  lemma SameOutputs(w: WorkspaceState, v: ViewId, nextTo: Option<ViewId>, floating: bool)
    ensures WithView(WithoutView(w, v), v, nextTo, floating).output == w.output
  {
  }

  lemma FullscreenIsSaved(s: State, i: nat, v: ViewId)
    requires BonesOk(BonesOf(s)) && i < |s.workspaces|
    ensures s.workspaces[i].fullscreen == Some(v) ==> v in Table(s) && Table(s)[v].saved.Some?
  {
    hide Placement, Assigned, Balanced;
    if s.workspaces[i].fullscreen == Some(v) {
      assert BonesOf(s).ws[i].fullscreen == Some(v);
      CoresTell(s, v);
    }
  }

  lemma TogglingKeeps(s: State)
    requires Inv(s)
    ensures Inv(ToggleFloating(s))
  {
    hide Inv, Refloated, Show, FirstOf;
    var focused := FocusedView(s);
    if focused.Some? {
      FocusedIsLocated(s);
      var v := focused.value;
      var i := Home(s, v);
      RefloatingKeepsInv(s, v);
      var s1 := Refloated(s, v, i);
      ShowingKeeps(s1, v, false);
      var previous := FirstOf(s1.seat.focusStack, Table(s1), i, Some(v));
      if previous.Some? {
        ShowingKeeps(s1, previous.value, true);
      }
    }
  }

  /** The views of one workspace change places, and nothing else happens. */
  lemma RearrangedInv(s: State, t: State, i: nat, w: WorkspaceState)
    requires Inv(s) && i < |s.workspaces| && NoEmptyColumn(w.columns)
    requires w == Skeleton(s.workspaces[i]).(columns := w.columns, floating := w.floating)
    requires forall u :: Occurrences(w, u) == Occurrences(s.workspaces[i], u)
    requires SameRest(s, t) && BonesOf(t) == BonesOf(s).(ws := BonesOf(s).ws[i := w])
    ensures Inv(t)
  {
    hide Placement, FullscreenOk, Assigned, Balanced, Occurrences, StackOk;
    IndexIsPlace(s, i);
    forall u
      ensures Occurrences(w, u) == Occurrences(BonesOf(s).ws[i], u)
    {
      SameListsSameOccurrences(s.workspaces[i], BonesOf(s).ws[i], u);
    }
    RearrangingKeeps(BonesOf(s), BonesOf(t), i, w);
    InvFromSameSeats(s, t);
  }

  /** The state of a tiled move before the view that came to the top is shown. */
  function Stepped(s: State, v: ViewId, i: nat, dx: int, dy: int): State
    requires i < |s.workspaces| && FindColumn(s.workspaces[i].columns, v) < |s.workspaces[i].columns|
  {
    var cols := Moved(s.workspaces[i].columns, v, dx, dy).0;
    ArrangeIn(s.(workspaces := s.workspaces[i := s.workspaces[i].(columns := cols)]), i)
  }

  lemma SteppingKeeps(s: State, v: ViewId, i: nat, dx: int, dy: int)
    requires Inv(s) && i < |s.workspaces| && FindColumn(s.workspaces[i].columns, v) < |s.workspaces[i].columns|
    ensures Inv(Stepped(s, v, i, dx, dy)) && |Stepped(s, v, i, dx, dy).workspaces| == |s.workspaces|
  {
    hide BonesOf, ArrangeIn, Moved, FindColumn, FullscreenOk, Assigned, Balanced, StackOk;
    var old' := s.workspaces[i];
    var w := old'.(columns := Moved(old'.columns, v, dx, dy).0);
    PlacedIsDistinct(s, i);
    MoveIsAPermutation(old'.columns, v, dx, dy);
    forall u
      ensures Occurrences(Skeleton(w), u) == Occurrences(old', u)
    {
      assert Count(w.columns, u) == Count(old'.columns, u);
    }
    var s1 := s.(workspaces := s.workspaces[i := w]);
    InWorkspaceBones(s, i, (w, s.screen));
    ArrangeInKeepsBones(s1, i);
    BonesApart(s); BonesApart(s1); BonesApart(Stepped(s, v, i, dx, dy));
    RearrangedInv(s, Stepped(s, v, i, dx, dy), i, Skeleton(w));
  }

  lemma MovingTiledKeeps(s: State, v: ViewId, i: nat, dx: int, dy: int)
    requires Inv(s) && i < |s.workspaces| && FindColumn(s.workspaces[i].columns, v) < |s.workspaces[i].columns|
    ensures Inv(MoveTiled(s, v, i, dx, dy))
  {
    hide Inv, Moved, FindColumn, ArrangeIn, FitView;
    SteppingKeeps(s, v, i, dx, dy);
    var s1 := Stepped(s, v, i, dx, dy);
    var (cols, c) := Moved(s.workspaces[i].columns, v, dx, dy);
    if cols[c] != [] {
      FittingKeeps(s1, i, cols[c][0].view, false);
    }
  }

  lemma FittingKeeps(s: State, i: nat, v: ViewId, condense: bool)
    requires Inv(s) && i < |s.workspaces|
    ensures Inv(InWorkspace(s, i, FitView(s.workspaces[i], s.screen, s.env, v, condense)))
  {
    hide BonesOk, StackOk, FitView;
    var r := FitView(s.workspaces[i], s.screen, s.env, v, condense);
    FitKeeps(s.workspaces[i], s.screen, s.env, v, condense);
    InWorkspaceBones(s, i, r);
    assert BonesOf(InWorkspace(s, i, r)).ws == BonesOf(s).ws;
    SameBonesKeep(s, InWorkspace(s, i, r));
  }

  lemma PuttingKeeps(s: State, v: ViewId, view: View)
    requires Inv(s) && v in Table(s) && CoreOf(view) == CoreOf(Table(s)[v])
    ensures Inv(WithTable(s, Table(s)[v := view])) && BonesOf(WithTable(s, Table(s)[v := view])) == BonesOf(s)
  {
    hide BonesOk, StackOk, CoreOf;
    var t := WithTable(s, Table(s)[v := view]);
    CoresUpdate(Table(s), v, view);
    assert BonesOf(t).ws == BonesOf(s).ws;
    SameBonesKeep(s, t);
  }

  lemma FloatingToKeeps(s: State, v: ViewId, x: int, y: int, under: Option<OutputId>)
    requires Inv(s) && Located(s, v) && Table(s)[v].mapped
    ensures Inv(FloatTo(s, v, x, y, under))
  {
    hide Inv, ChangeWorkspace;
    PuttingKeeps(s, v, Table(s)[v].Move(x, y));
    var s1 := WithTable(s, Table(s)[v := Table(s)[v].Move(x, y)]);
    var j := WorkspaceOn(s1.workspaces, under);
    if j < |s1.workspaces| {
      ChangingWorkspaceKeeps(s1, v, j);
    }
  }

  lemma MovingKeeps(s: State, dx: int, dy: int, under: Option<OutputId>)
    requires Inv(s)
    ensures Inv(MoveFocused(s, dx, dy, under))
  {
    hide Inv, MoveTiled, FloatTo, FindColumn;
    var focused := FocusedView(s);
    if focused.Some? {
      FocusedIsLocated(s);
      var v := focused.value;
      var i := Home(s, v);
      if FindColumn(s.workspaces[i].columns, v) < |s.workspaces[i].columns| {
        MovingTiledKeeps(s, v, i, dx, dy);
      } else {
        FloatingToKeeps(s, v, Table(s)[v].x + dx, Table(s)[v].y + dy, under);
      }
    }
  }

  predicate CanInsert(s: State)
  {
    var focused := FocusedView(s);
    focused.Some? && Located(s, focused.value) ==>
      FindColumn(s.workspaces[Home(s, focused.value)].columns,
                 focused.value) < |s.workspaces[Home(s, focused.value)].columns|
  }

  lemma AbsorbingKeeps(s: State, i: nat, v: ViewId, c: nat)
    requires Inv(s) && i < |s.workspaces| && v in Table(s)
    requires var cols := s.workspaces[i].columns;
             c < |cols| && FindColumn(cols, v) < |cols| && FindColumn(cols, v) != c
    ensures Inv(InWorkspace(s, i, InsertView(s.workspaces[i], s.screen, s.env, v, c)))
  {
    hide BonesOf, InsertView, InsertIntoColumn, FindColumn, FullscreenOk, Assigned, Balanced, StackOk, Occurrences,
      Without;
    var w := s.workspaces[i];
    var r := InsertView(w, s.screen, s.env, v, c);
    PlacedIsDistinct(s, i);
    AtMostOnceDue(BonesOf(s), i, v);
    InsertBones(w, s.screen, s.env, v, c);
    forall u
      ensures Occurrences(Skeleton(r.0), u) == Occurrences(w, u)
    {
      InsertedOccurrences(w, v, c, u);
      WithoutAbsent(w.floating, v);
      SameListsSameOccurrences(w.(columns := InsertIntoColumn(w.columns, v, c)), Skeleton(r.0), u);
    }
    InsertKeepsColumnsFull(w.columns, v, c);
    InWorkspaceBones(s, i, r);
    BonesApart(s); BonesApart(InWorkspace(s, i, r));
    RearrangedInv(s, InWorkspace(s, i, r), i, Skeleton(r.0));
  }

  lemma InsertingKeeps(s: State)
    requires Inv(s)
    ensures Inv(InsertFocused(s))
  {
    hide Inv, InsertView, FindColumn;
    if InsertFocused(s) != s {
      var v := FocusedView(s).value;
      var i := Home(s, v);
      var cols := s.workspaces[i].columns;
      AbsorbingKeeps(s, i, Absorbed(cols, Table(s), v).value, FindColumn(cols, v));
    }
  }

  /** Popping takes the bottom tile out and puts it back in. */
  lemma PopOccurrences(w: WorkspaceState, p: ViewId, nextTo: ViewId, u: ViewId)
    requires Occurrences(w, p) == 1
    ensures Occurrences(WithView(WithoutView(w, p), p, Some(nextTo), false), u) == Occurrences(w, u)
  {
    hide Occurrences, WithView, WithoutView;
    WithoutViewOccurrences(w, p, u);
    WithViewOccurrences(WithoutView(w, p), p, Some(nextTo), false, u);
  }

  lemma BottomOccurs(w: WorkspaceState, c: nat)
    requires c < |w.columns| && w.columns[c] != []
    ensures Occurrences(w, w.columns[c][|w.columns[c]| - 1].view) > 0
  {
    HoldsView(w.columns[c], |w.columns[c]| - 1);
    CountMember(w.columns, c, w.columns[c][|w.columns[c]| - 1].view);
  }

  lemma PoppingKeepsInv(s: State, i: nat, c: nat)
    requires Inv(s) && i < |s.workspaces| && c < |s.workspaces[i].columns|
    ensures Inv(InWorkspace(s, i, PopColumn(s.workspaces[i], s.screen, s.env, c)))
  {
    hide BonesOf, PopColumn, FullscreenOk, Assigned, Balanced, StackOk, Occurrences, WithView, WithoutView;
    var w := s.workspaces[i];
    var r := PopColumn(w, s.screen, s.env, c);
    PlacedIsDistinct(s, i);
    PopBones(w, s.screen, s.env, c);
    InWorkspaceBones(s, i, r);
    BonesApart(s); BonesApart(InWorkspace(s, i, r));
    var col := w.columns[c];
    forall u
      ensures Occurrences(Skeleton(r.0), u) == Occurrences(w, u)
    {
      SameListsSameOccurrences(w, Skeleton(w), u);
      if Skeleton(r.0) != Skeleton(w) {
        var p := col[|col| - 1].view;
        BottomOccurs(w, c);
        AtMostOnceDue(BonesOf(s), i, p);
        SameListsSameOccurrences(w, Skeleton(w), p);
        PopOccurrences(Skeleton(w), p, col[0].view, u);
      }
    }
    PopKeepsRest(Skeleton(w), Skeleton(r.0), c);
    RearrangedInv(s, InWorkspace(s, i, r), i, Skeleton(r.0));
  }

  lemma PopKeepsRest(w: WorkspaceState, w': WorkspaceState, c: nat)
    requires NoEmptyColumn(w.columns) && c < |w.columns|
    requires w' == w || (|w.columns[c]| >= 2 &&
               var p := w.columns[c][|w.columns[c]| - 1].view;
               w' == WithView(WithoutView(w, p), p, Some(w.columns[c][0].view), false))
    ensures NoEmptyColumn(w'.columns) && w' == w.(columns := w'.columns, floating := w'.floating)
  {
    hide RemoveView, AddColumn;
    var p := w.columns[c][|w.columns[c]| - 1].view;
    SurgeryKeepsColumnsFull(w.columns, p, None);
    SurgeryKeepsColumnsFull(RemoveView(w.columns, p), p, Some(w.columns[c][0].view));
  }

  lemma PoppingKeeps(s: State)
    requires Inv(s)
    ensures Inv(PopFocused(s))
  {
    hide Inv, PopColumn, FindColumn, Show;
    if PopFocused(s) != s {
      var v := FocusedView(s).value;
      var i := Home(s, v);
      var c := FindColumn(s.workspaces[i].columns, v);
      PoppingKeepsInv(s, i, c);
      ShowingKeeps(InWorkspace(s, i, PopColumn(s.workspaces[i], s.screen, s.env, c)), v, false);
    }
  }

  // ---------------------------------------------------------------------------------------
  // Commits and the focus
  // ---------------------------------------------------------------------------------------

  lemma CommitKeeps(s: State, v: ViewId, geometry: Box)
    requires Inv(s)
    ensures Inv(Commit(s, v, geometry))
  {
    hide Inv, ArrangeIn;
    if Commit(s, v, geometry) != s {
      RecoveringKeeps(s, v, geometry);
      ArrangingKeeps(WithTable(s, Table(s)[v := Table(s)[v].(geometry := geometry).Recover()]), Home(s, v));
    }
  }

  lemma ArrangingKeeps(s: State, i: nat)
    requires Inv(s) && i < |s.workspaces|
    ensures Inv(ArrangeIn(s, i))
  {
    hide BonesOk, BonesOf, StackOk, ArrangeIn;
    ArrangeInKeepsBones(s, i);
    SameBonesKeep(s, ArrangeIn(s, i));
  }

  lemma RecoveringKeeps(s: State, v: ViewId, geometry: Box)
    requires Inv(s) && v in Table(s)
    ensures Inv(WithTable(s, Table(s)[v := Table(s)[v].(geometry := geometry).Recover()]))
  {
    hide BonesOk, StackOk;
    var view := Table(s)[v].(geometry := geometry).Recover();
    if Table(s)[v].expansion == Recovering {
      var t := WithTable(s, Table(s)[v := view]);
      CoresUpdate(Table(s), v, view);
      assert BonesOf(t).ws == BonesOf(s).ws;
      CommittingKeeps(BonesOf(s), BonesOf(t), v);
      InvFromSameSeats(s, t);
    } else {
      PuttingKeeps(s, v, view);
    }
  }

  /** The focus stack may be reordered. */
  lemma ReorderingKeeps(s: State, stack: seq<ViewId>)
    requires Inv(s) && NoDuplicates(stack) && forall v | v in stack :: v in s.seat.focusStack
    ensures Inv(s.(seat := s.seat.(focusStack := stack)))
  {
    hide BonesOk, NoDuplicates;
    SeatIsNoBone(s, s.(seat := s.seat.(focusStack := stack)));
  }

  lemma SecondToBackReorders(stack: seq<ViewId>)
    requires |stack| >= 2 && NoDuplicates(stack)
    ensures NoDuplicates(SecondToBack(stack)) && forall v | v in SecondToBack(stack) :: v in stack
  {
  }

  lemma CyclingKeeps(s: State)
    requires Inv(s)
    ensures Inv(FocusCycle(s))
  {
    hide BonesOk, BonesOf, FocusView, FocusedWorkspace;
    var i := FocusedWorkspace(s);
    if i.Some? && s.seat.focusStack != [] {
      var next := FirstOf(s.seat.focusStack[1..], Table(s), s.workspaces[i.value].index, None);
      if next.Some? {
        FocusingKeeps(s, next, false);
        var s1 := FocusView(s, next, false);
        if |s1.seat.focusStack| >= 2 {
          SecondToBackReorders(s1.seat.focusStack);
          ReorderingKeeps(s1, SecondToBack(s1.seat.focusStack));
        }
      }
    }
  }

  lemma FocusingColumnKeeps(s: State, i: nat, c: nat)
    requires Inv(s) && i < |s.workspaces| && c < |s.workspaces[i].columns|
    ensures Inv(FocusColumn(s, i, c))
  {
    hide BonesOk, BonesOf, FocusView;
    FocusingKeeps(s, FirstTiled(s.seat.focusStack, s.workspaces[i].columns[c], Table(s)), false);
  }

  lemma UnmappingLayerKeeps(s: State, layer: LayerId)
    requires Inv(s) && layer in s.layers
    ensures Inv(UnmapLayer(s, layer))
  {
    hide BonesOk, FocusLayer, StackOk;
    if s.seat.focusedLayer == Some(layer) {
      FocusingLayerKeeps(s, None);
    }
    var s1 := if s.seat.focusedLayer == Some(layer) then FocusLayer(s, None) else s;
    LayersAside(s1, s1.layers[layer := s1.layers[layer].(mapped := false)]);
  }

  lemma LayersAside(s: State, layers: map<LayerId, LayerInfo>)
    requires Inv(s) && (s.seat.focusedLayer.Some?
                        ==> s.seat.focusedLayer.value in layers && layers[s.seat.focusedLayer.value].mapped)
    ensures Inv(s.(layers := layers))
  {
    hide BonesOk, NoDuplicates;
    assert BonesOf(s.(layers := layers)) == BonesOf(s);
  }

  lemma ExclusiveAside(s: State, client: Option<nat>)
    requires Inv(s)
    ensures Inv(s.(seat := s.seat.(exclusiveClient := client)))
  {
    hide BonesOk, NoDuplicates;
    SeatIsNoBone(s, s.(seat := s.seat.(exclusiveClient := client)));
  }

  lemma SettingExclusiveClientKeeps(s: State, client: Option<nat>)
    requires Inv(s)
    ensures Inv(SetExclusiveClient(s, client))
  {
    hide Inv, FocusLayer, FocusView;
    if client.Some? {
      FocusingLayerKeeps(s, None);
      FocusingKeeps(ReleasedLayer(s, client.value), None, false);
      ExclusiveAside(ReleasedView(ReleasedLayer(s, client.value), client.value), client);
    } else {
      ExclusiveAside(s, client);
    }
  }

  // ---------------------------------------------------------------------------------------
  // Outputs and workspaces
  // ---------------------------------------------------------------------------------------

  lemma OutputBones(s: State, t: State)
    requires t == s.(env := t.env, seat := t.seat)
    ensures BonesOf(t) == BonesOf(s).(outputs := t.env.outputs.Keys)
  {
    assert BonesOf(t).ws == BonesOf(s).ws;
  }

  /** What is left to show after workspaces changed outputs. */
  lemma InvFromAssignment(s: State, t: State)
    requires Inv(s) && PlacedAndTold(BonesOf(t)) && Assigned(BonesOf(t))
    requires Intact(s.screen, t.screen) && t.layers == s.layers
    requires t.seat == s.seat.(cursor := t.seat.cursor)
    requires SameMapped(BonesOf(s), BonesOf(t))
    ensures Inv(t)
  {
    hide Placement, FullscreenOk, Assigned, Balanced, NoDuplicates;
    StackCores(s);
  }

  lemma SwitchedKeepsMapped(b: Bones, i: nat, after: Option<OutputId>)
    requires i < |b.ws|
    ensures Switched(b, i, after).cores.Keys == b.cores.Keys
    ensures forall v | v in b.cores :: Switched(b, i, after).cores[v].mapped == b.cores[v].mapped
  {
  }

  /** The desktop with a workspace for a new output. */
  function WithFreeWorkspace(s: State, o: OutputId, info: OutputInfo): State
  {
    var s1 := s.(env := s.env.(outputs := s.env.outputs[o := info]));
    if WorkspaceOn(s1.workspaces, None) < |s1.workspaces| then s1
    else s1.(workspaces := s1.workspaces + [EmptyWorkspace(|s1.workspaces|)])
  }

  lemma FreeWorkspaceBones(s: State, o: OutputId, info: OutputInfo)
    requires BonesOk(BonesOf(s))
    ensures var i := WorkspaceOn(s.workspaces, None);
            var t := WithFreeWorkspace(s, o, info);
            var b := BonesOf(t).(outputs := BonesOf(s).outputs);
            && BonesOf(t).outputs == BonesOf(s).outputs + {o} && BonesOk(b) && b.cores == BonesOf(s).cores
            && b.pending == BonesOf(s).pending
            && i < |t.workspaces| && |b.ws| == |t.workspaces| && b.ws[i].output == None
            && AddOutput(s, o, info) == InWorkspace(t, i, Activate(t.workspaces[i], t.screen, o))
  {
    hide BonesOk;
    var i := WorkspaceOn(s.workspaces, None);
    var t := WithFreeWorkspace(s, o, info);
    if i == |s.workspaces| {
      NewWorkspaceKeeps(BonesOf(s));
      assert BonesOf(t).ws == BonesOf(s).ws + [EmptyWorkspace(|s.workspaces|)];
    } else {
      assert BonesOf(t).ws == BonesOf(s).ws;
    }
  }

  lemma AddingOutputKeeps(s: State, o: OutputId, info: OutputInfo)
    requires Inv(s) && o !in s.env.outputs
    ensures Inv(AddOutput(s, o, info))
  {
    hide Placement, FullscreenOk, Assigned, Balanced, BonesOf, WithFreeWorkspace, Activate, ToldCores, WorkspaceOn,
      StackOk;
    var i := WorkspaceOn(s.workspaces, None);
    var t := WithFreeWorkspace(s, o, info);
    FreeWorkspaceBones(s, o, info);
    BonesApart(s); BonesApart(t);
    var b := BonesOf(t).(outputs := BonesOf(s).outputs);
    OutputsAside(b, BonesOf(t).outputs, b.pending);
    assert BonesOf(t) == b.(outputs := BonesOf(t).outputs);
    ActivateBones(t, i, o);
    SwitchingKeeps(BonesOf(t), i, Some(o));
    SwitchedKeepsMapped(BonesOf(t), i, Some(o));
    var u := AddOutput(s, o, info);
    AssignmentOfNewOutput(b, BonesOf(u), i, o);
    AddedRest(s, o, info);
    InvFromAssignment(s, u);
  }

  lemma AddedRest(s: State, o: OutputId, info: OutputInfo)
    ensures var t := AddOutput(s, o, info);
            && Unharmed(s.screen, t.screen) && t.layers == s.layers && t.seat == s.seat
  {
    hide Notified, AllViews, WorkspaceOn;
  }

  /** No other workspace is on the output of the first one on it. */
  ghost predicate NotShared(ws: seq<WorkspaceState>, o: OutputId)
  {
    forall j | 0 <= j < |ws| && j != WorkspaceOn(ws, Some(o)) :: ws[j].output != Some(o)
  }

  /** Just one workspace, at most, is on the output, and no switch to that output is being animated. */
  ghost predicate CanDestroy(s: State, o: OutputId)
  {
    NotShared(s.workspaces, o) && forall n: nat :: Pending(s.screen.tasks)[ArrivalOf(n, o)] == 0
  }

  lemma DestroyingOutputKeeps(s: State, o: OutputId)
    requires Inv(s) && CanDestroy(s, o)
    ensures Inv(DestroyOutput(s, o))
  {
    hide Placement, FullscreenOk, Assigned, Balanced, BonesOf, Deactivate, ToldCores, StackOk;
    var i := WorkspaceOn(s.workspaces, Some(o));
    var b := BonesOf(s);
    var s1 := if i == |s.workspaces| then s else InWorkspace(s, i, Deactivate(s.workspaces[i], s.screen));
    BonesApart(s);
    WorkspaceOnBones(s, Some(o));
    if i < |s.workspaces| {
      DeactivateBones(s, i);
      SwitchingKeeps(b, i, None);
      SwitchedKeepsMapped(b, i, None);
      DeactivatedRest(s, i);
    }
    BonesApart(s1);
    var t := DestroyOutput(s, o);
    OutputBones(s1, t);
    OutputsAside(BonesOf(s1), t.env.outputs.Keys, b.pending);
    OutputsOf(s);
    AssignmentOfLostOutput(b, BonesOf(t), i, o);
    InvFromAssignment(s, t);
  }

  lemma WorkspaceOnBones(s: State, output: Option<OutputId>)
    ensures var i := WorkspaceOn(s.workspaces, output);
            var b := BonesOf(s);
            if i < |s.workspaces| then b.ws[i].output == output
              else forall j | 0 <= j < |b.ws| :: b.ws[j].output != output
  {
  }

  lemma OutputsOf(s: State)
    ensures |BonesOf(s).ws| == |s.workspaces| && forall i | 0 <= i < |s.workspaces| ::
            BonesOf(s).ws[i].output == s.workspaces[i].output
  {
  }

  lemma DeactivatedRest(s: State, i: nat)
    requires i < |s.workspaces|
    ensures SameRest(s, InWorkspace(s, i, Deactivate(s.workspaces[i], s.screen)))
  {
    hide Notified, AllViews;
  }

  lemma {:induction false} PutOffKeepsCores(views: ViewTable, ids: seq<ViewId>, dy: int)
    ensures Cores(PutOff(views, ids, dy)) == Cores(views)
  {
    if ids == [] {
    } else {
      var front := PutOff(views, ids[..|ids| - 1], dy);
      PutOffKeepsCores(views, ids[..|ids| - 1], dy);
      var v := ids[|ids| - 1];
      if v in front {
        CoresUpdate(front, v, front[v].Move(front[v].x, front[v].y + dy));
      }
    }
  }

  /** Only the last animation of a slide wants something done. */
  lemma {:induction false} SlideTasksWish(views: ViewTable, ids: seq<ViewId>, dy: int, now: Time, callback: Callback)
    requires forall v | v in ids :: v in views
    ensures TasksKnown(views, SlideTasks(views, ids, dy, now, callback))
    ensures Pending(SlideTasks(views, ids, dy, now, callback)) ==
            if ids == [] || callback == Silent then multiset{} else multiset{callback}
  {
    hide Pending;
    if ids == [] {
      NothingPending();
    } else {
      var v := ids[|ids| - 1];
      var last := TaskFor(views, v, views[v].x, views[v].y - dy, now, callback);
      SlideTasksWish(views, ids[..|ids| - 1], dy, now, Silent);
      PendingConcat(SlideTasks(views, ids[..|ids| - 1], dy, now, Silent), [last]);
      PendingOne(last);
    }
  }

  lemma NothingPending()
    ensures Pending([]) == multiset{}
  {
  }

  lemma SlidingIsHarmless(s: Screen, ids: seq<ViewId>, dy: int, now: Time, callback: Callback)
    requires ids != [] ==> callback != Silent
    requires forall v | v in ids :: v in s.views
    ensures forall t | t == SlidIn(s, ids, dy, now, callback) || t == SlidOut(s, ids, dy, now, callback) ::
              && Intact(s, t) && |s.tasks| <= |t.tasks| && Cores(t.views) == Cores(s.views)
                 && t.views.Keys == s.views.Keys
              && Pending(t.tasks) == Pending(s.tasks) + if ids == [] then multiset{} else multiset{callback}
  {
    hide Pending, SlideTasks;
    PutOffKeepsCores(s.views, ids, dy);
    forall views | views == s.views || views == PutOff(s.views, ids, dy)
      ensures var more := SlideTasks(views, ids, dy, now, callback);
              TasksKnown(views, more)
              && Pending(s.tasks + more) == Pending(s.tasks) + if ids == [] then multiset{} else multiset{callback}
    {
      SlideTasksWish(views, ids, dy, now, callback);
      PendingConcat(s.tasks, SlideTasks(views, ids, dy, now, callback));
    }
  }

  /** Only the screen differs, and in it only positions and animations. */
  lemma ScreenBones(s: State, t: State)
    requires t == s.(screen := t.screen) && Cores(Table(t)) == Cores(Table(s))
    ensures BonesOf(t) == BonesOf(s).(pending := Pending(t.screen.tasks))
  {
    assert BonesOf(t).ws == BonesOf(s).ws;
  }

  lemma {:induction false} NormalTilesKnown(cols: seq<Column>, views: ViewTable, c: nat)
    requires c <= |cols|
    ensures forall v | v in NormalTiles(cols, views, c) :: v in views
  {
    if c == 0 {
    } else {
      NormalTilesKnown(cols, views, c - 1);
      NormalInKnown(cols[c - 1], views, |cols[c - 1]|);
    }
  }

  lemma {:induction false} NormalInKnown(col: Column, views: ViewTable, t: nat)
    requires t <= |col|
    ensures forall v | v in NormalIn(col, views, t) :: v in views
  {
    if t == 0 {
    } else {
      NormalInKnown(col, views, t - 1);
    }
  }

  lemma SlidingKnown(s: State, n: nat, p: nat)
    requires n < |s.workspaces| && p < |s.workspaces| && Placement(BonesOf(s))
    ensures forall v | v in Sliding(s, n, p) :: v in Table(s)
  {
    hide Placement, NormalTiles, BonesOf, Distinct, Occurrences;
    PlacedIsDistinct(s, p);
    NormalTilesKnown(s.workspaces[n].columns, Table(s), |s.workspaces[n].columns|);
    forall v | v in s.workspaces[p].floating
      ensures v in Table(s)
    {
      CountWithin(s.workspaces[p], v);
      BonesApart(s);
    }
  }

  lemma SlidingInBones(s: State, n: nat, p: nat, o: OutputId, dy: int)
    requires n < |s.workspaces| && p < |s.workspaces| && Placement(BonesOf(s))
    ensures var t := SlideIn(s, n, p, o, dy);
            && t == s.(screen := t.screen) && Intact(s.screen, t.screen)
            && BonesOf(t) == BonesOf(s).(pending := BonesOf(s).pending +
                               if Sliding(s, n, p) == [] then multiset{} else multiset{ArrivalOf(n, o)})
  {
    hide SlidIn, Pending, Placement, Sliding;
    SlidingKnown(s, n, p);
    SlidingIsHarmless(s.screen, Sliding(s, n, p), dy, s.env.now, ArrivalOf(n, o));
    ScreenBones(s, SlideIn(s, n, p, o, dy));
  }

  lemma SlidingOutBones(s: State, p: nat, dy: int)
    requires p < |s.workspaces| && Placement(BonesOf(s)) && s.workspaces[p].output.Some?
    ensures var t := SlideOut(s, p, dy);
            && t == s.(screen := t.screen, workspaces := t.workspaces) && Intact(s.screen, t.screen)
            && |t.workspaces| == |s.workspaces|
            && BonesOf(t) == if Sliding(s, p, p) == [] then Switched(BonesOf(s), p, None)
                             else BonesOf(s).(pending := BonesOf(s).pending + multiset{DepartureOf(p)})
  {
    hide SlidOut, Deactivate, Placement, BonesOf, ToldCores, Sliding, Pending;
    var ids := Sliding(s, p, p);
    var t := SlideOut(s, p, dy);
    BonesApart(s);
    if ids != [] {
      SlidingKnown(s, p, p);
      SlidingIsHarmless(s.screen, ids, dy, s.env.now, DepartureOf(p));
      ScreenBones(s, t);
    } else {
      DeactivateBones(s, p);
      DeactivatedRest(s, p);
    }
  }

  lemma EnteredBones(s: State, n: nat, p: nat)
    requires n < |s.workspaces| && p < |s.workspaces| && s.workspaces[p].output.Some? && Placement(BonesOf(s))
    ensures BonesOf(Entered(s, n, p)) == Switched(BonesOf(s), n, s.workspaces[p].output)
    ensures SameRest(s, Entered(s, n, p)) && |Entered(s, n, p).workspaces| == |s.workspaces|
  {
    hide Placement, BonesOf, Activate, ToldCores, Arrange;
    var o := s.workspaces[p].output.value;
    ActivateBones(s, n, o);
    ActivatedRest(s, n, o);
    LaidOutBones(InWorkspace(s, n, Activate(s.workspaces[n], s.screen, o)), n);
  }

  /** The state in which the workspace that comes in has been put off, but the other one is still there. */
  function SlidingIn(s: State, n: nat, p: nat): State
    requires n < |s.workspaces| && p < |s.workspaces| && s.workspaces[p].output.Some?
  {
    SlideIn(Entered(s, n, p), n, p, s.workspaces[p].output.value, SlideBy(s, n, p))
  }

  /** From b to b' only what is to be done differs, and only by arrivals of workspace n on an output. */
  ghost predicate MayArrive(b: Bones, b': Bones, n: nat, o: OutputId)
  {
    && b' == b.(pending := b'.pending)
    && (b'.pending == b.pending || b'.pending == b.pending + multiset{ArrivalOf(n, o)})
  }

  lemma SlidingInIs(s: State, n: nat, p: nat)
    requires Inv(s) && n < |s.workspaces| && p < |s.workspaces|
    requires s.workspaces[n].output.None? && s.workspaces[p].output.Some?
    ensures var t := SlidingIn(s, n, p);
            && t == s.(screen := t.screen, workspaces := t.workspaces) && Intact(s.screen, t.screen)
            && |t.workspaces| == |s.workspaces|
               && t.workspaces[n].output == t.workspaces[p].output == s.workspaces[p].output
            && MayArrive(Switched(BonesOf(s), n, s.workspaces[p].output), BonesOf(t), n, s.workspaces[p].output.value)
            && PlacedAndTold(BonesOf(t))
  {
    hide Placement, FullscreenOk, Assigned, Balanced, BonesOf, ToldCores, SlideIn, Sliding, StackOk, Pending,
      Notified, AllViews;
    var b := BonesOf(s);
    var o := s.workspaces[p].output;
    BonesApart(s);
    EnteredBones(s, n, p);
    SwitchingKeeps(b, n, o);
    var s2 := Entered(s, n, p);
    SlidingInBones(s2, n, p, o.value, SlideBy(s, n, p));
    var s3 := SlidingIn(s, n, p);
    OutputsAside(BonesOf(s2), BonesOf(s2).outputs, BonesOf(s3).pending);
    assert BonesOf(s2).pending + multiset{} == BonesOf(s2).pending;
  }

  /** What a takeover does to the assignment. */
  lemma TakenOverBones(s: State, n: nat, p: nat)
    requires Inv(s) && n < |s.workspaces| && p < |s.workspaces|
    requires s.workspaces[n].output.None? && s.workspaces[p].output.Some?
    ensures var t := TakeOver(s, n, p);
            && t == s.(screen := t.screen, workspaces := t.workspaces) && Intact(s.screen, t.screen)
            && |t.workspaces| == |s.workspaces| && t.workspaces[n].output == s.workspaces[p].output
            && TakenOver(BonesOf(s), BonesOf(t), n, p) && PlacedAndTold(BonesOf(t))
            && SameMapped(BonesOf(s), BonesOf(t))
  {
    hide Placement, FullscreenOk, Assigned, Balanced, BonesOf, ToldCores, SlidingIn, SlideOut, Sliding, StackOk,
      Pending, PlacedAndTold, TakenOver, MayArrive, Intact;
    var b := BonesOf(s);
    SlidingInIs(s, n, p);
    var s3 := SlidingIn(s, n, p);
    var dy := SlideBy(s, n, p);
    ToldIsPlaced(BonesOf(s3));
    SlidingOutBones(s3, p, dy);
    var t := TakeOver(s, n, p);
    TakeOverIs(s, n, p);
    BonesApart(s);
    BonesApart(s3);
    OutputAt(s, n); OutputAt(s, p);
    LeavingKeepsTold(BonesOf(s3), BonesOf(t), p);
    TakenOverParts(b, BonesOf(s3), BonesOf(t), n, p);
    IntactTwice(s.screen, s3.screen, t.screen);
    BonesApart(t);
    OutputAt(t, n);
  }

  lemma ToldIsPlaced(b: Bones)
    requires PlacedAndTold(b)
    ensures Placement(b)
  {
  }

  lemma TakeOverIs(s: State, n: nat, p: nat)
    requires n < |s.workspaces| && p < |s.workspaces| && s.workspaces[p].output.Some?
    ensures TakeOver(s, n, p) == SlideOut(SlidingIn(s, n, p), p, SlideBy(s, n, p))
  {
  }

  lemma IntactTwice(a: Screen, b: Screen, c: Screen)
    requires Intact(a, b) && Intact(b, c)
    ensures Intact(a, c)
  {
  }

  /** The same views exist and are mapped. */
  ghost predicate SameMapped(b: Bones, b': Bones)
  {
    b'.cores.Keys == b.cores.Keys && forall v | v in b.cores :: b'.cores[v].mapped == b.cores[v].mapped
  }

  lemma TakenOverParts(b: Bones, b3: Bones, b': Bones, n: nat, p: nat)
    requires n < |b.ws| && p < |b.ws| && b.ws[n].output == None && b.ws[p].output.Some?
    requires MayArrive(Switched(b, n, b.ws[p].output), b3, n, b.ws[p].output.value)
    requires b' == Switched(b3, p, None) || b' == b3.(pending := b3.pending + multiset{DepartureOf(p)})
    ensures TakenOver(b, b', n, p) && SameMapped(b, b')
  {
    SwitchedKeepsMapped(b, n, b.ws[p].output);
    SwitchedKeepsMapped(b3, p, None);
    forall k: nat
      ensures b3.pending[DepartureOf(k)] == b.pending[DepartureOf(k)]
    {
    }
  }

  lemma TakingOverKeeps(s: State, n: nat, p: nat)
    requires Inv(s) && n < |s.workspaces| && p < |s.workspaces| && !Leaving(BonesOf(s), p)
    requires s.workspaces[n].output.None? && s.workspaces[p].output.Some?
    ensures Inv(TakeOver(s, n, p)) && |TakeOver(s, n, p).workspaces| == |s.workspaces|
    ensures TakeOver(s, n, p).workspaces[n].output.Some?
  {
    hide Placement, FullscreenOk, Assigned, Balanced, BonesOf, TakeOver, StackOk, TakenOver, Leaving, PlacedAndTold;
    var t := TakeOver(s, n, p);
    TakenOverBones(s, n, p);
    AssignmentTakenOver(BonesOf(s), BonesOf(t), n, p);
    InvFromAssignment(s, t);
  }

  lemma LeavingKeepsTold(b: Bones, b': Bones, p: nat)
    requires PlacedAndTold(b) && p < |b.ws|
    requires b' == b.(pending := b'.pending) || b' == Switched(b, p, None)
    ensures PlacedAndTold(b')
    ensures b'.cores.Keys == b.cores.Keys && forall v | v in b.cores :: b'.cores[v].mapped == b.cores[v].mapped
  {
    hide Placement, FullscreenOk, Balanced, ToldCores;
    if b' == Switched(b, p, None) {
      SwitchingKeeps(b, p, None);
      SwitchedKeepsMapped(b, p, None);
    } else {
      OutputsAside(b, b.outputs, b'.pending);
    }
  }

  lemma OutputAt(s: State, i: nat)
    requires i < |s.workspaces|
    ensures i < |BonesOf(s).ws| && BonesOf(s).ws[i].output == s.workspaces[i].output
  {
  }

  lemma ActivatedRest(s: State, i: nat, o: OutputId)
    requires i < |s.workspaces|
    ensures SameRest(s, InWorkspace(s, i, Activate(s.workspaces[i], s.screen, o)))
  {
    hide Notified, AllViews;
  }

  lemma LaidOutBones(s: State, i: nat)
    requires i < |s.workspaces|
    ensures var t := s.(screen := Arrange(s.workspaces[i], s.screen, s.env, false));
            BonesOf(t) == BonesOf(s) && SameRest(s, t)
  {
    hide Arrange;
    ArrangeKeeps(s.workspaces[i], s.screen, s.env, false);
    assert BonesOf(s.(screen := Arrange(s.workspaces[i], s.screen, s.env, false))).ws == BonesOf(s).ws;
  }

  lemma FocusingThereKeeps(s: State, n: nat, o: OutputId)
    requires Inv(s) && n < |s.workspaces|
    ensures Inv(FocusThere(s, n, o))
  {
    hide BonesOk, BonesOf, FocusView, StackOk;
    var s1 := s.(seat := s.seat.(cursor := {o}));
    CursorAside(s, s1.seat.cursor);
    FirstOfStack(s1, s1.workspaces[n].index, None);
    FocusingKeeps(s1, FirstOf(s1.seat.focusStack, Table(s1), s1.workspaces[n].index, None), false);
  }

  lemma CursorAside(s: State, cursor: set<OutputId>)
    requires Inv(s)
    ensures Inv(s.(seat := s.seat.(cursor := cursor)))
  {
    hide BonesOk, NoDuplicates;
    SeatIsNoBone(s, s.(seat := s.seat.(cursor := cursor)));
  }

  /** A workspace that is on no output can only take one over that another workspace has, and is not leaving. */
  ghost predicate CanSwitch(s: State, n: nat)
  {
    && n < |s.workspaces|
    && (FocusedWorkspace(s) == Some(n) || s.workspaces[n].output.Some?
        || (FocusedWorkspace(s).Some? && !Leaving(BonesOf(s), FocusedWorkspace(s).value)))
  }

  lemma SwitchingToKeeps(s: State, n: nat)
    requires Inv(s) && CanSwitch(s, n)
    ensures Inv(SwitchTo(s, n))
  {
    hide Inv, TakeOver, FocusThere, FocusedWorkspace, Sliding, Entered, Leaving;
    var current := FocusedWorkspace(s);
    if current != Some(n) {
      if s.workspaces[n].output.Some? {
        FocusingThereKeeps(s, n, s.workspaces[n].output.value);
      } else {
        var t := TakeOver(s, n, current.value);
        TakingOverKeeps(s, n, current.value);
        FocusingThereKeeps(t, n, t.workspaces[n].output.value);
      }
    }
  }

  lemma FocusingKeepsAssignment(s: State, t: State, n: nat, o: OutputId)
    requires Inv(s) && n < |t.workspaces| && t == s.(screen := t.screen, workspaces := t.workspaces)
    requires SameMapped(BonesOf(s), BonesOf(t))
    ensures BonesOf(FocusThere(t, n, o)) == BonesOf(t)
  {
    hide BonesOk, BonesOf, FocusView, NoDuplicates;
    var t1 := t.(seat := t.seat.(cursor := {o}));
    var next := FirstOf(t1.seat.focusStack, Table(t1), t1.workspaces[n].index, None);
    SeatIsNoBone(t, t1);
    StackCores(s);
    forall v | v in t1.seat.focusStack
      ensures v in Table(t1) && Table(t1)[v].mapped
    {
      CoresTell(t, v);
    }
    FocusViewKeeps(t1, next, false, None);
  }

  /** Switching keeps the invariants exactly when the cursor is on a workspace that is not leaving, or nothing has
      to be taken over. */
  lemma SwitchingIsSafeExactlyWhen(s: State, n: nat)
    requires Inv(s) && n < |s.workspaces|
    ensures Inv(SwitchTo(s, n)) <==> CanSwitch(s, n)
  {
    hide Placement, FullscreenOk, Assigned, Balanced, BonesOf, TakeOver, FocusThere, FocusedWorkspace, Sliding,
      Entered, Leaving, StackOk;
    if CanSwitch(s, n) {
      SwitchingToKeeps(s, n);
    } else if FocusedWorkspace(s).Some? {
      var p := FocusedWorkspace(s).value;
      var t := TakeOver(s, n, p);
      TakenOverBones(s, n, p);
      AssignmentTakenOver(BonesOf(s), BonesOf(t), n, p);
      FocusingKeepsAssignment(s, t, n, t.workspaces[n].output.value);
    }
  }

  // ---------------------------------------------------------------------------------------
  // What is done when an animation has finished
  // ---------------------------------------------------------------------------------------

  /** What s loses is just one thing that is to be done. */
  ghost predicate LosesJust(s: State, t: State, callback: Callback)
  {
    && t == s.(screen := t.screen) && Intact(s.screen, t.screen) && Cores(Table(t)) == Cores(Table(s))
    && Pending(s.screen.tasks) == Pending(t.screen.tasks) + if callback == Silent then multiset{}
       else multiset{callback}
  }

  lemma LosingBones(s: State, t: State, callback: Callback)
    requires LosesJust(s, t, callback)
    ensures BonesOf(t) == BonesOf(s).(pending := BonesOf(t).pending)
    ensures BonesOf(s).pending == BonesOf(t).pending + if callback == Silent then multiset{} else multiset{callback}
  {
    hide Pending;
    ScreenBones(s, t);
  }

  /** The end of the animation of the workspace that comes in. */
  lemma ArrivingKeeps(s: State, t: State, n: nat, o: OutputId)
    requires Inv(s) && LosesJust(s, t, ArrivalOf(n, o))
    ensures n < |t.workspaces| && Inv(Done(t, ArrivalOf(n, o)))
  {
    hide Placement, FullscreenOk, Assigned, Balanced, BonesOf, StackOk, FocusThere, LosesJust;
    LosingBones(s, t, ArrivalOf(n, o));
    BonesApart(s); BonesApart(t);
    ArrivalForgotten(BonesOf(s), BonesOf(t), n, o);
    OutputsAside(BonesOf(s), BonesOf(s).outputs, BonesOf(t).pending);
    LosingKeepsRest(s, t, ArrivalOf(n, o));
    InvFromAssignment(s, t);
    FocusingThereKeeps(t, n, o);
  }

  lemma LosingKeepsRest(s: State, t: State, callback: Callback)
    requires LosesJust(s, t, callback)
    ensures t == s.(screen := t.screen) && Intact(s.screen, t.screen)
  {
  }

  lemma ArrivalForgotten(b: Bones, b': Bones, n: nat, o: OutputId)
    requires Assigned(b) && b' == b.(pending := b'.pending) && b.pending == b'.pending + multiset{ArrivalOf(n, o)}
    ensures n < |b.ws| && Assigned(b')
  {
    assert b.pending[ArrivalOf(n, o)] > 0;
    assert forall p: nat :: b'.pending[DepartureOf(p)] == b.pending[DepartureOf(p)];
    AssignmentForgotten(b, b');
  }

  /** The end of the animation of the one that goes out: it is off its output then. */
  lemma DepartingKeeps(s: State, t: State, p: nat)
    requires Inv(s) && LosesJust(s, t, DepartureOf(p))
    ensures p < |t.workspaces| && Inv(Done(t, DepartureOf(p))) && Done(t, DepartureOf(p)).workspaces[p].output == None
  {
    hide Placement, FullscreenOk, Assigned, Balanced, BonesOf, Deactivate, ToldCores, StackOk, LosesJust;
    LosingBones(s, t, DepartureOf(p));
    var b, b1 := BonesOf(s), BonesOf(t);
    BonesApart(s); BonesApart(t);
    DepartureIsDue(b, b1, p);
    OutputsAside(b, b.outputs, b1.pending);
    LosingKeepsRest(s, t, DepartureOf(p));
    DeactivateBones(t, p);
    SwitchingKeeps(b1, p, None);
    SwitchedKeepsMapped(b1, p, None);
    DeactivatedRest(t, p);
    OutputAt(t, p);
    var u := Done(t, DepartureOf(p));
    OutputAt(u, p);
    AssignmentDeparted(b, BonesOf(u), p);
    InvFromAssignment(s, u);
  }

  lemma DepartureIsDue(b: Bones, b': Bones, p: nat)
    requires Assigned(b) && b.pending == b'.pending + multiset{DepartureOf(p)}
    ensures p < |b.ws| && b.ws[p].output.Some? && Leaving(b, p)
  {
    assert b.pending[DepartureOf(p)] > 0;
  }

  lemma NothingDone(s: State, t: State)
    requires Inv(s) && LosesJust(s, t, Silent)
    ensures Inv(t)
  {
    hide BonesOk, NoDuplicates;
    LosingBones(s, t, Silent);
    assert BonesOf(t).pending + multiset{} == BonesOf(t).pending;
    StackCores(s);
  }

  // ---------------------------------------------------------------------------------------
  // Views come and go
  // ---------------------------------------------------------------------------------------

  lemma CreatingKeeps(s: State, v: ViewId, client: nat, ancestors: seq<ViewId>)
    requires Inv(s) && v !in Table(s)
    ensures Inv(CreateView(s, v, client, ancestors))
  {
    hide BonesOk, NoDuplicates;
    var t := CreateView(s, v, client, ancestors);
    CoresUpdate(Table(s), v, Table(t)[v]);
    assert BonesOf(t).ws == BonesOf(s).ws;
    NewcomerKeeps(BonesOf(s), BonesOf(t), v);
    StackCores(s);
  }

  /** No workspace waits for an animation of the view before it leaves its output. */
  predicate CarriesNoDeparture(tasks: seq<Task>, v: ViewId)
  {
    forall i | 0 <= i < |tasks| && tasks[i].view == v && !tasks[i].cancelled :: !tasks[i].callback.DepartureOf?
  }

  lemma {:induction false} CancellingLoses(tasks: seq<Task>, v: ViewId)
    ensures Pending(Cancelled(tasks, v)) <= Pending(tasks)
  {
    hide Wish;
    if tasks == [] {
    } else {
      CancellingLoses(tasks[..|tasks| - 1], v);
      CancelledPending(tasks, v);
    }
  }

  lemma CancelledPending(tasks: seq<Task>, v: ViewId)
    requires tasks != []
    ensures var front, last := tasks[..|tasks| - 1], tasks[|tasks| - 1];
            Pending(Cancelled(tasks, v)) == Pending(Cancelled(front, v)) + if last.view == v then multiset{}
              else Wish(last)
  {
    assert Cancelled(tasks, v)[..|tasks| - 1] == Cancelled(tasks[..|tasks| - 1], v);
  }

  lemma Wishes(t: Task, callback: Callback)
    requires callback != Silent
    ensures Wish(t)[callback] == if !t.cancelled && t.callback == callback then 1 else 0
  {
  }

  /** A callback is lost exactly when a task of the view carries it. */
  lemma {:induction false} CancellingLosesJust(tasks: seq<Task>, v: ViewId, callback: Callback)
    requires callback != Silent
    ensures Pending(Cancelled(tasks, v))[callback] == Pending(tasks)[callback] <==>
            forall i | 0 <= i < |tasks| && tasks[i].view == v && !tasks[i].cancelled :: tasks[i].callback != callback
  {
    hide Cancelled, Wish;
    if tasks == [] {
    } else {
      var front, last := tasks[..|tasks| - 1], tasks[|tasks| - 1];
      CancellingLosesJust(front, v, callback);
      CancellingLoses(front, v);
      CancelledPending(tasks, v);
      Wishes(last, callback);
      assert tasks == front + [last];
    }
  }

  /** The same for several views whose tasks are cancelled one after the other. */
  function AllCancelled(tasks: seq<Task>, ids: seq<ViewId>): (r: seq<Task>)
    ensures |r| == |tasks|
    ensures forall i | 0 <= i < |r| :: r[i] == if tasks[i].view in ids then tasks[i].(cancelled := true) else tasks[i]
  {
    if ids == [] then tasks else Cancelled(AllCancelled(tasks, ids[..|ids| - 1]), ids[|ids| - 1])
  }

  lemma {:induction false} AllCancelledLosesJust(tasks: seq<Task>, ids: seq<ViewId>, callback: Callback)
    requires callback != Silent
    ensures Pending(AllCancelled(tasks, ids)) <= Pending(tasks)
    ensures Pending(AllCancelled(tasks, ids))[callback] == Pending(tasks)[callback] <==>
            forall i | 0 <= i < |tasks| && tasks[i].view in ids && !tasks[i].cancelled :: tasks[i].callback != callback
  {
    hide Pending, Cancelled;
    if ids == [] {
    } else {
      var front, v := ids[..|ids| - 1], ids[|ids| - 1];
      var some := AllCancelled(tasks, front);
      AllCancelledLosesJust(tasks, front, callback);
      CancellingLoses(some, v);
      CancellingLosesJust(some, v, callback);
      assert ids == front + [v];
    }
  }

  /** No workspace waits for an animation of one of the views before it leaves its output. */
  predicate NoneCarriesDeparture(tasks: seq<Task>, ids: seq<ViewId>)
  {
    forall v | v in ids :: CarriesNoDeparture(tasks, v)
  }

  lemma DeparturesOf(b: Bones, b': Bones, tasks: seq<Task>, ids: seq<ViewId>)
    requires Assigned(b) && b.pending == Pending(tasks) && b'.pending == Pending(AllCancelled(tasks, ids))
    ensures b'.pending <= b.pending
    ensures (forall p: nat :: Leaving(b, p) ==> Leaving(b', p)) <==> NoneCarriesDeparture(tasks, ids)
  {
    hide Pending, AllCancelled;
    forall p: nat
      ensures (Leaving(b, p) ==> Leaving(b', p)) <==> b'.pending[DepartureOf(p)] == b.pending[DepartureOf(p)]
      ensures b'.pending[DepartureOf(p)] == b.pending[DepartureOf(p)] <==>
              forall i | 0 <= i < |tasks| && tasks[i].view in ids && !tasks[i].cancelled ::
                tasks[i].callback != DepartureOf(p)
    {
      AllCancelledLosesJust(tasks, ids, DepartureOf(p));
    }
    AllCancelledLosesJust(tasks, ids, DepartureOf(0));
    if !NoneCarriesDeparture(tasks, ids) {
      var v :| v in ids && !CarriesNoDeparture(tasks, v);
      var i :| 0 <= i < |tasks| && tasks[i].view == v && !tasks[i].cancelled && tasks[i].callback.DepartureOf?;
      var p := tasks[i].callback.workspace;
      assert b'.pending[DepartureOf(p)] != b.pending[DepartureOf(p)];
    }
  }

  lemma DestroyedBones(s: State, v: ViewId)
    requires v in Table(s)
    ensures var b, b' := BonesOf(s), BonesOf(DestroyView(s, v));
            && b' == b.(cores := b.cores - {v}, pending := Pending(AllCancelled(s.screen.tasks, [v])))
            && b.pending == Pending(s.screen.tasks)
  {
    hide Pending, Cancelled;
    var t := DestroyView(s, v);
    JustOneCancelled(s.screen.tasks, v);
    assert BonesOf(t).ws == BonesOf(s).ws;
    assert BonesOf(t).cores == BonesOf(s).cores - {v};
  }

  lemma JustOneCancelled(tasks: seq<Task>, v: ViewId)
    ensures AllCancelled(tasks, [v]) == Cancelled(tasks, v)
    ensures NoneCarriesDeparture(tasks, [v]) == CarriesNoDeparture(tasks, v)
  {
    hide CarriesNoDeparture;
    assert v in [v];
  }

  lemma GoneRest(s: State, v: ViewId)
    requires Inv(s) && v in Table(s) && !Table(s)[v].mapped
    ensures var t := DestroyView(s, v);
            FocusOk(t) && LayerOk(t) && !t.screen.fault && TasksKnown(Table(t), t.screen.tasks)
  {
    hide BonesOk, NoDuplicates;
  }

  /** A view may go away, with all its animations, exactly when no workspace waits for one of them to leave its
      output. */
  lemma DestroyingViewIsSafeExactlyWhen(s: State, v: ViewId)
    requires Inv(s) && v in Table(s) && !Table(s)[v].mapped
    ensures Inv(DestroyView(s, v)) <==> CarriesNoDeparture(s.screen.tasks, v)
  {
    hide Placement, FullscreenOk, Assigned, Balanced, BonesOf, StackOk, Pending, Cancelled, DestroyView, LayerOk,
      TasksKnown, CarriesNoDeparture, NoneCarriesDeparture, AllCancelled;
    var t := DestroyView(s, v);
    DestroyedBones(s, v);
    CoreApart(s, v);
    JustOneCancelled(s.screen.tasks, v);
    DeparturesOf(BonesOf(s), BonesOf(t), s.screen.tasks, [v]);
    AssignmentForgotten(BonesOf(s), BonesOf(t));
    GoneKeeps(BonesOf(s), BonesOf(t), v);
    GoneRest(s, v);
  }

  // ---------------------------------------------------------------------------------------
  // The pointer takes hold of a view
  // ---------------------------------------------------------------------------------------

  lemma {:induction false} HaltingCancels(s: Screen, ids: seq<ViewId>)
    ensures var t := Halted(s, ids);
            && t.tasks == AllCancelled(s.tasks, ids) && Cores(t.views) == Cores(s.views) && t.fault == s.fault
  {
    hide Cancelled, HasTask, CoreOf;
    if ids == [] {
    } else {
      var front := Halted(s, ids[..|ids| - 1]);
      var v := ids[|ids| - 1];
      HaltingCancels(s, ids[..|ids| - 1]);
      if v in front.views {
        WarpingKeepsCore(front.views[v]);
        CoresUpdate(front.views, v, Warped(front.views[v]));
      }
    }
  }

  lemma WarpingKeepsCore(view: View)
    ensures CoreOf(Warped(view)) == CoreOf(view)
  {
  }

  lemma HeldBones(s: State, v: ViewId)
    requires Located(s, v)
    ensures var t := TakeHold(s, v);
            && t == s.(screen := t.screen) && Cores(Table(t)) == Cores(Table(s)) && Intact(s.screen, t.screen)
            && BonesOf(t) == BonesOf(s).(pending := Pending(AllCancelled(s.screen.tasks, HaltedBy(s, v))))
  {
    hide Pending, AllCancelled, Halted;
    HaltingCancels(s.screen, HaltedBy(s, v));
    ScreenBones(s, TakeHold(s, v));
    assert Cores(Table(TakeHold(s, v))).Keys == Cores(Table(s)).Keys;
  }

  /** Taking hold of a view to move or to resize it keeps the invariants exactly when no workspace waits for an
      animation of one of the tiles whose animations are cancelled then. */
  lemma TakingHoldIsSafeExactlyWhen(s: State, v: ViewId)
    requires Inv(s) && Located(s, v)
    ensures Inv(TakeHold(s, v)) <==> NoneCarriesDeparture(s.screen.tasks, HaltedBy(s, v))
  {
    hide Placement, FullscreenOk, Assigned, Balanced, BonesOf, StackOk, Pending, AllCancelled, TakeHold, TasksKnown,
      NoneCarriesDeparture, Intact;
    var t := TakeHold(s, v);
    HeldBones(s, v);
    BonesApart(s);
    DeparturesOf(BonesOf(s), BonesOf(t), s.screen.tasks, HaltedBy(s, v));
    AssignmentForgotten(BonesOf(s), BonesOf(t));
    if Assigned(BonesOf(t)) {
      OutputsAside(BonesOf(s), BonesOf(s).outputs, BonesOf(t).pending);
      InvFromAssignment(s, t);
    }
  }

  // ---------------------------------------------------------------------------------------
  // Scrolling, layout and time
  // ---------------------------------------------------------------------------------------

  lemma ScrollingKeeps(s: State, i: nat, scroll: int, animate: bool)
    requires Inv(s) && i < |s.workspaces|
    ensures Inv(ScrollTo(s, i, scroll, animate))
  {
    hide BonesOk, StackOk, Arrange;
    var t := ScrollTo(s, i, scroll, animate);
    ArrangeKeeps(t.workspaces[i], s.screen, s.env, animate);
    assert BonesOf(t).ws == BonesOf(s).ws;
    SameBonesKeep(s, t);
  }

  lemma RepositioningKeeps(s: State, v: ViewId, x: int, y: int, animate: bool, under: Option<OutputId>)
    requires Inv(s) && Located(s, v) && Table(s)[v].mapped
    ensures Inv(Reposition(s, v, x, y, animate, under))
  {
    hide Inv, ScrollTo, FloatTo, FindColumn;
    var i := Home(s, v);
    ScrollingKeeps(s, i, s.workspaces[i].scrollX + (Table(s)[v].x - x), animate);
    FloatingToKeeps(s, v, x, y, under);
  }

  /** Every output has a workspace, so the assertion of `arrange_layers` does not fail. */
  lemma OutputHasWorkspace(s: State, o: OutputId)
    requires Assigned(BonesOf(s)) && o in s.env.outputs
    ensures WorkspaceOn(s.workspaces, Some(o)) < |s.workspaces|
  {
    hide Leaving;
    assert Held(BonesOf(s), o);
    WorkspaceOnBones(s, Some(o));
  }

  lemma ChangingUsableAreaKeeps(s: State, o: OutputId, info: OutputInfo)
    requires Inv(s) && o in s.env.outputs
    ensures Inv(ChangeUsableArea(s, o, info))
  {
    hide BonesOf, Placement, FullscreenOk, Assigned, Balanced, StackOk, ArrangeIn, FitView, Unharmed;
    var s1 := s.(env := s.env.(outputs := s.env.outputs[o := info]));
    SameOutputsKeep(s, s1);
    OutputHasWorkspace(s, o);
    var i := WorkspaceOn(s1.workspaces, Some(o));
    ArrangingKeeps(s1, i);
    var focused := FocusedView(s1);
    if focused.Some? {
      FittingKeeps(s1, i, focused.value, false);
    }
  }

  lemma SameOutputsKeep(s: State, t: State)
    requires Inv(s) && t == s.(env := t.env) && t.env.outputs.Keys == s.env.outputs.Keys
    ensures Inv(t)
  {
    hide BonesOk, StackOk;
    OutputBones(s, t);
    SameBonesKeep(s, t);
  }

  lemma ArrangingAtKeeps(s: State, i: nat)
    requires Inv(s)
    ensures Inv(ArrangeAt(s, i))
  {
    hide Inv, ArrangeIn;
    if i < |s.workspaces| {
      ArrangingKeeps(s, i);
    }
  }

  lemma ResizingOutputKeeps(s: State, o: OutputId, info: OutputInfo)
    requires Inv(s) && o in s.env.outputs
    ensures Inv(ResizeOutput(s, o, info))
  {
    hide Inv, ChangeUsableArea, ArrangeAt;
    ChangingUsableAreaKeeps(s, o, info);
    var s1 := ChangeUsableArea(s, o, info);
    ArrangingAtKeeps(s1, WorkspaceOn(s1.workspaces, Some(o)));
  }

  lemma SwitchCommandKeeps(s: State, n: nat)
    requires Inv(s) && (n < |s.workspaces| ==> CanSwitch(s, n))
    ensures Inv(SwitchCommand(s, n))
  {
    hide Inv, SwitchTo, ArrangeAt, CanSwitch;
    if n < |s.workspaces| {
      SwitchingToKeeps(s, n);
      ArrangingAtKeeps(SwitchTo(s, n), n);
    }
  }

  lemma MoveToCommandKeeps(s: State, n: nat)
    requires Inv(s)
    ensures Inv(MoveToCommand(s, n))
  {
    hide Inv, ChangeWorkspace, ArrangeAt;
    var focused := FocusedView(s);
    if n < |s.workspaces| && focused.Some? {
      FocusedIsLocated(s);
      ChangingWorkspaceKeeps(s, focused.value, n);
      ArrangingAtKeeps(ChangeWorkspace(s, focused.value, n), n);
    }
  }

  lemma FrontRunLosesJust(s: State, duration: int)
    requires duration > 0 && s.screen.tasks != []
    ensures LosesJust(s, FrontTaken(s, duration), FrontWish(s, duration))
    ensures |FrontTaken(s, duration).screen.tasks| >= |s.screen.tasks| - 1
  {
    hide Interpolated, IsFinished, Pending;
    var tasks := s.screen.tasks;
    FrontRunPending(Table(s), tasks, s.env.now, duration);
    var t := FrontTaken(s, duration);
    var front := tasks[0];
    if !front.cancelled && front.view in Table(s) {
      CoresUpdate(Table(s), front.view, Animated(Table(s)[front.view], front, s.env.now, duration));
      CoresAt(Table(s), front.view);
    }
  }

  lemma DoneKeepsTasks(s: State, callback: Callback)
    requires FocusOk(s) && LayerOk(s)
    ensures |Done(s, callback).screen.tasks| >= |s.screen.tasks|
  {
    hide FocusView, BonesOf, NoDuplicates, Notified, AllViews;
    if callback.ArrivalOf? && callback.workspace < |s.workspaces| {
      var s1 := s.(seat := s.seat.(cursor := {callback.output}));
      SeatIsNoBone(s, s1);
      var next := FirstOf(s1.seat.focusStack, Table(s1), s1.workspaces[callback.workspace].index, None);
      FocusViewKeeps(s1, next, false, None);
    }
  }

  lemma SeatsAfterTaking(s: State, t: State, callback: Callback)
    requires Inv(s) && LosesJust(s, t, callback)
    ensures FocusOk(t) && LayerOk(t)
  {
    hide BonesOk, NoDuplicates, Pending;
    StackCores(s);
    LosingBones(s, t, callback);
  }

  lemma TakingTaskKeeps(s: State, duration: int)
    requires Inv(s) && duration > 0 && s.screen.tasks != []
    ensures Inv(TakeTask(s, duration))
    ensures |TakeTask(s, duration).screen.tasks| >= |s.screen.tasks| - 1
  {
    hide Inv, FrontTaken, FrontWish, LosesJust, FocusThere, Deactivate;
    FrontRunLosesJust(s, duration);
    var t := FrontTaken(s, duration);
    match FrontWish(s, duration) {
      case Silent => NothingDone(s, t);
      case ArrivalOf(n, o) => ArrivingKeeps(s, t, n, o);
      case DepartureOf(p) => DepartingKeeps(s, t, p);
    }
    SeatsAfterTaking(s, t, FrontWish(s, duration));
    DoneKeepsTasks(t, FrontWish(s, duration));
  }

  /** The timer takes every task of the queue: none of them is lost on the way. */
  lemma {:induction false} TakingTasksKeeps(s: State, duration: int, count: nat)
    requires Inv(s) && duration > 0
    ensures Inv(TakeTasks(s, duration, count))
    decreases count
  {
    hide Inv, TakeTask;
    if count == 0 || s.screen.tasks == [] {
    } else {
      TakingTaskKeeps(s, duration);
      TakingTasksKeeps(TakeTask(s, duration), duration, count - 1);
    }
  }

  lemma TimePassingKeeps(s: State, now: Time)
    requires Inv(s)
    ensures Inv(s.(env := s.env.(now := now)))
  {
    hide BonesOk, StackOk;
    var t := s.(env := s.env.(now := now));
    OutputBones(s, t);
    SameBonesKeep(s, t);
  }

  lemma TickingKeeps(s: State, now: Time, duration: int)
    requires Inv(s) && duration > 0
    ensures Inv(TickTo(s, now, duration))
  {
    hide Inv, TakeTasks;
    TimePassingKeeps(s, now);
    TakingTasksKeeps(s.(env := s.env.(now := now)), duration, |s.screen.tasks|);
  }
}
