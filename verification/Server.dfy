/** The compositor as it runs: workspaces that are updated in place, the seat's focus stack, and the handlers and
    commands that change them. Every method is tied to the function of the same operation in module
    Desktop. */
module ServerModule {
  import opened Prelude
  import opened Views
  import opened Columns
  import opened Rearranging
  import opened Layout
  import opened Animation
  import opened AnimationQueue
  import opened Tiling
  import opened WorkspaceModule
  import opened Desktop
  import opened Invariants
  import opened Preservation
  import opened Steps
  import opened Dominant
  import opened Focus
  import opened Swipe

  // ---------------------------------------------------------------------------------------
  // What the methods of a workspace rely on
  // ---------------------------------------------------------------------------------------

  ghost predicate AllWellFormed(ws: seq<WorkspaceState>, views: ViewTable, env: Env)
  {
    forall i | 0 <= i < |ws| :: WellFormed(ws[i], views, env)
  }

  lemma InvIsWellFormed(s: State)
    requires Inv(s)
    ensures AllWellFormed(s.workspaces, Table(s), s.env)
  {
    hide BonesOf, FullscreenOk, Assigned, Balanced, FocusOk, Occurrences;
    forall i | 0 <= i < |s.workspaces|
      ensures WellFormed(s.workspaces[i], Table(s), s.env)
    {
      PlacedIsDistinct(s, i);
      OutputExists(s, i);
      forall v
        ensures Occurrences(s.workspaces[i], v) <= 1
        ensures Occurrences(s.workspaces[i], v) > 0 ==> v in Table(s)
      {
        DueIsKnown(s, i, v);
      }
      FullscreenIsKnown(s, i);
    }
  }

  lemma OutputExists(s: State, i: nat)
    requires Assigned(BonesOf(s)) && i < |s.workspaces|
    ensures s.workspaces[i].output.Some? ==> s.workspaces[i].output.value in s.env.outputs
  {
    OutputAt(s, i);
  }

  lemma DueIsKnown(s: State, i: int, v: ViewId)
    ensures Due(BonesOf(s), i, v) <= 1 && (Due(BonesOf(s), i, v) > 0 ==> v in Table(s))
  {
  }

  lemma FullscreenIsKnown(s: State, i: nat)
    requires FullscreenOk(BonesOf(s)) && i < |s.workspaces|
    ensures s.workspaces[i].fullscreen.Some? ==> s.workspaces[i].fullscreen.value in Table(s)
  {
    FullscreenAtWorkspace(s, i);
    if s.workspaces[i].fullscreen.Some? {
      assert Due(BonesOf(s), i, s.workspaces[i].fullscreen.value) == 1;
    }
  }

  lemma FullscreenAtWorkspace(s: State, i: nat)
    requires i < |s.workspaces|
    ensures i < |BonesOf(s).ws| && BonesOf(s).ws[i].fullscreen == s.workspaces[i].fullscreen
  {
  }

  /** The other workspaces do not notice what happens in one. */
  lemma OthersStayWellFormed(s: State, i: nat, r: (WorkspaceState, Screen))
    requires AllWellFormed(s.workspaces, Table(s), s.env)
    requires i < |s.workspaces| && WellFormed(r.0, r.1.views, s.env) && r.1.views.Keys == Table(s).Keys
    ensures AllWellFormed(s.workspaces[i := r.0], r.1.views, s.env)
  {
    hide WellFormed;
    forall j | 0 <= j < |s.workspaces| && j != i
      ensures WellFormed(s.workspaces[j], r.1.views, s.env)
    {
      SameKeysWellFormed(s.workspaces[j], Table(s), r.1.views, s.env);
    }
  }

  lemma ViewsStayWellFormed(ws: seq<WorkspaceState>, a: ViewTable, b: ViewTable, env: Env)
    requires AllWellFormed(ws, a, env) && a.Keys == b.Keys
    ensures AllWellFormed(ws, b, env)
  {
    hide WellFormed;
    forall j | 0 <= j < |ws|
      ensures WellFormed(ws[j], b, env)
    {
      SameKeysWellFormed(ws[j], a, b, env);
    }
  }

  lemma FullscreenKeepsKeys(w: WorkspaceState, s: Screen, env: Env, v: Option<ViewId>)
    ensures SetFullscreen(w, s, env, v).1.views.Keys == s.views.Keys
  {
    hide Arrange;
  }

  lemma WellFormedViewsKnown(w: WorkspaceState, views: ViewTable, env: Env)
    requires WellFormed(w, views, env)
    ensures ViewsKnown(w, views)
  {
    hide Occurrences, ViewsKnown;
    OccurringViewsKnown(w, views);
  }

  lemma ActivatedWellFormed(w: WorkspaceState, s: Screen, env: Env, o: OutputId)
    requires WellFormed(w, s.views, env) && o in env.outputs
    ensures var r := Activate(w, s, o);
            WellFormed(r.0, r.1.views, env) && r.1.views.Keys == s.views.Keys
  {
    SameListsWellFormed(w, Activate(w, s, o).0, s.views, env);
  }

  lemma DeactivatedWellFormed(w: WorkspaceState, s: Screen, env: Env)
    requires WellFormed(w, s.views, env)
    ensures var r := Deactivate(w, s);
            WellFormed(r.0, r.1.views, env) && r.1.views.Keys == s.views.Keys
  {
    SameListsWellFormed(w, Deactivate(w, s).0, s.views, env);
  }

  lemma SameListsWellFormed(w: WorkspaceState, w': WorkspaceState, views: ViewTable, env: Env)
    requires WellFormed(w, views, env) && w'.columns == w.columns && w'.floating == w.floating
    requires w'.output.Some? ==> w'.output.value in env.outputs
    requires w'.fullscreen.Some? ==> w'.fullscreen.value in views
    ensures WellFormed(w', views, env)
  {
    forall v
      ensures Occurrences(w', v) == Occurrences(w, v)
    {
    }
  }

  // ---------------------------------------------------------------------------------------
  // The objects
  // ---------------------------------------------------------------------------------------

  ghost predicate DistinctObjects(ws: seq<Workspace>)
  {
    forall i, j | 0 <= i < j < |ws| :: ws[i] != ws[j]
  }

  function States(ws: seq<Workspace>): (r: seq<WorkspaceState>)
    reads ws
    ensures |r| == |ws|
    ensures forall i | 0 <= i < |ws| :: r[i] == ws[i].State()
  {
    seq(|ws|, i requires 0 <= i < |ws| reads ws => ws[i].State())
  }

  class Server {
    const surfaces: SurfaceManager
    const animation: ViewAnimation
    var workspaces: seq<Workspace>
    var env: Env
    var layers: map<LayerId, LayerInfo>
    var focusStack: seq<ViewId>
    var focusedLayer: Option<LayerId>
    var keyboard: Option<Surface>
    var exclusiveClient: Option<nat>
    var cursor: set<OutputId>

    constructor (gap: int, now: Time, duration: int)
      ensures Ready()
      ensures Snapshot() ==
              State(Screen(map[], [], false), [], Env(map[], gap, now), map[], SeatState([], None, None, None, {}))
      ensures fresh(surfaces) && fresh(animation) && animation.duration == duration
    {
      surfaces := new SurfaceManager();
      animation := new ViewAnimation(duration);
      workspaces, env, layers := [], Env(map[], gap, now), map[];
      focusStack, focusedLayer, keyboard, exclusiveClient, cursor := [], None, None, None, {};
    }

    function Seat(): SeatState
      reads this
    {
      SeatState(focusStack, focusedLayer, keyboard, exclusiveClient, cursor)
    }

    function Snapshot(): State
      reads this, surfaces, animation, workspaces
    {
      State(ScreenOf(surfaces, animation), States(workspaces), env, layers, Seat())
    }

    ghost predicate Ready()
      reads this, surfaces, workspaces
    {
      DistinctObjects(workspaces) && AllWellFormed(States(workspaces), surfaces.views, env)
    }

    // -------------------------------------------------------------------------------------
    // The methods of one workspace, seen from here
    // -------------------------------------------------------------------------------------

    method FitIn(i: nat, v: ViewId, condense: bool)
      requires Ready() && i < |workspaces| && v in surfaces.views
      modifies workspaces[i], surfaces, animation
      ensures Ready()
      ensures Snapshot() ==
              InWorkspace(old(Snapshot()), i,
                          FitView(old(Snapshot()).workspaces[i], old(Snapshot()).screen, env, v, condense))
    {
      hide WellFormed, FitView;
      ghost var s := Snapshot();
      workspaces[i].FitViewOnScreen(surfaces, animation, env, v, condense);
      assert States(workspaces) == s.workspaces[i := workspaces[i].State()];
      FitKeeps(s.workspaces[i], s.screen, s.env, v, condense);
      OthersStayWellFormed(s, i, FitView(s.workspaces[i], s.screen, s.env, v, condense));
    }

    method AddTo(i: nat, v: ViewId, nextTo: Option<ViewId>, floating: bool, transferring: bool)
      requires Ready() && i < |workspaces| && v in surfaces.views && Occurrences(Snapshot().workspaces[i], v) == 0
      modifies workspaces[i], surfaces, animation
      ensures Ready()
      ensures Snapshot() == InWorkspace(old(Snapshot()), i,
                                       AddView(old(Snapshot()).workspaces[i], old(Snapshot()).screen, env, v, nextTo,
                                               floating, transferring))
    {
      hide WellFormed, AddView, Occurrences;
      ghost var s := Snapshot();
      workspaces[i].AddView(surfaces, animation, env, v, nextTo, floating, transferring);
      assert States(workspaces) == s.workspaces[i := workspaces[i].State()];
      AddViewBones(s.workspaces[i], s.screen, s.env, v, nextTo, floating, transferring);
      OthersStayWellFormed(s, i, AddView(s.workspaces[i], s.screen, s.env, v, nextTo, floating, transferring));
    }

    method RemoveFrom(i: nat, v: ViewId, transferring: bool)
      requires Ready() && i < |workspaces| && v in surfaces.views
      modifies workspaces[i], surfaces, animation
      ensures Ready()
      ensures Snapshot() == InWorkspace(old(Snapshot()), i,
                                       RemoveFromWorkspace(old(Snapshot()).workspaces[i], old(Snapshot()).screen, env,
                                                           v, transferring))
    {
      hide WellFormed, RemoveFromWorkspace;
      ghost var s := Snapshot();
      workspaces[i].RemoveView(surfaces, animation, env, v, transferring);
      assert States(workspaces) == s.workspaces[i := workspaces[i].State()];
      RemoveBones(s.workspaces[i], s.screen, s.env, v, transferring);
      OthersStayWellFormed(s, i, RemoveFromWorkspace(s.workspaces[i], s.screen, s.env, v, transferring));
    }

    method FullscreenIn(i: nat, v: Option<ViewId>)
      requires Ready() && i < |workspaces| && (v.Some? ==> v.value in surfaces.views)
      modifies workspaces[i], surfaces, animation
      ensures Ready()
      ensures Snapshot() ==
              InWorkspace(old(Snapshot()), i,
                          SetFullscreen(old(Snapshot()).workspaces[i], old(Snapshot()).screen, env, v))
    {
      hide WellFormed, SetFullscreen;
      ghost var s := Snapshot();
      workspaces[i].SetFullscreenView(surfaces, animation, env, v);
      assert States(workspaces) == s.workspaces[i := workspaces[i].State()];
      FullscreenKeepsKeys(s.workspaces[i], s.screen, s.env, v);
      OthersStayWellFormed(s, i, SetFullscreen(s.workspaces[i], s.screen, s.env, v));
    }

    method ArrangeAt(i: nat, animate: bool)
      requires Ready() && i < |workspaces|
      modifies surfaces, animation
      ensures Ready()
      ensures Snapshot() ==
              old(Snapshot()).(screen := Arrange(old(Snapshot()).workspaces[i], old(Snapshot()).screen, env, animate))
    {
      hide WellFormed, Arrange;
      ghost var s := Snapshot();
      workspaces[i].ArrangeWorkspace(surfaces, animation, env, animate);
      assert States(workspaces) == s.workspaces;
      ViewsStayWellFormed(s.workspaces, Table(s), surfaces.views, env);
    }

    method InsertIn(i: nat, v: ViewId, c: nat)
      requires Ready() && i < |workspaces| && v in surfaces.views
      requires var cols := Snapshot().workspaces[i].columns;
               c < |cols| && FindColumn(cols, v) < |cols| && FindColumn(cols, v) != c
      modifies workspaces[i], surfaces, animation
      ensures Ready()
      ensures Snapshot() ==
              InWorkspace(old(Snapshot()), i,
                          InsertView(old(Snapshot()).workspaces[i], old(Snapshot()).screen, env, v, c))
    {
      hide WellFormed, InsertView, FindColumn;
      ghost var s := Snapshot();
      workspaces[i].InsertIntoColumn(surfaces, animation, env, v, c);
      assert States(workspaces) == s.workspaces[i := workspaces[i].State()];
      InsertBones(s.workspaces[i], s.screen, s.env, v, c);
      OthersStayWellFormed(s, i, InsertView(s.workspaces[i], s.screen, s.env, v, c));
    }

    method PopIn(i: nat, c: nat)
      requires Ready() && i < |workspaces| && c < |Snapshot().workspaces[i].columns|
      modifies workspaces[i], surfaces, animation
      ensures Ready()
      ensures Snapshot() ==
              InWorkspace(old(Snapshot()), i, PopColumn(old(Snapshot()).workspaces[i], old(Snapshot()).screen, env, c))
    {
      hide WellFormed, PopColumn;
      ghost var s := Snapshot();
      WellFormedTiles(s.workspaces[i], Table(s), env);
      workspaces[i].PopFromColumn(surfaces, animation, env, c);
      assert States(workspaces) == s.workspaces[i := workspaces[i].State()];
      PopBones(s.workspaces[i], s.screen, s.env, c);
      OthersStayWellFormed(s, i, PopColumn(s.workspaces[i], s.screen, s.env, c));
    }

    method ActivateOn(i: nat, o: OutputId)
      requires Ready() && i < |workspaces| && o in env.outputs
      modifies workspaces[i], surfaces
      ensures Ready()
      ensures Snapshot() ==
              InWorkspace(old(Snapshot()), i, Activate(old(Snapshot()).workspaces[i], old(Snapshot()).screen, o))
    {
      hide WellFormed, Activate;
      ghost var s := Snapshot();
      WellFormedViewsKnown(s.workspaces[i], Table(s), env);
      workspaces[i].Activate(surfaces, animation, o);
      assert States(workspaces) == s.workspaces[i := workspaces[i].State()];
      ActivatedWellFormed(s.workspaces[i], s.screen, env, o);
      OthersStayWellFormed(s, i, Activate(s.workspaces[i], s.screen, o));
    }

    method DeactivateAt(i: nat)
      requires Ready() && i < |workspaces|
      modifies workspaces[i], surfaces
      ensures Ready()
      ensures Snapshot() ==
              InWorkspace(old(Snapshot()), i, Deactivate(old(Snapshot()).workspaces[i], old(Snapshot()).screen))
    {
      hide WellFormed, Deactivate;
      ghost var s := Snapshot();
      WellFormedViewsKnown(s.workspaces[i], Table(s), env);
      workspaces[i].Deactivate(surfaces, animation);
      assert States(workspaces) == s.workspaces[i := workspaces[i].State()];
      DeactivatedWellFormed(s.workspaces[i], s.screen, env);
      OthersStayWellFormed(s, i, Deactivate(s.workspaces[i], s.screen));
    }

    // -------------------------------------------------------------------------------------
    // The seat
    // -------------------------------------------------------------------------------------

    method GetFocusedView() returns (v: Option<ViewId>)
      ensures v == FocusedView(Snapshot())
    {
      if keyboard.None? || focusStack == [] {
        v := None;
      } else {
        v := Some(focusStack[0]);
      }
    }

    method GetFocusedWorkspace() returns (i: Option<nat>)
      ensures i == FocusedWorkspace(Snapshot())
    {
      ghost var ws := Snapshot().workspaces;
      for k := 0 to |workspaces|
        invariant UnderCursorFrom(ws, cursor, 0) == UnderCursorFrom(ws, cursor, k)
      {
        if workspaces[k].output.Some? && workspaces[k].output.value in cursor {
          return Some(k);
        }
      }
      i := None;
    }

    /** The first view of the focus stack, from a position on, that lives in workspace i and is not to be skipped. */
    method FindInStack(from: nat, i: int, skip: Option<ViewId>) returns (v: Option<ViewId>)
      requires from <= |focusStack|
      ensures v == FirstOf(focusStack[from..], surfaces.views, i, skip)
    {
      for k := from to |focusStack|
        invariant FirstOf(focusStack[from..], surfaces.views, i, skip) ==
                  FirstOf(focusStack[k..], surfaces.views, i, skip)
      {
        var u := focusStack[k];
        assert focusStack[k..][1..] == focusStack[k + 1..];
        if u in surfaces.views && surfaces.views[u].workspaceId == i && Some(u) != skip {
          return Some(u);
        }
      }
      v := None;
    }

    method FindMappedInStack(v: ViewId) returns (next: Option<ViewId>)
      ensures next == FirstMapped(focusStack, surfaces.views, v)
    {
      for k := 0 to |focusStack|
        invariant FirstMapped(focusStack, surfaces.views, v) == FirstMapped(focusStack[k..], surfaces.views, v)
      {
        var u := focusStack[k];
        assert focusStack[k..][1..] == focusStack[k + 1..];
        if u != v && u in surfaces.views && surfaces.views[u].mapped {
          return Some(u);
        }
      }
      next := None;
    }

    method PutInFront(v: ViewId)
      modifies this`focusStack
      ensures focusStack == ToFront(old(focusStack), v)
    {
      var k := 0;
      while k < |focusStack| && focusStack[k] != v
        invariant k <= |focusStack| && forall j | 0 <= j < k :: focusStack[j] != v
      {
        k := k + 1;
      }
      if k < |focusStack| {
        focusStack := [v] + focusStack[..k] + focusStack[k + 1..];
      } else {
        focusStack := [v] + focusStack;
      }
    }

    method ShowView(v: ViewId, condense: bool)
      requires Ready()
      modifies workspaces, surfaces, animation
      ensures Ready() && Snapshot() == Show(old(Snapshot()), v, condense)
    {
      hide AllWellFormed, FitView;
      if v in surfaces.views && 0 <= surfaces.views[v].workspaceId < |workspaces| {
        FitIn(surfaces.views[v].workspaceId, v, condense);
      }
    }

    /** `is_transient_for`: walks up the parents of the view. */
    method IsTransientFor(v: ViewId, ancestor: ViewId) returns (transient: bool)
      requires v in surfaces.views
      ensures transient <==> ancestor in surfaces.views[v].ancestors
    {
      var parents := surfaces.views[v].ancestors;
      var k := 0;
      while k < |parents|
        invariant k <= |parents| && forall j | 0 <= j < k :: parents[j] != ancestor
      {
        if parents[k] == ancestor {
          return true;
        }
        k := k + 1;
      }
      transient := false;
    }

    method IsHiddenByFullscreen(v: ViewId) returns (hidden: bool)
      ensures hidden == HiddenByFullscreen(Snapshot(), v)
    {
      hidden := false;
      if v in surfaces.views && 0 <= surfaces.views[v].workspaceId < |workspaces| {
        var f := workspaces[surfaces.views[v].workspaceId].fullscreenView;
        if f.Some? && f != Some(v) {
          var transient := IsTransientFor(v, f.value);
          hidden := !transient;
        }
      }
    }

    method IsInputAllowed(v: ViewId) returns (allowed: bool)
      ensures allowed == InputAllowed(Snapshot(), v)
    {
      allowed := v in surfaces.views && (exclusiveClient.None? || exclusiveClient.value == surfaces.views[v].client);
    }

    /** `focus_view`: a layer that has the focus gives it away for the time of the change. */
    method FocusView(view: Option<ViewId>, condense: bool)
      requires Ready()
      modifies this`focusStack, this`focusedLayer, this`keyboard, workspaces, surfaces, animation
      ensures Ready() && Snapshot() == Desktop.FocusView(old(Snapshot()), view, condense)
      decreases if focusedLayer.Some? then 2 else 0
    {
      hide AllWellFormed, FocusPlain;
      if focusedLayer.Some? {
        var layer := focusedLayer;
        FocusLayer(None);
        FocusView(view, condense);
        FocusLayer(layer);
      } else {
        FocusWithoutLayer(view, condense);
      }
    }

    method FocusLayer(layer: Option<LayerId>)
      requires Ready()
      modifies this`focusStack, this`focusedLayer, this`keyboard, workspaces, surfaces, animation
      ensures Ready() && Snapshot() == Desktop.FocusLayer(old(Snapshot()), layer)
      decreases if focusedLayer.Some? && layer.None? then 1 else 0
    {
      hide AllWellFormed, FocusPlain;
      if layer.None? && focusedLayer.Some? {
        focusedLayer := None;
        var focused := GetFocusedView();
        if focused.Some? {
          FocusView(None, false);
          FocusView(focused, false);
        }
      } else if layer.Some? && focusedLayer != layer {
        GiveLayerFocus(layer.value);
      }
    }

    method GiveLayerFocus(layer: LayerId)
      requires Ready() && focusedLayer != Some(layer)
      modifies this`focusedLayer, this`keyboard, surfaces`fault
      ensures Ready() && Snapshot() == Desktop.FocusLayer(old(Snapshot()), Some(layer))
    {
      hide AllWellFormed;
      if layer !in layers || !layers[layer].mapped {
        surfaces.fault := true;
        focusedLayer := None;
      } else {
        keyboard := Some(LayerSurface(layer));
        if layers[layer].above {
          focusedLayer := Some(layer);
        }
      }
    }

    method FocusWithoutLayer(view: Option<ViewId>, condense: bool)
      requires Ready()
      modifies this`focusStack, this`keyboard, workspaces, surfaces, animation
      ensures Ready() && Snapshot() == FocusPlain(old(Snapshot()), view, condense)
    {
      hide AllWellFormed, Show, HiddenByFullscreen, InputAllowed;
      var prev := GetFocusedView();
      if prev == view {
        if view.Some? {
          ShowView(view.value, condense);
        }
      } else {
        var hidden := false;
        if view.Some? {
          hidden := IsHiddenByFullscreen(view.value);
        }
        if !hidden {
          if prev.Some? {
            keyboard := None;
          }
          if view.Some? {
            FocusAllowed(view.value, condense);
          }
        }
      }
    }

    method FocusAllowed(v: ViewId, condense: bool)
      requires Ready()
      modifies this`focusStack, this`keyboard, workspaces, surfaces, animation
      ensures Ready()
      ensures var s := old(Snapshot());
              Snapshot() == if !InputAllowed(s, v) then s
                           else Show(WithSeat(s, ToFront(s.seat.focusStack, v), Some(ViewSurface(v))), v, condense)
    {
      hide AllWellFormed, Show, InputAllowed, ToFront;
      var allowed := IsInputAllowed(v);
      if allowed {
        PutInFront(v);
        keyboard := Some(ViewSurface(v));
        ShowView(v, condense);
      }
    }

    method HideView(v: ViewId)
      requires Ready()
      modifies this`focusStack, this`focusedLayer, this`keyboard, workspaces, surfaces, animation
      ensures Ready() && Snapshot() == Desktop.HideView(old(Snapshot()), v)
    {
      hide AllWellFormed, Desktop.FocusView;
      var focused := GetFocusedView();
      if focused == Some(v) {
        var next := FindMappedInStack(v);
        if next.Some? {
          FocusView(next, true);
        }
      }
    }

    // -------------------------------------------------------------------------------------
    // Views come and go
    // -------------------------------------------------------------------------------------

    /** A view is mapped: it takes its size, and a tile in the workspace under the cursor. */
    method MapView(v: ViewId, geometry: Box)
      requires Ready() && Inv(Snapshot()) && v in surfaces.views && !surfaces.views[v].mapped
      modifies this`focusStack, this`focusedLayer, this`keyboard, workspaces, surfaces, animation
      ensures Ready() && Snapshot() == Desktop.MapView(old(Snapshot()), v, geometry)
      ensures old(CanMap(Snapshot(), v)) ==> Inv(Snapshot())
    {
      hide AllWellFormed, Desktop.FocusView, AddView, Inv, Occurrences, FocusedWorkspace, NewlyMapped, CanMap;
      ghost var s := Snapshot();
      if CanMap(s, v) {
        MapViewKeeps(s, v, geometry);
      }
      TakeSize(v, geometry);
      SameCursorWorkspace(s, Snapshot());
      if FocusedWorkspace(s).Some? {
        UnmappedOccursNowhere(s, v, FocusedWorkspace(s).value);
      }
      AddUnderCursor(v);
      FocusView(Some(v), false);
    }

    /** The view gets a tile next to the focused view in the workspace under the cursor, if there is one. */
    method AddUnderCursor(v: ViewId)
      requires Ready() && v in surfaces.views
      requires var i := FocusedWorkspace(Snapshot());
               i.Some? ==> Occurrences(Snapshot().workspaces[i.value], v) == 0
      modifies workspaces, surfaces, animation
      ensures Ready()
      ensures var s := old(Snapshot());
              var i := FocusedWorkspace(s);
              Snapshot() == if i.None? then s
                            else InWorkspace(s, i.value,
                                             AddView(s.workspaces[i.value], s.screen, s.env, v, FocusedView(s), false,
                                                     false))
    {
      hide AllWellFormed, AddView, Occurrences, FocusedWorkspace;
      var focused := GetFocusedView();
      var i := GetFocusedWorkspace();
      if i.Some? {
        AddTo(i.value, v, focused, false, false);
      }
    }

    method TakeSize(v: ViewId, geometry: Box)
      requires Ready() && v in surfaces.views
      modifies surfaces
      ensures Ready()
      ensures var s := old(Snapshot());
              Snapshot() == WithTable(s, Table(s)[v := NewlyMapped(Table(s)[v], geometry)])
    {
      hide AllWellFormed;
      var view := surfaces.views[v];
      view := view.(geometry := geometry, mapped := true);
      if view.newView {
        view := view.(previousSize := (geometry.width, geometry.height), newView := false);
      }
      SetView(v, view);
    }

    method Withdraw(v: ViewId)
      requires Ready() && Inv(Snapshot()) && v in surfaces.views
      modifies workspaces, surfaces, animation
      ensures Ready() && Snapshot() == Withdrawn(old(Snapshot()), v)
    {
      hide AllWellFormed, RemoveFromWorkspace, Inv;
      ghost var s := Snapshot();
      if surfaces.views[v].mapped {
        MappedIsLocated(s, v);
        surfaces.views := surfaces.views[v := surfaces.views[v].(mapped := false)];
        ViewsStayWellFormed(s.workspaces, Table(s), surfaces.views, env);
        RemoveFrom(surfaces.views[v].workspaceId, v, false);
      }
    }

    method UnmapView(v: ViewId)
      requires Ready() && Inv(Snapshot()) && v in surfaces.views
      modifies this`focusStack, this`focusedLayer, this`keyboard, workspaces, surfaces, animation
      ensures Ready() && Inv(Snapshot()) && Snapshot() == Desktop.UnmapView(old(Snapshot()), v)
    {
      hide AllWellFormed, Withdrawn, Desktop.HideView, Inv;
      ghost var s := Snapshot();
      UnmapViewKeeps(s, v);
      Withdraw(v);
      HideView(v);
      RemoveFromFocusStack(v);
    }

    /** `remove_from_focus_stack`: every occurrence of the view is unlinked, and the other views keep their order. */
    method RemoveFromFocusStack(v: ViewId)
      modifies this`focusStack
      ensures v !in focusStack && multiset(focusStack) == multiset(old(focusStack))[v := 0]
      ensures forall u, w | u != v && w != v :: Precedes(focusStack, u, w) == Precedes(old(focusStack), u, w)
      ensures focusStack == Without(old(focusStack), v)
    {
      ghost var was := focusStack;
      var k := 0;
      while k < |focusStack|
        invariant k <= |focusStack| && v !in focusStack[..k]
        invariant Without(focusStack, v) == Without(was, v)
        decreases |focusStack| - k
      {
        if focusStack[k] == v {
          EraseOne(focusStack[..k], v, focusStack[k + 1..]);
          assert focusStack == focusStack[..k] + [v] + focusStack[k + 1..];
          focusStack := focusStack[..k] + focusStack[k + 1..];
        } else {
          k := k + 1;
        }
      }
      assert focusStack[..k] == focusStack;
      WithoutAbsent(focusStack, v);
      WithoutElements(was, v);
      forall u, w | u != v && w != v
        ensures Precedes(focusStack, u, w) == Precedes(was, u, w)
      {
        WithoutKeepsOrder(was, v, u, w);
      }
    }

    // -------------------------------------------------------------------------------------
    // Moving a view to another workspace
    // -------------------------------------------------------------------------------------

    method HandOver(v: ViewId, j: nat)
      requires Ready() && v in surfaces.views && j < |workspaces|
      modifies workspaces, surfaces, animation
      ensures Ready() && Snapshot() == HandOverFullscreen(old(Snapshot()), v, j)
    {
      hide AllWellFormed, SetFullscreen, ArrangeIn, WellFormed;
      ghost var s := Snapshot();
      if surfaces.views[v].expansion == Fullscreen {
        if workspaces[j].fullscreenView.Some? {
          FullscreenKeepsKeys(s.workspaces[j], s.screen, s.env, None);
          FullscreenIn(j, None);
        }
        MakeFullscreen(j, v);
      }
    }

    method MakeFullscreen(j: nat, v: ViewId)
      requires Ready() && v in surfaces.views && j < |workspaces|
      modifies workspaces[j], surfaces, animation
      ensures Ready()
      ensures var s := old(Snapshot());
              Snapshot() == ArrangeIn(s.(workspaces := s.workspaces[j := s.workspaces[j].(fullscreen := Some(v))]), j)
    {
      hide AllWellFormed, Arrange, WellFormed;
      ghost var s := Snapshot();
      workspaces[j].fullscreenView := Some(v);
      assert States(workspaces) == s.workspaces[j := s.workspaces[j].(fullscreen := Some(v))];
      FullscreenStaysWellFormed(s, j, v);
      ArrangeAt(j, true);
    }

    /** A floating view that is elsewhere goes to the middle of the output of its new workspace. */
    method PullOnto(v: ViewId, j: nat)
      requires Ready() && v in surfaces.views && j < |workspaces|
      modifies surfaces
      ensures Ready() && Snapshot() == PulledOnto(old(Snapshot()), v, j)
    {
      hide AllWellFormed;
      var output := workspaces[j].output;
      if output.Some? && output.value in env.outputs {
        var area := RealUsableArea(env.outputs[output.value]);
        var view := surfaces.views[v];
        if view.x < area.x || view.x >= area.x + area.width || view.y < area.y || view.y >= area.y + area.height {
          ghost var views := surfaces.views;
          surfaces.views := surfaces.views[v :=
                                           view.Move(area.x + Quotient(area.width, 2),
                                                     area.y + Quotient(area.height, 2))];
          ViewsStayWellFormed(States(workspaces), views, surfaces.views, env);
        }
      }
    }

    method Transplant(v: ViewId, j: nat)
      requires Ready() && Inv(Snapshot()) && IsMappedView(Snapshot(), v) && j < |workspaces|
               && surfaces.views[v].workspaceId != j
      modifies workspaces, surfaces, animation
      ensures Ready() && Snapshot() == Transplanted(old(Snapshot()), v, j)
    {
      hide AllWellFormed, Received, RemoveFromWorkspace, AddView, Inv, Occurrences;
      ghost var s := Snapshot();
      var i := surfaces.views[v].workspaceId;
      var floating := v in workspaces[i].floatingViews;
      ReceivedKeepsShape(s, v, i, j, floating);
      MappedOccursOnce(s, v, j);
      Receive(v, j, floating);
      Rehome(v, i, j, floating);
    }

    /** The new workspace makes room for a fullscreen view, or takes a floating one onto its output. */
    method Receive(v: ViewId, j: nat, floating: bool)
      requires Ready() && v in surfaces.views && j < |workspaces|
      modifies workspaces, surfaces, animation
      ensures Ready() && Snapshot() == Received(old(Snapshot()), v, j, floating)
    {
      hide AllWellFormed, HandOverFullscreen, PulledOnto;
      HandedKeepsKeys(Snapshot(), v, j);
      var fullscreen := surfaces.views[v].expansion == Fullscreen;
      HandOver(v, j);
      if floating && !fullscreen {
        PullOnto(v, j);
      }
    }

    /** The view leaves one workspace for another. */
    method Rehome(v: ViewId, i: nat, j: nat, floating: bool)
      requires Ready() && v in surfaces.views && i < |workspaces| && j < |workspaces| && i != j
      requires Occurrences(Snapshot().workspaces[j], v) == 0
      modifies workspaces, surfaces, animation
      ensures Ready()
      ensures var s := old(Snapshot());
              var t := InWorkspace(s, i, RemoveFromWorkspace(s.workspaces[i], s.screen, s.env, v, false));
              v in Table(t) && Snapshot() ==
                InWorkspace(t, j, AddView(t.workspaces[j], t.screen, t.env, v, None, floating, false))
    {
      hide AllWellFormed, RemoveFromWorkspace, AddView, Occurrences;
      TakenBones(Snapshot(), v, i);
      RemoveFrom(i, v, false);
      AddTo(j, v, None, floating, false);
    }

    method ChangeViewWorkspace(v: ViewId, j: nat)
      requires Ready() && Inv(Snapshot()) && IsMappedView(Snapshot(), v) && j < |workspaces|
      modifies this`focusStack, this`focusedLayer, this`keyboard, workspaces, surfaces, animation
      ensures Ready() && Inv(Snapshot()) && Snapshot() == ChangeWorkspace(old(Snapshot()), v, j)
    {
      hide AllWellFormed, Transplanted, Desktop.FocusView, FirstOf, Inv;
      ghost var s := Snapshot();
      ChangingWorkspaceKeeps(s, v, j);
      var i := surfaces.views[v].workspaceId;
      if i != j {
        TransplantKeepsInv(s, v, j);
        Transplant(v, j);
        var last := FindInStack(0, workspaces[i].index, Some(v));
        assert focusStack[0..] == focusStack;
        FocusView(last, false);
      }
    }

    // -------------------------------------------------------------------------------------
    // Commands on the focused view
    // -------------------------------------------------------------------------------------

    method SwapSizes(v: ViewId, fullscreen: bool)
      requires Ready() && v in surfaces.views
      modifies surfaces
      ensures Ready() && Snapshot() == SizesSwapped(old(Snapshot()), v, fullscreen)
    {
      hide AllWellFormed;
      ghost var views := surfaces.views;
      var view := surfaces.views[v];
      if fullscreen {
        if view.saved.None? {
          surfaces.fault := true;
        } else {
          var (width, height) := view.previousSize;
          view := view.(previousSize := (view.saved.value.width, view.saved.value.height));
          view := view.(saved := Some(view.saved.value.(width := width, height := height)));
          surfaces.views := surfaces.views[v := view];
        }
      } else {
        var (width, height) := view.previousSize;
        view := view.(previousSize := (view.geometry.width, view.geometry.height));
        view := view.Resize(width, height);
        surfaces.views := surfaces.views[v := view];
      }
      ViewsStayWellFormed(States(workspaces), views, surfaces.views, env);
    }

    method Refloat(v: ViewId)
      requires Ready() && Inv(Snapshot()) && IsMappedView(Snapshot(), v)
      modifies workspaces, surfaces, animation
      ensures Ready() && Snapshot() == Refloated(old(Snapshot()), v, old(surfaces.views[v].workspaceId))
    {
      hide AllWellFormed, SizesSwapped, RemoveFromWorkspace, AddView, LastTile, Inv, Occurrences;
      ghost var s := Snapshot();
      var i := surfaces.views[v].workspaceId;
      var floating := v in workspaces[i].floatingViews;
      SwappedKeepsShape(s, v, workspaces[i].fullscreenView == Some(v));
      SwapSizes(v, workspaces[i].fullscreenView == Some(v));
      MappedOccursOnce(s, v, i);
      ghost var s1 := Snapshot();
      GoneWhenRemoved(s1.workspaces[i], s1.screen, env, v);
      RemoveFrom(i, v, true);
      var last := LastTile(workspaces[i].columns);
      AddTo(i, v, last, !floating, true);
    }

    method ToggleFloating()
      requires Ready() && Inv(Snapshot())
      modifies workspaces, surfaces, animation
      ensures Ready() && Inv(Snapshot()) && Snapshot() == Desktop.ToggleFloating(old(Snapshot()))
    {
      hide AllWellFormed, Refloated, Show, FirstOf, Inv;
      ghost var s := Snapshot();
      TogglingKeeps(s);
      var focused := GetFocusedView();
      if focused.Some? {
        FocusedIsLocated(s);
        var v := focused.value;
        var i := surfaces.views[v].workspaceId;
        var floating := v in workspaces[i].floatingViews;
        Refloat(v);
        if floating {
          ShowView(v, false);
        } else {
          var previous := FindInStack(0, i, Some(v));
          assert focusStack[0..] == focusStack;
          if previous.Some? {
            ShowView(previous.value, true);
          }
        }
      }
    }

    method ScrollWorkspace(i: nat, scroll: int, animate: bool)
      requires Ready() && i < |workspaces|
      modifies workspaces[i], surfaces, animation
      ensures Ready() && Snapshot() == ScrollTo(old(Snapshot()), i, scroll, animate)
    {
      hide AllWellFormed, Arrange, WellFormed;
      ghost var s := Snapshot();
      workspaces[i].scrollX := scroll;
      ghost var w := s.workspaces[i].(scrollX := scroll);
      assert States(workspaces) == s.workspaces[i := w];
      ScrolledStaysWellFormed(s, i, w);
      ArrangeAt(i, animate);
    }

    method FindWorkspaceOn(output: Option<OutputId>) returns (i: nat)
      ensures i == WorkspaceOn(Snapshot().workspaces, output)
    {
      ghost var ws := Snapshot().workspaces;
      i := 0;
      while i < |workspaces| && workspaces[i].output != output
        invariant i <= |workspaces| && WorkspaceOn(ws, output) == i + WorkspaceOn(ws[i..], output)
      {
        assert ws[i..][1..] == ws[i + 1..];
        i := i + 1;
      }
    }

    method SetView(v: ViewId, view: View)
      requires Ready() && v in surfaces.views
      modifies surfaces
      ensures Ready() && Snapshot() == WithTable(old(Snapshot()), old(surfaces.views)[v := view])
    {
      hide AllWellFormed;
      ghost var views := surfaces.views;
      surfaces.views := surfaces.views[v := view];
      ViewsStayWellFormed(States(workspaces), views, surfaces.views, env);
    }

    /** A floating view goes to a new position, and to the workspace of the output it is on there. */
    method FloatView(v: ViewId, x: int, y: int, under: Option<OutputId>)
      requires Ready() && Inv(Snapshot()) && IsMappedView(Snapshot(), v)
      modifies this`focusStack, this`focusedLayer, this`keyboard, workspaces, surfaces, animation
      ensures Ready() && Inv(Snapshot()) && Snapshot() == FloatTo(old(Snapshot()), v, x, y, under)
    {
      hide AllWellFormed, ChangeWorkspace, Inv, WorkspaceOn;
      ghost var s := Snapshot();
      FloatingToKeeps(s, v, x, y, under);
      PuttingKeeps(s, v, Table(s)[v].Move(x, y));
      SetView(v, surfaces.views[v].Move(x, y));
      var i := surfaces.views[v].workspaceId;
      if v in workspaces[i].floatingViews && under.Some? && under != workspaces[i].output {
        var j := FindWorkspaceOn(under);
        if j < |workspaces| {
          ChangeViewWorkspace(v, j);
        }
      }
    }

    method ReconfigureViewPosition(v: ViewId, x: int, y: int, animate: bool, under: Option<OutputId>)
      requires Ready() && Inv(Snapshot()) && IsMappedView(Snapshot(), v)
      modifies this`focusStack, this`focusedLayer, this`keyboard, workspaces, surfaces, animation
      ensures Ready() && Inv(Snapshot()) && Snapshot() == Reposition(old(Snapshot()), v, x, y, animate, under)
    {
      hide AllWellFormed, ScrollTo, FloatTo, Inv, FindColumn;
      RepositioningKeeps(Snapshot(), v, x, y, animate, under);
      var i := surfaces.views[v].workspaceId;
      var c := workspaces[i].FindColumnOf(Some(v));
      if c != |workspaces[i].columns| {
        var dx := surfaces.views[v].x - x;
        ScrollWorkspace(i, workspaces[i].scrollX + dx, animate);
      } else {
        FloatView(v, x, y, under);
      }
    }

    /** Swaps a column with its neighbour, if there is one on that side. */
    static method SwapColumn(w: Workspace, c: nat, dx: int) returns (d: nat)
      requires c < |w.columns|
      modifies w`columns
      ensures w.columns == if dx != 0 && 0 <= c + Sign(dx) < |old(w.columns)| then
              Swapped(old(w.columns), c, c + Sign(dx)) else old(w.columns)
      ensures d == if dx != 0 && 0 <= c + Sign(dx) < |old(w.columns)| then c + Sign(dx) else c
    {
      d := c;
      if dx != 0 {
        var cols := w.columns;
        var other := c + Sign(dx);
        if other != |cols| && other != -1 {
          w.columns := cols[c := cols[other]][other := cols[c]];
          d := other;
        }
      }
    }

    /** Swaps the tile of a view with the next one, around the ends of the column. */
    static method SwapTile(w: Workspace, d: nat, v: ViewId, dy: int)
      requires d < |w.columns| && HasView(w.columns[d], v)
      modifies w`columns
      ensures w.columns == old(w.columns)[d := StepTile(old(w.columns)[d], v, dy)]
    {
      hide FindTile;
      var col := w.columns[d];
      TileFound(col, v);
      if dy != 0 && |col| > 1 {
        var t := FindTile(col, v);
        WrapBack(t, Sign(dy), |col|);
        var index := (t - Sign(dy) + |col|) % |col|;
        assert index == Wrapped(t, Sign(dy), |col|);
        w.columns := w.columns[d := col[t := col[index]][index := col[t]]];
      }
    }

    method MoveTile(v: ViewId, i: nat, c: nat, dx: int, dy: int)
      requires Ready() && Inv(Snapshot()) && i < |workspaces|
               && c == FindColumn(workspaces[i].columns, v) < |workspaces[i].columns|
      modifies workspaces, surfaces, animation
      ensures Ready() && Snapshot() == MoveTiled(old(Snapshot()), v, i, dx, dy)
    {
      hide AllWellFormed, Arrange, FitView, Inv, FindColumn, StepTile, Swapped;
      ghost var s := Snapshot();
      ghost var (cols, at) := Moved(s.workspaces[i].columns, v, dx, dy);
      StepColumnKeepsView(s.workspaces[i].columns, v, dx);
      var d := SwapColumn(workspaces[i], c, dx);
      SwapTile(workspaces[i], d, v, dy);
      assert workspaces[i].columns == cols && d == at;
      ghost var w := s.workspaces[i].(columns := cols);
      assert States(workspaces) == s.workspaces[i := w];
      MovedStaysWellFormed(s, v, i, dx, dy);
      ArrangeAt(i, true);
      var col := workspaces[i].columns[d];
      FitIn(i, col[0].view, false);
    }

    method Move(dx: int, dy: int, under: Option<OutputId>)
      requires Ready() && Inv(Snapshot())
      modifies this`focusStack, this`focusedLayer, this`keyboard, workspaces, surfaces, animation
      ensures Ready() && Inv(Snapshot()) && Snapshot() == MoveFocused(old(Snapshot()), dx, dy, under)
    {
      hide AllWellFormed, MoveTiled, FloatTo, FindColumn, Inv;
      ghost var s := Snapshot();
      MovingKeeps(s, dx, dy, under);
      var focused := GetFocusedView();
      if focused.Some? {
        FocusedIsLocated(s);
        var v := focused.value;
        var i := surfaces.views[v].workspaceId;
        var c := workspaces[i].FindColumnOf(Some(v));
        if c != |workspaces[i].columns| {
          MoveTile(v, i, c, dx, dy);
        } else {
          FloatView(v, surfaces.views[v].x + dx, surfaces.views[v].y + dy, under);
        }
      }
    }

    /** The view that the insert command takes from the column on the right, if any. */
    method FindAbsorbed(i: nat, v: ViewId) returns (absorbed: Option<ViewId>)
      requires i < |workspaces| && NoEmptyColumn(workspaces[i].columns)
      ensures absorbed == Absorbed(workspaces[i].columns, surfaces.views, v)
    {
      hide FindColumn;
      var cols := workspaces[i].columns;
      var c := workspaces[i].FindColumnOf(Some(v));
      absorbed := None;
      if c + 1 < |cols| {
        var t := BeginTiles(cols[c + 1], surfaces.views);
        FirstOfTiles(cols[c + 1], surfaces.views, t);
        if t != |cols[c + 1]| {
          absorbed := Some(cols[c + 1][t].view);
        }
      }
    }

    method InsertIntoColumn()
      requires Ready() && Inv(Snapshot()) && CanInsert(Snapshot())
      modifies workspaces, surfaces, animation
      ensures Ready() && Inv(Snapshot()) && Snapshot() == InsertFocused(old(Snapshot()))
    {
      hide AllWellFormed, InsertView, FindColumn, Absorbed, Inv, Distinct;
      ghost var s := Snapshot();
      InsertingKeeps(s);
      var focused := GetFocusedView();
      if focused.Some? {
        FocusedIsLocated(s);
        var v := focused.value;
        var i := surfaces.views[v].workspaceId;
        InvMeansTiled(s, i);
        var absorbed := FindAbsorbed(i, v);
        if absorbed.Some? {
          AbsorbedIsTiled(s, i, v);
          var c := workspaces[i].FindColumnOf(Some(v));
          InsertIn(i, absorbed.value, c);
        }
      }
    }

    method PopFromColumn()
      requires Ready() && Inv(Snapshot())
      modifies workspaces, surfaces, animation
      ensures Ready() && Inv(Snapshot()) && Snapshot() == PopFocused(old(Snapshot()))
    {
      hide AllWellFormed, PopColumn, FindColumn, Show, Inv;
      ghost var s := Snapshot();
      PoppingKeeps(s);
      var focused := GetFocusedView();
      if focused.Some? {
        FocusedIsLocated(s);
        var v := focused.value;
        if surfaces.views[v].expansion == Normal {
          var i := surfaces.views[v].workspaceId;
          var c := workspaces[i].FindColumnOf(Some(v));
          if c != |workspaces[i].columns| {
            PopIn(i, c);
            ShowView(v, false);
          }
        }
      }
    }

    method FocusCycle()
      requires Ready() && Inv(Snapshot())
      modifies this`focusStack, this`focusedLayer, this`keyboard, workspaces, surfaces, animation
      ensures Ready() && Inv(Snapshot()) && Snapshot() == Desktop.FocusCycle(old(Snapshot()))
    {
      hide AllWellFormed, Desktop.FocusView, FocusedWorkspace, FirstOf, Inv, SecondToBack;
      CyclingKeeps(Snapshot());
      var i := GetFocusedWorkspace();
      if i.Some? && focusStack != [] {
        var next := FindInStack(1, workspaces[i.value].index, None);
        if next.Some? {
          FocusView(next, false);
          if |focusStack| >= 2 {
            SendSecondToBack();
          }
        }
      }
    }

    method FocusColumn(i: nat, c: nat)
      requires Ready() && Inv(Snapshot()) && i < |workspaces| && c < |workspaces[i].columns|
      modifies this`focusStack, this`focusedLayer, this`keyboard, workspaces, surfaces, animation
      ensures Ready() && Inv(Snapshot()) && Snapshot() == Desktop.FocusColumn(old(Snapshot()), i, c)
    {
      hide AllWellFormed, Desktop.FocusView, FirstTiled, Inv;
      FocusingColumnKeeps(Snapshot(), i, c);
      InvMeansTiled(Snapshot(), i);
      var first := FirstTiledOf(focusStack, workspaces[i].columns[c], surfaces.views);
      if first.Some? {
        FocusView(first, false);
      }
    }

    method SendSecondToBack()
      requires |focusStack| >= 2
      modifies this`focusStack
      ensures focusStack == SecondToBack(old(focusStack))
    {
      var previous := focusStack[1];
      focusStack := focusStack[..1] + focusStack[2..];
      focusStack := focusStack + [previous];
    }

    /** What `begin_move` and `begin_resize` do to the animations around the view that the pointer takes hold of. */
    method TakeHold(v: ViewId)
      requires Ready() && Inv(Snapshot()) && IsMappedView(Snapshot(), v)
      modifies surfaces, animation
      ensures Ready() && Snapshot() == Desktop.TakeHold(old(Snapshot()), v)
      ensures Inv(Snapshot()) <==> old(NoneCarriesDeparture(animation.tasks, HaltedBy(Snapshot(), v)))
    {
      hide AllWellFormed, Inv, Halted, NoneCarriesDeparture, TiledViews;
      ghost var s := Snapshot();
      TakingHoldIsSafeExactlyWhen(s, v);
      NothingHalted(s.screen);
      var i := surfaces.views[v].workspaceId;
      if v !in workspaces[i].floatingViews {
        CancelTiles(i);
      }
    }

    method CancelTiles(i: nat)
      requires Ready() && i < |workspaces|
      modifies surfaces, animation
      ensures Ready()
      ensures var s := old(Snapshot());
              var cols := s.workspaces[i].columns;
              Snapshot() == s.(screen := Halted(s.screen, TiledViews(cols, |cols|)))
    {
      hide AllWellFormed, Halted, WellFormed;
      ghost var s := Snapshot();
      NothingHalted(s.screen);
      var cols := workspaces[i].columns;
      for c := 0 to |cols|
        invariant ScreenOf(surfaces, animation) == Halted(s.screen, TiledViews(cols, c))
        invariant surfaces.views.Keys == s.screen.views.Keys
      {
        assert TiledViews(cols, c) + ColumnViews(cols[c], 0) == TiledViews(cols, c);
        for t := 0 to |cols[c]|
          invariant ScreenOf(surfaces, animation) ==
                    Halted(s.screen, TiledViews(cols, c) + ColumnViews(cols[c], t))
          invariant surfaces.views.Keys == s.screen.views.Keys
        {
          TileIsKnown(s, i, c, t);
          CancelOne(s.screen, TiledViews(cols, c) + ColumnViews(cols[c], t), cols[c][t].view);
          assert TiledViews(cols, c) + ColumnViews(cols[c], t + 1) ==
              TiledViews(cols, c) + ColumnViews(cols[c], t) + [cols[c][t].view];
        }
      }
      ViewsStayWellFormed(s.workspaces, Table(s), surfaces.views, env);
    }

    /** The tasks of one more view are cancelled. */
    method CancelOne(ghost s: Screen, ghost ids: seq<ViewId>, v: ViewId)
      requires v in surfaces.views && ScreenOf(surfaces, animation) == Halted(s, ids)
      modifies surfaces`views, animation`tasks
      ensures ScreenOf(surfaces, animation) == Halted(s, ids + [v])
      ensures surfaces.views.Keys == old(surfaces.views.Keys)
    {
      assert (ids + [v])[..|ids|] == ids;
      animation.CancelTasks(surfaces, v);
    }

    // -------------------------------------------------------------------------------------
    // Requests of clients
    // -------------------------------------------------------------------------------------

    method ToplevelRequestFullscreen(v: ViewId, on: bool)
      requires Ready() && Inv(Snapshot()) && IsMappedView(Snapshot(), v)
      modifies workspaces, surfaces, animation
      ensures Ready() && Snapshot() == RequestFullscreen(old(Snapshot()), v, on)
      ensures old(CanFullscreen(Snapshot(), v, on)) ==> Inv(Snapshot())
    {
      hide AllWellFormed, SetFullscreen, Inv;
      if CanFullscreen(Snapshot(), v, on) {
        RequestingKeeps(Snapshot(), v, on);
      }
      FullscreenIn(surfaces.views[v].workspaceId, if on then Some(v) else None);
    }

    method SurfaceCommit(v: ViewId, geometry: Box)
      requires Ready() && Inv(Snapshot()) && IsMappedView(Snapshot(), v)
      modifies surfaces, animation
      ensures Ready() && Inv(Snapshot()) && Snapshot() == Commit(old(Snapshot()), v, geometry)
    {
      hide AllWellFormed, Arrange, Inv;
      CommitKeeps(Snapshot(), v, geometry);
      var view := surfaces.views[v];
      if geometry != view.geometry {
        view := view.(geometry := geometry);
        if view.expansion == Recovering {
          view := view.(expansion := Normal);
        }
        SetView(v, view);
        ArrangeAt(view.workspaceId, true);
      }
    }

    // -------------------------------------------------------------------------------------
    // Outputs and workspaces
    // -------------------------------------------------------------------------------------

    method CreateWorkspace()
      requires Ready()
      modifies this`workspaces
      ensures Ready() && |workspaces| == |old(workspaces)| + 1
      ensures workspaces[..|old(workspaces)|] == old(workspaces) && fresh(workspaces[|old(workspaces)|])
      ensures var s := old(Snapshot());
              Snapshot() == s.(workspaces := s.workspaces + [EmptyWorkspace(|s.workspaces|)])
    {
      hide AllWellFormed;
      ghost var s := Snapshot();
      var w := new Workspace(|workspaces|);
      assert w !in workspaces;
      workspaces := workspaces + [w];
      assert States(workspaces) == s.workspaces + [EmptyWorkspace(|s.workspaces|)];
      NewWorkspaceWellFormed(s.workspaces, Table(s), env);
    }

    method SetOutput(o: OutputId, info: OutputInfo)
      requires Ready()
      modifies this`env
      ensures Ready() && Snapshot() == old(Snapshot()).(env := old(env).(outputs := old(env).outputs[o := info]))
    {
      hide AllWellFormed;
      ghost var e := env;
      env := env.(outputs := env.outputs[o := info]);
      OutputsStayWellFormed(States(workspaces), surfaces.views, e, env);
    }

    /** An output is added to the layout. */
    method OutputAdded(o: OutputId, info: OutputInfo)
      requires Ready() && Inv(Snapshot()) && o !in env.outputs
      modifies this`env, this`workspaces, workspaces, surfaces
      ensures Ready() && Inv(Snapshot()) && Snapshot() == AddOutput(old(Snapshot()), o, info)
    {
      hide AllWellFormed, Activate, WorkspaceOn, Inv;
      ghost var s := Snapshot();
      AddingOutputKeeps(s, o, info);
      SetOutput(o, info);
      var i := FindWorkspaceOn(None);
      if i == |workspaces| {
        CreateWorkspace();
      }
      ActivateOn(i, o);
    }

    method OutputDestroyed(o: OutputId)
      requires Ready() && Inv(Snapshot())
      modifies this`env, this`cursor, workspaces, surfaces
      ensures Snapshot() == DestroyOutput(old(Snapshot()), o)
      ensures old(CanDestroy(Snapshot(), o)) ==> Ready() && Inv(Snapshot())
    {
      hide AllWellFormed, Deactivate, WorkspaceOn, Inv, CanDestroy;
      ghost var s := Snapshot();
      if CanDestroy(s, o) {
        DestroyingOutputKeeps(s, o);
      }
      var i := FindWorkspaceOn(Some(o));
      if i != |workspaces| {
        DeactivateAt(i);
      }
      env := env.(outputs := env.outputs - {o});
      cursor := cursor - {o};
      if CanDestroy(s, o) {
        InvIsWellFormed(Snapshot());
      }
    }

    /** `arrange_layers`, as far as the workspace on the output is concerned: if the usable area has changed, the
        focused view is shown there, or the workspace is laid out. */
    method UsableAreaChanged(o: OutputId, info: OutputInfo)
      requires Ready() && Inv(Snapshot()) && o in env.outputs
      modifies this`env, workspaces, surfaces, animation
      ensures Ready() && Inv(Snapshot()) && Snapshot() == ChangeUsableArea(old(Snapshot()), o, info)
    {
      hide AllWellFormed, Arrange, FitView, WorkspaceOn, Inv;
      ghost var s := Snapshot();
      ChangingUsableAreaKeeps(s, o, info);
      HolderExists(s, o);
      var usable := env.outputs[o].usable;
      SetOutput(o, info);
      if info.usable != usable {
        var i := FindWorkspaceOn(Some(o));
        var focused := GetFocusedView();
        if focused.Some? && focused.value in surfaces.views
           && surfaces.views[focused.value].workspaceId == workspaces[i].index {
          FitIn(i, focused.value, false);
        } else {
          ArrangeAt(i, true);
        }
      }
    }

    /** `arrange_output`: the workspace on the output, if there is one, is laid out. */
    method ArrangeOutput(o: OutputId)
      requires Ready()
      modifies surfaces, animation
      ensures Ready() && Snapshot() == Desktop.ArrangeOutput(old(Snapshot()), o)
    {
      hide AllWellFormed, Arrange, WorkspaceOn;
      var i := FindWorkspaceOn(Some(o));
      if i != |workspaces| {
        ArrangeAt(i, true);
      }
    }

    /** The handler for a new mode, scale or transform. */
    method OutputResized(o: OutputId, info: OutputInfo)
      requires Ready() && Inv(Snapshot()) && o in env.outputs
      modifies this`env, workspaces, surfaces, animation
      ensures Ready() && Inv(Snapshot()) && Snapshot() == ResizeOutput(old(Snapshot()), o, info)
    {
      hide AllWellFormed, ChangeUsableArea, Desktop.ArrangeOutput, Inv;
      ResizingOutputKeeps(Snapshot(), o, info);
      UsableAreaChanged(o, info);
      ArrangeOutput(o);
    }

    /** The views of the normal tiles of a workspace, column by column. */
    method CollectNormalTiles(w: Workspace) returns (ids: seq<ViewId>)
      requires NoEmptyColumn(w.columns)
      ensures ids == NormalTiles(w.columns, surfaces.views, |w.columns|)
    {
      var views := surfaces.views;
      ids := [];
      for c := 0 to |w.columns|
        invariant ids == NormalTiles(w.columns, views, c)
      {
        var more := CollectNormalIn(w.columns[c], views);
        ids := ids + more;
      }
    }

    static method CollectNormalIn(col: Column, views: ViewTable) returns (ids: seq<ViewId>)
      requires col != []
      ensures ids == NormalIn(col, views, |col|)
    {
      ids := [];
      var t := BeginTiles(col, views);
      SkippedNormals(col, views, 0, t);
      while t != |col|
        invariant t <= |col| && AtTileOrEnd(col, views, t) && ids == NormalIn(col, views, t)
        decreases |col| - t
      {
        ids := ids + [col[t].view];
        var next := NextTile(col, views, t);
        SkippedNormals(col, views, t + 1, next);
        t := next;
      }
    }

    method PutViewsOff(ids: seq<ViewId>, dy: int)
      requires forall k | 0 <= k < |ids| :: ids[k] in surfaces.views
      modifies surfaces`views
      ensures surfaces.views == PutOff(old(surfaces.views), ids, dy)
    {
      ghost var views := surfaces.views;
      for k := 0 to |ids|
        invariant surfaces.views == PutOff(views, ids[..k], dy)
      {
        assert ids[..k + 1][..k] == ids[..k];
        var view := surfaces.views[ids[k]];
        surfaces.views := surfaces.views[ids[k] := view.Move(view.x, view.y + dy)];
      }
      assert ids[..|ids|] == ids;
    }

    /** Queues the animations of a slide; the last of them knows what is to be done afterwards. */
    method EnqueueSlides(ids: seq<ViewId>, dy: int, callback: Callback)
      requires forall k | 0 <= k < |ids| :: ids[k] in surfaces.views
      modifies animation`tasks
      ensures animation.tasks == old(animation.tasks) + SlideTasks(surfaces.views, ids, dy, env.now, callback)
    {
      ghost var tasks := animation.tasks;
      for k := 0 to |ids|
        invariant animation.tasks ==
                    tasks + SlideTasks(surfaces.views, ids[..k], dy, env.now, if k == |ids| then callback else Silent)
      {
        assert ids[..k + 1][..k] == ids[..k];
        var view := surfaces.views[ids[k]];
        animation.EnqueueTask(surfaces, ids[k], view.x, view.y - dy, env.now, if k == |ids| - 1 then callback
                              else Silent);
      }
      assert ids[..|ids|] == ids;
    }

    /** The workspace that comes in starts beside the output; the floating views of the other one go along. */
    method SlideWorkspaceIn(n: nat, p: nat, o: OutputId, dy: int) returns (slides: bool)
      requires Ready() && n < |workspaces| && p < |workspaces|
      modifies surfaces, animation
      ensures Ready() && Snapshot() == SlideIn(old(Snapshot()), n, p, o, dy)
      ensures slides <==> Sliding(old(Snapshot()), n, p) != []
    {
      hide AllWellFormed, WellFormed, NormalTiles, PutOff, SlideTasks;
      ghost var s := Snapshot();
      NoEmptyColumns(s, n);
      SlidingIsKnown(s, n, p);
      var ids := CollectNormalTiles(workspaces[n]);
      ids := ids + workspaces[p].floatingViews;
      assert ids == Sliding(s, n, p);
      PutViewsOff(ids, dy);
      ViewsStayWellFormed(s.workspaces, Table(s), surfaces.views, env);
      EnqueueSlides(ids, dy, ArrivalOf(n, o));
      slides := ids != [];
    }

    method SlideWorkspaceOut(p: nat, dy: int)
      requires Ready() && p < |workspaces|
      modifies workspaces[p], surfaces, animation
      ensures Ready() && Snapshot() == SlideOut(old(Snapshot()), p, dy)
    {
      hide AllWellFormed, WellFormed, NormalTiles, SlideTasks, Deactivate;
      ghost var s := Snapshot();
      NoEmptyColumns(s, p);
      SlidingIsKnown(s, p, p);
      var ids := CollectNormalTiles(workspaces[p]);
      ids := ids + workspaces[p].floatingViews;
      assert ids == Sliding(s, p, p);
      if ids != [] {
        EnqueueSlides(ids, dy, DepartureOf(p));
      } else {
        DeactivateAt(p);
      }
    }

    /** The cursor goes to an output, and the focus to the last focused view of workspace n. */
    method FocusOutputNow(n: nat, o: OutputId)
      requires Ready() && n < |workspaces|
      modifies this`cursor, this`focusStack, this`focusedLayer, this`keyboard, workspaces, surfaces, animation
      ensures Ready() && Snapshot() == FocusThere(old(Snapshot()), n, o)
    {
      hide AllWellFormed, Desktop.FocusView, FirstOf;
      cursor := {o};
      var last := FindInStack(0, workspaces[n].index, None);
      assert focusStack[0..] == focusStack;
      FocusView(last, false);
    }

    method FocusWorkspaceNow(n: nat)
      requires Ready() && n < |workspaces|
      modifies this`cursor, this`focusStack, this`focusedLayer, this`keyboard, workspaces, surfaces, animation
      ensures Ready() && Snapshot() == FocusOn(old(Snapshot()), n)
    {
      hide AllWellFormed, FocusThere;
      if workspaces[n].output.None? {
        surfaces.fault := true;
      } else {
        FocusOutputNow(n, workspaces[n].output.value);
      }
    }

    method TakeOverOutput(n: nat, p: nat) returns (slides: bool)
      requires Ready() && Inv(Snapshot()) && n < |workspaces| && p < |workspaces| && workspaces[p].output.Some?
      modifies workspaces, surfaces, animation
      ensures Ready() && Snapshot() == TakeOver(old(Snapshot()), n, p)
      ensures slides <==> Sliding(Entered(old(Snapshot()), n, p), n, p) != []
    {
      hide AllWellFormed, Activate, Arrange, Inv, SlideIn, SlideOut, Sliding;
      OutputExistsInv(Snapshot(), p);
      var o := workspaces[p].output.value;
      var height := env.outputs[o].usable.height;
      var dy := if workspaces[p].index < workspaces[n].index then height else -height;
      ActivateOn(n, o);
      ArrangeAt(n, false);
      slides := SlideWorkspaceIn(n, p, o, dy);
      SlideWorkspaceOut(p, dy);
    }

    /** `Seat::focus`. If anything slides in, the focus follows when the animation has finished. */
    method FocusWorkspace(n: nat)
      requires Ready() && Inv(Snapshot()) && n < |workspaces|
      modifies this`cursor, this`focusStack, this`focusedLayer, this`keyboard, workspaces, surfaces, animation
      ensures Ready() && Snapshot() == SwitchTo(old(Snapshot()), n)
      ensures old(CanSwitch(Snapshot(), n)) ==> Inv(Snapshot())
    {
      hide AllWellFormed, TakeOver, FocusOn, FocusedWorkspace, Inv, CanSwitch, Entered, Sliding;
      ghost var s := Snapshot();
      if CanSwitch(s, n) {
        SwitchingToKeeps(s, n);
      }
      var current := GetFocusedWorkspace();
      if current != Some(n) {
        if workspaces[n].output.Some? {
          FocusWorkspaceNow(n);
        } else if current.None? {
          surfaces.fault := true;
        } else {
          var slides := TakeOverOutput(n, current.value);
          if !slides {
            TakenOverBones(s, n, current.value);
            FocusWorkspaceNow(n);
          }
        }
      }
    }

    /** The command `workspace_switch`. */
    method WorkspaceSwitch(n: nat)
      requires Ready() && Inv(Snapshot())
      modifies this`cursor, this`focusStack, this`focusedLayer, this`keyboard, workspaces, surfaces, animation
      ensures Ready() && Snapshot() == SwitchCommand(old(Snapshot()), n)
      ensures old(n < |workspaces| ==> CanSwitch(Snapshot(), n)) ==> Inv(Snapshot())
    {
      hide AllWellFormed, SwitchTo, Arrange, Inv, CanSwitch;
      if n < |workspaces| {
        if CanSwitch(Snapshot(), n) {
          SwitchCommandKeeps(Snapshot(), n);
        }
        FocusWorkspace(n);
        ArrangeAt(n, true);
      }
    }

    /** The command `workspace_move`. */
    method WorkspaceMove(n: nat)
      requires Ready() && Inv(Snapshot())
      modifies this`focusStack, this`focusedLayer, this`keyboard, workspaces, surfaces, animation
      ensures Ready() && Inv(Snapshot()) && Snapshot() == MoveToCommand(old(Snapshot()), n)
    {
      hide AllWellFormed, ChangeWorkspace, Arrange, Inv;
      MoveToCommandKeeps(Snapshot(), n);
      var focused := GetFocusedView();
      if n < |workspaces| && focused.Some? {
        FocusedIsLocated(Snapshot());
        ChangeViewWorkspace(focused.value, n);
        ArrangeAt(n, true);
      }
    }

    /** The callback of the last animation of the workspace that came in. */
    method ArrivalFinished(n: nat, o: OutputId)
      requires Ready() && n < |workspaces|
      modifies this`cursor, this`focusStack, this`focusedLayer, this`keyboard, workspaces, surfaces, animation
      ensures Ready() && Snapshot() == Done(old(Snapshot()), ArrivalOf(n, o))
    {
      hide AllWellFormed, FocusThere;
      FocusOutputNow(n, o);
    }

    /** The callback of the last animation of the workspace that went out. */
    method DepartureFinished(p: nat)
      requires Ready() && p < |workspaces|
      modifies workspaces, surfaces
      ensures Ready() && Snapshot() == Done(old(Snapshot()), DepartureOf(p))
    {
      hide AllWellFormed, Deactivate;
      DeactivateAt(p);
    }

    method FindDominantIn(i: nat) returns (found: Option<ViewId>, best: nat)
      requires Inv(Snapshot()) && i < |workspaces|
      ensures IsDominantIn(Snapshot(), i, found, best)
    {
      hide Inv, Dominates;
      InvMeansTiled(Snapshot(), i);
      OutputExistsInv(Snapshot(), i);
      var focused := GetFocusedView();
      var lost;
      found, best, lost := FindDominantView(workspaces[i], surfaces, env, focusStack, focused);
    }

    /** `update_swipe`, once a frame: the workspace scrolls on without animation, the view that is seen best becomes the
        dominant one, and it is focused when the scroll ends. */
    method UpdateSwipe(seat: SeatGrab) returns (found: Option<ViewId>, best: nat)
      requires Ready() && Inv(Snapshot())
      requires seat.grab.WorkspaceScroll? ==> 0 <= seat.grab.workspace < |workspaces|
      modifies seat, this`focusStack, this`focusedLayer, this`keyboard, workspaces, surfaces, animation
      ensures Ready() && seat.grab == NextGrab(old(seat.grab), found)
      ensures var s, g := old(Snapshot()), old(seat.grab);
              if !g.WorkspaceScroll? || !g.scroll.ready then Snapshot() == s
              else
                var scroll, ended := Trunc(Frame(g.scroll).scroll), Ended(Frame(g.scroll));
                var view := if found.Some? then found else g.dominant;
                && IsDominantIn(ScrollTo(s, g.workspace, scroll, false), g.workspace, found, best)
                && Snapshot() == SwipeFrame(s, g.workspace, scroll, ended, view)
                && (Inv(Snapshot()) <==> !ended || MayFocus(s, view))
    {
      hide AllWellFormed, Inv, ScrollTo, Desktop.FocusView, Abs, IsDominantIn, MayFocus;
      found, best := None, 0;
      if seat.grab.WorkspaceScroll? && seat.grab.scroll.ready {
        ghost var s, g := Snapshot(), seat.grab;
        found, best := ScrollOn(seat);
        var ended := seat.SlowDown(found);
        SwipeFrameIsSafeExactlyWhen(s, g.workspace, Trunc(seat.grab.scroll.scroll), ended, seat.grab.dominant);
        if ended {
          FocusView(seat.grab.dominant, false);
          seat.EndTouchpadSwipe();
        }
      }
    }

    /** The first part of a frame: the workspace scrolls on, and the view that is seen best then is looked up. */
    method ScrollOn(seat: SeatGrab) returns (found: Option<ViewId>, best: nat)
      requires Ready() && Inv(Snapshot())
      requires seat.grab.WorkspaceScroll? && 0 <= seat.grab.workspace < |workspaces|
      modifies seat, workspaces, surfaces, animation
      ensures Ready() && seat.grab == old(seat.grab).(scroll := Advanced(old(seat.grab).scroll))
      ensures var g := old(seat.grab);
              && Snapshot() == ScrollTo(old(Snapshot()), g.workspace, Trunc(Advanced(g.scroll).scroll), false)
              && IsDominantIn(Snapshot(), g.workspace, found, best)
    {
      hide AllWellFormed, Inv, ScrollTo, IsDominantIn;
      var i := seat.grab.workspace;
      seat.Advance();
      var scroll := Trunc(seat.grab.scroll.scroll);
      ScrollingKeeps(Snapshot(), i, scroll, false);
      ScrolledKeepsCount(Snapshot(), i, scroll);
      ScrollWorkspace(i, scroll, false);
      found, best := FindDominantIn(i);
    }

    /** One round of the timer's loop: a task is taken, and what it wants done is done. */
    method RunTask()
      requires Ready() && Inv(Snapshot()) && animation.duration > 0 && animation.tasks != []
      modifies this`cursor, this`focusStack, this`focusedLayer, this`keyboard, workspaces, surfaces, animation
      ensures Ready() && Inv(Snapshot()) && Snapshot() == TakeTask(old(Snapshot()), animation.duration)
      ensures |animation.tasks| >= |old(animation.tasks)| - 1
    {
      hide AllWellFormed, Inv, LosesJust, FrontRun, Done;
      ghost var s := Snapshot();
      FrontIsKnown(s);
      TakingTaskKeeps(s, animation.duration);
      FrontRunLosesJust(s, animation.duration);
      var callback := animation.TakeTask(surfaces, env.now);
      assert Snapshot() == FrontTaken(s, animation.duration) && callback == FrontWish(s, animation.duration);
      ViewsStayWellFormed(s.workspaces, Table(s), surfaces.views, env);
      match callback {
        case Silent => DoneSilently(Snapshot());
        case ArrivalOf(n, o) => ArrivingKeeps(s, Snapshot(), n, o); ArrivalFinished(n, o);
        case DepartureOf(p) => DepartingKeeps(s, Snapshot(), p); DepartureFinished(p);
      }
    }

    /** The animation timer fires. Every task that is queued then is taken once, and the queue never runs out before; no
        view it moves is gone. */
    method AnimationTick(now: Time)
      requires Ready() && Inv(Snapshot()) && animation.duration > 0 && env.now <= now
      modifies this`env, this`cursor, this`focusStack, this`focusedLayer, this`keyboard, workspaces, surfaces, animation
      ensures Ready() && Inv(Snapshot()) && Snapshot() == TickTo(old(Snapshot()), now, animation.duration)
    {
      hide AllWellFormed, Inv, TakeTask;
      TimePassingKeeps(Snapshot(), now);
      ghost var was := env;
      env := env.(now := now);
      OutputsStayWellFormed(States(workspaces), surfaces.views, was, env);
      ghost var s := Snapshot();
      var count := |animation.tasks|;
      for i := 0 to count
        invariant Ready() && Inv(Snapshot()) && |animation.tasks| >= count - i
        invariant TakeTasks(s, animation.duration, count) == TakeTasks(Snapshot(), animation.duration, count - i)
      {
        RunTask();
      }
    }

    // -------------------------------------------------------------------------------------
    // Layers, exclusive clients and time
    // -------------------------------------------------------------------------------------

    method LayerUnmapped(layer: LayerId)
      requires Ready() && Inv(Snapshot()) && layer in layers
      modifies this`layers, this`focusStack, this`focusedLayer, this`keyboard, workspaces, surfaces, animation
      ensures Ready() && Inv(Snapshot()) && Snapshot() == UnmapLayer(old(Snapshot()), layer)
    {
      hide AllWellFormed, Desktop.FocusLayer, Inv;
      UnmappingLayerKeeps(Snapshot(), layer);
      if focusedLayer == Some(layer) {
        FocusLayer(None);
      }
      layers := layers[layer := layers[layer].(mapped := false)];
    }

    method SetExclusiveClient(client: Option<nat>)
      requires Ready() && Inv(Snapshot())
      modifies this`exclusiveClient, this`focusStack, this`focusedLayer, this`keyboard, workspaces, surfaces, animation
      ensures Ready() && Inv(Snapshot()) && Snapshot() == Desktop.SetExclusiveClient(old(Snapshot()), client)
    {
      hide AllWellFormed, ReleasedLayer, ReleasedView, Inv;
      SettingExclusiveClientKeeps(Snapshot(), client);
      if client.Some? {
        ReleaseLayer(client.value);
        ReleaseView(client.value);
      }
      exclusiveClient := client;
    }

    method ReleaseLayer(client: nat)
      requires Ready()
      modifies this`focusStack, this`focusedLayer, this`keyboard, workspaces, surfaces, animation
      ensures Ready() && Snapshot() == ReleasedLayer(old(Snapshot()), client)
    {
      hide AllWellFormed, Desktop.FocusLayer;
      if focusedLayer.Some? && focusedLayer.value in layers && layers[focusedLayer.value].client != client {
        FocusLayer(None);
      }
    }

    method ReleaseView(client: nat)
      requires Ready()
      modifies this`focusStack, this`focusedLayer, this`keyboard, workspaces, surfaces, animation
      ensures Ready() && Snapshot() == ReleasedView(old(Snapshot()), client)
    {
      hide AllWellFormed, Desktop.FocusView;
      var focused := GetFocusedView();
      if focused.Some? && focused.value in surfaces.views && surfaces.views[focused.value].client != client {
        FocusView(None, false);
      }
    }

    /** A view is created; it is mapped later. */
    method CreateView(v: ViewId, client: nat, ancestors: seq<ViewId>)
      requires Ready() && Inv(Snapshot()) && v !in surfaces.views
      modifies surfaces`views
      ensures Ready() && Inv(Snapshot()) && Snapshot() == Desktop.CreateView(old(Snapshot()), v, client, ancestors)
    {
      hide AllWellFormed, Inv;
      CreatingKeeps(Snapshot(), v, client, ancestors);
      surfaces.views := surfaces.views[v :=
                                       View(Box(0, 0, 0, 0), None, Normal, (0, 0), -1, 0, 0, 0, 0, 0, 0, false, true,
                                            client, ancestors, [])];
      InvIsWellFormed(Snapshot());
    }

    /** A view is destroyed, after it was unmapped; its animations are cancelled. */
    method SurfaceDestroyed(v: ViewId)
      requires Ready() && Inv(Snapshot()) && v in surfaces.views && !surfaces.views[v].mapped
      modifies surfaces, animation
      ensures Ready() && Snapshot() == DestroyView(old(Snapshot()), v)
      ensures old(CarriesNoDeparture(animation.tasks, v)) ==> Inv(Snapshot())
    {
      hide BonesOk, StackOk, CarriesNoDeparture, Cancelled, WellFormed;
      ghost var s := Snapshot();
      DestroyingViewIsSafeExactlyWhen(s, v);
      surfaces.RemoveView(animation, v);
      assert Snapshot() == DestroyView(s, v);
      GoneStaysWellFormed(s, v);
    }
  }

  lemma GoneStaysWellFormed(s: State, v: ViewId)
    requires Inv(s) && v in Table(s) && !Table(s)[v].mapped && AllWellFormed(s.workspaces, Table(s), s.env)
    ensures AllWellFormed(s.workspaces, Table(s) - {v}, s.env)
  {
    hide BonesOf, FullscreenOk, Assigned, Balanced, FocusOk, Occurrences;
    forall i | 0 <= i < |s.workspaces|
      ensures WellFormed(s.workspaces[i], Table(s) - {v}, s.env)
    {
      UnmappedOccursNowhere(s, v, i);
      UnmappedIsNotFullscreen(s, v, i);
      assert WellFormed(s.workspaces[i], Table(s), s.env);
    }
  }

  lemma UnmappedIsNotFullscreen(s: State, v: ViewId, i: nat)
    requires FullscreenOk(BonesOf(s)) && v in Table(s) && !Table(s)[v].mapped && i < |s.workspaces|
    ensures s.workspaces[i].fullscreen != Some(v)
  {
    FullscreenAtWorkspace(s, i);
    CoreApart(s, v);
    assert Due(BonesOf(s), i, v) == 0;
  }

  lemma ScrolledKeepsCount(s: State, i: nat, scroll: int)
    requires i < |s.workspaces|
    ensures |ScrollTo(s, i, scroll, false).workspaces| == |s.workspaces|
  {
  }

  /** v is what the search for the dominant view of workspace i finds. */
  ghost predicate IsDominantIn(s: State, i: int, v: Option<ViewId>, best: nat)
  {
    && 0 <= i < |s.workspaces|
    && var w := s.workspaces[i];
       if w.output.None? || w.output.value !in s.env.outputs then v == None
       else
         var area := RealUsableArea(s.env.outputs[w.output.value]);
         Dominates(w.columns, Table(s), area, s.seat.focusStack, FocusedView(s), v, best)
  }

  lemma FrontIsKnown(s: State)
    requires Inv(s) && s.screen.tasks != []
    ensures !s.screen.tasks[0].cancelled ==> s.screen.tasks[0].view in Table(s)
  {
    hide BonesOk, StackOk;
  }

  /** Erasing one occurrence makes no difference to what is left when all are gone. */
  lemma EraseOne(a: seq<ViewId>, x: ViewId, b: seq<ViewId>)
    ensures Without(a + [x] + b, x) == Without(a + b, x)
  {
    WithoutConcat(a + [x], b, x);
    WithoutConcat(a, [x], x);
    WithoutConcat(a, b, x);
  }

  lemma HolderExists(s: State, o: OutputId)
    requires Inv(s) && o in s.env.outputs
    ensures WorkspaceOn(s.workspaces, Some(o)) < |s.workspaces|
  {
    hide BonesOf, Placement, FullscreenOk, Assigned, Balanced, StackOk;
    OutputHasWorkspace(s, o);
  }

  lemma TileIsKnown(s: State, i: nat, c: nat, t: nat)
    requires AllWellFormed(s.workspaces, Table(s), s.env) && i < |s.workspaces|
    requires c < |s.workspaces[i].columns| && t < |s.workspaces[i].columns[c]|
    ensures s.workspaces[i].columns[c][t].view in Table(s)
  {
    hide WellFormed;
    assert WellFormed(s.workspaces[i], Table(s), s.env);
    WellFormedTiles(s.workspaces[i], Table(s), s.env);
  }

  lemma NothingHalted(s: Screen)
    ensures Halted(s, []) == s
  {
  }

  lemma DoneSilently(s: State)
    ensures Done(s, Silent) == s
  {
  }

  lemma UnmappedOccursNowhere(s: State, v: ViewId, i: nat)
    requires Inv(s) && v in Table(s) && !Table(s)[v].mapped && i < |s.workspaces|
    ensures Occurrences(s.workspaces[i], v) == 0
  {
    hide FullscreenOk, Assigned, Balanced, FocusOk, Occurrences;
    PlacedIsDistinct(s, i);
  }

  lemma MappedOccursOnce(s: State, v: ViewId, i: nat)
    requires Inv(s) && IsMappedView(s, v) && i < |s.workspaces|
    ensures Occurrences(s.workspaces[i], v) == if Home(s, v) == i then 1 else 0
  {
    hide FullscreenOk, Assigned, Balanced, FocusOk, Occurrences;
    PlacedIsDistinct(s, i);
  }

  lemma FullscreenStaysWellFormed(s: State, j: nat, v: ViewId)
    requires AllWellFormed(s.workspaces, Table(s), s.env) && j < |s.workspaces| && v in Table(s)
    ensures AllWellFormed(s.workspaces[j := s.workspaces[j].(fullscreen := Some(v))], Table(s), s.env)
  {
    hide WellFormed;
    WellFormedFullscreen(s.workspaces[j], Table(s), Table(s), s.env, Some(v));
  }

  lemma HandedKeepsKeys(s: State, v: ViewId, j: nat)
    requires v in Table(s) && j < |s.workspaces|
    ensures var t := HandOverFullscreen(s, v, j);
            |t.workspaces| == |s.workspaces| && Table(t).Keys == Table(s).Keys
  {
    hide Arrange;
  }

  /** Making room touches neither the lists of workspace j, nor workspace i. */
  lemma ReceivedKeepsShape(s: State, v: ViewId, i: nat, j: nat, floating: bool)
    requires v in Table(s) && i < |s.workspaces| && j < |s.workspaces| && i != j
    ensures var t := Received(s, v, j, floating);
            && |t.workspaces| == |s.workspaces| && t.workspaces[i] == s.workspaces[i] && Table(t).Keys == Table(s).Keys
            && Occurrences(t.workspaces[j], v) == Occurrences(s.workspaces[j], v)
  {
    hide Arrange, PulledOnto;
    var s1 := HandOverFullscreen(s, v, j);
    HandedKeepsKeys(s, v, j);
    PulledBones(s1, v, j);
    SameListsSameOccurrences(s.workspaces[j], s1.workspaces[j], v);
  }

  lemma SwappedKeepsShape(s: State, v: ViewId, fullscreen: bool)
    requires v in Table(s)
    ensures SizesSwapped(s, v, fullscreen).workspaces == s.workspaces
            && Table(SizesSwapped(s, v, fullscreen)).Keys == Table(s).Keys
  {
  }

  /** A view that was taken out is in the workspace no more. */
  lemma GoneWhenRemoved(w: WorkspaceState, s: Screen, env: Env, v: ViewId)
    requires v in s.views && Occurrences(w, v) <= 1
    ensures Occurrences(RemoveFromWorkspace(w, s, env, v, true).0, v) == 0
    ensures v in RemoveFromWorkspace(w, s, env, v, true).1.views
  {
    hide Arrange, WithoutView, Occurrences;
    WithoutViewOccurrences(w, v, v);
  }

  lemma ScrolledStaysWellFormed(s: State, i: nat, w: WorkspaceState)
    requires AllWellFormed(s.workspaces, Table(s), s.env) && i < |s.workspaces|
             && w.(scrollX := s.workspaces[i].scrollX) == s.workspaces[i]
    ensures AllWellFormed(s.workspaces[i := w], Table(s), s.env)
  {
    hide WellFormed;
    WellFormedScrolled(s.workspaces[i], w, Table(s), s.env);
  }

  lemma MovedStaysWellFormed(s: State, v: ViewId, i: nat, dx: int, dy: int)
    requires AllWellFormed(s.workspaces, Table(s), s.env)
    requires i < |s.workspaces| && FindColumn(s.workspaces[i].columns, v) < |s.workspaces[i].columns|
    ensures var (cols, c) := Moved(s.workspaces[i].columns, v, dx, dy);
            && AllWellFormed(s.workspaces[i := s.workspaces[i].(columns := cols)], Table(s), s.env)
            && cols[c] != [] && cols[c][0].view in Table(s)
  {
    hide Count, Moved, FindColumn, Distinct;
    var (cols, c) := Moved(s.workspaces[i].columns, v, dx, dy);
    MoveIsAPermutation(s.workspaces[i].columns, v, dx, dy);
    var w := s.workspaces[i].(columns := cols);
    assert WellFormed(s.workspaces[i], Table(s), s.env);
    forall u
      ensures Occurrences(w, u) == Occurrences(s.workspaces[i], u)
    {
      assert Count(cols, u) == Count(s.workspaces[i].columns, u);
    }
    assert WellFormed(w, Table(s), s.env);
    WellFormedTiles(w, Table(s), s.env);
  }

  lemma NewWorkspaceWellFormed(ws: seq<WorkspaceState>, views: ViewTable, env: Env)
    requires AllWellFormed(ws, views, env)
    ensures AllWellFormed(ws + [EmptyWorkspace(|ws|)], views, env)
  {
    hide Occurrences;
    forall v
      ensures Occurrences(EmptyWorkspace(|ws|), v) == 0
    {
      EmptyHoldsNothing(|ws|, v);
    }
  }

  /** The iterator of a column starts at its first normal tile. */
  lemma FirstOfTiles(col: Column, views: ViewTable, t: nat)
    requires t <= |col| && AtTileOrEnd(col, views, t) && Skippable(col, views, 0, t)
    ensures FirstNormal(col, views) == t
  {
  }

  lemma InvMeansTiled(s: State, i: nat)
    requires Inv(s) && i < |s.workspaces|
    ensures NoEmptyColumn(s.workspaces[i].columns) && Distinct(s.workspaces[i].columns)
  {
    hide FullscreenOk, Assigned, Balanced, FocusOk;
    PlacedIsDistinct(s, i);
  }

  lemma AbsorbedIsTiled(s: State, i: nat, v: ViewId)
    requires i < |s.workspaces| && Distinct(s.workspaces[i].columns)
             && Absorbed(s.workspaces[i].columns, Table(s), v).Some?
    ensures var cols := s.workspaces[i].columns;
            var a := Absorbed(cols, Table(s), v).value;
            a in Table(s) && FindColumn(cols, a) == FindColumn(cols, v) + 1 < |cols|
  {
    hide FindColumn, Distinct;
    AbsorbedIsElsewhere(s.workspaces[i].columns, Table(s), v);
  }

  lemma OutputsStayWellFormed(ws: seq<WorkspaceState>, views: ViewTable, a: Env, b: Env)
    requires AllWellFormed(ws, views, a) && a.outputs.Keys <= b.outputs.Keys
    ensures AllWellFormed(ws, views, b)
  {
    hide Occurrences;
  }

  lemma OutputExistsInv(s: State, p: nat)
    requires Inv(s) && p < |s.workspaces|
    ensures s.workspaces[p].output.Some? ==> s.workspaces[p].output.value in s.env.outputs
  {
    hide Placement, FullscreenOk, Assigned, Balanced, FocusOk;
    OutputExists(s, p);
  }

  lemma NoEmptyColumns(s: State, p: nat)
    requires AllWellFormed(s.workspaces, Table(s), s.env) && p < |s.workspaces|
    ensures NoEmptyColumn(s.workspaces[p].columns)
  {
    hide Occurrences;
  }

  lemma {:induction false} SkippedNormals(col: Column, views: ViewTable, i: nat, j: nat)
    requires Skippable(col, views, i, j)
    ensures NormalIn(col, views, i) == NormalIn(col, views, j)
  {
    if i == j {
    } else {
      SkippedNormals(col, views, i, j - 1);
    }
  }

  lemma SlidingIsKnown(s: State, w: nat, p: nat)
    requires AllWellFormed(s.workspaces, Table(s), s.env) && w < |s.workspaces| && p < |s.workspaces|
    ensures forall k | 0 <= k < |Sliding(s, w, p)| :: Sliding(s, w, p)[k] in Table(s)
  {
    hide NormalTiles;
    NormalTilesKnown(s.workspaces[w].columns, Table(s), |s.workspaces[w].columns|);
    FloatingKnown(s.workspaces[p], Table(s), s.env);
    forall k | 0 <= k < |Sliding(s, w, p)|
      ensures Sliding(s, w, p)[k] in Table(s)
    {
      assert Sliding(s, w, p)[k] in Sliding(s, w, p);
    }
  }

  lemma FloatingKnown(w: WorkspaceState, views: ViewTable, env: Env)
    requires WellFormed(w, views, env)
    ensures forall v | v in w.floating :: v in views
  {
    forall v | v in w.floating
      ensures v in views
    {
      assert Occurrences(w, v) > 0;
    }
  }
}
