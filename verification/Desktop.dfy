/** The whole desktop: all workspaces, the outputs they are on, and the seat. What the commands and
    the event handlers do to it, as functions on its state. */
module Desktop {
  import opened Prelude
  import opened Views
  import opened Columns
  import opened Rearranging
  import opened Layout
  import opened Animation
  import opened AnimationQueue
  import opened Tiling

  /** Who has keyboard focus. */
  datatype Surface = ViewSurface(view: ViewId) | LayerSurface(layer: LayerId)

  /** above: on the TOP or the OVERLAY layer. */
  datatype LayerInfo = LayerInfo(mapped: bool, above: bool, client: nat)

  /** cursor: the outputs that contain the cursor. */
  datatype SeatState = SeatState(
    focusStack: seq<ViewId>, focusedLayer: Option<LayerId>, keyboard: Option<Surface>,
    exclusiveClient: Option<nat>, cursor: set<OutputId>)

  datatype State = State(
    screen: Screen, workspaces: seq<WorkspaceState>, env: Env, layers: map<LayerId, LayerInfo>, seat: SeatState)

  // ---------------------------------------------------------------------------------------
  // Looking things up
  // ---------------------------------------------------------------------------------------

  function Table(s: State): ViewTable
  {
    s.screen.views
  }

  function WithTable(s: State, views: ViewTable): State
  {
    s.(screen := s.screen.(views := views))
  }

  /** Whether the view is in a workspace that exists. */
  predicate Located(s: State, v: ViewId)
  {
    v in Table(s) && 0 <= Table(s)[v].workspaceId < |s.workspaces|
  }

  /** `get_view_workspace`. */
  function Home(s: State, v: ViewId): nat
    requires Located(s, v)
  {
    Table(s)[v].workspaceId
  }

  /** The keyboard-focused view: the front of the focus stack, unless nothing has keyboard focus. */
  function FocusedView(s: State): Option<ViewId>
  {
    if s.seat.keyboard.None? || s.seat.focusStack == [] then None else Some(s.seat.focusStack[0])
  }

  /** The first of the workspaces from k on whose output contains the cursor. */
  function UnderCursorFrom(ws: seq<WorkspaceState>, cursor: set<OutputId>, k: nat): (i: Option<nat>)
    requires k <= |ws|
    ensures i.Some? ==> k <= i.value < |ws| && ws[i.value].output.Some? && ws[i.value].output.value in cursor
    decreases |ws| - k
  {
    if k == |ws| then None
    else if ws[k].output.Some? && ws[k].output.value in cursor then Some(k)
    else UnderCursorFrom(ws, cursor, k + 1)
  }

  /** `get_focused_workspace`. */
  function FocusedWorkspace(s: State): (i: Option<nat>)
    ensures i.Some? ==> i.value < |s.workspaces|
    ensures i.Some? ==> s.workspaces[i.value].output.Some? && s.workspaces[i.value].output.value in s.seat.cursor
  {
    UnderCursorFrom(s.workspaces, s.seat.cursor, 0)
  }

  /** The first view of a stack that lives in workspace i and is not the one to skip. */
  function FirstOf(stack: seq<ViewId>, views: ViewTable, i: int, skip: Option<ViewId>): (v: Option<ViewId>)
    ensures v.Some? ==> v.value in stack && v.value in views && views[v.value].workspaceId == i && Some(v.value) != skip
  {
    if stack == [] then None
    else if stack[0] in views && views[stack[0]].workspaceId == i && Some(stack[0]) != skip then Some(stack[0])
    else FirstOf(stack[1..], views, i, skip)
  }

  /** The first mapped view of a stack other than v. */
  function FirstMapped(stack: seq<ViewId>, views: ViewTable, v: ViewId): (u: Option<ViewId>)
    ensures u.Some? ==> u.value in stack && u.value in views && views[u.value].mapped && u.value != v
  {
    if stack == [] then None
    else if stack[0] != v && stack[0] in views && views[stack[0]].mapped then Some(stack[0])
    else FirstMapped(stack[1..], views, v)
  }

  // ---------------------------------------------------------------------------------------
  // Operations of a single workspace, in place
  // ---------------------------------------------------------------------------------------

  function InWorkspace(s: State, i: nat, result: (WorkspaceState, Screen)): State
    requires i < |s.workspaces|
  {
    s.(workspaces := s.workspaces[i := result.0], screen := result.1)
  }

  function ArrangeIn(s: State, i: nat): State
    requires i < |s.workspaces|
  {
    s.(screen := Arrange(s.workspaces[i], s.screen, s.env, true))
  }

  /** The same for a number that need not be one of a workspace. */
  function ArrangeAt(s: State, i: nat): State
  {
    if i < |s.workspaces| then ArrangeIn(s, i) else s
  }

  /** Shows a view, if it is tiled. */
  function Show(s: State, v: ViewId, condense: bool): State
  {
    if !Located(s, v) then s
    else InWorkspace(s, Home(s, v), FitView(s.workspaces[Home(s, v)], s.screen, s.env, v, condense))
  }

  // ---------------------------------------------------------------------------------------
  // Focus
  // ---------------------------------------------------------------------------------------

  /** A view behind a fullscreen view is not focused, unless it belongs to it. */
  predicate HiddenByFullscreen(s: State, v: ViewId)
  {
    Located(s, v) &&
    var f := s.workspaces[Home(s, v)].fullscreen;
    f.Some? && f != Some(v) && f.value !in Table(s)[v].ancestors
  }

  predicate InputAllowed(s: State, v: ViewId)
  {
    v in Table(s) && (s.seat.exclusiveClient.None? || s.seat.exclusiveClient.value == Table(s)[v].client)
  }

  function WithSeat(s: State, stack: seq<ViewId>, keyboard: Option<Surface>): State
  {
    s.(seat := s.seat.(focusStack := stack, keyboard := keyboard))
  }

  /** `focus_view` when no layer holds the focus. */
  function FocusPlain(s: State, view: Option<ViewId>, condense: bool): State
  {
    var prev := FocusedView(s);
    if prev == view then
      if view.None? then s else Show(s, view.value, condense)
    else if view.Some? && HiddenByFullscreen(s, view.value) then s
    else
      var s1 := if prev.Some? then s.(seat := s.seat.(keyboard := None)) else s;
      if view.None? || !InputAllowed(s1, view.value) then s1
      else Show(WithSeat(s1, ToFront(s1.seat.focusStack, view.value), Some(ViewSurface(view.value))), view.value,
                condense)
  }

  /** `focus_view`: the focus of a layer is taken away, exchanged and given back. */
  function FocusView(s: State, view: Option<ViewId>, condense: bool): (r: State)
    ensures s.seat.focusedLayer.None? ==> r.seat.focusedLayer.None?
    ensures r.layers == s.layers
    decreases if s.seat.focusedLayer.Some? then 2 else 0
  {
    if s.seat.focusedLayer.Some? then
      var s1 := FocusLayer(s, None);
      var s2 := FocusView(s1, view, condense);
      FocusLayer(s2, s.seat.focusedLayer)
    else
      FocusPlain(s, view, condense)
  }

  /** `focus_layer`: no layer means taking the focus from the one that has it. */
  function FocusLayer(s: State, layer: Option<LayerId>): (r: State)
    ensures layer.None? ==> r.seat.focusedLayer == None
    ensures r.layers == s.layers
    decreases if s.seat.focusedLayer.Some? && layer.None? then 1 else 0
  {
    if layer.None? && s.seat.focusedLayer.Some? then
      var s1 := s.(seat := s.seat.(focusedLayer := None));
      var focused := FocusedView(s1);
      if focused.Some? then FocusView(FocusView(s1, None, false), focused, false) else s1
    else if layer.None? || s.seat.focusedLayer == layer then s
    else if layer.value !in s.layers || !s.layers[layer.value].mapped then
      s.(screen := s.screen.(fault := true), seat := s.seat.(focusedLayer := None))
    else
      s.(seat := s.seat.(keyboard := Some(LayerSurface(layer.value)),
                         focusedLayer := if s.layers[layer.value].above then layer else s.seat.focusedLayer))
  }

  /** `hide_view`: the focus goes to the last focused other view. */
  function HideView(s: State, v: ViewId): State
  {
    var next := FirstMapped(s.seat.focusStack, Table(s), v);
    if FocusedView(s) == Some(v) && next.Some? then FocusView(s, next, true) else s
  }

  /** A layer surface that had the focus gives it up when it is unmapped. */
  function UnmapLayer(s: State, layer: LayerId): State
    requires layer in s.layers
  {
    var s1 := if s.seat.focusedLayer == Some(layer) then FocusLayer(s, None) else s;
    s1.(layers := s1.layers[layer := s1.layers[layer].(mapped := false)])
  }

  /** A layer of another client gives up the focus. */
  function ReleasedLayer(s: State, client: nat): State
  {
    var layer := s.seat.focusedLayer;
    if layer.Some? && layer.value in s.layers && s.layers[layer.value].client != client then FocusLayer(s, None) else s
  }

  /** So does a view of another client. */
  function ReleasedView(s: State, client: nat): State
  {
    var focused := FocusedView(s);
    if focused.Some? && focused.value in Table(s) && Table(s)[focused.value].client != client then
      FocusView(s, None, false) else s
  }

  /** `set_exclusive_client`: whatever is not the client's loses the focus. */
  function SetExclusiveClient(s: State, client: Option<nat>): State
  {
    var s1 := if client.Some? then ReleasedView(ReleasedLayer(s, client.value), client.value) else s;
    s1.(seat := s1.seat.(exclusiveClient := client))
  }

  // ---------------------------------------------------------------------------------------
  // Views come and go
  // ---------------------------------------------------------------------------------------

  function CreateView(s: State, v: ViewId, client: nat, ancestors: seq<ViewId>): State
  {
    WithTable(s, Table(s)[v :=
                          View(Box(0, 0, 0, 0), None, Normal, (0, 0), -1, 0, 0, 0, 0, 0, 0, false, true, client,
                               ancestors, [])])
  }

  /** `SurfaceManager::remove_view`. */
  function DestroyView(s: State, v: ViewId): State
  {
    s.(screen := s.screen.(views := s.screen.views - {v}, tasks := Cancelled(s.screen.tasks, v)))
  }

  function NewlyMapped(view: View, geometry: Box): View
  {
    view.(geometry := geometry, mapped := true, newView := false,
          previousSize := if view.newView then (geometry.width, geometry.height) else view.previousSize)
  }

  /** The view gets a tile next to the focused view, in the workspace under the cursor. */
  function MapView(s: State, v: ViewId, geometry: Box): State
    requires v in Table(s)
  {
    var s1 := WithTable(s, Table(s)[v := NewlyMapped(Table(s)[v], geometry)]);
    var i := FocusedWorkspace(s1);
    var s2 := if i.None? then s1
              else InWorkspace(s1, i.value,
                               AddView(s1.workspaces[i.value], s1.screen, s1.env, v, FocusedView(s1), false, false));
    FocusView(s2, Some(v), false)
  }

  /** A mapped view leaves its workspace. */
  function Withdrawn(s: State, v: ViewId): State
    requires v in Table(s)
  {
    if !Table(s)[v].mapped then s
    else
      var s1 := WithTable(s, Table(s)[v := Table(s)[v].(mapped := false)]);
      if !Located(s1, v) then s1
      else InWorkspace(s1, Home(s1, v), RemoveFromWorkspace(s1.workspaces[Home(s1, v)], s1.screen, s1.env, v, false))
  }

  function UnmapView(s: State, v: ViewId): State
    requires v in Table(s)
  {
    var s1 := HideView(Withdrawn(s, v), v);
    s1.(seat := s1.seat.(focusStack := Without(s1.seat.focusStack, v)))
  }

  // ---------------------------------------------------------------------------------------
  // Moving a view to another workspace
  // ---------------------------------------------------------------------------------------

  /** A fullscreen view takes the place of the fullscreen view of the workspace it moves to. */
  function HandOverFullscreen(s: State, v: ViewId, j: nat): State
    requires v in Table(s) && j < |s.workspaces|
  {
    if Table(s)[v].expansion != Fullscreen then s
    else
      var s1 := if s.workspaces[j].fullscreen.None? then s
                else InWorkspace(s, j, SetFullscreen(s.workspaces[j], s.screen, s.env, None));
      ArrangeIn(s1.(workspaces := s1.workspaces[j := s1.workspaces[j].(fullscreen := Some(v))]), j)
  }

  /** A floating view that is not on the output of the workspace it moves to goes to its middle. */
  function PulledOnto(s: State, v: ViewId, j: nat): State
    requires v in Table(s) && j < |s.workspaces|
  {
    var o := s.workspaces[j].output;
    if o.None? || o.value !in s.env.outputs then s
    else
      var view := Table(s)[v];
      var area := RealUsableArea(s.env.outputs[o.value]);
      if area.Contains(view.x, view.y) then s
      else WithTable(s, Table(s)[v := view.Move(area.x + Quotient(area.width, 2), area.y + Quotient(area.height, 2))])
  }

  /** Workspace j makes room for a fullscreen view, or takes a floating one onto its output. */
  function Received(s: State, v: ViewId, j: nat, floating: bool): State
    requires v in Table(s) && j < |s.workspaces|
  {
    var s1 := HandOverFullscreen(s, v, j);
    if floating && Table(s)[v].expansion != Fullscreen then PulledOnto(s1, v, j) else s1
  }

  function Transplanted(s: State, v: ViewId, j: nat): State
    requires Located(s, v) && j < |s.workspaces|
  {
    var i := Home(s, v);
    var floating := v in s.workspaces[i].floating;
    var s2 := Received(s, v, j, floating);
    var s3 := InWorkspace(s2, i, RemoveFromWorkspace(s2.workspaces[i], s2.screen, s2.env, v, false));
    InWorkspace(s3, j, AddView(s3.workspaces[j], s3.screen, s3.env, v, None, floating, false))
  }

  /** `change_view_workspace`: the focus stays in the workspace the view leaves. */
  function ChangeWorkspace(s: State, v: ViewId, j: nat): State
    requires j < |s.workspaces|
  {
    if !Located(s, v) || Home(s, v) == j then s
    else
      var s1 := Transplanted(s, v, j);
      FocusView(s1, FirstOf(s1.seat.focusStack, Table(s1), s1.workspaces[Home(s, v)].index, Some(v)), false)
  }

  // ---------------------------------------------------------------------------------------
  // Commands on the focused view
  // ---------------------------------------------------------------------------------------

  /** The sizes a view swaps when it starts or stops floating. */
  function SizesSwapped(s: State, v: ViewId, fullscreen: bool): State
    requires v in Table(s)
  {
    var view := Table(s)[v];
    if !fullscreen then
      WithTable(s, Table(s)[v := view.(previousSize := (view.geometry.width, view.geometry.height))
                                     .Resize(view.previousSize.0, view.previousSize.1)])
    else if view.saved.None? then s.(screen := s.screen.(fault := true))
    else
      var saved := view.saved.value;
      WithTable(s, Table(s)[v :=
                            view.(saved := Some(saved.(width := view.previousSize.0, height := view.previousSize.1)),
                                       previousSize := (saved.width, saved.height))])
  }

  /** The bottom tile of the last column. */
  function LastTile(cols: seq<Column>): Option<ViewId>
  {
    if cols == [] || cols[|cols| - 1] == [] then None
    else
      var col := cols[|cols| - 1];
      Some(col[|col| - 1].view)
  }

  /** Takes the view out of its workspace and puts it back the other way. */
  function Refloated(s: State, v: ViewId, i: nat): State
    requires v in Table(s) && i < |s.workspaces|
  {
    var floating := v in s.workspaces[i].floating;
    var s1 := SizesSwapped(s, v, s.workspaces[i].fullscreen == Some(v));
    var s2 := InWorkspace(s1, i, RemoveFromWorkspace(s1.workspaces[i], s1.screen, s1.env, v, true));
    InWorkspace(s2, i, AddView(s2.workspaces[i], s2.screen, s2.env, v, LastTile(s2.workspaces[i].columns), !floating,
                               true))
  }

  function ToggleFloating(s: State): State
  {
    var focused := FocusedView(s);
    if focused.None? || !Located(s, focused.value) then s
    else
      var v := focused.value;
      var i := Home(s, v);
      var s1 := Refloated(s, v, i);
      if v in s.workspaces[i].floating then Show(s1, v, false)
      else
        var previous := FirstOf(s1.seat.focusStack, Table(s1), i, Some(v));
        if previous.None? then s1 else Show(s1, previous.value, true)
  }

  /** The first workspace on an output, or the number of workspaces. */
  function WorkspaceOn(ws: seq<WorkspaceState>, output: Option<OutputId>): (i: nat)
    ensures i <= |ws|
    ensures i < |ws| ==> ws[i].output == output
    ensures forall j | 0 <= j < i :: ws[j].output != output
  {
    if ws == [] || ws[0].output == output then 0 else 1 + WorkspaceOn(ws[1..], output)
  }

  /** Moves a floating view; under is the output its new position is on. */
  function FloatTo(s: State, v: ViewId, x: int, y: int, under: Option<OutputId>): State
    requires Located(s, v)
  {
    var s1 := WithTable(s, Table(s)[v := Table(s)[v].Move(x, y)]);
    var w := s1.workspaces[Home(s, v)];
    var j := WorkspaceOn(s1.workspaces, under);
    if v in w.floating && under.Some? && under != w.output && j < |s1.workspaces| then ChangeWorkspace(s1, v, j) else s1
  }

  /** `reconfigure_view_position`: dragging a tiled view scrolls its workspace. */
  function Reposition(s: State, v: ViewId, x: int, y: int, animate: bool, under: Option<OutputId>): State
    requires Located(s, v)
  {
    var i := Home(s, v);
    if FindColumn(s.workspaces[i].columns, v) < |s.workspaces[i].columns|
    then ScrollTo(s, i, s.workspaces[i].scrollX + (Table(s)[v].x - x), animate)
    else FloatTo(s, v, x, y, under)
  }

  /** `scroll_workspace`. */
  function ScrollTo(s: State, i: nat, scroll: int, animate: bool): State
    requires i < |s.workspaces|
  {
    var w := s.workspaces[i].(scrollX := scroll);
    s.(workspaces := s.workspaces[i := w], screen := Arrange(w, s.screen, s.env, animate))
  }

  /** A frame of a swipe: the workspace scrolls on, and the view is focused if that ends the scroll. */
  function SwipeFrame(s: State, i: nat, scroll: int, ended: bool, view: Option<ViewId>): State
    requires i < |s.workspaces|
  {
    var s1 := ScrollTo(s, i, scroll, false);
    if ended then FocusView(s1, view, false) else s1
  }

  function MoveTiled(s: State, v: ViewId, i: nat, dx: int, dy: int): State
    requires i < |s.workspaces| && FindColumn(s.workspaces[i].columns, v) < |s.workspaces[i].columns|
  {
    var (cols, c) := Moved(s.workspaces[i].columns, v, dx, dy);
    var s1 := ArrangeIn(s.(workspaces := s.workspaces[i := s.workspaces[i].(columns := cols)]), i);
    if cols[c] == [] then s1
    else InWorkspace(s1, i, FitView(s1.workspaces[i], s1.screen, s1.env, cols[c][0].view, false))
  }

  function MoveFocused(s: State, dx: int, dy: int, under: Option<OutputId>): State
  {
    var focused := FocusedView(s);
    if focused.None? || !Located(s, focused.value) then s
    else
      var v := focused.value;
      var i := Home(s, v);
      if FindColumn(s.workspaces[i].columns, v) < |s.workspaces[i].columns| then MoveTiled(s, v, i, dx, dy)
      else FloatTo(s, v, Table(s)[v].x + dx, Table(s)[v].y + dy, under)
  }

  /** `insert_into_column`; the focused view is tiled. */
  function InsertFocused(s: State): State
  {
    var focused := FocusedView(s);
    if focused.None? || !Located(s, focused.value) then s
    else
      var i := Home(s, focused.value);
      var cols := s.workspaces[i].columns;
      var c := FindColumn(cols, focused.value);
      var absorbed := Absorbed(cols, Table(s), focused.value);
      if absorbed.None? || FindColumn(cols, absorbed.value) == c || FindColumn(cols, absorbed.value) == |cols|
         || absorbed.value !in Table(s)
      then s
      else InWorkspace(s, i, InsertView(s.workspaces[i], s.screen, s.env, absorbed.value, c))
  }

  function PopFocused(s: State): State
  {
    var focused := FocusedView(s);
    if focused.None? || !Located(s, focused.value) || Table(s)[focused.value].expansion != Normal then s
    else
      var i := Home(s, focused.value);
      var c := FindColumn(s.workspaces[i].columns, focused.value);
      if c == |s.workspaces[i].columns| then s
      else Show(InWorkspace(s, i, PopColumn(s.workspaces[i], s.screen, s.env, c)), focused.value, false)
  }

  /** The second view of a stack goes to its far end. */
  function SecondToBack(stack: seq<ViewId>): seq<ViewId>
    requires |stack| >= 2
  {
    [stack[0]] + stack[2..] + [stack[1]]
  }

  /** The next view of the cursor's workspace is focused; the one that had the focus goes to the
      far end of the stack. */
  function FocusCycle(s: State): State
  {
    var i := FocusedWorkspace(s);
    if i.None? || s.seat.focusStack == [] then s
    else
      var next := FirstOf(s.seat.focusStack[1..], Table(s), s.workspaces[i.value].index, None);
      if next.None? then s
      else
        var s1 := FocusView(s, next, false);
        var stack := s1.seat.focusStack;
        if |stack| < 2 then s1
        else s1.(seat := s1.seat.(focusStack := SecondToBack(stack)))
  }

  /** `focus_column`: the last focused view of a column is focused. */
  function FocusColumn(s: State, i: nat, c: nat): State
    requires i < |s.workspaces| && c < |s.workspaces[i].columns|
  {
    var first := FirstTiled(s.seat.focusStack, s.workspaces[i].columns[c], Table(s));
    if first.None? then s else FocusView(s, first, false)
  }

  /** `cancel_tasks`, for one view after the other. */
  function Halted(s: Screen, ids: seq<ViewId>): Screen
  {
    if ids == [] then s
    else
      var front := Halted(s, ids[..|ids| - 1]);
      var v := ids[|ids| - 1];
      front.(views := if HasTask(front.tasks, v) && v in front.views then front.views[v := Warped(front.views[v])]
                      else front.views,
             tasks := Cancelled(front.tasks, v))
  }

  /** What `begin_move` and `begin_resize` cancel when the pointer takes hold of a view: the animations of all tiles
      around a tiled view. */
  function HaltedBy(s: State, v: ViewId): seq<ViewId>
    requires Located(s, v)
  {
    var w := s.workspaces[Home(s, v)];
    if v in w.floating then [] else TiledViews(w.columns, |w.columns|)
  }

  function TakeHold(s: State, v: ViewId): State
    requires Located(s, v)
  {
    s.(screen := Halted(s.screen, HaltedBy(s, v)))
  }

  // ---------------------------------------------------------------------------------------
  // Requests of clients
  // ---------------------------------------------------------------------------------------

  function RequestFullscreen(s: State, v: ViewId, on: bool): State
  {
    if !Located(s, v) then s
    else InWorkspace(s, Home(s, v),
                     SetFullscreen(s.workspaces[Home(s, v)], s.screen, s.env, if on then Some(v) else None))
  }

  /** The client acknowledges a size: what was recovering is normal again. */
  function Commit(s: State, v: ViewId, geometry: Box): State
  {
    if !Located(s, v) || geometry == Table(s)[v].geometry then s
    else ArrangeIn(WithTable(s, Table(s)[v := Table(s)[v].(geometry := geometry).Recover()]), Home(s, v))
  }

  // ---------------------------------------------------------------------------------------
  // Outputs and workspaces
  // ---------------------------------------------------------------------------------------

  /** A new output gets the first workspace that is on none, or a new one. */
  function AddOutput(s: State, o: OutputId, info: OutputInfo): State
  {
    var s1 := s.(env := s.env.(outputs := s.env.outputs[o := info]));
    var i := WorkspaceOn(s1.workspaces, None);
    var s2 := if i < |s1.workspaces| then s1
              else s1.(workspaces := s1.workspaces + [WorkspaceState([], [], None, None, |s1.workspaces|, 0, false)]);
    InWorkspace(s2, i, Activate(s2.workspaces[i], s2.screen, o))
  }

  function DestroyOutput(s: State, o: OutputId): State
  {
    var i := WorkspaceOn(s.workspaces, Some(o));
    var s1 := if i == |s.workspaces| then s else InWorkspace(s, i, Deactivate(s.workspaces[i], s.screen));
    s1.(env := s1.env.(outputs := s1.env.outputs - {o}), seat := s1.seat.(cursor := s1.seat.cursor - {o}))
  }

  /** The cursor goes to the middle of an output, the focus to the last focused view of workspace n. */
  function FocusThere(s: State, n: nat, o: OutputId): State
    requires n < |s.workspaces|
  {
    var s1 := s.(seat := s.seat.(cursor := {o}));
    FocusView(s1, FirstOf(s1.seat.focusStack, Table(s1), s1.workspaces[n].index, None), false)
  }

  function FocusOn(s: State, n: nat): State
    requires n < |s.workspaces|
  {
    if s.workspaces[n].output.None? then s.(screen := s.screen.(fault := true))
    else FocusThere(s, n, s.workspaces[n].output.value)
  }

  // ---------------------------------------------------------------------------------------
  // Switching workspaces
  // ---------------------------------------------------------------------------------------

  /** The views of the first t tiles of a column that take part in the layout. */
  function NormalIn(col: Column, views: ViewTable, t: nat): seq<ViewId>
    requires t <= |col|
  {
    if t == 0 then []
    else NormalIn(col, views, t - 1) + if IsNormal(views, col[t - 1].view) then [col[t - 1].view] else []
  }

  /** The same for the first c columns. */
  function NormalTiles(cols: seq<Column>, views: ViewTable, c: nat): seq<ViewId>
    requires c <= |cols|
  {
    if c == 0 then [] else NormalTiles(cols, views, c - 1) + NormalIn(cols[c - 1], views, |cols[c - 1]|)
  }

  /** Puts views off by dy, one after the other. */
  function PutOff(views: ViewTable, ids: seq<ViewId>, dy: int): (r: ViewTable)
    ensures r.Keys == views.Keys
  {
    if ids == [] then views
    else
      var front := PutOff(views, ids[..|ids| - 1], dy);
      var v := ids[|ids| - 1];
      if v !in front then front else front[v := front[v].Move(front[v].x, front[v].y + dy)]
  }

  /** The animations that take views back by dy; what is to be done afterwards is left to the last of them. */
  function SlideTasks(views: ViewTable, ids: seq<ViewId>, dy: int, now: Time, callback: Callback): seq<Task>
  {
    if ids == [] then []
    else
      var v := ids[|ids| - 1];
      SlideTasks(views, ids[..|ids| - 1], dy, now, Silent)
      + if v in views then [TaskFor(views, v, views[v].x, views[v].y - dy, now, callback)] else []
  }

  function SlidOut(s: Screen, ids: seq<ViewId>, dy: int, now: Time, callback: Callback): Screen
  {
    s.(tasks := s.tasks + SlideTasks(s.views, ids, dy, now, callback))
  }

  function SlidIn(s: Screen, ids: seq<ViewId>, dy: int, now: Time, callback: Callback): Screen
  {
    SlidOut(s.(views := PutOff(s.views, ids, dy)), ids, dy, now, callback)
  }

  /** How far views slide: down from above if the new workspace has the higher number. */
  function SlideBy(s: State, n: nat, p: nat): int
    requires n < |s.workspaces| && p < |s.workspaces|
  {
    var o := s.workspaces[p].output;
    var height := if o.Some? && o.value in s.env.outputs then s.env.outputs[o.value].usable.height else 0;
    if s.workspaces[p].index < s.workspaces[n].index then height else -height
  }

  /** The views of workspace w that slide. As the code has it, the floating views of workspace p slide along
      with the tiles of the workspace that comes in. */
  function Sliding(s: State, w: nat, p: nat): seq<ViewId>
    requires w < |s.workspaces| && p < |s.workspaces|
  {
    NormalTiles(s.workspaces[w].columns, Table(s), |s.workspaces[w].columns|) + s.workspaces[p].floating
  }

  /** Workspace n is put on the output of workspace p, and laid out there without animation. */
  function Entered(s: State, n: nat, p: nat): State
    requires n < |s.workspaces| && p < |s.workspaces| && s.workspaces[p].output.Some?
  {
    var s1 := InWorkspace(s, n, Activate(s.workspaces[n], s.screen, s.workspaces[p].output.value));
    s1.(screen := Arrange(s1.workspaces[n], s1.screen, s1.env, false))
  }

  function SlideIn(s: State, n: nat, p: nat, o: OutputId, dy: int): State
    requires n < |s.workspaces| && p < |s.workspaces|
  {
    s.(screen := SlidIn(s.screen, Sliding(s, n, p), dy, s.env.now, ArrivalOf(n, o)))
  }

  /** p leaves its output at once if nothing of it slides, and otherwise when it is out of sight. */
  function SlideOut(s: State, p: nat, dy: int): State
    requires p < |s.workspaces|
  {
    var ids := Sliding(s, p, p);
    if ids != [] then s.(screen := SlidOut(s.screen, ids, dy, s.env.now, DepartureOf(p)))
    else InWorkspace(s, p, Deactivate(s.workspaces[p], s.screen))
  }

  /** The tiles of workspace n slide onto the output of workspace p, those of p slide off it. */
  function TakeOver(s: State, n: nat, p: nat): State
    requires n < |s.workspaces| && p < |s.workspaces| && s.workspaces[p].output.Some?
  {
    var dy := SlideBy(s, n, p);
    SlideOut(SlideIn(Entered(s, n, p), n, p, s.workspaces[p].output.value, dy), p, dy)
  }

  /** `Seat::focus`. The focus follows at once, unless something slides in: then it follows afterwards. */
  function SwitchTo(s: State, n: nat): State
    requires n < |s.workspaces|
  {
    var current := FocusedWorkspace(s);
    if current == Some(n) then s
    else if s.workspaces[n].output.Some? then FocusOn(s, n)
    else if current.None? then s.(screen := s.screen.(fault := true))
    else if Sliding(Entered(s, n, current.value), n, current.value) != [] then TakeOver(s, n, current.value)
    else FocusOn(TakeOver(s, n, current.value), n)
  }

  /** The command `workspace_switch`. */
  function SwitchCommand(s: State, n: nat): State
  {
    if n >= |s.workspaces| then s else ArrangeAt(SwitchTo(s, n), n)
  }

  /** The command `workspace_move`. */
  function MoveToCommand(s: State, n: nat): State
  {
    var focused := FocusedView(s);
    if n >= |s.workspaces| || focused.None? then s else ArrangeAt(ChangeWorkspace(s, focused.value, n), n)
  }

  /** What is done when an animation has finished. */
  function Done(s: State, callback: Callback): State
  {
    match callback
    case Silent => s
    case ArrivalOf(n, o) => if n < |s.workspaces| then FocusThere(s, n, o) else s
    case DepartureOf(p) => if p < |s.workspaces| then InWorkspace(s, p, Deactivate(s.workspaces[p], s.screen)) else s
  }

  /** `arrange_layers` found another usable area: the focused view is shown, if it lives in the workspace that is on
      the output, and otherwise that workspace is just laid out. */
  function ChangeUsableArea(s: State, o: OutputId, info: OutputInfo): State
    requires o in s.env.outputs
  {
    var s1 := s.(env := s.env.(outputs := s.env.outputs[o := info]));
    var i := WorkspaceOn(s1.workspaces, Some(o));
    var focused := FocusedView(s1);
    if info.usable == s.env.outputs[o].usable then s1
    else if i == |s1.workspaces| then s1.(screen := s1.screen.(fault := true))
    else if focused.Some? && focused.value in Table(s1)
         && Table(s1)[focused.value].workspaceId == s1.workspaces[i].index
    then InWorkspace(s1, i, FitView(s1.workspaces[i], s1.screen, s1.env, focused.value, false))
    else ArrangeIn(s1, i)
  }

  /** `arrange_output`. */
  function ArrangeOutput(s: State, o: OutputId): State
  {
    ArrangeAt(s, WorkspaceOn(s.workspaces, Some(o)))
  }

  /** The mode, the scale or the transform of an output has changed. */
  function ResizeOutput(s: State, o: OutputId, info: OutputInfo): State
    requires o in s.env.outputs
  {
    ArrangeOutput(ChangeUsableArea(s, o, info), o)
  }

  /** The task in front of the queue is taken off it and runs, but what it wants done is not done yet. */
  function FrontTaken(s: State, duration: int): State
    requires duration > 0 && s.screen.tasks != []
  {
    var (views, tasks, _) := FrontRun(s.screen.views, s.screen.tasks, s.env.now, duration);
    s.(screen := s.screen.(views := views, tasks := tasks))
  }

  function FrontWish(s: State, duration: int): Callback
    requires duration > 0 && s.screen.tasks != []
  {
    FrontRun(s.screen.views, s.screen.tasks, s.env.now, duration).2
  }

  /** One round of the timer's loop. */
  function TakeTask(s: State, duration: int): State
    requires duration > 0 && s.screen.tasks != []
  {
    Done(FrontTaken(s, duration), FrontWish(s, duration))
  }

  function TakeTasks(s: State, duration: int, count: nat): State
    requires duration > 0
    decreases count
  {
    if count == 0 || s.screen.tasks == [] then s else TakeTasks(TakeTask(s, duration), duration, count - 1)
  }

  /** One tick of the animation timer, at a time that is not before the last one: every task that is queued when
      the tick begins is taken once, and what a finished one wants done is done before the next one is taken. */
  function TickTo(s: State, now: Time, duration: int): State
    requires duration > 0
  {
    TakeTasks(s.(env := s.env.(now := now)), duration, |s.screen.tasks|)
  }
}
