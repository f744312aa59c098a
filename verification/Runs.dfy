/** Everything that can happen to the desktop, one event after the other, and what therefore holds
    in every state that a run can reach. */
module Runs {
  import opened Prelude
  import opened Views
  import opened Columns
  import opened Layout
  import opened Animation
  import opened AnimationQueue
  import opened Tiling
  import opened Desktop
  import opened Invariants
  import opened Preservation
  import opened Steps
  import opened Focus

  datatype Event =
    | ViewCreated(view: ViewId, client: nat, ancestors: seq<ViewId>)
    | ViewDestroyed(view: ViewId)
    | ViewMapped(view: ViewId, geometry: Box)
    | ViewUnmapped(view: ViewId)
    | ViewCommitted(view: ViewId, geometry: Box)
    | ViewDragged(view: ViewId, x: int, y: int, animate: bool, under: Option<OutputId>)
    | ViewHeld(view: ViewId)
    | FullscreenRequested(view: ViewId, on: bool)
    | WorkspaceChanged(view: ViewId, workspace: nat)
    | ToggleFloatingCommand
    | MoveCommand(dx: int, dy: int, under: Option<OutputId>)
    | InsertIntoColumnCommand
    | PopFromColumnCommand
    | FocusCycleCommand
    | FocusCommand(focused: Option<ViewId>)
    | FocusColumnCommand(workspace: nat, column: nat)
    | ExclusiveClientSet(exclusive: Option<nat>)
    | LayerMapped(layer: LayerId, info: LayerInfo)
    | LayerUnmapped(layer: LayerId)
    | LayerFocused(layer: LayerId)
    | LayerReleased
    | WorkspaceScrolled(workspace: nat, scroll: int, animate: bool)
    | SwipeAdvanced(workspace: nat, scroll: int, ended: bool, dominant: Option<ViewId>)
    | OutputAdded(output: OutputId, outputInfo: OutputInfo)
    | UsableAreaChanged(output: OutputId, outputInfo: OutputInfo)
    | OutputResized(output: OutputId, outputInfo: OutputInfo)
    | OutputDestroyed(output: OutputId)
    | WorkspaceFocused(workspace: nat)
    | WorkspaceSwitchCommand(workspace: nat)
    | WorkspaceMoveCommand(workspace: nat)
    | CursorMoved(cursor: set<OutputId>)
    | TimePassed(now: Time)
    | TimerTicked(now: Time, duration: int)

  /** When an event can happen. Beyond what clients and the hardware guarantee this asks that a view
      is mapped while a workspace is under the cursor and not while it is fullscreen, that
      fullscreen is requested for normal views, that a view is inserted next to a tiled one, that no output goes
      away while two workspaces share it or one is sliding onto it, that the output of a workspace that is sliding
      out is not taken over again, that no view goes away, and no tile is held by the pointer, whose animation that
      workspace waits for, and that a scroll does not end on a view that was unmapped meanwhile. */
  ghost predicate Enabled(s: State, e: Event)
  {
    match e
    case ViewCreated(v, _, _) => v !in Table(s)
    case ViewDestroyed(v) => v in Table(s) && !Table(s)[v].mapped && CarriesNoDeparture(s.screen.tasks, v)
    case ViewMapped(v, _) => CanMap(s, v)
    case ViewUnmapped(v) => v in Table(s)
    case ViewCommitted(v, _) => IsMappedView(s, v)
    case ViewDragged(v, _, _, _, _) => IsMappedView(s, v)
    case ViewHeld(v) => IsMappedView(s, v) && NoneCarriesDeparture(s.screen.tasks, HaltedBy(s, v))
    case FullscreenRequested(v, on) => CanFullscreen(s, v, on)
    case WorkspaceChanged(v, j) => IsMappedView(s, v) && j < |s.workspaces|
    case InsertIntoColumnCommand => CanInsert(s)
    case FocusCommand(view) => view.Some? ==> IsMappedView(s, view.value)
    case FocusColumnCommand(i, c) => i < |s.workspaces| && c < |s.workspaces[i].columns|
    case LayerMapped(layer, info) =>
      info.mapped && s.env.outputs != map[] && (layer in s.layers ==> !s.layers[layer].mapped)
    case LayerUnmapped(layer) => layer in s.layers
    case LayerFocused(layer) => CanFocusLayer(s, layer)
    case WorkspaceScrolled(i, _, _) => i < |s.workspaces|
    case SwipeAdvanced(i, _, ended, view) => CanAdvance(s, i, ended, view)
    case OutputAdded(o, _) => o !in s.env.outputs
    case UsableAreaChanged(o, _) => o in s.env.outputs
    case OutputResized(o, _) => o in s.env.outputs
    case OutputDestroyed(o) => CanDestroy(s, o)
    case WorkspaceFocused(n) => CanSwitch(s, n)
    case WorkspaceSwitchCommand(n) => n < |s.workspaces| ==> CanSwitch(s, n)
    case TimePassed(now) => s.env.now <= now
    case TimerTicked(now, duration) => duration > 0 && s.env.now <= now
    case _ => true
  }

  /** After panels were arranged, one above the windows is given the focus; when a layer of an exclusive client loses
      its output, any other layer of that client may be. */
  predicate CanFocusLayer(s: State, layer: LayerId)
  {
    && layer in s.layers && s.layers[layer].mapped
    && (s.layers[layer].above || s.seat.exclusiveClient == Some(s.layers[layer].client))
  }

  /** The view that the focus goes to when the scroll ends still exists, and may have the focus. */
  predicate CanAdvance(s: State, i: nat, ended: bool, view: Option<ViewId>)
  {
    i < |s.workspaces| && (ended ==> MayFocus(s, view) && (view.Some? ==> view.value in Table(s)))
  }

  ghost function Next(s: State, e: Event): State
    requires Enabled(s, e)
  {
    match e
    case ViewCreated(v, client, ancestors) => CreateView(s, v, client, ancestors)
    case ViewDestroyed(v) => DestroyView(s, v)
    case ViewMapped(v, geometry) => MapView(s, v, geometry)
    case ViewUnmapped(v) => UnmapView(s, v)
    case ViewCommitted(v, geometry) => Commit(s, v, geometry)
    case ViewDragged(v, x, y, animate, under) => Reposition(s, v, x, y, animate, under)
    case ViewHeld(v) => TakeHold(s, v)
    case FullscreenRequested(v, on) => RequestFullscreen(s, v, on)
    case WorkspaceChanged(v, j) => ChangeWorkspace(s, v, j)
    case ToggleFloatingCommand => ToggleFloating(s)
    case MoveCommand(dx, dy, under) => MoveFocused(s, dx, dy, under)
    case InsertIntoColumnCommand => InsertFocused(s)
    case PopFromColumnCommand => PopFocused(s)
    case FocusCycleCommand => FocusCycle(s)
    case FocusCommand(view) => FocusView(s, view, false)
    case FocusColumnCommand(i, c) => FocusColumn(s, i, c)
    case ExclusiveClientSet(client) => SetExclusiveClient(s, client)
    case LayerMapped(layer, info) => s.(layers := s.layers[layer := info])
    case LayerUnmapped(layer) => UnmapLayer(s, layer)
    case LayerFocused(layer) => FocusLayer(s, Some(layer))
    case LayerReleased => FocusLayer(s, None)
    case WorkspaceScrolled(i, scroll, animate) => ScrollTo(s, i, scroll, animate)
    case SwipeAdvanced(i, scroll, ended, view) => SwipeFrame(s, i, scroll, ended, view)
    case OutputAdded(o, info) => AddOutput(s, o, info)
    case UsableAreaChanged(o, info) => ChangeUsableArea(s, o, info)
    case OutputResized(o, info) => ResizeOutput(s, o, info)
    case OutputDestroyed(o) => DestroyOutput(s, o)
    case WorkspaceFocused(n) => SwitchTo(s, n)
    case WorkspaceSwitchCommand(n) => SwitchCommand(s, n)
    case WorkspaceMoveCommand(n) => MoveToCommand(s, n)
    case CursorMoved(cursor) => s.(seat := s.seat.(cursor := cursor))
    case TimePassed(now) => s.(env := s.env.(now := now))
    case TimerTicked(now, duration) => TickTo(s, now, duration)
  }

  /** The events that change focus, layers, the cursor or the time. */
  predicate IsAboutFocus(e: Event)
  {
    || e.FocusCycleCommand? || e.FocusCommand? || e.FocusColumnCommand? || e.ExclusiveClientSet? || e.LayerMapped?
    || e.LayerUnmapped? || e.LayerFocused? || e.LayerReleased? || e.CursorMoved? || e.TimePassed?
  }

  lemma FocusEventKeeps(s: State, e: Event)
    requires Inv(s) && Enabled(s, e) && IsAboutFocus(e)
    ensures Inv(Next(s, e))
  {
    hide Inv, CreateView, DestroyView, MapView, UnmapView, Commit, Reposition, RequestFullscreen, ChangeWorkspace,
      ToggleFloating, MoveFocused, InsertFocused, PopFocused, FocusCycle, FocusView, FocusColumn, SetExclusiveClient,
      UnmapLayer, FocusLayer, ScrollTo, AddOutput, ResizeOutput, DestroyOutput, SwitchTo, TickTo, CanInsert, CanSwitch,
      CanDestroy, CarriesNoDeparture, SwipeFrame, MayFocus, TakeHold, NoneCarriesDeparture, HaltedBy, ChangeUsableArea,
      SwitchCommand, MoveToCommand,
      CanMap, CanFullscreen, CanAdvance;
    match e
    case FocusCycleCommand => CyclingKeeps(s);
    case FocusCommand(view) => FocusingMappedKeeps(s, view);
    case FocusColumnCommand(i, c) => FocusingColumnKeeps(s, i, c);
    case ExclusiveClientSet(client) => SettingExclusiveClientKeeps(s, client);
    case LayerMapped(layer, info) => MappingLayerKeeps(s, layer, info);
    case LayerUnmapped(layer) => UnmappingLayerKeeps(s, layer);
    case LayerFocused(layer) => FocusingLayerKeeps(s, Some(layer));
    case LayerReleased => FocusingLayerKeeps(s, None);
    case CursorMoved(cursor) => CursorAside(s, cursor);
    case TimePassed(now) => TimePassingKeeps(s, now);
  }

  lemma OtherEventKeeps(s: State, e: Event)
    requires Inv(s) && Enabled(s, e) && !IsAboutFocus(e)
    ensures Inv(Next(s, e))
  {
    hide Inv, CreateView, DestroyView, MapView, UnmapView, Commit, Reposition, RequestFullscreen, ChangeWorkspace,
      ToggleFloating, MoveFocused, InsertFocused, PopFocused, FocusCycle, FocusView, FocusColumn, SetExclusiveClient,
      UnmapLayer, FocusLayer, ScrollTo, AddOutput, ResizeOutput, DestroyOutput, SwitchTo, TickTo, CanInsert, CanSwitch,
      CanDestroy, CarriesNoDeparture, SwipeFrame, MayFocus, TakeHold, NoneCarriesDeparture, HaltedBy, ChangeUsableArea,
      SwitchCommand, MoveToCommand;
    match e
    case ViewCreated(v, client, ancestors) => CreatingKeeps(s, v, client, ancestors);
    case ViewDestroyed(v) => DestroyingViewIsSafeExactlyWhen(s, v);
    case ViewMapped(v, geometry) => MapViewKeeps(s, v, geometry);
    case ViewUnmapped(v) => UnmapViewKeeps(s, v);
    case ViewCommitted(v, geometry) => CommitKeeps(s, v, geometry);
    case ViewDragged(v, x, y, animate, under) => RepositioningKeeps(s, v, x, y, animate, under);
    case ViewHeld(v) => TakingHoldIsSafeExactlyWhen(s, v);
    case FullscreenRequested(v, on) => RequestingKeeps(s, v, on);
    case WorkspaceChanged(v, j) => ChangingWorkspaceKeeps(s, v, j);
    case ToggleFloatingCommand => TogglingKeeps(s);
    case MoveCommand(dx, dy, under) => MovingKeeps(s, dx, dy, under);
    case InsertIntoColumnCommand => InsertingKeeps(s);
    case PopFromColumnCommand => PoppingKeeps(s);
    case WorkspaceScrolled(i, scroll, animate) => ScrollingKeeps(s, i, scroll, animate);
    case SwipeAdvanced(i, scroll, ended, view) => SwipeFrameIsSafeExactlyWhen(s, i, scroll, ended, view);
    case OutputAdded(o, info) => AddingOutputKeeps(s, o, info);
    case UsableAreaChanged(o, info) => ChangingUsableAreaKeeps(s, o, info);
    case OutputResized(o, info) => ResizingOutputKeeps(s, o, info);
    case OutputDestroyed(o) => DestroyingOutputKeeps(s, o);
    case WorkspaceFocused(n) => SwitchingToKeeps(s, n);
    case WorkspaceSwitchCommand(n) => SwitchCommandKeeps(s, n);
    case WorkspaceMoveCommand(n) => MoveToCommandKeeps(s, n);
    case TimerTicked(now, duration) => TickingKeeps(s, now, duration);
  }

  lemma NextKeeps(s: State, e: Event)
    requires Inv(s) && Enabled(s, e)
    ensures Inv(Next(s, e))
  {
    hide Inv, Enabled, Next;
    if IsAboutFocus(e) {
      FocusEventKeeps(s, e);
    } else {
      OtherEventKeeps(s, e);
    }
  }

  lemma FocusingMappedKeeps(s: State, view: Option<ViewId>)
    requires Inv(s) && (view.Some? ==> IsMappedView(s, view.value))
    ensures Inv(FocusView(s, view, false))
  {
    hide Inv, FocusView;
    FocusingKeeps(s, view, false);
  }

  lemma MappingLayerKeeps(s: State, layer: LayerId, info: LayerInfo)
    requires Inv(s) && info.mapped
    ensures Inv(s.(layers := s.layers[layer := info]))
  {
    hide BonesOk, StackOk;
    LayersAside(s, s.layers[layer := info]);
  }

  // ---------------------------------------------------------------------------------------
  // Runs
  // ---------------------------------------------------------------------------------------

  ghost predicate CanRun(s: State, events: seq<Event>)
    decreases |events|
  {
    events != [] ==> Enabled(s, events[0]) && CanRun(Next(s, events[0]), events[1..])
  }

  ghost function Run(s: State, events: seq<Event>): State
    requires CanRun(s, events)
    decreases |events|
  {
    if events == [] then s else Run(Next(s, events[0]), events[1..])
  }

  lemma {:induction false} RunKeeps(s: State, events: seq<Event>)
    requires Inv(s) && CanRun(s, events)
    ensures Inv(Run(s, events))
    decreases |events|
  {
    hide Inv, Enabled, Next;
    if events == [] {
    } else {
      NextKeeps(s, events[0]);
      RunKeeps(Next(s, events[0]), events[1..]);
    }
  }

  /** The desktop when the compositor starts. */
  function Initial(gap: int, now: Time): State
  {
    State(Screen(map[], [], false), [], Env(map[], gap, now), map[], SeatState([], None, None, None, {}))
  }

  lemma InitialInv(gap: int, now: Time)
    ensures Inv(Initial(gap, now))
  {
  }

  /** Some run from some start leads here. */
  ghost predicate Reachable(s: State)
  {
    exists gap, now, events :: CanRun(Initial(gap, now), events) && s == Run(Initial(gap, now), events)
  }

  lemma {:induction false} OneMore(s: State, events: seq<Event>, e: Event)
    requires CanRun(s, events) && Enabled(Run(s, events), e)
    ensures CanRun(s, events + [e]) && Run(s, events + [e]) == Next(Run(s, events), e)
    decreases |events|
  {
    hide Enabled, Next;
    if events == [] {
      assert ([] + [e])[1..] == [];
    } else {
      OneMore(Next(s, events[0]), events[1..], e);
      assert (events + [e])[1..] == events[1..] + [e];
    }
  }

  lemma InitialIsReachable(gap: int, now: Time)
    ensures Reachable(Initial(gap, now))
  {
    assert CanRun(Initial(gap, now), []) && Run(Initial(gap, now), []) == Initial(gap, now);
  }

  lemma NextIsReachable(s: State, e: Event)
    requires Reachable(s) && Enabled(s, e)
    ensures Reachable(Next(s, e)) && Inv(s) && Inv(Next(s, e))
  {
    hide Enabled, Next, Run, CanRun, Inv;
    var gap, now, events :| CanRun(Initial(gap, now), events) && s == Run(Initial(gap, now), events);
    OneMore(Initial(gap, now), events, e);
    InitialInv(gap, now);
    RunKeeps(Initial(gap, now), events);
    NextKeeps(s, e);
  }

  // ---------------------------------------------------------------------------------------
  // What that means
  // ---------------------------------------------------------------------------------------

  /** How often v occurs in the first n workspaces. */
  function OccurrencesUpTo(ws: seq<WorkspaceState>, v: ViewId, n: nat): nat
    requires n <= |ws|
  {
    if n == 0 then 0 else OccurrencesUpTo(ws, v, n - 1) + Occurrences(ws[n - 1], v)
  }

  /** Each mapped view occurs exactly once on the whole desktop, in its own workspace; other views
      occur nowhere; no column is empty. */
  ghost predicate PlacedOnce(s: State)
  {
    && (forall i | 0 <= i < |s.workspaces| :: NoEmptyColumn(s.workspaces[i].columns))
    && (forall v :: OccurrencesUpTo(s.workspaces, v, |s.workspaces|) == if v in Table(s) && Table(s)[v].mapped then 1
        else 0)
    && (forall v | v in Table(s) && Table(s)[v].mapped ::
        Located(s, v) && Occurrences(s.workspaces[Home(s, v)], v) == 1)
  }

  /** A state is saved exactly while a view is fullscreen; a workspace's fullscreen view is exactly
      the mapped view of it that is fullscreen. */
  ghost predicate FullscreenConsistent(s: State)
  {
    && (forall v | v in Table(s) :: Table(s)[v].saved.Some? <==> Table(s)[v].expansion == Fullscreen)
    && (forall i, v | 0 <= i < |s.workspaces| ::
          s.workspaces[i].fullscreen == Some(v) <==>
          v in Table(s) && Table(s)[v].mapped && Table(s)[v].workspaceId == i && Table(s)[v].expansion == Fullscreen)
  }

  /** Workspace i leaves its output when its last animation has finished. */
  ghost predicate SlidingOut(s: State, i: nat)
  {
    Pending(s.screen.tasks)[DepartureOf(i)] > 0
  }

  /** Besides those that are sliding out, workspace i alone holds the output. */
  ghost predicate OnlyHolder(s: State, o: OutputId, i: nat)
  {
    && i < |s.workspaces| && s.workspaces[i].output == Some(o) && !SlidingOut(s, i)
    && forall j | 0 <= j < |s.workspaces| && s.workspaces[j].output == Some(o) :: j == i || SlidingOut(s, j)
  }

  /** Workspaces are numbered by their place; each output is held by exactly one of them, besides those that are sliding
      out, and they hold nothing else. */
  ghost predicate OutputsAssigned(s: State)
  {
    && (forall i | 0 <= i < |s.workspaces| :: s.workspaces[i].index == i)
    && (forall i | 0 <= i < |s.workspaces| && s.workspaces[i].output.Some? ::
        s.workspaces[i].output.value in s.env.outputs)
    && (forall o | o in s.env.outputs :: exists i :: OnlyHolder(s, o, i))
  }

  /** Each client believes its surface to be on exactly the output of its workspace, or on none. */
  ghost predicate ClientsTold(s: State)
  {
    forall v | v in Table(s) ::
      OnOutputs(Table(s)[v].events) ==
        if Table(s)[v].mapped && Located(s, v) then OutputSet(s.workspaces[Home(s, v)].output) else {}
  }

  /** The focus stack holds mapped views, each once. */
  ghost predicate StackHoldsMappedViews(s: State)
  {
    && NoDuplicates(s.seat.focusStack)
    && forall v | v in s.seat.focusStack :: v in Table(s) && Table(s)[v].mapped
  }

  lemma {:induction false} OnceInAll(s: State, v: ViewId, n: nat)
    requires Placement(BonesOf(s)) && n <= |s.workspaces|
    ensures OccurrencesUpTo(s.workspaces, v, n) ==
            if v in Table(s) && Table(s)[v].mapped && 0 <= Table(s)[v].workspaceId < n then 1 else 0
  {
    hide Placement, Occurrences;
    if n == 0 {
    } else {
      OnceInAll(s, v, n - 1);
      PlacedIsDistinct(s, n - 1);
      DueMeans(s, n - 1, v);
    }
  }

  lemma DueMeans(s: State, i: int, v: ViewId)
    ensures Due(BonesOf(s), i, v) == if v in Table(s) && Table(s)[v].mapped && Table(s)[v].workspaceId == i then 1
            else 0
  {
  }

  lemma InvPlacesOnce(s: State)
    requires Inv(s)
    ensures PlacedOnce(s)
  {
    hide FullscreenOk, Assigned, Balanced, FocusOk, Occurrences, BonesOf;
    forall i | 0 <= i < |s.workspaces|
      ensures NoEmptyColumn(s.workspaces[i].columns)
    {
      PlacedIsDistinct(s, i);
    }
    forall v | v in Table(s) && Table(s)[v].mapped
      ensures Located(s, v) && Occurrences(s.workspaces[Home(s, v)], v) == 1
    {
      MappedIsLocated(s, v);
      PlacedIsDistinct(s, Home(s, v));
      DueMeans(s, Home(s, v), v);
    }
    forall v
      ensures OccurrencesUpTo(s.workspaces, v, |s.workspaces|) == if v in Table(s) && Table(s)[v].mapped then 1 else 0
    {
      OnceInAll(s, v, |s.workspaces|);
    }
  }

  lemma InvIsFullscreenConsistent(s: State)
    requires Inv(s)
    ensures FullscreenConsistent(s)
  {
    hide Placement, Assigned, Balanced, FocusOk;
    forall v | v in Table(s)
      ensures Table(s)[v].saved.Some? <==> Table(s)[v].expansion == Fullscreen
    {
      assert v in BonesOf(s).cores;
    }
    forall i, v | 0 <= i < |s.workspaces|
      ensures s.workspaces[i].fullscreen == Some(v) <==>
              v in Table(s) && Table(s)[v].mapped && Table(s)[v].workspaceId == i && Table(s)[v].expansion == Fullscreen
    {
      DueMeans(s, i, v);
      assert BonesOf(s).ws[i].fullscreen == Some(v)
          <==> Due(BonesOf(s), i, v) == 1 && BonesOf(s).cores[v].expansion == Fullscreen;
    }
  }

  lemma InvAssignsOutputs(s: State)
    requires Inv(s)
    ensures OutputsAssigned(s)
  {
    hide FullscreenOk, Balanced, FocusOk, Occurrences;
    forall i | 0 <= i < |s.workspaces|
      ensures s.workspaces[i].index == i
      ensures s.workspaces[i].output.Some? ==> s.workspaces[i].output.value in s.env.outputs
    {
      assert BonesOf(s).ws[i].index == i;
      OutputAt(s, i);
    }
    forall o | o in s.env.outputs
      ensures exists i :: OnlyHolder(s, o, i)
    {
      assert Held(BonesOf(s), o);
      var i :| 0 <= i < |s.workspaces| && !Leaving(BonesOf(s), i) && BonesOf(s).ws[i].output == Some(o);
      OnlyOneHolds(s, o, i);
    }
  }

  lemma OnlyOneHolds(s: State, o: OutputId, i: nat)
    requires Assigned(BonesOf(s)) && i < |s.workspaces| && !Leaving(BonesOf(s), i) && BonesOf(s).ws[i].output == Some(o)
    ensures OnlyHolder(s, o, i)
  {
    var b := BonesOf(s);
    forall j | 0 <= j < |s.workspaces| && s.workspaces[j].output == Some(o)
      ensures j == i || SlidingOut(s, j)
    {
      assert b.ws[j].output == b.ws[i].output;
    }
  }

  lemma InvTellsClients(s: State)
    requires Inv(s)
    ensures ClientsTold(s)
  {
    hide Placement, FullscreenOk, Assigned, FocusOk, OnOutputs;
    forall v | v in Table(s)
      ensures OnOutputs(Table(s)[v].events) == if Table(s)[v].mapped && Located(s, v) then
              OutputSet(s.workspaces[Home(s, v)].output) else {}
    {
      CoreApart(s, v);
      if Located(s, v) {
        OutputAt(s, Home(s, v));
      }
    }
  }

  /** Whatever happens, in whatever order, from the start of the compositor on: views are placed
      once, fullscreen views are consistent, outputs are assigned, clients know their outputs, the
      focus stack is in order, no assertion of the code has failed, and no queued animation that may
      still run is about a view that is gone. */
  lemma ReachableStates(gap: int, now: Time, events: seq<Event>)
    requires CanRun(Initial(gap, now), events)
    ensures var s := Run(Initial(gap, now), events);
            && PlacedOnce(s) && FullscreenConsistent(s) && OutputsAssigned(s) && ClientsTold(s)
               && StackHoldsMappedViews(s)
            && !s.screen.fault && TasksKnown(Table(s), s.screen.tasks)
  {
    hide BonesOk, PlacedOnce, FullscreenConsistent, OutputsAssigned, ClientsTold, Run, CanRun;
    InitialInv(gap, now);
    RunKeeps(Initial(gap, now), events);
    var s := Run(Initial(gap, now), events);
    InvPlacesOnce(s);
    InvIsFullscreenConsistent(s);
    InvAssignsOutputs(s);
    InvTellsClients(s);
  }

  // ---------------------------------------------------------------------------------------
  // Why the events are restricted
  // ---------------------------------------------------------------------------------------

  lemma FocusingKeepsBones(s: State, v: ViewId)
    requires FocusOk(s) && LayerOk(s) && v in Table(s) && Table(s)[v].mapped
    ensures BonesOf(FocusView(s, Some(v), false)) == BonesOf(s)
  {
    hide BonesOf, StackOk, FocusView;
    FocusViewKeeps(s, Some(v), false, None);
  }

  lemma MappedNowhere(s: State, v: ViewId, geometry: Box)
    requires Inv(s) && v in Table(s) && !Table(s)[v].mapped && FocusedWorkspace(s).None?
    ensures !Placement(BonesOf(MapView(s, v, geometry)))
  {
    hide FullscreenOk, Assigned, Balanced, NoDuplicates, FocusView, Occurrences, FocusedWorkspace;
    var s1 := WithTable(s, Table(s)[v := NewlyMapped(Table(s)[v], geometry)]);
    SameCursorWorkspace(s, s1);
    FocusingKeepsBones(s1, v);
    var b, b' := BonesOf(s), BonesOf(s1);
    CoreApart(s, v); CoreApart(s1, v);
    var i := Table(s)[v].workspaceId;
    if 0 <= i < |b.ws| {
      assert Occurrences(b.ws[i], v) == Due(b, i, v) == 0;
      assert b'.ws[i] == b.ws[i] && Due(b', i, v) == 1;
    }
  }

  lemma MappedWhileFullscreen(s: State, v: ViewId, geometry: Box)
    requires Inv(s) && v in Table(s) && !Table(s)[v].mapped && FocusedWorkspace(s).Some?
             && Table(s)[v].expansion == Fullscreen
    ensures !FullscreenOk(BonesOf(MapView(s, v, geometry)))
  {
    hide Placement, Assigned, Balanced, NoDuplicates, FocusView, Mapped, WithView, MapView, FocusedWorkspace;
    var t := Mapped(s, v, geometry);
    MappedBones(s, v, geometry);
    var i := FocusedWorkspace(s).value;
    var b, b' := BonesOf(s), BonesOf(t);
    CoreApart(s, v); CoresTell(t, v);
    StackStaysMapped(s, t, v);
    FocusingKeepsBones(t, v);
    assert Due(b, i, v) == 0 && Due(b', i, v) == 1;
    assert b.ws[i].fullscreen != Some(v);
    SameFullscreen(b.ws[i], v, FocusedView(s));
  }

  lemma SameFullscreen(w: WorkspaceState, v: ViewId, nextTo: Option<ViewId>)
    ensures WithView(w, v, nextTo, false).fullscreen == w.fullscreen
  {
  }

  lemma StackStaysMapped(s: State, t: State, v: ViewId)
    requires FocusOk(s) && t.seat == s.seat && v in BonesOf(t).cores && BonesOf(t).cores[v].mapped
    requires BonesOf(t).cores == BonesOf(s).cores[v := BonesOf(t).cores[v]]
    ensures FocusOk(t)
  {
    hide NoDuplicates;
    StackCores(s);
  }

  /** Mapping a view keeps the invariants exactly when there is a workspace under the cursor to put
      it in and it was not unmapped while it was fullscreen. */
  lemma MappingIsSafeExactlyWhen(s: State, v: ViewId, geometry: Box)
    requires Inv(s) && v in Table(s) && !Table(s)[v].mapped
    ensures Inv(MapView(s, v, geometry)) <==> FocusedWorkspace(s).Some? && Table(s)[v].expansion != Fullscreen
  {
    hide Placement, FullscreenOk, Assigned, Balanced, BonesOf, FocusOk, MapView, FocusedWorkspace;
    if FocusedWorkspace(s).None? {
      MappedNowhere(s, v, geometry);
    } else if Table(s)[v].expansion == Fullscreen {
      MappedWhileFullscreen(s, v, geometry);
    } else {
      MapViewKeeps(s, v, geometry);
    }
  }

  /** A request to become fullscreen makes the assertion in `save_state` fail exactly when the view
      is not normal. */
  lemma FullscreenFailsExactlyWhen(s: State, v: ViewId)
    requires Inv(s) && IsMappedView(s, v)
    ensures RequestFullscreen(s, v, true).screen.fault <==> Table(s)[v].expansion != Normal
  {
    hide Placement, FullscreenOk, Assigned, Balanced, BonesOf, FocusOk, Arrange;
    if Table(s)[v].expansion == Normal {
      RequestingKeeps(s, v, true);
    } else {
      var i := Home(s, v);
      var w := s.workspaces[i];
      var s1 := if w.fullscreen.Some? then ExitFullscreen(s.screen, w.fullscreen.value) else s.screen;
      assert v in s1.views && s1.views[v].expansion != Normal;
      ArrangeKeeps(w.(fullscreen := Some(v)), EnterFullscreen(s1, v), s.env, true);
    }
  }

  /** Destroying an output keeps the invariants exactly when it is not shared with a workspace that is still sliding
      out, because only the first workspace on it is taken off, and no switch to it is still being animated. */
  lemma DestroyingIsSafeExactlyWhen(s: State, o: OutputId)
    requires Inv(s)
    ensures Inv(DestroyOutput(s, o)) <==> CanDestroy(s, o)
  {
    hide Placement, FullscreenOk, Balanced, FocusOk, DestroyOutput, BonesOf, Pending;
    var i := WorkspaceOn(s.workspaces, Some(o));
    if CanDestroy(s, o) {
      DestroyingOutputKeeps(s, o);
    } else {
      AfterDestruction(s, o);
      if !NotShared(s.workspaces, o) {
        var j :| 0 <= j < |s.workspaces| && j != i && s.workspaces[j].output == Some(o);
        StillOnIt(BonesOf(DestroyOutput(s, o)), j, o);
      }
    }
  }

  lemma StillOnIt(b: Bones, j: nat, o: OutputId)
    requires j < |b.ws| && b.ws[j].output == Some(o) && o !in b.outputs
    ensures !Assigned(b)
  {
  }

  lemma AfterDestruction(s: State, o: OutputId)
    ensures var i := WorkspaceOn(s.workspaces, Some(o));
            var b, b' := BonesOf(s), BonesOf(DestroyOutput(s, o));
            && |b'.ws| == |b.ws| == |s.workspaces| && b'.outputs == b.outputs - {o} && b'.pending == b.pending
            && b.pending == Pending(s.screen.tasks)
            && (forall j | 0 <= j < |b.ws| :: b.ws[j].output == s.workspaces[j].output)
            && (forall j | 0 <= j < |b.ws| :: b'.ws[j].output == if j == i then None else b.ws[j].output)
  {
    hide Notified, AllViews, Pending;
  }
}
