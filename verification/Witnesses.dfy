/** Inputs at which the code does not keep its promises: for each exact condition that is proved elsewhere, a run of the
    desktop from its start, or a plain value, that does not meet it. */
module Witnesses {
  import opened Prelude
  import opened Views
  import opened Columns
  import opened Rearranging
  import opened Layout
  import opened Animation
  import opened AnimationQueue
  import opened Tiling
  import opened Desktop
  import opened Invariants
  import opened Preservation
  import opened Steps
  import opened Runs
  import opened Focus
  import opened Effects
  import opened RoundTrip
  import opened Switching
  import opened AnimationRuns
  import opened Scrolling
  import opened Swipe
  import opened Dominant
  import opened Homeward
  import opened Homecoming
  import Placing
  import Keyboard
  import Outcomes

  const SCREEN := OutputInfo(Box(0, 0, 1920, 1080), Box(0, 0, 1920, 1080))
  const SCREEN_BESIDE := OutputInfo(Box(1920, 0, 1920, 1080), Box(0, 0, 1920, 1080))
  const WINDOW := Box(0, 0, 800, 600)

  // ---------------------------------------------------------------------------------------
  // A desktop to begin with
  // ---------------------------------------------------------------------------------------

  /** One view, which is not mapped, and no output. */
  function NoOutput(): State
  {
    CreateView(Initial(10, 0), 0, 0, [])
  }

  lemma NoOutputIsReachable()
    ensures Reachable(NoOutput()) && Inv(NoOutput())
  {
    hide Inv;
    InitialIsReachable(10, 0);
    NextIsReachable(Initial(10, 0), ViewCreated(0, 0, []));
  }

  /** An output with a workspace and the cursor on it. */
  function OneOutput(): State
  {
    State(Screen(map[], [], false), [WorkspaceState([], [], Some(0), None, 0, 0, false)], Env(map[0 := SCREEN], 10, 0),
          map[],
          SeatState([], None, None, None, {0}))
  }

  lemma NobodyThere(w: WorkspaceState, views: ViewTable, before: Option<OutputId>, after: Option<OutputId>)
    requires w.columns == [] && w.floating == []
    ensures Notified(views, AllViews(w), before, after) == views
  {
    assert AllViews(w) == [];
  }

  lemma OneOutputIsReachable()
    ensures Reachable(OneOutput()) && Inv(OneOutput())
  {
    hide Inv, Reachable, Notified, AllViews;
    var s := Initial(10, 0);
    InitialIsReachable(10, 0);
    NextIsReachable(s, OutputAdded(0, SCREEN));
    NobodyThere(WorkspaceState([], [], None, None, 0, 0, false), map[], None, Some(0));
    var s1 := Runs.Next(s, OutputAdded(0, SCREEN));
    assert s1.workspaces == OneOutput().workspaces;
    assert s1.env.outputs == map[0 := SCREEN];
    NextIsReachable(s1, CursorMoved({0}));
    assert Runs.Next(s1, CursorMoved({0})) == OneOutput();
  }

  /** Exactly the views of the stack exist; they are normal tiles of the only workspace, which is on output 0, and
      nothing is to be done after an animation. */
  ghost predicate AllTiled(b: Bones, stack: seq<ViewId>)
  {
    && |b.ws| == 1 && b.ws[0].output == Some(0) && b.ws[0].fullscreen == None && b.ws[0].floating == []
    && b.outputs == {0} && b.pending == multiset{}
    && (forall v :: v in b.cores <==> v in stack)
    && forall v | v in stack ::
         && b.cores[v].mapped && b.cores[v].expansion == Normal && b.cores[v].saved == None
         && b.cores[v].workspaceId == 0 && b.cores[v].ancestors == []
  }

  /** A reachable desktop with such views, the last focused one first, and the cursor on the output. */
  ghost predicate AtWork(s: State, stack: seq<ViewId>)
  {
    && Reachable(s) && Inv(s) && AllTiled(BonesOf(s), stack)
    && s.env.outputs == map[0 := SCREEN] && s.layers == map[]
       && s.seat == SeatState(stack, None, s.seat.keyboard, None, {0})
  }

  lemma AtWorkMeans(s: State, stack: seq<ViewId>)
    requires AtWork(s, stack)
    ensures |s.workspaces| == 1 && s.workspaces[0].output == Some(0) && s.workspaces[0].fullscreen == None
    ensures s.workspaces[0].floating == [] && s.workspaces[0].index == 0 && FocusedWorkspace(s) == Some(0)
    ensures Pending(s.screen.tasks) == multiset{}
    ensures forall v :: v in Table(s) <==> v in stack
    ensures forall v | v in stack ::
              && IsNormal(Table(s), v) && Table(s)[v].saved == None && Table(s)[v].workspaceId == 0
                 && Table(s)[v].ancestors == []
              && Located(s, v) && FindColumn(s.workspaces[0].columns, v) < |s.workspaces[0].columns|
  {
    hide Reachable, FullscreenOk, Assigned, Balanced, StackOk, Occurrences, Count, FindColumn, Pending;
    BonesApart(s);
    SkeletonAt(s, 0);
    IndexIsPlace(s, 0);
    PlacedIsDistinct(s, 0);
    forall v
      ensures v in Table(s) <==> v in stack
    {
      assert v in Table(s) <==> v in BonesOf(s).cores;
    }
    forall v | v in stack
      ensures IsNormal(Table(s), v) && FindColumn(s.workspaces[0].columns, v) < |s.workspaces[0].columns|
      ensures CoreOf(Table(s)[v]) == BonesOf(s).cores[v]
    {
      CoresTell(s, v);
      DueMeans(s, 0, v);
      OnlyTiled(s.workspaces[0], v);
    }
  }

  lemma OneOutputAtWork()
    ensures AtWork(OneOutput(), [])
  {
    hide Inv, Reachable;
    OneOutputIsReachable();
  }

  /** One more view. */
  function WithOneMore(s: State, v: ViewId): State
  {
    MapView(CreateView(s, v, 0, []), v, WINDOW)
  }

  lemma CreatedAtWork(s: State, stack: seq<ViewId>, v: ViewId)
    requires AtWork(s, stack) && v !in stack
    ensures var t := CreateView(s, v, 0, []);
            && Reachable(t) && Inv(t) && CanMap(t, v)
            && BonesOf(t) == BonesOf(s).(cores := BonesOf(s).cores[v := CoreOf(Table(t)[v])])
            && FocusedWorkspace(t) == Some(0)
  {
    hide Inv, Reachable, Pending, AllTiled;
    AtWorkMeans(s, stack);
    NextIsReachable(s, ViewCreated(v, 0, []));
    var t := CreateView(s, v, 0, []);
    SameCursorWorkspace(s, t);
    CoresUpdate(Table(s), v, Table(t)[v]);
    assert BonesOf(t).ws == BonesOf(s).ws;
  }

  /** The core of a view that was just created. */
  const NEWCOMER := Core(false, Normal, None, -1, 0, [], [])

  lemma MappedIsTiled(b: Bones, b': Bones, nextTo: Option<ViewId>, stack: seq<ViewId>, v: ViewId)
    requires AllTiled(b, stack) && v !in stack
    requires b' == b.(ws := b.ws[0 := WithView(b.ws[0], v, nextTo, false)],
                      cores := b.cores[v := MappedCore(NEWCOMER, 0, Some(0))])
    ensures AllTiled(b', [v] + stack)
  {
    hide AddColumn;
  }

  lemma AnyoneMayFocus(s: State, stack: seq<ViewId>, v: ViewId)
    requires AllTiled(BonesOf(s), stack) && v in stack && s.seat.exclusiveClient == None
    ensures !Refused(s, v) && v in Table(s) && Table(s)[v].mapped
  {
    hide Pending;
    CoresTell(s, v);
    BonesApart(s);
    SkeletonAt(s, 0);
  }

  lemma NewcomerCore(s: State, v: ViewId)
    ensures CoreOf(Table(CreateView(s, v, 0, []))[v]) == NEWCOMER
  {
  }

  lemma MappedAtWork(s: State, stack: seq<ViewId>, v: ViewId)
    requires AtWork(s, stack) && v !in stack
    ensures AtWork(WithOneMore(s, v), [v] + stack)
  {
    hide Inv, Reachable, BonesOf, Mapped, FocusView, MapView, FocusedWorkspace, Refused, Pending, AllTiled, CoreOf,
      StackOk, WithView, CreateView, MappedCore;
    var s1 := CreateView(s, v, 0, []);
    CreatedAtWork(s, stack, v);
    CreatedSeat(s, v);
    NextIsReachable(s1, ViewMapped(v, WINDOW));
    var m := Mapped(s1, v, WINDOW);
    PlacedByInv(s1);
    MappedBones(s1, v, WINDOW);
    MappingStack(s1, v, WINDOW);
    NewcomerCore(s, v);
    FirstWorkspace(BonesOf(s), stack);
    MappedIsTiled(BonesOf(s), BonesOf(m), FocusedView(s1), stack, v);
    AnyoneMayFocus(m, [v] + stack, v);
    MappingPutsInFront(s1, v, WINDOW);
    FocusViewKeeps(m, Some(v), false, None);
  }

  lemma FirstWorkspace(b: Bones, stack: seq<ViewId>)
    requires AllTiled(b, stack)
    ensures |b.ws| == 1 && b.ws[0].output == Some(0)
  {
  }

  lemma CreatedSeat(s: State, v: ViewId)
    ensures var t := CreateView(s, v, 0, []);
            t.seat == s.seat && t.env == s.env && t.layers == s.layers && v in Table(t)
  {
  }

  lemma PlacedByInv(s: State)
    requires Inv(s)
    ensures Placement(BonesOf(s))
  {
  }

  function OneView(): State
  {
    WithOneMore(OneOutput(), 0)
  }

  lemma OneViewAtWork()
    ensures AtWork(OneView(), [0])
  {
    hide AtWork;
    OneOutputAtWork();
    MappedAtWork(OneOutput(), [], 0);
    assert [0] + [] == [0];
  }

  /** View 1 was focused last. */
  function TwoViews(): State
  {
    WithOneMore(OneView(), 1)
  }

  lemma TwoViewsAtWork()
    ensures AtWork(TwoViews(), [1, 0])
  {
    hide AtWork;
    OneViewAtWork();
    MappedAtWork(OneView(), [0], 1);
    assert [1] + [0] == [1, 0];
  }

  // ---------------------------------------------------------------------------------------
  // Mapping and fullscreen
  // ---------------------------------------------------------------------------------------

  /** A view that is mapped while there is no output is in no workspace. */
  lemma MappingWithoutWorkspace()
    ensures Reachable(NoOutput()) && 0 in Table(NoOutput()) && !Table(NoOutput())[0].mapped
    ensures !Inv(MapView(NoOutput(), 0, WINDOW))
  {
    hide Inv, Reachable, MapView;
    NoOutputIsReachable();
    MappingIsSafeExactlyWhen(NoOutput(), 0, WINDOW);
  }

  lemma RequestedAtWork(s: State, stack: seq<ViewId>, v: ViewId)
    requires AtWork(s, stack) && v in stack
    ensures var t := RequestFullscreen(s, v, true);
            && Reachable(t) && Inv(t) && t.seat == s.seat && t.layers == s.layers && |t.workspaces| == 1
            && t.workspaces[0].output == Some(0) && t.workspaces[0].fullscreen == Some(v) && t.workspaces[0].index == 0
            && FocusedWorkspace(t) == Some(0) && IsMappedView(t, v) && Table(t)[v].expansion == Fullscreen
            && forall u | u in stack :: Located(t, u) && Home(t, u) == 0 && Table(t)[u].ancestors == []
  {
    hide Inv, Reachable, AtWork, RequestFullscreen, Pending, FindColumn, CoreOf, SameSizesBut, Cores;
    AtWorkMeans(s, stack);
    AtWorkIsReachable(s, stack);
    RequestIsReachable(s, v);
    var t := RequestFullscreen(s, v, true);
    Requested(s, v);
    ExpandedCores(s, v);
    forall u | u in stack
      ensures Located(t, u) && Home(t, u) == 0 && Table(t)[u].ancestors == []
    {
      SameHome(s, t, u);
    }
  }

  lemma RequestIsReachable(s: State, v: ViewId)
    requires Reachable(s) && CanFullscreen(s, v, true)
    ensures Reachable(RequestFullscreen(s, v, true)) && Inv(RequestFullscreen(s, v, true))
  {
    hide Reachable, Inv, RequestFullscreen;
    NextIsReachable(s, FullscreenRequested(v, true));
  }

  lemma AtWorkIsReachable(s: State, stack: seq<ViewId>)
    requires AtWork(s, stack)
    ensures Reachable(s) && Inv(s) && s.seat == SeatState(stack, None, s.seat.keyboard, None, {0}) && s.layers == map[]
  {
    hide Inv, Reachable;
  }

  lemma ExpandedCores(s: State, v: ViewId)
    requires Inv(s) && Located(s, v) && IsNormal(Table(s), v) && s.workspaces[Home(s, v)].fullscreen == None
    ensures var t := RequestFullscreen(s, v, true);
            && t.seat == s.seat && t.layers == s.layers && Cores(Table(t)).Keys == Cores(Table(s)).Keys
            && (forall u | u in Table(s) && u != v :: Cores(Table(t))[u] == Cores(Table(s))[u])
            && Table(t)[v].expansion == Fullscreen && Table(t)[v].mapped
            && Table(t)[v].workspaceId == Table(s)[v].workspaceId && Table(t)[v].ancestors == Table(s)[v].ancestors
  {
    hide SetFullscreen, Pending, Placement, FullscreenOk, Assigned, Balanced, StackOk;
    var i := Home(s, v);
    var t := RequestFullscreen(s, v, true);
    BonesAfterExpanding(s, i, v);
    NothingToLeave(s, i);
    BonesApart(s); BonesApart(t);
    CoreApart(s, v);
    CoresTell(t, v);
  }

  lemma SameHome(s: State, t: State, u: ViewId)
    requires u in Table(s) && u in Table(t) && Located(s, u) && |t.workspaces| == |s.workspaces|
    requires Table(t)[u].workspaceId == Table(s)[u].workspaceId || Cores(Table(t))[u] == Cores(Table(s))[u]
    ensures Located(t, u) && Home(t, u) == Home(s, u)
    ensures Cores(Table(t))[u] == Cores(Table(s))[u] ==> Table(t)[u].ancestors == Table(s)[u].ancestors
  {
    CoresAt(Table(s), u);
    CoresAt(Table(t), u);
  }

  /** A second request to become fullscreen fails the assertion. */
  lemma SecondRequestFails()
    ensures var s := RequestFullscreen(OneView(), 0, true);
            Reachable(s) && IsMappedView(s, 0) && RequestFullscreen(s, 0, true).screen.fault
  {
    hide Inv, Reachable, RequestFullscreen, OneView, AtWork;
    OneViewAtWork();
    RequestedAtWork(OneView(), [0], 0);
    FullscreenFailsExactlyWhen(RequestFullscreen(OneView(), 0, true), 0);
  }

  lemma UnmapIsReachable(s: State, v: ViewId)
    requires Reachable(s) && v in Table(s)
    ensures Reachable(UnmapView(s, v)) && Inv(UnmapView(s, v))
  {
    hide Reachable, Inv, UnmapView;
    NextIsReachable(s, ViewUnmapped(v));
  }

  lemma UnmappedAlone(s: State, v: ViewId)
    requires Reachable(s) && Inv(s) && IsMappedView(s, v) && s.seat.focusStack == [v]
    ensures var t := UnmapView(s, v);
            && Reachable(t) && Inv(t) && t.seat == s.seat.(focusStack := []) && Table(t).Keys == Table(s).Keys
            && !Table(t)[v].mapped && Table(t)[v].expansion == Table(s)[v].expansion
            && |t.workspaces| == |s.workspaces| && Pending(t.screen.tasks) == Pending(s.screen.tasks)
               && t.env == s.env
            && forall i | 0 <= i < |s.workspaces| :: t.workspaces[i].output == s.workspaces[i].output
  {
    hide Reachable, Placement, FullscreenOk, Assigned, Balanced, StackOk, Withdrawn, Pending;
    UnmapIsReachable(s, v);
    MappedIsLocated(s, v);
    WithdrawnBones(s, v);
    var w := Withdrawn(s, v);
    NobodyElse(w, v);
    var t := UnmapView(s, v);
    assert t == w.(seat := t.seat);
    BonesApart(s); BonesApart(w);
    CoresTell(w, v);
    forall i | 0 <= i < |s.workspaces|
      ensures t.workspaces[i].output == s.workspaces[i].output
    {
      OutputAt(s, i); OutputAt(w, i);
    }
  }

  lemma NobodyElse(s: State, v: ViewId)
    requires s.seat.focusStack == [v]
    ensures HideView(s, v) == s && Without([v], v) == []
  {
    assert [v][1..] == [];
    assert FirstMapped([v], Table(s), v) == FirstMapped([], Table(s), v);
    assert Without([v], v) == Without([], v);
  }

  /** A view that is unmapped while it is fullscreen, and mapped again, is fullscreen in a workspace that does not
      know. */
  lemma MappingWhileFullscreen() returns (s: State)
    ensures Reachable(s) && 0 in Table(s) && !Table(s)[0].mapped && FocusedWorkspace(s) == Some(0)
    ensures !Inv(MapView(s, 0, WINDOW))
  {
    hide Inv, Reachable, RequestFullscreen, OneView, AtWork, UnmapView, MapView;
    OneViewAtWork();
    AtWorkIsReachable(OneView(), [0]);
    RequestedAtWork(OneView(), [0], 0);
    var f := RequestFullscreen(OneView(), 0, true);
    UnmappedAlone(f, 0);
    s := UnmapView(f, 0);
    MappingIsSafeExactlyWhen(s, 0, WINDOW);
  }

  /** A client that keeps its size while its view is fullscreen stays out of the layout. */
  lemma UnchangedSizeIsNotNoticed()
    ensures var s := OneView();
            var size := Table(s)[0].geometry;
            && Reachable(s) && CanTrip(s, 0)
            && !SameTiling(s.workspaces[0], Table(ArrangeIn(s, 0)), Table(Recovered(s, 0, [size], [])))
  {
    hide Inv, Reachable, OneView, AtWork, SameTiling, ArrangeIn, Recovered;
    OneViewAtWork();
    AtWorkIsReachable(OneView(), [0]);
    AtWorkMeans(OneView(), [0]);
    VisibleAtWork(OneView(), [0]);
    FullscreenRoundTrip(OneView(), 0, [Table(OneView())[0].geometry], []);
  }

  lemma VisibleAtWork(s: State, stack: seq<ViewId>)
    requires AtWork(s, stack)
    ensures Visible(s, 0)
  {
    hide Reachable, Inv;
    AtWorkMeans(s, stack);
  }

  lemma NewcomerHasTheKeyboard(s: State, stack: seq<ViewId>, v: ViewId)
    requires AtWork(s, stack) && v !in stack
    ensures WithOneMore(s, v).seat.keyboard == Some(ViewSurface(v))
  {
    hide Inv, Reachable, MapView, CreateView, FocusedWorkspace, Refused, AllTiled, BonesOf, InputAllowed,
      HiddenByFullscreen;
    var s1 := CreateView(s, v, 0, []);
    CreatedAtWork(s, stack, v);
    CreatedSeat(s, v);
    MappedAtWork(s, stack, v);
    MappingPutsInFront(s1, v, WINDOW);
    Keyboard.MappingFocuses(s1, v, WINDOW);
  }

  /** The only normal tile of a workspace is a gap below the top of the usable area. */
  lemma OnlyTileIsOnTop(w: WorkspaceState, views: ViewTable, info: OutputInfo, gap: int, animated: bool, v: ViewId)
    requires Distinct(w.columns) && FindColumn(w.columns, v) < |w.columns| && IsNormal(views, v)
    requires forall u | u in views && u != v :: !IsNormal(views, u)
    ensures AskedBox(ArrangedViews(w, views, info, gap, animated)[v]).y == info.box.y + info.usable.y + gap
  {
    hide Distinct, FindColumn, ArrangedView;
    var c := FindColumn(w.columns, v);
    var k := FindTile(w.columns[c], v);
    TileFound(w.columns[c], v);
    Placing.TilesStandInAColumn(w, views, info, gap, animated, c, k);
    assert Placing.NoneNormal(w.columns[c], views, 0, k);
  }

  /** The same output with a bar of 30 pixels at the top. */
  const SCREEN_WITH_BAR := OutputInfo(SCREEN.box, Box(0, 30, 1920, 1050))

  /** View 0 is a tile, the focused view is not, and when the bar appears the tile is asked to stay under it. */
  ghost predicate BarHidesATile(s: State)
  {
    && 0 in s.env.outputs && s.workspaces != [] && Outcomes.FocusedOutOfLayout(s, 0) && Outcomes.IsTile(s, 0, 0)
    && var t := ChangeUsableArea(s, 0, SCREEN_WITH_BAR);
       0 in Table(t) && !Outcomes.FitsHeight(RealUsableArea(SCREEN_WITH_BAR), s.env.gap, AskedBox(Table(t)[0]))
  }

  /** A fullscreen view has the focus when a bar appears: the tile behind it is not laid out again. */
  lemma BarOverATile() returns (s: State)
    ensures Reachable(s) && BarHidesATile(s)
  {
    hide Inv, Reachable, RequestFullscreen, TwoViews, OneView, AtWork, ChangeUsableArea, BarHidesATile;
    var s0 := TwoViews();
    OneViewAtWork();
    TwoViewsAtWork();
    TwoViewsIs();
    NewcomerHasTheKeyboard(OneView(), [0], 1);
    RequestedAtWork(s0, [1, 0], 1);
    s := RequestFullscreen(s0, 1, true);
    RequestedLayout(s0);
    HiddenByTheBar(s);
  }

  /** One tile, a gap below the top of the output, and a focused fullscreen view. */
  ghost predicate TileBehind(s: State)
  {
    && Inv(s) && |s.workspaces| == 1 && s.workspaces[0].output == Some(0) && s.env.outputs == map[0 := SCREEN]
    && Outcomes.FocusedOutOfLayout(s, 0) && Outcomes.IsTile(s, 0, 0) && AskedBox(Table(s)[0]).y == s.env.gap
  }

  lemma HiddenByTheBar(s: State)
    requires TileBehind(s)
    ensures BarHidesATile(s)
  {
    hide Inv, ChangeUsableArea, IsNormal;
    Outcomes.NewAreaIsUsedExactlyWhen(s, 0, SCREEN_WITH_BAR, 0);
  }

  lemma RequestedLayout(s: State)
    requires AtWork(s, [1, 0]) && s.seat.keyboard.Some? && Inv(RequestFullscreen(s, 1, true))
    ensures TileBehind(RequestFullscreen(s, 1, true))
  {
    hide Inv, Reachable, AtWork, ArrangedViews, LayoutTasks, CoreOf, Unharmed, SameSizes, FindColumn, Distinct,
      AskedBox;
    AtWorkIsReachable(s, [1, 0]);
    AtWorkMeans(s, [1, 0]);
    OutputsAtWork(s, [1, 0]);
    var w := s.workspaces[0].(fullscreen := Some(1));
    var before := s.screen.(views := Table(s)[1 := Fullscreened(Table(s)[1])]);
    var after := Arrange(w, before, s.env, true);
    ArrangeKeeps(w, before, s.env, true);
    CoresAt(before.views, 0); CoresAt(before.views, 1);
    CoresAt(after.views, 0); CoresAt(after.views, 1);
    Outcomes.NormalByCore(before.views, after.views, 0);
    Outcomes.NormalByCore(before.views, after.views, 1);
    SamePlaceByCore(before.views, after.views, 0);
    SamePlaceByCore(before.views, after.views, 1);
    Outcomes.OccurringIsAtHome(s, 0, 0);
    OnlyTileIsOnTop(w, before.views, SCREEN, s.env.gap, !w.suspendAnimations, 0);
  }

  lemma SamePlaceByCore(a: ViewTable, b: ViewTable, v: ViewId)
    requires v in a && v in b && CoreOf(a[v]) == CoreOf(b[v])
    ensures a[v].workspaceId == b[v].workspaceId
  {
  }

  lemma TwoViewsIs()
    ensures TwoViews() == WithOneMore(OneView(), 1)
  {
  }

  // ---------------------------------------------------------------------------------------
  // Focus
  // ---------------------------------------------------------------------------------------

  /** Two views, of which the one that was focused last is fullscreen: a cycle does not rotate them. */
  lemma RefusedCycleDoesNotRotate()
    ensures var s := RequestFullscreen(TwoViews(), 1, true);
            && Reachable(s) && Cycling(s, 0) && NextInCycle(s, 0) == Some(0)
            && !RotatedBy(s.seat.focusStack, FocusCycle(s).seat.focusStack, Table(s), 0)
  {
    hide Inv, Reachable, RequestFullscreen, TwoViews, AtWork, RotatedBy, FocusCycle;
    TwoViewsAtWork();
    AtWorkIsReachable(TwoViews(), [1, 0]);
    RequestedAtWork(TwoViews(), [1, 0], 1);
    var s := RequestFullscreen(TwoViews(), 1, true);
    SeatInOrder(s);
    assert s.seat.focusStack[1..] == [0];
    CycleRotates(s, 0);
  }

  lemma SeatInOrder(s: State)
    requires Inv(s)
    ensures FocusOk(s) && LayerOk(s)
  {
    hide BonesOk;
  }

  /** A panel of client 3 above the windows has focus and keyboard, and there is no view. */
  function PanelFocused(): State
  {
    OneOutput().(layers := map[5 := LayerInfo(true, true, 3)],
                 seat := SeatState([], Some(5), Some(LayerSurface(5)), None, {0}))
  }

  lemma PanelFocusedIsReachable()
    ensures Reachable(PanelFocused()) && Inv(PanelFocused())
  {
    hide Reachable, Inv, Pending;
    var info := LayerInfo(true, true, 3);
    OneOutputIsReachable();
    assert 0 in OneOutput().env.outputs;
    NextIsReachable(OneOutput(), LayerMapped(5, info));
    var s1 := OneOutput().(layers := map[5 := info]);
    assert Runs.Next(OneOutput(), LayerMapped(5, info)) == s1;
    NextIsReachable(s1, LayerFocused(5));
    assert FocusLayer(s1, Some(5)) == PanelFocused();
  }

  /** The panel keeps the keyboard when another client gets the input to itself. */
  lemma PanelKeepsTheKeyboard()
    ensures Reachable(PanelFocused()) && KeyboardElsewhere(SetExclusiveClient(PanelFocused(), Some(4)), 4)
  {
    hide Reachable, Inv, SetExclusiveClient;
    PanelFocusedIsReachable();
    SeatInOrder(PanelFocused());
    ExclusiveClientHasTheKeyboard(PanelFocused(), 4);
  }

  // ---------------------------------------------------------------------------------------
  // Outputs
  // ---------------------------------------------------------------------------------------

  /** Two more outputs, 1 and 2, came and went, and left free workspaces behind. */
  function WithSpares(s: State): State
  {
    s.(workspaces := s.workspaces + [EmptyWorkspace(1), EmptyWorkspace(2)])
  }

  function WithOutput(s: State, o: OutputId, index: int): State
  {
    s.(workspaces := s.workspaces + [EmptyWorkspace(index).(output := Some(o))],
       env := s.env.(outputs := s.env.outputs[o := SCREEN]))
  }

  lemma NoFreeWorkspace(ws: seq<WorkspaceState>)
    requires forall i | 0 <= i < |ws| :: ws[i].output.Some?
    ensures WorkspaceOn(ws, None) == |ws|
  {
  }

  lemma FirstOn(ws: seq<WorkspaceState>, o: OutputId, i: nat)
    requires i < |ws| && ws[i].output == Some(o) && forall j | 0 <= j < |ws| && j != i :: ws[j].output != Some(o)
    ensures WorkspaceOn(ws, Some(o)) == i && NotShared(ws, o)
  {
  }

  lemma OutputComes(s: State, o: OutputId)
    requires Reachable(s) && Inv(s) && o !in s.env.outputs && forall i | 0 <= i < |s.workspaces| ::
             s.workspaces[i].output.Some?
    ensures Reachable(WithOutput(s, o, |s.workspaces|)) && Inv(WithOutput(s, o, |s.workspaces|))
  {
    hide Reachable, Inv, Notified, AllViews, WorkspaceOn, Pending;
    NextIsReachable(s, OutputAdded(o, SCREEN));
    NoFreeWorkspace(s.workspaces);
    NobodyThere(EmptyWorkspace(|s.workspaces|), Table(s), None, Some(o));
    assert AddOutput(s, o, SCREEN) == WithOutput(s, o, |s.workspaces|);
  }

  /** Workspace i, which holds no views, was the only one on the output. */
  lemma OutputGoes(s: State, o: OutputId, i: nat)
    requires Reachable(s) && Inv(s) && i < |s.workspaces| && Pending(s.screen.tasks) == multiset{}
    requires s.workspaces[i] == EmptyWorkspace(i).(output := Some(o))
    requires forall j | 0 <= j < |s.workspaces| && j != i :: s.workspaces[j].output != Some(o)
    ensures var t := s.(workspaces := s.workspaces[i := EmptyWorkspace(i)],
                        env := s.env.(outputs := s.env.outputs - {o}),
                        seat := s.seat.(cursor := s.seat.cursor - {o}));
            Reachable(t) && Inv(t)
  {
    hide Reachable, Inv, Notified, AllViews, WorkspaceOn, Pending;
    FirstOn(s.workspaces, o, i);
    NextIsReachable(s, OutputDestroyed(o));
    NobodyThere(s.workspaces[i], Table(s), Some(o), None);
  }

  lemma SparesAreReachable(s: State, stack: seq<ViewId>)
    requires AtWork(s, stack)
    ensures Reachable(WithSpares(s)) && Inv(WithSpares(s))
  {
    hide Reachable, Inv, AllTiled, Pending;
    AtWorkMeans(s, stack);
    OutputComes(s, 1);
    var s1 := WithOutput(s, 1, 1);
    OutputComes(s1, 2);
    var s2 := WithOutput(s1, 2, 2);
    assert s2.workspaces ==
        [s.workspaces[0], EmptyWorkspace(1).(output := Some(1)), EmptyWorkspace(2).(output := Some(2))];
    OutputGoes(s2, 1, 1);
    var s3 := s2.(workspaces := s2.workspaces[1 := EmptyWorkspace(1)], env := s2.env.(outputs := s2.env.outputs - {1}),
                  seat := s2.seat.(cursor := s2.seat.cursor - {1}));
    OutputGoes(s3, 2, 2);
    assert s2.env.outputs - {1} - {2} == s.env.outputs;
    assert s2.seat.cursor - {1} - {2} == s.seat.cursor;
    assert s3.workspaces[2 := EmptyWorkspace(2)] == WithSpares(s).workspaces;
  }

  // ---------------------------------------------------------------------------------------
  // A scroll that ends
  // ---------------------------------------------------------------------------------------

  lemma LostOutputIsReachable(s: State, o: OutputId)
    requires Reachable(s) && CanDestroy(s, o)
    ensures Reachable(DestroyOutput(s, o)) && Inv(DestroyOutput(s, o))
  {
    hide Reachable, Inv, DestroyOutput, CanDestroy;
    NextIsReachable(s, OutputDestroyed(o));
  }

  lemma LostOutput(s: State, o: OutputId)
    requires Inv(s) && WorkspaceOn(s.workspaces, Some(o)) < |s.workspaces|
    ensures var t := DestroyOutput(s, o);
            && |t.workspaces| == |s.workspaces| && t.workspaces[WorkspaceOn(s.workspaces, Some(o))].output == None
            && Table(t).Keys == Table(s).Keys && t.env.outputs == s.env.outputs - {o}
            && t.seat == s.seat.(cursor := t.seat.cursor)
            && forall v | v in Table(s) :: Table(t)[v].mapped == Table(s)[v].mapped
  {
    hide BonesOf, Placement, FullscreenOk, Assigned, Balanced, StackOk, Notified, AllViews, WorkspaceOn, ToldCores;
    var i := WorkspaceOn(s.workspaces, Some(o));
    DeactivateBones(s, i);
    BonesApart(s);
    SwitchedKeepsMapped(BonesOf(s), i, None);
    CoresApart(s); CoresApart(InWorkspace(s, i, Deactivate(s.workspaces[i], s.screen)));
  }

  lemma NobodyIsFullscreen(s: State, v: ViewId)
    requires Inv(s) && (forall u :: u in Table(s) <==> u == v) && !Table(s)[v].mapped
    ensures !HiddenByFullscreen(s, v)
  {
    hide Placement, Assigned, Balanced, StackOk;
    if Located(s, v) {
      var i := Home(s, v);
      FullscreenAt(s, i);
      assert forall u :: Due(BonesOf(s), i, u) == 0;
    }
  }

  /** A second output with a workspace of its own. */
  lemma SecondOutputIsReachable(s: State, v: ViewId)
    requires AtWork(s, [v])
    ensures var t := WithOutput(s, 1, 1);
            && Reachable(t) && Inv(t) && IsMappedView(t, v) && t.seat.focusStack == [v]
               && t.seat.exclusiveClient == None
            && t.env.outputs == s.env.outputs[1 := SCREEN] && WorkspaceOn(t.workspaces, Some(0)) == 0
            && NotShared(t.workspaces, 0) && Pending(t.screen.tasks) == multiset{}
            && forall u :: u in Table(t) <==> u == v
  {
    hide Reachable, Inv, AllTiled, Pending, FindColumn;
    AtWorkMeans(s, [v]);
    OutputComes(s, 1);
    FirstOn(WithOutput(s, 1, 1).workspaces, 0, 0);
    assert v in [v];
  }

  /** The view that was dominant when a scroll began is unmapped, and its workspace, which loses its output, has no
      other one to offer: when the scroll ends the view is focused, although it is not mapped. */
  lemma ScrollEndsOnAnUnmappedView() returns (s: State)
    ensures Reachable(s) && 0 < |s.workspaces| && s.workspaces[0].output == None && s.env.outputs != map[]
    ensures 0 in Table(s) && !Table(s)[0].mapped && !Inv(SwipeFrame(s, 0, 0, true, Some(0)))
  {
    hide Reachable, Inv, OneView, AtWork, UnmapView, DestroyOutput, SwipeFrame, FocusedWorkspace, Pending, MayFocus;
    OneViewAtWork();
    SecondOutputIsReachable(OneView(), 0);
    var t := WithOutput(OneView(), 1, 1);
    UnmappedAlone(t, 0);
    var u := UnmapView(t, 0);
    FirstOn(u.workspaces, 0, 0);
    LostOutputIsReachable(u, 0);
    LostOutput(u, 0);
    s := DestroyOutput(u, 0);
    assert 1 in s.env.outputs;
    GoneAndFree(s, 0);
    SwipeFrameIsSafeExactlyWhen(s, 0, 0, true, Some(0));
  }

  lemma GoneAndFree(s: State, v: ViewId)
    requires Inv(s) && (forall u :: u in Table(s) <==> u == v) && !Table(s)[v].mapped && s.seat.exclusiveClient == None
    ensures !MayFocus(s, Some(v))
  {
    hide Inv, HiddenByFullscreen;
    NobodyIsFullscreen(s, v);
  }

  // ---------------------------------------------------------------------------------------
  // Coming to rest
  // ---------------------------------------------------------------------------------------

  lemma {:induction false} SilentRounds(s: State, duration: int, count: nat)
    requires duration > 0 && Pending(s.screen.tasks) == multiset{}
    ensures var t := TakeTasks(s, duration, count);
            t == s.(screen := t.screen) && BonesOf(t) == BonesOf(s)
    decreases count
  {
    hide BonesOf, Pending, TakeTask, FrontTaken, FrontWish, LosesJust;
    if count == 0 || s.screen.tasks == [] {
    } else {
      SilentRound(s, duration);
      SilentRounds(TakeTask(s, duration), duration, count - 1);
    }
  }

  lemma SilentRound(s: State, duration: int)
    requires duration > 0 && s.screen.tasks != [] && Pending(s.screen.tasks) == multiset{}
    ensures var t := TakeTask(s, duration);
            t == s.(screen := t.screen) && BonesOf(t) == BonesOf(s) && Pending(t.screen.tasks) == multiset{}
  {
    hide BonesOf, Pending, FrontTaken, FrontWish;
    FrontRunLosesJust(s, duration);
    var t, callback := FrontTaken(s, duration), FrontWish(s, duration);
    assert callback != Silent ==> (Pending(t.screen.tasks) + multiset{callback})[callback] > 0;
    LosingBones(s, t, callback);
    BonesApart(s); BonesApart(t);
  }

  lemma TickIsReachable(s: State, now: Time, duration: int)
    requires Reachable(s) && duration > 0 && s.env.now <= now
    ensures Reachable(TickTo(s, now, duration)) && Inv(TickTo(s, now, duration))
  {
    hide Reachable, Inv, TickTo;
    NextIsReachable(s, TimerTicked(now, duration));
  }

  lemma TickedAtWork(s: State, stack: seq<ViewId>, now: Time, duration: int)
    requires AtWork(s, stack) && duration > 0 && s.env.now <= now
    ensures AtWork(TickTo(s, now, duration), stack)
  {
    hide Reachable, Inv, AllTiled, Pending, TakeTasks, FindColumn;
    AtWorkMeans(s, stack);
    TickIsReachable(s, now, duration);
    var s1 := s.(env := s.env.(now := now));
    SilentRounds(s1, duration, |s.screen.tasks|);
    SameButTime(s, s1);
  }

  lemma SameButTime(s: State, t: State)
    requires t == s.(env := t.env) && t.env.outputs == s.env.outputs
    ensures BonesOf(t) == BonesOf(s)
  {
    hide Pending;
    assert BonesOf(t).ws == BonesOf(s).ws;
  }

  /** How long the animations of these desktops take. */
  const DURATION := 100

  /** The desktop with one view, when that has come to rest. */
  function Rested(): State
  {
    TickTo(OneView(), OneView().env.now + DURATION * NS_PER_MS, DURATION)
  }

  lemma OneOutputHome()
    ensures HomeOk(OneOutput(), BETWEEN)
  {
    hide Survivors, TickViews;
    BetweenTicks(OneOutput().screen, BETWEEN, 0);
  }

  lemma OneViewHome()
    ensures HomeOk(OneView(), BETWEEN) && Inv(OneView()) && Inv(OneOutput())
  {
    hide Inv, HomeOk, Reachable, MapView, AtWork, CreateView, CanMap, FocusedWorkspace, BonesOf;
    OneOutputHome();
    OneOutputAtWork();
    OneOutputIsReachable();
    CreatedAtWork(OneOutput(), [], 0);
    CreatingHome(OneOutput(), 0, 0, []);
    MappingHome(CreateView(OneOutput(), 0, 0, []), 0, WINDOW);
    OneViewAtWork();
    AtWorkIsReachable(OneView(), [0]);
  }

  lemma TiledIsDisplayed(b: Bones, stack: seq<ViewId>, v: ViewId)
    requires AllTiled(b, stack) && v in stack
    ensures DisplayedIn(b, v)
  {
  }

  lemma BonesAtWork(s: State, stack: seq<ViewId>)
    requires AtWork(s, stack)
    ensures AllTiled(BonesOf(s), stack) && Pending(s.screen.tasks) == multiset{}
  {
    hide Reachable, Inv, AllTiled, Pending, FindColumn;
    AtWorkMeans(s, stack);
  }

  lemma RestedAtWork()
    ensures AtWork(Rested(), [0]) && 0 in Table(Rested()) && Warped(Table(Rested())[0]) == Table(Rested())[0]
  {
    hide AtWork, OneView, Inv, HomeOk, TickTo, Pending, AllTiled, DisplayedIn, BonesOf;
    var later := OneView().env.now + DURATION * NS_PER_MS;
    OneViewAtWork();
    TickedAtWork(OneView(), [0], later, DURATION);
    OneViewHome();
    BonesAtWork(OneView(), [0]);
    BonesAtWork(Rested(), [0]);
    TilesComeToRest(OneView(), later, DURATION);
    TiledIsDisplayed(BonesOf(Rested()), [0], 0);
    assert Displayed(Rested(), 0);
  }

  /** The desktop after a switch to a workspace without views: the view of the other one slides out, and both are on the
      output meanwhile. */
  function HalfSwitched(): State
  {
    SwitchTo(WithSpares(Rested()), 1)
  }

  lemma SpareFacts(s: State, stack: seq<ViewId>)
    requires AtWork(s, stack) && stack != []
    ensures var t := WithSpares(s);
            && FocusedWorkspace(t) == Some(0) && t.seat == s.seat && Table(t) == Table(s) && t.env == s.env
            && |t.workspaces| == 3 && t.workspaces[0].output == Some(0)
            && t.workspaces[1].output == None && t.workspaces[2].output == None
            && BonesOf(t).pending == multiset{} && CanSwitch(t, 1) && Sliding(t, 0, 0) != []
            && NothingFloats(t)
  {
    hide Reachable, Inv, AllTiled, Pending, Count, NormalTiles, FindColumn;
    AtWorkMeans(s, stack);
    var t := WithSpares(s);
    var v := stack[0];
    FindColumnIsMembership(s.workspaces[0].columns, v);
    SlidingCount(t, 0, 0, v);
    assert v in Sliding(t, 0, 0);
  }

  /** In the middle of a switch the old and the new workspace share the output, the old one is leaving, and the
      cursor's workspace is the old one. */
  ghost predicate Sharing(s: State)
  {
    && Reachable(s) && Inv(s) && |s.workspaces| == 3
    && s.workspaces[0].output == Some(0) && s.workspaces[1].output == Some(0) && s.workspaces[2].output == None
    && FocusedWorkspace(s) == Some(0) && Leaving(BonesOf(s), 0)
    && s.seat.focusStack == [0] && (forall v :: v in Table(s) <==> v == 0) && Table(s)[0].mapped
    && NothingFloats(s)
  }

  predicate NothingFloats(s: State)
  {
    forall i | 0 <= i < |s.workspaces| :: s.workspaces[i].floating == []
  }

  lemma SwitchedBones(s: State)
    requires Inv(s) && CanSwitch(s, 1) && FocusedWorkspace(s) == Some(0) && s.seat.cursor == {0}
    requires |s.workspaces| == 3 && s.workspaces[0].output == Some(0)
    requires s.workspaces[1].output == None && s.workspaces[2].output == None
    requires BonesOf(s).pending == multiset{} && Sliding(s, 0, 0) != [] && s.seat.focusStack == [0]
             && s.seat.focusedLayer == None
    requires forall v :: v in Table(s) <==> v == 0
    requires Table(s)[0].mapped && Table(s)[0].workspaceId == 0 && NothingFloats(s)
    ensures var t := SwitchTo(s, 1);
            && |t.workspaces| == 3 && t.workspaces[0].output == Some(0) && t.workspaces[1].output == Some(0)
            && t.workspaces[2].output == None && Leaving(BonesOf(t), 0) && t.seat.focusStack == [0]
               && t.seat.cursor == {0}
            && (forall v :: v in Table(t) <==> v == 0) && Table(t)[0].mapped && NothingFloats(t)
  {
    hide BonesOf, Inv, Sliding, TakeOver, Entered, FocusedWorkspace, FocusThere, CanSwitch, TakenOver, Leaving,
      PlacedAndTold;
    var u := TakeOver(s, 1, 0);
    TakenOverBones(s, 1, 0);
    SwitchingTakesTheOutput(s, 1, 0);
    TakeOverKeepsLists(s, 1, 0);
    TakenOverMeans(s, u);
    CoresApart(s); CoresApart(u);
    PlacedByInv(s);
    EnteredBones(s, 1, 0);
    if Sliding(Entered(s, 1, 0), 1, 0) == [] {
      FocusingKeepsAssignment(s, u, 1, 0);
      FocusedNobody(u);
      SamePlaces(u, FocusThere(u, 1, 0));
    }
  }

  /** What depends on the bones alone. */
  lemma SamePlaces(s: State, t: State)
    requires BonesOf(t) == BonesOf(s)
    ensures |t.workspaces| == |s.workspaces| && Table(t).Keys == Table(s).Keys
    ensures NothingFloats(t) == NothingFloats(s)
    ensures forall i | 0 <= i < |s.workspaces| :: t.workspaces[i].output == s.workspaces[i].output
    ensures forall v | v in Table(s) :: Table(t)[v].mapped == Table(s)[v].mapped
  {
    hide BonesOf;
    BonesApart(s); BonesApart(t);
    forall i | 0 <= i < |s.workspaces|
      ensures t.workspaces[i].output == s.workspaces[i].output && t.workspaces[i].floating == s.workspaces[i].floating
    {
      OutputAt(s, i); OutputAt(t, i);
      FloatingAt(s, i); FloatingAt(t, i);
    }
    CoresApart(s); CoresApart(t);
  }

  /** A takeover leaves the views in their places. */
  lemma TakeOverKeepsLists(s: State, n: nat, p: nat)
    requires n < |s.workspaces| && p < |s.workspaces| && s.workspaces[p].output.Some?
    ensures var t := TakeOver(s, n, p);
            |t.workspaces| == |s.workspaces| && forall i | 0 <= i < |s.workspaces| ::
              t.workspaces[i].floating == s.workspaces[i].floating && t.workspaces[i].columns == s.workspaces[i].columns
  {
    hide Notified, AllViews, Arrange, SlideTasks, PutOff, NormalTiles;
  }

  lemma FloatingAt(s: State, i: nat)
    requires i < |s.workspaces|
    ensures i < |BonesOf(s).ws| && BonesOf(s).ws[i].floating == s.workspaces[i].floating
  {
  }

  lemma CoresApart(s: State)
    ensures BonesOf(s).cores.Keys == Table(s).Keys
    ensures forall v | v in Table(s) :: BonesOf(s).cores[v].mapped == Table(s)[v].mapped
  {
  }

  lemma TakenOverMeans(s: State, u: State)
    requires |s.workspaces| == 3 && |u.workspaces| == 3 && s.workspaces[0].output == Some(0)
             && u.workspaces[0].output == Some(0)
    requires TakenOver(BonesOf(s), BonesOf(u), 1, 0) && BonesOf(s).pending == multiset{}
    ensures Leaving(BonesOf(u), 0)
  {
    OutputAt(s, 0); OutputAt(u, 0);
  }

  /** Nothing of the workspace that comes in can be focused. */
  lemma FocusedNobody(s: State)
    requires |s.workspaces| == 3 && s.seat.focusStack == [0] && s.seat.focusedLayer == None
    ensures var t := FocusThere(s, 1, 0);
            t.seat.focusStack == [0] && t.seat.cursor == {0}
  {
    var s1 := s.(seat := s.seat.(cursor := {0}));
  }

  lemma SwitchIsReachable(s: State, n: nat)
    requires Reachable(s) && CanSwitch(s, n)
    ensures Reachable(SwitchTo(s, n)) && Inv(SwitchTo(s, n))
  {
    hide Reachable, Inv, SwitchTo, CanSwitch;
    NextIsReachable(s, WorkspaceFocused(n));
  }

  lemma HalfSwitchedShares()
    ensures Sharing(HalfSwitched())
  {
    hide Reachable, Inv, Rested, AtWork, BonesOf, SwitchTo, FocusedWorkspace, Sliding, Leaving, CanSwitch, WithSpares,
      NothingFloats;
    RestedAtWork();
    AtWorkMeans(Rested(), [0]);
    AtWorkIsReachable(Rested(), [0]);
    SparesAreReachable(Rested(), [0]);
    SpareFacts(Rested(), [0]);
    var s := WithSpares(Rested());
    SwitchIsReachable(s, 1);
    SwitchedBones(s);
    FirstUnderCursor(SwitchTo(s, 1));
  }

  lemma FirstUnderCursor(s: State)
    requires |s.workspaces| > 0 && s.workspaces[0].output == Some(0) && s.seat.cursor == {0}
    ensures FocusedWorkspace(s) == Some(0)
  {
  }

  /** If the output goes away in the middle of a switch, the invariants do not survive. */
  lemma DestroyingASharedOutput()
    ensures Reachable(HalfSwitched()) && !NotShared(HalfSwitched().workspaces, 0)
            && !Inv(DestroyOutput(HalfSwitched(), 0))
  {
    hide Reachable, Inv, HalfSwitched, DestroyOutput, FocusedWorkspace, Leaving;
    HalfSwitchedShares();
    var s := HalfSwitched();
    var i := WorkspaceOn(s.workspaces, Some(0));
    assert s.workspaces[if i == 0 then 1 else 0].output == Some(0);
    DestroyingIsSafeExactlyWhen(s, 0);
  }

  /** A switch to a third workspace in the middle of it leaves two workspaces on the output for good. */
  lemma SwitchingTwice()
    ensures Reachable(HalfSwitched()) && 2 < |HalfSwitched().workspaces| && !Inv(SwitchTo(HalfSwitched(), 2))
  {
    hide Reachable, Inv, HalfSwitched, SwitchTo, FocusedWorkspace, Leaving;
    HalfSwitchedShares();
    SwitchingIsSafeExactlyWhen(HalfSwitched(), 2);
  }

  // ---------------------------------------------------------------------------------------
  // A workspace that comes back
  // ---------------------------------------------------------------------------------------

  /** View 0, the only one, rests in workspace 0, which is on the only output; workspace 1 is empty and on none. */
  ghost predicate AboutToSwitch(s: State)
  {
    && Reachable(s) && Inv(s) && |s.workspaces| == 3 && FocusedWorkspace(s) == Some(0)
    && s.workspaces[0].output == Some(0) && s.workspaces[1].output == None && s.env.outputs == map[0 := SCREEN]
    && s.workspaces[1].columns == [] && s.workspaces[0].floating == []
    && IsNormal(Table(s), 0) && Table(s)[0].workspaceId == 0 && Warped(Table(s)[0]) == Table(s)[0]
    && s.seat.focusedLayer == None && s.seat.focusStack == [0] && Pending(s.screen.tasks) == multiset{}
    && TaskOrder(s.screen, BETWEEN, s.env.now)
  }

  lemma RestedOrder()
    ensures TaskOrder(Rested().screen, BETWEEN, Rested().env.now)
  {
    hide Inv, HomeOk, OneView, TickTo, Pending, TaskOrder, AtWork;
    var later := OneView().env.now + DURATION * NS_PER_MS;
    OneViewAtWork();
    OneViewHome();
    BonesAtWork(OneView(), [0]);
    RestsInOrder(OneView(), later);
  }

  lemma RestsInOrder(s: State, later: Time)
    requires Inv(s) && HomeOk(s, BETWEEN) && Pending(s.screen.tasks) == multiset{}
    requires later >= s.env.now + DURATION * NS_PER_MS
    ensures var t := TickTo(s, later, DURATION);
            TaskOrder(t.screen, BETWEEN, t.env.now)
  {
    hide Inv, TakeTasks, Displayed, EndOfTick, InOrder, Smooth, NobodyArrives, Homebound, BonesOf;
    var s1 := s.(env := s.env.(now := later));
    var m := Moment(|s.screen.tasks|, later, DURATION);
    assert NobodyArrives(s.screen.tasks) by { NothingArrives(s.screen.tasks); }
    assert Expired(s1, m);
    ExpiredIsSmooth(s1, m);
    TickingHome(s, later, DURATION);
  }

  lemma NothingArrives(tasks: seq<Task>)
    requires Pending(tasks) == multiset{}
    ensures NobodyArrives(tasks)
  {
    hide Pending;
  }

  lemma RestedIsAboutToSwitch()
    ensures AboutToSwitch(WithSpares(Rested()))
  {
    hide Reachable, Inv, Rested, AtWork, BonesOf, FocusedWorkspace, Sliding, CanSwitch, TaskOrder, Pending, FindColumn;
    RestedAtWork();
    RestedOrder();
    AtWorkMeans(Rested(), [0]);
    AtWorkIsReachable(Rested(), [0]);
    OutputsAtWork(Rested(), [0]);
    SparesAreReachable(Rested(), [0]);
    SpareFacts(Rested(), [0]);
    assert 0 in [0];
  }

  lemma OutputsAtWork(s: State, stack: seq<ViewId>)
    requires AtWork(s, stack)
    ensures s.env.outputs == map[0 := SCREEN]
  {
    hide Reachable, Inv, AllTiled;
  }

  lemma OnceInItsWorkspace(s: State)
    requires AboutToSwitch(s)
    ensures Occurrences(s.workspaces[0], 0) == 1 && s.workspaces[0].index == 0 && s.workspaces[1].index == 1
  {
    hide Reachable, FullscreenOk, Assigned, Balanced, StackOk, Occurrences, TaskOrder, FocusedWorkspace, Pending;
    PlacedIsDistinct(s, 0);
    DueMeans(s, 0, 0);
    IndexIsPlace(s, 0); IndexIsPlace(s, 1);
  }

  /** The view slides a whole screen away from its target. */
  lemma SlidesOff(s: State)
    requires AboutToSwitch(s)
    ensures var u := TakeOver(s, 1, 0);
            && CanTakeOver(s, 1, 0) && IsNormal(Table(u), 0) && Table(u)[0].workspaceId == 0
            && !Settling(Table(u), u.screen.tasks, 0)
  {
    hide Reachable, Inv, TakeOver, TaskOrder, FocusedWorkspace, Pending, Occurrences, LastLive, BonesOf;
    OnceInItsWorkspace(s);
    SwitchedAway(s, 1, 0, 0);
    OutgoingStays(s, 1, 0, 0);
    NormalIsCore(s, 0);
    TakenOverNormal(s, 1, 0, 0);
    NormalIsCore(TakeOver(s, 1, 0), 0);
    CoreApart(s, 0);
    CoresTell(TakeOver(s, 1, 0), 0);
  }

  /** View 0 lives in workspace 0, which is to leave its output, if it has not left yet. */
  ghost predicate OnItsWayOut(s: State)
  {
    && |s.workspaces| == 3 && s.workspaces[0].floating == []
    && (s.workspaces[0].output.Some? ==> Leaving(BonesOf(s), 0))
    && NobodyArrives(s.screen.tasks) && 0 in Table(s) && Table(s)[0].workspaceId == 0
  }

  lemma NothingSlidesIn(s: State)
    requires |s.workspaces| == 3 && s.workspaces[0].output.Some? && s.workspaces[1].columns == []
             && s.workspaces[0].floating == []
    ensures Sliding(Entered(s, 1, 0), 1, 0) == []
  {
    hide Notified, AllViews, Arrange;
  }

  lemma SwitchIsOnItsWay(s: State)
    requires AboutToSwitch(s)
    ensures OnItsWayOut(TakeOver(s, 1, 0)) && TakeOver(s, 1, 0).workspaces[1].output == Some(0)
  {
    hide Reachable, TaskOrder, FocusedWorkspace, BonesOf, TakeOver, Pending, FullscreenOk, Assigned, Balanced,
      Placement, StackOk, Sliding, Entered, SlideIn, SlideOut, ToldCores, Occurrences, TakenOver, PlacedAndTold,
      Settling;
    var u := TakeOver(s, 1, 0);
    SlidesOff(s);
    TakenOverBones(s, 1, 0);
    TakeOverKeepsLists(s, 1, 0);
    NothingSlidesIn(s);
    OnlyTheDeparture(s);
  }

  lemma OnlyTheDeparture(s: State)
    requires Inv(s) && |s.workspaces| == 3 && s.workspaces[0].output.Some? && s.workspaces[1].output == None
    requires Pending(s.screen.tasks) == multiset{} && Sliding(Entered(s, 1, 0), 1, 0) == []
    ensures var u := TakeOver(s, 1, 0);
            && NobodyArrives(u.screen.tasks) && |u.workspaces| == 3
            && (u.workspaces[0].output.Some? ==> Leaving(BonesOf(u), 0))
  {
    hide BonesOf, Pending, FullscreenOk, Assigned, Balanced, Placement, StackOk, Sliding, Entered, SlideIn, SlideOut,
      ToldCores;
    var o := s.workspaces[0].output.value;
    var dy := SlideBy(s, 1, 0);
    var s2 := Entered(s, 1, 0);
    BonesApart(s); BonesApart(s2);
    EnteredBones(s, 1, 0);
    SwitchingKeeps(BonesOf(s), 1, Some(o));
    SlidingInBones(s2, 1, 0, o, dy);
    var s3 := SlideIn(s2, 1, 0, o, dy);
    BonesApart(s3);
    OutputAt(s, 0); OutputAt(s2, 0); OutputAt(s3, 0);
    OutputsAside(BonesOf(s2), BonesOf(s2).outputs, BonesOf(s3).pending);
    ToldIsPlaced(BonesOf(s3));
    SlidingOutBones(s3, 0, dy);
    var u := TakeOver(s, 1, 0);
    BonesApart(u);
    OutputAt(u, 0);
  }

  /** Nobody of workspace 1 can be focused, so the switch changes no more than a takeover. */
  lemma JustATakeover(s: State)
    requires AboutToSwitch(s)
    ensures var h := SwitchTo(s, 1);
            h == TakeOver(s, 1, 0).(seat := h.seat)
  {
    hide Reachable, Inv, TaskOrder, FocusedWorkspace, BonesOf, TakeOver, Pending, Sliding, Entered, Occurrences,
      Settling;
    var u := TakeOver(s, 1, 0);
    SlidesOff(s);
    SwitchIsOnItsWay(s);
    NothingSlidesIn(s);
    TakenOverSeat(s, 1, 0);
    OnceInItsWorkspace(s);
    FocusedNobodyThere(u);
  }

  lemma TakenOverSeat(s: State, n: nat, p: nat)
    requires Inv(s) && n < |s.workspaces| && p < |s.workspaces|
    requires s.workspaces[n].output.None? && s.workspaces[p].output.Some?
    ensures var t := TakeOver(s, n, p);
            t.seat == s.seat && |t.workspaces| == |s.workspaces| && t.workspaces[n].index == s.workspaces[n].index
  {
    hide Inv, Notified, AllViews, Arrange, Sliding, SlideTasks, PutOff;
  }

  lemma FocusedNobodyThere(u: State)
    requires |u.workspaces| == 3 && u.workspaces[1].output == Some(0) && u.seat.focusedLayer == None
    requires u.seat.focusStack == [0] && 0 in Table(u) && Table(u)[0].workspaceId != u.workspaces[1].index
    ensures var h := FocusOn(u, 1);
            h == u.(seat := h.seat)
  {
    assert [0][1..] == [];
    var s1 := u.(seat := u.seat.(cursor := {0}));
    assert FirstOf(s1.seat.focusStack, Table(s1), s1.workspaces[1].index, None) == None;
  }

  /** A round of the timer keeps it on its way, or ends that. */
  lemma OneRoundOut(s: State, duration: int)
    requires OnItsWayOut(s) && duration > 0 && s.screen.tasks != []
    ensures OnItsWayOut(TakeTask(s, duration))
  {
    hide BonesOf, Pending, FrontTaken, FrontWish, Notified, AllViews, NobodyArrives, TasksKnown, CoreOf;
    NoArrival(s, duration);
    FrontRunLosesJust(s, duration);
    var t, callback := FrontTaken(s, duration), FrontWish(s, duration);
    LosingBones(s, t, callback);
    BonesApart(s); BonesApart(t);
    SameLocationAfter(Table(s), Table(t), 0);
    var u := TakeTask(s, duration);
    BonesApart(u);
    if callback.DepartureOf? && callback.workspace < |t.workspaces| {
      var w := t.workspaces[callback.workspace];
      NotifiedStays(Table(t), AllViews(w), w.output, None, 0);
    }
  }

  lemma SameLocationAfter(a: ViewTable, b: ViewTable, v: ViewId)
    requires Cores(a) == Cores(b) && v in a
    ensures v in b && b[v].workspaceId == a[v].workspaceId
  {
    assert Cores(b).Keys == b.Keys;
    CoresAt(a, v); CoresAt(b, v);
  }

  lemma {:induction false} RoundsOut(s: State, duration: int, count: nat)
    requires OnItsWayOut(s) && duration > 0
    ensures OnItsWayOut(TakeTasks(s, duration, count))
    decreases count
  {
    hide OnItsWayOut, TakeTask;
    if count == 0 || s.screen.tasks == [] {
    } else {
      OneRoundOut(s, duration);
      RoundsOut(TakeTask(s, duration), duration, count - 1);
    }
  }

  /** The desktop when the switch is over, and the view is out of sight. */
  function Gone(): State
  {
    TickTo(HalfSwitched(), HalfSwitched().env.now + DURATION * NS_PER_MS, DURATION)
  }

  /** The view ends a screen away from its target, and its workspace on no output. */
  ghost predicate OutOfSight(s: State)
  {
    && Reachable(s) && Inv(s) && s.screen.tasks == [] && OnItsWayOut(s)
    && IsNormal(Table(s), 0) && Warped(Table(s)[0]) != Table(s)[0] && s.env.outputs == map[0 := SCREEN]
  }

  lemma SwitchedOrder(s: State)
    requires AboutToSwitch(s)
    ensures TaskOrder(TakeOver(s, 1, 0).screen, BETWEEN, s.env.now) && TakeOver(s, 1, 0).env == s.env
  {
    hide Reachable, Inv, TaskOrder, FocusedWorkspace, TakeOver, Pending;
    TakenOverOrder(s, 1, 0);
  }

  lemma GoneFrom(s: State, later: Time)
    requires AboutToSwitch(s) && later >= s.env.now + DURATION * NS_PER_MS
    requires Reachable(SwitchTo(s, 1))
    ensures OutOfSight(TickTo(SwitchTo(s, 1), later, DURATION))
  {
    hide Reachable, Inv, TaskOrder, FocusedWorkspace, BonesOf, TakeOver, SwitchTo, Pending, TakeTasks, Settling,
      NobodyArrives, Leaving;
    var h := SwitchTo(s, 1);
    SlidesOff(s);
    SwitchIsOnItsWay(s);
    JustATakeover(s);
    SwitchedOrder(s);
    SameBut(TakeOver(s, 1, 0), h);
    TickIsReachable(h, later, DURATION);
    LateTickKeepsHomebound(h, later, DURATION, 0);
    var h1 := h.(env := h.env.(now := later));
    SameBut(h, h1);
    RoundsOut(h1, DURATION, |h.screen.tasks|);
    RoundsKeepOutputs(h1, DURATION, |h.screen.tasks|);
  }

  lemma SameBut(s: State, t: State)
    requires t == s.(seat := t.seat, env := t.env) && t.env.outputs == s.env.outputs
    ensures OnItsWayOut(s) ==> OnItsWayOut(t)
  {
    hide Pending;
    assert BonesOf(t).ws == BonesOf(s).ws;
  }

  lemma {:induction false} RoundsKeepOutputs(s: State, duration: int, count: nat)
    requires OnItsWayOut(s) && duration > 0
    ensures TakeTasks(s, duration, count).env == s.env
    decreases count
  {
    hide OnItsWayOut, TakeTask;
    if count == 0 || s.screen.tasks == [] {
    } else {
      OneRoundOut(s, duration);
      OnItsWayMeans(s);
      NoArrival(s, duration);
      RoundsKeepOutputs(TakeTask(s, duration), duration, count - 1);
    }
  }

  lemma OnItsWayMeans(s: State)
    requires OnItsWayOut(s)
    ensures NobodyArrives(s.screen.tasks)
  {
  }

  lemma GoneIsOutOfSight()
    ensures OutOfSight(Gone())
  {
    hide Reachable, Inv, AboutToSwitch, Rested, OutOfSight, Sharing, WithSpares, SwitchTo, TickTo;
    RestedIsAboutToSwitch();
    HalfSwitchedShares();
    SharingMeans(HalfSwitched());
    SwitchKeepsTime(WithSpares(Rested()));
    GoneFrom(WithSpares(Rested()), HalfSwitched().env.now + DURATION * NS_PER_MS);
  }

  lemma SharingMeans(s: State)
    requires Sharing(s)
    ensures Reachable(s)
  {
    hide Reachable, Inv, FocusedWorkspace, Leaving;
  }

  lemma SwitchKeepsTime(s: State)
    requires AboutToSwitch(s)
    ensures SwitchTo(s, 1).env == s.env
  {
    hide AboutToSwitch, TakeOver, SwitchTo, TaskOrder;
    JustATakeover(s);
    SwitchedOrder(s);
  }

  /** When another output comes, the workspace of that view gets it, and is not laid out: the view is displayed, but
      stays out of sight, and no animation brings it back. */
  lemma StaysOutOfSight()
    ensures var s := AddOutput(Gone(), 1, SCREEN_BESIDE);
            && Reachable(s) && Displayed(s, 0) && s.screen.tasks == []
            && 0 in Table(s) && Warped(Table(s)[0]) != Table(s)[0]
  {
    hide Reachable, Inv, Gone, OutOfSight, AddOutput, DisplayedIn;
    GoneIsOutOfSight();
    BroughtBack(Gone());
  }

  lemma AddingIsReachable(s: State, o: OutputId)
    requires Reachable(s) && o !in s.env.outputs
    ensures Reachable(AddOutput(s, o, SCREEN_BESIDE)) && Inv(AddOutput(s, o, SCREEN_BESIDE))
  {
    hide Reachable, Inv, AddOutput;
    NextIsReachable(s, OutputAdded(o, SCREEN_BESIDE));
  }

  lemma BroughtBack(s: State)
    requires OutOfSight(s)
    ensures var t := AddOutput(s, 1, SCREEN_BESIDE);
            && Reachable(t) && Displayed(t, 0) && t.screen.tasks == []
            && 0 in Table(t) && Warped(Table(t)[0]) != Table(t)[0]
  {
    hide Reachable, BonesOf, FullscreenOk, Balanced, Placement, Assigned, StackOk, Notified, AllViews, NobodyArrives,
      Occurrences, DisplayedIn, ToldCores;
    AddingIsReachable(s, 1);
    NotLeavingAnyMore(s);
    var s1 := s.(env := s.env.(outputs := s.env.outputs[1 := SCREEN_BESIDE]));
    var t := AddOutput(s, 1, SCREEN_BESIDE);
    var w := s.workspaces[0];
    assert WorkspaceOn(s1.workspaces, None) == 0;
    NotifiedStays(Table(s), AllViews(w), w.output, Some(1), 0);
    FreeAgain(s, s1);
    ActivateBones(s1, 0, 1);
    OutputAt(s1, 0);
    SwitchedOn(s1, 0, 1);
    assert TileIn(s1, 0, 0);
  }

  lemma FreeAgain(s: State, t: State)
    requires Inv(s) && t == s.(env := t.env)
    ensures Placement(BonesOf(t)) && (Pending(s.screen.tasks) == multiset{} ==> PendingOk(BonesOf(t)))
  {
    hide Pending, FullscreenOk, Balanced, Assigned, Occurrences;
    OutputBones(s, t);
    BonesApart(t);
  }

  lemma NotLeavingAnyMore(s: State)
    requires OutOfSight(s)
    ensures s.workspaces[0].output == None && Pending(s.screen.tasks) == multiset{}
  {
    hide Reachable, FullscreenOk, Balanced, Placement, StackOk, NobodyArrives;
    NothingPending();
    BonesApart(s);
  }

  lemma {:induction false} SomeTaskCarries(tasks: seq<Task>, callback: Callback)
    requires Pending(tasks)[callback] > 0
    ensures exists i :: 0 <= i < |tasks| && !tasks[i].cancelled && tasks[i].callback == callback
  {
    var front, last := tasks[..|tasks| - 1], tasks[|tasks| - 1];
    if Wish(last)[callback] == 0 {
      SomeTaskCarries(front, callback);
      var i :| 0 <= i < |front| && !front[i].cancelled && front[i].callback == callback;
      assert tasks[i] == front[i];
    } else {
      assert tasks[|tasks| - 1] == last;
    }
  }

  /** So does the pointer that takes hold of the tile that slides out: its animations are cancelled, and what its
      workspace waits for is lost. */
  lemma HoldingASlidingTile()
    ensures Reachable(HalfSwitched()) && IsMappedView(HalfSwitched(), 0) && !Inv(TakeHold(HalfSwitched(), 0))
  {
    hide Reachable, Inv, HalfSwitched, TakeHold, FocusedWorkspace, Pending;
    HalfSwitchedShares();
    HeldWhileSliding(HalfSwitched());
  }

  lemma HeldWhileSliding(h: State)
    requires Sharing(h)
    ensures IsMappedView(h, 0) && !Inv(TakeHold(h, 0))
  {
    hide Reachable, Inv, TakeHold, FocusedWorkspace, Pending, HaltedBy;
    LocatedByInv(h, 0);
    BonesApart(h);
    SomeTaskCarries(h.screen.tasks, DepartureOf(0));
    OnlyItsTasks(h, 0);
    HeldWithTheOthers(h, 0);
    TakingHoldIsSafeExactlyWhen(h, 0);
  }

  /** The animations of a tiled view are among those that are cancelled when it is held. */
  lemma HeldWithTheOthers(s: State, v: ViewId)
    requires Inv(s) && IsMappedView(s, v) && NothingFloats(s)
    ensures v in HaltedBy(s, v)
  {
    hide FullscreenOk, Assigned, Balanced, StackOk, Occurrences, BonesOf;
    var w := s.workspaces[Home(s, v)];
    PlacedIsDistinct(s, Home(s, v));
    DueMeans(s, Home(s, v), v);
    AllViewsCount(w, v);
    assert AllViews(w) == TiledViews(w.columns, |w.columns|);
    assert v in multiset(AllViews(w));
  }

  /** So does the end of the view that slides out, after it was unmapped: its workspace waits for its animation. */
  lemma DestroyingASlidingView() returns (s: State)
    ensures Reachable(s) && 0 in Table(s) && !Table(s)[0].mapped && !Inv(DestroyView(s, 0))
  {
    hide Reachable, Inv, HalfSwitched, FocusedWorkspace, Pending, DestroyView, UnmapView;
    HalfSwitchedShares();
    s := GoneWhileSliding(HalfSwitched());
  }

  lemma GoneWhileSliding(h: State) returns (s: State)
    requires Sharing(h)
    ensures Reachable(s) && 0 in Table(s) && !Table(s)[0].mapped && !Inv(DestroyView(s, 0))
  {
    hide Reachable, Inv, UnmapView, DestroyView, FocusedWorkspace, Pending;
    LocatedByInv(h, 0);
    UnmappedAlone(h, 0);
    s := UnmapView(h, 0);
    BonesApart(h);
    SomeTaskCarries(s.screen.tasks, DepartureOf(0));
    OnlyItsTasks(s, 0);
    DestroyingViewIsSafeExactlyWhen(s, 0);
  }

  lemma LocatedByInv(s: State, v: ViewId)
    requires Inv(s) && v in Table(s) && Table(s)[v].mapped
    ensures IsMappedView(s, v)
  {
    hide BonesOf;
    MappedIsLocated(s, v);
  }

  lemma OnlyItsTasks(s: State, v: ViewId)
    requires Inv(s) && forall u :: u in Table(s) <==> u == v
    ensures forall i | 0 <= i < |s.screen.tasks| && !s.screen.tasks[i].cancelled :: s.screen.tasks[i].view == v
  {
    hide BonesOk, StackOk;
  }

  // ---------------------------------------------------------------------------------------
  // Layout, animation and scrolling
  // ---------------------------------------------------------------------------------------

  function Sized(width: int): View
  {
    View(Box(0, 0, width, 500), None, Normal, (0, 0), 0, 0, 0, 0, 0, 300, 500, true, false, 0, [], [])
  }

  /** A column that ends on a narrow tile: the second column is found too far to the left. */
  lemma NarrowLastTile()
    ensures var cols: seq<Column> := [[NewTile(0), NewTile(1)], [NewTile(2)]];
            var views := map[0 := Sized(300), 1 := Sized(200), 2 := Sized(300)];
            WxUpTo(cols, views, 10, 1) < XUpTo(cols, views, 10, 1)
  {
    hide WxUpTo, XUpTo;
    var cols: seq<Column> := [[NewTile(0), NewTile(1)], [NewTile(2)]];
    var views := map[0 := Sized(300), 1 := Sized(200), 2 := Sized(300)];
    assert !Agreeable(cols[0], views, 10);
    OffsetsAgree(cols, views, 10, 1);
  }

  /** A view that is put down in the middle of an animation is carried on by it. */
  lemma PutDownTooEarly()
    ensures var view := Sized(300).(targetX := 100);
            var s := QueueState(map[0 := view], [Task(0, 0, 0, 100, 0, 0, false)], {0}, 0, 0, 0);
            var placed := Warped(view.(targetX := 50));
            var last := Ticked(ChangedTo(s, s.views[0 := placed]), 100 * NS_PER_MS, 100);
            QueueOk(s, 100) && last.tasks == [] && (last.views[0].x, last.views[0].y) != (50, 0)
  {
    hide Ticked, EndOfTick;
    var view := Sized(300).(targetX := 100);
    var t := Task(0, 0, 0, 100, 0, 0, false);
    var s := QueueState(map[0 := view], [t], {0}, 0, 0, 0);
    NoTickUnderWay(s, 100);
    assert LastLive([t], 0) == Some(t);
    UnanimatedPlacement(s, 0, 50, 0, 100, 100 * NS_PER_MS);
  }

  const ONE_TILE := WorkspaceState([[NewTile(0)]], [], Some(0), None, 0, 0, false)
  const ONE_SCREEN := Env(map[0 := SCREEN], 10, 0)

  /** In the middle of a tick, which still has to take an animation of the only view that ends beside the view's
      place. */
  function OlderAnimation(): QueueState
  {
    var views := map[0 := Sized(300)];
    var beside := ArrangedViews(ONE_TILE, views, SCREEN, 10, true)[0].targetX + 1;
    QueueState(views, [Task(0, 0, 0, beside, 0, 0, false)], {}, 0, 1, 0)
  }

  /** If the view is laid out now, by what another animation wanted done, it is not in its place when all animations
      are over: the older one has the last word. */
  lemma OverrunByAnOlderAnimation()
    ensures QueueOk(OlderAnimation(), 100)
    ensures var s := Relaid(OlderAnimation(), ONE_TILE, ONE_SCREEN);
            && s.due <= |s.tasks|
            && var last := Ticked(EndOfTick(s, 100), 100 * NS_PER_MS, 100);
               last.tasks == [] && 0 in last.views && Warped(last.views[0]) != last.views[0]
  {
    hide Ticked, EndOfTick, ArrangedView, LayoutTasks, Distinct, Relaid, TakesPart, Survivors;
    var s := OlderAnimation();
    OneTileLaysOut();
    StillGoingOn(s, s.tasks[0]);
    RelaidQueue(s, ONE_TILE, ONE_SCREEN, 100);
    RelaidRestsExactlyWhen(s, ONE_TILE, ONE_SCREEN, 100, 0, 100 * NS_PER_MS);
  }

  lemma OneTileLaysOut()
    ensures CanLayOut(ONE_TILE, ONE_SCREEN) && TakesPart(ONE_TILE, map[0 := Sized(300)], 0)
  {
    hide Distinct;
    forall v
      ensures Occurrences(ONE_TILE, v) == if v == 0 then 1 else 0
      ensures Count(ONE_TILE.columns, v) <= 1
    {
      OneTileOccurs(v);
    }
    OnlyTiled(ONE_TILE, 0);
    CountedOnceIsDistinct(ONE_TILE.columns);
  }

  lemma OneTileOccurs(v: ViewId)
    ensures Occurrences(ONE_TILE, v) == if v == 0 then 1 else 0
  {
    var cols: seq<Column> := ONE_TILE.columns;
    assert cols[..0] == [] && cols[0][..0] == [];
    assert CountIn(cols[0][..0], v) == 0;
    assert CountIn(cols[0], v) == if v == 0 then 1 else 0;
    assert Count(cols[..0], v) == 0;
  }

  lemma StillGoingOn(s: QueueState, older: Task)
    requires s.tasks == [older] && s.due == 1 && s.tick == 0 && older.view == 0 && older.begin == 0 && !older.cancelled
    requires s.tracked == {} && 0 in s.views && s.clock == 0
    ensures s.tasks[..s.due] == [older] && Survivors([older], 0, 100) == [older] && LastLive([older], 0) == Some(older)
    ensures QueueOk(s, 100)
  {
    FinishedMeansElapsed(0, 100);
    OneSurvivor(older, 0, 100);
    assert s.tasks[1..] == [];
    assert [] + [older] == [older];
  }

  /** Fingers that are lifted before they moved: the scroll never ends. */
  lemma LiftedBeforeMoving()
    ensures var g := Lifted(WorkspaceScroll(0, None, Scroll(0.0, 0.0, 0.0, false, false))).scroll;
            g.wantsToStop && !exists n: nat :: StopsAfter(g, n)
  {
    StopsExactlyWhenMoved(Scroll(0.0, 0.0, 0.0, false, true));
  }

  /** A window in full sight on an output beside another one, of which the search for the dominant view sees nothing. */
  lemma NothingSeenOnTheSecondScreen()
    ensures var view := Sized(300).(x := 2000, y := 100);
            var area := RealUsableArea(SCREEN_BESIDE);
            && (forall px, py | Box(view.x, view.y, 300, 500).Contains(px, py) :: area.Contains(px, py))
            && Visibility([NewTile(0)], map[0 := view], area) == 0.0
  {
    NothingIsSeenFarRight([NewTile(0)], map[0 := Sized(300).(x := 2000, y := 100)], RealUsableArea(SCREEN_BESIDE));
  }

  /** An empty workspace and no focused view: there is no column for the dominant view to be in. */
  lemma NoDominantView()
    ensures var s := OneOutput();
            && Reachable(s) && FocusedWorkspace(s) == Some(0)
            && NothingToFocus(s.workspaces[0].columns, Table(s), RealUsableArea(SCREEN), FocusedView(s))
  {
    hide Reachable, Inv;
    OneOutputIsReachable();
  }
}
