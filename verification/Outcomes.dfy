/** Where the operations of the desktop put views, and what sizes they ask for. */
module Outcomes {
  import opened Prelude
  import opened Views
  import opened Columns
  import opened Rearranging
  import opened Layout
  import opened Placing
  import opened Scrolling
  import opened Animation
  import opened AnimationQueue
  import opened Tiling
  import opened Desktop
  import opened Invariants
  import opened Preservation
  import opened Steps
  import opened Focus
  import opened Effects
  import opened RoundTrip
  import opened Switching
  import opened Runs
  import opened Commands
  import opened Keyboard

  // ---------------------------------------------------------------------------------------
  // Layouts
  // ---------------------------------------------------------------------------------------

  function InfoOf(s: State, i: nat): OutputInfo
    requires Visible(s, i)
  {
    s.env.outputs[s.workspaces[i].output.value]
  }

  /** A normal view of workspace i that is not floating. */
  predicate IsTile(s: State, i: nat, v: ViewId)
  {
    Located(s, v) && Home(s, v) == i && IsNormal(Table(s), v) && v !in s.workspaces[i].floating
  }

  lemma TileIsTiled(s: State, i: nat, v: ViewId)
    requires Inv(s) && IsTile(s, i, v)
    ensures FindColumn(s.workspaces[i].columns, v) < |s.workspaces[i].columns| && Distinct(s.workspaces[i].columns)
  {
    hide FullscreenOk, Assigned, Balanced, FocusOk, Occurrences, Distinct, FindColumn;
    PlacedIsDistinct(s, i);
    FindColumnIsMembership(s.workspaces[i].columns, v);
    OccursOnOneSide(s.workspaces[i], v);
  }

  lemma OccursOnOneSide(w: WorkspaceState, v: ViewId)
    requires Occurrences(w, v) == 1 && v !in w.floating
    ensures Count(w.columns, v) == 1
  {
  }

  lemma FullscreenIsNoTile(s: State, i: nat)
    requires Inv(s) && i < |s.workspaces| && s.workspaces[i].fullscreen.Some?
    ensures var f := s.workspaces[i].fullscreen.value;
            f in Table(s) && !IsNormal(Table(s), f)
  {
    hide Placement, Assigned, Balanced, FocusOk;
    InvIsFullscreenConsistent(s);
  }

  /** Whatever a layout of a workspace changes, every tile keeps its width and is asked for no other, and the fullscreen
      view lies right on the output, and is asked to fill it. */
  lemma LayoutsAskForSizes(s: State, i: nat, animate: bool)
    requires Inv(s) && Visible(s, i)
    ensures var t := s.(screen := Arrange(s.workspaces[i], s.screen, s.env, animate));
            var box := InfoOf(s, i).box;
            && (forall v | IsTile(s, i, v) ::
                  v in Table(t) && Table(t)[v].targetWidth == Table(t)[v].geometry.width == Table(s)[v].geometry.width)
            && (forall f | s.workspaces[i].fullscreen == Some(f) ::
                  f in Table(t) && Covers(Table(t)[f], box) && Table(t)[f].geometry == Table(s)[f].geometry)
  {
    hide Inv, ArrangedViews, LayoutTasks, Covers, IsTile, FindColumn;
    var w := s.workspaces[i];
    var info := InfoOf(s, i);
    var animated := animate && !w.suspendAnimations;
    forall v | IsTile(s, i, v)
      ensures v in Table(s)
      ensures var r := ArrangedViews(w, Table(s), info, s.env.gap, animated)[v];
              r.targetWidth == r.geometry.width == Table(s)[v].geometry.width
    {
      TileKeepsWidth(s, i, v, animated);
    }
    if w.fullscreen.Some? {
      FullscreenIsNoTile(s, i);
      FullscreenCovers(w, Table(s), info, s.env.gap, animated, w.fullscreen.value);
    }
  }

  /** The window lies right on the box, and its client is asked to fill it. */
  predicate Covers(v: View, box: Box)
  {
    Box(v.x + v.geometry.x, v.y + v.geometry.y, v.targetWidth, v.targetHeight) == box
  }

  lemma FullscreenCovers(w: WorkspaceState, views: ViewTable, info: OutputInfo, gap: int, animated: bool, f: ViewId)
    requires w.fullscreen == Some(f) && f in views && !IsNormal(views, f)
    ensures var r := ArrangedViews(w, views, info, gap, animated)[f];
            Covers(r, info.box) && r.geometry == views[f].geometry
  {
    hide ArrangedViews;
    OnlyFullscreenIsCovering(w, views, info, gap, animated, f);
  }

  lemma TileKeepsWidth(s: State, i: nat, v: ViewId, animated: bool)
    requires Inv(s) && Visible(s, i) && IsTile(s, i, v)
    ensures v in Table(s)
    ensures var r := ArrangedViews(s.workspaces[i], Table(s), InfoOf(s, i), s.env.gap, animated)[v];
            r.targetWidth == r.geometry.width == Table(s)[v].geometry.width
  {
    hide Inv, ArrangedViews, FindColumn, FindTile, Distinct, WindowBox;
    TileIsTiled(s, i, v);
    var w := s.workspaces[i];
    var c := FindColumn(w.columns, v);
    var t := FindTile(w.columns[c], v);
    TileFound(w.columns[c], v);
    ArrangedAim(w, Table(s), InfoOf(s, i), s.env.gap, animated, c, t);
    WidthOfBox(w, Table(s), InfoOf(s, i), s.env.gap, c, t);
  }

  lemma WidthOfBox(w: WorkspaceState, views: ViewTable, info: OutputInfo, gap: int, c: nat, t: nat)
    requires c < |w.columns| && t < |w.columns[c]| && IsNormal(views, w.columns[c][t].view)
    ensures WindowBox(w, views, info, gap, c, t).width == views[w.columns[c][t].view].geometry.width
  {
  }

  /** A normal view that becomes fullscreen lies right on its output from then on. */
  lemma FullscreenFillsTheOutput(s: State, v: ViewId)
    requires Inv(s) && IsMappedView(s, v) && Table(s)[v].expansion == Normal && Visible(s, Home(s, v))
    ensures var t := RequestFullscreen(s, v, true);
            && v in Table(t) && Table(t)[v].expansion == Fullscreen
            && Covers(Table(t)[v], InfoOf(s, Home(s, v)).box) && Table(t)[v].geometry == Table(s)[v].geometry
  {
    hide BonesOk, FocusOk, ArrangedViews, LayoutTasks, Covers;
    InvIsFullscreenConsistent(s);
    var i := Home(s, v);
    var w := s.workspaces[i];
    var s1 := if w.fullscreen.Some? then ExitFullscreen(s.screen, w.fullscreen.value) else s.screen;
    var s2 := EnterFullscreen(s1, v);
    var w' := w.(fullscreen := Some(v));
    assert s2.views[v] == Fullscreened(s1.views[v]) && s1.views[v] == Table(s)[v];
    FullscreenCovers(w', s2.views, InfoOf(s, i), s.env.gap, !w.suspendAnimations, v);
    ArrangeKeeps(w', s2, s.env, true);
    CoresAt(s2.views, v);
    CoresAt(Arrange(w', s2, s.env, true).views, v);
  }

  // ---------------------------------------------------------------------------------------
  // Views that are shown
  // ---------------------------------------------------------------------------------------

  /** A tile of workspace i that aims where a layout with the present scroll puts it. */
  ghost predicate AimsRight(s: State, i: nat, v: ViewId)
  {
    Visible(s, i) && Located(s, v) && Home(s, v) == i && Aiming(s.workspaces[i], Table(s), InfoOf(s, i), s.env.gap, v)
  }

  /** From s to t the view was fitted on the screen. */
  ghost predicate ShownFrom(s: State, t: State, i: nat, v: ViewId, condense: bool)
    requires AimsRight(s, i, v)
  {
    var w := s.workspaces[i];
    var off := Shortfall(w.columns, Table(s), s.env.gap, v);
    && v in Table(t) && off >= 0 && (off == 0 <==> AgreeableUpTo(w.columns, Table(s), s.env.gap, v))
    && FittedFrom(w, InfoOf(s, i), s.env.gap, v, condense, off, TargetBox(Table(s)[v]), TargetBox(Table(t)[v]))
  }

  lemma ShowingShows(s: State, i: nat, v: ViewId, condense: bool)
    requires AimsRight(s, i, v)
    ensures ShownFrom(s, Show(s, v, condense), i, v, condense)
  {
    hide Shortfall, AgreeableUpTo, FittedFrom, ArrangedViews, FitScroll, LayoutTasks;
    FittingAligns(s.workspaces[i], Table(s), InfoOf(s, i), s.env.gap, v, condense);
  }

  /** Only the seat differs. */
  lemma ShownFromElsewhere(s: State, s': State, t: State, i: nat, v: ViewId, condense: bool)
    requires s' == s.(seat := s'.seat) && AimsRight(s', i, v) && ShownFrom(s', t, i, v, condense)
    ensures AimsRight(s, i, v) && ShownFrom(s, t, i, v, condense)
  {
  }

  /** A view that gets the focus, or has it already, is fitted on the screen. */
  lemma FocusingShows(s: State, i: nat, v: ViewId, condense: bool)
    requires s.seat.focusedLayer.None? && AimsRight(s, i, v) && (FocusedView(s) == Some(v) || !Refused(s, v))
    ensures ShownFrom(s, FocusView(s, Some(v), condense), i, v, condense)
  {
    hide Show, ShownFrom, HiddenByFullscreen, InputAllowed, Aiming, ToFront;
    if FocusedView(s) == Some(v) {
      ShowingShows(s, i, v, condense);
    } else {
      var s1 := if FocusedView(s).Some? then s.(seat := s.seat.(keyboard := None)) else s;
      var s2 := WithSeat(s1, ToFront(s1.seat.focusStack, v), Some(ViewSurface(v)));
      SameAllowed(s, s1, v);
      ShowingShows(s2, i, v, condense);
      ShownFromElsewhere(s, s2, Show(s2, v, condense), i, v, condense);
    }
  }

  lemma SameAllowed(s: State, s1: State, v: ViewId)
    requires s1 == s.(seat := s.seat.(keyboard := s1.seat.keyboard))
    ensures InputAllowed(s1, v) == InputAllowed(s, v)
  {
  }

  /** The view that gets the focus when the focused one is unmapped is fitted on the screen, condensed, so that no
      hole is left. */
  lemma UnmappingShows(s: State, v: ViewId, i: nat, u: ViewId)
    requires Inv(s) && v in Table(s) && FocusedView(s) == Some(v) && s.seat.focusedLayer.None?
    requires |s.seat.focusStack| >= 2 && s.seat.focusStack[1] == u
    requires AimsRight(Withdrawn(s, v), i, u) && !Refused(Withdrawn(s, v), u)
    ensures ShownFrom(Withdrawn(s, v), UnmapView(s, v), i, u, true)
  {
    hide BonesOk, BonesOf, NoDuplicates, Withdrawn, FocusView, Refused, FirstMapped, ShownFrom, AimsRight;
    var t := Withdrawn(s, v);
    WithdrawingKeeps(s, v);
    SameSeatWithdrawn(s, v);
    NextIsSecond(t, v);
    FocusingShows(t, i, u, true);
    ShownWhateverTheSeat(t, HideView(t, v), UnmapView(s, v), i, u, true);
  }

  lemma ShownWhateverTheSeat(s: State, t: State, t': State, i: nat, v: ViewId, condense: bool)
    requires AimsRight(s, i, v) && ShownFrom(s, t, i, v, condense) && t' == t.(seat := t'.seat)
    ensures ShownFrom(s, t', i, v, condense)
  {
  }

  /** A view that is mapped is fitted on the screen if it gets the focus. */
  lemma MappingShows(s: State, v: ViewId, geometry: Box, i: nat)
    requires Inv(s) && CanMap(s, v) && FocusedWorkspace(s) == Some(i) && s.seat.focusedLayer.None?
    requires AimsRight(Mapped(s, v, geometry), i, v) && !Refused(Mapped(s, v, geometry), v)
    ensures ShownFrom(Mapped(s, v, geometry), MapView(s, v, geometry), i, v, false)
  {
    hide Inv, Mapped, MapView, FocusView, Refused, ShownFrom, AimsRight, FocusedWorkspace;
    MappedSeat(s, v, geometry);
    FocusingShows(Mapped(s, v, geometry), i, v, false);
  }

  /** So is the view that the focus goes to when a workspace was switched to. */
  lemma ArrivalShows(s: State, n: nat, o: OutputId, k: nat)
    requires n < |s.workspaces| && s.workspaces[n].index == n && s.seat.focusedLayer.None?
    requires k < |s.seat.focusStack| && LastFocused(s, n, None, k) && AimsRight(s, n, s.seat.focusStack[k])
    requires FocusedView(s) == Some(s.seat.focusStack[k]) || !Refused(s, s.seat.focusStack[k])
    ensures ShownFrom(s, FocusThere(s, n, o), n, s.seat.focusStack[k], false)
  {
    hide FocusView, Refused, Aiming, FirstOf, BonesOf, LivesIn;
    var u := s.seat.focusStack[k];
    var s1 := s.(seat := s.seat.(cursor := {o}));
    SeatIsNoBone(s, s1);
    PendingAside(BonesOf(s), BonesOf(s1));
    SameRefusal(s, s1, u, n);
    LastFocusedIsFirst(s, n, None, k);
    FocusingShows(s1, n, u, false);
    ShownFromElsewhere(s, s1, FocusThere(s, n, o), n, u, false);
  }

  /** So is the view that keeps the focus in the workspace that the focused one leaves. */
  lemma StayingBehindShows(s: State, v: ViewId, j: nat, k: nat)
    requires Inv(s) && IsMappedView(s, v) && j < |s.workspaces| && Home(s, v) != j && s.seat.focusedLayer.None?
    requires Transplanted(s, v, j).seat == s.seat && k < |s.seat.focusStack|
    requires LastFocused(Transplanted(s, v, j), Home(s, v), Some(v), k)
    requires AimsRight(Transplanted(s, v, j), Home(s, v), s.seat.focusStack[k])
    requires FocusedView(s) == Some(s.seat.focusStack[k]) || !Refused(Transplanted(s, v, j), s.seat.focusStack[k])
    ensures ShownFrom(Transplanted(s, v, j), ChangeWorkspace(s, v, j), Home(s, v), s.seat.focusStack[k], false)
  {
    hide BonesOk, BonesOf, FocusOk, Transplanted, FocusView, Refused, ShownFrom, AimsRight, LastFocused, FirstOf;
    var t := Transplanted(s, v, j);
    TransplantKeepsInv(s, v, j);
    IndexMeansPlace(t, Home(s, v));
    LastFocusedIsFirst(t, Home(s, v), Some(v), k);
    FocusingShows(t, Home(s, v), s.seat.focusStack[k], false);
  }

  /** And so is the next view in a cycle. */
  lemma CyclingShows(s: State, i: nat, k: nat)
    requires Cycling(s, i) && s.seat.focusedLayer.None?
    requires 0 < k < |s.seat.focusStack| && LivesIn(Table(s), s.seat.focusStack[k], i)
    requires forall j | 0 < j < k :: !LivesIn(Table(s), s.seat.focusStack[j], i)
    requires AimsRight(s, i, s.seat.focusStack[k]) && !Refused(s, s.seat.focusStack[k])
    ensures ShownFrom(s, FocusCycle(s), i, s.seat.focusStack[k], false)
  {
    hide FocusView, Refused, FocusedWorkspace, AimsRight, ShownFrom, LivesIn, NoDuplicates;
    var u := s.seat.focusStack[k];
    NextIsAt(s.seat.focusStack, Table(s), i, k);
    FocusingShows(s, i, u, false);
    ShownWhateverTheSeat(s, FocusView(s, Some(u), false), FocusCycle(s), i, u, false);
  }

  /** And the view of a column that is focused. */
  lemma FocusingColumnShows(s: State, i: nat, c: nat, k: nat)
    requires i < |s.workspaces| && c < |s.workspaces[i].columns| && s.seat.focusedLayer.None?
    requires k < |s.seat.focusStack| && LastFocusedOf(s, s.workspaces[i].columns[c], k)
    requires AimsRight(s, i, s.seat.focusStack[k])
    requires FocusedView(s) == Some(s.seat.focusStack[k]) || !Refused(s, s.seat.focusStack[k])
    ensures ShownFrom(s, FocusColumn(s, i, c), i, s.seat.focusStack[k], false)
  {
    hide FocusView, Refused, AimsRight, ShownFrom, IsNormalTile;
    var stack, col := s.seat.focusStack, s.workspaces[i].columns[c];
    FirstTiledIsFirst(stack, col, Table(s));
    assert IsNormalTile(col, Table(s), stack[k]);
    var first := FirstTiled(stack, col, Table(s));
    assert IsNormalTile(col, Table(s), stack[IndexOf(stack, first.value)]);
    FocusingShows(s, i, stack[k], false);
  }

  // ---------------------------------------------------------------------------------------
  // Other usable areas
  // ---------------------------------------------------------------------------------------

  /** The desktop when an output has changed, but nothing has been laid out yet. */
  function Unsettled(s: State, o: OutputId, info: OutputInfo): State
  {
    s.(env := s.env.(outputs := s.env.outputs[o := info]))
  }

  /** The focused view lives in workspace i, but takes no part in its layout. */
  predicate FocusedOutOfLayout(s: State, i: nat)
    requires i < |s.workspaces|
  {
    var focused := FocusedView(s);
    && focused.Some? && focused.value in Table(s) && Table(s)[focused.value].workspaceId == i
    && (!IsNormal(Table(s), focused.value)
        || FindColumn(s.workspaces[i].columns, focused.value) == |s.workspaces[i].columns|)
  }

  /** From s to t workspace i was laid out, perhaps after it was scrolled. */
  ghost predicate LaidOutOnce(s: State, t: State, i: nat)
    requires i < |s.workspaces|
  {
    exists scroll ::
      var w := s.workspaces[i].(scrollX := scroll);
      t == InWorkspace(s, i, (w, Arrange(w, s.screen, s.env, true)))
  }

  /** When the usable area of an output changes, the workspace on it is laid out again, unless the focused view lives
      there, but is floating, fullscreen or recovering: then nothing is laid out, since the code just fits that view. */
  lemma NewAreaIsUsedExactlyWhen(s: State, o: OutputId, info: OutputInfo, i: nat)
    requires Inv(s) && o in s.env.outputs && info.usable != s.env.outputs[o].usable
    requires i < |s.workspaces| && s.workspaces[i].output == Some(o)
    requires forall j | 0 <= j < i :: s.workspaces[j].output != Some(o)
    ensures var t := ChangeUsableArea(s, o, info);
            if FocusedOutOfLayout(s, i) then t == Unsettled(s, o, info)
            else LaidOutOnce(Unsettled(s, o, info), t, i)
  {
    hide BonesOk, FocusOk, Arrange, WorkspaceOn, FindColumn, FitScroll;
    IndexMeansPlace(s, i);
    var s1 := Unsettled(s, o, info);
    assert WorkspaceOn(s1.workspaces, Some(o)) == i;
    var t := ChangeUsableArea(s, o, info);
    var w := s1.workspaces[i];
    assert w.(scrollX := w.scrollX) == w;
    assert s1.workspaces[i := w] == s1.workspaces;
    if !FocusedOutOfLayout(s, i) {
      var w' := t.workspaces[i];
      assert w' == w.(scrollX := w'.scrollX);
      assert t == InWorkspace(s1, i, (w', Arrange(w', s1.screen, s1.env, true)));
    }
  }

  /** A box with a gap above and below it lies between top and bottom of an area. */
  predicate FitsHeight(area: Box, gap: int, box: Box)
  {
    area.y + gap <= box.y && box.y + box.height + gap <= area.y + area.height
  }

  /** A tile of a workspace that was laid out is asked to stay between top and bottom of the usable area, if there is
      room for the gaps of its column. */
  lemma LaidOutTilesFit(s: State, t: State, i: nat, u: ViewId, c: nat)
    requires Inv(s) && Visible(s, i) && s.env.gap >= 0 && IsTile(s, i, u) && LaidOutOnce(s, t, i)
    requires c == FindColumn(s.workspaces[i].columns, u) < |s.workspaces[i].columns|
    requires RoomForGaps(s.workspaces[i].columns[c], InfoOf(s, i), s.env.gap)
    ensures u in Table(t) && FitsHeight(RealUsableArea(InfoOf(s, i)), s.env.gap, AskedBox(Table(t)[u]))
  {
    hide Inv, FindColumn, FindTile, Distinct, WindowBox, RoomForGaps, LayoutTasks, ArrangedViews;
    TileIsTiled(s, i, u);
    var scroll :| var w := s.workspaces[i].(scrollX := scroll);
                  t == InWorkspace(s, i, (w, Arrange(w, s.screen, s.env, true)));
    var w := s.workspaces[i].(scrollX := scroll);
    var k := FindTile(w.columns[c], u);
    TileFound(w.columns[c], u);
    ArrangedAim(w, Table(s), InfoOf(s, i), s.env.gap, !w.suspendAnimations, c, k);
    ColumnFits(w, Table(s), InfoOf(s, i), s.env.gap, c, k);
  }

  /** If it is a tile that is focused there, it is fitted into the new area. */
  lemma UsableAreaShows(s: State, o: OutputId, info: OutputInfo, i: nat, v: ViewId)
    requires Inv(s) && o in s.env.outputs && info.usable != s.env.outputs[o].usable
    requires FocusedView(s) == Some(v) && i == WorkspaceOn(s.workspaces, Some(o)) < |s.workspaces|
    requires AimsRight(Unsettled(s, o, info), i, v)
    ensures ShownFrom(Unsettled(s, o, info), ChangeUsableArea(s, o, info), i, v, false)
  {
    hide BonesOk, FocusOk, ShownFrom, FitView, Arrange, Aiming, WorkspaceOn;
    IndexMeansPlace(s, i);
    ShowingShows(Unsettled(s, o, info), i, v, false);
  }

  lemma IndexMeansPlace(s: State, i: nat)
    requires Inv(s) && i < |s.workspaces|
    ensures s.workspaces[i].index == i
  {
    hide FullscreenOk, Assigned, Balanced, FocusOk, Occurrences;
    IndexIsPlace(s, i);
  }

  /** After a layout every tile aims where the layout put it. */
  lemma LaidOutAims(s: State, i: nat, v: ViewId)
    requires Visible(s, i) && Located(s, v) && Home(s, v) == i && IsNormal(Table(s), v) && s.env.gap >= 0
    requires Distinct(s.workspaces[i].columns) && FindColumn(s.workspaces[i].columns, v) < |s.workspaces[i].columns|
    ensures AimsRight(ArrangeIn(s, i), i, v)
  {
    hide Distinct, FindColumn, FindTile, IsNormal, TileHeight, YUpTo, XUpTo, LayoutTasks, ArrangedViews, CoreOf,
      Unharmed;
    var w := s.workspaces[i];
    var c := FindColumn(w.columns, v);
    var t := FindTile(w.columns[c], v);
    TileFound(w.columns[c], v);
    var animated := !w.suspendAnimations;
    ArrangedAim(w, Table(s), InfoOf(s, i), s.env.gap, animated, c, t);
    ArrangeKeeps(w, s.screen, s.env, true);
    ArrangingKeepsSizes(w, Table(s), InfoOf(s, i), s.env.gap, animated);
    SameSizesAnywhere(Table(s), ArrangedViews(w, Table(s), InfoOf(s, i), s.env.gap, animated), w.columns);
    SameX(w.columns, Table(s), ArrangedViews(w, Table(s), InfoOf(s, i), s.env.gap, animated), s.env.gap, c);
    SameLocation(s, ArrangeIn(s, i), v);
  }

  /** After the commands that switch to a workspace or move a view there, its tiles aim where a layout puts them, even
      if there was nothing to be switched or moved. */
  lemma CommandsLayOut(s: State, n: nat, u: ViewId)
    requires Inv(s) && n < |s.workspaces| && s.env.gap >= 0
    ensures var m := SwitchTo(s, n);
            CanSwitch(s, n) && Visible(m, n) && m.env.gap >= 0 && IsTile(m, n, u) ==>
              AimsRight(SwitchCommand(s, n), n, u)
    ensures FocusedView(s).Some? ==>
              var m := ChangeWorkspace(s, FocusedView(s).value, n);
              Visible(m, n) && m.env.gap >= 0 && IsTile(m, n, u) ==> AimsRight(MoveToCommand(s, n), n, u)
  {
    hide Inv, SwitchTo, ChangeWorkspace, CanSwitch, AimsRight, IsTile, ArrangeIn;
    if CanSwitch(s, n) && Visible(SwitchTo(s, n), n) && IsTile(SwitchTo(s, n), n, u) && SwitchTo(s, n).env.gap >= 0 {
      SwitchingToKeeps(s, n);
      TileAims(SwitchTo(s, n), n, u);
    }
    if FocusedView(s).Some? {
      var v := FocusedView(s).value;
      var m := ChangeWorkspace(s, v, n);
      FocusedIsMapped(s);
      ChangingWorkspaceKeeps(s, v, n);
      if Visible(m, n) && IsTile(m, n, u) && m.env.gap >= 0 {
        TileAims(m, n, u);
      }
    }
  }

  lemma FocusedIsMapped(s: State)
    requires Inv(s) && FocusedView(s).Some?
    ensures FocusedView(s).value in Table(s) && Table(s)[FocusedView(s).value].mapped
  {
    hide BonesOk;
  }

  lemma TileAims(s: State, i: nat, u: ViewId)
    requires Inv(s) && Visible(s, i) && s.env.gap >= 0 && IsTile(s, i, u)
    ensures AimsRight(ArrangeIn(s, i), i, u)
  {
    hide Inv, FindColumn, Distinct, Aiming, Arrange;
    TileIsTiled(s, i, u);
    LaidOutAims(s, i, u);
  }

  /** A view of a workspace is at home there. */
  lemma OccurringIsAtHome(s: State, i: nat, u: ViewId)
    requires Inv(s) && i < |s.workspaces| && FindColumn(s.workspaces[i].columns, u) < |s.workspaces[i].columns|
    ensures Located(s, u) && Home(s, u) == i && Distinct(s.workspaces[i].columns)
  {
    hide FullscreenOk, Assigned, Balanced, FocusOk, Occurrences, Distinct, FindColumn;
    PlacedIsDistinct(s, i);
    FindColumnIsMembership(s.workspaces[i].columns, u);
    CountWithin(s.workspaces[i], u);
    DueMeans(s, i, u);
  }

  /** A layout, and a tile shown after it. */
  lemma ShownAfterLayout(s: State, i: nat, u: ViewId, condense: bool)
    requires Visible(s, i) && s.env.gap >= 0 && IsNormal(Table(s), u) && Located(s, u) && Home(s, u) == i
    requires Distinct(s.workspaces[i].columns) && FindColumn(s.workspaces[i].columns, u) < |s.workspaces[i].columns|
    ensures var t := ArrangeIn(s, i);
            && AimsRight(t, i, u)
            && ShownFrom(t, InWorkspace(t, i, FitView(t.workspaces[i], t.screen, t.env, u, condense)), i, u, condense)
  {
    hide FindColumn, IsNormal, ArrangeIn, FitView, Aiming, ShownFrom, Distinct;
    LaidOutAims(s, i, u);
    ShowingShows(ArrangeIn(s, i), i, u, condense);
  }

  /** After a move the tile on top of the column that the view is in is fitted on the screen. */
  lemma MovingShows(s: State, v: ViewId, i: nat, dx: int, dy: int, under: Option<OutputId>)
    requires Inv(s) && TiledFocus(s, v, i) && Visible(s, i) && s.env.gap >= 0
    ensures var mid := Stepped(s, v, i, dx, dy);
            && i < |mid.workspaces| && mid.seat == s.seat
            && var cols := mid.workspaces[i].columns;
               var c := FindColumn(cols, v);
               && cols == Moved(s.workspaces[i].columns, v, dx, dy).0 && c < |cols| && cols[c] != []
               && (IsNormal(Table(s), cols[c][0].view) ==>
                     && AimsRight(mid, i, cols[c][0].view)
                     && ShownFrom(mid, MoveFocused(s, dx, dy, under), i, cols[c][0].view, false))
  {
    hide Inv, FindColumn, IsNormal, FitView, ShownFrom, AimsRight, Moved, Arrange, Distinct, CoreOf, Unharmed,
      SameSizes;
    var w := s.workspaces[i];
    var mid := Stepped(s, v, i, dx, dy);
    DistinctByInv(s, i);
    MoveBack(w.columns, v, dx, dy);
    MoveIsAPermutation(w.columns, v, dx, dy);
    SteppingKeeps(s, v, i, dx, dy);
    var (cols, c) := Moved(w.columns, v, dx, dy);
    var s1 := s.(workspaces := s.workspaces[i := w.(columns := cols)]);
    ArrangeKeeps(s1.workspaces[i], s1.screen, s1.env, true);
    var u := cols[c][0].view;
    DistinctByInv(mid, i);
    FindAt(cols, c, 0);
    if IsNormal(Table(s), u) {
      OccurringIsAtHome(mid, i, u);
      SameLocation(mid, s1, u);
      ShownAfterLayout(s1, i, u, false);
    }
  }

  /** What was laid out last aims right. */
  lemma LaidOutLastAims(s: State, t: State, i: nat, r: (WorkspaceState, Screen), u: ViewId)
    requires i < |s.workspaces| && t == InWorkspace(s, i, (r.0, Arrange(r.0, r.1, s.env, true)))
    requires Inv(t) && Visible(t, i) && t.env.gap >= 0 && IsTile(t, i, u)
    ensures AimsRight(t, i, u)
  {
    hide Inv, FindColumn, Aiming, Arrange, Distinct, CoreOf, Unharmed, SameSizes;
    TileIsTiled(t, i, u);
    var x := InWorkspace(s, i, r);
    assert t == ArrangeIn(x, i);
    ArrangeKeeps(r.0, r.1, s.env, true);
    CoresAt(Table(x), u);
    CoresAt(Table(t), u);
    SameLocation(t, x, u);
    NormalByCore(Table(t), Table(x), u);
    LaidOutAims(x, i, u);
  }

  lemma NormalByCore(a: ViewTable, b: ViewTable, v: ViewId)
    requires v in a && v in b && CoreOf(a[v]) == CoreOf(b[v])
    ensures IsNormal(a, v) == IsNormal(b, v)
  {
  }

  /** Popping a tile off the column of the focused view leaves that view fitted on the screen. */
  lemma PoppingShows(s: State, v: ViewId, i: nat)
    requires Inv(s) && TiledFocus(s, v, i) && Visible(s, i) && s.env.gap >= 0 && IsNormal(Table(s), v)
    requires |s.workspaces[i].columns[FindColumn(s.workspaces[i].columns, v)]| >= 2
    ensures var mid := InWorkspace(s, i, PopColumn(s.workspaces[i], s.screen, s.env,
                                                   FindColumn(s.workspaces[i].columns, v)));
            AimsRight(mid, i, v) && ShownFrom(mid, PopFocused(s), i, v, false)
  {
    hide Inv, FindColumn, ShownFrom, AimsRight, Distinct, RemoveFromWorkspace, AddView, Arrange, Show, CoreOf;
    var w := s.workspaces[i];
    var c := FindColumn(w.columns, v);
    var mid := InWorkspace(s, i, PopColumn(w, s.screen, s.env, c));
    PoppingKeepsInv(s, i, c);
    BottomIsKnown(s, i, c);
    PopBones(w, s.screen, s.env, c);
    SameLocation(s, mid, v);
    CoresAt(Table(s), v); CoresAt(Table(mid), v);
    NormalByCore(Table(s), Table(mid), v);
    var popped := w.columns[c][|w.columns[c]| - 1].view;
    var (w1, s1) := RemoveFromWorkspace(w, s.screen, s.env, popped, true);
    RemoveBones(w, s.screen, s.env, popped, true);
    var r := AddView(w1, s1, s.env, popped, Some(w.columns[c][0].view), false, true);
    SameOutputPopped(w, s.screen, s.env, c);
    NotFloatingPopped(s, mid, i, v);
    LaidOutLastAims(s, mid, i, r, v);
    ShowingShows(mid, i, v, false);
  }

  lemma SameOutputPopped(w: WorkspaceState, s: Screen, env: Env, c: nat)
    requires c < |w.columns|
    ensures PopColumn(w, s, env, c).0.output == w.output
    ensures forall v :: v in PopColumn(w, s, env, c).0.floating ==> v in w.floating
  {
    hide Arrange, RemoveView, AddColumn;
    if |w.columns[c]| >= 2 {
      WithoutElements(w.floating, w.columns[c][|w.columns[c]| - 1].view);
    }
  }

  lemma NotFloatingPopped(s: State, mid: State, i: nat, v: ViewId)
    requires Inv(s) && TiledFocus(s, v, i)
    ensures v !in s.workspaces[i].floating
  {
    hide FullscreenOk, Assigned, Balanced, FocusOk, Occurrences, FindColumn;
    PlacedIsDistinct(s, i);
    FindColumnIsMembership(s.workspaces[i].columns, v);
    CountWithin(s.workspaces[i], v);
    DueMeans(s, i, v);
  }

  /** A view that is not normal, or has its column to itself, has nothing popped off. */
  lemma NothingToPop(s: State, v: ViewId, i: nat)
    requires Inv(s) && TiledFocus(s, v, i)
    requires Table(s)[v].expansion != Normal
             || |s.workspaces[i].columns[FindColumn(s.workspaces[i].columns, v)]| < 2
    ensures var t := PopFocused(s);
            && i < |t.workspaces| && t.workspaces[i].columns == s.workspaces[i].columns
            && (Table(s)[v].expansion != Normal ==> t == s)
  {
    hide Inv, FindColumn, FitView;
    ShownShape(s, v, i, false);
  }

  /** A layout after another of its output's workspace, as the change of a mode, a scale or a transform causes it. */
  lemma ResizingLaysOut(s: State, o: OutputId, info: OutputInfo, i: nat)
    requires Inv(s) && o in s.env.outputs && i < |s.workspaces| && s.workspaces[i].output == Some(o)
    requires forall j | 0 <= j < i :: s.workspaces[j].output != Some(o)
    ensures var mid := ChangeUsableArea(s, o, info);
            var t := ResizeOutput(s, o, info);
            && Inv(mid) && Visible(mid, i) && InfoOf(mid, i) == info
            && t == mid.(screen := Arrange(mid.workspaces[i], mid.screen, mid.env, true))
  {
    hide Inv, Arrange, FitView;
    ChangingUsableAreaKeeps(s, o, info);
    var s1 := s.(env := s.env.(outputs := s.env.outputs[o := info]));
    assert WorkspaceOn(s1.workspaces, Some(o)) == i;
    var mid := ChangeUsableArea(s, o, info);
    SameOutputsAfter(s, o, info, i);
    assert WorkspaceOn(mid.workspaces, Some(o)) == i;
  }

  lemma SameOutputsAfter(s: State, o: OutputId, info: OutputInfo, i: nat)
    requires o in s.env.outputs && i < |s.workspaces| && WorkspaceOn(s.workspaces, Some(o)) == i
    ensures var t := ChangeUsableArea(s, o, info);
            && |t.workspaces| == |s.workspaces| && t.env == s.env.(outputs := s.env.outputs[o := info])
            && forall j | 0 <= j < |s.workspaces| :: t.workspaces[j].output == s.workspaces[j].output
  {
    hide Arrange, FitScroll, WorkspaceOn, FindColumn;
  }

  // ---------------------------------------------------------------------------------------
  // New views, and views that start or stop floating
  // ---------------------------------------------------------------------------------------

  /** From cols to m a column with a single new tile has been put in at place k. */
  ghost predicate ColumnPutIn(cols: seq<Column>, m: seq<Column>, k: nat, v: ViewId)
  {
    k <= |cols| && m == cols[..k] + [[NewTile(v)]] + cols[k..]
  }

  /** What of the views only their clients and the commands change, not the layout. */
  ghost predicate SameLasting(a: ViewTable, b: ViewTable)
  {
    && a.Keys == b.Keys
    && forall v | v in a :: a[v].geometry == b[v].geometry && a[v].previousSize == b[v].previousSize
                            && a[v].saved == b[v].saved
  }

  lemma SameLastingTwice(a: ViewTable, b: ViewTable, c: ViewTable)
    requires SameLasting(a, b) && SameLasting(b, c)
    ensures SameLasting(a, c)
  {
  }

  lemma ArrangedKeepsLasting(w: WorkspaceState, views: ViewTable, info: OutputInfo, gap: int, animated: bool, v: ViewId)
    requires v in views
    ensures var r := ArrangedView(w, views, info, gap, animated, v);
            (r.geometry, r.previousSize, r.saved) == (views[v].geometry, views[v].previousSize, views[v].saved)
  {
    hide WindowBox, FindColumn, FindTile;
  }

  lemma ArrangingKeepsLasting(w: WorkspaceState, s: Screen, env: Env, animate: bool)
    ensures SameLasting(s.views, Arrange(w, s, env, animate).views)
  {
    hide ArrangedView, LayoutTasks;
    if w.output.Some? && w.output.value in env.outputs {
      var info := env.outputs[w.output.value];
      forall v | v in s.views
        ensures var r := ArrangedView(w, s.views, info, env.gap, animate && !w.suspendAnimations, v);
                (r.geometry, r.previousSize, r.saved) ==
                (s.views[v].geometry, s.views[v].previousSize, s.views[v].saved)
      {
        ArrangedKeepsLasting(w, s.views, info, env.gap, animate && !w.suspendAnimations, v);
      }
    }
  }

  lemma ShowingKeepsLasting(s: State, v: ViewId, condense: bool)
    ensures SameLasting(Table(s), Table(Show(s, v, condense)))
  {
    hide Arrange, FitScroll, FindColumn;
    if Located(s, v) {
      var w := FitView(s.workspaces[Home(s, v)], s.screen, s.env, v, condense).0;
      ArrangingKeepsLasting(w, s.screen, s.env, true);
    }
  }

  lemma {:induction false} FocusingKeepsLasting(s: State, view: Option<ViewId>, condense: bool)
    ensures SameLasting(Table(s), Table(FocusView(s, view, condense)))
    decreases if s.seat.focusedLayer.Some? then 2 else 0
  {
    hide Show, HiddenByFullscreen, InputAllowed, ToFront, SameLasting, FocusPlain;
    if s.seat.focusedLayer.Some? {
      var s1 := FocusLayer(s, None);
      var s2 := FocusView(s1, view, condense);
      FocusingLayerKeepsLasting(s, None);
      FocusingKeepsLasting(s1, view, condense);
      FocusingLayerKeepsLasting(s2, s.seat.focusedLayer);
      SameLastingTwice(Table(s), Table(s1), Table(s2));
      SameLastingTwice(Table(s), Table(s2), Table(FocusView(s, view, condense)));
    } else {
      PlainKeepsLasting(s, view, condense);
    }
  }

  lemma PlainKeepsLasting(s: State, view: Option<ViewId>, condense: bool)
    ensures SameLasting(Table(s), Table(FocusPlain(s, view, condense)))
  {
    hide Show, HiddenByFullscreen, InputAllowed, ToFront;
    if view.Some? {
      ShowingKeepsLasting(s, view.value, condense);
      var s1 := if FocusedView(s).Some? then s.(seat := s.seat.(keyboard := None)) else s;
      ShowingKeepsLasting(WithSeat(s1, ToFront(s1.seat.focusStack, view.value), Some(ViewSurface(view.value))),
                          view.value, condense);
    }
  }

  lemma {:induction false} FocusingLayerKeepsLasting(s: State, layer: Option<LayerId>)
    ensures SameLasting(Table(s), Table(FocusLayer(s, layer)))
    decreases if s.seat.focusedLayer.Some? && layer.None? then 1 else 0
  {
    hide FocusPlain;
    if layer.None? && s.seat.focusedLayer.Some? {
      var s1 := s.(seat := s.seat.(focusedLayer := None));
      var focused := FocusedView(s1);
      if focused.Some? {
        FocusingKeepsLasting(s1, None, false);
        FocusingKeepsLasting(FocusView(s1, None, false), focused, false);
      }
    }
  }

  /** A view that is mapped gets a column of its own in the workspace under the cursor, right of the column with the
      focused view, or at the far end if that is not tiled there. */
  lemma MappingPutsBeside(s: State, v: ViewId, geometry: Box)
    requires Inv(s) && CanMap(s, v)
    ensures var t := MapView(s, v, geometry);
            var i := FocusedWorkspace(s).value;
            var cols := s.workspaces[i].columns;
            && |t.workspaces| == |s.workspaces| && v in Table(t) && Table(t)[v].workspaceId == i && Table(t)[v].mapped
            && (match FocusedView(s)
                case Some(f) =>
                  var c := FindColumn(cols, f);
                  ColumnPutIn(cols, t.workspaces[i].columns, if c < |cols| then c + 1 else c, v)
                case None => ColumnPutIn(cols, t.workspaces[i].columns, |cols|, v))
            && forall j | 0 <= j < |s.workspaces| :: SameLists(s.workspaces[j], t.workspaces[j], j == i)
  {
    hide BonesOk, BonesOf, FocusOk, Mapped, MapView, FocusView, FocusedWorkspace, FindColumn, Told, SameBones;
    var i := FocusedWorkspace(s).value;
    var m := Mapped(s, v, geometry);
    var t := MapView(s, v, geometry);
    MappedKeeps(s, v, geometry);
    MappingBones(s, v, geometry);
    CoreApart(s, v);
    CoresTell(t, v);
    BonesApart(s); BonesApart(t);
    forall j | 0 <= j < |s.workspaces|
      ensures SameLists(s.workspaces[j], t.workspaces[j], j == i)
      ensures j == i ==> t.workspaces[j].columns == AddColumn(s.workspaces[i].columns, v, FocusedView(s))
    {
      SkeletonAt(s, j); SkeletonAt(t, j);
    }
  }

  /** Up to one of the lists of columns nothing differs. */
  predicate SameLists(a: WorkspaceState, b: WorkspaceState, butColumns: bool)
  {
    a.floating == b.floating && a.fullscreen == b.fullscreen && (butColumns || a.columns == b.columns)
  }

  lemma MappingBones(s: State, v: ViewId, geometry: Box)
    requires Inv(s) && CanMap(s, v)
    ensures var i := FocusedWorkspace(s).value;
            var b := BonesOf(s);
            BonesOf(MapView(s, v, geometry)) ==
              b.(ws := b.ws[i := b.ws[i].(columns := AddColumn(b.ws[i].columns, v, FocusedView(s)))],
                 cores := b.cores[v := MappedCore(b.cores[v], i, b.ws[i].output)])
  {
    hide BonesOf, Mapped, MapView, FocusView, FocusedWorkspace, Told, AddColumn, NoDuplicates, Placement, FullscreenOk,
      Assigned, Balanced;
    var m := Mapped(s, v, geometry);
    MappedBones(s, v, geometry);
    MappedKeeps(s, v, geometry);
    FocusingKeepsBones(m, v);
  }

  /** It has the size that its client took, and a new view will have that size again when it floats. */
  lemma MappingTakesTheSize(s: State, v: ViewId, geometry: Box)
    requires v in Table(s)
    ensures v in Table(MapView(s, v, geometry))
    ensures var view := Table(MapView(s, v, geometry))[v];
            && view.geometry == geometry
            && view.previousSize == if Table(s)[v].newView then (geometry.width, geometry.height)
                                    else Table(s)[v].previousSize
  {
    hide FocusView, FocusedWorkspace, Arrange, WithView, SameLasting, View.ChangeOutput;
    var s1 := WithTable(s, Table(s)[v := NewlyMapped(Table(s)[v], geometry)]);
    var i := FocusedWorkspace(s1);
    var s2 := if i.None? then s1
              else InWorkspace(s1, i.value,
                               AddView(s1.workspaces[i.value], s1.screen, s1.env, v, FocusedView(s1), false, false));
    if i.Some? {
      var w := s1.workspaces[i.value];
      var there := Table(s1)[v].(workspaceId := w.index);
      var put := s1.screen.(views := Table(s1)[v := there.ChangeOutput(None, w.output)]);
      ArrangingKeepsLasting(WithView(w, v, FocusedView(s1), false), put, s1.env, true);
      LastingAt(put.views, Table(s2), v);
      ToldKeepsLasting(Table(s1)[v].(workspaceId := w.index), None, w.output);
    }
    FocusingKeepsLasting(s2, Some(v), false);
    LastingAt(Table(s2), Table(MapView(s, v, geometry)), v);
  }

  lemma LastingAt(a: ViewTable, b: ViewTable, v: ViewId)
    requires SameLasting(a, b) && v in a
    ensures v in b && a[v].geometry == b[v].geometry && a[v].previousSize == b[v].previousSize
  {
  }

  lemma ToldKeepsLasting(view: View, before: Option<OutputId>, after: Option<OutputId>)
    ensures var r := view.ChangeOutput(before, after);
            r.geometry == view.geometry && r.previousSize == view.previousSize
  {
  }

  /** A view that is not tiled, nor fullscreen, is left alone by a layout. */
  lemma ArrangingLeavesAlone(w: WorkspaceState, s: Screen, env: Env, animate: bool, v: ViewId)
    requires v in s.views && FindColumn(w.columns, v) == |w.columns| && w.fullscreen != Some(v)
    ensures Arrange(w, s, env, animate).views[v] == s.views[v]
  {
    hide FindColumn, LayoutTasks;
  }

  lemma ShowingLeavesAlone(s: State, u: ViewId, condense: bool, i: nat, v: ViewId)
    requires v in Table(s) && i < |s.workspaces| && Located(s, u) && Home(s, u) == i
    requires FindColumn(s.workspaces[i].columns, v) == |s.workspaces[i].columns|
    requires s.workspaces[i].fullscreen != Some(v)
    ensures v in Table(Show(s, u, condense)) && Table(Show(s, u, condense))[v] == Table(s)[v]
  {
    hide FindColumn, FitScroll, Arrange;
    var w := FitView(s.workspaces[i], s.screen, s.env, u, condense).0;
    ArrangingLeavesAlone(w, s.screen, s.env, true, v);
  }

  /** Where toggling takes a view that has just been taken out of its workspace. */
  lemma PutBehind(w: WorkspaceState, v: ViewId)
    requires NoEmptyColumn(w.columns) && forall u :: Occurrences(w, u) <= 1
    ensures WithView(w, v, LastTile(w.columns), true).floating == w.floating + [v]
    ensures WithView(w, v, LastTile(w.columns), false).columns == w.columns + [[NewTile(v)]]
  {
    hide Count, FindColumn, HasView;
    var cols := w.columns;
    if cols != [] {
      var last := |cols| - 1;
      var col := cols[last];
      var u := col[|col| - 1].view;
      assert LastTile(cols) == Some(u);
      HoldsView(col, |col| - 1);
      CountMember(cols, last, u);
      assert Occurrences(w, u) <= 1;
      CountWithin(w, u);
      assert IndexOf(w.floating, u) == |w.floating|;
      LastColumnHolds(cols, u);
    }
  }

  lemma LastColumnHolds(cols: seq<Column>, u: ViewId)
    requires cols != [] && HasView(cols[|cols| - 1], u) && Count(cols, u) <= 1
    ensures FindColumn(cols, u) == |cols| - 1
  {
    hide Count;
    var last := |cols| - 1;
    var c := FindColumn(cols, u);
    if c < last {
      TwoColumns(cols, c, last, u);
    }
  }

  /** v has gone behind the other floating views, or from there into a column of its own at the far end. */
  predicate ChangedSides(w: WorkspaceState, w': WorkspaceState, v: ViewId)
  {
    if v in w.floating then w'.columns == w.columns + [[NewTile(v)]] else w'.floating == w.floating + [v]
  }

  /** The size a view has and the one it had on the other side have changed places; of a fullscreen view, the size it
      will have afterwards. */
  predicate SizesTraded(view: View, view': View, fullscreen: bool)
  {
    && view'.geometry == view.geometry
    && if fullscreen
       then && view.saved.Some? && view'.saved.Some?
            && view'.previousSize == (view.saved.value.width, view.saved.value.height)
            && view'.saved.value == view.saved.value.(width := view.previousSize.0, height := view.previousSize.1)
       else view'.previousSize == (view.geometry.width, view.geometry.height)
  }

  /** Toggling puts a tile behind the other floating views, and a floating view into a column of its own at the far end.
      The size it has and the one it had on the other side change places; of a fullscreen view, the size it will have
      afterwards. */
  lemma TogglingSwapsSizes(s: State)
    requires Inv(s) && FocusedView(s).Some?
    ensures var v := FocusedView(s).value;
            var t := ToggleFloating(s);
            && Located(s, v) && |t.workspaces| == |s.workspaces| && v in Table(t)
            && var i := Home(s, v);
               var (w, w') := (s.workspaces[i], t.workspaces[i]);
               var (view, view') := (Table(s)[v], Table(t)[v]);
               && ChangedSides(w, w', v)
               && SizesTraded(view, view', w.fullscreen == Some(v))
               && (v !in w.floating && w.fullscreen != Some(v) ==>
                     (view'.targetWidth, view'.targetHeight) == view.previousSize)
  {
    hide Inv, Refloated, Show, FirstOf, FindColumn;
    FocusedIsLocated(s);
    var v := FocusedView(s).value;
    var i := Home(s, v);
    var s1 := Refloated(s, v, i);
    RefloatedSizes(s, v, i);
    var previous := FirstOf(s1.seat.focusStack, Table(s1), i, Some(v));
    ShowKeepsSide(s1, v, false, i);
    ShowingKeepsLasting(s1, v, false);
    LastingOf(Table(s1), Table(Show(s1, v, false)), v);
    if v !in s.workspaces[i].floating && previous.Some? {
      ShowKeepsSide(s1, previous.value, true, i);
      ShowingKeepsLasting(s1, previous.value, true);
      LastingOf(Table(s1), Table(Show(s1, previous.value, true)), v);
      if s.workspaces[i].fullscreen != Some(v) {
        ShowingLeavesAlone(s1, previous.value, true, i, v);
      }
    }
  }

  lemma LastingOf(a: ViewTable, b: ViewTable, v: ViewId)
    requires SameLasting(a, b) && v in a
    ensures v in b && a[v].geometry == b[v].geometry && a[v].previousSize == b[v].previousSize
    ensures a[v].saved == b[v].saved
  {
  }

  lemma RefloatedSizes(s: State, v: ViewId, i: nat)
    requires Inv(s) && Located(s, v) && Table(s)[v].mapped && i == Home(s, v)
    ensures var t := Refloated(s, v, i);
            && |t.workspaces| == |s.workspaces| && v in Table(t) && Located(t, v) && Home(t, v) == i
            && t.workspaces[i].fullscreen == s.workspaces[i].fullscreen
            && var (w, w') := (s.workspaces[i], t.workspaces[i]);
               var (view, view') := (Table(s)[v], Table(t)[v]);
               && ChangedSides(w, w', v)
               && (v !in w.floating ==> FindColumn(w'.columns, v) == |w'.columns|)
               && SizesTraded(view, view', w.fullscreen == Some(v))
               && (v !in w.floating && w.fullscreen != Some(v) ==>
                     (view'.targetWidth, view'.targetHeight) == view.previousSize)
  {
    hide BonesOk, BonesOf, FocusOk, Refloated, SizesSwapped, FindColumn, CoreOf, SameLasting, LastTile;
    var w := s.workspaces[i];
    var fullscreen := w.fullscreen == Some(v);
    if fullscreen {
      FullscreenIsSaved(s, i, v);
    }
    var s1 := SizesSwapped(s, v, fullscreen);
    RefloatedLists(s, v, i);
    RefloatedLeaves(s, v, i);
    SizesSwappedAre(s, v, fullscreen);
    LastingOf(Table(s1), Table(Refloated(s, v, i)), v);
  }

  lemma SizesSwappedAre(s: State, v: ViewId, fullscreen: bool)
    requires v in Table(s) && (fullscreen ==> Table(s)[v].saved.Some?)
    ensures var t := SizesSwapped(s, v, fullscreen);
            && t.workspaces == s.workspaces && v in Table(t)
            && SizesTraded(Table(s)[v], Table(t)[v], fullscreen)
            && (!fullscreen ==> (Table(t)[v].targetWidth, Table(t)[v].targetHeight) == Table(s)[v].previousSize)
  {
  }

  lemma RefloatedLists(s: State, v: ViewId, i: nat)
    requires Inv(s) && Located(s, v) && Table(s)[v].mapped && i == Home(s, v)
    ensures var t := Refloated(s, v, i);
            && |t.workspaces| == |s.workspaces| && t.workspaces[i].fullscreen == s.workspaces[i].fullscreen
            && var (w, w') := (s.workspaces[i], t.workspaces[i]);
               && ChangedSides(w, w', v)
               && (v !in w.floating ==> FindColumn(w'.columns, v) == |w'.columns|)
  {
    hide Inv, Arrange, Occurrences, FindColumn, LastTile, AddColumn, FloatingAfter, SizesSwapped, WithoutView;
    var w := s.workspaces[i];
    var w1 := WithoutView(w, v);
    SwappedKeepsWorkspaces(s, v, w.fullscreen == Some(v));
    WithoutViewKeeps(s, i, v);
    PutBehind(w1, v);
    PutOnSide(w1, v, LastTile(w1.columns), v !in w.floating);
  }

  /** After the sizes were swapped, nothing that lasts is changed, and the requested size of a view that floats now is
      not either. */
  lemma RefloatedLeaves(s: State, v: ViewId, i: nat)
    requires Inv(s) && Located(s, v) && Table(s)[v].mapped && i == Home(s, v)
    ensures var t := Refloated(s, v, i);
            var s1 := SizesSwapped(s, v, s.workspaces[i].fullscreen == Some(v));
            && SameLasting(Table(s1), Table(t)) && v in Table(t) && Located(t, v) && Home(t, v) == i
            && (v !in s.workspaces[i].floating && s.workspaces[i].fullscreen != Some(v) ==> Table(t)[v] == Table(s1)[v])
  {
    hide Inv, Arrange, Occurrences, FindColumn, LastTile, WithView, WithoutView, SameLasting, CoreOf, Unharmed,
      SameSizes, SizesSwapped;
    var w := s.workspaces[i];
    var s1 := SizesSwapped(s, v, w.fullscreen == Some(v));
    var w1 := WithoutView(w, v);
    var w2 := WithView(w1, v, LastTile(w1.columns), v !in w.floating);
    SwappedKeepsWorkspaces(s, v, w.fullscreen == Some(v));
    SwappedKeepsPlace(s, v, w.fullscreen == Some(v));
    WithoutViewKeeps(s, i, v);
    NotThere(w1, v);
    PutOnSide(w1, v, LastTile(w1.columns), v !in w.floating);
    SameFullscreenWith(w1, v, LastTile(w1.columns), v !in w.floating);
    var a := Arrange(w1, s1.screen, s1.env, true);
    ArrangingKeepsLasting(w1, s1.screen, s1.env, true);
    ArrangeKeeps(w1, s1.screen, s1.env, true);
    ArrangingKeepsLasting(w2, a, s1.env, true);
    ArrangeKeeps(w2, a, s1.env, true);
    var t := Refloated(s, v, i);
    assert Table(t) == Arrange(w2, a, s1.env, true).views;
    SameLastingTwice(Table(s1), a.views, Table(t));
    SameLocation(s1, t, v);
    if v !in w.floating && w.fullscreen != Some(v) {
      ArrangingLeavesAlone(w1, s1.screen, s1.env, true, v);
      ArrangingLeavesAlone(w2, a, s1.env, true, v);
    }
  }

  lemma SwappedKeepsPlace(s: State, v: ViewId, fullscreen: bool)
    requires Located(s, v)
    ensures var t := SizesSwapped(s, v, fullscreen);
            Located(t, v) && Home(t, v) == Home(s, v) && t.env == s.env
  {
  }

  lemma SameFullscreenWith(w: WorkspaceState, v: ViewId, nextTo: Option<ViewId>, floating: bool)
    ensures WithView(w, v, nextTo, floating).fullscreen == w.fullscreen
  {
  }

  lemma WithoutViewKeeps(s: State, i: nat, v: ViewId)
    requires Inv(s) && Located(s, v) && Table(s)[v].mapped && i == Home(s, v)
    ensures var (w, w1) := (s.workspaces[i], WithoutView(s.workspaces[i], v));
            && NoEmptyColumn(w1.columns) && (forall u :: Occurrences(w1, u) <= 1)
            && Occurrences(w1, v) == 0 && w1.fullscreen == w.fullscreen && w1.output == w.output
            && (if v in w.floating then w1.columns == w.columns else w1.floating == w.floating)
  {
    hide FullscreenOk, Assigned, Balanced, FocusOk, RemoveView, Without, FindColumn, Count;
    var w := s.workspaces[i];
    PlacedIsDistinct(s, i);
    DueMeans(s, i, v);
    SurgeryKeepsColumnsFull(w.columns, v, None);
    forall u
      ensures Occurrences(WithoutView(w, v), u) <= 1
      ensures Occurrences(WithoutView(w, v), v) == 0
    {
      assert Occurrences(w, u) == Due(BonesOf(s), i, u);
      WithoutViewOccurrences(w, v, u);
      WithoutViewOccurrences(w, v, v);
    }
    if v in w.floating {
      CountWithin(w, v);
      FindColumnIsMembership(w.columns, v);
      NothingToRemove(w.columns, v);
    } else {
      WithoutAbsent(w.floating, v);
    }
  }

  lemma NothingToRemove(cols: seq<Column>, v: ViewId)
    requires FindColumn(cols, v) == |cols|
    ensures RemoveView(cols, v) == cols
  {
  }

  lemma NotThere(w: WorkspaceState, v: ViewId)
    requires Occurrences(w, v) == 0
    ensures FindColumn(w.columns, v) == |w.columns|
  {
    FindColumnIsMembership(w.columns, v);
  }

  // ---------------------------------------------------------------------------------------
  // Views that are moved
  // ---------------------------------------------------------------------------------------

  /** A layout leaves a view alone that is neither tiled nor fullscreen, wherever it is. */
  predicate OutOfLayout(w: WorkspaceState, v: ViewId)
  {
    FindColumn(w.columns, v) == |w.columns| && w.fullscreen != Some(v)
  }

  /** Dragging a tile that has come to rest scrolls its workspace until the tile is where the pointer has it. */
  lemma DraggedTileFollows(s: State, v: ViewId, i: nat, x: int, y: int, animate: bool, under: Option<OutputId>)
    requires Inv(s) && IsTile(s, i, v) && AimsRight(s, i, v) && Table(s)[v].x == Table(s)[v].targetX
    ensures var t := Reposition(s, v, x, y, animate, under);
            v in Table(t) && Table(t)[v].targetX == x && t.seat == s.seat
  {
    hide Inv, FindColumn, FindTile, Distinct, TileHeight, YUpTo, XUpTo, LayoutTasks, ArrangedViews;
    TileIsTiled(s, i, v);
    var w := s.workspaces[i];
    var c := FindColumn(w.columns, v);
    TileFound(w.columns[c], v);
    var w' := w.(scrollX := w.scrollX + (Table(s)[v].x - x));
    ArrangedAim(w', Table(s), InfoOf(s, i), s.env.gap, animate && !w.suspendAnimations, c, FindTile(w.columns[c], v));
  }

  /** Tiles follow the fingers: as many pixels as the workspace scrolls they move the other way, at once and without any
      animation. */
  lemma SwipedTileFollows(s: State, i: nat, scroll: int, view: Option<ViewId>, v: ViewId)
    requires Inv(s) && IsTile(s, i, v) && AimsRight(s, i, v)
    ensures var t := SwipeFrame(s, i, scroll, false, view);
            && v in Table(t) && t.screen.tasks == s.screen.tasks && t.seat == s.seat
            && Warped(Table(t)[v]) == Table(t)[v]
            && Table(t)[v].x == Table(s)[v].targetX - (scroll - s.workspaces[i].scrollX)
  {
    hide Inv, FindColumn, FindTile, Distinct, TileHeight, YUpTo, XUpTo, LayoutTasks, ArrangedViews;
    TileIsTiled(s, i, v);
    var w := s.workspaces[i];
    var c := FindColumn(w.columns, v);
    TileFound(w.columns[c], v);
    if w.fullscreen.Some? {
      FullscreenIsNoTile(s, i);
    }
    var w' := w.(scrollX := scroll);
    ArrangedAim(w', Table(s), InfoOf(s, i), s.env.gap, false, c, FindTile(w.columns[c], v));
    TilesMoveUnlessAnimated(w', Table(s), InfoOf(s, i), s.env.gap, false, v);
  }

  /** A floating view goes to the new position, as long as that is on the output of its workspace or on none. */
  lemma FloatingViewMoves(s: State, v: ViewId, x: int, y: int, under: Option<OutputId>)
    requires Located(s, v) && (under.None? || under == s.workspaces[Home(s, v)].output)
    ensures var t := FloatTo(s, v, x, y, under);
            && t == WithTable(s, Table(t)) && Table(t) == Table(s)[v := Table(s)[v].(x := x, y := y)]
  {
  }

  /** A floating view that changes workspaces is on the output of the new one then: where it was, if that is in the
      usable area, and otherwise in the middle of it. */
  lemma FloatingViewArrives(s: State, v: ViewId, j: nat)
    requires Inv(s) && IsMappedView(s, v) && v in s.workspaces[Home(s, v)].floating && Home(s, v) != j
    requires Table(s)[v].expansion != Fullscreen && Visible(s, j)
    ensures var t := ChangeWorkspace(s, v, j);
            var area := RealUsableArea(InfoOf(s, j));
            var view := Table(s)[v];
            && v in Table(t)
            && (Table(t)[v].x, Table(t)[v].y) ==
               (if area.Contains(view.x, view.y) then (view.x, view.y)
                else (area.x + Quotient(area.width, 2), area.y + Quotient(area.height, 2)))
            && (area.width > 0 && area.height > 0 ==> area.Contains(Table(t)[v].x, Table(t)[v].y))
  {
    hide Inv, Transplanted, FocusView, FirstOf;
    var i := Home(s, v);
    FloatingTransplant(s, v, j);
    var t := Transplanted(s, v, j);
    TransplantKeepsInv(s, v, j);
    ArrivedAfterTransplant(s, v, j);
    FloatingIsOut(t, v);
    var next := FirstOf(t.seat.focusStack, Table(t), t.workspaces[i].index, Some(v));
    FocusingLeavesAlone(t, next, false, v);
  }

  /** Nothing in the layouts of any workspace touches v. */
  ghost predicate OutOfAll(ws: seq<WorkspaceState>, v: ViewId)
  {
    forall i | 0 <= i < |ws| :: OutOfLayout(ws[i], v)
  }

  lemma FloatingIsOut(s: State, v: ViewId)
    requires Inv(s) && IsMappedView(s, v) && v in s.workspaces[Home(s, v)].floating
    requires Table(s)[v].expansion != Fullscreen
    ensures OutOfAll(s.workspaces, v)
  {
    hide Assigned, Balanced, FocusOk, FullscreenOk, Occurrences, FindColumn, Count;
    InvIsFullscreenConsistent(s);
    forall i | 0 <= i < |s.workspaces|
      ensures OutOfLayout(s.workspaces[i], v)
    {
      PlacedIsDistinct(s, i);
      DueMeans(s, i, v);
      CountWithin(s.workspaces[i], v);
      FindColumnIsMembership(s.workspaces[i].columns, v);
    }
  }

  /** A change of focus leaves such a view alone, and keeps it out. */
  ghost predicate LeftAlone(s: State, t: State, v: ViewId)
  {
    && v in Table(s) && v in Table(t) && Table(t)[v] == Table(s)[v] && OutOfAll(t.workspaces, v)
  }

  lemma ShowingLeavesOut(s: State, u: ViewId, condense: bool, v: ViewId)
    requires v in Table(s) && OutOfAll(s.workspaces, v)
    ensures LeftAlone(s, Show(s, u, condense), v)
  {
    hide FindColumn, FitScroll, Arrange;
    if Located(s, u) {
      var i := Home(s, u);
      assert OutOfLayout(s.workspaces[i], v);
      var w := FitView(s.workspaces[i], s.screen, s.env, u, condense).0;
      ArrangingLeavesAlone(w, s.screen, s.env, true, v);
    }
  }

  lemma PlainLeavesAlone(s: State, view: Option<ViewId>, condense: bool, v: ViewId)
    requires v in Table(s) && OutOfAll(s.workspaces, v)
    ensures LeftAlone(s, FocusPlain(s, view, condense), v)
  {
    hide Show, HiddenByFullscreen, InputAllowed, ToFront, FindColumn;
    if view.Some? {
      ShowingLeavesOut(s, view.value, condense, v);
      var s1 := if FocusedView(s).Some? then s.(seat := s.seat.(keyboard := None)) else s;
      ShowingLeavesOut(WithSeat(s1, ToFront(s1.seat.focusStack, view.value), Some(ViewSurface(view.value))), view.value,
                       condense, v);
    }
  }

  lemma {:induction false} FocusingLeavesAlone(s: State, view: Option<ViewId>, condense: bool, v: ViewId)
    requires v in Table(s) && OutOfAll(s.workspaces, v)
    ensures LeftAlone(s, FocusView(s, view, condense), v)
    decreases if s.seat.focusedLayer.Some? then 2 else 0
  {
    hide FocusPlain, FindColumn;
    if s.seat.focusedLayer.Some? {
      var s1 := FocusLayer(s, None);
      FocusingLayerLeavesAlone(s, None, v);
      FocusingLeavesAlone(s1, view, condense, v);
      FocusingLayerLeavesAlone(FocusView(s1, view, condense), s.seat.focusedLayer, v);
    } else {
      PlainLeavesAlone(s, view, condense, v);
    }
  }

  lemma {:induction false} FocusingLayerLeavesAlone(s: State, layer: Option<LayerId>, v: ViewId)
    requires v in Table(s) && OutOfAll(s.workspaces, v)
    ensures LeftAlone(s, FocusLayer(s, layer), v)
    decreases if s.seat.focusedLayer.Some? && layer.None? then 1 else 0
  {
    hide FocusPlain, FindColumn;
    if layer.None? && s.seat.focusedLayer.Some? {
      var s1 := s.(seat := s.seat.(focusedLayer := None));
      var focused := FocusedView(s1);
      assert OutOfAll(s1.workspaces, v);
      if focused.Some? {
        FocusingLeavesAlone(s1, None, false, v);
        FocusingLeavesAlone(FocusView(s1, None, false), focused, false, v);
      }
    }
  }

  lemma FloatingTransplant(s: State, v: ViewId, j: nat)
    requires Inv(s) && IsMappedView(s, v) && v in s.workspaces[Home(s, v)].floating && Home(s, v) != j
    requires Table(s)[v].expansion != Fullscreen && Visible(s, j)
    ensures var t := Transplanted(s, v, j);
            var area := RealUsableArea(InfoOf(s, j));
            var view := Table(s)[v];
            && v in Table(t) && Table(t)[v].expansion == view.expansion && Table(t)[v].mapped && Located(t, v)
            && Home(t, v) == j
            && (Table(t)[v].x, Table(t)[v].y) ==
               if area.Contains(view.x, view.y) then (view.x, view.y)
               else (area.x + Quotient(area.width, 2), area.y + Quotient(area.height, 2))
  {
    hide Inv, Occurrences, FindColumn, Arrange, WithView, WithoutView, Told;
    var i := Home(s, v);
    FloatingIsOut(s, v);
    IndexMeansPlace(s, j);
    var s2 := PulledOnto(s, v, j);
    var w1 := WithoutView(Dismissed(s.workspaces[i], v), v);
    WithoutViewKeeps(s, i, v);
    NotThere(WithoutView(s.workspaces[i], v), v);
    OutDismissed(s, i, v);
    var gone := s2.screen.(views := Table(s2)[v := Table(s2)[v].ChangeOutput(s.workspaces[i].output, None)]);
    ArrangingLeavesAlone(w1, gone, s.env, true, v);
    var a := Arrange(w1, gone, s.env, true);
    var w := s.workspaces[j];
    assert OutOfLayout(s.workspaces[j], v);
    PutFloating(w, v);
    var come := a.(views := a.views[v := a.views[v].(workspaceId := j).ChangeOutput(None, w.output)]);
    ArrangingLeavesAlone(WithView(w, v, None, true), come, s.env, true, v);
  }

  lemma OutDismissed(s: State, i: nat, v: ViewId)
    requires i < |s.workspaces| && OutOfLayout(s.workspaces[i], v)
    ensures Dismissed(s.workspaces[i], v) == s.workspaces[i]
  {
  }

  lemma PutFloating(w: WorkspaceState, v: ViewId)
    ensures var r := WithView(w, v, None, true);
            r.columns == w.columns && r.fullscreen == w.fullscreen
  {
  }

  /** One that is moved over another output goes to the first workspace on it. */
  lemma FloatingViewChangesOutputs(s: State, v: ViewId, x: int, y: int, o: OutputId, j: nat)
    requires Inv(s) && IsMappedView(s, v) && v in s.workspaces[Home(s, v)].floating
    requires s.workspaces[Home(s, v)].output != Some(o)
    requires j < |s.workspaces| && s.workspaces[j].output == Some(o)
    requires forall k | 0 <= k < j :: s.workspaces[k].output != Some(o)
    ensures var t := FloatTo(s, v, x, y, Some(o));
            && v in Table(t) && Table(t)[v].workspaceId == j
            && |t.workspaces| == |s.workspaces| && v in t.workspaces[j].floating
  {
    hide Inv, ChangeWorkspace;
    var s1 := WithTable(s, Table(s)[v := Table(s)[v].Move(x, y)]);
    PuttingKeeps(s, v, Table(s)[v].Move(x, y));
    ViewArrives(s1, v, j);
  }

  /** Tile k is the first normal one of a column. */
  ghost predicate FirstNormalAt(col: Column, views: ViewTable, k: nat)
  {
    k < |col| && IsNormal(views, col[k].view) && NoneNormal(col, views, 0, k)
  }

  /** From view to view' only the width of the window differs, as the widest normal tile of a column has it, and that is
      the width that is asked for. */
  ghost predicate Widened(view: View, view': View, col: Column, views: ViewTable)
  {
    && view'.geometry == view.geometry.(width := view'.geometry.width) && IsWidest(col, views, view'.geometry.width)
    && view'.targetWidth == view'.geometry.width
  }

  /** The view that is inserted into the column of the focused view, the first normal one on the right, becomes as
      wide as the widest normal tile there, and is asked for that width. */
  lemma InsertingTakesTheWidth(s: State, v: ViewId, i: nat, c: nat, k: nat)
    requires Inv(s) && TiledFocus(s, v, i) && Visible(s, i) && c == FindColumn(s.workspaces[i].columns, v)
    requires c + 1 < |s.workspaces[i].columns| && FirstNormalAt(s.workspaces[i].columns[c + 1], Table(s), k)
    ensures var u := s.workspaces[i].columns[c + 1][k].view;
            var t := InsertFocused(s);
            u in Table(t) && u in Table(s) && Widened(Table(s)[u], Table(t)[u], s.workspaces[i].columns[c], Table(s))
  {
    hide Inv, FindColumn, InsertView, Distinct, IsWidest;
    var w := s.workspaces[i];
    var u := w.columns[c + 1][k].view;
    DistinctByInv(s, i);
    assert FirstNormal(w.columns[c + 1], Table(s)) == k;
    AbsorbedIsElsewhere(w.columns, Table(s), v);
    WidthIsWidest(w.columns[c], Table(s), |w.columns[c]|);
    assert w.columns[c][..|w.columns[c]|] == w.columns[c];
    InsertedTile(w, s.screen, s.env, u, c);
  }

  lemma InsertedTile(w: WorkspaceState, s: Screen, env: Env, v: ViewId, c: nat)
    requires Distinct(w.columns) && IsNormal(s.views, v) && w.output.Some? && w.output.value in env.outputs
    requires c < |w.columns| && FindColumn(w.columns, v) < |w.columns| && FindColumn(w.columns, v) != c
    ensures var r := InsertView(w, s, env, v, c).1.views;
            var width := WidthUpTo(w.columns[c], s.views, |w.columns[c]|);
            && v in r && r[v].geometry == s.views[v].geometry.(width := width)
            && r[v].targetWidth == r[v].geometry.width
  {
    hide FindColumn, InsertIntoColumn, Distinct, RemoveFromWorkspace, WindowBox, LayoutTasks, ArrangedView, CoreOf;
    var (w1, s1) := RemoveFromWorkspace(w, s, env, v, true);
    RemoveBones(w, s, env, v, true);
    RemovedOutput(w, s, env, v);
    CoresAt(s.views, v); CoresAt(s1.views, v);
    NormalByCore(s.views, s1.views, v);
    var (w2, s2) := Transferred(w, s, env, v, c);
    InsertKeepsDistinct(w.columns, v, c);
    InsertedIsFound(w.columns, v, c);
    var d := FindColumn(w2.columns, v);
    TileFound(w2.columns[d], v);
    var animated := !w2.suspendAnimations;
    ArrangedAim(w2, s2.views, env.outputs[w.output.value], env.gap, animated, d, FindTile(w2.columns[d], v));
    WidthOfBox(w2, s2.views, env.outputs[w.output.value], env.gap, d, FindTile(w2.columns[d], v));
  }

  lemma RemovedOutput(w: WorkspaceState, s: Screen, env: Env, v: ViewId)
    requires v in s.views && FindColumn(w.columns, v) < |w.columns|
    ensures var (w1, s1) := RemoveFromWorkspace(w, s, env, v, true);
            && w1.output == w.output && SameLasting(s.views, s1.views) && w1.suspendAnimations == w.suspendAnimations
  {
    hide Arrange, FindColumn, SameLasting;
    ArrangingKeepsLasting(WithoutView(w, v), s, env, true);
  }

  lemma InsertedIsFound(cols: seq<Column>, v: ViewId, c: nat)
    requires Distinct(cols) && c < |cols| && FindColumn(cols, v) < |cols| && FindColumn(cols, v) != c
    ensures FindColumn(InsertIntoColumn(cols, v, c), v) < |InsertIntoColumn(cols, v, c)|
  {
    hide Count, FindColumn, InsertIntoColumn, Distinct;
    DistinctCountsOnce(cols, v);
    FindColumnIsMembership(cols, v);
    InsertIntoColumnCount(cols, v, c, v);
    FindColumnIsMembership(InsertIntoColumn(cols, v, c), v);
  }

  // ---------------------------------------------------------------------------------------
  // The cursor
  // ---------------------------------------------------------------------------------------

  /** The focused workspace is the first one on an output that the cursor is on; there is none exactly if no workspace
      is on such an output. */
  lemma CursorIsOnTheFirst(s: State)
    ensures match FocusedWorkspace(s)
            case Some(i) =>
              && i < |s.workspaces| && UnderCursor(s.workspaces[i], s.seat.cursor)
              && forall j | 0 <= j < i :: !UnderCursor(s.workspaces[j], s.seat.cursor)
            case None => forall j | 0 <= j < |s.workspaces| :: !UnderCursor(s.workspaces[j], s.seat.cursor)
  {
    FirstUnderCursor(s.workspaces, s.seat.cursor, 0);
  }

  predicate UnderCursor(w: WorkspaceState, cursor: set<OutputId>)
  {
    exists o | o in cursor :: w.output == Some(o)
  }

  lemma {:induction false} FirstUnderCursor(ws: seq<WorkspaceState>, cursor: set<OutputId>, k: nat)
    requires k <= |ws|
    ensures match UnderCursorFrom(ws, cursor, k)
            case Some(i) =>
              && i < |ws| && UnderCursor(ws[i], cursor)
              && forall j | k <= j < i :: !UnderCursor(ws[j], cursor)
            case None => forall j | k <= j < |ws| :: !UnderCursor(ws[j], cursor)
    decreases |ws| - k
  {
    if k == |ws| {
    } else {
      FirstUnderCursor(ws, cursor, k + 1);
    }
  }

  /** The command to move takes a floating view by dx and dy. */
  lemma MovingFloats(s: State, v: ViewId, dx: int, dy: int, under: Option<OutputId>)
    requires Inv(s) && FocusedView(s) == Some(v) && Located(s, v) && v in s.workspaces[Home(s, v)].floating
    requires under.None? || under == s.workspaces[Home(s, v)].output
    ensures var t := MoveFocused(s, dx, dy, under);
            && v in Table(t) && Table(t) == Table(s)[v := Table(t)[v]]
            && Table(t)[v] == Table(s)[v].(x := Table(s)[v].x + dx, y := Table(s)[v].y + dy)
  {
    hide FullscreenOk, Assigned, Balanced, FocusOk, Occurrences, FindColumn, FloatTo;
    var i := Home(s, v);
    PlacedIsDistinct(s, i);
    DueMeans(s, i, v);
    CountWithin(s.workspaces[i], v);
    FindColumnIsMembership(s.workspaces[i].columns, v);
    FloatingViewMoves(s, v, Table(s)[v].x + dx, Table(s)[v].y + dy, under);
  }

  // ---------------------------------------------------------------------------------------
  // Toggling shows a view, too
  // ---------------------------------------------------------------------------------------

  lemma RefloatedAims(s: State, v: ViewId, i: nat, u: ViewId)
    requires Inv(s) && Located(s, v) && Table(s)[v].mapped && i == Home(s, v) && s.env.gap >= 0
    requires Visible(Refloated(s, v, i), i) && IsTile(Refloated(s, v, i), i, u)
    ensures AimsRight(Refloated(s, v, i), i, u)
  {
    hide BonesOk, FocusOk, BonesOf, Arrange, LastTile, WithView, WithoutView, SizesSwapped, AimsRight, IsTile;
    RefloatingKeepsInv(s, v);
    var s1 := SizesSwapped(s, v, s.workspaces[i].fullscreen == Some(v));
    SwappedKeepsPlace(s, v, s.workspaces[i].fullscreen == Some(v));
    SwappedKeepsWorkspaces(s, v, s.workspaces[i].fullscreen == Some(v));
    var s2 := InWorkspace(s1, i, RemoveFromWorkspace(s1.workspaces[i], s1.screen, s1.env, v, true));
    var w := WithView(s2.workspaces[i], v, LastTile(s2.workspaces[i].columns), v !in s.workspaces[i].floating);
    LaidOutLastAims(s2, Refloated(s, v, i), i, (w, s2.screen), u);
  }

  /** A view that stops floating is fitted on the screen; when one starts to float, the view of its workspace that was
      focused last before it is, condensed, so that no hole is left. */
  lemma TogglingShows(s: State, v: ViewId, i: nat, u: ViewId)
    requires Inv(s) && FocusedView(s) == Some(v) && Located(s, v) && i == Home(s, v) && s.env.gap >= 0
    requires Visible(Refloated(s, v, i), i) && IsTile(Refloated(s, v, i), i, u)
    requires v in s.workspaces[i].floating ==> u == v
    requires v !in s.workspaces[i].floating ==>
               exists k: nat | k < |s.seat.focusStack| == |Refloated(s, v, i).seat.focusStack| ::
                 s.seat.focusStack[k] == u && LastFocused(Refloated(s, v, i), i, Some(v), k)
    ensures AimsRight(Refloated(s, v, i), i, u)
    ensures ShownFrom(Refloated(s, v, i), ToggleFloating(s), i, u, v !in s.workspaces[i].floating)
  {
    hide Inv, Refloated, Show, FirstOf, ShownFrom, Aiming, IsTile;
    FocusedIsLocated(s);
    RefloatedAims(s, v, i, u);
    RefloatedSeat(s, v, i);
    if v !in s.workspaces[i].floating {
      var k: nat :| && k < |s.seat.focusStack| && s.seat.focusStack[k] == u
                    && LastFocused(Refloated(s, v, i), i, Some(v), k);
      LastFocusedIsFirst(Refloated(s, v, i), i, Some(v), k);
    }
    ShowingShows(Refloated(s, v, i), i, u, v !in s.workspaces[i].floating);
  }

  lemma RefloatedSeat(s: State, v: ViewId, i: nat)
    requires v in Table(s) && i < |s.workspaces|
    ensures Refloated(s, v, i).seat == s.seat
  {
    hide RemoveFromWorkspace, AddView, LastTile;
  }

  // ---------------------------------------------------------------------------------------
  // Fullscreen views that change workspaces
  // ---------------------------------------------------------------------------------------

  /** v is the fullscreen view of workspace j alone, and lies right on its output. */
  ghost predicate Covered(s: State, j: nat, v: ViewId)
  {
    && Visible(s, j) && v in Table(s) && !IsNormal(Table(s), v) && Covers(Table(s)[v], InfoOf(s, j).box)
    && forall k | 0 <= k < |s.workspaces| :: s.workspaces[k].fullscreen == Some(v) <==> k == j
  }

  lemma LayoutKeepsCovering(s: State, k: nat, scroll: int, j: nat, v: ViewId)
    requires Covered(s, j, v) && k < |s.workspaces|
    ensures var w := s.workspaces[k].(scrollX := scroll);
            var t := InWorkspace(s, k, (w, Arrange(w, s.screen, s.env, true)));
            Covered(t, j, v) && InfoOf(t, j) == InfoOf(s, j)
  {
    hide ArrangedViews, LayoutTasks, Covers, CoreOf, Unharmed, SameSizes;
    var w := s.workspaces[k].(scrollX := scroll);
    ArrangeKeeps(w, s.screen, s.env, true);
    CoresAt(Table(s), v);
    CoresAt(Arrange(w, s.screen, s.env, true).views, v);
    NormalByCore(Table(s), Arrange(w, s.screen, s.env, true).views, v);
    if w.output.Some? && w.output.value in s.env.outputs {
      OnlyFullscreenIsCovering(w, Table(s), s.env.outputs[w.output.value], s.env.gap, !w.suspendAnimations, v);
      CoveringOrNot(w, Table(s), s.env.outputs[w.output.value], s.env.gap, !w.suspendAnimations, v);
    }
  }

  lemma CoveringOrNot(w: WorkspaceState, views: ViewTable, info: OutputInfo, gap: int, animated: bool, v: ViewId)
    requires v in views && !IsNormal(views, v)
    ensures var r := ArrangedViews(w, views, info, gap, animated)[v];
            if w.fullscreen == Some(v) then Covers(r, info.box) else r == views[v]
  {
    hide ArrangedViews;
    OnlyFullscreenIsCovering(w, views, info, gap, animated, v);
  }

  lemma ShowingKeepsCovering(s: State, u: ViewId, condense: bool, j: nat, v: ViewId)
    requires Covered(s, j, v)
    ensures Covered(Show(s, u, condense), j, v) && InfoOf(Show(s, u, condense), j) == InfoOf(s, j)
  {
    hide Covered, Arrange, FindColumn, FitScroll;
    if Located(s, u) {
      var w := s.workspaces[Home(s, u)];
      var w' := FitView(w, s.screen, s.env, u, condense).0;
      CoveredMeans(s, j, v);
      LayoutKeepsCovering(s, Home(s, u), w'.scrollX, j, v);
      assert w' == w.(scrollX := w'.scrollX);
      assert s.workspaces[Home(s, u) := w] == s.workspaces;
    }
  }

  lemma CoveredMeans(s: State, j: nat, v: ViewId)
    requires Covered(s, j, v)
    ensures Visible(s, j) && v in Table(s)
  {
  }

  lemma SeatKeepsCovering(s: State, t: State, j: nat, v: ViewId)
    requires Covered(s, j, v) && t == s.(seat := t.seat)
    ensures Covered(t, j, v) && InfoOf(t, j) == InfoOf(s, j)
  {
  }

  lemma PlainKeepsCovering(s: State, view: Option<ViewId>, condense: bool, j: nat, v: ViewId)
    requires Covered(s, j, v)
    ensures Covered(FocusPlain(s, view, condense), j, v) && InfoOf(FocusPlain(s, view, condense), j) == InfoOf(s, j)
  {
    hide Show, HiddenByFullscreen, InputAllowed, ToFront, Covered;
    CoveredMeans(s, j, v);
    SeatKeepsCovering(s, s, j, v);
    var s1 := if FocusedView(s).Some? then s.(seat := s.seat.(keyboard := None)) else s;
    SeatKeepsCovering(s, s1, j, v);
    if view.Some? {
      ShowingKeepsCovering(s, view.value, condense, j, v);
      var s2 := WithSeat(s1, ToFront(s1.seat.focusStack, view.value), Some(ViewSurface(view.value)));
      SeatKeepsCovering(s, s2, j, v);
      ShowingKeepsCovering(s2, view.value, condense, j, v);
    }
  }

  lemma {:induction false} FocusingKeepsCovering(s: State, view: Option<ViewId>, condense: bool, j: nat, v: ViewId)
    requires Covered(s, j, v)
    ensures Covered(FocusView(s, view, condense), j, v) && InfoOf(FocusView(s, view, condense), j) == InfoOf(s, j)
    decreases if s.seat.focusedLayer.Some? then 2 else 0
  {
    hide FocusPlain, Covered;
    CoveredMeans(s, j, v);
    if s.seat.focusedLayer.Some? {
      var s1 := FocusLayer(s, None);
      FocusingLayerKeepsCovering(s, None, j, v);
      FocusingKeepsCovering(s1, view, condense, j, v);
      FocusingLayerKeepsCovering(FocusView(s1, view, condense), s.seat.focusedLayer, j, v);
    } else {
      PlainKeepsCovering(s, view, condense, j, v);
    }
  }

  lemma {:induction false} FocusingLayerKeepsCovering(s: State, layer: Option<LayerId>, j: nat, v: ViewId)
    requires Covered(s, j, v)
    ensures Covered(FocusLayer(s, layer), j, v) && InfoOf(FocusLayer(s, layer), j) == InfoOf(s, j)
    decreases if s.seat.focusedLayer.Some? && layer.None? then 1 else 0
  {
    hide FocusPlain;
    if layer.None? && s.seat.focusedLayer.Some? {
      var s1 := s.(seat := s.seat.(focusedLayer := None));
      var focused := FocusedView(s1);
      if focused.Some? {
        FocusingKeepsCovering(s1, None, false, j, v);
        FocusingKeepsCovering(FocusView(s1, None, false), focused, false, j, v);
      }
    }
  }

  /** A fullscreen view that changes workspaces lies right on the output of the new one. */
  lemma FullscreenViewArrives(s: State, v: ViewId, j: nat)
    requires Inv(s) && IsMappedView(s, v) && Home(s, v) != j && Table(s)[v].expansion == Fullscreen && Visible(s, j)
    ensures var t := ChangeWorkspace(s, v, j);
            v in Table(t) && Covers(Table(t)[v], InfoOf(s, j).box)
  {
    hide Inv, Transplanted, FocusView, FirstOf, Covers, Covered;
    var t := Transplanted(s, v, j);
    TransplantedCovers(s, v, j);
    var next := FirstOf(t.seat.focusStack, Table(t), t.workspaces[Home(s, v)].index, Some(v));
    CoveredMeans(t, j, v);
    FocusingKeepsCovering(t, next, false, j, v);
    CoveredThen(ChangeWorkspace(s, v, j), j, v);
  }

  lemma CoveredThen(s: State, j: nat, v: ViewId)
    requires Covered(s, j, v)
    ensures Visible(s, j) && v in Table(s) && Covers(Table(s)[v], InfoOf(s, j).box)
  {
  }

  lemma AddedCovers(s: State, v: ViewId, j: nat, floating: bool)
    requires j < |s.workspaces| && v in Table(s)
    requires var t := InWorkspace(s, j, AddView(s.workspaces[j], s.screen, s.env, v, None, floating, false));
             Visible(t, j) && t.workspaces[j].fullscreen == Some(v) && !IsNormal(Table(t), v)
    ensures var t := InWorkspace(s, j, AddView(s.workspaces[j], s.screen, s.env, v, None, floating, false));
            Covers(Table(t)[v], InfoOf(t, j).box)
  {
    hide ArrangedViews, LayoutTasks, Covers, CoreOf, Unharmed, SameSizes, WithView, View.ChangeOutput;
    var w := WithView(s.workspaces[j], v, None, floating);
    var came := s.screen.(views := Table(s)[v := Table(s)[v].(workspaceId := s.workspaces[j].index)
                                                         .ChangeOutput(None, s.workspaces[j].output)]);
    ArrangeKeeps(w, came, s.env, true);
    CoresAt(came.views, v);
    CoresAt(Arrange(w, came, s.env, true).views, v);
    NormalByCore(came.views, Arrange(w, came, s.env, true).views, v);
    CoveringOrNot(w, came.views, s.env.outputs[w.output.value], s.env.gap, !w.suspendAnimations, v);
  }

  lemma TransplantedCovers(s: State, v: ViewId, j: nat)
    requires Inv(s) && IsMappedView(s, v) && Home(s, v) != j && Table(s)[v].expansion == Fullscreen && Visible(s, j)
    ensures var t := Transplanted(s, v, j);
            && Covered(t, j, v) && InfoOf(t, j) == InfoOf(s, j) && |t.workspaces| == |s.workspaces|
  {
    hide BonesOk, FocusOk, BonesOf, AddView, Covers, Received, RemoveFromWorkspace, Handed, Taken, Given;
    var i := Home(s, v);
    var t := Transplanted(s, v, j);
    TransplantKeepsInv(s, v, j);
    ArrivedAfterTransplant(s, v, j);
    InvIsFullscreenConsistent(t);
    TransplantedBones(s, v, j);
    SameOutputThere(BonesOf(s), v, i, j, v in s.workspaces[i].floating);
    OutputAt(s, j); OutputAt(t, j);
    var floating := v in s.workspaces[i].floating;
    var s2 := Received(s, v, j, floating);
    ReceivedKeepsViews(s, v, j, floating);
    TakenBones(s2, v, i);
    AddedCovers(InWorkspace(s2, i, RemoveFromWorkspace(s2.workspaces[i], s2.screen, s2.env, v, false)), v, j, floating);
  }

  lemma ReceivedKeepsViews(s: State, v: ViewId, j: nat, floating: bool)
    requires v in Table(s) && j < |s.workspaces|
    ensures var t := Received(s, v, j, floating);
            v in Table(t) && |t.workspaces| == |s.workspaces|
  {
    hide Arrange;
  }

  lemma SameOutputThere(b: Bones, v: ViewId, i: nat, j: nat, floating: bool)
    requires v in b.cores && i < |b.ws| && j < |b.ws| && i != j
    requires v in Handed(b, v, j).cores && v in Taken(Handed(b, v, j), v, i).cores
    ensures var r := Given(Taken(Handed(b, v, j), v, i), v, j, floating);
            j < |r.ws| && r.ws[j].output == b.ws[j].output
  {
    hide Told;
  }

  // ---------------------------------------------------------------------------------------
  // Fullscreen views that stop being so
  // ---------------------------------------------------------------------------------------

  /** Back where it was before it became fullscreen, asked for the size it had, but not in the layout yet. */
  predicate CameBack(view: View, view': View)
    requires view.saved.Some?
  {
    var saved := view.saved.value;
    && (view'.x, view'.y, view'.targetWidth, view'.targetHeight) == (saved.x, saved.y, saved.width, saved.height)
    && view'.expansion == Recovering && view'.saved == None && view'.geometry == view.geometry
  }

  /** Whichever view of a workspace asks to stop being fullscreen, or becomes fullscreen itself, the one that was
      fullscreen there comes back. */
  lemma FormerFullscreenComesBack(s: State, v: ViewId, on: bool, f: ViewId)
    requires Inv(s) && IsMappedView(s, v) && s.workspaces[Home(s, v)].fullscreen == Some(f)
    requires on ==> Table(s)[v].expansion == Normal
    ensures f in Table(s) && Table(s)[f].saved.Some?
    ensures var t := RequestFullscreen(s, v, on);
            && f in Table(t) && CameBack(Table(s)[f], Table(t)[f])
            && t.workspaces[Home(s, v)].fullscreen == if on then Some(v) else None
  {
    hide BonesOk, FocusOk, ArrangedViews, LayoutTasks;
    var i := Home(s, v);
    var w := s.workspaces[i];
    InvIsFullscreenConsistent(s);
    var s1 := ExitFullscreen(s.screen, f);
    var s2 := if on then EnterFullscreen(s1, v) else s1;
    var w' := w.(fullscreen := if on then Some(v) else None);
    assert s2.views[f] == Unfullscreened(Table(s)[f]);
    if Visible(s, i) {
      OnlyFullscreenIsCovering(w', s2.views, InfoOf(s, i), s.env.gap, !w.suspendAnimations, f);
    }
  }

  /** Taking hold of a floating view stops no animation. */
  lemma HoldingAFloatingView(s: State, v: ViewId)
    requires Located(s, v) && v in s.workspaces[Home(s, v)].floating
    ensures TakeHold(s, v) == s
  {
  }

  /** A new view will have the size it was mapped with when it floats for the first time. */
  lemma FirstSizeIsKept(s: State, v: ViewId, client: nat, ancestors: seq<ViewId>, geometry: Box)
    ensures var t := MapView(CreateView(s, v, client, ancestors), v, geometry);
            v in Table(t) && Table(t)[v].previousSize == (geometry.width, geometry.height)
  {
    hide MapView;
    MappingTakesTheSize(CreateView(s, v, client, ancestors), v, geometry);
  }

  // ---------------------------------------------------------------------------------------
  // Outputs that go away
  // ---------------------------------------------------------------------------------------

  /** When an output goes away nothing is on it any more, workspaces, clients or the cursor; whatever was on other
      outputs stays there, and no view moves or loses its tile. */
  lemma LostOutputIsLeft(s: State, o: OutputId, v: ViewId)
    requires Inv(s) && CanDestroy(s, o) && v in Table(s)
    ensures var t := DestroyOutput(s, o);
            && o !in t.env.outputs && o !in t.seat.cursor && o !in OnOutputs(Table(t)[v].events)
            && (forall p | p != o :: p in t.seat.cursor <==> p in s.seat.cursor)
            && (forall p | p != o :: p in OnOutputs(Table(t)[v].events) <==> p in OnOutputs(Table(s)[v].events))
            && Table(t)[v] == Table(s)[v].(events := Table(t)[v].events)
            && |t.workspaces| == |s.workspaces|
            && forall i | 0 <= i < |s.workspaces| ::
                 t.workspaces[i] == s.workspaces[i].(output := if s.workspaces[i].output == Some(o) then None
                                                               else s.workspaces[i].output)
  {
    hide BonesOk, BonesOf, FocusOk, Notified, AllViews, OnOutputs, WorkspaceOn;
    var t := DestroyOutput(s, o);
    var i := WorkspaceOn(s.workspaces, Some(o));
    DestroyingOutputKeeps(s, o);
    if i < |s.workspaces| {
      NotifiedStays(Table(s), AllViews(s.workspaces[i]), Some(o), None, v);
    }
    ToldOfItsOutput(s, v);
    ToldOfItsOutput(t, v);
    OutputExistsFor(t, v);
  }

  /** A client knows its view on the output of its workspace, if that is on one. */
  lemma ToldOfItsOutput(s: State, v: ViewId)
    requires Inv(s) && v in Table(s)
    ensures OnOutputs(Table(s)[v].events) ==
            OutputSet(if IsMappedView(s, v) then s.workspaces[Home(s, v)].output else None)
  {
    hide Placement, FullscreenOk, Assigned, FocusOk, OnOutputs;
    CoreApart(s, v);
    if Table(s)[v].mapped {
      MappedIsLocated(s, v);
    }
  }

  lemma OutputExistsFor(s: State, v: ViewId)
    requires Inv(s) && v in Table(s)
    ensures IsMappedView(s, v) && s.workspaces[Home(s, v)].output.Some? ==>
              s.workspaces[Home(s, v)].output.value in s.env.outputs
  {
    hide Placement, FullscreenOk, Balanced, FocusOk;
    if IsMappedView(s, v) {
      OutputAt(s, Home(s, v));
    }
  }

  // ---------------------------------------------------------------------------------------
  // How animations start
  // ---------------------------------------------------------------------------------------

  /** Run at once, the task would leave its view right where it is, and go on. */
  ghost predicate StartsHere(views: ViewTable, t: Task, now: Time)
  {
    && t.view in views && !t.cancelled
    && forall duration: int | duration > 0 ::
         Animated(views[t.view], t, now, duration) == views[t.view] && !IsFinished(t, now, duration)
  }

  lemma StartingHere(views: ViewTable, t: Task, now: Time)
    requires t.view in views && !t.cancelled && t.begin == now
    requires t.startX == views[t.view].x && t.startY == views[t.view].y
    ensures StartsHere(views, t, now)
  {
    forall duration: int | duration > 0
      ensures Animated(views[t.view], t, now, duration) == views[t.view] && !IsFinished(t, now, duration)
    {
      InterpolationStartsThere(t.startX, t.targetX, duration);
      InterpolationStartsThere(t.startY, t.targetY, duration);
    }
  }

  ghost predicate AllStartHere(views: ViewTable, tasks: seq<Task>, now: Time)
  {
    forall k | 0 <= k < |tasks| :: StartsHere(views, tasks[k], now)
  }

  lemma {:induction false} ColumnTasksStart(w: WorkspaceState, views: ViewTable, info: OutputInfo, gap: int, now: Time,
                                            c: nat, t: nat)
    requires c < |w.columns| && t <= |w.columns[c]|
    ensures AllStartHere(ArrangedViews(w, views, info, gap, true), ColumnTasks(w, views, info, gap, now, c, t), now)
  {
    hide StartsHere, FindColumn, FindTile, WindowBox;
    if t == 0 {
    } else {
      ColumnTasksStart(w, views, info, gap, now, c, t - 1);
      if IsNormal(views, w.columns[c][t - 1].view) {
        StartingHere(ArrangedViews(w, views, info, gap, true), TileTask(w, views, info, gap, now, c, t - 1)[0], now);
      }
    }
  }

  lemma {:induction false} LayoutTasksStart(w: WorkspaceState, views: ViewTable, info: OutputInfo, gap: int, now: Time,
                                            c: nat)
    requires c <= |w.columns|
    ensures AllStartHere(ArrangedViews(w, views, info, gap, true), LayoutTasks(w, views, info, gap, now, c), now)
  {
    hide StartsHere, ArrangedView, ColumnTasks;
    if c == 0 {
    } else {
      LayoutTasksStart(w, views, info, gap, now, c - 1);
      ColumnTasksStart(w, views, info, gap, now, c - 1, |w.columns[c - 1]|);
    }
  }

  /** Nothing jumps when a layout is animated: each animation that it adds starts where its view is. */
  lemma NothingJumps(w: WorkspaceState, s: Screen, env: Env, animate: bool)
    ensures var r := Arrange(w, s, env, animate);
            s.tasks <= r.tasks && AllStartHere(r.views, r.tasks[|s.tasks|..], env.now)
  {
    hide StartsHere, ArrangedView, LayoutTasks;
    if w.output.Some? && w.output.value in env.outputs && animate && !w.suspendAnimations {
      LayoutTasksStart(w, s.views, env.outputs[w.output.value], env.gap, env.now, |w.columns|);
    }
  }

  lemma {:induction false} SlideTasksStart(views: ViewTable, ids: seq<ViewId>, dy: int, now: Time, callback: Callback)
    ensures AllStartHere(views, SlideTasks(views, ids, dy, now, callback), now)
  {
    hide StartsHere;
    if ids == [] {
    } else {
      var v := ids[|ids| - 1];
      SlideTasksStart(views, ids[..|ids| - 1], dy, now, Silent);
      if v in views {
        StartingHere(views, TaskFor(views, v, views[v].x, views[v].y - dy, now, callback), now);
      }
    }
  }

  /** Nor when workspaces slide: what slides in starts where it was put off to, what slides out where it is. */
  lemma SlidesStartHere(s: Screen, ids: seq<ViewId>, dy: int, now: Time, callback: Callback)
    ensures forall r | r == SlidIn(s, ids, dy, now, callback) || r == SlidOut(s, ids, dy, now, callback) ::
              s.tasks <= r.tasks && AllStartHere(r.views, r.tasks[|s.tasks|..], now)
  {
    hide StartsHere, SlideTasks, PutOff;
    SlideTasksStart(s.views, ids, dy, now, callback);
    SlideTasksStart(PutOff(s.views, ids, dy), ids, dy, now, callback);
  }
}
