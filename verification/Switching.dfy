/** Switching workspaces: the tiles that slide in come to rest where the layout put them. */
module Switching {
  import opened Prelude
  import opened Views
  import opened Columns
  import opened Rearranging
  import opened Layout
  import opened Animation
  import opened AnimationQueue
  import opened Tiling
  import opened Desktop
  import opened Invariants
  import opened Preservation
  import opened Steps
  import opened AnimationRuns
  import opened Focus

  // ---------------------------------------------------------------------------------------
  // Which views slide
  // ---------------------------------------------------------------------------------------

  lemma ConcatCount(a: seq<ViewId>, b: seq<ViewId>, v: ViewId)
    ensures multiset(a + b)[v] == multiset(a)[v] + multiset(b)[v]
  {
  }

  lemma CountInStep(col: Column, t: nat, v: ViewId)
    requires 0 < t <= |col|
    ensures CountIn(col[..t], v) == CountIn(col[..t - 1], v) + if col[t - 1].view == v then 1 else 0
  {
    assert col[..t][..t - 1] == col[..t - 1];
  }

  lemma CountStep(cols: seq<Column>, c: nat, v: ViewId)
    requires 0 < c <= |cols|
    ensures Count(cols[..c], v) == Count(cols[..c - 1], v) + CountIn(cols[c - 1], v)
  {
    assert cols[..c][..c - 1] == cols[..c - 1];
  }

  lemma {:induction false} NormalInCount(col: Column, views: ViewTable, t: nat, v: ViewId)
    requires t <= |col|
    ensures multiset(NormalIn(col, views, t))[v] == if IsNormal(views, v) then CountIn(col[..t], v) else 0
  {
    hide IsNormal, CountIn;
    if t == 0 {
      NothingCounted(v);
    } else {
      NormalInCount(col, views, t - 1, v);
      CountInStep(col, t, v);
      ConcatCount(NormalIn(col, views, t - 1), if IsNormal(views, col[t - 1].view) then [col[t - 1].view] else [], v);
    }
  }

  lemma NothingCounted(v: ViewId)
    ensures CountIn([], v) == 0 && Count([], v) == 0
  {
  }

  /** Every normal tile slides as often as it is tiled. */
  lemma {:induction false} NormalTilesCount(cols: seq<Column>, views: ViewTable, c: nat, v: ViewId)
    requires c <= |cols|
    ensures multiset(NormalTiles(cols, views, c))[v] == if IsNormal(views, v) then Count(cols[..c], v) else 0
  {
    hide IsNormal, NormalIn, CountIn, Count;
    if c == 0 {
      NothingCounted(v);
    } else {
      var col := cols[c - 1];
      NormalTilesCount(cols, views, c - 1, v);
      NormalInCount(col, views, |col|, v);
      assert col[..|col|] == col;
      CountStep(cols, c, v);
      ConcatCount(NormalTiles(cols, views, c - 1), NormalIn(col, views, |col|), v);
    }
  }

  lemma SlidingCount(s: State, n: nat, p: nat, v: ViewId)
    requires n < |s.workspaces| && p < |s.workspaces|
    ensures multiset(Sliding(s, n, p))[v] ==
            (if IsNormal(Table(s), v) then Count(s.workspaces[n].columns, v) else 0)
              + multiset(s.workspaces[p].floating)[v]
  {
    hide IsNormal, Count, NormalTiles;
    var cols := s.workspaces[n].columns;
    NormalTilesCount(cols, Table(s), |cols|, v);
    assert cols[..|cols|] == cols;
  }

  // ---------------------------------------------------------------------------------------
  // Where they slide to
  // ---------------------------------------------------------------------------------------

  lemma {:induction false} PutOffOnce(views: ViewTable, ids: seq<ViewId>, dy: int, v: ViewId)
    requires v in views && multiset(ids)[v] <= 1
    ensures PutOff(views, ids, dy)[v] == if multiset(ids)[v] == 1 then views[v].Move(views[v].x, views[v].y + dy)
            else views[v]
  {
    if ids == [] {
    } else {
      var front := ids[..|ids| - 1];
      assert ids == front + [ids[|ids| - 1]];
      PutOffOnce(views, front, dy, v);
    }
  }

  lemma {:induction false} SlideTaskFor(views: ViewTable, ids: seq<ViewId>, dy: int, now: Time, callback: Callback,
                                        v: ViewId)
    requires v in views
    ensures LastLive(SlideTasks(views, ids, dy, now, callback), v).Some? <==> multiset(ids)[v] > 0
    ensures multiset(ids)[v] > 0 ==>
              var t := LastLive(SlideTasks(views, ids, dy, now, callback), v).value;
              t.targetX == views[v].x && t.targetY == views[v].y - dy
  {
    if ids == [] {
    } else {
      var front := ids[..|ids| - 1];
      var u := ids[|ids| - 1];
      assert ids == front + [u];
      SlideTaskFor(views, front, dy, now, Silent, v);
      if u in views {
        LastLiveAppended(SlideTasks(views, front, dy, now, Silent),
                         TaskFor(views, u, views[u].x, views[u].y - dy, now, callback), v);
      } else {
        NothingAppended(SlideTasks(views, front, dy, now, Silent));
      }
    }
  }

  /** A view that slides in once goes back to where it was; one that does not slide goes on as before. */
  lemma SlidInSettles(s: Screen, ids: seq<ViewId>, dy: int, now: Time, callback: Callback, v: ViewId)
    requires v in s.views && multiset(ids)[v] == 1 && s.views[v].x == s.views[v].targetX
             && s.views[v].y == s.views[v].targetY
    ensures var t := SlidIn(s, ids, dy, now, callback);
            v in t.views && Settling(t.views, t.tasks, v)
  {
    var views := PutOff(s.views, ids, dy);
    PutOffOnce(s.views, ids, dy, v);
    SlideTaskFor(views, ids, dy, now, callback, v);
    LastLiveConcat(s.tasks, SlideTasks(views, ids, dy, now, callback), v);
  }

  lemma SlidOutLeavesAlone(s: Screen, ids: seq<ViewId>, dy: int, now: Time, callback: Callback, v: ViewId)
    requires v in s.views && multiset(ids)[v] == 0 && Settling(s.views, s.tasks, v)
    ensures Settling(SlidOut(s, ids, dy, now, callback).views, SlidOut(s, ids, dy, now, callback).tasks, v)
  {
    SlideTaskFor(s.views, ids, dy, now, callback, v);
    LastLiveConcat(s.tasks, SlideTasks(s.views, ids, dy, now, callback), v);
  }

  /** Being told about outputs moves nobody. */
  lemma {:induction false} NotifiedStays(views: ViewTable, ids: seq<ViewId>, before: Option<OutputId>,
                                         after: Option<OutputId>, v: ViewId)
    requires v in views
    ensures var r := Notified(views, ids, before, after)[v];
            && r == views[v].(events := r.events)
  {
    if ids == [] {
    } else {
      NotifiedStays(views, ids[..|ids| - 1], before, after, v);
    }
  }

  // ---------------------------------------------------------------------------------------
  // The switch
  // ---------------------------------------------------------------------------------------

  /** Workspace n takes over from another workspace, which is on an output. */
  ghost predicate CanTakeOver(s: State, n: nat, p: nat)
  {
    Inv(s) && n < |s.workspaces| && p < |s.workspaces| && n != p && s.workspaces[p].output.Some?
  }

  /** What is known of a normal tile of workspace n while it is not yet sliding. */
  ghost predicate TileAtRest(s: State, n: nat, p: nat, v: ViewId)
  {
    && n < |s.workspaces| && p < |s.workspaces| && v in Table(s) && IsNormal(Table(s), v)
    && Count(s.workspaces[n].columns, v) == 1 && Occurrences(s.workspaces[p], v) == 0
    && Table(s)[v].x == Table(s)[v].targetX && Table(s)[v].y == Table(s)[v].targetY
  }

  lemma SlideInOf(s: State, n: nat, p: nat, o: OutputId, dy: int, v: ViewId)
    requires TileAtRest(s, n, p, v)
    ensures var t := SlideIn(s, n, p, o, dy);
            && v in Table(t) && Settling(Table(t), t.screen.tasks, v) && t.workspaces == s.workspaces
  {
    hide NormalTiles, Count, IsNormal;
    SlidingCount(s, n, p, v);
    CountWithin(s.workspaces[p], v);
    NotFloating(s.workspaces[p], v);
    SlidInSettles(s.screen, Sliding(s, n, p), dy, s.env.now, ArrivalOf(n, o), v);
  }

  lemma NotFloating(w: WorkspaceState, v: ViewId)
    requires Occurrences(w, v) == 0
    ensures multiset(w.floating)[v] == 0 && Count(w.columns, v) == 0
  {
  }

  lemma SlideOutOf(s: State, p: nat, dy: int, v: ViewId)
    requires p < |s.workspaces| && v in Table(s) && Occurrences(s.workspaces[p], v) == 0
             && Settling(Table(s), s.screen.tasks, v)
    ensures var t := SlideOut(s, p, dy);
            v in Table(t) && Settling(Table(t), t.screen.tasks, v)
  {
    hide NormalTiles, Count, IsNormal, Notified, AllViews;
    var w := s.workspaces[p];
    SlidingCount(s, p, p, v);
    NotFloating(w, v);
    SlidOutLeavesAlone(s.screen, Sliding(s, p, p), dy, s.env.now, DepartureOf(p), v);
    NotifiedStays(Table(s), AllViews(w), w.output, None, v);
  }

  lemma ArrangedAtRest(s: State, n: nat, p: nat, v: ViewId)
    requires CanTakeOver(s, n, p) && Located(s, v) && IsNormal(Table(s), v) && Home(s, v) == n
             && v !in s.workspaces[n].floating
    ensures TileAtRest(Entered(s, n, p), n, p, v)
  {
    hide FullscreenOk, Balanced, FocusOk, Occurrences, Count, Notified, AllViews, LayoutTasks;
    PlacedIsDistinct(s, n);
    PlacedIsDistinct(s, p);
    OutputAt(s, p);
    var o := s.workspaces[p].output.value;
    var w := s.workspaces[n];
    OnlyTiled(w, v);
    NotifiedStays(Table(s), AllViews(w), w.output, Some(o), v);
    var views := Notified(Table(s), AllViews(w), w.output, Some(o));
    UnanimatedAtRest(w.(output := Some(o)), views, s.env.outputs[o], s.env.gap, v);
  }

  lemma OnlyTiled(w: WorkspaceState, v: ViewId)
    requires Occurrences(w, v) == 1 && v !in w.floating
    ensures Count(w.columns, v) == 1 && FindColumn(w.columns, v) < |w.columns|
  {
    FindColumnIsMembership(w.columns, v);
  }

  /** A layout without animation leaves a normal tile where it should be. */
  lemma UnanimatedAtRest(w: WorkspaceState, views: ViewTable, info: OutputInfo, gap: int, v: ViewId)
    requires v in views && IsNormal(views, v) && FindColumn(w.columns, v) < |w.columns|
    ensures var r := ArrangedViews(w, views, info, gap, false);
            r[v].x == r[v].targetX && r[v].y == r[v].targetY && IsNormal(r, v)
  {
    hide WindowBox, FindTile;
    TileFound(w.columns[FindColumn(w.columns, v)], v);
    ArrangingKeepsSizes(w, views, info, gap, false);
  }

  /** After a switch every normal tile of the workspace that comes in is on its way to exactly the place
      where the layout put it. */
  lemma SwitchSettles(s: State, n: nat, p: nat, v: ViewId)
    requires CanTakeOver(s, n, p) && v in Table(s) && IsNormal(Table(s), v) && Home(s, v) == n
             && v !in s.workspaces[n].floating
    requires Located(s, v)
    ensures var t := TakeOver(s, n, p);
            v in Table(t) && Settling(Table(t), t.screen.tasks, v)
  {
    hide Inv, Entered, SlideIn, SlideOut, Settling, Occurrences, Count;
    var dy := SlideBy(s, n, p);
    var o := s.workspaces[p].output.value;
    ArrangedAtRest(s, n, p, v);
    SlideInOf(Entered(s, n, p), n, p, o, dy, v);
    SlideOutOf(SlideIn(Entered(s, n, p), n, p, o, dy), p, dy, v);
  }

  /** The views of the workspace that goes out are still where they were when the other one has been put on the
      output. */
  lemma StillThere(s: State, n: nat, p: nat, v: ViewId)
    requires CanTakeOver(s, n, p) && Occurrences(s.workspaces[p], v) == 1 && v in Table(s)
    ensures var t := Entered(s, n, p);
            && t.workspaces[p] == s.workspaces[p] && |t.workspaces| == |s.workspaces| && v in Table(t)
            && SamePlace(Table(t)[v], Table(s)[v]) && IsNormal(Table(t), v) == IsNormal(Table(s), v)
            && Count(t.workspaces[n].columns, v) == 0
  {
    hide Balanced, FocusOk, Occurrences, Count, Notified, AllViews, LayoutTasks, FindColumn, FindTile, WindowBox,
      BonesOf;
    PlacedIsDistinct(s, n);
    PlacedIsDistinct(s, p);
    OnlyDueIn(s, n, p, v);
    var w := s.workspaces[n];
    NotFloating(w, v);
    FindColumnIsMembership(w.columns, v);
    NotifiedStays(Table(s), AllViews(w), w.output, s.workspaces[p].output, v);
  }

  lemma OnlyDueIn(s: State, n: nat, p: nat, v: ViewId)
    requires FullscreenOk(BonesOf(s)) && n < |s.workspaces| && p < |s.workspaces| && n != p
             && Due(BonesOf(s), p, v) == 1
    ensures Due(BonesOf(s), n, v) == 0 && s.workspaces[n].fullscreen != Some(v)
  {
    FullscreenAt(s, n);
    assert BonesOf(s).ws[n].fullscreen == Some(v) ==> Due(BonesOf(s), n, v) == 1;
  }

  /** After a switch the last animation of a floating view of the workspace that goes out ends where the view was,
      since the code has it slide in and out again; that of a normal tile ends as far away as the switch slides. */
  lemma SwitchedAway(s: State, n: nat, p: nat, v: ViewId)
    requires CanTakeOver(s, n, p) && v in Table(s) && Occurrences(s.workspaces[p], v) == 1
    requires v in s.workspaces[p].floating || IsNormal(Table(s), v)
    ensures var last := LastLive(TakeOver(s, n, p).screen.tasks, v);
            && last.Some? && last.value.targetX == Table(s)[v].x
            && last.value.targetY == Table(s)[v].y - if v in s.workspaces[p].floating then 0 else SlideBy(s, n, p)
  {
    hide Inv, Entered, Occurrences, Count, NormalTiles, SlideTasks, PutOff, LastLive, IsNormal, Deactivate;
    StillThere(s, n, p, v);
    var o := s.workspaces[p].output.value;
    var dy := SlideBy(s, n, p);
    var w := s.workspaces[p];
    var s2 := Entered(s, n, p);
    OneSide(w, v);
    SlidingCount(s2, n, p, v);
    PutOffOnce(Table(s2), Sliding(s2, n, p), dy, v);
    var s3 := SlideIn(s2, n, p, o, dy);
    SlidingCount(s3, p, p, v);
    SlideTaskFor(Table(s3), Sliding(s3, p, p), dy, s3.env.now, DepartureOf(p), v);
    LastLiveConcat(s3.screen.tasks, SlideTasks(Table(s3), Sliding(s3, p, p), dy, s3.env.now, DepartureOf(p)), v);
    MovedIsNormal(Table(s2), Table(s3), v);
  }

  /** Before they move, the tiles of the workspace that goes out are where they were. */
  lemma OutgoingStays(s: State, n: nat, p: nat, v: ViewId)
    requires CanTakeOver(s, n, p) && v in Table(s) && Occurrences(s.workspaces[p], v) == 1
    requires v !in s.workspaces[p].floating
    ensures var t := TakeOver(s, n, p);
            v in Table(t) && SamePlace(Table(t)[v], Table(s)[v])
  {
    hide Inv, Entered, Occurrences, Count, NormalTiles, SlideTasks, PutOff, IsNormal, Notified, AllViews;
    StillThere(s, n, p, v);
    var o := s.workspaces[p].output.value;
    var dy := SlideBy(s, n, p);
    var w := s.workspaces[p];
    var s2 := Entered(s, n, p);
    OneSide(w, v);
    SlidingCount(s2, n, p, v);
    PutOffOnce(Table(s2), Sliding(s2, n, p), dy, v);
    NotifiedStays(Table(SlideIn(s2, n, p, o, dy)), AllViews(w), w.output, None, v);
  }

  lemma OneSide(w: WorkspaceState, v: ViewId)
    requires Occurrences(w, v) == 1
    ensures multiset(w.floating)[v] == (if v in w.floating then 1 else 0)
            && Count(w.columns, v) == 1 - multiset(w.floating)[v]
  {
  }

  lemma MovedIsNormal(a: ViewTable, b: ViewTable, v: ViewId)
    requires v in a && v in b && b[v] == a[v].Move(b[v].x, b[v].y)
    ensures IsNormal(a, v) == IsNormal(b, v)
  {
  }

  // ---------------------------------------------------------------------------------------
  // Which way they slide
  // ---------------------------------------------------------------------------------------

  /** From top to bottom the window of a view at height y lies within an area. */
  predicate WithinHeight(area: Box, y: int, geometry: Box)
  {
    area.y <= y + geometry.y && y + geometry.y + geometry.height <= area.y + area.height
  }

  predicate Above(area: Box, y: int, geometry: Box)
  {
    y + geometry.y + geometry.height <= area.y
  }

  predicate Below(area: Box, y: int, geometry: Box)
  {
    area.y + area.height <= y + geometry.y
  }

  /** The usable area of the output that is taken over. */
  function AreaTaken(s: State, p: nat): Box
    requires p < |s.workspaces| && s.workspaces[p].output.Some? && s.workspaces[p].output.value in s.env.outputs
  {
    RealUsableArea(s.env.outputs[s.workspaces[p].output.value])
  }

  lemma NumberedByPlace(s: State, n: nat, p: nat)
    requires CanTakeOver(s, n, p)
    ensures s.workspaces[n].index == n && s.workspaces[p].index == p
    ensures s.workspaces[p].output.value in s.env.outputs
  {
    hide FullscreenOk, Balanced, FocusOk, Occurrences;
    IndexIsPlace(s, n);
    IndexIsPlace(s, p);
    OutputAt(s, p);
  }

  /** A tile of the workspace that goes out slides out of the usable area completely: up if the new workspace has the
      higher number, and down if not. */
  lemma OutgoingLeavesTheScreen(s: State, n: nat, p: nat, v: ViewId)
    requires CanTakeOver(s, n, p) && v in Table(s) && Occurrences(s.workspaces[p], v) == 1
    requires v !in s.workspaces[p].floating && IsNormal(Table(s), v)
    ensures s.workspaces[p].output.value in s.env.outputs
    ensures var last := LastLive(TakeOver(s, n, p).screen.tasks, v);
            && last.Some? && last.value.targetX == Table(s)[v].x
            && (WithinHeight(AreaTaken(s, p), Table(s)[v].y, Table(s)[v].geometry) ==>
                  if p < n then Above(AreaTaken(s, p), last.value.targetY, Table(s)[v].geometry)
                  else Below(AreaTaken(s, p), last.value.targetY, Table(s)[v].geometry))
  {
    hide Inv, TakeOver, Occurrences, LastLive, IsNormal;
    NumberedByPlace(s, n, p);
    SwitchedAway(s, n, p, v);
  }

  /** A tile of the workspace that comes in starts outside of it, on the other side. */
  lemma IncomingStartsOutside(s: State, n: nat, p: nat, v: ViewId)
    requires CanTakeOver(s, n, p) && Located(s, v) && IsNormal(Table(s), v) && Home(s, v) == n
             && v !in s.workspaces[n].floating
    ensures s.workspaces[p].output.value in s.env.outputs
    ensures var t := TakeOver(s, n, p);
            && v in Table(t) && Table(t)[v].x == Table(t)[v].targetX
            && (WithinHeight(AreaTaken(s, p), Table(t)[v].targetY, Table(t)[v].geometry) ==>
                  if p < n then Below(AreaTaken(s, p), Table(t)[v].y, Table(t)[v].geometry)
                  else Above(AreaTaken(s, p), Table(t)[v].y, Table(t)[v].geometry))
  {
    hide Inv, Entered, Occurrences, Count, NormalTiles, SlideTasks, PutOff, IsNormal, Notified, AllViews;
    NumberedByPlace(s, n, p);
    ArrangedAtRest(s, n, p, v);
    var o := s.workspaces[p].output.value;
    var dy := SlideBy(s, n, p);
    var s2 := Entered(s, n, p);
    var s3 := SlideIn(s2, n, p, o, dy);
    SlidingCount(s2, n, p, v);
    NotFloating(s2.workspaces[p], v);
    PutOffOnce(Table(s2), Sliding(s2, n, p), dy, v);
    var w := s3.workspaces[p];
    NotifiedStays(Table(s3), AllViews(w), w.output, None, v);
  }
}
