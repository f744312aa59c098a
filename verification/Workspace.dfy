/** A workspace as the compositor keeps it: fields that its methods update in place. Every method
    is tied to the function of the same operation in module Tiling. */
module WorkspaceModule {
  import opened Prelude
  import opened Views
  import opened Columns
  import opened Rearranging
  import opened Layout
  import opened Scrolling
  import opened Animation
  import opened AnimationQueue
  import opened Tiling

  // ---------------------------------------------------------------------------------------
  // Iterating over the mapped and normal tiles of a column
  // ---------------------------------------------------------------------------------------

  /** No tile of the stretch from i to j takes part in the layout. */
  ghost predicate Skippable(col: Column, views: ViewTable, i: int, j: int)
  {
    0 <= i <= j <= |col| && forall k | i <= k < j :: !IsNormal(views, col[k].view)
  }

  predicate AtTileOrEnd(col: Column, views: ViewTable, i: nat)
  {
    i == |col| || (i < |col| && IsNormal(views, col[i].view))
  }

  /** `operator++`. */
  method NextTile(col: Column, views: ViewTable, i: nat) returns (j: nat)
    requires i < |col|
    ensures i < j <= |col| && AtTileOrEnd(col, views, j) && Skippable(col, views, i + 1, j)
  {
    j := i + 1;
    while j != |col| && !IsNormal(views, col[j].view)
      invariant i < j <= |col| && Skippable(col, views, i + 1, j)
    {
      j := j + 1;
    }
  }

  /** `begin`, which looks at the front tile without asking whether there is one. */
  method BeginTiles(col: Column, views: ViewTable) returns (i: nat)
    requires col != []
    ensures i <= |col| && AtTileOrEnd(col, views, i) && Skippable(col, views, 0, i)
  {
    i := 0;
    if !IsNormal(views, col[0].view) {
      i := NextTile(col, views, 0);
    }
  }

  lemma {:induction false} SkippedSums(col: Column, views: ViewTable, info: OutputInfo, gap: int, i: nat, j: nat)
    requires Skippable(col, views, i, j)
    ensures ScaleUpTo(col, views, i) == ScaleUpTo(col, views, j)
    ensures WidthUpTo(col, views, i) == WidthUpTo(col, views, j)
    ensures YUpTo(col, views, info, gap, i) == YUpTo(col, views, info, gap, j)
    ensures LastWidth(col, views, i) == LastWidth(col, views, j)
  {
    if i == j {
    } else {
      SkippedSums(col, views, info, gap, i, j - 1);
    }
  }

  lemma {:induction false} SkippedTasks(w: WorkspaceState, views: ViewTable, info: OutputInfo, gap: int, now: Time,
                                        c: nat, i: nat, j: nat)
    requires c < |w.columns| && Skippable(w.columns[c], views, i, j)
    ensures ColumnTasks(w, views, info, gap, now, c, i) == ColumnTasks(w, views, info, gap, now, c, j)
  {
    if i == j {
    } else {
      SkippedTasks(w, views, info, gap, now, c, i, j - 1);
    }
  }

  // ---------------------------------------------------------------------------------------
  // How far a layout pass has got
  // ---------------------------------------------------------------------------------------

  /** v, when the tiles before tile t of column c have been dealt with. */
  function PartArranged(w: WorkspaceState, views: ViewTable, info: OutputInfo, gap: int, animated: bool, v: ViewId,
                        c: nat, t: nat): View
    requires v in views
  {
    var d := FindColumn(w.columns, v);
    if d < |w.columns| && (d < c || (d == c && FindTile(w.columns[d], v) < t))
    then ArrangedView(w, views, info, gap, animated, v)
    else BeforeTiling(w, views, info, v)
  }

  ghost predicate Progress(at: ViewTable, w: WorkspaceState, views: ViewTable, info: OutputInfo, gap: int,
                           animated: bool, c: nat, t: nat)
  {
    && at.Keys == views.Keys
    && forall v | v in views :: at[v] == PartArranged(w, views, info, gap, animated, v, c, t)
  }

  lemma PartArrangedKeepsSize(w: WorkspaceState, views: ViewTable, info: OutputInfo, gap: int, animated: bool,
                              v: ViewId, c: nat, t: nat)
    requires v in views
    ensures var p := PartArranged(w, views, info, gap, animated, v, c, t);
            p.geometry == views[v].geometry && p.mapped == views[v].mapped && p.expansion == views[v].expansion
  {
  }

  lemma ProgressKeepsSizes(at: ViewTable, w: WorkspaceState, views: ViewTable, info: OutputInfo, gap: int,
                           animated: bool, c: nat, t: nat)
    requires Progress(at, w, views, info, gap, animated, c, t)
    ensures SameSizes(views, at)
  {
    forall v | v in views
      ensures views[v].geometry == at[v].geometry && IsNormal(views, v) == IsNormal(at, v)
    {
      PartArrangedKeepsSize(w, views, info, gap, animated, v, c, t);
    }
  }

  lemma ProgressSkips(at: ViewTable, w: WorkspaceState, views: ViewTable, info: OutputInfo, gap: int, animated: bool,
                      c: nat, i: nat, j: nat)
    requires c < |w.columns| && Skippable(w.columns[c], views, i, j)
    requires Progress(at, w, views, info, gap, animated, c, i)
    ensures Progress(at, w, views, info, gap, animated, c, j)
  {
    forall v | v in views
      ensures at[v] == PartArranged(w, views, info, gap, animated, v, c, j)
    {
      assert at[v] == PartArranged(w, views, info, gap, animated, v, c, i);
      var d := FindColumn(w.columns, v);
      if d == c && i <= FindTile(w.columns[d], v) < j {
        assert w.columns[d][FindTile(w.columns[d], v)].view == v;
        assert !IsNormal(views, v);
      }
    }
  }

  lemma ProgressOverTile(at: ViewTable, w: WorkspaceState, views: ViewTable, info: OutputInfo, gap: int, animated: bool,
                         c: nat, t: nat)
    requires Distinct(w.columns) && c < |w.columns| && t < |w.columns[c]|
    requires IsNormal(views, w.columns[c][t].view)
    requires Progress(at, w, views, info, gap, animated, c, t)
    ensures var v := w.columns[c][t].view;
            && v in at && at[v] == BeforeTiling(w, views, info, v)
            && Progress(at[v := Placed(at[v], WindowBox(w, views, info, gap, c, t), animated)], w, views, info, gap,
                        animated, c, t + 1)
  {
    hide WindowBox, Placed, Covering, Distinct, FindColumn, FindTile;
    var v := w.columns[c][t].view;
    FindAt(w.columns, c, t);
    assert at[v] == PartArranged(w, views, info, gap, animated, v, c, t);
    forall u | u in views && u != v
      ensures at[u] == PartArranged(w, views, info, gap, animated, u, c, t + 1)
    {
      assert at[u] == PartArranged(w, views, info, gap, animated, u, c, t);
    }
  }

  lemma ProgressNextColumn(at: ViewTable, w: WorkspaceState, views: ViewTable, info: OutputInfo, gap: int,
                           animated: bool, c: nat)
    requires c < |w.columns| && Progress(at, w, views, info, gap, animated, c, |w.columns[c]|)
    ensures Progress(at, w, views, info, gap, animated, c + 1, 0)
  {
    forall v | v in views
      ensures at[v] == PartArranged(w, views, info, gap, animated, v, c + 1, 0)
    {
      assert at[v] == PartArranged(w, views, info, gap, animated, v, c, |w.columns[c]|);
    }
  }

  lemma ProgressComplete(at: ViewTable, w: WorkspaceState, views: ViewTable, info: OutputInfo, gap: int, animated: bool)
    requires Progress(at, w, views, info, gap, animated, |w.columns|, 0)
    ensures at == ArrangedViews(w, views, info, gap, animated)
  {
    forall v | v in views
      ensures at[v] == ArrangedView(w, views, info, gap, animated, v)
    {
      assert at[v] == PartArranged(w, views, info, gap, animated, v, |w.columns|, 0);
    }
  }

  // ---------------------------------------------------------------------------------------
  // The workspace
  // ---------------------------------------------------------------------------------------

  /** The state all workspaces share. */
  function ScreenOf(surfaces: SurfaceManager, animation: ViewAnimation): Screen
    reads surfaces, animation
  {
    Screen(surfaces.views, animation.tasks, surfaces.fault)
  }

  class Workspace {
    var columns: seq<Column>
    var floatingViews: seq<ViewId>
    var output: Option<OutputId>
    var fullscreenView: Option<ViewId>
    var scrollX: int
    var suspendAnimations: bool
    const index: int

    constructor (index: int)
      ensures State() == WorkspaceState([], [], None, None, index, 0, false)
    {
      this.index := index;
      columns, floatingViews, output, fullscreenView := [], [], None, None;
      scrollX, suspendAnimations := 0, false;
    }

    function State(): WorkspaceState
      reads this
    {
      WorkspaceState(columns, floatingViews, output, fullscreenView, index, scrollX, suspendAnimations)
    }

    ghost predicate Valid(views: ViewTable, env: Env)
      reads this
    {
      WellFormed(State(), views, env)
    }

    /** `find_column`: the column that holds the view, or the end. */
    method FindColumnOf(v: Option<ViewId>) returns (c: nat)
      ensures c == if v.Some? then FindColumn(columns, v.value) else |columns|
    {
      c := 0;
      while c < |columns|
        invariant c <= |columns|
        invariant v.Some? ==> forall d | 0 <= d < c :: !HasView(columns[d], v.value)
      {
        for t := 0 to |columns[c]|
          invariant v.Some? ==> forall u | 0 <= u < t :: columns[c][u].view != v.value
        {
          if Some(columns[c][t].view) == v {
            assert HasView(columns[c], v.value);
            return;
          }
        }
        c := c + 1;
      }
    }

    /** `get_view_wx`. */
    method GetViewWx(surfaces: SurfaceManager, env: Env, v: ViewId) returns (wx: int)
      requires NoEmptyColumn(columns) && v in surfaces.views
      ensures wx == ViewWx(columns, surfaces.views, env.gap, v)
    {
      hide YUpTo, ScaleUpTo, WidthUpTo, TileHeight;
      var views := surfaces.views;
      wx := 0;
      for c := 0 to |columns|
        invariant wx == WxUpTo(columns, views, env.gap, c)
        invariant IsNormal(views, v) ==> forall d | 0 <= d < c :: !HasView(columns[d], v)
      {
        var col := columns[c];
        var reference: Option<ViewId> := None;
        var t := BeginTiles(col, views);
        SkippedSums(col, views, OutputInfo(Box(0, 0, 0, 0), Box(0, 0, 0, 0)), env.gap, 0, t);
        while t != |col|
          invariant t <= |col| && AtTileOrEnd(col, views, t)
          invariant reference.Some? ==> reference.value in views
          invariant LastWidth(col, views, t) == if reference.Some? then Some(views[reference.value].geometry.width)
                    else None
          invariant IsNormal(views, v) ==> forall u | 0 <= u < t :: col[u].view != v
          decreases |col| - t
        {
          if col[t].view == v {
            assert HasView(columns[c], v);
            return;
          }
          reference := Some(col[t].view);
          var next := NextTile(col, views, t);
          SkippedSums(col, views, OutputInfo(Box(0, 0, 0, 0), Box(0, 0, 0, 0)), env.gap, t + 1, next);
          t := next;
        }
        if reference.Some? {
          wx := wx + (views[reference.value].geometry.width + env.gap);
        }
      }
    }

    /** `arrange_workspace`. */
    method ArrangeWorkspace(surfaces: SurfaceManager, animation: ViewAnimation, env: Env, animate: bool)
      requires Valid(surfaces.views, env)
      modifies surfaces`views, animation`tasks
      ensures ScreenOf(surfaces, animation) == Arrange(State(), old(ScreenOf(surfaces, animation)), env, animate)
      ensures Valid(surfaces.views, env)
    {
      WellFormedTiles(State(), surfaces.views, env);
      if output.Some? {
        ArrangeOn(surfaces, animation, env.outputs[output.value], env, animate && !suspendAnimations);
        SameKeysWellFormed(State(), old(surfaces.views), surfaces.views, env);
      }
    }

    method ArrangeOn(surfaces: SurfaceManager, animation: ViewAnimation, info: OutputInfo, env: Env, animated: bool)
      requires Distinct(columns) && NoEmptyColumn(columns)
      requires fullscreenView.Some? ==> fullscreenView.value in surfaces.views
      modifies surfaces`views, animation`tasks
      ensures surfaces.views == ArrangedViews(State(), old(surfaces.views), info, env.gap, animated)
      ensures animation.tasks == Queued(old(animation.tasks), animated,
                                        LayoutTasks(State(), old(surfaces.views), info, env.gap, env.now, |columns|))
    {
      hide Progress, ArrangedViews, LayoutTasks, Queued, ColumnsDone, Distinct;
      ghost var views := surfaces.views;
      ghost var tasks := animation.tasks;
      CoverOutput(surfaces, info, env, animated);
      ColumnsDoneFirst(surfaces.views, tasks, State(), views, info, env, animated);
      var accWidth := 0;
      for c := 0 to |columns|
        invariant ColumnsDone(surfaces.views, animation.tasks, tasks, State(), views, info, env, animated, c, accWidth)
      {
        var width := ArrangeColumn(surfaces, animation, info, env, animated, c, accWidth, views, tasks);
        accWidth := accWidth + (width + env.gap);
      }
      ColumnsDoneAll(surfaces.views, animation.tasks, tasks, State(), views, info, env, animated, accWidth);
    }

    method CoverOutput(surfaces: SurfaceManager, info: OutputInfo, env: Env, animated: bool)
      requires fullscreenView.Some? ==> fullscreenView.value in surfaces.views
      modifies surfaces`views
      ensures Progress(surfaces.views, State(), old(surfaces.views), info, env.gap, animated, 0, 0)
    {
      if fullscreenView.Some? {
        var f := surfaces.views[fullscreenView.value];
        f := f.Move(info.box.x - f.geometry.x, info.box.y - f.geometry.y);
        f := f.Resize(info.box.width, info.box.height);
        surfaces.views := surfaces.views[fullscreenView.value := f];
      }
    }

    /** One column of the layout: the weights are summed up first, then the tiles are placed. */
    method ArrangeColumn(surfaces: SurfaceManager, animation: ViewAnimation, info: OutputInfo, env: Env, animated: bool,
                         c: nat, accWidth: int, ghost views: ViewTable, ghost tasks: seq<Task>)
      returns (maxWidth: int)
      requires c < |columns| && Distinct(columns) && columns[c] != []
      requires ColumnsDone(surfaces.views, animation.tasks, tasks, State(), views, info, env, animated, c, accWidth)
      modifies surfaces`views, animation`tasks
      ensures ColumnsDone(surfaces.views, animation.tasks, tasks, State(), views, info, env, animated, c + 1,
                          accWidth + (maxWidth + env.gap))
    {
      ghost var w := State();
      ghost var columnTasks := animation.tasks;
      var col := columns[c];
      var scaleSum := SumScales(col, surfaces.views);
      ScalesDuringPass(surfaces.views, w, views, info, env.gap, animated, c, 0);
      maxWidth := 0;
      var currentY := info.box.y + info.usable.y + env.gap;
      var t := BeginTiles(col, surfaces.views);
      TilesDoneFirst(surfaces.views, columnTasks, w, views, info, env, animated, c, t);
      while t != |col|
        invariant t <= |col|
        invariant TilesDone(surfaces.views, animation.tasks, columnTasks, w, views, info, env, animated, c, t, maxWidth,
                            currentY)
        decreases |col| - t
      {
        t, maxWidth, currentY :=
          StepTile(surfaces, animation, info, env, animated, c, t, accWidth, scaleSum, maxWidth, currentY, columnTasks,
                   views);
      }
      ColumnsDoneNext(surfaces.views, animation.tasks, columnTasks, tasks, w, views, info, env, animated, c, accWidth,
                      maxWidth, currentY);
    }

    /** The body of the tile loop: one tile is placed, and the iterator goes on to the next. */
    method StepTile(surfaces: SurfaceManager, animation: ViewAnimation, info: OutputInfo, env: Env, animated: bool,
                    c: nat, t: nat, accWidth: int, scaleSum: real, maxWidth: int, currentY: int,
                    ghost tasks: seq<Task>, ghost views: ViewTable)
      returns (next: nat, maxWidth': int, currentY': int)
      requires Distinct(columns) && c < |columns| && t < |columns[c]|
      requires accWidth == XUpTo(columns, views, env.gap, c)
      requires scaleSum == ScaleUpTo(columns[c], views, |columns[c]|)
      requires TilesDone(surfaces.views, animation.tasks, tasks, State(), views, info, env, animated, c, t, maxWidth,
                         currentY)
      modifies surfaces`views, animation`tasks
      ensures t < next <= |columns[c]|
      ensures TilesDone(surfaces.views, animation.tasks, tasks, State(), views, info, env, animated, c, next, maxWidth',
                        currentY')
    {
      var width, height :=
        ArrangeTile(surfaces, animation, info, env, animated, c, t, accWidth, currentY, scaleSum, views);
      maxWidth' := Max(maxWidth, width);
      currentY' := currentY + (height + env.gap);
      next := NextTile(columns[c], surfaces.views, t);
      TilesDoneNext(surfaces.views, old(animation.tasks), tasks, State(), views, info, env, animated, c, t, maxWidth,
                    currentY, next);
    }

    method ArrangeTile(surfaces: SurfaceManager, animation: ViewAnimation, info: OutputInfo, env: Env, animated: bool,
                       c: nat, t: nat, accWidth: int, currentY: int, scaleSum: real, ghost views: ViewTable)
      returns (width: int, height: int)
      requires Distinct(columns) && c < |columns| && t < |columns[c]| && IsNormal(views, columns[c][t].view)
      requires accWidth == XUpTo(columns, views, env.gap, c)
      requires currentY == info.box.y + info.usable.y + env.gap + YUpTo(columns[c], views, info, env.gap, t)
      requires scaleSum == ScaleUpTo(columns[c], views, |columns[c]|)
      requires Progress(surfaces.views, State(), views, info, env.gap, animated, c, t)
      modifies surfaces`views, animation`tasks
      ensures width == views[columns[c][t].view].geometry.width
      ensures height == TileHeight(columns[c], views, info, env.gap, t)
      ensures Progress(surfaces.views, State(), views, info, env.gap, animated, c, t + 1)
      ensures animation.tasks ==
              Queued(old(animation.tasks), animated, TileTask(State(), views, info, env.gap, env.now, c, t))
    {
      ProgressOverTile(surfaces.views, State(), views, info, env.gap, animated, c, t);
      var v := columns[c][t].view;
      width := surfaces.views[v].geometry.width;
      height := Trunc(Share(SharedHeight(info, env.gap, |columns[c]|) as real, columns[c][t].scale, scaleSum));
      assert WindowBox(State(), views, info, env.gap, c, t) ==
          Box(info.box.x + accWidth - scrollX, currentY, width, height);
      PlaceTile(surfaces, animation, v, info.box.x + accWidth - scrollX, currentY, height, animated, env.now);
    }

    /** The target of one tile, the animation that takes its view there (or the jump), and its height. */
    method PlaceTile(surfaces: SurfaceManager, animation: ViewAnimation, v: ViewId, x: int, y: int, height: int,
                     animated: bool, now: Time)
      requires v in surfaces.views
      modifies surfaces`views, animation`tasks
      ensures var before := old(surfaces.views)[v];
              var after := Placed(before, Box(x, y, before.geometry.width, height), animated);
              && surfaces.views == old(surfaces.views)[v := after]
              && animation.tasks == Queued(old(animation.tasks), animated,
                                           [Task(v, before.x, before.y, after.targetX, after.targetY, now, false)])
    {
      var view := surfaces.views[v];
      view := view.(targetX := x - view.geometry.x, targetY := y - view.geometry.y);
      surfaces.views := surfaces.views[v := view];
      if animated {
        animation.EnqueueTask(surfaces, v, view.targetX, view.targetY, now);
      } else {
        view := view.(x := view.targetX, y := view.targetY);
      }
      surfaces.views := surfaces.views[v := view.Resize(view.geometry.width, height)];
    }

    method SumScales(col: Column, views: ViewTable) returns (sum: real)
      requires col != []
      ensures sum == ScaleUpTo(col, views, |col|)
    {
      var info := OutputInfo(Box(0, 0, 0, 0), Box(0, 0, 0, 0));
      sum := 0.0;
      var t := BeginTiles(col, views);
      SkippedSums(col, views, info, 0, 0, t);
      while t != |col|
        invariant t <= |col| && AtTileOrEnd(col, views, t)
        invariant sum == ScaleUpTo(col, views, t)
        decreases |col| - t
      {
        sum := sum + col[t].scale;
        var next := NextTile(col, views, t);
        SkippedSums(col, views, info, 0, t + 1, next);
        t := next;
      }
    }

    /** `find_floating`: the position of the view in the floating list, or its end. */
    method FindFloating(v: Option<ViewId>) returns (i: nat)
      ensures i == if v.Some? then IndexOf(floatingViews, v.value) else |floatingViews|
    {
      i := 0;
      while i < |floatingViews| && Some(floatingViews[i]) != v
        invariant i <= |floatingViews|
        invariant v.Some? ==> forall j | 0 <= j < i :: floatingViews[j] != v.value
      {
        i := i + 1;
      }
    }

    /** `add_view`. */
    method AddView(surfaces: SurfaceManager, animation: ViewAnimation, env: Env,
                   v: ViewId, nextTo: Option<ViewId>, floating: bool, transferring: bool)
      requires Valid(surfaces.views, env) && v in surfaces.views && Occurrences(State(), v) == 0
      modifies this, surfaces`views, animation`tasks
      ensures (State(), ScreenOf(surfaces, animation)) ==
              Tiling.AddView(old(State()), old(ScreenOf(surfaces, animation)), env, v, nextTo, floating, transferring)
      ensures Valid(surfaces.views, env)
    {
      hide WellFormed, Occurrences, Arrange, WithView, View.ChangeOutput;
      WellFormedWithView(State(), surfaces.views, env, v, nextTo, floating);
      ghost var w0, s0 := State(), ScreenOf(surfaces, animation);
      Place(v, nextTo, floating);
      if !transferring {
        surfaces.views := surfaces.views[v := surfaces.views[v].(workspaceId := index).ChangeOutput(None, output)];
      }
      ghost var w, s := State(), ScreenOf(surfaces, animation);
      assert w == WithView(w0, v, nextTo, floating);
      assert s == if transferring then s0
          else s0.(views := s0.views[v := s0.views[v].(workspaceId := w0.index).ChangeOutput(None, w0.output)]);
      SameKeysWellFormed(w, old(surfaces.views), s.views, env);
      ArrangeWorkspace(surfaces, animation, env, true);
      assert ScreenOf(surfaces, animation) == Arrange(w, s, env, true);
    }

    method Place(v: ViewId, nextTo: Option<ViewId>, floating: bool)
      modifies this`columns, this`floatingViews
      ensures State() == WithView(old(State()), v, nextTo, floating)
    {
      if floating {
        InsertFloating(v, nextTo);
      } else {
        EmplaceColumn(v, nextTo);
      }
    }

    method InsertFloating(v: ViewId, nextTo: Option<ViewId>)
      modifies this`floatingViews
      ensures floatingViews == FloatingAfter(old(floatingViews), v, nextTo)
    {
      var i := FindFloating(nextTo);
      if i != |floatingViews| {
        i := i + 1;
      }
      floatingViews := floatingViews[..i] + [v] + floatingViews[i..];
    }

    /** A new column is put in place first, and gets its tile then. */
    method EmplaceColumn(v: ViewId, nextTo: Option<ViewId>)
      modifies this`columns
      ensures columns == AddColumn(old(columns), v, nextTo)
    {
      var c := FindColumnOf(nextTo);
      if c != |columns| {
        c := c + 1;
      }
      var before, after := columns[..c], columns[c..];
      var column: Column := [];
      columns := before + [column] + after;
      column := column + [NewTile(v)];
      assert column == [NewTile(v)];
      columns := columns[c := column];
      assert columns == before + [[NewTile(v)]] + after;
    }

    /** `remove_view`. */
    method RemoveView(surfaces: SurfaceManager, animation: ViewAnimation, env: Env, v: ViewId, transferring: bool)
      requires Valid(surfaces.views, env) && v in surfaces.views
      modifies this, surfaces`views, animation`tasks
      ensures (State(), ScreenOf(surfaces, animation)) ==
              RemoveFromWorkspace(old(State()), old(ScreenOf(surfaces, animation)), env, v, transferring)
      ensures Valid(surfaces.views, env)
    {
      hide WellFormed, Occurrences, Arrange, Columns.RemoveView, Without, View.ChangeOutput;
      WellFormedDismissed(State(), surfaces.views, env, v);
      WellFormedWithoutView(State(), surfaces.views, env, v);
      WellFormedWithoutView(Dismissed(State(), v), surfaces.views, env, v);
      ghost var w0, s0 := State(), ScreenOf(surfaces, animation);
      if !transferring {
        if fullscreenView == Some(v) {
          fullscreenView := None;
        }
        surfaces.views := surfaces.views[v := surfaces.views[v].ChangeOutput(output, None)];
      }
      RemoveFromColumns(v);
      floatingViews := Without(floatingViews, v);
      ghost var w, s := State(), ScreenOf(surfaces, animation);
      assert w == WithoutView(if transferring then w0 else Dismissed(w0, v), v);
      assert s == if transferring then s0 else s0.(views := s0.views[v := s0.views[v].ChangeOutput(w0.output, None)]);
      SameKeysWellFormed(w, s0.views, s.views, env);
      ArrangeWorkspace(surfaces, animation, env, true);
      assert ScreenOf(surfaces, animation) == Arrange(w, s, env, true);
    }

    method RemoveFromColumns(v: ViewId)
      modifies this`columns
      ensures columns == Columns.RemoveView(old(columns), v)
    {
      var c := FindColumnOf(Some(v));
      if c != |columns| {
        var before, after, left := columns[..c], columns[c + 1..], RemoveTile(columns[c], v);
        columns := columns[c := left];
        if left == [] {
          columns := columns[..c] + columns[c + 1..];
          assert columns == before + after;
        } else {
          assert columns == before + [left] + after;
        }
      }
    }

    /** `insert_into_column`: v leaves its column for the bottom of column c and takes its width. */
    method InsertIntoColumn(surfaces: SurfaceManager, animation: ViewAnimation, env: Env, v: ViewId, c: nat)
      requires Valid(surfaces.views, env) && c < |columns|
      requires FindColumn(columns, v) < |columns| && FindColumn(columns, v) != c && v in surfaces.views
      modifies this, surfaces`views, animation`tasks
      ensures (State(), ScreenOf(surfaces, animation)) ==
              InsertView(old(State()), old(ScreenOf(surfaces, animation)), env, v, c)
      ensures Valid(surfaces.views, env)
    {
      hide WellFormed, Arrange, Transferred, FindColumn, Columns.InsertIntoColumn, Without, Occurrences;
      ghost var w0, s0 := State(), ScreenOf(surfaces, animation);
      WellFormedInserted(w0, s0.views, env, v, c);
      TransferredShape(w0, s0, env, v, c);
      TransferTo(surfaces, animation, env, v, c);
      ghost var w, s := State(), ScreenOf(surfaces, animation);
      assert (w, s) == Transferred(w0, s0, env, v, c);
      SameKeysWellFormed(w, s0.views, s.views, env);
      ArrangeWorkspace(surfaces, animation, env, true);
    }

    method TransferTo(surfaces: SurfaceManager, animation: ViewAnimation, env: Env, v: ViewId, c: nat)
      requires Valid(surfaces.views, env) && c < |columns|
      requires FindColumn(columns, v) < |columns| && FindColumn(columns, v) != c && v in surfaces.views
      modifies this, surfaces`views, animation`tasks
      ensures (State(), ScreenOf(surfaces, animation)) ==
              Transferred(old(State()), old(ScreenOf(surfaces, animation)), env, v, c)
    {
      hide WellFormed, Arrange, WithoutView, View.ChangeOutput, Columns.RemoveView, FindColumn, IndexAfterRemoval,
        WidthUpTo, RemoveFromWorkspace;
      NotEmptyAt(State(), surfaces.views, env, c);
      RemovalKeepsIndex(columns, v, c);
      ghost var w0, s0 := State(), ScreenOf(surfaces, animation);
      RemovedColumns(w0, s0, env, v);
      var at := IndexAfterRemoval(columns, v, c);
      var maxWidth := MaxWidth(columns[c], surfaces.views);
      RemoveView(surfaces, animation, env, v, true);
      ghost var r := RemoveFromWorkspace(w0, s0, env, v, true);
      TakeIn(surfaces, v, at, maxWidth);
      assert State() == r.0.(columns := Columns.InsertIntoColumn(w0.columns, v, c));
      assert ScreenOf(surfaces, animation) ==
          r.1.(views := r.1.views[v := r.1.views[v].(geometry := r.1.views[v].geometry.(width := maxWidth))]);
    }

    /** v becomes the bottom tile of a column. Its width is set by hand, as if its client had done it. */
    method TakeIn(surfaces: SurfaceManager, v: ViewId, at: nat, width: int)
      requires at < |columns| && v in surfaces.views
      modifies this`columns, surfaces`views
      ensures columns == old(columns)[..at] + [old(columns)[at] + [NewTile(v)]] + old(columns)[at + 1..]
      ensures surfaces.views ==
              old(surfaces.views)[v :=
                                  old(surfaces.views)[v].(geometry := old(surfaces.views)[v].geometry.(width := width))]
    {
      columns := columns[..at] + [columns[at] + [NewTile(v)]] + columns[at + 1..];
      surfaces.views := surfaces.views[v :=
                                       surfaces.views[v].(geometry := surfaces.views[v].geometry.(width := width))];
    }

    method MaxWidth(col: Column, views: ViewTable) returns (width: int)
      requires col != []
      ensures width == WidthUpTo(col, views, |col|)
    {
      var info := OutputInfo(Box(0, 0, 0, 0), Box(0, 0, 0, 0));
      width := 0;
      var t := BeginTiles(col, views);
      SkippedSums(col, views, info, 0, 0, t);
      while t != |col|
        invariant t <= |col| && AtTileOrEnd(col, views, t)
        invariant width == WidthUpTo(col, views, t)
        decreases |col| - t
      {
        width := Max(width, views[col[t].view].geometry.width);
        var next := NextTile(col, views, t);
        SkippedSums(col, views, info, 0, t + 1, next);
        t := next;
      }
    }

    /** `pop_from_column`. */
    method PopFromColumn(surfaces: SurfaceManager, animation: ViewAnimation, env: Env, c: nat)
      requires Valid(surfaces.views, env) && c < |columns|
      requires forall t | 0 <= t < |columns[c]| :: columns[c][t].view in surfaces.views
      modifies this, surfaces`views, animation`tasks
      ensures (State(), ScreenOf(surfaces, animation)) ==
              PopColumn(old(State()), old(ScreenOf(surfaces, animation)), env, c)
      ensures Valid(surfaces.views, env)
    {
      var column := columns[c];
      if |column| < 2 {
        return;
      }
      ghost var w0, s0 := State(), ScreenOf(surfaces, animation);
      var toPop, nextTo := column[|column| - 1].view, column[0].view;
      WellFormedWithoutView(w0, s0.views, env, toPop);
      hide WellFormed, Occurrences, Arrange, WithView, WithoutView, View.ChangeOutput;
      RemoveView(surfaces, animation, env, toPop, true);
      ghost var w1, s1 := State(), ScreenOf(surfaces, animation);
      assert (w1, s1) == RemoveFromWorkspace(w0, s0, env, toPop, true);
      assert w1 == WithoutView(w0, toPop);
      AddView(surfaces, animation, env, toPop, Some(nextTo), false, true);
      ghost var w2, s2 := State(), ScreenOf(surfaces, animation);
      assert (w2, s2) == Tiling.AddView(w1, s1, env, toPop, Some(nextTo), false, true);
      ArrangeWorkspace(surfaces, animation, env, true);
      assert ScreenOf(surfaces, animation) == Arrange(w2, s2, env, true);
    }

    /** `fit_view_on_screen`. */
    method FitViewOnScreen(surfaces: SurfaceManager, animation: ViewAnimation, env: Env, v: ViewId, condense: bool)
      requires Valid(surfaces.views, env) && v in surfaces.views
      modifies this`scrollX, surfaces`views, animation`tasks
      ensures (State(), ScreenOf(surfaces, animation)) ==
              FitView(old(State()), old(ScreenOf(surfaces, animation)), env, v, condense)
      ensures Valid(surfaces.views, env)
    {
      hide Arrange, ViewWx, Occurrences;
      if !IsNormal(surfaces.views, v) {
        return;
      }
      var c := FindColumnOf(Some(v));
      if c == |columns| || output.None? {
        return;
      }
      var info := env.outputs[output.value];
      var wx := GetViewWx(surfaces, env, v);
      ghost var w0, s0 := State(), ScreenOf(surfaces, animation);
      scrollX := NewScroll(surfaces.views[v], info, env.gap, condense, c, wx);
      ghost var w := State();
      assert w == w0.(scrollX := FitScroll(w0, s0.views, info, env.gap, v, condense));
      WellFormedScrolled(w0, w, s0.views, env);
      ArrangeWorkspace(surfaces, animation, env, true);
      assert ScreenOf(surfaces, animation) == Arrange(w, s0, env, true);
    }

    method NewScroll(view: View, info: OutputInfo, gap: int, condense: bool, c: nat, wx: int) returns (scroll: int)
      requires c < |columns|
      ensures scroll == ScrollFor(State(), view, info, gap, condense, c, wx)
    {
      var area := info.usable;
      var vx := view.targetX + view.geometry.x;
      var overflowing := vx < 0 || view.targetX + view.geometry.x + view.geometry.width > area.x + area.width;
      scroll := scrollX;
      if condense && c == 0 {
        scroll := -area.x - Quotient(gap, 2);
      } else if condense && c == |columns| - 1 {
        scroll := wx + view.geometry.width - (area.x + area.width) + Quotient(gap, 2);
      } else if overflowing && vx < info.box.x + area.x {
        scroll := wx - area.x - Quotient(gap, 2);
      } else if overflowing && vx + view.geometry.width >= info.box.x + area.x + area.width {
        scroll := wx + view.geometry.width - (area.x + area.width) + Quotient(gap, 2);
      }
    }

    /** `set_fullscreen_view`. */
    method SetFullscreenView(surfaces: SurfaceManager, animation: ViewAnimation, env: Env, v: Option<ViewId>)
      requires Valid(surfaces.views, env) && (v.Some? ==> v.value in surfaces.views)
      modifies this`fullscreenView, surfaces, animation`tasks
      ensures (State(), ScreenOf(surfaces, animation)) ==
              SetFullscreen(old(State()), old(ScreenOf(surfaces, animation)), env, v)
      ensures Valid(surfaces.views, env)
    {
      ghost var w0, s0 := State(), ScreenOf(surfaces, animation);
      assert fullscreenView.Some? ==> fullscreenView.value in surfaces.views;
      if fullscreenView.Some? {
        LeaveFullscreen(surfaces, animation, fullscreenView.value);
      }
      ghost var s1 := ScreenOf(surfaces, animation);
      assert s1 == if w0.fullscreen.Some? then ExitFullscreen(s0, w0.fullscreen.value) else s0;
      if v.Some? {
        SaveAndExpand(surfaces, animation, v.value);
      }
      ghost var s2 := ScreenOf(surfaces, animation);
      assert s2 == if v.Some? then EnterFullscreen(s1, v.value) else s1;
      fullscreenView := v;
      ghost var w := State();
      WellFormedFullscreen(w0, s0.views, s2.views, env, v);
      hide WellFormed, Occurrences, Arrange, ExitFullscreen, EnterFullscreen;
      assert w == w0.(fullscreen := v);
      ArrangeWorkspace(surfaces, animation, env, true);
      assert ScreenOf(surfaces, animation) == Arrange(w, s2, env, true);
    }

    static method LeaveFullscreen(surfaces: SurfaceManager, animation: ViewAnimation, v: ViewId)
      requires v in surfaces.views
      modifies surfaces
      ensures ScreenOf(surfaces, animation) == ExitFullscreen(old(ScreenOf(surfaces, animation)), v)
    {
      var view := surfaces.views[v];
      if view.saved.None? {
        surfaces.fault := true;
      } else {
        var saved := view.saved.value;
        view := view.(expansion := Recovering);
        view := view.Move(saved.x, saved.y);
        view := view.Resize(saved.width, saved.height);
        surfaces.views := surfaces.views[v := view.(saved := None)];
      }
    }

    static method SaveAndExpand(surfaces: SurfaceManager, animation: ViewAnimation, v: ViewId)
      requires v in surfaces.views
      modifies surfaces
      ensures ScreenOf(surfaces, animation) == EnterFullscreen(old(ScreenOf(surfaces, animation)), v)
    {
      var view := surfaces.views[v];
      if !(view.saved.None? && view.expansion == Normal) {
        surfaces.fault := true;
      } else {
        view := view.(saved := Some(SavedState(view.x, view.y, view.geometry.width, view.geometry.height)));
        surfaces.views := surfaces.views[v := view.(expansion := Fullscreen)];
      }
    }

    /** `activate`. */
    method Activate(surfaces: SurfaceManager, animation: ViewAnimation, newOutput: OutputId)
      requires ViewsKnown(State(), surfaces.views)
      modifies this`output, surfaces`views
      ensures (State(), ScreenOf(surfaces, animation)) ==
              Tiling.Activate(old(State()), old(ScreenOf(surfaces, animation)), newOutput)
    {
      ghost var views := surfaces.views;
      NotifyAll(surfaces, output, Some(newOutput));
      output := Some(newOutput);
    }

    /** `deactivate`. */
    method Deactivate(surfaces: SurfaceManager, animation: ViewAnimation)
      requires ViewsKnown(State(), surfaces.views)
      modifies this`output, surfaces`views
      ensures (State(), ScreenOf(surfaces, animation)) ==
              Tiling.Deactivate(old(State()), old(ScreenOf(surfaces, animation)))
    {
      if output.None? {
        return;
      }
      NotifyAll(surfaces, output, None);
      output := None;
    }

    method NotifyColumn(surfaces: SurfaceManager, before: Option<OutputId>, after: Option<OutputId>, c: nat,
                        ghost views: ViewTable)
      requires c < |columns| && ViewsKnown(State(), views)
      requires |TiledViews(columns, c)| <= |AllViews(State())|
      requires surfaces.views == Notified(views, AllViews(State())[..|TiledViews(columns, c)|], before, after)
      modifies surfaces`views
      ensures |TiledViews(columns, c + 1)| <= |AllViews(State())|
      ensures surfaces.views == Notified(views, AllViews(State())[..|TiledViews(columns, c + 1)|], before, after)
    {
      hide Notified, AllViews, TiledViews, View.ChangeOutput;
      ghost var all, done := AllViews(State()), |TiledViews(columns, c)|;
      ColumnInAll(State(), c);
      for t := 0 to |columns[c]|
        invariant surfaces.views == Notified(views, all[..done + t], before, after)
      {
        TileInAll(State(), c, t);
        NotifiedNext(views, all, before, after, done + t);
        var v := columns[c][t].view;
        surfaces.views := surfaces.views[v := surfaces.views[v].ChangeOutput(before, after)];
      }
    }

    /** The loops over all tiles and all floating views that tell them about the change. */
    method NotifyAll(surfaces: SurfaceManager, before: Option<OutputId>, after: Option<OutputId>)
      requires ViewsKnown(State(), surfaces.views)
      modifies surfaces`views
      ensures surfaces.views == Notified(old(surfaces.views), AllViews(State()), before, after)
    {
      ghost var views := surfaces.views;
      ghost var all := AllViews(State());
      assert |TiledViews(columns, 0)| == 0 && Notified(views, all[..0], before, after) == views;
      for c := 0 to |columns|
        invariant |TiledViews(columns, c)| <= |all|
        invariant surfaces.views == Notified(views, all[..|TiledViews(columns, c)|], before, after)
      {
        NotifyColumn(surfaces, before, after, c, views);
      }
      NotifyFloating(surfaces, before, after, views);
    }

    method NotifyFloating(surfaces: SurfaceManager, before: Option<OutputId>, after: Option<OutputId>,
                          ghost views: ViewTable)
      requires ViewsKnown(State(), views) && |TiledViews(columns, |columns|)| <= |AllViews(State())|
      requires surfaces.views == Notified(views, AllViews(State())[..|TiledViews(columns, |columns|)|], before, after)
      modifies surfaces`views
      ensures surfaces.views == Notified(views, AllViews(State()), before, after)
    {
      hide Notified, TiledViews, View.ChangeOutput;
      ghost var all, done := AllViews(State()), |TiledViews(columns, |columns|)|;
      for i := 0 to |floatingViews|
        invariant surfaces.views == Notified(views, all[..done + i], before, after)
      {
        FloatingInAll(State(), i);
        NotifiedNext(views, all, before, after, done + i);
        surfaces.views := surfaces.views[floatingViews[i] :=
                                         surfaces.views[floatingViews[i]].ChangeOutput(before, after)];
      }
      assert all[..done + |floatingViews|] == all;
    }
  }

  lemma NotEmptyAt(w: WorkspaceState, views: ViewTable, env: Env, c: nat)
    requires WellFormed(w, views, env) && c < |w.columns|
    ensures w.columns[c] != []
  {
    hide Occurrences;
  }

  lemma RemovalKeepsIndex(cols: seq<Column>, v: ViewId, c: nat)
    requires c < |cols| && FindColumn(cols, v) != c
    ensures 0 <= IndexAfterRemoval(cols, v, c) < |Columns.RemoveView(cols, v)|
  {
  }

  lemma RemovedColumns(w: WorkspaceState, s: Screen, env: Env, v: ViewId)
    requires v in s.views
    ensures RemoveFromWorkspace(w, s, env, v, true).0.columns == Columns.RemoveView(w.columns, v)
    ensures v in RemoveFromWorkspace(w, s, env, v, true).1.views
  {
    hide Arrange, Columns.RemoveView;
  }

  lemma TransferredShape(w: WorkspaceState, s: Screen, env: Env, v: ViewId, c: nat)
    requires v in s.views && c < |w.columns| && FindColumn(w.columns, v) < |w.columns| && FindColumn(w.columns, v) != c
    requires Without(w.floating, v) == w.floating
    ensures var (w', s') := Transferred(w, s, env, v, c);
            w' == w.(columns := Columns.InsertIntoColumn(w.columns, v, c)) && s'.views.Keys == s.views.Keys
  {
    hide Arrange, Columns.InsertIntoColumn, Columns.RemoveView, WidthUpTo, FindColumn;
  }

  lemma SameKeysWellFormed(w: WorkspaceState, a: ViewTable, b: ViewTable, env: Env)
    requires WellFormed(w, a, env) && a.Keys == b.Keys
    ensures WellFormed(w, b, env)
  {
  }

  lemma SkippableElsewhere(col: Column, a: ViewTable, b: ViewTable, i: nat, j: nat)
    requires SameSizes(a, b) && Skippable(col, b, i, j) && AtTileOrEnd(col, b, j)
    ensures Skippable(col, a, i, j) && AtTileOrEnd(col, a, j)
  {
    forall k | i <= k <= j && k < |col|
      ensures IsNormal(a, col[k].view) == IsNormal(b, col[k].view)
    {
      if col[k].view in a {
        assert IsNormal(a, col[k].view) == IsNormal(b, col[k].view);
      }
    }
  }

  /** What holds when the tiles before tile t of column c have been placed and t is the next normal
      tile, or the end. */
  ghost predicate TilesDone(at: ViewTable, tasksAt: seq<Task>, tasks: seq<Task>, w: WorkspaceState, views: ViewTable,
                            info: OutputInfo, env: Env, animated: bool, c: nat, t: nat, maxWidth: int, currentY: int)
    requires c < |w.columns| && t <= |w.columns[c]|
  {
    && AtTileOrEnd(w.columns[c], views, t)
    && maxWidth == WidthUpTo(w.columns[c], views, t)
    && currentY == info.box.y + info.usable.y + env.gap + YUpTo(w.columns[c], views, info, env.gap, t)
    && Progress(at, w, views, info, env.gap, animated, c, t)
    && tasksAt == Queued(tasks, animated, ColumnTasks(w, views, info, env.gap, env.now, c, t))
  }

  lemma TilesDoneFirst(at: ViewTable, tasks: seq<Task>, w: WorkspaceState, views: ViewTable, info: OutputInfo, env: Env,
                       animated: bool,
                       c: nat, t: nat)
    requires c < |w.columns| && Progress(at, w, views, info, env.gap, animated, c, 0)
    requires Skippable(w.columns[c], at, 0, t) && AtTileOrEnd(w.columns[c], at, t)
    ensures TilesDone(at, tasks, tasks, w, views, info, env, animated, c, t, 0, info.box.y + info.usable.y + env.gap)
  {
    QueuedTwice(tasks, animated, [], []);
    SkipTo(at, w, views, info, env.gap, env.now, animated, c, 0, t);
  }

  /** What holds when the columns before column c have been laid out. */
  ghost predicate ColumnsDone(at: ViewTable, tasksAt: seq<Task>, tasks: seq<Task>, w: WorkspaceState, views: ViewTable,
                              info: OutputInfo, env: Env, animated: bool, c: nat, accWidth: int)
    requires c <= |w.columns|
  {
    && accWidth == XUpTo(w.columns, views, env.gap, c)
    && Progress(at, w, views, info, env.gap, animated, c, 0)
    && tasksAt == Queued(tasks, animated, LayoutTasks(w, views, info, env.gap, env.now, c))
  }

  lemma ColumnsDoneFirst(at: ViewTable, tasks: seq<Task>, w: WorkspaceState, views: ViewTable, info: OutputInfo,
                         env: Env, animated: bool)
    requires Progress(at, w, views, info, env.gap, animated, 0, 0)
    ensures ColumnsDone(at, tasks, tasks, w, views, info, env, animated, 0, 0)
  {
    QueuedTwice(tasks, animated, [], []);
  }

  lemma ColumnsDoneAll(at: ViewTable, tasksAt: seq<Task>, tasks: seq<Task>, w: WorkspaceState, views: ViewTable,
                       info: OutputInfo, env: Env, animated: bool, accWidth: int)
    requires ColumnsDone(at, tasksAt, tasks, w, views, info, env, animated, |w.columns|, accWidth)
    ensures at == ArrangedViews(w, views, info, env.gap, animated)
    ensures tasksAt == Queued(tasks, animated, LayoutTasks(w, views, info, env.gap, env.now, |w.columns|))
  {
    hide ArrangedViews;
    ProgressComplete(at, w, views, info, env.gap, animated);
  }

  lemma ColumnsDoneNext(at: ViewTable, tasksAt: seq<Task>, columnTasks: seq<Task>, tasks: seq<Task>, w: WorkspaceState,
                        views: ViewTable,
                        info: OutputInfo, env: Env, animated: bool, c: nat, accWidth: int, maxWidth: int, currentY: int)
    requires c < |w.columns|
    requires accWidth == XUpTo(w.columns, views, env.gap, c)
    requires columnTasks == Queued(tasks, animated, LayoutTasks(w, views, info, env.gap, env.now, c))
    requires TilesDone(at, tasksAt, columnTasks, w, views, info, env, animated, c, |w.columns[c]|, maxWidth, currentY)
    ensures ColumnsDone(at, tasksAt, tasks, w, views, info, env, animated, c + 1, accWidth + (maxWidth + env.gap))
  {
    QueuedTwice(tasks, animated, LayoutTasks(w, views, info, env.gap, env.now, c),
                ColumnTasks(w, views, info, env.gap, env.now, c, |w.columns[c]|));
    ProgressNextColumn(at, w, views, info, env.gap, animated, c);
  }

  /** The sums after one more tile. */
  lemma TilesDoneNext(at: ViewTable, tasksAt: seq<Task>, tasks: seq<Task>, w: WorkspaceState, views: ViewTable,
                      info: OutputInfo,
                      env: Env, animated: bool, c: nat, t: nat, maxWidth: int, currentY: int, next: nat)
    requires c < |w.columns| && t < |w.columns[c]| && IsNormal(views, w.columns[c][t].view)
    requires maxWidth == WidthUpTo(w.columns[c], views, t)
    requires currentY == info.box.y + info.usable.y + env.gap + YUpTo(w.columns[c], views, info, env.gap, t)
    requires tasksAt == Queued(tasks, animated, ColumnTasks(w, views, info, env.gap, env.now, c, t))
    requires Progress(at, w, views, info, env.gap, animated, c, t + 1)
    requires Skippable(w.columns[c], at, t + 1, next) && AtTileOrEnd(w.columns[c], at, next)
    ensures TilesDone(at, Queued(tasksAt, animated, TileTask(w, views, info, env.gap, env.now, c, t)), tasks, w, views,
                      info, env,
                      animated, c, next, Max(maxWidth, views[w.columns[c][t].view].geometry.width),
                      currentY + (TileHeight(w.columns[c], views, info, env.gap, t) + env.gap))
  {
    hide TileHeight, WidthUpTo, YUpTo, ColumnTasks, TileTask, Progress, Skippable, Queued, IsNormal;
    SumsNext(w, views, info, env.gap, env.now, c, t);
    QueuedTwice(tasks, animated, ColumnTasks(w, views, info, env.gap, env.now, c, t),
                TileTask(w, views, info, env.gap, env.now, c, t));
    SkipTo(at, w, views, info, env.gap, env.now, animated, c, t + 1, next);
  }

  lemma SumsNext(w: WorkspaceState, views: ViewTable, info: OutputInfo, gap: int, now: Time, c: nat, t: nat)
    requires c < |w.columns| && t < |w.columns[c]| && IsNormal(views, w.columns[c][t].view)
    ensures var col := w.columns[c];
            && WidthUpTo(col, views, t + 1) == Max(WidthUpTo(col, views, t), views[col[t].view].geometry.width)
            && YUpTo(col, views, info, gap, t + 1) ==
               YUpTo(col, views, info, gap, t) + (TileHeight(col, views, info, gap, t) + gap)
            && ColumnTasks(w, views, info, gap, now, c, t + 1) ==
               ColumnTasks(w, views, info, gap, now, c, t) + TileTask(w, views, info, gap, now, c, t)
  {
  }

  lemma ScalesDuringPass(at: ViewTable, w: WorkspaceState, views: ViewTable, info: OutputInfo, gap: int, animated: bool,
                         c: nat, t: nat)
    requires c < |w.columns| && Progress(at, w, views, info, gap, animated, c, t)
    ensures ScaleUpTo(w.columns[c], at, |w.columns[c]|) == ScaleUpTo(w.columns[c], views, |w.columns[c]|)
  {
    ProgressKeepsSizes(at, w, views, info, gap, animated, c, t);
    SameSizesAnywhere(views, at, w.columns);
    SameSums(w.columns[c], views, at, |w.columns[c]|);
  }

  /** Going on to the next normal tile changes none of the sums. */
  lemma SkipTo(at: ViewTable, w: WorkspaceState, views: ViewTable, info: OutputInfo, gap: int, now: Time,
               animated: bool, c: nat, i: nat, j: nat)
    requires c < |w.columns| && Progress(at, w, views, info, gap, animated, c, i)
    requires Skippable(w.columns[c], at, i, j) && AtTileOrEnd(w.columns[c], at, j)
    ensures AtTileOrEnd(w.columns[c], views, j)
    ensures WidthUpTo(w.columns[c], views, i) == WidthUpTo(w.columns[c], views, j)
    ensures YUpTo(w.columns[c], views, info, gap, i) == YUpTo(w.columns[c], views, info, gap, j)
    ensures ColumnTasks(w, views, info, gap, now, c, i) == ColumnTasks(w, views, info, gap, now, c, j)
    ensures Progress(at, w, views, info, gap, animated, c, j)
  {
    ProgressKeepsSizes(at, w, views, info, gap, animated, c, i);
    SkippableElsewhere(w.columns[c], views, at, i, j);
    SkippedSums(w.columns[c], views, info, gap, i, j);
    SkippedTasks(w, views, info, gap, now, c, i, j);
    ProgressSkips(at, w, views, info, gap, animated, c, i, j);
  }
}
