/** A view that becomes fullscreen and stops being so finds its place in the layout again. */
module RoundTrip {
  import opened Prelude
  import opened Views
  import opened Columns
  import opened Rearranging
  import opened Layout
  import opened AnimationQueue
  import opened Tiling
  import opened Desktop
  import opened Invariants
  import opened Steps

  /** Where the layout wants a view, and how tall. */
  function Aim(v: View): (int, int, int, int)
  {
    (v.targetX, v.targetY, v.targetWidth, v.targetHeight)
  }

  /** The same tiles take part in the layout, with the same targets and requested sizes. */
  ghost predicate SameTiling(w: WorkspaceState, a: ViewTable, b: ViewTable)
  {
    forall v | FindColumn(w.columns, v) < |w.columns| ::
      IsNormal(a, v) == IsNormal(b, v) && (IsNormal(a, v) ==> Aim(a[v]) == Aim(b[v]))
  }

  /** The aims of a layout depend on the sizes of the views only. */
  lemma SameAims(w: WorkspaceState, a: ViewTable, b: ViewTable, info: OutputInfo, gap: int, animated: bool)
    requires SameSizes(a, b)
    ensures SameTiling(w, ArrangedViews(w, a, info, gap, animated), ArrangedViews(w, b, info, gap, animated))
  {
    hide FindColumn, ArrangedView;
    ArrangingKeepsSizes(w, a, info, gap, animated);
    ArrangingKeepsSizes(w, b, info, gap, animated);
    forall v | FindColumn(w.columns, v) < |w.columns| && v in a && IsNormal(a, v)
      ensures Aim(ArrangedViews(w, a, info, gap, animated)[v]) == Aim(ArrangedViews(w, b, info, gap, animated)[v])
    {
      SameAim(w, a, b, info, gap, animated, v);
    }
  }

  lemma SameAim(w: WorkspaceState, a: ViewTable, b: ViewTable, info: OutputInfo, gap: int, animated: bool, v: ViewId)
    requires SameSizes(a, b) && FindColumn(w.columns, v) < |w.columns| && v in a && IsNormal(a, v)
    ensures Aim(ArrangedView(w, a, info, gap, animated, v)) == Aim(ArrangedView(w, b, info, gap, animated, v))
  {
    hide WindowBox, FindColumn, FindTile;
    var c := FindColumn(w.columns, v);
    TileFound(w.columns[c], v);
    SameSizesAnywhere(a, b, w.columns);
    SameWindowBox(w, a, b, info, gap, c, FindTile(w.columns[c], v));
  }

  /** Only v may differ in size, and in whether it takes part. */
  ghost predicate SameSizesBut(a: ViewTable, b: ViewTable, v: ViewId)
  {
    && a.Keys == b.Keys
    && forall u | u in a && u != v :: a[u].geometry == b[u].geometry && IsNormal(a, u) == IsNormal(b, u)
  }

  /** What happens to the sizes when workspace i is laid out with v changed to view. */
  lemma PutAndArranged(w: WorkspaceState, s: Screen, env: Env, v: ViewId, view: View)
    requires v in s.views
    ensures var r := Arrange(w, s.(views := s.views[v := view]), env, true);
            && SameSizesBut(s.views, r.views, v)
            && r.views[v].geometry == view.geometry && CoreOf(r.views[v]) == CoreOf(view)
            && (view.expansion != Normal && w.fullscreen != Some(v) ==> r.views[v] == view)
  {
    hide LayoutTasks, FindColumn, FindTile, WindowBox, CoreOf;
    var s1 := s.(views := s.views[v := view]);
    ArrangeKeeps(w, s1, env, true);
    CoresAt(s1.views, v);
    CoresAt(Arrange(w, s1, env, true).views, v);
  }

  lemma SameSizesButTransitive(a: ViewTable, b: ViewTable, c: ViewTable, v: ViewId)
    requires SameSizesBut(a, b, v) && SameSizesBut(b, c, v)
    ensures SameSizesBut(a, c, v)
  {
  }

  /** On which output workspace i is laid out. */
  predicate Visible(s: State, i: nat)
  {
    i < |s.workspaces| && s.workspaces[i].output.Some? && s.workspaces[i].output.value in s.env.outputs
  }

  lemma Requested(s: State, v: ViewId)
    requires Located(s, v) && CanSave(Table(s)[v]) && s.workspaces[Home(s, v)].fullscreen == None
    ensures var t := RequestFullscreen(s, v, true);
            var old' := Table(s)[v];
            && t.workspaces == s.workspaces[Home(s, v) := s.workspaces[Home(s, v)].(fullscreen := Some(v))]
               && t.env == s.env
            && SameSizesBut(Table(s), Table(t), v)
            && Table(t)[v].geometry == old'.geometry && CoreOf(Table(t)[v]) == CoreOf(Fullscreened(old'))
  {
    hide Arrange;
    var i := Home(s, v);
    PutAndArranged(s.workspaces[i].(fullscreen := Some(v)), s.screen, s.env, v, Fullscreened(Table(s)[v]));
  }

  lemma Unrequested(s: State, v: ViewId)
    requires Located(s, v) && Table(s)[v].saved.Some? && s.workspaces[Home(s, v)].fullscreen == Some(v)
    ensures var t := RequestFullscreen(s, v, false);
            && t.workspaces == s.workspaces[Home(s, v) := s.workspaces[Home(s, v)].(fullscreen := None)]
               && t.env == s.env
            && SameSizesBut(Table(s), Table(t), v)
            && Table(t)[v] == Unfullscreened(Table(s)[v])
  {
    hide Arrange;
    var i := Home(s, v);
    PutAndArranged(s.workspaces[i].(fullscreen := None), s.screen, s.env, v, Unfullscreened(Table(s)[v]));
  }

  lemma Committed(s: State, v: ViewId, geometry: Box)
    requires Located(s, v)
    ensures var t := Commit(s, v, geometry);
            && t.workspaces == s.workspaces && t.env == s.env && SameSizesBut(Table(s), Table(t), v) && v in Table(t)
            && Table(t)[v].geometry == geometry
            && CoreOf(Table(t)[v]) ==
               CoreOf(if geometry == Table(s)[v].geometry then Table(s)[v] else Table(s)[v].Recover())
            && t == if geometry == Table(s)[v].geometry then s
                    else ArrangeIn(WithTable(s, Table(s)[v := Table(s)[v].(geometry := geometry).Recover()]),
                                   Home(s, v))
  {
    hide Arrange;
    PutAndArranged(s.workspaces[Home(s, v)], s.screen, s.env, v, Table(s)[v].(geometry := geometry).Recover());
  }

  // ---------------------------------------------------------------------------------------
  // Fullscreen and back
  // ---------------------------------------------------------------------------------------

  /** The client takes one size after the other. */
  function Commits(s: State, v: ViewId, sizes: seq<Box>): State
  {
    if sizes == [] then s else Commit(Commits(s, v, sizes[..|sizes| - 1]), v, sizes[|sizes| - 1])
  }

  function LastOf(size: Box, sizes: seq<Box>): Box
  {
    if sizes == [] then size else sizes[|sizes| - 1]
  }

  /** One of the sizes is not this one. */
  ghost predicate Another(sizes: seq<Box>, size: Box)
  {
    exists k :: 0 <= k < |sizes| && sizes[k] != size
  }

  lemma AnotherOfMore(front: seq<Box>, last: Box, size: Box)
    ensures Another(front + [last], size) <==> Another(front, size) || last != size
    ensures !Another(front, size) ==> LastOf(size, front) == size
  {
    var sizes := front + [last];
    assert sizes[|front|] == last;
    if k :| 0 <= k < |front| && front[k] != size {
      assert sizes[k] != size;
    }
  }

  /** The four steps: the view becomes fullscreen, its client takes some sizes, it stops being fullscreen, and its
      client takes some more sizes and then its old one again. */
  function Expanded(s: State, v: ViewId, sizes: seq<Box>): State
  {
    Commits(RequestFullscreen(s, v, true), v, sizes)
  }

  function Contracted(s: State, v: ViewId, sizes: seq<Box>): State
  {
    RequestFullscreen(Expanded(s, v, sizes), v, false)
  }

  function Recovered(s: State, v: ViewId, sizes: seq<Box>, more: seq<Box>): State
    requires v in Table(s)
  {
    Commits(Contracted(s, v, sizes), v, more + [Table(s)[v].geometry])
  }

  /** A normal view of a workspace that is on an output and has no fullscreen view. */
  ghost predicate CanTrip(s: State, v: ViewId)
  {
    && Located(s, v) && Table(s)[v].mapped && CanSave(Table(s)[v])
    && s.workspaces[Home(s, v)].fullscreen == None && Visible(s, Home(s, v))
  }

  lemma SameSizesDomain(a: ViewTable, b: ViewTable, v: ViewId)
    requires SameSizesBut(a, b, v)
    ensures a.Keys == b.Keys
  {
  }

  /** A fullscreen view stays fullscreen and keeps its saved state, whatever sizes its client takes. */
  lemma {:induction false} CommitsWhileFullscreen(s: State, v: ViewId, sizes: seq<Box>)
    requires Located(s, v) && Table(s)[v].expansion == Fullscreen
    ensures var t := Commits(s, v, sizes);
            && t.workspaces == s.workspaces && t.env == s.env && SameSizesBut(Table(s), Table(t), v) && v in Table(t)
            && Table(t)[v].geometry == LastOf(Table(s)[v].geometry, sizes)
            && CoreOf(Table(t)[v]) == CoreOf(Table(s)[v])
  {
    hide Commit, SameSizesBut;
    if sizes == [] {
      SameSizesItself(Table(s), v);
    } else {
      var front := Commits(s, v, sizes[..|sizes| - 1]);
      CommitsWhileFullscreen(s, v, sizes[..|sizes| - 1]);
      Committed(front, v, sizes[|sizes| - 1]);
      var t := Commits(s, v, sizes);
      SameSizesButTransitive(Table(s), Table(front), Table(t), v);
    }
  }

  lemma SameSizesItself(a: ViewTable, v: ViewId)
    ensures SameSizesBut(a, a, v)
  {
  }

  /** When the view is no longer fullscreen it has its saved position and requested size back, but does
      not take part in the layout yet. */
  lemma ContractedView(s: State, v: ViewId, sizes: seq<Box>)
    requires CanTrip(s, v)
    ensures var t := Contracted(s, v, sizes);
            var view := Table(s)[v];
            && t.workspaces == s.workspaces && t.env == s.env && SameSizesBut(Table(s), Table(t), v)
            && Located(t, v) && Home(t, v) == Home(s, v)
            && (Table(t)[v].x, Table(t)[v].y) == (view.x, view.y)
            && (Table(t)[v].targetWidth, Table(t)[v].targetHeight) == (view.geometry.width, view.geometry.height)
            && Table(t)[v].expansion == Recovering && Table(t)[v].saved == None && Table(t)[v].mapped
               && Table(t)[v].geometry == LastOf(view.geometry, sizes)
  {
    hide RequestFullscreen, Commits, SameSizesBut;
    var i := Home(s, v);
    var s1 := RequestFullscreen(s, v, true);
    Requested(s, v);
    var s2 := Commits(s1, v, sizes);
    SameSizesDomain(Table(s), Table(s1), v);
    CommitsWhileFullscreen(s1, v, sizes);
    Unrequested(s2, v);
    SameSizesDomain(Table(s1), Table(s2), v);
    var t := Contracted(s, v, sizes);
    SameSizesButTransitive(Table(s), Table(s1), Table(s2), v);
    SameSizesButTransitive(Table(s), Table(s2), Table(t), v);
    assert t.workspaces == s.workspaces;
  }

  /** On the way back from s: once the view takes part in the layout again, and has its old size, all tiles have the
      targets they would have if nothing had happened. */
  ghost predicate OnTheWayBack(s: State, t: State, v: ViewId)
  {
    && t.workspaces == s.workspaces && t.env == s.env && SameSizesBut(Table(s), Table(t), v)
    && CanTrip(s, v) && Located(t, v) && Home(t, v) == Home(s, v) && Table(t)[v].mapped
    && Table(t)[v].expansion != Fullscreen
    && (Table(t)[v].expansion == Normal && Table(t)[v].geometry == Table(s)[v].geometry ==>
          SameTiling(s.workspaces[Home(s, v)], Table(ArrangeIn(s, Home(s, v))), Table(t)))
  }

  lemma CommitOnTheWayBack(s: State, t: State, v: ViewId, size: Box)
    requires OnTheWayBack(s, t, v)
    ensures var u := Commit(t, v, size);
            && OnTheWayBack(s, u, v) && Table(u)[v].geometry == size
            && (Table(u)[v].expansion == Normal
                <==> Table(t)[v].expansion == Normal || size != Table(t)[v].geometry)
  {
    hide Commit, SameSizesBut, SameSizes, ArrangedViews, LayoutTasks, SameTiling;
    var i := Home(s, v);
    var u := Commit(t, v, size);
    Committed(t, v, size);
    SameSizesButTransitive(Table(s), Table(t), Table(u), v);
    if size == Table(s)[v].geometry != Table(t)[v].geometry {
      var w := s.workspaces[i];
      var put := Table(t)[v := Table(t)[v].(geometry := size).Recover()];
      RecoveredSizes(Table(s), Table(t), v);
      SameAims(w, Table(s), put, s.env.outputs[w.output.value], s.env.gap, !w.suspendAnimations);
    }
  }

  lemma {:induction false} CommitsOnTheWayBack(s: State, t: State, v: ViewId, sizes: seq<Box>)
    requires OnTheWayBack(s, t, v)
    ensures var u := Commits(t, v, sizes);
            && OnTheWayBack(s, u, v) && Table(u)[v].geometry == LastOf(Table(t)[v].geometry, sizes)
            && (Table(u)[v].expansion == Normal
                <==> Table(t)[v].expansion == Normal || Another(sizes, Table(t)[v].geometry))
  {
    hide Commit, OnTheWayBack;
    if sizes == [] {
    } else {
      var front, last := sizes[..|sizes| - 1], sizes[|sizes| - 1];
      BackMeans(s, t, v);
      CommitsOnTheWayBack(s, t, v, front);
      BackMeans(s, Commits(t, v, front), v);
      CommitOnTheWayBack(s, Commits(t, v, front), v, last);
      assert sizes == front + [last];
      AnotherOfMore(front, last, Table(t)[v].geometry);
    }
  }

  lemma BackMeans(s: State, t: State, v: ViewId)
    requires OnTheWayBack(s, t, v)
    ensures v in Table(s) && v in Table(t) && Located(s, v) && Located(t, v)
    ensures Table(t)[v].expansion == Normal && Table(t)[v].geometry == Table(s)[v].geometry ==>
              SameTiling(s.workspaces[Home(s, v)], Table(ArrangeIn(s, Home(s, v))), Table(t))
    ensures Table(t)[v].expansion != Normal ==> !IsNormal(Table(t), v)
    ensures t.workspaces == s.workspaces && Visible(s, Home(s, v)) && IsNormal(Table(s), v)
  {
    hide SameTiling, ArrangeIn;
  }

  /** After the last commit every tile has the target position and the requested size it would have
      if nothing had happened, exactly when the client really had another size meanwhile: otherwise none
      of its commits is noticed after it stopped being fullscreen, and the view stays out of the layout. */
  lemma FullscreenRoundTrip(s: State, v: ViewId, sizes: seq<Box>, more: seq<Box>)
    requires CanTrip(s, v) && FindColumn(s.workspaces[Home(s, v)].columns, v) < |s.workspaces[Home(s, v)].columns|
    ensures var i := Home(s, v);
            var t := Recovered(s, v, sizes, more);
            var size := Table(s)[v].geometry;
            && t.workspaces == s.workspaces
            && (SameTiling(s.workspaces[i], Table(ArrangeIn(s, i)), Table(t))
                <==> LastOf(size, sizes) != size || Another(more, size))
  {
    hide Commits, SameSizesBut, ArrangeIn, SameTiling, FindColumn, Contracted;
    var i := Home(s, v);
    var size := Table(s)[v].geometry;
    var s3 := Contracted(s, v, sizes);
    ContractedView(s, v, sizes);
    CommitsOnTheWayBack(s, s3, v, more + [size]);
    var t := Recovered(s, v, sizes, more);
    BackMeans(s, t, v);
    AnotherOfMore(more, size, LastOf(size, sizes));
    if Table(t)[v].expansion != Normal {
      StillOut(s, i, v, Table(t));
    }
  }

  lemma RecoveredSizes(a: ViewTable, b: ViewTable, v: ViewId)
    requires SameSizesBut(a, b, v) && v in a && IsNormal(a, v) && b[v].expansion != Fullscreen && b[v].mapped
    ensures SameSizes(a, b[v := b[v].(geometry := a[v].geometry).Recover()])
  {
  }

  lemma StillOut(s: State, i: nat, v: ViewId, b: ViewTable)
    requires Visible(s, i) && v in Table(s) && IsNormal(Table(s), v) && !IsNormal(b, v)
    requires FindColumn(s.workspaces[i].columns, v) < |s.workspaces[i].columns|
    ensures !SameTiling(s.workspaces[i], Table(ArrangeIn(s, i)), b)
  {
    hide FindColumn, ArrangedViews, LayoutTasks;
    ArrangeKeeps(s.workspaces[i], s.screen, s.env, true);
    assert IsNormal(Table(ArrangeIn(s, i)), v);
  }
}
