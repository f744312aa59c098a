/** Horizontal scrolling of a workspace: the two computations of a view's offset, and the scroll
    that brings a view onto the screen. */
module Scrolling {
  import opened Prelude
  import opened Views
  import opened Columns
  import opened Rearranging
  import opened Layout

  // ---------------------------------------------------------------------------------------
  // get_view_wx against arrange_workspace
  // ---------------------------------------------------------------------------------------

  /** The width of the last normal one of the first k tiles. */
  function LastWidth(col: Column, views: map<ViewId, View>, k: nat): Option<int>
    requires k <= |col|
  {
    if k == 0 then None
    else if IsNormal(views, col[k - 1].view) then Some(views[col[k - 1].view].geometry.width)
    else LastWidth(col, views, k - 1)
  }

  /** What the offset search adds up over the first k columns: the width of each column's last
      normal tile, and nothing at all for a column without one. */
  function WxUpTo(cols: seq<Column>, views: map<ViewId, View>, gap: int, k: nat): int
    requires k <= |cols|
  {
    if k == 0 then 0
    else
      var last := LastWidth(cols[k - 1], views, |cols[k - 1]|);
      WxUpTo(cols, views, gap, k - 1) + if last.Some? then last.value + gap else 0
  }

  /** The workspace coordinate of a view; all the way to the right if it is not found. */
  function ViewWx(cols: seq<Column>, views: map<ViewId, View>, gap: int, v: ViewId): int
  {
    WxUpTo(cols, views, gap, if IsNormal(views, v) then FindColumn(cols, v) else |cols|)
  }

  /** The two loops take the same step over a column. */
  predicate Agreeable(col: Column, views: map<ViewId, View>, gap: int)
  {
    match LastWidth(col, views, |col|)
    case None => gap == 0
    case Some(w) => w == WidthUpTo(col, views, |col|)
  }

  lemma {:induction false} LastWidthWithin(col: Column, views: map<ViewId, View>, k: nat)
    requires k <= |col|
    ensures match LastWidth(col, views, k)
            case Some(w) => w <= WidthUpTo(col, views, k)
            case None => WidthUpTo(col, views, k) == 0
  {
    if k == 0 {
    } else {
      LastWidthWithin(col, views, k - 1);
    }
  }

  /** The offset search never overshoots the layout, and finds the layout's own offset exactly
      when every earlier column ends on one of its widest normal tiles (columns without a normal
      tile are harmless only when there is no gap). */
  lemma {:induction false} OffsetsAgree(cols: seq<Column>, views: map<ViewId, View>, gap: int, k: nat)
    requires k <= |cols| && gap >= 0
    ensures WxUpTo(cols, views, gap, k) <= XUpTo(cols, views, gap, k)
    ensures WxUpTo(cols, views, gap, k) == XUpTo(cols, views, gap, k) <==>
            forall d | 0 <= d < k :: Agreeable(cols[d], views, gap)
  {
    if k == 0 {
    } else {
      OffsetsAgree(cols, views, gap, k - 1);
      LastWidthWithin(cols[k - 1], views, |cols[k - 1]|);
    }
  }

  /** A column whose normal tiles share one width, and that has one, is agreeable. */
  lemma UniformColumnAgrees(col: Column, views: map<ViewId, View>, gap: int, width: nat)
    requires exists t | 0 <= t < |col| :: IsNormal(views, col[t].view)
    requires forall t | 0 <= t < |col| && IsNormal(views, col[t].view) :: views[col[t].view].geometry.width == width
    ensures Agreeable(col, views, gap)
  {
    UniformWidths(col, views, width, |col|);
  }

  lemma {:induction false} UniformWidths(col: Column, views: map<ViewId, View>, width: nat, k: nat)
    requires k <= |col|
    requires forall t | 0 <= t < |col| && IsNormal(views, col[t].view) :: views[col[t].view].geometry.width == width
    ensures LastWidth(col, views, k) == Some(width) || LastWidth(col, views, k) == None
    ensures LastWidth(col, views, k) == Some(width) ==> WidthUpTo(col, views, k) == width
    ensures LastWidth(col, views, k) == None ==> forall t | 0 <= t < k :: !IsNormal(views, col[t].view)
    ensures WidthUpTo(col, views, k) <= width
  {
    if k == 0 {
    } else {
      UniformWidths(col, views, width, k - 1);
    }
  }

  // ---------------------------------------------------------------------------------------
  // fit_view_on_screen
  // ---------------------------------------------------------------------------------------

  /** The scroll that fits a view of column c, wx being its offset. */
  function ScrollFor(w: WorkspaceState, view: View, info: OutputInfo, gap: int, condense: bool, c: nat, wx: int): int
  {
    var vx := view.targetX + view.geometry.x;
    var width := view.geometry.width;
    var area := info.usable;
    var overflowing := vx < 0 || vx + width > area.x + area.width;
    if condense && c == 0 then
      -area.x - Quotient(gap, 2)
    else if condense && c == |w.columns| - 1 then
      wx + width - (area.x + area.width) + Quotient(gap, 2)
    else if overflowing && vx < info.box.x + area.x then
      wx - area.x - Quotient(gap, 2)
    else if overflowing && vx + width >= info.box.x + area.x + area.width then
      wx + width - (area.x + area.width) + Quotient(gap, 2)
    else
      w.scrollX
  }

  /** The scroll the workspace gets; v is normal and tiled. */
  function FitScroll(w: WorkspaceState, views: map<ViewId, View>, info: OutputInfo, gap: int, v: ViewId,
                     condense: bool): int
    requires v in views
  {
    ScrollFor(w, views[v], info, gap, condense, FindColumn(w.columns, v), ViewWx(w.columns, views, gap, v))
  }

  /** A normal view that is tiled in column c and aims where the layout put it. */
  ghost predicate Aiming(w: WorkspaceState, views: map<ViewId, View>, info: OutputInfo, gap: int, v: ViewId)
  {
    var c := FindColumn(w.columns, v);
    && c < |w.columns| && IsNormal(views, v) && gap >= 0
    && views[v].targetX + views[v].geometry.x == info.box.x + XUpTo(w.columns, views, gap, c) - w.scrollX
  }

  /** How far the offset search falls short of the layout. */
  function Shortfall(cols: seq<Column>, views: map<ViewId, View>, gap: int, v: ViewId): int
  {
    XUpTo(cols, views, gap, FindColumn(cols, v)) - ViewWx(cols, views, gap, v)
  }

  /** The two computations agree on all columns left of the view. */
  ghost predicate AgreeableUpTo(cols: seq<Column>, views: map<ViewId, View>, gap: int, v: ViewId)
  {
    forall d | 0 <= d < FindColumn(cols, v) :: Agreeable(cols[d], views, gap)
  }

  /** Besides, the columns left of it are agreeable, and it is small enough to be shown whole. */
  ghost predicate Fittable(w: WorkspaceState, views: map<ViewId, View>, info: OutputInfo, gap: int, v: ViewId)
  {
    && Aiming(w, views, info, gap, v) && AgreeableUpTo(w.columns, views, gap, v)
    && views[v].geometry.width + Quotient(gap, 2) <= info.usable.width
  }

  /** Whether a window box lies, horizontally, inside the usable area of the output. */
  predicate Shown(box: Box, info: OutputInfo)
  {
    && info.box.x + info.usable.x <= box.x
    && box.x + box.width <= info.box.x + info.usable.x + info.usable.width
  }

  /** The overflow guard compares screen coordinates with output coordinates. */
  predicate SeenOverflowing(box: Box, info: OutputInfo)
  {
    box.x < 0 || box.x + box.width > info.usable.x + info.usable.width
  }

  predicate AtEnd(w: WorkspaceState, v: ViewId)
  {
    FindColumn(w.columns, v) == 0 || FindColumn(w.columns, v) == |w.columns| - 1
  }

  /** The workspace scrolled and laid out again, as fit_view_on_screen leaves it. */
  function Fitted(w: WorkspaceState, views: map<ViewId, View>, info: OutputInfo, gap: int, v: ViewId, condense: bool)
    : (WorkspaceState, map<ViewId, View>)
    requires v in views
  {
    var w' := w.(scrollX := FitScroll(w, views, info, gap, v, condense));
    (w', ArrangedViews(w', views, info, gap, !w.suspendAnimations))
  }

  /** Where the view aims after fitting. */
  lemma FittedAim(w: WorkspaceState, views: map<ViewId, View>, info: OutputInfo, gap: int, v: ViewId, condense: bool)
    requires Aiming(w, views, info, gap, v)
    ensures var (w', views') := Fitted(w, views, info, gap, v, condense);
            var box := TargetBox(views'[v]);
            && box.x == info.box.x + XUpTo(w.columns, views, gap, FindColumn(w.columns, v)) - w'.scrollX
            && box.width == views[v].geometry.width
            && Shortfall(w.columns, views, gap, v) >= 0
            && (Shortfall(w.columns, views, gap, v) == 0 <==> AgreeableUpTo(w.columns, views, gap, v))
  {
    OffsetsAgree(w.columns, views, gap, FindColumn(w.columns, v));
  }

  /** Half a gap from the left edge of the usable area, or some pixels further right. */
  predicate AlignedLeft(box: Box, info: OutputInfo, gap: int, off: int)
  {
    box.x == info.box.x + info.usable.x + Quotient(gap, 2) + off
  }

  /** Half a gap from its right edge, or some pixels further right. */
  predicate AlignedRight(box: Box, info: OutputInfo, gap: int, off: int)
  {
    box.x + box.width == info.box.x + info.usable.x + info.usable.width - Quotient(gap, 2) + off
  }

  /** A view that aimed at one box and is then fitted aims at the other: aligned on the left if it is condensed onto the
      first column, or seen overflowing with its left edge left of the usable area; on the right if it is condensed onto
      the last one, or seen overflowing with its right edge not left of the area's; and otherwise where it did. */
  predicate FittedFrom(w: WorkspaceState, info: OutputInfo, gap: int, v: ViewId, condense: bool, off: int, before: Box,
                       after: Box)
  {
    var seen := SeenOverflowing(before, info);
    var c := FindColumn(w.columns, v);
    && after.width == before.width
    && if condense && c == 0 then AlignedLeft(after, info, gap, 0)
       else if condense && c == |w.columns| - 1 then AlignedRight(after, info, gap, off)
       else if seen && before.x < info.box.x + info.usable.x then AlignedLeft(after, info, gap, off)
       else if seen && before.x + before.width >= info.box.x + info.usable.x + info.usable.width
       then AlignedRight(after, info, gap, off)
       else after.x == before.x
  }

  /** Fitting aligns a view with an edge of the usable area or leaves it alone; unless the columns left of it are
      agreeable, it then ends up too far right. */
  lemma FittingAligns(w: WorkspaceState, views: map<ViewId, View>, info: OutputInfo, gap: int, v: ViewId,
                      condense: bool)
    requires Aiming(w, views, info, gap, v)
    ensures var off := Shortfall(w.columns, views, gap, v);
            && off >= 0 && (off == 0 <==> AgreeableUpTo(w.columns, views, gap, v))
            && FittedFrom(w, info, gap, v, condense, off, TargetBox(views[v]),
                          TargetBox(Fitted(w, views, info, gap, v, condense).1[v]))
  {
    hide ViewWx, AgreeableUpTo, ArrangedView, FindColumn;
    FittedAim(w, views, info, gap, v, condense);
  }

  /** Fitting a view that is small enough puts it on the screen exactly when it was condensed onto
      an end of the workspace, or the overflow guard saw it overflowing, or it was there already. */
  lemma FitShowsTheView(w: WorkspaceState, views: map<ViewId, View>, info: OutputInfo, gap: int, v: ViewId,
                        condense: bool)
    requires Fittable(w, views, info, gap, v)
    ensures var (w', views') := Fitted(w, views, info, gap, v, condense);
            Shown(TargetBox(views'[v]), info) <==>
            || (condense && AtEnd(w, v))
            || SeenOverflowing(TargetBox(views[v]), info)
            || Shown(TargetBox(views[v]), info)
  {
    FittedAim(w, views, info, gap, v, condense);
  }

  /** On an output at the left edge of the layout, with no panel on its left, fitting always works. */
  lemma FitWorksAtTheOrigin(w: WorkspaceState, views: map<ViewId, View>, info: OutputInfo, gap: int, v: ViewId,
                            condense: bool)
    requires Fittable(w, views, info, gap, v) && info.box.x == 0 && info.usable.x == 0
    ensures Shown(TargetBox(Fitted(w, views, info, gap, v, condense).1[v]), info)
  {
    FitShowsTheView(w, views, info, gap, v, condense);
  }

  /** A view under a left panel, or on the wrong side of a second output's edge, is not seen
      overflowing and stays where it is. */
  lemma FitMissesAViewUnderAPanel() returns (w: WorkspaceState, views: map<ViewId, View>, info: OutputInfo)
    ensures Fittable(w, views, info, 10, 0)
    ensures !Shown(TargetBox(Fitted(w, views, info, 10, 0, false).1[0]), info)
  {
    var view := View(Box(0, 0, 300, 500), None, Normal, (0, 0), 0, 10, 0, 10, 0, 300, 500, true, false, 0, [], []);
    views := map[0 := view];
    w := WorkspaceState([[NewTile(0)]], [], Some(0), None, 0, -10, false);
    info := OutputInfo(Box(0, 0, 1920, 1080), Box(40, 0, 1880, 1080));
    var cols: seq<Column> := w.columns;
    assert cols[0][0].view == 0;
    assert HasView(cols[0], 0);
    FitShowsTheView(w, views, info, 10, 0, false);
  }

  /** Fitting again changes neither the scroll nor any target, when the first call showed the view
      on an output at the left edge of the layout. */
  lemma FitTwice(w: WorkspaceState, views: map<ViewId, View>, info: OutputInfo, gap: int, v: ViewId, condense: bool)
    requires Fittable(w, views, info, gap, v)
    requires Shown(TargetBox(Fitted(w, views, info, gap, v, condense).1[v]), info)
    requires (info.box.x == 0 && info.usable.x >= 0) || (condense && AtEnd(w, v))
    ensures var (w', views') := Fitted(w, views, info, gap, v, condense);
            var (w2, views2) := Fitted(w', views', info, gap, v, condense);
            && w2 == w'
            && forall u | u in views ::
                 && views2[u].targetX == views'[u].targetX && views2[u].targetY == views'[u].targetY
                 && views2[u].targetWidth == views'[u].targetWidth && views2[u].targetHeight == views'[u].targetHeight
  {
    var (w', views') := Fitted(w, views, info, gap, v, condense);
    var animated := !w.suspendAnimations;
    FittedAim(w, views, info, gap, v, condense);
    ArrangingKeepsSizes(w', views, info, gap, animated);
    var c := FindColumn(w.columns, v);
    SameWx(w.columns, views, views', gap, c);
    assert IsNormal(views', v);
    assert FitScroll(w', views', info, gap, v, condense) == w'.scrollX;
    ArrangingTwice(w', views, info, gap, animated);
  }

  lemma {:induction false} SameWx(cols: seq<Column>, a: map<ViewId, View>, b: map<ViewId, View>, gap: int, k: nat)
    requires SameSizes(a, b) && k <= |cols|
    ensures WxUpTo(cols, a, gap, k) == WxUpTo(cols, b, gap, k)
  {
    if k == 0 {
    } else {
      SameWx(cols, a, b, gap, k - 1);
      SameLast(cols[k - 1], a, b, |cols[k - 1]|);
    }
  }

  lemma {:induction false} SameLast(col: Column, a: map<ViewId, View>, b: map<ViewId, View>, k: nat)
    requires SameSizes(a, b) && k <= |col|
    ensures LastWidth(col, a, k) == LastWidth(col, b, k)
  {
    if k == 0 {
    } else {
      SameLast(col, a, b, k - 1);
      assert IsNormal(a, col[k - 1].view) == IsNormal(b, col[k - 1].view);
    }
  }

  /** Laying the same workspace out again changes no target. */
  lemma ArrangingTwice(w: WorkspaceState, views: map<ViewId, View>, info: OutputInfo, gap: int, animated: bool)
    ensures var once := ArrangedViews(w, views, info, gap, animated);
            var twice := ArrangedViews(w, once, info, gap, animated);
            forall u | u in views ::
              && twice[u].targetX == once[u].targetX && twice[u].targetY == once[u].targetY
              && twice[u].targetWidth == once[u].targetWidth && twice[u].targetHeight == once[u].targetHeight
  {
    var once := ArrangedViews(w, views, info, gap, animated);
    var twice := ArrangedViews(w, once, info, gap, animated);
    ArrangingKeepsSizes(w, views, info, gap, animated);
    forall u | u in views
      ensures twice[u].targetX == once[u].targetX && twice[u].targetY == once[u].targetY
      ensures twice[u].targetWidth == once[u].targetWidth && twice[u].targetHeight == once[u].targetHeight
    {
      SameTarget(w, views, once, info, gap, animated, u);
    }
  }

  /** The target the layout gives a tiled view depends on nothing but sizes. */
  lemma SameTarget(w: WorkspaceState, a: map<ViewId, View>, b: map<ViewId, View>, info: OutputInfo, gap: int,
                   animated: bool, u: ViewId)
    requires SameSizes(a, b) && u in a
    ensures var ra, rb := ArrangedView(w, a, info, gap, animated, u), ArrangedView(w, b, info, gap, animated, u);
            IsNormal(a, u) && FindColumn(w.columns, u) < |w.columns| ==>
              && ra.targetX == rb.targetX && ra.targetY == rb.targetY
              && ra.targetWidth == rb.targetWidth && ra.targetHeight == rb.targetHeight
  {
    var c := FindColumn(w.columns, u);
    if IsNormal(a, u) && c < |w.columns| {
      var t := FindTile(w.columns[c], u);
      assert t < |w.columns[c]|;
      SameSizesAnywhere(a, b, w.columns);
      SameWindowBox(w, a, b, info, gap, c, t);
      assert a[u].geometry == b[u].geometry;
    }
  }
}
