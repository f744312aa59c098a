/** Where exactly the layout puts every view and what size it asks for, told without the sums that its loops build up.
    */
module Placing {
  import opened Prelude
  import opened Views
  import opened Columns
  import opened Rearranging
  import opened Layout

  // ---------------------------------------------------------------------------------------
  // Columns
  // ---------------------------------------------------------------------------------------

  /** No normal tile of a column is wider, and one of them is as wide, unless there is none. */
  ghost predicate IsWidest(col: Column, views: map<ViewId, View>, width: int)
  {
    && width >= 0
    && (forall t | 0 <= t < |col| && IsNormal(views, col[t].view) :: views[col[t].view].geometry.width <= width)
    && (width == 0
        || exists t | 0 <= t < |col| && IsNormal(views, col[t].view) :: views[col[t].view].geometry.width == width)
  }

  lemma {:induction false} WidthIsWidest(col: Column, views: map<ViewId, View>, k: nat)
    requires k <= |col|
    ensures IsWidest(col[..k], views, WidthUpTo(col, views, k))
  {
    if k == 0 {
    } else {
      WidthIsWidest(col, views, k - 1);
      var front, all := col[..k - 1], col[..k];
      assert all == front + [col[k - 1]];
      var width := WidthUpTo(col, views, k);
      if IsNormal(views, col[k - 1].view) && width == views[col[k - 1].view].geometry.width {
        assert all[k - 1] == col[k - 1];
      } else if width != 0 {
        var t :| 0 <= t < |front| && IsNormal(views, front[t].view) && views[front[t].view].geometry.width == width;
        assert all[t] == front[t];
      }
    }
  }

  /** From left to right the columns start where the scroll says, each a gap right of the one before it, which is as
      wide as its widest normal tile; and every normal tile starts where its column does. */
  lemma ColumnsStandInARow(w: WorkspaceState, views: map<ViewId, View>, info: OutputInfo, gap: int, animated: bool)
    returns (lefts: seq<int>, widths: seq<int>)
    requires Distinct(w.columns)
    ensures |lefts| == |widths| == |w.columns|
    ensures lefts != [] ==> lefts[0] == info.box.x - w.scrollX
    ensures forall c | 0 <= c < |w.columns| :: IsWidest(w.columns[c], views, widths[c])
    ensures forall c | 0 <= c < |w.columns| - 1 :: lefts[c + 1] == lefts[c] + widths[c] + gap
    ensures var after := ArrangedViews(w, views, info, gap, animated);
            forall c, t | 0 <= c < |w.columns| && 0 <= t < |w.columns[c]| && IsNormal(views, w.columns[c][t].view) ::
              AskedBox(after[w.columns[c][t].view]).x == lefts[c]
  {
    hide IsWidest, ArrangedView, Distinct;
    var cols := w.columns;
    lefts := seq(|cols|, c requires 0 <= c < |cols| => info.box.x + XUpTo(cols, views, gap, c) - w.scrollX);
    widths := seq(|cols|, c requires 0 <= c < |cols| => WidthUpTo(cols[c], views, |cols[c]|));
    forall c | 0 <= c < |cols|
      ensures IsWidest(cols[c], views, widths[c])
    {
      WidthIsWidest(cols[c], views, |cols[c]|);
      assert cols[c][..|cols[c]|] == cols[c];
    }
    forall c, t | 0 <= c < |cols| && 0 <= t < |cols[c]| && IsNormal(views, cols[c][t].view)
      ensures AskedBox(ArrangedViews(w, views, info, gap, animated)[cols[c][t].view]).x == lefts[c]
    {
      ArrangedAim(w, views, info, gap, animated, c, t);
    }
  }

  // ---------------------------------------------------------------------------------------
  // The tiles of a column
  // ---------------------------------------------------------------------------------------

  /** Tiles from t on, up to u, are none of the layout's. */
  ghost predicate NoneNormal(col: Column, views: map<ViewId, View>, t: nat, u: nat)
    requires u <= |col|
  {
    forall k | t <= k < u :: !IsNormal(views, col[k].view)
  }

  lemma {:induction false} YStays(col: Column, views: map<ViewId, View>, info: OutputInfo, gap: int, t: nat, u: nat)
    requires t <= u <= |col| && NoneNormal(col, views, t, u)
    ensures YUpTo(col, views, info, gap, u) == YUpTo(col, views, info, gap, t)
  {
    hide TileHeight, IsNormal;
    if t == u {
    } else {
      YStays(col, views, info, gap, t, u - 1);
    }
  }

  /** The first normal tile of a column is a gap below the top of the usable area, and each of the others a gap below
      the one before it. */
  lemma TilesStandInAColumn(w: WorkspaceState, views: map<ViewId, View>, info: OutputInfo, gap: int, animated: bool,
                            c: nat, t: nat)
    requires Distinct(w.columns) && c < |w.columns| && t < |w.columns[c]| && IsNormal(views, w.columns[c][t].view)
    ensures var after := ArrangedViews(w, views, info, gap, animated);
            var col := w.columns[c];
            var box := AskedBox(after[col[t].view]);
            && (NoneNormal(col, views, 0, t) ==> box.y == info.box.y + info.usable.y + gap)
            && forall u | t < u < |col| && IsNormal(views, col[u].view) && NoneNormal(col, views, t + 1, u) ::
                 AskedBox(after[col[u].view]).y == box.y + box.height + gap
  {
    hide ArrangedView, Distinct, TileHeight, NoneNormal;
    var col := w.columns[c];
    ArrangedAim(w, views, info, gap, animated, c, t);
    if NoneNormal(col, views, 0, t) {
      YStays(col, views, info, gap, 0, t);
    }
    forall u | t < u < |col| && IsNormal(views, col[u].view) && NoneNormal(col, views, t + 1, u)
      ensures var after := ArrangedViews(w, views, info, gap, animated);
              var box := AskedBox(after[col[t].view]);
              AskedBox(after[col[u].view]).y == box.y + box.height + gap
    {
      ArrangedAim(w, views, info, gap, animated, c, u);
      YStays(col, views, info, gap, t + 1, u);
    }
  }

  /** Up to the pixel that rounding costs, the heights of two tiles of a column are to each other as their scales. */
  lemma HeightsAreAsTheScales(w: WorkspaceState, views: map<ViewId, View>, info: OutputInfo, gap: int, animated: bool,
                              c: nat, t: nat, u: nat)
    requires Distinct(w.columns) && c < |w.columns|
    requires t < |w.columns[c]| && IsNormal(views, w.columns[c][t].view)
    requires u < |w.columns[c]| && IsNormal(views, w.columns[c][u].view)
    ensures var after := ArrangedViews(w, views, info, gap, animated);
            var a, b := w.columns[c][t], w.columns[c][u];
            var h, k := AskedBox(after[a.view]).height, AskedBox(after[b.view]).height;
            0 <= h && h as real * b.scale < (k as real + 1.0) * a.scale
  {
    hide ArrangedView, Distinct, ScaleUpTo, SharedHeight, FindColumn, FindTile;
    var col := w.columns[c];
    ArrangedAim(w, views, info, gap, animated, c, t);
    ArrangedAim(w, views, info, gap, animated, c, u);
    TileHeightNonNegative(col, views, info, gap, t);
    TileHeightNonNegative(col, views, info, gap, u);
    var total, whole := SharedHeight(info, gap, |col|) as real, ScaleUpTo(col, views, |col|);
    assert whole > 0.0 by {
      assert whole >= col[t].scale;
    }
    ShareNonNegative(total, col[t].scale, whole);
    ShareNonNegative(total, col[u].scale, whole);
    SharesAreAsTheParts(total, col[t].scale, col[u].scale, whole, TileHeight(col, views, info, gap, t) as real,
                        TileHeight(col, views, info, gap, u) as real + 1.0);
  }

  lemma SharesAreAsTheParts(total: real, a: real, b: real, whole: real, h: real, k: real)
    requires a > 0.0 && b > 0.0 && whole > 0.0 && h <= Share(total, a, whole) && Share(total, b, whole) < k
    ensures h * b < k * a
  {
    var q := total / whole;
    assert total * (a / whole) == q * a;
    assert total * (b / whole) == q * b;
    assert h * b <= q * a * b;
    assert q * b * a < k * a;
  }

  // ---------------------------------------------------------------------------------------
  // The other views
  // ---------------------------------------------------------------------------------------

  /** v is none of the tiles that are laid out. */
  predicate IsNoTile(w: WorkspaceState, views: map<ViewId, View>, v: ViewId)
  {
    !IsNormal(views, v) || FindColumn(w.columns, v) == |w.columns|
  }

  /** Whatever the offset of its window, a fullscreen view is put right on the output, and asked to fill all of it.
      Every other view that is no normal tile is left alone. */
  lemma OnlyFullscreenIsCovering(w: WorkspaceState, views: map<ViewId, View>, info: OutputInfo, gap: int,
                                 animated: bool, v: ViewId)
    requires v in views && IsNoTile(w, views, v)
    ensures var r := ArrangedViews(w, views, info, gap, animated)[v];
            if w.fullscreen == Some(v)
            then (r.x + r.geometry.x, r.y + r.geometry.y, r.targetWidth, r.targetHeight) ==
                 (info.box.x, info.box.y, info.box.width, info.box.height) && r.geometry == views[v].geometry
            else r == views[v]
  {
    hide FindColumn;
  }

  // ---------------------------------------------------------------------------------------
  // Moving there
  // ---------------------------------------------------------------------------------------

  /** A normal tile is where it should be at once, unless that is left to an animation. */
  lemma TilesMoveUnlessAnimated(w: WorkspaceState, views: map<ViewId, View>, info: OutputInfo, gap: int,
                                animated: bool, v: ViewId)
    requires v in views && !IsNoTile(w, views, v) && w.fullscreen != Some(v)
    ensures var r := ArrangedViews(w, views, info, gap, animated)[v];
            (r.x, r.y) == if animated then (views[v].x, views[v].y) else (r.targetX, r.targetY)
  {
    hide FindColumn, FindTile, WindowBox;
    TileFound(w.columns[FindColumn(w.columns, v)], v);
  }

  /** Scrolling by some pixels moves every tile by as many the other way, and does nothing else to it. */
  lemma ScrollingMovesTheRow(w: WorkspaceState, views: map<ViewId, View>, info: OutputInfo, gap: int, animated: bool,
                             pixels: int, c: nat, t: nat)
    requires Distinct(w.columns) && c < |w.columns| && t < |w.columns[c]| && IsNormal(views, w.columns[c][t].view)
    ensures var before := ArrangedViews(w, views, info, gap, animated)[w.columns[c][t].view];
            var scrolled := w.(scrollX := w.scrollX + pixels);
            var after := ArrangedViews(scrolled, views, info, gap, animated)[w.columns[c][t].view];
            AskedBox(after) == AskedBox(before).(x := AskedBox(before).x - pixels)
  {
    hide ArrangedView, Distinct, TileHeight, XUpTo, YUpTo;
    ArrangedAim(w, views, info, gap, animated, c, t);
    ArrangedAim(w.(scrollX := w.scrollX + pixels), views, info, gap, animated, c, t);
  }
}
