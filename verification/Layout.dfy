/** The layout pass: where every tile of a workspace goes, and what that guarantees. */
module Layout {
  import opened Prelude
  import opened Views
  import opened Columns
  import opened Rearranging

  /** box: the output in the layout; usable: the part of it panels leave free, relative to box. */
  datatype OutputInfo = OutputInfo(box: Box, usable: Box)

  /** `get_output_real_usable_area`: the usable area in the layout. */
  function RealUsableArea(info: OutputInfo): Box
  {
    Box(info.box.x + info.usable.x, info.box.y + info.usable.y, info.usable.width, info.usable.height)
  }

  datatype WorkspaceState = WorkspaceState(
    columns: seq<Column>, floating: seq<ViewId>, output: Option<OutputId>, fullscreen: Option<ViewId>,
    index: int, scrollX: int, suspendAnimations: bool)

  /** `size_t` arithmetic wraps around. */
  const SIZE_WRAP := 0x1_0000_0000_0000_0000

  // ---------------------------------------------------------------------------------------
  // The quantities the layout loops accumulate, over the first k tiles or columns
  // ---------------------------------------------------------------------------------------

  function ScaleUpTo(col: Column, views: map<ViewId, View>, k: nat): (s: real)
    requires k <= |col|
    ensures s >= 0.0
    ensures forall t | 0 <= t < k && IsNormal(views, col[t].view) :: s >= col[t].scale
  {
    if k == 0 then 0.0
    else ScaleUpTo(col, views, k - 1) + if IsNormal(views, col[k - 1].view) then col[k - 1].scale else 0.0
  }

  function WidthUpTo(col: Column, views: map<ViewId, View>, k: nat): (w: int)
    requires k <= |col|
    ensures w >= 0
  {
    if k == 0 then 0
    else
      var w := WidthUpTo(col, views, k - 1);
      if IsNormal(views, col[k - 1].view) then Max(w, views[col[k - 1].view].geometry.width) else w
  }

  /** The height tiles share: what the gaps above, between and below all tiles leave. */
  function SharedHeight(info: OutputInfo, gap: int, tiles: nat): (h: nat)
  {
    (info.usable.height - (tiles + 1) * gap) % SIZE_WRAP
  }

  function TileHeight(col: Column, views: map<ViewId, View>, info: OutputInfo, gap: int, t: nat): (h: int)
    requires t < |col| && IsNormal(views, col[t].view)
  {
    Trunc(Share(SharedHeight(info, gap, |col|) as real, col[t].scale, ScaleUpTo(col, views, |col|)))
  }

  function Share(total: real, part: real, whole: real): real
    requires whole > 0.0
  {
    total * (part / whole)
  }

  /** How far below the first tile tile k starts. */
  function YUpTo(col: Column, views: map<ViewId, View>, info: OutputInfo, gap: int, k: nat): int
    requires k <= |col|
  {
    if k == 0 then 0
    else YUpTo(col, views, info, gap, k - 1)
         + if IsNormal(views, col[k - 1].view) then TileHeight(col, views, info, gap, k - 1) + gap else 0
  }

  /** How far right of the first column column k starts. */
  function XUpTo(cols: seq<Column>, views: map<ViewId, View>, gap: int, k: nat): int
    requires k <= |cols|
  {
    if k == 0 then 0
    else XUpTo(cols, views, gap, k - 1) + WidthUpTo(cols[k - 1], views, |cols[k - 1]|) + gap
  }

  // ---------------------------------------------------------------------------------------
  // arrange_workspace
  // ---------------------------------------------------------------------------------------

  /** The box the window in tile t of column c is meant to fill. */
  function WindowBox(w: WorkspaceState, views: map<ViewId, View>, info: OutputInfo, gap: int, c: nat, t: nat): Box
    requires c < |w.columns| && t < |w.columns[c]| && IsNormal(views, w.columns[c][t].view)
  {
    Box(info.box.x + XUpTo(w.columns, views, gap, c) - w.scrollX,
        info.box.y + info.usable.y + gap + YUpTo(w.columns[c], views, info, gap, t),
        views[w.columns[c][t].view].geometry.width,
        TileHeight(w.columns[c], views, info, gap, t))
  }

  /** The box a view's window fills once it is at its target and has its requested height. */
  function TargetBox(v: View): Box
  {
    Box(v.targetX + v.geometry.x, v.targetY + v.geometry.y, v.geometry.width, v.targetHeight)
  }

  /** The box the client is asked to fill there. */
  function AskedBox(v: View): Box
  {
    Box(v.targetX + v.geometry.x, v.targetY + v.geometry.y, v.targetWidth, v.targetHeight)
  }

  function Placed(v: View, box: Box, animated: bool): View
  {
    var v := v.(targetX := box.x - v.geometry.x, targetY := box.y - v.geometry.y);
    var v := if animated then v else v.(x := v.targetX, y := v.targetY);
    v.Resize(v.geometry.width, box.height)
  }

  /** The fullscreen view covers the output, whatever the offset of its window is. */
  function Covering(v: View, info: OutputInfo): View
  {
    v.Move(info.box.x - v.geometry.x, info.box.y - v.geometry.y).Resize(info.box.width, info.box.height)
  }

  function BeforeTiling(w: WorkspaceState, views: map<ViewId, View>, info: OutputInfo, v: ViewId): View
    requires v in views
  {
    if w.fullscreen == Some(v) then Covering(views[v], info) else views[v]
  }

  /** What the layout makes of one view. */
  function ArrangedView(w: WorkspaceState, views: map<ViewId, View>, info: OutputInfo, gap: int, animated: bool,
                        v: ViewId): (r: View)
    requires v in views
  {
    var before := BeforeTiling(w, views, info, v);
    var c := FindColumn(w.columns, v);
    if c < |w.columns| && IsNormal(views, v) then
      var t := FindTile(w.columns[c], v);
      assert t < |w.columns[c]|;
      Placed(before, WindowBox(w, views, info, gap, c, t), animated)
    else
      before
  }

  function ArrangedViews(w: WorkspaceState, views: map<ViewId, View>, info: OutputInfo, gap: int, animated: bool)
    : (r: map<ViewId, View>)
    ensures r.Keys == views.Keys
  {
    map v | v in views :: ArrangedView(w, views, info, gap, animated, v)
  }

  /** The layout reads nothing of a view but its geometry and whether it takes part. */
  ghost predicate SameSizes(a: map<ViewId, View>, b: map<ViewId, View>)
  {
    && a.Keys == b.Keys
    && forall v | v in a :: a[v].geometry == b[v].geometry && IsNormal(a, v) == IsNormal(b, v)
  }

  lemma ArrangingKeepsSizes(w: WorkspaceState, views: map<ViewId, View>, info: OutputInfo, gap: int, animated: bool)
    ensures SameSizes(views, ArrangedViews(w, views, info, gap, animated))
  {
  }

  /** Of the tiles of a column it reads just those. */
  ghost predicate SameSizesIn(col: Column, a: map<ViewId, View>, b: map<ViewId, View>)
  {
    forall t | 0 <= t < |col| :: SameSize(a, b, col[t].view)
  }

  predicate SameSize(a: map<ViewId, View>, b: map<ViewId, View>, v: ViewId)
  {
    IsNormal(a, v) == IsNormal(b, v) && (IsNormal(a, v) ==> a[v].geometry == b[v].geometry)
  }

  lemma SameSizesAnywhere(a: map<ViewId, View>, b: map<ViewId, View>, cols: seq<Column>)
    requires SameSizes(a, b)
    ensures forall c | 0 <= c < |cols| :: SameSizesIn(cols[c], a, b)
  {
  }

  lemma {:induction false} SameSums(col: Column, a: map<ViewId, View>, b: map<ViewId, View>, k: nat)
    requires SameSizesIn(col, a, b) && k <= |col|
    ensures ScaleUpTo(col, a, k) == ScaleUpTo(col, b, k)
    ensures WidthUpTo(col, a, k) == WidthUpTo(col, b, k)
  {
    if k == 0 {
    } else {
      SameSums(col, a, b, k - 1);
      assert SameSize(a, b, col[k - 1].view);
    }
  }

  lemma {:induction false} SameY(col: Column, a: map<ViewId, View>, b: map<ViewId, View>, info: OutputInfo, gap: int,
                                 k: nat)
    requires SameSizesIn(col, a, b) && k <= |col|
    ensures YUpTo(col, a, info, gap, k) == YUpTo(col, b, info, gap, k)
    ensures k < |col| && IsNormal(a, col[k].view)
            ==> IsNormal(b, col[k].view) && TileHeight(col, a, info, gap, k) == TileHeight(col, b, info, gap, k)
  {
    SameSums(col, a, b, |col|);
    if k == 0 {
    } else {
      SameY(col, a, b, info, gap, k - 1);
      assert SameSize(a, b, col[k - 1].view);
    }
    if k < |col| {
      assert SameSize(a, b, col[k].view);
    }
  }

  lemma {:induction false} SameX(cols: seq<Column>, a: map<ViewId, View>, b: map<ViewId, View>, gap: int, k: nat)
    requires k <= |cols| && forall c | 0 <= c < |cols| :: SameSizesIn(cols[c], a, b)
    ensures XUpTo(cols, a, gap, k) == XUpTo(cols, b, gap, k)
  {
    hide SameSizesIn;
    if k == 0 {
    } else {
      SameX(cols, a, b, gap, k - 1);
      SameSums(cols[k - 1], a, b, |cols[k - 1]|);
    }
  }

  lemma SameWindowBox(w: WorkspaceState, a: map<ViewId, View>, b: map<ViewId, View>, info: OutputInfo, gap: int, c: nat,
                      t: nat)
    requires forall d | 0 <= d < |w.columns| :: SameSizesIn(w.columns[d], a, b)
    requires c < |w.columns| && t < |w.columns[c]| && IsNormal(a, w.columns[c][t].view)
    ensures IsNormal(b, w.columns[c][t].view)
    ensures WindowBox(w, a, info, gap, c, t) == WindowBox(w, b, info, gap, c, t)
  {
    assert SameSizesIn(w.columns[c], a, b);
    assert SameSize(a, b, w.columns[c][t].view);
    SameX(w.columns, a, b, gap, c);
    SameY(w.columns[c], a, b, info, gap, t);
  }

  /** After the layout pass every normal tile aims at its window box, and its client is asked to fill just that. */
  lemma ArrangedAim(w: WorkspaceState, views: map<ViewId, View>, info: OutputInfo, gap: int, animated: bool, c: nat,
                    t: nat)
    requires Distinct(w.columns) && c < |w.columns| && t < |w.columns[c]| && IsNormal(views, w.columns[c][t].view)
    ensures var before := views[w.columns[c][t].view];
            var after := ArrangedViews(w, views, info, gap, animated)[w.columns[c][t].view];
            && TargetBox(after) == AskedBox(after) == WindowBox(w, views, info, gap, c, t)
            && after.geometry == before.geometry
  {
    hide TileHeight, XUpTo, YUpTo, FindColumn, FindTile, Distinct;
    FindAt(w.columns, c, t);
  }

  // ---------------------------------------------------------------------------------------
  // Layout soundness
  // ---------------------------------------------------------------------------------------

  lemma ShareSplits(total: real, a: real, b: real, whole: real)
    requires whole > 0.0
    ensures Share(total, a + b, whole) == Share(total, a, whole) + Share(total, b, whole)
  {
    assert (a + b) / whole == a / whole + b / whole;
  }

  lemma ShareNonNegative(total: real, part: real, whole: real)
    requires whole > 0.0 && total >= 0.0 && part >= 0.0
    ensures Share(total, part, whole) >= 0.0
  {
    assert part / whole >= 0.0;
  }

  function NormalCount(col: Column, views: map<ViewId, View>, k: nat): (n: nat)
    requires k <= |col|
    ensures n <= k
  {
    if k == 0 then 0 else NormalCount(col, views, k - 1) + if IsNormal(views, col[k - 1].view) then 1 else 0
  }

  /** The pixels the first k tiles take, without the gaps. */
  function HeightUpTo(col: Column, views: map<ViewId, View>, info: OutputInfo, gap: int, k: nat): int
    requires k <= |col|
  {
    if k == 0 then 0
    else HeightUpTo(col, views, info, gap, k - 1)
         + if IsNormal(views, col[k - 1].view) then TileHeight(col, views, info, gap, k - 1) else 0
  }

  lemma {:induction false} HeightsAndGaps(col: Column, views: map<ViewId, View>, info: OutputInfo, gap: int, k: nat)
    requires k <= |col|
    ensures YUpTo(col, views, info, gap, k) == HeightUpTo(col, views, info, gap, k) + NormalCount(col, views, k) * gap
  {
    hide TileHeight, IsNormal;
    if k == 0 {
    } else {
      HeightsAndGaps(col, views, info, gap, k - 1);
      OneMoreGap(NormalCount(col, views, k - 1), gap);
    }
  }

  lemma OneMoreGap(n: nat, gap: int)
    ensures (n + 1) * gap == n * gap + gap
  {
  }

  /** Rounding each tile's share down, the tiles together never take more than their part of
      the height and lose less than one pixel each. */
  lemma {:induction false} HeightsSum(col: Column, views: map<ViewId, View>, info: OutputInfo, gap: int, k: nat)
    requires k <= |col|
    requires ScaleUpTo(col, views, |col|) > 0.0
    ensures var sum := HeightUpTo(col, views, info, gap, k) as real;
            var exact := Share(SharedHeight(info, gap, |col|) as real, ScaleUpTo(col, views, k),
                               ScaleUpTo(col, views, |col|));
            && sum <= exact
            && exact <= sum + NormalCount(col, views, k) as real
            && (NormalCount(col, views, k) > 0 ==> exact < sum + NormalCount(col, views, k) as real)
  {
    if k == 0 {
    } else {
      HeightsSum(col, views, info, gap, k - 1);
      if IsNormal(views, col[k - 1].view) {
        var total, whole := SharedHeight(info, gap, |col|) as real, ScaleUpTo(col, views, |col|);
        ShareSplits(total, ScaleUpTo(col, views, k - 1), col[k - 1].scale, whole);
        ShareNonNegative(total, col[k - 1].scale, whole);
        assert HeightUpTo(col, views, info, gap, k) ==
               HeightUpTo(col, views, info, gap, k - 1) + Trunc(Share(total, col[k - 1].scale, whole));
      }
    }
  }

  lemma TileHeightNonNegative(col: Column, views: map<ViewId, View>, info: OutputInfo, gap: int, t: nat)
    requires t < |col| && IsNormal(views, col[t].view)
    ensures TileHeight(col, views, info, gap, t) >= 0
  {
    ShareNonNegative(SharedHeight(info, gap, |col|) as real, col[t].scale, ScaleUpTo(col, views, |col|));
  }

  lemma {:induction false} YGrows(col: Column, views: map<ViewId, View>, info: OutputInfo, gap: int, t: nat, k: nat)
    requires t <= k <= |col| && gap >= 0
    ensures YUpTo(col, views, info, gap, t) <= YUpTo(col, views, info, gap, k)
  {
    if t == k {
    } else {
      YGrows(col, views, info, gap, t, k - 1);
      if IsNormal(views, col[k - 1].view) {
        TileHeightNonNegative(col, views, info, gap, k - 1);
      }
    }
  }

  lemma {:induction false} XGrows(cols: seq<Column>, views: map<ViewId, View>, gap: int, c: nat, k: nat)
    requires c <= k <= |cols| && gap >= 0
    ensures XUpTo(cols, views, gap, c) <= XUpTo(cols, views, gap, k)
  {
    if c == k {
    } else {
      XGrows(cols, views, gap, c, k - 1);
    }
  }

  lemma {:induction false} NoWiderThanColumn(col: Column, views: map<ViewId, View>, t: nat, k: nat)
    requires t < k <= |col| && IsNormal(views, col[t].view)
    ensures views[col[t].view].geometry.width <= WidthUpTo(col, views, k)
  {
    if t == k - 1 {
    } else {
      NoWiderThanColumn(col, views, t, k - 1);
    }
  }

  /** Columns stand at least one gap apart. */
  lemma ColumnsApart(w: WorkspaceState, views: map<ViewId, View>, info: OutputInfo, gap: int, c: nat, t: nat, d: nat,
                     u: nat)
    requires gap >= 0 && c < d < |w.columns|
    requires t < |w.columns[c]| && IsNormal(views, w.columns[c][t].view)
    requires u < |w.columns[d]| && IsNormal(views, w.columns[d][u].view)
    ensures var a := WindowBox(w, views, info, gap, c, t);
            var b := WindowBox(w, views, info, gap, d, u);
            a.x + a.width + gap <= b.x
  {
    XGrows(w.columns, views, gap, c + 1, d);
    NoWiderThanColumn(w.columns[c], views, t, |w.columns[c]|);
  }

  /** Tiles of a column stand one gap apart. */
  lemma TilesApart(w: WorkspaceState, views: map<ViewId, View>, info: OutputInfo, gap: int, c: nat, t: nat, u: nat)
    requires gap >= 0 && c < |w.columns| && t < u < |w.columns[c]|
    requires IsNormal(views, w.columns[c][t].view) && IsNormal(views, w.columns[c][u].view)
    ensures var a := WindowBox(w, views, info, gap, c, t);
            var b := WindowBox(w, views, info, gap, c, u);
            a.y + a.height + gap <= b.y
  {
    YGrows(w.columns[c], views, info, gap, t + 1, u);
  }

  /** Two different normal tiles never share a pixel. */
  lemma TilesDisjoint(w: WorkspaceState, views: map<ViewId, View>, info: OutputInfo, gap: int, c: nat, t: nat, d: nat,
                      u: nat)
    requires gap >= 0 && c < |w.columns| && d < |w.columns| && (c, t) != (d, u)
    requires t < |w.columns[c]| && IsNormal(views, w.columns[c][t].view)
    requires u < |w.columns[d]| && IsNormal(views, w.columns[d][u].view)
    ensures WindowBox(w, views, info, gap, c, t).Disjoint(WindowBox(w, views, info, gap, d, u))
  {
    if c < d {
      ColumnsApart(w, views, info, gap, c, t, d, u);
    } else if d < c {
      ColumnsApart(w, views, info, gap, d, u, c, t);
    } else if t < u {
      TilesApart(w, views, info, gap, c, t, u);
    } else {
      TilesApart(w, views, info, gap, c, u, t);
    }
  }

  ghost predicate RoomForGaps(col: Column, info: OutputInfo, gap: int)
  {
    (|col| + 1) * gap <= info.usable.height < SIZE_WRAP
  }

  lemma EnoughHeight(col: Column, info: OutputInfo, gap: int)
    requires gap >= 0 && RoomForGaps(col, info, gap)
    ensures SharedHeight(info, gap, |col|) == info.usable.height - (|col| + 1) * gap
  {
    assert 0 <= (|col| + 1) * gap;
  }

  /** A column with its gaps stays inside the usable height. */
  lemma ColumnFits(w: WorkspaceState, views: map<ViewId, View>, info: OutputInfo, gap: int, c: nat, t: nat)
    requires gap >= 0 && c < |w.columns| && RoomForGaps(w.columns[c], info, gap)
    requires t < |w.columns[c]| && IsNormal(views, w.columns[c][t].view)
    ensures var b := WindowBox(w, views, info, gap, c, t);
            && b.height >= 0
            && info.box.y + info.usable.y + gap <= b.y
            && b.y + b.height + gap <= info.box.y + info.usable.y + info.usable.height
  {
    var col := w.columns[c];
    var n := |col|;
    TileHeightNonNegative(col, views, info, gap, t);
    YGrows(col, views, info, gap, 0, t);
    YGrows(col, views, info, gap, t + 1, n);
    var whole := ScaleUpTo(col, views, n);
    assert whole >= col[t].scale;
    HeightsSum(col, views, info, gap, n);
    HeightsAndGaps(col, views, info, gap, n);
    WholeShare(SharedHeight(info, gap, n) as real, whole);
    EnoughHeight(col, info, gap);
    GapsAtMost(NormalCount(col, views, n), n, gap);
  }

  lemma WholeShare(total: real, whole: real)
    requires whole > 0.0
    ensures Share(total, whole, whole) == total
  {
    assert whole / whole == 1.0;
  }

  lemma GapsAtMost(k: nat, n: nat, gap: int)
    requires k <= n && gap >= 0
    ensures k * gap + gap <= (n + 1) * gap
  {
    assert k * gap <= n * gap;
  }

  lemma {:induction false} AllNormal(col: Column, views: map<ViewId, View>, k: nat)
    requires k <= |col| && forall t | 0 <= t < |col| :: IsNormal(views, col[t].view)
    ensures NormalCount(col, views, k) == k
  {
    if k == 0 {
    } else {
      AllNormal(col, views, k - 1);
    }
  }

  /** When every tile of a column takes part, rounding loses fewer pixels than there are tiles. */
  lemma RoundingLoss(col: Column, views: map<ViewId, View>, info: OutputInfo, gap: int)
    requires gap >= 0 && col != [] && RoomForGaps(col, info, gap)
    requires forall t | 0 <= t < |col| :: IsNormal(views, col[t].view)
    ensures var used := gap + YUpTo(col, views, info, gap, |col|);
            info.usable.height - |col| < used <= info.usable.height
  {
    var n := |col|;
    AllNormal(col, views, n);
    assert ScaleUpTo(col, views, n) >= col[0].scale;
    HeightsSum(col, views, info, gap, n);
    HeightsAndGaps(col, views, info, gap, n);
    WholeShare(SharedHeight(info, gap, n) as real, ScaleUpTo(col, views, n));
    EnoughHeight(col, info, gap);
    assert (n + 1) * gap == n * gap + gap;
  }

  /** What a reader of the layout can rely on about two boxes that views aim at. */
  ghost predicate WellPlaced(a: Box, b: Box, info: OutputInfo, gap: int, c: int, t: int, d: int, u: int)
  {
    && ((c, t) != (d, u) ==> a.Disjoint(b))
    && (c < d ==> a.x + a.width + gap <= b.x)
    && (c == d && t < u ==> a.y + a.height + gap <= b.y)
    && info.box.y + info.usable.y + gap <= a.y
    && a.y + a.height + gap <= info.box.y + info.usable.y + info.usable.height
  }

  lemma BoxesWellPlaced(w: WorkspaceState, views: map<ViewId, View>, info: OutputInfo, gap: int, c: nat, t: nat, d: nat,
                        u: nat)
    requires gap >= 0 && c < |w.columns| && d < |w.columns| && RoomForGaps(w.columns[c], info, gap)
    requires t < |w.columns[c]| && IsNormal(views, w.columns[c][t].view)
    requires u < |w.columns[d]| && IsNormal(views, w.columns[d][u].view)
    ensures WellPlaced(WindowBox(w, views, info, gap, c, t), WindowBox(w, views, info, gap, d, u), info, gap, c, t, d,
                       u)
  {
    if (c, t) != (d, u) {
      TilesDisjoint(w, views, info, gap, c, t, d, u);
    }
    if c < d {
      ColumnsApart(w, views, info, gap, c, t, d, u);
    } else if c == d && t < u {
      TilesApart(w, views, info, gap, c, t, u);
    }
    ColumnFits(w, views, info, gap, c, t);
  }

  /** After the layout, every normal tile keeps its width, and any two of them are asked to fill disjoint boxes: columns
      and the tiles of a column stand at least a gap apart, and every column stays inside the usable height. */
  lemma LayoutSoundness(w: WorkspaceState, views: map<ViewId, View>, info: OutputInfo, gap: int, animated: bool)
    requires Distinct(w.columns) && gap >= 0
    requires forall c | 0 <= c < |w.columns| :: RoomForGaps(w.columns[c], info, gap)
    ensures var after := ArrangedViews(w, views, info, gap, animated);
            && (forall c, t | 0 <= c < |w.columns| && 0 <= t < |w.columns[c]|
                              && IsNormal(views, w.columns[c][t].view) ::
                  after[w.columns[c][t].view].targetWidth == views[w.columns[c][t].view].geometry.width)
            && forall c, t, d, u |
                 && 0 <= c < |w.columns| && 0 <= t < |w.columns[c]| && IsNormal(views, w.columns[c][t].view)
                 && 0 <= d < |w.columns| && 0 <= u < |w.columns[d]| && IsNormal(views, w.columns[d][u].view) ::
                 WellPlaced(AskedBox(after[w.columns[c][t].view]), AskedBox(after[w.columns[d][u].view]), info, gap, c,
                            t, d, u)
  {
    hide WellPlaced, XUpTo, YUpTo, TileHeight, RoomForGaps, ArrangedView;
    var after := ArrangedViews(w, views, info, gap, animated);
    forall c, t | 0 <= c < |w.columns| && 0 <= t < |w.columns[c]| && IsNormal(views, w.columns[c][t].view)
      ensures after[w.columns[c][t].view].targetWidth == views[w.columns[c][t].view].geometry.width
    {
      ArrangedAim(w, views, info, gap, animated, c, t);
    }
    forall c, t, d, u |
      && 0 <= c < |w.columns| && 0 <= t < |w.columns[c]| && IsNormal(views, w.columns[c][t].view)
      && 0 <= d < |w.columns| && 0 <= u < |w.columns[d]| && IsNormal(views, w.columns[d][u].view)
      ensures WellPlaced(AskedBox(after[w.columns[c][t].view]), AskedBox(after[w.columns[d][u].view]), info, gap, c,
                         t, d, u)
    {
      ArrangedAim(w, views, info, gap, animated, c, t);
      ArrangedAim(w, views, info, gap, animated, d, u);
      BoxesWellPlaced(w, views, info, gap, c, t, d, u);
    }
  }
}
