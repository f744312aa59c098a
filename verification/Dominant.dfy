/** The view that gets the focus when a scroll ends: the last focused one of the column that is seen best. */
module Dominant {
  import opened Prelude
  import opened Views
  import opened Columns
  import opened Rearranging
  import opened Layout
  import opened AnimationQueue
  import opened Tiling
  import opened WorkspaceModule

  function Min(a: int, b: int): int
  {
    if a < b then a else b
  }

  predicate IsEmpty(b: Box)
  {
    b.width <= 0 || b.height <= 0
  }

  /** `wlr_box_intersection`. */
  function Overlap(a: Box, b: Box): Option<Box>
  {
    if IsEmpty(a) || IsEmpty(b) then None
    else
      var x, y := Max(a.x, b.x), Max(a.y, b.y);
      var r := Box(x, y, Min(a.x + a.width, b.x + b.width) - x, Min(a.y + a.height, b.y + b.height) - y);
      if IsEmpty(r) then None else Some(r)
  }

  /** The overlap holds exactly the pixels both boxes hold. */
  lemma OverlapIsWhatBothContain(a: Box, b: Box, px: int, py: int)
    ensures a.Contains(px, py) && b.Contains(px, py) <==> Overlap(a, b).Some? && Overlap(a, b).value.Contains(px, py)
  {
  }

  /** The box a column is judged by: that of its first normal tile, as tall as the usable area. */
  function ColumnBox(view: View, area: Box): Box
  {
    Box(view.x + view.geometry.x, area.x + view.geometry.y, view.geometry.width, area.height)
  }

  /** Which part of a column is seen. */
  function Visibility(col: Column, views: ViewTable, area: Box): (r: real)
    ensures 0.0 <= r <= 1.0
  {
    var t := FirstNormal(col, views);
    if t == |col| then 0.0
    else
      var box := ColumnBox(views[col[t].view], area);
      var seen := Overlap(area, box);
      if seen.None? then 0.0
      else
        PartOf(seen.value.width, seen.value.height, box.width, box.height);
        (seen.value.width * seen.value.height) as real / (box.width * box.height) as real
  }

  lemma PartOf(w: int, h: int, width: int, height: int)
    requires 0 < w <= width && 0 < h <= height
    ensures 0 < width * height && 0.0 <= (w * h) as real / (width * height) as real <= 1.0
  {
    assert 0 < w * h <= width * h <= width * height;
  }

  ghost function Pixels(b: Box): set<(int, int)>
  {
    set px, py | b.x <= px < b.x + b.width && b.y <= py < b.y + b.height :: (px, py)
  }

  lemma PixelsAreContained(b: Box)
    ensures forall px, py :: (px, py) in Pixels(b) <==> b.Contains(px, py)
  {
  }

  lemma {:induction false} PixelsOfALine(x: int, y: int, height: nat)
    ensures |Pixels(Box(x, y, 1, height))| == height
  {
    if height == 0 {
      assert Pixels(Box(x, y, 1, 0)) == {};
    } else {
      PixelsOfALine(x, y, height - 1);
      assert Pixels(Box(x, y, 1, height)) == Pixels(Box(x, y, 1, height - 1)) + {(x, y + height - 1)};
    }
  }

  lemma PixelsByLine(x: int, y: int, width: nat, height: nat)
    requires width > 0
    ensures var before, line := Pixels(Box(x, y, width - 1, height)), Pixels(Box(x + width - 1, y, 1, height));
            Pixels(Box(x, y, width, height)) == before + line && before !! line
  {
  }

  /** A box has as many pixels as its width times its height. */
  lemma {:induction false} PixelCount(x: int, y: int, width: nat, height: nat)
    ensures |Pixels(Box(x, y, width, height))| == width * height
  {
    hide Pixels;
    if width == 0 {
      NoPixels(x, y, height);
    } else {
      PixelCount(x, y, width - 1, height);
      PixelsOfALine(x + width - 1, y, height);
      PixelsByLine(x, y, width, height);
      assert (width - 1) * height + height == width * height;
    }
  }

  lemma NoPixels(x: int, y: int, height: nat)
    ensures Pixels(Box(x, y, 0, height)) == {}
  {
  }

  /** What a column is judged by is the share of its pixels that lie in the usable area. */
  lemma VisibilityIsTheShareSeen(col: Column, views: ViewTable, area: Box)
    requires FirstNormal(col, views) < |col| && !IsEmpty(ColumnBox(views[col[FirstNormal(col, views)].view], area))
    ensures var box := ColumnBox(views[col[FirstNormal(col, views)].view], area);
            && |Pixels(box)| > 0
            && Visibility(col, views, area) == |Pixels(area) * Pixels(box)| as real / |Pixels(box)| as real
  {
    hide FirstNormal, Pixels;
    var box := ColumnBox(views[col[FirstNormal(col, views)].view], area);
    PixelCount(box.x, box.y, box.width, box.height);
    SeenPixels(area, box);
    var seen := Overlap(area, box);
    if seen.Some? {
      PixelCount(seen.value.x, seen.value.y, seen.value.width, seen.value.height);
      PartOf(seen.value.width, seen.value.height, box.width, box.height);
    } else {
      PartOf(box.width, box.height, box.width, box.height);
    }
  }

  lemma SeenPixels(a: Box, b: Box)
    ensures Pixels(a) * Pixels(b) == if Overlap(a, b).Some? then Pixels(Overlap(a, b).value) else {}
  {
    hide Pixels, Overlap, Box.Contains;
    PixelsAreContained(a);
    PixelsAreContained(b);
    if Overlap(a, b).Some? {
      PixelsAreContained(Overlap(a, b).value);
    }
    forall p: (int, int)
      ensures p in Pixels(a) * Pixels(b) <==> Overlap(a, b).Some? && p in Pixels(Overlap(a, b).value)
    {
      var (px, py) := p;
      OverlapIsWhatBothContain(a, b, px, py);
      assert p == (px, py);
    }
  }

  /** How many of width pixels from from on lie among the length pixels from start on. */
  function Within(start: int, length: int, from: int, width: int): nat
  {
    Max(0, Min(start + length, from + width) - Max(start, from))
  }

  /** The first normal tile of a column. */
  function Judged(col: Column, views: ViewTable): View
    requires FirstNormal(col, views) < |col|
  {
    views[col[FirstNormal(col, views)].view]
  }

  lemma VisibilityByAxes(col: Column, views: ViewTable, area: Box)
    requires FirstNormal(col, views) < |col| && Judged(col, views).geometry.width > 0 && !IsEmpty(area)
    ensures var v := Judged(col, views);
            var width := Within(area.x, area.width, v.x + v.geometry.x, v.geometry.width);
            var height := Within(area.y, area.height, area.x + v.geometry.y, area.height);
            && v.geometry.width * area.height > 0
            && Visibility(col, views, area) == (width * height) as real / (v.geometry.width * area.height) as real
  {
    hide FirstNormal;
    var v := Judged(col, views);
    var box := ColumnBox(v, area);
    PartOf(box.width, box.height, box.width, box.height);
  }

  /** A column is meant to be judged by which part of its width is seen. It is, if anything of it is seen, exactly when
      the usable area starts as far right as it starts down, less what the client draws around its window: the code
      takes the one for the other. */
  lemma WidthDecidesExactlyWhen(col: Column, views: ViewTable, area: Box)
    requires FirstNormal(col, views) < |col| && Judged(col, views).geometry.width > 0 && !IsEmpty(area)
    ensures var v := Judged(col, views);
            var seen := Within(area.x, area.width, v.x + v.geometry.x, v.geometry.width);
            Visibility(col, views, area) == seen as real / v.geometry.width as real <==>
              seen == 0 || area.x + v.geometry.y == area.y
  {
    hide FirstNormal, Visibility;
    var v := Judged(col, views);
    var seen := Within(area.x, area.width, v.x + v.geometry.x, v.geometry.width);
    var height := Within(area.y, area.height, area.x + v.geometry.y, area.height);
    VisibilityByAxes(col, views, area);
    SameShare(seen, height, v.geometry.width, area.height);
    assert height == area.height <==> area.x + v.geometry.y == area.y;
  }

  lemma SameShare(w: nat, h: nat, width: int, height: int)
    requires width > 0 && height > 0
    ensures width * height > 0
    ensures (w * h) as real / (width * height) as real == w as real / width as real <==> w == 0 || h == height
  {
    var a, b, x, y := w as real, h as real, width as real, height as real;
    assert (w * h) as real == a * b && (width * height) as real == x * y;
    CrossMultiplied(a * b, x * y, a, x);
    assert a * b * x == a * x * b;
    assert a * (x * y) == a * x * y;
    if a * x * b == a * x * y && w != 0 {
      assert a * x > 0.0;
      assert (a * x) * (b - y) == 0.0;
    }
  }

  lemma CrossMultiplied(a: real, b: real, c: real, d: real)
    requires b > 0.0 && d > 0.0
    ensures a / b == c / d <==> a * d == c * b
  {
    assert a == (a / b) * b && c == (c / d) * d;
  }

  /** So on an output right of another one nothing is seen at all, when its left edge is as far right as its bottom is
      down. */
  lemma NothingIsSeenFarRight(col: Column, views: ViewTable, area: Box)
    requires area.x >= area.y + area.height
    requires FirstNormal(col, views) < |col| ==> Judged(col, views).geometry.y >= 0
    ensures Visibility(col, views, area) == 0.0
  {
    hide FirstNormal;
  }

  /** Column c is the first of those that are seen best. */
  ghost predicate SeenBest(cols: seq<Column>, views: ViewTable, area: Box, c: nat)
  {
    && c < |cols| && Visibility(cols[c], views, area) > 0.0
    && forall d | 0 <= d < |cols| :: Visibility(cols[d], views, area) <= Visibility(cols[c], views, area)
                                     && (d < c ==> Visibility(cols[d], views, area) < Visibility(cols[c], views, area))
  }

  /** There is no column to look for a view in. */
  ghost predicate NothingToFocus(cols: seq<Column>, views: ViewTable, area: Box, focused: Option<ViewId>)
  {
    focused.None? && forall d | 0 <= d < |cols| :: Visibility(cols[d], views, area) == 0.0
  }

  /** Column best is the first of those that are seen best, or there is none of which anything is seen. If it is seen
      better, by more than a hundredth, than the column of the focused view, then v is its last focused view; otherwise
      v is the focused view. */
  ghost predicate Dominates(cols: seq<Column>, views: ViewTable, area: Box, stack: seq<ViewId>, focused: Option<ViewId>,
                            v: Option<ViewId>, best: nat)
  {
    var own := FocusedVisibility(cols, views, area, focused);
    && best <= |cols|
    && (if best < |cols| then SeenBest(cols, views, area, best)
        else forall d | 0 <= d < |cols| :: Visibility(cols[d], views, area) == 0.0)
    && (best < |cols| && (focused.None? || Visibility(cols[best], views, area) - own > 0.01) ==>
          var first := FirstTiled(stack, cols[best], views);
          v == if first.Some? then first else focused)
    && (focused.Some? && (best == |cols| || Visibility(cols[best], views, area) - own <= 0.01) ==> v == focused)
  }

  /** What is seen of the column of the focused view. */
  function FocusedVisibility(cols: seq<Column>, views: ViewTable, area: Box, focused: Option<ViewId>): (r: real)
    ensures 0.0 <= r <= 1.0
  {
    if focused.None? || !IsNormal(views, focused.value) || FindColumn(cols, focused.value) == |cols| then 0.0
    else Visibility(cols[FindColumn(cols, focused.value)], views, area)
  }

  /** There a scroll never changes the focus, and looks for a column that is not there when nothing is focused. */
  lemma FarRightKeepsTheFocus(cols: seq<Column>, views: ViewTable, area: Box, stack: seq<ViewId>,
                              focused: Option<ViewId>, v: Option<ViewId>, best: nat)
    requires area.x >= area.y + area.height && forall u | u in views :: views[u].geometry.y >= 0
    requires Dominates(cols, views, area, stack, focused, v, best)
    ensures best == |cols| && (focused.Some? ==> v == focused)
    ensures NothingToFocus(cols, views, area, focused) <==> focused.None?
  {
    hide Visibility, FirstNormal;
    forall d | 0 <= d < |cols|
      ensures Visibility(cols[d], views, area) == 0.0
    {
      NothingIsSeenFarRight(cols[d], views, area);
    }
  }

  /** `get_mapped_and_normal_set`. */
  method NormalSet(col: Column, views: ViewTable) returns (s: set<ViewId>)
    requires col != []
    ensures forall v :: v in s <==> IsNormalTile(col, views, v)
  {
    s := {};
    var t := BeginTiles(col, views);
    while t != |col|
      invariant t <= |col| && AtTileOrEnd(col, views, t)
      invariant forall v | v in s :: IsNormalTile(col, views, v)
      invariant forall u | 0 <= u < t && IsNormal(views, col[u].view) :: col[u].view in s
      decreases |col| - t
    {
      HoldsView(col, t);
      s := s + {col[t].view};
      t := NextTile(col, views, t);
    }
  }

  /** How much of one column is seen, as the loop over the columns computes it. */
  method JudgeColumn(col: Column, views: ViewTable, area: Box) returns (visibility: real)
    requires col != []
    ensures visibility == Visibility(col, views, area)
  {
    var t := BeginTiles(col, views);
    assert FirstNormal(col, views) == t;
    visibility := 0.0;
    if t != |col| {
      var box := ColumnBox(views[col[t].view], area);
      var seen := Overlap(area, box);
      if seen.Some? {
        PartOf(seen.value.width, seen.value.height, box.width, box.height);
        visibility := (seen.value.width * seen.value.height) as real / (box.width * box.height) as real;
      }
    }
  }

  /** `find_dominant_view`. The focused view stays unless the best seen column beats its column by more than a
      hundredth; then it is the last focused view of that column. lost: the code looks into a
      column that is not there, which it does exactly when there is no focused view and nothing is seen. */
  method FindDominantView(workspace: Workspace, surfaces: SurfaceManager, env: Env, stack: seq<ViewId>,
                          focused: Option<ViewId>)
    returns (v: Option<ViewId>, best: nat, lost: bool)
    requires NoEmptyColumn(workspace.columns) && Distinct(workspace.columns)
    requires workspace.output.Some? ==> workspace.output.value in env.outputs
    ensures workspace.output.None? ==> v == None && !lost
    ensures workspace.output.Some? ==>
              var area := RealUsableArea(env.outputs[workspace.output.value]);
              && Dominates(workspace.columns, surfaces.views, area, stack, focused, v, best)
              && (lost <==> NothingToFocus(workspace.columns, surfaces.views, area, focused))
  {
    v, best, lost := None, 0, false;
    if workspace.output.Some? {
      var area := RealUsableArea(env.outputs[workspace.output.value]);
      var maximum, own;
      best, maximum, own := JudgeColumns(workspace.columns, surfaces.views, area, focused);
      v := focused;
      if focused.None? || maximum - own > 0.01 {
        if best == |workspace.columns| {
          lost := true;
        } else {
          var found := FirstTiledOf(stack, workspace.columns[best], surfaces.views);
          if found.Some? {
            v := found;
          }
        }
      }
    }
  }

  method FirstTiledOf(stack: seq<ViewId>, col: Column, views: ViewTable) returns (v: Option<ViewId>)
    requires col != []
    ensures v == FirstTiled(stack, col, views)
  {
    var tiles := NormalSet(col, views);
    for k := 0 to |stack|
      invariant FirstTiled(stack, col, views) == FirstTiled(stack[k..], col, views)
    {
      assert stack[k..][1..] == stack[k + 1..];
      if stack[k] in tiles {
        return Some(stack[k]);
      }
    }
    v := None;
  }

  /** The loop over the columns. */
  method JudgeColumns(cols: seq<Column>, views: ViewTable, area: Box, focused: Option<ViewId>)
    returns (best: nat, maximum: real, own: real)
    requires NoEmptyColumn(cols) && Distinct(cols)
    ensures best <= |cols|
    ensures if best < |cols| then SeenBest(cols, views, area, best) && maximum == Visibility(cols[best], views, area)
            else maximum == 0.0 && forall d | 0 <= d < |cols| :: Visibility(cols[d], views, area) == 0.0
    ensures own == FocusedVisibility(cols, views, area, focused)
  {
    hide Visibility, Distinct, FindColumn;
    best, maximum, own := |cols|, 0.0, 0.0;
    for c := 0 to |cols|
      invariant best == |cols| || best < c
      invariant maximum == if best < |cols| then Visibility(cols[best], views, area) else 0.0
      invariant best < |cols|
                ==> maximum > 0.0 && forall d | 0 <= d < best :: Visibility(cols[d], views, area) < maximum
      invariant forall d | 0 <= d < c :: Visibility(cols[d], views, area) <= maximum
      invariant own == if focused.Some? && IsNormal(views, focused.value) && FindColumn(cols, focused.value) < c
                       then Visibility(cols[FindColumn(cols, focused.value)], views, area) else 0.0
    {
      var visibility := JudgeColumn(cols[c], views, area);
      if visibility > maximum {
        best, maximum := c, visibility;
      }
      var tiles := NormalSet(cols[c], views);
      if focused.Some? && focused.value in tiles {
        OnlyOneColumn(cols, focused.value, c);
        own := visibility;
      }
    }
  }
}
