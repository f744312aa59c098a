/** The commands that rearrange tiles: move, insert_into_column and pop_from_column, as
    functions on the shape of a workspace, and when each of them can be undone. */
module Rearranging {
  import opened Prelude
  import opened Views
  import opened Columns

  predicate IsNormal(views: map<ViewId, View>, v: ViewId)
  {
    v in views && views[v].IsMappedAndNormal()
  }

  // ---------------------------------------------------------------------------------------
  // move
  // ---------------------------------------------------------------------------------------

  function Sign(n: int): int
  {
    if n < 0 then -1 else if n == 0 then 0 else 1
  }

  function Swapped<T>(s: seq<T>, i: nat, j: nat): (r: seq<T>)
    requires i < |s| && j < |s|
    ensures |r| == |s|
  {
    s[i := s[j]][j := s[i]]
  }

  /** Whether the column of v has a neighbour in the direction of dx. */
  predicate CanStep(cols: seq<Column>, v: ViewId, dx: int)
  {
    0 <= FindColumn(cols, v) + Sign(dx) < |cols|
  }

  function StepColumn(cols: seq<Column>, v: ViewId, dx: int): (r: (seq<Column>, nat))
    requires FindColumn(cols, v) < |cols|
    ensures |r.0| == |cols| && r.1 < |cols|
  {
    var c := FindColumn(cols, v);
    if dx != 0 && CanStep(cols, v, dx) then (Swapped(cols, c, c + Sign(dx)), c + Sign(dx)) else (cols, c)
  }

  /** One step up the column, or around its end. */
  function Wrapped(t: int, s: int, n: int): int
    requires n > 0
  {
    (t - s + n) % n
  }

  /** Swaps the tile of v with the one above (dy positive) or below it, around the ends. */
  function StepTile(col: Column, v: ViewId, dy: int): (r: Column)
    requires HasView(col, v)
    ensures |r| == |col|
  {
    if dy == 0 || |col| < 2 then col
    else
      var t := FindTile(col, v);
      Swapped(col, t, Wrapped(t, Sign(dy), |col|))
  }

  lemma StepColumnKeepsView(cols: seq<Column>, v: ViewId, dx: int)
    requires FindColumn(cols, v) < |cols|
    ensures var (s, c) := StepColumn(cols, v, dx);
            s[c] == cols[FindColumn(cols, v)] && HasView(s[c], v)
  {
  }

  /** The shape after a move, and the column the view is in then. */
  function Moved(cols: seq<Column>, v: ViewId, dx: int, dy: int): (r: (seq<Column>, nat))
    requires FindColumn(cols, v) < |cols|
    ensures |r.0| == |cols| && r.1 < |cols|
  {
    StepColumnKeepsView(cols, v, dx);
    var (s, c) := StepColumn(cols, v, dx);
    (s[c := StepTile(s[c], v, dy)], c)
  }

  lemma {:induction false} CountInSwapped(col: Column, i: nat, j: nat, u: ViewId)
    requires i < |col| && j < |col|
    ensures CountIn(Swapped(col, i, j), u) == CountIn(col, u)
  {
    if j < i {
      assert Swapped(col, i, j) == Swapped(col, j, i);
      CountInSwapped(col, j, i, u);
    } else if i < j {
      var a, m, b := col[..i], col[i + 1..j], col[j + 1..];
      assert col == a + [col[i]] + m + [col[j]] + b;
      assert Swapped(col, i, j) == a + [col[j]] + m + [col[i]] + b;
      CountInFive(a, col[i], m, col[j], b, u);
      CountInFive(a, col[j], m, col[i], b, u);
    } else {
      assert Swapped(col, i, j) == col;
    }
  }

  lemma CountInFive(a: Column, x: Tile, m: Column, y: Tile, b: Column, u: ViewId)
    ensures CountIn(a + [x] + m + [y] + b, u) ==
            CountIn(a, u) + CountIn([x], u) + CountIn(m, u) + CountIn([y], u) + CountIn(b, u)
  {
    CountInConcat(a + [x] + m + [y], b, u);
    CountInConcat(a + [x] + m, [y], u);
    CountInConcat(a + [x], m, u);
    CountInConcat(a, [x], u);
  }

  lemma {:induction false} CountSwapped(cols: seq<Column>, i: nat, j: nat, u: ViewId)
    requires i < j < |cols|
    ensures Count(Swapped(cols, i, j), u) == Count(cols, u)
  {
    var s := Swapped(cols, i, j);
    CountAround(cols, j, u);
    CountAround(cols[..j], i, u);
    CountAround(s, j, u);
    CountAround(s[..j], i, u);
    assert s[j + 1..] == cols[j + 1..];
    assert s[..j][..i] == cols[..j][..i];
    assert s[..j][i + 1..] == cols[..j][i + 1..];
  }

  lemma CountSameColumn(cols: seq<Column>, c: nat, col: Column, u: ViewId)
    requires c < |cols| && CountIn(col, u) == CountIn(cols[c], u)
    ensures Count(cols[c := col], u) == Count(cols, u)
  {
    CountReplace(cols, c, [col], u);
    CountOfOne(col, u);
    assert cols[c := col] == cols[..c] + [col] + cols[c + 1..];
  }

  lemma StepTileCount(col: Column, v: ViewId, dy: int, u: ViewId)
    requires HasView(col, v)
    ensures CountIn(StepTile(col, v, dy), u) == CountIn(col, u)
  {
    if dy != 0 && |col| >= 2 {
      var t := FindTile(col, v);
      CountInSwapped(col, t, Wrapped(t, Sign(dy), |col|), u);
    }
  }

  /** A move loses no view and gains none, keeps every column's set of views together and
      changes places of at most two columns. */
  lemma MoveIsAPermutation(cols: seq<Column>, v: ViewId, dx: int, dy: int)
    requires FindColumn(cols, v) < |cols|
    ensures forall u :: Count(Moved(cols, v, dx, dy).0, u) == Count(cols, u)
    ensures forall c, u | 0 <= c < |cols| ::
              CountIn(Moved(cols, v, dx, dy).0[c], u) == CountIn(StepColumn(cols, v, dx).0[c], u)
    ensures NoEmptyColumn(cols) ==> NoEmptyColumn(Moved(cols, v, dx, dy).0)
  {
    hide Count, CountIn, FindColumn, StepTile;
    StepColumnKeepsView(cols, v, dx);
    var c := FindColumn(cols, v);
    var (s, d) := StepColumn(cols, v, dx);
    forall u
      ensures CountIn(StepTile(s[d], v, dy), u) == CountIn(s[d], u)
      ensures Count(Moved(cols, v, dx, dy).0, u) == Count(cols, u)
    {
      if s != cols {
        if c < d {
          CountSwapped(cols, c, d, u);
        } else {
          CountSwapped(cols, d, c, u);
          assert Swapped(cols, c, d) == Swapped(cols, d, c);
        }
      }
      StepTileCount(s[d], v, dy, u);
      CountSameColumn(s, d, StepTile(s[d], v, dy), u);
    }
  }

  lemma TileFound(col: Column, v: ViewId)
    requires HasView(col, v)
    ensures FindTile(col, v) < |col|
  {
  }

  lemma TileIsAt(col: Column, v: ViewId, t: nat)
    requires t < |col| && col[t].view == v && forall u | 0 <= u < |col| && u != t :: col[u].view != v
    ensures FindTile(col, v) == t && HasView(col, v)
  {
  }

  lemma SwapBackAt(col: Column, v: ViewId, t: nat, o: nat)
    requires t < |col| && o < |col| && col[t].view == v && forall u | 0 <= u < |col| && u != t :: col[u].view != v
    ensures var s := Swapped(col, t, o);
            FindTile(s, v) == o && HasView(s, v) && Swapped(s, o, t) == col
  {
    hide FindTile, HasView;
    TileIsAt(Swapped(col, t, o), v, o);
    SwappedBack(col, t, o);
  }

  lemma StepTileBack(col: Column, v: ViewId, dy: int)
    requires HasView(col, v) && forall u | 0 <= u < |col| && u != FindTile(col, v) :: col[u].view != v
    ensures HasView(StepTile(col, v, dy), v)
    ensures StepTile(StepTile(col, v, dy), v, -dy) == col
  {
    hide FindTile, HasView, Wrapped, Swapped, Sign;
    if dy != 0 && |col| >= 2 {
      var t := FindTile(col, v);
      TileFound(col, v);
      var o := Wrapped(t, Sign(dy), |col|);
      SignOfOpposite(dy);
      WrapBack(t, Sign(dy), |col|);
      SwapBackAt(col, v, t, o);
    }
  }

  lemma SignOfOpposite(n: int)
    ensures Sign(-n) == -Sign(n) && -1 <= Sign(n) <= 1
  {
  }

  lemma SwappedBack<T>(s: seq<T>, i: nat, j: nat)
    requires i < |s| && j < |s|
    ensures Swapped(Swapped(s, i, j), j, i) == s
  {
  }

  lemma ModByCases(x: int, n: int)
    requires 0 <= x <= 2 * n && n > 0
    ensures x % n == if x < n then x else if x < 2 * n then x - n else 0
  {
    var q := x / n;
    if q < 0 {
      TimesAtLeast(-1, q, n);
    } else if q > 2 {
      TimesAtLeast(q, 3, n);
    }
  }

  lemma TimesAtLeast(p: int, q: int, n: int)
    requires p >= q && n > 0
    ensures p * n >= q * n
  {
  }

  lemma WrapBack(t: int, s: int, n: int)
    requires 0 <= t < n && -1 <= s <= 1 && n >= 2
    ensures 0 <= Wrapped(t, s, n) < n
    ensures Wrapped(Wrapped(t, s, n), -s, n) == t
  {
    ModByCases(t - s + n, n);
    ModByCases(Wrapped(t, s, n) + s + n, n);
  }

  /** The column of v, wherever it is put. */
  lemma FindMoved(cols: seq<Column>, s: seq<Column>, v: ViewId, d: nat, col: Column)
    requires |s| == |cols| && d < |s| && s[d] == col && HasView(col, v)
    requires forall c | 0 <= c < |s| && c != d :: !HasView(s[c], v)
    ensures FindColumn(s, v) == d
  {
  }

  /** Moving back undoes a move exactly when its column step was not stopped by an edge (or there
      was no column step, or no other column to step to). */
  lemma MoveBack(cols: seq<Column>, v: ViewId, dx: int, dy: int)
    requires Distinct(cols) && FindColumn(cols, v) < |cols|
    ensures FindColumn(Moved(cols, v, dx, dy).0, v) == Moved(cols, v, dx, dy).1
    ensures Moved(Moved(cols, v, dx, dy).0, v, -dx, -dy).0 == cols <==>
            || dx == 0 || |cols| == 1
            || (if dx > 0 then FindColumn(cols, v) + 1 < |cols| else FindColumn(cols, v) > 0)
  {
    hide FindColumn, FindTile, StepTile, Distinct;
    StepColumnKeepsView(cols, v, dx);
    var c := FindColumn(cols, v);
    var (s, d) := StepColumn(cols, v, dx);
    var col := cols[c];
    assert s[d] == col;
    var col' := StepTile(col, v, dy);
    OnlyOneTile(cols, c, FindTile(col, v));
    StepTileBack(col, v, dy);
    var m := s[d := col'];
    OnlyOneColumn(cols, v, c);
    FindMoved(cols, m, v, d, col');
    StepColumnKeepsView(m, v, -dx);
    var (s', d') := StepColumn(m, v, -dx);
    assert s'[d'] == col';
    var back := s'[d' := col];
    assert Moved(m, v, -dx, -dy).0 == back;
    if dx == 0 || |cols| == 1 {
      assert back == cols;
    } else if CanStep(cols, v, dx) {
      assert d' == c;
      assert back == cols;
    } else {
      assert d' == c - Sign(dx) && back[d'] == col;
      assert HasView(back[d'], v) && !HasView(cols[d'], v);
    }
  }

  /** From shape cols to shape m, the column of a tile changes places with the one on its right (dx positive) or on its
      left, if there is one, and the tile in it with the one above (dy positive) or below it, around the ends. */
  ghost predicate StepTaken(cols: seq<Column>, m: seq<Column>, c: nat, t: nat, dx: int, dy: int)
    requires c < |cols| && t < |cols[c]|
  {
    var n := |cols[c]|;
    var d := if dx > 0 && c + 1 < |cols| then c + 1 else if dx < 0 && c > 0 then c - 1 else c;
    var u := if dy > 0 then (if t > 0 then t - 1 else n - 1)
             else if dy < 0 then (if t + 1 < n then t + 1 else 0)
             else t;
    && |m| == |cols|
    && (d != c ==> m[c] == cols[d])
    && (forall e | 0 <= e < |cols| && e != c && e != d :: m[e] == cols[e])
    && |m[d]| == n && m[d][u] == cols[c][t] && m[d][t] == cols[c][u]
    && forall x | 0 <= x < n && x != t && x != u :: m[d][x] == cols[c][x]
  }

  /** A move takes the tile exactly one step each way, however large dx and dy are. */
  lemma MoveSteps(cols: seq<Column>, c: nat, t: nat, dx: int, dy: int)
    requires Distinct(cols) && c < |cols| && t < |cols[c]|
    ensures FindColumn(cols, cols[c][t].view) < |cols|
    ensures StepTaken(cols, Moved(cols, cols[c][t].view, dx, dy).0, c, t, dx, dy)
  {
    hide FindColumn, FindTile, Distinct;
    FindAt(cols, c, t);
    HoldsView(cols[c], t);
    var n := |cols[c]|;
    if n >= 2 {
      ModByCases(t - Sign(dy) + n, n);
    }
  }

  // ---------------------------------------------------------------------------------------
  // insert_into_column and pop_from_column
  // ---------------------------------------------------------------------------------------

  /** The first mapped and normal tile, or the number of tiles. */
  function FirstNormal(col: Column, views: map<ViewId, View>): (t: nat)
    ensures t <= |col|
    ensures t < |col| ==> IsNormal(views, col[t].view)
    ensures forall u | 0 <= u < t :: !IsNormal(views, col[u].view)
  {
    if col == [] || IsNormal(views, col[0].view) then 0 else 1 + FirstNormal(col[1..], views)
  }

  /** The view the insert command absorbs into the column of the focused view, if any. */
  function Absorbed(cols: seq<Column>, views: map<ViewId, View>, focused: ViewId): Option<ViewId>
  {
    var c := FindColumn(cols, focused);
    if c + 1 >= |cols| then None
    else
      var t := FirstNormal(cols[c + 1], views);
      if t == |cols[c + 1]| then None else Some(cols[c + 1][t].view)
  }

  lemma AbsorbedIsElsewhere(cols: seq<Column>, views: map<ViewId, View>, focused: ViewId)
    requires Distinct(cols) && Absorbed(cols, views, focused).Some?
    ensures FindColumn(cols, Absorbed(cols, views, focused).value) == FindColumn(cols, focused) + 1
    ensures FindColumn(cols, Absorbed(cols, views, focused).value) < |cols|
  {
    var c := FindColumn(cols, focused);
    FindAt(cols, c + 1, FirstNormal(cols[c + 1], views));
  }

  function InsertCommand(cols: seq<Column>, views: map<ViewId, View>, focused: ViewId): seq<Column>
    requires Distinct(cols) && FindColumn(cols, focused) < |cols|
  {
    var a := Absorbed(cols, views, focused);
    if a.None? then cols
    else
      AbsorbedIsElsewhere(cols, views, focused);
      InsertIntoColumn(cols, a.value, FindColumn(cols, focused))
  }

  function PopCommand(cols: seq<Column>, views: map<ViewId, View>, focused: ViewId): seq<Column>
    requires focused in views
  {
    var c := FindColumn(cols, focused);
    if views[focused].expansion != Normal || c == |cols| then cols else PopFromColumn(cols, c)
  }

  lemma RemoveAt(cols: seq<Column>, c: nat, t: nat)
    requires Distinct(cols) && c < |cols| && t < |cols[c]|
    ensures FindColumn(cols, cols[c][t].view) == c
    ensures var left := cols[c][..t] + cols[c][t + 1..];
            && RemoveTile(cols[c], cols[c][t].view) == left
            && RemoveView(cols, cols[c][t].view) ==
               if left == [] then cols[..c] + cols[c + 1..] else cols[..c] + [left] + cols[c + 1..]
  {
    FindAt(cols, c, t);
    OnlyOneTile(cols, c, t);
    RemoveTileAt(cols[c], t);
  }

  /** The shape with the bottom tile of column c in a column of its own. */
  function SplitColumn(cols: seq<Column>, c: nat): seq<Column>
    requires c < |cols| && cols[c] != []
  {
    var n := |cols[c]| - 1;
    cols[..c] + [cols[c][..n], [NewTile(cols[c][n].view)]] + cols[c + 1..]
  }

  /** In a distinct shape, popping splits the bottom tile off into a column of its own. */
  lemma PopSplits(cols: seq<Column>, c: nat)
    requires Distinct(cols) && c < |cols| && |cols[c]| >= 2
    ensures var n := |cols[c]| - 1;
            PopFromColumn(cols, c) == cols[..c] + [cols[c][..n], [NewTile(cols[c][n].view)]] + cols[c + 1..]
  {
    var col: Column := cols[c];
    var n := |col| - 1;
    RemoveAt(cols, c, n);
    assert col[..n] + col[n + 1..] == col[..n];
    var rest: seq<Column> := cols[..c] + [col[..n]] + cols[c + 1..];
    assert rest[c][0].view == col[0].view;
    OnlyOneColumnBefore(cols, rest, c, col[0].view);
    assert rest[..c + 1] == cols[..c] + [col[..n]];
    assert rest[c + 1..] == cols[c + 1..];
  }

  lemma PopIsSplit(cols: seq<Column>, c: nat)
    requires Distinct(cols) && c < |cols| && |cols[c]| >= 2
    ensures PopFromColumn(cols, c) == SplitColumn(cols, c)
  {
    PopSplits(cols, c);
  }

  lemma OnlyOneColumnBefore(cols: seq<Column>, rest: seq<Column>, c: nat, v: ViewId)
    requires Distinct(cols) && c < |cols| && HasView(cols[c], v)
    requires c < |rest| && rest[..c] == cols[..c] && HasView(rest[c], v)
    ensures FindColumn(rest, v) == c
  {
    OnlyOneColumn(cols, v, c);
    assert forall d | 0 <= d < c :: rest[d] == rest[..c][d] == cols[d];
  }

  /** What is left of a column that loses one tile: nothing at all if it was its only one. */
  function Left(col: Column, t: nat): seq<Column>
    requires t < |col|
  {
    var left := col[..t] + col[t + 1..];
    if left == [] then [] else [left]
  }

  lemma RemoveRight(cols: seq<Column>, c: nat, t: nat)
    requires Distinct(cols) && c + 1 < |cols| && t < |cols[c + 1]|
    ensures var v := cols[c + 1][t].view;
            && FindColumn(cols, v) == c + 1
            && RemoveView(cols, v) == cols[..c + 1] + (Left(cols[c + 1], t) + cols[c + 2..])
  {
    RemoveAt(cols, c + 1, t);
  }

  lemma SplitsAt(cols: seq<Column>, c: nat, tail: seq<Column>)
    requires c < |cols|
    ensures var rest := cols[..c + 1] + tail;
            rest[..c] == cols[..c] && rest[c] == cols[c] && rest[c + 1..] == tail
  {
  }

  /** Inserting from the next column moves one of its tiles to the bottom of column c. */
  lemma InsertAppends(cols: seq<Column>, c: nat, t: nat)
    requires Distinct(cols) && c + 1 < |cols| && t < |cols[c + 1]|
    ensures FindColumn(cols, cols[c + 1][t].view) == c + 1
    ensures var v := cols[c + 1][t].view;
            InsertIntoColumn(cols, v, c) ==
              cols[..c] + [cols[c] + [NewTile(v)]] + (Left(cols[c + 1], t) + cols[c + 2..])
  {
    RemoveRight(cols, c, t);
    SplitsAt(cols, c, Left(cols[c + 1], t) + cols[c + 2..]);
  }

  /** Popping and inserting only move tiles around, so a distinct shape stays distinct. */
  lemma PopKeepsDistinct(cols: seq<Column>, c: nat)
    requires Distinct(cols) && c < |cols|
    ensures Distinct(PopFromColumn(cols, c))
  {
    forall v
      ensures Count(cols, v) <= 1
    {
      DistinctCountsOnce(cols, v);
    }
    forall v
      ensures Count(PopFromColumn(cols, c), v) <= 1
    {
      PopFromColumnCount(cols, c, v);
    }
    CountedOnceIsDistinct(PopFromColumn(cols, c));
  }

  lemma InsertKeepsDistinct(cols: seq<Column>, v: ViewId, c: nat)
    requires Distinct(cols) && c < |cols| && FindColumn(cols, v) < |cols| && FindColumn(cols, v) != c
    ensures Distinct(InsertIntoColumn(cols, v, c))
  {
    FindColumnIsMembership(cols, v);
    forall u
      ensures Count(InsertIntoColumn(cols, v, c), u) <= 1
    {
      DistinctCountsOnce(cols, v);
      DistinctCountsOnce(cols, u);
      InsertIntoColumnCount(cols, v, c, u);
    }
    CountedOnceIsDistinct(InsertIntoColumn(cols, v, c));
  }

  /** Popping the bottom tile off the focused view's column and inserting again restores the
      shape exactly when the focused view is not itself the one that is popped. */
  lemma PopThenInsert(cols: seq<Column>, views: map<ViewId, View>, focused: ViewId)
    requires Distinct(cols) && FindColumn(cols, focused) < |cols|
    requires var col := cols[FindColumn(cols, focused)];
             |col| >= 2 && col[|col| - 1].scale == 1.0 && forall t | 0 <= t < |col| :: IsNormal(views, col[t].view)
    requires focused in views
    ensures var popped := PopCommand(cols, views, focused);
            && Distinct(popped) && FindColumn(popped, focused) < |popped|
            && var col := cols[FindColumn(cols, focused)];
               (InsertCommand(popped, views, focused) == cols <==> col[|col| - 1].view != focused)
  {
    var c := FindColumn(cols, focused);
    var col := cols[c];
    var n := |col| - 1;
    hide PopFromColumn, InsertCommand, Distinct, FindColumn, FindTile, HasView, SplitColumn;
    TileFound(col, focused);
    PopIsSplit(cols, c);
    PopKeepsDistinct(cols, c);
    var p: seq<Column> := PopFromColumn(cols, c);
    if col[n].view != focused {
      InsertAfterPop(cols, p, views, focused);
    } else {
      InsertBesidePopped(cols, p, views, focused);
    }
  }

  /** When the focused view itself was popped, its old column stays one tile short. */
  lemma InsertBesidePopped(cols: seq<Column>, p: seq<Column>, views: map<ViewId, View>, focused: ViewId)
    requires Distinct(p) && FindColumn(cols, focused) < |cols|
    requires var c := FindColumn(cols, focused);
             var n := |cols[c]| - 1;
             n > 0 && cols[c][n].view == focused && p == SplitColumn(cols, c)
    ensures FindColumn(p, focused) < |p| && InsertCommand(p, views, focused) != cols
  {
    hide InsertCommand, Distinct, FindColumn, FindTile, HasView;
    var c := FindColumn(cols, focused);
    var n := |cols[c]| - 1;
    SplicedTwo(cols, c, cols[c][..n], [NewTile(focused)]);
    FindAt(p, c + 1, 0);
    ColumnStaysShort(p, views, focused);
    assert |p[c]| != |cols[c]|;
  }

  lemma SplicedTwo(cols: seq<Column>, c: nat, x: Column, y: Column)
    requires c < |cols|
    ensures var p := cols[..c] + [x, y] + cols[c + 1..];
            |p| == |cols| + 1 && p[..c] == cols[..c] && p[c] == x && p[c + 1] == y && p[c + 2..] == cols[c + 1..]
  {
  }

  lemma SplicedOne(cols: seq<Column>, c: nat, x: Column, tail: seq<Column>)
    requires c < |cols|
    ensures var p := cols[..c] + [x] + tail;
            |p| == c + 1 + |tail| && p[..c] == cols[..c] && p[c] == x && p[c + 1..] == tail
  {
  }

  lemma Joined(cols: seq<Column>, c: nat)
    requires c < |cols|
    ensures cols[..c] + [cols[c]] + cols[c + 1..] == cols
    ensures c + 1 < |cols| ==> cols[..c] + [cols[c], cols[c + 1]] + cols[c + 2..] == cols
  {
  }

  lemma Rejoined(cols: seq<Column>, c: nat)
    requires c < |cols| && cols[c] != [] && cols[c][|cols[c]| - 1].scale == 1.0
    ensures var n := |cols[c]| - 1;
            var y := [NewTile(cols[c][n].view)];
            cols[..c] + [cols[c][..n] + y] + (Left(y, 0) + cols[c + 1..]) == cols
  {
    var n := |cols[c]| - 1;
    var y := [NewTile(cols[c][n].view)];
    assert Left(y, 0) + cols[c + 1..] == cols[c + 1..];
    assert cols[c][..n] + y == cols[c];
    Joined(cols, c);
  }

  lemma InsertAfterPop(cols: seq<Column>, p: seq<Column>, views: map<ViewId, View>, focused: ViewId)
    requires Distinct(cols) && Distinct(p) && FindColumn(cols, focused) < |cols|
    requires var c := FindColumn(cols, focused);
             var n := |cols[c]| - 1;
             && n > 0 && cols[c][n].scale == 1.0 && cols[c][n].view != focused && IsNormal(views, cols[c][n].view)
             && p == SplitColumn(cols, c)
    ensures FindColumn(p, focused) == FindColumn(cols, focused)
    ensures InsertCommand(p, views, focused) == cols
  {
    hide InsertIntoColumn, Distinct, FindColumn, FindTile, IsNormal, Left;
    var c := FindColumn(cols, focused);
    var n := |cols[c]| - 1;
    var x, y := cols[c][..n], [NewTile(cols[c][n].view)];
    SplicedTwo(cols, c, x, y);
    var f := FindTile(cols[c], focused);
    assert x[f].view == focused;
    FindAt(p, c, f);
    assert FirstNormal(y, views) == 0;
    InsertAppends(p, c, 0);
    Rejoined(cols, c);
  }

  /** Inserting into the focused column leaves the columns on its left alone. */
  lemma ColumnStaysShort(p: seq<Column>, views: map<ViewId, View>, focused: ViewId)
    requires Distinct(p) && 0 < FindColumn(p, focused) < |p|
    ensures var c := FindColumn(p, focused);
            var r := InsertCommand(p, views, focused);
            c <= |r| && r[c - 1] == p[c - 1]
  {
    var c := FindColumn(p, focused);
    if Absorbed(p, views, focused).Some? {
      InsertAppends(p, c, FirstNormal(p[c + 1], views));
    }
  }

  /** Inserting and popping again restores the shape exactly when the column on the right was a
      single tile. */
  lemma InsertThenPop(cols: seq<Column>, views: map<ViewId, View>, focused: ViewId)
    requires Distinct(cols) && FindColumn(cols, focused) + 1 < |cols|
    requires focused in views && views[focused].expansion == Normal
    requires var right := cols[FindColumn(cols, focused) + 1];
             right != [] && right[0].scale == 1.0 && IsNormal(views, right[0].view)
    ensures PopCommand(InsertCommand(cols, views, focused), views, focused) == cols <==>
            |cols[FindColumn(cols, focused) + 1]| == 1
  {
    var c := FindColumn(cols, focused);
    var right := cols[c + 1];
    assert FirstNormal(right, views) == 0;
    InsertAppends(cols, c, 0);
    var v := right[0].view;
    InsertKeepsDistinct(cols, v, c);
    PopAfterInsert(cols, InsertCommand(cols, views, focused), views, focused, v, Left(right, 0) + cols[c + 2..]);
    SplitOffFirst(cols, c);
  }

  lemma SplitOffFirst(cols: seq<Column>, c: nat)
    requires c + 1 < |cols| && cols[c + 1] != [] && cols[c + 1][0].scale == 1.0
    ensures var right := cols[c + 1];
            cols[..c] + [cols[c], [NewTile(right[0].view)]] + (Left(right, 0) + cols[c + 2..]) == cols <==> |right| == 1
  {
    var right := cols[c + 1];
    assert right[..0] + right[1..] == right[1..];
    if |right| == 1 {
      assert right == [NewTile(right[0].view)];
      assert [] + cols[c + 2..] == cols[c + 2..];
      Joined(cols, c);
    }
  }

  lemma PopAfterInsert(cols: seq<Column>, p: seq<Column>, views: map<ViewId, View>, focused: ViewId, v: ViewId,
                       tail: seq<Column>)
    requires Distinct(p) && FindColumn(cols, focused) < |cols|
    requires focused in views && views[focused].expansion == Normal
    requires var c := FindColumn(cols, focused);
             p == cols[..c] + [cols[c] + [NewTile(v)]] + tail
    ensures var c := FindColumn(cols, focused);
            PopCommand(p, views, focused) == cols[..c] + [cols[c], [NewTile(v)]] + tail
  {
    var c := FindColumn(cols, focused);
    var x := cols[c] + [NewTile(v)];
    SplicedOne(cols, c, x, tail);
    var f := FindTile(cols[c], focused);
    assert x[f].view == focused;
    FindAt(p, c, f);
    PopSplits(p, c);
    assert x[..|x| - 1] == cols[c];
  }
}
