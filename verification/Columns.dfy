/** The shape of a workspace: columns of tiles, and the list surgery the tiling commands
    perform on them. */
module Columns {
  import opened Prelude

  /** How many parts of its column's height a tile takes. */
  type Scale = r: real | r > 0.0 witness 1.0

  datatype Tile = Tile(view: ViewId, scale: Scale)

  type Column = seq<Tile>

  /** A freshly placed tile takes one part of its column's height. */
  function NewTile(v: ViewId): Tile
  {
    Tile(v, 1.0)
  }

  // ---------------------------------------------------------------------------------------
  // What a shape holds
  // ---------------------------------------------------------------------------------------

  predicate HasView(col: Column, v: ViewId)
  {
    exists t | 0 <= t < |col| :: col[t].view == v
  }

  lemma HoldsView(col: Column, t: nat)
    requires t < |col|
    ensures HasView(col, col[t].view)
  {
  }

  /** How many tiles of a column hold v. */
  function CountIn(col: Column, v: ViewId): nat
  {
    if col == [] then 0 else CountIn(col[..|col| - 1], v) + (if col[|col| - 1].view == v then 1 else 0)
  }

  /** How many tiles of a shape hold v. */
  function Count(cols: seq<Column>, v: ViewId): nat
  {
    if cols == [] then 0 else Count(cols[..|cols| - 1], v) + CountIn(cols[|cols| - 1], v)
  }

  ghost predicate NoEmptyColumn(cols: seq<Column>)
  {
    forall c | 0 <= c < |cols| :: cols[c] != []
  }

  lemma {:induction false} CountInConcat(a: Column, b: Column, v: ViewId)
    ensures CountIn(a + b, v) == CountIn(a, v) + CountIn(b, v)
  {
    if b == [] {
      assert a + b == a;
    } else {
      CountInConcat(a, b[..|b| - 1], v);
      assert (a + b)[..|a + b| - 1] == a + b[..|b| - 1];
    }
  }

  lemma {:induction false} CountConcat(a: seq<Column>, b: seq<Column>, v: ViewId)
    ensures Count(a + b, v) == Count(a, v) + Count(b, v)
  {
    if b == [] {
      assert a + b == a;
    } else {
      CountConcat(a, b[..|b| - 1], v);
      assert (a + b)[..|a + b| - 1] == a + b[..|b| - 1];
    }
  }

  lemma {:induction false} CountInMember(col: Column, v: ViewId)
    ensures CountIn(col, v) > 0 <==> HasView(col, v)
  {
    if col == [] {
    } else {
      var last := |col| - 1;
      CountInMember(col[..last], v);
      if HasView(col, v) {
        var t :| 0 <= t < |col| && col[t].view == v;
        assert t < last ==> col[..last][t].view == v;
      }
      if HasView(col[..last], v) {
        var t :| 0 <= t < last && col[..last][t].view == v;
        assert col[t].view == v;
      }
    }
  }

  /** Column c splits the shape. */
  lemma CountAround(cols: seq<Column>, c: nat, v: ViewId)
    requires c < |cols|
    ensures Count(cols, v) == Count(cols[..c], v) + CountIn(cols[c], v) + Count(cols[c + 1..], v)
  {
    assert cols == cols[..c + 1] + cols[c + 1..];
    CountConcat(cols[..c + 1], cols[c + 1..], v);
    assert cols[..c + 1][..c] == cols[..c];
  }

  lemma CountReplace(cols: seq<Column>, c: nat, mid: seq<Column>, v: ViewId)
    requires c < |cols|
    ensures Count(cols[..c] + mid + cols[c + 1..], v) == Count(cols, v) - CountIn(cols[c], v) + Count(mid, v)
  {
    CountAround(cols, c, v);
    CountConcat(cols[..c] + mid, cols[c + 1..], v);
    CountConcat(cols[..c], mid, v);
  }

  lemma CountInsert(cols: seq<Column>, at: nat, mid: seq<Column>, v: ViewId)
    requires at <= |cols|
    ensures Count(cols[..at] + mid + cols[at..], v) == Count(cols, v) + Count(mid, v)
  {
    assert cols == cols[..at] + cols[at..];
    CountConcat(cols[..at], cols[at..], v);
    CountConcat(cols[..at] + mid, cols[at..], v);
    CountConcat(cols[..at], mid, v);
  }

  lemma CountOfOne(col: Column, v: ViewId)
    ensures Count([col], v) == CountIn(col, v)
  {
    assert [col][..0] == [];
  }

  lemma CountInOfOne(t: Tile, v: ViewId)
    ensures CountIn([t], v) == (if t.view == v then 1 else 0)
  {
    assert [t][..0] == [];
  }

  lemma CountMember(cols: seq<Column>, c: nat, v: ViewId)
    requires c < |cols| && HasView(cols[c], v)
    ensures Count(cols, v) > 0
  {
    CountInMember(cols[c], v);
    CountAround(cols, c, v);
  }

  lemma {:induction false} CountedColumn(cols: seq<Column>, v: ViewId) returns (c: nat)
    requires Count(cols, v) > 0
    ensures c < |cols| && HasView(cols[c], v)
  {
    var last := |cols| - 1;
    CountInMember(cols[last], v);
    if CountIn(cols[last], v) > 0 {
      c := last;
    } else {
      c := CountedColumn(cols[..last], v);
    }
  }

  // ---------------------------------------------------------------------------------------
  // find_column
  // ---------------------------------------------------------------------------------------

  /** The first column holding v, or the number of columns. */
  function FindColumn(cols: seq<Column>, v: ViewId): (c: nat)
    ensures c <= |cols|
    ensures c < |cols| ==> HasView(cols[c], v)
    ensures forall d | 0 <= d < c :: !HasView(cols[d], v)
  {
    if cols == [] || HasView(cols[0], v) then 0
    else
      var c := 1 + FindColumn(cols[1..], v);
      assert forall d | 1 <= d < c :: cols[d] == cols[1..][d - 1];
      c
  }

  /** The first tile holding v, or the number of tiles. */
  function FindTile(col: Column, v: ViewId): (t: nat)
    ensures t <= |col|
    ensures t < |col| ==> col[t].view == v
    ensures forall u | 0 <= u < t :: col[u].view != v
  {
    if col == [] || col[0].view == v then 0 else 1 + FindTile(col[1..], v)
  }

  lemma FindColumnIsMembership(cols: seq<Column>, v: ViewId)
    ensures FindColumn(cols, v) < |cols| <==> Count(cols, v) > 0
  {
    var c := FindColumn(cols, v);
    if c < |cols| {
      CountMember(cols, c, v);
    }
    if Count(cols, v) > 0 {
      var d := CountedColumn(cols, v);
    }
  }

  /** No view is tiled twice: looking for the view of a tile finds that tile. */
  ghost predicate Distinct(cols: seq<Column>)
  {
    forall c, t | 0 <= c < |cols| && 0 <= t < |cols[c]| :: FoundAt(cols, c, t)
  }

  ghost predicate FoundAt(cols: seq<Column>, c: nat, t: nat)
    requires c < |cols| && t < |cols[c]|
  {
    FindColumn(cols, cols[c][t].view) == c && FindTile(cols[c], cols[c][t].view) == t
  }

  lemma FindAt(cols: seq<Column>, c: nat, t: nat)
    requires Distinct(cols) && c < |cols| && t < |cols[c]|
    ensures FindColumn(cols, cols[c][t].view) == c
    ensures FindTile(cols[c], cols[c][t].view) == t
  {
    assert FoundAt(cols, c, t);
  }

  lemma OnlyOneColumn(cols: seq<Column>, v: ViewId, c: nat)
    requires Distinct(cols) && c < |cols| && HasView(cols[c], v)
    ensures FindColumn(cols, v) == c
    ensures forall d | 0 <= d < |cols| && d != c :: !HasView(cols[d], v)
  {
    var t :| 0 <= t < |cols[c]| && cols[c][t].view == v;
    FindAt(cols, c, t);
    forall d | 0 <= d < |cols| && HasView(cols[d], v)
      ensures d == c
    {
      var u :| 0 <= u < |cols[d]| && cols[d][u].view == v;
      FindAt(cols, d, u);
    }
  }

  lemma OnlyOneTile(cols: seq<Column>, c: nat, t: nat)
    requires Distinct(cols) && c < |cols| && t < |cols[c]|
    ensures forall u | 0 <= u < |cols[c]| && u != t :: cols[c][u].view != cols[c][t].view
  {
    FindAt(cols, c, t);
    forall u | 0 <= u < |cols[c]| && cols[c][u].view == cols[c][t].view
      ensures u == t
    {
      FindAt(cols, c, u);
    }
  }

  /** A shape in which every view counts at most once is distinct. */
  lemma CountedOnceIsDistinct(cols: seq<Column>)
    requires forall v :: Count(cols, v) <= 1
    ensures Distinct(cols)
  {
    forall c, t | 0 <= c < |cols| && 0 <= t < |cols[c]|
      ensures FoundAt(cols, c, t)
    {
      var v := cols[c][t].view;
      assert Count(cols, v) <= 1;
      assert HasView(cols[c], v);
      var d := FindColumn(cols, v);
      if d < c {
        TwoColumns(cols, c, d, v);
      }
      var u := FindTile(cols[c], v);
      if u < t {
        TwoTiles(cols[c], u, t);
        CountAround(cols, c, v);
      }
    }
  }

  lemma TwoColumns(cols: seq<Column>, c: nat, d: nat, v: ViewId)
    requires c < |cols| && d < |cols| && c != d && HasView(cols[c], v) && HasView(cols[d], v)
    ensures Count(cols, v) >= 2
  {
    CountAround(cols, c, v);
    CountInMember(cols[c], v);
    if d < c {
      assert cols[..c][d] == cols[d];
      CountMember(cols[..c], d, v);
    } else {
      assert cols[c + 1..][d - c - 1] == cols[d];
      CountMember(cols[c + 1..], d - c - 1, v);
    }
  }

  lemma TwoTiles(col: Column, t: nat, u: nat)
    requires t < u < |col| && col[t].view == col[u].view
    ensures CountIn(col, col[t].view) >= 2
  {
    var v := col[t].view;
    assert col == col[..u] + col[u..];
    CountInConcat(col[..u], col[u..], v);
    assert col[..u][t].view == v && col[u..][0].view == v;
    CountInMember(col[..u], v);
    CountInMember(col[u..], v);
  }

  lemma DistinctCountsOnce(cols: seq<Column>, v: ViewId)
    requires Distinct(cols)
    ensures Count(cols, v) <= 1
  {
    var c := FindColumn(cols, v);
    if c < |cols| {
      OnlyOneColumn(cols, v, c);
      CountAround(cols, c, v);
      NotCounted(cols[..c], v);
      NotCounted(cols[c + 1..], v);
      forall t, u | 0 <= t < u < |cols[c]|
        ensures cols[c][t].view != cols[c][u].view
      {
        OnlyOneTile(cols, c, t);
      }
      DistinctColumnCountsOnce(cols[c], v);
    } else {
      NotCounted(cols, v);
    }
  }

  lemma NotCounted(cols: seq<Column>, v: ViewId)
    requires forall c | 0 <= c < |cols| :: !HasView(cols[c], v)
    ensures Count(cols, v) == 0
  {
    FindColumnIsMembership(cols, v);
  }

  lemma {:induction false} DistinctColumnCountsOnce(col: Column, v: ViewId)
    requires forall t, u | 0 <= t < u < |col| :: col[t].view != col[u].view
    ensures CountIn(col, v) <= 1
  {
    if col == [] {
    } else {
      DistinctColumnCountsOnce(col[..|col| - 1], v);
      CountInMember(col[..|col| - 1], v);
    }
  }

  // ---------------------------------------------------------------------------------------
  // Surgery
  // ---------------------------------------------------------------------------------------

  /** `tiles.remove_if`: drops every tile of v. */
  function RemoveTile(col: Column, v: ViewId): Column
  {
    if col == [] then []
    else if col[0].view == v then RemoveTile(col[1..], v)
    else [col[0]] + RemoveTile(col[1..], v)
  }

  lemma {:induction false} RemoveTileCount(col: Column, v: ViewId, u: ViewId)
    ensures CountIn(RemoveTile(col, v), u) == if u == v then 0 else CountIn(col, u)
  {
    if col == [] {
    } else {
      RemoveTileCount(col[1..], v, u);
      CountInConcat([col[0]], col[1..], u);
      assert col == [col[0]] + col[1..];
      CountInOfOne(col[0], u);
      CountInConcat([col[0]], RemoveTile(col[1..], v), u);
    }
  }

  lemma {:induction false} RemoveTileAt(col: Column, t: nat)
    requires t < |col| && forall u | 0 <= u < |col| && u != t :: col[u].view != col[t].view
    ensures RemoveTile(col, col[t].view) == col[..t] + col[t + 1..]
  {
    if t == 0 {
      RemoveTileAbsent(col[1..], col[0].view);
    } else {
      RemoveTileAt(col[1..], t - 1);
      assert col[..t] + col[t + 1..] == [col[0]] + (col[1..][..t - 1] + col[1..][t..]);
    }
  }

  lemma {:induction false} RemoveTileAbsent(col: Column, v: ViewId)
    requires forall u | 0 <= u < |col| :: col[u].view != v
    ensures RemoveTile(col, v) == col
  {
    if col == [] {
    } else {
      RemoveTileAbsent(col[1..], v);
    }
  }

  /** Takes v out of the first column that holds it, and destroys the column if nothing is left. */
  function RemoveView(cols: seq<Column>, v: ViewId): seq<Column>
  {
    var c := FindColumn(cols, v);
    if c == |cols| then cols
    else
      var left := RemoveTile(cols[c], v);
      if left == [] then cols[..c] + cols[c + 1..] else cols[..c] + [left] + cols[c + 1..]
  }

  lemma RemoveViewCount(cols: seq<Column>, v: ViewId, u: ViewId)
    requires Count(cols, v) <= 1
    ensures Count(RemoveView(cols, v), u) == if u == v then 0 else Count(cols, u)
  {
    hide HasView, FindColumn, RemoveTile;
    var c := FindColumn(cols, v);
    FindColumnIsMembership(cols, v);
    if c < |cols| {
      var left := RemoveTile(cols[c], v);
      CountInMember(cols[c], v);
      CountAround(cols, c, v);
      RemoveTileCount(cols[c], v, u);
      if left == [] {
        CountReplace(cols, c, [], u);
        assert cols[..c] + [] + cols[c + 1..] == cols[..c] + cols[c + 1..];
      } else {
        CountReplace(cols, c, [left], u);
        CountOfOne(left, u);
      }
    }
  }

  /** A new column for v, right of the column that holds nextTo, or at the far end. */
  function AddColumn(cols: seq<Column>, v: ViewId, nextTo: Option<ViewId>): seq<Column>
  {
    var at := if nextTo.None? then |cols| else FindColumn(cols, nextTo.value);
    var at := if at < |cols| then at + 1 else at;
    cols[..at] + [[NewTile(v)]] + cols[at..]
  }

  lemma AddColumnCount(cols: seq<Column>, v: ViewId, nextTo: Option<ViewId>, u: ViewId)
    ensures Count(AddColumn(cols, v, nextTo), u) == Count(cols, u) + if u == v then 1 else 0
  {
    var at := if nextTo.None? then |cols| else FindColumn(cols, nextTo.value);
    var at' := if at < |cols| then at + 1 else at;
    CountInsert(cols, at', [[NewTile(v)]], u);
    CountOfOne([NewTile(v)], u);
    CountInOfOne(NewTile(v), u);
  }

  /** Where column c ends up when v is taken out of the shape. */
  function IndexAfterRemoval(cols: seq<Column>, v: ViewId, c: nat): int
    requires c < |cols|
  {
    var d := FindColumn(cols, v);
    if d < c && RemoveTile(cols[d], v) == [] then c - 1 else c
  }

  /** Moves v from its column to the bottom of column c. */
  function InsertIntoColumn(cols: seq<Column>, v: ViewId, c: nat): seq<Column>
    requires c < |cols| && FindColumn(cols, v) != c
  {
    var rest := RemoveView(cols, v);
    var at := IndexAfterRemoval(cols, v, c);
    rest[..at] + [rest[at] + [NewTile(v)]] + rest[at + 1..]
  }

  lemma InsertIntoColumnCount(cols: seq<Column>, v: ViewId, c: nat, u: ViewId)
    requires c < |cols| && FindColumn(cols, v) != c && Count(cols, v) == 1
    ensures Count(InsertIntoColumn(cols, v, c), u) == Count(cols, u)
  {
    var rest := RemoveView(cols, v);
    var at := IndexAfterRemoval(cols, v, c);
    RemoveViewCount(cols, v, u);
    var col := rest[at] + [NewTile(v)];
    CountReplace(rest, at, [col], u);
    CountOfOne(col, u);
    CountInConcat(rest[at], [NewTile(v)], u);
    CountInOfOne(NewTile(v), u);
  }

  /** Moves the bottom tile of column c to a new column on the right of its top tile's. */
  function PopFromColumn(cols: seq<Column>, c: nat): seq<Column>
    requires c < |cols|
  {
    var col := cols[c];
    if |col| < 2 then cols
    else
      var popped := col[|col| - 1].view;
      AddColumn(RemoveView(cols, popped), popped, Some(col[0].view))
  }

  lemma PopFromColumnCount(cols: seq<Column>, c: nat, u: ViewId)
    requires c < |cols| && forall v :: Count(cols, v) <= 1
    ensures Count(PopFromColumn(cols, c), u) == Count(cols, u)
  {
    hide Count, CountIn, HasView, FindColumn, RemoveView, AddColumn;
    var col := cols[c];
    if |col| >= 2 {
      var popped := col[|col| - 1].view;
      HoldsView(col, |col| - 1);
      assert Count(cols, popped) <= 1;
      CountMember(cols, c, popped);
      RemoveViewCount(cols, popped, u);
      AddColumnCount(RemoveView(cols, popped), popped, Some(col[0].view), u);
    }
  }

  lemma SurgeryKeepsColumnsFull(cols: seq<Column>, v: ViewId, nextTo: Option<ViewId>)
    requires NoEmptyColumn(cols)
    ensures NoEmptyColumn(RemoveView(cols, v)) && NoEmptyColumn(AddColumn(cols, v, nextTo))
  {
  }
}
