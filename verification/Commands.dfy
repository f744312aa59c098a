/** The commands move, insert_into_column and pop_from_column as the desktop carries them out, one after the other:
    they do to the workspace of the focused view what module Rearranging says about its shape. */
module Commands {
  import opened Prelude
  import opened Views
  import opened Columns
  import opened Rearranging
  import opened Layout
  import opened AnimationQueue
  import opened Tiling
  import opened Desktop
  import opened Invariants
  import opened Preservation
  import opened Steps

  /** v has the focus, and is tiled in workspace i. */
  ghost predicate TiledFocus(s: State, v: ViewId, i: nat)
  {
    && FocusedView(s) == Some(v) && Located(s, v) && Home(s, v) == i
    && FindColumn(s.workspaces[i].columns, v) < |s.workspaces[i].columns|
  }

  /** From s to t the shape of workspace i has become cols; the seat, the other workspaces and whatever the layout does
      not touch in a view are the same. */
  ghost predicate Reshaped(s: State, t: State, i: nat, cols: seq<Column>)
  {
    && i < |s.workspaces| == |t.workspaces| && t.seat == s.seat && Cores(Table(t)) == Cores(Table(s))
    && t.workspaces[i].columns == cols
    && forall j | 0 <= j < |s.workspaces| && j != i :: t.workspaces[j] == s.workspaces[j]
  }

  lemma DistinctByInv(s: State, i: nat)
    requires Inv(s) && i < |s.workspaces|
    ensures Distinct(s.workspaces[i].columns) && NoEmptyColumn(s.workspaces[i].columns)
    ensures forall v | Occurrences(s.workspaces[i], v) > 0 :: v in Table(s)
  {
    hide FullscreenOk, Assigned, Balanced, StackOk, Occurrences;
    PlacedIsDistinct(s, i);
    forall v | Occurrences(s.workspaces[i], v) > 0
      ensures v in Table(s)
    {
      DueIsInTable(s, i, v);
    }
  }

  lemma DueIsInTable(s: State, i: int, v: ViewId)
    requires Due(BonesOf(s), i, v) > 0
    ensures v in Table(s)
  {
  }

  /** The focus stays where it is. */
  lemma StillFocused(s: State, t: State, v: ViewId, i: nat, cols: seq<Column>)
    requires TiledFocus(s, v, i) && Reshaped(s, t, i, cols) && FindColumn(cols, v) < |cols|
    ensures TiledFocus(t, v, i)
  {
    hide FindColumn;
    CoresAt(Table(s), v);
    CoresAt(Table(t), v);
  }

  lemma ReshapedTwice(s: State, t: State, u: State, i: nat, a: seq<Column>, b: seq<Column>)
    requires Reshaped(s, t, i, a) && Reshaped(t, u, i, b)
    ensures Reshaped(s, u, i, b)
  {
  }

  lemma ShownShape(s: State, v: ViewId, i: nat, condense: bool)
    requires Located(s, v) && Home(s, v) == i
    ensures Reshaped(s, Show(s, v, condense), i, s.workspaces[i].columns)
  {
    hide FitView, FindColumn, CoreOf;
    FitKeeps(s.workspaces[i], s.screen, s.env, v, condense);
  }

  // ---------------------------------------------------------------------------------------
  // What the commands do to the shape
  // ---------------------------------------------------------------------------------------

  lemma PoppedShape(s: State, v: ViewId, i: nat)
    requires Inv(s) && TiledFocus(s, v, i)
    ensures v in Table(s) && Reshaped(s, PopFocused(s), i, PopCommand(s.workspaces[i].columns, Table(s), v))
  {
    hide Inv, PopColumn, FindColumn, Show, CoreOf, Cores, Distinct;
    var w := s.workspaces[i];
    var c := FindColumn(w.columns, v);
    if Table(s)[v].expansion == Normal {
      var r := PopColumn(w, s.screen, s.env, c);
      var t := InWorkspace(s, i, r);
      DistinctByInv(s, i);
      BottomIsKnown(s, i, c);
      PopColumnShape(w, s.screen, s.env, c);
      PopBones(w, s.screen, s.env, c);
      SameLocation(s, t, v);
      ShownShape(t, v, i, false);
      ReshapedTwice(s, t, PopFocused(s), i, PopFromColumn(w.columns, c), PopFromColumn(w.columns, c));
    }
  }

  lemma SameLocation(s: State, t: State, v: ViewId)
    requires Located(s, v) && |t.workspaces| == |s.workspaces| && Cores(Table(t)) == Cores(Table(s))
    ensures Located(t, v) && Home(t, v) == Home(s, v)
  {
    CoresAt(Table(s), v);
    CoresAt(Table(t), v);
  }

  lemma BottomIsKnown(s: State, i: nat, c: nat)
    requires Inv(s) && i < |s.workspaces| && c < |s.workspaces[i].columns|
    ensures var col := s.workspaces[i].columns[c];
            col != [] && col[|col| - 1].view in Table(s)
  {
    hide Inv, Occurrences, Distinct;
    DistinctByInv(s, i);
    BottomOccurs(s.workspaces[i], c);
  }

  lemma PopColumnShape(w: WorkspaceState, s: Screen, env: Env, c: nat)
    requires c < |w.columns| && w.columns[c] != [] && w.columns[c][|w.columns[c]| - 1].view in s.views
    ensures PopColumn(w, s, env, c).0.columns == PopFromColumn(w.columns, c)
  {
    hide Arrange, RemoveView, AddColumn;
  }

  lemma InsertedShape(s: State, v: ViewId, i: nat)
    requires Inv(s) && TiledFocus(s, v, i)
    ensures Distinct(s.workspaces[i].columns)
    ensures Reshaped(s, InsertFocused(s), i, InsertCommand(s.workspaces[i].columns, Table(s), v))
  {
    hide Inv, InsertView, InsertIntoColumn, FindColumn, CoreOf, Distinct;
    DistinctByInv(s, i);
    var w := s.workspaces[i];
    var a := Absorbed(w.columns, Table(s), v);
    if a.Some? {
      AbsorbedIsElsewhere(w.columns, Table(s), v);
      InsertBones(w, s.screen, s.env, a.value, FindColumn(w.columns, v));
    }
  }

  lemma MovedShape(s: State, v: ViewId, i: nat, dx: int, dy: int, under: Option<OutputId>)
    requires TiledFocus(s, v, i)
    ensures Reshaped(s, MoveFocused(s, dx, dy, under), i, Moved(s.workspaces[i].columns, v, dx, dy).0)
  {
    hide Moved, FindColumn, FitView, Arrange, Cores, Unharmed, SameSizes;
    var (cols, c) := Moved(s.workspaces[i].columns, v, dx, dy);
    var s1 := s.(workspaces := s.workspaces[i := s.workspaces[i].(columns := cols)]);
    ArrangeKeeps(s1.workspaces[i], s1.screen, s1.env, true);
    var s2 := ArrangeIn(s1, i);
    if cols[c] != [] {
      FitKeeps(s2.workspaces[i], s2.screen, s2.env, cols[c][0].view, false);
    }
  }

  // ---------------------------------------------------------------------------------------
  // One after the other
  // ---------------------------------------------------------------------------------------

  lemma SameNormals(a: ViewTable, b: ViewTable)
    requires Cores(a) == Cores(b)
    ensures a.Keys == b.Keys && forall v | v in a :: IsNormal(a, v) == IsNormal(b, v)
    ensures forall v | v in a :: a[v].expansion == b[v].expansion
  {
    forall v | v in a
      ensures v in b && IsNormal(a, v) == IsNormal(b, v) && a[v].expansion == b[v].expansion
    {
      CoresAt(a, v);
      CoresAt(b, v);
    }
    assert Cores(a).Keys == a.Keys && Cores(b).Keys == b.Keys;
  }

  lemma {:induction false} SameFirstNormal(col: Column, a: ViewTable, b: ViewTable)
    requires a.Keys == b.Keys && forall v | v in a :: IsNormal(a, v) == IsNormal(b, v)
    ensures FirstNormal(col, a) == FirstNormal(col, b)
  {
    if col == [] {
    } else {
      SameFirstNormal(col[1..], a, b);
    }
  }

  /** What the commands do depends on the cores of the views alone. */
  lemma SameCommands(cols: seq<Column>, a: ViewTable, b: ViewTable, v: ViewId)
    requires Cores(a) == Cores(b) && Distinct(cols) && FindColumn(cols, v) < |cols| && v in a
    ensures v in b && InsertCommand(cols, a, v) == InsertCommand(cols, b, v)
    ensures PopCommand(cols, a, v) == PopCommand(cols, b, v)
  {
    hide Distinct, FindColumn, InsertIntoColumn, PopFromColumn;
    SameNormals(a, b);
    var c := FindColumn(cols, v);
    if c + 1 < |cols| {
      SameFirstNormal(cols[c + 1], a, b);
    }
  }

  /** After a pop, an insert restores the shape exactly when it was not the focused view that was popped. */
  lemma PopThenInsertFocused(s: State, v: ViewId, i: nat)
    requires Inv(s) && TiledFocus(s, v, i)
    requires var col := s.workspaces[i].columns[FindColumn(s.workspaces[i].columns, v)];
             |col| >= 2 && col[|col| - 1].scale == 1.0 && forall t | 0 <= t < |col| :: IsNormal(Table(s), col[t].view)
    ensures var cols := s.workspaces[i].columns;
            var col := cols[FindColumn(cols, v)];
            Reshaped(s, InsertFocused(PopFocused(s)), i, cols) <==> col[|col| - 1].view != v
  {
    hide Inv, FindColumn, PopFocused, InsertFocused, PopCommand, InsertCommand, Distinct, Cores;
    var cols := s.workspaces[i].columns;
    var t := PopFocused(s);
    var popped := PopCommand(cols, Table(s), v);
    DistinctByInv(s, i);
    PoppedShape(s, v, i);
    PopThenInsert(cols, Table(s), v);
    StillFocused(s, t, v, i, popped);
    PoppingKeeps(s);
    InsertedShape(t, v, i);
    SameCommands(popped, Table(s), Table(t), v);
    ReshapedTwice(s, t, InsertFocused(t), i, popped, InsertCommand(popped, Table(t), v));
  }

  /** After an insert, a pop restores the shape exactly when the column on the right was a single tile. */
  lemma InsertThenPopFocused(s: State, v: ViewId, i: nat)
    requires Inv(s) && TiledFocus(s, v, i) && Table(s)[v].expansion == Normal
    requires var cols := s.workspaces[i].columns;
             var c := FindColumn(cols, v);
             c + 1 < |cols| && cols[c + 1] != [] && cols[c + 1][0].scale == 1.0
               && IsNormal(Table(s), cols[c + 1][0].view)
    ensures var cols := s.workspaces[i].columns;
            Reshaped(s, PopFocused(InsertFocused(s)), i, cols) <==> |cols[FindColumn(cols, v) + 1]| == 1
  {
    hide Inv, FindColumn, PopFocused, InsertFocused, PopCommand, InsertCommand, Distinct, Cores;
    var cols := s.workspaces[i].columns;
    var t := InsertFocused(s);
    DistinctByInv(s, i);
    var inserted := InsertCommand(cols, Table(s), v);
    InsertedShape(s, v, i);
    InsertThenPop(cols, Table(s), v);
    StaysInColumn(cols, Table(s), v);
    StillFocused(s, t, v, i, inserted);
    InsertingKeeps(s);
    PoppedShape(t, v, i);
    DistinctByInv(t, i);
    SameCommands(inserted, Table(s), Table(t), v);
    ReshapedTwice(s, t, PopFocused(t), i, inserted, PopCommand(inserted, Table(t), v));
  }

  lemma StaysInColumn(cols: seq<Column>, views: ViewTable, v: ViewId)
    requires Distinct(cols) && FindColumn(cols, v) < |cols|
    ensures FindColumn(InsertCommand(cols, views, v), v) < |InsertCommand(cols, views, v)|
  {
    hide FindColumn, Distinct, InsertIntoColumn, Count;
    var a := Absorbed(cols, views, v);
    if a.Some? {
      AbsorbedIsElsewhere(cols, views, v);
      var c := FindColumn(cols, v);
      var r := InsertIntoColumn(cols, a.value, c);
      FindColumnIsMembership(cols, a.value);
      DistinctCountsOnce(cols, a.value);
      InsertIntoColumnCount(cols, a.value, c, v);
      FindColumnIsMembership(cols, v);
      FindColumnIsMembership(r, v);
    }
  }

  /** Moving back restores the shape exactly when the column step was not stopped by an edge, or there was none, or no
      other column to step to. */
  lemma MoveBackFocused(s: State, v: ViewId, i: nat, dx: int, dy: int, under: Option<OutputId>,
                        underBack: Option<OutputId>)
    requires Inv(s) && TiledFocus(s, v, i)
    ensures var cols := s.workspaces[i].columns;
            Reshaped(s, MoveFocused(MoveFocused(s, dx, dy, under), -dx, -dy, underBack), i, cols) <==>
            || dx == 0 || |cols| == 1
            || (if dx > 0 then FindColumn(cols, v) + 1 < |cols| else FindColumn(cols, v) > 0)
  {
    hide Inv, FindColumn, MoveFocused, Moved, Distinct, Cores;
    var cols := s.workspaces[i].columns;
    var t := MoveFocused(s, dx, dy, under);
    DistinctByInv(s, i);
    MovedShape(s, v, i, dx, dy, under);
    MoveBack(cols, v, dx, dy);
    var m := Moved(cols, v, dx, dy).0;
    StillFocused(s, t, v, i, m);
    MovedShape(t, v, i, -dx, -dy, underBack);
    ReshapedTwice(s, t, MoveFocused(t, -dx, -dy, underBack), i, m, Moved(m, v, -dx, -dy).0);
  }

  /** The tile of the focused view goes exactly one step each way, whatever other tiles and workspaces there are. */
  lemma MovingSteps(s: State, v: ViewId, i: nat, c: nat, t: nat, dx: int, dy: int, under: Option<OutputId>)
    requires Inv(s) && TiledFocus(s, v, i) && c < |s.workspaces[i].columns| && t < |s.workspaces[i].columns[c]|
    requires s.workspaces[i].columns[c][t].view == v
    ensures var r := MoveFocused(s, dx, dy, under);
            && i < |r.workspaces| && Reshaped(s, r, i, r.workspaces[i].columns)
            && StepTaken(s.workspaces[i].columns, r.workspaces[i].columns, c, t, dx, dy)
  {
    hide Inv, FindColumn, MoveFocused, Moved, Distinct, Cores, StepTaken;
    DistinctByInv(s, i);
    MovedShape(s, v, i, dx, dy, under);
    MoveSteps(s.workspaces[i].columns, c, t, dx, dy);
  }
}
