/** Why every operation keeps the invariants: what each of them changes in the bones of the state,
    and that the invariants survive that change. */
module Preservation {
  import opened Prelude
  import opened Views
  import opened Columns
  import opened Rearranging
  import opened Layout
  import opened Animation
  import opened AnimationQueue
  import opened Tiling
  import opened Desktop
  import opened Invariants

  // ---------------------------------------------------------------------------------------
  // What the operations of one workspace change
  // ---------------------------------------------------------------------------------------

  lemma AddViewBones(w: WorkspaceState, s: Screen, env: Env, v: ViewId, nextTo: Option<ViewId>, floating: bool,
                     transferring: bool)
    requires v in s.views
    ensures var (w', s') := AddView(w, s, env, v, nextTo, floating, transferring);
            && Skeleton(w') == WithView(Skeleton(w), v, nextTo, floating)
            && Unharmed(s, s') && s'.views.Keys == s.views.Keys
            && Cores(s'.views) == if transferring then Cores(s.views)
                                  else
                                    var view := s.views[v].(workspaceId := w.index).ChangeOutput(None, w.output);
                                    Cores(s.views)[v := CoreOf(view)]
  {
    hide Arrange, AddColumn, FloatingAfter;
    var w' := WithView(w, v, nextTo, floating);
    var view := s.views[v].(workspaceId := w.index).ChangeOutput(None, w.output);
    CoresUpdate(s.views, v, view);
    ArrangeKeeps(w', if transferring then s else s.(views := s.views[v := view]), env, true);
  }

  lemma RemoveBones(w: WorkspaceState, s: Screen, env: Env, v: ViewId, transferring: bool)
    requires v in s.views
    ensures var (w', s') := RemoveFromWorkspace(w, s, env, v, transferring);
            && Skeleton(w') == WithoutView(if transferring then Skeleton(w) else Dismissed(Skeleton(w), v), v)
            && Unharmed(s, s') && s'.views.Keys == s.views.Keys
            && Cores(s'.views) == if transferring then Cores(s.views)
                                  else Cores(s.views)[v := CoreOf(s.views[v].ChangeOutput(w.output, None))]
  {
    hide Arrange, RemoveView, Without;
    var w' := RemoveFromWorkspace(w, s, env, v, transferring).0;
    var view := s.views[v].ChangeOutput(w.output, None);
    CoresUpdate(s.views, v, view);
    ArrangeKeeps(w', if transferring then s else s.(views := s.views[v := view]), env, true);
  }

  lemma TransferBones(w: WorkspaceState, s: Screen, env: Env, v: ViewId, c: nat)
    requires v in s.views && c < |w.columns| && FindColumn(w.columns, v) < |w.columns| && FindColumn(w.columns, v) != c
    ensures var (w', s') := Transferred(w, s, env, v, c);
            && Skeleton(w') == Skeleton(w).(columns := InsertIntoColumn(w.columns, v, c),
                                            floating := Without(w.floating, v))
            && Unharmed(s, s') && s'.views.Keys == s.views.Keys && Cores(s'.views) == Cores(s.views)
  {
    hide Arrange, RemoveView, Without, InsertIntoColumn, WidthUpTo, FindColumn, Cores, CoreOf;
    RemoveBones(w, s, env, v, true);
    var s1 := RemoveFromWorkspace(w, s, env, v, true).1;
    var width := WidthUpTo(w.columns[c], s.views, |w.columns[c]|);
    var view := s1.views[v].(geometry := s1.views[v].geometry.(width := width));
    CoresUpdate(s1.views, v, view);
    CoresAt(s1.views, v);
    WidthIsNoCore(s1.views[v], view);
    assert Cores(s1.views)[v := CoreOf(view)] == Cores(s1.views);
  }

  lemma WidthIsNoCore(a: View, b: View)
    requires b == a.(geometry := b.geometry)
    ensures CoreOf(a) == CoreOf(b)
  {
  }

  lemma InsertBones(w: WorkspaceState, s: Screen, env: Env, v: ViewId, c: nat)
    requires v in s.views && c < |w.columns| && FindColumn(w.columns, v) < |w.columns| && FindColumn(w.columns, v) != c
    ensures var (w', s') := InsertView(w, s, env, v, c);
            && Skeleton(w') == Skeleton(w).(columns := InsertIntoColumn(w.columns, v, c),
                                            floating := Without(w.floating, v))
            && Unharmed(s, s') && s'.views.Keys == s.views.Keys && Cores(s'.views) == Cores(s.views)
  {
    hide Arrange, Transferred, InsertIntoColumn, FindColumn, Cores, Without;
    TransferBones(w, s, env, v, c);
    var (w2, s2) := Transferred(w, s, env, v, c);
    ArrangeKeeps(w2, s2, env, true);
  }

  lemma PopBones(w: WorkspaceState, s: Screen, env: Env, c: nat)
    requires c < |w.columns|
    ensures var (w', s') := PopColumn(w, s, env, c);
            && Unharmed(s, s') && s'.views.Keys == s.views.Keys && Cores(s'.views) == Cores(s.views)
            && (Skeleton(w') == Skeleton(w) ||
                var col := w.columns[c];
                && |col| >= 2 && col[|col| - 1].view in s.views
                && var p := col[|col| - 1].view;
                   Skeleton(w') == WithView(WithoutView(Skeleton(w), p), p, Some(col[0].view), false))
  {
    hide Arrange, WithView, WithoutView, Cores, AddView, RemoveFromWorkspace, TasksKnown;
    var col := w.columns[c];
    if |col| >= 2 && col[|col| - 1].view in s.views {
      var p := col[|col| - 1].view;
      RemoveBones(w, s, env, p, true);
      var (w1, s1) := RemoveFromWorkspace(w, s, env, p, true);
      AddViewBones(w1, s1, env, p, Some(col[0].view), false, true);
      var (w2, s2) := AddView(w1, s1, env, p, Some(col[0].view), false, true);
      ArrangeKeeps(w2, s2, env, true);
    }
  }

  // ---------------------------------------------------------------------------------------
  // Placement
  // ---------------------------------------------------------------------------------------

  /** Placement of everything but v, which is nowhere. */
  ghost predicate PlacedBut(b: Bones, v: ViewId)
  {
    && (forall i | 0 <= i < |b.ws| :: b.ws[i].index == i && NoEmptyColumn(b.ws[i].columns))
    && (forall i, u | 0 <= i < |b.ws| :: Occurrences(b.ws[i], u) == if u == v then 0 else Due(b, i, u))
    && (forall u | u in b.cores && u != v && b.cores[u].mapped :: 0 <= b.cores[u].workspaceId < |b.ws|)
  }

  lemma TakeOut(b: Bones, i: nat, v: ViewId, w: WorkspaceState, cores: map<ViewId, Core>)
    requires Placement(b) && i < |b.ws| && v in b.cores && b.cores[v].mapped && b.cores[v].workspaceId == i
    requires w == WithoutView(b.ws[i], v).(fullscreen := w.fullscreen)
    requires cores.Keys == b.cores.Keys && forall u | u in cores && u != v :: cores[u] == b.cores[u]
    ensures PlacedBut(b.(ws := b.ws[i := w], cores := cores), v)
  {
    hide Occurrences, WithoutView;
    var b' := b.(ws := b.ws[i := w], cores := cores);
    assert Occurrences(b.ws[i], v) == Due(b, i, v);
    WithoutViewKeepsColumnsFull(b.ws[i], v);
    forall j, u | 0 <= j < |b.ws|
      ensures Occurrences(b'.ws[j], u) == if u == v then 0 else Due(b', j, u)
    {
      assert Occurrences(b.ws[j], u) == Due(b, j, u);
      if j == i {
        WithoutViewOccurrences(b.ws[i], v, u);
        SameListsSameOccurrences(WithoutView(b.ws[i], v), w, u);
      }
    }
  }

  lemma SameListsSameOccurrences(w: WorkspaceState, w': WorkspaceState, u: ViewId)
    requires w.columns == w'.columns && w.floating == w'.floating
    ensures Occurrences(w, u) == Occurrences(w', u)
  {
  }

  lemma WithoutViewKeepsColumnsFull(w: WorkspaceState, v: ViewId)
    requires NoEmptyColumn(w.columns)
    ensures NoEmptyColumn(WithoutView(w, v).columns) && WithoutView(w, v).index == w.index
  {
    SurgeryKeepsColumnsFull(w.columns, v, None);
  }

  lemma WithViewKeepsColumnsFull(w: WorkspaceState, v: ViewId, nextTo: Option<ViewId>, floating: bool)
    requires NoEmptyColumn(w.columns)
    ensures NoEmptyColumn(WithView(w, v, nextTo, floating).columns) && WithView(w, v, nextTo, floating).index == w.index
  {
    SurgeryKeepsColumnsFull(w.columns, v, nextTo);
  }

  lemma PutIn(b: Bones, i: nat, v: ViewId, nextTo: Option<ViewId>, floating: bool, w: WorkspaceState,
              cores: map<ViewId, Core>)
    requires PlacedBut(b, v) && i < |b.ws|
    requires w == WithView(b.ws[i], v, nextTo, floating).(fullscreen := w.fullscreen)
    requires cores.Keys == b.cores.Keys && forall u | u in cores && u != v :: cores[u] == b.cores[u]
    requires v in cores && cores[v].mapped && cores[v].workspaceId == i
    ensures Placement(b.(ws := b.ws[i := w], cores := cores))
  {
    hide Occurrences, WithView;
    var b' := b.(ws := b.ws[i := w], cores := cores);
    WithViewKeepsColumnsFull(b.ws[i], v, nextTo, floating);
    forall j, u | 0 <= j < |b.ws|
      ensures Occurrences(b'.ws[j], u) == Due(b', j, u)
    {
      assert Occurrences(b.ws[j], u) == if u == v then 0 else Due(b, j, u);
      if j == i {
        WithViewOccurrences(b.ws[i], v, nextTo, floating, u);
        SameListsSameOccurrences(WithView(b.ws[i], v, nextTo, floating), w, u);
      }
    }
  }

  /** A workspace may rearrange its views. */
  lemma PlacementRearranged(b: Bones, i: nat, w: WorkspaceState)
    requires Placement(b) && i < |b.ws| && w.index == b.ws[i].index && NoEmptyColumn(w.columns)
    requires forall u :: Occurrences(w, u) == Occurrences(b.ws[i], u)
    ensures Placement(b.(ws := b.ws[i := w]))
  {
    hide Occurrences;
    var b' := b.(ws := b.ws[i := w]);
    forall j, u | 0 <= j < |b.ws|
      ensures Occurrences(b'.ws[j], u) == Due(b', j, u)
    {
      assert Occurrences(b.ws[j], u) == Due(b, j, u);
    }
  }

  /** Placement says nothing about fullscreen views, outputs and what clients were told. */
  lemma PlacementElsewhere(b: Bones, b': Bones)
    requires Placement(b) && |b'.ws| == |b.ws| && b'.cores.Keys == b.cores.Keys
    requires forall i | 0 <= i < |b.ws| :: b'.ws[i].columns == b.ws[i].columns && b'.ws[i].floating == b.ws[i].floating
                                           && b'.ws[i].index == b.ws[i].index
    requires forall v | v in b.cores ::
             b'.cores[v].mapped == b.cores[v].mapped && b'.cores[v].workspaceId == b.cores[v].workspaceId
    ensures Placement(b')
  {
    hide Occurrences;
    forall j, u | 0 <= j < |b.ws|
      ensures Occurrences(b'.ws[j], u) == Due(b', j, u)
    {
      assert Occurrences(b.ws[j], u) == Due(b, j, u);
      SameListsSameOccurrences(b.ws[j], b'.ws[j], u);
    }
  }

  /** In a placed desktop, the workspaces are well formed. */
  lemma PlacedIsDistinct(s: State, i: nat)
    requires Placement(BonesOf(s)) && i < |s.workspaces|
    ensures Distinct(s.workspaces[i].columns) && NoEmptyColumn(s.workspaces[i].columns)
    ensures forall v :: Occurrences(s.workspaces[i], v) == Due(BonesOf(s), i, v)
    ensures ViewsKnown(s.workspaces[i], Table(s))
  {
    hide Occurrences, Count, Distinct;
    var w := s.workspaces[i];
    assert BonesOf(s).ws[i] == Skeleton(w);
    forall v
      ensures Occurrences(w, v) == Due(BonesOf(s), i, v) && Count(w.columns, v) <= 1
    {
      SameListsSameOccurrences(w, Skeleton(w), v);
      assert Occurrences(Skeleton(w), v) == Due(BonesOf(s), i, v);
      CountWithin(w, v);
    }
    CountedOnceIsDistinct(w.columns);
    OccurringViewsKnown(w, Table(s));
  }

  lemma CountWithin(w: WorkspaceState, v: ViewId)
    ensures Count(w.columns, v) <= Occurrences(w, v)
    ensures v in w.floating ==> Occurrences(w, v) > Count(w.columns, v)
  {
  }

  lemma UnmappedIsNowhere(b: Bones, v: ViewId)
    requires Placement(b) && (v in b.cores ==> !b.cores[v].mapped)
    ensures PlacedBut(b, v)
  {
    hide Occurrences;
    forall i, u | 0 <= i < |b.ws|
      ensures Occurrences(b.ws[i], u) == if u == v then 0 else Due(b, i, u)
    {
      assert Occurrences(b.ws[i], u) == Due(b, i, u);
    }
  }

  lemma NowhereIsUnmapped(b: Bones, v: ViewId)
    requires PlacedBut(b, v) && (v in b.cores ==> !b.cores[v].mapped)
    ensures Placement(b)
  {
    hide Occurrences;
    forall i, u | 0 <= i < |b.ws|
      ensures Occurrences(b.ws[i], u) == Due(b, i, u)
    {
      assert Occurrences(b.ws[i], u) == if u == v then 0 else Due(b, i, u);
    }
  }

  // ---------------------------------------------------------------------------------------
  // Fullscreen views, outputs and what clients were told
  // ---------------------------------------------------------------------------------------

  /** Nothing about fullscreen views differs. */
  lemma FullscreenElsewhere(b: Bones, b': Bones)
    requires FullscreenOk(b) && |b'.ws| == |b.ws| && b'.cores.Keys == b.cores.Keys
    requires forall i | 0 <= i < |b.ws| :: b'.ws[i].fullscreen == b.ws[i].fullscreen
    requires forall v | v in b.cores :: (b'.cores[v].expansion == Fullscreen <==> b.cores[v].expansion == Fullscreen)
                                        && b'.cores[v].saved.Some? == b.cores[v].saved.Some?
    requires forall v | v in b.cores && b.cores[v].expansion == Fullscreen ::
               b'.cores[v].mapped == b.cores[v].mapped && b'.cores[v].workspaceId == b.cores[v].workspaceId
    ensures FullscreenOk(b')
  {
    forall i, v | 0 <= i < |b.ws|
      ensures b'.ws[i].fullscreen == Some(v) <==> Due(b', i, v) == 1 && b'.cores[v].expansion == Fullscreen
    {
      assert b.ws[i].fullscreen == Some(v) <==> Due(b, i, v) == 1 && b.cores[v].expansion == Fullscreen;
    }
  }

  lemma AssignedElsewhere(b: Bones, b': Bones)
    requires Assigned(b) && |b'.ws| == |b.ws| && b'.outputs == b.outputs && b'.pending == b.pending
    requires forall i | 0 <= i < |b.ws| :: b'.ws[i].output == b.ws[i].output
    ensures Assigned(b')
  {
    forall o | o in b'.outputs
      ensures Held(b', o)
    {
      assert Held(b, o);
      var i :| 0 <= i < |b.ws| && !Leaving(b, i) && b.ws[i].output == Some(o);
      assert b'.ws[i].output == Some(o);
    }
  }

  /** Only v may have been told anything. */
  lemma BalancedBut(b: Bones, b': Bones, v: ViewId)
    requires Balanced(b) && |b'.ws| == |b.ws| && b'.cores.Keys == b.cores.Keys
    requires forall i | 0 <= i < |b.ws| :: b'.ws[i].output == b.ws[i].output
    requires forall u | u in b.cores && u != v ::
               && b'.cores[u].mapped == b.cores[u].mapped && b'.cores[u].workspaceId == b.cores[u].workspaceId
               && b'.cores[u].events == b.cores[u].events
    requires v in b'.cores ==> OnOutputs(b'.cores[v].events) == OutputSet(DueOutput(b', v))
    ensures Balanced(b')
  {
    hide OnOutputs, OutputSet;
    forall u | u in b'.cores && u != v
      ensures OnOutputs(b'.cores[u].events) == OutputSet(DueOutput(b', u))
    {
      assert OnOutputs(b.cores[u].events) == OutputSet(DueOutput(b, u));
    }
  }

  // ---------------------------------------------------------------------------------------
  // Mapping and unmapping
  // ---------------------------------------------------------------------------------------

  function MappedCore(c: Core, i: nat, output: Option<OutputId>): Core
  {
    c.(mapped := true, workspaceId := i, events := Told(c.events, None, output))
  }

  /** A view that is in no workspace is put into one; a fullscreen view becomes its fullscreen view. */
  lemma MappingKeeps(b: Bones, b': Bones, i: nat, v: ViewId, nextTo: Option<ViewId>, floating: bool)
    requires BonesOk(b) && i < |b.ws| && v in b.cores && !b.cores[v].mapped
    requires b.cores[v].expansion == Fullscreen ==> b.ws[i].fullscreen == None
    requires var w := WithView(b.ws[i], v, nextTo, floating);
             b' == b.(ws := b.ws[i :=
                                 w.(fullscreen := if b.cores[v].expansion == Fullscreen then Some(v)
                                    else w.fullscreen)],
                      cores := b.cores[v := MappedCore(b.cores[v], i, b.ws[i].output)])
    ensures BonesOk(b')
  {
    hide Placement, FullscreenOk, Assigned, Balanced, PlacedBut, OnOutputs, OutputSet, Told, AddColumn, FloatingAfter;
    UnmappedIsNowhere(b, v);
    PutIn(b, i, v, nextTo, floating, b'.ws[i], b'.cores);
    MappingKeepsFullscreen(b, b', i, v);
    AssignedElsewhere(b, b');
    OffEverything(b, v);
    ToldMovesTheSurface(b.cores[v].events, None, b.ws[i].output);
    BalancedBut(b, b', v);
  }

  lemma MappingKeepsFullscreen(b: Bones, b': Bones, i: nat, v: ViewId)
    requires FullscreenOk(b) && i < |b.ws| && v in b.cores && !b.cores[v].mapped
    requires b.cores[v].expansion == Fullscreen ==> b.ws[i].fullscreen == None
    requires |b'.ws| == |b.ws| && b'.ws == b.ws[i := b'.ws[i]]
    requires b'.ws[i].fullscreen == if b.cores[v].expansion == Fullscreen then Some(v) else b.ws[i].fullscreen
    requires v in b'.cores && b'.cores == b.cores[v := b'.cores[v]] && b'.cores[v].mapped
             && b'.cores[v].workspaceId == i
    requires b'.cores[v].saved == b.cores[v].saved && b'.cores[v].expansion == b.cores[v].expansion
    ensures FullscreenOk(b')
  {
    forall j, u | 0 <= j < |b.ws|
      ensures b'.ws[j].fullscreen == Some(u) <==> Due(b', j, u) == 1 && b'.cores[u].expansion == Fullscreen
    {
      assert b.ws[j].fullscreen == Some(u) <==> Due(b, j, u) == 1 && b.cores[u].expansion == Fullscreen;
      assert b.ws[j].fullscreen != Some(v);
    }
  }

  lemma OffEverything(b: Bones, v: ViewId)
    requires Balanced(b) && v in b.cores && !b.cores[v].mapped
    ensures OnOutputs(b.cores[v].events) == OutputSet(None)
  {
    hide OnOutputs;
  }

  lemma OnItsOutput(b: Bones, v: ViewId)
    requires Balanced(b) && v in b.cores && b.cores[v].mapped && 0 <= b.cores[v].workspaceId < |b.ws|
    ensures OnOutputs(b.cores[v].events) == OutputSet(b.ws[b.cores[v].workspaceId].output)
  {
    hide OnOutputs;
  }

  function UnmappedCore(c: Core, output: Option<OutputId>): Core
  {
    c.(mapped := false, events := Told(c.events, output, None))
  }

  lemma UnmappingKeeps(b: Bones, b': Bones, i: nat, v: ViewId)
    requires BonesOk(b) && i < |b.ws| && v in b.cores && b.cores[v].mapped && b.cores[v].workspaceId == i
    requires b' == b.(ws := b.ws[i := WithoutView(Dismissed(b.ws[i], v), v)],
                      cores := b.cores[v := UnmappedCore(b.cores[v], b.ws[i].output)])
    ensures BonesOk(b')
  {
    hide Placement, FullscreenOk, Assigned, Balanced, PlacedBut, OnOutputs, OutputSet, Told, RemoveView, Without;
    TakeOut(b, i, v, b'.ws[i], b'.cores);
    NowhereIsUnmapped(b', v);
    UnmappingKeepsFullscreen(b, b', i, v);
    AssignedElsewhere(b, b');
    OnItsOutput(b, v);
    ToldMovesTheSurface(b.cores[v].events, b.ws[i].output, None);
    BalancedBut(b, b', v);
  }

  lemma UnmappingKeepsFullscreen(b: Bones, b': Bones, i: nat, v: ViewId)
    requires FullscreenOk(b) && i < |b.ws| && v in b.cores && b.cores[v].mapped && b.cores[v].workspaceId == i
    requires |b'.ws| == |b.ws| && b'.ws == b.ws[i := b'.ws[i]]
             && b'.ws[i].fullscreen == Dismissed(b.ws[i], v).fullscreen
    requires v in b'.cores && b'.cores == b.cores[v := b'.cores[v]] && !b'.cores[v].mapped
    requires b'.cores[v].saved == b.cores[v].saved && b'.cores[v].expansion == b.cores[v].expansion
    ensures FullscreenOk(b')
  {
    forall j, u | 0 <= j < |b.ws|
      ensures b'.ws[j].fullscreen == Some(u) <==> Due(b', j, u) == 1 && b'.cores[u].expansion == Fullscreen
    {
      assert b.ws[j].fullscreen == Some(u) <==> Due(b, j, u) == 1 && b.cores[u].expansion == Fullscreen;
      assert b.ws[j].fullscreen == Some(v) <==> Due(b, j, v) == 1 && b.cores[v].expansion == Fullscreen;
    }
  }

  // ---------------------------------------------------------------------------------------
  // Within one workspace
  // ---------------------------------------------------------------------------------------

  /** A view that floated is tiled, or the other way around; what it saved may change its size. */
  lemma RefloatingKeeps(b: Bones, b': Bones, i: nat, v: ViewId, nextTo: Option<ViewId>, floating: bool)
    requires BonesOk(b) && i < |b.ws| && v in b.cores && b.cores[v].mapped && b.cores[v].workspaceId == i
    requires v in b'.cores && b'.cores[v] == b.cores[v].(saved := b'.cores[v].saved)
             && b'.cores[v].saved.Some? == b.cores[v].saved.Some?
    requires b' == b.(ws := b.ws[i := WithView(WithoutView(b.ws[i], v), v, nextTo, floating)],
                      cores := b.cores[v := b'.cores[v]])
    ensures BonesOk(b')
  {
    hide Placement, FullscreenOk, Assigned, Balanced, PlacedBut, OnOutputs, OutputSet, AddColumn, FloatingAfter,
      RemoveView, Without;
    var w := WithoutView(b.ws[i], v);
    TakeOut(b, i, v, w, b.cores);
    var b1 := b.(ws := b.ws[i := w]);
    PutIn(b1, i, v, nextTo, floating, b'.ws[i], b'.cores);
    assert b' == b1.(ws := b1.ws[i := b'.ws[i]], cores := b'.cores);
    FullscreenElsewhere(b, b');
    AssignedElsewhere(b, b');
    OnItsOutput(b, v);
    assert b'.ws[i].output == b.ws[i].output;
    BalancedBut(b, b', v);
  }

  /** Views change places within a workspace. */
  lemma RearrangingKeeps(b: Bones, b': Bones, i: nat, w: WorkspaceState)
    requires BonesOk(b) && i < |b.ws| && NoEmptyColumn(w.columns)
    requires w == b.ws[i].(columns := w.columns, floating := w.floating)
    requires forall u :: Occurrences(w, u) == Occurrences(b.ws[i], u)
    requires b' == b.(ws := b.ws[i := w])
    ensures BonesOk(b')
  {
    hide Placement, FullscreenOk, Assigned, Balanced, Occurrences;
    PlacementRearranged(b, i, w);
    FullscreenElsewhere(b, b');
    AssignedElsewhere(b, b');
    BalancedElsewhere(b, b');
  }

  lemma BalancedElsewhere(b: Bones, b': Bones)
    requires Balanced(b) && |b'.ws| == |b.ws| && b'.cores.Keys == b.cores.Keys
    requires forall i | 0 <= i < |b.ws| :: b'.ws[i].output == b.ws[i].output
    requires forall u | u in b.cores ::
               && b'.cores[u].mapped == b.cores[u].mapped && b'.cores[u].workspaceId == b.cores[u].workspaceId
               && b'.cores[u].events == b.cores[u].events
    ensures Balanced(b')
  {
    hide OnOutputs, OutputSet;
    forall u | u in b'.cores
      ensures OnOutputs(b'.cores[u].events) == OutputSet(DueOutput(b', u))
    {
      assert OnOutputs(b.cores[u].events) == OutputSet(DueOutput(b, u));
    }
  }

  // ---------------------------------------------------------------------------------------
  // Fullscreen
  // ---------------------------------------------------------------------------------------

  function RecoveringCore(c: Core): Core
  {
    c.(expansion := Recovering, saved := None)
  }

  /** The fullscreen view of a workspace, if any, is fullscreen no more. */
  function Unexpanded(b: Bones, i: nat): Bones
    requires i < |b.ws|
  {
    var f := b.ws[i].fullscreen;
    b.(ws := b.ws[i := b.ws[i].(fullscreen := None)],
       cores := if f.Some? && f.value in b.cores then b.cores[f.value := RecoveringCore(b.cores[f.value])] else b.cores)
  }

  lemma LeavingKeeps(b: Bones, i: nat)
    requires BonesOk(b) && i < |b.ws|
    ensures BonesOk(Unexpanded(b, i))
    ensures b.ws[i].fullscreen.Some?
            ==> b.ws[i].fullscreen.value in b.cores && b.cores[b.ws[i].fullscreen.value].saved.Some?
  {
    hide Placement, FullscreenOk, Assigned, Balanced, Occurrences;
    PlacementElsewhere(b, Unexpanded(b, i));
    LeavingKeepsFullscreen(b, i);
    AssignedElsewhere(b, Unexpanded(b, i));
    BalancedElsewhere(b, Unexpanded(b, i));
  }

  lemma LeavingKeepsFullscreen(b: Bones, i: nat)
    requires FullscreenOk(b) && i < |b.ws|
    ensures FullscreenOk(Unexpanded(b, i))
    ensures b.ws[i].fullscreen.Some?
            ==> b.ws[i].fullscreen.value in b.cores && b.cores[b.ws[i].fullscreen.value].saved.Some?
  {
    var b' := Unexpanded(b, i);
    var f := b.ws[i].fullscreen;
    forall j, u | 0 <= j < |b.ws|
      ensures b'.ws[j].fullscreen == Some(u) <==> Due(b', j, u) == 1 && b'.cores[u].expansion == Fullscreen
    {
      assert b.ws[j].fullscreen == Some(u) <==> Due(b, j, u) == 1 && b.cores[u].expansion == Fullscreen;
      assert b.ws[i].fullscreen == Some(u) <==> Due(b, i, u) == 1 && b.cores[u].expansion == Fullscreen;
    }
    if f.Some? {
      assert Due(b, i, f.value) == 1 && b.cores[f.value].expansion == Fullscreen;
    }
  }

  /** A normal view of a workspace without a fullscreen view becomes its fullscreen view. */
  lemma EnteringKeeps(b: Bones, b': Bones, i: nat, v: ViewId)
    requires BonesOk(b) && i < |b.ws| && v in b.cores && b.cores[v].mapped && b.cores[v].workspaceId == i
    requires b.cores[v].expansion == Normal && b.ws[i].fullscreen == None
    requires v in b'.cores && b'.cores[v] == b.cores[v].(expansion := Fullscreen, saved := b'.cores[v].saved)
             && b'.cores[v].saved.Some?
    requires b' == b.(ws := b.ws[i := b.ws[i].(fullscreen := Some(v))], cores := b.cores[v := b'.cores[v]])
    ensures BonesOk(b')
  {
    hide Placement, FullscreenOk, Assigned, Balanced, Occurrences;
    PlacementElsewhere(b, b');
    EnteringKeepsFullscreen(b, b', i, v);
    AssignedElsewhere(b, b');
    BalancedElsewhere(b, b');
  }

  lemma EnteringKeepsFullscreen(b: Bones, b': Bones, i: nat, v: ViewId)
    requires FullscreenOk(b) && i < |b.ws| && v in b.cores && b.cores[v].mapped && b.cores[v].workspaceId == i
    requires b.ws[i].fullscreen == None
    requires v in b'.cores && b'.cores[v] == b.cores[v].(expansion := Fullscreen, saved := b'.cores[v].saved)
             && b'.cores[v].saved.Some?
    requires b' == b.(ws := b.ws[i := b.ws[i].(fullscreen := Some(v))], cores := b.cores[v := b'.cores[v]])
    ensures FullscreenOk(b')
  {
    forall j, u | 0 <= j < |b.ws|
      ensures b'.ws[j].fullscreen == Some(u) <==> Due(b', j, u) == 1 && b'.cores[u].expansion == Fullscreen
    {
      assert b.ws[j].fullscreen == Some(u) <==> Due(b, j, u) == 1 && b.cores[u].expansion == Fullscreen;
      assert b.ws[i].fullscreen == Some(u) <==> Due(b, i, u) == 1 && b.cores[u].expansion == Fullscreen;
    }
  }

  /** A view that was recovering takes part in the layout again. */
  lemma CommittingKeeps(b: Bones, b': Bones, v: ViewId)
    requires BonesOk(b) && v in b.cores && b.cores[v].expansion == Recovering
    requires b' == b.(cores := b.cores[v := b.cores[v].(expansion := Normal)])
    ensures BonesOk(b')
  {
    hide Placement, FullscreenOk, Assigned, Balanced, Occurrences;
    PlacementElsewhere(b, b');
    FullscreenElsewhere(b, b');
    AssignedElsewhere(b, b');
    BalancedElsewhere(b, b');
  }

  // ---------------------------------------------------------------------------------------
  // Outputs
  // ---------------------------------------------------------------------------------------

  /** The views of workspace i are told about its new output. */
  function ToldCores(b: Bones, i: nat, after: Option<OutputId>): map<ViewId, Core>
    requires i < |b.ws|
  {
    map v | v in b.cores ::
      if Due(b, i, v) == 1 then b.cores[v].(events := Told(b.cores[v].events, b.ws[i].output, after)) else b.cores[v]
  }

  function Switched(b: Bones, i: nat, after: Option<OutputId>): Bones
    requires i < |b.ws|
  {
    b.(ws := b.ws[i := b.ws[i].(output := after)], cores := ToldCores(b, i, after))
  }

  lemma NotifiedCores(s: State, i: nat, after: Option<OutputId>)
    requires Placement(BonesOf(s)) && i < |s.workspaces|
    ensures var w := s.workspaces[i];
            Cores(Notified(Table(s), AllViews(w), w.output, after)) == ToldCores(BonesOf(s), i, after)
  {
    hide Placement, Occurrences, Notified, AllViews, Due, View.ChangeOutput, Told;
    var w := s.workspaces[i];
    var told := Notified(Table(s), AllViews(w), w.output, after);
    PlacedIsDistinct(s, i);
    forall v | v in Table(s)
      ensures CoreOf(told[v]) == ToldCores(BonesOf(s), i, after)[v]
    {
      assert Occurrences(w, v) == Due(BonesOf(s), i, v);
      AllViewsCount(w, v);
      AtMostOnceDue(BonesOf(s), i, v);
      NotifiedOnce(Table(s), AllViews(w), w.output, after, v);
      CoreToldApart(Table(s)[v], w.output, after);
    }
  }

  lemma AtMostOnceDue(b: Bones, i: int, v: ViewId)
    ensures Due(b, i, v) <= 1
  {
  }

  lemma CoreToldApart(view: View, before: Option<OutputId>, after: Option<OutputId>)
    ensures CoreOf(view.ChangeOutput(before, after)) == CoreOf(view).(events := Told(view.events, before, after))
  {
  }

  lemma ActivateBones(s: State, i: nat, o: OutputId)
    requires Placement(BonesOf(s)) && i < |s.workspaces|
    ensures BonesOf(InWorkspace(s, i, Activate(s.workspaces[i], s.screen, o))) == Switched(BonesOf(s), i, Some(o))
  {
    hide Placement, Notified, AllViews, ToldCores;
    NotifiedCores(s, i, Some(o));
    InWorkspaceBones(s, i, Activate(s.workspaces[i], s.screen, o));
  }

  lemma DeactivateBones(s: State, i: nat)
    requires Placement(BonesOf(s)) && i < |s.workspaces|
    ensures var t := InWorkspace(s, i, Deactivate(s.workspaces[i], s.screen));
            BonesOf(t) == if s.workspaces[i].output.None? then BonesOf(s) else Switched(BonesOf(s), i, None)
  {
    hide Placement, Notified, AllViews, ToldCores;
    NotifiedCores(s, i, None);
    InWorkspaceBones(s, i, Deactivate(s.workspaces[i], s.screen));
  }

  /** What a change of outputs keeps, whatever workspaces share the output. */
  ghost predicate PlacedAndTold(b: Bones)
  {
    Placement(b) && FullscreenOk(b) && Balanced(b)
  }

  lemma SwitchingKeeps(b: Bones, i: nat, after: Option<OutputId>)
    requires PlacedAndTold(b) && i < |b.ws|
    ensures PlacedAndTold(Switched(b, i, after))
  {
    hide Placement, FullscreenOk, Balanced, Occurrences, Told;
    PlacementElsewhere(b, Switched(b, i, after));
    FullscreenElsewhere(b, Switched(b, i, after));
    SwitchingKeepsBalance(b, i, after);
  }

  lemma SwitchingKeepsBalance(b: Bones, i: nat, after: Option<OutputId>)
    requires Balanced(b) && i < |b.ws|
    ensures Balanced(Switched(b, i, after))
  {
    hide OnOutputs, OutputSet, Told;
    var b' := Switched(b, i, after);
    forall v | v in b'.cores
      ensures OnOutputs(b'.cores[v].events) == OutputSet(DueOutput(b', v))
    {
      assert OnOutputs(b.cores[v].events) == OutputSet(DueOutput(b, v));
      if Due(b, i, v) == 1 {
        ToldMovesTheSurface(b.cores[v].events, b.ws[i].output, after);
      }
    }
  }

  /** The set of outputs and what is still to be done concern the assignment only. */
  lemma OutputsAside(b: Bones, outputs: set<OutputId>, pending: multiset<Callback>)
    requires PlacedAndTold(b)
    ensures PlacedAndTold(b.(outputs := outputs, pending := pending))
  {
    hide Placement, FullscreenOk, Balanced;
    PlacementElsewhere(b, b.(outputs := outputs, pending := pending));
    FullscreenElsewhere(b, b.(outputs := outputs, pending := pending));
    BalancedElsewhere(b, b.(outputs := outputs, pending := pending));
  }

  function EmptyWorkspace(index: int): WorkspaceState
  {
    WorkspaceState([], [], None, None, index, 0, false)
  }

  lemma NewWorkspaceKeeps(b: Bones)
    requires BonesOk(b)
    ensures BonesOk(b.(ws := b.ws + [EmptyWorkspace(|b.ws|)]))
  {
    hide Occurrences, OnOutputs, OutputSet;
    var n := |b.ws|;
    var b' := b.(ws := b.ws + [EmptyWorkspace(n)]);
    forall i, v | 0 <= i < |b'.ws|
      ensures Occurrences(b'.ws[i], v) == Due(b', i, v)
    {
      EmptyHoldsNothing(n, v);
      assert i < n ==> Occurrences(b.ws[i], v) == Due(b, i, v);
    }
    assert Placement(b');
    forall i, v | 0 <= i < |b'.ws|
      ensures b'.ws[i].fullscreen == Some(v) <==> Due(b', i, v) == 1 && b'.cores[v].expansion == Fullscreen
    {
      assert i < n ==> (b.ws[i].fullscreen == Some(v) <==> Due(b, i, v) == 1 && b.cores[v].expansion == Fullscreen);
    }
    NewWorkspaceKeepsAssignment(b);
    forall v | v in b'.cores
      ensures OnOutputs(b'.cores[v].events) == OutputSet(DueOutput(b', v))
    {
      assert OnOutputs(b.cores[v].events) == OutputSet(DueOutput(b, v));
    }
  }

  lemma EmptyHoldsNothing(n: int, v: ViewId)
    ensures Occurrences(EmptyWorkspace(n), v) == 0
  {
  }

  lemma NewWorkspaceKeepsAssignment(b: Bones)
    requires Assigned(b)
    ensures Assigned(b.(ws := b.ws + [EmptyWorkspace(|b.ws|)]))
  {
    var b' := b.(ws := b.ws + [EmptyWorkspace(|b.ws|)]);
    forall o | o in b'.outputs
      ensures Held(b', o)
    {
      assert Held(b, o);
      var i :| 0 <= i < |b.ws| && !Leaving(b, i) && b.ws[i].output == Some(o);
      assert b'.ws[i].output == Some(o);
    }
  }

  /** An output that is new goes to a workspace that is on none. */
  lemma AssignmentOfNewOutput(b: Bones, b': Bones, i: nat, o: OutputId)
    requires Assigned(b) && i < |b.ws| && b.ws[i].output == None && o !in b.outputs
    requires |b'.ws| == |b.ws| && b'.outputs == b.outputs + {o} && b'.pending == b.pending
    requires forall j | 0 <= j < |b.ws| :: b'.ws[j].output == if j == i then Some(o) else b.ws[j].output
    ensures Assigned(b')
  {
    hide Leaving;
    SameLeaving(b, b');
    assert !Leaving(b, i);
    forall p | p in b'.outputs
      ensures Held(b', p)
    {
      if p == o {
        assert b'.ws[i].output == Some(o);
      } else {
        assert Held(b, p);
        var j :| 0 <= j < |b.ws| && !Leaving(b, j) && b.ws[j].output == Some(p);
        assert b'.ws[j].output == Some(p);
      }
    }
  }

  /** Workspace i is the first on output o, and no other is on it, and nothing is still to arrive there. */
  ghost predicate OnlyOneOn(b: Bones, i: nat, o: OutputId)
  {
    && i <= |b.ws| && (i < |b.ws| ==> b.ws[i].output == Some(o))
    && (forall j | 0 <= j < |b.ws| && j != i :: b.ws[j].output != Some(o))
    && (forall n: nat :: b.pending[ArrivalOf(n, o)] == 0)
  }

  /** An output that goes away is taken from the only workspace that is on it. */
  lemma AssignmentOfLostOutput(b: Bones, b': Bones, i: nat, o: OutputId)
    requires Assigned(b) && OnlyOneOn(b, i, o)
    requires |b'.ws| == |b.ws| && b'.outputs == b.outputs - {o} && b'.pending == b.pending
    requires forall j | 0 <= j < |b.ws| :: b'.ws[j].output == if j == i then None else b.ws[j].output
    ensures Assigned(b')
  {
    hide Leaving;
    if i < |b.ws| {
      HolderStays(b, i, o);
    }
    assert forall k: nat :: Leaving(b', k) == Leaving(b, k) by { SameLeaving(b, b'); }
    forall p | p in b'.outputs
      ensures Held(b', p)
    {
      assert Held(b, p);
      var j :| 0 <= j < |b.ws| && !Leaving(b, j) && b.ws[j].output == Some(p);
      assert !Leaving(b', j) && b'.ws[j].output == Some(p);
    }
  }

  lemma HolderStays(b: Bones, i: nat, o: OutputId)
    requires Assigned(b) && OnlyOneOn(b, i, o) && i < |b.ws|
    ensures !Leaving(b, i)
  {
    assert Held(b, o);
  }

  lemma SameLeaving(b: Bones, b': Bones)
    requires b'.pending == b.pending
    ensures forall k: nat :: Leaving(b', k) == Leaving(b, k)
  {
  }

  /** What a switch to workspace n may leave to be done. */
  ghost predicate Announced(b: Bones, b': Bones, n: nat, p: nat)
    requires p < |b.ws| && p < |b'.ws|
  {
    && (forall k: nat | k != p :: b'.pending[DepartureOf(k)] == b.pending[DepartureOf(k)])
    && b'.pending[DepartureOf(p)] == b.pending[DepartureOf(p)] + (if b'.ws[p].output == None then 0 else 1)
    && (forall k: nat, o | b'.pending[ArrivalOf(k, o)] > 0 ::
        b.pending[ArrivalOf(k, o)] > 0 || (k == n && b.ws[p].output == Some(o)))
  }

  /** From b to b' workspace n takes the output of workspace p, which gives it up or is sliding out. */
  ghost predicate TakenOver(b: Bones, b': Bones, n: nat, p: nat)
  {
    && n < |b.ws| && p < |b.ws| && n != p
    && b.ws[n].output == None && b.ws[p].output.Some?
    && |b'.ws| == |b.ws| && b'.outputs == b.outputs
    && (forall j | 0 <= j < |b.ws| && j != p :: b'.ws[j].output == if j == n then b.ws[p].output else b.ws[j].output)
    && (b'.ws[p].output == None || b'.ws[p].output == b.ws[p].output)
    && Announced(b, b', n, p)
  }

  /** The assignment survives exactly when workspace p was not sliding out already: otherwise a third
      workspace is on the output, for good. */
  lemma AssignmentTakenOver(b: Bones, b': Bones, n: nat, p: nat)
    requires Assigned(b) && TakenOver(b, b', n, p)
    ensures Assigned(b') <==> !Leaving(b, p)
  {
    assert Held(b, b.ws[p].output.value);
    assert !Leaving(b, n);
    if Leaving(b, p) {
      var j :| 0 <= j < |b.ws| && !Leaving(b, j) && b.ws[j].output == b.ws[p].output;
      assert !Leaving(b', j) && !Leaving(b', n) && b'.ws[j].output == b'.ws[n].output;
      TwoHolders(b', j, n);
    } else {
      StillAssigned(b, b', n, p);
    }
  }

  lemma TwoHolders(b: Bones, i: nat, j: nat)
    requires i < |b.ws| && j < |b.ws| && i != j && b.ws[i].output.Some? && b.ws[i].output == b.ws[j].output
    requires !Leaving(b, i) && !Leaving(b, j)
    ensures !Assigned(b)
  {
  }

  lemma StillAssigned(b: Bones, b': Bones, n: nat, p: nat)
    requires Assigned(b) && TakenOver(b, b', n, p) && !Leaving(b, p)
    ensures Assigned(b')
  {
    forall o | o in b'.outputs
      ensures Held(b', o)
    {
      HeldAfterwards(b, b', n, p, o);
    }
    assert forall k: nat | k != p :: Leaving(b', k) == Leaving(b, k);
    forall i, j | 0 <= i < j < |b'.ws| && b'.ws[i].output.Some? && b'.ws[i].output == b'.ws[j].output
      ensures Leaving(b', i) || Leaving(b', j)
    {
      if i != n && j != n {
        assert b.ws[i].output == b.ws[j].output;
      } else {
        var k := if i == n then j else i;
        assert k == p || (b.ws[k].output == b.ws[p].output && Leaving(b, k));
      }
    }
  }

  lemma HeldAfterwards(b: Bones, b': Bones, n: nat, p: nat, o: OutputId)
    requires Held(b, o) && TakenOver(b, b', n, p) && !Leaving(b, n)
    ensures Held(b', o)
  {
    if b.ws[p].output == Some(o) {
      assert !Leaving(b', n) && b'.ws[n].output == Some(o);
    } else {
      var j :| 0 <= j < |b.ws| && !Leaving(b, j) && b.ws[j].output == Some(o);
      assert !Leaving(b', j) && b'.ws[j].output == Some(o);
    }
  }

  /** The workspace that was sliding out is off its output. */
  lemma AssignmentDeparted(b: Bones, b': Bones, p: nat)
    requires Assigned(b) && Leaving(b, p) && b.pending == b'.pending + multiset{DepartureOf(p)}
    requires |b'.ws| == |b.ws| && b'.outputs == b.outputs
    requires forall j | 0 <= j < |b.ws| :: b'.ws[j].output == if j == p then None else b.ws[j].output
    ensures Assigned(b')
  {
    hide PendingOk, Leaving;
    LeftOnce(b, b', p);
    forall o | o in b'.outputs
      ensures Held(b', o)
    {
      assert Held(b, o);
      var j :| 0 <= j < |b.ws| && !Leaving(b, j) && b.ws[j].output == Some(o);
      assert !Leaving(b', j) && b'.ws[j].output == Some(o);
    }
  }

  lemma LeftOnce(b: Bones, b': Bones, p: nat)
    requires PendingOk(b) && Leaving(b, p) && b.pending == b'.pending + multiset{DepartureOf(p)}
    requires |b'.ws| == |b.ws| && b'.outputs == b.outputs
    requires forall j | 0 <= j < |b.ws| && j != p :: b'.ws[j].output == b.ws[j].output
    ensures PendingOk(b') && forall k: nat :: Leaving(b', k) <==> k != p && Leaving(b, k)
  {
    forall k: nat
      ensures b.pending[DepartureOf(k)] == b'.pending[DepartureOf(k)] + if k == p then 1 else 0
    {
    }
    forall n: nat, o: OutputId
      ensures b.pending[ArrivalOf(n, o)] == b'.pending[ArrivalOf(n, o)]
    {
    }
  }

  /** Departures are not to be lost: without its departure a workspace stays on the output with another. */
  lemma AssignmentForgotten(b: Bones, b': Bones)
    requires Assigned(b) && b'.pending <= b.pending && b'.outputs == b.outputs && |b'.ws| == |b.ws|
    requires forall j | 0 <= j < |b.ws| :: b'.ws[j].output == b.ws[j].output
    ensures Assigned(b') <==> forall p: nat :: Leaving(b, p) ==> Leaving(b', p)
  {
    if p: nat :| Leaving(b, p) && !Leaving(b', p) {
      assert Held(b, b.ws[p].output.value);
      var j :| 0 <= j < |b.ws| && !Leaving(b, j) && b.ws[j].output == b.ws[p].output;
      assert !Leaving(b', j);
      TwoHolders(b', j, p);
    } else {
      assert forall k: nat ::
          Leaving(b', k) == Leaving(b, k) && b'.pending[DepartureOf(k)] <= b.pending[DepartureOf(k)];
      forall o | o in b'.outputs
        ensures Held(b', o)
      {
        assert Held(b, o);
        var j :| 0 <= j < |b.ws| && !Leaving(b, j) && b.ws[j].output == Some(o);
        assert !Leaving(b', j) && b'.ws[j].output == Some(o);
      }
    }
  }

  // ---------------------------------------------------------------------------------------
  // Moving between workspaces
  // ---------------------------------------------------------------------------------------

  /** v in workspace j; a fullscreen view is its fullscreen view. */
  function Handed(b: Bones, v: ViewId, j: nat): Bones
    requires v in b.cores && j < |b.ws|
  {
    if b.cores[v].expansion != Fullscreen then b
    else
      var b1 := Unexpanded(b, j);
      b1.(ws := b1.ws[j := b1.ws[j].(fullscreen := Some(v))])
  }

  function Taken(b: Bones, v: ViewId, i: nat): Bones
    requires v in b.cores && i < |b.ws|
  {
    b.(ws := b.ws[i := WithoutView(Dismissed(b.ws[i], v), v)],
       cores := b.cores[v := b.cores[v].(events := Told(b.cores[v].events, b.ws[i].output, None))])
  }

  function Given(b: Bones, v: ViewId, j: nat, floating: bool): Bones
    requires v in b.cores && j < |b.ws|
  {
    b.(ws := b.ws[j := WithView(b.ws[j], v, None, floating)],
       cores := b.cores[v := b.cores[v].(workspaceId := j, events := Told(b.cores[v].events, None, b.ws[j].output))])
  }

  lemma TransplantingKeeps(b: Bones, v: ViewId, i: nat, j: nat, floating: bool)
    requires BonesOk(b) && i < |b.ws| && j < |b.ws| && i != j
    requires v in b.cores && b.cores[v].mapped && b.cores[v].workspaceId == i
    ensures v in Handed(b, v, j).cores && v in Taken(Handed(b, v, j), v, i).cores
    ensures BonesOk(Given(Taken(Handed(b, v, j), v, i), v, j, floating))
  {
    hide Placement, FullscreenOk, Assigned, Balanced, WithView, WithoutView, Told;
    LeavingKeeps(b, j);
    NotFullscreenElsewhere(b, v, i, j);
    var b1 := if b.cores[v].expansion == Fullscreen then Unexpanded(b, j) else b;
    assert b1.cores[v] == b.cores[v] && b1.ws[i] == b.ws[i];
    var b2 := b1.(ws := b1.ws[i := WithoutView(Dismissed(b1.ws[i], v), v)],
                  cores := b1.cores[v := UnmappedCore(b1.cores[v], b1.ws[i].output)]);
    UnmappingKeeps(b1, b2, i, v);
    var b3 := Given(Taken(Handed(b, v, j), v, i), v, j, floating);
    FullscreenAside(b1.ws[j], v, floating, Some(v));
    assert b2.ws[j] == b1.ws[j] && b3.ws == b2.ws[j := b3.ws[j]];
    assert b3.cores == b2.cores[v := MappedCore(b2.cores[v], j, b2.ws[j].output)];
    FullscreenKept(b1.ws[j], v, floating);
    MappingKeeps(b2, b3, j, v, None, floating);
  }

  lemma NotFullscreenElsewhere(b: Bones, v: ViewId, i: nat, j: nat)
    requires FullscreenOk(b) && i < |b.ws| && j < |b.ws| && i != j && v in b.cores && b.cores[v].workspaceId == i
    ensures b.ws[j].fullscreen != Some(v)
  {
  }

  lemma FullscreenAside(w: WorkspaceState, v: ViewId, floating: bool, f: Option<ViewId>)
    ensures WithView(w.(fullscreen := f), v, None, floating) == WithView(w, v, None, floating).(fullscreen := f)
  {
  }

  lemma FullscreenKept(w: WorkspaceState, v: ViewId, floating: bool)
    ensures WithView(w, v, None, floating).(fullscreen := w.fullscreen) == WithView(w, v, None, floating)
  {
  }

  // ---------------------------------------------------------------------------------------
  // Views that are created or destroyed
  // ---------------------------------------------------------------------------------------

  lemma NewcomerKeeps(b: Bones, b': Bones, v: ViewId)
    requires BonesOk(b) && v !in b.cores
    requires v in b'.cores && !b'.cores[v].mapped && b'.cores[v].expansion == Normal && b'.cores[v].saved.None?
             && b'.cores[v].events == []
    requires b' == b.(cores := b.cores[v := b'.cores[v]])
    ensures BonesOk(b')
  {
    hide Occurrences, OnOutputs, OutputSet;
    forall i, u | 0 <= i < |b'.ws|
      ensures Occurrences(b'.ws[i], u) == Due(b', i, u)
    {
      assert Occurrences(b.ws[i], u) == Due(b, i, u);
    }
    assert Placement(b');
    forall i, u | 0 <= i < |b'.ws|
      ensures b'.ws[i].fullscreen == Some(u) <==> Due(b', i, u) == 1 && b'.cores[u].expansion == Fullscreen
    {
      assert b.ws[i].fullscreen == Some(u) <==> Due(b, i, u) == 1 && b.cores[u].expansion == Fullscreen;
    }
    AssignedElsewhere(b, b');
    forall u | u in b'.cores
      ensures OnOutputs(b'.cores[u].events) == OutputSet(DueOutput(b', u))
    {
      ToldNothing();
      assert u != v ==> OnOutputs(b.cores[u].events) == OutputSet(DueOutput(b, u));
    }
  }

  lemma ToldNothing()
    ensures OnOutputs([]) == OutputSet(None)
  {
  }

  lemma GoneKeeps(b: Bones, b': Bones, v: ViewId)
    requires BonesOk(b) && v in b.cores && !b.cores[v].mapped
    requires b' == b.(cores := b.cores - {v}, pending := b'.pending)
    ensures PlacedAndTold(b')
  {
    hide Occurrences, OnOutputs, OutputSet;
    forall i, u | 0 <= i < |b'.ws|
      ensures Occurrences(b'.ws[i], u) == Due(b', i, u)
    {
      assert Occurrences(b.ws[i], u) == Due(b, i, u);
    }
    assert Placement(b');
    forall i, u | 0 <= i < |b'.ws|
      ensures b'.ws[i].fullscreen == Some(u) <==> Due(b', i, u) == 1 && b'.cores[u].expansion == Fullscreen
    {
      assert b.ws[i].fullscreen == Some(u) <==> Due(b, i, u) == 1 && b.cores[u].expansion == Fullscreen;
    }
    forall u | u in b'.cores
      ensures OnOutputs(b'.cores[u].events) == OutputSet(DueOutput(b', u))
    {
      assert OnOutputs(b.cores[u].events) == OutputSet(DueOutput(b, u));
    }
  }
}
