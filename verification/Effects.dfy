/** What the operations are for: where a view, an output or the focus is after them. */
module Effects {
  import opened Prelude
  import opened Views
  import opened Columns
  import opened Rearranging
  import opened Layout
  import opened Animation
  import opened AnimationQueue
  import opened Tiling
  import opened Desktop
  import opened Invariants
  import opened Preservation
  import opened Steps
  import opened Focus

  // ---------------------------------------------------------------------------------------
  // The focus stack
  // ---------------------------------------------------------------------------------------

  lemma HeadFree(stack: seq<ViewId>, v: ViewId)
    requires |stack| >= 2 && NoDuplicates(stack) && stack[0] == v
    ensures Without(ToFront(stack, stack[1]), v) == Without(stack, v)
  {
    var u, rest := stack[1], stack[2..];
    assert stack == [v] + [u] + rest;
    assert ToFront(stack, u) == [u] + [v] + rest by {
      assert IndexOf(stack, u) == 1;
      assert stack[..1] == [v];
    }
    assert v !in [u] && v !in rest;
    WithoutSplit([u], v, rest);
    assert [] + [v] + ([u] + rest) == stack;
    WithoutSplit([], v, [u] + rest);
    assert [] + ([u] + rest) == [u] + rest;
  }

  /** When the focused view is hidden, the next one on the stack is the one to be focused. */
  lemma NextIsSecond(s: State, v: ViewId)
    requires StackOk(s, Some(v)) && FocusedView(s) == Some(v)
    ensures var next := FirstMapped(s.seat.focusStack, Table(s), v);
            && (next.Some? <==> |s.seat.focusStack| >= 2)
            && (next.Some? ==> next.value == s.seat.focusStack[1])
  {
    var stack := s.seat.focusStack;
    assert stack[0] == v;
    if |stack| >= 2 {
      var u := stack[1];
      assert u in stack && u != v;
      assert stack[1..][0] == u;
    }
  }

  lemma HiddenStack(s: State, v: ViewId)
    requires StackOk(s, Some(v)) && LayerOk(s)
    ensures Without(HideView(s, v).seat.focusStack, v) == Without(s.seat.focusStack, v)
  {
    hide FocusView, ToFront, Without, FirstMapped, Refused;
    if FocusedView(s) == Some(v) {
      NextIsSecond(s, v);
      var next := FirstMapped(s.seat.focusStack, Table(s), v);
      if next.Some? {
        SecondIsOther(s.seat.focusStack);
        FocusedStack(s, next.value, true, Some(v));
        HeadFree(s.seat.focusStack, v);
      }
    }
  }

  lemma SecondIsOther(stack: seq<ViewId>)
    requires |stack| >= 2 && NoDuplicates(stack)
    ensures stack[1] != stack[0]
  {
  }

  /** Whatever focus changes it causes, unmapping a view takes it off the stack and leaves the others in
      their order, so the last focused of them comes first. */
  lemma UnmappingKeepsTheOrder(s: State, v: ViewId)
    requires Inv(s) && v in Table(s)
    ensures UnmapView(s, v).seat.focusStack == Without(s.seat.focusStack, v)
  {
    hide BonesOk, BonesOf, StackOk, HideView, Withdrawn;
    WithdrawingKeeps(s, v);
    SameSeatWithdrawn(s, v);
    HiddenStack(Withdrawn(s, v), v);
  }

  lemma SameSeatWithdrawn(s: State, v: ViewId)
    requires v in Table(s)
    ensures Withdrawn(s, v).seat == s.seat
  {
    hide RemoveFromWorkspace;
  }

  /** A view that is mapped goes to the front of the stack exactly when its focus is not refused. */
  lemma MappingPutsInFront(s: State, v: ViewId, geometry: Box)
    requires Inv(s) && CanMap(s, v)
    ensures var r := MapView(s, v, geometry).seat.focusStack;
            && r == (if Refused(Mapped(s, v, geometry), v) then s.seat.focusStack else [v] + s.seat.focusStack)
            && (v in r <==> !Refused(Mapped(s, v, geometry), v))
  {
    hide Placement, FullscreenOk, Assigned, Balanced, BonesOf, Mapped, FocusView, MapView, Refused, FocusedWorkspace;
    var t := Mapped(s, v, geometry);
    MappedBones(s, v, geometry);
    MappingStack(s, v, geometry);
    FocusedStack(t, v, false, None);
    assert v !in s.seat.focusStack;
  }

  lemma MappingStack(s: State, v: ViewId, geometry: Box)
    requires Inv(s) && CanMap(s, v)
    ensures FocusOk(Mapped(s, v, geometry)) && LayerOk(Mapped(s, v, geometry))
  {
    hide Placement, FullscreenOk, Assigned, Balanced, BonesOf, Mapped, FocusView, NoDuplicates, FocusedWorkspace;
    var t := Mapped(s, v, geometry);
    BonesApart(s); BonesApart(t);
    MappedBones(s, v, geometry);
    CoreApart(s, v);
    StackCores(s);
    forall u | u in t.seat.focusStack
      ensures u in Table(t) && Table(t)[u].mapped
    {
      CoresTell(t, u);
    }
  }

  // ---------------------------------------------------------------------------------------
  // Places
  // ---------------------------------------------------------------------------------------

  /** Toggling turns a floating view into a tile and a tile into a floating view. */
  lemma TogglingSwitchesSides(s: State)
    requires Inv(s) && FocusedView(s).Some?
    ensures var v := FocusedView(s).value;
            var t := ToggleFloating(s);
            && Located(s, v) && |t.workspaces| == |s.workspaces|
            && (v in t.workspaces[Home(s, v)].floating <==> v !in s.workspaces[Home(s, v)].floating)
            && (FindColumn(t.workspaces[Home(s, v)].columns, v) < |t.workspaces[Home(s, v)].columns|
                <==> v in s.workspaces[Home(s, v)].floating)
  {
    hide Inv, Refloated, Show, FirstOf, FindColumn;
    FocusedIsLocated(s);
    var v := FocusedView(s).value;
    var i := Home(s, v);
    RefloatedSide(s, v, i);
    var s1 := Refloated(s, v, i);
    ShowKeepsSide(s1, v, false, i);
    var previous := FirstOf(s1.seat.focusStack, Table(s1), i, Some(v));
    if previous.Some? {
      ShowKeepsSide(s1, previous.value, true, i);
    }
  }

  lemma ShowKeepsSide(s: State, u: ViewId, condense: bool, i: nat)
    requires i < |s.workspaces|
    ensures var t := Show(s, u, condense);
            && |t.workspaces| == |s.workspaces|
            && t.workspaces[i].floating == s.workspaces[i].floating
               && t.workspaces[i].columns == s.workspaces[i].columns
  {
    hide Arrange, FindColumn;
  }

  lemma RefloatedSide(s: State, v: ViewId, i: nat)
    requires Inv(s) && Located(s, v) && Table(s)[v].mapped && i == Home(s, v)
    ensures var t := Refloated(s, v, i);
            && |t.workspaces| == |s.workspaces|
            && (v in t.workspaces[i].floating <==> v !in s.workspaces[i].floating)
            && (FindColumn(t.workspaces[i].columns, v) < |t.workspaces[i].columns| <==> v in s.workspaces[i].floating)
  {
    hide FullscreenOk, Assigned, Balanced, FocusOk, Arrange, WithoutView, WithView, Occurrences, SizesSwapped,
      LastTile, FindColumn;
    PlacedIsDistinct(s, i);
    var w := s.workspaces[i];
    SwappedKeepsWorkspaces(s, v, w.fullscreen == Some(v));
    WithoutViewOccurrences(w, v, v);
    var w1 := WithoutView(w, v);
    PutOnSide(w1, v, LastTile(w1.columns), v !in w.floating);
  }

  lemma SwappedKeepsWorkspaces(s: State, v: ViewId, fullscreen: bool)
    requires v in Table(s)
    ensures SizesSwapped(s, v, fullscreen).workspaces == s.workspaces
  {
  }

  lemma PutOnSide(w: WorkspaceState, v: ViewId, nextTo: Option<ViewId>, floating: bool)
    requires Occurrences(w, v) == 0
    ensures var r := WithView(w, v, nextTo, floating);
            (v in r.floating <==> floating) && (FindColumn(r.columns, v) < |r.columns| <==> !floating)
  {
    hide FindColumn, Count, AddColumn, FloatingAfter;
    var r := WithView(w, v, nextTo, floating);
    AddColumnCount(w.columns, v, nextTo, v);
    FloatingAfterElements(w.floating, v, nextTo, v);
    FindColumnIsMembership(r.columns, v);
  }

  /** A view that changes workspaces arrives in the other one, tiled or floating as it was; a fullscreen view
      becomes the fullscreen view there, whatever was fullscreen there before. */
  lemma ViewArrives(s: State, v: ViewId, j: nat)
    requires Inv(s) && IsMappedView(s, v) && j < |s.workspaces| && Home(s, v) != j
    ensures var t := ChangeWorkspace(s, v, j);
            && v in Table(t) && Table(t)[v].workspaceId == j && |t.workspaces| == |s.workspaces|
            && (v in t.workspaces[j].floating <==> v in s.workspaces[Home(s, v)].floating)
            && (Table(s)[v].expansion == Fullscreen ==> t.workspaces[j].fullscreen == Some(v))
  {
    hide Inv, Transplanted, FocusView, FirstOf, IsMapped, FindColumn;
    var i := Home(s, v);
    TransplantKeepsInv(s, v, j);
    ArrivedAfterTransplant(s, v, j);
    var s1 := Transplanted(s, v, j);
    FocusChangesNothingElse(s1, FirstOf(s1.seat.focusStack, Table(s1), s1.workspaces[i].index, Some(v)), v, j);
  }

  lemma FocusChangesNothingElse(s: State, view: Option<ViewId>, v: ViewId, j: nat)
    requires Inv(s) && v in Table(s) && j < |s.workspaces| && (view.Some? ==> view.value in s.seat.focusStack)
    ensures var t := FocusView(s, view, false);
            && v in Table(t) && Table(t)[v].workspaceId == Table(s)[v].workspaceId && |t.workspaces| == |s.workspaces|
            && t.workspaces[j].floating == s.workspaces[j].floating
               && t.workspaces[j].fullscreen == s.workspaces[j].fullscreen
  {
    hide BonesOk, FocusView, NoDuplicates;
    FocusViewKeeps(s, view, false, None);
    var t := FocusView(s, view, false);
    SameBonesMapped(s, t, v);
    assert BonesOf(s).ws[j] == BonesOf(t).ws[j];
  }

  lemma ArrivedAfterTransplant(s: State, v: ViewId, j: nat)
    requires Inv(s) && IsMappedView(s, v) && j < |s.workspaces| && Home(s, v) != j
    ensures var t := Transplanted(s, v, j);
            && v in Table(t) && Table(t)[v].workspaceId == j && |t.workspaces| == |s.workspaces|
            && (v in t.workspaces[j].floating <==> v in s.workspaces[Home(s, v)].floating)
            && (Table(s)[v].expansion == Fullscreen ==> t.workspaces[j].fullscreen == Some(v))
  {
    hide FullscreenOk, Assigned, Balanced, FocusOk, BonesOf, Transplanted, WithView, Told, Occurrences;
    var i := Home(s, v);
    var t := Transplanted(s, v, j);
    var floating := v in s.workspaces[i].floating;
    PlacedIsDistinct(s, j);
    TransplantedBones(s, v, j);
    CoreApart(s, v);
    CoresTell(t, v);
    BonesApart(s); BonesApart(t);
    SkeletonAt(s, j); SkeletonAt(t, j);
    var w := Handed(BonesOf(s), v, j).ws[j];
    SameListsSameOccurrences(s.workspaces[j], w, v);
    PutOnSide(w, v, None, floating);
    SameFullscreenThere(w, v, floating);
  }

  lemma SkeletonAt(s: State, i: nat)
    requires i < |s.workspaces|
    ensures i < |BonesOf(s).ws| && BonesOf(s).ws[i] == Skeleton(s.workspaces[i])
  {
  }

  lemma SameFullscreenThere(w: WorkspaceState, v: ViewId, floating: bool)
    ensures WithView(w, v, None, floating).fullscreen == w.fullscreen
  {
  }

  // ---------------------------------------------------------------------------------------
  // Outputs
  // ---------------------------------------------------------------------------------------

  /** A new output goes to the first workspace that is on none, or else to a new workspace at the end; the other
      workspaces keep their outputs. */
  lemma FirstFreeWorkspaceGetsTheOutput(s: State, o: OutputId, info: OutputInfo)
    ensures var t := AddOutput(s, o, info);
            t.env.outputs == s.env.outputs[o := info] &&
            exists i: nat :: i < |t.workspaces| && t.workspaces[i].output == Some(o)
              && (forall j | 0 <= j < i :: j < |s.workspaces| && s.workspaces[j].output.Some?)
              && (if i < |s.workspaces| then s.workspaces[i].output == None && |t.workspaces| == |s.workspaces|
                  else |t.workspaces| == |s.workspaces| + 1)
              && forall j | 0 <= j < |s.workspaces| && j != i :: t.workspaces[j] == s.workspaces[j]
  {
    hide Notified, AllViews;
    var i := WorkspaceOn(s.workspaces, None);
    var t := AddOutput(s, o, info);
    assert t.workspaces[i].output == Some(o);
  }

  /** Switching takes the output of the workspace under the cursor, which keeps it just as long as it slides; all
      other workspaces keep theirs. */
  lemma SwitchingTakesTheOutput(s: State, n: nat, p: nat)
    requires n < |s.workspaces| && p < |s.workspaces| && n != p && s.workspaces[p].output.Some?
    ensures var t := TakeOver(s, n, p);
            && |t.workspaces| == |s.workspaces| && t.workspaces[n].output == s.workspaces[p].output
            && t.workspaces[p].output == (if Sliding(s, p, p) != [] then s.workspaces[p].output else None)
            && (forall j | 0 <= j < |s.workspaces| && j != n && j != p :: t.workspaces[j] == s.workspaces[j])
            && Done(t, DepartureOf(p)).workspaces[p].output == None
  {
    hide Notified, AllViews, Arrange, PutOff, SlideTasks, Sliding;
    SlidingStays(s, n, p);
  }

  /** Taking the other workspace in does not change which views slide out. */
  lemma SlidingStays(s: State, n: nat, p: nat)
    requires n < |s.workspaces| && p < |s.workspaces| && n != p && s.workspaces[p].output.Some?
    ensures Sliding(SlideIn(Entered(s, n, p), n, p, s.workspaces[p].output.value, SlideBy(s, n, p)), p, p) ==
            Sliding(s, p, p)
  {
    hide NormalTiles, SlideTasks, PutOff, LayoutTasks;
    var s1 := InWorkspace(s, n, Activate(s.workspaces[n], s.screen, s.workspaces[p].output.value));
    var s2 := Entered(s, n, p);
    var s3 := SlideIn(s2, n, p, s.workspaces[p].output.value, SlideBy(s, n, p));
    ArrangeKeeps(s1.workspaces[n], s1.screen, s1.env, false);
    NotifiedKeepsNormal(Table(s), AllViews(s.workspaces[n]), s.workspaces[n].output, s.workspaces[p].output);
    PutOffKeepsCores(Table(s2), Sliding(s2, n, p), SlideBy(s, n, p));
    SameCoresSameNormal(Table(s2), Table(s3));
    SameNormalTiles(s.workspaces[p].columns, Table(s), Table(s3), |s.workspaces[p].columns|);
  }

  lemma {:induction false} NotifiedKeepsNormal(views: ViewTable, ids: seq<ViewId>, before: Option<OutputId>,
                                               after: Option<OutputId>)
    ensures forall v :: IsNormal(Notified(views, ids, before, after), v) == IsNormal(views, v)
  {
    if ids == [] {
    } else {
      NotifiedKeepsNormal(views, ids[..|ids| - 1], before, after);
    }
  }

  lemma SameCoresSameNormal(a: ViewTable, b: ViewTable)
    requires Cores(a) == Cores(b)
    ensures forall v :: IsNormal(a, v) == IsNormal(b, v)
  {
    forall v
      ensures IsNormal(a, v) == IsNormal(b, v)
    {
      assert v in a <==> v in Cores(a);
      if v in a {
        CoresAt(a, v);
        CoresAt(b, v);
      }
    }
  }

  lemma {:induction false} SameNormalTiles(cols: seq<Column>, a: ViewTable, b: ViewTable, c: nat)
    requires c <= |cols| && forall v :: IsNormal(a, v) == IsNormal(b, v)
    ensures NormalTiles(cols, a, c) == NormalTiles(cols, b, c)
  {
    hide IsNormal;
    if c == 0 {
    } else {
      SameNormalTiles(cols, a, b, c - 1);
      SameNormalIn(cols[c - 1], a, b, |cols[c - 1]|);
    }
  }

  lemma {:induction false} SameNormalIn(col: Column, a: ViewTable, b: ViewTable, t: nat)
    requires t <= |col| && forall v :: IsNormal(a, v) == IsNormal(b, v)
    ensures NormalIn(col, a, t) == NormalIn(col, b, t)
  {
    hide IsNormal;
    if t == 0 {
    } else {
      SameNormalIn(col, a, b, t - 1);
    }
  }
}
