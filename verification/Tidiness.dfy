/** Why the workspaces on outputs stay laid out: whatever happens, laying one of them out again would change neither
    target nor requested size of any of its tiles. */
module Tidiness {
  import opened Prelude
  import opened Views
  import opened Columns
  import opened Rearranging
  import opened Layout
  import opened Scrolling
  import opened Animation
  import opened AnimationQueue
  import opened Tiling
  import opened Desktop
  import opened Invariants
  import opened Preservation
  import opened Steps
  import opened Focus
  import opened Effects
  import opened RoundTrip
  import opened Outcomes
  import Runs
  import Homecoming

  // ---------------------------------------------------------------------------------------
  // Tidy workspaces
  // ---------------------------------------------------------------------------------------

  /** Laying the workspace out again would change no aim of its tiles. */
  ghost predicate TidyOn(w: WorkspaceState, views: ViewTable, info: OutputInfo, gap: int)
  {
    forall u | IsNormal(views, u) && FindColumn(w.columns, u) < |w.columns| ::
      Aim(views[u]) == Aim(ArrangedView(w, views, info, gap, true, u))
  }

  ghost predicate TidyIn(w: WorkspaceState, views: ViewTable, env: Env)
  {
    w.output.Some? && w.output.value in env.outputs ==> TidyOn(w, views, env.outputs[w.output.value], env.gap)
  }

  /** Every workspace on an output is tidy. */
  ghost predicate Tidy(s: State)
  {
    forall i | 0 <= i < |s.workspaces| :: TidyIn(s.workspaces[i], Table(s), s.env)
  }

  /** What a layout sees and sets of a view is the same in both. */
  predicate SameTile(a: View, b: View)
  {
    a.geometry == b.geometry && a.IsMappedAndNormal() == b.IsMappedAndNormal() && Aim(a) == Aim(b)
  }

  /** From a to b only views of the set own have changed, as far as layouts are concerned. */
  ghost predicate Touches(a: ViewTable, b: ViewTable, own: set<ViewId>)
  {
    forall u | u !in own :: (u in a <==> u in b) && (u in a ==> SameTile(a[u], b[u]))
  }

  lemma TouchesTwice(a: ViewTable, b: ViewTable, c: ViewTable, own: set<ViewId>)
    requires Touches(a, b, own) && Touches(b, c, own)
    ensures Touches(a, c, own)
  {
    hide SameTile;
    forall u | u !in own
      ensures (u in a <==> u in c) && (u in a ==> SameTile(a[u], c[u]))
    {
      assert u in a <==> u in b;
      if u in a {
        SameTileTwice(a[u], b[u], c[u]);
      }
    }
  }

  lemma SameTileTwice(a: View, b: View, c: View)
    requires SameTile(a, b) && SameTile(b, c)
    ensures SameTile(a, c)
  {
  }

  lemma TouchesBack(a: ViewTable, b: ViewTable, own: set<ViewId>)
    requires Touches(a, b, own)
    ensures Touches(b, a, own)
  {
    forall u | u !in own && u in b
      ensures u in a && SameTile(b[u], a[u])
    {
      assert u in a <==> u in b;
    }
  }

  lemma TouchesMore(a: ViewTable, b: ViewTable, own: set<ViewId>, more: set<ViewId>)
    requires Touches(a, b, own) && own <= more
    ensures Touches(a, b, more)
  {
  }

  lemma TouchesItself(a: ViewTable, own: set<ViewId>)
    ensures Touches(a, a, own)
  {
  }

  /** The same list of columns, scrolled alike. */
  predicate SameRow(w: WorkspaceState, w': WorkspaceState)
  {
    w'.columns == w.columns && w'.scrollX == w.scrollX
  }

  /** None of the views is tiled in the workspace. */
  ghost predicate Apart(w: WorkspaceState, own: set<ViewId>)
  {
    forall u | u in own :: FindColumn(w.columns, u) == |w.columns|
  }

  lemma ApartSizes(w: WorkspaceState, a: ViewTable, b: ViewTable, own: set<ViewId>)
    requires Touches(a, b, own) && Apart(w, own)
    ensures forall c | 0 <= c < |w.columns| :: SameSizesIn(w.columns[c], a, b)
  {
    hide FindColumn;
    forall c, t | 0 <= c < |w.columns| && 0 <= t < |w.columns[c]|
      ensures SameSize(a, b, w.columns[c][t].view)
    {
      var u := w.columns[c][t].view;
      HoldsView(w.columns[c], t);
      assert u !in own;
    }
  }

  lemma SameAimAnywhere(w: WorkspaceState, w': WorkspaceState, a: ViewTable, b: ViewTable, info: OutputInfo, gap: int,
                        u: ViewId)
    requires SameRow(w, w') && forall c | 0 <= c < |w.columns| :: SameSizesIn(w.columns[c], a, b)
    requires IsNormal(a, u) && IsNormal(b, u) && a[u].geometry == b[u].geometry
    requires FindColumn(w.columns, u) < |w.columns|
    ensures Aim(ArrangedView(w, a, info, gap, true, u)) == Aim(ArrangedView(w', b, info, gap, true, u))
  {
    hide FindColumn, FindTile, SameSizesIn, XUpTo, YUpTo, TileHeight;
    var c := FindColumn(w.columns, u);
    TileFound(w.columns[c], u);
    SameWindowBox(w, a, b, info, gap, c, FindTile(w.columns[c], u));
  }

  /** A workspace stays tidy as long as only views that are not tiled in it change. */
  lemma ApartStaysTidy(w: WorkspaceState, w': WorkspaceState, a: ViewTable, b: ViewTable, info: OutputInfo, gap: int,
                       own: set<ViewId>)
    requires TidyOn(w, a, info, gap) && SameRow(w, w') && Touches(a, b, own) && Apart(w, own)
    ensures TidyOn(w', b, info, gap)
  {
    hide FindColumn, ArrangedView, SameSizesIn, Aim;
    ApartSizes(w, a, b, own);
    forall u | IsNormal(b, u) && FindColumn(w'.columns, u) < |w'.columns|
      ensures Aim(b[u]) == Aim(ArrangedView(w', b, info, gap, true, u))
    {
      assert u !in own;
      SameAimAnywhere(w, w', a, b, info, gap, u);
    }
  }

  lemma ApartStaysTidyIn(w: WorkspaceState, w': WorkspaceState, a: ViewTable, b: ViewTable, env: Env, own: set<ViewId>)
    requires TidyIn(w, a, env) && SameRow(w, w') && w'.output == w.output && Touches(a, b, own) && Apart(w, own)
    ensures TidyIn(w', b, env)
  {
    hide TidyOn, Touches, Apart;
    if w.output.Some? && w.output.value in env.outputs {
      ApartStaysTidy(w, w', a, b, env.outputs[w.output.value], env.gap, own);
    }
  }

  /** A layout makes its workspace tidy. */
  lemma ArrangingTidies(w: WorkspaceState, s: Screen, env: Env, animate: bool)
    ensures TidyIn(w, Arrange(w, s, env, animate).views, env)
  {
    hide FindColumn, ArrangedView, LayoutTasks, Aim;
    if w.output.Some? && w.output.value in env.outputs {
      var info := env.outputs[w.output.value];
      var r := Arrange(w, s, env, animate).views;
      var animated := animate && !w.suspendAnimations;
      ArrangingKeepsSizes(w, s.views, info, env.gap, animated);
      SameSizesAnywhere(s.views, r, w.columns);
      forall u | IsNormal(r, u) && FindColumn(w.columns, u) < |w.columns|
        ensures Aim(r[u]) == Aim(ArrangedView(w, r, info, env.gap, true, u))
      {
        SameAimAnywhere(w, w, s.views, r, info, env.gap, u);
        AnimatedOrNot(w, s.views, info, env.gap, animated, u);
      }
    }
  }

  lemma AnimatedOrNot(w: WorkspaceState, views: ViewTable, info: OutputInfo, gap: int, animated: bool, u: ViewId)
    requires u in views
    ensures Aim(ArrangedView(w, views, info, gap, animated, u)) == Aim(ArrangedView(w, views, info, gap, true, u))
  {
    hide FindColumn, FindTile, WindowBox;
  }

  /** All views tiled or fullscreen in the workspace are among those of own. */
  ghost predicate CoveredBy(w: WorkspaceState, own: set<ViewId>)
  {
    forall u: ViewId | u !in own :: Count(w.columns, u) == 0 && w.fullscreen != Some(u)
  }

  /** A layout touches these views only. */
  lemma ArrangingTouches(w: WorkspaceState, s: Screen, env: Env, animate: bool, own: set<ViewId>)
    requires CoveredBy(w, own)
    ensures Touches(s.views, Arrange(w, s, env, animate).views, own)
  {
    hide FindColumn, FindTile, WindowBox, LayoutTasks, Count, SameTile, ArrangedView;
    var r := Arrange(w, s, env, animate).views;
    forall u | u !in own && u in s.views
      ensures SameTile(s.views[u], r[u])
    {
      assert Count(w.columns, u) == 0;
      FindColumnIsMembership(w.columns, u);
      ArrangingLeavesAlone(w, s, env, animate, u);
      SameTileItself(r[u]);
    }
  }

  lemma SameTileItself(v: View)
    ensures SameTile(v, v)
  {
  }

  lemma TouchesOne(a: ViewTable, v: ViewId, view: View, own: set<ViewId>)
    requires v in own
    ensures Touches(a, a[v := view], own)
  {
  }

  // ---------------------------------------------------------------------------------------
  // Steps in one workspace
  // ---------------------------------------------------------------------------------------

  /** The invariants that steps need: where views are, and which ones are fullscreen. */
  ghost predicate Settled(s: State)
  {
    Placement(BonesOf(s)) && FullscreenOk(BonesOf(s))
  }

  lemma SettledByInv(s: State)
    requires BonesOk(BonesOf(s))
    ensures Settled(s)
  {
    hide Placement, FullscreenOk, Assigned, Balanced, BonesOf;
  }

  /** The views of workspace i. */
  ghost function Residents(s: State, i: int): set<ViewId>
  {
    set u | u in Table(s) && Table(s)[u].mapped && Table(s)[u].workspaceId == i
  }

  lemma ResidentsCount(s: State, i: nat, u: ViewId)
    requires Placement(BonesOf(s)) && i < |s.workspaces|
    ensures Occurrences(s.workspaces[i], u) == if u in Residents(s, i) then 1 else 0
    ensures Count(s.workspaces[i].columns, u) <= Occurrences(s.workspaces[i], u)
  {
    hide Placement, Occurrences, Count;
    PlacedIsDistinct(s, i);
    Runs.DueMeans(s, i, u);
    CountWithin(s.workspaces[i], u);
  }

  lemma ResidentsCover(s: State, i: nat)
    requires Settled(s) && i < |s.workspaces|
    ensures CoveredBy(s.workspaces[i], Residents(s, i))
  {
    hide Placement, Occurrences, Count;
    forall u: ViewId | u !in Residents(s, i)
      ensures Count(s.workspaces[i].columns, u) == 0 && s.workspaces[i].fullscreen != Some(u)
    {
      ResidentsCount(s, i, u);
      FullscreenAt(s, i);
      Runs.DueMeans(s, i, u);
      assert BonesOf(s).ws[i].fullscreen == Some(u) ==> Due(BonesOf(s), i, u) == 1;
    }
  }

  lemma ResidentsApart(s: State, i: int, j: nat)
    requires Placement(BonesOf(s)) && j < |s.workspaces| && i != j
    ensures Apart(s.workspaces[j], Residents(s, i))
  {
    hide Placement, Occurrences, Count, FindColumn;
    forall u | u in Residents(s, i)
      ensures FindColumn(s.workspaces[j].columns, u) == |s.workspaces[j].columns|
    {
      ResidentsCount(s, j, u);
      FindColumnIsMembership(s.workspaces[j].columns, u);
    }
  }

  /** A view that is not mapped is tiled nowhere. */
  lemma UnmappedApart(s: State, v: ViewId, j: nat)
    requires Placement(BonesOf(s)) && j < |s.workspaces| && !(v in Table(s) && Table(s)[v].mapped)
    ensures Apart(s.workspaces[j], {v})
  {
    hide Placement, Occurrences, Count, FindColumn;
    ResidentsCount(s, j, v);
    FindColumnIsMembership(s.workspaces[j].columns, v);
  }

  /** From s to t only workspace i changes, and only views of own, which are tiled in no other. */
  ghost predicate StepIn(s: State, t: State, i: int, own: set<ViewId>)
  {
    && t.env == s.env && |t.workspaces| == |s.workspaces| && Touches(Table(s), Table(t), own)
    && forall j | 0 <= j < |s.workspaces| && j != i ::
         && Apart(s.workspaces[j], own)
         && SameRow(s.workspaces[j], t.workspaces[j]) && t.workspaces[j].output == s.workspaces[j].output
  }

  /** Every workspace on an output is tidy, but perhaps workspace i. */
  ghost predicate TidyBut(s: State, i: int)
  {
    forall j | 0 <= j < |s.workspaces| && j != i :: TidyIn(s.workspaces[j], Table(s), s.env)
  }

  /** The same as for the whole desktop, for all workspaces but i. */
  lemma OthersStayTidy(s: State, t: State, i: int, own: set<ViewId>)
    requires TidyBut(s, i) && StepIn(s, t, i, own)
    ensures TidyBut(t, i)
  {
    hide TidyIn, Touches, Apart, SameRow;
    forall j | 0 <= j < |t.workspaces| && j != i
      ensures TidyIn(t.workspaces[j], Table(t), t.env)
    {
      assert TidyIn(s.workspaces[j], Table(s), s.env);
      ApartStaysTidyIn(s.workspaces[j], t.workspaces[j], Table(s), Table(t), s.env, own);
    }
  }

  /** And the other way round: what such a step leaves tidy was tidy before. */
  lemma OthersWereTidy(s: State, t: State, i: int, own: set<ViewId>)
    requires TidyBut(t, i) && StepIn(s, t, i, own)
    ensures TidyBut(s, i)
  {
    hide TidyIn, Touches;
    TouchesBack(Table(s), Table(t), own);
    OthersStayTidy(t, s, i, own);
  }

  lemma StepTidies(s: State, t: State, i: int, own: set<ViewId>)
    requires Tidy(s) && StepIn(s, t, i, own)
    requires 0 <= i < |t.workspaces| ==> TidyIn(t.workspaces[i], Table(t), t.env)
    ensures Tidy(t)
  {
    hide TidyIn, Touches, Apart, SameRow;
    OthersStayTidy(s, t, i, own);
  }

  /** A step that ends with a layout of workspace i. */
  lemma LayoutTidies(s: State, i: nat, w: WorkspaceState, before: Screen, own: set<ViewId>)
    requires Tidy(s) && Settled(s) && i < |s.workspaces| && CoveredBy(w, own) && Touches(Table(s), before.views, own)
    requires forall j | 0 <= j < |s.workspaces| && j != i :: Apart(s.workspaces[j], own)
    ensures Tidy(InWorkspace(s, i, (w, Arrange(w, before, s.env, true))))
  {
    hide Tidy, Arrange, Settled, CoveredBy, Touches, Apart, TidyIn;
    var t := InWorkspace(s, i, (w, Arrange(w, before, s.env, true)));
    ArrangingTouches(w, before, s.env, true, own);
    TouchesTwice(Table(s), before.views, Table(t), own);
    ArrangingTidies(w, before, s.env, true);
    StepTidies(s, t, i, own);
  }

  lemma OthersApart(s: State, i: int)
    requires Placement(BonesOf(s))
    ensures forall j | 0 <= j < |s.workspaces| && j != i :: Apart(s.workspaces[j], Residents(s, i))
  {
    hide Placement, Apart, BonesOf, Residents;
    forall j | 0 <= j < |s.workspaces| && j != i
      ensures Apart(s.workspaces[j], Residents(s, i))
    {
      ResidentsApart(s, i, j);
    }
  }

  lemma ScrolledIsCovered(w: WorkspaceState, scroll: int, own: set<ViewId>)
    requires CoveredBy(w, own)
    ensures CoveredBy(w.(scrollX := scroll), own)
  {
    hide Count;
  }

  /** A layout of the one workspace that may not be tidy. */
  lemma ArrangingMends(s: State, i: nat, animate: bool)
    requires Settled(s) && i < |s.workspaces|
    ensures Tidy(s.(screen := Arrange(s.workspaces[i], s.screen, s.env, animate))) <==> TidyBut(s, i)
  {
    hide TidyIn, Arrange, Placement, FullscreenOk, BonesOf, CoveredBy, Touches, Apart, Residents, TidyBut, Tidy;
    var own := Residents(s, i);
    var t := s.(screen := Arrange(s.workspaces[i], s.screen, s.env, animate));
    ResidentsCover(s, i);
    OthersApart(s, i);
    ArrangingTouches(s.workspaces[i], s.screen, s.env, animate, own);
    ArrangingTidies(s.workspaces[i], s.screen, s.env, animate);
    MendedStep(s, t, i, own);
  }

  /** A step after which workspace i is tidy. */
  lemma MendedStep(s: State, t: State, i: nat, own: set<ViewId>)
    requires i < |s.workspaces| && StepIn(s, t, i, own) && TidyIn(t.workspaces[i], Table(t), t.env)
    ensures Tidy(t) <==> TidyBut(s, i)
  {
    hide TidyIn, StepIn;
    assert |t.workspaces| == |s.workspaces| by { StepKeepsCount(s, t, i, own); }
    if TidyBut(s, i) {
      OthersStayTidy(s, t, i, own);
    }
    if Tidy(t) {
      OthersWereTidy(s, t, i, own);
    }
  }

  lemma StepKeepsCount(s: State, t: State, i: int, own: set<ViewId>)
    requires StepIn(s, t, i, own)
    ensures |t.workspaces| == |s.workspaces|
  {
  }

  lemma FittingMends(s: State, i: nat, v: ViewId, condense: bool)
    requires Settled(s) && i < |s.workspaces|
    requires IsNormal(Table(s), v) && FindColumn(s.workspaces[i].columns, v) < |s.workspaces[i].columns|
    ensures Tidy(InWorkspace(s, i, FitView(s.workspaces[i], s.screen, s.env, v, condense))) <==> TidyBut(s, i)
  {
    hide TidyIn, Arrange, Placement, FullscreenOk, BonesOf, CoveredBy, Touches, Apart, FindColumn, FitScroll, Residents,
      TidyBut, Tidy;
    var w := s.workspaces[i];
    var own := Residents(s, i);
    var (w', screen) := FitView(w, s.screen, s.env, v, condense);
    var t := InWorkspace(s, i, (w', screen));
    ResidentsCover(s, i);
    OthersApart(s, i);
    TouchesItself(Table(s), own);
    ScrolledIsCovered(w, w'.scrollX, own);
    assert w' == w.(scrollX := w'.scrollX);
    ArrangingTouches(w', s.screen, s.env, true, own);
    ArrangingTidies(w', s.screen, s.env, true);
    if w.output.None? || w.output.value !in s.env.outputs {
      Nowhere(w, Table(s), s.env);
    }
    MendedStep(s, t, i, own);
  }

  lemma Nowhere(w: WorkspaceState, views: ViewTable, env: Env)
    requires w.output.None? || w.output.value !in env.outputs
    ensures TidyIn(w, views, env)
  {
  }

  lemma ArrangingInTidies(s: State, i: nat)
    requires Tidy(s) && Settled(s) && i < |s.workspaces|
    ensures Tidy(ArrangeIn(s, i))
  {
    hide TidyIn, Arrange, Settled;
    ArrangingMends(s, i, true);
  }

  lemma FittingTidies(s: State, i: nat, v: ViewId, condense: bool)
    requires Tidy(s) && Settled(s) && i < |s.workspaces|
    ensures Tidy(InWorkspace(s, i, FitView(s.workspaces[i], s.screen, s.env, v, condense)))
  {
    hide TidyIn, Arrange, Settled, FindColumn, FitScroll;
    if IsNormal(Table(s), v) && FindColumn(s.workspaces[i].columns, v) < |s.workspaces[i].columns| {
      FittingMends(s, i, v, condense);
    } else {
      assert s.workspaces[i := s.workspaces[i]] == s.workspaces;
    }
  }

  lemma ShowingTidies(s: State, v: ViewId, condense: bool)
    requires Tidy(s) && Settled(s)
    ensures Tidy(Show(s, v, condense))
  {
    hide Tidy, Settled, FitView;
    if Located(s, v) {
      FittingTidies(s, Home(s, v), v, condense);
    }
  }

  lemma ScrollingTidies(s: State, i: nat, scroll: int, animate: bool)
    requires Tidy(s) && Settled(s) && i < |s.workspaces|
    ensures Tidy(ScrollTo(s, i, scroll, animate))
  {
    hide Tidy, Arrange, Placement, FullscreenOk, BonesOf, CoveredBy, Touches, Apart, TidyIn;
    var w := s.workspaces[i].(scrollX := scroll);
    var t := ScrollTo(s, i, scroll, animate);
    ResidentsCover(s, i);
    OthersApart(s, i);
    ScrolledIsCovered(s.workspaces[i], scroll, Residents(s, i));
    ArrangingTouches(w, s.screen, s.env, animate, Residents(s, i));
    ArrangingTidies(w, s.screen, s.env, animate);
    StepTidies(s, t, i, Residents(s, i));
  }

  /** Only what is not laid out differs: the time, the layers, the seat, where views are. */
  ghost predicate Untouched(s: State, t: State)
  {
    && |t.workspaces| == |s.workspaces| && t.env.gap == s.env.gap && Touches(Table(s), Table(t), {})
    && forall j | 0 <= j < |s.workspaces| :: Undisturbed(s.workspaces[j], t.workspaces[j], s.env, t.env)
  }

  /** The workspace is on no output, or where it was. */
  predicate Undisturbed(w: WorkspaceState, w': WorkspaceState, env: Env, env': Env)
  {
    && SameRow(w, w')
    && (w'.output.Some? && w'.output.value in env'.outputs ==>
          w'.output == w.output && w.output.value in env.outputs
          && env'.outputs[w.output.value] == env.outputs[w.output.value])
  }

  lemma UntouchedTidies(s: State, t: State)
    requires Tidy(s) && Untouched(s, t)
    ensures Tidy(t)
  {
    hide TidyOn, Touches;
    forall j | 0 <= j < |t.workspaces|
      ensures TidyIn(t.workspaces[j], Table(t), t.env)
    {
      var w, w' := s.workspaces[j], t.workspaces[j];
      assert TidyIn(w, Table(s), s.env) && Undisturbed(w, w', s.env, t.env);
      if w'.output.Some? && w'.output.value in t.env.outputs {
        ApartStaysTidy(w, w', Table(s), Table(t), s.env.outputs[w.output.value], s.env.gap, {});
      }
    }
  }

  lemma RestTidies(s: State, t: State, i: int)
    requires TidyBut(s, i) && |t.workspaces| == |s.workspaces| && t.env.gap == s.env.gap
    requires Touches(Table(s), Table(t), {})
    requires forall j | 0 <= j < |s.workspaces| && j != i ::
               Undisturbed(s.workspaces[j], t.workspaces[j], s.env, t.env)
    ensures TidyBut(t, i)
  {
    hide TidyOn, Touches;
    forall j | 0 <= j < |t.workspaces| && j != i
      ensures TidyIn(t.workspaces[j], Table(t), t.env)
    {
      var w, w' := s.workspaces[j], t.workspaces[j];
      assert TidyIn(w, Table(s), s.env) && Undisturbed(w, w', s.env, t.env);
      if w'.output.Some? && w'.output.value in t.env.outputs {
        ApartStaysTidy(w, w', Table(s), Table(t), s.env.outputs[w.output.value], s.env.gap, {});
      }
    }
  }

  // ---------------------------------------------------------------------------------------
  // The focus
  // ---------------------------------------------------------------------------------------

  lemma PlainKeepsBones(s: State, view: Option<ViewId>, condense: bool)
    requires Tidy(s) && Settled(s)
    ensures BonesOf(FocusPlain(s, view, condense)) == BonesOf(s) && Tidy(FocusPlain(s, view, condense))
  {
    hide Show, HiddenByFullscreen, InputAllowed, ToFront, Tidy, Settled, BonesOf;
    var s1 := if FocusedView(s).Some? then s.(seat := s.seat.(keyboard := None)) else s;
    SeatAside(s, s1);
    if view.Some? {
      ShowKeepsBones(s, view.value, condense);
      ShowingTidies(s, view.value, condense);
      var s2 := WithSeat(s1, ToFront(s1.seat.focusStack, view.value), Some(ViewSurface(view.value)));
      SeatAside(s, s2);
      ShowKeepsBones(s2, view.value, condense);
      ShowingTidies(s2, view.value, condense);
    }
  }

  /** Only the seat differs, or an assertion has failed. */
  lemma SeatAside(s: State, t: State)
    requires t == s.(seat := t.seat, screen := s.screen.(fault := t.screen.fault))
    ensures BonesOf(t) == BonesOf(s) && (Tidy(s) ==> Tidy(t)) && (Settled(s) ==> Settled(t))
  {
    hide TidyIn;
    assert BonesOf(t).ws == BonesOf(s).ws;
  }

  lemma {:induction false} FocusingTidies(s: State, view: Option<ViewId>, condense: bool)
    requires Tidy(s) && Settled(s)
    ensures var t := FocusView(s, view, condense);
            BonesOf(t) == BonesOf(s) && Tidy(t) && Settled(t)
    decreases if s.seat.focusedLayer.Some? then 2 else 0
  {
    hide FocusPlain, Tidy, BonesOf, Placement, FullscreenOk;
    if s.seat.focusedLayer.Some? {
      var s1 := FocusLayer(s, None);
      FocusingLayerTidies(s, None);
      FocusingTidies(s1, view, condense);
      FocusingLayerTidies(FocusView(s1, view, condense), s.seat.focusedLayer);
    } else {
      PlainKeepsBones(s, view, condense);
    }
  }

  lemma {:induction false} FocusingLayerTidies(s: State, layer: Option<LayerId>)
    requires Tidy(s) && Settled(s)
    ensures var t := FocusLayer(s, layer);
            BonesOf(t) == BonesOf(s) && Tidy(t) && Settled(t)
    decreases if s.seat.focusedLayer.Some? && layer.None? then 1 else 0
  {
    hide FocusPlain, Tidy, BonesOf, Settled;
    if layer.None? && s.seat.focusedLayer.Some? {
      var s1 := s.(seat := s.seat.(focusedLayer := None));
      SeatAside(s, s1);
      var focused := FocusedView(s1);
      if focused.Some? {
        FocusingTidies(s1, None, false);
        FocusingTidies(FocusView(s1, None, false), focused, false);
      }
    } else {
      SeatAside(s, FocusLayer(s, layer));
    }
  }

  // ---------------------------------------------------------------------------------------
  // Views come and go
  // ---------------------------------------------------------------------------------------

  lemma CoveredWithView(w: WorkspaceState, v: ViewId, nextTo: Option<ViewId>, floating: bool, own: set<ViewId>)
    requires CoveredBy(w, own) && v in own
    ensures CoveredBy(WithView(w, v, nextTo, floating), own)
  {
    hide Count, AddColumn;
    var w' := WithView(w, v, nextTo, floating);
    forall u: ViewId | u !in own
      ensures Count(w'.columns, u) == 0 && w'.fullscreen != Some(u)
    {
      AddColumnCount(w.columns, v, nextTo, u);
    }
  }

  lemma CoveredWithoutView(w: WorkspaceState, v: ViewId, own: set<ViewId>)
    requires CoveredBy(w, own) && Count(w.columns, v) <= 1
    ensures CoveredBy(WithoutView(w, v), own) && CoveredBy(WithoutView(Dismissed(w, v), v), own)
  {
    hide Count, RemoveView;
    forall u: ViewId | u !in own
      ensures Count(RemoveView(w.columns, v), u) == 0 && w.fullscreen != Some(u)
    {
      RemoveViewCount(w.columns, v, u);
    }
  }

  lemma CoveredMore(w: WorkspaceState, own: set<ViewId>, more: set<ViewId>)
    requires CoveredBy(w, own) && own <= more
    ensures CoveredBy(w, more)
  {
  }

  /** The views of workspace i and one more, which lives there or nowhere. */
  lemma OwnCovers(s: State, i: nat, v: ViewId)
    requires Settled(s) && i < |s.workspaces|
    requires v in Table(s) && (Table(s)[v].mapped ==> Table(s)[v].workspaceId == i)
    ensures var own := Residents(s, i) + {v};
            CoveredBy(s.workspaces[i], own)
            && forall j | 0 <= j < |s.workspaces| && j != i :: Apart(s.workspaces[j], own)
    ensures Count(s.workspaces[i].columns, v) <= 1
  {
    hide Placement, FullscreenOk, BonesOf, CoveredBy;
    var own := Residents(s, i) + {v};
    ResidentsCover(s, i);
    CoveredMore(s.workspaces[i], Residents(s, i), own);
    OthersApart(s, i);
    ResidentsCount(s, i, v);
    forall j | 0 <= j < |s.workspaces| && j != i
      ensures Apart(s.workspaces[j], own)
    {
      if v !in Residents(s, i) {
        UnmappedApart(s, v, j);
      }
    }
  }

  lemma MappedTidies(s: State, v: ViewId, geometry: Box)
    requires Tidy(s) && Settled(s) && CanMap(s, v)
    ensures Tidy(Mapped(s, v, geometry))
  {
    hide Tidy, Settled, Arrange, CoveredBy, Touches, Apart, AddColumn, Told, FocusedWorkspace, FloatingAfter, Residents;
    var i := FocusedWorkspace(s).value;
    var w := s.workspaces[i];
    var own := Residents(s, i) + {v};
    var view := NewlyMapped(Table(s)[v], geometry);
    var s1 := WithTable(s, Table(s)[v := view]);
    var told := view.(workspaceId := w.index).ChangeOutput(None, w.output);
    var w' := WithView(w, v, FocusedView(s1), false);
    OwnCovers(s, i, v);
    CoveredWithView(w, v, FocusedView(s1), false, own);
    TouchesOne(Table(s), v, view, own);
    TouchesOne(Table(s1), v, told, own);
    TouchesTwice(Table(s), Table(s1), Table(s1)[v := told], own);
    LayoutTidies(s, i, w', s1.screen.(views := Table(s1)[v := told]), own);
  }

  lemma MappingTidies(s: State, v: ViewId, geometry: Box)
    requires Inv(s) && Tidy(s) && CanMap(s, v)
    ensures Tidy(MapView(s, v, geometry))
  {
    hide BonesOk, BonesOf, StackOk, Tidy, Settled, Mapped, FocusView, MapView, IsMapped, FocusedWorkspace;
    SettledByInv(s);
    MappedTidies(s, v, geometry);
    MappedKeeps(s, v, geometry);
    SettledByInv(Mapped(s, v, geometry));
    MappedIs(s, v, geometry);
    FocusingTidies(Mapped(s, v, geometry), Some(v), false);
  }

  lemma MappedIs(s: State, v: ViewId, geometry: Box)
    requires v in Table(s) && FocusedWorkspace(s).Some?
    ensures MapView(s, v, geometry) == FocusView(Mapped(s, v, geometry), Some(v), false)
  {
    hide AddView, FocusView, FocusedWorkspace;
    SameCursorWorkspace(s, WithTable(s, Table(s)[v := NewlyMapped(Table(s)[v], geometry)]));
  }

  lemma WithdrawingTidies(s: State, v: ViewId)
    requires Tidy(s) && Settled(s) && v in Table(s) && (Table(s)[v].mapped ==> Located(s, v))
    ensures Tidy(Withdrawn(s, v))
  {
    hide Tidy, Settled, Arrange, CoveredBy, Touches, Apart, RemoveView, Told, Without, Residents;
    if Table(s)[v].mapped {
      var i := Home(s, v);
      var w := s.workspaces[i];
      var own := Residents(s, i) + {v};
      var gone := Table(s)[v].(mapped := false);
      var s1 := WithTable(s, Table(s)[v := gone]);
      var told := gone.ChangeOutput(Dismissed(w, v).output, None);
      OwnCovers(s, i, v);
      CoveredWithoutView(w, v, own);
      TouchesOne(Table(s), v, gone, own);
      TouchesOne(Table(s1), v, told, own);
      TouchesTwice(Table(s), Table(s1), Table(s1)[v := told], own);
      LayoutTidies(s, i, WithoutView(Dismissed(w, v), v), s1.screen.(views := Table(s1)[v := told]), own);
    }
  }

  lemma UnmappingTidies(s: State, v: ViewId)
    requires Inv(s) && Tidy(s) && v in Table(s)
    ensures Tidy(UnmapView(s, v))
  {
    hide BonesOk, BonesOf, StackOk, Tidy, Settled, Withdrawn, FocusView, Located;
    SettledByInv(s);
    if Table(s)[v].mapped {
      MappedIsLocated(s, v);
    }
    WithdrawingTidies(s, v);
    WithdrawingKeeps(s, v);
    var s1 := Withdrawn(s, v);
    SettledByInv(s1);
    var next := FirstMapped(s1.seat.focusStack, Table(s1), v);
    FocusingTidies(s1, next, true);
    SeatAside(HideView(s1, v), UnmapView(s, v));
  }

  lemma CreatingTidies(s: State, v: ViewId, client: nat, ancestors: seq<ViewId>)
    requires Inv(s) && Tidy(s) && v !in Table(s)
    ensures Tidy(CreateView(s, v, client, ancestors))
  {
    hide BonesOk, BonesOf, StackOk, TidyIn, Placement, Apart;
    SettledByInv(s);
    forall j | 0 <= j < |s.workspaces|
      ensures Apart(s.workspaces[j], {v})
    {
      UnmappedApart(s, v, j);
    }
    StepTidies(s, CreateView(s, v, client, ancestors), -1, {v});
  }

  lemma DestroyingTidies(s: State, v: ViewId)
    requires Inv(s) && Tidy(s) && v in Table(s) && !Table(s)[v].mapped
    ensures Tidy(DestroyView(s, v))
  {
    hide BonesOk, BonesOf, StackOk, TidyIn, Placement, Apart, Cancelled;
    SettledByInv(s);
    forall j | 0 <= j < |s.workspaces|
      ensures Apart(s.workspaces[j], {v})
    {
      UnmappedApart(s, v, j);
    }
    StepTidies(s, DestroyView(s, v), -1, {v});
  }

  /** A new size is taken into account at once. */
  lemma CommittingTidies(s: State, v: ViewId, geometry: Box)
    requires Inv(s) && Tidy(s) && IsMappedView(s, v)
    ensures Tidy(Commit(s, v, geometry))
  {
    hide BonesOk, BonesOf, StackOk, Tidy, Settled, Arrange, CoveredBy, Touches, Apart, Residents;
    SettledByInv(s);
    if geometry != Table(s)[v].geometry {
      var i := Home(s, v);
      var own := Residents(s, i) + {v};
      var view := Table(s)[v].(geometry := geometry).Recover();
      OwnCovers(s, i, v);
      TouchesOne(Table(s), v, view, own);
      LayoutTidies(s, i, s.workspaces[i], s.screen.(views := Table(s)[v := view]), own);
      assert s.workspaces[i := s.workspaces[i]] == s.workspaces;
    }
  }

  // ---------------------------------------------------------------------------------------
  // Fullscreen
  // ---------------------------------------------------------------------------------------

  lemma ExitTouches(s: Screen, v: ViewId, own: set<ViewId>)
    requires v in own
    ensures Touches(s.views, ExitFullscreen(s, v).views, own)
  {
  }

  lemma EnterTouches(s: Screen, v: ViewId, own: set<ViewId>)
    requires v in own
    ensures Touches(s.views, EnterFullscreen(s, v).views, own)
  {
  }

  /** The views before set_fullscreen_view lays the workspace out. */
  lemma FullscreenTouches(w: WorkspaceState, s: Screen, v: Option<ViewId>, own: set<ViewId>)
    requires CoveredBy(w, own) && (v.Some? ==> v.value in own)
    ensures CoveredBy(w.(fullscreen := v), own)
    ensures var s1 := if w.fullscreen.Some? then ExitFullscreen(s, w.fullscreen.value) else s;
            var s2 := if v.Some? then EnterFullscreen(s1, v.value) else s1;
            Touches(s.views, s2.views, own) && s2.views.Keys == s.views.Keys
  {
    hide Count, Touches, SameTile;
    var s1 := if w.fullscreen.Some? then ExitFullscreen(s, w.fullscreen.value) else s;
    TouchesItself(s.views, own);
    if w.fullscreen.Some? {
      ExitTouches(s, w.fullscreen.value, own);
    }
    if v.Some? {
      EnterTouches(s1, v.value, own);
      TouchesTwice(s.views, s1.views, EnterFullscreen(s1, v.value).views, own);
    }
  }

  lemma RequestingTidies(s: State, v: ViewId, on: bool)
    requires Inv(s) && Tidy(s) && IsMappedView(s, v)
    ensures Tidy(RequestFullscreen(s, v, on))
  {
    hide BonesOk, BonesOf, StackOk, Tidy, Settled, Arrange, CoveredBy, Touches, Apart, Residents, ExitFullscreen,
      EnterFullscreen;
    SettledByInv(s);
    var i := Home(s, v);
    var w := s.workspaces[i];
    var own := Residents(s, i) + {v};
    var f := if on then Some(v) else None;
    var s1 := if w.fullscreen.Some? then ExitFullscreen(s.screen, w.fullscreen.value) else s.screen;
    OwnCovers(s, i, v);
    FullscreenTouches(w, s.screen, f, own);
    LayoutTidies(s, i, w.(fullscreen := f), if on then EnterFullscreen(s1, v) else s1, own);
  }

  // ---------------------------------------------------------------------------------------
  // Commands on the focused view
  // ---------------------------------------------------------------------------------------

  lemma SwappingTouches(s: State, v: ViewId, fullscreen: bool, own: set<ViewId>)
    requires v in Table(s) && v in own
    ensures var t := SizesSwapped(s, v, fullscreen);
            Touches(Table(s), Table(t), own) && t == s.(screen := t.screen)
  {
  }

  lemma RefloatingTidies(s: State, v: ViewId, i: nat)
    requires Tidy(s) && Settled(s) && Located(s, v) && Table(s)[v].mapped && i == Home(s, v)
    ensures Tidy(Refloated(s, v, i))
  {
    hide Tidy, Settled, Arrange, CoveredBy, Touches, Apart, Residents, RemoveView, AddColumn, FloatingAfter, Without,
      SizesSwapped, LastTile;
    var w := s.workspaces[i];
    var own := Residents(s, i) + {v};
    var s1 := SizesSwapped(s, v, w.fullscreen == Some(v));
    var w1 := WithoutView(w, v);
    var before := Arrange(w1, s1.screen, s.env, true);
    var last := LastTile(w1.columns);
    OwnCovers(s, i, v);
    SwappingTouches(s, v, w.fullscreen == Some(v), own);
    CoveredWithoutView(w, v, own);
    ArrangingTouches(w1, s1.screen, s.env, true, own);
    TouchesTwice(Table(s), Table(s1), before.views, own);
    CoveredWithView(w1, v, last, v !in w.floating, own);
    var w2 := WithView(w1, v, last, v !in w.floating);
    LayoutTidies(s, i, w2, before, own);
    assert s.workspaces[i := w1][i := w2] == s.workspaces[i := w2];
  }

  lemma TogglingTidies(s: State)
    requires Inv(s) && Tidy(s)
    ensures Tidy(ToggleFloating(s))
  {
    hide BonesOk, BonesOf, StackOk, Tidy, Settled, Refloated, Show, FirstOf, Located;
    var focused := FocusedView(s);
    if focused.Some? {
      FocusedIsLocated(s);
      var v := focused.value;
      var i := Home(s, v);
      SettledByInv(s);
      RefloatingTidies(s, v, i);
      RefloatingKeepsInv(s, v);
      var s1 := Refloated(s, v, i);
      SettledByInv(s1);
      ShowingTidies(s1, v, false);
      var previous := FirstOf(s1.seat.focusStack, Table(s1), i, Some(v));
      if previous.Some? {
        ShowingTidies(s1, previous.value, true);
      }
    }
  }

  lemma SteppingTidies(s: State, v: ViewId, i: nat, dx: int, dy: int)
    requires Tidy(s) && Settled(s) && i < |s.workspaces|
    requires FindColumn(s.workspaces[i].columns, v) < |s.workspaces[i].columns|
    ensures Tidy(Stepped(s, v, i, dx, dy))
  {
    hide Tidy, Placement, FullscreenOk, BonesOf, Arrange, Touches, Apart, Residents, Moved, FindColumn, Count;
    var w := s.workspaces[i];
    var w' := w.(columns := Moved(w.columns, v, dx, dy).0);
    ResidentsCover(s, i);
    OthersApart(s, i);
    MoveIsAPermutation(w.columns, v, dx, dy);
    TouchesItself(Table(s), Residents(s, i));
    LayoutTidies(s, i, w', s.screen, Residents(s, i));
  }

  lemma MovingTiledTidies(s: State, v: ViewId, i: nat, dx: int, dy: int)
    requires Inv(s) && Tidy(s) && i < |s.workspaces|
    requires FindColumn(s.workspaces[i].columns, v) < |s.workspaces[i].columns|
    ensures Tidy(MoveTiled(s, v, i, dx, dy))
  {
    hide BonesOk, BonesOf, StackOk, Tidy, Settled, Moved, FindColumn, ArrangeIn, FitView;
    SettledByInv(s);
    SteppingTidies(s, v, i, dx, dy);
    SteppingKeeps(s, v, i, dx, dy);
    var s1 := Stepped(s, v, i, dx, dy);
    SettledByInv(s1);
    var (cols, c) := Moved(s.workspaces[i].columns, v, dx, dy);
    if cols[c] != [] {
      FittingTidies(s1, i, cols[c][0].view, false);
    }
  }

  lemma AbsorbingTidies(s: State, i: nat, v: ViewId, c: nat)
    requires Tidy(s) && Settled(s) && i < |s.workspaces| && v in Table(s)
    requires var cols := s.workspaces[i].columns;
             c < |cols| && FindColumn(cols, v) < |cols| && FindColumn(cols, v) != c
    ensures Tidy(InWorkspace(s, i, InsertView(s.workspaces[i], s.screen, s.env, v, c)))
  {
    hide Tidy, Placement, FullscreenOk, BonesOf, Arrange, CoveredBy, Touches, Apart, Residents, RemoveView,
      InsertIntoColumn, FindColumn, Without, WidthUpTo;
    var w := s.workspaces[i];
    var own := Residents(s, i);
    var w1 := WithoutView(w, v);
    var s1 := Arrange(w1, s.screen, s.env, true);
    var (w2, before) := Transferred(w, s.screen, s.env, v, c);
    ResidentsCover(s, i);
    OthersApart(s, i);
    TiledIsResident(s, i, v);
    CoveredWithoutView(w, v, own);
    ArrangingTouches(w1, s.screen, s.env, true, own);
    TouchesOne(s1.views, v, before.views[v], own);
    TouchesTwice(Table(s), s1.views, before.views, own);
    InsertedIsCovered(w, w2, v, c, own);
    LayoutTidies(s, i, w2, before, own);
  }

  lemma TiledIsResident(s: State, i: nat, v: ViewId)
    requires Placement(BonesOf(s)) && i < |s.workspaces|
    requires FindColumn(s.workspaces[i].columns, v) < |s.workspaces[i].columns|
    ensures v in Residents(s, i) && Count(s.workspaces[i].columns, v) == 1
  {
    hide Placement, BonesOf, Occurrences, FindColumn, Count, Residents;
    FindColumnIsMembership(s.workspaces[i].columns, v);
    ResidentsCount(s, i, v);
  }

  lemma InsertedIsCovered(w: WorkspaceState, w': WorkspaceState, v: ViewId, c: nat, own: set<ViewId>)
    requires CoveredBy(w, own) && Count(w.columns, v) == 1
    requires c < |w.columns| && FindColumn(w.columns, v) < |w.columns| && FindColumn(w.columns, v) != c
    requires w'.columns == InsertIntoColumn(w.columns, v, c) && w'.fullscreen == w.fullscreen
    ensures CoveredBy(w', own)
  {
    hide Count, FindColumn, InsertIntoColumn;
    forall u: ViewId | u !in own
      ensures Count(w'.columns, u) == 0 && w'.fullscreen != Some(u)
    {
      InsertIntoColumnCount(w.columns, v, c, u);
    }
  }

  lemma InsertingTidies(s: State)
    requires Inv(s) && Tidy(s)
    ensures Tidy(InsertFocused(s))
  {
    hide BonesOk, BonesOf, StackOk, Tidy, Settled, InsertView, FindColumn;
    if InsertFocused(s) != s {
      SettledByInv(s);
      var v := FocusedView(s).value;
      var i := Home(s, v);
      var cols := s.workspaces[i].columns;
      AbsorbingTidies(s, i, Absorbed(cols, Table(s), v).value, FindColumn(cols, v));
    }
  }

  lemma PoppingColumnTidies(s: State, i: nat, c: nat)
    requires Tidy(s) && Settled(s) && i < |s.workspaces| && c < |s.workspaces[i].columns|
    ensures Tidy(InWorkspace(s, i, PopColumn(s.workspaces[i], s.screen, s.env, c)))
  {
    hide Tidy, Settled, Arrange, CoveredBy, Touches, Apart, Residents, RemoveView, AddColumn, Without;
    var w := s.workspaces[i];
    var col := w.columns[c];
    if |col| < 2 || col[|col| - 1].view !in Table(s) {
      assert s.workspaces[i := w] == s.workspaces;
    } else {
      var p := col[|col| - 1].view;
      var own := Residents(s, i) + {p};
      BottomIsHome(s, i, c);
      OwnCovers(s, i, p);
      var w1 := WithoutView(w, p);
      var s1 := Arrange(w1, s.screen, s.env, true);
      CoveredWithoutView(w, p, own);
      ArrangingTouches(w1, s.screen, s.env, true, own);
      var w2 := WithView(w1, p, Some(col[0].view), false);
      var s2 := Arrange(w2, s1, s.env, true);
      CoveredWithView(w1, p, Some(col[0].view), false, own);
      ArrangingTouches(w2, s1, s.env, true, own);
      TouchesTwice(Table(s), s1.views, s2.views, own);
      LayoutTidies(s, i, w2, s2, own);
    }
  }

  lemma BottomIsHome(s: State, i: nat, c: nat)
    requires Settled(s) && i < |s.workspaces| && c < |s.workspaces[i].columns| && s.workspaces[i].columns[c] != []
    ensures var col := s.workspaces[i].columns[c];
            var p := col[|col| - 1].view;
            p in Residents(s, i) && p in Table(s) && Table(s)[p].workspaceId == i
  {
    hide Placement, FullscreenOk, BonesOf, Occurrences;
    var col := s.workspaces[i].columns[c];
    BottomOccurs(s.workspaces[i], c);
    ResidentsCount(s, i, col[|col| - 1].view);
  }

  lemma PoppingTidies(s: State)
    requires Inv(s) && Tidy(s)
    ensures Tidy(PopFocused(s))
  {
    hide BonesOk, BonesOf, StackOk, Tidy, Settled, PopColumn, FindColumn, Show;
    if PopFocused(s) != s {
      SettledByInv(s);
      var v := FocusedView(s).value;
      var i := Home(s, v);
      var c := FindColumn(s.workspaces[i].columns, v);
      var s1 := InWorkspace(s, i, PopColumn(s.workspaces[i], s.screen, s.env, c));
      PoppingColumnTidies(s, i, c);
      PoppingKeepsInv(s, i, c);
      SettledByInv(s1);
      ShowingTidies(s1, v, false);
    }
  }

  // ---------------------------------------------------------------------------------------
  // Moving a view to another workspace
  // ---------------------------------------------------------------------------------------

  /** From s to t only workspace j changes, by what is fullscreen in it, and views of own, which cover it. */
  ghost predicate MakesRoom(s: State, t: State, j: nat, own: set<ViewId>)
    requires j < |s.workspaces|
  {
    && |t.workspaces| == |s.workspaces| && t.env == s.env && Table(t).Keys == Table(s).Keys
    && t.workspaces == s.workspaces[j := s.workspaces[j].(fullscreen := t.workspaces[j].fullscreen)]
    && CoveredBy(t.workspaces[j], own) && Touches(Table(s), Table(t), own)
  }

  lemma HandingTouches(s: State, v: ViewId, j: nat, own: set<ViewId>)
    requires v in Table(s) && j < |s.workspaces| && CoveredBy(s.workspaces[j], own) && v in own
    ensures MakesRoom(s, HandOverFullscreen(s, v, j), j, own)
  {
    hide CoveredBy, Touches, Arrange, ExitFullscreen;
    var w := s.workspaces[j];
    TouchesItself(Table(s), own);
    if Table(s)[v].expansion == Fullscreen {
      FullscreenTouches(w, s.screen, None, own);
      FullscreenTouches(w, s.screen, Some(v), own);
      var left := if w.fullscreen.Some? then ExitFullscreen(s.screen, w.fullscreen.value) else s.screen;
      var s1 := if w.fullscreen.None? then s else InWorkspace(s, j, SetFullscreen(w, s.screen, s.env, None));
      ArrangingTouches(w.(fullscreen := None), left, s.env, true, own);
      TouchesTwice(Table(s), left.views, Arrange(w.(fullscreen := None), left, s.env, true).views, own);
      var t := HandOverFullscreen(s, v, j);
      assert t.workspaces[j] == w.(fullscreen := Some(v));
      ArrangingTouches(w.(fullscreen := Some(v)), s1.screen, s.env, true, own);
      TouchesTwice(Table(s), Table(s1), Table(t), own);
    }
  }

  lemma ReceivingTouches(s: State, v: ViewId, j: nat, floating: bool, own: set<ViewId>)
    requires v in Table(s) && j < |s.workspaces| && CoveredBy(s.workspaces[j], own) && v in own
    ensures MakesRoom(s, Received(s, v, j, floating), j, own)
  {
    hide CoveredBy, Touches, HandOverFullscreen;
    HandingTouches(s, v, j, own);
    var s1 := HandOverFullscreen(s, v, j);
    PullingTouches(s1, v, j, own);
    TouchesTwice(Table(s), Table(s1), Table(PulledOnto(s1, v, j)), own);
  }

  lemma PullingTouches(s: State, v: ViewId, j: nat, own: set<ViewId>)
    requires v in Table(s) && j < |s.workspaces| && v in own
    ensures var t := PulledOnto(s, v, j);
            Touches(Table(s), Table(t), own) && t == s.(screen := t.screen)
  {
  }

  /** Once v is gone, neither v nor the views of workspace j are tiled in workspace i. */
  lemma GoneApart(s: State, v: ViewId, i: nat, j: nat)
    requires Settled(s) && i < |s.workspaces| && j < |s.workspaces| && i != j
    ensures Apart(WithoutView(Dismissed(s.workspaces[i], v), v), Residents(s, j) + {v})
  {
    hide Placement, FullscreenOk, BonesOf, Count, FindColumn, RemoveView, Residents, Occurrences;
    var cols := s.workspaces[i].columns;
    ResidentsCount(s, i, v);
    ResidentsApart(s, j, i);
    forall u | u in Residents(s, j) + {v}
      ensures FindColumn(RemoveView(cols, v), u) == |RemoveView(cols, v)|
    {
      RemoveViewCount(cols, v, u);
      FindColumnIsMembership(cols, u);
      FindColumnIsMembership(RemoveView(cols, v), u);
    }
  }

  /** A view leaves workspace i: what is left of it is laid out. */
  lemma TakingTidies(s: State, v: ViewId, i: nat, own: set<ViewId>)
    requires v in Table(s) && i < |s.workspaces| && CoveredBy(s.workspaces[i], own) && v in own
    requires Count(s.workspaces[i].columns, v) <= 1
    ensures var (w', screen) := RemoveFromWorkspace(s.workspaces[i], s.screen, s.env, v, false);
            && w' == WithoutView(Dismissed(s.workspaces[i], v), v) && screen.views.Keys == Table(s).Keys
            && TidyIn(w', screen.views, s.env) && Touches(Table(s), screen.views, own)
  {
    hide CoveredBy, Touches, Arrange, TidyIn, RemoveView, Told, Without;
    var w := s.workspaces[i];
    var w' := WithoutView(Dismissed(w, v), v);
    var told := Table(s)[v].ChangeOutput(Dismissed(w, v).output, None);
    var before := s.screen.(views := Table(s)[v := told]);
    CoveredWithoutView(w, v, own);
    TouchesOne(Table(s), v, told, own);
    ArrangingTouches(w', before, s.env, true, own);
    ArrangingTidies(w', before, s.env, true);
    TouchesTwice(Table(s), before.views, Arrange(w', before, s.env, true).views, own);
  }

  lemma GivingTidies(s: State, v: ViewId, j: nat, floating: bool, own: set<ViewId>)
    requires v in Table(s) && j < |s.workspaces| && CoveredBy(s.workspaces[j], own) && v in own
    ensures var (w', screen) := AddView(s.workspaces[j], s.screen, s.env, v, None, floating, false);
            && w'.output == s.workspaces[j].output
            && TidyIn(w', screen.views, s.env) && Touches(Table(s), screen.views, own)
  {
    hide CoveredBy, Touches, Arrange, TidyIn, AddColumn, Told, FloatingAfter;
    var w := s.workspaces[j];
    var w' := WithView(w, v, None, floating);
    var told := Table(s)[v].(workspaceId := w.index).ChangeOutput(None, w.output);
    var before := s.screen.(views := Table(s)[v := told]);
    CoveredWithView(w, v, None, floating, own);
    TouchesOne(Table(s), v, told, own);
    ArrangingTouches(w', before, s.env, true, own);
    ArrangingTidies(w', before, s.env, true);
    TouchesTwice(Table(s), before.views, Arrange(w', before, s.env, true).views, own);
  }

  lemma TransplantingTidies(s: State, v: ViewId, j: nat)
    requires Tidy(s) && Settled(s) && Located(s, v) && Table(s)[v].mapped && j < |s.workspaces| && Home(s, v) != j
    ensures Tidy(Transplanted(s, v, j))
  {
    hide Placement, FullscreenOk, BonesOf, CoveredBy, Touches, TidyIn, Apart, Received, RemoveFromWorkspace, AddView,
      RemoveView;
    var i := Home(s, v);
    var own, ownJ, all := Residents(s, i), Residents(s, j) + {v}, Residents(s, i) + Residents(s, j);
    var floating := v in s.workspaces[i].floating;
    ResidentsCover(s, i);
    ResidentsCover(s, j);
    ResidentsCount(s, i, v);
    CoveredMore(s.workspaces[j], Residents(s, j), ownJ);
    ReceivingTouches(s, v, j, floating, ownJ);
    var s2 := Received(s, v, j, floating);
    TakingTidies(s2, v, i, own);
    var r3 := RemoveFromWorkspace(s2.workspaces[i], s2.screen, s2.env, v, false);
    var s3 := InWorkspace(s2, i, r3);
    GivingTidies(s3, v, j, floating, ownJ);
    var t := Transplanted(s, v, j);
    GoneApart(s, v, i, j);
    ApartStaysTidyIn(r3.0, r3.0, Table(s3), Table(t), s.env, ownJ);
    TouchesMore(Table(s), Table(s2), ownJ, all);
    TouchesMore(Table(s2), Table(s3), own, all);
    TouchesMore(Table(s3), Table(t), ownJ, all);
    TouchesTwice(Table(s), Table(s2), Table(s3), all);
    TouchesTwice(Table(s), Table(s3), Table(t), all);
    forall k | 0 <= k < |t.workspaces|
      ensures TidyIn(t.workspaces[k], Table(t), t.env)
    {
      if k != i && k != j {
        BothApart(s, i, j, k);
        ApartStaysTidyIn(s.workspaces[k], t.workspaces[k], Table(s), Table(t), s.env, all);
      }
    }
  }

  lemma BothApart(s: State, i: nat, j: nat, k: nat)
    requires Placement(BonesOf(s)) && k < |s.workspaces| && k != i && k != j
    ensures Apart(s.workspaces[k], Residents(s, i) + Residents(s, j))
  {
    hide Placement, BonesOf, FindColumn, Residents;
    ResidentsApart(s, i, k);
    ResidentsApart(s, j, k);
  }

  lemma ChangingWorkspaceTidies(s: State, v: ViewId, j: nat)
    requires Inv(s) && Tidy(s) && IsMappedView(s, v) && j < |s.workspaces|
    ensures Tidy(ChangeWorkspace(s, v, j))
  {
    hide BonesOk, BonesOf, StackOk, Tidy, Settled, Transplanted, FocusView;
    if Home(s, v) != j {
      SettledByInv(s);
      TransplantingTidies(s, v, j);
      TransplantKeepsInv(s, v, j);
      var s1 := Transplanted(s, v, j);
      SettledByInv(s1);
      FocusingTidies(s1, FirstOf(s1.seat.focusStack, Table(s1), s1.workspaces[Home(s, v)].index, Some(v)), false);
    }
  }

  lemma MoveToCommandTidies(s: State, n: nat)
    requires Inv(s) && Tidy(s)
    ensures Tidy(MoveToCommand(s, n))
  {
    hide BonesOk, BonesOf, StackOk, Tidy, Settled, ChangeWorkspace, ArrangeIn;
    var focused := FocusedView(s);
    if n < |s.workspaces| && focused.Some? {
      FocusedIsLocated(s);
      ChangingWorkspaceTidies(s, focused.value, n);
      ChangingWorkspaceKeeps(s, focused.value, n);
      ArrangingAtTidies(ChangeWorkspace(s, focused.value, n), n);
    }
  }

  lemma ArrangingAtTidies(s: State, n: nat)
    requires Inv(s) && Tidy(s)
    ensures Tidy(ArrangeAt(s, n))
  {
    hide BonesOk, BonesOf, StackOk, Tidy, Settled, ArrangeIn;
    SettledByInv(s);
    if n < |s.workspaces| {
      ArrangingInTidies(s, n);
    }
  }

  lemma MovedView(v: View, x: int, y: int)
    ensures SameTile(v, v.Move(x, y)) && CoreOf(v.Move(x, y)) == CoreOf(v)
  {
  }

  lemma FloatingToTidies(s: State, v: ViewId, x: int, y: int, under: Option<OutputId>)
    requires Inv(s) && Tidy(s) && IsMappedView(s, v)
    ensures Tidy(FloatTo(s, v, x, y, under))
  {
    hide BonesOk, BonesOf, StackOk, Tidy, Settled, ChangeWorkspace, SameTile, CoreOf;
    var s1 := WithTable(s, Table(s)[v := Table(s)[v].Move(x, y)]);
    MovedView(Table(s)[v], x, y);
    forall u | u in Table(s)
      ensures SameTile(Table(s)[u], Table(s1)[u])
    {
      SameTileItself(Table(s)[u]);
    }
    UntouchedTidies(s, s1);
    PuttingKeeps(s, v, Table(s)[v].Move(x, y));
    var j := WorkspaceOn(s1.workspaces, under);
    if j < |s1.workspaces| {
      ChangingWorkspaceTidies(s1, v, j);
    }
  }

  lemma MovingTidies(s: State, dx: int, dy: int, under: Option<OutputId>)
    requires Inv(s) && Tidy(s)
    ensures Tidy(MoveFocused(s, dx, dy, under))
  {
    hide BonesOk, BonesOf, StackOk, Tidy, Settled, MoveTiled, FloatTo, FindColumn;
    var focused := FocusedView(s);
    if focused.Some? {
      FocusedIsLocated(s);
      var v := focused.value;
      var i := Home(s, v);
      if FindColumn(s.workspaces[i].columns, v) < |s.workspaces[i].columns| {
        MovingTiledTidies(s, v, i, dx, dy);
      } else {
        FloatingToTidies(s, v, Table(s)[v].x + dx, Table(s)[v].y + dy, under);
      }
    }
  }

  lemma RepositioningTidies(s: State, v: ViewId, x: int, y: int, animate: bool, under: Option<OutputId>)
    requires Inv(s) && Tidy(s) && IsMappedView(s, v)
    ensures Tidy(Reposition(s, v, x, y, animate, under))
  {
    hide BonesOk, BonesOf, StackOk, Tidy, Settled, ScrollTo, FloatTo, FindColumn;
    SettledByInv(s);
    var i := Home(s, v);
    if FindColumn(s.workspaces[i].columns, v) < |s.workspaces[i].columns| {
      ScrollingTidies(s, i, s.workspaces[i].scrollX + (Table(s)[v].x - x), animate);
    } else {
      FloatingToTidies(s, v, x, y, under);
    }
  }

  // ---------------------------------------------------------------------------------------
  // Focus, layers and the pointer
  // ---------------------------------------------------------------------------------------

  lemma CyclingTidies(s: State)
    requires Inv(s) && Tidy(s)
    ensures Tidy(FocusCycle(s))
  {
    hide BonesOk, BonesOf, StackOk, Tidy, Settled, FocusView, FocusedWorkspace;
    SettledByInv(s);
    if FocusedWorkspace(s).Some? && s.seat.focusStack != [] {
      var next := FirstOf(s.seat.focusStack[1..], Table(s), s.workspaces[FocusedWorkspace(s).value].index, None);
      FocusingTidies(s, next, false);
      var s1 := FocusView(s, next, false);
      if |s1.seat.focusStack| >= 2 {
        SeatAside(s1, s1.(seat := s1.seat.(focusStack := SecondToBack(s1.seat.focusStack))));
      }
    }
  }

  lemma SettingExclusiveClientTidies(s: State, client: Option<nat>)
    requires Inv(s) && Tidy(s)
    ensures Tidy(SetExclusiveClient(s, client))
  {
    hide BonesOk, BonesOf, StackOk, Tidy, Settled, FocusView, FocusLayer;
    SettledByInv(s);
    if client.Some? {
      FocusingLayerTidies(s, None);
      var s1 := ReleasedLayer(s, client.value);
      FocusingTidies(s1, None, false);
      SeatAside(ReleasedView(s1, client.value), SetExclusiveClient(s, client));
    } else {
      SeatAside(s, SetExclusiveClient(s, client));
    }
  }

  lemma UnmappingLayerTidies(s: State, layer: LayerId)
    requires Inv(s) && Tidy(s) && layer in s.layers
    ensures Tidy(UnmapLayer(s, layer))
  {
    hide BonesOk, BonesOf, StackOk, Tidy, Settled, FocusLayer, Touches, Placement, FullscreenOk;
    SettledByInv(s);
    FocusingLayerTidies(s, None);
    var s1 := if s.seat.focusedLayer == Some(layer) then FocusLayer(s, None) else s;
    TouchesItself(Table(s1), {});
    UntouchedTidies(s1, UnmapLayer(s, layer));
  }

  lemma {:induction false} HaltingTouches(s: Screen, ids: seq<ViewId>)
    ensures Touches(s.views, Halted(s, ids).views, {})
  {
    hide Touches, Cancelled;
    if ids == [] {
      TouchesItself(s.views, {});
    } else {
      var front := Halted(s, ids[..|ids| - 1]);
      HaltingTouches(s, ids[..|ids| - 1]);
      TouchesLike(front.views, ids[|ids| - 1], Halted(s, ids).views);
      TouchesTwice(s.views, front.views, Halted(s, ids).views, {});
    }
  }

  /** At most one view has changed, and it is the same tile still. */
  lemma TouchesLike(a: ViewTable, v: ViewId, b: ViewTable)
    requires b == a || (v in a && v in b && b == a[v := b[v]] && SameTile(a[v], b[v]))
    ensures Touches(a, b, {})
  {
  }

  lemma TakingHoldTidies(s: State, v: ViewId)
    requires Tidy(s) && Located(s, v)
    ensures Tidy(TakeHold(s, v))
  {
    hide Touches, Tidy, Halted;
    HaltingTouches(s.screen, HaltedBy(s, v));
    UntouchedTidies(s, TakeHold(s, v));
  }

  lemma SwipingTidies(s: State, i: nat, scroll: int, ended: bool, view: Option<ViewId>)
    requires Inv(s) && Tidy(s) && i < |s.workspaces|
    ensures Tidy(SwipeFrame(s, i, scroll, ended, view))
  {
    hide BonesOk, BonesOf, StackOk, Tidy, Settled, FocusView, ScrollTo;
    SettledByInv(s);
    ScrollingTidies(s, i, scroll, false);
    ScrollingKeeps(s, i, scroll, false);
    SettledByInv(ScrollTo(s, i, scroll, false));
    FocusingTidies(ScrollTo(s, i, scroll, false), view, false);
  }

  // ---------------------------------------------------------------------------------------
  // Outputs
  // ---------------------------------------------------------------------------------------

  lemma ToldIsSameTile(v: View, before: Option<OutputId>, after: Option<OutputId>)
    ensures SameTile(v, v.ChangeOutput(before, after))
  {
  }

  lemma {:induction false} NotifyingTouches(views: ViewTable, ids: seq<ViewId>, before: Option<OutputId>,
                                            after: Option<OutputId>)
    ensures Touches(views, Notified(views, ids, before, after), {})
  {
    hide Touches, SameTile, View.ChangeOutput;
    if ids == [] {
      TouchesItself(views, {});
    } else {
      var front := Notified(views, ids[..|ids| - 1], before, after);
      var v := ids[|ids| - 1];
      NotifyingTouches(views, ids[..|ids| - 1], before, after);
      if v in front {
        ToldIsSameTile(front[v], before, after);
      }
      TouchesLike(front, v, Notified(views, ids, before, after));
      TouchesTwice(views, front, Notified(views, ids, before, after), {});
    }
  }

  lemma DeactivatingTidies(s: State, p: nat)
    requires Tidy(s) && p < |s.workspaces|
    ensures Tidy(InWorkspace(s, p, Deactivate(s.workspaces[p], s.screen)))
  {
    hide Touches, Tidy, Notified, AllViews;
    TouchesItself(Table(s), {});
    NotifyingTouches(Table(s), AllViews(s.workspaces[p]), s.workspaces[p].output, None);
    UntouchedTidies(s, InWorkspace(s, p, Deactivate(s.workspaces[p], s.screen)));
  }

  lemma DestroyingOutputTidies(s: State, o: OutputId)
    requires Tidy(s)
    ensures Tidy(DestroyOutput(s, o))
  {
    hide Touches, Tidy, Deactivate;
    var i := WorkspaceOn(s.workspaces, Some(o));
    var s1 := if i == |s.workspaces| then s else InWorkspace(s, i, Deactivate(s.workspaces[i], s.screen));
    if i < |s.workspaces| {
      DeactivatingTidies(s, i);
    }
    TouchesItself(Table(s1), {});
    UntouchedTidies(s1, DestroyOutput(s, o));
  }

  // ---------------------------------------------------------------------------------------
  // Outputs that come or change
  // ---------------------------------------------------------------------------------------

  lemma SettledElsewhere(s: State, t: State)
    requires Settled(s) && BonesOf(t).ws == BonesOf(s).ws && BonesOf(t).cores == BonesOf(s).cores
    ensures Settled(t)
  {
    PlacementElsewhere(BonesOf(s), BonesOf(t));
    FullscreenElsewhere(BonesOf(s), BonesOf(t));
  }

  /** Nothing but the list of free workspaces and outputs differs. */
  lemma FreeWorkspaceTidies(s: State, o: OutputId, info: OutputInfo)
    requires Tidy(s) && Assigned(BonesOf(s)) && o !in s.env.outputs
    ensures TidyBut(WithFreeWorkspace(s, o, info), WorkspaceOn(s.workspaces, None))
  {
    hide TidyOn, Assigned, WorkspaceOn;
    var t := WithFreeWorkspace(s, o, info);
    forall j | 0 <= j < |t.workspaces| && j != WorkspaceOn(s.workspaces, None)
      ensures TidyIn(t.workspaces[j], Table(t), t.env)
    {
      OutputExists(s, j);
      assert TidyIn(s.workspaces[j], Table(s), s.env);
    }
  }

  lemma OutputExists(s: State, j: nat)
    requires Assigned(BonesOf(s)) && j < |s.workspaces|
    ensures s.workspaces[j].output.Some? ==> s.workspaces[j].output.value in s.env.outputs
  {
    OutputAt(s, j);
  }

  /** The first free workspace is put on a new output without a layout: the desktop stays tidy exactly when its tiles
      happen to aim right there already, as those of a new workspace do. */
  lemma AddingOutputTidiesExactlyWhen(s: State, o: OutputId, info: OutputInfo)
    requires Inv(s) && Tidy(s) && o !in s.env.outputs
    ensures var i := WorkspaceOn(s.workspaces, None);
            Tidy(AddOutput(s, o, info)) <==>
              (i < |s.workspaces| ==> TidyOn(s.workspaces[i], Table(s), info, s.env.gap))
  {
    hide BonesOk, BonesOf, StackOk, TidyOn, Touches, Notified, AllViews, WorkspaceOn;
    var i := WorkspaceOn(s.workspaces, None);
    var s1 := WithFreeWorkspace(s, o, info);
    BonesAreAssigned(s);
    FreeWorkspaceTidies(s, o, info);
    FreeWorkspaceBones(s, o, info);
    var t := AddOutput(s, o, info);
    var w := s1.workspaces[i];
    NotifyingTouches(Table(s1), AllViews(w), w.output, Some(o));
    RestTidies(s1, t, i);
    TouchesBack(Table(s1), Table(t), {});
    if i < |s.workspaces| {
      if TidyOn(w, Table(s1), info, s.env.gap) {
        ApartStaysTidy(w, t.workspaces[i], Table(s1), Table(t), info, s.env.gap, {});
      }
      if TidyOn(t.workspaces[i], Table(t), info, s.env.gap) {
        ApartStaysTidy(t.workspaces[i], w, Table(t), Table(s1), info, s.env.gap, {});
      }
    } else {
      NoTilesAreTidy(t.workspaces[i], Table(t), info, s.env.gap);
    }
    assert TidyIn(t.workspaces[i], Table(t), t.env) <==> TidyOn(t.workspaces[i], Table(t), info, s.env.gap);
  }

  lemma BonesAreAssigned(s: State)
    requires BonesOk(BonesOf(s))
    ensures Assigned(BonesOf(s))
  {
    hide Placement, FullscreenOk, Balanced, Assigned, BonesOf;
  }

  lemma NoTilesAreTidy(w: WorkspaceState, views: ViewTable, info: OutputInfo, gap: int)
    requires w.columns == []
    ensures TidyOn(w, views, info, gap)
  {
  }

  /** The workspaces on output o, but perhaps workspace i, are laid out right for what the output is going to be. */
  ghost predicate FitInto(s: State, o: OutputId, info: OutputInfo, i: int)
  {
    forall j | 0 <= j < |s.workspaces| && j != i && s.workspaces[j].output == Some(o) ::
      TidyOn(s.workspaces[j], Table(s), info, s.env.gap)
  }

  /** The desktop knows of another area or mode of an output, but has done nothing about it. */
  lemma UnsettledTidies(s: State, o: OutputId, info: OutputInfo, i: int)
    requires Inv(s) && Tidy(s) && o in s.env.outputs
    ensures TidyBut(Unsettled(s, o, info), i) <==> FitInto(s, o, info, i)
    ensures Settled(Unsettled(s, o, info)) && WorkspaceOn(s.workspaces, Some(o)) < |s.workspaces|
  {
    hide BonesOk, StackOk, TidyOn, WorkspaceOn, Placement, FullscreenOk;
    var s1 := Unsettled(s, o, info);
    SettledByInv(s);
    BonesAreAssigned(s);
    OutputHasWorkspace(s, o);
    assert BonesOf(s1).ws == BonesOf(s).ws;
    SettledElsewhere(s, s1);
    forall j | 0 <= j < |s.workspaces|
      ensures TidyIn(s1.workspaces[j], Table(s1), s1.env) <==>
              (s.workspaces[j].output == Some(o) ==> TidyOn(s.workspaces[j], Table(s), info, s.env.gap))
    {
      assert TidyIn(s.workspaces[j], Table(s), s.env);
    }
  }

  /** The workspace that a change of the usable area of its output lays out, if any. */
  ghost function LaidOutThen(s: State, o: OutputId, info: OutputInfo): int
    requires o in s.env.outputs
  {
    var i := WorkspaceOn(s.workspaces, Some(o));
    if info.usable == s.env.outputs[o].usable || (i < |s.workspaces| && FocusedOutOfLayout(s, i)) then -1 else i
  }

  /** Only the first workspace on an output learns of its new area, and not even that one while the focused view lives
      there without taking part in its layout: the desktop stays tidy exactly when the others fit already. */
  lemma ChangingUsableAreaTidiesExactlyWhen(s: State, o: OutputId, info: OutputInfo)
    requires Inv(s) && Tidy(s) && o in s.env.outputs
    ensures Tidy(ChangeUsableArea(s, o, info)) <==> FitInto(s, o, info, LaidOutThen(s, o, info))
  {
    hide BonesOk, BonesOf, StackOk, Tidy, TidyBut, Settled, WorkspaceOn, FitView, Arrange, FindColumn, FitInto;
    var i := WorkspaceOn(s.workspaces, Some(o));
    var s1 := Unsettled(s, o, info);
    UnsettledTidies(s, o, info, LaidOutThen(s, o, info));
    IndexMeansPlace(s, i);
    if LaidOutThen(s, o, info) == -1 {
      TidyIsTidyBut(s1);
      if info.usable != s.env.outputs[o].usable {
        NewAreaIsUsedExactlyWhen(s, o, info, i);
      }
    } else {
      ArrangingMends(s1, i, true);
      var focused := FocusedView(s1);
      if focused.Some? && focused.value in Table(s) && Table(s)[focused.value].workspaceId == i {
        FittingMends(s1, i, focused.value, false);
      }
    }
  }

  lemma TidyIsTidyBut(s: State)
    ensures Tidy(s) <==> TidyBut(s, -1)
  {
  }

  /** Another mode has the first workspace on the output laid out in any case. */
  lemma ResizingTidiesExactlyWhen(s: State, o: OutputId, info: OutputInfo)
    requires Inv(s) && Tidy(s) && o in s.env.outputs
    ensures Tidy(ResizeOutput(s, o, info)) <==> FitInto(s, o, info, WorkspaceOn(s.workspaces, Some(o)))
  {
    hide BonesOk, BonesOf, StackOk, Tidy, TidyBut, Settled, ChangeUsableArea, WorkspaceOn, Arrange, FitInto;
    var i := WorkspaceOn(s.workspaces, Some(o));
    UnsettledTidies(s, o, info, i);
    ChangingUsableAreaKeeps(s, o, info);
    var t := ChangeUsableArea(s, o, info);
    SettledByInv(t);
    SameOutputsAfter(s, o, info, i);
    SameFirst(s.workspaces, t.workspaces, Some(o));
    ChangedAreaKeepsRest(s, o, info, i);
    ArrangingMends(t, i, true);
  }

  lemma {:induction false} SameFirst(ws: seq<WorkspaceState>, ws': seq<WorkspaceState>, output: Option<OutputId>)
    requires |ws| == |ws'| && forall j | 0 <= j < |ws| :: ws'[j].output == ws[j].output
    ensures WorkspaceOn(ws, output) == WorkspaceOn(ws', output)
  {
    if ws == [] {
    } else {
      SameFirst(ws[1..], ws'[1..], output);
    }
  }

  /** What a new usable area changes is in the first workspace on the output. */
  lemma ChangedAreaKeepsRest(s: State, o: OutputId, info: OutputInfo, i: nat)
    requires Inv(s) && Tidy(s) && o in s.env.outputs && i == WorkspaceOn(s.workspaces, Some(o)) < |s.workspaces|
    ensures TidyBut(ChangeUsableArea(s, o, info), i) <==> TidyBut(Unsettled(s, o, info), i)
  {
    hide BonesOk, BonesOf, StackOk, Tidy, TidyBut, Settled, WorkspaceOn, Arrange, FindColumn, ChangeUsableArea;
    var s1, t := Unsettled(s, o, info), ChangeUsableArea(s, o, info);
    UnsettledTidies(s, o, info, i);
    ChangedAreaIs(s, o, info, i);
    if t != s1 {
      var w := t.workspaces[i];
      LaidOutStep(s1, w, i);
      if TidyBut(s1, i) {
        OthersStayTidy(s1, t, i, Residents(s1, i));
      }
      if TidyBut(t, i) {
        OthersWereTidy(s1, t, i, Residents(s1, i));
      }
    }
  }

  lemma ChangedAreaIs(s: State, o: OutputId, info: OutputInfo, i: nat)
    requires Inv(s) && o in s.env.outputs && i == WorkspaceOn(s.workspaces, Some(o)) < |s.workspaces|
    ensures var s1, t := Unsettled(s, o, info), ChangeUsableArea(s, o, info);
            t == s1 ||
            (|t.workspaces| == |s.workspaces| &&
             var w := t.workspaces[i];
             w == s1.workspaces[i].(scrollX := w.scrollX)
             && t == InWorkspace(s1, i, (w, Arrange(w, s1.screen, s1.env, true))))
  {
    hide BonesOk, BonesOf, StackOk, WorkspaceOn, Arrange, FindColumn, FitScroll;
    var w := s.workspaces[i];
    assert w.(scrollX := w.scrollX) == w;
    assert s.workspaces[i := w] == s.workspaces;
  }

  lemma LaidOutStep(s: State, w: WorkspaceState, i: nat)
    requires Settled(s) && i < |s.workspaces| && w == s.workspaces[i].(scrollX := w.scrollX)
    ensures StepIn(s, InWorkspace(s, i, (w, Arrange(w, s.screen, s.env, true))), i, Residents(s, i))
  {
    hide Placement, FullscreenOk, BonesOf, CoveredBy, Touches, Apart, Residents, Arrange;
    ResidentsCover(s, i);
    OthersApart(s, i);
    ScrolledIsCovered(s.workspaces[i], w.scrollX, Residents(s, i));
    ArrangingTouches(w, s.screen, s.env, true, Residents(s, i));
  }

  /** What keeps a desktop tidy in practice: arranging the layers changes nothing but the usable area, one workspace is
      on the output alone, and a focused view there takes part in its layout. */
  lemma AloneOnItsOutput(s: State, o: OutputId, info: OutputInfo)
    requires Inv(s) && Tidy(s) && o in s.env.outputs
    ensures NotShared(s.workspaces, o) ==> FitInto(s, o, info, WorkspaceOn(s.workspaces, Some(o)))
    ensures info == s.env.outputs[o] ==> FitInto(s, o, info, -1)
  {
    hide BonesOk, BonesOf, StackOk, TidyOn, WorkspaceOn;
    forall j | 0 <= j < |s.workspaces| && s.workspaces[j].output == Some(o)
      ensures TidyOn(s.workspaces[j], Table(s), s.env.outputs[o], s.env.gap)
    {
      assert TidyIn(s.workspaces[j], Table(s), s.env);
    }
  }

  // ---------------------------------------------------------------------------------------
  // Switching workspaces
  // ---------------------------------------------------------------------------------------

  lemma EnteringTidies(s: State, n: nat, p: nat)
    requires Tidy(s) && Settled(s) && n < |s.workspaces| && p < |s.workspaces| && s.workspaces[p].output.Some?
    ensures Tidy(Entered(s, n, p)) && Settled(Entered(s, n, p))
  {
    hide TidyIn, Placement, FullscreenOk, BonesOf, Touches, Notified, AllViews, Arrange;
    var w := s.workspaces[n];
    var o := s.workspaces[p].output.value;
    var s1 := InWorkspace(s, n, Activate(w, s.screen, o));
    NotifyingTouches(Table(s), AllViews(w), w.output, Some(o));
    assert TidyBut(s, n);
    RestTidies(s, s1, n);
    ActivatedIsSettled(s, n, o);
    ArrangingMends(s1, n, false);
    LaidOutBones(s1, n);
  }

  lemma ActivatedIsSettled(s: State, n: nat, o: OutputId)
    requires Settled(s) && n < |s.workspaces|
    ensures Settled(InWorkspace(s, n, Activate(s.workspaces[n], s.screen, o)))
  {
    hide Placement, FullscreenOk, BonesOf, Activate, ToldCores;
    ActivateBones(s, n, o);
    BonesApart(s);
    SwitchedIsSettled(BonesOf(s), n, Some(o));
  }

  lemma SwitchedIsSettled(b: Bones, n: nat, o: Option<OutputId>)
    requires Placement(b) && FullscreenOk(b) && n < |b.ws|
    ensures Placement(Switched(b, n, o)) && FullscreenOk(Switched(b, n, o))
  {
    PlacementElsewhere(b, Switched(b, n, o));
    FullscreenElsewhere(b, Switched(b, n, o));
  }

  lemma {:induction false} PuttingOffTouches(views: ViewTable, ids: seq<ViewId>, dy: int)
    ensures Touches(views, PutOff(views, ids, dy), {})
  {
    hide Touches, SameTile, View.Move;
    if ids == [] {
      TouchesItself(views, {});
    } else {
      var front := PutOff(views, ids[..|ids| - 1], dy);
      var v := ids[|ids| - 1];
      PuttingOffTouches(views, ids[..|ids| - 1], dy);
      if v in front {
        MovedView(front[v], front[v].x, front[v].y + dy);
      }
      TouchesLike(front, v, PutOff(views, ids, dy));
      TouchesTwice(views, front, PutOff(views, ids, dy), {});
    }
  }

  lemma TakingOverTidies(s: State, n: nat, p: nat)
    requires Tidy(s) && Settled(s) && n < |s.workspaces| && p < |s.workspaces| && s.workspaces[p].output.Some?
    ensures Tidy(TakeOver(s, n, p))
  {
    hide Tidy, Settled, Touches, Entered, Deactivate, SlideTasks, Sliding, PutOff;
    EnteringTidies(s, n, p);
    var s2 := Entered(s, n, p);
    EnteredKeepsCount(s, n, p);
    var s3 := SlidingIn(s, n, p);
    PuttingOffTouches(Table(s2), Sliding(s2, n, p), SlideBy(s, n, p));
    UntouchedTidies(s2, s3);
    TakeOverIs(s, n, p);
    TouchesItself(Table(s3), {});
    if Sliding(s3, p, p) == [] {
      DeactivatingTidies(s3, p);
    } else {
      UntouchedTidies(s3, TakeOver(s, n, p));
    }
  }

  lemma EnteredKeepsCount(s: State, n: nat, p: nat)
    requires n < |s.workspaces| && p < |s.workspaces| && s.workspaces[p].output.Some?
    ensures |Entered(s, n, p).workspaces| == |s.workspaces|
  {
  }

  lemma FocusingThereTidies(s: State, n: nat, o: OutputId)
    requires Tidy(s) && Settled(s) && n < |s.workspaces|
    ensures Tidy(FocusThere(s, n, o))
  {
    hide Tidy, Settled, FocusView;
    var s1 := s.(seat := s.seat.(cursor := {o}));
    SeatAside(s, s1);
    FocusingTidies(s1, FirstOf(s1.seat.focusStack, Table(s1), s1.workspaces[n].index, None), false);
  }

  /** A workspace that comes in is laid out on its new output before it slides in. */
  lemma SwitchingTidies(s: State, n: nat)
    requires Inv(s) && Tidy(s) && CanSwitch(s, n)
    ensures Tidy(SwitchTo(s, n))
  {
    hide BonesOk, BonesOf, StackOk, Tidy, Settled, TakeOver, FocusThere, FocusedWorkspace, Sliding, Entered, Leaving;
    SettledByInv(s);
    var current := FocusedWorkspace(s);
    if current != Some(n) {
      if s.workspaces[n].output.Some? {
        FocusingThereTidies(s, n, s.workspaces[n].output.value);
      } else {
        var t := TakeOver(s, n, current.value);
        TakingOverTidies(s, n, current.value);
        TakingOverKeeps(s, n, current.value);
        SettledByInv(t);
        FocusingThereTidies(t, n, t.workspaces[n].output.value);
      }
    }
  }

  lemma SwitchCommandTidies(s: State, n: nat)
    requires Inv(s) && Tidy(s) && (n < |s.workspaces| ==> CanSwitch(s, n))
    ensures Tidy(SwitchCommand(s, n))
  {
    hide Inv, Tidy, SwitchTo, ArrangeAt, CanSwitch;
    if n < |s.workspaces| {
      SwitchingTidies(s, n);
      SwitchingToKeeps(s, n);
      ArrangingAtTidies(SwitchTo(s, n), n);
    }
  }

  // ---------------------------------------------------------------------------------------
  // The timer
  // ---------------------------------------------------------------------------------------

  lemma AnimatedIsSameTile(v: View, t: Task, now: Time, duration: int)
    requires duration > 0
    ensures SameTile(v, Animated(v, t, now, duration))
  {
    hide Interpolated;
  }

  lemma TakingFrontTidies(s: State, duration: int)
    requires Tidy(s) && Settled(s) && duration > 0 && s.screen.tasks != []
    ensures Tidy(FrontTaken(s, duration)) && Settled(FrontTaken(s, duration))
  {
    hide Tidy, Touches, SameTile, Animated, Placement, FullscreenOk, Pending, BonesOf;
    var front := s.screen.tasks[0];
    var t := FrontTaken(s, duration);
    if front.view in Table(s) {
      AnimatedIsSameTile(Table(s)[front.view], front, s.env.now, duration);
    }
    TouchesLike(Table(s), front.view, Table(t));
    UntouchedTidies(s, t);
    FrontRunLosesJust(s, duration);
    LosingBones(s, t, FrontWish(s, duration));
    SettledElsewhere(s, t);
  }

  lemma TakingTaskTidies(s: State, duration: int)
    requires Tidy(s) && Settled(s) && duration > 0 && s.screen.tasks != []
    ensures Tidy(TakeTask(s, duration))
  {
    hide Tidy, Settled, FrontTaken, FrontWish, FocusThere, Deactivate;
    TakingFrontTidies(s, duration);
    var t := FrontTaken(s, duration);
    match FrontWish(s, duration)
    case Silent =>
    case ArrivalOf(n, o) =>
      if n < |t.workspaces| {
        FocusingThereTidies(t, n, o);
      }
    case DepartureOf(p) =>
      if p < |t.workspaces| {
        DeactivatingTidies(t, p);
      }
  }

  lemma {:induction false} TakingTasksTidies(s: State, duration: int, count: nat)
    requires Inv(s) && Tidy(s) && duration > 0
    ensures Tidy(TakeTasks(s, duration, count))
    decreases count
  {
    hide BonesOk, BonesOf, StackOk, Tidy, Settled, TakeTask;
    if count == 0 || s.screen.tasks == [] {
    } else {
      SettledByInv(s);
      TakingTaskTidies(s, duration);
      TakingTaskKeeps(s, duration);
      TakingTasksTidies(TakeTask(s, duration), duration, count - 1);
    }
  }

  lemma TimeTidies(s: State, now: Time)
    requires Tidy(s)
    ensures Tidy(s.(env := s.env.(now := now)))
  {
    hide Tidy, Touches;
    TouchesItself(Table(s), {});
    UntouchedTidies(s, s.(env := s.env.(now := now)));
  }

  lemma TickingTidies(s: State, now: Time, duration: int)
    requires Inv(s) && Tidy(s) && duration > 0
    ensures Tidy(TickTo(s, now, duration))
  {
    hide Inv, Tidy, TakeTasks;
    TimeTidies(s, now);
    TimePassingKeeps(s, now);
    TakingTasksTidies(s.(env := s.env.(now := now)), duration, |s.screen.tasks|);
  }

  // ---------------------------------------------------------------------------------------
  // Runs
  // ---------------------------------------------------------------------------------------

  /** When an event leaves the desktop tidy. Only what is done to outputs needs a condition. */
  ghost predicate LeavesTidy(s: State, e: Runs.Event)
    requires Runs.Enabled(s, e)
  {
    match e
    case OutputAdded(_, info) =>
      var i := WorkspaceOn(s.workspaces, None);
      i < |s.workspaces| ==> TidyOn(s.workspaces[i], Table(s), info, s.env.gap)
    case UsableAreaChanged(o, info) => FitInto(s, o, info, LaidOutThen(s, o, info))
    case OutputResized(o, info) => FitInto(s, o, info, WorkspaceOn(s.workspaces, Some(o)))
    case _ => true
  }

  lemma FocusEventTidies(s: State, e: Runs.Event)
    requires Inv(s) && Tidy(s) && Runs.Enabled(s, e) && Runs.IsAboutFocus(e)
    ensures Tidy(Runs.Next(s, e))
  {
    hide BonesOk, BonesOf, StackOk, Tidy, Settled, CreateView, DestroyView, MapView, UnmapView, Commit, Reposition,
      RequestFullscreen, ChangeWorkspace, ToggleFloating, MoveFocused, InsertFocused, PopFocused, FocusCycle, FocusView,
      SetExclusiveClient, UnmapLayer, FocusLayer, ScrollTo, AddOutput, ResizeOutput, DestroyOutput, SwitchTo, TickTo,
      CanInsert, CanSwitch, CanDestroy, CarriesNoDeparture, SwipeFrame, MayFocus, TakeHold, NoneCarriesDeparture,
      HaltedBy, ChangeUsableArea, SwitchCommand, MoveToCommand, CanMap, CanFullscreen, Runs.CanAdvance, Touches,
      Runs.CanFocusLayer;
    SettledByInv(s);
    TouchesItself(Table(s), {});
    match e
    case FocusCycleCommand => CyclingTidies(s);
    case FocusCommand(view) => FocusingTidies(s, view, false);
    case FocusColumnCommand(i, c) =>
      FocusingTidies(s, FirstTiled(s.seat.focusStack, s.workspaces[i].columns[c], Table(s)), false);
    case ExclusiveClientSet(client) => SettingExclusiveClientTidies(s, client);
    case LayerMapped(layer, info) => UntouchedTidies(s, s.(layers := s.layers[layer := info]));
    case LayerUnmapped(layer) => UnmappingLayerTidies(s, layer);
    case LayerFocused(layer) => FocusingLayerTidies(s, Some(layer));
    case LayerReleased => FocusingLayerTidies(s, None);
    case CursorMoved(cursor) => SeatAside(s, s.(seat := s.seat.(cursor := cursor)));
    case TimePassed(now) => TimeTidies(s, now);
  }

  lemma OtherEventTidies(s: State, e: Runs.Event)
    requires Inv(s) && Tidy(s) && Runs.Enabled(s, e) && !Runs.IsAboutFocus(e)
    ensures Tidy(Runs.Next(s, e)) <==> LeavesTidy(s, e)
  {
    hide BonesOk, BonesOf, StackOk, Tidy, Settled, CreateView, DestroyView, MapView, UnmapView, Commit, Reposition,
      RequestFullscreen, ChangeWorkspace, ToggleFloating, MoveFocused, InsertFocused, PopFocused, FocusCycle, FocusView,
      FocusColumn, SetExclusiveClient, UnmapLayer, FocusLayer, ScrollTo, AddOutput, ResizeOutput, DestroyOutput,
      SwitchTo, TickTo, CanInsert, CanSwitch, CarriesNoDeparture, SwipeFrame, MayFocus, TakeHold, NoneCarriesDeparture,
      HaltedBy, ChangeUsableArea, SwitchCommand, MoveToCommand, FitInto, LaidOutThen, TidyOn, CanMap;
    SettledByInv(s);
    match e
    case ViewCreated(v, client, ancestors) => CreatingTidies(s, v, client, ancestors);
    case ViewDestroyed(v) => DestroyingTidies(s, v);
    case ViewMapped(v, geometry) => MappingTidies(s, v, geometry);
    case ViewUnmapped(v) => UnmappingTidies(s, v);
    case ViewCommitted(v, geometry) => CommittingTidies(s, v, geometry);
    case ViewDragged(v, x, y, animate, under) => RepositioningTidies(s, v, x, y, animate, under);
    case ViewHeld(v) => TakingHoldTidies(s, v);
    case FullscreenRequested(v, on) => RequestingTidies(s, v, on);
    case WorkspaceChanged(v, j) => ChangingWorkspaceTidies(s, v, j);
    case ToggleFloatingCommand => TogglingTidies(s);
    case MoveCommand(dx, dy, under) => MovingTidies(s, dx, dy, under);
    case InsertIntoColumnCommand => InsertingTidies(s);
    case PopFromColumnCommand => PoppingTidies(s);
    case WorkspaceScrolled(i, scroll, animate) => ScrollingTidies(s, i, scroll, animate);
    case SwipeAdvanced(i, scroll, ended, view) => SwipingTidies(s, i, scroll, ended, view);
    case OutputAdded(o, info) => AddingOutputTidiesExactlyWhen(s, o, info);
    case UsableAreaChanged(o, info) => ChangingUsableAreaTidiesExactlyWhen(s, o, info);
    case OutputResized(o, info) => ResizingTidiesExactlyWhen(s, o, info);
    case OutputDestroyed(o) => DestroyingOutputTidies(s, o);
    case WorkspaceFocused(n) => SwitchingTidies(s, n);
    case WorkspaceSwitchCommand(n) => SwitchCommandTidies(s, n);
    case WorkspaceMoveCommand(n) => MoveToCommandTidies(s, n);
    case TimerTicked(now, duration) => TickingTidies(s, now, duration);
  }

  lemma NextTidiesExactlyWhen(s: State, e: Runs.Event)
    requires Inv(s) && Tidy(s) && Runs.Enabled(s, e)
    ensures Tidy(Runs.Next(s, e)) <==> LeavesTidy(s, e)
  {
    hide Inv, Tidy, Runs.Enabled, Runs.Next;
    if Runs.IsAboutFocus(e) {
      FocusEventTidies(s, e);
    } else {
      OtherEventTidies(s, e);
    }
  }

  /** A run all of whose events leave the desktop tidy. */
  ghost predicate RunsTidily(s: State, events: seq<Runs.Event>)
    requires Runs.CanRun(s, events)
    decreases |events|
  {
    events != [] ==> LeavesTidy(s, events[0]) && RunsTidily(Runs.Next(s, events[0]), events[1..])
  }

  lemma {:induction false} RunTidies(s: State, events: seq<Runs.Event>)
    requires Inv(s) && Tidy(s) && Runs.CanRun(s, events) && RunsTidily(s, events)
    ensures Inv(Runs.Run(s, events)) && Tidy(Runs.Run(s, events))
    decreases |events|
  {
    hide Inv, Tidy, Runs.Enabled, Runs.Next, LeavesTidy;
    if events == [] {
    } else {
      Runs.NextKeeps(s, events[0]);
      NextTidiesExactlyWhen(s, events[0]);
      RunTidies(Runs.Next(s, events[0]), events[1..]);
    }
  }

  // ---------------------------------------------------------------------------------------
  // What that means
  // ---------------------------------------------------------------------------------------

  /** A normal tile of workspace i, in its place. */
  predicate TileAt(s: State, i: nat, c: int, t: int)
  {
    && i < |s.workspaces| && 0 <= c < |s.workspaces[i].columns| && 0 <= t < |s.workspaces[i].columns[c]|
    && IsNormal(Table(s), s.workspaces[i].columns[c][t].view)
  }

  function ViewAt(s: State, i: nat, c: int, t: int): View
    requires TileAt(s, i, c, t)
  {
    Table(s)[s.workspaces[i].columns[c][t].view]
  }

  /** Workspace i is on an output on which every column has room for the gaps of its tiles. */
  ghost predicate Roomy(s: State, i: nat)
  {
    && s.env.gap >= 0 && Visible(s, i)
    && forall c | 0 <= c < |s.workspaces[i].columns| ::
         RoomForGaps(s.workspaces[i].columns[c], InfoOf(s, i), s.env.gap)
  }

  /** Each tile is asked for its own width, and any two of them for boxes that do not overlap: a gap apart, and inside
      the usable height. */
  ghost predicate AimingApart(s: State, i: nat)
    requires Visible(s, i)
  {
    && (forall c, t | TileAt(s, i, c, t) :: ViewAt(s, i, c, t).targetWidth == ViewAt(s, i, c, t).geometry.width)
    && forall c, t, d, u | TileAt(s, i, c, t) && TileAt(s, i, d, u) ::
         WellPlaced(AskedBox(ViewAt(s, i, c, t)), AskedBox(ViewAt(s, i, d, u)), InfoOf(s, i), s.env.gap, c, t, d, u)
  }

  /** The box a window fills where it is, once its client has taken the size it was asked for. */
  function StandingBox(v: View): Box
  {
    Box(v.x + v.geometry.x, v.y + v.geometry.y, v.targetWidth, v.targetHeight)
  }

  /** The windows themselves stand like that. */
  ghost predicate StandingApart(s: State, i: nat)
    requires Visible(s, i)
  {
    forall c, t, d, u | TileAt(s, i, c, t) && TileAt(s, i, d, u) ::
      WellPlaced(StandingBox(ViewAt(s, i, c, t)), StandingBox(ViewAt(s, i, d, u)), InfoOf(s, i), s.env.gap, c, t, d, u)
  }

  lemma TidyTilesAimApart(s: State, i: nat)
    requires Inv(s) && Tidy(s) && Roomy(s, i)
    ensures AimingApart(s, i)
  {
    hide BonesOk, BonesOf, StackOk, TidyOn, WellPlaced, ArrangedView, RoomForGaps;
    var w, info := s.workspaces[i], InfoOf(s, i);
    SettledByInv(s);
    PlacedIsDistinct(s, i);
    LayoutSoundness(w, Table(s), info, s.env.gap, true);
    var after := ArrangedViews(w, Table(s), info, s.env.gap, true);
    assert TidyIn(w, Table(s), s.env);
    forall c, t | TileAt(s, i, c, t)
      ensures AskedBox(after[w.columns[c][t].view]) == AskedBox(ViewAt(s, i, c, t))
    {
      TidyTileAims(s, i, c, t);
    }
  }

  lemma TidyTileAims(s: State, i: nat, c: int, t: int)
    requires Inv(s) && Visible(s, i) && TidyOn(s.workspaces[i], Table(s), InfoOf(s, i), s.env.gap) && TileAt(s, i, c, t)
    ensures var v := s.workspaces[i].columns[c][t].view;
            AskedBox(ArrangedView(s.workspaces[i], Table(s), InfoOf(s, i), s.env.gap, true, v)) ==
            AskedBox(ViewAt(s, i, c, t))
  {
    hide BonesOk, BonesOf, StackOk, FindColumn, WindowBox, FindTile;
    var w := s.workspaces[i];
    HoldsView(w.columns[c], t);
  }

  lemma InitialTidy(gap: int, now: Time)
    ensures Tidy(Runs.Initial(gap, now))
  {
  }

  /** In every state that such a run reaches from the start of the compositor, the tiles of every workspace on an output
      aim apart. */
  lemma TilesAimApart(gap: int, now: Time, events: seq<Runs.Event>, i: nat)
    requires Runs.CanRun(Runs.Initial(gap, now), events) && RunsTidily(Runs.Initial(gap, now), events)
    requires Roomy(Runs.Run(Runs.Initial(gap, now), events), i)
    ensures var s := Runs.Run(Runs.Initial(gap, now), events);
            AimingApart(s, i)
  {
    hide Inv, Tidy, Runs.Run, Runs.CanRun, RunsTidily, TileAt, WellPlaced, Roomy;
    Runs.InitialInv(gap, now);
    InitialTidy(gap, now);
    RunTidies(Runs.Initial(gap, now), events);
    TidyTilesAimApart(Runs.Run(Runs.Initial(gap, now), events), i);
  }

  lemma TileIsDisplayed(s: State, i: nat, c: int, t: int)
    requires Inv(s) && Visible(s, i) && TileAt(s, i, c, t) && !Leaving(BonesOf(s), i)
    ensures Homecoming.Displayed(s, s.workspaces[i].columns[c][t].view)
  {
    hide FullscreenOk, Assigned, Balanced, Placement, StackOk, Occurrences, Leaving, FindColumn, Count;
    var w := s.workspaces[i];
    var v := w.columns[c][t].view;
    HoldsView(w.columns[c], t);
    CountMember(w.columns, c, v);
    ResidentsCount(s, i, v);
    OnOneSideOnly(w, v);
    CoreApart(s, v);
    OutputAt(s, i);
  }

  lemma OnOneSideOnly(w: WorkspaceState, v: ViewId)
    requires Occurrences(w, v) <= 1 && Count(w.columns, v) > 0
    ensures Occurrences(w, v) == 1 && v !in w.floating
  {
  }

  lemma RestingTile(s: State, i: nat, c: int, t: int)
    requires Inv(s) && Visible(s, i) && TileAt(s, i, c, t) && !Leaving(BonesOf(s), i)
    requires forall v | Homecoming.Displayed(s, v) :: v in Table(s) && Warped(Table(s)[v]) == Table(s)[v]
    ensures StandingBox(ViewAt(s, i, c, t)) == AskedBox(ViewAt(s, i, c, t))
  {
    hide Inv, Homecoming.Displayed, Leaving;
    TileIsDisplayed(s, i, c, t);
  }

  /** When a tick has ended all animations, the windows on the screen themselves stand apart like that. */
  lemma TilesStandApart(gap: int, now: Time, events: seq<Runs.Event>, later: Time, duration: int, i: nat)
    requires Runs.CanRun(Runs.Initial(gap, now), events)
    requires RunsTidily(Runs.Initial(gap, now), events) && Homecoming.RunsHome(Runs.Initial(gap, now), events)
    requires var s := Runs.Run(Runs.Initial(gap, now), events);
             && 0 < duration < MAX_DURATION && Homecoming.NobodyArrives(s.screen.tasks)
             && later >= s.env.now + duration * NS_PER_MS
             && Roomy(TickTo(s, later, duration), i) && !Leaving(BonesOf(TickTo(s, later, duration)), i)
    ensures var t := TickTo(Runs.Run(Runs.Initial(gap, now), events), later, duration);
            t.screen.tasks == [] && StandingApart(t, i)
  {
    hide Inv, Tidy, Runs.Run, Runs.CanRun, RunsTidily, Homecoming.RunsHome, Homecoming.HomeOk, TickTo, WellPlaced,
      Homecoming.Displayed, Homecoming.NobodyArrives, Leaving, BonesOf, RoomForGaps, TileAt;
    var s := Runs.Run(Runs.Initial(gap, now), events);
    Runs.InitialInv(gap, now);
    InitialTidy(gap, now);
    Homecoming.InitialHome(gap, now);
    RunTidies(Runs.Initial(gap, now), events);
    Homecoming.RunHome(Runs.Initial(gap, now), events);
    var t := TickTo(s, later, duration);
    TickingTidies(s, later, duration);
    TickingKeeps(s, later, duration);
    TidyTilesAimApart(t, i);
    Homecoming.TilesComeToRest(s, later, duration);
    forall c, k | TileAt(t, i, c, k)
      ensures StandingBox(ViewAt(t, i, c, k)) == AskedBox(ViewAt(t, i, c, k))
    {
      RestingTile(t, i, c, k);
    }
  }
}
