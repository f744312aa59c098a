/** Every event leads the tiles of the desktop home: in each state that a run reaches, the tiles that are to be seen
    rest where the layout last put them, or the last of their animations goes there. */
module Homecoming {
  import opened Prelude
  import opened Views
  import opened Columns
  import opened Rearranging
  import opened Layout
  import opened Animation
  import opened AnimationQueue
  import opened Tiling
  import opened Desktop
  import opened Invariants
  import opened Preservation
  import opened Steps
  import opened Focus
  import opened AnimationRuns
  import opened Switching
  import opened Homeward
  import Runs

  // ---------------------------------------------------------------------------------------
  // The tiles that are to be seen
  // ---------------------------------------------------------------------------------------

  /** A normal tile of a workspace that is on an output and is not about to leave it. */
  ghost predicate DisplayedIn(b: Bones, v: ViewId)
  {
    && NormalCore(b, v)
    && var i := b.cores[v].workspaceId;
       0 <= i < |b.ws| && b.ws[i].output.Some? && !Leaving(b, i) && v !in b.ws[i].floating
  }

  ghost predicate Displayed(s: State, v: ViewId)
  {
    DisplayedIn(BonesOf(s), v)
  }

  predicate Lively(b: Bones)
  {
    forall i | 0 <= i < |b.ws| :: !b.ws[i].suspendAnimations
  }

  /** All displayed tiles are homebound, and the tasks are in order. */
  ghost predicate HomeOk(s: State, m: Moment)
  {
    && TaskOrder(s.screen, m, s.env.now) && Lively(BonesOf(s))
    && forall v | Displayed(s, v) :: Homebound(s.screen, m, v)
  }

  lemma DisplayedIsNormal(s: State, v: ViewId)
    requires Displayed(s, v)
    ensures IsNormal(Table(s), v) && Located(s, v) && BonesOf(s).cores[v].workspaceId == Home(s, v)
  {
    hide Leaving;
    NormalIsCore(s, v);
    BonesApart(s);
    CoreApart(s, v);
  }

  lemma DisplayedTakesPart(s: State, v: ViewId)
    requires BonesOk(BonesOf(s)) && Displayed(s, v)
    ensures Located(s, v) && TakesPart(s.workspaces[Home(s, v)], Table(s), v)
            && OnOutput(s.workspaces[Home(s, v)], s.env)
  {
    hide FullscreenOk, Balanced, Occurrences, Count, FindColumn, Leaving, BonesOf;
    DisplayedIsNormal(s, v);
    var i := Home(s, v);
    PlacedIsDistinct(s, i);
    Runs.DueMeans(s, i, v);
    BonesApart(s);
    OutputAt(s, i);
    FloatingIn(s, i);
    OnlyTiled(s.workspaces[i], v);
  }

  lemma FloatingIn(s: State, i: nat)
    requires i < |s.workspaces|
    ensures i < |BonesOf(s).ws| && BonesOf(s).ws[i].floating == s.workspaces[i].floating
            && BonesOf(s).ws[i].output == s.workspaces[i].output
  {
  }

  lemma LayableByInv(s: State)
    requires BonesOk(BonesOf(s)) && Lively(BonesOf(s))
    ensures Layable(BonesOf(s))
  {
    hide Assigned, Balanced, Occurrences, Distinct;
    var b := BonesOf(s);
    forall i | 0 <= i < |b.ws|
      ensures Distinct(b.ws[i].columns) && !b.ws[i].suspendAnimations
      ensures b.ws[i].fullscreen.Some? ==> !NormalCore(b, b.ws[i].fullscreen.value)
    {
      PlacedIsDistinct(s, i);
    }
  }

  /** Between ticks everything can be laid out. */
  ghost predicate AtEase(s: State)
  {
    Good(s.screen, BETWEEN, s.env) && Layable(BonesOf(s))
  }

  lemma EaseBetween(s: State)
    requires BonesOk(BonesOf(s)) && HomeOk(s, BETWEEN)
    ensures AtEase(s)
  {
    hide BonesOk, BonesOf, TaskOrder, Calm, Lively, Layable;
    LayableByInv(s);
    BetweenTicks(s.screen, BETWEEN, 0);
  }

  lemma EaseIsSteady(s: State)
    requires AtEase(s)
    ensures Steady(s, BETWEEN, {})
  {
    hide BonesOf, TaskOrder, Layable, TakesPart, Punctual;
    forall i | 0 <= i < |s.workspaces|
      ensures PunctualIn(s.workspaces[i], s.screen, BETWEEN)
    {
      CalmIsPunctual(s.workspaces[i], s.screen, BETWEEN);
    }
  }

  lemma CalmIsPunctual(w: WorkspaceState, s: Screen, m: Moment)
    requires Calm(s, m)
    ensures PunctualIn(w, s, m)
  {
    hide Punctual, FindColumn;
  }

  // ---------------------------------------------------------------------------------------
  // How events lead home
  // ---------------------------------------------------------------------------------------

  /** Nothing but focus, scrolling and animations has changed. */
  lemma HomeByHeads(s: State, t: State, m: Moment)
    requires HomeOk(s, m) && TaskOrder(t.screen, m, t.env.now) && Heads(s, t, m)
    ensures HomeOk(t, m)
  {
    hide BonesOf, TaskOrder, Calm, Lively, Layable, Homebound;
    forall v | Displayed(t, v)
      ensures Homebound(t.screen, m, v)
    {
      DisplayedIsNormal(s, v);
    }
  }

  /** Whoever is displayed in t away from workspace i was so before, and is none of the exceptions. */
  ghost predicate NoNewcomers(b: Bones, b': Bones, i: int, but: set<ViewId>)
  {
    forall v | DisplayedIn(b', v) && b'.cores[v].workspaceId != i :: v !in but && DisplayedIn(b, v)
  }

  /** Workspace i was laid out at last, and nobody else came. */
  lemma HomeByLayout(s: State, t: State, m: Moment, i: nat, but: set<ViewId>)
    requires HomeOk(s, m) && BonesOk(BonesOf(t)) && Lively(BonesOf(t)) && i < |t.workspaces|
    requires TaskOrder(t.screen, m, t.env.now) && Leads(s.screen, t.screen, m, but)
    requires TilesHomebound(t.workspaces[i], t.screen, t.env, m)
    requires NoNewcomers(BonesOf(s), BonesOf(t), i, but)
    ensures HomeOk(t, m)
  {
    hide BonesOf, BonesOk, TaskOrder, Lively, Homebound, TakesPart, DisplayedIn;
    forall v | Displayed(t, v)
      ensures Homebound(t.screen, m, v)
    {
      DisplayedTakesPart(t, v);
      DisplayedIsNormal(t, v);
      if Home(t, v) != i {
        DisplayedIsNormal(s, v);
      }
    }
  }

  /** Nobody came, and nothing was laid out. */
  lemma HomeByStaying(s: State, t: State, m: Moment, but: set<ViewId>)
    requires HomeOk(s, m) && Lively(BonesOf(t))
    requires TaskOrder(t.screen, m, t.env.now) && Leads(s.screen, t.screen, m, but)
    requires NoNewcomers(BonesOf(s), BonesOf(t), -1, but)
    ensures HomeOk(t, m)
  {
    hide BonesOf, TaskOrder, Lively, Homebound;
    forall v | Displayed(t, v)
      ensures Homebound(t.screen, m, v)
    {
      DisplayedIsNormal(t, v);
      DisplayedIsNormal(s, v);
    }
  }

  // ---------------------------------------------------------------------------------------
  // Focus, layers and layouts
  // ---------------------------------------------------------------------------------------

  lemma SteadyOrder(s: State, m: Moment, laidOut: set<nat>)
    requires Steady(s, m, laidOut)
    ensures TaskOrder(s.screen, m, s.env.now)
  {
    hide TaskOrder, CalmIn, Layable, BonesOf;
  }

  lemma FocusingHome(s: State, view: Option<ViewId>, condense: bool)
    requires BonesOk(BonesOf(s)) && HomeOk(s, BETWEEN)
    ensures HomeOk(FocusView(s, view, condense), BETWEEN)
  {
    hide BonesOk, BonesOf, HomeOk, AtEase, Steady, Heads, FocusView;
    EaseBetween(s);
    EaseIsSteady(s);
    FocusingHeads(s, view, condense, BETWEEN, {});
    SteadyOrder(FocusView(s, view, condense), BETWEEN, {});
    HomeByHeads(s, FocusView(s, view, condense), BETWEEN);
  }

  lemma FocusingLayerHome(s: State, layer: Option<LayerId>)
    requires BonesOk(BonesOf(s)) && HomeOk(s, BETWEEN)
    ensures HomeOk(FocusLayer(s, layer), BETWEEN)
  {
    hide BonesOk, BonesOf, HomeOk, AtEase, Steady, Heads, FocusLayer;
    EaseBetween(s);
    EaseIsSteady(s);
    FocusingLayerHeads(s, layer, BETWEEN, {});
    SteadyOrder(FocusLayer(s, layer), BETWEEN, {});
    HomeByHeads(s, FocusLayer(s, layer), BETWEEN);
  }

  /** Seat and layers do not matter. */
  lemma SeatHome(s: State, t: State, m: Moment)
    requires HomeOk(s, m) && t.workspaces == s.workspaces && t.env == s.env && t.screen == s.screen
    ensures HomeOk(t, m)
  {
    hide TaskOrder, Homebound, DisplayedIn;
    assert BonesOf(t) == BonesOf(s);
  }

  lemma ShowingHome(s: State, v: ViewId, condense: bool)
    requires BonesOk(BonesOf(s)) && HomeOk(s, BETWEEN)
    ensures HomeOk(Show(s, v, condense), BETWEEN)
  {
    hide BonesOk, BonesOf, HomeOk, AtEase, Steady, Heads, Show;
    EaseBetween(s);
    EaseIsSteady(s);
    ShowingHeads(s, v, condense, BETWEEN, {});
    SteadyOrder(Show(s, v, condense), BETWEEN, {});
    HomeByHeads(s, Show(s, v, condense), BETWEEN);
  }

  lemma ArrangingHome(s: State, i: nat)
    requires BonesOk(BonesOf(s)) && HomeOk(s, BETWEEN) && i < |s.workspaces|
    ensures HomeOk(ArrangeIn(s, i), BETWEEN)
  {
    hide BonesOk, BonesOf, HomeOk, ArrangeIn;
    EaseBetween(s);
    ArrangedHeads(s, i);
    HomeByHeads(s, ArrangeIn(s, i), BETWEEN);
  }

  lemma ArrangedHeads(s: State, i: nat)
    requires AtEase(s) && i < |s.workspaces|
    ensures TaskOrder(ArrangeIn(s, i).screen, BETWEEN, s.env.now) && Heads(s, ArrangeIn(s, i), BETWEEN)
    ensures TilesHomebound(s.workspaces[i], ArrangeIn(s, i).screen, s.env, BETWEEN)
  {
    hide BonesOf, Layable, TaskOrder, Calm, Arrange, Leads, TilesHomebound, Orderly;
    LayableAt(s, i);
    ArrangeInKeepsBones(s, i);
    ArrangingLeads(s.workspaces[i], s.screen, s.env, BETWEEN);
  }

  // ---------------------------------------------------------------------------------------
  // Views come and go
  // ---------------------------------------------------------------------------------------

  lemma CreatingHome(s: State, v: ViewId, client: nat, ancestors: seq<ViewId>)
    requires Inv(s) && HomeOk(s, BETWEEN) && v !in Table(s)
    ensures HomeOk(CreateView(s, v, client, ancestors), BETWEEN)
  {
    hide Inv, TaskOrder, Leads, BonesOf, Lively;
    var t := CreateView(s, v, client, ancestors);
    PlacesLead(s.screen, t.screen, BETWEEN, {});
    SameTasks(s.screen, t.screen, BETWEEN, s.env.now);
    CreatedBones(s, v, client, ancestors);
    OneCoreChanged(BonesOf(s), BonesOf(t), v, {});
    HomeByStaying(s, t, BETWEEN, {});
  }

  lemma CreatedBones(s: State, v: ViewId, client: nat, ancestors: seq<ViewId>)
    ensures var t := CreateView(s, v, client, ancestors);
            BonesOf(t) == BonesOf(s).(cores := BonesOf(s).cores[v := CoreOf(Table(t)[v])]) && !Table(t)[v].mapped
  {
    hide Pending;
    var t := CreateView(s, v, client, ancestors);
    CoresUpdate(Table(s), v, Table(t)[v]);
    assert BonesOf(t).ws == BonesOf(s).ws;
  }

  /** One view changes, which is not displayed afterwards, or is no other normal view than before. */
  lemma OneCoreChanged(b: Bones, b': Bones, v: ViewId, but: set<ViewId>)
    requires b' == b.(cores := b'.cores) && v in b'.cores && b'.cores == b.cores[v := b'.cores[v]]
    requires !DisplayedIn(b', v) && but <= {v}
    ensures NoNewcomers(b, b', -1, but) && Lively(b) == Lively(b')
  {
  }

  /** A view that is mapped heads for its first place. */
  lemma MappingHome(s: State, v: ViewId, geometry: Box)
    requires Inv(s) && CanMap(s, v) && HomeOk(s, BETWEEN)
    ensures HomeOk(MapView(s, v, geometry), BETWEEN)
  {
    hide Placement, FullscreenOk, Assigned, Balanced, BonesOf, StackOk, Mapped, HomeOk, FocusView, MapView;
    MappedBones(s, v, geometry);
    MappedKeeps(s, v, geometry);
    MappedHome(s, v, geometry);
    FocusingHome(Mapped(s, v, geometry), Some(v), false);
  }

  lemma MappedHome(s: State, v: ViewId, geometry: Box)
    requires Inv(s) && CanMap(s, v) && HomeOk(s, BETWEEN)
    ensures HomeOk(Mapped(s, v, geometry), BETWEEN)
  {
    hide Placement, FullscreenOk, Assigned, Balanced, BonesOf, StackOk, Mapped, TaskOrder, Calm, Leads, TilesHomebound,
      WithView, FocusedWorkspace, MappedCore, Displayed;
    var t := Mapped(s, v, geometry);
    var i := FocusedWorkspace(s).value;
    MappedBones(s, v, geometry);
    MappedKeeps(s, v, geometry);
    MappedLeads(s, v, geometry);
    BonesApart(s); BonesApart(t);
    CoreApart(s, v);
    MappedNewcomer(BonesOf(s), BonesOf(t), i, v, FocusedView(s));
    HomeByLayout(s, t, BETWEEN, i, {});
  }

  lemma MappedNewcomer(b: Bones, b': Bones, i: nat, v: ViewId, nextTo: Option<ViewId>)
    requires i < |b.ws| && v in b.cores
    requires b' == b.(ws := b.ws[i := WithView(b.ws[i], v, nextTo, false)],
                      cores := b.cores[v := MappedCore(b.cores[v], i, b.ws[i].output)])
    ensures NoNewcomers(b, b', i, {}) && (Lively(b) ==> Lively(b'))
  {
    hide AddColumn;
  }

  lemma MappedLeads(s: State, v: ViewId, geometry: Box)
    requires Inv(s) && CanMap(s, v) && HomeOk(s, BETWEEN)
    ensures var t := Mapped(s, v, geometry);
            var i := FocusedWorkspace(s).value;
            && i < |t.workspaces| && t.env == s.env && TaskOrder(t.screen, BETWEEN, s.env.now)
            && Leads(s.screen, t.screen, BETWEEN, {}) && TilesHomebound(t.workspaces[i], t.screen, s.env, BETWEEN)
  {
    hide Placement, FullscreenOk, Assigned, Balanced, BonesOf, StackOk, TaskOrder, Calm, Leads, TilesHomebound, AddView,
      FocusedWorkspace, Orderly, Displayed, Lively, Layable;
    var i := FocusedWorkspace(s).value;
    var s1 := WithTable(s, Table(s)[v := NewlyMapped(Table(s)[v], geometry)]);
    EaseBetween(s);
    PlacesLead(s.screen, s1.screen, BETWEEN, {});
    SameTasks(s.screen, s1.screen, BETWEEN, s.env.now);
    BetweenTicks(s1.screen, BETWEEN, v);
    LayableAt(s, i);
    NewTileIsOrderly(s, s1, i, v);
    AddingLeads(s.workspaces[i], s1.screen, s1.env, BETWEEN, v, FocusedView(s1), false, false);
    LeadsOn(s.screen, s1.screen, Mapped(s, v, geometry).screen, BETWEEN, {});
  }

  lemma NewTileIsOrderly(s: State, t: State, i: nat, v: ViewId)
    requires Inv(s) && i < |s.workspaces| && Orderly(s.workspaces[i], Table(s)) && v in Table(s) && !Table(s)[v].mapped
    requires forall u | u in Table(s) && u != v :: u in Table(t) && Table(t)[u] == Table(s)[u]
    ensures forall nextTo :: Orderly(WithView(s.workspaces[i], v, nextTo, false), Table(t))
  {
    hide Placement, Assigned, Balanced, StackOk, Occurrences, Distinct, AddColumn, Count;
    PlacedIsDistinct(s, i);
    var w := s.workspaces[i];
    assert Due(BonesOf(s), i, v) == 0;
    NotFloating(w, v);
    FullscreenAt(s, i);
    forall nextTo
      ensures Orderly(WithView(w, v, nextTo, false), Table(t))
    {
      AddedIsDistinct(w.columns, v, nextTo);
    }
  }

  lemma UnmappingHome(s: State, v: ViewId)
    requires Inv(s) && v in Table(s) && HomeOk(s, BETWEEN)
    ensures HomeOk(UnmapView(s, v), BETWEEN)
  {
    hide BonesOk, BonesOf, StackOk, HomeOk, FocusView, Withdrawn;
    WithdrawingKeeps(s, v);
    WithdrawnHome(s, v);
    var s1 := Withdrawn(s, v);
    FocusingHome(s1, FirstMapped(s1.seat.focusStack, Table(s1), v), true);
    SeatHome(HideView(s1, v), UnmapView(s, v), BETWEEN);
  }

  lemma WithdrawnHome(s: State, v: ViewId)
    requires Inv(s) && v in Table(s) && HomeOk(s, BETWEEN)
    ensures HomeOk(Withdrawn(s, v), BETWEEN)
  {
    hide BonesOk, BonesOf, StackOk, TaskOrder, Leads, TilesHomebound, Withdrawn, UnmappedCore, WithoutView, Displayed;
    if Table(s)[v].mapped {
      MappedIsLocated(s, v);
      PlacedByBones(s);
      WithdrawnBones(s, v);
      WithdrawingKeeps(s, v);
      WithdrawnLeads(s, v);
      BonesApart(s); BonesApart(Withdrawn(s, v));
      CoreApart(s, v);
      WithdrawnNewcomer(BonesOf(s), BonesOf(Withdrawn(s, v)), Home(s, v), v);
      HomeByLayout(s, Withdrawn(s, v), BETWEEN, Home(s, v), {v});
    } else {
      NothingWithdrawn(s, v);
    }
  }

  lemma PlacedByBones(s: State)
    requires BonesOk(BonesOf(s))
    ensures Placement(BonesOf(s))
  {
  }

  lemma WithdrawnNewcomer(b: Bones, b': Bones, i: nat, v: ViewId)
    requires i < |b.ws| && v in b.cores
    requires b' == b.(ws := b.ws[i := WithoutView(Dismissed(b.ws[i], v), v)],
                      cores := b.cores[v := UnmappedCore(b.cores[v], b.ws[i].output)])
    ensures NoNewcomers(b, b', i, {v}) && (Lively(b) ==> Lively(b'))
  {
    hide RemoveView, Without, Told;
  }

  lemma WithdrawnLeads(s: State, v: ViewId)
    requires Inv(s) && IsMappedView(s, v) && HomeOk(s, BETWEEN)
    ensures var t := Withdrawn(s, v);
            var i := Home(s, v);
            && i < |t.workspaces| && t.env == s.env && TaskOrder(t.screen, BETWEEN, s.env.now)
            && Leads(s.screen, t.screen, BETWEEN, {v}) && TilesHomebound(t.workspaces[i], t.screen, s.env, BETWEEN)
  {
    hide BonesOk, BonesOf, StackOk, TaskOrder, Calm, Leads, TilesHomebound, RemoveFromWorkspace, Displayed, Lively,
      Layable, Distinct;
    var i := Home(s, v);
    var s1 := WithTable(s, Table(s)[v := Table(s)[v].(mapped := false)]);
    EaseBetween(s);
    PlacesLead(s.screen, s1.screen, BETWEEN, {v});
    SameTasks(s.screen, s1.screen, BETWEEN, s.env.now);
    BetweenTicks(s1.screen, BETWEEN, v);
    LayableAt(s, i);
    RemovingLeads(s.workspaces[i], s1.screen, s1.env, BETWEEN, v, false);
    LeadsMore(s1.screen, Withdrawn(s, v).screen, BETWEEN, {v});
    LeadsOn(s.screen, s1.screen, Withdrawn(s, v).screen, BETWEEN, {v});
  }

  lemma DestroyingHome(s: State, v: ViewId)
    requires Inv(s) && v in Table(s) && !Table(s)[v].mapped && CarriesNoDeparture(s.screen.tasks, v)
    requires HomeOk(s, BETWEEN)
    ensures HomeOk(DestroyView(s, v), BETWEEN)
  {
    hide Placement, FullscreenOk, Assigned, Balanced, BonesOf, StackOk, Pending, AllCancelled, Leads, TaskOrder,
      Cancelled, CarriesNoDeparture, Homebound, Displayed, Lively;
    var t := DestroyView(s, v);
    DestroyedBones(s, v);
    JustOneCancelled(s.screen.tasks, v);
    DeparturesOf(BonesOf(s), BonesOf(t), s.screen.tasks, [v]);
    CancellingLeads(s.screen, t.screen, v, s.env);
    CoreApart(s, v);
    GoneNewcomer(BonesOf(s), BonesOf(t), v);
    HomeByStaying(s, t, BETWEEN, {v});
  }

  lemma GoneNewcomer(b: Bones, b': Bones, v: ViewId)
    requires b' == b.(cores := b.cores - {v}, pending := b'.pending)
    requires forall p: nat :: Leaving(b, p) ==> Leaving(b', p)
    ensures NoNewcomers(b, b', -1, {v}) && Lively(b) == Lively(b')
  {
  }

  lemma CancellingLeads(a: Screen, b: Screen, v: ViewId, env: Env)
    requires TaskOrder(a, BETWEEN, env.now) && b.tasks == Cancelled(a.tasks, v)
    requires forall u | IsNormal(a.views, u) && u != v :: IsNormal(b.views, u) && SamePlace(a.views[u], b.views[u])
    ensures TaskOrder(b, BETWEEN, env.now) && Leads(a, b, BETWEEN, {v})
  {
    hide EndOfTick, Settling, LastLive;
    BetweenTicks(a, BETWEEN, v); BetweenTicks(b, BETWEEN, v);
    forall u | u != v && IsNormal(a.views, u)
      ensures Homebound(a, BETWEEN, u) ==> Homebound(b, BETWEEN, u)
    {
      BetweenTicks(a, BETWEEN, u); BetweenTicks(b, BETWEEN, u);
      LastLiveCancelled(a.tasks, v, u);
      SameSettling(QueueOf(a, BETWEEN), QueueOf(b, BETWEEN), u);
    }
  }

  // ---------------------------------------------------------------------------------------
  // Sizes and fullscreen
  // ---------------------------------------------------------------------------------------

  /** One view of workspace i changes. */
  lemma OneCoreAt(b: Bones, b': Bones, i: int, v: ViewId)
    requires b' == b.(cores := b'.cores) && v in b'.cores && b'.cores == b.cores[v := b'.cores[v]]
    requires b'.cores[v].workspaceId == i
    ensures NoNewcomers(b, b', i, {}) && Lively(b) == Lively(b')
  {
  }

  lemma CommittingHome(s: State, v: ViewId, geometry: Box)
    requires Inv(s) && IsMappedView(s, v) && HomeOk(s, BETWEEN)
    ensures HomeOk(Commit(s, v, geometry), BETWEEN)
  {
    hide BonesOk, BonesOf, StackOk, TaskOrder, Leads, TilesHomebound, Arrange, Displayed, Lively, Good, Layable;
    if geometry != Table(s)[v].geometry {
      var s1 := WithTable(s, Table(s)[v := Table(s)[v].(geometry := geometry).Recover()]);
      var t := ArrangeIn(s1, Home(s, v));
      RecoveringKeeps(s, v, geometry);
      ArrangingKeeps(s1, Home(s, v));
      RecoveredBones(s, v, geometry);
      OneCoreAt(BonesOf(s), BonesOf(s1), Home(s, v), v);
      RecoveredSteady(s, v, geometry);
      ArrangedHeads(s1, Home(s, v));
      LeadsOn(s.screen, s1.screen, t.screen, BETWEEN, {});
      HomeByLayout(s, t, BETWEEN, Home(s, v), {});
    }
  }

  lemma RecoveredBones(s: State, v: ViewId, geometry: Box)
    requires IsMappedView(s, v)
    ensures var t := WithTable(s, Table(s)[v := Table(s)[v].(geometry := geometry).Recover()]);
            var b, b' := BonesOf(s), BonesOf(t);
            b' == b.(cores := b'.cores) && v in b'.cores && b'.cores == b.cores[v := b'.cores[v]]
            && b'.cores[v].workspaceId == Home(s, v)
  {
    hide Pending;
    var t := WithTable(s, Table(s)[v := Table(s)[v].(geometry := geometry).Recover()]);
    CoresUpdate(Table(s), v, Table(t)[v]);
    assert BonesOf(t).ws == BonesOf(s).ws;
  }

  lemma RecoveredSteady(s: State, v: ViewId, geometry: Box)
    requires Inv(s) && IsMappedView(s, v) && HomeOk(s, BETWEEN)
    ensures var t := WithTable(s, Table(s)[v := Table(s)[v].(geometry := geometry).Recover()]);
            AtEase(t) && Leads(s.screen, t.screen, BETWEEN, {})
  {
    hide BonesOk, BonesOf, StackOk, TaskOrder, Calm, Leads, Displayed, Layable, Lively;
    var t := WithTable(s, Table(s)[v := Table(s)[v].(geometry := geometry).Recover()]);
    RecoveringKeeps(s, v, geometry);
    RecoveredBones(s, v, geometry);
    OneCoreAt(BonesOf(s), BonesOf(t), Home(s, v), v);
    LayableByInv(t);
    PlacesLead(s.screen, t.screen, BETWEEN, {});
    SameTasks(s.screen, t.screen, BETWEEN, s.env.now);
    BetweenTicks(t.screen, BETWEEN, v);
  }

  lemma RequestingHome(s: State, v: ViewId, on: bool)
    requires Inv(s) && CanFullscreen(s, v, on) && HomeOk(s, BETWEEN)
    ensures HomeOk(RequestFullscreen(s, v, on), BETWEEN)
  {
    hide BonesOk, BonesOf, StackOk, TaskOrder, Leads, TilesHomebound, SetFullscreen, Displayed, Lively, Unharmed,
      Layable, Calm, Orderly, TasksKnown;
    var i := Home(s, v);
    var t := RequestFullscreen(s, v, on);
    RequestingKeeps(s, v, on);
    EaseBetween(s);
    LayableAt(s, i);
    RequestedNewcomer(s, v, on);
    if IsNormal(Table(s), v) {
      UnsavedIsReady(s, v);
    }
    ExpandingLeads(s.workspaces[i], s.screen, s.env, BETWEEN, if on then Some(v) else None);
    HomeByLayout(s, t, BETWEEN, i, if on then {v} else {});
  }

  lemma UnsavedIsReady(s: State, v: ViewId)
    requires Inv(s) && v in Table(s) && IsNormal(Table(s), v)
    ensures CanSave(Table(s)[v])
  {
    hide Placement, Assigned, Balanced, StackOk;
    CoreApart(s, v);
  }

  lemma RequestedNewcomer(s: State, v: ViewId, on: bool)
    requires Inv(s) && CanFullscreen(s, v, on)
    ensures var t := RequestFullscreen(s, v, on);
            NoNewcomers(BonesOf(s), BonesOf(t), Home(s, v), if on then {v} else {})
            && (Lively(BonesOf(s)) ==> Lively(BonesOf(t)))
  {
    hide BonesOk, BonesOf, StackOk, SetFullscreen, Unharmed, TasksKnown;
    var i := Home(s, v);
    CoreApart(s, v);
    BonesApart(s);
    if on {
      BonesAfterExpanding(s, i, v);
      ExpandedNewcomer(BonesOf(s), BonesOf(RequestFullscreen(s, v, on)), i, v);
    } else {
      LeftBones(s, i);
      UnexpandedNewcomer(BonesOf(s), i);
    }
  }

  lemma ExpandedNewcomer(b: Bones, b': Bones, i: nat, v: ViewId)
    requires i < |b.ws| && v in Unexpanded(b, i).cores && v in b'.cores
             && b' == ExpandedBones(Unexpanded(b, i), i, v, b'.cores[v].saved)
    ensures NoNewcomers(b, b', i, {v}) && (Lively(b) ==> Lively(b'))
  {
  }

  lemma UnexpandedNewcomer(b: Bones, i: nat)
    requires i < |b.ws|
    ensures NoNewcomers(b, Unexpanded(b, i), i, {}) && (Lively(b) ==> Lively(Unexpanded(b, i)))
  {
  }

  // ---------------------------------------------------------------------------------------
  // From one workspace to another
  // ---------------------------------------------------------------------------------------

  /** Views have changed places at most in the lists of other workspaces, and no view has become normal. */
  ghost predicate Prepared(s: Screen, t: Screen, env: Env, but: set<ViewId>)
  {
    && Good(t, BETWEEN, env) && Leads(s, t, BETWEEN, but) && t.views.Keys == s.views.Keys
    && forall u | IsNormal(t.views, u) :: IsNormal(s.views, u)
  }

  lemma PreparedOn(a: Screen, b: Screen, c: Screen, env: Env, but: set<ViewId>)
    requires Prepared(a, b, env, but) && Prepared(b, c, env, but)
    ensures Prepared(a, c, env, but)
  {
    hide Good, Leads, IsNormal;
    LeadsOn(a, b, c, BETWEEN, but);
  }

  lemma OrderlyStill(w: WorkspaceState, a: ViewTable, b: ViewTable)
    requires Orderly(w, a) && forall u | IsNormal(b, u) :: IsNormal(a, u)
    ensures Orderly(w, b)
  {
    hide Distinct;
  }

  lemma HandingLeads(s: State, v: ViewId, j: nat)
    requires AtEase(s) && v in Table(s) && j < |s.workspaces|
    ensures var t := HandOverFullscreen(s, v, j);
            && t == s.(workspaces := t.workspaces, screen := t.screen) && |t.workspaces| == |s.workspaces|
            && Prepared(s.screen, t.screen, s.env, {})
            && (forall k | 0 <= k < |s.workspaces| && k != j :: t.workspaces[k] == s.workspaces[k])
            && t.workspaces[j].columns == s.workspaces[j].columns && Orderly(t.workspaces[j], Table(t))
  {
    hide BonesOf, Layable, Good, Leads, SetFullscreen, Arrange, Distinct, TilesHomebound;
    LayableAt(s, j);
    LeadsItself(s.screen, BETWEEN, {});
    if Table(s)[v].expansion == Fullscreen {
      var w := s.workspaces[j];
      var r := SetFullscreen(w, s.screen, s.env, None);
      SetFullscreenLists(w, s.screen, s.env);
      ExpandingLeads(w, s.screen, s.env, BETWEEN, None);
      var s1 := if w.fullscreen.None? then s else InWorkspace(s, j, r);
      var w1 := s1.workspaces[j].(fullscreen := Some(v));
      var t := HandOverFullscreen(s, v, j);
      assert t.screen == Arrange(w1, s1.screen, s1.env, true);
      ArrangingLeads(w1, s1.screen, s1.env, BETWEEN);
      SameNormalTiles(w1, s1.screen, s1.env);
      LeadsOn(s.screen, s1.screen, t.screen, BETWEEN, {});
    }
  }

  lemma SetFullscreenLists(w: WorkspaceState, s: Screen, env: Env)
    ensures var r := SetFullscreen(w, s, env, None);
            r.0 == w.(fullscreen := None) && r.1.views.Keys == s.views.Keys
  {
    hide Arrange;
  }

  lemma PullingLeads(s: State, v: ViewId, j: nat)
    requires Good(s.screen, BETWEEN, s.env) && v in Table(s) && j < |s.workspaces|
    ensures var t := PulledOnto(s, v, j);
            t == s.(screen := t.screen) && Prepared(s.screen, t.screen, s.env, {v})
  {
    hide Homebound, Punctual, EndOfTick;
    var t := PulledOnto(s, v, j);
    PlacesLead(s.screen, t.screen, BETWEEN, {v});
    SameTasks(s.screen, t.screen, BETWEEN, s.env.now);
    SameCalm(s.screen, t.screen, BETWEEN);
  }

  lemma ReceivingLeads(s: State, v: ViewId, j: nat, floating: bool)
    requires AtEase(s) && v in Table(s) && j < |s.workspaces|
    ensures var t := Received(s, v, j, floating);
            && t == s.(workspaces := t.workspaces, screen := t.screen) && |t.workspaces| == |s.workspaces|
            && Prepared(s.screen, t.screen, s.env, if floating then {v} else {})
            && (forall k | 0 <= k < |s.workspaces| && k != j :: t.workspaces[k] == s.workspaces[k])
            && t.workspaces[j].columns == s.workspaces[j].columns && Orderly(t.workspaces[j], Table(t))
  {
    hide AtEase, HandOverFullscreen, PulledOnto, Orderly, Good, Leads;
    var but := if floating then {v} else {};
    HandingLeads(s, v, j);
    var s1 := HandOverFullscreen(s, v, j);
    LeadsMore(s.screen, s1.screen, BETWEEN, but);
    if floating && Table(s)[v].expansion != Fullscreen {
      PullingLeads(s1, v, j);
      PreparedOn(s.screen, s1.screen, PulledOnto(s1, v, j).screen, s.env, but);
      OrderlyStill(s1.workspaces[j], Table(s1), Table(PulledOnto(s1, v, j)));
    }
  }

  lemma TransplantingLeads(s: State, v: ViewId, j: nat)
    requires AtEase(s) && Located(s, v) && j < |s.workspaces| && Home(s, v) != j
    requires Count(s.workspaces[j].columns, v) == 0
    ensures var t := Transplanted(s, v, j);
            var floating := v in s.workspaces[Home(s, v)].floating;
            && t.env == s.env && |t.workspaces| == |s.workspaces| && TaskOrder(t.screen, BETWEEN, s.env.now)
            && Leads(s.screen, t.screen, BETWEEN, if floating then {v} else {})
            && TilesHomebound(t.workspaces[j], t.screen, s.env, BETWEEN)
  {
    hide BonesOf, Layable, TaskOrder, Calm, Leads, Received, RemoveFromWorkspace, AddView, Orderly, Count,
      TilesHomebound;
    var i := Home(s, v);
    var floating := v in s.workspaces[i].floating;
    var but := if floating then {v} else {};
    ReceivingLeads(s, v, j, floating);
    var s2 := Received(s, v, j, floating);
    LayableAt(s, i);
    OrderlyStill(s.workspaces[i], Table(s), Table(s2));
    RemovingLeads(s2.workspaces[i], s2.screen, s2.env, BETWEEN, v, false);
    RemovedKeepsKeys(s2.workspaces[i], s2.screen, s2.env, v);
    var s3 := InWorkspace(s2, i, RemoveFromWorkspace(s2.workspaces[i], s2.screen, s2.env, v, false));
    OrderlyStill(s2.workspaces[j], Table(s2), Table(s3));
    NewcomerIsOrderly(s3.workspaces[j], Table(s3), v, floating);
    AddingLeads(s3.workspaces[j], s3.screen, s3.env, BETWEEN, v, None, floating, false);
    var t := Transplanted(s, v, j);
    LeadsMore(s2.screen, s3.screen, BETWEEN, but);
    LeadsMore(s3.screen, t.screen, BETWEEN, but);
    LeadsOn(s.screen, s2.screen, s3.screen, BETWEEN, but);
    LeadsOn(s.screen, s3.screen, t.screen, BETWEEN, but);
  }

  lemma RemovedKeepsKeys(w: WorkspaceState, s: Screen, env: Env, v: ViewId)
    requires v in s.views
    ensures RemoveFromWorkspace(w, s, env, v, false).1.views.Keys == s.views.Keys
  {
    hide Arrange;
  }

  lemma NewcomerIsOrderly(w: WorkspaceState, views: ViewTable, v: ViewId, floating: bool)
    requires Orderly(w, views) && Count(w.columns, v) == 0
    ensures Orderly(WithView(w, v, None, floating), views)
  {
    hide Distinct, AddColumn, IsNormal, Count, FloatingAfter;
    if !floating {
      AddedIsDistinct(w.columns, v, None);
    }
  }

  lemma TransplantedHome(s: State, v: ViewId, j: nat)
    requires Inv(s) && IsMappedView(s, v) && j < |s.workspaces| && Home(s, v) != j && HomeOk(s, BETWEEN)
    ensures HomeOk(Transplanted(s, v, j), BETWEEN)
  {
    hide BonesOk, BonesOf, StackOk, TaskOrder, Leads, AtEase, TilesHomebound, Transplanted, Displayed, Lively, Handed,
      Taken, Given, Count;
    var i := Home(s, v);
    var t := Transplanted(s, v, j);
    var floating := v in s.workspaces[i].floating;
    EaseBetween(s);
    NotTiledIn(s, v, j);
    TransplantingLeads(s, v, j);
    TransplantKeepsInv(s, v, j);
    TransplantedBones(s, v, j);
    CoreApart(s, v);
    FloatingIn(s, i);
    TransplantedNewcomer(BonesOf(s), v, i, j, floating);
    HomeByLayout(s, t, BETWEEN, j, if floating then {v} else {});
  }

  lemma NotTiledIn(s: State, v: ViewId, j: nat)
    requires Inv(s) && IsMappedView(s, v) && j < |s.workspaces| && Home(s, v) != j
    ensures Count(s.workspaces[j].columns, v) == 0
  {
    hide FullscreenOk, Assigned, Balanced, StackOk, Count;
    PlacedIsDistinct(s, j);
    Runs.DueMeans(s, j, v);
  }

  lemma TransplantedNewcomer(b: Bones, v: ViewId, i: nat, j: nat, floating: bool)
    requires i < |b.ws| && j < |b.ws| && i != j && v in b.cores && v in Handed(b, v, j).cores
             && v in Taken(Handed(b, v, j), v, i).cores
    requires b.cores[v].workspaceId == i
    ensures var b' := Given(Taken(Handed(b, v, j), v, i), v, j, floating);
            NoNewcomers(b, b', j, if floating then {v} else {}) && (Lively(b) ==> Lively(b'))
  {
    hide RemoveView, Without, Told, AddColumn, FloatingAfter;
    WithoutElements(b.ws[i].floating, v);
  }

  /** A view that goes to another workspace heads for its place there. */
  lemma ChangingWorkspaceHome(s: State, v: ViewId, j: nat)
    requires Inv(s) && IsMappedView(s, v) && j < |s.workspaces| && HomeOk(s, BETWEEN)
    ensures HomeOk(ChangeWorkspace(s, v, j), BETWEEN)
  {
    hide BonesOk, BonesOf, StackOk, HomeOk, Transplanted, FocusView;
    if Home(s, v) != j {
      TransplantedHome(s, v, j);
      TransplantKeepsInv(s, v, j);
      var s1 := Transplanted(s, v, j);
      FocusingHome(s1, FirstOf(s1.seat.focusStack, Table(s1), s1.workspaces[Home(s, v)].index, Some(v)), false);
    }
  }

  // ---------------------------------------------------------------------------------------
  // Commands on the focused view
  // ---------------------------------------------------------------------------------------

  lemma RefloatingLeads(s: State, v: ViewId, i: nat)
    requires AtEase(s) && v in Table(s) && i < |s.workspaces|
    ensures var t := Refloated(s, v, i);
            && t.env == s.env && |t.workspaces| == |s.workspaces| && TaskOrder(t.screen, BETWEEN, s.env.now)
            && Leads(s.screen, t.screen, BETWEEN, {}) && TilesHomebound(t.workspaces[i], t.screen, s.env, BETWEEN)
  {
    hide BonesOf, Layable, TaskOrder, Calm, Leads, SizesSwapped, RemoveFromWorkspace, AddView, Orderly, TilesHomebound,
      LastTile;
    var floating := v in s.workspaces[i].floating;
    SwappingLeads(s, v, s.workspaces[i].fullscreen == Some(v));
    var s1 := SizesSwapped(s, v, s.workspaces[i].fullscreen == Some(v));
    LayableAt(s, i);
    OrderlyStill(s.workspaces[i], Table(s), Table(s1));
    RemovingLeads(s1.workspaces[i], s1.screen, s1.env, BETWEEN, v, true);
    RemovedLists(s1.workspaces[i], s1.screen, s1.env, v);
    var s2 := InWorkspace(s1, i, RemoveFromWorkspace(s1.workspaces[i], s1.screen, s1.env, v, true));
    OutIsOrderly(s1.workspaces[i], Table(s1), Table(s2), v, LastTile(s2.workspaces[i].columns), !floating);
    AddingLeads(s2.workspaces[i], s2.screen, s2.env, BETWEEN, v, LastTile(s2.workspaces[i].columns), !floating, true);
    LeadsOn(s.screen, s1.screen, s2.screen, BETWEEN, {});
    LeadsOn(s.screen, s2.screen, Refloated(s, v, i).screen, BETWEEN, {});
  }

  lemma SwappingLeads(s: State, v: ViewId, fullscreen: bool)
    requires Good(s.screen, BETWEEN, s.env) && v in Table(s)
    ensures var t := SizesSwapped(s, v, fullscreen);
            && t == s.(screen := t.screen) && v in Table(t) && Prepared(s.screen, t.screen, s.env, {})
  {
    hide Homebound, Punctual, EndOfTick;
    var t := SizesSwapped(s, v, fullscreen);
    PlacesLead(s.screen, t.screen, BETWEEN, {});
    SameTasks(s.screen, t.screen, BETWEEN, s.env.now);
    SameCalm(s.screen, t.screen, BETWEEN);
  }

  lemma OutIsOrderly(w: WorkspaceState, before: ViewTable, views: ViewTable, v: ViewId, nextTo: Option<ViewId>,
                     floating: bool)
    requires Orderly(w, before) && Orderly(WithoutView(w, v), views)
    ensures Orderly(WithView(WithoutView(w, v), v, nextTo, floating), views)
  {
    hide Distinct, AddColumn, RemoveView, IsNormal, Count, FloatingAfter, Without;
    RemovedIsDistinct(w.columns, v);
    if !floating {
      AddedIsDistinct(RemoveView(w.columns, v), v, nextTo);
    }
  }

  lemma RefloatedHome(s: State, v: ViewId)
    requires Inv(s) && IsMappedView(s, v) && HomeOk(s, BETWEEN)
    ensures HomeOk(Refloated(s, v, Home(s, v)), BETWEEN)
  {
    hide BonesOk, BonesOf, StackOk, TaskOrder, Leads, AtEase, TilesHomebound, Refloated, Displayed, Lively, WithView,
      WithoutView;
    var i := Home(s, v);
    var t := Refloated(s, v, i);
    EaseBetween(s);
    RefloatingLeads(s, v, i);
    RefloatingKeepsInv(s, v);
    FullscreenIsSaved(s, i, v);
    RefloatedBones(s, v, i);
    CoreApart(s, v);
    BonesApart(s); BonesApart(t);
    var b := BonesOf(s);
    var nextTo, floating :| BonesOf(t).ws == b.ws[i := WithView(WithoutView(b.ws[i], v), v, nextTo, floating)];
    RefloatedNewcomer(b, BonesOf(t), i, v, nextTo, floating);
    HomeByLayout(s, t, BETWEEN, i, {});
  }

  lemma RefloatedNewcomer(b: Bones, b': Bones, i: nat, v: ViewId, nextTo: Option<ViewId>, floating: bool)
    requires i < |b.ws| && v in b.cores && v in b'.cores && b.cores[v].workspaceId == b'.cores[v].workspaceId == i
    requires b'.cores == b.cores[v := b'.cores[v]] && b'.pending == b.pending
    requires b'.ws == b.ws[i := WithView(WithoutView(b.ws[i], v), v, nextTo, floating)]
    ensures NoNewcomers(b, b', i, {}) && (Lively(b) ==> Lively(b'))
  {
    hide RemoveView, Without, AddColumn, FloatingAfter;
  }

  lemma TogglingHome(s: State)
    requires Inv(s) && HomeOk(s, BETWEEN)
    ensures HomeOk(ToggleFloating(s), BETWEEN)
  {
    hide BonesOk, BonesOf, StackOk, HomeOk, Refloated, Show, FirstOf;
    var focused := FocusedView(s);
    if focused.Some? {
      FocusedIsLocated(s);
      var v := focused.value;
      var i := Home(s, v);
      RefloatedHome(s, v);
      RefloatingKeepsInv(s, v);
      var s1 := Refloated(s, v, i);
      ShowingHome(s1, v, false);
      var previous := FirstOf(s1.seat.focusStack, Table(s1), i, Some(v));
      if previous.Some? {
        ShowingHome(s1, previous.value, true);
      }
    }
  }

  lemma FittingHome(s: State, i: nat, v: ViewId, condense: bool)
    requires BonesOk(BonesOf(s)) && HomeOk(s, BETWEEN) && i < |s.workspaces|
    ensures HomeOk(InWorkspace(s, i, FitView(s.workspaces[i], s.screen, s.env, v, condense)), BETWEEN)
  {
    hide BonesOk, BonesOf, HomeOk, AtEase, Steady, Heads, FitView;
    var t := InWorkspace(s, i, FitView(s.workspaces[i], s.screen, s.env, v, condense));
    EaseBetween(s);
    EaseIsSteady(s);
    FittedHeads(s, i, v, condense, BETWEEN, {});
    SteadyOrder(t, BETWEEN, {});
    HomeByHeads(s, t, BETWEEN);
  }

  lemma SteppedHome(s: State, v: ViewId, i: nat, dx: int, dy: int)
    requires Inv(s) && HomeOk(s, BETWEEN)
    requires i < |s.workspaces| && FindColumn(s.workspaces[i].columns, v) < |s.workspaces[i].columns|
    ensures HomeOk(Stepped(s, v, i, dx, dy), BETWEEN)
  {
    hide BonesOk, BonesOf, StackOk, TaskOrder, Calm, Leads, TilesHomebound, Displayed, Lively, Layable, Arrange, Moved,
      FindColumn, Orderly;
    var w := s.workspaces[i].(columns := Moved(s.workspaces[i].columns, v, dx, dy).0);
    var t := Stepped(s, v, i, dx, dy);
    EaseBetween(s);
    LayableAt(s, i);
    MovedIsOrderly(s.workspaces[i], Table(s), v, dx, dy);
    ArrangingLeads(w, s.screen, s.env, BETWEEN);
    SteppingKeeps(s, v, i, dx, dy);
    SteppedBones(s, v, i, dx, dy);
    SuspensionAt(s, i);
    RelistedNewcomer(BonesOf(s), BonesOf(t), i, Skeleton(w));
    HomeByLayout(s, t, BETWEEN, i, {});
  }

  lemma SteppedBones(s: State, v: ViewId, i: nat, dx: int, dy: int)
    requires i < |s.workspaces| && FindColumn(s.workspaces[i].columns, v) < |s.workspaces[i].columns|
    ensures var w := s.workspaces[i].(columns := Moved(s.workspaces[i].columns, v, dx, dy).0);
            |BonesOf(s).ws| == |s.workspaces|
            && BonesOf(Stepped(s, v, i, dx, dy)) == BonesOf(s).(ws := BonesOf(s).ws[i := Skeleton(w)])
  {
    hide Moved, FindColumn, ArrangeIn, Pending, Cores;
    var w := s.workspaces[i].(columns := Moved(s.workspaces[i].columns, v, dx, dy).0);
    InWorkspaceBones(s, i, (w, s.screen));
    ArrangeInKeepsBones(s.(workspaces := s.workspaces[i := w]), i);
    BonesApart(s);
  }

  lemma MovedIsOrderly(w: WorkspaceState, views: ViewTable, v: ViewId, dx: int, dy: int)
    requires Orderly(w, views) && FindColumn(w.columns, v) < |w.columns|
    ensures Orderly(w.(columns := Moved(w.columns, v, dx, dy).0), views)
  {
    hide Distinct, Moved, FindColumn, Count, IsNormal;
    var cols := Moved(w.columns, v, dx, dy).0;
    MoveIsAPermutation(w.columns, v, dx, dy);
    forall u
      ensures Count(cols, u) <= 1
    {
      DistinctCountsOnce(w.columns, u);
    }
    CountedOnceIsDistinct(cols);
  }

  /** Only workspace i is another. */
  lemma RelistedNewcomer(b: Bones, b': Bones, i: nat, w: WorkspaceState)
    requires i < |b.ws| && b' == b.(ws := b.ws[i := w]) && w.suspendAnimations == b.ws[i].suspendAnimations
    ensures NoNewcomers(b, b', i, {}) && (Lively(b) ==> Lively(b'))
  {
    if Lively(b) {
      assert !b.ws[i].suspendAnimations;
    }
  }

  lemma MovingTiledHome(s: State, v: ViewId, i: nat, dx: int, dy: int)
    requires Inv(s) && HomeOk(s, BETWEEN)
    requires i < |s.workspaces| && FindColumn(s.workspaces[i].columns, v) < |s.workspaces[i].columns|
    ensures HomeOk(MoveTiled(s, v, i, dx, dy), BETWEEN)
  {
    hide BonesOk, BonesOf, StackOk, HomeOk, Moved, FindColumn, ArrangeIn, FitView;
    SteppingKeeps(s, v, i, dx, dy);
    SteppedHome(s, v, i, dx, dy);
    var (cols, c) := Moved(s.workspaces[i].columns, v, dx, dy);
    if cols[c] != [] {
      FittingHome(Stepped(s, v, i, dx, dy), i, cols[c][0].view, false);
    }
  }

  lemma FloatingToHome(s: State, v: ViewId, x: int, y: int, under: Option<OutputId>)
    requires Inv(s) && IsMappedView(s, v) && HomeOk(s, BETWEEN)
    requires FindColumn(s.workspaces[Home(s, v)].columns, v) == |s.workspaces[Home(s, v)].columns|
    ensures HomeOk(FloatTo(s, v, x, y, under), BETWEEN)
  {
    hide BonesOk, BonesOf, StackOk, HomeOk, ChangeWorkspace, FindColumn;
    var s1 := WithTable(s, Table(s)[v := Table(s)[v].Move(x, y)]);
    PuttingKeeps(s, v, Table(s)[v].Move(x, y));
    MovedAsideHome(s, v, x, y);
    var j := WorkspaceOn(s1.workspaces, under);
    if j < |s1.workspaces| {
      ChangingWorkspaceHome(s1, v, j);
    }
  }

  lemma MovedAsideHome(s: State, v: ViewId, x: int, y: int)
    requires Inv(s) && IsMappedView(s, v) && HomeOk(s, BETWEEN)
    requires FindColumn(s.workspaces[Home(s, v)].columns, v) == |s.workspaces[Home(s, v)].columns|
    ensures HomeOk(WithTable(s, Table(s)[v := Table(s)[v].Move(x, y)]), BETWEEN)
  {
    hide BonesOk, BonesOf, StackOk, TaskOrder, Leads, DisplayedIn, Lively, FindColumn;
    var t := WithTable(s, Table(s)[v := Table(s)[v].Move(x, y)]);
    PuttingKeeps(s, v, Table(s)[v].Move(x, y));
    if Displayed(s, v) {
      DisplayedTakesPart(s, v);
    }
    PlacesLead(s.screen, t.screen, BETWEEN, {v});
    SameTasks(s.screen, t.screen, BETWEEN, s.env.now);
    SameNewcomer(BonesOf(s), v);
    HomeByStaying(s, t, BETWEEN, {v});
  }

  lemma SameNewcomer(b: Bones, v: ViewId)
    requires !DisplayedIn(b, v)
    ensures NoNewcomers(b, b, -1, {v})
  {
  }

  lemma MovingHome(s: State, dx: int, dy: int, under: Option<OutputId>)
    requires Inv(s) && HomeOk(s, BETWEEN)
    ensures HomeOk(MoveFocused(s, dx, dy, under), BETWEEN)
  {
    hide BonesOk, BonesOf, StackOk, HomeOk, MoveTiled, FloatTo, FindColumn;
    var focused := FocusedView(s);
    if focused.Some? {
      FocusedIsLocated(s);
      var v := focused.value;
      var i := Home(s, v);
      if FindColumn(s.workspaces[i].columns, v) < |s.workspaces[i].columns| {
        MovingTiledHome(s, v, i, dx, dy);
      } else {
        FloatingToHome(s, v, Table(s)[v].x + dx, Table(s)[v].y + dy, under);
      }
    }
  }

  lemma AbsorbingHome(s: State, i: nat, v: ViewId, c: nat)
    requires Inv(s) && HomeOk(s, BETWEEN) && i < |s.workspaces| && v in Table(s)
    requires var cols := s.workspaces[i].columns;
             c < |cols| && FindColumn(cols, v) < |cols| && FindColumn(cols, v) != c
    ensures HomeOk(InWorkspace(s, i, InsertView(s.workspaces[i], s.screen, s.env, v, c)), BETWEEN)
  {
    hide BonesOk, BonesOf, StackOk, TaskOrder, Calm, Leads, TilesHomebound, Displayed, Lively, Layable, InsertView,
      FindColumn, Orderly, InsertIntoColumn, Without;
    var w := s.workspaces[i];
    var r := InsertView(w, s.screen, s.env, v, c);
    var t := InWorkspace(s, i, r);
    EaseBetween(s);
    LayableAt(s, i);
    InsertingLeads(w, s.screen, s.env, BETWEEN, v, c);
    AbsorbingKeeps(s, i, v, c);
    InsertBones(w, s.screen, s.env, v, c);
    InWorkspaceBones(s, i, r);
    BonesApart(s);
    SuspensionAt(s, i);
    RelistedNewcomer(BonesOf(s), BonesOf(t), i, Skeleton(r.0));
    HomeByLayout(s, t, BETWEEN, i, {});
  }

  lemma SuspensionAt(s: State, i: nat)
    requires i < |s.workspaces|
    ensures i < |BonesOf(s).ws| && BonesOf(s).ws[i].suspendAnimations == s.workspaces[i].suspendAnimations
  {
  }

  lemma InsertingHome(s: State)
    requires Inv(s) && HomeOk(s, BETWEEN)
    ensures HomeOk(InsertFocused(s), BETWEEN)
  {
    hide Inv, HomeOk, InsertView, FindColumn;
    if InsertFocused(s) != s {
      var v := FocusedView(s).value;
      var i := Home(s, v);
      var cols := s.workspaces[i].columns;
      AbsorbingHome(s, i, Absorbed(cols, Table(s), v).value, FindColumn(cols, v));
    }
  }

  lemma PoppedHome(s: State, i: nat, c: nat)
    requires Inv(s) && HomeOk(s, BETWEEN) && i < |s.workspaces| && c < |s.workspaces[i].columns|
    ensures HomeOk(InWorkspace(s, i, PopColumn(s.workspaces[i], s.screen, s.env, c)), BETWEEN)
  {
    hide BonesOk, BonesOf, StackOk, TaskOrder, Calm, Leads, TilesHomebound, Displayed, Lively, Layable, PopColumn,
      Orderly, WithView, WithoutView;
    var w := s.workspaces[i];
    var r := PopColumn(w, s.screen, s.env, c);
    var t := InWorkspace(s, i, r);
    if r == (w, s.screen) {
      assert t == s;
    } else {
      EaseBetween(s);
      LayableAt(s, i);
      PoppingLeads(w, s.screen, s.env, BETWEEN, c);
      PoppingKeepsInv(s, i, c);
      PopBones(w, s.screen, s.env, c);
      InWorkspaceBones(s, i, r);
      BonesApart(s);
      SuspensionAt(s, i);
      PoppedSuspension(w, s.screen, s.env, c);
      RelistedNewcomer(BonesOf(s), BonesOf(t), i, Skeleton(r.0));
      HomeByLayout(s, t, BETWEEN, i, {});
    }
  }

  lemma PoppedSuspension(w: WorkspaceState, s: Screen, env: Env, c: nat)
    requires c < |w.columns|
    ensures PopColumn(w, s, env, c).0.suspendAnimations == w.suspendAnimations
  {
    hide Arrange, RemoveView, AddColumn;
  }

  lemma PoppingHome(s: State)
    requires Inv(s) && HomeOk(s, BETWEEN)
    ensures HomeOk(PopFocused(s), BETWEEN)
  {
    hide BonesOk, BonesOf, StackOk, HomeOk, PopColumn, FindColumn, Show;
    if PopFocused(s) != s {
      var v := FocusedView(s).value;
      var i := Home(s, v);
      var c := FindColumn(s.workspaces[i].columns, v);
      PoppedHome(s, i, c);
      PoppingKeepsInv(s, i, c);
      ShowingHome(InWorkspace(s, i, PopColumn(s.workspaces[i], s.screen, s.env, c)), v, false);
    }
  }

  lemma CyclingHome(s: State)
    requires Inv(s) && HomeOk(s, BETWEEN)
    ensures HomeOk(FocusCycle(s), BETWEEN)
  {
    hide BonesOk, BonesOf, StackOk, HomeOk, FocusView, FocusedWorkspace;
    var i := FocusedWorkspace(s);
    if i.Some? && s.seat.focusStack != [] {
      var next := FirstOf(s.seat.focusStack[1..], Table(s), s.workspaces[i.value].index, None);
      if next.Some? {
        FocusingHome(s, next, false);
        SeatHome(FocusView(s, next, false), FocusCycle(s), BETWEEN);
      }
    }
  }

  lemma FocusingColumnHome(s: State, i: nat, c: nat)
    requires Inv(s) && HomeOk(s, BETWEEN) && i < |s.workspaces| && c < |s.workspaces[i].columns|
    ensures HomeOk(FocusColumn(s, i, c), BETWEEN)
  {
    hide BonesOk, BonesOf, StackOk, HomeOk, FocusView;
    FocusingHome(s, FirstTiled(s.seat.focusStack, s.workspaces[i].columns[c], Table(s)), false);
  }

  // ---------------------------------------------------------------------------------------
  // Layers and exclusive clients
  // ---------------------------------------------------------------------------------------

  lemma UnmappingLayerHome(s: State, layer: LayerId)
    requires Inv(s) && HomeOk(s, BETWEEN) && layer in s.layers
    ensures HomeOk(UnmapLayer(s, layer), BETWEEN)
  {
    hide BonesOk, BonesOf, StackOk, HomeOk, FocusLayer;
    FocusingLayerHome(s, None);
    var s1 := if s.seat.focusedLayer == Some(layer) then FocusLayer(s, None) else s;
    SeatHome(s1, UnmapLayer(s, layer), BETWEEN);
  }

  lemma SettingExclusiveClientHome(s: State, client: Option<nat>)
    requires Inv(s) && HomeOk(s, BETWEEN)
    ensures HomeOk(SetExclusiveClient(s, client), BETWEEN)
  {
    hide Inv, BonesOk, BonesOf, HomeOk, FocusLayer, FocusView;
    if client.Some? {
      BonesByInv(s);
      FocusingLayerHome(s, None);
      FocusingLayerKeeps(s, None);
      var s1 := ReleasedLayer(s, client.value);
      BonesByInv(s1);
      FocusingHome(s1, None, false);
      SeatHome(ReleasedView(s1, client.value), SetExclusiveClient(s, client), BETWEEN);
    } else {
      SeatHome(s, SetExclusiveClient(s, client), BETWEEN);
    }
  }

  lemma BonesByInv(s: State)
    requires Inv(s)
    ensures BonesOk(BonesOf(s))
  {
    hide BonesOk;
  }

  // ---------------------------------------------------------------------------------------
  // The pointer
  // ---------------------------------------------------------------------------------------

  lemma HaltingOneLeads(a: Screen, b: Screen, v: ViewId, env: Env)
    requires TaskOrder(a, BETWEEN, env.now)
    requires b == a.(views := if HasTask(a.tasks, v) && v in a.views then a.views[v := Warped(a.views[v])] else a.views,
                     tasks := Cancelled(a.tasks, v))
    ensures TaskOrder(b, BETWEEN, env.now) && Leads(a, b, BETWEEN, {})
  {
    hide EndOfTick, Cancelled, TaskOrder;
    CancellingLeads(a, b, v, env);
    BetweenTicks(a, BETWEEN, v); BetweenTicks(b, BETWEEN, v);
    LastLiveCancelled(a.tasks, v, v);
    if !HasTask(a.tasks, v) {
      NoLiveTask(a.tasks, v);
    }
  }

  lemma {:induction false} HaltingLeads(s: Screen, ids: seq<ViewId>, env: Env)
    requires TaskOrder(s, BETWEEN, env.now)
    ensures TaskOrder(Halted(s, ids), BETWEEN, env.now) && Leads(s, Halted(s, ids), BETWEEN, {})
  {
    hide TaskOrder, Leads, Cancelled, HasTask;
    if ids == [] {
      LeadsItself(s, BETWEEN, {});
    } else {
      var front := Halted(s, ids[..|ids| - 1]);
      HaltingLeads(s, ids[..|ids| - 1], env);
      HaltingOneLeads(front, Halted(s, ids), ids[|ids| - 1], env);
      LeadsOn(s, front, Halted(s, ids), BETWEEN, {});
    }
  }

  /** Tiles whose animations are cancelled are put where they should be. */
  lemma TakingHoldHome(s: State, v: ViewId)
    requires Inv(s) && Located(s, v) && HomeOk(s, BETWEEN) && NoneCarriesDeparture(s.screen.tasks, HaltedBy(s, v))
    ensures HomeOk(TakeHold(s, v), BETWEEN)
  {
    hide Placement, FullscreenOk, Assigned, Balanced, BonesOf, StackOk, Pending, AllCancelled, Leads, TaskOrder,
      Halted, HaltedBy, NoneCarriesDeparture, Displayed, Lively;
    var t := TakeHold(s, v);
    HeldBones(s, v);
    BonesApart(s);
    DeparturesOf(BonesOf(s), BonesOf(t), s.screen.tasks, HaltedBy(s, v));
    HaltingLeads(s.screen, HaltedBy(s, v), s.env);
    HeldNewcomer(BonesOf(s), BonesOf(t));
    HomeByStaying(s, t, BETWEEN, {});
  }

  lemma HeldNewcomer(b: Bones, b': Bones)
    requires b' == b.(pending := b'.pending) && forall p: nat :: Leaving(b, p) ==> Leaving(b', p)
    ensures NoNewcomers(b, b', -1, {}) && Lively(b) == Lively(b')
  {
  }

  // ---------------------------------------------------------------------------------------
  // Scrolling
  // ---------------------------------------------------------------------------------------

  lemma ScrolledBones(s: State, i: nat, scroll: int, animate: bool)
    requires i < |s.workspaces|
    ensures BonesOf(ScrollTo(s, i, scroll, animate)) == BonesOf(s)
  {
    hide Arrange;
    var t := ScrollTo(s, i, scroll, animate);
    ArrangeKeeps(t.workspaces[i], s.screen, s.env, animate);
    assert BonesOf(t).ws == BonesOf(s).ws;
  }

  lemma ScrollingHome(s: State, i: nat, scroll: int)
    requires Inv(s) && HomeOk(s, BETWEEN) && i < |s.workspaces|
    ensures HomeOk(ScrollTo(s, i, scroll, true), BETWEEN)
  {
    hide BonesOk, BonesOf, StackOk, TaskOrder, Calm, Leads, TilesHomebound, Displayed, Lively, Layable, Arrange,
      Orderly;
    var t := ScrollTo(s, i, scroll, true);
    EaseBetween(s);
    LayableAt(s, i);
    ScrolledIsOrderly(s.workspaces[i], t.workspaces[i], Table(s));
    ArrangingLeads(t.workspaces[i], s.screen, s.env, BETWEEN);
    ScrolledBones(s, i, scroll, true);
    HomeByHeads(s, t, BETWEEN);
  }

  lemma ScrolledIsOrderly(w: WorkspaceState, w': WorkspaceState, views: ViewTable)
    requires Orderly(w, views) && w' == w.(scrollX := w'.scrollX)
    ensures Orderly(w', views)
  {
    hide Distinct;
  }

  /** Whatever still moves a displayed tile of workspace i moves it to where it is put now. */
  ghost predicate Lands(s: State, t: State, i: nat)
  {
    forall v | Displayed(s, v) && Table(s)[v].workspaceId == i && v in Table(t) ::
      var last := LastLive(s.screen.tasks, v);
      last == None || AimsAt(last, Table(t)[v])
  }

  /** Tiles that are put down without animation are home, with nothing that leads them away, exactly when what still
      moves them moves them there. */
  lemma PuttingDownExactlyWhen(s: State, i: nat, scroll: int)
    requires Inv(s) && HomeOk(s, BETWEEN) && i < |s.workspaces|
    ensures var t := ScrollTo(s, i, scroll, false);
            HomeOk(t, BETWEEN) <==> Lands(s, t, i)
  {
    hide BonesOk, BonesOf, StackOk, TaskOrder, Arrange, Lively, DisplayedIn, LastLive;
    var t := ScrollTo(s, i, scroll, false);
    ScrolledBones(s, i, scroll, false);
    UnanimatedTasks(s, i, scroll);
    SameTasks(s.screen, t.screen, BETWEEN, s.env.now);
    forall v | Displayed(s, v)
      ensures v in Table(s) && v in Table(t)
              && if Table(s)[v].workspaceId != i then Homebound(t.screen, BETWEEN, v)
                 else (Homebound(t.screen, BETWEEN, v) <==>
                       var last := LastLive(s.screen.tasks, v);
                       last == None || AimsAt(last, Table(t)[v]))
    {
      PutDown(s, i, scroll, v);
    }
  }

  lemma UnanimatedTasks(s: State, i: nat, scroll: int)
    requires i < |s.workspaces|
    ensures ScrollTo(s, i, scroll, false).screen.tasks == s.screen.tasks
  {
    hide LayoutTasks, ArrangedViews;
  }

  lemma PutDown(s: State, i: nat, scroll: int, v: ViewId)
    requires Inv(s) && HomeOk(s, BETWEEN) && i < |s.workspaces| && Displayed(s, v)
    ensures var t := ScrollTo(s, i, scroll, false);
            && Located(s, v) && v in Table(t)
            && if Home(s, v) != i then Homebound(t.screen, BETWEEN, v)
               else (Homebound(t.screen, BETWEEN, v) <==>
                     var last := LastLive(s.screen.tasks, v);
                     last == None || AimsAt(last, Table(t)[v]))
  {
    hide BonesOk, BonesOf, StackOk, TaskOrder, Lively, DisplayedIn, LastLive, ArrangedViews, LayoutTasks, EndOfTick,
      FindColumn;
    var t := ScrollTo(s, i, scroll, false);
    DisplayedTakesPart(s, v);
    UnanimatedTasks(s, i, scroll);
    BetweenTicks(s.screen, BETWEEN, v); BetweenTicks(t.screen, BETWEEN, v);
    if Home(s, v) == i {
      var w := t.workspaces[i];
      UnanimatedAtRest(w, Table(s), s.env.outputs[w.output.value], s.env.gap, v);
    } else {
      ElsewhereUntouched(s, i, v);
      LeftAlone(t.workspaces[i], s.screen, s.env, v);
      SameSettling(QueueOf(s.screen, BETWEEN), QueueOf(t.screen, BETWEEN), v);
    }
  }

  lemma ElsewhereUntouched(s: State, i: nat, v: ViewId)
    requires BonesOk(BonesOf(s)) && i < |s.workspaces| && Displayed(s, v) && Table(s)[v].workspaceId != i
    ensures Count(s.workspaces[i].columns, v) == 0 && s.workspaces[i].fullscreen != Some(v)
            && Occurrences(s.workspaces[i], v) == 0
            && FindColumn(s.workspaces[i].columns, v) == |s.workspaces[i].columns|
  {
    hide Assigned, Balanced, Count, FindColumn;
    DisplayedIsNormal(s, v);
    PlacedIsDistinct(s, i);
    Runs.DueMeans(s, i, v);
    FullscreenAt(s, i);
    FindColumnIsMembership(s.workspaces[i].columns, v);
  }

  lemma LeftAlone(w: WorkspaceState, s: Screen, env: Env, v: ViewId)
    requires v in s.views && w.fullscreen != Some(v) && FindColumn(w.columns, v) == |w.columns|
    ensures v in Arrange(w, s, env, false).views && Arrange(w, s, env, false).views[v] == s.views[v]
  {
    hide LayoutTasks;
  }

  lemma RepositioningHome(s: State, v: ViewId, x: int, y: int, under: Option<OutputId>)
    requires Inv(s) && IsMappedView(s, v) && HomeOk(s, BETWEEN)
    ensures HomeOk(Reposition(s, v, x, y, true, under), BETWEEN)
  {
    hide Inv, HomeOk, ScrollTo, FloatTo, FindColumn;
    var i := Home(s, v);
    if FindColumn(s.workspaces[i].columns, v) < |s.workspaces[i].columns| {
      ScrollingHome(s, i, s.workspaces[i].scrollX + (Table(s)[v].x - x));
    } else {
      FloatingToHome(s, v, x, y, under);
    }
  }

  lemma {:induction false} LastLiveAllCancelled(tasks: seq<Task>, ids: seq<ViewId>, u: ViewId)
    ensures LastLive(AllCancelled(tasks, ids), u) == if u in ids then None else LastLive(tasks, u)
  {
    hide Cancelled, LastLive;
    if ids == [] {
    } else {
      var front, v := ids[..|ids| - 1], ids[|ids| - 1];
      LastLiveAllCancelled(tasks, front, u);
      LastLiveCancelled(AllCancelled(tasks, front), v, u);
      assert ids == front + [v];
    }
  }

  /** That is why the pointer cancels animations when it takes hold of a tile: however it is dragged then, all tiles
      around it land where they are put. */
  lemma HeldTilesLand(s: State, v: ViewId, scroll: int)
    requires Inv(s) && IsMappedView(s, v) && v !in s.workspaces[Home(s, v)].floating
    requires NoneCarriesDeparture(s.screen.tasks, HaltedBy(s, v))
    ensures var t := TakeHold(s, v);
            Home(s, v) < |t.workspaces| && Lands(t, ScrollTo(t, Home(s, v), scroll, false), Home(s, v))
  {
    hide BonesOk, BonesOf, StackOk, Halted, AllCancelled, LastLive, NoneCarriesDeparture, TiledViews, DisplayedIn;
    var t := TakeHold(s, v);
    var i := Home(s, v);
    TakingHoldIsSafeExactlyWhen(s, v);
    BonesByInv(t);
    HaltingCancels(s.screen, HaltedBy(s, v));
    forall u | Displayed(t, u) && u in Table(t) && Table(t)[u].workspaceId == i
      ensures LastLive(t.screen.tasks, u) == None
    {
      DisplayedTakesPart(t, u);
      TiledIsListed(t.workspaces[i].columns, u);
      LastLiveAllCancelled(s.screen.tasks, HaltedBy(s, v), u);
    }
  }

  lemma TiledIsListed(cols: seq<Column>, v: ViewId)
    requires FindColumn(cols, v) < |cols|
    ensures v in TiledViews(cols, |cols|)
  {
    hide FindColumn, Count, TiledViews;
    FindColumnIsMembership(cols, v);
    TiledViewsCount(cols, v, |cols|);
    assert cols[..|cols|] == cols;
    assert v in multiset(TiledViews(cols, |cols|));
  }

  lemma SwipingHome(s: State, i: nat, scroll: int, ended: bool, view: Option<ViewId>)
    requires Inv(s) && HomeOk(s, BETWEEN) && i < |s.workspaces| && Lands(s, ScrollTo(s, i, scroll, false), i)
    ensures HomeOk(SwipeFrame(s, i, scroll, ended, view), BETWEEN)
  {
    hide Inv, BonesOk, BonesOf, HomeOk, ScrollTo, FocusView, Lands;
    PuttingDownExactlyWhen(s, i, scroll);
    ScrollingKeeps(s, i, scroll, false);
    BonesByInv(ScrollTo(s, i, scroll, false));
    FocusingHome(ScrollTo(s, i, scroll, false), view, false);
  }

  /** Dragging without animation. */
  lemma DraggingHome(s: State, v: ViewId, x: int, y: int, under: Option<OutputId>)
    requires Inv(s) && IsMappedView(s, v) && HomeOk(s, BETWEEN)
    requires FindColumn(s.workspaces[Home(s, v)].columns, v) < |s.workspaces[Home(s, v)].columns| ==>
               Lands(s, Reposition(s, v, x, y, false, under), Home(s, v))
    ensures HomeOk(Reposition(s, v, x, y, false, under), BETWEEN)
  {
    hide Inv, HomeOk, ScrollTo, FloatTo, FindColumn, Lands;
    var i := Home(s, v);
    if FindColumn(s.workspaces[i].columns, v) < |s.workspaces[i].columns| {
      PuttingDownExactlyWhen(s, i, s.workspaces[i].scrollX + (Table(s)[v].x - x));
    } else {
      FloatingToHome(s, v, x, y, under);
    }
  }

  // ---------------------------------------------------------------------------------------
  // Outputs
  // ---------------------------------------------------------------------------------------

  /** Outputs and time may change. */
  lemma EnvHome(s: State, t: State, m: Moment)
    requires HomeOk(s, m) && t == s.(env := t.env) && s.env.now <= t.env.now
    ensures HomeOk(t, m)
  {
    hide InOrder, EndOfTick, Homebound;
    var b, b' := BonesOf(s), BonesOf(t);
    assert b'.ws == b.ws && b'.cores == b.cores && b'.pending == b.pending;
    forall v | Displayed(t, v)
      ensures Homebound(t.screen, m, v)
    {
      assert Displayed(s, v);
    }
  }

  lemma ChangingUsableAreaHome(s: State, o: OutputId, info: OutputInfo)
    requires Inv(s) && o in s.env.outputs && HomeOk(s, BETWEEN)
    ensures HomeOk(ChangeUsableArea(s, o, info), BETWEEN)
  {
    hide BonesOf, BonesOk, Assigned, StackOk, HomeOk, ArrangeIn, FitView;
    var s1 := s.(env := s.env.(outputs := s.env.outputs[o := info]));
    SameOutputsKeep(s, s1);
    HasWorkspace(s, o);
    EnvHome(s, s1, BETWEEN);
    var i := WorkspaceOn(s1.workspaces, Some(o));
    ArrangingHome(s1, i);
    var focused := FocusedView(s1);
    if focused.Some? {
      FittingHome(s1, i, focused.value, false);
    }
  }

  lemma HasWorkspace(s: State, o: OutputId)
    requires Inv(s) && o in s.env.outputs
    ensures WorkspaceOn(s.workspaces, Some(o)) < |s.workspaces|
  {
    hide BonesOf, Placement, FullscreenOk, Assigned, Balanced, StackOk;
    OutputHasWorkspace(s, o);
  }

  lemma ArrangingAtHome(s: State, i: nat)
    requires Inv(s) && HomeOk(s, BETWEEN)
    ensures HomeOk(ArrangeAt(s, i), BETWEEN)
  {
    hide Inv, BonesOk, BonesOf, HomeOk, ArrangeIn;
    BonesByInv(s);
    if i < |s.workspaces| {
      ArrangingHome(s, i);
    }
  }

  lemma ResizingOutputHome(s: State, o: OutputId, info: OutputInfo)
    requires Inv(s) && o in s.env.outputs && HomeOk(s, BETWEEN)
    ensures HomeOk(ResizeOutput(s, o, info), BETWEEN)
  {
    hide Inv, HomeOk, ChangeUsableArea, ArrangeAt;
    ChangingUsableAreaKeeps(s, o, info);
    ChangingUsableAreaHome(s, o, info);
    var s1 := ChangeUsableArea(s, o, info);
    ArrangingAtHome(s1, WorkspaceOn(s1.workspaces, Some(o)));
  }

  /** Telling clients about outputs moves nobody. */
  lemma NotifyingLeads(s: Screen, ids: seq<ViewId>, before: Option<OutputId>, after: Option<OutputId>, m: Moment)
    requires InTick(s, m)
    ensures var t := s.(views := Notified(s.views, ids, before, after));
            && Leads(s, t, m, {}) && Leads(t, s, m, {})
  {
    hide Notified;
    var t := s.(views := Notified(s.views, ids, before, after));
    forall v | v in s.views
      ensures SamePlace(s.views[v], t.views[v]) && IsNormal(s.views, v) == IsNormal(t.views, v)
    {
      NotifiedStays(s.views, ids, before, after, v);
    }
    PlacesLead(s, t, m, {});
    PlacesLead(t, s, m, {});
  }

  lemma DestroyingOutputHome(s: State, o: OutputId)
    requires Inv(s) && HomeOk(s, BETWEEN)
    ensures HomeOk(DestroyOutput(s, o), BETWEEN)
  {
    hide BonesOk, BonesOf, StackOk, HomeOk, Deactivate, WorkspaceOn;
    var i := WorkspaceOn(s.workspaces, Some(o));
    var s1 := if i == |s.workspaces| then s else InWorkspace(s, i, Deactivate(s.workspaces[i], s.screen));
    if i < |s.workspaces| {
      PlacedByBones(s);
      DeactivatedHome(s, i, BETWEEN);
    }
    var s2 := s1.(seat := s1.seat.(cursor := s1.seat.cursor - {o}));
    SeatHome(s1, s2, BETWEEN);
    EnvHome(s2, DestroyOutput(s, o), BETWEEN);
  }

  lemma DeactivatedHome(s: State, i: nat, m: Moment)
    requires Placement(BonesOf(s)) && HomeOk(s, m) && i < |s.workspaces|
    ensures HomeOk(InWorkspace(s, i, Deactivate(s.workspaces[i], s.screen)), m)
  {
    hide Placement, BonesOf, TaskOrder, Leads, Notified, AllViews, Displayed, Lively, ToldCores;
    var t := InWorkspace(s, i, Deactivate(s.workspaces[i], s.screen));
    var w := s.workspaces[i];
    DeactivateBones(s, i);
    OrderMeans(s.screen, m, s.env.now);
    NotifyingLeads(s.screen, AllViews(w), w.output, None, m);
    LeadsItself(s.screen, m, {});
    SameTasks(s.screen, t.screen, m, s.env.now);
    BonesApart(s);
    SwitchedOffNewcomer(BonesOf(s), i);
    ItselfNewcomer(BonesOf(s));
    HomeByStaying(s, t, m, {});
  }

  lemma OrderMeans(s: Screen, m: Moment, now: Time)
    requires TaskOrder(s, m, now)
    ensures InTick(s, m)
  {
  }

  lemma SwitchedOffNewcomer(b: Bones, i: nat)
    requires i < |b.ws|
    ensures NoNewcomers(b, Switched(b, i, None), -1, {}) && (Lively(b) ==> Lively(Switched(b, i, None)))
  {
  }

  lemma ItselfNewcomer(b: Bones)
    ensures NoNewcomers(b, b, -1, {})
  {
  }

  /** v is a normal tile of workspace i. */
  predicate TileIn(s: State, i: int, v: ViewId)
  {
    IsNormal(Table(s), v) && Located(s, v) && Home(s, v) == i && v !in s.workspaces[i].floating
  }

  /** A workspace that gets a new output is not laid out then: its tiles are home exactly when they were so already. */
  lemma AddingOutputHomeExactlyWhen(s: State, o: OutputId, info: OutputInfo)
    requires Inv(s) && o !in s.env.outputs && HomeOk(s, BETWEEN)
    ensures HomeOk(AddOutput(s, o, info), BETWEEN) <==>
            forall v | TileIn(s, WorkspaceOn(s.workspaces, None), v) :: Homebound(s.screen, BETWEEN, v)
  {
    hide BonesOk, BonesOf, StackOk, HomeOk, Activate, WithFreeWorkspace, AddOutput, WorkspaceOn, Located;
    var i := WorkspaceOn(s.workspaces, None);
    var t := WithFreeWorkspace(s, o, info);
    FreeWorkspaceHome(s, o, info);
    FreeWorkspaceBones(s, o, info);
    PlacedWithFree(s, o, info);
    OutputAt(t, i);
    ActivatedHomeExactlyWhen(t, i, o);
    forall v
      ensures TileIn(s, i, v) == TileIn(t, i, v)
    {
      FreeWorkspaceTiles(s, o, info, v);
    }
    FreeWorkspaceScreen(s, o, info);
  }

  lemma FreeWorkspaceScreen(s: State, o: OutputId, info: OutputInfo)
    ensures WithFreeWorkspace(s, o, info).screen == s.screen
  {
  }

  lemma FreeWorkspaceTiles(s: State, o: OutputId, info: OutputInfo, v: ViewId)
    requires Inv(s)
    ensures TileIn(s, WorkspaceOn(s.workspaces, None), v) == TileIn(WithFreeWorkspace(s, o, info),
                                                                     WorkspaceOn(s.workspaces, None), v)
  {
    hide BonesOf, FullscreenOk, Assigned, Balanced, StackOk, Occurrences, WorkspaceOn;
    if IsNormal(Table(s), v) {
      MappedIsLocated(s, v);
    }
  }

  lemma PlacedWithFree(s: State, o: OutputId, info: OutputInfo)
    requires BonesOk(BonesOf(s))
    ensures Placement(BonesOf(WithFreeWorkspace(s, o, info))) && PendingOk(BonesOf(WithFreeWorkspace(s, o, info)))
  {
    hide FullscreenOk, Balanced, BonesOf, WithFreeWorkspace, WorkspaceOn, Occurrences;
    FreeWorkspaceBones(s, o, info);
    var b := BonesOf(WithFreeWorkspace(s, o, info)).(outputs := BonesOf(s).outputs);
    OutputsAside(b, BonesOf(WithFreeWorkspace(s, o, info)).outputs, b.pending);
  }

  lemma FreeWorkspaceHome(s: State, o: OutputId, info: OutputInfo)
    requires HomeOk(s, BETWEEN)
    ensures HomeOk(WithFreeWorkspace(s, o, info), BETWEEN)
  {
    hide TaskOrder, Leads, Homebound, WorkspaceOn, Pending;
    var t := WithFreeWorkspace(s, o, info);
    LeadsItself(s.screen, BETWEEN, {});
    var b, b' := BonesOf(s), BonesOf(t);
    assert b'.cores == b.cores && b'.pending == b.pending;
    assert b'.ws == b.ws || b'.ws == b.ws + [EmptyWorkspace(|b.ws|)];
    HomeByStaying(s, t, BETWEEN, {});
  }

  lemma ActivatedHomeExactlyWhen(s: State, i: nat, o: OutputId)
    requires Placement(BonesOf(s)) && PendingOk(BonesOf(s)) && HomeOk(s, BETWEEN)
    requires i < |s.workspaces| && s.workspaces[i].output == None
    ensures HomeOk(InWorkspace(s, i, Activate(s.workspaces[i], s.screen, o)), BETWEEN) <==>
            forall v | TileIn(s, i, v) :: Homebound(s.screen, BETWEEN, v)
  {
    hide Placement, BonesOf, TaskOrder, Leads, Notified, AllViews, Lively, ToldCores, Homebound, PendingOk;
    var t := InWorkspace(s, i, Activate(s.workspaces[i], s.screen, o));
    var w := s.workspaces[i];
    ActivateBones(s, i, o);
    OrderMeans(s.screen, BETWEEN, s.env.now);
    NotifyingLeads(s.screen, AllViews(w), w.output, Some(o), BETWEEN);
    SameTasks(s.screen, t.screen, BETWEEN, s.env.now);
    BonesApart(s);
    OutputAt(s, i);
    SwitchedOn(s, i, o);
    forall v
      ensures IsNormal(Table(s), v) ==> Homebound(s.screen, BETWEEN, v) == Homebound(t.screen, BETWEEN, v)
    {
      BothWays(s.screen, t.screen, BETWEEN, v);
    }
  }

  lemma BothWays(a: Screen, b: Screen, m: Moment, v: ViewId)
    requires Leads(a, b, m, {}) && Leads(b, a, m, {})
    ensures IsNormal(a.views, v) ==> Homebound(a, m, v) == Homebound(b, m, v)
  {
    hide Homebound, IsNormal;
  }

  /** Who is displayed when workspace i gets an output. */
  lemma SwitchedOn(s: State, i: nat, o: OutputId)
    requires PendingOk(BonesOf(s)) && i < |s.workspaces| && s.workspaces[i].output == None && i < |BonesOf(s).ws|
    ensures var b' := Switched(BonesOf(s), i, Some(o));
            && Lively(b') == Lively(BonesOf(s))
            && forall v :: DisplayedIn(b', v) <==> TileIn(s, i, v) || Displayed(s, v)
  {
    hide BonesOf, IsNormal, Lively, ToldCores;
    var b := BonesOf(s);
    var b' := Switched(b, i, Some(o));
    OutputAt(s, i);
    BonesApart(s);
    assert !Leaving(b, i);
    forall v
      ensures DisplayedIn(b', v) <==> TileIn(s, i, v) || Displayed(s, v)
    {
      NormalIsCore(s, v);
      ToldNormal(b, i, Some(o), v);
      if NormalCore(b, v) {
        CoresTell(s, v);
        FloatingIn(s, i);
      }
    }
    LivelyMeans(b, b');
  }

  lemma ToldNormal(b: Bones, i: nat, after: Option<OutputId>, v: ViewId)
    requires i < |b.ws|
    ensures NormalCore(b, v) == NormalCore(Switched(b, i, after), v)
    ensures NormalCore(b, v) ==> Switched(b, i, after).cores[v].workspaceId == b.cores[v].workspaceId
  {
  }

  lemma LivelyMeans(b: Bones, b': Bones)
    requires |b.ws| == |b'.ws|
    requires forall i | 0 <= i < |b.ws| :: b.ws[i].suspendAnimations == b'.ws[i].suspendAnimations
    ensures Lively(b) == Lively(b')
  {
    if Lively(b') {
      forall i | 0 <= i < |b.ws|
        ensures !b.ws[i].suspendAnimations
      {
        assert !b'.ws[i].suspendAnimations;
      }
    }
  }

  // ---------------------------------------------------------------------------------------
  // Switching workspaces
  // ---------------------------------------------------------------------------------------

  lemma AppendedOrder(a: Screen, b: Screen, more: seq<Task>, env: Env)
    requires TaskOrder(a, BETWEEN, env.now) && b.tasks == a.tasks + more
    requires BeginAt(more, env.now)
    ensures TaskOrder(b, BETWEEN, env.now)
  {
    hide EndOfTick;
    BetweenTicks(a, BETWEEN, 0); BetweenTicks(b, BETWEEN, 0);
    assert a.tasks + [] == a.tasks && a.tasks + more + [] == b.tasks;
    InOrderInserted(a.tasks, more, [], env.now);
  }

  /** All of them begin now. */
  ghost predicate BeginAt(tasks: seq<Task>, now: Time)
  {
    forall i | 0 <= i < |tasks| :: tasks[i].begin == now
  }

  lemma {:induction false} SlideTasksBegin(views: ViewTable, ids: seq<ViewId>, dy: int, now: Time, callback: Callback)
    ensures BeginAt(SlideTasks(views, ids, dy, now, callback), now)
  {
    if ids == [] {
    } else {
      SlideTasksBegin(views, ids[..|ids| - 1], dy, now, Silent);
    }
  }

  lemma EnteredTasks(s: State, n: nat, p: nat)
    requires n < |s.workspaces| && p < |s.workspaces| && s.workspaces[p].output.Some?
    ensures Entered(s, n, p).screen.tasks == s.screen.tasks && Entered(s, n, p).env == s.env
            && |Entered(s, n, p).workspaces| == |s.workspaces|
  {
    hide Notified, AllViews, LayoutTasks, ArrangedViews;
  }

  lemma TakenOverOrder(s: State, n: nat, p: nat)
    requires n < |s.workspaces| && p < |s.workspaces| && s.workspaces[p].output.Some?
    requires TaskOrder(s.screen, BETWEEN, s.env.now)
    ensures TaskOrder(TakeOver(s, n, p).screen, BETWEEN, s.env.now) && TakeOver(s, n, p).env == s.env
  {
    hide TaskOrder, Sliding, SlideTasks, Entered, PutOff, Deactivate;
    var dy := SlideBy(s, n, p);
    var o := s.workspaces[p].output.value;
    EnteredTasks(s, n, p);
    var s2 := Entered(s, n, p);
    SameTasks(s.screen, s2.screen, BETWEEN, s.env.now);
    var s3 := SlideIn(s2, n, p, o, dy);
    var off := PutOff(s2.screen.views, Sliding(s2, n, p), dy);
    SlideTasksBegin(off, Sliding(s2, n, p), dy, s.env.now, ArrivalOf(n, o));
    AppendedOrder(s2.screen, s3.screen, SlideTasks(off, Sliding(s2, n, p), dy, s.env.now, ArrivalOf(n, o)), s.env);
    SlidOutOrder(s3, p, dy);
  }

  lemma SlidOutOrder(s: State, p: nat, dy: int)
    requires p < |s.workspaces| && TaskOrder(s.screen, BETWEEN, s.env.now)
    ensures TaskOrder(SlideOut(s, p, dy).screen, BETWEEN, s.env.now) && SlideOut(s, p, dy).env == s.env
  {
    hide TaskOrder, Sliding, SlideTasks, Notified, AllViews;
    var t := SlideOut(s, p, dy);
    var ids := Sliding(s, p, p);
    if ids != [] {
      SlideTasksBegin(Table(s), ids, dy, s.env.now, DepartureOf(p));
      AppendedOrder(s.screen, t.screen, SlideTasks(Table(s), ids, dy, s.env.now, DepartureOf(p)), s.env);
    } else {
      SameTasks(s.screen, t.screen, BETWEEN, s.env.now);
    }
  }

  /** Views of other workspaces are left alone. */
  lemma EnteredElsewhere(s: State, n: nat, p: nat, v: ViewId)
    requires CanTakeOver(s, n, p) && Displayed(s, v) && Table(s)[v].workspaceId != n && Table(s)[v].workspaceId != p
    ensures var t := Entered(s, n, p);
            && v in Table(s) && v in Table(t) && SamePlace(Table(s)[v], Table(t)[v]) && t.screen.tasks == s.screen.tasks
            && |t.workspaces| == |s.workspaces|
            && Count(t.workspaces[n].columns, v) == 0 && Occurrences(t.workspaces[p], v) == 0
  {
    hide BonesOf, BonesOk, StackOk, LayoutTasks, Notified, AllViews, Count, FindColumn, DisplayedIn, ArrangedViews;
    DisplayedIsNormal(s, v);
    ElsewhereUntouched(s, n, v);
    ElsewhereUntouched(s, p, v);
    var w := s.workspaces[n];
    NotifiedStays(Table(s), AllViews(w), w.output, s.workspaces[p].output, v);
    EnteredTasks(s, n, p);
    var s1 := InWorkspace(s, n, Activate(w, s.screen, s.workspaces[p].output.value));
    LeftAlone(s1.workspaces[n], s1.screen, s1.env, v);
  }

  lemma SlidInElsewhere(s: State, n: nat, p: nat, o: OutputId, dy: int, v: ViewId)
    requires n < |s.workspaces| && p < |s.workspaces| && v in Table(s)
    requires Count(s.workspaces[n].columns, v) == 0 && Occurrences(s.workspaces[p], v) == 0
             && Settling(Table(s), s.screen.tasks, v)
    ensures var t := SlideIn(s, n, p, o, dy);
            && v in Table(t) && Settling(Table(t), t.screen.tasks, v) && t.workspaces == s.workspaces
  {
    hide NormalTiles, Count, IsNormal, LastLive;
    var ids := Sliding(s, n, p);
    SlidingCount(s, n, p, v);
    NotFloating(s.workspaces[p], v);
    PutOffOnce(Table(s), ids, dy, v);
    var off := PutOff(Table(s), ids, dy);
    SlideTaskFor(off, ids, dy, s.env.now, ArrivalOf(n, o), v);
    LastLiveConcat(s.screen.tasks, SlideTasks(off, ids, dy, s.env.now, ArrivalOf(n, o)), v);
  }

  lemma OthersSettle(s: State, n: nat, p: nat, v: ViewId)
    requires CanTakeOver(s, n, p) && Displayed(s, v) && Table(s)[v].workspaceId != n && Table(s)[v].workspaceId != p
    requires v in Table(s) && Settling(Table(s), s.screen.tasks, v)
    ensures var t := TakeOver(s, n, p);
            v in Table(t) && Settling(Table(t), t.screen.tasks, v)
  {
    hide Inv, Entered, SlideIn, SlideOut, Occurrences, Count, LastLive, DisplayedIn;
    var dy := SlideBy(s, n, p);
    var o := s.workspaces[p].output.value;
    var s2 := Entered(s, n, p);
    EnteredElsewhere(s, n, p, v);
    SlidInElsewhere(s2, n, p, o, dy, v);
    SlideOutOf(SlideIn(s2, n, p, o, dy), p, dy, v);
  }

  /** Who is displayed after a switch: the tiles of the workspace that came in, and those of workspaces that it does not
      concern. */
  ghost predicate SwitchedNewcomers(b: Bones, b': Bones, n: nat, p: nat)
  {
    forall v | DisplayedIn(b', v) ::
      && NormalCore(b, v) && b'.cores[v].workspaceId == b.cores[v].workspaceId != p
      && if b.cores[v].workspaceId == n then n < |b.ws| && v !in b.ws[n].floating else DisplayedIn(b, v)
  }

  lemma TakenOverNewcomers(b: Bones, b3: Bones, b': Bones, n: nat, p: nat)
    requires n < |b.ws| && p < |b.ws| && n != p && b.ws[p].output.Some?
    requires MayArrive(Switched(b, n, b.ws[p].output), b3, n, b.ws[p].output.value)
    requires b' == Switched(b3, p, None) || b' == b3.(pending := b3.pending + multiset{DepartureOf(p)})
    ensures SwitchedNewcomers(b, b', n, p) && (Lively(b) ==> Lively(b'))
  {
    hide ToldCores;
    var b2 := Switched(b, n, b.ws[p].output);
    forall v | DisplayedIn(b', v)
      ensures NormalCore(b, v) && b'.cores[v].workspaceId == b.cores[v].workspaceId != p
      ensures if b.cores[v].workspaceId == n then v !in b.ws[n].floating else DisplayedIn(b, v)
    {
      ToldNormal(b, n, b.ws[p].output, v);
      ToldNormal(b3, p, None, v);
      assert NormalCore(b3, v) == NormalCore(b2, v);
    }
  }

  lemma TakenOverHome(s: State, n: nat, p: nat)
    requires CanTakeOver(s, n, p) && s.workspaces[n].output.None? && HomeOk(s, BETWEEN)
    ensures HomeOk(TakeOver(s, n, p), BETWEEN)
  {
    hide BonesOf, BonesOk, StackOk, TaskOrder, Lively, DisplayedIn, TakeOver, SlidingIn, SlideOut, EndOfTick, Settling,
      PlacedAndTold, Intact, Sliding, MayArrive, ToldCores;
    var t := TakeOver(s, n, p);
    TakenOverOrder(s, n, p);
    TakeOverIs(s, n, p);
    SlidingInIs(s, n, p);
    var s3 := SlidingIn(s, n, p);
    ToldIsPlaced(BonesOf(s3));
    SlidingOutBones(s3, p, SlideBy(s, n, p));
    BonesApart(s);
    OutputAt(s, p);
    TakenOverNewcomers(BonesOf(s), BonesOf(s3), BonesOf(t), n, p);
    forall v | Displayed(t, v)
      ensures Homebound(t.screen, BETWEEN, v)
    {
      SettlesAfterSwitch(s, n, p, v);
      BetweenTicks(t.screen, BETWEEN, v);
    }
  }

  /** Normal views stay normal, and where they live. */
  lemma TakenOverNormal(s: State, n: nat, p: nat, v: ViewId)
    requires CanTakeOver(s, n, p) && s.workspaces[n].output.None? && NormalCore(BonesOf(s), v)
    ensures var b, b' := BonesOf(s), BonesOf(TakeOver(s, n, p));
            NormalCore(b', v) && b'.cores[v].workspaceId == b.cores[v].workspaceId
  {
    hide BonesOf, BonesOk, StackOk, TakeOver, SlidingIn, SlideOut, PlacedAndTold, Intact, Sliding, ToldCores;
    TakeOverIs(s, n, p);
    SlidingInIs(s, n, p);
    var s3 := SlidingIn(s, n, p);
    ToldIsPlaced(BonesOf(s3));
    SlidingOutBones(s3, p, SlideBy(s, n, p));
    BonesApart(s); BonesApart(s3);
    ToldNormal(BonesOf(s), n, s.workspaces[p].output, v);
    ToldNormal(BonesOf(s3), p, None, v);
  }

  lemma SettlesAfterSwitch(s: State, n: nat, p: nat, v: ViewId)
    requires CanTakeOver(s, n, p) && HomeOk(s, BETWEEN)
    requires SwitchedNewcomers(BonesOf(s), BonesOf(TakeOver(s, n, p)), n, p) && Displayed(TakeOver(s, n, p), v)
    ensures var t := TakeOver(s, n, p);
            v in Table(t) && Settling(Table(t), t.screen.tasks, v)
  {
    hide BonesOf, BonesOk, StackOk, TaskOrder, Lively, DisplayedIn, TakeOver, Settling, EndOfTick;
    NormalIsCore(s, v);
    CoresTell(s, v);
    if Table(s)[v].workspaceId == n {
      BonesApart(s);
      FloatingIn(s, n);
      SwitchSettles(s, n, p, v);
    } else {
      BetweenTicks(s.screen, BETWEEN, v);
      OthersSettle(s, n, p, v);
    }
  }

  lemma FocusingThereHome(s: State, n: nat, o: OutputId)
    requires BonesOk(BonesOf(s)) && HomeOk(s, BETWEEN) && n < |s.workspaces|
    ensures HomeOk(FocusThere(s, n, o), BETWEEN)
  {
    hide BonesOk, HomeOk, FocusView, Pending;
    var s1 := s.(seat := s.seat.(cursor := {o}));
    SeatHome(s, s1, BETWEEN);
    assert BonesOf(s1) == BonesOf(s);
    FocusingHome(s1, FirstOf(s1.seat.focusStack, Table(s1), s1.workspaces[n].index, None), false);
  }

  lemma SwitchingHome(s: State, n: nat)
    requires Inv(s) && HomeOk(s, BETWEEN) && CanSwitch(s, n)
    ensures HomeOk(SwitchTo(s, n), BETWEEN)
  {
    hide BonesOf, BonesOk, StackOk, HomeOk, TakeOver, FocusThere, FocusedWorkspace, Sliding, Entered, Leaving;
    var current := FocusedWorkspace(s);
    if current != Some(n) {
      if s.workspaces[n].output.Some? {
        FocusingThereHome(s, n, s.workspaces[n].output.value);
      } else {
        var t := TakeOver(s, n, current.value);
        TakenOverHome(s, n, current.value);
        TakingOverKeeps(s, n, current.value);
        FocusingThereHome(t, n, t.workspaces[n].output.value);
      }
    }
  }

  lemma SwitchCommandHome(s: State, n: nat)
    requires Inv(s) && HomeOk(s, BETWEEN) && (n < |s.workspaces| ==> CanSwitch(s, n))
    ensures HomeOk(SwitchCommand(s, n), BETWEEN)
  {
    hide Inv, HomeOk, SwitchTo, ArrangeAt, CanSwitch;
    if n < |s.workspaces| {
      SwitchingToKeeps(s, n);
      SwitchingHome(s, n);
      ArrangingAtHome(SwitchTo(s, n), n);
    }
  }

  lemma MoveToCommandHome(s: State, n: nat)
    requires Inv(s) && HomeOk(s, BETWEEN)
    ensures HomeOk(MoveToCommand(s, n), BETWEEN)
  {
    hide Inv, HomeOk, ChangeWorkspace, ArrangeAt;
    var focused := FocusedView(s);
    if n < |s.workspaces| && focused.Some? {
      FocusedIsLocated(s);
      ChangingWorkspaceKeeps(s, focused.value, n);
      ChangingWorkspaceHome(s, focused.value, n);
      ArrangingAtHome(ChangeWorkspace(s, focused.value, n), n);
    }
  }

  // ---------------------------------------------------------------------------------------
  // The timer
  // ---------------------------------------------------------------------------------------

  lemma BetweenIsBetween(s: State, m: Moment)
    requires m.due == 0 && m.duration > 0
    ensures HomeOk(s, m) <==> HomeOk(s, BETWEEN)
  {
    hide Displayed, Lively, EndOfTick, InOrder, BegunBy;
    forall v
      ensures Homebound(s.screen, m, v) == Homebound(s.screen, BETWEEN, v)
    {
      BetweenTicks(s.screen, m, v); BetweenTicks(s.screen, BETWEEN, v);
    }
    BetweenTicks(s.screen, m, 0); BetweenTicks(s.screen, BETWEEN, 0);
  }

  /** A tick begins: every task that is queued is due. */
  lemma TickStartsHome(s: State, m: Moment)
    requires HomeOk(s, BETWEEN) && m == Moment(|s.screen.tasks|, s.env.now, m.duration)
             && 0 < m.duration < MAX_DURATION
    ensures HomeOk(s, m)
  {
    hide Displayed, Lively, EndOfTick, Settling, Survivors, TickViews;
    BetweenTicks(s.screen, BETWEEN, 0);
    AllDue(s.screen, m);
    SurvivorsInOrder(s.screen.tasks, m.tick, m.duration);
    forall v | Homebound(s.screen, BETWEEN, v)
      ensures Homebound(s.screen, m, v)
    {
      StillSettling(s.screen, m, v);
    }
  }

  lemma AllDue(s: Screen, m: Moment)
    requires m.due == |s.tasks| && m.duration > 0
    ensures var end := EndOfTick(QueueOf(s, m), m.duration);
            && end.views == TickViews(s.views, s.tasks, m.tick, m.duration)
            && end.tasks == Survivors(s.tasks, m.tick, m.duration)
  {
    assert s.tasks[..|s.tasks|] == s.tasks;
    assert s.tasks[|s.tasks|..] == [];
  }

  lemma StillSettling(s: Screen, m: Moment, v: ViewId)
    requires m.due == |s.tasks| && 0 < m.duration < MAX_DURATION && InOrder(s.tasks) && BegunBy(s.tasks, m.tick)
    requires Homebound(s, BETWEEN, v)
    ensures Homebound(s, m, v)
  {
    hide EndOfTick, Survivors, TickViews, LastLive, IsFinished, InOrder, BegunBy;
    AllDue(s, m);
    BetweenTicks(s, BETWEEN, v);
    TickOutcome(QueueOf(s, m), m.tick, m.duration, v);
    TickPlace(s.views, s.tasks, m.tick, m.duration, v);
  }

  function OneLess(m: Moment): Moment
    requires m.due > 0
  {
    m.(due := m.due - 1)
  }

  /** Taking a task off the queue does not change how the tick ends. */
  lemma FrontTakenHome(s: State, m: Moment)
    requires m.due > 0 && m.tick == s.env.now && TaskOrder(s.screen, m, s.env.now)
    ensures s.screen.tasks != []
    ensures var t := FrontTaken(s, m.duration);
            && t.env == s.env && t.workspaces == s.workspaces && TaskOrder(t.screen, OneLess(m), s.env.now)
            && forall v :: Homebound(t.screen, OneLess(m), v) == Homebound(s.screen, m, v)
  {
    hide EndOfTick, InOrder, Settling, IsFinished, Animated;
    var q := QueueOf(s.screen, m);
    var t := FrontTaken(s, m.duration);
    TakingOneEndsAlike(q, m.duration);
    assert QueueOf(t.screen, OneLess(m)) == TakenOff(q, m.duration);
    TakenKeys(s, m);
  }

  lemma TakenKeys(s: State, m: Moment)
    requires m.due > 0 && InTick(s.screen, m)
    ensures s.screen.tasks != [] && Table(FrontTaken(s, m.duration)).Keys == Table(s).Keys
  {
    hide IsFinished, Animated;
  }

  lemma SilentHome(s: State, t: State, m: Moment, callback: Callback)
    requires HomeOk(s, m) && m.due > 0 && LosesJust(s, t, callback) && !callback.DepartureOf?
    requires TaskOrder(t.screen, OneLess(m), t.env.now)
    requires forall v :: Homebound(t.screen, OneLess(m), v) == Homebound(s.screen, m, v)
    ensures HomeOk(t, OneLess(m))
  {
    hide TaskOrder, Homebound, BonesOf, LosesJust, Lively;
    LosingBones(s, t, callback);
    SameDisplayed(BonesOf(s), BonesOf(t), callback);
  }

  lemma SameDisplayed(b: Bones, b': Bones, callback: Callback)
    requires b' == b.(pending := b'.pending) && !callback.DepartureOf?
    requires b.pending == b'.pending + if callback == Silent then multiset{} else multiset{callback}
    ensures Lively(b) == Lively(b') && forall v :: DisplayedIn(b', v) == DisplayedIn(b, v)
  {
    forall i: nat
      ensures Leaving(b, i) == Leaving(b', i)
    {
      assert b.pending[DepartureOf(i)] == b'.pending[DepartureOf(i)];
    }
  }

  /** The workspace that has slid out leaves its output; nobody is displayed in it any more. */
  lemma DepartedHome(s: State, t: State, m: Moment, p: nat)
    requires Inv(s) && HomeOk(s, m) && m.due > 0 && LosesJust(s, t, DepartureOf(p)) && p < |t.workspaces|
    requires TaskOrder(t.screen, OneLess(m), t.env.now)
    requires forall v :: Homebound(t.screen, OneLess(m), v) == Homebound(s.screen, m, v)
    ensures HomeOk(Done(t, DepartureOf(p)), OneLess(m))
  {
    hide BonesOk, StackOk, TaskOrder, Homebound, BonesOf, LosesJust, Lively, Deactivate, Leads, DisplayedIn, TasksKnown;
    var u := Done(t, DepartureOf(p));
    DepartedBones(s, t, p);
    DepartingLeads(t, OneLess(m), p);
    forall v | Displayed(u, v)
      ensures Homebound(u.screen, OneLess(m), v)
    {
      DisplayedIsNormal(s, v);
      LosingKeepsNormal(s, t, DepartureOf(p), v);
      LedHome(t.screen, u.screen, OneLess(m), v);
    }
  }

  lemma DepartedBones(s: State, t: State, p: nat)
    requires Inv(s) && LosesJust(s, t, DepartureOf(p)) && p < |t.workspaces|
    ensures var u := Done(t, DepartureOf(p));
            && (Lively(BonesOf(s)) ==> Lively(BonesOf(u))) && forall v | Displayed(u, v) :: Displayed(s, v)
  {
    hide BonesOk, StackOk, BonesOf, LosesJust, Lively, Deactivate, ToldCores, DisplayedIn, TasksKnown;
    LosingBones(s, t, DepartureOf(p));
    BonesByInv(s);
    PlacedByBones(s);
    ToldPlacement(BonesOf(s), BonesOf(t));
    DeactivateBones(t, p);
    OutputAt(t, p);
    BonesApart(s); BonesApart(t);
    DepartedNewcomer(BonesOf(s), BonesOf(t), BonesOf(Done(t, DepartureOf(p))), p);
  }

  lemma DepartingLeads(t: State, m: Moment, p: nat)
    requires TaskOrder(t.screen, m, t.env.now) && p < |t.workspaces|
    ensures var u := Done(t, DepartureOf(p));
            u.env == t.env && TaskOrder(u.screen, m, u.env.now) && Leads(t.screen, u.screen, m, {})
  {
    hide TaskOrder, Leads, Notified, AllViews;
    var w := t.workspaces[p];
    OrderMeans(t.screen, m, t.env.now);
    NotifyingLeads(t.screen, AllViews(w), w.output, None, m);
    LeadsItself(t.screen, m, {});
    SameTasks(t.screen, Done(t, DepartureOf(p)).screen, m, t.env.now);
  }

  lemma ToldPlacement(b: Bones, b': Bones)
    requires Placement(b) && b' == b.(pending := b'.pending)
    ensures Placement(b')
  {
    hide Occurrences;
  }

  lemma LedHome(a: Screen, b: Screen, m: Moment, v: ViewId)
    requires Leads(a, b, m, {}) && IsNormal(a.views, v) && Homebound(a, m, v)
    ensures Homebound(b, m, v)
  {
    hide Homebound, IsNormal;
  }

  lemma LosingKeepsNormal(s: State, t: State, callback: Callback, v: ViewId)
    requires LosesJust(s, t, callback)
    ensures IsNormal(Table(t), v) == IsNormal(Table(s), v)
  {
    hide Pending;
    assert Cores(Table(t)).Keys == Table(t).Keys && Cores(Table(s)).Keys == Table(s).Keys;
    if v in Table(s) {
      CoresAt(Table(s), v); CoresAt(Table(t), v);
    }
  }

  lemma DepartedNewcomer(b: Bones, b1: Bones, b': Bones, p: nat)
    requires b1 == b.(pending := b1.pending) && b.pending == b1.pending + multiset{DepartureOf(p)} && p < |b.ws|
    requires b' == if b1.ws[p].output.None? then b1 else Switched(b1, p, None)
    ensures (Lively(b) ==> Lively(b')) && forall v | DisplayedIn(b', v) :: DisplayedIn(b, v)
  {
    hide ToldCores;
    forall v | DisplayedIn(b', v)
      ensures DisplayedIn(b, v)
    {
      ToldNormal(b1, p, None, v);
      var i := b'.cores[v].workspaceId;
      assert i != p;
      assert b.pending[DepartureOf(i)] == b1.pending[DepartureOf(i)];
    }
  }

  /** The workspaces that are laid out when the focus follows workspace n: besides n, if a layer has the focus, that
      of the view in front of the stack. */
  function LaidOutOnArrival(s: State, n: nat): set<nat>
  {
    var stack := s.seat.focusStack;
    if s.seat.focusedLayer.Some? && stack != [] && Located(s, stack[0]) then {n, Home(s, stack[0])} else {n}
  }

  /** Cursor and focus follow the workspace that has slid in. */
  lemma ArrivedHome(t: State, m: Moment, n: nat, o: OutputId)
    requires BonesOk(BonesOf(t)) && HomeOk(t, m) && CalmIn(t, m, LaidOutOnArrival(t, n)) && n < |t.workspaces|
    ensures HomeOk(FocusThere(t, n, o), m) && FocusThere(t, n, o).env == t.env
  {
    hide BonesOk, TaskOrder, PunctualIn, FocusView, Pending, Displayed, Homebound, Lively, Layable, Leads, IsNormal;
    var s1 := t.(seat := t.seat.(cursor := {o}));
    var laidOut := LaidOutOnArrival(t, n);
    assert BonesOf(s1) == BonesOf(t);
    LayableByInv(t);
    SeatHome(t, s1, m);
    var next := FirstOf(s1.seat.focusStack, Table(s1), s1.workspaces[n].index, None);
    IndexByBones(t, n);
    FocusingHeads(s1, next, false, m, laidOut);
    HomeByHeads(s1, FocusView(s1, next, false), m);
  }

  lemma IndexByBones(s: State, i: nat)
    requires BonesOk(BonesOf(s)) && i < |s.workspaces|
    ensures s.workspaces[i].index == i
  {
    hide FullscreenOk, Assigned, Balanced;
    IndexIsPlace(s, i);
  }

  /** Whenever the focus follows a workspace that has slid in, the layouts of that have the last word: no tile that they
      put has an animation that the tick has still to take and that goes on afterwards. */
  ghost predicate Smooth(s: State, m: Moment)
    requires m.duration > 0
    decreases m.due
  {
    m.due > 0 && s.screen.tasks != [] ==>
      var t := FrontTaken(s, m.duration);
      var callback := FrontWish(s, m.duration);
      && (callback.ArrivalOf? ==> CalmIn(t, OneLess(m), LaidOutOnArrival(t, callback.workspace)))
      && Smooth(TakeTask(s, m.duration), OneLess(m))
  }

  lemma TakingTaskHome(s: State, m: Moment)
    requires Inv(s) && HomeOk(s, m) && m.due > 0 && m.tick == s.env.now && Smooth(s, m)
    ensures s.screen.tasks != []
    ensures var t := TakeTask(s, m.duration);
            HomeOk(t, OneLess(m)) && t.env == s.env && Smooth(t, OneLess(m))
  {
    hide BonesOk, BonesOf, StackOk, TaskOrder, Displayed, Homebound, Lively, FrontTaken, FrontWish, LosesJust,
      FocusThere, CalmIn, Deactivate, LaidOutOnArrival;
    OrderMeans(s.screen, m, s.env.now);
    FrontTakenHome(s, m);
    FrontRunLosesJust(s, m.duration);
    var t := FrontTaken(s, m.duration);
    var callback := FrontWish(s, m.duration);
    match callback {
      case Silent => SilentHome(s, t, m, callback);
      case ArrivalOf(n, o) =>
        SilentHome(s, t, m, callback);
        AfterArrival(s, t, n, o);
        ArrivedHome(t, OneLess(m), n, o);
      case DepartureOf(p) =>
        DepartingKeeps(s, t, p);
        DepartedHome(s, t, m, p);
    }
  }

  lemma AfterArrival(s: State, t: State, n: nat, o: OutputId)
    requires Inv(s) && LosesJust(s, t, ArrivalOf(n, o))
    ensures n < |t.workspaces| && BonesOk(BonesOf(t))
  {
    hide Placement, FullscreenOk, Assigned, Balanced, BonesOf, StackOk, LosesJust;
    LosingBones(s, t, ArrivalOf(n, o));
    BonesApart(s); BonesApart(t);
    ArrivalForgotten(BonesOf(s), BonesOf(t), n, o);
    OutputsAside(BonesOf(s), BonesOf(s).outputs, BonesOf(t).pending);
  }

  lemma {:induction false} TakingTasksHome(s: State, m: Moment)
    requires Inv(s) && HomeOk(s, m) && m.duration > 0 && m.tick == s.env.now && Smooth(s, m)
    ensures HomeOk(TakeTasks(s, m.duration, m.due), m.(due := 0))
    decreases m.due
  {
    hide Inv, HomeOk, TakeTask, Smooth;
    if m.due == 0 {
    } else {
      TakingTaskHome(s, m);
      TakingTaskKeeps(s, m.duration);
      TakingTasksHome(TakeTask(s, m.duration), OneLess(m));
    }
  }

  lemma TickingHome(s: State, now: Time, duration: int)
    requires Inv(s) && HomeOk(s, BETWEEN) && 0 < duration < MAX_DURATION && s.env.now <= now
    requires Smooth(s.(env := s.env.(now := now)), Moment(|s.screen.tasks|, now, duration))
    ensures HomeOk(TickTo(s, now, duration), BETWEEN)
  {
    hide Inv, HomeOk, TakeTasks, Smooth;
    var s1 := s.(env := s.env.(now := now));
    var m := Moment(|s.screen.tasks|, now, duration);
    EnvHome(s, s1, BETWEEN);
    TimePassingKeeps(s, now);
    TickStartsHome(s1, m);
    TakingTasksHome(s1, m);
    BetweenIsBetween(TickTo(s, now, duration), m.(due := 0));
  }

  // ---------------------------------------------------------------------------------------
  // Whole runs
  // ---------------------------------------------------------------------------------------

  /** When an event leads all displayed tiles home. Only what puts tiles down without animation, an output that comes
      to a workspace with tiles, and a tick during which the focus follows a workspace need a condition. */
  ghost predicate LeadsHome(s: State, e: Runs.Event)
    requires Runs.Enabled(s, e)
  {
    match e
    case ViewDragged(v, x, y, animate, under) =>
      animate || (FindColumn(s.workspaces[Home(s, v)].columns, v) < |s.workspaces[Home(s, v)].columns| ==>
                    Lands(s, Reposition(s, v, x, y, false, under), Home(s, v)))
    case WorkspaceScrolled(i, scroll, animate) => animate || Lands(s, ScrollTo(s, i, scroll, false), i)
    case SwipeAdvanced(i, scroll, _, _) => Lands(s, ScrollTo(s, i, scroll, false), i)
    case OutputAdded(_, _) =>
      forall v | TileIn(s, WorkspaceOn(s.workspaces, None), v) :: Homebound(s.screen, BETWEEN, v)
    case TimerTicked(now, duration) =>
      duration < MAX_DURATION
      && Smooth(s.(env := s.env.(now := now)), Moment(|s.screen.tasks|, now, duration))
    case _ => true
  }

  /** The events that do not lead home in any case. */
  predicate HasCondition(e: Runs.Event)
  {
    e.ViewDragged? || e.WorkspaceScrolled? || e.SwipeAdvanced? || e.OutputAdded? || e.TimerTicked?
  }

  lemma ConditionalHome(s: State, e: Runs.Event)
    requires Inv(s) && HomeOk(s, BETWEEN) && Runs.Enabled(s, e) && HasCondition(e) && LeadsHome(s, e)
    ensures HomeOk(Runs.Next(s, e), BETWEEN)
  {
    hide Inv, HomeOk, CreateView, DestroyView, MapView, UnmapView, Commit, Reposition, RequestFullscreen,
      ChangeWorkspace, ToggleFloating, MoveFocused, InsertFocused, PopFocused, FocusCycle, FocusView, FocusColumn,
      SetExclusiveClient, UnmapLayer, FocusLayer, ScrollTo, AddOutput, ResizeOutput, DestroyOutput, SwitchTo, TickTo,
      CanInsert, CanSwitch, CanDestroy, CarriesNoDeparture, SwipeFrame, MayFocus, TakeHold, NoneCarriesDeparture,
      HaltedBy, ChangeUsableArea, SwitchCommand, MoveToCommand, FindColumn, Lands, Smooth, TileIn, Homebound,
      WorkspaceOn;
    match e
    case ViewDragged(v, x, y, animate, under) =>
      if animate {
        RepositioningHome(s, v, x, y, under);
      } else {
        DraggingHome(s, v, x, y, under);
      }
    case WorkspaceScrolled(i, scroll, animate) =>
      if animate {
        ScrollingHome(s, i, scroll);
      } else {
        PuttingDownExactlyWhen(s, i, scroll);
      }
    case SwipeAdvanced(i, scroll, ended, view) => SwipingHome(s, i, scroll, ended, view);
    case OutputAdded(o, info) => AddingOutputHomeExactlyWhen(s, o, info);
    case TimerTicked(now, duration) => TickingHome(s, now, duration);
  }

  lemma LayersHome(s: State, layers: map<LayerId, LayerInfo>)
    requires HomeOk(s, BETWEEN)
    ensures HomeOk(s.(layers := layers), BETWEEN)
  {
    hide HomeOk;
    SeatHome(s, s.(layers := layers), BETWEEN);
  }

  lemma CursorHome(s: State, cursor: set<OutputId>)
    requires HomeOk(s, BETWEEN)
    ensures HomeOk(s.(seat := s.seat.(cursor := cursor)), BETWEEN)
  {
    hide HomeOk;
    SeatHome(s, s.(seat := s.seat.(cursor := cursor)), BETWEEN);
  }

  lemma TimeHome(s: State, now: Time)
    requires HomeOk(s, BETWEEN) && s.env.now <= now
    ensures HomeOk(s.(env := s.env.(now := now)), BETWEEN)
  {
    hide HomeOk;
    EnvHome(s, s.(env := s.env.(now := now)), BETWEEN);
  }

  lemma FocusEventHome(s: State, e: Runs.Event)
    requires Inv(s) && HomeOk(s, BETWEEN) && Runs.Enabled(s, e) && Runs.IsAboutFocus(e)
    ensures HomeOk(Runs.Next(s, e), BETWEEN)
  {
    hide Inv, HomeOk, BonesOk, BonesOf, CreateView, DestroyView, MapView, UnmapView, Commit, Reposition,
      RequestFullscreen, ChangeWorkspace, ToggleFloating, MoveFocused, InsertFocused, PopFocused, FocusCycle,
      FocusView, FocusColumn, SetExclusiveClient, UnmapLayer, FocusLayer, ScrollTo, AddOutput, ResizeOutput,
      DestroyOutput, SwitchTo, TickTo, CanInsert, CanSwitch, CanDestroy, CarriesNoDeparture, SwipeFrame, MayFocus,
      TakeHold, NoneCarriesDeparture, HaltedBy, ChangeUsableArea, SwitchCommand, MoveToCommand, FindColumn;
    BonesByInv(s);
    match e
    case FocusCycleCommand => CyclingHome(s);
    case FocusCommand(view) => FocusingHome(s, view, false);
    case FocusColumnCommand(i, c) => FocusingColumnHome(s, i, c);
    case ExclusiveClientSet(client) => SettingExclusiveClientHome(s, client);
    case LayerMapped(layer, info) => LayersHome(s, s.layers[layer := info]);
    case LayerUnmapped(layer) => UnmappingLayerHome(s, layer);
    case LayerFocused(layer) => FocusingLayerHome(s, Some(layer));
    case LayerReleased => FocusingLayerHome(s, None);
    case CursorMoved(cursor) => CursorHome(s, cursor);
    case TimePassed(now) => TimeHome(s, now);
  }

  lemma UnconditionalHome(s: State, e: Runs.Event)
    requires Inv(s) && HomeOk(s, BETWEEN) && Runs.Enabled(s, e) && !HasCondition(e) && !Runs.IsAboutFocus(e)
    ensures HomeOk(Runs.Next(s, e), BETWEEN)
  {
    hide Inv, HomeOk, CreateView, DestroyView, MapView, UnmapView, Commit, Reposition, RequestFullscreen,
      ChangeWorkspace, ToggleFloating, MoveFocused, InsertFocused, PopFocused, FocusCycle, FocusView, FocusColumn,
      SetExclusiveClient, UnmapLayer, FocusLayer, ScrollTo, AddOutput, ResizeOutput, DestroyOutput, SwitchTo, TickTo,
      CanInsert, CanSwitch, CanDestroy, CarriesNoDeparture, SwipeFrame, MayFocus, TakeHold, NoneCarriesDeparture,
      HaltedBy, ChangeUsableArea, SwitchCommand, MoveToCommand, FindColumn;
    match e
    case ViewCreated(v, client, ancestors) => CreatingHome(s, v, client, ancestors);
    case ViewDestroyed(v) => DestroyingHome(s, v);
    case ViewMapped(v, geometry) => MappingHome(s, v, geometry);
    case ViewUnmapped(v) => UnmappingHome(s, v);
    case ViewCommitted(v, geometry) => CommittingHome(s, v, geometry);
    case ViewHeld(v) => TakingHoldHome(s, v);
    case FullscreenRequested(v, on) => RequestingHome(s, v, on);
    case WorkspaceChanged(v, j) => ChangingWorkspaceHome(s, v, j);
    case ToggleFloatingCommand => TogglingHome(s);
    case MoveCommand(dx, dy, under) => MovingHome(s, dx, dy, under);
    case InsertIntoColumnCommand => InsertingHome(s);
    case PopFromColumnCommand => PoppingHome(s);
    case UsableAreaChanged(o, info) => ChangingUsableAreaHome(s, o, info);
    case OutputResized(o, info) => ResizingOutputHome(s, o, info);
    case OutputDestroyed(o) => DestroyingOutputHome(s, o);
    case WorkspaceFocused(n) => SwitchingHome(s, n);
    case WorkspaceSwitchCommand(n) => SwitchCommandHome(s, n);
    case WorkspaceMoveCommand(n) => MoveToCommandHome(s, n);
  }

  lemma NextHome(s: State, e: Runs.Event)
    requires Inv(s) && HomeOk(s, BETWEEN) && Runs.Enabled(s, e) && LeadsHome(s, e)
    ensures HomeOk(Runs.Next(s, e), BETWEEN)
  {
    hide Inv, HomeOk, Runs.Enabled, Runs.Next, LeadsHome;
    if HasCondition(e) {
      ConditionalHome(s, e);
    } else if Runs.IsAboutFocus(e) {
      FocusEventHome(s, e);
    } else {
      UnconditionalHome(s, e);
    }
  }

  /** A run all of whose events lead home. */
  ghost predicate RunsHome(s: State, events: seq<Runs.Event>)
    requires Runs.CanRun(s, events)
    decreases |events|
  {
    events != [] ==> LeadsHome(s, events[0]) && RunsHome(Runs.Next(s, events[0]), events[1..])
  }

  lemma {:induction false} RunHome(s: State, events: seq<Runs.Event>)
    requires Inv(s) && HomeOk(s, BETWEEN) && Runs.CanRun(s, events) && RunsHome(s, events)
    ensures Inv(Runs.Run(s, events)) && HomeOk(Runs.Run(s, events), BETWEEN)
    decreases |events|
  {
    hide Inv, HomeOk, Runs.Enabled, Runs.Next, LeadsHome;
    if events == [] {
    } else {
      Runs.NextKeeps(s, events[0]);
      NextHome(s, events[0]);
      RunHome(Runs.Next(s, events[0]), events[1..]);
    }
  }

  lemma InitialHome(gap: int, now: Time)
    ensures HomeOk(Runs.Initial(gap, now), BETWEEN)
  {
    hide Survivors, TickViews;
    BetweenTicks(Runs.Initial(gap, now).screen, BETWEEN, 0);
  }

  /** In every state that such a run reaches from the start of the compositor, each displayed tile is where the layout
      last put it, or the last of its animations goes there; when no animation is left it is there. */
  lemma TilesAreHomebound(gap: int, now: Time, events: seq<Runs.Event>)
    requires Runs.CanRun(Runs.Initial(gap, now), events) && RunsHome(Runs.Initial(gap, now), events)
    ensures var s := Runs.Run(Runs.Initial(gap, now), events);
            forall v | Displayed(s, v) ::
              && v in Table(s) && Settling(Table(s), s.screen.tasks, v)
              && (s.screen.tasks == [] ==> Warped(Table(s)[v]) == Table(s)[v])
  {
    hide Inv, Runs.Run, Runs.CanRun, RunsHome, Displayed, EndOfTick;
    Runs.InitialInv(gap, now);
    InitialHome(gap, now);
    RunHome(Runs.Initial(gap, now), events);
    var s := Runs.Run(Runs.Initial(gap, now), events);
    forall v | Displayed(s, v)
      ensures v in Table(s) && Settling(Table(s), s.screen.tasks, v)
      ensures s.screen.tasks == [] ==> Warped(Table(s)[v]) == Table(s)[v]
    {
      BetweenTicks(s.screen, BETWEEN, v);
    }
  }

  // ---------------------------------------------------------------------------------------
  // Coming to rest
  // ---------------------------------------------------------------------------------------

  /** The focus does not wait for an animation. */
  ghost predicate NobodyArrives(tasks: seq<Task>)
  {
    forall n: nat, o :: Pending(tasks)[ArrivalOf(n, o)] == 0
  }

  /** All animations have had their time, and the focus waits for none of them. */
  ghost predicate Expired(s: State, m: Moment)
  {
    && 0 < m.duration < MAX_DURATION && m.due == |s.screen.tasks| && m.tick == s.env.now
    && NobodyArrives(s.screen.tasks)
    && forall i | 0 <= i < |s.screen.tasks| :: s.screen.tasks[i].begin + m.duration * NS_PER_MS <= m.tick
  }

  /** What is done at the end of an animation then is at most that a workspace leaves its output. */
  lemma NoArrival(s: State, duration: int)
    requires duration > 0 && s.screen.tasks != [] && NobodyArrives(s.screen.tasks)
    ensures var t, callback := FrontTaken(s, duration), FrontWish(s, duration);
            && !callback.ArrivalOf? && NobodyArrives(t.screen.tasks) && TakeTask(s, duration) == Done(t, callback)
            && Done(t, callback).screen.tasks == t.screen.tasks && Done(t, callback).env == s.env
  {
    hide Pending, Animated, IsFinished, Notified, AllViews;
    var tasks := s.screen.tasks;
    FrontRunPending(Table(s), tasks, s.env.now, duration);
    var callback := FrontWish(s, duration);
    assert callback != Silent ==> Pending(tasks)[callback] > 0;
  }

  lemma ExpiredGoes(s: State, m: Moment)
    requires Expired(s, m) && m.due > 0
    ensures Expired(TakeTask(s, m.duration), OneLess(m)) && !FrontWish(s, m.duration).ArrivalOf?
  {
    hide NobodyArrives, Done, TakeTask, Animated;
    NoArrival(s, m.duration);
    FinishedMeansElapsed(Elapsed(s.screen.tasks[0].begin, m.tick), m.duration);
  }

  lemma {:induction false} ExpiredIsSmooth(s: State, m: Moment)
    requires Expired(s, m)
    ensures Smooth(s, m) && TakeTasks(s, m.duration, m.due).screen.tasks == []
    decreases m.due
  {
    hide Expired, TakeTask, FrontTaken, FrontWish, CalmIn;
    ExpiredCounts(s, m);
    if m.due == 0 {
    } else {
      ExpiredGoes(s, m);
      ExpiredIsSmooth(TakeTask(s, m.duration), OneLess(m));
    }
  }

  lemma ExpiredCounts(s: State, m: Moment)
    requires Expired(s, m)
    ensures m.duration > 0 && m.due == |s.screen.tasks|
  {
    hide NobodyArrives;
  }

  /** If the focus does not wait for an animation, a tick that comes late enough ends them all, and then every displayed
      tile rests where the layout last put it. */
  lemma TilesComeToRest(s: State, later: Time, duration: int)
    requires Inv(s) && HomeOk(s, BETWEEN) && 0 < duration < MAX_DURATION && NobodyArrives(s.screen.tasks)
    requires later >= s.env.now + duration * NS_PER_MS
    ensures var t := TickTo(s, later, duration);
            t.screen.tasks == [] && forall v | Displayed(t, v) ::
              v in Table(t) && Warped(Table(t)[v]) == Table(t)[v]
  {
    hide Inv, TakeTasks, Displayed, Lively, EndOfTick, InOrder, Smooth, NobodyArrives;
    var s1 := s.(env := s.env.(now := later));
    var m := Moment(|s.screen.tasks|, later, duration);
    assert Expired(s1, m);
    ExpiredIsSmooth(s1, m);
    TickingHome(s, later, duration);
    var t := TickTo(s, later, duration);
    forall v | Displayed(t, v)
      ensures v in Table(t) && Warped(Table(t)[v]) == Table(t)[v]
    {
      BetweenTicks(t.screen, BETWEEN, v);
    }
  }

  /** Such a tick makes no difference to who is homebound. */
  lemma {:induction false} QuietRounds(s: State, m: Moment, v: ViewId)
    requires TaskOrder(s.screen, m, s.env.now) && m.tick == s.env.now && NobodyArrives(s.screen.tasks)
    requires m.duration > 0 && IsNormal(Table(s), v)
    ensures var t := TakeTasks(s, m.duration, m.due);
            IsNormal(Table(t), v) && Homebound(t.screen, m.(due := 0), v) == Homebound(s.screen, m, v)
    decreases m.due
  {
    hide TaskOrder, Homebound, NobodyArrives, FrontTaken, FrontWish, TakeTask, Done, IsNormal, LosesJust;
    if m.due == 0 {
    } else {
      FrontTakenHome(s, m);
      NoArrival(s, m.duration);
      FrontRunLosesJust(s, m.duration);
      var t, callback := FrontTaken(s, m.duration), FrontWish(s, m.duration);
      LosingKeepsNormal(s, t, callback, v);
      QuietlyDone(t, OneLess(m), callback, v);
      QuietRounds(TakeTask(s, m.duration), OneLess(m), v);
    }
  }

  lemma QuietlyDone(t: State, m: Moment, callback: Callback, v: ViewId)
    requires !callback.ArrivalOf? && TaskOrder(t.screen, m, t.env.now) && IsNormal(Table(t), v)
    ensures var u := Done(t, callback);
            && u.env == t.env && TaskOrder(u.screen, m, u.env.now) && IsNormal(Table(u), v)
            && Homebound(u.screen, m, v) == Homebound(t.screen, m, v)
  {
    hide TaskOrder, Homebound, IsNormal, Notified, AllViews, Leads;
    if callback.DepartureOf? && callback.workspace < |t.workspaces| {
      var w := t.workspaces[callback.workspace];
      DepartingLeads(t, m, callback.workspace);
      OrderMeans(t.screen, m, t.env.now);
      NotifyingLeads(t.screen, AllViews(w), w.output, None, m);
      var u := Done(t, callback);
      LeadsItself(t.screen, m, {});
      BothWays(t.screen, u.screen, m, v);
      LeadsNormal(t.screen, u.screen, m, v);
    }
  }

  lemma LeadsNormal(a: Screen, b: Screen, m: Moment, v: ViewId)
    requires Leads(a, b, m, {}) && IsNormal(a.views, v)
    ensures IsNormal(b.views, v)
  {
  }

  lemma LateTickKeepsHomebound(s: State, later: Time, duration: int, v: ViewId)
    requires TaskOrder(s.screen, BETWEEN, s.env.now) && 0 < duration < MAX_DURATION
    requires NobodyArrives(s.screen.tasks) && IsNormal(Table(s), v)
    requires later >= s.env.now + duration * NS_PER_MS
    ensures var t := TickTo(s, later, duration);
            && t.screen.tasks == [] && IsNormal(Table(t), v)
            && (Warped(Table(t)[v]) == Table(t)[v] <==> Settling(Table(s), s.screen.tasks, v))
  {
    hide TakeTasks, EndOfTick, Survivors, TickViews, LastLive, NobodyArrives, InOrder;
    var s1 := s.(env := s.env.(now := later));
    var m := Moment(|s.screen.tasks|, later, duration);
    BetweenTicks(s.screen, BETWEEN, v);
    assert Expired(s1, m);
    ExpiredIsSmooth(s1, m);
    LateTickDecides(QueueOf(s.screen, BETWEEN), v, later, duration);
    AllDue(s.screen, m);
    TickedIs(QueueOf(s.screen, BETWEEN), later, duration);
    SurvivorsInOrder(s.screen.tasks, later, duration);
    QuietRounds(s1, m, v);
    var t := TickTo(s, later, duration);
    BetweenTicks(t.screen, m.(due := 0), v);
  }
}
