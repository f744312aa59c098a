/** Why the tiles of the desktop come to rest where they were last laid out: what single operations, on one workspace
    or on the focus, do to views that are on their way there. */
module Homeward {
  import opened Prelude
  import opened Views
  import opened Columns
  import opened Rearranging
  import opened Layout
  import opened Scrolling
  import opened Animation
  import opened AnimationQueue
  import opened Tiling
  import opened Desktop
  import opened Invariants
  import opened Preservation
  import opened AnimationRuns

  // ---------------------------------------------------------------------------------------
  // Views on their way
  // ---------------------------------------------------------------------------------------

  /** How far the tick under way, of time tick, has come: it has still to take so many tasks. */
  datatype Moment = Moment(due: nat, tick: Time, duration: int)

  /** No tick is under way. */
  const BETWEEN := Moment(0, 0, 1)

  function QueueOf(s: Screen, m: Moment): QueueState
  {
    QueueState(s.views, s.tasks, {}, m.tick, m.due, m.tick)
  }

  predicate InTick(s: Screen, m: Moment)
  {
    m.duration > 0 && m.due <= |s.tasks|
  }

  /** When the tick is over, v will rest on its target, or the last of its animations will go there. */
  predicate Homebound(s: Screen, m: Moment, v: ViewId)
  {
    && InTick(s, m) && v in s.views
    && var end := EndOfTick(QueueOf(s, m), m.duration);
       Settling(end.views, end.tasks, v)
  }

  /** Tasks are in order, as AnimationRuns has it. */
  ghost predicate TaskOrder(s: Screen, m: Moment, now: Time)
  {
    InTick(s, m) && BegunBy(s.tasks, now) && InOrder(EndOfTick(QueueOf(s, m), m.duration).tasks)
  }

  /** No view that takes part in the layout has an animation that the tick has still to take and that goes on
      afterwards. */
  ghost predicate Calm(s: Screen, m: Moment)
  {
    InTick(s, m) && forall v | IsNormal(s.views, v) :: Punctual(QueueOf(s, m), v, m.duration)
  }

  /** From a to b normal views, but for some, stay normal, and those that were homebound still are. */
  ghost predicate Leads(a: Screen, b: Screen, m: Moment, but: set<ViewId>)
  {
    forall v | v !in but && IsNormal(a.views, v) :: IsNormal(b.views, v) && (Homebound(a, m, v) ==> Homebound(b, m, v))
  }

  lemma LeadsOn(a: Screen, b: Screen, c: Screen, m: Moment, but: set<ViewId>)
    requires Leads(a, b, m, but) && Leads(b, c, m, but)
    ensures Leads(a, c, m, but)
  {
    hide Homebound, IsNormal;
  }

  lemma LeadsItself(s: Screen, m: Moment, but: set<ViewId>)
    ensures Leads(s, s, m, but)
  {
  }

  lemma LeadsMore(a: Screen, b: Screen, m: Moment, but: set<ViewId>)
    requires Leads(a, b, m, {})
    ensures Leads(a, b, m, but)
  {
    hide Homebound, IsNormal;
  }

  /** Between ticks nothing has to be waited for. */
  lemma BetweenTicks(s: Screen, m: Moment, v: ViewId)
    requires m.due == 0 && m.duration > 0
    ensures Calm(s, m)
    ensures Homebound(s, m, v) <==> v in s.views && Settling(s.views, s.tasks, v)
    ensures EndOfTick(QueueOf(s, m), m.duration).tasks == s.tasks
  {
    hide Settling;
    NoTickUnderWay(QueueOf(s, m), m.duration);
    assert s.tasks[..0] == [];
  }

  /** Views that stay in their places are as homebound as before. */
  lemma PlacesLead(a: Screen, b: Screen, m: Moment, but: set<ViewId>)
    requires InTick(a, m) && a.tasks == b.tasks
    requires forall v | v !in but && IsNormal(a.views, v) :: IsNormal(b.views, v) && SamePlace(a.views[v], b.views[v])
    ensures Leads(a, b, m, but)
  {
    hide Settling, LastLive, Survivors, TickViews;
    forall v | v !in but && IsNormal(a.views, v)
      ensures IsNormal(b.views, v) && (Homebound(a, m, v) ==> Homebound(b, m, v))
    {
      TickPlace(a.views, a.tasks[..m.due], m.tick, m.duration, v);
      TickPlace(b.views, a.tasks[..m.due], m.tick, m.duration, v);
      SameSettling(EndOfTick(QueueOf(a, m), m.duration), EndOfTick(QueueOf(b, m), m.duration), v);
    }
  }

  lemma SameTasks(a: Screen, b: Screen, m: Moment, now: Time)
    requires TaskOrder(a, m, now) && a.tasks == b.tasks
    ensures TaskOrder(b, m, now)
  {
  }

  lemma SameCalm(a: Screen, b: Screen, m: Moment)
    requires Calm(a, m) && a.tasks == b.tasks && forall v | IsNormal(b.views, v) :: IsNormal(a.views, v)
    ensures Calm(b, m)
  {
    hide Survivors;
    forall v | IsNormal(b.views, v)
      ensures Punctual(QueueOf(b, m), v, m.duration)
    {
      assert Punctual(QueueOf(a, m), v, m.duration);
    }
  }

  // ---------------------------------------------------------------------------------------
  // Layout
  // ---------------------------------------------------------------------------------------

  /** What a layout relies on. */
  ghost predicate Orderly(w: WorkspaceState, views: ViewTable)
  {
    && Distinct(w.columns) && !w.suspendAnimations
    && (w.fullscreen.Some? ==> !IsNormal(views, w.fullscreen.value))
  }

  predicate OnOutput(w: WorkspaceState, env: Env)
  {
    w.output.Some? && w.output.value in env.outputs
  }

  ghost predicate Good(s: Screen, m: Moment, env: Env)
  {
    TaskOrder(s, m, env.now) && Calm(s, m)
  }

  /** All tiles that take part are homebound. */
  ghost predicate TilesHomebound(w: WorkspaceState, s: Screen, env: Env, m: Moment)
  {
    forall v | TakesPart(w, s.views, v) && OnOutput(w, env) :: Homebound(s, m, v)
  }

  lemma ArrangedEnd(w: WorkspaceState, s: Screen, env: Env, m: Moment)
    requires InTick(s, m) && CanLayOut(w, env) && !w.suspendAnimations
    ensures var r := Arrange(w, s, env, true);
            var t := Relaid(QueueOf(s, m), w, env);
            && InTick(r, m) && t.views == r.views && t.tasks == r.tasks && t.due == m.due && t.tick == m.tick
            && r.tasks[..m.due] == s.tasks[..m.due]
            && EndOfTick(QueueOf(r, m), m.duration).views == EndOfTick(t, m.duration).views
            && EndOfTick(QueueOf(r, m), m.duration).tasks == EndOfTick(t, m.duration).tasks
  {
    hide LayoutTasks, ArrangedViews, Survivors, TickViews;
    RelaidQueue(QueueOf(s, m), w, env, m.duration);
  }

  /** No tile that takes part has an animation that the tick has still to take and that goes on afterwards. */
  ghost predicate PunctualIn(w: WorkspaceState, s: Screen, m: Moment)
  {
    InTick(s, m) && forall v | TakesPart(w, s.views, v) :: Punctual(QueueOf(s, m), v, m.duration)
  }

  /** The tick has the same tasks still to take, and the same views take part. */
  ghost predicate SameDue(a: Screen, b: Screen, m: Moment)
  {
    && InTick(a, m) && InTick(b, m) && a.tasks[..m.due] == b.tasks[..m.due]
    && forall v :: IsNormal(b.views, v) == IsNormal(a.views, v)
  }

  lemma StillPunctual(w: WorkspaceState, w': WorkspaceState, a: Screen, b: Screen, m: Moment)
    requires PunctualIn(w, a, m) && SameDue(a, b, m) && w'.columns == w.columns
    ensures PunctualIn(w', b, m)
  {
    hide Survivors, FindColumn;
    forall v | TakesPart(w', b.views, v)
      ensures Punctual(QueueOf(b, m), v, m.duration)
    {
      assert TakesPart(w, a.views, v);
      assert Punctual(QueueOf(a, m), v, m.duration);
    }
  }

  lemma PunctualArrangingLeads(w: WorkspaceState, s: Screen, env: Env, m: Moment)
    requires TaskOrder(s, m, env.now) && PunctualIn(w, s, m) && Orderly(w, s.views)
    ensures var r := Arrange(w, s, env, true);
            TaskOrder(r, m, env.now) && SameDue(s, r, m) && Leads(s, r, m, {}) && TilesHomebound(w, r, env, m)
  {
    hide EndOfTick, Settling, Relaid, Survivors, TickViews, LayoutTasks, Distinct, FindColumn, ArrangedView;
    var r := Arrange(w, s, env, true);
    SameNormalTiles(w, s, env);
    if OnOutput(w, env) {
      var q := QueueOf(s, m);
      ArrangedEnd(w, s, env, m);
      RelaidInOrder(q, w, env, m.duration);
      forall v | IsNormal(s.views, v)
        ensures Homebound(s, m, v) || TakesPart(w, s.views, v) ==> Homebound(r, m, v)
      {
        if TakesPart(w, s.views, v) {
          RelaidSettlesExactlyWhen(q, w, env, m.duration, v);
        } else {
          RelaidLeavesAlone(q, w, env, m.duration, v);
          SameViews(q, m.duration); SameViews(Relaid(q, w, env), m.duration);
          SameSettling(EndOfTick(q, m.duration), EndOfTick(Relaid(q, w, env), m.duration), v);
        }
      }
    } else {
      LeadsItself(s, m, {});
    }
  }

  lemma ArrangingLeads(w: WorkspaceState, s: Screen, env: Env, m: Moment)
    requires Good(s, m, env) && Orderly(w, s.views)
    ensures var r := Arrange(w, s, env, true);
            Good(r, m, env) && Leads(s, r, m, {}) && TilesHomebound(w, r, env, m)
  {
    hide TaskOrder, Leads, TilesHomebound, Arrange, Orderly, Survivors, FindColumn;
    var r := Arrange(w, s, env, true);
    PunctualArrangingLeads(w, s, env, m);
    forall v | IsNormal(r.views, v)
      ensures Punctual(QueueOf(r, m), v, m.duration)
    {
      assert Punctual(QueueOf(s, m), v, m.duration);
    }
  }

  lemma SameNormalTiles(w: WorkspaceState, s: Screen, env: Env)
    ensures forall v :: IsNormal(Arrange(w, s, env, true).views, v) == IsNormal(s.views, v)
    ensures forall v :: TakesPart(w, Arrange(w, s, env, true).views, v) == TakesPart(w, s.views, v)
  {
    hide Arrange, FindColumn;
    ArrangeKeeps(w, s, env, true);
  }

  // ---------------------------------------------------------------------------------------
  // The operations of one workspace
  // ---------------------------------------------------------------------------------------

  /** A change to one view that leaves it in its place, before a layout. */
  lemma PutLeads(s: Screen, m: Moment, env: Env, v: ViewId, view: View)
    requires Good(s, m, env) && v in s.views && SamePlace(s.views[v], view)
             && view.IsMappedAndNormal() == s.views[v].IsMappedAndNormal()
    ensures var r := s.(views := s.views[v := view]);
            && Good(r, m, env) && Leads(s, r, m, {}) && forall u :: IsNormal(r.views, u) == IsNormal(s.views, u)
  {
    hide EndOfTick, Homebound, Punctual;
    var r := s.(views := s.views[v := view]);
    PlacesLead(s, r, m, {});
    SameTasks(s, r, m, env.now);
    SameCalm(s, r, m);
  }

  /** What is known after an operation that ends on a layout of workspace w. */
  ghost predicate LeadsTo(s: Screen, w: WorkspaceState, r: Screen, env: Env, m: Moment, but: set<ViewId>)
  {
    Good(r, m, env) && Leads(s, r, m, but) && TilesHomebound(w, r, env, m)
  }

  lemma PutAndArrangedLeads(s: Screen, w: WorkspaceState, env: Env, m: Moment, v: ViewId, view: View)
    requires Good(s, m, env) && v in s.views && SamePlace(s.views[v], view)
             && view.IsMappedAndNormal() == s.views[v].IsMappedAndNormal()
    requires Orderly(w, s.views)
    ensures var s1 := s.(views := s.views[v := view]);
            var r := Arrange(w, s1, env, true);
            LeadsTo(s, w, r, env, m, {}) && forall u :: IsNormal(r.views, u) == IsNormal(s.views, u)
  {
    hide Good, Leads, TilesHomebound, Arrange;
    PutLeads(s, m, env, v, view);
    var s1 := s.(views := s.views[v := view]);
    ArrangingLeads(w, s1, env, m);
    SameNormalTiles(w, s1, env);
    LeadsOn(s, s1, Arrange(w, s1, env, true), m, {});
  }

  lemma AddingLeads(w: WorkspaceState, s: Screen, env: Env, m: Moment, v: ViewId, nextTo: Option<ViewId>,
                    floating: bool, transferring: bool)
    requires Good(s, m, env) && v in s.views && Orderly(WithView(w, v, nextTo, floating), s.views)
    ensures var r := AddView(w, s, env, v, nextTo, floating, transferring);
            LeadsTo(s, r.0, r.1, env, m, {}) && forall u :: IsNormal(r.1.views, u) == IsNormal(s.views, u)
  {
    hide Good, LeadsTo, Arrange, WithView, Orderly;
    var view := if transferring then s.views[v] else s.views[v].(workspaceId := w.index).ChangeOutput(None, w.output);
    PutAndArrangedLeads(s, WithView(w, v, nextTo, floating), env, m, v, view);
    assert s.views[v := s.views[v]] == s.views;
  }

  lemma RemovingLeads(w: WorkspaceState, s: Screen, env: Env, m: Moment, v: ViewId, transferring: bool)
    requires Good(s, m, env) && v in s.views && Orderly(w, s.views)
    ensures var r := RemoveFromWorkspace(w, s, env, v, transferring);
            && LeadsTo(s, r.0, r.1, env, m, {}) && Orderly(r.0, r.1.views)
            && forall u :: IsNormal(r.1.views, u) == IsNormal(s.views, u)
  {
    hide Good, LeadsTo, Arrange, RemoveView, Distinct, IsNormal;
    var view := if transferring then s.views[v] else s.views[v].ChangeOutput(w.output, None);
    RemovedIsDistinct(w.columns, v);
    PutAndArrangedLeads(s, WithoutView(if transferring then w else Dismissed(w, v), v), env, m, v, view);
    assert s.views[v := s.views[v]] == s.views;
  }

  lemma RemovedIsDistinct(cols: seq<Column>, v: ViewId)
    requires Distinct(cols)
    ensures Distinct(RemoveView(cols, v)) && Count(RemoveView(cols, v), v) == 0
  {
    hide Distinct, RemoveView, Count;
    DistinctCountsOnce(cols, v);
    forall u
      ensures Count(RemoveView(cols, v), u) <= 1
    {
      DistinctCountsOnce(cols, u);
      RemoveViewCount(cols, v, u);
    }
    RemoveViewCount(cols, v, v);
    CountedOnceIsDistinct(RemoveView(cols, v));
  }

  lemma AddedIsDistinct(cols: seq<Column>, v: ViewId, nextTo: Option<ViewId>)
    requires Distinct(cols) && Count(cols, v) == 0
    ensures Distinct(AddColumn(cols, v, nextTo))
  {
    hide Distinct, AddColumn, Count;
    forall u
      ensures Count(AddColumn(cols, v, nextTo), u) <= 1
    {
      DistinctCountsOnce(cols, u);
      AddColumnCount(cols, v, nextTo, u);
    }
    CountedOnceIsDistinct(AddColumn(cols, v, nextTo));
  }

  lemma FittingLeads(w: WorkspaceState, s: Screen, env: Env, m: Moment, v: ViewId, condense: bool)
    requires TaskOrder(s, m, env.now) && PunctualIn(w, s, m) && Orderly(w, s.views)
    ensures var r := FitView(w, s, env, v, condense);
            TaskOrder(r.1, m, env.now) && SameDue(s, r.1, m) && Leads(s, r.1, m, {})
  {
    hide TaskOrder, Leads, Arrange, FindColumn, Distinct, FitScroll, TilesHomebound, Punctual;
    var w' := w.(scrollX := FitView(w, s, env, v, condense).0.scrollX);
    StillPunctual(w, w', s, s, m);
    PunctualArrangingLeads(w', s, env, m);
    LeadsItself(s, m, {});
  }

  /** Nobody is put somewhere who is not fullscreen before and after. */
  lemma ExitLeads(s: Screen, m: Moment, env: Env, f: ViewId)
    requires Good(s, m, env) && !IsNormal(s.views, f)
    ensures var r := ExitFullscreen(s, f);
            && Good(r, m, env) && Leads(s, r, m, {}) && forall u :: IsNormal(r.views, u) == IsNormal(s.views, u)
  {
    hide EndOfTick, Homebound, Punctual;
    var r := ExitFullscreen(s, f);
    PlacesLead(s, r, m, {});
    SameTasks(s, r, m, env.now);
    SameCalm(s, r, m);
  }

  lemma EnterLeads(s: Screen, m: Moment, env: Env, v: ViewId)
    requires Good(s, m, env)
    ensures var r := EnterFullscreen(s, v);
            && Good(r, m, env) && Leads(s, r, m, {v}) && forall u :: IsNormal(r.views, u) ==> IsNormal(s.views, u)
  {
    hide EndOfTick, Homebound, Punctual;
    var r := EnterFullscreen(s, v);
    PlacesLead(s, r, m, {v});
    SameTasks(s, r, m, env.now);
    SameCalm(s, r, m);
  }

  lemma ExpandingLeads(w: WorkspaceState, s: Screen, env: Env, m: Moment, v: Option<ViewId>)
    requires Good(s, m, env) && Orderly(w, s.views)
    requires v.Some? ==> v.value in s.views && (IsNormal(s.views, v.value) ==> CanSave(s.views[v.value]))
    ensures var r := SetFullscreen(w, s, env, v);
            LeadsTo(s, r.0, r.1, env, m, if v.Some? then {v.value} else {})
            && Orderly(r.0, r.1.views)
            && forall u :: IsNormal(r.1.views, u) ==> IsNormal(s.views, u)
  {
    hide Good, Leads, Arrange, Distinct, ExitFullscreen, TilesHomebound;
    var but := if v.Some? then {v.value} else {};
    var s1 := if w.fullscreen.Some? then ExitFullscreen(s, w.fullscreen.value) else s;
    LeadsItself(s, m, {});
    if w.fullscreen.Some? {
      ExitLeads(s, m, env, w.fullscreen.value);
      ExitKeepsOthers(s, w.fullscreen.value);
    }
    LeadsMore(s, s1, m, but);
    var s2 := if v.Some? then EnterFullscreen(s1, v.value) else s1;
    LeadsItself(s1, m, but);
    if v.Some? {
      EnterLeads(s1, m, env, v.value);
    }
    LeadsOn(s, s1, s2, m, but);
    var w' := w.(fullscreen := v);
    assert v.Some? ==> !IsNormal(s2.views, v.value);
    ArrangingLeads(w', s2, env, m);
    SameNormalTiles(w', s2, env);
    LeadsMore(s2, Arrange(w', s2, env, true), m, but);
    LeadsOn(s, s2, Arrange(w', s2, env, true), m, but);
  }

  lemma ExitKeepsOthers(s: Screen, f: ViewId)
    ensures ExitFullscreen(s, f).views.Keys == s.views.Keys
    ensures forall v | v in s.views && v != f :: ExitFullscreen(s, f).views[v] == s.views[v]
    ensures f in s.views && ExitFullscreen(s, f).views[f] != s.views[f] ==>
              ExitFullscreen(s, f).views[f].expansion == Recovering
  {
  }

  lemma InsertingLeads(w: WorkspaceState, s: Screen, env: Env, m: Moment, v: ViewId, c: nat)
    requires Good(s, m, env) && Orderly(w, s.views) && v in s.views
    requires c < |w.columns| && FindColumn(w.columns, v) < |w.columns| && FindColumn(w.columns, v) != c
    ensures var r := InsertView(w, s, env, v, c);
            LeadsTo(s, r.0, r.1, env, m, {}) && forall u :: IsNormal(r.1.views, u) == IsNormal(s.views, u)
  {
    hide Good, Leads, Arrange, Distinct, InsertIntoColumn, TilesHomebound, RemoveFromWorkspace, FindColumn, WidthUpTo;
    var (w1, s1) := RemoveFromWorkspace(w, s, env, v, true);
    RemovingLeads(w, s, env, m, v, true);
    RemovedLists(w, s, env, v);
    InsertKeepsDistinct(w.columns, v, c);
    var (w', s') := Transferred(w, s, env, v, c);
    PutAndArrangedLeads(s1, w', env, m, v, s'.views[v]);
    LeadsOn(s, s1, InsertView(w, s, env, v, c).1, m, {});
  }

  lemma RemovedLists(w: WorkspaceState, s: Screen, env: Env, v: ViewId)
    requires v in s.views
    ensures var (w1, s1) := RemoveFromWorkspace(w, s, env, v, true);
            w1 == WithoutView(w, v) && s1.views.Keys == s.views.Keys
  {
    hide Arrange, WithoutView;
  }

  lemma PoppingLeads(w: WorkspaceState, s: Screen, env: Env, m: Moment, c: nat)
    requires Good(s, m, env) && Orderly(w, s.views) && c < |w.columns|
    ensures var r := PopColumn(w, s, env, c);
            r == (w, s) || LeadsTo(s, r.0, r.1, env, m, {})
  {
    hide Good, Leads, Arrange, Distinct, TilesHomebound, RemoveFromWorkspace, AddView, WithView;
    var col := w.columns[c];
    LeadsItself(s, m, {});
    if |col| >= 2 && col[|col| - 1].view in s.views {
      var popped := col[|col| - 1].view;
      var (w1, s1) := RemoveFromWorkspace(w, s, env, popped, true);
      RemovingLeads(w, s, env, m, popped, true);
      RemovedLists(w, s, env, popped);
      RemovedIsDistinct(w.columns, popped);
      BackIsOrderly(w1, s1.views, popped, Some(col[0].view));
      AddingLeads(w1, s1, env, m, popped, Some(col[0].view), false, true);
      var (w2, s2) := AddView(w1, s1, env, popped, Some(col[0].view), false, true);
      AddedList(w1, s1, env, popped, Some(col[0].view));
      ArrangingLeads(w2, s2, env, m);
      SameNormalTiles(w2, s2, env);
      LeadsOn(s, s1, s2, m, {});
      LeadsOn(s, s2, Arrange(w2, s2, env, true), m, {});
    }
  }

  lemma AddedList(w: WorkspaceState, s: Screen, env: Env, v: ViewId, nextTo: Option<ViewId>)
    requires v in s.views
    ensures AddView(w, s, env, v, nextTo, false, true).0 == WithView(w, v, nextTo, false)
  {
    hide Arrange, WithView;
  }

  lemma BackIsOrderly(w: WorkspaceState, views: ViewTable, v: ViewId, nextTo: Option<ViewId>)
    requires Orderly(w, views) && Count(w.columns, v) == 0
    ensures Orderly(WithView(w, v, nextTo, false), views)
  {
    hide Distinct, AddColumn, IsNormal, Count;
    AddedIsDistinct(w.columns, v, nextTo);
  }

  // ---------------------------------------------------------------------------------------
  // The focus
  // ---------------------------------------------------------------------------------------

  predicate NormalCore(b: Bones, v: ViewId)
  {
    v in b.cores && b.cores[v].mapped && b.cores[v].expansion == Normal
  }

  /** All workspaces can be laid out. */
  ghost predicate Layable(b: Bones)
  {
    forall i | 0 <= i < |b.ws| ::
      && Distinct(b.ws[i].columns) && !b.ws[i].suspendAnimations
      && (b.ws[i].fullscreen.Some? ==> !NormalCore(b, b.ws[i].fullscreen.value))
  }

  lemma NormalIsCore(s: State, v: ViewId)
    ensures IsNormal(Table(s), v) == NormalCore(BonesOf(s), v)
  {
  }

  lemma LayableAt(s: State, i: nat)
    requires Layable(BonesOf(s)) && i < |s.workspaces|
    ensures Orderly(s.workspaces[i], Table(s))
  {
    hide Distinct;
    assert BonesOf(s).ws[i] == Skeleton(s.workspaces[i]);
    if s.workspaces[i].fullscreen.Some? {
      NormalIsCore(s, s.workspaces[i].fullscreen.value);
    }
  }

  /** Workspaces in which a layout in the middle of the tick has the last word. */
  ghost predicate CalmIn(s: State, m: Moment, laidOut: set<nat>)
  {
    InTick(s.screen, m)
    && forall i | 0 <= i < |s.workspaces| && (m.due == 0 || i in laidOut) :: PunctualIn(s.workspaces[i], s.screen, m)
  }

  ghost predicate Steady(s: State, m: Moment, laidOut: set<nat>)
  {
    TaskOrder(s.screen, m, s.env.now) && CalmIn(s, m, laidOut) && Layable(BonesOf(s))
  }

  /** A view whose workspace may be laid out. */
  predicate MayShow(s: State, m: Moment, laidOut: set<nat>, v: ViewId)
  {
    m.due == 0 || (Located(s, v) ==> Home(s, v) in laidOut)
  }

  /** The focus, scrolling and animations apart, nothing has changed, and views are as homebound as before. */
  ghost predicate Heads(s: State, t: State, m: Moment)
  {
    BonesOf(t) == BonesOf(s) && t.env == s.env && Leads(s.screen, t.screen, m, {})
  }

  lemma HeadsOn(s: State, t: State, u: State, m: Moment)
    requires Heads(s, t, m) && Heads(t, u, m)
    ensures Heads(s, u, m)
  {
    hide BonesOf, Leads;
    LeadsOn(s.screen, t.screen, u.screen, m, {});
  }

  lemma StillMayShow(s: State, t: State, m: Moment, laidOut: set<nat>, v: ViewId)
    requires Heads(s, t, m) && MayShow(s, m, laidOut, v)
    ensures MayShow(t, m, laidOut, v)
  {
    hide Leads, Pending;
    var b, b' := BonesOf(s), BonesOf(t);
    assert |s.workspaces| == |b.ws| == |t.workspaces|;
    if v in Table(t) {
      assert v in b'.cores && v in Table(s);
      assert b.cores[v] == CoreOf(Table(s)[v]) && b'.cores[v] == CoreOf(Table(t)[v]);
    }
  }

  lemma SeatHeads(s: State, t: State, m: Moment, laidOut: set<nat>)
    requires Steady(s, m, laidOut) && t.workspaces == s.workspaces && t.env == s.env
    requires t.screen == s.screen.(fault := t.screen.fault)
    ensures Steady(t, m, laidOut) && Heads(s, t, m)
  {
    hide Homebound, Punctual, EndOfTick;
    assert BonesOf(t).ws == BonesOf(s).ws;
    PlacesLead(s.screen, t.screen, m, {});
    forall i | 0 <= i < |t.workspaces| && (m.due == 0 || i in laidOut)
      ensures PunctualIn(t.workspaces[i], t.screen, m)
    {
      StillPunctual(s.workspaces[i], t.workspaces[i], s.screen, t.screen, m);
    }
  }

  lemma ShowingHeads(s: State, v: ViewId, condense: bool, m: Moment, laidOut: set<nat>)
    requires Steady(s, m, laidOut) && MayShow(s, m, laidOut, v)
    ensures var t := Show(s, v, condense);
            Steady(t, m, laidOut) && Heads(s, t, m)
  {
    hide BonesOf, Layable, TaskOrder, FitView, Orderly, Leads, PunctualIn, SameDue, SameBones;
    LeadsItself(s.screen, m, {});
    if Located(s, v) {
      FittedHeads(s, Home(s, v), v, condense, m, laidOut);
    }
  }

  lemma FittedHeads(s: State, i: nat, v: ViewId, condense: bool, m: Moment, laidOut: set<nat>)
    requires Steady(s, m, laidOut) && i < |s.workspaces| && (m.due == 0 || i in laidOut)
    ensures var t := InWorkspace(s, i, FitView(s.workspaces[i], s.screen, s.env, v, condense));
            Steady(t, m, laidOut) && Heads(s, t, m)
  {
    hide Layable, TaskOrder, FitView, Orderly, Leads, PunctualIn, SameDue, Pending, Cores;
    var r := FitView(s.workspaces[i], s.screen, s.env, v, condense);
    var t := InWorkspace(s, i, r);
    LayableAt(s, i);
    FitKeeps(s.workspaces[i], s.screen, s.env, v, condense);
    FittingLeads(s.workspaces[i], s.screen, s.env, m, v, condense);
    InWorkspaceBones(s, i, r);
    assert BonesOf(t).ws == BonesOf(s).ws;
    SameDueMeans(s.screen, t.screen, m);
    forall k | 0 <= k < |t.workspaces| && (m.due == 0 || k in laidOut)
      ensures PunctualIn(t.workspaces[k], t.screen, m)
    {
      StillPunctual(s.workspaces[k], t.workspaces[k], s.screen, t.screen, m);
    }
  }

  lemma SameDueMeans(a: Screen, b: Screen, m: Moment)
    requires SameDue(a, b, m)
    ensures InTick(b, m)
  {
  }

  lemma FocusingPlainHeads(s: State, view: Option<ViewId>, condense: bool, m: Moment, laidOut: set<nat>)
    requires Steady(s, m, laidOut) && (view.Some? ==> MayShow(s, m, laidOut, view.value))
    ensures var t := FocusPlain(s, view, condense);
            Steady(t, m, laidOut) && Heads(s, t, m)
  {
    hide Steady, Heads, Show, HiddenByFullscreen, InputAllowed, ToFront, MayShow;
    SeatHeads(s, s, m, laidOut);
    var prev := FocusedView(s);
    var s1 := if prev.Some? then s.(seat := s.seat.(keyboard := None)) else s;
    SeatHeads(s, s1, m, laidOut);
    if view.Some? {
      ShowingHeads(s, view.value, condense, m, laidOut);
      var s2 := WithSeat(s1, ToFront(s1.seat.focusStack, view.value), Some(ViewSurface(view.value)));
      SeatHeads(s, s2, m, laidOut);
      StillMayShow(s, s2, m, laidOut, view.value);
      ShowingHeads(s2, view.value, condense, m, laidOut);
      HeadsOn(s, s2, Show(s2, view.value, condense), m);
    }
  }

  /** What a change of focus may lay out: the workspace of the view that is to be focused, and, if a layer has the
      focus, that of the view in front. */
  predicate Covers(s: State, view: Option<ViewId>, m: Moment, laidOut: set<nat>)
  {
    && (view.Some? ==> MayShow(s, m, laidOut, view.value))
    && (s.seat.focusedLayer.Some? && s.seat.focusStack != [] ==> MayShow(s, m, laidOut, s.seat.focusStack[0]))
  }

  /** A change of focus lays out workspaces, but leads no view away from home. */
  lemma {:induction false} FocusingHeads(s: State, view: Option<ViewId>, condense: bool, m: Moment, laidOut: set<nat>)
    requires Steady(s, m, laidOut) && Covers(s, view, m, laidOut)
    ensures var t := FocusView(s, view, condense);
            Steady(t, m, laidOut) && Heads(s, t, m)
    decreases if s.seat.focusedLayer.Some? then 2 else 0
  {
    hide Steady, Heads, FocusPlain, MayShow;
    if s.seat.focusedLayer.Some? {
      var s1 := FocusLayer(s, None);
      FocusingLayerHeads(s, None, m, laidOut);
      if view.Some? {
        StillMayShow(s, s1, m, laidOut, view.value);
      }
      var s2 := FocusView(s1, view, condense);
      FocusingHeads(s1, view, condense, m, laidOut);
      FocusingLayerHeads(s2, s.seat.focusedLayer, m, laidOut);
      HeadsOn(s, s1, s2, m);
      HeadsOn(s, s2, FocusLayer(s2, s.seat.focusedLayer), m);
    } else {
      FocusingPlainHeads(s, view, condense, m, laidOut);
    }
  }

  lemma {:induction false} FocusingLayerHeads(s: State, layer: Option<LayerId>, m: Moment, laidOut: set<nat>)
    requires Steady(s, m, laidOut) && (layer.None? ==> Covers(s, None, m, laidOut))
    ensures var t := FocusLayer(s, layer);
            Steady(t, m, laidOut) && Heads(s, t, m)
    decreases if s.seat.focusedLayer.Some? && layer.None? then 1 else 0
  {
    hide Steady, Heads, FocusPlain, MayShow;
    if layer.None? && s.seat.focusedLayer.Some? {
      var s1 := s.(seat := s.seat.(focusedLayer := None));
      SeatHeads(s, s1, m, laidOut);
      var focused := FocusedView(s1);
      if focused.Some? {
        var s2 := FocusView(s1, None, false);
        FocusingHeads(s1, None, false, m, laidOut);
        HeadsOn(s, s1, s2, m);
        StillMayShow(s, s2, m, laidOut, focused.value);
        FocusingHeads(s2, focused, false, m, laidOut);
        HeadsOn(s, s2, FocusView(s2, focused, false), m);
      }
    } else {
      SeatHeads(s, FocusLayer(s, layer), m, laidOut);
    }
  }
}
