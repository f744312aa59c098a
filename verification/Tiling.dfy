/** What the operations of a workspace do, as functions on its state and on the views. */
module Tiling {
  import opened Prelude
  import opened Views
  import opened Columns
  import opened Rearranging
  import opened Layout
  import opened Scrolling
  import opened Animation
  import opened AnimationQueue

  /** What all workspaces share. fault: an assertion of the code failed, or an absent optional
      value was read. */
  datatype Screen = Screen(views: ViewTable, tasks: seq<Task>, fault: bool)

  datatype Env = Env(outputs: map<OutputId, OutputInfo>, gap: int, now: Time)

  // ---------------------------------------------------------------------------------------
  // Layout
  // ---------------------------------------------------------------------------------------

  /** What the layout queues for the first t tiles of column c, in order. */
  function ColumnTasks(w: WorkspaceState, views: ViewTable, info: OutputInfo, gap: int, now: Time, c: nat,
                       t: nat): seq<Task>
    requires c < |w.columns| && t <= |w.columns[c]|
  {
    if t == 0 then []
    else
      var v := w.columns[c][t - 1].view;
      ColumnTasks(w, views, info, gap, now, c, t - 1)
      + if IsNormal(views, v) then TileTask(w, views, info, gap, now, c, t - 1) else []
  }

  function TileTask(w: WorkspaceState, views: ViewTable, info: OutputInfo, gap: int, now: Time, c: nat,
                    t: nat): seq<Task>
    requires c < |w.columns| && t < |w.columns[c]| && IsNormal(views, w.columns[c][t].view)
  {
    var v := w.columns[c][t].view;
    var from := BeforeTiling(w, views, info, v);
    var to := Placed(from, WindowBox(w, views, info, gap, c, t), true);
    [Task(v, from.x, from.y, to.targetX, to.targetY, now, false)]
  }

  function LayoutTasks(w: WorkspaceState, views: ViewTable, info: OutputInfo, gap: int, now: Time, c: nat): seq<Task>
    requires c <= |w.columns|
  {
    if c == 0 then []
    else LayoutTasks(w, views, info, gap, now, c - 1) + ColumnTasks(w, views, info, gap, now, c - 1, |w.columns[c - 1]|)
  }

  /** Tasks are queued only by an animated layout. */
  function Queued(tasks: seq<Task>, animated: bool, more: seq<Task>): seq<Task>
  {
    if animated then tasks + more else tasks
  }

  lemma QueuedTwice(tasks: seq<Task>, animated: bool, a: seq<Task>, b: seq<Task>)
    ensures Queued(Queued(tasks, animated, a), animated, b) == Queued(tasks, animated, a + b)
    ensures Queued(tasks, animated, []) == tasks
  {
    assert tasks + a + b == tasks + (a + b);
  }

  /** The part of a view the layout never touches. */
  datatype Core = Core(mapped: bool, expansion: ExpansionState, saved: Option<SavedState>, workspaceId: int,
                       client: nat, ancestors: seq<ViewId>, events: seq<OutputEvent>)

  function CoreOf(v: View): Core
  {
    Core(v.mapped, v.expansion, v.saved, v.workspaceId, v.client, v.ancestors, v.events)
  }

  function Cores(views: ViewTable): (r: map<ViewId, Core>)
    ensures r.Keys == views.Keys
  {
    map v | v in views :: CoreOf(views[v])
  }

  lemma CoresAt(views: ViewTable, v: ViewId)
    requires v in views
    ensures Cores(views)[v] == CoreOf(views[v])
  {
  }

  lemma CoresUpdate(views: ViewTable, v: ViewId, view: View)
    ensures Cores(views[v := view]) == Cores(views)[v := CoreOf(view)]
  {
  }

  lemma ArrangingKeepsCores(w: WorkspaceState, views: ViewTable, info: OutputInfo, gap: int, animated: bool)
    ensures Cores(ArrangedViews(w, views, info, gap, animated)) == Cores(views)
  {
    forall v | v in views
      ensures CoreOf(ArrangedViews(w, views, info, gap, animated)[v]) == CoreOf(views[v])
    {
      ArrangedViewKeepsCore(w, views, info, gap, animated, v);
    }
  }

  lemma ArrangedViewKeepsCore(w: WorkspaceState, views: ViewTable, info: OutputInfo, gap: int, animated: bool,
                              v: ViewId)
    requires v in views
    ensures CoreOf(ArrangedView(w, views, info, gap, animated, v)) == CoreOf(views[v])
  {
  }

  /** A workspace that is on no output is not laid out. */
  function Arrange(w: WorkspaceState, s: Screen, env: Env, animate: bool): (r: Screen)
    ensures r.views.Keys == s.views.Keys
  {
    if w.output.None? || w.output.value !in env.outputs then s
    else
      var info := env.outputs[w.output.value];
      var animated := animate && !w.suspendAnimations;
      Screen(ArrangedViews(w, s.views, info, env.gap, animated),
             Queued(s.tasks, animated, LayoutTasks(w, s.views, info, env.gap, env.now, |w.columns|)),
             s.fault)
  }

  /** No assertion has failed, and still no task that may run is about a view that is gone. */
  ghost predicate Intact(a: Screen, b: Screen)
  {
    b.fault == a.fault && (TasksKnown(a.views, a.tasks) ==> TasksKnown(b.views, b.tasks))
  }

  /** Besides, nothing that is to be done after an animation was lost or added, and no task was taken off the queue. */
  ghost predicate Unharmed(a: Screen, b: Screen)
  {
    Intact(a, b) && Pending(b.tasks) == Pending(a.tasks) && |a.tasks| <= |b.tasks|
  }

  /** Nothing waits for the end of an animation that a layout starts. */
  ghost predicate Plain(views: ViewTable, tasks: seq<Task>)
  {
    TasksKnown(views, tasks) && Pending(tasks) == multiset{}
  }

  lemma PlainConcat(views: ViewTable, a: seq<Task>, b: seq<Task>)
    requires Plain(views, a) && Plain(views, b)
    ensures Plain(views, a + b)
  {
    PendingConcat(a, b);
  }

  lemma TileTaskIsPlain(w: WorkspaceState, views: ViewTable, info: OutputInfo, gap: int, now: Time, c: nat, t: nat)
    requires c < |w.columns| && t < |w.columns[c]| && IsNormal(views, w.columns[c][t].view)
    ensures Plain(views, TileTask(w, views, info, gap, now, c, t))
  {
    hide WindowBox, Placed, BeforeTiling;
    PendingOne(TileTask(w, views, info, gap, now, c, t)[0]);
  }

  lemma {:induction false} ColumnTasksArePlain(w: WorkspaceState, views: ViewTable, info: OutputInfo, gap: int,
                                               now: Time,
                                               c: nat, t: nat)
    requires c < |w.columns| && t <= |w.columns[c]|
    ensures Plain(views, ColumnTasks(w, views, info, gap, now, c, t))
  {
    hide TileTask;
    if t == 0 {
    } else {
      ColumnTasksArePlain(w, views, info, gap, now, c, t - 1);
      if IsNormal(views, w.columns[c][t - 1].view) {
        TileTaskIsPlain(w, views, info, gap, now, c, t - 1);
        PlainConcat(views, ColumnTasks(w, views, info, gap, now, c, t - 1),
                    TileTask(w, views, info, gap, now, c, t - 1));
      } else {
        PlainConcat(views, ColumnTasks(w, views, info, gap, now, c, t - 1), []);
      }
    }
  }

  lemma {:induction false} LayoutTasksArePlain(w: WorkspaceState, views: ViewTable, info: OutputInfo, gap: int,
                                               now: Time, c: nat)
    requires c <= |w.columns|
    ensures Plain(views, LayoutTasks(w, views, info, gap, now, c))
  {
    hide ColumnTasks;
    if c == 0 {
    } else {
      LayoutTasksArePlain(w, views, info, gap, now, c - 1);
      ColumnTasksArePlain(w, views, info, gap, now, c - 1, |w.columns[c - 1]|);
      PlainConcat(views, LayoutTasks(w, views, info, gap, now, c - 1),
                  ColumnTasks(w, views, info, gap, now, c - 1, |w.columns[c - 1]|));
    }
  }

  lemma ArrangingIsHarmless(w: WorkspaceState, s: Screen, env: Env, animate: bool)
    ensures Unharmed(s, Arrange(w, s, env, animate))
  {
    hide LayoutTasks, ArrangedViews, Pending;
    if w.output.Some? && w.output.value in env.outputs {
      var more := LayoutTasks(w, s.views, env.outputs[w.output.value], env.gap, env.now, |w.columns|);
      LayoutTasksArePlain(w, s.views, env.outputs[w.output.value], env.gap, env.now, |w.columns|);
      PendingConcat(s.tasks, more);
    }
  }

  lemma ArrangeKeeps(w: WorkspaceState, s: Screen, env: Env, animate: bool)
    ensures var r := Arrange(w, s, env, animate);
            Cores(r.views) == Cores(s.views) && r.views.Keys == s.views.Keys && SameSizes(s.views, r.views)
              && Unharmed(s, r)
  {
    hide Unharmed, LayoutTasks;
    ArrangingIsHarmless(w, s, env, animate);
    if w.output.Some? && w.output.value in env.outputs {
      var info := env.outputs[w.output.value];
      var animated := animate && !w.suspendAnimations;
      ArrangingKeepsCores(w, s.views, info, env.gap, animated);
      ArrangingKeepsSizes(w, s.views, info, env.gap, animated);
    }
  }

  // ---------------------------------------------------------------------------------------
  // What outlives a layout
  // ---------------------------------------------------------------------------------------

  /** How often v occurs in a workspace, tiled or floating. */
  function Occurrences(w: WorkspaceState, v: ViewId): nat
  {
    Count(w.columns, v) + multiset(w.floating)[v]
  }

  /** What a workspace relies on: every view is in one place, no column is empty, and the views and
      the output it points to exist. */
  ghost predicate WellFormed(w: WorkspaceState, views: ViewTable, env: Env)
  {
    && NoEmptyColumn(w.columns)
    && (forall v :: Occurrences(w, v) <= 1)
    && (forall v :: Occurrences(w, v) > 0 ==> v in views)
    && (w.output.Some? ==> w.output.value in env.outputs)
    && (w.fullscreen.Some? ==> w.fullscreen.value in views)
  }

  lemma WellFormedTiles(w: WorkspaceState, views: ViewTable, env: Env)
    requires WellFormed(w, views, env)
    ensures Distinct(w.columns)
    ensures forall c, t | 0 <= c < |w.columns| && 0 <= t < |w.columns[c]| :: w.columns[c][t].view in views
  {
    forall v
      ensures Count(w.columns, v) <= 1
    {
      assert Occurrences(w, v) <= 1;
    }
    CountedOnceIsDistinct(w.columns);
    forall c, t | 0 <= c < |w.columns| && 0 <= t < |w.columns[c]|
      ensures w.columns[c][t].view in views
    {
      var v := w.columns[c][t].view;
      HoldsView(w.columns[c], t);
      CountMember(w.columns, c, v);
      assert Occurrences(w, v) > 0;
    }
  }

  predicate IsNormalTile(col: Column, views: ViewTable, v: ViewId)
  {
    IsNormal(views, v) && HasView(col, v)
  }

  /** The first view of a stack that is a normal tile of a column. */
  function FirstTiled(stack: seq<ViewId>, col: Column, views: ViewTable): (v: Option<ViewId>)
    ensures v.Some? ==> v.value in stack && IsNormalTile(col, views, v.value)
  {
    if stack == [] then None
    else if IsNormalTile(col, views, stack[0]) then Some(stack[0])
    else FirstTiled(stack[1..], col, views)
  }

  // ---------------------------------------------------------------------------------------
  // add_view and remove_view
  // ---------------------------------------------------------------------------------------

  /** Right after nextTo, or at the end. */
  function FloatingAfter(floating: seq<ViewId>, v: ViewId, nextTo: Option<ViewId>): seq<ViewId>
  {
    var at := if nextTo.None? then |floating| else IndexOf(floating, nextTo.value);
    var at := if at < |floating| then at + 1 else at;
    floating[..at] + [v] + floating[at..]
  }

  lemma FloatingAfterElements(floating: seq<ViewId>, v: ViewId, nextTo: Option<ViewId>, u: ViewId)
    ensures multiset(FloatingAfter(floating, v, nextTo))[u] == multiset(floating)[u] + if u == v then 1 else 0
  {
    var at := if nextTo.None? then |floating| else IndexOf(floating, nextTo.value);
    var at' := if at < |floating| then at + 1 else at;
    assert floating == floating[..at'] + floating[at'..];
  }

  /** Behind its neighbour, if that floats, and otherwise last. */
  lemma FloatingGoesBehind(floating: seq<ViewId>, v: ViewId, nextTo: Option<ViewId>, k: nat)
    requires k <= |floating| && forall j | 0 <= j < k :: Some(floating[j]) != nextTo
    requires k < |floating| ==> Some(floating[k]) == nextTo
    ensures FloatingAfter(floating, v, nextTo) ==
            if k < |floating| then floating[..k + 1] + [v] + floating[k + 1..] else floating + [v]
  {
    if nextTo.Some? {
      assert IndexOf(floating, nextTo.value) == k;
    }
  }

  function WithView(w: WorkspaceState, v: ViewId, nextTo: Option<ViewId>, floating: bool): WorkspaceState
  {
    if floating then w.(floating := FloatingAfter(w.floating, v, nextTo))
    else w.(columns := AddColumn(w.columns, v, nextTo))
  }

  lemma WithViewOccurrences(w: WorkspaceState, v: ViewId, nextTo: Option<ViewId>, floating: bool, u: ViewId)
    ensures Occurrences(WithView(w, v, nextTo, floating), u) == Occurrences(w, u) + if u == v then 1 else 0
  {
    FloatingAfterElements(w.floating, v, nextTo, u);
    AddColumnCount(w.columns, v, nextTo, u);
  }

  lemma WellFormedWithView(w: WorkspaceState, views: ViewTable, env: Env, v: ViewId, nextTo: Option<ViewId>,
                           floating: bool)
    requires WellFormed(w, views, env) && v in views && Occurrences(w, v) == 0
    ensures WellFormed(WithView(w, v, nextTo, floating), views, env)
  {
    hide AddColumn, Occurrences, FloatingAfter;
    SurgeryKeepsColumnsFull(w.columns, v, nextTo);
    forall u
      ensures Occurrences(WithView(w, v, nextTo, floating), u) == Occurrences(w, u) + if u == v then 1 else 0
    {
      WithViewOccurrences(w, v, nextTo, floating, u);
    }
  }

  function AddView(w: WorkspaceState, s: Screen, env: Env, v: ViewId, nextTo: Option<ViewId>, floating: bool,
                   transferring: bool)
    : (WorkspaceState, Screen)
    requires v in s.views
  {
    var w' := WithView(w, v, nextTo, floating);
    var s' := if transferring then s
              else s.(views := s.views[v := s.views[v].(workspaceId := w.index).ChangeOutput(None, w.output)]);
    (w', Arrange(w', s', env, true))
  }

  function WithoutView(w: WorkspaceState, v: ViewId): WorkspaceState
  {
    w.(columns := RemoveView(w.columns, v), floating := Without(w.floating, v))
  }

  lemma WithoutViewOccurrences(w: WorkspaceState, v: ViewId, u: ViewId)
    requires Occurrences(w, v) <= 1
    ensures Occurrences(WithoutView(w, v), u) == if u == v then 0 else Occurrences(w, u)
  {
    RemoveViewCount(w.columns, v, u);
    WithoutElements(w.floating, v);
  }

  lemma WellFormedWithoutView(w: WorkspaceState, views: ViewTable, env: Env, v: ViewId)
    requires WellFormed(w, views, env)
    ensures WellFormed(WithoutView(w, v), views, env)
    ensures Occurrences(WithoutView(w, v), v) == 0
  {
    hide RemoveView, Occurrences;
    SurgeryKeepsColumnsFull(w.columns, v, None);
    forall u
      ensures Occurrences(WithoutView(w, v), u) == if u == v then 0 else Occurrences(w, u)
    {
      WithoutViewOccurrences(w, v, u);
    }
  }

  function Dismissed(w: WorkspaceState, v: ViewId): WorkspaceState
  {
    if w.fullscreen == Some(v) then w.(fullscreen := None) else w
  }

  lemma WellFormedDismissed(w: WorkspaceState, views: ViewTable, env: Env, v: ViewId)
    requires WellFormed(w, views, env)
    ensures WellFormed(Dismissed(w, v), views, env)
  {
    assert forall u :: Occurrences(Dismissed(w, v), u) == Occurrences(w, u);
  }

  function RemoveFromWorkspace(w: WorkspaceState, s: Screen, env: Env, v: ViewId, transferring: bool)
    : (WorkspaceState, Screen)
    requires v in s.views
  {
    var w' := WithoutView(if transferring then w else Dismissed(w, v), v);
    var s' := if transferring then s else s.(views := s.views[v := s.views[v].ChangeOutput(w.output, None)]);
    (w', Arrange(w', s', env, true))
  }

  // ---------------------------------------------------------------------------------------
  // insert_into_column and pop_from_column
  // ---------------------------------------------------------------------------------------

  /** Takes v out of its column and puts it at the bottom of column c, as wide as that column. */
  function Transferred(w: WorkspaceState, s: Screen, env: Env, v: ViewId, c: nat): (WorkspaceState, Screen)
    requires v in s.views && c < |w.columns| && FindColumn(w.columns, v) < |w.columns| && FindColumn(w.columns, v) != c
  {
    var width := WidthUpTo(w.columns[c], s.views, |w.columns[c]|);
    var (w1, s1) := RemoveFromWorkspace(w, s, env, v, true);
    (w1.(columns := InsertIntoColumn(w.columns, v, c)),
     s1.(views := s1.views[v := s1.views[v].(geometry := s1.views[v].geometry.(width := width))]))
  }

  function InsertView(w: WorkspaceState, s: Screen, env: Env, v: ViewId, c: nat): (WorkspaceState, Screen)
    requires v in s.views && c < |w.columns| && FindColumn(w.columns, v) < |w.columns| && FindColumn(w.columns, v) != c
  {
    var (w', s') := Transferred(w, s, env, v, c);
    (w', Arrange(w', s', env, true))
  }

  lemma InsertedOccurrences(w: WorkspaceState, v: ViewId, c: nat, u: ViewId)
    requires c < |w.columns| && FindColumn(w.columns, v) < |w.columns| && FindColumn(w.columns, v) != c
    requires Occurrences(w, v) <= 1
    ensures Occurrences(w.(columns := InsertIntoColumn(w.columns, v, c)), u) == Occurrences(w, u)
    ensures Occurrences(w, v) == 1 && v !in w.floating && Count(w.columns, v) == 1
  {
    hide InsertIntoColumn, Count, FindColumn;
    FindColumnIsMembership(w.columns, v);
    InsertIntoColumnCount(w.columns, v, c, u);
  }

  lemma InsertKeepsColumnsFull(cols: seq<Column>, v: ViewId, c: nat)
    requires NoEmptyColumn(cols) && c < |cols| && FindColumn(cols, v) != c
    ensures NoEmptyColumn(InsertIntoColumn(cols, v, c))
  {
    SurgeryKeepsColumnsFull(cols, v, None);
    hide RemoveView, FindColumn;
    var rest := RemoveView(cols, v);
    var at := IndexAfterRemoval(cols, v, c);
    var r := InsertIntoColumn(cols, v, c);
    assert forall d | 0 <= d < |r| :: r[d] == if d == at then rest[at] + [NewTile(v)] else rest[d];
  }

  lemma WellFormedInserted(w: WorkspaceState, views: ViewTable, env: Env, v: ViewId, c: nat)
    requires WellFormed(w, views, env)
    requires c < |w.columns| && FindColumn(w.columns, v) < |w.columns| && FindColumn(w.columns, v) != c
    ensures WellFormed(w.(columns := InsertIntoColumn(w.columns, v, c)), views, env)
    ensures Occurrences(w, v) == 1 && v in views && Without(w.floating, v) == w.floating
  {
    hide InsertIntoColumn, FindColumn, Occurrences, Without;
    var w' := w.(columns := InsertIntoColumn(w.columns, v, c));
    assert Occurrences(w, v) <= 1;
    forall u
      ensures Occurrences(w', u) == Occurrences(w, u)
    {
      InsertedOccurrences(w, v, c, u);
    }
    InsertedOccurrences(w, v, c, v);
    WithoutAbsent(w.floating, v);
    InsertKeepsColumnsFull(w.columns, v, c);
  }

  function PopColumn(w: WorkspaceState, s: Screen, env: Env, c: nat): (WorkspaceState, Screen)
    requires c < |w.columns|
  {
    var col := w.columns[c];
    if |col| < 2 || col[|col| - 1].view !in s.views then (w, s)
    else
      var popped := col[|col| - 1].view;
      var (w1, s1) := RemoveFromWorkspace(w, s, env, popped, true);
      var (w2, s2) := AddView(w1, s1, env, popped, Some(col[0].view), false, true);
      (w2, Arrange(w2, s2, env, true))
  }

  // ---------------------------------------------------------------------------------------
  // fit_view_on_screen
  // ---------------------------------------------------------------------------------------

  lemma WellFormedScrolled(w: WorkspaceState, w': WorkspaceState, views: ViewTable, env: Env)
    requires WellFormed(w, views, env) && w'.(scrollX := w.scrollX) == w
    ensures WellFormed(w', views, env)
  {
    assert forall u :: Occurrences(w', u) == Occurrences(w, u);
  }

  function FitView(w: WorkspaceState, s: Screen, env: Env, v: ViewId, condense: bool): (WorkspaceState, Screen)
  {
    if !IsNormal(s.views, v) || FindColumn(w.columns, v) == |w.columns| || w.output.None?
      || w.output.value !in env.outputs
    then (w, s)
    else
      var w' := w.(scrollX := FitScroll(w, s.views, env.outputs[w.output.value], env.gap, v, condense));
      (w', Arrange(w', s, env, true))
  }

  lemma FitKeeps(w: WorkspaceState, s: Screen, env: Env, v: ViewId, condense: bool)
    ensures var (w', s') := FitView(w, s, env, v, condense);
            && w'.(scrollX := w.scrollX) == w
            && Cores(s'.views) == Cores(s.views) && s'.views.Keys == s.views.Keys
            && SameSizes(s.views, s'.views) && Unharmed(s, s')
  {
    var w' := FitView(w, s, env, v, condense).0;
    hide FitScroll;
    ArrangeKeeps(w', s, env, true);
  }

  // ---------------------------------------------------------------------------------------
  // set_fullscreen_view
  // ---------------------------------------------------------------------------------------

  /** The view that was fullscreen goes back to where it was saved, but takes part in the layout
      only when its client has taken its old size again. */
  function Unfullscreened(v: View): View
    requires v.saved.Some?
  {
    var s := v.saved.value;
    v.(expansion := Recovering, saved := None).Move(s.x, s.y).Resize(s.width, s.height)
  }

  function ExitFullscreen(s: Screen, v: ViewId): Screen
  {
    if v !in s.views then s
    else if s.views[v].saved.None? then s.(fault := true)
    else s.(views := s.views[v := Unfullscreened(s.views[v])])
  }

  predicate CanSave(v: View)
  {
    v.saved.None? && v.expansion == Normal
  }

  function Fullscreened(v: View): View
  {
    v.(saved := Some(SavedState(v.x, v.y, v.geometry.width, v.geometry.height)), expansion := Fullscreen)
  }

  function EnterFullscreen(s: Screen, v: ViewId): Screen
  {
    if v !in s.views then s
    else if !CanSave(s.views[v]) then s.(fault := true)
    else s.(views := s.views[v := Fullscreened(s.views[v])])
  }

  lemma WellFormedFullscreen(w: WorkspaceState, a: ViewTable, b: ViewTable, env: Env, v: Option<ViewId>)
    requires WellFormed(w, a, env) && a.Keys == b.Keys && (v.Some? ==> v.value in a)
    ensures WellFormed(w.(fullscreen := v), b, env)
  {
    assert forall u :: Occurrences(w.(fullscreen := v), u) == Occurrences(w, u);
  }

  function SetFullscreen(w: WorkspaceState, s: Screen, env: Env, v: Option<ViewId>): (WorkspaceState, Screen)
  {
    var s1 := if w.fullscreen.Some? then ExitFullscreen(s, w.fullscreen.value) else s;
    var s2 := if v.Some? then EnterFullscreen(s1, v.value) else s1;
    var w' := w.(fullscreen := v);
    (w', Arrange(w', s2, env, true))
  }

  // ---------------------------------------------------------------------------------------
  // activate and deactivate
  // ---------------------------------------------------------------------------------------

  /** Tells one more occurrence of a view about a change of outputs. */
  function Notified(views: ViewTable, ids: seq<ViewId>, before: Option<OutputId>, after: Option<OutputId>)
    : (r: ViewTable)
    ensures r.Keys == views.Keys
  {
    if ids == [] then views
    else
      var front := Notified(views, ids[..|ids| - 1], before, after);
      var v := ids[|ids| - 1];
      if v !in front then front else front[v := front[v].ChangeOutput(before, after)]
  }

  /** The views of a workspace in the order they are told: tiles column by column, then floating. */
  function ColumnViews(col: Column, k: nat): (r: seq<ViewId>)
    requires k <= |col|
    ensures |r| == k
    ensures forall i | 0 <= i < k :: r[i] == col[i].view
  {
    seq(k, i requires 0 <= i < k => col[i].view)
  }

  function TiledViews(cols: seq<Column>, c: nat): seq<ViewId>
    requires c <= |cols|
  {
    if c == 0 then [] else TiledViews(cols, c - 1) + ColumnViews(cols[c - 1], |cols[c - 1]|)
  }

  function AllViews(w: WorkspaceState): seq<ViewId>
  {
    TiledViews(w.columns, |w.columns|) + w.floating
  }

  predicate ViewsKnown(w: WorkspaceState, views: ViewTable)
  {
    forall i | 0 <= i < |AllViews(w)| :: AllViews(w)[i] in views
  }

  lemma NotifiedNext(views: ViewTable, ids: seq<ViewId>, before: Option<OutputId>, after: Option<OutputId>, k: nat)
    requires k < |ids| && forall i | 0 <= i < |ids| :: ids[i] in views
    ensures ids[k] in views
    ensures var front := Notified(views, ids[..k], before, after);
            Notified(views, ids[..k + 1], before, after) == front[ids[k] := front[ids[k]].ChangeOutput(before, after)]
  {
    assert ids[..k + 1][..k] == ids[..k];
  }

  lemma ColumnInAll(w: WorkspaceState, c: nat)
    requires c < |w.columns|
    ensures |TiledViews(w.columns, c)| + |w.columns[c]| == |TiledViews(w.columns, c + 1)| <= |AllViews(w)|
  {
    TiledViewsGrow(w.columns, c + 1, |w.columns|);
  }

  /** The place of a tile among all views of its workspace. */
  lemma TileInAll(w: WorkspaceState, c: nat, t: nat)
    requires c < |w.columns| && t < |w.columns[c]|
    ensures |TiledViews(w.columns, c)| + |w.columns[c]| == |TiledViews(w.columns, c + 1)| <= |AllViews(w)|
    ensures AllViews(w)[|TiledViews(w.columns, c)| + t] == w.columns[c][t].view
  {
    TiledViewsGrow(w.columns, c + 1, |w.columns|);
    assert TiledViews(w.columns, c + 1)[|TiledViews(w.columns, c)| + t] == w.columns[c][t].view;
  }

  lemma FloatingInAll(w: WorkspaceState, i: nat)
    requires i < |w.floating|
    ensures |AllViews(w)| == |TiledViews(w.columns, |w.columns|)| + |w.floating|
    ensures AllViews(w)[|TiledViews(w.columns, |w.columns|)| + i] == w.floating[i]
  {
  }

  lemma {:induction false} TiledViewsGrow(cols: seq<Column>, c: nat, d: nat)
    requires c <= d <= |cols|
    ensures TiledViews(cols, c) <= TiledViews(cols, d)
  {
    if c == d {
    } else {
      TiledViewsGrow(cols, c, d - 1);
    }
  }

  function Activate(w: WorkspaceState, s: Screen, output: OutputId): (WorkspaceState, Screen)
  {
    (w.(output := Some(output)), s.(views := Notified(s.views, AllViews(w), w.output, Some(output))))
  }

  function Deactivate(w: WorkspaceState, s: Screen): (WorkspaceState, Screen)
  {
    if w.output.None? then (w, s)
    else (w.(output := None), s.(views := Notified(s.views, AllViews(w), w.output, None)))
  }

  lemma {:induction false} ColumnViewsCount(col: Column, v: ViewId, k: nat)
    requires k <= |col|
    ensures multiset(ColumnViews(col, k))[v] == CountIn(col[..k], v)
  {
    if k == 0 {
    } else {
      ColumnViewsCount(col, v, k - 1);
      assert ColumnViews(col, k) == ColumnViews(col, k - 1) + [col[k - 1].view];
      assert col[..k][..k - 1] == col[..k - 1];
    }
  }

  lemma {:induction false} TiledViewsCount(cols: seq<Column>, v: ViewId, c: nat)
    requires c <= |cols|
    ensures multiset(TiledViews(cols, c))[v] == Count(cols[..c], v)
  {
    if c == 0 {
    } else {
      TiledViewsCount(cols, v, c - 1);
      ColumnViewsCount(cols[c - 1], v, |cols[c - 1]|);
      assert cols[c - 1][..|cols[c - 1]|] == cols[c - 1];
      assert cols[..c][..c - 1] == cols[..c - 1];
    }
  }

  lemma AllViewsCount(w: WorkspaceState, v: ViewId)
    ensures multiset(AllViews(w))[v] == Occurrences(w, v)
  {
    TiledViewsCount(w.columns, v, |w.columns|);
    assert w.columns[..|w.columns|] == w.columns;
  }

  lemma OccurringViewsKnown(w: WorkspaceState, views: ViewTable)
    requires forall v :: Occurrences(w, v) > 0 ==> v in views
    ensures ViewsKnown(w, views)
  {
    forall i | 0 <= i < |AllViews(w)|
      ensures AllViews(w)[i] in views
    {
      var v := AllViews(w)[i];
      AllViewsCount(w, v);
      assert v in multiset(AllViews(w));
      assert Occurrences(w, v) > 0;
    }
  }

  /** A view that occurs once is told once; the others are not told at all. */
  lemma {:induction false} NotifiedOnce(views: ViewTable, ids: seq<ViewId>, before: Option<OutputId>,
                                        after: Option<OutputId>, v: ViewId)
    requires forall i | 0 <= i < |ids| :: ids[i] in views
    requires v in views && multiset(ids)[v] <= 1
    ensures Notified(views, ids, before, after)[v] ==
            if multiset(ids)[v] == 1 then views[v].ChangeOutput(before, after) else views[v]
  {
    if ids == [] {
    } else {
      var front := ids[..|ids| - 1];
      assert ids == front + [ids[|ids| - 1]];
      NotifiedOnce(views, front, before, after, v);
    }
  }
}
