/** Why every animated view ends on its latest target, however many animations overlap. */
module AnimationRuns {
  import opened Prelude
  import opened Views
  import opened Columns
  import opened Rearranging
  import opened Layout
  import opened Animation
  import opened AnimationQueue
  import opened Tiling

  // ---------------------------------------------------------------------------------------
  // What can happen to views and their animations
  // ---------------------------------------------------------------------------------------

  /** due: how many tasks in front of the queue the tick under way, of time tick, has still to take. tracked: the
      views that were last moved by animations towards their targets. */
  datatype QueueState = QueueState(views: ViewTable, tasks: seq<Task>, tracked: set<ViewId>, clock: Time, due: nat,
                                   tick: Time)

  /** A workspace is laid out with animation, by a command or by what an animation wants done at its end, in
      the middle of a tick; views slide by switching workspaces; views change in any other way, or come and go;
      a view's tasks are cancelled because it goes away; the timer starts a tick; the tick takes one task. */
  datatype QueueStep =
    | LaidOut(w: WorkspaceState, env: Env)
    | Slid(more: seq<Task>, now: Time)
    | Changed(after: ViewTable)
    | CancelledFor(view: ViewId)
    | TickStarted(now: Time)
    | TaskTaken

  /** The last task queued for v that will still run. */
  function LastLive(tasks: seq<Task>, v: ViewId): (t: Option<Task>)
    ensures t.Some? ==> t.value in tasks && t.value.view == v && !t.value.cancelled
  {
    if tasks == [] then None
    else
      var t := tasks[|tasks| - 1];
      if t.view == v && !t.cancelled then Some(t) else LastLive(tasks[..|tasks| - 1], v)
  }

  predicate AimsAt(t: Option<Task>, v: View)
  {
    t.Some? && t.value.targetX == v.targetX && t.value.targetY == v.targetY
  }

  /** Whether v takes part in the layout of a workspace. */
  predicate TakesPart(w: WorkspaceState, views: ViewTable, v: ViewId)
  {
    IsNormal(views, v) && TiledIn(w, v)
  }

  predicate TiledIn(w: WorkspaceState, v: ViewId)
  {
    FindColumn(w.columns, v) < |w.columns|
  }

  /** A workspace on an output, in which no view is tiled twice. */
  ghost predicate CanLayOut(w: WorkspaceState, env: Env)
  {
    Distinct(w.columns) && w.output.Some? && w.output.value in env.outputs
  }

  /** The tick under way has no older animation still to come to that will go on afterwards. */
  predicate Punctual(s: QueueState, v: ViewId, duration: int)
    requires duration > 0 && s.due <= |s.tasks|
  {
    LastLive(Survivors(s.tasks[..s.due], s.tick, duration), v) == None
  }

  ghost predicate Enabled(s: QueueState, step: QueueStep, duration: int)
    requires duration > 0
  {
    match step
    case LaidOut(w, env) =>
      && CanLayOut(w, env) && !w.suspendAnimations && s.clock <= env.now && s.due <= |s.tasks|
      && forall v | TakesPart(w, s.views, v) :: Punctual(s, v, duration)
    case Slid(more, now) =>
      && s.due == 0 && s.clock <= now
      && forall i | 0 <= i < |more| :: more[i].view in s.views && !more[i].cancelled && more[i].begin == now
    case Changed(after) => TasksKnown(after, s.tasks)
    case CancelledFor(v) => v in s.views && s.due == 0
    case TickStarted(now) => s.clock <= now && s.due == 0
    case TaskTaken => 0 < s.due <= |s.tasks|
  }

  function SamePlace(a: View, b: View): bool
  {
    a.x == b.x && a.y == b.y && a.targetX == b.targetX && a.targetY == b.targetY
  }

  /** After a layout its tiles are tracked, and its fullscreen view, which was just put somewhere, is not. */
  function Relaid(s: QueueState, w: WorkspaceState, env: Env): QueueState
  {
    var r := Arrange(w, Screen(s.views, s.tasks, false), env, true);
    var placed := set v | v in s.views && w.fullscreen == Some(v);
    var tiled := set v | v in s.views && TakesPart(w, s.views, v);
    s.(views := r.views, tasks := r.tasks, clock := env.now, tracked := s.tracked - placed + tiled)
  }

  /** Of the views that slide those are tracked that slide to their targets. */
  function SlidOn(s: QueueState, more: seq<Task>, now: Time): QueueState
  {
    var home := set v | v in s.views && AimsAt(LastLive(more, v), s.views[v]);
    var away := set v | v in s.views && LastLive(more, v).Some?;
    s.(tasks := s.tasks + more, clock := now, tracked := s.tracked - away + home)
  }

  /** Views that change place in any other way are no longer tracked. */
  function ChangedTo(s: QueueState, after: ViewTable): QueueState
  {
    s.(views := after, tracked := set v | v in s.tracked && v in s.views && v in after
       && SamePlace(s.views[v], after[v]))
  }

  function TakenOff(s: QueueState, duration: int): QueueState
    requires duration > 0
  {
    if s.tasks == [] || s.due == 0 then s
    else
      var (views, tasks, _) := FrontRun(s.views, s.tasks, s.tick, duration);
      s.(views := views, tasks := tasks, due := s.due - 1)
  }

  function Next(s: QueueState, step: QueueStep, duration: int): QueueState
    requires duration > 0
  {
    match step
    case LaidOut(w, env) => Relaid(s, w, env)
    case Slid(more, now) => SlidOn(s, more, now)
    case Changed(after) => ChangedTo(s, after)
    case CancelledFor(v) =>
      s.(views := if HasTask(s.tasks, v) && v in s.views then s.views[v := Warped(s.views[v])] else s.views,
         tasks := Cancelled(s.tasks, v))
    case TickStarted(now) => s.(clock := now, due := |s.tasks|, tick := now)
    case TaskTaken => TakenOff(s, duration)
  }

  ghost predicate CanRun(s: QueueState, steps: seq<QueueStep>, duration: int)
    requires duration > 0
    decreases |steps|
  {
    steps != [] ==> Enabled(s, steps[0], duration) && CanRun(Next(s, steps[0], duration), steps[1..], duration)
  }

  function Run(s: QueueState, steps: seq<QueueStep>, duration: int): QueueState
    requires duration > 0
    decreases |steps|
  {
    if steps == [] then s else Run(Next(s, steps[0], duration), steps[1..], duration)
  }

  // ---------------------------------------------------------------------------------------
  // Settling
  // ---------------------------------------------------------------------------------------

  /** v is where it should be, or the last thing that will happen to it is to be moved there. */
  predicate Settling(views: ViewTable, tasks: seq<Task>, v: ViewId)
    requires v in views
  {
    match LastLive(tasks, v)
    case None => views[v].x == views[v].targetX && views[v].y == views[v].targetY
    case Some(_) => AimsAt(LastLive(tasks, v), views[v])
  }

  /** The state when the tick under way has taken all its tasks, if nothing else happens before. */
  function EndOfTick(s: QueueState, duration: int): QueueState
    requires duration > 0 && s.due <= |s.tasks|
  {
    s.(views := TickViews(s.views, s.tasks[..s.due], s.tick, duration),
       tasks := s.tasks[s.due..] + Survivors(s.tasks[..s.due], s.tick, duration), due := 0)
  }

  /** The tasks of each view are queued in the order they began. */
  ghost predicate InOrder(tasks: seq<Task>)
  {
    forall i, j | 0 <= i < j < |tasks| && tasks[i].view == tasks[j].view && !tasks[i].cancelled
      && !tasks[j].cancelled ::
      tasks[i].begin <= tasks[j].begin
  }

  ghost predicate BegunBy(tasks: seq<Task>, clock: Time)
  {
    forall i | 0 <= i < |tasks| :: tasks[i].begin <= clock
  }

  ghost predicate QueueOk(s: QueueState, duration: int)
    requires duration > 0
  {
    && s.due <= |s.tasks| && s.tracked <= s.views.Keys
    && TasksKnown(s.views, s.tasks) && BegunBy(s.tasks, s.clock)
    && var end := EndOfTick(s, duration);
       && InOrder(end.tasks)
       && forall v | v in s.tracked :: Settling(end.views, end.tasks, v)
  }

  lemma LastLiveAppended(tasks: seq<Task>, t: Task, v: ViewId)
    ensures LastLive(tasks + [t], v) == if t.view == v && !t.cancelled then Some(t) else LastLive(tasks, v)
  {
    assert (tasks + [t])[..|tasks|] == tasks;
  }

  lemma {:induction false} LastLiveConcat(a: seq<Task>, b: seq<Task>, v: ViewId)
    ensures LastLive(a + b, v) == if LastLive(b, v).Some? then LastLive(b, v) else LastLive(a, v)
  {
    if b == [] {
      assert a + b == a;
    } else {
      LastLiveConcat(a, b[..|b| - 1], v);
      assert (a + b)[..|a + b| - 1] == a + b[..|b| - 1];
    }
  }

  /** Where the layout looks for the tile of v: in column d, as tile u. */
  ghost predicate TileOf(w: WorkspaceState, views: ViewTable, v: ViewId, d: nat, u: nat)
  {
    d < |w.columns| && u < |w.columns[d]| && w.columns[d][u].view == v && IsNormal(views, v)
  }

  /** The one task a layout queues for a tile. */
  function TheTask(w: WorkspaceState, views: ViewTable, info: OutputInfo, gap: int, now: Time, d: nat, u: nat): Task
    requires d < |w.columns| && u < |w.columns[d]| && IsNormal(views, w.columns[d][u].view)
  {
    TileTask(w, views, info, gap, now, d, u)[0]
  }

  lemma {:induction false} LastLiveInColumn(w: WorkspaceState, views: ViewTable, info: OutputInfo, gap: int, now: Time,
                                            c: nat, t: nat,
                                            v: ViewId, d: nat, u: nat)
    requires Distinct(w.columns) && TileOf(w, views, v, d, u) && c < |w.columns| && t <= |w.columns[c]|
    ensures LastLive(ColumnTasks(w, views, info, gap, now, c, t), v) ==
            if c == d && u < t then Some(TheTask(w, views, info, gap, now, d, u)) else None
  {
    hide Distinct, WindowBox, Placed, BeforeTiling;
    if t == 0 {
    } else {
      LastLiveInColumn(w, views, info, gap, now, c, t - 1, v, d, u);
      SameTile(w.columns, c, t - 1, d, u);
      if IsNormal(views, w.columns[c][t - 1].view) {
        LastLiveAppended(ColumnTasks(w, views, info, gap, now, c, t - 1), TheTask(w, views, info, gap, now, c, t - 1),
                         v);
      } else {
        NothingAppended(ColumnTasks(w, views, info, gap, now, c, t - 1));
      }
    }
  }

  lemma NothingAppended(tasks: seq<Task>)
    ensures tasks + [] == tasks
  {
  }

  lemma SameTile(cols: seq<Column>, c: nat, t: nat, d: nat, u: nat)
    requires Distinct(cols) && c < |cols| && t < |cols[c]| && d < |cols| && u < |cols[d]|
    ensures cols[c][t].view == cols[d][u].view ==> c == d && t == u
  {
    FindAt(cols, c, t);
    FindAt(cols, d, u);
  }

  lemma {:induction false} LastLiveInLayout(w: WorkspaceState, views: ViewTable, info: OutputInfo, gap: int, now: Time,
                                            c: nat,
                                            v: ViewId, d: nat, u: nat)
    requires Distinct(w.columns) && TileOf(w, views, v, d, u) && c <= |w.columns|
    ensures LastLive(LayoutTasks(w, views, info, gap, now, c), v) ==
            if d < c then Some(TheTask(w, views, info, gap, now, d, u)) else None
  {
    hide Distinct, ColumnTasks, TheTask;
    if c == 0 {
    } else {
      LastLiveInLayout(w, views, info, gap, now, c - 1, v, d, u);
      LastLiveInColumn(w, views, info, gap, now, c - 1, |w.columns[c - 1]|, v, d, u);
      LastLiveConcat(LayoutTasks(w, views, info, gap, now, c - 1),
                     ColumnTasks(w, views, info, gap, now, c - 1, |w.columns[c - 1]|), v);
    }
  }

  /** What a layout queues moves normal tiles, and begins now. */
  ghost predicate TasksOfTiles(w: WorkspaceState, views: ViewTable, now: Time, tasks: seq<Task>)
  {
    forall i | 0 <= i < |tasks| ::
      tasks[i].begin == now && !tasks[i].cancelled && IsNormal(views, tasks[i].view) && TiledIn(w, tasks[i].view)
  }

  lemma {:induction false} ColumnTasksOfTiles(w: WorkspaceState, views: ViewTable, info: OutputInfo, gap: int,
                                              now: Time, c: nat, t: nat)
    requires Distinct(w.columns) && c < |w.columns| && t <= |w.columns[c]|
    ensures TasksOfTiles(w, views, now, ColumnTasks(w, views, info, gap, now, c, t))
  {
    hide WindowBox, Placed, BeforeTiling, Distinct, FindColumn;
    if t == 0 {
    } else {
      ColumnTasksOfTiles(w, views, info, gap, now, c, t - 1);
      FindAt(w.columns, c, t - 1);
    }
  }

  lemma {:induction false} LayoutTasksOfTiles(w: WorkspaceState, views: ViewTable, info: OutputInfo, gap: int,
                                              now: Time, c: nat)
    requires Distinct(w.columns) && c <= |w.columns|
    ensures TasksOfTiles(w, views, now, LayoutTasks(w, views, info, gap, now, c))
  {
    hide ColumnTasks, Distinct;
    if c == 0 {
    } else {
      LayoutTasksOfTiles(w, views, info, gap, now, c - 1);
      ColumnTasksOfTiles(w, views, info, gap, now, c - 1, |w.columns[c - 1]|);
    }
  }

  lemma {:induction false} NoLiveTask(tasks: seq<Task>, v: ViewId)
    requires forall i | 0 <= i < |tasks| :: tasks[i].view != v
    ensures LastLive(tasks, v) == None
  {
    if tasks == [] {
    } else {
      NoLiveTask(tasks[..|tasks| - 1], v);
    }
  }

  // ---------------------------------------------------------------------------------------
  // Ticks
  // ---------------------------------------------------------------------------------------

  lemma HeadAndTail(tasks: seq<Task>, v: ViewId)
    requires tasks != []
    ensures LastLive(tasks, v) == if LastLive(tasks[1..], v).Some? then LastLive(tasks[1..], v)
                                  else if tasks[0].view == v && !tasks[0].cancelled then Some(tasks[0]) else None
  {
    assert tasks == [tasks[0]] + tasks[1..];
    LastLiveConcat([tasks[0]], tasks[1..], v);
    LastLiveAppended([], tasks[0], v);
    assert [] + [tasks[0]] == [tasks[0]];
  }

  /** Of all tasks of a view the last one decides where a tick leaves it. */
  lemma {:induction false} TickPlace(views: ViewTable, tasks: seq<Task>, now: Time, duration: int, v: ViewId)
    requires duration > 0 && v in views
    ensures TickViews(views, tasks, now, duration)[v] ==
            match LastLive(tasks, v) case None => views[v] case Some(t) => Animated(views[v], t, now, duration)
  {
    hide Interpolated, IsFinished, LastLive;
    if tasks == [] {
      NoLiveTask(tasks, v);
    } else {
      HeadAndTail(tasks, v);
      TickPlace(FrontRun(views, tasks, now, duration).0, tasks[1..], now, duration, v);
    }
  }

  lemma SurvivorsOf(tasks: seq<Task>, now: Time, duration: int, v: ViewId)
    requires duration > 0 && tasks != []
    ensures LastLive(Survivors(tasks, now, duration), v) ==
            var rest := LastLive(Survivors(tasks[1..], now, duration), v);
            if rest.Some? then rest
            else if tasks[0].view == v && !tasks[0].cancelled && !IsFinished(tasks[0], now, duration) then
              Some(tasks[0])
            else None
  {
    hide IsFinished, LastLive;
    var rest := Survivors(tasks[1..], now, duration);
    if tasks[0].cancelled || IsFinished(tasks[0], now, duration) {
      assert [] + rest == rest;
    } else {
      assert ([tasks[0]] + rest)[1..] == rest;
      HeadAndTail([tasks[0]] + rest, v);
    }
  }

  /** A tick leaves a view without tasks exactly if it had none or, the tasks being in order, the last one is
      finished; an unfinished last task stays the last. */
  lemma {:induction false} LastSurvivor(tasks: seq<Task>, now: Time, duration: int, v: ViewId)
    requires 0 < duration < MAX_DURATION && BegunBy(tasks, now) && InOrder(tasks)
    ensures LastLive(Survivors(tasks, now, duration), v) ==
            match LastLive(tasks, v)
            case None => None
            case Some(t) => if IsFinished(t, now, duration) then None else Some(t)
  {
    hide IsFinished, LastLive;
    if tasks == [] {
      NoLiveTask(tasks, v);
    } else {
      HeadAndTail(tasks, v);
      SurvivorsOf(tasks, now, duration, v);
      LastSurvivor(tasks[1..], now, duration, v);
      match LastLive(tasks[1..], v)
      case None =>
      case Some(t) =>
        if tasks[0].view == v && !tasks[0].cancelled && IsFinished(t, now, duration) {
          var j :| 0 < j < |tasks| && tasks[j] == t;
          EarlierFinishesFirst(tasks[0], t, now, duration);
        }
    }
  }

  lemma EarlierFinishesFirst(f: Task, t: Task, now: Time, duration: int)
    requires 0 < duration < MAX_DURATION && f.begin <= t.begin <= now && IsFinished(t, now, duration)
    ensures IsFinished(f, now, duration)
  {
    FinishedMeansElapsed(Elapsed(t.begin, now), duration);
    FinishedMeansElapsed(Elapsed(f.begin, now), duration);
  }

  lemma {:induction false} SurvivorsAreTasks(tasks: seq<Task>, now: Time, duration: int)
    requires duration > 0
    ensures forall t | t in Survivors(tasks, now, duration) ::
              t in tasks && !t.cancelled && !IsFinished(t, now, duration)
  {
    if tasks == [] {
    } else {
      SurvivorsAreTasks(tasks[1..], now, duration);
    }
  }

  lemma {:induction false} SurvivorsInOrder(tasks: seq<Task>, now: Time, duration: int)
    requires duration > 0 && InOrder(tasks)
    ensures InOrder(Survivors(tasks, now, duration))
  {
    hide IsFinished;
    if tasks == [] {
    } else {
      var rest := Survivors(tasks[1..], now, duration);
      SurvivorsInOrder(tasks[1..], now, duration);
      SurvivorsAreTasks(tasks[1..], now, duration);
      forall i | 0 <= i < |rest| && rest[i].view == tasks[0].view && !tasks[0].cancelled
        ensures tasks[0].begin <= rest[i].begin
      {
        assert rest[i] in tasks[1..];
        var j :| 0 < j < |tasks| && tasks[j] == rest[i];
      }
    }
  }

  /** Taking one task brings the tick no further than it was going anyway. */
  lemma TakingOneEndsAlike(s: QueueState, duration: int)
    requires duration > 0 && 0 < s.due <= |s.tasks|
    ensures var t := TakenOff(s, duration);
            t.due <= |t.tasks| && EndOfTick(t, duration) == EndOfTick(s, duration)
  {
    hide Animated, IsFinished;
    var t := TakenOff(s, duration);
    var front := s.tasks[..s.due];
    assert s.tasks[1..][..s.due - 1] == front[1..];
    assert t.tasks[..t.due] == front[1..];
    assert s.tasks[1..][s.due - 1..] == s.tasks[s.due..];
    var stays := if s.tasks[0].cancelled || IsFinished(s.tasks[0], s.tick, duration) then [] else [s.tasks[0]];
    assert t.tasks == s.tasks[1..] + stays;
    assert t.tasks[t.due..] == s.tasks[s.due..] + stays;
    var rest := Survivors(front[1..], s.tick, duration);
    assert s.tasks[s.due..] + (stays + rest) == s.tasks[s.due..] + stays + rest;
  }

  lemma NoTickUnderWay(s: QueueState, duration: int)
    requires duration > 0 && s.due == 0
    ensures EndOfTick(s, duration) == s
  {
    assert s.tasks[..0] == [];
    assert s.tasks[0..] + [] == s.tasks;
  }

  /** The tick comes to its end when it has taken as many tasks as the queue held. */
  lemma {:induction false} TickComesToItsEnd(s: QueueState, duration: int)
    requires duration > 0 && s.due <= |s.tasks|
    ensures var steps := seq(s.due, _ => TaskTaken);
            CanRun(s, steps, duration) && Run(s, steps, duration) == EndOfTick(s, duration)
    decreases s.due
  {
    hide EndOfTick, TakenOff;
    var steps := seq(s.due, _ => TaskTaken);
    if s.due == 0 {
      NoTickUnderWay(s, duration);
    } else {
      TakingOneEndsAlike(s, duration);
      OneTaken(s, duration);
      var t := TakenOff(s, duration);
      TickComesToItsEnd(t, duration);
      assert steps[1..] == seq(t.due, _ => TaskTaken);
    }
  }

  lemma OneTaken(s: QueueState, duration: int)
    requires duration > 0 && 0 < s.due <= |s.tasks|
    ensures TakenOff(s, duration).due == s.due - 1
  {
  }

  // ---------------------------------------------------------------------------------------
  // Every step preserves that views settle
  // ---------------------------------------------------------------------------------------

  /** Where a layout in the middle of a tick leaves the tasks when the tick is over. */
  lemma RelaidQueue(s: QueueState, w: WorkspaceState, env: Env, duration: int)
    requires duration > 0 && s.due <= |s.tasks| && CanLayOut(w, env) && !w.suspendAnimations
    ensures var info := env.outputs[w.output.value];
            var more := LayoutTasks(w, s.views, info, env.gap, env.now, |w.columns|);
            var t := Relaid(s, w, env);
            && t.views == ArrangedViews(w, s.views, info, env.gap, true) && t.tasks == s.tasks + more
            && t.due <= |t.tasks| && t.tasks[..t.due] == s.tasks[..s.due]
            && EndOfTick(t, duration).tasks == s.tasks[s.due..] + more + Survivors(s.tasks[..s.due], s.tick, duration)
            && EndOfTick(t, duration).views == TickViews(t.views, s.tasks[..s.due], s.tick, duration)
  {
    hide LayoutTasks, ArrangedViews, Survivors, TickViews, FindColumn;
    var info := env.outputs[w.output.value];
    var more := LayoutTasks(w, s.views, info, env.gap, env.now, |w.columns|);
    var t := Relaid(s, w, env);
    assert t.tasks == s.tasks + more;
    assert (s.tasks + more)[..s.due] == s.tasks[..s.due];
    assert (s.tasks + more)[s.due..] == s.tasks[s.due..] + more;
  }

  /** A view that is laid out settles on its new target, as far as the tick under way is concerned, exactly when
      the tick has no older animation still to come to that goes on afterwards, or the
      last such animation goes to the same place. */
  lemma RelaidSettlesExactlyWhen(s: QueueState, w: WorkspaceState, env: Env, duration: int, v: ViewId)
    requires duration > 0 && s.due <= |s.tasks| && CanLayOut(w, env) && !w.suspendAnimations
    requires v in s.views && TakesPart(w, s.views, v)
    ensures var end := EndOfTick(Relaid(s, w, env), duration);
            && v in end.views
            && (Settling(end.views, end.tasks, v) <==>
                var older := LastLive(Survivors(s.tasks[..s.due], s.tick, duration), v);
                older == None || AimsAt(older, Relaid(s, w, env).views[v]))
  {
    hide WindowBox, Distinct, LayoutTasks, FindColumn, FindTile, EndOfTick, Relaid, TickViews, Survivors;
    var info := env.outputs[w.output.value];
    var more := LayoutTasks(w, s.views, info, env.gap, env.now, |w.columns|);
    var t := Relaid(s, w, env);
    RelaidQueue(s, w, env, duration);
    TickPlace(t.views, s.tasks[..s.due], s.tick, duration, v);
    LastLiveConcat(s.tasks[s.due..] + more, Survivors(s.tasks[..s.due], s.tick, duration), v);
    LastLiveConcat(s.tasks[s.due..], more, v);
    LayoutAimsAtTarget(w, s.views, env, v);
  }

  lemma LayoutAimsAtTarget(w: WorkspaceState, views: ViewTable, env: Env, v: ViewId)
    requires CanLayOut(w, env) && v in views && TakesPart(w, views, v)
    ensures var info := env.outputs[w.output.value];
            var more := LayoutTasks(w, views, info, env.gap, env.now, |w.columns|);
            AimsAt(LastLive(more, v), ArrangedViews(w, views, info, env.gap, true)[v])
  {
    hide WindowBox, Distinct, LayoutTasks, FindColumn, FindTile;
    var info := env.outputs[w.output.value];
    var d := FindColumn(w.columns, v);
    TileFound(w.columns[d], v);
    LastLiveInLayout(w, views, info, env.gap, env.now, |w.columns|, v, d, FindTile(w.columns[d], v));
  }

  lemma RelaidLeavesAlone(s: QueueState, w: WorkspaceState, env: Env, duration: int, v: ViewId)
    requires duration > 0 && s.due <= |s.tasks| && CanLayOut(w, env) && !w.suspendAnimations
    requires v in s.views && !TakesPart(w, s.views, v) && w.fullscreen != Some(v)
    ensures var end, t := EndOfTick(s, duration), EndOfTick(Relaid(s, w, env), duration);
            end.views[v] == t.views[v] && LastLive(end.tasks, v) == LastLive(t.tasks, v)
  {
    hide WindowBox, Distinct, LayoutTasks, FindColumn, FindTile, Relaid, TickViews, Survivors, LastLive;
    var info := env.outputs[w.output.value];
    var more := LayoutTasks(w, s.views, info, env.gap, env.now, |w.columns|);
    var t := Relaid(s, w, env);
    RelaidQueue(s, w, env, duration);
    TickPlace(s.views, s.tasks[..s.due], s.tick, duration, v);
    TickPlace(t.views, s.tasks[..s.due], s.tick, duration, v);
    var left := Survivors(s.tasks[..s.due], s.tick, duration);
    LastLiveConcat(s.tasks[s.due..] + more, left, v);
    LastLiveConcat(s.tasks[s.due..], more, v);
    LastLiveConcat(s.tasks[s.due..], left, v);
    LayoutTasksOfTiles(w, s.views, info, env.gap, env.now, |w.columns|);
    NoLiveTask(more, v);
  }

  lemma InOrderInserted(a: seq<Task>, more: seq<Task>, b: seq<Task>, now: Time)
    requires InOrder(a + b) && BegunBy(a, now)
    requires forall i | 0 <= i < |more| :: more[i].begin == now
    requires forall i, j | 0 <= i < |more| && 0 <= j < |b| :: more[i].view != b[j].view
    ensures InOrder(a + more + b)
  {
    var r := a + more + b;
    forall i, j | 0 <= i < j < |r| && r[i].view == r[j].view && !r[i].cancelled && !r[j].cancelled
      ensures r[i].begin <= r[j].begin
    {
      if j < |a| {
        assert (a + b)[i] == a[i] && (a + b)[j] == a[j];
      } else if j >= |a| + |more| {
        assert r[j] == b[j - |a| - |more|] == (a + b)[j - |more|];
        if i >= |a| + |more| {
          assert r[i] == (a + b)[i - |more|];
        } else if i < |a| {
          assert r[i] == (a + b)[i];
        }
      }
    }
  }

  lemma {:induction false} NoneOf(tasks: seq<Task>, v: ViewId)
    requires LastLive(tasks, v) == None
    ensures forall i | 0 <= i < |tasks| && !tasks[i].cancelled :: tasks[i].view != v
  {
    if tasks == [] {
    } else {
      NoneOf(tasks[..|tasks| - 1], v);
      assert forall i | 0 <= i < |tasks| - 1 :: tasks[i] == tasks[..|tasks| - 1][i];
    }
  }

  lemma RelaidInOrder(s: QueueState, w: WorkspaceState, env: Env, duration: int)
    requires duration > 0 && s.due <= |s.tasks| && InOrder(EndOfTick(s, duration).tasks) && BegunBy(s.tasks, env.now)
    requires CanLayOut(w, env) && !w.suspendAnimations
    requires forall v | TakesPart(w, s.views, v) :: Punctual(s, v, duration)
    ensures InOrder(EndOfTick(Relaid(s, w, env), duration).tasks) && BegunBy(Relaid(s, w, env).tasks, env.now)
    ensures TasksKnown(s.views, s.tasks) ==> TasksKnown(Relaid(s, w, env).views, Relaid(s, w, env).tasks)
  {
    hide LayoutTasks, Survivors, Relaid, LastLive, TickViews, IsFinished, FindColumn, Distinct, Settling;
    var info := env.outputs[w.output.value];
    var more := LayoutTasks(w, s.views, info, env.gap, env.now, |w.columns|);
    var left := Survivors(s.tasks[..s.due], s.tick, duration);
    RelaidQueue(s, w, env, duration);
    LayoutTasksOfTiles(w, s.views, info, env.gap, env.now, |w.columns|);
    SurvivorsAreTasks(s.tasks[..s.due], s.tick, duration);
    forall i, j | 0 <= i < |more| && 0 <= j < |left|
      ensures more[i].view != left[j].view
    {
      assert Punctual(s, more[i].view, duration);
      NoneOf(left, more[i].view);
      assert left[j] in left;
    }
    InOrderInserted(s.tasks[s.due..], more, left, env.now);
  }

  lemma RelaidPreserves(s: QueueState, w: WorkspaceState, env: Env, duration: int)
    requires duration > 0 && QueueOk(s, duration) && Enabled(s, LaidOut(w, env), duration)
    ensures QueueOk(Relaid(s, w, env), duration)
  {
    hide LayoutTasks, ArrangedViews, Settling, EndOfTick, FindColumn, TasksKnown, InOrder;
    RelaidQueue(s, w, env, duration);
    RelaidInOrder(s, w, env, duration);
    var t := Relaid(s, w, env);
    forall v | v in t.tracked
      ensures v in t.views && Settling(EndOfTick(t, duration).views, EndOfTick(t, duration).tasks, v)
    {
      if TakesPart(w, s.views, v) {
        assert Punctual(s, v, duration);
        RelaidSettlesExactlyWhen(s, w, env, duration, v);
      } else {
        RelaidLeavesAlone(s, w, env, duration, v);
        SameViews(s, duration); SameViews(t, duration);
        SameSettling(EndOfTick(s, duration), EndOfTick(t, duration), v);
      }
    }
  }

  lemma SameViews(s: QueueState, duration: int)
    requires duration > 0 && s.due <= |s.tasks|
    ensures EndOfTick(s, duration).views.Keys == s.views.Keys
  {
  }

  lemma SameSettling(s: QueueState, t: QueueState, v: ViewId)
    requires v in s.views && v in t.views && SamePlace(s.views[v], t.views[v])
             && LastLive(s.tasks, v) == LastLive(t.tasks, v)
    ensures Settling(s.views, s.tasks, v) == Settling(t.views, t.tasks, v)
  {
  }

  lemma SlidPreserves(s: QueueState, more: seq<Task>, now: Time, duration: int)
    requires duration > 0 && QueueOk(s, duration) && Enabled(s, Slid(more, now), duration)
    ensures QueueOk(SlidOn(s, more, now), duration)
  {
    hide LastLive, EndOfTick;
    var t := SlidOn(s, more, now);
    NoTickUnderWay(s, duration);
    NoTickUnderWay(t, duration);
    InOrderInserted(s.tasks, more, [], now);
    assert s.tasks + [] == s.tasks && s.tasks + more + [] == t.tasks;
    forall v | v in t.tracked
      ensures Settling(t.views, t.tasks, v)
    {
      LastLiveConcat(s.tasks, more, v);
    }
  }

  lemma ChangedPreserves(s: QueueState, after: ViewTable, duration: int)
    requires duration > 0 && QueueOk(s, duration) && TasksKnown(after, s.tasks)
    ensures QueueOk(ChangedTo(s, after), duration)
  {
    hide LastLive, Survivors, TickViews, Settling, IsFinished;
    var t := ChangedTo(s, after);
    forall v | v in t.tracked
      ensures Settling(EndOfTick(t, duration).views, EndOfTick(t, duration).tasks, v)
    {
      TickPlace(s.views, s.tasks[..s.due], s.tick, duration, v);
      TickPlace(after, s.tasks[..s.due], s.tick, duration, v);
      SameSettling(EndOfTick(s, duration), EndOfTick(t, duration), v);
    }
  }

  lemma {:induction false} LastLiveCancelled(tasks: seq<Task>, v: ViewId, u: ViewId)
    ensures LastLive(Cancelled(tasks, v), u) == if u == v then None else LastLive(tasks, u)
  {
    if tasks == [] {
    } else {
      LastLiveCancelled(tasks[..|tasks| - 1], v, u);
      assert Cancelled(tasks, v)[..|tasks| - 1] == Cancelled(tasks[..|tasks| - 1], v);
    }
  }

  lemma CancelPreserves(s: QueueState, v: ViewId, duration: int)
    requires duration > 0 && QueueOk(s, duration) && v in s.views && s.due == 0
    ensures QueueOk(Next(s, CancelledFor(v), duration), duration)
  {
    hide EndOfTick;
    var r := Next(s, CancelledFor(v), duration);
    NoTickUnderWay(s, duration);
    NoTickUnderWay(r, duration);
    forall u | u in r.tracked
      ensures Settling(r.views, r.tasks, u)
    {
      LastLiveCancelled(s.tasks, v, u);
      if u == v && !HasTask(s.tasks, v) {
        assert LastLive(s.tasks, v) == None;
      }
    }
  }

  /** A view's last task, once it is finished, leaves it on its target, and no task behind. */
  lemma TickOutcome(s: QueueState, now: Time, duration: int, v: ViewId)
    requires 0 < duration < MAX_DURATION && v in s.views && InOrder(s.tasks) && BegunBy(s.tasks, now)
    ensures var views, left := TickViews(s.views, s.tasks, now, duration), Survivors(s.tasks, now, duration);
            match LastLive(s.tasks, v)
            case None => views[v] == s.views[v] && LastLive(left, v) == None
            case Some(t) =>
              if IsFinished(t, now, duration)
              then views[v] == s.views[v].Move(t.targetX, t.targetY) && LastLive(left, v) == None
              else LastLive(left, v) == Some(t)
  {
    hide Survivors, TickViews, LastLive, Interpolated;
    TickPlace(s.views, s.tasks, now, duration, v);
    LastSurvivor(s.tasks, now, duration, v);
    match LastLive(s.tasks, v)
    case None =>
    case Some(t) =>
      if IsFinished(t, now, duration) {
        RetiringWritesTheTarget(t.startX, t.targetX, Elapsed(t.begin, now), duration);
        RetiringWritesTheTarget(t.startY, t.targetY, Elapsed(t.begin, now), duration);
      }
  }

  /** What a whole tick does. */
  function Ticked(s: QueueState, now: Time, duration: int): QueueState
    requires duration > 0
  {
    EndOfTick(Next(s, TickStarted(now), duration), duration)
  }

  lemma TickedIs(s: QueueState, now: Time, duration: int)
    requires duration > 0
    ensures Ticked(s, now, duration) ==
            s.(views := TickViews(s.views, s.tasks, now, duration), tasks := Survivors(s.tasks, now, duration),
               clock := now, due := 0, tick := now)
  {
    assert s.tasks[..|s.tasks|] == s.tasks;
    assert s.tasks[|s.tasks|..] == [];
  }

  lemma TickPreserves(s: QueueState, now: Time, duration: int)
    requires 0 < duration < MAX_DURATION && QueueOk(s, duration) && s.clock <= now && s.due == 0
    ensures QueueOk(Next(s, TickStarted(now), duration), duration)
    ensures QueueOk(Ticked(s, now, duration), duration)
  {
    hide EndOfTick, Survivors, TickViews, LastLive, IsFinished;
    NoTickUnderWay(s, duration);
    var r := Ticked(s, now, duration);
    TickedIs(s, now, duration);
    NoTickUnderWay(r, duration);
    SurvivorsInOrder(s.tasks, now, duration);
    SurvivorsAreTasks(s.tasks, now, duration);
    forall i | 0 <= i < |r.tasks|
      ensures r.tasks[i].begin <= now && r.tasks[i].view in r.views
    {
      assert r.tasks[i] in s.tasks;
    }
    forall v | v in s.tracked
      ensures Settling(r.views, r.tasks, v)
    {
      TickOutcome(s, now, duration, v);
      TickPlace(s.views, s.tasks, now, duration, v);
    }
  }

  lemma TakingPreserves(s: QueueState, duration: int)
    requires duration > 0 && QueueOk(s, duration) && s.due > 0
    ensures QueueOk(TakenOff(s, duration), duration)
  {
    hide EndOfTick, InOrder, Settling, IsFinished, Animated;
    TakingOneEndsAlike(s, duration);
  }

  /** Over any run of layouts, slides, changes, cancellations and ticks, with layouts also in the middle of a
      tick, every tracked view is at its latest target or its last live task aims there. */
  lemma {:induction false} RunPreserves(s: QueueState, steps: seq<QueueStep>, duration: int)
    requires 0 < duration < MAX_DURATION && QueueOk(s, duration) && CanRun(s, steps, duration)
    ensures QueueOk(Run(s, steps, duration), duration)
    decreases |steps|
  {
    hide QueueOk, Relaid, SlidOn, ChangedTo, TakenOff;
    if steps == [] {
    } else {
      StepPreserves(s, steps[0], duration);
      RunPreserves(Next(s, steps[0], duration), steps[1..], duration);
    }
  }

  lemma StepPreserves(s: QueueState, step: QueueStep, duration: int)
    requires 0 < duration < MAX_DURATION && QueueOk(s, duration) && Enabled(s, step, duration)
    ensures QueueOk(Next(s, step, duration), duration)
  {
    hide QueueOk, Relaid, SlidOn, ChangedTo, TakenOff, Punctual;
    match step
    case LaidOut(w, env) => RelaidPreserves(s, w, env, duration);
    case Slid(more, now) => SlidPreserves(s, more, now, duration);
    case Changed(after) => ChangedPreserves(s, after, duration);
    case CancelledFor(v) => CancelPreserves(s, v, duration);
    case TickStarted(now) => TickPreserves(s, now, duration);
    case TaskTaken => TakingPreserves(s, duration);
  }

  // ---------------------------------------------------------------------------------------
  // Coming to rest
  // ---------------------------------------------------------------------------------------

  /** A tick that comes a full duration after the last task began empties the queue. */
  lemma {:induction false} LateTickDrains(tasks: seq<Task>, now: Time, duration: int)
    requires 0 < duration < MAX_DURATION
    requires forall i | 0 <= i < |tasks| :: tasks[i].begin + duration * NS_PER_MS <= now
    ensures Survivors(tasks, now, duration) == []
    ensures forall i | 0 <= i < |tasks| :: IsFinished(tasks[i], now, duration)
  {
    if tasks == [] {
    } else {
      LateTickDrains(tasks[1..], now, duration);
      FinishedMeansElapsed(Elapsed(tasks[0].begin, now), duration);
    }
  }

  ghost predicate AllAtRest(s: QueueState)
  {
    forall v | v in s.tracked :: v in s.views && Warped(s.views[v]) == s.views[v]
  }

  /** However many overlapping animations it had, once the queue has drained every tracked view
      rests exactly on its latest target; and a late enough tick drains the queue. */
  lemma AnimationsSettle(s: QueueState, steps: seq<QueueStep>, duration: int, now: Time)
    requires 0 < duration < MAX_DURATION && QueueOk(s, duration) && CanRun(s, steps, duration)
    ensures var end := Run(s, steps, duration);
            && (end.tasks == [] ==> AllAtRest(end))
            && (end.due == 0 && now >= end.clock + duration * NS_PER_MS ==>
                  Ticked(end, now, duration).tasks == [] && AllAtRest(Ticked(end, now, duration)))
  {
    hide CanRun, Run, EndOfTick, QueueOk, AllAtRest, Ticked;
    RunPreserves(s, steps, duration);
    var end := Run(s, steps, duration);
    AtRest(end, duration);
    if end.due == 0 && now >= end.clock + duration * NS_PER_MS {
      BegunInTime(end, duration);
      LateTickDrains(end.tasks, now, duration);
      TickedIs(end, now, duration);
      TickPreserves(end, now, duration);
      AtRest(Ticked(end, now, duration), duration);
    }
  }

  /** A tick so late that it ends all animations leaves a view on its target exactly when it was settling. */
  lemma LateTickDecides(s: QueueState, v: ViewId, now: Time, duration: int)
    requires 0 < duration < MAX_DURATION && v in s.views && s.due == 0
    requires forall i | 0 <= i < |s.tasks| :: s.tasks[i].begin + duration * NS_PER_MS <= now
    ensures var last := Ticked(s, now, duration);
            last.tasks == [] && (Warped(last.views[v]) == last.views[v] <==> Settling(s.views, s.tasks, v))
  {
    hide Ticked, Survivors, TickViews, LastLive, Interpolated, IsFinished;
    TickedIs(s, now, duration);
    LateTickDrains(s.tasks, now, duration);
    TickPlace(s.views, s.tasks, now, duration, v);
    match LastLive(s.tasks, v)
    case None =>
    case Some(t) =>
      IsItsFinish(t, now, duration);
      RetiringWritesTheTarget(t.startX, t.targetX, Elapsed(t.begin, now), duration);
      RetiringWritesTheTarget(t.startY, t.targetY, Elapsed(t.begin, now), duration);
  }

  lemma IsItsFinish(t: Task, now: Time, duration: int)
    requires 0 < duration < MAX_DURATION && t.begin + duration * NS_PER_MS <= now
    ensures Finished(Elapsed(t.begin, now), duration) && Elapsed(t.begin, now) >= 0
  {
    FinishedMeansElapsed(Elapsed(t.begin, now), duration);
  }

  /** A view that is laid out by what an animation wanted done at its end rests on its new target, when a late tick
      has ended all animations, exactly when the tick under way had no older animation of it still to come to
      that goes on afterwards, or the last such animation goes to the same place. */
  lemma RelaidRestsExactlyWhen(s: QueueState, w: WorkspaceState, env: Env, duration: int, v: ViewId, now: Time)
    requires 0 < duration < MAX_DURATION && s.due <= |s.tasks| && BegunBy(s.tasks, s.clock) && s.clock <= env.now
    requires CanLayOut(w, env) && !w.suspendAnimations && v in s.views
             && TakesPart(w, s.views, v)
    requires now >= env.now + duration * NS_PER_MS
    ensures var last := Ticked(EndOfTick(Relaid(s, w, env), duration), now, duration);
            && last.tasks == [] && v in last.views
            && (Warped(last.views[v]) == last.views[v] <==>
                var older := LastLive(Survivors(s.tasks[..s.due], s.tick, duration), v);
                older == None || AimsAt(older, Relaid(s, w, env).views[v]))
  {
    hide EndOfTick, Relaid, Survivors, LastLive, TickViews, Ticked, FindColumn, LayoutTasks, Distinct,
      ArrangedViews;
    var info := env.outputs[w.output.value];
    var more := LayoutTasks(w, s.views, info, env.gap, env.now, |w.columns|);
    RelaidQueue(s, w, env, duration);
    var end := EndOfTick(Relaid(s, w, env), duration);
    NothingDue(Relaid(s, w, env), duration);
    LayoutTasksOfTiles(w, s.views, info, env.gap, env.now, |w.columns|);
    var left := Survivors(s.tasks[..s.due], s.tick, duration);
    SurvivorsAreTasks(s.tasks[..s.due], s.tick, duration);
    forall i | 0 <= i < |end.tasks|
      ensures end.tasks[i].begin <= env.now
    {
      if i >= |s.tasks| - s.due + |more| {
        assert end.tasks[i] in left;
      }
    }
    RelaidSettlesExactlyWhen(s, w, env, duration, v);
    LateTickDecides(end, v, now, duration);
    TickedIs(end, now, duration);
  }

  lemma NothingDue(s: QueueState, duration: int)
    requires duration > 0 && s.due <= |s.tasks|
    ensures EndOfTick(s, duration).due == 0
  {
  }

  lemma BegunInTime(s: QueueState, duration: int)
    requires duration > 0 && QueueOk(s, duration)
    ensures forall i | 0 <= i < |s.tasks| :: s.tasks[i].begin <= s.clock
  {
    hide EndOfTick;
  }

  lemma AtRest(s: QueueState, duration: int)
    requires duration > 0 && QueueOk(s, duration)
    ensures s.tasks == [] ==> AllAtRest(s)
  {
    if s.tasks == [] {
      NoTickUnderWay(s, duration);
      forall v | v in s.tracked
        ensures Warped(s.views[v]) == s.views[v]
      {
        assert Settling(s.views, s.tasks, v);
      }
    }
  }

  /** Animations that stayed behind a newer one of their view do no harm if a tick ends them before that. */
  lemma StragglersGiveWay(front: seq<Task>, newest: Task, behind: seq<Task>, now: Time, duration: int)
    requires 0 < duration < MAX_DURATION && !newest.cancelled && !IsFinished(newest, now, duration)
    requires forall i | 0 <= i < |behind| && behind[i].view == newest.view && !behind[i].cancelled ::
               IsFinished(behind[i], now, duration)
    ensures LastLive(Survivors(front + [newest] + behind, now, duration), newest.view) == Some(newest)
  {
    hide IsFinished, Survivors, LastLive;
    var v := newest.view;
    SurvivorsConcat(front + [newest], behind, now, duration);
    SurvivorsConcat(front, [newest], now, duration);
    LastLiveConcat(Survivors(front + [newest], now, duration), Survivors(behind, now, duration), v);
    SurvivorsAreTasks(behind, now, duration);
    forall i | 0 <= i < |Survivors(behind, now, duration)|
      ensures Survivors(behind, now, duration)[i].view != v
    {
      assert Survivors(behind, now, duration)[i] in behind;
    }
    NoLiveTask(Survivors(behind, now, duration), v);
    OneSurvivor(newest, now, duration);
    LastLiveAppended(Survivors(front, now, duration), newest, v);
  }

  lemma OneSurvivor(t: Task, now: Time, duration: int)
    requires duration > 0
    ensures Survivors([t], now, duration) == if t.cancelled || IsFinished(t, now, duration) then [] else [t]
  {
    assert [t][1..] == [];
    assert Survivors([], now, duration) == [];
  }

  lemma Regrouped(x: seq<Task>, y: seq<Task>, z: seq<Task>)
    ensures x + (y + z) == x + y + z
  {
  }

  lemma {:induction false} SurvivorsConcat(a: seq<Task>, b: seq<Task>, now: Time, duration: int)
    requires duration > 0
    ensures Survivors(a + b, now, duration) == Survivors(a, now, duration) + Survivors(b, now, duration)
  {
    hide IsFinished;
    if a == [] {
      assert a + b == b;
    } else {
      SurvivorsConcat(a[1..], b, now, duration);
      assert (a + b)[1..] == a[1..] + b;
      var stays := if a[0].cancelled || IsFinished(a[0], now, duration) then [] else [a[0]];
      Regrouped(stays, Survivors(a[1..], now, duration), Survivors(b, now, duration));
    }
  }

  /** A layout without animation puts the view on its target at once, but tasks queued before keep
      running: the view is still there when the queue has drained exactly when its last live
      task, if it had any, was going to the same place. */
  lemma UnanimatedPlacement(s: QueueState, v: ViewId, targetX: int, targetY: int, duration: int, now: Time)
    requires 0 < duration < MAX_DURATION && QueueOk(s, duration) && s.due == 0
    requires v in s.views && now >= s.clock + duration * NS_PER_MS
    ensures var placed := Warped(s.views[v].(targetX := targetX, targetY := targetY));
            var last := Ticked(ChangedTo(s, s.views[v := placed]), now, duration);
            && last.tasks == []
            && ((last.views[v].x, last.views[v].y) == (targetX, targetY) <==>
                match LastLive(s.tasks, v)
                case None => true
                case Some(t) => (t.targetX, t.targetY) == (targetX, targetY))
  {
    hide EndOfTick, Survivors, TickViews, LastLive, Ticked;
    var placed := Warped(s.views[v].(targetX := targetX, targetY := targetY));
    var r := ChangedTo(s, s.views[v := placed]);
    NoTickUnderWay(s, duration);
    LateTickDrains(s.tasks, now, duration);
    TickedIs(r, now, duration);
    TickOutcome(r, now, duration, v);
  }
}
