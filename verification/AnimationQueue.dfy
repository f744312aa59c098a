/** The queue of animation tasks: enqueueing, cancelling, and the timer's tick. */
module AnimationQueue {
  import opened Prelude
  import opened Views
  import opened Animation

  type ViewTable = map<ViewId, View>

  // ---------------------------------------------------------------------------------------
  // What the operations do to the queue and to the views
  // ---------------------------------------------------------------------------------------

  function TaskFor(views: ViewTable, v: ViewId, targetX: int, targetY: int, now: Time,
                   callback: Callback := Silent): Task
    requires v in views
  {
    Task(v, views[v].x, views[v].y, targetX, targetY, now, false, callback)
  }

  function Warped(v: View): View
  {
    v.Move(v.targetX, v.targetY)
  }

  function Cancelled(tasks: seq<Task>, v: ViewId): (r: seq<Task>)
    ensures |r| == |tasks|
    ensures forall i | 0 <= i < |r| :: r[i] == if tasks[i].view == v then tasks[i].(cancelled := true) else tasks[i]
  {
    seq(|tasks|, i requires 0 <= i < |tasks| => if tasks[i].view == v then tasks[i].(cancelled := true) else tasks[i])
  }

  predicate HasTask(tasks: seq<Task>, v: ViewId)
  {
    exists i | 0 <= i < |tasks| :: tasks[i].view == v
  }

  function IsFinished(t: Task, now: Time, duration: int): bool
    requires duration > 0
  {
    Finished(Elapsed(t.begin, now), duration)
  }

  function Animated(v: View, t: Task, now: Time, duration: int): View
    requires duration > 0
  {
    var elapsed := Elapsed(t.begin, now);
    v.Move(Interpolated(t.startX, t.targetX, elapsed, duration), Interpolated(t.startY, t.targetY, elapsed, duration))
  }

  /** An animation is over when its milliseconds have passed on a clock of nanoseconds. */
  lemma FinishedOnTheClock(t: Task, now: Time, duration: int)
    requires 0 < duration < MAX_DURATION && t.begin <= now
    ensures IsFinished(t, now, duration) <==> now - t.begin >= duration * 1_000_000
  {
    FinishedMeansElapsed(Elapsed(t.begin, now), duration);
  }

  /** The first task of the queue is taken off it, runs unless it was cancelled, and goes to the back of
      the queue unless it is done; what it then wants done is returned. */
  function FrontRun(views: ViewTable, tasks: seq<Task>, now: Time, duration: int): (r: (ViewTable, seq<Task>, Callback))
    requires duration > 0 && tasks != []
    ensures r.0.Keys == views.Keys
  {
    var t := tasks[0];
    if t.cancelled then (views, tasks[1..], Silent)
    else
      var moved := if t.view in views then views[t.view := Animated(views[t.view], t, now, duration)] else views;
      if IsFinished(t, now, duration) then (moved, tasks[1..], t.callback) else (moved, tasks[1..] + [t], Silent)
  }

  /** The views after each animation was run once, in order. */
  function TickViews(views: ViewTable, tasks: seq<Task>, now: Time, duration: int): (r: ViewTable)
    requires duration > 0
    ensures r.Keys == views.Keys
  {
    if tasks == [] then views else TickViews(FrontRun(views, tasks, now, duration).0, tasks[1..], now, duration)
  }

  /** What stays queued. */
  function Survivors(tasks: seq<Task>, now: Time, duration: int): seq<Task>
    requires duration > 0
  {
    if tasks == [] then []
    else
      var stays := if tasks[0].cancelled || IsFinished(tasks[0], now, duration) then [] else [tasks[0]];
      stays + Survivors(tasks[1..], now, duration)
  }

  /** Every task that may still run moves a view that exists. */
  ghost predicate TasksKnown(views: ViewTable, tasks: seq<Task>)
  {
    forall i | 0 <= i < |tasks| && !tasks[i].cancelled :: tasks[i].view in views
  }

  // ---------------------------------------------------------------------------------------
  // What is still to be done
  // ---------------------------------------------------------------------------------------

  function Wish(t: Task): multiset<Callback>
  {
    if t.cancelled || t.callback == Silent then multiset{} else multiset{t.callback}
  }

  /** The callbacks of the tasks that may still run. */
  function Pending(tasks: seq<Task>): multiset<Callback>
  {
    if tasks == [] then multiset{} else Pending(tasks[..|tasks| - 1]) + Wish(tasks[|tasks| - 1])
  }

  lemma {:induction false} PendingConcat(a: seq<Task>, b: seq<Task>)
    ensures Pending(a + b) == Pending(a) + Pending(b)
  {
    hide Wish;
    if b == [] {
      assert a + b == a;
    } else {
      PendingConcat(a, b[..|b| - 1]);
      assert (a + b)[..|a + b| - 1] == a + b[..|b| - 1];
      SumRegroups(Pending(a), Pending(b[..|b| - 1]), Wish(b[|b| - 1]));
    }
  }

  lemma SumRegroups(x: multiset<Callback>, y: multiset<Callback>, z: multiset<Callback>)
    ensures x + y + z == x + (y + z)
  {
  }

  lemma PendingOne(t: Task)
    ensures Pending([t]) == Wish(t)
  {
    assert [t][..0] == [];
  }

  /** Taking a task off the queue loses just the callback that is returned. */
  lemma FrontRunPending(views: ViewTable, tasks: seq<Task>, now: Time, duration: int)
    requires duration > 0 && tasks != []
    ensures var (_, rest, callback) := FrontRun(views, tasks, now, duration);
            Pending(tasks) == Pending(rest) + if callback == Silent then multiset{} else multiset{callback}
  {
    hide Pending, Animated, IsFinished;
    assert tasks == [tasks[0]] + tasks[1..];
    PendingConcat([tasks[0]], tasks[1..]);
    PendingConcat(tasks[1..], [tasks[0]]);
    PendingOne(tasks[0]);
  }

  // ---------------------------------------------------------------------------------------
  // The scheduler itself
  // ---------------------------------------------------------------------------------------

  /** The views the compositor knows, by identity. fault is set where the code would fail an
      assertion or read an absent optional value. */
  class SurfaceManager {
    var views: ViewTable
    var fault: bool

    constructor ()
      ensures views == map[] && !fault
    {
      views, fault := map[], false;
    }

    /** The view is destroyed: its tasks are cancelled and it is forgotten. */
    method RemoveView(animation: ViewAnimation, v: ViewId)
      requires v in views && TasksKnown(views, animation.tasks)
      modifies this`views, animation
      ensures TasksKnown(views, animation.tasks)
      ensures animation.tasks == Cancelled(old(animation.tasks), v)
      ensures views == old(views) - {v}
    {
      animation.CancelTasks(this, v);
      views := views - {v};
    }
  }

  class ViewAnimation {
    const duration: int
    var tasks: seq<Task>

    constructor (duration: int)
      ensures this.duration == duration && tasks == []
    {
      this.duration := duration;
      tasks := [];
    }

    method EnqueueTask(surfaces: SurfaceManager, v: ViewId, targetX: int, targetY: int, now: Time,
                       callback: Callback := Silent)
      requires v in surfaces.views
      modifies this`tasks
      ensures tasks == old(tasks) + [TaskFor(surfaces.views, v, targetX, targetY, now, callback)]
    {
      var view := surfaces.views[v];
      tasks := tasks + [Task(v, view.x, view.y, targetX, targetY, now, false, callback)];
    }

    method CancelTasks(surfaces: SurfaceManager, v: ViewId)
      requires v in surfaces.views
      modifies this`tasks, surfaces`views
      ensures tasks == Cancelled(old(tasks), v)
      ensures surfaces.views == if HasTask(old(tasks), v)
                                then old(surfaces.views)[v := Warped(old(surfaces.views)[v])]
                                else old(surfaces.views)
    {
      ghost var was := tasks;
      ghost var views := surfaces.views;
      for i := 0 to |tasks|
        invariant |tasks| == |was|
        invariant forall j | 0 <= j < i :: tasks[j] == if was[j].view == v then was[j].(cancelled := true) else was[j]
        invariant forall j | i <= j < |was| :: tasks[j] == was[j]
        invariant surfaces.views == if HasTask(was[..i], v) then views[v := Warped(views[v])] else views
      {
        assert was[..i + 1] == was[..i] + [was[i]];
        if tasks[i].view == v {
          tasks := tasks[i := tasks[i].(cancelled := true)];
          surfaces.views := surfaces.views[v := Warped(surfaces.views[v])];
          assert was[..i + 1][i].view == v;
        } else {
          assert forall j | 0 <= j < i :: was[..i + 1][j] == was[..i][j];
        }
      }
      assert was[..|was|] == was;
    }

    /** The body of the timer's loop: the animation in front is taken off the queue. What it wants done now that it has
        finished is left to the caller, before the next task is taken. */
    method TakeTask(surfaces: SurfaceManager, now: Time) returns (callback: Callback)
      requires duration > 0 && tasks != [] && (!tasks[0].cancelled ==> tasks[0].view in surfaces.views)
      modifies this`tasks, surfaces`views
      ensures (surfaces.views, tasks, callback) == FrontRun(old(surfaces.views), old(tasks), now, duration)
    {
      callback := Silent;
      var task := tasks[0];
      tasks := tasks[1..];
      if task.cancelled {
        return;
      }
      var completeness := Completeness(Elapsed(task.begin, now), duration);
      var multiplier := Blend(completeness);
      var view := surfaces.views[task.view];
      surfaces.views := surfaces.views[task.view := view.Move(Between(task.startX, task.targetX, multiplier),
                                                              Between(task.startY, task.targetY, multiplier))];
      if completeness < 0.999 {
        tasks := tasks + [task];
      } else {
        callback := task.callback;
      }
    }
  }
}
