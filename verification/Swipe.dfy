/** Kinetic scrolling: a swipe of three fingers scrolls a workspace, which goes on scrolling, slower
    and slower, when the fingers are lifted. */
module Swipe {
  import opened Prelude
  import opened WorkspaceModule

  const SCROLL_FINGERS := 3
  const SENSITIVITY := 2.0
  const FRICTION := 0.9

  /** delta: how far the fingers moved since the last frame. ready: the fingers have moved. */
  datatype Scroll = Scroll(speed: real, delta: real, scroll: real, ready: bool, wantsToStop: bool)

  /** dominant: the view that gets the focus when the scroll of the workspace ends. */
  datatype Grab = NoGrab | OtherGrab | WorkspaceScroll(workspace: int, dominant: Option<ViewId>, scroll: Scroll)

  // ---------------------------------------------------------------------------------------
  // One frame
  // ---------------------------------------------------------------------------------------

  /** The speed the next frame starts with: that of the fingers, if they moved. */
  function Start(g: Scroll): real
  {
    if g.delta != 0.0 then g.delta else g.speed
  }

  function Advanced(g: Scroll): Scroll
  {
    g.(speed := Start(g), delta := 0.0, scroll := g.scroll - Start(g))
  }

  function Slowed(g: Scroll): Scroll
  {
    g.(speed := g.speed * FRICTION)
  }

  /** What one frame does to a scroll that is under way. */
  function Frame(g: Scroll): Scroll
  {
    if !g.ready then g else Slowed(Advanced(g))
  }

  function Abs(r: real): (a: real)
    ensures a >= 0.0
  {
    if r < 0.0 then -r else r
  }

  /** Whether the frame that left the scroll in this state ended it. */
  predicate Ended(g: Scroll)
  {
    g.ready && g.wantsToStop && Abs(g.speed) < 1.0
  }

  /** The scroll after n frames, if none of them ended it. */
  function After(g: Scroll, n: nat): Scroll
  {
    if n == 0 then g else Frame(After(g, n - 1))
  }

  // ---------------------------------------------------------------------------------------
  // The scroll stops
  // ---------------------------------------------------------------------------------------

  function Pow(b: real, n: nat): real
  {
    if n == 0 then 1.0 else Pow(b, n - 1) * b
  }

  lemma {:induction false} PowAdd(b: real, m: nat, n: nat)
    ensures Pow(b, m + n) == Pow(b, m) * Pow(b, n)
  {
    if n == 0 {
    } else {
      PowAdd(b, m, n - 1);
      Associative(Pow(b, m), Pow(b, n - 1), b);
    }
  }

  lemma Associative(x: real, y: real, z: real)
    ensures x * y * z == x * (y * z)
  {
  }

  lemma {:induction false} FrictionFades(n: nat)
    ensures 0.0 < Pow(FRICTION, n) <= 1.0
  {
    if n == 0 {
    } else {
      FrictionFades(n - 1);
    }
  }

  /** Twenty-two frames take nine tenths of the speed. */
  lemma TwentyTwoFrames()
    ensures Pow(FRICTION, 22) < 0.1
  {
    PowAdd(FRICTION, 1, 1);
    PowAdd(FRICTION, 2, 2);
    PowAdd(FRICTION, 4, 4);
    PowAdd(FRICTION, 8, 8);
    PowAdd(FRICTION, 16, 4);
    PowAdd(FRICTION, 20, 2);
    assert Pow(FRICTION, 1) == 0.9 && Pow(FRICTION, 2) == 0.81 && Pow(FRICTION, 4) == 0.6561;
    assert Pow(FRICTION, 8) == 0.43046721;
    assert Pow(FRICTION, 16) < 0.1854;
  }

  lemma {:induction false} DecadesFade(k: nat)
    ensures Pow(FRICTION, 22 * k) * Pow(10.0, k) <= 1.0
  {
    if k == 0 {
    } else {
      DecadesFade(k - 1);
      TwentyTwoFrames();
      PowAdd(FRICTION, 22 * (k - 1), 22);
      PowPositive(k - 1);
      FrictionFades(22 * (k - 1));
      OneMoreDecade(Pow(FRICTION, 22 * (k - 1)), Pow(FRICTION, 22), Pow(10.0, k - 1));
    }
  }

  lemma {:induction false} PowPositive(k: nat)
    ensures Pow(10.0, k) > 0.0
  {
    if k == 0 {
    } else {
      PowPositive(k - 1);
    }
  }

  lemma OneMoreDecade(p: real, q: real, t: real)
    requires p > 0.0 && t > 0.0 && q < 0.1 && p * t <= 1.0
    ensures p * q * (t * 10.0) <= 1.0
  {
    assert p * q * (t * 10.0) == p * t * (10.0 * q);
    ProductShrinks(p * t, 10.0 * q);
  }

  lemma ProductShrinks(x: real, y: real)
    requires 0.0 <= x <= 1.0 && y <= 1.0
    ensures x * y <= 1.0
  {
    if y > 0.0 {
      assert x * y <= 1.0 * y;
    } else {
      assert x * y <= 0.0;
    }
  }

  /** Which part of its way a scroll has made after n frames. */
  function Share(n: nat): real
  {
    1.0 - Pow(FRICTION, n)
  }

  /** Where a scroll is after n frames. */
  lemma {:induction false} AfterFrames(g: Scroll, n: nat)
    requires g.ready && n > 0
    ensures var a := After(g, n);
            && a.ready && a.wantsToStop == g.wantsToStop && a.delta == 0.0
            && a.speed == Start(g) * Pow(FRICTION, n)
            && a.scroll == g.scroll - 10.0 * Start(g) * Share(n)
  {
    var p := Pow(FRICTION, n - 1);
    if n == 1 {
      assert After(g, 1) == Frame(After(g, 0)) && Pow(FRICTION, 1) == 0.9;
    } else {
      AfterFrames(g, n - 1);
      Associative(Start(g), p, FRICTION);
      OneMoreFrame(Start(g), p);
    }
  }

  lemma OneMoreFrame(s: real, p: real)
    ensures 10.0 * s * (1.0 - p * FRICTION) == 10.0 * s * (1.0 - p) + s * p
  {
  }

  /** The n-th frame ends the scroll, and none before it does. */
  ghost predicate StopsAfter(g: Scroll, n: nat)
  {
    n > 0 && Ended(After(g, n)) && forall m | 0 < m < n :: !Ended(After(g, m))
  }

  lemma {:induction false} FirstOfThem(g: Scroll, n: nat) returns (first: nat)
    requires n > 0 && Ended(After(g, n))
    ensures first <= n && StopsAfter(g, first)
    decreases n
  {
    if m :| 0 < m < n && Ended(After(g, m)) {
      first := FirstOfThem(g, m);
    } else {
      first := n;
    }
  }

  lemma SlowEnough(g: Scroll, k: nat)
    requires g.ready && g.wantsToStop && k > 0 && Abs(Start(g)) < Pow(10.0, k)
    ensures Ended(After(g, 22 * k))
  {
    hide After, Pow, Start;
    AfterFrames(g, 22 * k);
    DecadesFade(k);
    FrictionFades(22 * k);
    FadedBelowOne(Start(g), Pow(10.0, k), Pow(FRICTION, 22 * k));
  }

  lemma FadedBelowOne(s: real, t: real, p: real)
    requires Abs(s) < t && p > 0.0 && p * t <= 1.0
    ensures Abs(s * p) < 1.0
  {
    AbsProduct(s, p);
    var x, y := Abs(s) * p, p * t;
    assert x < y by { StrictlyLess(Abs(s), t, p); }
  }

  lemma AbsProduct(x: real, p: real)
    requires p > 0.0
    ensures Abs(x * p) == Abs(x) * p
  {
    if x < 0.0 {
      assert x * p < 0.0;
    } else {
      assert x * p >= 0.0;
    }
  }

  lemma StrictlyLess(a: real, b: real, p: real)
    requires a < b && p > 0.0
    ensures a * p < p * b
  {
    assert (b - a) * p > 0.0;
  }

  /** Once the fingers are lifted from a swipe that has moved, the scroll ends within twenty-two frames for every
      decimal digit of the speed it starts with. */
  lemma KineticScrollStops(g: Scroll, k: nat)
    requires g.ready && g.wantsToStop && k > 0 && Abs(Start(g)) < Pow(10.0, k)
    ensures exists n: nat :: n <= 22 * k && StopsAfter(g, n)
  {
    SlowEnough(g, k);
    var n := FirstOfThem(g, 22 * k);
  }

  /** Whatever the speed, it ends at all exactly when the fingers had moved. */
  lemma StopsExactlyWhenMoved(g: Scroll)
    requires g.wantsToStop
    ensures (exists n: nat :: StopsAfter(g, n)) <==> g.ready
  {
    if g.ready {
      var k := Decades(Abs(Start(g)));
      KineticScrollStops(g, k);
    } else {
      forall n: nat
        ensures !StopsAfter(g, n)
      {
        StaysPut(g, n);
      }
    }
  }

  lemma {:induction false} StaysPut(g: Scroll, n: nat)
    requires !g.ready
    ensures After(g, n) == g
  {
    if n == 0 {
    } else {
      StaysPut(g, n - 1);
    }
  }

  /** Some power of ten exceeds any number. */
  lemma Decades(r: real) returns (k: nat)
    requires r >= 0.0
    ensures k > 0 && r < Pow(10.0, k)
  {
    k := r.Floor + 1;
    PowExceeds(k);
  }

  lemma {:induction false} PowExceeds(k: nat)
    ensures Pow(10.0, k) >= 1.0 + k as real
  {
    if k == 0 {
    } else {
      PowExceeds(k - 1);
    }
  }

  lemma ShareGrows(m: nat, n: nat)
    requires m <= n
    ensures 0.0 <= Share(m) <= Share(n) <= 1.0
  {
    FadesFurther(m, n);
    FrictionFades(m);
    FrictionFades(n);
  }

  /** The scroll never travels more than ten times the speed it starts with, and never back. */
  lemma TravelIsBounded(g: Scroll, m: nat, n: nat)
    requires g.ready && m <= n
    ensures Abs(After(g, n).scroll - g.scroll) <= 10.0 * Abs(Start(g))
    ensures Abs(After(g, m).scroll - g.scroll) <= Abs(After(g, n).scroll - g.scroll)
  {
    hide After, Start, Share, Abs;
    Travelled(g, m);
    Travelled(g, n);
    ShareGrows(m, n);
    TravelledParts(Abs(Start(g)), Share(m), Share(n), Abs(After(g, m).scroll - g.scroll),
                   Abs(After(g, n).scroll - g.scroll));
  }

  /** The distances dx and dy are ten times the parts x and y of a. */
  lemma TravelledParts(a: real, x: real, y: real, dx: real, dy: real)
    requires a >= 0.0 && x <= y <= 1.0 && dx == 10.0 * (a * x) && dy == 10.0 * (a * y)
    ensures dx <= dy <= 10.0 * a
  {
    Ordered(a, x, y);
    Ordered(a, y, 1.0);
  }

  lemma Travelled(g: Scroll, n: nat)
    requires g.ready
    ensures Abs(After(g, n).scroll - g.scroll) == 10.0 * (Abs(Start(g)) * Share(n))
  {
    hide Start;
    if n == 0 {
      assert Share(0) == 0.0;
    } else {
      TravelledSome(g, n);
    }
  }

  lemma TravelledSome(g: Scroll, n: nat)
    requires g.ready && n > 0
    ensures Abs(After(g, n).scroll - g.scroll) == 10.0 * (Abs(Start(g)) * Share(n))
  {
    hide After, Start, Share, Abs;
    AfterFrames(g, n);
    ShareGrows(n, n);
    TravelArithmetic(Start(g), Share(n), After(g, n).scroll - g.scroll);
  }

  lemma TravelArithmetic(s: real, r: real, d: real)
    requires r >= 0.0 && d == -(10.0 * s * r)
    ensures Abs(d) == 10.0 * (Abs(s) * r)
  {
    Associative(10.0, s, r);
    if s < 0.0 {
      Ordered(-s, 0.0, r);
      assert (-s) * r == -(s * r);
    } else {
      Ordered(s, 0.0, r);
    }
  }

  lemma {:induction false} FadesFurther(m: nat, n: nat)
    requires m <= n
    ensures Pow(FRICTION, n) <= Pow(FRICTION, m)
    decreases n
  {
    if m == n {
    } else {
      FadesFurther(m, n - 1);
      FrictionFades(n - 1);
    }
  }

  lemma Ordered(a: real, x: real, y: real)
    requires a >= 0.0 && x <= y
    ensures a * x <= a * y
  {
    assert a * (y - x) >= 0.0;
  }

  // ---------------------------------------------------------------------------------------
  // The grab of the seat
  // ---------------------------------------------------------------------------------------

  /** Fingers that move push the scroll on; fewer fingers than it takes end it. */
  function Pushed(g: Grab, fingers: nat, dx: real): Grab
  {
    if !g.WorkspaceScroll? then g
    else if fingers < SCROLL_FINGERS then NoGrab
    else g.(scroll := g.scroll.(delta := g.scroll.delta + dx * SENSITIVITY, ready := true))
  }

  function Lifted(g: Grab): Grab
  {
    if g.WorkspaceScroll? then g.(scroll := g.scroll.(wantsToStop := true)) else g
  }

  /** The grab after a frame in which found was the dominant view, if there was one. */
  function NextGrab(g: Grab, found: Option<ViewId>): Grab
  {
    if !g.WorkspaceScroll? || !g.scroll.ready then g
    else if Ended(Frame(g.scroll)) then NoGrab
    else g.(scroll := Frame(g.scroll), dominant := if found.Some? then found else g.dominant)
  }

  /** The grab after as many frames as there are dominant views, found in this order. */
  function AfterGrabs(g: Grab, founds: seq<Option<ViewId>>): Grab
  {
    if founds == [] then g else NextGrab(AfterGrabs(g, founds[..|founds| - 1]), founds[|founds| - 1])
  }

  /** The last dominant view that was found, or the one from before. */
  function LastDominant(dominant: Option<ViewId>, founds: seq<Option<ViewId>>): Option<ViewId>
  {
    if founds == [] then dominant
    else if founds[|founds| - 1].Some? then founds[|founds| - 1]
    else LastDominant(dominant, founds[..|founds| - 1])
  }

  /** Until the frame that ends the scroll the grab follows it, and remembers the last dominant view; from that frame on
      there is no grab. */
  lemma {:induction false} GrabFollowsScroll(g: Grab, founds: seq<Option<ViewId>>, n: nat)
    requires g.WorkspaceScroll? && g.scroll.ready && StopsAfter(g.scroll, n)
    ensures AfterGrabs(g, founds) ==
            if |founds| >= n then NoGrab
            else WorkspaceScroll(g.workspace, LastDominant(g.dominant, founds), After(g.scroll, |founds|))
  {
    hide Frame, Ended;
    if founds == [] {
    } else {
      GrabFollowsScroll(g, founds[..|founds| - 1], n);
      StaysReady(g.scroll, |founds| - 1);
    }
  }

  lemma {:induction false} StaysReady(g: Scroll, n: nat)
    requires g.ready
    ensures After(g, n).ready
  {
    if n == 0 {
    } else {
      StaysReady(g, n - 1);
    }
  }

  /** So whatever is found on the way, the grab is over after twenty-two frames for every decimal digit of the speed. */
  lemma GrabEnds(g: Grab, founds: seq<Option<ViewId>>, k: nat)
    requires g.WorkspaceScroll? && g.scroll.ready && g.scroll.wantsToStop
    requires k > 0 && Abs(Start(g.scroll)) < Pow(10.0, k) && |founds| >= 22 * k
    ensures AfterGrabs(g, founds) == NoGrab
  {
    hide After, Pow, Start, Abs, AfterGrabs;
    KineticScrollStops(g.scroll, k);
    var n: nat :| n <= 22 * k && StopsAfter(g.scroll, n);
    GrabFollowsScroll(g, founds, n);
  }

  /** Fingers that move several times between two frames. */
  function AllPushed(g: Grab, fingers: nat, moves: seq<real>): Grab
  {
    if moves == [] then g else Pushed(AllPushed(g, fingers, moves[..|moves| - 1]), fingers, moves[|moves| - 1])
  }

  function Sum(moves: seq<real>): real
  {
    if moves == [] then 0.0 else Sum(moves[..|moves| - 1]) + moves[|moves| - 1]
  }

  lemma {:induction false} MovesAddUp(g: Grab, fingers: nat, moves: seq<real>)
    requires g.WorkspaceScroll? && fingers >= 3
    ensures AllPushed(g, fingers, moves) ==
            g.(scroll := g.scroll.(delta := g.scroll.delta + 2.0 * Sum(moves), ready := g.scroll.ready || moves != []))
  {
    if moves == [] {
    } else {
      MovesAddUp(g, fingers, moves[..|moves| - 1]);
    }
  }

  /** While three or more fingers are down, a frame takes the workspace twice as far as they moved since the last one,
      the other way, however many movements that were; when they rest it goes on by itself, a tenth slower than
      before. With fewer fingers any movement ends the scroll. */
  lemma ScrollFollowsFingers(g: Grab, fingers: nat, moves: seq<real>, found: Option<ViewId>)
    requires g.WorkspaceScroll? && g.scroll.delta == 0.0 && !g.scroll.wantsToStop && moves != []
    ensures var r := NextGrab(AllPushed(g, fingers, moves), found);
            if fingers < 3 then r == NoGrab
            else
              && r.WorkspaceScroll? && r.scroll.ready
              && (if Sum(moves) != 0.0
                  then r.scroll.scroll == g.scroll.scroll - 2.0 * Sum(moves) && r.scroll.speed == 1.8 * Sum(moves)
                  else r.scroll.scroll == g.scroll.scroll - g.scroll.speed && r.scroll.speed == 0.9 * g.scroll.speed)
  {
    if fingers < 3 {
      FewFingersEnd(g, fingers, moves);
    } else {
      MovesAddUp(g, fingers, moves);
    }
  }

  lemma {:induction false} FewFingersEnd(g: Grab, fingers: nat, moves: seq<real>)
    requires g.WorkspaceScroll? && fingers < 3 && moves != []
    ensures AllPushed(g, fingers, moves) == NoGrab
  {
    var front := moves[..|moves| - 1];
    if front != [] {
      FewFingersEnd(g, fingers, front);
    }
  }

  lemma {:induction false} AfterIsAfter(g: Scroll, n: nat, m: nat)
    ensures After(g, n + m) == After(After(g, n), m)
  {
    if m == 0 {
    } else {
      AfterIsAfter(g, n, m - 1);
    }
  }

  /** When the scroll ends, less than ten pixels are left of the way it would have gone on. */
  lemma EndsNearlyThere(g: Scroll, n: nat, m: nat)
    requires g.ready && StopsAfter(g, n) && m >= n
    ensures Abs(After(g, m).scroll - After(g, n).scroll) < 10.0
  {
    hide Start, Share, Pow;
    AfterFrames(g, n);
    AfterIsAfter(g, n, m - n);
    TravelIsBounded(After(g, n), 0, m - n);
    StartsAtItsSpeed(After(g, n));
  }

  lemma StartsAtItsSpeed(g: Scroll)
    requires g.delta == 0.0
    ensures Start(g) == g.speed
  {
  }

  class SeatGrab {
    var grab: Grab

    constructor ()
      ensures grab == NoGrab
    {
      grab := NoGrab;
    }

    method EndInteractive()
      modifies this
      ensures grab == NoGrab
    {
      grab := NoGrab;
    }

    method EndTouchpadSwipe()
      modifies this
      ensures grab == if old(grab).WorkspaceScroll? then NoGrab else old(grab)
    {
      if grab.WorkspaceScroll? {
        EndInteractive();
      }
    }

    method BeginWorkspaceScroll(workspace: Workspace, focused: Option<ViewId>)
      modifies this
      ensures grab == WorkspaceScroll(workspace.index, focused,
                                      Scroll(0.0, 0.0, workspace.scrollX as real, false, false))
    {
      EndInteractive();
      grab := WorkspaceScroll(workspace.index, focused, Scroll(0.0, 0.0, workspace.scrollX as real, false, false));
    }

    method ProcessSwipeUpdate(fingers: nat, dx: real)
      modifies this
      ensures grab == Pushed(old(grab), fingers, dx)
    {
      if grab.WorkspaceScroll? {
        if fingers < SCROLL_FINGERS {
          EndTouchpadSwipe();
        } else {
          var data := grab.scroll;
          data := data.(delta := data.delta + dx * SENSITIVITY);
          data := data.(ready := true);
          grab := grab.(scroll := data);
        }
      }
    }

    method ProcessSwipeEnd()
      modifies this
      ensures grab == Lifted(old(grab))
    {
      if grab.WorkspaceScroll? {
        grab := grab.(scroll := grab.scroll.(wantsToStop := true));
      }
    }

    /** The first half of a frame: the scroll moves on by its speed, which is that of the fingers if they moved. */
    method Advance()
      requires grab.WorkspaceScroll?
      modifies this
      ensures grab == old(grab).(scroll := Advanced(old(grab).scroll))
    {
      var data := grab.scroll;
      if data.delta != 0.0 {
        data := data.(speed := data.delta);
        data := data.(delta := 0.0);
      }
      data := data.(scroll := data.scroll - data.speed);
      grab := grab.(scroll := data);
    }

    /** The second half: the dominant view is taken over, if there is one, and friction slows the scroll down. */
    method SlowDown(found: Option<ViewId>) returns (ended: bool)
      requires grab.WorkspaceScroll?
      modifies this
      ensures var g := old(grab);
              grab == g.(scroll := Slowed(g.scroll), dominant := if found.Some? then found else g.dominant)
      ensures ended <==> grab.scroll.wantsToStop && Abs(grab.scroll.speed) < 1.0
    {
      if found.Some? {
        grab := grab.(dominant := found);
      }
      var data := grab.scroll;
      data := data.(speed := data.speed * FRICTION);
      grab := grab.(scroll := data);
      ended := data.wantsToStop && Abs(data.speed) < 1.0;
    }
  }
}
