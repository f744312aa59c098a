/** Who has the keyboard: which view is focused when a workspace is switched to, when the focused view goes away or to
    another workspace, and which one may have the keyboard at all, over whole runs. */
module Keyboard {
  import opened Prelude
  import opened Views
  import opened Columns
  import opened Rearranging
  import opened Layout
  import opened Animation
  import opened AnimationQueue
  import opened Tiling
  import opened Desktop
  import opened Invariants
  import opened Preservation
  import opened Steps
  import opened Focus
  import opened Effects
  import opened Switching
  import opened Runs

  // ---------------------------------------------------------------------------------------
  // Focusing one view
  // ---------------------------------------------------------------------------------------

  predicate InFront(seat: SeatState, v: ViewId)
  {
    seat.focusStack != [] && seat.focusStack[0] == v
  }

  predicate HasKeyboard(seat: SeatState, v: ViewId)
  {
    seat.keyboard == Some(ViewSurface(v))
  }

  /** A view that has the keyboard, and is on the stack, is in front of it. */
  ghost predicate HolderInFront(seat: SeatState)
  {
    forall v | v in seat.focusStack && HasKeyboard(seat, v) :: InFront(seat, v)
  }

  /** From s on the focus was to go to v: it is in front of the stack then, unless it was refused, and has the keyboard.
      A view that was focused already is not looked at again, and a layer that has the focus gets the keyboard back. */
  ghost predicate FocusWentTo(s: State, r: SeatState, v: ViewId)
  {
    && (InFront(r, v) <==> InFront(s.seat, v) || !Refused(s, v))
    && (if s.seat.focusedLayer.Some? then r.keyboard == Some(LayerSurface(s.seat.focusedLayer.value))
        else HasKeyboard(r, v) <==> if FocusedView(s) == Some(v) then HasKeyboard(s.seat, v) else !Refused(s, v))
  }

  /** From s on the focus was to go to nobody: the view that had it has the keyboard no more. */
  ghost predicate FocusWentAway(s: State, r: SeatState)
  {
    && r.focusStack == s.seat.focusStack
    && r.keyboard == if s.seat.focusedLayer.Some? then Some(LayerSurface(s.seat.focusedLayer.value))
                     else if FocusedView(s).Some? then None
                     else s.seat.keyboard
  }

  lemma ToFrontHead(stack: seq<ViewId>, v: ViewId)
    ensures ToFront(stack, v) != [] && ToFront(stack, v)[0] == v
  {
  }

  /** The exchange with a layer ends with the layer having the keyboard. */
  lemma LayerHasTheKeyboard(s: State, view: Option<ViewId>, condense: bool)
    requires LayerOk(s) && s.seat.focusedLayer.Some?
    ensures var t := FocusView(FocusLayer(s, None), view, condense);
            var r := FocusView(s, view, condense);
            && r.seat.keyboard == Some(LayerSurface(s.seat.focusedLayer.value))
            && r.seat.focusStack == t.seat.focusStack
            && FocusLayer(s, None).seat.focusedLayer == None
            && t == FocusPlain(FocusLayer(s, None), view, condense)
  {
    hide FocusPlain;
  }

  lemma FocusGoesTo(s: State, v: ViewId, condense: bool, but: Option<ViewId>)
    requires StackOk(s, but) && LayerOk(s) && (HasKeyboard(s.seat, v) ==> FocusedView(s) == Some(v))
    ensures FocusWentTo(s, FocusView(s, Some(v), condense).seat, v)
  {
    hide FocusView, FocusLayer, FocusPlain, ToFront, StackOk, HiddenByFullscreen, InputAllowed;
    ToFrontHead(s.seat.focusStack, v);
    if s.seat.focusedLayer.Some? {
      LayerHasTheKeyboard(s, Some(v), condense);
      if FocusedView(s) == Some(v) {
        ReleasedStack(s);
        PlainSeat(FocusLayer(s, None), Some(v), condense);
      } else {
        FocusedStack(s, v, condense, but);
      }
    } else {
      PlainFocus(s, Some(v), condense);
      PlainSeat(s, Some(v), condense);
    }
  }

  lemma PlainFocus(s: State, view: Option<ViewId>, condense: bool)
    requires s.seat.focusedLayer.None?
    ensures FocusView(s, view, condense) == FocusPlain(s, view, condense)
  {
    hide FocusPlain;
  }

  lemma FocusGoesAway(s: State, condense: bool)
    requires LayerOk(s)
    ensures FocusWentAway(s, FocusView(s, None, condense).seat)
  {
    hide FocusView, FocusLayer, FocusPlain;
    if s.seat.focusedLayer.Some? {
      LayerHasTheKeyboard(s, None, condense);
      ReleasedStack(s);
      PlainSeat(FocusLayer(s, None), None, condense);
    } else {
      PlainFocus(s, None, condense);
      PlainSeat(s, None, condense);
    }
  }

  // ---------------------------------------------------------------------------------------
  // Focusing the last focused view of a workspace
  // ---------------------------------------------------------------------------------------

  predicate Candidate(s: State, i: int, but: Option<ViewId>, v: ViewId)
  {
    LivesIn(Table(s), v, i) && Some(v) != but
  }

  /** Of the views of workspace i, other than the one to pass over, the view at place k of the stack is the last focused
      one. */
  ghost predicate LastFocused(s: State, i: int, but: Option<ViewId>, k: nat)
    requires k < |s.seat.focusStack|
  {
    Candidate(s, i, but, s.seat.focusStack[k]) && forall j | 0 <= j < k :: !Candidate(s, i, but, s.seat.focusStack[j])
  }

  ghost predicate NoCandidate(s: State, i: int, but: Option<ViewId>)
  {
    forall j | 0 <= j < |s.seat.focusStack| :: !Candidate(s, i, but, s.seat.focusStack[j])
  }

  /** The focus went to the last focused view of workspace i, if it has one on the stack, and otherwise to nobody. */
  ghost predicate FocusWentInto(s: State, r: SeatState, i: int, but: Option<ViewId>)
  {
    && (forall k | 0 <= k < |s.seat.focusStack| && LastFocused(s, i, but, k) ::
          FocusWentTo(s, r, s.seat.focusStack[k]))
    && (NoCandidate(s, i, but) ==> FocusWentAway(s, r))
  }

  /** The search finds the first one. */
  lemma {:induction false} FirstIsFirst(stack: seq<ViewId>, views: ViewTable, i: int, but: Option<ViewId>)
    ensures match FirstOf(stack, views, i, but)
            case None => forall j | 0 <= j < |stack| :: !(LivesIn(views, stack[j], i) && Some(stack[j]) != but)
            case Some(v) =>
              && IndexOf(stack, v) < |stack|
              && forall j | 0 <= j < IndexOf(stack, v) :: !(LivesIn(views, stack[j], i) && Some(stack[j]) != but)
  {
    if stack == [] || (LivesIn(views, stack[0], i) && Some(stack[0]) != but) {
    } else {
      FirstIsFirst(stack[1..], views, i, but);
      assert forall j | 1 <= j < |stack| :: stack[j] == stack[1..][j - 1];
    }
  }

  lemma LastFocusedIsFirst(s: State, i: int, but: Option<ViewId>, k: nat)
    requires k < |s.seat.focusStack| && LastFocused(s, i, but, k)
    ensures FirstOf(s.seat.focusStack, Table(s), i, but) == Some(s.seat.focusStack[k])
  {
    var stack := s.seat.focusStack;
    FirstIsFirst(stack, Table(s), i, but);
    var next := FirstOf(stack, Table(s), i, but);
    assert Candidate(s, i, but, stack[k]);
    assert next.Some?;
    assert Candidate(s, i, but, stack[IndexOf(stack, next.value)]);
  }

  lemma FocusGoesInto(s: State, i: int, but: Option<ViewId>, condense: bool)
    requires FocusOk(s) && LayerOk(s) && HolderInFront(s.seat)
    ensures var next := FirstOf(s.seat.focusStack, Table(s), i, but);
            FocusWentInto(s, FocusView(s, next, condense).seat, i, but)
  {
    hide FocusView, FocusWentTo, FocusWentAway, StackOk, LayerOk;
    var stack := s.seat.focusStack;
    var next := FirstOf(stack, Table(s), i, but);
    FirstIsFirst(stack, Table(s), i, but);
    if next.Some? {
      var v := next.value;
      FocusGoesTo(s, v, condense, None);
      forall k | 0 <= k < |stack| && LastFocused(s, i, but, k)
        ensures stack[k] == v
      {
        assert Candidate(s, i, but, stack[IndexOf(stack, v)]);
      }
      assert Candidate(s, i, but, stack[IndexOf(stack, v)]);
    } else {
      FocusGoesAway(s, condense);
    }
  }

  // ---------------------------------------------------------------------------------------
  // What matters to the focus
  // ---------------------------------------------------------------------------------------

  /** The same views are in the same workspaces, and the same ones are fullscreen there. */
  ghost predicate SameFocusing(b: Bones, b': Bones)
  {
    && b'.cores.Keys == b.cores.Keys
    && (forall v | v in b.cores :: SameStanding(b.cores[v], b'.cores[v]))
    && |b'.ws| == |b.ws|
    && forall i | 0 <= i < |b.ws| :: b'.ws[i].fullscreen == b.ws[i].fullscreen && b'.ws[i].index == b.ws[i].index
  }

  predicate SameStanding(a: Core, b: Core)
  {
    a.mapped == b.mapped && a.workspaceId == b.workspaceId && a.client == b.client && a.ancestors == b.ancestors
  }

  lemma SwitchedFocusing(b: Bones, i: nat, after: Option<OutputId>)
    requires i < |b.ws|
    ensures SameFocusing(b, Switched(b, i, after))
  {
    hide Told, Due;
  }

  lemma SameFocusingTwice(a: Bones, b: Bones, c: Bones)
    requires SameFocusing(a, b) && SameFocusing(b, c)
    ensures SameFocusing(a, c)
  {
  }

  lemma PendingAside(a: Bones, b: Bones)
    requires b == a.(pending := b.pending)
    ensures SameFocusing(a, b)
  {
  }

  lemma SameRefusal(s: State, t: State, v: ViewId, i: int)
    requires SameFocusing(BonesOf(s), BonesOf(t)) && t.seat == s.seat.(cursor := t.seat.cursor)
    ensures Refused(s, v) == Refused(t, v) && LivesIn(Table(s), v, i) == LivesIn(Table(t), v, i)
    ensures FocusedView(s) == FocusedView(t)
  {
    hide BonesOf;
    BonesApart(s); BonesApart(t);
    if v in Table(s) {
      CoreApart(s, v); CoreApart(t, v);
      if Located(s, v) {
        FullscreenAt(s, Home(s, v)); FullscreenAt(t, Home(s, v));
      }
    }
  }

  lemma FocusWentIntoElsewhere(s: State, t: State, r: SeatState, i: int, but: Option<ViewId>)
    requires SameFocusing(BonesOf(s), BonesOf(t)) && t.seat == s.seat.(cursor := t.seat.cursor)
    requires FocusWentInto(t, r, i, but)
    ensures FocusWentInto(s, r, i, but)
  {
    hide SameFocusing, BonesOf, Refused, LivesIn, FocusedView;
    SameRefusal(s, t, 0, i);
    forall v
      ensures Refused(s, v) == Refused(t, v) && LivesIn(Table(s), v, i) == LivesIn(Table(t), v, i)
    {
      SameRefusal(s, t, v, i);
    }
    forall k | 0 <= k < |s.seat.focusStack| && LastFocused(s, i, but, k)
      ensures FocusWentTo(s, r, s.seat.focusStack[k])
    {
      assert LastFocused(t, i, but, k);
      assert FocusWentTo(t, r, t.seat.focusStack[k]);
    }
  }

  // ---------------------------------------------------------------------------------------
  // Switching workspaces
  // ---------------------------------------------------------------------------------------

  /** The cursor goes to the output, and the focus to the view of workspace n that was focused last. */
  lemma FocusFollows(s: State, n: nat, o: OutputId)
    requires FocusOk(s) && LayerOk(s) && HolderInFront(s.seat) && n < |s.workspaces| && s.workspaces[n].index == n
    ensures var r := FocusThere(s, n, o).seat;
            r.cursor == {o} && FocusWentInto(s, r, n, None)
  {
    hide FocusView, BonesOf, NoDuplicates, FocusWentInto, SameFocusing;
    var s1 := s.(seat := s.seat.(cursor := {o}));
    SeatIsNoBone(s, s1);
    PendingAside(BonesOf(s), BonesOf(s1));
    var next := FirstOf(s1.seat.focusStack, Table(s1), n, None);
    FirstOfStack(s1, n, None);
    FocusViewKeeps(s1, next, false, None);
    FocusGoesInto(s1, n, None, false);
    FocusWentIntoElsewhere(s, s1, FocusView(s1, next, false).seat, n, None);
  }

  /** That is what an animation that has brought a workspace in wants done. */
  lemma ArrivalFocuses(s: State, n: nat, o: OutputId)
    requires Inv(s) && HolderInFront(s.seat) && n < |s.workspaces|
    ensures var r := Done(s, ArrivalOf(n, o)).seat;
            r.cursor == {o} && FocusWentInto(s, r, n, None)
  {
    hide BonesOk, BonesOf, FocusThere, StackOk, FocusWentInto;
    IndexInv(s, n);
    FocusFollows(s, n, o);
  }

  lemma IndexInv(s: State, n: nat)
    requires Inv(s) && n < |s.workspaces|
    ensures s.workspaces[n].index == n
  {
    hide FullscreenOk, Assigned, Balanced, FocusOk, Occurrences;
    IndexIsPlace(s, n);
  }

  lemma TakenOverFocusing(s: State, n: nat, p: nat)
    requires Inv(s) && n < |s.workspaces| && p < |s.workspaces|
    requires s.workspaces[n].output.None? && s.workspaces[p].output.Some?
    ensures SameFocusing(BonesOf(s), BonesOf(TakeOver(s, n, p)))
  {
    hide Placement, FullscreenOk, Assigned, Balanced, BonesOf, ToldCores, SlidingIn, SlideOut, Sliding, StackOk,
      Pending, SameFocusing, Switched, Intact;
    var b := BonesOf(s);
    SlidingInIs(s, n, p);
    BonesApart(s);
    var b2 := Switched(b, n, s.workspaces[p].output);
    var s3 := SlidingIn(s, n, p);
    var b3 := BonesOf(s3);
    ToldIsPlaced(b3);
    SlidingOutBones(s3, p, SlideBy(s, n, p));
    TakeOverIs(s, n, p);
    var b4 := BonesOf(TakeOver(s, n, p));
    BonesApart(s3);
    SwitchedFocusing(b, n, s.workspaces[p].output);
    PendingAside(b2, b3);
    SameFocusingTwice(b, b2, b3);
    if b4 == Switched(b3, p, None) {
      SwitchedFocusing(b3, p, None);
    } else {
      PendingAside(b3, b4);
    }
    SameFocusingTwice(b, b3, b4);
  }

  /** Workspace n has a normal tile, or workspace p a floating view. */
  ghost predicate SomethingSlides(s: State, n: nat, p: nat)
    requires n < |s.workspaces| && p < |s.workspaces|
  {
    || s.workspaces[p].floating != []
    || exists v :: IsNormal(Table(s), v) && FindColumn(s.workspaces[n].columns, v) < |s.workspaces[n].columns|
  }

  lemma SlidingMeans(s: State, n: nat, p: nat)
    requires n < |s.workspaces| && p < |s.workspaces|
    ensures Sliding(s, n, p) != [] <==> SomethingSlides(s, n, p)
  {
    hide Count, FindColumn, IsNormal, NormalTiles;
    var ids := Sliding(s, n, p);
    var cols := s.workspaces[n].columns;
    if ids != [] && s.workspaces[p].floating == [] {
      var v := ids[0];
      SlidingCount(s, n, p, v);
      assert v in multiset(ids);
      FindColumnIsMembership(cols, v);
    }
    if v :| IsNormal(Table(s), v) && FindColumn(cols, v) < |cols| {
      SlidingCount(s, n, p, v);
      FindColumnIsMembership(cols, v);
      assert v in multiset(ids);
    }
  }

  lemma EnteredSlides(s: State, n: nat, p: nat)
    requires n < |s.workspaces| && p < |s.workspaces| && n != p && s.workspaces[p].output.Some?
    ensures Sliding(Entered(s, n, p), n, p) != [] <==> SomethingSlides(s, n, p)
  {
    hide Sliding, IsNormal, Notified, AllViews, Arrange, FindColumn;
    var s1 := InWorkspace(s, n, Activate(s.workspaces[n], s.screen, s.workspaces[p].output.value));
    var t := Entered(s, n, p);
    NotifiedKeepsNormal(Table(s), AllViews(s.workspaces[n]), s.workspaces[n].output, s.workspaces[p].output);
    ArrangeKeeps(s1.workspaces[n], s1.screen, s1.env, false);
    SameCoresSameNormal(Table(s1), Table(t));
    SlidingMeans(t, n, p);
  }

  /** Where a switch takes the cursor. */
  function Destination(s: State, n: nat): Option<OutputId>
    requires n < |s.workspaces|
  {
    if s.workspaces[n].output.Some? then s.workspaces[n].output
    else if FocusedWorkspace(s).Some? then s.workspaces[FocusedWorkspace(s).value].output
    else None
  }

  /** A switch to a workspace that is on an output already, or with which nothing slides in, takes the cursor there and
      the focus to the view of that workspace that was focused last, at once. Otherwise it leaves that to the end of an
      animation. A switch to the workspace under the cursor does nothing. */
  lemma SwitchingFocuses(s: State, n: nat)
    requires Inv(s) && HolderInFront(s.seat) && n < |s.workspaces|
    ensures var t := SwitchTo(s, n);
            if FocusedWorkspace(s) == Some(n) then t == s
            else if Destination(s, n).None? then t.seat == s.seat && t.screen.fault
            else if s.workspaces[n].output.None? && SomethingSlides(s, n, FocusedWorkspace(s).value)
            then t.seat == s.seat && Pending(t.screen.tasks)[ArrivalOf(n, Destination(s, n).value)] > 0
            else t.seat.cursor == {Destination(s, n).value} && FocusWentInto(s, t.seat, n, None)
  {
    hide BonesOk, BonesOf, TakeOver, FocusThere, FocusedWorkspace, Sliding, Entered, StackOk, FocusWentInto,
      SomethingSlides, SameFocusing, Pending;
    IndexInv(s, n);
    if FocusedWorkspace(s) != Some(n) && Destination(s, n).Some? {
      var o := Destination(s, n).value;
      if s.workspaces[n].output.Some? {
        FocusFollows(s, n, o);
      } else {
        var p := FocusedWorkspace(s).value;
        EnteredSlides(s, n, p);
        var t := TakeOver(s, n, p);
        TakenOverSeat(s, n, p);
        if !SomethingSlides(s, n, p) {
          TakenOverFocusing(s, n, p);
          FocusAfterwards(s, t, n, o);
        }
      }
    }
  }

  lemma FocusAfterwards(s: State, t: State, n: nat, o: OutputId)
    requires Inv(s) && HolderInFront(s.seat) && n < |s.workspaces| && |t.workspaces| == |s.workspaces|
    requires SameFocusing(BonesOf(s), BonesOf(t)) && t.seat == s.seat && t.layers == s.layers
    ensures var r := FocusThere(t, n, o).seat;
            r.cursor == {o} && FocusWentInto(s, r, n, None)
  {
    hide BonesOk, NoDuplicates, FocusWentInto, FocusThere;
    IndexInv(s, n);
    FullscreenAt(s, n); FullscreenAt(t, n);
    StackCores(s);
    forall v | v in t.seat.focusStack
      ensures v in Table(t) && Table(t)[v].mapped
    {
      CoresTell(s, v);
      CoresTell(t, v);
    }
    FocusFollows(t, n, o);
    FocusWentIntoElsewhere(s, t, FocusThere(t, n, o).seat, n, None);
  }

  lemma TakenOverSeat(s: State, n: nat, p: nat)
    requires Inv(s) && n < |s.workspaces| && p < |s.workspaces|
    requires s.workspaces[n].output.None? && s.workspaces[p].output.Some?
    ensures var t := TakeOver(s, n, p);
            && t.seat == s.seat && t.layers == s.layers && |t.workspaces| == |s.workspaces|
            && t.workspaces[n].output == s.workspaces[p].output
            && (Sliding(Entered(s, n, p), n, p) != [] ==>
                  Pending(t.screen.tasks)[ArrivalOf(n, s.workspaces[p].output.value)] > 0)
  {
    hide Inv, BonesOf, Sliding, Entered, Pending, TakeOver, Intact, TakenOver, PlacedAndTold, SameMapped;
    TakenOverBones(s, n, p);
    EnteredCount(s, n, p);
    if Sliding(Entered(s, n, p), n, p) != [] {
      ArrivalIsPending(s, n, p);
    }
  }

  lemma EnteredCount(s: State, n: nat, p: nat)
    requires n < |s.workspaces| && p < |s.workspaces| && s.workspaces[p].output.Some?
    ensures |Entered(s, n, p).workspaces| == |s.workspaces|
  {
    hide Notified, AllViews, Arrange;
  }

  lemma ArrivalIsPending(s: State, n: nat, p: nat)
    requires Inv(s) && n < |s.workspaces| && p < |s.workspaces|
    requires s.workspaces[n].output.None? && s.workspaces[p].output.Some?
    requires |Entered(s, n, p).workspaces| == |s.workspaces|
    requires Sliding(Entered(s, n, p), n, p) != []
    ensures Pending(TakeOver(s, n, p).screen.tasks)[ArrivalOf(n, s.workspaces[p].output.value)] > 0
  {
    hide Placement, FullscreenOk, Assigned, Balanced, BonesOf, Sliding, Entered, StackOk, Pending, SlideIn, SlideOut,
      TakeOver, ToldCores;
    var o := s.workspaces[p].output;
    var dy := SlideBy(s, n, p);
    var s2, s3, t := Entered(s, n, p), SlidingIn(s, n, p), TakeOver(s, n, p);
    BonesApart(s); BonesApart(s2); BonesApart(s3); BonesApart(t);
    EnteredBones(s, n, p);
    SwitchingKeeps(BonesOf(s), n, o);
    SlidingInBones(s2, n, p, o.value, dy);
    SlidingInIs(s, n, p);
    ToldIsPlaced(BonesOf(s3));
    SlidingOutBones(s3, p, dy);
    TakeOverIs(s, n, p);
  }

  // ---------------------------------------------------------------------------------------
  // The focused view goes away
  // ---------------------------------------------------------------------------------------

  /** In workspaces without v, another view is refused just as before, unless v was the fullscreen view it was behind.
      */
  lemma RefusedOnceWithdrawn(s: State, v: ViewId, u: ViewId)
    requires Inv(s) && v in Table(s) && u != v && IsMappedView(s, u)
    ensures Refused(Withdrawn(s, v), u) <==>
            !InputAllowed(s, u) || (HiddenByFullscreen(s, u) && s.workspaces[Home(s, u)].fullscreen != Some(v))
  {
    hide FullscreenOk, Assigned, Balanced, BonesOf, Withdrawn, FocusOk, WithoutView, Told;
    var t := Withdrawn(s, v);
    SameSeatWithdrawn(s, v);
    BonesApart(s); BonesApart(t);
    CoreApart(s, u);
    if Table(s)[v].mapped {
      MappedIsLocated(s, v);
      CoreApart(s, v);
      WithdrawnBones(s, v);
      CoreApart(t, u);
      FullscreenAt(s, Home(s, u)); FullscreenAt(t, Home(s, u));
      WithoutKeepsFullscreen(Dismissed(BonesOf(s).ws[Home(s, v)], v), v);
      if Home(s, u) != Home(s, v) {
        OthersFullscreen(s, Home(s, u), v);
      }
    } else {
      NothingWithdrawn(s, v);
      OthersFullscreen(s, Home(s, u), v);
    }
  }

  lemma WithoutKeepsFullscreen(w: WorkspaceState, v: ViewId)
    ensures WithoutView(w, v).fullscreen == w.fullscreen
  {
  }

  lemma OthersFullscreen(s: State, i: nat, v: ViewId)
    requires Inv(s) && i < |s.workspaces| && v in Table(s) && !(Table(s)[v].mapped && Table(s)[v].workspaceId == i)
    ensures s.workspaces[i].fullscreen != Some(v)
  {
    hide Placement, Assigned, Balanced, FocusOk;
    FullscreenAt(s, i);
    CoreApart(s, v);
    assert Due(BonesOf(s), i, v) == 0;
  }

  /** When the focused view is unmapped, the focus goes to the last focused of the others: it has the keyboard then,
      exactly unless it is refused. The view that is gone keeps the keyboard if there is no other, or that one is behind
      a fullscreen view. When another view is unmapped, the keyboard stays where it is. */
  lemma UnmappingPassesTheFocusOn(s: State, v: ViewId)
    requires Inv(s) && HolderInFront(s.seat) && v in Table(s)
    ensures var t := Withdrawn(s, v);
            var r := UnmapView(s, v).seat;
            && r.focusStack == Without(s.seat.focusStack, v)
            && (if FocusedView(s) != Some(v) || r.focusStack == [] then r.keyboard == s.seat.keyboard
                else if s.seat.focusedLayer.Some?
                then r.keyboard == Some(LayerSurface(s.seat.focusedLayer.value))
                else
                  && (HasKeyboard(r, r.focusStack[0]) <==> !Refused(t, r.focusStack[0]))
                  && (HasKeyboard(r, v) <==> HasKeyboard(s.seat, v) && HiddenByFullscreen(t, r.focusStack[0])))
  {
    hide BonesOk, BonesOf, NoDuplicates, Withdrawn, FocusView, FocusPlain, Refused, HiddenByFullscreen, InputAllowed,
      FirstMapped, ToFront;
    var t := Withdrawn(s, v);
    WithdrawingKeeps(s, v);
    SameSeatWithdrawn(s, v);
    UnmappingKeepsTheOrder(s, v);
    if FocusedView(s) == Some(v) {
      NextIsSecond(t, v);
      SecondIsFirst(s.seat.focusStack, v);
      var next := FirstMapped(t.seat.focusStack, Table(t), v);
      if next.Some? {
        FocusGoesTo(t, next.value, true, Some(v));
        if s.seat.focusedLayer.None? {
          PlainFocus(t, next, true);
          PlainSeat(t, next, true);
        }
      }
    }
  }

  lemma SecondIsFirst(stack: seq<ViewId>, v: ViewId)
    requires NoDuplicates(stack) && stack != [] && stack[0] == v
    ensures Without(stack, v) == stack[1..]
    ensures |stack| >= 2 ==> stack[1] != v
  {
    assert stack == [] + [v] + stack[1..];
    assert v !in stack[1..];
    WithoutSplit([], v, stack[1..]);
    assert [] + stack[1..] == stack[1..];
  }

  // ---------------------------------------------------------------------------------------
  // The focused view goes to another workspace
  // ---------------------------------------------------------------------------------------

  /** When a view changes workspaces, the focus stays in the one it leaves: with the view of it that was focused last.
      If it is in that workspace already, nothing happens. */
  lemma FocusStaysBehind(s: State, v: ViewId, j: nat)
    requires Inv(s) && HolderInFront(s.seat) && IsMappedView(s, v) && j < |s.workspaces|
    ensures Home(s, v) == j ==> ChangeWorkspace(s, v, j) == s
    ensures Home(s, v) != j ==>
              var i := Home(s, v);
              var t := Transplanted(s, v, j);
              && t.seat == s.seat && FocusWentInto(t, ChangeWorkspace(s, v, j).seat, i, Some(v))
              && forall u :: Candidate(t, i, Some(v), u) == Candidate(s, i, Some(v), u)
  {
    hide BonesOk, BonesOf, NoDuplicates, Transplanted, FocusView, FocusWentInto, Handed, Taken, Given;
    if Home(s, v) != j {
      var i := Home(s, v);
      var t := Transplanted(s, v, j);
      TransplantKeepsInv(s, v, j);
      TransplantedBones(s, v, j);
      IndexInv(t, i);
      FocusGoesInto(t, i, Some(v), false);
      forall u
        ensures Candidate(t, i, Some(v), u) == Candidate(s, i, Some(v), u)
      {
        OthersStayPut(s, v, j, u);
      }
    }
  }

  lemma OthersStayPut(s: State, v: ViewId, j: nat, u: ViewId)
    requires BonesOk(BonesOf(s)) && IsMappedView(s, v) && j < |s.workspaces| && Home(s, v) != j
    ensures var t := Transplanted(s, v, j);
            && (u in Table(t) <==> u in Table(s))
            && (u in Table(s) && u != v ==> Table(t)[u].workspaceId == Table(s)[u].workspaceId)
  {
    hide BonesOk, BonesOf, Transplanted, Told, WithView, WithoutView;
    var t := Transplanted(s, v, j);
    TransplantedBones(s, v, j);
    BonesApart(s); BonesApart(t);
    if u in Table(s) {
      CoreApart(s, u); CoreApart(t, u);
    }
  }

  // ---------------------------------------------------------------------------------------
  // Columns, cycles, new views and exclusive clients
  // ---------------------------------------------------------------------------------------

  /** The view at place k of the stack is the last focused normal tile of a column. */
  ghost predicate LastFocusedOf(s: State, col: Column, k: nat)
    requires k < |s.seat.focusStack|
  {
    && IsNormalTile(col, Table(s), s.seat.focusStack[k])
    && forall j | 0 <= j < k :: !IsNormalTile(col, Table(s), s.seat.focusStack[j])
  }

  lemma {:induction false} FirstTiledIsFirst(stack: seq<ViewId>, col: Column, views: ViewTable)
    ensures match FirstTiled(stack, col, views)
            case None => forall j | 0 <= j < |stack| :: !IsNormalTile(col, views, stack[j])
            case Some(v) => IndexOf(stack, v) < |stack|
                            && forall j | 0 <= j < IndexOf(stack, v) :: !IsNormalTile(col, views, stack[j])
  {
    hide IsNormalTile;
    if stack == [] || IsNormalTile(col, views, stack[0]) {
    } else {
      FirstTiledIsFirst(stack[1..], col, views);
      assert forall j | 1 <= j < |stack| :: stack[j] == stack[1..][j - 1];
    }
  }

  /** Focusing a column focuses the normal tile of it that was focused last, and does nothing if none was. */
  lemma FocusingColumnFocuses(s: State, i: nat, c: nat)
    requires FocusOk(s) && LayerOk(s) && HolderInFront(s.seat)
    requires i < |s.workspaces| && c < |s.workspaces[i].columns|
    ensures var col := s.workspaces[i].columns[c];
            var stack := s.seat.focusStack;
            && (forall k | 0 <= k < |stack| && LastFocusedOf(s, col, k) ::
                  FocusWentTo(s, FocusColumn(s, i, c).seat, stack[k]))
            && ((forall k | 0 <= k < |stack| :: !IsNormalTile(col, Table(s), stack[k])) ==> FocusColumn(s, i, c) == s)
  {
    hide FocusView, FocusWentTo, NoDuplicates, IsNormalTile, LayerOk;
    var col := s.workspaces[i].columns[c];
    var stack := s.seat.focusStack;
    FirstTiledIsFirst(stack, col, Table(s));
    var first := FirstTiled(stack, col, Table(s));
    if first.Some? {
      var v := first.value;
      FocusGoesTo(s, v, false, None);
      forall k | 0 <= k < |stack| && LastFocusedOf(s, col, k)
        ensures stack[k] == v
      {
        assert IsNormalTile(col, Table(s), stack[IndexOf(stack, v)]);
      }
    }
  }

  /** Besides rotating the stack, a cycle gives the keyboard to the next view in it. */
  lemma CyclingFocuses(s: State, i: nat, k: nat)
    requires Cycling(s, i) && HolderInFront(s.seat)
    requires 0 < k < |s.seat.focusStack| && LivesIn(Table(s), s.seat.focusStack[k], i)
    requires forall j | 0 < j < k :: !LivesIn(Table(s), s.seat.focusStack[j], i)
    ensures FocusWentTo(s, FocusCycle(s).seat, s.seat.focusStack[k])
  {
    hide FocusView, Refused, FocusedWorkspace, ToFront;
    var stack := s.seat.focusStack;
    var v := stack[k];
    NextIsAt(stack, Table(s), i, k);
    assert v != stack[0];
    FocusGoesTo(s, v, false, None);
    FocusedStack(s, v, false, None);
    StackFor(s, v);
  }

  lemma NextIsAt(stack: seq<ViewId>, views: ViewTable, i: int, k: nat)
    requires 0 < k < |stack| && LivesIn(views, stack[k], i)
    requires forall j | 0 < j < k :: !LivesIn(views, stack[j], i)
    ensures FirstOf(stack[1..], views, i, None) == Some(stack[k]) && stack[k] in stack[1..]
  {
    var rest := stack[1..];
    FirstIsFirst(rest, views, i, None);
    assert rest[k - 1] == stack[k];
    var next := FirstOf(rest, views, i, None);
    var n := IndexOf(rest, next.value);
    assert rest[n] == stack[n + 1];
    assert !(n > k - 1);
  }

  /** A view that is mapped goes to the front of the stack and gets the keyboard, unless it is refused; a view that
      still had the keyboard from before it was unmapped may keep it even so. */
  lemma MappingFocuses(s: State, v: ViewId, geometry: Box)
    requires Inv(s) && CanMap(s, v)
    ensures var t := Mapped(s, v, geometry);
            var r := MapView(s, v, geometry).seat;
            && t.seat == s.seat && (InFront(r, v) <==> !Refused(t, v))
            && (if s.seat.focusedLayer.Some? then r.keyboard == Some(LayerSurface(s.seat.focusedLayer.value))
                else HasKeyboard(r, v) <==>
                     || !Refused(t, v)
                     || (HasKeyboard(s.seat, v) && (HiddenByFullscreen(t, v) || FocusedView(s).None?)))
  {
    hide BonesOk, BonesOf, Mapped, FocusView, FocusPlain, MapView, InputAllowed, HiddenByFullscreen, NoDuplicates,
      FocusedWorkspace, ToFront;
    var t := Mapped(s, v, geometry);
    ToFrontHead(s.seat.focusStack, v);
    MappedSeat(s, v, geometry);
    MappingStack(s, v, geometry);
    MappingPutsInFront(s, v, geometry);
    if s.seat.focusedLayer.Some? {
      LayerHasTheKeyboard(t, Some(v), false);
    } else {
      PlainFocus(t, Some(v), false);
      PlainSeat(t, Some(v), false);
    }
  }

  lemma MappedSeat(s: State, v: ViewId, geometry: Box)
    requires Inv(s) && CanMap(s, v)
    ensures Mapped(s, v, geometry).seat == s.seat && v !in s.seat.focusStack
    ensures MapView(s, v, geometry) == FocusView(Mapped(s, v, geometry), Some(v), false)
    ensures Mapped(s, v, geometry).layers == s.layers
  {
    hide BonesOf, Mapped, FocusView, MapView, NoDuplicates, FocusedWorkspace, FullscreenOk, Assigned, Balanced,
      Placement;
    MappedBones(s, v, geometry);
  }

  /** Once a client has the input to itself, every view of another client is refused. */
  lemma OthersAreRefused(s: State, client: nat, v: ViewId)
    requires FocusOk(s) && LayerOk(s) && v in Table(s)
    ensures Refused(SetExclusiveClient(s, Some(client)), v) || Table(s)[v].client == client
  {
    hide ReleasedLayer, ReleasedView, StackOk, BonesOf, FocusOnly;
    var s1 := ReleasedLayer(s, client);
    ReleasedLayerKeyboard(s, client);
    ReleasedViewKeyboard(s1, client);
    SameClients(s, s1);
    SameClients(s1, ReleasedView(s1, client));
  }

  /** A client that gets the input to itself keeps the focus it has, and one that gives it up again takes it from
      nobody. */
  lemma OwnFocusStays(s: State, client: Option<nat>)
    requires FocusOk(s)
    requires client.Some? ==> !LayerElsewhere(s, client.value) && !FrontElsewhere(s, client.value)
    ensures SetExclusiveClient(s, client) == s.(seat := s.seat.(exclusiveClient := client))
  {
    hide FocusView, FocusLayer, NoDuplicates;
  }

  /** A layer that is unmapped without having the focus leaves it alone. */
  lemma UnfocusedLayerGoes(s: State, layer: LayerId)
    requires layer in s.layers && s.seat.focusedLayer != Some(layer)
    ensures UnmapLayer(s, layer) == s.(layers := s.layers[layer := s.layers[layer].(mapped := false)])
  {
  }

  /** v is behind f: f is fullscreen in the same workspace, and no parent of v. */
  predicate BlockedBy(s: State, v: ViewId, f: ViewId)
    requires v in Table(s) && f in Table(s)
  {
    && f != v && f !in Table(s)[v].ancestors && Table(s)[f].workspaceId == Table(s)[v].workspaceId
    && Table(s)[f].mapped && Table(s)[f].expansion == Fullscreen
  }

  /** In terms of the views: one is refused exactly when another view of its workspace is fullscreen, and no parent of
      it, or a client that is not its own has the input to itself. */
  lemma RefusedExactlyWhen(s: State, v: ViewId)
    requires Inv(s) && IsMappedView(s, v)
    ensures Refused(s, v) <==>
            || (s.seat.exclusiveClient.Some? && s.seat.exclusiveClient.value != Table(s)[v].client)
            || exists f | f in Table(s) :: BlockedBy(s, v, f)
  {
    hide BonesOk, FocusOk;
    InvIsFullscreenConsistent(s);
  }

  /** A view that is fullscreen in workspace i. */
  predicate FullscreenIn(s: State, i: nat, f: ViewId)
  {
    f in Table(s) && Table(s)[f].mapped && Table(s)[f].expansion == Fullscreen && Table(s)[f].workspaceId == i
  }

  /** A new window comes to the front unless its client may not have the input, or it covers the cursor's workspace for
      a fullscreen view that is not among its parents. */
  lemma NewViewIsInFrontExactlyWhen(s: State, v: ViewId, client: nat, ancestors: seq<ViewId>, geometry: Box)
    requires Inv(s) && v !in Table(s) && FocusedWorkspace(s).Some?
    ensures InFront(MapView(CreateView(s, v, client, ancestors), v, geometry).seat, v) <==>
            && (s.seat.exclusiveClient.None? || s.seat.exclusiveClient.value == client)
            && forall f | FullscreenIn(s, FocusedWorkspace(s).value, f) :: f in ancestors
  {
    hide BonesOk, BonesOf, FocusOk, Mapped, MapView, InputAllowed, HiddenByFullscreen, FocusedWorkspace;
    var i := FocusedWorkspace(s).value;
    var s1 := CreateView(s, v, client, ancestors);
    CreatingKeeps(s, v, client, ancestors);
    SameCursorWorkspace(s, s1);
    MappingFocuses(s1, v, geometry);
    MappedKeeps(s1, v, geometry);
    var t := Mapped(s1, v, geometry);
    MappedIsLocated(t, v);
    RefusedExactlyWhen(t, v);
    forall f
      ensures FullscreenIn(s, i, f) && f !in ancestors <==> f in Table(t) && BlockedBy(t, v, f)
    {
      NewcomersNeighbour(s, v, client, ancestors, geometry, f);
    }
    NewcomersNeighbour(s, v, client, ancestors, geometry, v);
  }

  lemma NewcomersNeighbour(s: State, v: ViewId, client: nat, ancestors: seq<ViewId>, geometry: Box, f: ViewId)
    requires Inv(s) && v !in Table(s) && FocusedWorkspace(s).Some? && CanMap(CreateView(s, v, client, ancestors), v)
    ensures var t := Mapped(CreateView(s, v, client, ancestors), v, geometry);
            && v in Table(t) && Table(t)[v].client == client
            && (FullscreenIn(s, FocusedWorkspace(s).value, f) && f !in ancestors <==>
                  f in Table(t) && BlockedBy(t, v, f))
  {
    hide BonesOk, BonesOf, FocusOk, Mapped, FocusedWorkspace, Told, Cores;
    var s1 := CreateView(s, v, client, ancestors);
    var t := Mapped(s1, v, geometry);
    SameCursorWorkspace(s, s1);
    CreatingKeeps(s, v, client, ancestors);
    SettledBones(s1);
    MappedBones(s1, v, geometry);
    BonesApart(s1);
    BonesApart(t);
    CoreApart(s1, v);
    CoresTell(t, v);
    if f in Table(s1) {
      CoreApart(s1, f);
      CoresTell(t, f);
    }
    if f in Table(t) {
      CoreApart(t, f);
    }
  }

  lemma SettledBones(s: State)
    requires BonesOk(BonesOf(s))
    ensures Placement(BonesOf(s))
  {
    hide Placement, FullscreenOk, Assigned, Balanced, BonesOf;
  }

  // ---------------------------------------------------------------------------------------
  // Over whole runs
  // ---------------------------------------------------------------------------------------

  lemma {:induction false} FocusingKeepsHolder(s: State, view: Option<ViewId>, condense: bool)
    requires HolderInFront(s.seat)
    ensures HolderInFront(FocusView(s, view, condense).seat)
    decreases if s.seat.focusedLayer.Some? then 2 else 0
  {
    hide FocusPlain, HiddenByFullscreen, InputAllowed, ToFront;
    if s.seat.focusedLayer.Some? {
      var s1 := FocusLayer(s, None);
      FocusingLayerKeepsHolder(s, None);
      FocusingKeepsHolder(s1, view, condense);
      FocusingLayerKeepsHolder(FocusView(s1, view, condense), s.seat.focusedLayer);
    } else {
      PlainSeat(s, view, condense);
      if view.Some? {
        ToFrontHead(s.seat.focusStack, view.value);
      }
    }
  }

  lemma {:induction false} FocusingLayerKeepsHolder(s: State, layer: Option<LayerId>)
    requires HolderInFront(s.seat)
    ensures HolderInFront(FocusLayer(s, layer).seat)
    decreases if s.seat.focusedLayer.Some? && layer.None? then 1 else 0
  {
    hide FocusPlain;
    if layer.None? && s.seat.focusedLayer.Some? {
      var s1 := s.(seat := s.seat.(focusedLayer := None));
      var focused := FocusedView(s1);
      if focused.Some? {
        FocusingKeepsHolder(s1, None, false);
        FocusingKeepsHolder(FocusView(s1, None, false), focused, false);
      }
    }
  }

  lemma UnmappingKeepsHolder(s: State, v: ViewId)
    requires HolderInFront(s.seat) && v in Table(s)
    ensures HolderInFront(UnmapView(s, v).seat)
  {
    hide FocusView, Withdrawn, FirstMapped;
    SameSeatWithdrawn(s, v);
    var t := Withdrawn(s, v);
    var next := FirstMapped(t.seat.focusStack, Table(t), v);
    FocusingKeepsHolder(t, next, true);
    WithoutElements(HideView(t, v).seat.focusStack, v);
  }

  lemma MappingKeepsHolder(s: State, v: ViewId, geometry: Box)
    requires HolderInFront(s.seat) && v in Table(s)
    ensures HolderInFront(MapView(s, v, geometry).seat)
  {
    hide FocusView, FocusedWorkspace, AddView;
    var s1 := WithTable(s, Table(s)[v := NewlyMapped(Table(s)[v], geometry)]);
    var i := FocusedWorkspace(s1);
    var s2 := if i.None? then s1
              else InWorkspace(s1, i.value,
                               AddView(s1.workspaces[i.value], s1.screen, s1.env, v, FocusedView(s1), false, false));
    FocusingKeepsHolder(s2, Some(v), false);
  }

  lemma TransplantedSeat(s: State, v: ViewId, j: nat)
    requires Located(s, v) && j < |s.workspaces|
    ensures Transplanted(s, v, j).seat == s.seat && |Transplanted(s, v, j).workspaces| == |s.workspaces|
  {
    hide RemoveFromWorkspace, AddView, SetFullscreen, Arrange;
  }

  lemma ChangingWorkspaceKeepsHolder(s: State, v: ViewId, j: nat)
    requires HolderInFront(s.seat) && j < |s.workspaces|
    ensures HolderInFront(ChangeWorkspace(s, v, j).seat)
  {
    hide FocusView, Transplanted, FirstOf;
    if Located(s, v) && Home(s, v) != j {
      TransplantedSeat(s, v, j);
      var s1 := Transplanted(s, v, j);
      FocusingKeepsHolder(s1, FirstOf(s1.seat.focusStack, Table(s1), s1.workspaces[Home(s, v)].index, Some(v)), false);
    }
  }

  lemma FloatingKeepsHolder(s: State, v: ViewId, x: int, y: int, under: Option<OutputId>)
    requires HolderInFront(s.seat) && Located(s, v)
    ensures HolderInFront(FloatTo(s, v, x, y, under).seat)
  {
    hide ChangeWorkspace, WorkspaceOn;
    var s1 := WithTable(s, Table(s)[v := Table(s)[v].Move(x, y)]);
    var j := WorkspaceOn(s1.workspaces, under);
    if j < |s1.workspaces| {
      ChangingWorkspaceKeepsHolder(s1, v, j);
    }
  }

  lemma DraggingKeepsHolder(s: State, v: ViewId, x: int, y: int, animate: bool, under: Option<OutputId>)
    requires HolderInFront(s.seat) && Located(s, v)
    ensures HolderInFront(Reposition(s, v, x, y, animate, under).seat)
  {
    hide FloatTo, Arrange, FindColumn;
    FloatingKeepsHolder(s, v, x, y, under);
  }

  lemma MovingKeepsHolder(s: State, dx: int, dy: int, under: Option<OutputId>)
    requires HolderInFront(s.seat)
    ensures HolderInFront(MoveFocused(s, dx, dy, under).seat)
  {
    hide FloatTo, Arrange, FindColumn, Moved, FitView;
    if FocusedView(s).Some? && Located(s, FocusedView(s).value) {
      var v := FocusedView(s).value;
      FloatingKeepsHolder(s, v, Table(s)[v].x + dx, Table(s)[v].y + dy, under);
    }
  }

  lemma CyclingKeepsHolder(s: State)
    requires HolderInFront(s.seat)
    ensures HolderInFront(FocusCycle(s).seat)
  {
    hide FocusView, FocusedWorkspace, FirstOf;
    var i := FocusedWorkspace(s);
    if i.Some? && s.seat.focusStack != [] {
      var next := FirstOf(s.seat.focusStack[1..], Table(s), s.workspaces[i.value].index, None);
      FocusingKeepsHolder(s, next, false);
      BackKeepsElements(FocusView(s, next, false).seat.focusStack);
    }
  }

  lemma BackKeepsElements(stack: seq<ViewId>)
    ensures |stack| >= 2 ==>
              SecondToBack(stack)[0] == stack[0] && forall v | v in SecondToBack(stack) :: v in stack
  {
  }

  lemma FocusingThereKeepsHolder(s: State, n: nat, o: OutputId)
    requires HolderInFront(s.seat) && n < |s.workspaces|
    ensures HolderInFront(FocusThere(s, n, o).seat)
  {
    hide FocusView, FirstOf;
    var s1 := s.(seat := s.seat.(cursor := {o}));
    FocusingKeepsHolder(s1, FirstOf(s1.seat.focusStack, Table(s1), s1.workspaces[n].index, None), false);
  }

  lemma TakeOverSeat(s: State, n: nat, p: nat)
    requires n < |s.workspaces| && p < |s.workspaces| && s.workspaces[p].output.Some?
    ensures TakeOver(s, n, p).seat == s.seat && |TakeOver(s, n, p).workspaces| == |s.workspaces|
  {
    hide Notified, AllViews, Arrange, PutOff, SlideTasks, Sliding;
  }

  lemma SwitchingKeepsHolder(s: State, n: nat)
    requires HolderInFront(s.seat) && n < |s.workspaces|
    ensures HolderInFront(SwitchTo(s, n).seat) && |SwitchTo(s, n).workspaces| == |SwitchTo(s, n).workspaces|
  {
    hide TakeOver, FocusThere, FocusedWorkspace, Sliding, Entered;
    var current := FocusedWorkspace(s);
    if s.workspaces[n].output.Some? {
      FocusingThereKeepsHolder(s, n, s.workspaces[n].output.value);
    } else if current.Some? {
      var t := TakeOver(s, n, current.value);
      TakeOverSeat(s, n, current.value);
      if t.workspaces[n].output.Some? {
        FocusingThereKeepsHolder(t, n, t.workspaces[n].output.value);
      }
    }
  }

  lemma DoneKeepsHolder(s: State, callback: Callback)
    requires HolderInFront(s.seat)
    ensures HolderInFront(Done(s, callback).seat)
  {
    hide FocusThere, Deactivate;
    match callback
    case Silent =>
    case ArrivalOf(n, o) =>
      if n < |s.workspaces| {
        FocusingThereKeepsHolder(s, n, o);
      }
    case DepartureOf(p) =>
  }

  lemma {:induction false} TickingKeepsHolder(s: State, duration: int, count: nat)
    requires HolderInFront(s.seat) && duration > 0
    ensures HolderInFront(TakeTasks(s, duration, count).seat)
    decreases count
  {
    hide Done, FrontWish, FrontRun;
    if count == 0 || s.screen.tasks == [] {
    } else {
      DoneKeepsHolder(FrontTaken(s, duration), FrontWish(s, duration));
      TickingKeepsHolder(TakeTask(s, duration), duration, count - 1);
    }
  }

  lemma ExclusiveKeepsHolder(s: State, client: Option<nat>)
    requires HolderInFront(s.seat)
    ensures HolderInFront(SetExclusiveClient(s, client).seat)
  {
    hide FocusView, FocusLayer;
    if client.Some? {
      FocusingLayerKeepsHolder(s, None);
      FocusingKeepsHolder(ReleasedLayer(s, client.value), None, false);
    }
  }

  lemma HolderIgnoresCursor(a: SeatState, b: SeatState)
    requires HolderInFront(a) && b == a.(cursor := b.cursor)
    ensures HolderInFront(b)
  {
  }

  lemma ViewsKeepHolder(s: State, v: ViewId, client: nat, ancestors: seq<ViewId>)
    requires HolderInFront(s.seat)
    ensures HolderInFront(CreateView(s, v, client, ancestors).seat) && HolderInFront(DestroyView(s, v).seat)
  {
  }

  lemma HoldingKeepsHolder(s: State, v: ViewId)
    requires HolderInFront(s.seat) && Located(s, v)
    ensures HolderInFront(TakeHold(s, v).seat)
  {
    hide Halted, HaltedBy;
  }

  lemma ScrollingKeepsHolder(s: State, i: nat, scroll: int, animate: bool)
    requires HolderInFront(s.seat) && i < |s.workspaces|
    ensures HolderInFront(ScrollTo(s, i, scroll, animate).seat)
  {
    hide Arrange;
  }

  lemma TogglingKeepsHolder(s: State)
    requires HolderInFront(s.seat)
    ensures HolderInFront(ToggleFloating(s).seat)
  {
    hide FitView, RemoveFromWorkspace, AddView, FirstOf, LastTile;
  }

  lemma RearrangingKeepsHolder(s: State)
    requires HolderInFront(s.seat)
    ensures HolderInFront(InsertFocused(s).seat) && HolderInFront(PopFocused(s).seat)
  {
    hide FitView, InsertView, PopColumn, Absorbed, FindColumn;
  }

  lemma RequestsKeepHolder(s: State, v: ViewId, on: bool, geometry: Box)
    requires HolderInFront(s.seat)
    ensures HolderInFront(RequestFullscreen(s, v, on).seat) && HolderInFront(Commit(s, v, geometry).seat)
  {
    hide SetFullscreen, Arrange;
  }

  lemma OutputsKeepHolder(s: State, o: OutputId, info: OutputInfo)
    requires HolderInFront(s.seat)
    ensures HolderInFront(AddOutput(s, o, info).seat)
    ensures o in s.env.outputs ==> HolderInFront(ChangeUsableArea(s, o, info).seat)
    ensures o in s.env.outputs ==> HolderInFront(ResizeOutput(s, o, info).seat)
  {
    hide FitView, Arrange, Activate, WorkspaceOn;
  }

  lemma DestroyingOutputKeepsHolder(s: State, o: OutputId)
    requires HolderInFront(s.seat)
    ensures HolderInFront(DestroyOutput(s, o).seat)
  {
    hide Deactivate, WorkspaceOn;
  }

  lemma FrameKeepsHolder(s: State, i: nat, scroll: int, ended: bool, view: Option<ViewId>)
    requires HolderInFront(s.seat) && i < |s.workspaces|
    ensures HolderInFront(SwipeFrame(s, i, scroll, ended, view).seat)
  {
    hide FocusView, Arrange;
    FocusingKeepsHolder(ScrollTo(s, i, scroll, false), view, false);
  }

  lemma CommandsKeepHolder(s: State, n: nat)
    requires HolderInFront(s.seat)
    ensures HolderInFront(SwitchCommand(s, n).seat) && HolderInFront(MoveToCommand(s, n).seat)
  {
    hide SwitchTo, ChangeWorkspace, Arrange;
    if n < |s.workspaces| {
      SwitchingKeepsHolder(s, n);
      if FocusedView(s).Some? {
        ChangingWorkspaceKeepsHolder(s, FocusedView(s).value, n);
      }
    }
  }

  /** Events that have nothing to do with the focus: those of a single view... */
  predicate ChangesAView(e: Event)
  {
    || e.ViewCreated? || e.ViewDestroyed? || e.ViewCommitted? || e.ViewHeld? || e.FullscreenRequested?
    || e.ToggleFloatingCommand? || e.InsertIntoColumnCommand? || e.PopFromColumnCommand?
  }

  /** ...and those of what views are shown on. */
  predicate ChangesTheScreen(e: Event)
  {
    || e.LayerMapped? || e.WorkspaceScrolled? || e.OutputAdded? || e.UsableAreaChanged? || e.OutputResized?
    || e.OutputDestroyed? || e.CursorMoved? || e.TimePassed?
  }

  lemma ViewEventKeepsHolder(s: State, e: Event)
    requires Enabled(s, e) && HolderInFront(s.seat) && ChangesAView(e)
    ensures HolderInFront(Next(s, e).seat)
  {
    hide CreateView, DestroyView, MapView, UnmapView, Commit, Reposition, RequestFullscreen, ChangeWorkspace,
      ToggleFloating, MoveFocused, InsertFocused, PopFocused, FocusCycle, FocusView, FocusColumn, SetExclusiveClient,
      UnmapLayer, FocusLayer, ScrollTo, AddOutput, ResizeOutput, DestroyOutput, SwitchTo, TickTo, CanInsert, CanSwitch,
      CanDestroy, CarriesNoDeparture, SwipeFrame, MayFocus, TakeHold, NoneCarriesDeparture, HaltedBy, ChangeUsableArea,
      SwitchCommand, MoveToCommand, CanMap, CanFullscreen, CanAdvance, HolderInFront;
    match e
    case ViewCreated(v, client, ancestors) => ViewsKeepHolder(s, v, client, ancestors);
    case ViewDestroyed(v) => ViewsKeepHolder(s, v, 0, []);
    case ViewCommitted(v, geometry) => RequestsKeepHolder(s, v, false, geometry);
    case ViewHeld(v) => HoldingKeepsHolder(s, v);
    case FullscreenRequested(v, on) => RequestsKeepHolder(s, v, on, Box(0, 0, 0, 0));
    case ToggleFloatingCommand => TogglingKeepsHolder(s);
    case InsertIntoColumnCommand => RearrangingKeepsHolder(s);
    case PopFromColumnCommand => RearrangingKeepsHolder(s);
  }

  lemma ScreenEventKeepsHolder(s: State, e: Event)
    requires Enabled(s, e) && HolderInFront(s.seat) && ChangesTheScreen(e)
    ensures HolderInFront(Next(s, e).seat)
  {
    hide CreateView, DestroyView, MapView, UnmapView, Commit, Reposition, RequestFullscreen, ChangeWorkspace,
      ToggleFloating, MoveFocused, InsertFocused, PopFocused, FocusCycle, FocusView, FocusColumn, SetExclusiveClient,
      UnmapLayer, FocusLayer, ScrollTo, AddOutput, ResizeOutput, DestroyOutput, SwitchTo, TickTo, CanInsert, CanSwitch,
      CanDestroy, CarriesNoDeparture, SwipeFrame, MayFocus, TakeHold, NoneCarriesDeparture, HaltedBy, ChangeUsableArea,
      SwitchCommand, MoveToCommand, CanMap, CanFullscreen, CanAdvance, HolderInFront;
    match e
    case LayerMapped(_, _) =>
    case WorkspaceScrolled(i, scroll, animate) => ScrollingKeepsHolder(s, i, scroll, animate);
    case OutputAdded(o, info) => OutputsKeepHolder(s, o, info);
    case UsableAreaChanged(o, info) => OutputsKeepHolder(s, o, info);
    case OutputResized(o, info) => OutputsKeepHolder(s, o, info);
    case OutputDestroyed(o) => DestroyingOutputKeepsHolder(s, o);
    case CursorMoved(cursor) => HolderIgnoresCursor(s.seat, s.seat.(cursor := cursor));
    case TimePassed(_) =>
  }

  lemma FocusEventKeepsHolder(s: State, e: Event)
    requires Enabled(s, e) && HolderInFront(s.seat) && !ChangesAView(e) && !ChangesTheScreen(e)
    ensures HolderInFront(Next(s, e).seat)
  {
    hide CreateView, DestroyView, MapView, UnmapView, Commit, Reposition, RequestFullscreen, ChangeWorkspace,
      ToggleFloating, MoveFocused, InsertFocused, PopFocused, FocusCycle, FocusView, SetExclusiveClient, FocusLayer,
      ScrollTo, AddOutput, ResizeOutput, DestroyOutput, SwitchTo, TakeTasks, CanInsert, CanSwitch, CanDestroy,
      CarriesNoDeparture, SwipeFrame, MayFocus, TakeHold, NoneCarriesDeparture, HaltedBy, ChangeUsableArea,
      SwitchCommand, MoveToCommand, CanMap, CanFullscreen, CanAdvance, FirstTiled, HolderInFront;
    match e
    case ViewMapped(v, geometry) => HolderMapping(s, v, geometry);
    case ViewUnmapped(v) => UnmappingKeepsHolder(s, v);
    case ViewDragged(v, x, y, animate, under) => DraggingKeepsHolder(s, v, x, y, animate, under);
    case WorkspaceChanged(v, j) => ChangingWorkspaceKeepsHolder(s, v, j);
    case MoveCommand(dx, dy, under) => MovingKeepsHolder(s, dx, dy, under);
    case FocusCycleCommand => CyclingKeepsHolder(s);
    case FocusCommand(view) => FocusingKeepsHolder(s, view, false);
    case FocusColumnCommand(i, c) =>
      FocusingKeepsHolder(s, FirstTiled(s.seat.focusStack, s.workspaces[i].columns[c], Table(s)), false);
    case ExclusiveClientSet(client) => ExclusiveKeepsHolder(s, client);
    case LayerUnmapped(layer) => FocusingLayerKeepsHolder(s, None);
    case LayerFocused(layer) => FocusingLayerKeepsHolder(s, Some(layer));
    case LayerReleased => FocusingLayerKeepsHolder(s, None);
    case SwipeAdvanced(i, scroll, ended, view) => HolderAdvancing(s, i, scroll, ended, view);
    case WorkspaceFocused(n) => HolderSwitching(s, n);
    case WorkspaceSwitchCommand(n) => CommandsKeepHolder(s, n);
    case WorkspaceMoveCommand(n) => CommandsKeepHolder(s, n);
    case TimerTicked(now, duration) =>
      TickingKeepsHolder(s.(env := s.env.(now := now)), duration, |s.screen.tasks|);
  }

  lemma NextKeepsHolder(s: State, e: Event)
    requires Enabled(s, e) && HolderInFront(s.seat)
    ensures HolderInFront(Next(s, e).seat)
  {
    hide Enabled, Next, HolderInFront;
    if ChangesAView(e) {
      ViewEventKeepsHolder(s, e);
    } else if ChangesTheScreen(e) {
      ScreenEventKeepsHolder(s, e);
    } else {
      FocusEventKeepsHolder(s, e);
    }
  }

  lemma HolderMapping(s: State, v: ViewId, geometry: Box)
    requires HolderInFront(s.seat) && CanMap(s, v)
    ensures HolderInFront(MapView(s, v, geometry).seat)
  {
    hide MapView, FocusedWorkspace;
    MappingKeepsHolder(s, v, geometry);
  }

  lemma HolderAdvancing(s: State, i: nat, scroll: int, ended: bool, view: Option<ViewId>)
    requires HolderInFront(s.seat) && CanAdvance(s, i, ended, view)
    ensures HolderInFront(SwipeFrame(s, i, scroll, ended, view).seat)
  {
    hide SwipeFrame, MayFocus;
    FrameKeepsHolder(s, i, scroll, ended, view);
  }

  lemma HolderSwitching(s: State, n: nat)
    requires HolderInFront(s.seat) && CanSwitch(s, n)
    ensures HolderInFront(SwitchTo(s, n).seat)
  {
    hide SwitchTo, FocusedWorkspace, BonesOf;
    SwitchingKeepsHolder(s, n);
  }

  lemma {:induction false} RunKeepsHolder(s: State, events: seq<Event>)
    requires CanRun(s, events) && HolderInFront(s.seat)
    ensures HolderInFront(Run(s, events).seat)
    decreases |events|
  {
    hide Enabled, Next, HolderInFront;
    if events == [] {
    } else {
      NextKeepsHolder(s, events[0]);
      RunKeepsHolder(Next(s, events[0]), events[1..]);
    }
  }

  /** In every state that can be reached, a view that has the keyboard is the one in front of the focus stack, or not on
      it at all. */
  lemma KeyboardIsInFront(gap: int, now: Time, events: seq<Event>, v: ViewId)
    requires CanRun(Initial(gap, now), events)
    requires HasKeyboard(Run(Initial(gap, now), events).seat, v)
    ensures var s := Run(Initial(gap, now), events);
            InFront(s.seat, v) || v !in s.seat.focusStack
  {
    hide Run, CanRun;
    RunKeepsHolder(Initial(gap, now), events);
  }
}
