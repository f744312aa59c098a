/** The focus stack: what focusing a view does to it, with and without a layer in between, and why
    cycling the focus visits the views of a workspace in turn. */
module Focus {
  import opened Prelude
  import opened Views
  import opened Layout
  import opened AnimationQueue
  import opened Tiling
  import opened Desktop
  import opened Invariants
  import opened Steps

  /** The focus is denied: the view is behind a fullscreen view, or another client has input to itself. */
  predicate Refused(s: State, v: ViewId)
  {
    HiddenByFullscreen(s, v) || !InputAllowed(s, v)
  }

  lemma RefusedElsewhere(s: State, t: State, v: ViewId)
    requires FocusOnly(s, t)
    ensures Refused(s, v) == Refused(t, v)
    ensures Located(s, v) == Located(t, v) && (v in Table(s) <==> v in Table(t))
    ensures v in Table(s) ==> Table(s)[v].workspaceId == Table(t)[v].workspaceId
  {
    SameBonesMapped(s, t, v);
    BonesApart(s); BonesApart(t);
    if Located(s, v) {
      FullscreenAt(s, Home(s, v)); FullscreenAt(t, Home(s, v));
    }
  }

  lemma FullscreenAt(s: State, i: nat)
    requires i < |s.workspaces|
    ensures i < |BonesOf(s).ws| && BonesOf(s).ws[i].fullscreen == s.workspaces[i].fullscreen
            && BonesOf(s).ws[i].index == s.workspaces[i].index
  {
  }

  // ---------------------------------------------------------------------------------------
  // Focusing a view
  // ---------------------------------------------------------------------------------------

  /** What `focus_view` does to the seat when no layer has the focus. */
  lemma PlainSeat(s: State, view: Option<ViewId>, condense: bool)
    ensures var r := FocusPlain(s, view, condense).seat;
            if FocusedView(s) == view || (view.Some? && HiddenByFullscreen(s, view.value)) then r == s.seat
            else if view.None? || !InputAllowed(s, view.value)
            then r == s.seat.(keyboard := if FocusedView(s).Some? then None else s.seat.keyboard)
            else r == s.seat.(focusStack := ToFront(s.seat.focusStack, view.value),
                              keyboard := Some(ViewSurface(view.value)))
  {
    hide Show, HiddenByFullscreen;
    if view.Some? {
      ShowKeepsBones(s, view.value, condense);
      var s1 := if FocusedView(s).Some? then s.(seat := s.seat.(keyboard := None)) else s;
      ShowKeepsBones(WithSeat(s1, ToFront(s1.seat.focusStack, view.value), Some(ViewSurface(view.value))), view.value,
                     condense);
    }
  }

  lemma HeadStays(stack: seq<ViewId>)
    requires stack != []
    ensures ToFront(stack, stack[0]) == stack
  {
  }

  /** Taking the focus away from a layer does not reorder the stack. */
  lemma ReleasedStack(s: State)
    ensures FocusLayer(s, None).seat.focusStack == s.seat.focusStack
    ensures FocusedView(FocusLayer(s, None)) in {None, FocusedView(s)}
  {
    hide Show, HiddenByFullscreen, FocusPlain, StackOk;
    if s.seat.focusedLayer.Some? {
      var s1 := s.(seat := s.seat.(focusedLayer := None));
      var focused := FocusedView(s1);
      if focused.Some? {
        PlainSeat(s1, None, false);
        var s2 := FocusView(s1, None, false);
        assert s2 == FocusPlain(s1, None, false);
        PlainSeat(s2, focused, false);
        HeadStays(s.seat.focusStack);
      }
    }
  }

  /** Whether or not a layer has the focus, the view goes to the front of the stack, unless the
      focus is refused; then the stack stays as it was. */
  lemma FocusedStack(s: State, v: ViewId, condense: bool, but: Option<ViewId>)
    requires StackOk(s, but) && LayerOk(s) && FocusedView(s) != Some(v)
    ensures FocusView(s, Some(v), condense).seat.focusStack == if Refused(s, v) then s.seat.focusStack
            else ToFront(s.seat.focusStack, v)
  {
    hide Show, HiddenByFullscreen, FocusPlain, StackOk, InputAllowed, BonesOf;
    if s.seat.focusedLayer.Some? {
      var s1 := FocusLayer(s, None);
      ReleasedStack(s);
      FocusLayerKeeps(s, None, but);
      RefusedElsewhere(s, s1, v);
      PlainSeat(s1, Some(v), condense);
      assert FocusView(s1, Some(v), condense) == FocusPlain(s1, Some(v), condense);
      LayerLeavesStack(FocusView(s1, Some(v), condense), s.seat.focusedLayer.value);
    } else {
      PlainSeat(s, Some(v), condense);
    }
  }

  lemma LayerLeavesStack(s: State, layer: LayerId)
    ensures FocusLayer(s, Some(layer)).seat.focusStack == s.seat.focusStack
  {
  }

  // ---------------------------------------------------------------------------------------
  // Focusing a view that may be gone
  // ---------------------------------------------------------------------------------------

  /** Nobody, a mapped view, or one that the focus is denied to. */
  predicate MayFocus(s: State, view: Option<ViewId>)
  {
    view.Some? ==> (view.value in Table(s) && Table(s)[view.value].mapped) || Refused(s, view.value)
  }

  lemma UnmappedIsNotStacked(s: State, v: ViewId)
    requires FocusOk(s) && !(v in Table(s) && Table(s)[v].mapped)
    ensures StackOk(s, Some(v)) && v !in s.seat.focusStack && FocusedView(s) != Some(v)
  {
    hide NoDuplicates;
  }

  lemma StackStillOk(s: State, t: State, v: ViewId)
    requires FocusOnly(s, t) && FocusOk(s) && StackOk(t, Some(v)) && !(v in Table(s) && Table(s)[v].mapped)
    ensures FocusOk(t) <==> v !in t.seat.focusStack
  {
    hide BonesOf, NoDuplicates;
    SameBonesMapped(s, t, v);
  }

  lemma InvElsewhere(s: State, t: State)
    requires Inv(s) && FocusOnly(s, t) && LayerOk(t)
    ensures Inv(t) <==> FocusOk(t)
  {
    hide BonesOk, BonesOf, StackOk;
  }

  /** Focusing a view keeps the invariants exactly when it is mapped, or does not get the focus anyway. */
  lemma FocusingIsSafeExactlyWhen(s: State, view: Option<ViewId>, condense: bool)
    requires Inv(s)
    ensures Inv(FocusView(s, view, condense)) <==> MayFocus(s, view)
  {
    hide BonesOk, BonesOf, StackOk, FocusView, Refused, ToFront, FocusOnly;
    if view.None? || (view.value in Table(s) && Table(s)[view.value].mapped) {
      FocusingKeeps(s, view, condense);
    } else {
      var v := view.value;
      UnmappedIsNotStacked(s, v);
      FocusedStack(s, v, condense, view);
      FocusViewKeeps(s, view, condense, view);
      StackStillOk(s, FocusView(s, view, condense), v);
      InvElsewhere(s, FocusView(s, view, condense));
      HeadOfFront(s.seat.focusStack, v);
    }
  }

  lemma HeadOfFront(stack: seq<ViewId>, v: ViewId)
    ensures v in ToFront(stack, v)
  {
  }

  lemma ScrolledFocus(s: State, i: nat, scroll: int)
    requires i < |s.workspaces|
    ensures FocusOnly(s, ScrollTo(s, i, scroll, false))
  {
    hide Arrange;
    var t := ScrollTo(s, i, scroll, false);
    ArrangeKeeps(t.workspaces[i], s.screen, s.env, false);
    assert BonesOf(t).ws == BonesOf(s).ws;
  }

  /** A frame of a swipe keeps the invariants exactly when it does not end the scroll, or the view that gets the focus
      then may have it. */
  lemma SwipeFrameIsSafeExactlyWhen(s: State, i: nat, scroll: int, ended: bool, view: Option<ViewId>)
    requires Inv(s) && i < |s.workspaces|
    ensures Inv(SwipeFrame(s, i, scroll, ended, view)) <==> !ended || MayFocus(s, view)
  {
    hide Inv, FocusOnly, Refused, FocusView, ScrollTo;
    var t := ScrollTo(s, i, scroll, false);
    ScrollingKeeps(s, i, scroll, false);
    if ended {
      FocusingIsSafeExactlyWhen(t, view, false);
      ScrolledFocus(s, i, scroll);
      if view.Some? {
        RefusedElsewhere(s, t, view.value);
        MappedElsewhere(s, t, view.value);
      }
    }
  }

  lemma MappedElsewhere(s: State, t: State, v: ViewId)
    requires FocusOnly(s, t)
    ensures v in Table(s) && Table(s)[v].mapped <==> v in Table(t) && Table(t)[v].mapped
  {
    SameBonesMapped(s, t, v);
  }

  // ---------------------------------------------------------------------------------------
  // Layers
  // ---------------------------------------------------------------------------------------

  /** Whatever view is focused under a layer that holds the focus, the layer gets both the focus and
      the keyboard back exactly when it is still mapped, on the TOP or the OVERLAY layer. */
  lemma LayerGetsTheFocusBack(s: State, view: Option<ViewId>, condense: bool)
    requires s.seat.focusedLayer.Some? && s.seat.focusedLayer.value in s.layers
    ensures var layer := s.seat.focusedLayer.value;
            var r := FocusView(s, view, condense).seat;
            r.focusedLayer == Some(layer) && r.keyboard == Some(LayerSurface(layer)) <==>
            s.layers[layer].mapped && s.layers[layer].above
  {
    hide FocusPlain;
  }

  /** When the layer with the focus is unmapped, the keyboard goes back to the view at the front of
      the stack exactly when its focus is not refused. */
  lemma ViewGetsTheKeyboardBack(s: State)
    requires FocusOk(s) && LayerOk(s) && s.seat.focusedLayer.Some? && FocusedView(s).Some?
    ensures var v := FocusedView(s).value;
            var r := UnmapLayer(s, s.seat.focusedLayer.value).seat;
            r.focusedLayer == None && (r.keyboard == Some(ViewSurface(v)) <==> !Refused(s, v))
  {
    hide Show, HiddenByFullscreen, FocusPlain, StackOk, InputAllowed, BonesOf;
    var s1 := s.(seat := s.seat.(focusedLayer := None));
    var v := FocusedView(s).value;
    PlainSeat(s1, None, false);
    var s2 := FocusView(s1, None, false);
    assert s2 == FocusPlain(s1, None, false);
    NothingIsMapped(s1, None);
    StackUnchanged(s, s1);
    FocusViewKeeps(s1, None, false, None);
    SeatIsNoBone(s, s1);
    RefusedElsewhere(s, s2, v);
    PlainSeat(s2, Some(v), false);
    assert FocusView(s2, Some(v), false) == FocusPlain(s2, Some(v), false);
  }

  lemma StackUnchanged(s: State, t: State)
    requires FocusOk(s) && t == s.(seat := t.seat) && t.seat.focusStack == s.seat.focusStack
    ensures FocusOk(t)
  {
  }

  // ---------------------------------------------------------------------------------------
  // Exclusive clients
  // ---------------------------------------------------------------------------------------

  /** A surface of another client has the keyboard. */
  predicate KeyboardElsewhere(s: State, client: nat)
  {
    match s.seat.keyboard
    case None => false
    case Some(ViewSurface(v)) => v in Table(s) && Table(s)[v].client != client
    case Some(LayerSurface(l)) => l in s.layers && s.layers[l].client != client
  }

  predicate LayerElsewhere(s: State, client: nat)
  {
    var l := s.seat.focusedLayer;
    l.Some? && l.value in s.layers && s.layers[l.value].client != client
  }

  predicate FrontElsewhere(s: State, client: nat)
  {
    var stack := s.seat.focusStack;
    stack != [] && stack[0] in Table(s) && Table(s)[stack[0]].client != client
  }

  lemma SameClients(s: State, t: State)
    requires FocusOnly(s, t)
    ensures forall v :: v in Table(s) <==> v in Table(t)
    ensures forall v | v in Table(s) :: Table(s)[v].client == Table(t)[v].client
  {
    forall v
      ensures v in Table(s) <==> v in Table(t)
      ensures v in Table(s) ==> Table(s)[v].client == Table(t)[v].client
    {
      SameBonesMapped(s, t, v);
    }
  }

  /** A layer that gives up the focus leaves the keyboard to the front of the stack or to nobody, unless the stack
      is empty: then the keyboard stays where it is. */
  lemma LayerReleases(s: State)
    requires s.seat.focusedLayer.Some?
    ensures var t := FocusLayer(s, None);
            if FocusedView(s).Some? then t.seat.keyboard in {None, Some(ViewSurface(FocusedView(s).value))}
            else t.seat.keyboard == s.seat.keyboard
  {
    hide Show, HiddenByFullscreen, FocusPlain, InputAllowed;
    var s1 := s.(seat := s.seat.(focusedLayer := None));
    var focused := FocusedView(s1);
    if focused.Some? {
      PlainSeat(s1, None, false);
      var s2 := FocusView(s1, None, false);
      assert s2 == FocusPlain(s1, None, false);
      PlainSeat(s2, focused, false);
      HeadStays(s.seat.focusStack);
    }
  }

  /** Without a focused view, or with a layer in between, nobody or that layer has the keyboard. */
  lemma NobodyFocused(s: State)
    requires FocusedView(s).Some? && LayerOk(s)
    ensures FocusView(s, None, false).seat.keyboard ==
            if s.seat.focusedLayer.Some? then Some(LayerSurface(s.seat.focusedLayer.value)) else None
  {
    hide Show, HiddenByFullscreen, FocusPlain, InputAllowed;
    if s.seat.focusedLayer.Some? {
      var s1 := FocusLayer(s, None);
      assert FocusView(s1, None, false) == FocusPlain(s1, None, false);
      PlainSeat(s1, None, false);
    } else {
      PlainSeat(s, None, false);
    }
  }

  lemma ReleasedLayerKeyboard(s: State, client: nat)
    requires FocusOk(s) && LayerOk(s)
    ensures var t := ReleasedLayer(s, client);
            && FocusOnly(s, t) && FocusOk(t) && LayerOk(t) && t.seat.focusStack == s.seat.focusStack
               && !LayerElsewhere(t, client)
            && (if LayerElsewhere(s, client) && FocusedView(s).Some?
                then t.seat.keyboard in {None, Some(ViewSurface(FocusedView(s).value))}
                else t.seat.keyboard == s.seat.keyboard)
  {
    hide FocusLayer, StackOk, BonesOf;
    if LayerElsewhere(s, client) {
      FocusLayerKeeps(s, None, None);
      LayerReleases(s);
      ReleasedStack(s);
    } else {
      FocusOnlyItself(s);
    }
  }

  lemma ReleasedViewKeyboard(s: State, client: nat)
    requires FocusOk(s) && LayerOk(s) && !LayerElsewhere(s, client)
    ensures var t := ReleasedView(s, client);
            && FocusOnly(s, t)
            && (KeyboardElsewhere(t, client) <==> KeyboardElsewhere(s, client) && !FrontElsewhere(s, client))
  {
    hide FocusView, StackOk, BonesOf;
    var focused := FocusedView(s);
    if focused.Some? && FrontElsewhere(s, client) {
      NothingIsMapped(s, None);
      FocusViewKeeps(s, None, false, None);
      NobodyFocused(s);
      SameClients(s, FocusView(s, None, false));
    } else {
      FocusOnlyItself(s);
    }
  }

  /** When a client gets the input to itself, a surface of another client still has the keyboard afterwards exactly
      when it had it before and nothing was there to take it from: the focus stack is empty, or the view in front
      of it is the client's own and no layer of another client has the focus. */
  lemma ExclusiveClientHasTheKeyboard(s: State, client: nat)
    requires FocusOk(s) && LayerOk(s)
    ensures KeyboardElsewhere(SetExclusiveClient(s, Some(client)), client) <==>
            && KeyboardElsewhere(s, client)
            && (s.seat.focusStack == [] || (!FrontElsewhere(s, client) && !LayerElsewhere(s, client)))
  {
    hide ReleasedLayer, ReleasedView, StackOk, BonesOf;
    var s1 := ReleasedLayer(s, client);
    ReleasedLayerKeyboard(s, client);
    SameClients(s, s1);
    ReleasedViewKeyboard(s1, client);
  }

  // ---------------------------------------------------------------------------------------
  // Cycling
  // ---------------------------------------------------------------------------------------

  predicate LivesIn(views: ViewTable, v: ViewId, i: int)
  {
    v in views && views[v].workspaceId == i
  }

  /** The views of a stack that live in workspace i, in order. */
  function Within(stack: seq<ViewId>, views: ViewTable, i: int): seq<ViewId>
  {
    if stack == [] then []
    else (if LivesIn(views, stack[0], i) then [stack[0]] else []) + Within(stack[1..], views, i)
  }

  /** The others, in order. */
  function Elsewhere(stack: seq<ViewId>, views: ViewTable, i: int): seq<ViewId>
  {
    if stack == [] then []
    else (if LivesIn(views, stack[0], i) then [] else [stack[0]]) + Elsewhere(stack[1..], views, i)
  }

  function Rotated<T>(s: seq<T>): seq<T>
  {
    if s == [] then s else s[1..] + s[..1]
  }

  lemma {:induction false} WithinConcat(a: seq<ViewId>, b: seq<ViewId>, views: ViewTable, i: int)
    ensures Within(a + b, views, i) == Within(a, views, i) + Within(b, views, i)
  {
    hide LivesIn;
    if a == [] {
      assert a + b == b;
    } else {
      assert (a + b)[1..] == a[1..] + b;
      WithinConcat(a[1..], b, views, i);
      Regroup(if LivesIn(views, a[0], i) then [a[0]] else [], Within(a[1..], views, i), Within(b, views, i));
    }
  }

  lemma Regroup(x: seq<ViewId>, y: seq<ViewId>, z: seq<ViewId>)
    ensures x + (y + z) == x + y + z
  {
  }

  lemma {:induction false} ElsewhereConcat(a: seq<ViewId>, b: seq<ViewId>, views: ViewTable, i: int)
    ensures Elsewhere(a + b, views, i) == Elsewhere(a, views, i) + Elsewhere(b, views, i)
  {
    hide LivesIn;
    if a == [] {
      assert a + b == b;
    } else {
      assert (a + b)[1..] == a[1..] + b;
      ElsewhereConcat(a[1..], b, views, i);
      Regroup(if LivesIn(views, a[0], i) then [] else [a[0]], Elsewhere(a[1..], views, i), Elsewhere(b, views, i));
    }
  }

  lemma SortedOutConcat(a: seq<ViewId>, b: seq<ViewId>, views: ViewTable, i: int)
    ensures Within(a + b, views, i) == Within(a, views, i) + Within(b, views, i)
    ensures Elsewhere(a + b, views, i) == Elsewhere(a, views, i) + Elsewhere(b, views, i)
  {
    WithinConcat(a, b, views, i);
    ElsewhereConcat(a, b, views, i);
  }

  lemma SortedOutOne(v: ViewId, views: ViewTable, i: int)
    ensures Within([v], views, i) == if LivesIn(views, v, i) then [v] else []
    ensures Elsewhere([v], views, i) == if LivesIn(views, v, i) then [] else [v]
  {
    assert [v][1..] == [];
  }

  /** No view of workspace i is in front of the first. */
  lemma {:induction false} NoneBeforeFirst(stack: seq<ViewId>, views: ViewTable, i: int)
    ensures match FirstOf(stack, views, i, None)
            case None => Within(stack, views, i) == []
            case Some(v) => IndexOf(stack, v) < |stack| && Within(stack[..IndexOf(stack, v)], views, i) == []
  {
    if stack == [] || LivesIn(views, stack[0], i) {
    } else {
      NoneBeforeFirst(stack[1..], views, i);
      match FirstOf(stack[1..], views, i, None)
      case None =>
      case Some(v) =>
        PrefixTail(stack, IndexOf(stack[1..], v) + 1);
        assert IndexOf(stack, v) == IndexOf(stack[1..], v) + 1;
    }
  }

  lemma PrefixTail(s: seq<ViewId>, k: nat)
    requires 0 < k <= |s|
    ensures s[..k][0] == s[0] && s[..k][1..] == s[1..][..k - 1]
  {
  }

  lemma SplitAt(s: seq<ViewId>, k: nat)
    requires k < |s|
    ensures s == s[..k] + [s[k]] + s[k + 1..]
  {
  }

  lemma NotAround(x: seq<ViewId>, n: ViewId, post: seq<ViewId>)
    requires NoDuplicates(x + [n] + post)
    ensures n !in x && n !in post
  {
    var s := x + [n] + post;
    assert s[|x|] == n;
    forall j | 0 <= j < |x|
      ensures x[j] != n
    {
      assert s[j] == x[j];
    }
    forall j | 0 <= j < |post|
      ensures post[j] != n
    {
      assert s[|x| + 1 + j] == post[j];
    }
  }

  /** What cycling does to the stack when the focus goes to the view n behind pre. */
  lemma CycledStack(h: ViewId, pre: seq<ViewId>, n: ViewId, post: seq<ViewId>)
    requires NoDuplicates([h] + pre + [n] + post)
    ensures ToFront([h] + pre + [n] + post, n) == [n] + ([h] + pre + post)
    ensures SecondToBack([n] + ([h] + pre + post)) == [n] + pre + post + [h]
  {
    hide ToFront, NoDuplicates, Without;
    var x := [h] + pre;
    NotAround(x, n, post);
    ToFrontWithout(x + [n] + post, n);
    WithoutSplit(x, n, post);
    SecondOf(n, h, pre + post);
    assert [h] + (pre + post) == [h] + pre + post;
    assert [n] + (pre + post) + [h] == [n] + pre + post + [h];
  }

  lemma SecondOf(n: ViewId, h: ViewId, rest: seq<ViewId>)
    ensures SecondToBack([n] + ([h] + rest)) == [n] + rest + [h]
  {
    var s := [n] + ([h] + rest);
    assert s[2..] == rest;
  }

  /** Sorting the two sides of a cycle out. */
  lemma CycleSortsOut(h: ViewId, pre: seq<ViewId>, n: ViewId, post: seq<ViewId>, views: ViewTable, i: int)
    requires LivesIn(views, h, i) && LivesIn(views, n, i) && Within(pre, views, i) == []
    ensures Within([h] + pre + [n] + post, views, i) == [h, n] + Within(post, views, i)
    ensures Within([n] + pre + post + [h], views, i) == [n] + Within(post, views, i) + [h]
    ensures Elsewhere([h] + pre + [n] + post, views, i) == Elsewhere([n] + pre + post + [h], views, i)
  {
    hide Within, Elsewhere;
    SortedOutOne(h, views, i);
    SortedOutOne(n, views, i);
    SortedOutConcat([h], pre, views, i);
    SortedOutConcat([h] + pre, [n], views, i);
    SortedOutConcat([h] + pre + [n], post, views, i);
    SortedOutConcat([n], pre, views, i);
    SortedOutConcat([n] + pre, post, views, i);
    SortedOutConcat([n] + pre + post, [h], views, i);
  }

  lemma {:induction false} SortedOutElsewhere(stack: seq<ViewId>, a: ViewTable, b: ViewTable, i: int)
    requires forall v | v in stack :: LivesIn(a, v, i) == LivesIn(b, v, i)
    ensures Within(stack, a, i) == Within(stack, b, i) && Elsewhere(stack, a, i) == Elsewhere(stack, b, i)
  {
    if stack == [] {
    } else {
      SortedOutElsewhere(stack[1..], a, b, i);
    }
  }

  /** The view the next cycle goes to. */
  function NextInCycle(s: State, i: nat): Option<ViewId>
  {
    if s.seat.focusStack == [] then None else FirstOf(s.seat.focusStack[1..], Table(s), i, None)
  }

  /** The cursor's workspace, whose last focused view is the last focused of all. */
  ghost predicate Cycling(s: State, i: nat)
  {
    && FocusOk(s) && LayerOk(s)
    && FocusedWorkspace(s) == Some(i) && s.workspaces[i].index == i
    && s.seat.focusStack != [] && LivesIn(Table(s), s.seat.focusStack[0], i)
  }

  lemma NextIsBehind(s: State, i: nat)
    requires Cycling(s, i) && NextInCycle(s, i).Some?
    ensures var n := NextInCycle(s, i).value;
            && FocusedView(s) != Some(n) && n in Table(s) && Table(s)[n].mapped && LivesIn(Table(s), n, i)
               && n != s.seat.focusStack[0]
  {
    var stack := s.seat.focusStack;
    var n := NextInCycle(s, i).value;
    var j :| 0 <= j < |stack[1..]| && stack[1..][j] == n;
    assert stack[j + 1] == n;
  }

  /** A cycle, by the stack it starts from. */
  lemma CycleStack(s: State, i: nat)
    requires Cycling(s, i)
    ensures var n := NextInCycle(s, i);
            var t := FocusCycle(s);
            && FocusOnly(s, t) && FocusOk(t) && LayerOk(t)
            && if n.None? then t == s
               else
                 var stack := if Refused(s, n.value) then s.seat.focusStack else ToFront(s.seat.focusStack, n.value);
                 |stack| >= 2 && t.seat.focusStack == SecondToBack(stack)
  {
    hide BonesOf, FocusView, FocusedWorkspace, Refused, NoDuplicates;
    var n := NextInCycle(s, i);
    if n.Some? {
      NextIsBehind(s, i);
      FocusedStack(s, n.value, false, None);
      FocusViewKeeps(s, n, false, None);
      var s1 := FocusView(s, n, false);
      StackFor(s, n.value);
      SeatIsNoBone(s1, FocusCycle(s));
      SecondBackKeepsFocusOk(s1, FocusCycle(s));
    } else {
      SeatIsNoBone(s, s);
    }
  }

  lemma SecondBackKeepsFocusOk(s: State, t: State)
    requires FocusOk(s) && |s.seat.focusStack| >= 2
             && t == s.(seat := s.seat.(focusStack := SecondToBack(s.seat.focusStack)))
    ensures FocusOk(t)
  {
    hide NoDuplicates, SecondToBack;
    SecondToBackReorders(s.seat.focusStack);
  }

  lemma StackFor(s: State, n: ViewId)
    requires s.seat.focusStack != [] && n in s.seat.focusStack[1..]
    ensures |s.seat.focusStack| >= 2 && |ToFront(s.seat.focusStack, n)| >= 2
  {
  }

  /** From stack a to stack b the views of workspace i have rotated one step, and the others have stayed. */
  ghost predicate RotatedBy(a: seq<ViewId>, b: seq<ViewId>, views: ViewTable, i: int)
  {
    && Within(b, views, i) == Rotated(Within(a, views, i)) && Elsewhere(b, views, i) == Elsewhere(a, views, i)
    && b != [] && Within(b, views, i) != [] && b[0] == Within(b, views, i)[0]
  }

  /** The stack of a cycle, with the focus given and with it refused. */
  lemma StackRotates(stack: seq<ViewId>, views: ViewTable, i: int)
    requires NoDuplicates(stack) && stack != [] && LivesIn(views, stack[0], i)
    ensures var n := FirstOf(stack[1..], views, i, None);
            if n.None? then RotatedBy(stack, stack, views, i)
            else && |stack| >= 2 && |ToFront(stack, n.value)| >= 2
                 && RotatedBy(stack, SecondToBack(ToFront(stack, n.value)), views, i)
                 && !RotatedBy(stack, SecondToBack(stack), views, i)
  {
    hide RotatedBy, NoDuplicates, ToFront, SecondToBack, Within, Elsewhere, FirstOf;
    var n := FirstOf(stack[1..], views, i, None);
    NoneBeforeFirst(stack[1..], views, i);
    if n.Some? {
      var k := IndexOf(stack[1..], n.value);
      var pre, post := stack[1..][..k], stack[1..][k + 1..];
      SplitAt(stack[1..], k);
      BehindHead(stack, pre, n.value, post);
      RotationApart(stack[0], pre, n.value, post, views, i);
    } else {
      AloneRotates(stack, views, i);
    }
  }

  lemma BehindHead(stack: seq<ViewId>, pre: seq<ViewId>, n: ViewId, post: seq<ViewId>)
    requires NoDuplicates(stack) && stack != [] && stack[1..] == pre + [n] + post
    ensures stack == [stack[0]] + pre + [n] + post && stack[0] != n
  {
    assert stack[1..][|pre|] == n;
  }

  lemma AloneRotates(stack: seq<ViewId>, views: ViewTable, i: int)
    requires stack != [] && LivesIn(views, stack[0], i) && Within(stack[1..], views, i) == []
    ensures RotatedBy(stack, stack, views, i)
  {
  }

  lemma CyclingMeans(s: State, i: nat)
    requires Cycling(s, i)
    ensures s.seat.focusStack != [] && LivesIn(Table(s), s.seat.focusStack[0], i) && NoDuplicates(s.seat.focusStack)
  {
  }

  lemma HeadOfWithin(stack: seq<ViewId>, views: ViewTable, i: int)
    requires stack != [] && LivesIn(views, stack[0], i)
    ensures Within(stack, views, i) != [] && Within(stack, views, i)[0] == stack[0]
  {
  }

  /** The two ways a cycle can go: with the focus, the views of the workspace rotate; without it, the
      view in front stays there. */
  lemma RotationApart(h: ViewId, pre: seq<ViewId>, n: ViewId, post: seq<ViewId>, views: ViewTable, i: int)
    requires NoDuplicates([h] + pre + [n] + post) && h != n
    requires LivesIn(views, h, i) && LivesIn(views, n, i) && Within(pre, views, i) == []
    ensures var a := [h] + pre + [n] + post;
            |ToFront(a, n)| >= 2 && RotatedBy(a, SecondToBack(ToFront(a, n)), views, i)
            && !RotatedBy(a, SecondToBack(a), views, i)
  {
    hide NoDuplicates, ToFront, LivesIn, Elsewhere;
    var a := [h] + pre + [n] + post;
    CycledStack(h, pre, n, post);
    CycleSortsOut(h, pre, n, post, views, i);
    HeadOfWithin(SecondToBack(a), views, i);
  }

  /** Cycling the focus rotates the views of the cursor's workspace by one step, and leaves the others in
      their order, exactly when the focus is not refused. */
  lemma CycleRotates(s: State, i: nat)
    requires Cycling(s, i)
    ensures RotatedBy(s.seat.focusStack, FocusCycle(s).seat.focusStack, Table(s), i) <==>
            NextInCycle(s, i).None? || !Refused(s, NextInCycle(s, i).value)
  {
    hide Cycling, FocusCycle, Refused, SecondToBack, ToFront, RotatedBy, NoDuplicates, FirstOf;
    CycleStack(s, i);
    CyclingMeans(s, i);
    StackRotates(s.seat.focusStack, Table(s), i);
  }

  // ---------------------------------------------------------------------------------------
  // Cycling on
  // ---------------------------------------------------------------------------------------

  /** The desktop after k cycles. */
  function Cycled(s: State, k: nat): State
  {
    if k == 0 then s else FocusCycle(Cycled(s, k - 1))
  }

  ghost predicate NoneRefused(s: State, i: nat)
  {
    forall v | v in s.seat.focusStack && LivesIn(Table(s), v, i) :: !Refused(s, v)
  }

  lemma {:induction false} WithinMembers(stack: seq<ViewId>, views: ViewTable, i: int)
    ensures forall v :: v in Within(stack, views, i) <==> v in stack && LivesIn(views, v, i)
  {
    if stack == [] {
    } else {
      WithinMembers(stack[1..], views, i);
      assert stack == [stack[0]] + stack[1..];
    }
  }

  lemma {:induction false} WithinNoDuplicates(stack: seq<ViewId>, views: ViewTable, i: int)
    requires NoDuplicates(stack)
    ensures NoDuplicates(Within(stack, views, i))
  {
    if stack == [] {
    } else {
      WithinNoDuplicates(stack[1..], views, i);
      WithinMembers(stack[1..], views, i);
      var rest := Within(stack[1..], views, i);
      assert stack[0] !in stack[1..];
      assert forall j | 0 <= j < |rest| :: rest[j] in rest;
    }
  }

  lemma {:induction false} SameCursorFrom(a: seq<WorkspaceState>, b: seq<WorkspaceState>, cursor: set<OutputId>, k: nat)
    requires |a| == |b| && k <= |a| && forall i | 0 <= i < |a| :: a[i].output == b[i].output
    ensures UnderCursorFrom(a, cursor, k) == UnderCursorFrom(b, cursor, k)
    decreases |a| - k
  {
    if k == |a| {
    } else {
      SameCursorFrom(a, b, cursor, k + 1);
    }
  }

  lemma FocusedWorkspaceElsewhere(s: State, t: State)
    requires FocusOnly(s, t)
    ensures FocusedWorkspace(s) == FocusedWorkspace(t)
  {
    BonesApart(s); BonesApart(t);
    forall i | 0 <= i < |s.workspaces|
      ensures s.workspaces[i].output == t.workspaces[i].output
    {
      OutputAt(s, i); OutputAt(t, i);
    }
    SameCursorFrom(s.workspaces, t.workspaces, s.seat.cursor, 0);
  }

  lemma SameLives(s: State, t: State, i: int)
    requires FocusOnly(s, t)
    ensures forall v :: LivesIn(Table(s), v, i) == LivesIn(Table(t), v, i)
  {
    hide FocusOnly, Refused;
    forall v
      ensures LivesIn(Table(s), v, i) == LivesIn(Table(t), v, i)
    {
      RefusedElsewhere(s, t, v);
    }
  }

  lemma SameIndex(s: State, t: State, i: nat)
    requires FocusOnly(s, t) && i < |s.workspaces|
    ensures i < |t.workspaces| && t.workspaces[i].index == s.workspaces[i].index
  {
    BonesApart(s); BonesApart(t);
    FullscreenAt(s, i); FullscreenAt(t, i);
  }

  /** One more cycle. */
  lemma CycleOnce(s: State, t: State, i: nat)
    requires Cycling(t, i) && FocusOnly(s, t) && NoneRefused(s, i)
    requires forall v | v in Within(t.seat.focusStack, Table(s), i) :: v in s.seat.focusStack
    ensures var u := FocusCycle(t);
            FocusOnly(s, u) && Cycling(u, i) && RotatedBy(t.seat.focusStack, u.seat.focusStack, Table(s), i)
  {
    hide FocusOnly, Refused, FocusedWorkspace, RotatedBy, FocusCycle, StackOk, LayerOk, NextInCycle;
    var u := FocusCycle(t);
    CycleStack(t, i);
    FocusOnlyTransitive(s, t, u);
    SameIndex(t, u, i);
    CycleRotates(t, i);
    SameLives(s, t, i); SameLives(s, u, i);
    SortedOutElsewhere(t.seat.focusStack, Table(t), Table(s), i);
    SortedOutElsewhere(u.seat.focusStack, Table(t), Table(s), i);
    NextNotRefused(s, t, i);
    SameRotation(t.seat.focusStack, u.seat.focusStack, Table(t), Table(s), i);
    FocusedWorkspaceElsewhere(t, u);
    WithinMembers(u.seat.focusStack, Table(s), i);
    RotatedHead(t.seat.focusStack, u.seat.focusStack, Table(s), i);
  }

  lemma RotatedHead(a: seq<ViewId>, b: seq<ViewId>, views: ViewTable, i: int)
    requires RotatedBy(a, b, views, i)
    ensures b != [] && b[0] in Within(b, views, i)
  {
  }

  lemma SameRotation(a: seq<ViewId>, b: seq<ViewId>, t: ViewTable, s: ViewTable, i: int)
    requires RotatedBy(a, b, t, i)
    requires Within(a, t, i) == Within(a, s, i) && Elsewhere(a, t, i) == Elsewhere(a, s, i)
    requires Within(b, t, i) == Within(b, s, i) && Elsewhere(b, t, i) == Elsewhere(b, s, i)
    ensures RotatedBy(a, b, s, i)
  {
  }

  lemma NextNotRefused(s: State, t: State, i: nat)
    requires Cycling(t, i) && FocusOnly(s, t) && NoneRefused(s, i)
    requires forall v | v in Within(t.seat.focusStack, Table(s), i) :: v in s.seat.focusStack
    ensures NextInCycle(t, i).None? || !Refused(t, NextInCycle(t, i).value)
  {
    hide StackOk, FocusOnly, Refused, FocusedWorkspace;
    if NextInCycle(t, i).Some? {
      var n := NextInCycle(t, i).value;
      SameLives(s, t, i);
      WithinMembers(t.seat.focusStack, Table(s), i);
      assert n in t.seat.focusStack[1..];
      RefusedElsewhere(s, t, n);
    }
  }

  /** After k cycles the views of the workspace have rotated k steps. */
  lemma {:induction false} CyclesRotate(s: State, i: nat, k: nat)
    requires Cycling(s, i) && NoneRefused(s, i) && k <= |Within(s.seat.focusStack, Table(s), i)|
    ensures var w := Within(s.seat.focusStack, Table(s), i);
            var t := Cycled(s, k);
            && FocusOnly(s, t) && Cycling(t, i)
            && Within(t.seat.focusStack, Table(s), i) == w[k..] + w[..k]
            && Elsewhere(t.seat.focusStack, Table(s), i) == Elsewhere(s.seat.focusStack, Table(s), i)
  {
    hide Cycling, FocusOnly, NoneRefused, Within, Elsewhere, FocusCycle;
    var w := Within(s.seat.focusStack, Table(s), i);
    if k == 0 {
      FocusOnlyItself(s);
    } else {
      CyclesRotate(s, i, k - 1);
      var t := Cycled(s, k - 1);
      WithinMembers(s.seat.focusStack, Table(s), i);
      CycleOnce(s, t, i);
      RotatedFurther(w, k);
    }
  }

  lemma FocusOnlyItself(s: State)
    ensures FocusOnly(s, s)
  {
  }

  lemma RotatedFurther(w: seq<ViewId>, k: nat)
    requires 0 < k <= |w|
    ensures Rotated(w[k - 1..] + w[..k - 1]) == w[k..] + w[..k]
  {
  }

  /** Cycling as often as there are views in the workspace focuses each of them exactly once, in the
      order of the stack, and restores that order. */
  lemma CyclesVisitEachOnce(s: State, i: nat)
    requires Cycling(s, i) && NoneRefused(s, i)
    ensures var w := Within(s.seat.focusStack, Table(s), i);
            && NoDuplicates(w)
            && (forall k | 0 <= k < |w| ::
                Cycled(s, k).seat.focusStack != [] && Cycled(s, k).seat.focusStack[0] == w[k])
            && Within(Cycled(s, |w|).seat.focusStack, Table(s), i) == w
            && Elsewhere(Cycled(s, |w|).seat.focusStack, Table(s), i) == Elsewhere(s.seat.focusStack, Table(s), i)
  {
    hide FocusOnly, NoneRefused, Within, Elsewhere, Cycled, FocusedWorkspace, NoDuplicates;
    var w := Within(s.seat.focusStack, Table(s), i);
    CyclingMeans(s, i);
    WithinNoDuplicates(s.seat.focusStack, Table(s), i);
    CyclesRotate(s, i, |w|);
    forall k | 0 <= k < |w|
      ensures Cycled(s, k).seat.focusStack != [] && Cycled(s, k).seat.focusStack[0] == w[k]
    {
      CyclesRotate(s, i, k);
      SameLives(s, Cycled(s, k), i);
      HeadOfWithin(Cycled(s, k).seat.focusStack, Table(s), i);
    }
  }
}
