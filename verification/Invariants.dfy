/** What holds of the desktop in every state: where views are, which one is fullscreen, which
    workspace is on which output, and what the clients were told about it. */
module Invariants {
  import opened Prelude
  import opened Views
  import opened Columns
  import opened Layout
  import opened Animation
  import opened AnimationQueue
  import opened Tiling
  import opened Desktop

  // ---------------------------------------------------------------------------------------
  // The part of the state the invariants are about
  // ---------------------------------------------------------------------------------------

  function Skeleton(w: WorkspaceState): WorkspaceState
  {
    w.(scrollX := 0)
  }

  datatype Bones = Bones(ws: seq<WorkspaceState>, cores: map<ViewId, Core>, outputs: set<OutputId>,
                         pending: multiset<Callback>)

  function BonesOf(s: State): Bones
  {
    Bones(seq(|s.workspaces|, i requires 0 <= i < |s.workspaces| => Skeleton(s.workspaces[i])),
          Cores(Table(s)), s.env.outputs.Keys, Pending(s.screen.tasks))
  }

  /** Nothing but scroll offsets, positions, sizes and animations differs. */
  ghost predicate SameBones(s: State, t: State)
  {
    && BonesOf(s) == BonesOf(t)
    && Unharmed(s.screen, t.screen) && s.layers == t.layers
  }

  lemma InWorkspaceBones(s: State, i: nat, r: (WorkspaceState, Screen))
    requires i < |s.workspaces| && Pending(r.1.tasks) == Pending(s.screen.tasks)
    ensures var b := BonesOf(InWorkspace(s, i, r));
            b == BonesOf(s).(ws := BonesOf(s).ws[i := Skeleton(r.0)], cores := Cores(r.1.views))
  {
    assert BonesOf(InWorkspace(s, i, r)).ws == BonesOf(s).ws[i := Skeleton(r.0)];
  }

  lemma ShowKeepsBones(s: State, v: ViewId, condense: bool)
    ensures SameBones(s, Show(s, v, condense)) && Show(s, v, condense).seat == s.seat
            && Show(s, v, condense).env == s.env
  {
    hide FitView, Pending, Cores, TasksKnown;
    if Located(s, v) {
      var i := Home(s, v);
      FitKeeps(s.workspaces[i], s.screen, s.env, v, condense);
      InWorkspaceBones(s, i, FitView(s.workspaces[i], s.screen, s.env, v, condense));
    }
  }

  lemma ArrangeInKeepsBones(s: State, i: nat)
    requires i < |s.workspaces|
    ensures SameBones(s, ArrangeIn(s, i)) && ArrangeIn(s, i).seat == s.seat && ArrangeIn(s, i).env == s.env
  {
    hide Arrange;
    ArrangeKeeps(s.workspaces[i], s.screen, s.env, true);
  }

  // ---------------------------------------------------------------------------------------
  // The invariants
  // ---------------------------------------------------------------------------------------

  /** How often a view belongs in workspace i. */
  function Due(b: Bones, i: int, v: ViewId): nat
  {
    if v in b.cores && b.cores[v].mapped && b.cores[v].workspaceId == i then 1 else 0
  }

  /** Each mapped view is, exactly once, in the workspace it is assigned to; unmapped views are
      nowhere; no column is empty. */
  ghost predicate Placement(b: Bones)
  {
    && (forall i | 0 <= i < |b.ws| :: b.ws[i].index == i && NoEmptyColumn(b.ws[i].columns))
    && (forall i, v | 0 <= i < |b.ws| :: Occurrences(b.ws[i], v) == Due(b, i, v))
    && (forall v | v in b.cores && b.cores[v].mapped :: 0 <= b.cores[v].workspaceId < |b.ws|)
  }

  /** A state is saved exactly for fullscreen views, and a workspace's fullscreen view is exactly
      the fullscreen view mapped in it. */
  ghost predicate FullscreenOk(b: Bones)
  {
    && (forall v | v in b.cores :: b.cores[v].saved.Some? <==> b.cores[v].expansion == Fullscreen)
    && (forall i, v | 0 <= i < |b.ws| ::
          b.ws[i].fullscreen == Some(v) <==> Due(b, i, v) == 1 && b.cores[v].expansion == Fullscreen)
  }

  /** Workspace i is sliding out: it leaves its output when its last animation has finished. */
  ghost predicate Leaving(b: Bones, i: nat)
  {
    b.pending[DepartureOf(i)] > 0
  }

  /** Every output is held by exactly one workspace, besides those that are sliding out; these are on one. */
  ghost predicate Assigned(b: Bones)
  {
    && (forall i | 0 <= i < |b.ws| && b.ws[i].output.Some? :: b.ws[i].output.value in b.outputs)
    && (forall i, j | 0 <= i < j < |b.ws| && b.ws[i].output.Some? && b.ws[i].output == b.ws[j].output ::
          Leaving(b, i) || Leaving(b, j))
    && (forall o | o in b.outputs :: Held(b, o))
    && PendingOk(b)
  }

  /** A workspace leaves an output it is on, and leaves it once; a workspace arrives on an output that exists. */
  ghost predicate PendingOk(b: Bones)
  {
    && (forall i: nat | Leaving(b, i) :: i < |b.ws| && b.ws[i].output.Some? && b.pending[DepartureOf(i)] == 1)
    && (forall n: nat, o | b.pending[ArrivalOf(n, o)] > 0 :: n < |b.ws| && o in b.outputs)
  }

  ghost predicate Held(b: Bones, o: OutputId)
  {
    exists i | 0 <= i < |b.ws| :: !Leaving(b, i) && b.ws[i].output == Some(o)
  }

  /** The output a view should be on, according to its workspace. */
  function DueOutput(b: Bones, v: ViewId): Option<OutputId>
    requires v in b.cores
  {
    var c := b.cores[v];
    if c.mapped && 0 <= c.workspaceId < |b.ws| then b.ws[c.workspaceId].output else None
  }

  /** The enters and leaves each client got put its view exactly on its workspace's output. */
  ghost predicate Balanced(b: Bones)
  {
    forall v | v in b.cores :: OnOutputs(b.cores[v].events) == OutputSet(DueOutput(b, v))
  }

  /** The focus stack holds views once each; all of them are mapped, except perhaps one. */
  ghost predicate StackOk(s: State, but: Option<ViewId>)
  {
    && NoDuplicates(s.seat.focusStack)
    && forall v | v in s.seat.focusStack && Some(v) != but :: v in Table(s) && Table(s)[v].mapped
  }

  /** The focus stack holds mapped views, each once. */
  ghost predicate FocusOk(s: State)
  {
    StackOk(s, None)
  }

  /** The layer that holds the focus is mapped. */
  predicate LayerOk(s: State)
  {
    s.seat.focusedLayer.Some? ==> s.seat.focusedLayer.value in s.layers && s.layers[s.seat.focusedLayer.value].mapped
  }

  ghost predicate BonesOk(b: Bones)
  {
    Placement(b) && FullscreenOk(b) && Assigned(b) && Balanced(b)
  }

  ghost predicate Inv(s: State)
  {
    && BonesOk(BonesOf(s))
    && FocusOk(s) && LayerOk(s)
    && !s.screen.fault && TasksKnown(Table(s), s.screen.tasks)
  }

  // ---------------------------------------------------------------------------------------
  // Focus changes
  // ---------------------------------------------------------------------------------------

  /** What a change of focus leaves alone. */
  ghost predicate FocusOnly(s: State, t: State)
  {
    && SameBones(s, t) && s.env == t.env
    && t.seat == s.seat.(focusStack := t.seat.focusStack, keyboard := t.seat.keyboard,
                         focusedLayer := t.seat.focusedLayer)
  }

  ghost predicate IsMapped(s: State, v: Option<ViewId>, but: Option<ViewId>)
  {
    v.Some? && v != but ==> v.value in Table(s) && Table(s)[v.value].mapped
  }

  lemma SameBonesMapped(s: State, t: State, v: ViewId)
    requires SameBones(s, t)
    ensures v in Table(s) <==> v in Table(t)
    ensures v in Table(s) ==> CoreOf(Table(s)[v]) == CoreOf(Table(t)[v])
  {
    assert BonesOf(s).cores == BonesOf(t).cores;
    if v in Table(s) {
      assert BonesOf(s).cores[v] == BonesOf(t).cores[v];
    }
  }

  lemma StackOkElsewhere(s: State, t: State, but: Option<ViewId>)
    requires StackOk(s, but) && SameBones(s, t) && t.seat.focusStack == s.seat.focusStack
    ensures StackOk(t, but)
  {
    forall v | v in t.seat.focusStack && Some(v) != but
      ensures v in Table(t) && Table(t)[v].mapped
    {
      SameBonesMapped(s, t, v);
    }
  }

  lemma FocusPlainKeeps(s: State, view: Option<ViewId>, condense: bool, but: Option<ViewId>)
    requires StackOk(s, but) && IsMapped(s, view, but)
    ensures var t := FocusPlain(s, view, condense);
            FocusOnly(s, t) && StackOk(t, but) && t.seat.focusedLayer == s.seat.focusedLayer
  {
    hide Show, BonesOf, HiddenByFullscreen, InputAllowed, NoDuplicates, ToFront;
    var prev := FocusedView(s);
    if view.Some? {
      var v := view.value;
      if prev == view {
        ShowKeepsBones(s, v, condense);
        StackOkElsewhere(s, Show(s, v, condense), but);
      } else {
        var s1 := if prev.Some? then s.(seat := s.seat.(keyboard := None)) else s;
        var s2 := WithSeat(s1, ToFront(s1.seat.focusStack, v), Some(ViewSurface(v)));
        SeatIsNoBone(s, s1);
        SeatIsNoBone(s, s2);
        ShowKeepsBones(s2, v, condense);
        ToFrontKeepsMapped(s, v, but);
        StackOkElsewhere(s2, Show(s2, v, condense), but);
      }
    } else {
      SeatIsNoBone(s, s.(seat := s.seat.(keyboard := None)));
    }
  }

  lemma SeatIsNoBone(s: State, t: State)
    requires t == s.(seat := t.seat)
    ensures SameBones(s, t)
  {
  }

  lemma ToFrontKeepsMapped(s: State, v: ViewId, but: Option<ViewId>)
    requires StackOk(s, but) && IsMapped(s, Some(v), but)
    ensures NoDuplicates(ToFront(s.seat.focusStack, v))
    ensures forall u | u in ToFront(s.seat.focusStack, v) && Some(u) != but :: u in Table(s) && Table(s)[u].mapped
  {
    ToFrontWithout(s.seat.focusStack, v);
    WithoutElements(s.seat.focusStack, v);
  }

  lemma FocusOnlyTransitive(s: State, t: State, u: State)
    requires FocusOnly(s, t) && FocusOnly(t, u)
    ensures FocusOnly(s, u)
  {
    hide BonesOf;
  }

  lemma IsMappedElsewhere(s: State, t: State, v: Option<ViewId>, but: Option<ViewId>)
    requires SameBones(s, t) && IsMapped(s, v, but)
    ensures IsMapped(t, v, but)
  {
    if v.Some? {
      SameBonesMapped(s, t, v.value);
    }
  }

  lemma FocusedIsMapped(s: State, but: Option<ViewId>)
    requires StackOk(s, but)
    ensures IsMapped(s, FocusedView(s), but)
  {
  }

  /** Focus changes, whatever exchange with a layer they involve, change the focus only, and the
      stack stays free of duplicates and of unmapped views (besides one that is being unmapped). No
      assertion fails. */
  lemma {:induction false} FocusViewKeeps(s: State, view: Option<ViewId>, condense: bool, but: Option<ViewId>)
    requires StackOk(s, but) && LayerOk(s) && IsMapped(s, view, but)
    ensures var t := FocusView(s, view, condense);
            FocusOnly(s, t) && StackOk(t, but) && LayerOk(t)
    decreases if s.seat.focusedLayer.Some? then 2 else 0
  {
    hide BonesOf, FocusPlain, StackOk, IsMapped, FocusOnly;
    if s.seat.focusedLayer.Some? {
      var s1 := FocusLayer(s, None);
      FocusLayerKeeps(s, None, but);
      StillMapped(s, s1, view, but);
      var s2 := FocusView(s1, view, condense);
      FocusViewKeeps(s1, view, condense, but);
      FocusLayerKeeps(s2, s.seat.focusedLayer, but);
      FocusOnlyTransitive(s, s1, s2);
      FocusOnlyTransitive(s, s2, FocusLayer(s2, s.seat.focusedLayer));
    } else {
      FocusPlainKeeps(s, view, condense, but);
    }
  }

  lemma StillMapped(s: State, t: State, view: Option<ViewId>, but: Option<ViewId>)
    requires FocusOnly(s, t) && IsMapped(s, view, but)
    ensures IsMapped(t, view, but)
  {
    IsMappedElsewhere(s, t, view, but);
  }

  lemma {:induction false} FocusLayerKeeps(s: State, layer: Option<LayerId>, but: Option<ViewId>)
    requires StackOk(s, but) && LayerOk(s)
    requires layer.Some? ==> layer.value in s.layers && s.layers[layer.value].mapped
    ensures var t := FocusLayer(s, layer);
            FocusOnly(s, t) && StackOk(t, but) && LayerOk(t)
    decreases if s.seat.focusedLayer.Some? && layer.None? then 1 else 0
  {
    hide BonesOf, FocusPlain, IsMapped, NoDuplicates;
    if layer.None? && s.seat.focusedLayer.Some? {
      var s1 := s.(seat := s.seat.(focusedLayer := None));
      SeatIsNoBone(s, s1);
      assert FocusOnly(s, s1) && StackOk(s1, but);
      var focused := FocusedView(s1);
      if focused.Some? {
        FocusedIsMapped(s1, but);
        var s2 := FocusView(s1, None, false);
        NothingIsMapped(s1, but);
        FocusViewKeeps(s1, None, false, but);
        StillMapped(s1, s2, focused, but);
        FocusViewKeeps(s2, focused, false, but);
        FocusOnlyTransitive(s, s1, s2);
        FocusOnlyTransitive(s, s2, FocusView(s2, focused, false));
      }
    } else {
      var t := FocusLayer(s, layer);
      SeatIsNoBone(s, t);
      assert FocusOnly(s, t) && StackOk(t, but);
    }
  }

  lemma NothingIsMapped(s: State, but: Option<ViewId>)
    ensures IsMapped(s, None, but)
  {
  }
}
