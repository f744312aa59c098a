/** Layer-shell surfaces: panels, wallpapers and overlays, and the area of an output they leave to
    the windows. */
module Layers {
  import opened Prelude

  datatype Edge = Top | Bottom | Left | Right

  datatype Margin = Margin(top: int, right: int, bottom: int, left: int)
  {
    function At(e: Edge): int
    {
      match e
      case Top => top
      case Bottom => bottom
      case Left => left
      case Right => right
    }
  }

  /** What a client asked for. A desired size of 0 leaves that length to the compositor. */
  datatype SurfaceState = SurfaceState(anchor: set<Edge>, exclusiveZone: int, margin: Margin, desiredWidth: nat,
                                       desiredHeight: nat)

  datatype LayerSurface = LayerSurface(state: SurfaceState, output: Option<OutputId>, geometry: Box, closed: bool)

  // ---------------------------------------------------------------------------------------
  // What one surface reserves and where it goes
  // ---------------------------------------------------------------------------------------

  /** An edge is claimed by a surface anchored to it and to both edges that meet it. */
  function Claim(e: Edge): set<Edge>
  {
    match e
    case Top => {Left, Right, Top}
    case Bottom => {Left, Right, Bottom}
    case Left => {Left, Top, Bottom}
    case Right => {Right, Top, Bottom}
  }

  /** The pixels a surface takes off the usable area at one edge. */
  function ReservedAt(state: SurfaceState, e: Edge): (r: nat)
  {
    var wanted := state.exclusiveZone + state.margin.At(e);
    if state.exclusiveZone > 0 && Claim(e) <= state.anchor && wanted > 0 then wanted else 0
  }

  function Shrunk(area: Box, top: int, bottom: int, left: int, right: int): Box
  {
    Box(area.x + left, area.y + top, area.width - left - right, area.height - top - bottom)
  }

  /** The usable area without what a surface reserves. */
  function WithoutZone(area: Box, state: SurfaceState): Box
  {
    Shrunk(area, ReservedAt(state, Top), ReservedAt(state, Bottom), ReservedAt(state, Left), ReservedAt(state, Right))
  }

  /** One axis of the placement: offset and length before margins. */
  function Span(start: int, length: int, desired: int, atStart: bool, atEnd: bool): (int, int)
  {
    if (atStart || atEnd) && desired == 0 then (start, length)
    else if atStart then (start, desired)
    else if atEnd then (start + (length - desired), desired)
    else (start + (Quotient(length, 2) - Quotient(desired, 2)), desired)
  }

  function WithMargins(span: (int, int), atStart: bool, atEnd: bool, startMargin: int, endMargin: int): (int, int)
  {
    if atStart && atEnd then (span.0 + startMargin, span.1 - (startMargin + endMargin))
    else if atStart then (span.0 + startMargin, span.1)
    else if atEnd then (span.0 - endMargin, span.1)
    else span
  }

  function Bounds(state: SurfaceState, full: Box, usable: Box): Box
  {
    if state.exclusiveZone == -1 then full else usable
  }

  function PlacedBox(state: SurfaceState, bounds: Box): Box
  {
    var l, r, t, b := Left in state.anchor, Right in state.anchor, Top in state.anchor, Bottom in state.anchor;
    var h := WithMargins(Span(bounds.x, bounds.width, state.desiredWidth, l, r), l, r, state.margin.left,
                         state.margin.right);
    var v := WithMargins(Span(bounds.y, bounds.height, state.desiredHeight, t, b), t, b, state.margin.top,
                         state.margin.bottom);
    Box(h.0, v.0, h.1, v.1)
  }

  /** Whether a pass over the surfaces of an output deals with this one. */
  predicate Concerns(s: LayerSurface, output: OutputId, exclusive: bool)
  {
    s.output == Some(output) && exclusive == (s.state.exclusiveZone > 0)
  }

  predicate Degenerate(box: Box)
  {
    box.width < 0 || box.height < 0
  }

  /** A pass over one surface: the surface and the usable area after it. */
  function ArrangeSurface(s: LayerSurface, output: OutputId, full: Box, usable: Box, exclusive: bool)
    : (LayerSurface, Box)
  {
    if !Concerns(s, output, exclusive) then (s, usable)
    else
      var box := PlacedBox(s.state, Bounds(s.state, full, usable));
      if Degenerate(box) then (s.(closed := true), usable)
      else (s.(geometry := box), WithoutZone(usable, s.state))
  }

  /** A pass over a list of surfaces. */
  function Pass(list: seq<LayerSurface>, output: OutputId, full: Box, usable: Box, exclusive: bool)
    : (r: (seq<LayerSurface>, Box))
    ensures |r.0| == |list|
  {
    if list == [] then ([], usable)
    else
      var last := |list| - 1;
      var (front, area) := Pass(list[..last], output, full, usable, exclusive);
      var (s, area') := ArrangeSurface(list[last], output, full, area, exclusive);
      (front + [s], area')
  }

  // ---------------------------------------------------------------------------------------
  // The compositor's own form
  // ---------------------------------------------------------------------------------------

  /** The usable area while it is being worked out; passed around by reference. */
  class UsableArea {
    var box: Box

    constructor (width: int, height: int)
      ensures box == Box(0, 0, width, height)
    {
      box := Box(0, 0, width, height);
    }

    method ApplyExclusiveZone(state: SurfaceState)
      modifies this
      ensures box == WithoutZone(old(box), state)
    {
      if state.exclusiveZone <= 0 {
        return;
      }
      if Claim(Top) <= state.anchor && state.exclusiveZone + state.margin.top > 0 {
        box := box.(y := box.y + (state.exclusiveZone + state.margin.top));
        box := box.(height := box.height - (state.exclusiveZone + state.margin.top));
      }
      if Claim(Bottom) <= state.anchor && state.exclusiveZone + state.margin.bottom > 0 {
        box := box.(height := box.height - (state.exclusiveZone + state.margin.bottom));
      }
      if Claim(Left) <= state.anchor && state.exclusiveZone + state.margin.left > 0 {
        box := box.(x := box.x + (state.exclusiveZone + state.margin.left));
        box := box.(width := box.width - (state.exclusiveZone + state.margin.left));
      }
      if Claim(Right) <= state.anchor && state.exclusiveZone + state.margin.right > 0 {
        box := box.(width := box.width - (state.exclusiveZone + state.margin.right));
      }
    }
  }

  const BACKGROUND := 0
  const BOTTOM := 1
  const TOP := 2
  const OVERLAY := 3

  /** The four lists, topmost first. */
  function Stack(layers: seq<seq<LayerSurface>>): seq<LayerSurface>
    requires |layers| == 4
  {
    layers[OVERLAY] + layers[TOP] + layers[BOTTOM] + layers[BACKGROUND]
  }

  class LayerShell {
    var layers: seq<seq<LayerSurface>>

    constructor ()
      ensures layers == [[], [], [], []]
    {
      layers := [[], [], [], []];
    }

    method ArrangeLayer(k: nat, output: OutputId, full: Box, usable: UsableArea, exclusive: bool)
      requires k < |layers|
      modifies this, usable
      ensures (layers, usable.box) ==
              var (list, area) := Pass(old(layers)[k], output, full, old(usable.box), exclusive);
              (old(layers)[k := list], area)
    {
      ghost var list := layers[k];
      ghost var before := usable.box;
      for i := 0 to |layers[k]|
        invariant |layers| == |old(layers)| && |layers[k]| == |list|
        invariant forall j | 0 <= j < |layers| && j != k :: layers[j] == old(layers)[j]
        invariant layers[k][i..] == list[i..]
        invariant (layers[k][..i], usable.box) == Pass(list[..i], output, full, before, exclusive)
      {
        assert list[..i + 1][..i] == list[..i];
        var s := layers[k][i];
        assert s == layers[k][i..][0] == list[i..][0] == list[i];
        if s.output == Some(output) && exclusive == (s.state.exclusiveZone > 0) {
          var box := PlacedBox(s.state, if s.state.exclusiveZone == -1 then full else usable.box);
          if box.width < 0 || box.height < 0 {
            s := s.(closed := true);
          } else {
            s := s.(geometry := box);
            usable.ApplyExclusiveZone(s.state);
          }
        }
        ghost var was := layers[k];
        layers := layers[k := layers[k][i := s]];
        assert layers[k][..i + 1] == was[..i] + [s];
        assert layers[k][i + 1..] == was[i..][1..] == list[i..][1..];
      }
      assert layers[k][..|list|] == layers[k] && list[..|list|] == list;
      assert layers == old(layers)[k := layers[k]];
    }

    /** Both arranging phases; between them the windows are laid out in the area returned. */
    method ArrangeLayers(output: OutputId, width: int, height: int) returns (usable: Box)
      requires |layers| == 4
      modifies this
      ensures |layers| == 4
      ensures (Stack(layers), usable) == Arranged(Stack(old(layers)), output, Box(0, 0, width, height))
    {
      var area := new UsableArea(width, height);
      var full := area.box;
      ArrangePhase(output, full, area, true);
      usable := area.box;
      ArrangePhase(output, full, area, false);
      SecondPhaseKeepsTheArea(Pass(Stack(old(layers)), output, full, full, true).0, output, full, usable);
    }

    method ArrangePhase(output: OutputId, full: Box, area: UsableArea, exclusive: bool)
      requires |layers| == 4
      modifies this, area
      ensures |layers| == 4
      ensures (Stack(layers), area.box) == Pass(Stack(old(layers)), output, full, old(area.box), exclusive)
    {
      ghost var l := layers;
      ghost var a := area.box;
      ArrangeLayer(OVERLAY, output, full, area, exclusive);
      PassConcat(l[OVERLAY], l[TOP], output, full, a, exclusive);
      ArrangeLayer(TOP, output, full, area, exclusive);
      PassConcat(l[OVERLAY] + l[TOP], l[BOTTOM], output, full, a, exclusive);
      ArrangeLayer(BOTTOM, output, full, area, exclusive);
      PassConcat(l[OVERLAY] + l[TOP] + l[BOTTOM], l[BACKGROUND], output, full, a, exclusive);
      ArrangeLayer(BACKGROUND, output, full, area, exclusive);
    }
  }

  function Arranged(stack: seq<LayerSurface>, output: OutputId, full: Box): (seq<LayerSurface>, Box)
  {
    var (exclusives, usable) := Pass(stack, output, full, full, true);
    (Pass(exclusives, output, full, usable, false).0, usable)
  }

  lemma {:induction false} PassConcat(a: seq<LayerSurface>, b: seq<LayerSurface>, output: OutputId, full: Box,
                                      usable: Box, exclusive: bool)
    ensures var (front, area) := Pass(a, output, full, usable, exclusive);
            var (back, area') := Pass(b, output, full, area, exclusive);
            Pass(a + b, output, full, usable, exclusive) == (front + back, area')
  {
    if b == [] {
      assert a + b == a;
      var front := Pass(a, output, full, usable, exclusive).0;
      assert front + [] == front;
    } else {
      var last := |b| - 1;
      assert (a + b)[..|a + b| - 1] == a + b[..last];
      PassConcat(a, b[..last], output, full, usable, exclusive);
      var (front, area) := Pass(a, output, full, usable, exclusive);
      var (back, area') := Pass(b[..last], output, full, area, exclusive);
      var s := ArrangeSurface(b[last], output, full, area', exclusive).0;
      assert front + back + [s] == front + (back + [s]);
    }
  }

  // ---------------------------------------------------------------------------------------
  // What the windows are left with
  // ---------------------------------------------------------------------------------------

  /** Surfaces without an exclusive zone reserve nothing. */
  lemma {:induction false} SecondPhaseKeepsTheArea(list: seq<LayerSurface>, output: OutputId, full: Box, usable: Box)
    ensures Pass(list, output, full, usable, false).1 == usable
  {
    if list == [] {
    } else {
      SecondPhaseKeepsTheArea(list[..|list| - 1], output, full, usable);
    }
  }

  /** What the surfaces that were placed reserve at one edge, all together. */
  function TotalReserved(list: seq<LayerSurface>, output: OutputId, e: Edge): nat
  {
    if list == [] then 0
    else TotalReserved(list[..|list| - 1], output, e) + Reserves(list[|list| - 1], output, e)
  }

  function Reserves(s: LayerSurface, output: OutputId, e: Edge): nat
  {
    if Concerns(s, output, true) && !s.closed then ReservedAt(s.state, e) else 0
  }

  ghost predicate NothingClosed(list: seq<LayerSurface>)
  {
    forall i | 0 <= i < |list| :: !list[i].closed
  }

  /** The exclusive phase takes exactly the placed surfaces' reservations off the output. */
  lemma {:induction false} AreaIsFullMinusReservations(list: seq<LayerSurface>, output: OutputId, full: Box)
    requires NothingClosed(list)
    ensures var (placed, usable) := Pass(list, output, full, full, true);
            usable == Shrunk(full, TotalReserved(placed, output, Top), TotalReserved(placed, output, Bottom),
                             TotalReserved(placed, output, Left), TotalReserved(placed, output, Right))
  {
    if list == [] {
    } else {
      var front := list[..|list| - 1];
      AreaIsFullMinusReservations(front, output, full);
      var placed := Pass(list, output, full, full, true).0;
      assert placed[..|placed| - 1] == Pass(front, output, full, full, true).0;
    }
  }

  /** a's edges are not outside b's. */
  predicate Within(a: Box, b: Box)
  {
    b.x <= a.x && b.y <= a.y && a.x + a.width <= b.x + b.width && a.y + a.height <= b.y + b.height
  }

  lemma {:induction false} PassShrinks(list: seq<LayerSurface>, output: OutputId, full: Box, usable: Box,
                                       exclusive: bool)
    ensures Within(Pass(list, output, full, usable, exclusive).1, usable)
  {
    if list == [] {
    } else {
      PassShrinks(list[..|list| - 1], output, full, usable, exclusive);
    }
  }

  /** The usable area never reaches out of the output, and it is a proper area exactly when the
      reservations fit. */
  lemma UsableAreaInsideOutput(list: seq<LayerSurface>, output: OutputId, width: nat, height: nat)
    requires NothingClosed(list)
    ensures var full := Box(0, 0, width, height);
            var (placed, usable) := Pass(list, output, full, full, true);
            && Within(usable, full)
            && (usable.width >= 0
                <==> TotalReserved(placed, output, Left) + TotalReserved(placed, output, Right) <= width)
            && (usable.height >= 0
                <==> TotalReserved(placed, output, Top) + TotalReserved(placed, output, Bottom) <= height)
  {
    var full := Box(0, 0, width, height);
    PassShrinks(list, output, full, full, true);
    AreaIsFullMinusReservations(list, output, full);
  }

  lemma {:induction false} TotalConcat(a: seq<LayerSurface>, b: seq<LayerSurface>, output: OutputId, e: Edge)
    ensures TotalReserved(a + b, output, e) == TotalReserved(a, output, e) + TotalReserved(b, output, e)
  {
    if b == [] {
      assert a + b == a;
    } else {
      TotalConcat(a, b[..|b| - 1], output, e);
      assert (a + b)[..|a + b| - 1] == a + b[..|b| - 1];
    }
  }

  lemma TotalWithout(b: seq<LayerSurface>, i: nat, output: OutputId, e: Edge)
    requires i < |b|
    ensures TotalReserved(b, output, e) == TotalReserved(b[..i] + b[i + 1..], output, e) + Reserves(b[i], output, e)
  {
    assert b == b[..i + 1] + b[i + 1..];
    assert b[..i + 1][..i] == b[..i];
    TotalConcat(b[..i + 1], b[i + 1..], output, e);
    TotalConcat(b[..i], b[i + 1..], output, e);
  }

  lemma SameWithout(front: seq<LayerSurface>, last: LayerSurface, b: seq<LayerSurface>, i: nat)
    requires i < |b| && b[i] == last && multiset(front + [last]) == multiset(b)
    ensures multiset(front) == multiset(b[..i] + b[i + 1..])
  {
    assert b == b[..i] + [last] + b[i + 1..];
    var rest := b[..i] + b[i + 1..];
    forall x
      ensures multiset(front)[x] == multiset(rest)[x]
    {
      assert multiset(b)[x] == multiset(b[..i])[x] + multiset([last])[x] + multiset(b[i + 1..])[x];
      assert multiset(front + [last])[x] == multiset(front)[x] + multiset([last])[x];
    }
  }

  lemma {:induction false} TotalIgnoresOrder(a: seq<LayerSurface>, b: seq<LayerSurface>, output: OutputId, e: Edge)
    requires multiset(a) == multiset(b)
    ensures TotalReserved(a, output, e) == TotalReserved(b, output, e)
    decreases |a|
  {
    if a == [] {
      assert |multiset(b)| == 0;
    } else {
      var front, last := a[..|a| - 1], a[|a| - 1];
      assert a == front + [last];
      assert last in multiset(b);
      var i :| 0 <= i < |b| && b[i] == last;
      SameWithout(front, last, b, i);
      TotalIgnoresOrder(front, b[..i] + b[i + 1..], output, e);
      TotalWithout(b, i, output, e);
    }
  }

  /** What a surface reserves does not depend on where it was put. */
  lemma {:induction false} PlacingKeepsReservations(list: seq<LayerSurface>, output: OutputId, full: Box, usable: Box,
                                                    e: Edge)
    requires NothingClosed(Pass(list, output, full, usable, true).0)
    ensures TotalReserved(Pass(list, output, full, usable, true).0, output, e) == TotalReserved(list, output, e)
    ensures NothingClosed(list)
  {
    if list == [] {
    } else {
      var last := |list| - 1;
      var placed := Pass(list, output, full, usable, true).0;
      var front := Pass(list[..last], output, full, usable, true).0;
      assert placed[..last] == front;
      assert forall i | 0 <= i < last :: front[i] == placed[i];
      PlacingKeepsReservations(list[..last], output, full, usable, e);
      assert !placed[last].closed;
      assert forall i | 0 <= i < last :: list[i] == list[..last][i];
    }
  }

  /** The order of the surfaces does not matter to the windows, as long as none is closed. */
  lemma AreaIgnoresOrder(a: seq<LayerSurface>, b: seq<LayerSurface>, output: OutputId, full: Box)
    requires multiset(a) == multiset(b)
    requires NothingClosed(Pass(a, output, full, full, true).0) && NothingClosed(Pass(b, output, full, full, true).0)
    ensures Pass(a, output, full, full, true).1 == Pass(b, output, full, full, true).1
  {
    forall e: Edge
      ensures TotalReserved(Pass(a, output, full, full, true).0, output, e) ==
              TotalReserved(Pass(b, output, full, full, true).0, output, e)
    {
      PlacingKeepsReservations(a, output, full, full, e);
      PlacingKeepsReservations(b, output, full, full, e);
      TotalIgnoresOrder(a, b, output, e);
    }
    PlacingKeepsReservations(a, output, full, full, Top);
    PlacingKeepsReservations(b, output, full, full, Top);
    AreaIsFullMinusReservations(a, output, full);
    AreaIsFullMinusReservations(b, output, full);
  }

  // ---------------------------------------------------------------------------------------
  // Panels
  // ---------------------------------------------------------------------------------------

  /** A bar along edge e: its length is left to the compositor and its exclusive zone covers it. */
  predicate Panel(state: SurfaceState, e: Edge)
  {
    && state.anchor == Claim(e)
    && state.margin.top >= 0 && state.margin.right >= 0 && state.margin.bottom >= 0 && state.margin.left >= 0
    && if e == Top || e == Bottom
       then state.desiredWidth == 0 && 0 < state.desiredHeight <= state.exclusiveZone
       else state.desiredHeight == 0 && 0 < state.desiredWidth <= state.exclusiveZone
  }

  /** A panel lies within the area it was placed in and outside the area it leaves. */
  lemma PanelUsesItsReservation(state: SurfaceState, e: Edge, usable: Box)
    requires Panel(state, e)
    requires var rest := WithoutZone(usable, state); rest.width >= 0 && rest.height >= 0
    ensures Within(PlacedBox(state, usable), usable)
    ensures var box, rest := PlacedBox(state, usable), WithoutZone(usable, state);
            match e
            case Top => box.y + box.height <= rest.y
            case Bottom => rest.y + rest.height <= box.y
            case Left => box.x + box.width <= rest.x
            case Right => rest.x + rest.width <= box.x
  {
  }

  /** It reserves its exclusive zone and its margin on its own edge, and nothing on the others; if the zone is as long
      as the panel, the windows begin right where the panel ends. */
  lemma PanelReservesItsZone(state: SurfaceState, e: Edge, usable: Box)
    requires Panel(state, e)
    ensures ReservedAt(state, e) == state.exclusiveZone + state.margin.At(e)
    ensures forall f: Edge | f != e :: ReservedAt(state, f) == 0
    ensures var box, rest := PlacedBox(state, usable), WithoutZone(usable, state);
            match e
            case Top => state.exclusiveZone == state.desiredHeight ==> rest.y == box.y + box.height
            case Bottom => state.exclusiveZone == state.desiredHeight ==> rest.y + rest.height == box.y
            case Left => state.exclusiveZone == state.desiredWidth ==> rest.x == box.x + box.width
            case Right => state.exclusiveZone == state.desiredWidth ==> rest.x + rest.width == box.x
  {
    forall f: Edge | f != e
      ensures ReservedAt(state, f) == 0
    {
      if f == Opposite(e) {
        assert f in Claim(f) && f !in Claim(e);
      } else {
        assert Opposite(e) in Claim(f) && Opposite(e) !in Claim(e);
      }
    }
  }

  function Opposite(e: Edge): Edge
  {
    match e
    case Top => Bottom
    case Bottom => Top
    case Left => Right
    case Right => Left
  }

  lemma AsideIsDisjoint(box: Box, other: Box, rest: Box, e: Edge)
    requires Within(other, rest)
    requires match e
             case Top => box.y + box.height <= rest.y
             case Bottom => rest.y + rest.height <= box.y
             case Left => box.x + box.width <= rest.x
             case Right => rest.x + rest.width <= box.x
    ensures box.Disjoint(other)
  {
  }

  lemma WithinTransitive(a: Box, b: Box, c: Box)
    requires Within(a, b) && Within(b, c)
    ensures Within(a, c)
  {
  }

  /** The exclusive phase seen from surface k. */
  lemma {:induction false} PassAt(list: seq<LayerSurface>, output: OutputId, full: Box, usable: Box, k: nat)
    requires k < |list|
    ensures var before := Pass(list[..k], output, full, usable, true).1;
            && Pass(list, output, full, usable, true).0[k] == ArrangeSurface(list[k], output, full, before, true).0
            && Pass(list[..k + 1], output, full, usable, true).1 ==
               ArrangeSurface(list[k], output, full, before, true).1
  {
    assert list[..k + 1][..k] == list[..k];
    assert list == list[..k + 1] + list[k + 1..];
    PassConcat(list[..k + 1], list[k + 1..], output, full, usable, true);
  }

  lemma PassShrinksBetween(list: seq<LayerSurface>, output: OutputId, full: Box, usable: Box, i: nat, j: nat)
    requires i <= j <= |list|
    ensures Within(Pass(list[..j], output, full, usable, true).1, Pass(list[..i], output, full, usable, true).1)
  {
    assert list[..j] == list[..i] + list[i..j];
    PassConcat(list[..i], list[i..j], output, full, usable, true);
    PassShrinks(list[i..j], output, full, Pass(list[..i], output, full, usable, true).1, true);
  }

  /** Two panels that the exclusive phase placed do not overlap. */
  lemma PlacedPanelsAreDisjoint(list: seq<LayerSurface>, output: OutputId, full: Box, i: nat, j: nat, e: Edge, f: Edge)
    requires i < j < |list| && NothingClosed(list)
    requires list[i].output == list[j].output == Some(output)
    requires Panel(list[i].state, e) && Panel(list[j].state, f)
    requires var (placed, usable) := Pass(list, output, full, full, true);
             !placed[i].closed && !placed[j].closed && usable.width >= 0 && usable.height >= 0
    ensures var placed := Pass(list, output, full, full, true).0;
            placed[i].geometry.Disjoint(placed[j].geometry)
  {
    hide Pass, PlacedBox, WithoutZone;
    PassAt(list, output, full, full, i);
    PassAt(list, output, full, full, j);
    var ui, ui' := Pass(list[..i], output, full, full, true).1, Pass(list[..i + 1], output, full, full, true).1;
    var uj, uj' := Pass(list[..j], output, full, full, true).1, Pass(list[..j + 1], output, full, full, true).1;
    assert list[..|list|] == list;
    PassShrinksBetween(list, output, full, full, i + 1, |list|);
    PassShrinksBetween(list, output, full, full, j + 1, |list|);
    PassShrinksBetween(list, output, full, full, i + 1, j);
    PanelUsesItsReservation(list[i].state, e, ui);
    PanelUsesItsReservation(list[j].state, f, uj);
    WithinTransitive(PlacedBox(list[j].state, uj), uj, ui');
    AsideIsDisjoint(PlacedBox(list[i].state, ui), PlacedBox(list[j].state, uj), ui', e);
  }

  /** On one edge, a panel that comes first in the order of arranging lies further out. */
  lemma EarlierPanelsAreOuter(list: seq<LayerSurface>, output: OutputId, full: Box, i: nat, j: nat, e: Edge)
    requires i < j < |list| && NothingClosed(list)
    requires list[i].output == list[j].output == Some(output)
    requires Panel(list[i].state, e) && Panel(list[j].state, e)
    requires var (placed, usable) := Pass(list, output, full, full, true);
             !placed[i].closed && !placed[j].closed && usable.width >= 0 && usable.height >= 0
    ensures var placed := Pass(list, output, full, full, true).0;
            var (outer, inner) := (placed[i].geometry, placed[j].geometry);
            match e
            case Top => outer.y + outer.height <= inner.y
            case Bottom => inner.y + inner.height <= outer.y
            case Left => outer.x + outer.width <= inner.x
            case Right => inner.x + inner.width <= outer.x
  {
    hide Pass, PlacedBox, WithoutZone;
    PassAt(list, output, full, full, i);
    PassAt(list, output, full, full, j);
    assert list[..|list|] == list;
    PassShrinksBetween(list, output, full, full, i + 1, |list|);
    PassShrinksBetween(list, output, full, full, j + 1, |list|);
    PassShrinksBetween(list, output, full, full, i + 1, j);
    PanelUsesItsReservation(list[i].state, e, Pass(list[..i], output, full, full, true).1);
    PanelUsesItsReservation(list[j].state, e, Pass(list[..j], output, full, full, true).1);
  }

  /** The surfaces of a higher layer come first in that order. */
  lemma HigherLayersComeFirst(layers: seq<seq<LayerSurface>>, a: nat, b: nat, i: nat, j: nat)
    returns (k: nat, l: nat)
    requires |layers| == 4 && b < a < 4 && i < |layers[a]| && j < |layers[b]|
    ensures k < l < |Stack(layers)| && Stack(layers)[k] == layers[a][i] && Stack(layers)[l] == layers[b][j]
  {
    var above := [0, |layers[3]|, |layers[3]| + |layers[2]|, |layers[3]| + |layers[2]| + |layers[1]|];
    k, l := above[3 - a] + i, above[3 - b] + j;
  }

  /** Surfaces that turn out to have no room reserve nothing, so the area is never smaller than what all
      reservations together leave. */
  lemma {:induction false} AreaIsAtLeast(list: seq<LayerSurface>, output: OutputId, full: Box)
    requires NothingClosed(list)
    ensures var usable := Pass(list, output, full, full, true).1;
            && usable.width >= full.width - TotalReserved(list, output, Left) - TotalReserved(list, output, Right)
            && usable.height >= full.height - TotalReserved(list, output, Top) - TotalReserved(list, output, Bottom)
  {
    if list == [] {
    } else {
      var front := list[..|list| - 1];
      assert forall i | 0 <= i < |front| :: front[i] == list[i];
      AreaIsAtLeast(front, output, full);
    }
  }

  /** All reservations together leave an area in which the panel has room between its margins. */
  predicate HasRoom(list: seq<LayerSurface>, output: OutputId, full: Box, state: SurfaceState, e: Edge)
  {
    var width := full.width - TotalReserved(list, output, Left) - TotalReserved(list, output, Right);
    var height := full.height - TotalReserved(list, output, Top) - TotalReserved(list, output, Bottom);
    && width >= 0 && height >= 0
    && if e == Top || e == Bottom then state.margin.left + state.margin.right <= width
       else state.margin.top + state.margin.bottom <= height
  }

  lemma PanelIsPlaced(list: seq<LayerSurface>, output: OutputId, full: Box, i: nat, e: Edge)
    requires i < |list| && NothingClosed(list) && list[i].output == Some(output) && Panel(list[i].state, e)
    requires HasRoom(list, output, full, list[i].state, e)
    ensures var placed := Pass(list, output, full, full, true).0;
            var before := Pass(list[..i], output, full, full, true).1;
            && placed[i] == list[i].(geometry := PlacedBox(list[i].state, before))
            && Within(placed[i].geometry, full)
  {
    hide Pass, TotalReserved;
    PassAt(list, output, full, full, i);
    var before, after := Pass(list[..i], output, full, full, true).1, Pass(list[..i + 1], output, full, full, true).1;
    AreaIsAtLeast(list, output, full);
    assert list[..|list|] == list;
    PassShrinksBetween(list, output, full, full, i, |list|);
    BigEnough(list[i].state, e, before, Pass(list, output, full, full, true).1);
    PassShrinksBetween(list, output, full, full, i + 1, |list|);
    PanelUsesItsReservation(list[i].state, e, before);
    PassShrinks(list[..i], output, full, full, true);
    WithinTransitive(PlacedBox(list[i].state, before), before, full);
  }

  /** A panel that has room in the area that is left in the end had room when it was placed. */
  lemma BigEnough(state: SurfaceState, e: Edge, before: Box, end: Box)
    requires Panel(state, e) && Within(end, before) && end.width >= 0 && end.height >= 0
    requires if e == Top || e == Bottom then state.margin.left + state.margin.right <= end.width
             else state.margin.top + state.margin.bottom <= end.height
    ensures !Degenerate(PlacedBox(state, before))
  {
  }

  lemma {:induction false} PassKeepsStates(list: seq<LayerSurface>, output: OutputId, full: Box, usable: Box,
                                           exclusive: bool, k: nat)
    requires k < |list|
    ensures var r := Pass(list, output, full, usable, exclusive).0;
            && r[k].state == list[k].state && r[k].output == list[k].output
            && (!Concerns(list[k], output, exclusive) ==> r[k] == list[k])
  {
    hide PlacedBox, WithoutZone;
    if k == |list| - 1 {
    } else {
      PassKeepsStates(list[..|list| - 1], output, full, usable, exclusive, k);
    }
  }

  /** After both phases two panels of an output are open, inside the output, and do not overlap, whatever other surfaces
      there are and whichever of them had to be closed, as long as all reservations together leave the panels room. */
  lemma PanelsNeverCollide(stack: seq<LayerSurface>, output: OutputId, full: Box, i: nat, j: nat, e: Edge, f: Edge)
    requires i < j < |stack| && NothingClosed(stack)
    requires stack[i].output == stack[j].output == Some(output)
    requires Panel(stack[i].state, e) && Panel(stack[j].state, f)
    requires HasRoom(stack, output, full, stack[i].state, e) && HasRoom(stack, output, full, stack[j].state, f)
    ensures var after := Arranged(stack, output, full).0;
            && |after| == |stack| && !after[i].closed && !after[j].closed
            && Within(after[i].geometry, full) && Within(after[j].geometry, full)
            && after[i].geometry.Disjoint(after[j].geometry)
  {
    hide Pass, PlacedBox, WithoutZone, TotalReserved, Box.Disjoint;
    PanelIsPlaced(stack, output, full, i, e);
    PanelIsPlaced(stack, output, full, j, f);
    AreaIsAtLeast(stack, output, full);
    PlacedPanelsAreDisjoint(stack, output, full, i, j, e, f);
    var (placed, usable) := Pass(stack, output, full, full, true);
    PassKeepsStates(placed, output, full, usable, false, i);
    PassKeepsStates(placed, output, full, usable, false, j);
  }

  // ---------------------------------------------------------------------------------------
  // Other surfaces
  // ---------------------------------------------------------------------------------------

  /** One axis of where a surface goes: on the edges it is anchored to, its margins away from them; in the middle if
      it is anchored to neither. It has the length it wants, or all there is if it leaves that open, between its
      margins if it is anchored to both edges. */
  predicate GoesTo(start: int, length: int, desired: nat, atStart: bool, atEnd: bool, first: int, last: int, pos: int,
                   size: int)
  {
    && (atStart ==> pos == start + first)
    && (atEnd && (!atStart || desired == 0) ==> pos + size == start + length - last)
    && (!atStart && !atEnd ==> -1 <= (pos - start) - (start + length - (pos + size)) <= 1)
    && (if atStart && atEnd then size == (if desired == 0 then length else desired) - (first + last)
        else size == if desired == 0 && (atStart || atEnd) then length else desired)
  }

  /** The same on both axes. */
  predicate GoesIn(state: SurfaceState, area: Box, box: Box)
  {
    && GoesTo(area.x, area.width, state.desiredWidth, Left in state.anchor, Right in state.anchor, state.margin.left,
              state.margin.right, box.x, box.width)
    && GoesTo(area.y, area.height, state.desiredHeight, Top in state.anchor, Bottom in state.anchor, state.margin.top,
              state.margin.bottom, box.y, box.height)
  }

  lemma PlacedBoxGoesIn(state: SurfaceState, area: Box)
    requires area.width >= 0 && area.height >= 0
    ensures GoesIn(state, area, PlacedBox(state, area))
  {
  }

  /** The phase without exclusive surfaces seen from surface k. */
  lemma {:induction false} SecondPassAt(list: seq<LayerSurface>, output: OutputId, full: Box, usable: Box, k: nat)
    requires k < |list|
    ensures Pass(list, output, full, usable, false).0[k] == ArrangeSurface(list[k], output, full, usable, false).0
  {
    hide PlacedBox, WithoutZone;
    if k == |list| - 1 {
      SecondPhaseKeepsTheArea(list[..k], output, full, usable);
    } else {
      SecondPassAt(list[..|list| - 1], output, full, usable, k);
    }
  }

  /** After both phases a surface that reserves nothing is closed if it has no room, and otherwise where it wants to
      be: on the whole output if it ignores what others reserve, as a wallpaper does, and in the area that is left if
      not. */
  lemma OthersGoWhereTheyWant(stack: seq<LayerSurface>, output: OutputId, full: Box, k: nat)
    requires k < |stack| && stack[k].output == Some(output) && stack[k].state.exclusiveZone <= 0
    requires full.width >= 0 && full.height >= 0
    requires Arranged(stack, output, full).1.width >= 0 && Arranged(stack, output, full).1.height >= 0
    ensures var (after, usable) := Arranged(stack, output, full);
            var area := if stack[k].state.exclusiveZone == -1 then full else usable;
            && |after| == |stack|
            && exists box :: GoesIn(stack[k].state, area, box)
                             && after[k] == if Degenerate(box) then stack[k].(closed := true)
                                            else stack[k].(geometry := box)
  {
    hide Pass, GoesIn, PlacedBox;
    var (placed, usable) := Pass(stack, output, full, full, true);
    PassKeepsStates(stack, output, full, full, true, k);
    SecondPassAt(placed, output, full, usable, k);
    var area := if stack[k].state.exclusiveZone == -1 then full else usable;
    PlacedBoxGoesIn(stack[k].state, area);
  }

  /** A wallpaper: anchored to all edges without margins, it leaves its size open and ignores all reservations. */
  predicate Wallpaper(state: SurfaceState)
  {
    && state.anchor == {Left, Right, Top, Bottom} && state.margin == Margin(0, 0, 0, 0)
    && state.desiredWidth == 0 && state.desiredHeight == 0 && state.exclusiveZone == -1
  }

  /** It covers the whole output, whatever panels there are. */
  lemma WallpaperCoversTheOutput(stack: seq<LayerSurface>, output: OutputId, full: Box, k: nat)
    requires k < |stack| && stack[k].output == Some(output) && Wallpaper(stack[k].state)
    requires full.width >= 0 && full.height >= 0
    ensures var after := Arranged(stack, output, full).0;
            |after| == |stack| && after[k] == stack[k].(geometry := full)
  {
    hide Pass;
    var (placed, usable) := Pass(stack, output, full, full, true);
    PassKeepsStates(stack, output, full, full, true, k);
    SecondPassAt(placed, output, full, usable, k);
  }

  /** Anchored to all edges, with its size left open, but respecting what others reserve. */
  predicate Considerate(state: SurfaceState)
  {
    && state.anchor == {Left, Right, Top, Bottom} && state.desiredWidth == 0 && state.desiredHeight == 0
    && state.margin.top >= 0 && state.margin.right >= 0 && state.margin.bottom >= 0 && state.margin.left >= 0
    && state.exclusiveZone <= 0 && state.exclusiveZone != -1
  }

  /** A surface that respects reservations never overlaps a panel that was placed. */
  lemma ConsiderateAvoidsPanels(stack: seq<LayerSurface>, output: OutputId, full: Box, i: nat, k: nat, e: Edge)
    requires i < |stack| && k < |stack| && NothingClosed(stack)
    requires stack[i].output == stack[k].output == Some(output)
    requires Panel(stack[i].state, e) && Considerate(stack[k].state)
    requires HasRoom(stack, output, full, stack[i].state, e)
    ensures var after := Arranged(stack, output, full).0;
            |after| == |stack| && !after[i].closed
            && (!after[k].closed ==> after[i].geometry.Disjoint(after[k].geometry))
  {
    hide Pass, PlacedBox, WithoutZone, TotalReserved, Box.Disjoint;
    var (placed, usable) := Pass(stack, output, full, full, true);
    PanelIsPlaced(stack, output, full, i, e);
    PassAt(stack, output, full, full, i);
    AreaIsAtLeast(stack, output, full);
    PassKeepsStates(stack, output, full, full, true, k);
    PassKeepsStates(placed, output, full, usable, false, i);
    SecondPassAt(placed, output, full, usable, k);
    var before, rest := Pass(stack[..i], output, full, full, true).1, Pass(stack[..i + 1], output, full, full, true).1;
    assert stack[..|stack|] == stack;
    PassShrinksBetween(stack, output, full, full, i + 1, |stack|);
    PanelUsesItsReservation(stack[i].state, e, before);
    ConsiderateStaysWithin(stack[k].state, usable);
    WithinTransitive(PlacedBox(stack[k].state, usable), usable, rest);
    AsideIsDisjoint(PlacedBox(stack[i].state, before), PlacedBox(stack[k].state, usable), rest, e);
  }

  lemma ConsiderateStaysWithin(state: SurfaceState, area: Box)
    requires Considerate(state)
    ensures Within(PlacedBox(state, area), area)
  {
  }
}
