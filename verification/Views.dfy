/** A view: one window, with its place on the screen, its fullscreen history and the log of
    outputs its client was told about. */
module Views {
  import opened Prelude

  datatype ExpansionState = Normal | Recovering | Fullscreen

  datatype SavedState = SavedState(x: int, y: int, width: int, height: int)

  /** `wl_surface.enter` and `wl_surface.leave`, as sent to the client. */
  datatype OutputEvent = Enter(output: OutputId) | Leave(output: OutputId)

  /** client: the client owning the surface; ancestors: the parents of its window, nearest first. */
  datatype View = View(
    geometry: Box, saved: Option<SavedState>, expansion: ExpansionState, previousSize: (int, int),
    workspaceId: int, x: int, y: int, targetX: int, targetY: int, targetWidth: int, targetHeight: int,
    mapped: bool, newView: bool, client: nat, ancestors: seq<ViewId>, events: seq<OutputEvent>)
  {
    predicate IsMappedAndNormal()
    {
      mapped && expansion == Normal
    }

    function Move(nx: int, ny: int): View
    {
      this.(x := nx, y := ny)
    }

    function Resize(width: int, height: int): View
    {
      this.(targetWidth := width, targetHeight := height)
    }

    function Recover(): View
    {
      if expansion == Recovering then this.(expansion := Normal) else this
    }

    function ChangeOutput(before: Option<OutputId>, after: Option<OutputId>): View
    {
      this.(events := Told(events, before, after))
    }
  }

  /** What a client is told when its surface goes from one output to another. */
  function Told(events: seq<OutputEvent>, before: Option<OutputId>, after: Option<OutputId>): seq<OutputEvent>
  {
    var left := if before.Some? && before != after then [Leave(before.value)] else [];
    var entered := if after.Some? then [Enter(after.value)] else [];
    events + left + entered
  }

  /** The outputs a client believes its surface is on. */
  function OnOutputs(events: seq<OutputEvent>): set<OutputId>
  {
    if events == [] then {}
    else
      var before := OnOutputs(events[..|events| - 1]);
      match events[|events| - 1]
      case Enter(o) => before + {o}
      case Leave(o) => before - {o}
  }

  function OutputSet(output: Option<OutputId>): set<OutputId>
  {
    if output.Some? then {output.value} else {}
  }

  /** A client that is on exactly one side of the change ends up on exactly the other. */
  lemma ToldMovesTheSurface(events: seq<OutputEvent>, before: Option<OutputId>, after: Option<OutputId>)
    requires OnOutputs(events) == OutputSet(before)
    ensures OnOutputs(Told(events, before, after)) == OutputSet(after)
  {
    var left := if before.Some? && before != after then [Leave(before.value)] else [];
    var e1 := events + left;
    if left != [] {
      assert e1[..|e1| - 1] == events;
    } else {
      assert e1 == events;
    }
    if after.Some? {
      var e2 := e1 + [Enter(after.value)];
      assert e2[..|e2| - 1] == e1;
    } else {
      assert e1 + [] == e1;
    }
  }

  /** On the way there it is never on two outputs: it leaves the one before it enters the other, but not to enter the
      same one again. */
  lemma ToldNeverOnTwo(events: seq<OutputEvent>, before: Option<OutputId>, after: Option<OutputId>, k: nat)
    requires OnOutputs(events) == OutputSet(before)
    requires |events| <= k <= |Told(events, before, after)|
    ensures OnOutputs(Told(events, before, after)[..k]) in {OutputSet(before), {}, OutputSet(after)}
    ensures before == after ==> OnOutputs(Told(events, before, after)[..k]) == OutputSet(after)
  {
    var told := Told(events, before, after);
    if k == |events| {
      assert told[..k] == events;
    } else if k == |told| {
      ToldMovesTheSurface(events, before, after);
      assert told[..k] == told;
    } else {
      var e := told[..k];
      assert e == events + [Leave(before.value)];
      assert e[..k - 1] == events;
      assert OnOutputs(e) == {before.value} - {before.value} == {};
    }
  }
}
