# Cardboard, verified

A Dafny model of the state machine of Cardboard, a scrollable tiling window manager, and proofs of what it
promises: the tiling engine with its layout pass, the focus stack and the switching of workspaces, the
animation queue, the panels of the layer shell, kinetic scrolling, and the receiving side of the IPC socket.

Run `dafny verify dfyconfig.toml` to check everything.

## How it is built

Every operation appears twice: as a function on values, and as a method that updates objects in place the way
the compositor does. Each method is proved to compute its function, and the promises are proved about the
functions.

| file | what it holds |
|---|---|
| `Prelude.dfy`, `Views.dfy`, `Columns.dfy` | C's conversions, boxes and lists; a view with the log of outputs its client was told; columns of tiles and the surgery on them |
| `Rearranging.dfy`, `Commands.dfy` | the commands move, insert and pop on the shape of a workspace, and when they undo each other; the same for the desktop |
| `Layout.dfy`, `Placing.dfy`, `Scrolling.dfy` | where the layout pass puts every tile; the same told without the sums of its loops; the second computation of a view's offset, and fitting a view on screen |
| `Animation.dfy`, `AnimationQueue.dfy`, `AnimationRuns.dfy` | interpolation; the queue of animations as an object, and what is to be done when one of them ends; why views end on their latest targets |
| `Tiling.dfy`, `Workspace.dfy` | the operations of one workspace as functions, and class `Workspace`, whose methods refine them |
| `Desktop.dfy`, `Server.dfy` | the same for the whole compositor: all workspaces, outputs, the seat; class `Server` |
| `Invariants.dfy`, `Preservation.dfy`, `Steps.dfy`, `Runs.dfy` | what holds in every reachable state, and why each event keeps it |
| `Effects.dfy`, `Focus.dfy`, `RoundTrip.dfy`, `Switching.dfy` | what single operations achieve; cycling the focus; fullscreen and back; switching workspaces |
| `Keyboard.dfy`, `Outcomes.dfy` | which view gets the focus and the keyboard, whatever happens; where every operation of the desktop puts views, what it shows, and what sizes it asks for |
| `Homeward.dfy`, `Homecoming.dfy` | why the tiles of the desktop come to rest where they were last laid out, over whole runs |
| `Tidiness.dfy` | why they are always laid out for the desktop as it is, and what the windows on the screen therefore keep apart |
| `Swipe.dfy`, `Dominant.dfy` | kinetic scrolling and the view that has the focus when it ends |
| `Layers.dfy`, `Ipc.dfy` | panels and the usable area; framing of messages |
| `Witnesses.dfy` | reachable desktops, and plain values, at which the code does not keep a promise |

Views, outputs and layers are numbers, looked up in a table of views. `float` and `double` are exact reals,
truncated where the code converts to `int`. Calls into wlroots are dropped, except that the enters and leaves sent to
a client are logged, that keyboard focus is a field of the seat, and that what wlroots decides (which outputs the cursor
is on, which output a point is on, the sizes clients take, the clock) is an input. `fault` is set where the code would fail
an assertion or read an absent optional value.

### Where the code does not keep its promise

Each line names the exact condition, and a lemma of `Witnesses.dfy` with an input that does not meet it; most of these are
runs from the start of the compositor.

- A view is mapped without a workspace if no output is under the cursor (`MappingWithoutWorkspace`), and a view unmapped
  while fullscreen comes back fullscreen in a workspace that does not know it (`MappingWhileFullscreen`). Mapping is safe
  exactly otherwise: `MappingIsSafeExactlyWhen`.
- A request to make a view fullscreen that is not in its normal state fails an assertion (`SecondRequestFails`), and only
  such a request does: `FullscreenFailsExactlyWhen`.
- Destroying an output while a workspace that shares it is still sliding out leaves that workspace on an output that is
  gone (`DestroyingASharedOutput`), and a switch that is still being animated onto it would go on with it:
  `DestroyingIsSafeExactlyWhen`.
- Switching workspaces while the one under the cursor is itself still sliding out leaves two workspaces on its output for
  good (`SwitchingTwice`). So does losing the animation that a workspace waits for before it leaves its output, because the
  callback goes with it: by destroying the view that it moves (`DestroyingASlidingView`), or by taking hold of a tile to
  move or to resize it, which cancels the animations of all tiles around it (`HoldingASlidingTile`):
  `SwitchingIsSafeExactlyWhen`, `DestroyingViewIsSafeExactlyWhen`, `TakingHoldIsSafeExactlyWhen`.
- A scroll that ends after its dominant view was unmapped may focus that view (`ScrollEndsOnAnUnmappedView`), because a
  scroll does not count as grabbing a view: `SwipeFrameIsSafeExactlyWhen`.
- A workspace that gets a new output is not laid out then. If its views had slid out before, they stay out of sight
  (`StaysOutOfSight`): `AddingOutputHomeExactlyWhen`.
- The two loops that compute a column's offset agree exactly when every earlier column ends on one of its widest
  normal tiles: `OffsetsAgree` (`NarrowLastTile`). The guard of `fit_view_on_screen` mixes two coordinate systems, so a
  view under a panel on the left stays there (`FitMissesAViewUnderAPanel`); `FitShowsTheView` says exactly when it works,
  and `FittingAligns` where the view is then.
- When the usable area of an output changes while the focused view of its workspace is floating, fullscreen or recovering,
  nothing is laid out, so tiles stay under a bar that has appeared (`BarOverATile`): `NewAreaIsUsedExactlyWhen`. Every
  other event lays out what it should, but for what it does to outputs: `NextTidiesExactlyWhen`.
- `focus_cycle` reorders the stack even when the focus was refused (`RefusedCycleDoesNotRotate`); it rotates exactly when
  it was not: `CycleRotates`.
- When a client gets the input to itself, a panel of another client may keep the keyboard. A panel that has the focus does
  if no view is on the focus stack (`PanelKeepsTheKeyboard`); one that has the keyboard without having the focus, because
  it is below the windows, also does if the view in front of the stack is the client's own:
  `ExclusiveClientHasTheKeyboard`.
- A client that has the size of its view from before when it stops being fullscreen, and keeps it, stays out of the layout
  afterwards
  (`UnchangedSizeIsNotNoticed`): `FullscreenRoundTrip`.
- A layout without animation does not cancel the animations before it (`PutDownTooEarly`): `UnanimatedPlacement`. A layout
  that a callback does in the middle of a tick goes ahead of older animations that the tick has yet to take
  (`OverrunByAnOlderAnimation`): `RelaidRestsExactlyWhen`. For the tiles of the desktop: `PuttingDownExactlyWhen`.
- A swipe that is lifted before it moved never ends its grab (`LiftedBeforeMoving`): `StopsExactlyWhenMoved`.
- `find_dominant_view` takes the left edge of the usable area for its top edge. A column is judged by the part of its width
  that is seen exactly when the two agree (`WidthDecidesExactlyWhen`); on an output that starts as far right as it ends
  down, nothing is seen (`NothingSeenOnTheSecondScreen`) and a scroll never moves the focus (`FarRightKeepsTheFocus`).
- It looks into no column when nothing is focused and nothing is seen (`NoDominantView`): `FindDominantView`.

## Model

| member | source | states |
|---|---|---|
| Runs.ReachableStates | cardboard/SurfaceManager.cpp:14-36 | after any sequence of events from the start: every mapped view is in exactly one place, in its own workspace, other views nowhere, no column empty; saved state and fullscreen view agree; every output is held by exactly one workspace, besides those that are sliding out; every client was told exactly its workspace's output; the focus stack holds mapped views once each; no assertion has failed; no animation that may run is about a view that is gone |
| Runs.RunKeeps | cardboard/ViewOperations.cpp:14-54 | the invariants survive any run, whatever commands, requests, outputs, layers, switches and timer ticks it interleaves |
| Runs.NextKeeps | cardboard/commands/commands.h:184-360 | each event that can happen keeps all invariants at once |
| Runs.InvPlacesOnce | cardboard/Workspace.cpp:99-182 | placement over the whole desktop: the occurrences in all workspaces add up to one for a mapped view and to none for another |
| Runs.InvIsFullscreenConsistent | cardboard/Workspace.cpp:375-397 | a state is saved exactly while a view is fullscreen, and a workspace's fullscreen view is exactly the fullscreen view mapped in it |
| Runs.InvAssignsOutputs | cardboard/OutputManager.cpp:86-121 | workspaces are numbered by their place, and at any time every output has exactly one workspace besides those that are sliding out |
| Runs.InvTellsClients | cardboard/View.cpp:34-43 | the enters and leaves sent to a client add up to exactly the output of its workspace, or none |
| Runs.MappingIsSafeExactlyWhen | cardboard/SurfaceManager.cpp:14-25 | mapping a view keeps the invariants if and only if a workspace is under the cursor and the view is not fullscreen |
| Runs.FullscreenFailsExactlyWhen | cardboard/View.cpp:45-51 | the assertion on saving a state fails if and only if fullscreen is requested for a view that is not normal |
| Runs.DestroyingIsSafeExactlyWhen | cardboard/Output.cpp:385-399 | destroying an output keeps the invariants if and only if no second workspace is on it and no switch onto it is still being animated |
| Steps.SwitchingIsSafeExactlyWhen | cardboard/Seat.cpp:640-744 | a switch keeps the invariants if and only if the workspace is on an output already, or takes over from one under the cursor that is not itself still sliding out |
| Steps.DestroyingViewIsSafeExactlyWhen | cardboard/SurfaceManager.cpp:43-47 | destroying an unmapped view keeps the invariants if and only if none of its animations is the one a workspace waits for before it leaves its output |
| Steps.MapViewKeeps | cardboard/SurfaceManager.cpp:14-25 | mapping keeps every invariant |
| Steps.UnmapViewKeeps | cardboard/SurfaceManager.cpp:27-36 | unmapping keeps every invariant, although the view is on the focus stack without being mapped in between |
| Steps.ChangingWorkspaceKeeps | cardboard/ViewOperations.cpp:14-54 | so does moving a view to another workspace, also when both workspaces have a fullscreen view |
| Steps.TogglingKeeps | cardboard/commands/commands.h:212-253 | so does toggling, which never reads an absent saved state |
| Steps.MovingKeeps | cardboard/commands/commands.h:255-302 | so does moving a tiled or a floating view, the latter onto another output |
| Steps.InsertingKeeps | cardboard/commands/commands.h:313-336 | so does inserting into a column |
| Steps.PoppingKeeps | cardboard/commands/commands.h:338-360 | so does popping out of a column |
| Steps.RequestingKeeps | cardboard/XDGView.cpp:275-284 | so does a fullscreen request for a normal view, and any request to stop |
| Steps.CommitKeeps | cardboard/XDGView.cpp:231-248 | so does a client's new size |
| Steps.AddingOutputKeeps | cardboard/OutputManager.cpp:86-121 | so does a new output, at any time, also when a workspace has to be created for it |
| Steps.DestroyingOutputKeeps | cardboard/Output.cpp:385-399 | so does the loss of an output that just one workspace is on, also in the middle of a switch of others |
| Steps.SwitchingToKeeps | cardboard/Seat.cpp:640-770 | so does switching workspaces, whether or not anything slides, and whether or not other switches are still under way |
| Steps.ArrivingKeeps | cardboard/Seat.cpp:685-705 | so does the end of the animation of the workspace that comes in, which may come after further switches |
| Steps.DepartingKeeps | cardboard/Seat.cpp:733-737 | so does the end of the animation of the one that goes out: it is off the output then |
| Steps.CyclingKeeps | cardboard/commands/commands.h:184-210 | so does cycling the focus |
| Steps.FocusingColumnKeeps | cardboard/Seat.cpp:236-246 | so does focusing a column |
| Steps.RepositioningKeeps | cardboard/ViewOperations.cpp:73-83 | so does dragging a view |
| Steps.ScrollingKeeps | cardboard/ViewOperations.cpp:101-112 | so does scrolling a workspace |
| Steps.ChangingUsableAreaKeeps | cardboard/Layers.cpp:253-264 | so does a change of the usable area, after which the focused view is shown or the workspace laid out; the assertion that there is one does not fail |
| Steps.ResizingOutputKeeps | cardboard/Output.cpp:401-421 | so does a change of an output's mode, scale or transform |
| Steps.TakingHoldIsSafeExactlyWhen | cardboard/Seat.cpp:253-316 | taking hold of a view with the pointer keeps the invariants if and only if none of the animations it cancels is one that a workspace waits for before it leaves its output |
| Outcomes.HoldingAFloatingView | cardboard/Seat.cpp:253-316 | taking hold of a floating view stops no animation |
| Steps.SwitchCommandKeeps | cardboard/commands/commands.h:155-165 | the switch command, which lays the workspace out again, keeps them when switching does |
| Steps.MoveToCommandKeeps | cardboard/commands/commands.h:167-182 | the command that moves the focused view to a workspace keeps them always |
| Steps.UnmappingLayerKeeps | cardboard/Layers.cpp:344-353 | so does the loss of a layer |
| Steps.SettingExclusiveClientKeeps | cardboard/Seat.cpp:594-622 | so does giving one client input to itself |
| Steps.CreatingKeeps | cardboard/View.h:176-187 | so does a view that is new |
| Steps.TickingKeeps | cardboard/ViewAnimation.cpp:50-85 | so does a tick of the timer, with everything that finished animations want done being done between its tasks |
| Steps.TakingTaskKeeps | cardboard/ViewAnimation.cpp:57-82 | one round of the timer's loop, callback included, keeps every invariant and takes at most one task off the queue |
| Invariants.FocusViewKeeps | cardboard/Seat.cpp:146-213 | whatever exchange with a layer it involves, focusing changes the focus, scrolling and animations only, and keeps the stack free of duplicates and of unmapped views |
| Invariants.FocusLayerKeeps | cardboard/Seat.cpp:215-234 | the same for giving the focus to a layer or taking it away; its assertion does not fail |
| Preservation.MappingKeeps | cardboard/Workspace.cpp:99-128 | adding a view to a workspace keeps placement, fullscreen, outputs and what clients were told |
| Preservation.UnmappingKeeps | cardboard/Workspace.cpp:130-151 | so does removing it |
| Preservation.TransplantingKeeps | cardboard/ViewOperations.cpp:22-43 | so does handing over fullscreen, removing and adding, as one step |
| Preservation.RefloatingKeeps | cardboard/commands/commands.h:233-234 | so does removing and adding a view without telling its client |
| Preservation.LeavingKeeps | cardboard/Workspace.cpp:377-385 | so does ending fullscreen, and a state was saved to go back to |
| Preservation.EnteringKeeps | cardboard/Workspace.cpp:386-396 | so does beginning it |
| Preservation.SwitchingKeeps | cardboard/Workspace.cpp:404-436 | telling all views of a workspace about its new output keeps every client's outputs balanced |
| Preservation.NotifiedCores | cardboard/Workspace.cpp:404-417 | in a placed desktop exactly the mapped views of a workspace are told, each once |
| Preservation.AssignmentTakenOver | cardboard/Seat.cpp:661-744 | when a workspace takes over an output, every output is still held by exactly one workspace besides those that are sliding out, if and only if the other one was not sliding out already |
| Preservation.AssignmentDeparted | cardboard/Seat.cpp:733-737 | so it is when one that was sliding out has left |
| Preservation.AssignmentForgotten | cardboard/ViewAnimation.cpp:33-42 | when callbacks are lost, it is if and only if no departure is among them |
| Effects.UnmappingKeepsTheOrder | cardboard/Seat.cpp:128-139 | unmapping takes the view off the focus stack and leaves the order of the others alone, whatever focus changes it causes |
| Effects.MappingPutsInFront | cardboard/SurfaceManager.cpp:14-25 | a mapped view comes to the front of the stack if and only if its focus is not refused |
| Effects.TogglingSwitchesSides | cardboard/commands/commands.h:212-253 | a floating view is tiled afterwards and a tiled one floats |
| Effects.ViewArrives | cardboard/ViewOperations.cpp:14-54 | a moved view is in the other workspace, tiled or floating as before, and fullscreen there if it was |
| Outcomes.FloatingViewArrives | cardboard/ViewOperations.cpp:30-40 | a floating view that changes workspaces is in the usable area of the new output then: where it was, if that is inside, and otherwise in the middle |
| Outcomes.FullscreenViewArrives | cardboard/ViewOperations.cpp:22-43 | a fullscreen one lies right on the new output |
| Outcomes.FloatingViewChangesOutputs | cardboard/ViewOperations.cpp:57-70 | a floating view that is moved over another output goes to the first workspace on it |
| Outcomes.MovingFloats | cardboard/commands/commands.h:298 | the move command takes a floating view by dx and dy |
| Outcomes.DraggedTileFollows | cardboard/ViewOperations.cpp:73-83 | dragging a tile at rest scrolls its workspace until the tile is where the pointer has it |
| Outcomes.SwipedTileFollows | cardboard/ViewOperations.cpp:101-112 | in a swipe it follows the fingers at once, without an animation, by as many pixels as the workspace scrolls |
| Outcomes.MappingPutsBeside | cardboard/Workspace.cpp:99-116 | a new view has a column of its own right of the focused view's, or at the far end; all other lists stay as they are |
| Outcomes.MappingTakesTheSize | cardboard/SurfaceManager.cpp:14-25 | it has the size its client took, which is also the one it will float with if it is mapped for the first time |
| Outcomes.FirstSizeIsKept | cardboard/View.h:176-187 | so it is for a view that was just created |
| Outcomes.TogglingSwapsSizes | cardboard/commands/commands.h:212-253 | a view that starts to float goes behind the other floating views, one that stops into a column at the far end; its size and the one it had on the other side change places, within the saved state if it is fullscreen |
| Outcomes.InsertingTakesTheWidth | cardboard/Workspace.cpp:153-168 | the view that is inserted, the first normal one on the right, is asked for the width of the widest normal tile of its new column |
| Outcomes.NothingToPop | cardboard/commands/commands.h:338-360 | a view that is not normal, or has its column to itself, has nothing popped off |
| Outcomes.FormerFullscreenComesBack | cardboard/Workspace.cpp:375-397 | whichever view of a workspace stops or starts being fullscreen, the one that was fullscreen there is back at its saved place, asked for its saved size, and not in the layout yet |
| Outcomes.FullscreenFillsTheOutput | cardboard/Workspace.cpp:375-397 | a normal view that becomes fullscreen lies right on its output, and is asked to fill it |
| Outcomes.LayoutsAskForSizes | cardboard/Workspace.cpp:184-245 | in every reachable state, any layout of a workspace asks its tiles to keep their widths, and puts its fullscreen view right on the output |
| Outcomes.FocusingShows | cardboard/Seat.cpp:194-212 | a tile that gets the focus, or has it, is fitted on the screen as `FittingAligns` says |
| Outcomes.UnmappingShows | cardboard/Seat.cpp:128-139 | so is, condensed, the view that gets the focus when the focused one is unmapped |
| Outcomes.MappingShows | cardboard/SurfaceManager.cpp:14-25 | so is a view that is mapped |
| Outcomes.ArrivalShows | cardboard/Seat.cpp:761-768 | so is the view that gets the focus when a workspace was switched to |
| Outcomes.StayingBehindShows | cardboard/ViewOperations.cpp:45-52 | so is the one that gets it when the focused one changes workspaces |
| Outcomes.CyclingShows | cardboard/commands/commands.h:184-210 | so is the next one in a cycle |
| Outcomes.FocusingColumnShows | cardboard/Seat.cpp:236-246 | so is the one of a column that is focused |
| Outcomes.MovingShows | cardboard/commands/commands.h:295-296 | after a move the top tile of the view's column is |
| Outcomes.PoppingShows | cardboard/commands/commands.h:357-358 | after a pop the focused view is |
| Outcomes.TogglingShows | cardboard/commands/commands.h:236-250 | after toggling the view is that stopped floating, or else, condensed, the one of its workspace that was focused last |
| Outcomes.NewAreaIsUsedExactlyWhen | cardboard/Layers.cpp:253-264 | when the usable area changes, the workspace on the output is laid out, unless the focused view lives there and is no normal tile: then nothing happens |
| Outcomes.LaidOutTilesFit | cardboard/Layers.cpp:253-264 | a workspace that is laid out for it has its tiles between top and bottom of the new area |
| Outcomes.UsableAreaShows | cardboard/Layers.cpp:258-260 | a focused tile is fitted into it |
| Outcomes.ResizingLaysOut | cardboard/Output.cpp:401-421 | after a change of mode, scale or transform the workspace is laid out in any case |
| Outcomes.LostOutputIsLeft | cardboard/Output.cpp:385-399 | when an output goes away no workspace, client or cursor is on it any more, and whatever was on other outputs stays there |
| Outcomes.CommandsLayOut | cardboard/commands/commands.h:155-182 | so it is after the commands that switch to a workspace or move a view there, even if there was nothing to do |
| Outcomes.CursorIsOnTheFirst | cardboard/Seat.cpp:572-581 | the focused workspace is the first one on an output under the cursor, and there is none exactly if there is no such workspace |
| Effects.FirstFreeWorkspaceGetsTheOutput | cardboard/OutputManager.cpp:97-110 | a new output goes to the first workspace without one, or to a new one; the others keep theirs |
| Effects.SwitchingTakesTheOutput | cardboard/Seat.cpp:661-744 | switching moves the output over; the old workspace keeps it just while something of it slides, and loses it when that has finished |
| Keyboard.SwitchingFocuses | cardboard/Seat.cpp:640-770 | a switch to a workspace that is on an output, or with which nothing slides in, takes the cursor to the output and the focus to the view of the workspace that was focused last, or to nobody if there is none; otherwise that is pending; to the workspace under the cursor nothing happens |
| Keyboard.ArrivalFocuses | cardboard/Seat.cpp:685-705 | an animation that has brought a workspace in does the same when it ends |
| Keyboard.UnmappingPassesTheFocusOn | cardboard/SurfaceManager.cpp:27-36 | when the focused view is unmapped, the next one on the stack has the keyboard if and only if it is not refused, and the one that is gone keeps it if and only if the next is behind a fullscreen view or there is none; otherwise the keyboard stays where it is |
| Keyboard.FocusStaysBehind | cardboard/ViewOperations.cpp:45-52 | when a view changes workspaces the focus goes to the view of the old one that was focused last, or to nobody |
| Keyboard.MappingFocuses | cardboard/SurfaceManager.cpp:14-25 | a mapped view has the keyboard if and only if it is not refused, or still had it |
| Keyboard.CyclingFocuses | cardboard/commands/commands.h:184-210 | a cycle takes front and keyboard to the next view of the workspace |
| Keyboard.FocusingColumnFocuses | cardboard/Seat.cpp:236-246 | focusing a column does so to the normal tile of it that was focused last |
| Keyboard.FocusGoesTo | cardboard/Seat.cpp:146-213 | a view that is to be focused is in front if and only if it was or is not refused, and has the keyboard if and only if it is not refused, or had it as the focused view; a layer that has the focus gets the keyboard back |
| Keyboard.FocusGoesAway | cardboard/Seat.cpp:146-191 | when nobody is to be focused the focused view has no keyboard any more, and the stack stays |
| Keyboard.RefusedExactlyWhen | cardboard/Seat.cpp:165-195 | in every reachable state a view is refused if and only if another view of its workspace is fullscreen, and no parent of it, or another client has the input to itself |
| Keyboard.NewViewIsInFrontExactlyWhen | cardboard/Seat.cpp:146-213 | a new window that is mapped comes to the front of the stack if and only if its client may have the input and no view that is fullscreen in the cursor's workspace is missing among its parents |
| Keyboard.RefusedOnceWithdrawn | cardboard/SurfaceManager.cpp:27-36 | when a view has left, the others are refused as before, unless they were behind it |
| Keyboard.OthersAreRefused | cardboard/Seat.cpp:594-628 | once a client has the input to itself, views of other clients are refused |
| Keyboard.OwnFocusStays | cardboard/Seat.cpp:594-628 | it keeps the focus that it has |
| Keyboard.KeyboardIsInFront | cardboard/Seat.cpp:116-213 | after any sequence of events from the start a view that has the keyboard is in front of the focus stack, or not on it |
| Keyboard.NextKeepsHolder | cardboard/Seat.cpp:116-213 | every event keeps that |
| Focus.FocusedStack | cardboard/Seat.cpp:146-213 | a view that is focused comes to the front of the stack unless it is refused, with or without a layer in between |
| Focus.FocusingIsSafeExactlyWhen | cardboard/Seat.cpp:146-213 | focusing a view, mapped or not, keeps the invariants if and only if it is mapped or the focus is refused |
| Focus.SwipeFrameIsSafeExactlyWhen | cardboard/Seat.cpp:515-549 | a frame of a kinetic scroll keeps them if and only if it does not end the scroll, or may focus the view that was dominant |
| Focus.PlainSeat | cardboard/Seat.cpp:157-213 | which of stack and keyboard a focus change without a layer changes, in every case |
| Focus.LayerGetsTheFocusBack | cardboard/Seat.cpp:148-156 | after refocusing a view the layer has focus and keyboard again if and only if it is mapped on the TOP or OVERLAY layer |
| Focus.ViewGetsTheKeyboardBack | cardboard/Layers.cpp:344-353 | when the focused layer is unmapped the keyboard goes to the front of the stack if and only if that is not refused |
| Keyboard.UnfocusedLayerGoes | cardboard/Layers.cpp:344-353 | a layer that is unmapped without having the focus leaves stack and keyboard alone |
| Focus.ExclusiveClientHasTheKeyboard | cardboard/Seat.cpp:594-622 | when a client gets the input to itself, a surface of another one has the keyboard afterwards if and only if it had it before and either the stack is empty or neither the view in front nor the focused layer is another client's |
| Focus.CycleRotates | cardboard/commands/commands.h:184-210 | a cycle rotates the views of the cursor's workspace and keeps the others' order if and only if the focus is not refused |
| Focus.CyclesVisitEachOnce | cardboard/commands/commands.h:184-210 | k cycles over k views bring each of them to the front exactly once and restore the order |
| Focus.CyclesRotate | cardboard/commands/commands.h:184-210 | k cycles rotate by k |
| RoundTrip.FullscreenRoundTrip | cardboard/Workspace.cpp:375-397 | fullscreen, any sizes one after the other, back, any more sizes, and the old size again: every tile has the target and requested size it would have had, if and only if the client had another size when it stopped being fullscreen or afterwards |
| RoundTrip.ContractedView | cardboard/Workspace.cpp:377-385 | when it stops being fullscreen the view has its saved position and requested size back, whatever sizes its client took, and is out of the layout |
| Outcomes.NothingJumps | cardboard/Workspace.cpp:221-232 | whatever a layout animates starts right where it is, and is not over at once |
| Outcomes.SlidesStartHere | cardboard/Seat.cpp:665-727 | so does whatever slides in or out, the former from where it was put off to |
| Switching.SwitchSettles | cardboard/Seat.cpp:665-675 | after a switch the last animation of every normal tile that slides in ends exactly where the layout put it |
| Switching.SwitchedAway | cardboard/Seat.cpp:677-727 | the last animation of a floating view of the workspace that goes out ends where the view was before the switch, that of a normal tile as far away as the switch slides |
| Switching.OutgoingLeavesTheScreen | cardboard/Seat.cpp:649-655 | a tile of the workspace that goes out slides out of the usable area altogether: up if the new one has the higher number, and down if not |
| Switching.IncomingStartsOutside | cardboard/Seat.cpp:667-675 | a tile of the one that comes in starts outside of it, on the other side |
| Rearranging.MoveIsAPermutation | cardboard/commands/commands.h:264-293 | a move loses and duplicates nothing and leaves no column empty |
| Rearranging.MoveSteps | cardboard/commands/commands.h:264-293 | with dx positive the column changes places with the one on its right, with dx negative with the one on its left, if there is one; with dy positive the tile does with the one above, with dy negative with the one below, around the ends; nothing else moves |
| Commands.MovingSteps | cardboard/commands/commands.h:255-302 | the command does just that to the workspace of the focused view, and nothing to the others |
| Rearranging.MoveBack | cardboard/commands/commands.h:264-293 | moving back restores the shape if and only if there was no column step, a column on the side it went to, or no other column at all; wraparound inside a column is undone |
| Rearranging.PopThenInsert | cardboard/commands/commands.h:313-360 | popping, then inserting restores the shape if and only if the focused view was not the bottom one |
| Rearranging.InsertThenPop | cardboard/commands/commands.h:313-360 | inserting, then popping restores it if and only if the absorbed column was a single tile |
| Commands.MoveBackFocused | cardboard/commands/commands.h:255-302 | two move commands in opposite directions restore the shape of the focused view's workspace, and leave seat and other workspaces alone, under just that condition |
| Commands.PopThenInsertFocused | cardboard/commands/commands.h:313-360 | so do the commands pop and insert, one after the other |
| Commands.InsertThenPopFocused | cardboard/commands/commands.h:313-360 | and the commands insert and pop |
| Rearranging.StepTileBack | cardboard/commands/commands.h:277-293 | swapping a tile up and down again is the identity, around the ends too |
| Rearranging.PopKeepsDistinct | cardboard/Workspace.cpp:170-182 | popping tiles no view twice |
| Rearranging.InsertKeepsDistinct | cardboard/Workspace.cpp:153-168 | nor does inserting |
| Rearranging.PopSplits | cardboard/Workspace.cpp:170-182 | removing and adding put the bottom tile right beside its old column |
| Rearranging.InsertAppends | cardboard/Workspace.cpp:153-168 | removing and pushing put the tile at the bottom of the column, although columns may have moved in between |
| Columns.RemoveViewCount | cardboard/Workspace.cpp:140-147 | removing a view removes it and nothing else |
| Columns.AddColumnCount | cardboard/Workspace.cpp:109-115 | adding a column adds its view and nothing else |
| Columns.InsertIntoColumnCount | cardboard/Workspace.cpp:159-160 | inserting into a column loses and duplicates nothing |
| Columns.PopFromColumnCount | cardboard/Workspace.cpp:176-179 | nor does popping |
| Columns.SurgeryKeepsColumnsFull | cardboard/Workspace.cpp:143-146 | no operation leaves a column empty |
| Layout.LayoutSoundness | cardboard/Workspace.cpp:184-245 | after the layout the clients of normal tiles are asked to keep their widths and to fill disjoint boxes, columns and tiles a gap apart, every column's stack with its gaps inside the usable height |
| Layout.TilesDisjoint | cardboard/Workspace.cpp:217-240 | the target boxes of two normal tiles share no pixel |
| Layout.ColumnsApart | cardboard/Workspace.cpp:243 | a later column starts a gap right of everything in an earlier one |
| Layout.ColumnFits | cardboard/Workspace.cpp:215-240 | the stack of a column, with its gaps, stays inside the usable height |
| Layout.RoundingLoss | cardboard/Workspace.cpp:200-240 | a column of normal tiles loses fewer pixels to rounding than it has tiles |
| Layout.ArrangedAim | cardboard/Workspace.cpp:217-238 | every normal tile aims at its window box, and its client is asked to fill just that |
| Layout.SameWindowBox | cardboard/Workspace.cpp:184-245 | the layout depends on the sizes of views and nothing else of them |
| Placing.ColumnsStandInARow | cardboard/Workspace.cpp:199-244 | the first column starts where the scroll says, every other one a gap right of the one before, which is as wide as its widest normal tile; every tile starts where its column does |
| Placing.TilesStandInAColumn | cardboard/Workspace.cpp:215-241 | the first normal tile is a gap below the top of the usable area, and every other one a gap below the one before |
| Placing.HeightsAreAsTheScales | cardboard/Workspace.cpp:203-238 | up to a pixel of rounding the heights of the tiles of a column are to each other as their scales |
| Placing.OnlyFullscreenIsCovering | cardboard/Workspace.cpp:194-197 | whatever the offset of its window, the fullscreen view lies right on the output and is asked to fill it; other views that are no normal tiles are left alone |
| Placing.TilesMoveUnlessAnimated | cardboard/Workspace.cpp:225-232 | a tile is at its target at once, or stays where it is if it is to be animated there |
| Placing.ScrollingMovesTheRow | cardboard/Workspace.cpp:222-223 | scrolling by some pixels moves every tile by as many the other way, and changes nothing else |
| Scrolling.OffsetsAgree | cardboard/Workspace.cpp:354-373 | the offset search never overshoots the layout and agrees with it if and only if every earlier column ends on one of its widest normal tiles |
| Scrolling.UniformColumnAgrees | cardboard/Workspace.cpp:354-373 | a column with a normal tile and one width is such a column |
| Scrolling.FitShowsTheView | cardboard/Workspace.cpp:247-283 | fitting shows a view that is small enough if and only if it was condensed onto an end, seen overflowing, or shown already |
| Scrolling.FittingAligns | cardboard/Workspace.cpp:259-280 | a fitted view is half a gap right of the left edge of the usable area, half a gap left of its right edge, or not moved at all, by which end it is condensed onto and on which side it is seen overflowing; too far right by just what the two offsets differ |
| Scrolling.FitWorksAtTheOrigin | cardboard/Workspace.cpp:247-283 | on an output at the left edge without a panel on its left fitting always works |
| Scrolling.FitMissesAViewUnderAPanel | cardboard/Workspace.cpp:254-280 | a state in which it does not |
| Scrolling.FitTwice | cardboard/Workspace.cpp:247-283 | a second call changes neither scroll nor targets, when the first showed the view on an output at the left edge or condensed it onto an end |
| Animation.InterpolationStaysBetween | cardboard/ViewAnimation.cpp:44-72 | a written coordinate never leaves the interval from start to target, truncation included |
| Animation.InterpolationIsMonotone | cardboard/ViewAnimation.cpp:44-72 | written coordinates move monotonically from start to target |
| Animation.RetiringWritesTheTarget | cardboard/ViewAnimation.cpp:66-80 | below a second, the tick that retires an animation writes exactly its target |
| Animation.FinishedMeansElapsed | cardboard/ViewAnimation.cpp:64-74 | an animation retires exactly when its whole duration has passed |
| AnimationQueue.FinishedOnTheClock | cardboard/ViewAnimation.cpp:57-74 | that is when a million times its milliseconds have passed on a clock of nanoseconds |
| Animation.BlendEasesInAndOut | cardboard/ViewAnimation.cpp:44-48 | an animation is behind a steady one in its first half, mirrors that in the second, and hardly moves near both ends |
| Animation.InterpolationMirrors | cardboard/ViewAnimation.cpp:44-72 | so do the written coordinates, up to a pixel |
| Animation.InterpolationStartsSlowly | cardboard/ViewAnimation.cpp:44-72 | in the first half they are never ahead of a steady movement |
| AnimationRuns.AnimationsSettle | cardboard/ViewAnimation.cpp:21-85 | over any run of layouts at any time, slides, changes of views, cancellations and ticks, with layouts also in the middle of ticks: when the queue has drained every view that was last moved by an animation towards its target rests exactly there; a tick a full duration later drains it |
| Tidiness.TilesStandApart | cardboard/Workspace.cpp:184-245 | after any run of the desktop's events from the start that meets the conditions of `NextTidiesExactlyWhen` and `NextHome`, and a tick a full duration later, the windows of any two normal tiles of a workspace that is on an output to stay are on the screen where they do not overlap, a gap apart and inside the usable height, for clients that have taken the size they were asked for |
| Tidiness.TilesAimApart | cardboard/Workspace.cpp:184-245 | at any moment of such a run the boxes these windows head for do not overlap, and every tile is asked for its own width |
| Tidiness.NextTidiesExactlyWhen | cardboard/commands/commands.h:155-360 | if laying out any workspace on an output again would change no target and no requested size, that is still so after an event, if and only if the event is not a new or changed output that a workspace on it was not laid out for and does not happen to fit |
| Tidiness.ArrangingMends | cardboard/Workspace.cpp:184-245 | a layout of one workspace leaves nothing to lay out if and only if there was nothing in all others |
| Tidiness.MappingTidies | cardboard/SurfaceManager.cpp:14-25 | a view that is mapped is laid out, and so are the tiles that make room for it |
| Tidiness.UnmappingTidies | cardboard/SurfaceManager.cpp:27-36 | the tiles that close the gap of an unmapped view are |
| Tidiness.CommittingTidies | cardboard/XDGView.cpp:231-248 | so are those around a view whose client has taken a new size |
| Tidiness.RequestingTidies | cardboard/Workspace.cpp:375-397 | so are those that a fullscreen view leaves behind or joins |
| Tidiness.ChangingWorkspaceTidies | cardboard/ViewOperations.cpp:14-54 | both the workspace that a view leaves and the one it goes to are, and so is the layout behind a fullscreen view that it hands over |
| Tidiness.TogglingTidies | cardboard/commands/commands.h:212-253 | so are the tiles around a view that starts or stops floating |
| Tidiness.MovingTidies | cardboard/commands/commands.h:255-302 | so are the tiles that change places |
| Tidiness.InsertingTidies | cardboard/commands/commands.h:313-336 | so are the columns a tile goes from and to, with its new width |
| Tidiness.PoppingTidies | cardboard/commands/commands.h:338-360 | so are the columns a tile is popped out of and into |
| Tidiness.RepositioningTidies | cardboard/ViewOperations.cpp:73-112 | dragging a tile or a floating view leaves nothing to lay out |
| Tidiness.SwitchingTidies | cardboard/Seat.cpp:640-770 | a workspace that comes in has been laid out for its new output before it slides, and nothing that slides forgets its place |
| Tidiness.TickingTidies | cardboard/ViewAnimation.cpp:50-85 | a tick, with all that finished animations want done, leaves nothing to lay out |
| Tidiness.AddingOutputTidiesExactlyWhen | cardboard/OutputManager.cpp:86-121 | nor does a new output, if and only if the tiles of the workspace that gets it are in their places for it already, as those of a new workspace are |
| Tidiness.ChangingUsableAreaTidiesExactlyWhen | cardboard/Layers.cpp:253-264 | nor does a new usable area, if and only if all workspaces on the output fit into it already besides the first one, and also that one when the focused view lives there without taking part in the layout |
| Tidiness.ResizingTidiesExactlyWhen | cardboard/Output.cpp:401-421 | nor does another mode, if and only if all workspaces on the output besides the first one fit into it already |
| Tidiness.AloneOnItsOutput | cardboard/OutputManager.cpp:86-121 | they do when the first one has the output to itself |
| Homecoming.TilesAreHomebound | cardboard/Workspace.cpp:200-232 | in every state that a run of the desktop's events reaches, each normal tile of a workspace that is on an output to stay rests where it was last laid out, or the last of its animations goes there; when no animation is left it rests there. The run meets the conditions of `PuttingDownExactlyWhen`, `AddingOutputHomeExactlyWhen` and `TickingHome` |
| Homecoming.TilesComeToRest | cardboard/ViewAnimation.cpp:50-85 | a tick a full duration later ends all animations, workspaces that wait for them leave their outputs, and every such tile rests where it was last laid out |
| Homecoming.NextHome | cardboard/commands/commands.h:184-360 | each event leads all such tiles home |
| Homecoming.PuttingDownExactlyWhen | cardboard/ViewOperations.cpp:101-112 | a scroll without animation leads all such tiles home if and only if what still moves them moves them to where they are put now |
| Homecoming.HeldTilesLand | cardboard/Seat.cpp:264-276 | after the pointer took hold of a tile, scrolling without animation always meets that condition: that is what the cancelling is for |
| Homecoming.AddingOutputHomeExactlyWhen | cardboard/OutputManager.cpp:86-111 | a new output leads them home if and only if the tiles of the workspace that gets it were already, since it is not laid out |
| Homecoming.TickingHome | cardboard/ViewAnimation.cpp:50-85 | a tick, callbacks included, leads them home if, whenever the focus follows a workspace that has slid in, no tile laid out for that has an older animation that the tick has still to take and that goes on afterwards |
| Homecoming.TakenOverHome | cardboard/Seat.cpp:646-744 | so does a switch: the tiles that slide in, and those of workspaces that it does not concern, go where they should be |
| Homecoming.MappingHome | cardboard/SurfaceManager.cpp:14-25 | so does mapping a view, which heads for its first place |
| Homecoming.ChangingWorkspaceHome | cardboard/ViewOperations.cpp:14-54 | so does moving a view to another workspace, also a fullscreen one |
| Homecoming.LateTickKeepsHomebound | cardboard/ViewAnimation.cpp:50-85 | such a late tick leaves a normal view on its target if and only if its last animation, or its place, was there |
| Homeward.PunctualArrangingLeads | cardboard/Workspace.cpp:187-283 | a layout, between ticks or in the middle of one, leads the tiles of its workspace home, and no other view away |
| Homeward.FocusingHeads | cardboard/Seat.cpp:146-213 | a change of focus, whatever exchange with a layer it involves, leads no view away |
| AnimationRuns.RunPreserves | cardboard/ViewAnimation.cpp:21-85 | at any time, such a view will be, at the end of the tick under way, at its latest target, or its last live animation aims there |
| AnimationRuns.RelaidRestsExactlyWhen | cardboard/ViewAnimation.cpp:57-82 | a view laid out by a callback in the middle of a tick rests on its target in the end if and only if the tick has no unfinished older animation of it still to take, or the last of these goes to the same place |
| AnimationRuns.RelaidSettlesExactlyWhen | cardboard/Workspace.cpp:217-232 | the same for where the view is heading after that tick |
| AnimationRuns.StragglersGiveWay | cardboard/ViewAnimation.cpp:57-82 | older animations behind a newer one do no harm if a tick ends them while the newer one goes on |
| AnimationRuns.TickComesToItsEnd | cardboard/ViewAnimation.cpp:56-83 | taking and pushing back as many tasks as the queue held runs each of them once, in order, and keeps the unfinished ones in order behind what was queued meanwhile |
| AnimationRuns.TickOutcome | cardboard/ViewAnimation.cpp:50-85 | what a tick does to a view is decided by its last live animation, and when that is finished none of the view's is left |
| AnimationRuns.UnanimatedPlacement | cardboard/Workspace.cpp:221-232 | a view placed without animation is still there when the queue has drained if and only if its last live animation, if any, was going there |
| AnimationQueue.ViewAnimation.EnqueueTask | cardboard/ViewAnimation.cpp:21-31 | one animation from where the view is goes to the back of the queue, with what is to be done after it |
| AnimationQueue.ViewAnimation.CancelTasks | cardboard/ViewAnimation.cpp:33-42 | every animation of the view is cancelled, and it jumps to its target if it had any |
| AnimationQueue.ViewAnimation.TakeTask | cardboard/ViewAnimation.cpp:58-81 | the body of the timer's loop: the animation in front moves its view and goes to the back, or is done and says what it wants done |
| AnimationQueue.FrontRunPending | cardboard/ViewAnimation.cpp:57-82 | of everything that is to be done after animations, a round of the loop takes just what it returns |
| AnimationQueue.SurfaceManager.RemoveView | cardboard/SurfaceManager.cpp:43-47 | a destroyed view leaves no animation behind that may run |
| WorkspaceModule.NextTile | cardboard/Workspace.cpp:40-48 | the iterator goes on to the next normal tile or the end, skipping none |
| WorkspaceModule.BeginTiles | cardboard/Workspace.cpp:60-68 | it starts at the first normal tile of a column that is not empty |
| WorkspaceModule.Workspace.FindColumnOf | cardboard/Workspace.cpp:75-83 | the first column that holds the view, or the end |
| WorkspaceModule.Workspace.FindFloating | cardboard/Workspace.cpp:85-97 | its first place in the floating list, or the end |
| WorkspaceModule.Workspace.GetViewWx | cardboard/Workspace.cpp:354-373 | the loop computes the sum `OffsetsAgree` is about |
| WorkspaceModule.Workspace.ArrangeWorkspace | cardboard/Workspace.cpp:184-245 | the nested loops compute the layout that `LayoutSoundness`, `ColumnsStandInARow` and `OnlyFullscreenIsCovering` are about, and queue the animations that `RelaidSettlesExactlyWhen` is about |
| WorkspaceModule.Workspace.ArrangeColumn | cardboard/Workspace.cpp:200-244 | one column of it: the weights are summed before any tile is placed |
| WorkspaceModule.Workspace.PlaceTile | cardboard/Workspace.cpp:222-238 | one tile is asked to fill the box that `ArrangedAim` says, with the width it has; it is animated there, or is there at once |
| WorkspaceModule.Workspace.SumScales | cardboard/Workspace.cpp:203-210 | the sum of the weights of all normal tiles |
| WorkspaceModule.Workspace.CoverOutput | cardboard/Workspace.cpp:194-197 | the fullscreen view covers the output, as `OnlyFullscreenIsCovering` says, before any tile is placed |
| WorkspaceModule.Workspace.EmplaceColumn | cardboard/Workspace.cpp:109-115 | the new column is right of the one that holds the neighbour, or at the end |
| WorkspaceModule.Workspace.InsertFloating | cardboard/Workspace.cpp:103-107 | the new floating view is right behind its neighbour, or at the end |
| WorkspaceModule.Workspace.RemoveFromColumns | cardboard/Workspace.cpp:140-147 | the column of the view loses its tile, or goes away with it |
| WorkspaceModule.Workspace.MaxWidth | cardboard/Workspace.cpp:155-158 | the width of the widest normal tile of a column |
| WorkspaceModule.Workspace.TransferTo | cardboard/Workspace.cpp:159-165 | taking the view out and pushing it keeps the target column in view, wherever it moved |
| WorkspaceModule.Workspace.NewScroll | cardboard/Workspace.cpp:265-280 | the branches that choose the scroll, which puts the view where `FittingAligns` says |
| WorkspaceModule.Workspace.LeaveFullscreen | cardboard/Workspace.cpp:377-383 | the view goes back to the saved place and asks for the saved size |
| WorkspaceModule.Workspace.SaveAndExpand | cardboard/View.cpp:45-51 | place and size are saved, or the assertion fails |
| WorkspaceModule.Workspace.NotifyAll | cardboard/Workspace.cpp:406-414 | the loops over tiles and floating views tell each occurrence once |
| WorkspaceModule.Workspace.AddView | cardboard/Workspace.cpp:99-128 | the workspace and the views after adding, for a new and for a transferred view |
| WorkspaceModule.Workspace.RemoveView | cardboard/Workspace.cpp:130-151 | the same after removing |
| WorkspaceModule.Workspace.InsertIntoColumn | cardboard/Workspace.cpp:153-168 | the view is at the bottom of the column, as wide as its widest normal tile |
| WorkspaceModule.Workspace.PopFromColumn | cardboard/Workspace.cpp:170-182 | the bottom tile is in a column of its own on the right of the top tile's |
| WorkspaceModule.Workspace.FitViewOnScreen | cardboard/Workspace.cpp:247-283 | the scroll that `FittingAligns` and `FitShowsTheView` are about, and the layout after it |
| WorkspaceModule.Workspace.SetFullscreenView | cardboard/Workspace.cpp:375-397 | the old fullscreen view goes back, the new one saves its place, and the workspace is laid out |
| WorkspaceModule.Workspace.Activate | cardboard/Workspace.cpp:404-417 | every view is told about the new output, tiles column by column, then floating views |
| WorkspaceModule.Workspace.Deactivate | cardboard/Workspace.cpp:419-436 | every view is told that it left, if the workspace was on an output |
| Tiling.ArrangeKeeps | cardboard/Workspace.cpp:184-245 | a layout changes no view's mapping, fullscreen state, workspace, size or log, and queues animations of known views only |
| Tiling.FitKeeps | cardboard/Workspace.cpp:247-283 | fitting changes the scroll and the layout only |
| Tiling.WithViewOccurrences | cardboard/Workspace.cpp:99-116 | adding a view adds one occurrence of it, tiled or floating, and nothing else |
| Tiling.WithoutViewOccurrences | cardboard/Workspace.cpp:140-148 | removing it leaves none, and every other view |
| Tiling.NotifiedOnce | cardboard/Workspace.cpp:404-417 | a view that occurs once is told once |
| Tiling.FloatingGoesBehind | cardboard/Workspace.cpp:101-107 | a floating view goes right behind its neighbour, or to the end |
| Views.ToldMovesTheSurface | cardboard/View.cpp:34-43 | a client that is on exactly the old output is told to be on exactly the new one |
| Views.ToldNeverOnTwo | cardboard/View.cpp:34-43 | on the way it is never on both: it leaves the one before it enters the other, and does not leave the one it stays on |
| ServerModule.Server.GetFocusedView | cardboard/Seat.cpp:116-126 | the front of the stack, unless nothing has the keyboard |
| ServerModule.Server.GetFocusedWorkspace | cardboard/Seat.cpp:572-581 | the first workspace whose output holds the cursor |
| ServerModule.Server.FocusView | cardboard/Seat.cpp:146-213 | terminates by a measure on the focused layer, and reaches the state that `FocusedStack` and `LayerGetsTheFocusBack` are about |
| ServerModule.Server.FocusLayer | cardboard/Seat.cpp:215-234 | terminates by the same measure, and reaches the state that `FocusLayerKeeps` and `ViewGetsTheKeyboardBack` are about |
| ServerModule.Server.FocusColumn | cardboard/Seat.cpp:236-246 | the last focused normal view of the column is focused |
| ServerModule.Server.FocusWithoutLayer | cardboard/Seat.cpp:157-213 | the part of focusing without a layer: the seat afterwards is what `PlainSeat` says |
| ServerModule.Server.GiveLayerFocus | cardboard/Seat.cpp:229-233 | the keyboard goes to the layer, the focus only if it is above the views |
| ServerModule.Server.IsHiddenByFullscreen | cardboard/Seat.cpp:165-174 | the view is behind a fullscreen view it is not transient for |
| ServerModule.Server.IsInputAllowed | cardboard/Seat.cpp:624-628 | no other client has input to itself |
| ServerModule.Server.PutInFront | cardboard/Seat.cpp:196-201 | the view is at the front of the stack, once; the others keep their order |
| ServerModule.Server.RemoveFromFocusStack | cardboard/Seat.cpp:248-251 | every occurrence is unlinked, one after the other: the view is on the stack no more, every other view as often as before, and in the same order |
| ServerModule.Server.HideView | cardboard/Seat.cpp:128-139 | the last focused other mapped view is focused: `UnmappingPassesTheFocusOn` says who has the keyboard then |
| ServerModule.Server.IsTransientFor | cardboard/XDGView.cpp:96-113 | the walk up the parents finds the ancestor if it is there |
| ServerModule.Server.MapView | cardboard/SurfaceManager.cpp:14-25 | in place, with or without a workspace under the cursor: reaches the state that `MappingPutsInFront` and `MappingIsSafeExactlyWhen` are about, and keeps the invariants whenever that is safe |
| ServerModule.Server.UnmapView | cardboard/SurfaceManager.cpp:27-36 | in place: keeps the invariants and reaches the state that `UnmappingKeepsTheOrder`, `UnmappingPassesTheFocusOn` and `UnmappingShows` are about |
| ServerModule.Server.SurfaceDestroyed | cardboard/SurfaceManager.cpp:43-47 | in place: the view is forgotten, and no animation of it can run any more; the invariants survive if no workspace waited for one |
| ServerModule.Server.ChangeViewWorkspace | cardboard/ViewOperations.cpp:14-54 | in place: keeps the invariants and reaches the state that `ViewArrives` is about; the focus stays behind |
| ServerModule.Server.AddUnderCursor | cardboard/SurfaceManager.cpp:14-25 | the view gets a tile next to the focused view in the workspace under the cursor, if there is one |
| ServerModule.Server.Receive | cardboard/ViewOperations.cpp:22-40 | the new workspace makes room for a fullscreen view, or takes a floating one onto its output |
| ServerModule.Server.HandOver | cardboard/ViewOperations.cpp:22-28 | a fullscreen view replaces the fullscreen view of its new workspace |
| ServerModule.Server.PullOnto | cardboard/ViewOperations.cpp:30-40 | a floating view that is elsewhere goes to the middle of the new output |
| ServerModule.Server.Rehome | cardboard/ViewOperations.cpp:42-43 | the view leaves one workspace for the other |
| ServerModule.Server.ReconfigureViewPosition | cardboard/ViewOperations.cpp:73-83 | dragging scrolls under a tiled view, and moves a floating one, to another workspace if need be |
| ServerModule.Server.FloatView | cardboard/ViewOperations.cpp:57-70 | a floating view on another output goes to the workspace of that output |
| ServerModule.Server.ScrollWorkspace | cardboard/ViewOperations.cpp:101-112 | the workspace is scrolled and laid out |
| ServerModule.Server.ToggleFloating | cardboard/commands/commands.h:212-253 | in place: keeps the invariants and reaches the state that `TogglingSwitchesSides` is about |
| ServerModule.Server.SwapSizes | cardboard/commands/commands.h:223-231 | floating and tiled size change places, in the saved state if the view is fullscreen |
| ServerModule.Server.Refloat | cardboard/commands/commands.h:221-234 | the view changes sides within its workspace |
| ServerModule.Server.FindAbsorbed | cardboard/commands/commands.h:323-332 | the first normal tile of the column on the right, if any |
| ServerModule.Server.SwapColumn | cardboard/commands/commands.h:265-275 | a column and its neighbour change places, on the side that `MoveSteps` says, if there is one |
| ServerModule.Server.SwapTile | cardboard/commands/commands.h:277-293 | a tile and the one above or below it do, around the ends, as `MoveSteps` says |
| ServerModule.Server.Move | cardboard/commands/commands.h:255-302 | in place: keeps the invariants; a tiled view moves as `MovingSteps` says and its column is shown as `MovingShows` says, a floating one moves by dx and dy |
| ServerModule.Server.InsertIntoColumn | cardboard/commands/commands.h:313-336 | in place: keeps the invariants; the first normal tile of the column on the right is taken in, if there is one |
| ServerModule.Server.PopFromColumn | cardboard/commands/commands.h:338-360 | in place: keeps the invariants; a normal tiled focused view has the bottom tile of its column popped and stays in sight |
| ServerModule.Server.FocusCycle | cardboard/commands/commands.h:184-210 | in place: keeps the invariants and reaches the state that `CycleRotates` is about |
| ServerModule.Server.ToplevelRequestFullscreen | cardboard/XDGView.cpp:275-284 | in place, for a view in any state: reaches the states that `FullscreenRoundTrip` and `FullscreenFailsExactlyWhen` are about, and keeps the invariants whenever the assertion holds |
| ServerModule.Server.SurfaceCommit | cardboard/XDGView.cpp:231-248 | a new size is taken, a recovering view is normal again, and the workspace is laid out |
| ServerModule.Server.OutputAdded | cardboard/OutputManager.cpp:86-121 | in place: keeps the invariants; the search loop finds or creates the workspace that `FirstFreeWorkspaceGetsTheOutput` names |
| ServerModule.Server.CreateWorkspace | cardboard/OutputManager.cpp:117-121 | a new object at the end, numbered by its place |
| ServerModule.Server.FindWorkspaceOn | cardboard/OutputManager.cpp:98-104 | the first workspace on an output, or on none |
| ServerModule.Server.UsableAreaChanged | cardboard/Layers.cpp:253-264 | in place: keeps the invariants; if the usable area is another, the focused view is shown if it lives in the workspace on the output, and otherwise that workspace is laid out, with the effect that `NewAreaIsUsedExactlyWhen` states |
| ServerModule.Server.ArrangeOutput | cardboard/Output.cpp:62-70 | the workspace on the output, if any, is laid out |
| ServerModule.Server.OutputResized | cardboard/Output.cpp:401-421 | in place: keeps the invariants; both, in this order |
| ServerModule.Server.OutputDestroyed | cardboard/Output.cpp:385-399 | in place: the first workspace on the output, and no other, is taken off it; the invariants survive whenever `DestroyingIsSafeExactlyWhen` says so |
| ServerModule.Server.FocusWorkspace | cardboard/Seat.cpp:640-770 | in place, from any state that meets the invariants: reaches the state that `SwitchingTakesTheOutput`, `SwitchSettles` and `SwitchedAway` are about, the focus following at once or in a callback to the view that `SwitchingFocuses` names, and keeps the invariants whenever that is safe |
| ServerModule.Server.TakeOverOutput | cardboard/Seat.cpp:646-744 | activation, layout and both slides in the order of the code |
| ServerModule.Server.CollectNormalTiles | cardboard/Seat.cpp:667-668 | the views of all normal tiles, column by column |
| ServerModule.Server.SlideWorkspaceIn | cardboard/Seat.cpp:667-712 | tiles and floating views are put off and animated back; the last animation brings the focus along |
| ServerModule.Server.SlideWorkspaceOut | cardboard/Seat.cpp:714-744 | the old workspace slides away, to leave with its last animation, or leaves at once if nothing of it slides |
| ServerModule.Server.WorkspaceSwitch | cardboard/commands/commands.h:155-165 | in place: the switch, and the layout after it; a number that is none of a workspace changes nothing |
| ServerModule.Server.WorkspaceMove | cardboard/commands/commands.h:167-182 | in place: keeps the invariants; the focused view goes to the workspace, which is laid out again |
| ServerModule.Server.TakeHold | cardboard/Seat.cpp:253-316 | in place: the animations of all tiles around a tiled view are cancelled, one after the other, and the tiles put on their targets; the invariants survive if and only if `TakingHoldIsSafeExactlyWhen` says so |
| ServerModule.Server.ArrivalFinished | cardboard/Seat.cpp:685-705 | cursor and focus follow, the latter to the view that `ArrivalFocuses` names |
| ServerModule.Server.DepartureFinished | cardboard/Seat.cpp:733-737 | the old workspace leaves the output |
| ServerModule.Server.SetExclusiveClient | cardboard/Seat.cpp:594-622 | layers and views of other clients give up the focus: the state is the one `ExclusiveClientHasTheKeyboard` is about |
| ServerModule.Server.LayerUnmapped | cardboard/Layers.cpp:344-353 | a layer that had the focus gives it up |
| ServerModule.Server.AnimationTick | cardboard/ViewAnimation.cpp:50-85 | the whole loop of the timer, with callbacks between its tasks: it keeps the invariants, the queue never runs out, and no view it moves is gone |
| ServerModule.Server.RunTask | cardboard/ViewAnimation.cpp:57-82 | one round of it: a task runs, and what it wants done is done before the next one |
| ServerModule.InvIsWellFormed | cardboard/Workspace.cpp:200-215 | in every reachable state what the methods of a workspace rely on holds: distinct views, no empty column, known views and outputs |
| Swipe.KineticScrollStops | cardboard/Seat.cpp:515-549 | once fingers lift from a swipe that moved, the scroll ends within twenty-two frames per decimal digit of its starting speed |
| Swipe.GrabEnds | cardboard/Seat.cpp:515-549 | whatever views are dominant on the way, the grab of the seat is over after that many frames |
| Swipe.GrabFollowsScroll | cardboard/Seat.cpp:515-549 | until then it holds the scroll and the last dominant view that was found |
| Swipe.StopsExactlyWhenMoved | cardboard/Seat.cpp:515-549 | it ends at all if and only if the fingers had moved |
| Swipe.TravelIsBounded | cardboard/Seat.cpp:526-541 | it travels at most ten times its starting speed, and never back |
| Swipe.AfterFrames | cardboard/Seat.cpp:526-541 | speed and scroll after n frames in closed form |
| Swipe.ScrollFollowsFingers | cardboard/Seat.cpp:444-541 | however many movements there were between two frames, the workspace goes twice as far as three or more fingers did, the other way; when they rest it goes on a tenth slower, and with fewer fingers it ends |
| Swipe.EndsNearlyThere | cardboard/Seat.cpp:526-548 | when it ends, less than ten pixels are left of its way |
| Swipe.SeatGrab.BeginWorkspaceScroll | cardboard/Seat.cpp:324-339 | the scroll starts at the workspace's own |
| Swipe.SeatGrab.ProcessSwipeUpdate | cardboard/Seat.cpp:444-452 | movement adds to the delta at twice its size; fewer than three fingers end the grab |
| Swipe.SeatGrab.ProcessSwipeEnd | cardboard/Seat.cpp:478-484 | lifting asks the scroll to stop |
| Swipe.SeatGrab.EndTouchpadSwipe | cardboard/Seat.cpp:507-513 | only a scrolling grab is ended |
| Swipe.SeatGrab.Advance | cardboard/Seat.cpp:526-531 | the scroll moves on by the speed of the fingers, if they moved, or by its own |
| Swipe.SeatGrab.SlowDown | cardboard/Seat.cpp:533-545 | a dominant view that was found replaces the one before, friction takes a tenth of the speed, and the scroll has ended exactly when it is slow and the fingers are lifted |
| ServerModule.Server.UpdateSwipe | cardboard/Seat.cpp:515-549 | one frame: the workspace is at the truncation of the scroll and laid out without animation, the dominant view of that layout is remembered, and it is focused, and the grab over, exactly when the frame ends the scroll; the invariants survive if and only if the view that is then focused may be |
| ServerModule.Server.ScrollOn | cardboard/Seat.cpp:526-535 | the first part of it, up to the search for the dominant view |
| Dominant.FindDominantView | cardboard/Workspace.cpp:285-352 | the focused view stays unless the best seen column beats its own by a hundredth; then it is that column's last focused view; there is no column to look into exactly when nothing is focused and nothing is seen |
| Dominant.VisibilityIsTheShareSeen | cardboard/Workspace.cpp:312-325 | what a column is judged by is the share of its pixels that lie in the usable area |
| Dominant.WidthDecidesExactlyWhen | cardboard/Workspace.cpp:296-325 | that is the part of its width that is seen, as the comment of the code has it, if and only if nothing is seen or the left edge of the usable area, with what the client draws above its window, is where its top edge is |
| Dominant.NothingIsSeenFarRight | cardboard/Workspace.cpp:312-325 | on an output whose left edge is as far right as its bottom edge is down, nothing is seen of any column |
| Dominant.FarRightKeepsTheFocus | cardboard/Workspace.cpp:285-352 | there the search keeps the focused view, and looks into a column that is not there exactly when there is none |
| Dominant.JudgeColumns | cardboard/Workspace.cpp:296-340 | the loop finds the first of the columns that are seen best, and what is seen of the focused view's |
| Dominant.NormalSet | cardboard/Workspace.cpp:30-38 | exactly the views of the normal tiles of a column |
| Layers.UsableArea.ApplyExclusiveZone | cardboard/Layers.cpp:106-160 | the area is reduced in place, on exactly the edge a surface is anchored to |
| Layers.LayerShell.ArrangeLayer | cardboard/Layers.cpp:162-241 | one list: boxes are assigned and the area is carved in order |
| Layers.LayerShell.ArrangeLayers | cardboard/Layers.cpp:243-270 | both phases over the four lists |
| Layers.SecondPhaseKeepsTheArea | cardboard/Layers.cpp:266-270 | the second phase leaves the usable area alone |
| Layers.AreaIsFullMinusReservations | cardboard/Layers.cpp:150-159 | the usable area is the output minus the sum of all reservations on each edge |
| Layers.UsableAreaInsideOutput | cardboard/Layers.cpp:243-252 | its edges stay inside the output |
| Layers.AreaIgnoresOrder | cardboard/Layers.cpp:243-252 | it does not depend on the order of surfaces when none is closed |
| Layers.PanelUsesItsReservation | cardboard/Layers.cpp:188-238 | a panel lies in the strip it reserves |
| Layers.PanelIsPlaced | cardboard/Layers.cpp:162-241 | a panel for which all reservations together leave room is placed inside the output and not closed |
| Layers.PanelsNeverCollide | protocols/wlr-layer-shell-unstable-v1.xml:135-176 | after both phases two panels of one output, on the same or on different edges, are open, inside the output and disjoint, whatever other surfaces there are, as long as all reservations together leave them room |
| Layers.EarlierPanelsAreOuter | cardboard/Layers.cpp:246-251 | of two panels on one edge the one that is arranged first lies further out |
| Layers.HigherLayersComeFirst | cardboard/Layers.cpp:246-251 | that is the one on the higher layer |
| Layers.PanelReservesItsZone | cardboard/Layers.cpp:106-160 | a panel reserves its zone and margin on its edge, nothing on the others, and the windows begin right where it ends if the zone is as long as the panel |
| Layers.OthersGoWhereTheyWant | cardboard/Layers.cpp:162-241 | after both phases a surface that reserves nothing keeps its margins from the edges it is anchored to, or is centred, on the whole output if it ignores reservations and in the area that is left if not, or is closed if there is no room |
| Layers.WallpaperCoversTheOutput | cardboard/Layers.cpp:178-182 | a wallpaper covers the whole output, whatever panels there are |
| Layers.ConsiderateAvoidsPanels | cardboard/Layers.cpp:178-182 | a surface that fills what is left overlaps no panel |
| Ipc.HeaderRoundTrip | libcardboard/src/ipc.cpp:17-44 | the header decodes to the length that was encoded, in either byte order |
| Ipc.BothSwapsReverse | libcardboard/src/ipc.cpp:22-38 | the masks and shifts of reading and the shifts and masks of writing both reverse the bytes of a word, and undo each other |
| Ipc.CreateHeaderBuffer | libcardboard/src/ipc.cpp:29-44 | the buffer holds the length least significant byte first, whatever the machine |
| Ipc.HeaderIsLittleEndian | libcardboard/src/ipc.cpp:29-44 | the bytes of a header make up the length, the first one being the least significant |
| Ipc.Client.HandleReadable | cardboard/IPC.cpp:126-221 | the new state of the client for every event and every failure of a system call |
| Ipc.FailuresDisconnect | cardboard/IPC.cpp:126-221 | an event with failures does what it would do without, up to the first system call that fails, and then disconnects the client without decoding anything |
| Ipc.ChunkIndependence | cardboard/IPC.cpp:126-221 | the client's state depends on the bytes that arrived, not on how they were cut |
| Ipc.FramingIsChunkIndependent | cardboard/IPC.cpp:149-215 | a frame is decoded exactly once, on exactly the payload, when its last byte has arrived |
| Witnesses.MappingWithoutWorkspace | cardboard/SurfaceManager.cpp:14-25 | a reachable desktop without an output, where mapping a view breaks the invariants |
| Witnesses.MappingWhileFullscreen | cardboard/SurfaceManager.cpp:14-36 | one where a view was unmapped while fullscreen, and mapping it again does |
| Witnesses.SecondRequestFails | cardboard/View.cpp:45-51 | one where a view is fullscreen, and a second request fails the assertion |
| Witnesses.UnchangedSizeIsNotNoticed | cardboard/XDGView.cpp:231-248 | one where fullscreen and back, with the size unchanged, leaves the view out of the layout |
| Witnesses.RefusedCycleDoesNotRotate | cardboard/commands/commands.h:184-210 | one with a fullscreen view in front, where cycling does not rotate the views |
| Witnesses.PanelKeepsTheKeyboard | cardboard/Seat.cpp:594-622 | one with a focused panel above the windows and no view, where the panel keeps the keyboard although another client gets the input to itself |
| Witnesses.DestroyingASharedOutput | cardboard/Output.cpp:385-399 | one in the middle of a switch, where destroying the output breaks the invariants |
| Witnesses.SwitchingTwice | cardboard/Seat.cpp:640-744 | the same one, where a switch to a third workspace does |
| Witnesses.DestroyingASlidingView | cardboard/ViewAnimation.cpp:33-42 | one a step later, where destroying the view that slides out does |
| Witnesses.HoldingASlidingTile | cardboard/Seat.cpp:253-316 | the same one, where taking hold of the tile that slides out does |
| Witnesses.ScrollEndsOnAnUnmappedView | cardboard/Seat.cpp:515-549 | one where the view that was dominant is unmapped and its workspace on no output, and the end of the scroll focuses it |
| Witnesses.StaysOutOfSight | cardboard/OutputManager.cpp:86-111 | one where a workspace that had slid out has got a new output, and its view is displayed, but out of sight, with no animation to bring it back |
| Witnesses.NarrowLastTile | cardboard/Workspace.cpp:354-373 | a column that ends on a narrow tile, behind which the two offsets differ |
| Witnesses.BarOverATile | cardboard/Layers.cpp:253-264 | one with a focused fullscreen view, where a bar appears and the tile behind that view is asked to stay under it |
| Witnesses.PutDownTooEarly | cardboard/Workspace.cpp:221-232 | a view put down in the middle of an animation, which carries it on |
| Witnesses.OverrunByAnOlderAnimation | cardboard/ViewAnimation.cpp:57-82 | a view laid out in the middle of a tick that then comes to an older animation, and ends where that goes |
| Witnesses.LiftedBeforeMoving | cardboard/Seat.cpp:515-549 | a swipe that is lifted before it moves, and never ends |
| Witnesses.NothingSeenOnTheSecondScreen | cardboard/Workspace.cpp:312-325 | a window in full sight on the right one of two outputs, of which nothing is seen |
| Witnesses.NoDominantView | cardboard/Workspace.cpp:285-345 | a reachable desktop with an empty workspace and no focused view, where there is no column to look into |

## Left out

- Rendering, damage, frame submission, cursor images, hit-testing of surfaces and popups, keyboards, Xwayland, configuration of outputs: calls into wlroots without state of their own here.
- Activation of views (`set_activated`) and the stacking order of the list of views: nothing in the modelled code reads them.
- Overflow of `int`: coordinates and sizes are unbounded. Only the `size_t` wrap-around of the height that tiles share is modelled.
- Rounding of `float` and `double`: they are exact reals; truncation to `int` is modelled.
- Inserting next to a floating view: the code goes past the end of the columns then.
- What a switch that is still being animated onto an output that is destroyed does: the code goes on with the output that is gone.
- The grab states for moving and resizing with the pointer, apart from what they cancel when they begin, with the suspension of animations while a tile is resized; workspace-switch swipes, and the commands resize, cycle_width and close: they set sizes that clients then acknowledge.
- That wlroots takes the keyboard from a surface that is destroyed: `Keyboard` speaks of views that may be gone.
- Changes of a view's parents after it was created, and of a layer surface's layer while it is mapped.
- The handler for layer surfaces whose output is destroyed, and the choice of the topmost interactive layer after panels were arranged: layers are given the focus, and lose it when they stop being interactive, by events of their own. A layer may get it if it is above the windows, or its client has the input to itself.
- A kinetic scroll whose dominant view was destroyed meanwhile: the code reads memory that was freed then.
- That the refit of the workspace comes between the two phases of panels: it is an event of its own, that an output's usable area changed.
- Encoding of commands and replies, and the sending side of the IPC: the byte format belongs to a library, which is not part of this model.
- AnimationRuns.AnimationsSettle: covers the views that were last moved by animations towards their targets; a fullscreen view is moved without animation, and a floating one by its own commands. That a layout in the middle of a tick is punctual is a condition on the run; `RelaidRestsExactlyWhen` says what happens otherwise.
- Homecoming.TilesAreHomebound: speaks of normal tiles; a fullscreen view is moved without animation, and a floating one by its own commands. For a tick `TickingHome` gives a condition that suffices; `RelaidRestsExactlyWhen` has the exact one for a single layout.
- Tidiness.TilesAimApart: speaks of the events that are modelled. Resizing with the pointer and the commands resize and cycle_width, which are not, ask a tile for another size until its client commits it; the gap of the configuration stays what it is.
- Steps.SettingExclusiveClientKeeps: leaves out that the panels are arranged when exclusivity ends, which is an event of its own, and the focus of the pointer.
- ServerModule.Server.SetExclusiveClient: leaves out the same.
- Desktop.TickTo: reads the clock once a tick, also for what the callbacks of that tick queue; `AnimationRuns` lets it go on in between.
- ServerModule.Server.InsertIntoColumn: requires the focused view, if any, to be tiled.
