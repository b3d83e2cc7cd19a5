# Docking ports and the signal comparator, in Dafny

This project models two item components of the submarine game Barotrauma
(Subsurface):

- **the docking port** (`DockingPort`): two ports on different submarines
  find each other within a tolerance, dock, and later undock. Docking links
  the two items, the two submarines (`DockedTo`) and the navigation waypoints
  in the two port rectangles. A port also holds a soft joint that becomes a
  weld once the submarines meet, creates two hulls and a gap between them,
  reacts to signals, sends its state on its `state_out` and
  `proximity_sensor` connections, re-links itself when a saved map is
  loaded, and synchronises its state over the network;
- **the signal comparator** (`SignalCheckComponent`): it answers a signal
  equal to its target value with its output value, and any other signal
  with "0".

The world of docking ports is one object, `DockingPorts.World`. It holds:

- the port registry (`DockingPort.list`), where a port is named by its
  index;
- the fields of every port;
- the shared lists the ports change in place: each item's `linkedTo`, each
  submarine's `DockedTo` and each waypoint's `linkedTo`;
- tables of the hulls and gaps the ports create, keyed by handle.

Every method of `World` is proved to leave the tables exactly as a pure
function over a `Snapshot` value says:

| method | function |
|---|---|
| `Dock` | `AfterDock` |
| `Undock` | `AfterUndock` |
| `Update` | `AfterUpdate` |
| `OnMapLoaded` | `AfterMapLoaded` |
| `ReadNetworkData` | `AfterRead` |

Every method also keeps the invariant `Valid()` (`WorldState.Consistent`:
every target, port item, waypoint link and handle names something that
exists). The properties the source promises are proved as lemmas about
those functions.

A saved map is loaded in two steps. `AddPort` registers each port, in
item order. Once all ports exist, `LoadLinks` gives each port item its
saved `linkedTo`, and `AddSavedHull` and `AddSavedGap` enter the hulls
and gaps saved with the map, so that those links can name later ports
and saved parts before `OnMapLoaded` runs.

Modules, one per file:

| module | file | contents |
|---|---|---|
| `Wrappers` | wrappers.dfy | `Option` |
| `Numerics` | numerics.dfy | `ushort`, `Math.Sign`, C# integer division |
| `Lists` | lists.dfy | `List.IndexOf`, `Remove`, `RemoveAt`, guarded `Add` |
| `Geometry` | geometry.dfy | XNA rectangles, the hull layout of `CreateHull` |
| `DockMessages` | messages.dfy | the network message as typed fields |
| `ItemSignals` | signals.dfy | an outgoing signal |
| `DockingModel` | docking_model.dfy | port records, `FindAdjacentPort`, `dockingDir`, `linkedTo` queries |
| `WaypointLinks` | waypoint_links.dfy | the waypoint loops of `Dock` and `Undock` |
| `WorldState` | world_state.dfy | `Config`, `Snapshot`, the consistency invariant |
| `Undocking` | undocking.dfy | `Undock` |
| `Docking` | docking.dfy | `Dock`, `AttemptDock`, the `Docked` setter, `ReceiveSignal` |
| `HullCreation` | hull_creation.dfy | `CreateHull` |
| `Ticks` | ticks.dfy | `Update` |
| `MapLoading` | map_loading.dfy | `OnMapLoaded` |
| `NetworkSync` | network_sync.dfy | `FillNetworkData`, `ReadNetworkData` |
| `DockingPorts` | docking_port.dfy | the `World` class |
| `SignalCheck` | signal_check.dfy | the `SignalCheckComponent` class |

Inputs from outside the component are parameters:

- `Update` takes two booleans, `converged` and `settled`:
  - `converged`: the joint's anchors are closer than 0.05;
  - `settled`: the decaying `dockingState` is below 0.01.
- The identifiers the entity registry would hand to new hulls and gaps
  arrive as a `FreshIds` value.
- The entities `Entity.FindEntityByID` finds on the receiving side arrive as
  a map from identifier to `Lookup`.
- Whether the code runs on a client (`GameMain.Client != null`) is a
  boolean.

Behaviours of the source a reader might not expect; the model reproduces
them:

- The recursion of `Undock` ends because `docked` is cleared before the
  target is undocked (DockingPort.cs:405-407). `dockingTarget` is cleared
  only afterwards.
- A network message naming an item without a docking port is not dropped
  unchanged. The port's target is overwritten with null first
  (DockingPort.cs:641).
- A message naming no entity dereferences null in its error message
  (DockingPort.cs:637).
- `state_out` reports "1" for every port with a target whose joint is not
  the soft one. That includes the target of a dock, which never gets a
  joint (DockingPort.cs:495-497).
- The waypoint test of `Undock` is discussed under Findings.

Assumptions about code and data that are not part of this model:

- `Submarine.RectContains` is taken to be strict containment, with Y
  growing upwards.
- `DockedDistance`, a float, is taken to hold an integer value. The hull
  widths and heights (DockingPort.cs:276-277, 318) cast it to `int` before
  halving it. The vertical `hullRects[0].Y` (317) instead casts the float
  `-Height + DockedDistance` and then halves; with an integral distance
  that is `CsDiv(dockedDistance - height, 2)`, as the model computes. Its
  one other use, the joint length (204), is physics and is not modelled.
- Positions and tolerances are integers. In the source, a port item's
  `WorldPosition`, its `DistanceTolerance` and a waypoint's `Position` are
  float vectors. The model's integer `Point`s affect:
  - the tolerance test of `FindAdjacentPort` (DockingPort.cs:122-123);
  - the sign taken for `dockingDir` (173-175);
  - the containment tests of the waypoint selection in `Dock` (182, 188).
- No waypoint is linked to itself in the waypoint graph loaded with the
  map. The `World` constructor requires this, as part of
  `WaypointLinksOk`, and nothing in the source guarantees it. It is what
  lets `Undock`'s `wp2.linkedTo.Remove(wp)` be modelled on a second,
  distinct list.

A port item's `Rect` and a waypoint's `Position` are both relative to the
submarine, and `Dock` compares the two. The port also carries its
`WorldRect`, which is used by `CreateHull`. `Geometry.RectContainsMoved`
shows that shifting both by the submarine's offset gives the same answer.

## Model

In the source column, `DockingPort.cs` stands for
`Subsurface/Source/Items/Components/DockingPort.cs` and
`SignalCheckComponent.cs` for
`Subsurface/Source/Items/Components/Signal/SignalCheckComponent.cs`.

| member | source | states |
|---|---|---|
| Numerics.Sign | Subsurface/Source/Items/Components/DockingPort.cs:173-175 | `Math.Sign`: 1, -1 or 0 exactly when the argument is positive, negative or zero |
| Numerics.CsDiv | Subsurface/Source/Items/Components/DockingPort.cs:276-277 | C# division by a positive divisor truncates toward zero: the remainder has the dividend's sign and is smaller than the divisor |
| Numerics.CsHalfOfOddNegative | Subsurface/Source/Items/Components/DockingPort.cs:317 | on an odd negative numerator, as at the vertical hull's y, C# halving is one more than Euclidean halving |
| Lists.RemoveFirst | Subsurface/Source/Items/Components/DockingPort.cs:398 | `List.Remove` takes out the first occurrence (at `FirstIndex`, before which the element does not occur) and keeps the rest in order; without an occurrence it changes nothing |
| Lists.RemoveAt | Subsurface/Source/Items/Components/DockingPort.cs:397 | `RemoveAt(i)` drops the element at `i` and keeps the rest in order |
| Lists.AddIfAbsent | Subsurface/Source/Items/Components/DockingPort.cs:155-159 | a `Contains`-guarded `Add` yields a list holding the element, every old element, and nothing else |
| Lists.AddIfAbsentOnce | Subsurface/Source/Items/Components/DockingPort.cs:155-159 | a guarded add keeps a list free of duplicates, and the added element then occurs exactly once |
| Geometry.HullLayoutOf | Subsurface/Source/Items/Components/DockingPort.cs:268-318 | the two port rectangles are ordered by their centres' x (horizontal) or y (vertical); the hulls are half the docked distance wide (or high), with the edges, heights and widths `CreateHull` gives them, the vertical y edges halved with C# truncating division |
| Geometry.RectContainsMoved | Subsurface/Source/Items/Components/DockingPort.cs:182-188 | `RectContains`, strict containment, gives the same answer for a rectangle and a point both moved by one offset, so comparing items and waypoints relative to their submarine is comparing them in the world |
| Geometry.VerticalOddOvershoot | Subsurface/Source/Items/Components/DockingPort.cs:317 | when a vertically docked port is taller than the docked distance by an odd amount, the first hull's top edge sits one above what Euclidean halving would give |
| Geometry.VerticalOddOvershootExample | Subsurface/Source/Items/Components/DockingPort.cs:317 | a port 33 high at docked distance 32 keeps its hull's top edge at its own top, since C# halves -1 to 0 |
| Geometry.GapRect | Subsurface/Source/Items/Components/DockingPort.cs:293-336 | the gap is a 4-unit strip straddling the first hull's right edge (horizontal) or lying 2 above its top (vertical), with the hull's height or width |
| Geometry.LayoutIndependentOfInitiator | Subsurface/Source/Items/Components/DockingPort.cs:268-318 | when the centres differ along the docking axis, whichever port starts the dock gets the same two hull rectangles |
| Geometry.HorizontalHullsMeetAtSeam | Subsurface/Source/Items/Components/DockingPort.cs:276-293 | at an even docked distance equal to the centres' x offset, the horizontal hulls meet at the seam and the gap is centred on it |
| Geometry.VerticalHullsMeetAtSeam | Subsurface/Source/Items/Components/DockingPort.cs:317-336 | at the docked distance, with even heights, the vertical hulls meet between the two port middles and the gap lies on the first hull's top |
| DockingModel.Cleared | Subsurface/Source/Items/Components/DockingPort.cs:403-438 | a torn-down port has no target, `docked` false, no joint, no hulls, no gap and no identifiers, and keeps its direction |
| DockingModel.FindAdjacentPort | Subsurface/Source/Items/Components/DockingPort.cs:116-129 | the result is the first port in registry order that is another port, on another submarine, within the tolerance on both axes (inclusive); it is absent exactly when no port qualifies |
| DockingModel.AdjacentSymmetric | Subsurface/Source/Items/Components/DockingPort.cs:120-122 | two ports with the same tolerance are adjacent to each other or neither is: the candidate test `Adjacent` is symmetric |
| DockingModel.DockingDir | Subsurface/Source/Items/Components/DockingPort.cs:173-175 | the direction is -1, 0 or 1 |
| DockingModel.PortItemOnce | Subsurface/Source/Items/Components/DockingPort.cs:155-156 | in a well-formed `linkedTo` a port item that is present occurs exactly once |
| DockingModel.CountDockedUpdate | Subsurface/Source/Items/Components/DockingPort.cs:405-407 | replacing one port changes the number of docked ports by that port's old and new `docked` flags, the measure under which `Undock` terminates |
| WaypointLinks.Candidates | Subsurface/Source/Items/Components/DockingPort.cs:178-188 | the selected waypoints are exactly the path waypoints of the submarine inside the port rectangle, in ascending `WayPointList` order and without repetition |
| WaypointLinks.DockLinksLinkBothWays | Subsurface/Source/Items/Components/DockingPort.cs:178-193 | after crossing, every selected pair is linked both ways, old links stay in front, and unselected waypoints are untouched |
| WaypointLinks.DockLinks | Subsurface/Source/Items/Components/DockingPort.cs:178-193 | the links after `Dock`, defined independently of the loops: one list per waypoint; its meaning is `DockLinksLinkBothWays`, and `CrossAllIsDockLinks` ties it to the loops |
| WaypointLinks.CrossOne | Subsurface/Source/Items/Components/DockingPort.cs:184-192 | the inner loop of `Dock` as a function keeps one list per waypoint; `CrossOneOwn` and `CrossOneOther` give its result |
| WaypointLinks.CrossAll | Subsurface/Source/Items/Components/DockingPort.cs:178-193 | the outer loop of `Dock` as a function keeps one list per waypoint; `CrossAllOnB`, `CrossAllOffB` and `CrossAllIsDockLinks` give its result |
| WaypointLinks.CrossOneOwn | Subsurface/Source/Items/Components/DockingPort.cs:184-191 | the inner loop of `Dock` appends the other side's selected waypoints, in order, to the list of the waypoint it works on |
| WaypointLinks.CrossOneOther | Subsurface/Source/Items/Components/DockingPort.cs:184-192 | the inner loop appends the waypoint it works on to each selected waypoint of the other side, and changes no other list |
| WaypointLinks.CrossAllOnB | Subsurface/Source/Items/Components/DockingPort.cs:178-193 | the two loops append to each selected waypoint of the target side all selected waypoints of the initiator side, in order |
| WaypointLinks.CrossAllOffB | Subsurface/Source/Items/Components/DockingPort.cs:178-193 | the two loops append to each selected waypoint of the initiator side the selected waypoints of the target side, and change no other list |
| WaypointLinks.CrossAllIsDockLinks | Subsurface/Source/Items/Components/DockingPort.cs:178-193 | the nested loops of `Dock` compute exactly the crossing of the two selections |
| WaypointLinks.CrossWaypointLinks | Subsurface/Source/Items/Components/DockingPort.cs:178-193 | the imperative nested loops return the crossing of the two selections |
| WaypointLinks.CrossLinksOf | Subsurface/Source/Items/Components/DockingPort.cs:184-192 | the imperative inner loop computes the inner-loop function |
| WaypointLinks.OffSub | Subsurface/Source/Items/Components/DockingPort.cs:395-398 | the links a list keeps are exactly those not leading to a waypoint of the other submarine |
| WaypointLinks.RemovesLinkTests | Subsurface/Source/Items/Components/DockingPort.cs:395 | the test as written ignores the linked waypoint and never fires for a holder off the other submarine; the intended test fires exactly for links leading to the other submarine |
| WaypointLinks.Step | Subsurface/Source/Items/Components/DockingPort.cs:392-399 | one iteration of the reverse loop keeps the links well formed and the index in range; `StepShrinks`, `StepOwnList` and `StepKeepsOthers` give its effect |
| WaypointLinks.PruneOne | Subsurface/Source/Items/Components/DockingPort.cs:390-400 | the reverse loop over one waypoint's links keeps them well formed; `PruneOneShrinks`, `PruneOneIntended`, `PruneOneKeepsOthers` and `PruneOneAsWritten` give its effect |
| WaypointLinks.PruneAll | Subsurface/Source/Items/Components/DockingPort.cs:386-401 | the waypoint loop of `Undock` keeps the links well formed; `PruneAllShrinks`, `PruneAllIntended`, `PruneAllKeepsOthers` and `PruneAllAsWritten` give its effect |
| WaypointLinks.Unlink | Subsurface/Source/Items/Components/DockingPort.cs:397-398 | unlinking keeps every link naming an existing other waypoint, and shortens the waypoint's own list by one |
| WaypointLinks.UnlinkFacts | Subsurface/Source/Items/Components/DockingPort.cs:397-398 | unlinking takes the link out of the waypoint's list, keeping the others in order, touches only the two lists involved, and only removes links |
| WaypointLinks.StepShrinks | Subsurface/Source/Items/Components/DockingPort.cs:392-399 | one iteration of the reverse loop of `Undock` only removes links |
| WaypointLinks.StepOwnList | Subsurface/Source/Items/Components/DockingPort.cs:392-399 | with the intended test one iteration keeps the links before `i` and drops the link at `i` exactly when it leads to the other submarine |
| WaypointLinks.StepKeepsOthers | Subsurface/Source/Items/Components/DockingPort.cs:392-399 | with the intended test one iteration changes no list but the waypoint's own and one of the other submarine's |
| WaypointLinks.PruneOneShrinks | Subsurface/Source/Items/Components/DockingPort.cs:390-400 | the reverse loop over one waypoint's links only removes links |
| WaypointLinks.PruneOneIntended | Subsurface/Source/Items/Components/DockingPort.cs:390-400 | with the intended test the reverse loop drops exactly the waypoint's links to the other submarine and keeps the rest in order |
| WaypointLinks.PruneOneKeepsOthers | Subsurface/Source/Items/Components/DockingPort.cs:390-400 | with the intended test the reverse loop changes no list but the waypoint's own and those of the other submarine's waypoints |
| WaypointLinks.PruneOneAsWritten | Subsurface/Source/Items/Components/DockingPort.cs:395 | as written the reverse loop changes nothing unless the waypoint itself is on the other submarine |
| WaypointLinks.PruneAllShrinks | Subsurface/Source/Items/Components/DockingPort.cs:386-401 | the waypoint loop of `Undock` only removes links |
| WaypointLinks.PruneAllIntended | Subsurface/Source/Items/Components/DockingPort.cs:386-401 | with the intended test every path waypoint of the undocking submarine keeps exactly its links that do not lead to the other submarine |
| WaypointLinks.PruneAllKeepsOthers | Subsurface/Source/Items/Components/DockingPort.cs:386-401 | with the intended test the loop changes no list of a waypoint that is off the undocking submarine's path and not on the other submarine |
| WaypointLinks.PruneAllAsWritten | Subsurface/Source/Items/Components/DockingPort.cs:386-401 | as written the waypoint loop of `Undock` changes nothing when the two submarines differ |
| WaypointLinks.UndockSeparatesSubs | Subsurface/Source/Items/Components/DockingPort.cs:386-401 | with the intended test, running the loop from both sides leaves no path waypoint of either submarine linked to the other, only removes links, and leaves waypoints of neither submarine alone |
| WaypointLinks.DockLinksOk | Subsurface/Source/Items/Components/DockingPort.cs:178-193 | the links `Dock` adds between two different submarines name existing waypoints other than the holder |
| WaypointLinks.AsWrittenUndockKeepsDockLinks | Subsurface/Source/Items/Components/DockingPort.cs:395 | as written, undocking from both sides leaves every link `Dock` created between the two submarines in place |
| WaypointLinks.PruneWaypointLinks | Subsurface/Source/Items/Components/DockingPort.cs:386-401 | the imperative outer loop computes the loop function, keeping the links well formed |
| WaypointLinks.PruneLinksOf | Subsurface/Source/Items/Components/DockingPort.cs:390-400 | the imperative reverse index loop, with `RemoveAt` and `Remove`, computes the inner-loop function |
| WorldState.ShrunkTransitive | Subsurface/Source/Items/Components/DockingPort.cs:374-450 | two teardowns in a row only remove things |
| WorldState.ShrunkCount | Subsurface/Source/Items/Components/DockingPort.cs:405-407 | tearing ports down never increases the number of docked ports |
| Undocking.AfterUndock | Subsurface/Source/Items/Components/DockingPort.cs:374-376 | `Undock` on a port without a target, or one that is not docked, changes nothing; the tables stay consistent |
| Undocking.TornDown | Subsurface/Source/Items/Components/DockingPort.cs:380-438 | tearing down a docked port keeps the tables consistent; `TornDownShrunk` and `UndockTearsDownPort` say what it removes |
| Undocking.TornDownShrunk | Subsurface/Source/Items/Components/DockingPort.cs:380-438 | tearing a docked port down only removes things, leaves the two submarines unaware of each other, and leaves one docked port fewer |
| Undocking.UndockShrinks | Subsurface/Source/Items/Components/DockingPort.cs:374-450 | whatever the cascade, `Undock` creates nothing: ports are only torn down, links and parts only removed |
| Undocking.UndockTearsDownPort | Subsurface/Source/Items/Components/DockingPort.cs:374-438 | after `Undock` the port is torn down, its item's links are empty, neither submarine lists the other, fewer ports are docked, and its hulls and gap are gone |
| Undocking.UndockTearsDownTarget | Subsurface/Source/Items/Components/DockingPort.cs:386-408 | a target that was docked is torn down too; the waypoint loop runs from the port's side, and also from the target's when the target was docked back to the port |
| Undocking.UndockIdempotent | Subsurface/Source/Items/Components/DockingPort.cs:376 | undocking twice is undocking once |
| Undocking.UndockSeparatesWaypoints | Subsurface/Source/Items/Components/DockingPort.cs:383-401 | with the intended test, undocking a pair of ports leaves no path waypoint of either submarine linked to the other |
| Undocking.UndockAsWrittenKeepsWaypointLinks | Subsurface/Source/Items/Components/DockingPort.cs:395 | as written, undocking a pair of ports on different submarines leaves every waypoint link in place |
| Docking.Selected | Subsurface/Source/Items/Components/DockingPort.cs:180-188 | a waypoint is selected on a port's side exactly when it is a path waypoint of the port's submarine inside the port's rectangle |
| Docking.LinkedUp | Subsurface/Source/Items/Components/DockingPort.cs:153-195 | the link-up keeps the tables consistent; `LinkUpDocksPair` says what it makes of the two ports |
| Docking.LinkUpDocksPair | Subsurface/Source/Items/Components/DockingPort.cs:153-195 | the link-up makes the two ports a docked pair: targets point at each other, both are docked with opposite directions, each submarine lists the other, each item lists the other exactly once, and all selected waypoint pairs are linked both ways; only the initiator gets a joint, and nothing else changes |
| Docking.LinkUpKeepsParts | Subsurface/Source/Items/Components/DockingPort.cs:161-176 | the link-up changes only the targets, flags, directions and the initiator's joint of the two ports |
| Docking.LinkedUpInSteps | Subsurface/Source/Items/Components/DockingPort.cs:155-195 | the link-up is the sequence of updates `Dock` makes: items, submarines, targets, flags, directions, waypoints, joint |
| Docking.AfterDock | Subsurface/Source/Items/Components/DockingPort.cs:138-151 | `Dock` does nothing when the submarine already lists the target's, nor, for a port without a target, when the target is on the same submarine |
| Docking.DockDocksPair | Subsurface/Source/Items/Components/DockingPort.cs:138-195 | unless refused, `Dock` leaves the two ports a docked pair |
| Docking.DockUndockedPort | Subsurface/Source/Items/Components/DockingPort.cs:142-151 | for a port that is not docked, `Dock` is the link-up or nothing, and keeps the target it had |
| Docking.DockIdempotent | Subsurface/Source/Items/Components/DockingPort.cs:140 | docking twice is docking once |
| Docking.AfterAttempt | Subsurface/Source/Items/Components/DockingPort.cs:131-136 | `AttemptDock` keeps the tables consistent |
| Docking.AttemptDocksAdjacent | Subsurface/Source/Items/Components/DockingPort.cs:131-136 | with no adjacent port `AttemptDock` changes nothing; otherwise it docks the port to the first adjacent one unless their submarines are already docked |
| Docking.AfterSetDocked | Subsurface/Source/Items/Components/DockingPort.cs:76-90 | assigning `Docked` its current value changes nothing |
| Docking.SetDockedFindsNothing | Subsurface/Source/Items/Components/DockingPort.cs:78-81 | docking a port with no target and no adjacent port changes nothing and leaves it undocked |
| Docking.SetDockedFindsPort | Subsurface/Source/Items/Components/DockingPort.cs:78-83 | docking a port with no target but an adjacent port docks the two |
| Docking.SetDockedWithTarget | Subsurface/Source/Items/Components/DockingPort.cs:78-83 | docking a port that has a target only sets its flag |
| Docking.ClearDocked | Subsurface/Source/Items/Components/DockingPort.cs:85-88 | clearing `Docked` on a docked port with a target undocks it; one without a target is left as it was |
| Docking.AfterSignal | Subsurface/Source/Items/Components/DockingPort.cs:595-609 | a client ignores every signal |
| Docking.SignalToggles | Subsurface/Source/Items/Components/DockingPort.cs:595-606 | `toggle` inverts the flag of a port with a target, and `set_state` with "0" never docks |
| HullCreation.Parts | Subsurface/Source/Items/Components/DockingPort.cs:261-349 | each new hull belongs to an existing submarine; `PartsFollowLayout` states which one |
| HullCreation.PartsFollowLayout | Subsurface/Source/Items/Components/DockingPort.cs:264-336 | in world coordinates the hulls and the gap are the layout's rectangles; the first hull and the gap belong to the submarine of the first port rectangle |
| HullCreation.GapLinksInOrder | Subsurface/Source/Items/Components/DockingPort.cs:295-349 | the gap links the two hulls, the one further left first (horizontal) or the one higher up first (vertical) |
| HullCreation.PartsIds | Subsurface/Source/Items/Components/DockingPort.cs:326-337 | vertical ports give the parts the identifiers they received when they have them; horizontal ports always take fresh ones |
| HullCreation.AttachedRecordsParts | Subsurface/Source/Items/Components/DockingPort.cs:352-360 | the parts get three free handles, the port records them and the parts' identifiers, and the item lists both hulls and then the gap |
| HullCreation.AttachedKeepsRest | Subsurface/Source/Items/Components/DockingPort.cs:261-360 | creating the hulls changes nothing else: other ports and items, existing hulls and gaps, the port's target, flag and joint, submarines and waypoints |
| HullCreation.AfterCreateHull | Subsurface/Source/Items/Components/DockingPort.cs:261-360 | creating the hulls keeps the tables consistent |
| Ticks.AfterUpdate | Subsurface/Source/Items/Components/DockingPort.cs:452-501 | a frame keeps the tables consistent |
| Ticks.UpdateWithoutTarget | Subsurface/Source/Items/Components/DockingPort.cs:454-462 | without a target a frame sends `state_out` "0", then `proximity_sensor` "1" exactly when some port is in reach; it clears `docked` once settled and changes nothing else |
| Ticks.UpdateDocksFirst | Subsurface/Source/Items/Components/DockingPort.cs:466-474 | a port with a target that is not docked links up first and reports "0" |
| Ticks.UpdateWelds | Subsurface/Source/Items/Components/DockingPort.cs:471-491 | once the anchors meet, the port holds a weld joint, stays docked to its target, and reports "0" |
| Ticks.Welded | Subsurface/Source/Items/Components/DockingPort.cs:479-490 | welding puts a weld joint on the port, keeps its target and flag, and leaves the submarines' `DockedTo` and the waypoint links alone |
| Ticks.WeldedWith | Subsurface/Source/Items/Components/DockingPort.cs:479-490 | with the parts given, welding changes only the port's joint among the port fields, and adds no hull, gap or link when either item already has a hull |
| Ticks.WeldedWithCreatesHulls | Subsurface/Source/Items/Components/DockingPort.cs:486-490 | welding when neither item has hulls creates the hulls and the gap under three free handles |
| Ticks.WeldCreatesHulls | Subsurface/Source/Items/Components/DockingPort.cs:486-490 | the same for the frame's weld step |
| Ticks.WeldKeepsHulls | Subsurface/Source/Items/Components/DockingPort.cs:486 | welding when either item has hulls adds no hull or gap |
| Ticks.UpdateReportsDocked | Subsurface/Source/Items/Components/DockingPort.cs:495-497 | a docked port whose joint is not the soft one reports "1" and changes nothing |
| Ticks.TargetReportsDockedAtOnce | Subsurface/Source/Items/Components/DockingPort.cs:161-165 | right after a link-up the initiator reports "0" while the target, which has no joint, already reports "1" |
| MapLoading.HullHandlesNamed | Subsurface/Source/Items/Components/DockingPort.cs:568-576 | the hulls removed are exactly those the item's links name |
| MapLoading.GapHandlesNamed | Subsurface/Source/Items/Components/DockingPort.cs:577-583 | the gaps removed are exactly those the item's links name |
| MapLoading.LoadedTarget | Subsurface/Source/Items/Components/DockingPort.cs:585-589 | the target after the walk is the old one or a docking port whose item is in the links |
| MapLoading.LoadedTargetKept | Subsurface/Source/Items/Components/DockingPort.cs:585-589 | with no docking-port item in the links the target is kept |
| MapLoading.LoadedTargetIsLast | Subsurface/Source/Items/Components/DockingPort.cs:585-589 | the last docking-port item in the links becomes the target |
| MapLoading.AfterMapLoaded | Subsurface/Source/Items/Components/DockingPort.cs:564-566 | loading keeps the tables consistent |
| MapLoading.MapLoadedRemovesParts | Subsurface/Source/Items/Components/DockingPort.cs:564-592 | after loading the links are empty, every hull and gap they named is removed and every other one kept, and nothing but the target changes |
| MapLoading.MapLoadedTarget | Subsurface/Source/Items/Components/DockingPort.cs:568-590 | the target is the last docking-port item in the links, or the old target when there is none |
| MapLoading.MapLoadedIdempotent | Subsurface/Source/Items/Components/DockingPort.cs:566-592 | loading twice is loading once |
| DockMessages.Encode | Subsurface/Source/Items/Components/DockingPort.cs:611-624 | the message has 5 fields when docked and 1 otherwise, the first being the docked flag |
| DockMessages.ReadBoolean | Subsurface/Source/Items/Components/DockingPort.cs:629 | `ReadBoolean` yields `b` exactly when the field at the read position is the boolean `b` |
| DockMessages.ReadUInt16 | Subsurface/Source/Items/Components/DockingPort.cs:633 | `ReadUInt16` yields `v` exactly when the field at the read position is the 16-bit value `v` |
| DockMessages.ReadIds | Subsurface/Source/Items/Components/DockingPort.cs:649-652 | the three identifiers are read exactly when fields 2 to 4 are 16-bit values, and they are those values |
| DockMessages.Decode | Subsurface/Source/Items/Components/DockingPort.cs:629-652 | whatever the reader accepts starts with the encoding of the message it returns: the reverse direction of `DecodeEncode` |
| DockMessages.DecodeEncode | Subsurface/Source/Items/Components/DockingPort.cs:613-652 | the reader consumes the fields in the order the writer writes them, whatever follows |
| DockMessages.EncodeInjective | Subsurface/Source/Items/Components/DockingPort.cs:613-621 | two different messages never have the same fields |
| NetworkSync.RenameHull | Subsurface/Source/Items/Components/DockingPort.cs:654-655 | renaming a hull keeps the set of hulls |
| NetworkSync.Renamed | Subsurface/Source/Items/Components/DockingPort.cs:654-657 | renaming the parts keeps the sets of hulls and gaps |
| NetworkSync.IdsStored | Subsurface/Source/Items/Components/DockingPort.cs:649-652 | reading the identifiers changes only them; all three are stored when all reads succeed, none when the first read fails |
| NetworkSync.ReadDocked | Subsurface/Source/Items/Components/DockingPort.cs:641-659 | reading the rest of a docked message keeps the tables consistent |
| NetworkSync.AfterRead | Subsurface/Source/Items/Components/DockingPort.cs:627-666 | reading a message keeps the tables consistent |
| NetworkSync.Written | Subsurface/Source/Items/Components/DockingPort.cs:611-624 | the undocked message is written exactly for a port that is not docked; a docked message names the target's item and carries the port's three identifiers |
| NetworkSync.WrittenDecodes | Subsurface/Source/Items/Components/DockingPort.cs:611-652 | what the writer writes is exactly what the reader decodes |
| NetworkSync.WrittenSaysDocked | Subsurface/Source/Items/Components/DockingPort.cs:611-624 | a port is written as undocked exactly when it is not docked; writing throws exactly when it is docked without a target or an identifier; a docked message names the target's item and carries the port's identifiers |
| NetworkSync.AppliedDecodes | Subsurface/Source/Items/Components/DockingPort.cs:627-666 | only a well-formed message is applied, and an undocked message undocks |
| NetworkSync.ReadUndocked | Subsurface/Source/Items/Components/DockingPort.cs:662-665 | an undocked message undocks the reader |
| NetworkSync.ReadUnknownTarget | Subsurface/Source/Items/Components/DockingPort.cs:633-639 | a message naming no entity, or an entity that is not an item, changes nothing |
| NetworkSync.ReadItemWithoutPort | Subsurface/Source/Items/Components/DockingPort.cs:641-647 | a message naming an item without a docking port clears the reader's target and nothing else |
| NetworkSync.ReadDockedMessage | Subsurface/Source/Items/Components/DockingPort.cs:631-659 | a docked message naming a port sets the target and the identifiers, then fails without hulls or renames the parts and docks |
| NetworkSync.ReadAppliesIds | Subsurface/Source/Items/Components/DockingPort.cs:641-659 | an undocked reader with hulls targets the named port, keeps the message's identifiers, renames its parts with them and, unless refused, docks |
| NetworkSync.ReadWithoutHullsDoesNotDock | Subsurface/Source/Items/Components/DockingPort.cs:654 | a reader that never created hulls records the target and identifiers but does not dock |
| NetworkSync.WriteThenRead | Subsurface/Source/Items/Components/DockingPort.cs:611-659 | what one machine writes for a docked port, another applies: it targets the named port with the writer's identifiers |
| DockingPorts.World.constructor | Subsurface/Source/Items/Components/DockingPort.cs:20 | a world with no ports, its submarines knowing no one, is consistent |
| DockingPorts.World.AddPort | Subsurface/Source/Items/Components/DockingPort.cs:94-114 | a new port joins the end of the registry with no target, undocked, with no joint, parts or identifiers |
| DockingPorts.World.LoadLinks | Subsurface/Source/Items/Components/DockingPort.cs:564-568 | once all ports exist, a port's item receives its saved `linkedTo`, which may name later ports and saved hulls and gaps; nothing else changes |
| DockingPorts.World.AddSavedHull | Subsurface/Source/Items/Components/DockingPort.cs:568-577 | a hull saved with the map enters the table under a fresh handle; nothing else changes |
| DockingPorts.World.AddSavedGap | Subsurface/Source/Items/Components/DockingPort.cs:568-577 | a gap saved with the map enters the table under a fresh handle; nothing else changes |
| DockingPorts.World.Undock | Subsurface/Source/Items/Components/DockingPort.cs:374-450 | the recursive method leaves the tables as `AfterUndock` says and terminates on the number of docked ports |
| DockingPorts.World.TearDown | Subsurface/Source/Items/Components/DockingPort.cs:382-438 | the port's teardown, step by step, is `TornDown` |
| DockingPorts.World.ForgetEachOther | Subsurface/Source/Items/Components/DockingPort.cs:382-383 | each submarine's `DockedTo` loses the other |
| DockingPorts.World.RemoveParts | Subsurface/Source/Items/Components/DockingPort.cs:422-433 | the port's hulls and gap leave the tables |
| DockingPorts.World.FindAdjacent | Subsurface/Source/Items/Components/DockingPort.cs:116-129 | the early-return loop returns `FindAdjacentPort` |
| DockingPorts.World.AttemptDock | Subsurface/Source/Items/Components/DockingPort.cs:131-136 | docks to the adjacent port, if any |
| DockingPorts.World.Dock | Subsurface/Source/Items/Components/DockingPort.cs:138-195 | leaves the tables as `AfterDock` says |
| DockingPorts.World.LinkUp | Subsurface/Source/Items/Components/DockingPort.cs:153-195 | leaves the tables as `LinkedUp` says |
| DockingPorts.World.LinkFields | Subsurface/Source/Items/Components/DockingPort.cs:155-195 | the link-up's updates in the source's order |
| DockingPorts.World.ListEachOther | Subsurface/Source/Items/Components/DockingPort.cs:155-156 | each item lists the other unless it already does |
| DockingPorts.World.KnowEachOther | Subsurface/Source/Items/Components/DockingPort.cs:158-159 | each submarine lists the other unless it already does |
| DockingPorts.World.PairPorts | Subsurface/Source/Items/Components/DockingPort.cs:161-176 | the targets point at each other, both are docked, the directions are opposite |
| DockingPorts.World.SetDocked | Subsurface/Source/Items/Components/DockingPort.cs:76-90 | leaves the tables as `AfterSetDocked` says |
| DockingPorts.World.ReceiveSignal | Subsurface/Source/Items/Components/DockingPort.cs:595-609 | leaves the tables as `AfterSignal` says |
| DockingPorts.World.CreateHull | Subsurface/Source/Items/Components/DockingPort.cs:261-360 | leaves the tables as `AfterCreateHull` says |
| DockingPorts.World.Attach | Subsurface/Source/Items/Components/DockingPort.cs:352-360 | the parts are attached in the source's order |
| DockingPorts.World.Update | Subsurface/Source/Items/Components/DockingPort.cs:452-501 | returns the signals and leaves the tables as `AfterUpdate` says |
| DockingPorts.World.ReportUntargeted | Subsurface/Source/Items/Components/DockingPort.cs:454-462 | the frame of a port without a target |
| DockingPorts.World.Weld | Subsurface/Source/Items/Components/DockingPort.cs:475-490 | the weld step of a frame |
| DockingPorts.World.OnMapLoaded | Subsurface/Source/Items/Components/DockingPort.cs:564-593 | leaves the tables as `AfterMapLoaded` says |
| DockingPorts.World.LoadLinked | Subsurface/Source/Items/Components/DockingPort.cs:568-590 | the loop over the links removes the hulls and gaps they name and leaves the last docking-port item as the target |
| DockingPorts.World.FillNetworkData | Subsurface/Source/Items/Components/DockingPort.cs:611-625 | appends the encoded message to the buffer, or throws as `Written` says |
| DockingPorts.World.ReadNetworkData | Subsurface/Source/Items/Components/DockingPort.cs:627-666 | returns the outcome and leaves the tables as `AfterRead` says |
| DockingPorts.World.ReadIdsAndDock | Subsurface/Source/Items/Components/DockingPort.cs:641-659 | the docked branch of the reader, as `ReadDocked` says |
| DockingPorts.World.StoreIds | Subsurface/Source/Items/Components/DockingPort.cs:649-652 | the three reads store each identifier as soon as it is read; `complete` says all three succeeded |
| DockingPorts.World.RenameParts | Subsurface/Source/Items/Components/DockingPort.cs:654-657 | the port's hulls and gap take its identifiers |
| SignalCheck.SignalCheckComponent.constructor | Subsurface/Source/Items/Components/Signal/SignalCheckComponent.cs:15-27 | `Output` starts as "1" and `TargetSignal` as "" |
| SignalCheck.SignalCheckComponent.ReceiveSignal | Subsurface/Source/Items/Components/Signal/SignalCheckComponent.cs:34-49 | `signal_in` answers the output when the signal equals the target and "0" otherwise, and changes nothing; `set_output` and `set_targetsignal` set one field and keep the other; any other connection does nothing |
| SignalCheck.CompareScenario | Subsurface/Source/Items/Components/Signal/SignalCheckComponent.cs:38-46 | after setting the target, that value is answered with the output and any other with "0" |

## Left out

- Floating point and physics:
  - the `dockingState` animation;
  - the joints' anchors, lengths, frequencies and damping;
  - the static edge bodies.

  Joints are the three states `NoJoint`, `DistanceJoint` and `WeldJoint`.
  The submarines of a `World` do not move. Its ports' positions and
  rectangles, the offsets of its submarines and its waypoints are fixed,
  while the source reads the live `WorldPosition` and `WorldRect` every
  frame. Every operation takes these positions as they are at that
  moment.
  The two float tests of `Update`, anchor convergence and the settled
  docking state, are boolean parameters.
- `Draw`, sounds, camera shake, `NewComponentEvent`, `DebugConsole`
  messages, and the XML and sprite parsing of the constructor. They change
  none of the modelled state.
- Wires: `ConnectWireBetweenPorts` and `wire.Drop`. They belong to another
  component.
- `RemoveComponentSpecific` (`list.Remove`). After it, ports would no longer
  be named by their index; the registry only ever grows here.
- Entity registry internals: `FindEntityByID`, the constructors of `Hull`
  and `Gap`, `AddToGrid`, `Remove`.
  - A lookup map stands in for `FindEntityByID`, and `FreshIds` for
    identifier allocation.
  - Removing a hull or gap only deletes it from its table. What
    `Hull.Remove` does to other lists, including the `linkedTo` that
    `OnMapLoaded` is iterating over, is not modelled.
- The bit layout of the networking library. A message is a sequence of
  typed fields, and a failing read is the outcome `BadRead`.
- `World.Undock`: the port is torn down completely before its target is
  undocked. The source clears `docked` first and the rest afterwards; as
  the target's `Undock` leaves a port that is not docked alone, the end
  state is the same.
- `HullCreation.Parts`: the loop of `CreateHull` over the two hulls is
  written out as one expression.
- `Submarine.DockedTo` is a `List` in the source and a `set` here. This
  is sound: the only adds (DockingPort.cs:158-159) are guarded by
  `Contains`, so the list never holds a submarine twice, and no modelled
  code depends on its order.
- A waypoint's `linkedTo` is modelled as holding only waypoints. The cast
  that skips other entities (DockingPort.cs:392-393) therefore never fires.

## Findings

| source | as written | input that shows it | evidently intended | confidence | as-written member | corrected member |
|---|---|---|---|---|---|---|
| Subsurface/Source/Items/Components/DockingPort.cs:395 | the link from path waypoint `wp` to `wp2` is removed when `wp.Submarine` is the target's submarine; the loop only visits waypoints of the port's own submarine, and `Dock` refuses a target on the same one | two ports on submarines 0 and 1, each rectangle holding one path waypoint; dock, then undock; the two waypoints stay linked to each other | test `wp2.Submarine`, so that every link crossing to the target's submarine is removed | high; not executed | WaypointLinks.AsWrittenUndockKeepsDockLinks | WaypointLinks.UndockSeparatesSubs |

`Config.intendedUnlink` selects the test:

| value | test | lemmas |
|---|---|---|
| false | as written | `PrunedAsWritten`, `Undocking.UndockAsWrittenKeepsWaypointLinks` |
| true | corrected | `Pruned`, `Undocking.UndockSeparatesWaypoints` |

A `World` built with `intendedUnlink` true behaves as corrected.
