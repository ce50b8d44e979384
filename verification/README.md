# Verification of the AirMap platform SDK's vehicle monitor and telemetry path

This project models, in Dafny, how the platform SDK follows a vehicle and reports on it, and proves what
its runs keep:

* **Telemetry submitter** (`SubmitterModel`, `Submitter`, `SubmitterRuns`, `SubmitterDrive`,
  `SubmitterTimely`, `SubmitterConservation`, `SubmitterActivity`, `SubmitterCreation`, `SubmitterValues`,
  `SubmitterProgress`, `SubmitterRetries`, `SubmitterLimits`): the hand-written asynchronous state machine
  that authorizes, ends old flights, opens one, starts communications and sends telemetry. `Submitter` has
  the source's mutable fields and methods; each is proved to compute the function of the same name in
  `SubmitterModel`, and the other modules prove properties of all runs: any interleaving of operations
  with completions of the calls in flight, in any order, each succeeding or failing. A run is *timely* if
  no completion of a call issued before a deactivation arrives after it, that of an end-flight request
  excepted.
* **MAVLink side** (`Channels`, `FilteringChannels`, `VehicleTrackers`, `Vehicles`, `Mission`,
  `VehicleStatus`, `SubmitterMonitored`): framing, demultiplexing, the mission upload, and the monitor
  that turns the notices of a vehicle into calls of the submitter.
* **Telemetry wire format** (`Wire`, `Messages`, `Codec`, `FlightUpdates`, `Telemetry`, `Cipher`): the
  generated Protocol Buffers code, the framing and the packet on top, the padding and buffer of the
  encryption.
* **Geometry codec** (`GeometryCodec`, `GeometryRoundTrip`, `GeometryJson`).
* **Context** (`ContextProtocol`), **simulator** (`Simulator`) and **column writer** (`TabWriter`).

`dafny verify dfyconfig.toml` checks everything.

Choices a reader should know:

* The eight "requested" flags of the submitter are one value, `Flags`, with a field per flag.
* `get()` on an unset optional reads an arbitrary value: it is a parameter (`Junk`) of every operation.
  `SubmitterTimely.NoUnsetRead` shows that in timely runs it never matters.
* The platform client is a class that only records calls. The activation a call belongs to is the number
  of effective deactivations when it was issued; the end-flight request of a deactivation already counts
  as issued after it.
* Clock readings are parameters. Doubles and floats on the wire are bit patterns; in the geometry codec
  and the simulator they are reals, with the conversion to single precision, the square root, sine,
  cosine, bearing and scale factors as parameters.
* The five generated messages share one table-driven model: a table lists the field kinds, and the
  generated code differs only in it (`Messages.GeneratedTags` gives the tag bytes). The loops over the
  table stand for the unrolled code of the source.
* The header of the submitter says that deactivation ends flight communications; the code only asks to end
  the flight, and the model follows the code. `FilteringChannel` passes on every message but those of the
  system it is given; `FilteringChannels` follows the code and proves what that means for a tracker behind it.
  Section 3.1 of RFC 7946 puts the members of a collection under "geometries"; the code uses
  "coordinates", and so does the model.

## Model

| member | source | states |
|---|---|---|
| `SubmitterTimely.FlightsConserved` | src/airmap/monitor/telemetry_submitter.cpp:53-88 | In every timely run the flights created are as many as the end-flight requests made by deactivations plus one if a flight is held; an activation creates at most one, by plan or by point. |
| `SubmitterConservation.ConservedIff` | src/airmap/monitor/telemetry_submitter.cpp:53-88 | For every run, timely or not: flights are conserved, id by id and in number, exactly if no step loses one. A step loses a flight if it creates one while another is held, or deactivates with a flight but no authorization; both can be told from the state before the step. |
| `SubmitterConservation.FlightsAccounted` | src/airmap/monitor/telemetry_submitter.cpp:53-88 | In every run the ids of the flights created are those asked to end, the one held and those lost. |
| `SubmitterConservation.OneCreationIff` | src/airmap/monitor/telemetry_submitter.cpp:257-364 | In every run the present activation has created at most one flight exactly if none was overwritten since it began. |
| `SubmitterConservation.CreatedAreEnded` | src/airmap/monitor/telemetry_submitter.cpp:53-70 | Timely runs lose nothing, so in them the multiset of ids of created flights is that of the ids asked to end plus the current one. |
| `SubmitterConservation.StepAccounts` | src/airmap/monitor/telemetry_submitter.cpp:44-424 | Every single step keeps the account of created, ended, held and lost flights. |
| `SubmitterValues.CallsCarryOwnValues` | src/airmap/monitor/telemetry_submitter.cpp:147-424 | In every timely run each call issued in the present activation carries the authorization, pilot, plan and flight this activation has been given, and an authentication the configured credentials. |
| `SubmitterValues.NoSubmissionBeforeEnds` | src/airmap/monitor/telemetry_submitter.cpp:315-356 | In every timely run no plan is submitted before each flight the search found has been erased and its id ended successfully at least as often as it was listed. |
| `SubmitterTimely.TelemetryUsesOwnKey` | src/airmap/monitor/telemetry_submitter.cpp:90-104 | In every timely run each telemetry submission uses a key that answered a start-communications request for that very flight in the same activation. |
| `SubmitterTimely.ValuesInOrder` | src/airmap/monitor/telemetry_submitter.cpp:141-424 | In every timely run key implies flight, and flight implies authorization, pilot and a set, empty list of active flights; the search succeeds at most once since the list is never reset. |
| `SubmitterTimely.NoUnsetRead` | src/airmap/monitor/telemetry_submitter.cpp:141-424 | In every timely run no step depends on what `get()` would give on an unset optional. |
| `SubmitterTimely.TimelyStepSound` | src/airmap/monitor/telemetry_submitter.cpp:44-424 | The invariant of timely runs is kept by every operation and by every completion, whether it succeeds or fails. |
| `SubmitterRuns.InFlightBound` | src/airmap/monitor/telemetry_submitter.cpp:106-419 | In every run, timely or not, each single-request stage has at most one call in flight more than there were effective deactivations. |
| `SubmitterRuns.ActiveListAccounted` | src/airmap/monitor/telemetry_submitter.cpp:205-255 | In every run the list of active flights plus the flights erased from it is the last search result, as multisets, and the list is set whenever an end request is in flight. |
| `SubmitterRuns.NoCreationBeforeEnds` | src/airmap/monitor/telemetry_submitter.cpp:205-264 | In every run neither a plan nor a flight by point is asked for before each flight of the last search result has been erased and its id ended successfully at least as often as it was listed. |
| `SubmitterRuns.CreationNeedsEmptyList` | src/airmap/monitor/telemetry_submitter.cpp:210-264 | Every step that asks for a plan or for a flight by point leaves an empty list of active flights. |
| `SubmitterRuns.StepKeeps` | src/airmap/monitor/telemetry_submitter.cpp:44-424 | Every step keeps both the bound on calls in flight and the account of the active flights. |
| `SubmitterProgress.KeyAfterTotal` | src/airmap/monitor/telemetry_submitter.cpp:106-424 | In a first activation in which all calls succeed and a position is known at the create stage, key and monitor are there and nothing is outstanding after exactly 6 + n completions, 7 + n by plan, and not before, however many updates interleave. |
| `SubmitterProgress.EveryCompletionCounts` | src/airmap/monitor/telemetry_submitter.cpp:106-424 | In such a run every completion lowers a measure, and position and mission updates leave each part of it as it is. |
| `SubmitterDrive.RedriveIdle` | src/airmap/monitor/telemetry_submitter.cpp:106-424 | In every state, driving the chain again with no completion in between issues no request and changes nothing, the subscriptions included. |
| `SubmitterDrive.ChainIsDrive` | src/airmap/monitor/telemetry_submitter.cpp:106-424 | The chain of request and handler functions does what one flat decision on the first missing value does. |
| `SubmitterDrive.DeactivateForgets` | src/airmap/monitor/telemetry_submitter.cpp:53-88 | An effective deactivation leaves a new submitter except for position, mission, active flights, what was issued and sent, and one request to end the flight held. |
| `SubmitterDrive.ReactivationStartsOver` | src/airmap/monitor/telemetry_submitter.cpp:44-47 | The activation after it issues exactly one call, for a new authorization. |
| `SubmitterLimits.UntimelyFlightLeaks` | src/airmap/monitor/telemetry_submitter.cpp:53-88 | A run that loses a flight: it is created after a deactivation, and the next one forgets it without asking to end it. |
| `SubmitterLimits.UntimelyFlightOverwritten` | src/airmap/monitor/telemetry_submitter.cpp:358-361 | Another one: a creation asked for before a deactivation and one asked for after it both succeed, and the second flight takes the place of the first. |
| `SubmitterLimits.CreationStallsIff` | src/airmap/monitor/telemetry_submitter.cpp:263-268 | Reaching the create stage asks for nothing exactly when no position is known, and then stalls the machine unless some other call of the activation than an end request is in flight. |
| `SubmitterLimits.StalledForever` | src/airmap/monitor/telemetry_submitter.cpp:257-268 | A stalled activation issues nothing until it is deactivated, whatever positions, missions and ends of flights arrive. |
| `SubmitterLimits.StallReached` | src/airmap/monitor/telemetry_submitter.cpp:263-268 | A timely run that stalls: activated without a position, three replies. |
| `SubmitterLimits.KeyRetriedIff` | src/airmap/monitor/telemetry_submitter.cpp:258-264 | After a failed start of communications in a timely run, some timely continuation without a deactivation asks for the key again exactly when the flight came from a plan. |
| `SubmitterLimits.KeyNeverAsked` | src/airmap/monitor/telemetry_submitter.cpp:258-264 | On the by-point path no timely continuation without a deactivation issues any call. |
| `SubmitterLimits.KeylessReached` | src/airmap/monitor/telemetry_submitter.cpp:398-419 | A timely run that gets there: flight by point created, key refused. |
| `SubmitterCreation.CreationIsRight` | src/airmap/monitor/telemetry_submitter.cpp:257-313 | In every run, a step that asks for a flight issues that one call and no other. With a mission it is a plan around the last mission given, with an aircraft exactly if one is configured; without one it is a flight by point for the configured aircraft. Either is at the last position given. |
| `SubmitterCreation.StepCreates` | src/airmap/monitor/telemetry_submitter.cpp:257-313 | The same for one step from any state, against the position and mission known after it. |
| `SubmitterRetries.FailureRetried` | src/airmap/monitor/telemetry_submitter.cpp:106-356 | In timely runs, when a call of the present activation has failed, the next position update or activation issues it anew, for whichever of the six stages up to the submission of the plan; a failed end request brings one for each flight still listed, in order. |
| `SubmitterRetries.MonitorRetriedIff` | src/airmap/monitor/telemetry_submitter.cpp:366-389 | A failed call for the traffic monitor is issued anew exactly if the flight came from a plan and, for a position update, the key is still missing: once telemetry flows, updates no longer drive the chain. |
| `SubmitterRetries.UpdateDrives` | src/airmap/monitor/telemetry_submitter.cpp:44-104 | A position update while active without a key, and every activation, drive the chain. |
| `SubmitterMonitored.ActiveWhileAirborne` | src/airmap/monitor/submitting_vehicle_monitor.cpp:20-48 | In every run in which the submitter is told what the monitor makes of the messages of one vehicle, it is active exactly if the vehicle has taken off and not landed since; with no POWEROFF or unlisted status, exactly while the vehicle is airborne. |
| `SubmitterMonitored.KnowsItsVehicle` | src/airmap/monitor/submitting_vehicle_monitor.cpp:50-57 | In every such run it knows the last position the vehicle sent and the last mission it reported. |
| `SubmitterMonitored.AskedInOrder` | src/airmap/monitor/submitting_vehicle_monitor.cpp:20-57 | For every sequence of notices: what the monitor tells the submitter are the commands its status edges call for, and the positions and missions of the notices, each in order. |
| `SubmitterMonitored.PositionsReported` | src/airmap/mavlink/vehicle.cpp:61-69 | For every history a vehicle has reported the positions it was sent, in order, each with the one before, and keeps the last. |
| `SubmitterActivity.HoldsReplies` | src/airmap/monitor/telemetry_submitter.cpp:73-88 | In every run authorization, pilot, plan, flight, monitor and key are those of the last reply of their kind, unless an effective deactivation came after it; told from the events alone. |
| `SubmitterActivity.SubscribedToBrought` | src/airmap/monitor/telemetry_submitter.cpp:391-396 | In every run the submitter is subscribed to every traffic monitor a completion has brought and to no other, and the one it holds is among them. |
| `SubmitterActivity.RunActive` | src/airmap/monitor/telemetry_submitter.cpp:44-88 | In every run the submitter is active exactly if the last activation or deactivation was an activation; no completion changes that. |
| `SubmitterActivity.StepOutside` | src/airmap/monitor/telemetry_submitter.cpp:90-104 | Only commands change the active state, only position and mission updates these two, and a position update is sent exactly when the submitter is active and holds authorization, flight and key. |
| `SubmitterActivity.ReportUnits` | src/airmap/monitor/telemetry_submitter.cpp:100-103 | What is sent is in degrees and metres, from ten-millionths of a degree and millimetres. |
| `SubmitterActivity.RunRemembers` | src/airmap/monitor/telemetry_submitter.cpp:73-92 | In every run the submitter knows the last position and the last mission it was given, through every deactivation. |
| `Submitter.TelemetrySubmitter.constructor` | src/airmap/monitor/telemetry_submitter.h:113-139 | A new submitter is inactive, has nothing requested and knows nothing. |
| `Submitter.TelemetrySubmitter.Activate` | src/airmap/monitor/telemetry_submitter.cpp:44-47 | Becomes active and drives the chain. |
| `Submitter.TelemetrySubmitter.SetMission` | src/airmap/monitor/telemetry_submitter.cpp:49-51 | Stores the mission geometry and nothing else. |
| `Submitter.TelemetrySubmitter.Deactivate` | src/airmap/monitor/telemetry_submitter.cpp:53-88 | If active: inactive, asks to end the flight it knows, forgets flags and values; otherwise nothing. |
| `Submitter.TelemetrySubmitter.Reset` | src/airmap/monitor/telemetry_submitter.cpp:73-87 | Clears flags and values but not the active flights, the position or the mission. |
| `Submitter.TelemetrySubmitter.Submit` | src/airmap/monitor/telemetry_submitter.cpp:90-104 | Stores the position; when active either drives the chain or sends the update under the key. |
| `Submitter.TelemetrySubmitter.RequestAuthorization` | src/airmap/monitor/telemetry_submitter.cpp:106-139 | Moves on if authorized, else issues one authentication unless one is requested. |
| `Submitter.TelemetrySubmitter.AuthorizationKnown` | src/airmap/monitor/telemetry_submitter.cpp:141-145 | Stores the authorization and asks for the pilot. |
| `Submitter.TelemetrySubmitter.RequestPilot` | src/airmap/monitor/telemetry_submitter.cpp:147-170 | Moves on if the pilot is known, else issues one query unless one is requested. |
| `Submitter.TelemetrySubmitter.PilotKnown` | src/airmap/monitor/telemetry_submitter.cpp:172-176 | Stores the pilot and asks for the active flights. |
| `Submitter.TelemetrySubmitter.RequestActiveFlights` | src/airmap/monitor/telemetry_submitter.cpp:178-203 | Moves on if the list is known, else issues one search unless one is requested. |
| `Submitter.TelemetrySubmitter.FlightsKnown` | src/airmap/monitor/telemetry_submitter.cpp:205-208 | Stores the list and asks to end its flights. |
| `Submitter.TelemetrySubmitter.RequestEndActive` | src/airmap/monitor/telemetry_submitter.cpp:210-235 | Moves on from an empty list, else issues one end request per listed flight, in order, unless requested. |
| `Submitter.TelemetrySubmitter.ActiveFlightEnded` | src/airmap/monitor/telemetry_submitter.cpp:237-255 | Erases the first flight with the id and asks for a flight once the list is empty. |
| `Submitter.TelemetrySubmitter.RequestCreate` | src/airmap/monitor/telemetry_submitter.cpp:257-313 | With a mission asks for a plan, without one for a flight at the current point, and for nothing while no position is known; the flag is set in each case. |
| `Submitter.TelemetrySubmitter.PlanFound` | src/airmap/monitor/telemetry_submitter.cpp:315-320 | Stores the plan and submits it. |
| `Submitter.TelemetrySubmitter.RequestSubmit` | src/airmap/monitor/telemetry_submitter.cpp:322-356 | Moves on if the flight is known, else submits the plan once. |
| `Submitter.TelemetrySubmitter.FlightFound` | src/airmap/monitor/telemetry_submitter.cpp:358-364 | Stores the flight, then asks for its monitor and its key. |
| `Submitter.TelemetrySubmitter.RequestMonitor` | src/airmap/monitor/telemetry_submitter.cpp:366-389 | Subscribes again to a known monitor, else asks for one once. |
| `Submitter.TelemetrySubmitter.MonitorFound` | src/airmap/monitor/telemetry_submitter.cpp:391-396 | Stores the monitor and subscribes to it. |
| `Submitter.TelemetrySubmitter.RequestComms` | src/airmap/monitor/telemetry_submitter.cpp:398-419 | Keeps a known key, else asks for one once. |
| `Submitter.TelemetrySubmitter.CommsStartedWith` | src/airmap/monitor/telemetry_submitter.cpp:421-424 | Stores the key. |
| `Submitter.TelemetrySubmitter.Deliver` | src/airmap/monitor/telemetry_submitter.cpp:106-424 | A failed call clears the flag of its stage; a successful one runs the handler of its stage. |
| `VehicleStatus.EdgesFormPath` | src/airmap/mavlink/vehicle.cpp:49-59 | For every heartbeat history the reported edges lead from UNINIT to the present status without a self-loop, through exactly the statuses received, repetitions left out. |
| `VehicleStatus.ActiveIff` | src/airmap/monitor/submitting_vehicle_monitor.cpp:20-48 | The submitter is active exactly if some edge led from a grounded status to ACTIVE and none since from flying to grounded. |
| `VehicleStatus.ActiveIffAirborne` | src/airmap/monitor/submitting_vehicle_monitor.cpp:20-48 | With no POWEROFF or unlisted status, active holds exactly when the vehicle entered flight by becoming ACTIVE and has flown since; then it is ACTIVE, CRITICAL or EMERGENCY. |
| `VehicleStatus.NeverOutlivedIff` | src/airmap/monitor/submitting_vehicle_monitor.cpp:31-47 | For every history: active has implied ACTIVE, CRITICAL or EMERGENCY throughout exactly if no message took the vehicle of an active submitter to POWEROFF or an unlisted status. |
| `VehicleStatus.OutlivesStep` | src/airmap/monitor/submitting_vehicle_monitor.cpp:31-47 | The same for one message. |
| `VehicleStatus.PowerOffKeepsActive` | src/airmap/monitor/submitting_vehicle_monitor.cpp:31-47 | Counterexample: POWEROFF in flight followed by STANDBY leaves the submitter active. |
| `VehicleStatus.StatusNumbers` | src/airmap/monitor/submitting_vehicle_monitor.cpp:24-42 | Grounded are the statuses 0 to 3, flying 4 to 6; takeoff is from the former to 4. |
| `VehicleStatus.SubmittingVehicleMonitor.OnSystemStatusChanged` | src/airmap/monitor/submitting_vehicle_monitor.cpp:20-48 | After a takeoff the submitter is active, after a landing it is not, and otherwise nothing has changed. |
| `VehicleStatus.SubmittingVehicleMonitor.OnPositionChanged` | src/airmap/monitor/submitting_vehicle_monitor.cpp:50-53 | The submitter has the new position and has sent it, at the time given, exactly if it was active and held authorization, flight and key. |
| `VehicleStatus.SubmittingVehicleMonitor.OnMissionReceived` | src/airmap/monitor/submitting_vehicle_monitor.cpp:55-57 | The submitter has the new mission and nothing else has changed. |
| `VehicleTrackers.VehiclesIndependent` | src/airmap/mavlink/vehicle_tracker.cpp:15-25 | In every interleaved stream each tracked vehicle is in the state, and has caused the notices, of a fresh vehicle on its own messages alone. |
| `VehicleTrackers.InterleavingIrrelevant` | src/airmap/mavlink/vehicle_tracker.cpp:15-25 | Streams that agree vehicle by vehicle lead to the same vehicles. |
| `VehicleTrackers.AnnouncedByFirstMessage` | src/airmap/mavlink/vehicle_tracker.cpp:18-22 | A message announces its vehicle exactly when it is the first from there, and the announced vehicle is still fresh. |
| `VehicleTrackers.AnnouncedOnce` | src/airmap/mavlink/vehicle_tracker.cpp:18-22 | Every system id heard of is announced exactly once, others never. |
| `VehicleTrackers.VehicleTracker.Update` | src/airmap/mavlink/vehicle_tracker.cpp:15-25 | Adds and announces an unknown vehicle, processes the message in it, leaves every other vehicle alone. |
| `VehicleTrackers.VehicleTracker.FindOrAdd` | src/airmap/mavlink/vehicle_tracker.cpp:16-22 | The lookup half of it: a new vehicle is fresh, registered and announced to every monitor. |
| `VehicleTrackers.VehicleTracker.Announce` | src/airmap/mavlink/vehicle_tracker.cpp:20-21 | Tells every tracker monitor once. |
| `VehicleTrackers.VehicleTracker.RegisterMonitor` | src/airmap/mavlink/vehicle_tracker.cpp:27-29 | Adds the monitor to the set. |
| `VehicleTrackers.VehicleTracker.UnregisterMonitor` | src/airmap/mavlink/vehicle_tracker.cpp:31-33 | Removes it. |
| `Vehicles.MissionReportedIff` | src/airmap/mavlink/vehicle.cpp:71-78 | A message makes the vehicle report a mission exactly when it completes the in-order selection of items since the last count, and the report holds the waypoints among them. |
| `Vehicles.MissionIsUpload` | src/airmap/mavlink/vehicle.cpp:71-78 | The mission a vehicle holds depends on nothing but the mission messages. |
| `Vehicles.Vehicle.constructor` | src/airmap/mavlink/vehicle.cpp:20-21 | A fresh vehicle has status UNINIT, no position, no mission and no monitors. |
| `Vehicles.Vehicle.Update` | src/airmap/mavlink/vehicle.cpp:23-39 | Dispatches one message to its handler; all monitors see the notice, with the state before it. |
| `Vehicles.Vehicle.HandleHeartbeat` | src/airmap/mavlink/vehicle.cpp:49-59 | A changed status is reported and stored, an unchanged one is not reported. |
| `Vehicles.Vehicle.HandlePosition` | src/airmap/mavlink/vehicle.cpp:61-69 | Every position is reported with the one before it, then stored. |
| `Vehicles.Vehicle.HandleMission` | src/airmap/mavlink/vehicle.cpp:71-78 | A completed mission is reported as a line string of its waypoints. |
| `Vehicles.Vehicle.Notify` | src/airmap/mavlink/vehicle.cpp:50-57 | Each registered monitor is told exactly once. |
| `Mission.StoresSelection` | src/airmap/mavlink/mission.cpp:33-68 | For every message sequence the stored coordinates are the waypoints of the longest and earliest selection of items 0, 1, 2, ... since the last count or clear. |
| `Mission.GreedyIsSelection` | src/airmap/mavlink/mission.cpp:53-54 | Matching items greedily as they arrive gives such a selection: no in-order selection is longer or anywhere earlier. |
| `Mission.ReportedOnce` | src/airmap/mavlink/mission.cpp:62-65 | Since the last count a mission is reported once if the selection has reached a count above 0, else never. |
| `Mission.ReportedWhenReached` | src/airmap/mavlink/mission.cpp:53-68 | The reporting update is the one that makes the selection reach the announced count. |
| `Mission.CounterBounded` | src/airmap/mavlink/mission.cpp:53-55 | The counter never exceeds 65536, the number of sequence numbers. |
| `Mission.Tracker.Update` | src/airmap/mavlink/mission.cpp:15-27 | Dispatch to the three handlers; only items can complete a mission. |
| `Mission.Tracker.HandleClearAll` | src/airmap/mavlink/mission.cpp:33-37 | Forgets coordinates, counter and size. |
| `Mission.Tracker.HandleCount` | src/airmap/mavlink/mission.cpp:39-46 | Forgets coordinates and counter, takes the announced size. |
| `Mission.Tracker.HandleItem` | src/airmap/mavlink/mission.cpp:48-68 | Accepts the expected item, stores it if it is a waypoint, reports whether the size is reached. |
| `Channels.ChunkingIrrelevant` | src/airmap/mavlink/channel.cpp:59-87 | However the bytes are cut into chunks, parser state, counters and every delivery are the same as for one chunk. |
| `Channels.StreamDelivered` | src/airmap/mavlink/channel.cpp:48-87 | A subscriber that stays is handed every message of the byte stream, once and in order, whoever else comes and goes. |
| `Channels.SubscribersServed` | src/airmap/mavlink/channel.cpp:26-57 | In every run from a fresh channel each subscriber is handed exactly the messages framed while it was subscribed, as the operations alone tell, and received is good plus bad, modulo 2^64. |
| `Channels.SubscribedIff` | src/airmap/mavlink/channel.cpp:26-34 | In every run the subscribers are, without repetition, those whose subscription was not given up after it was made. |
| `Channels.RemovedIsGone` | src/airmap/mavlink/channel.cpp:31-34 | Unsubscribing removes that subscription and no other. |
| `Channels.CountersCount` | src/airmap/mavlink/channel.cpp:66-81 | In every run the counters are the numbers of good messages, of bad checksums and of both, modulo 2^64. |
| `Channels.FramedAlong` | src/airmap/mavlink/channel.cpp:63-82 | The parser goes through one state per byte; messages and bad frames are what it says on the way, bad signatures left out. |
| `Channels.Channel.ProcessMavlinkData` | src/airmap/mavlink/channel.cpp:59-87 | One pass over a chunk: the messages in order, nothing if there are none, and the counters. |
| `Channels.Channel.InvokeSubscribers` | src/airmap/mavlink/channel.cpp:48-57 | Every message to every subscriber, message by message. |
| `Channels.Channel.Subscribe` | src/airmap/mavlink/channel.cpp:26-29 | Appends a subscription. |
| `Channels.Channel.Unsubscribe` | src/airmap/mavlink/channel.cpp:31-34 | Erases that subscription (`Channels.RemovedIsGone`). |
| `Channels.Channel.Start` | src/airmap/mavlink/channel.cpp:36-42 | Zeroes the counters; the parser keeps what it has. |
| `Channels.Channel.HandleRead` | src/airmap/mavlink/boost/tcp_channel.cpp:37-49 | A completed read frames its bytes and hands on the messages. |
| `FilteringChannels.FiltersIff` | src/airmap/mavlink/channel.cpp:100-107 | For want of a semicolon the filter passes on what it was meant to drop: it meets its purpose exactly if no message arrives at all. |
| `FilteringChannels.PassesTheRest` | src/airmap/mavlink/channel.cpp:100-107 | What it passes on and what it was meant to pass on make up the stream. |
| `FilteringChannels.TracksTheOthers` | src/airmap/mavlink/channel.cpp:100-107 | A tracker behind it never knows the vehicle asked for and follows every other one as without the filter. |
| `FilteringChannels.FilteringChannel.OnMessage` | src/airmap/mavlink/channel.cpp:101-106 | The callback in place: a message of another system goes to all subscribers, one of the system asked for to none. |
| `Messages.ForeignIgnored` | src/airmap/pregenerated/telemetry.pb.cc:381-387 | A field of a number or wire type the message does not know, of each of the four wire types, leaves the rest of the parse as it is. |
| `Messages.StrayZeroFails` | src/airmap/pregenerated/telemetry.pb.cc:381-384 | A zero where a tag should be fails the parse. |
| `Wire.ValidIff` | src/airmap/pregenerated/amd_uav_flight_update.pb.cc:492-496 | A string passes as UTF-8 exactly if it is the encoding, as in section 3 of RFC 3629, of some Unicode scalar values. |
| `Wire.VarintBadIff` | src/airmap/pregenerated/telemetry.pb.cc:290-294 | Reading a varint fails exactly if none of its first ten bytes, or of those left, ends it. |
| `Wire.LongRunRefused` | src/airmap/pregenerated/amd_uav_flight_update.pb.cc:488-491 | A run is refused exactly if its length is 2^31 or more, or more than is left. |
| `Wire.FixedLayout` | src/airmap/pregenerated/telemetry.pb.cc:412-434 | Fixed-width numbers have their low byte first. |
| `Messages.ParseMerges` | src/airmap/pregenerated/telemetry.pb.cc:286-398 | Parsing a serialized message into another one, whatever follows, merges it in, and fails exactly if one of its strings is not UTF-8. |
| `Messages.RoundTrip` | src/airmap/pregenerated/telemetry.pb.cc:286-441 | Parsing a serialization gives the message back up to the sign of zeros, for every field pattern and all 64-bit values. |
| `Messages.ConcatenationMerges` | src/airmap/pregenerated/telemetry.pb.cc:549-574 | Two serializations one after the other parse to the merge of their messages. |
| `Messages.NormalIff` | src/airmap/pregenerated/telemetry.pb.cc:400-441 | The round trip is exact precisely for messages without a negative zero. |
| `Messages.ByteSizeCorrect` | src/airmap/pregenerated/telemetry.pb.cc:488-532 | The computed size is the serialized length: at most 44 bytes for a position, 26 for attitude and speed, 16 for a barometer reading. |
| `Messages.GeneratedTags` | src/airmap/pregenerated/amd_uav_flight_update.pb.cc:462-590 | The tag bytes of the message tables are those the generated parsers compare against. |
| `Messages.PayloadRoundTrip` | src/airmap/pregenerated/telemetry.pb.cc:296-380 | Each field value is read back from its bytes, whatever follows. |
| `Wire.Varint64RoundTrip` | src/airmap/pregenerated/telemetry.pb.cc:407-410 | Every 64-bit number is read back from its varint, the rest untouched. |
| `Wire.VarintSizeCorrect` | src/airmap/pregenerated/telemetry.pb.cc:498-503 | The comparison table for varint sizes gives the encoded length, at most ten. |
| `Wire.RunRoundTrip` | src/airmap/pregenerated/amd_uav_flight_update.pb.cc:603-610 | A length-delimited run is read back whole. |
| `Codec.Message.MergeFrom` | src/airmap/pregenerated/telemetry.pb.cc:549-574 | Present fields overwrite, others stay. |
| `Codec.Message.ByteSizeLong` | src/airmap/pregenerated/telemetry.pb.cc:488-532 | The sum over present fields is the length of the serialization. |
| `Codec.Message.SerializeWithCachedSizes` | src/airmap/pregenerated/telemetry.pb.cc:400-441 | Appends the present fields in number order. |
| `Codec.Message.WriteField` | src/airmap/pregenerated/amd_uav_flight_update.pb.cc:592-643 | Appends tag and value of one field, nothing if it is zero or empty. |
| `Codec.Message.MergePartialFromCodedStream` | src/airmap/pregenerated/telemetry.pb.cc:286-398 | The parse loop assigns fields as their tags come, skips what it does not know, and says whether it failed and where it stopped. |
| `FlightUpdates.ParseListMerges` | src/airmap/pregenerated/amd_uav_flight_update.pb.cc:213-253 | Parsing a serialized list of updates into another one appends it, and fails exactly if a flight id in it is not UTF-8. |
| `FlightUpdates.ListsConcatenate` | src/airmap/pregenerated/amd_uav_flight_update.pb.cc:340-348 | Two serialized lists parse to their concatenation. |
| `FlightUpdates.ListLayout` | src/airmap/pregenerated/amd_uav_flight_update.pb.cc:255-275 | Each update is field 1, tag byte 10, followed by its length and itself. |
| `FlightUpdates.ListRoundTrip` | src/airmap/pregenerated/amd_uav_flight_update.pb.cc:213-275 | Every nested list comes back whole. |
| `FlightUpdates.UpdateList.MergeFrom` | src/airmap/pregenerated/amd_uav_flight_update.pb.cc:340-348 | Appends the other list. |
| `FlightUpdates.UpdateList.SerializeWithCachedSizes` | src/airmap/pregenerated/amd_uav_flight_update.pb.cc:255-275 | Appends each update as tag, length and message. |
| `FlightUpdates.UpdateList.ByteSizeLong` | src/airmap/pregenerated/amd_uav_flight_update.pb.cc:300-323 | The computed size is the length of the serialized list. |
| `FlightUpdates.UpdateList.MergePartialFromCodedStream` | src/airmap/pregenerated/amd_uav_flight_update.pb.cc:213-253 | The loop that parses each run into a fresh update appended to the list. |
| `Telemetry.FramedRoundTrip` | src/airmap/rest/telemetry.cpp:155-212 | A framed payload is read back as the updates that went in, in order, field by field: code 1 with timestamp, latitude, longitude, altitudes above ground and above sea level and accuracy; 2 with x, y, z; 3 with yaw, pitch, roll; 4 with pressure; negative zeros as zeros. |
| `Telemetry.FrameLayout` | src/airmap/rest/telemetry.cpp:171-175 | The four bytes before each message are 0, the number of its type, 0 and its length. |
| `Telemetry.PacketLayout` | src/airmap/rest/telemetry.cpp:218-224 | Counter, one length byte, flight id, encryption type, vector and message follow each other; the length is cut to eight bits. |
| `Telemetry.BigLayout` | src/airmap/rest/telemetry.cpp:172-173 | Sizes and numbers of frame and header have their high byte first. |
| `Telemetry.SizeFits` | src/airmap/rest/telemetry.cpp:171-175 | No message outgrows its 16-bit length, so truncation never happens. |
| `Telemetry.PacketRoundTripIff` | src/airmap/rest/telemetry.cpp:217-224 | A packet is read back exactly when the flight id is at most 255 bytes long. |
| `Telemetry.SentIsReceived` | src/airmap/rest/telemetry.cpp:155-226 | Whoever can undo single cipher blocks reads the counter, the flight id, encryption type 1, a 16-byte vector and exactly those fields of the updates from the packet. |
| `Telemetry.Sender.SubmitUpdates` | src/airmap/rest/telemetry.cpp:155-226 | The packet is counter, flight id, encryption type, vector and encrypted frames; the counter goes up by one, modulo 2^32. |
| `Telemetry.Sender.AddUpdate` | src/airmap/rest/telemetry.cpp:161-212 | Appends type, length and message of one update. |
| `Telemetry.Sender.AddFrame` | src/airmap/rest/telemetry.cpp:172-174 | The frame itself, both numbers big-endian. |
| `Telemetry.Sender.Build` | src/airmap/rest/telemetry.cpp:163-209 | Sets each field of the message from the update. |
| `Telemetry.Sender.BuildPosition` | src/airmap/rest/telemetry.cpp:164-170 | The same for a position: altitude above ground goes before altitude above sea level. |
| `Codec.Buffer.Add` | src/airmap/rest/telemetry.cpp:71-74 | Appends to what is there. |
| `Cipher.Encrypt` | src/airmap/rest/telemetry.cpp:124-147 | The blocks written through the moving pointer are the chained blocks of the padded payload; they stay inside the buffer of payload size plus one block. |
| `Cipher.DecryptionUndoes` | src/airmap/rest/telemetry.cpp:124-147 | Undoing the chained blocks one by one and then the padding gives the payload back. |
| `Cipher.PaddingRoundTrip` | src/airmap/rest/telemetry.cpp:134-147 | Padding as in section 6.3 of RFC 5652 is undone without knowing the length. |
| `Cipher.PadLayout` | src/airmap/rest/telemetry.cpp:134-147 | One to sixteen bytes of padding, each of them their number, fill the last block. |
| `Cipher.BlockChained` | src/airmap/rest/telemetry.cpp:134-147 | Each cipher block is chained to the one before it, the first to the vector. |
| `Cipher.EncryptUpdate` | src/airmap/rest/telemetry.cpp:134-139 | Writes the chained blocks of the whole blocks of the payload and stops where the rest begins. |
| `Cipher.EncryptFinal` | src/airmap/rest/telemetry.cpp:141-145 | Writes the padded rest; with it the buffer holds the encryption of the payload. |
| `Cipher.WriteBlock` | src/airmap/rest/telemetry.cpp:134-145 | Writes one block at the pointer and moves it on. |
| `GeometryRoundTrip.RoundTrip` | src/airmap/codec/json/geometry.cpp:18-200 | Decoding an encoded geometry gives its canonical form, for every tree, and fails exactly when some node is invalid. |
| `GeometryRoundTrip.ExactRoundTripIff` | src/airmap/codec/json/geometry.cpp:18-200 | A geometry comes back as it was exactly when no node is invalid, no coordinate has an elevation and all numbers survive single precision. |
| `GeometryRoundTrip.CoordinateForm` | src/airmap/codec/json/geometry.cpp:176-184 | A coordinate is encoded as longitude, latitude, then altitude and elevation where set. |
| `GeometryRoundTrip.EncodedForm` | src/airmap/codec/json/geometry.cpp:115-142 | The members of each kind of encoded geometry, by name. |
| `GeometryRoundTrip.EncodedElements` | src/airmap/codec/json/geometry.cpp:186-200 | Encoded lists have one element for each of theirs, the outer ring before the inner ones. |
| `GeometryRoundTrip.DecodedKind` | src/airmap/codec/json/geometry.cpp:18-79 | Whatever JSON is decoded, the result is of the kind the JSON names. |
| `GeometryRoundTrip.CoordinateTrip` | src/airmap/codec/json/geometry.cpp:81-86 | Longitude goes first; a third number is read as altitude, be it altitude or elevation. |
| `GeometryRoundTrip.PolygonTrip` | src/airmap/codec/json/geometry.cpp:95-106 | The first ring comes back as the outer one, all others as inner rings in order. |
| `GeometryJson.Encode` | src/airmap/codec/json/geometry.cpp:115-142 | Name and coordinates of each kind of geometry, recursively. |
| `GeometryJson.EncodeMembers` | src/airmap/codec/json/geometry.cpp:144-147 | Members are pushed one by one. |
| `GeometryJson.EncodeCoordinates` | src/airmap/codec/json/geometry.cpp:186-189 | Coordinates are pushed one by one; an empty list stays null. |
| `GeometryJson.EncodeLines` | src/airmap/codec/json/geometry.h:48-52 | Lines are pushed one by one. |
| `GeometryJson.EncodePolygon` | src/airmap/codec/json/geometry.cpp:191-195 | The outer ring is pushed first, then the inner ones. |
| `GeometryJson.EncodePolygons` | src/airmap/codec/json/geometry.cpp:197-200 | Polygons are pushed one by one. |
| `GeometryJson.Decode` | src/airmap/codec/json/geometry.cpp:18-53 | Chooses the decoder by name, recursively. |
| `GeometryJson.DecodeMembers` | src/airmap/codec/json/geometry.cpp:55-60 | Decodes members one by one; a failure ends it. |
| `GeometryJson.DecodeCoordinates` | src/airmap/codec/json/geometry.h:54-60 | Decodes coordinates one by one; a failure ends it. |
| `GeometryJson.DecodeLines` | src/airmap/codec/json/geometry.cpp:88-93 | Decodes lines one by one. |
| `GeometryJson.DecodePolygon` | src/airmap/codec/json/geometry.cpp:95-106 | The element at index 0 becomes the outer ring, each later one an inner ring. |
| `GeometryJson.DecodePolygons` | src/airmap/codec/json/geometry.cpp:108-113 | Decodes polygons one by one. |
| `ContextProtocol.OneInside` | src/airmap/boost/context.cpp:101-131 | For any number of threads and any interleaving, exactly one thread is inside run while the state is not stopped, none otherwise, and no more stops succeed than runs. |
| `ContextProtocol.FirstResult` | src/airmap/boost/context.cpp:107-130 | While no second run has got in, at most one call of run returns other than refused, and what it returns is the argument of the stop that ended it, or success if that was stored before the reset. |
| `ContextProtocol.RefusedIff` | src/airmap/boost/context.cpp:101-105 | In every run a call of run is refused, returning that it is already running and changing nothing, exactly if another thread is inside; otherwise the thread gets in. |
| `ContextProtocol.EveryCallReturns` | src/airmap/boost/context.cpp:101-121 | In every run each thread has had one return for each of its calls of run, except for the one it is still in. |
| `ContextProtocol.StoppedIff` | src/airmap/boost/context.cpp:123-131 | In every run the service is stopped exactly if some stop that succeeded has done all its steps. |
| `ContextProtocol.ThreadsLeave` | src/airmap/boost/context.cpp:109-131 | Once the service is stopped, a thread is out of run and stop after a number of its own steps, at most six, fixed by where it is, whatever the others do. |
| `ContextProtocol.LateStopDecides` | src/airmap/boost/context.cpp:107-130 | A stop whose swap succeeds after the reset store decides what the first run, once it has returned, has returned, however the threads go on while no second run has got in. |
| `ContextProtocol.EarlyCodeLost` | src/airmap/boost/context.cpp:107-129 | A run that shows the other case: the argument is stored between the swap and the reset store of run, and run has returned success. |
| `ContextProtocol.StepInvariant` | src/airmap/boost/context.cpp:101-131 | Every atomic access of every thread keeps the invariant. |
| `Simulator.WalksRing` | src/airmap/util/telemetry_simulator.cpp:59-81 | For every sequence of non-decreasing update times the simulator is on the segment, with the ruler, bearing and length, and as many metres from its start, as an odometer driven by the times alone; segments repeat modulo n - 1. |
| `Simulator.StepRolls` | src/airmap/util/telemetry_simulator.cpp:59-81 | One update moves simulator and odometer together. |
| `Simulator.OvershootBounded` | src/airmap/util/telemetry_simulator.cpp:60-74 | Travel exceeds the segment length by at most the last step, and segments are entered one after the other. |
| `Simulator.TravelIsCredited` | src/airmap/util/telemetry_simulator.cpp:60-78 | Over all segments the walk covers two metres for each second credited. |
| `Simulator.TwoMetresPerSecond` | src/airmap/util/telemetry_simulator.cpp:76-78 | The speed of one update, with milliseconds truncated toward zero. |
| `Simulator.StartTimeIsEntry` | src/airmap/util/telemetry_simulator.cpp:72 | The start time of the segment is the reading of the clock during the update that entered it. |
| `Simulator.Offsets` | src/airmap/util/cheap_ruler.cpp:47-56 | The destination lies in the direction of the bearing, counted clockwise from north. |
| `Simulator.CreditBounded` | src/airmap/util/telemetry_simulator.cpp:76-78 | Credited time is the elapsed time less under one millisecond per update. |
| `Simulator.FastUpdatesStandStill` | src/airmap/util/telemetry_simulator.cpp:76-78 | Updates less than a millisecond apart never move the simulator. |
| `Simulator.DistanceOfDestination` | src/airmap/util/cheap_ruler.cpp:40-56 | The destination lies as far away as asked, in the same ruler. |
| `Simulator.TelemetrySimulator.constructor` | src/airmap/util/telemetry_simulator.cpp:18-28 | Starts on the first segment at the first point. |
| `Simulator.TelemetrySimulator.Copy` | src/airmap/util/telemetry_simulator.cpp:30-42 | The copy has the same state, so all updates of it give the same. |
| `Simulator.TelemetrySimulator.Update` | src/airmap/util/telemetry_simulator.cpp:59-81 | One update in place: enter the next segment if the position is past the end, then move along the bearing. |
| `TabWriter.ColumnsAligned` | src/airmap/util/cli.cpp:92-104 | For every table, ragged or not, cell k of every row is printed at the same offset from the start of its line, the sum over earlier columns of the longest cell plus one, and filled to its width. |
| `TabWriter.CellsSeparated` | src/airmap/util/cli.cpp:92-104 | One separator before each cell but the first of a line, one line break before each line but the first, and nothing after the last of either. |
| `TabWriter.LongestBounds` | src/airmap/util/cli.cpp:116-127 | No cell is longer than the width of its column. |
| `TabWriter.LongestOccurs` | src/airmap/util/cli.cpp:116-127 | A width above 0 is the length of some cell in the column. |
| `TabWriter.WidthsAfterCell` | src/airmap/util/cli.cpp:116-127 | Maintaining the widths one cell at a time keeps them the widths of the table. |
| `TabWriter.Writer.Write` | src/airmap/util/cli.cpp:116-127 | Appends the cell to the last row; widths and current column stay those of the table. |
| `TabWriter.Writer.NewLine` | src/airmap/util/cli.cpp:129-133 | Appends an empty row and goes back to the first column. |
| `TabWriter.Writer.Flush` | src/airmap/util/cli.cpp:92-104 | The nested loop prints the rows with the maintained widths. |

## Left out

- Flight-plan parameters: computing them from the mission (a line string is stored and read as a polygon) is not modelled; the geometry is passed along opaquely, with the current position.
- Server replies: each reply carries one opaque value; a submitted plan is taken to carry a flight id, although the field is optional.
- Logging: success and failure of the end-flight request are only logged by the source, so its completion changes nothing here.
- AES, base64 and random bytes: the block chaining of a key is a parameter, its inverse a hypothesis of the receiving side, the key is not decoded, and errors of the library are not modelled.
- The MAVLink frame parser, decoding of message payloads and asio: the parser is an arbitrary step function; messages arrive decoded.
- The subscriber list's mutex and calls of subscribers that subscribe again from inside a delivery: a delivery works on the copy taken before it.
- Channels.Channel.Subscribe: a subscription is a number instead of a list iterator; unsubscribing twice is excluded as it is undefined in the source.
- FilteringChannels.FilteringChannel.OnMessage: what the author meant, passing on the messages of one system, is false of the code and not what is stated; subscribing with the channel behind it and stopping are not modelled.
- Monitors registering further monitors from inside a callback, and the order in which an unordered set of monitors is walked: every order is allowed, the set does not change meanwhile.
- LoggingVehicleTrackerMonitor: its removal callback calls the added callback of the next monitor; nothing in the tracker ever removes a vehicle, so the member is left out.
- Codec.Message.MergePartialFromCodedStream: fields assigned before a failed parse are not stated; an unknown group, which the source skips, fails here; unknown fields are skipped but not stored.
- FlightUpdates.UpdateList.MergePartialFromCodedStream: a run longer than the remaining input fails at once instead of after its partial contents.
- Codec.Message.SerializeWithCachedSizes: the source only logs a string that is not UTF-8 and writes it all the same, as here; reflection, arenas, descriptors and cached sizes are not modelled.
- Telemetry.Sender.SubmitUpdates: the counter is a field instead of a static variable, and the sender is a returned packet; narrowing a double to a float is an arbitrary function of its bits.
- GeometryJson.Decode: an unknown type name (an uninitialised enumeration in the source), missing keys and exceptions are all one failure; booleans are not JSON numbers here.
- ContextProtocol.FirstResult: says nothing once a second run has got in, since nothing resets the service and the code may then be that of either session; exec with signals, schedule and dispatch are not modelled.
- Simulator.WalksRing: real arithmetic, so floating-point rounding and the accuracy of the ruler's trigonometry are not captured; the special cases of the bearing are inside the bearing parameter.
- TabWriter.Writer.Flush: the output is a string; a field width already set on the stream is not modelled.
- REST and Qt wrappers, decoders of flat records, option parsing and paths: they hold no state the properties here depend on; what they pass on arrives as a parameter or a reply.
- Airspace, Token, Outcome and Optional unions and timestamp conversions: the properties here never look inside them, a reply is one opaque value and a time is a number.
