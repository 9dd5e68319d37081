# darjeeling-ardupilot, modelled in Dafny

darjeeling-ardupilot is a Darjeeling plugin that runs START test cases
against the ArduPilot software-in-the-loop simulator (SITL). A test names a
WPL mission file, a parameters file, a timeout, a simulator speed-up and,
optionally, a dynamic attack: a parameter write sent to the vehicle once the
mission reaches a given waypoint. A trial launches SITL behind a MAVProxy
relay, issues the mission to the vehicle (wait until armable, wait for the
home location, arm, upload, switch to AUTO and send the start command),
watches the mission cursor until it rolls back to 0, and lets a monitor
decide whether the vehicle visited every waypoint and came back home.

This project models the decision procedures underneath that plumbing:

- `wrappers.dfy` — `Option` and `Result`, standing for `None` and raised exceptions.
- `text.dfy` — Python's `str.split()`, `sep.join`, `int()` and `str()` on integers.
- `dronekit.dfy` — the part of a DroneKit vehicle session the code writes to,
  as a `Vehicle` object (command list, uploads, arm request, mode, messages
  sent, parameters).
- `ardu.dfy` — the `Mission` value and WPL parsing, the `issue` and
  `execute` protocols run against finite traces of vehicle polls, and the
  SITL and MAVProxy command lines.
- `attack.dfy` — attack descriptions and the watcher that
  fires the attack.
- `config.dfy` — the parsed YAML values the loaders receive.
- `simple.dfy` — the simple monitor and the monitor lifecycle of `core.py`.
- `plugin.dfy` — loading test and suite definitions, and the built suite.

What the vehicle reports (armable, armed, home known, the mission cursor,
how long an acknowledgement takes) and the stopwatch readings arrive as a
finite trace of polls. A polling loop that has not decided when its trace
ends yields `Unobserved`. Each evaluation of a loop condition consumes one
poll, and the next phase starts at the next poll. Reading a number field
with `float()` is a function passed in by the caller. Reading the mission
file, `os.path.exists` and `os.path.abspath` go through a `FileSystem`
value.

Mission equality: the code marks `commands` (and the derived fields) as
excluded from equality, so two missions are equal exactly when
their file names are; the model follows the code (`Ardu.MissionEq`,
`Ardu.EqualityIgnoresCommands`), not a reading in which the commands also
take part.

## Model

| member | source | states |
|---|---|---|
| Ardu.NewMission | src/darjeeling_ardupilot/ardu.py:67-70 | constructing a mission succeeds exactly when the command list is non-empty; otherwise the validator's error |
| Ardu.Len | src/darjeeling_ardupilot/ardu.py:101-103 | the length is the number of commands and is at least 1 |
| Ardu.GetItem | src/darjeeling_ardupilot/ardu.py:97-99 | indexing succeeds exactly for -len <= i < len, and a non-negative index gives that command |
| Ardu.NegativeIndexAliases | src/darjeeling_ardupilot/ardu.py:97-99 | index i - len denotes the same command as index i |
| Ardu.IndexSetIsRange | src/darjeeling_ardupilot/ardu.py:64-65 | `frozenset(range(n))` holds exactly 0..n-1 and has n elements |
| Ardu.WaypointsAreIndices | src/darjeeling_ardupilot/ardu.py:64-65 | the waypoint set is exactly {0, ..., len-1}; its size is the mission's length; 0 is always in it |
| Ardu.MissionEqIsEquivalence | src/darjeeling_ardupilot/ardu.py:48-54 | mission equality is reflexive, symmetric and transitive |
| Ardu.EqualityIgnoresCommands | src/darjeeling_ardupilot/ardu.py:48-54 | two constructed missions are equal iff their file names are, while their lengths and waypoint sets agree iff their command counts do and their homes agree iff their first commands' positions do |
| Ardu.HomeFromFirstLine | src/darjeeling_ardupilot/ardu.py:56-63 | a loaded mission's home is the x, y, z of the first command line (fields 8, 9, 10) with heading 0 |
| Ardu.ParseFloats | src/darjeeling_ardupilot/ardu.py:91 | the list of floats succeeds iff every token reads as a number, pointwise equal to the readings |
| Ardu.FieldsToCommand | src/darjeeling_ardupilot/ardu.py:85-95 | a split line succeeds iff it has at least 11 fields (any further fields are ignored) with integer fields 0, 2, 3 and numeric fields 4-10; frame from field 2, command from field 3, p1..p4, x, y, z from fields 4-10; current flag, autocontinue and targets are 0 |
| Ardu.LineToCommand | src/darjeeling_ardupilot/ardu.py:82-95 | a line is accepted iff its whitespace-split fields are well formed; fewer than 11 fields is always an error |
| Ardu.LineFieldsByPosition | src/darjeeling_ardupilot/ardu.py:85-95 | for a line built from well-formed words joined by any run of whitespace (a space, a tab, several blanks), the command is exactly the one assembled from fields 2-10 by position |
| Ardu.IndexFieldIgnored | src/darjeeling_ardupilot/ardu.py:86-87 | two lines with the same whitespace separator, differing only in the index and current-flag fields, give the same result |
| Ardu.ParseLines | src/darjeeling_ardupilot/ardu.py:79 | one command per line, in order; on failure, the first bad line and its error are reported |
| Ardu.FromLines | src/darjeeling_ardupilot/ardu.py:76-79 | the header is dropped: a file of at most one line is rejected as empty; loading succeeds iff every line after the header parses, command i then coming from line i+1; otherwise the first bad line is reported with its own error |
| Ardu.FromFile | src/darjeeling_ardupilot/ardu.py:73-79 | a file that does not exist is reported as not found; loading succeeds iff the file exists, has a line after the header and every such line parses; the mission then carries the absolute file name and command i is line i+1 parsed |
| Ardu.HeaderIgnored | src/darjeeling_ardupilot/ardu.py:79 | the content of the header line never changes the outcome |
| Ardu.TimeLeft | src/darjeeling_ardupilot/ardu.py:129-130 | the time left is never negative and is either 0 or what remains of the budget |
| Ardu.Await | src/darjeeling_ardupilot/ardu.py:133-157 | a waiting loop leaves at the first poll where its condition holds, raises at the first poll past the timeout (or, waiting for home, whose download is not acknowledged in the time left), and every poll before is quiet |
| Ardu.AwaitPhase | src/darjeeling_ardupilot/ardu.py:133-157 | the `while` loop of a phase computes exactly `Await` |
| Ardu.Prepare | src/darjeeling_ardupilot/ardu.py:132-158 | the three waits run in order, and the arm request is recorded exactly when the home location was found |
| Ardu.UploadMission | src/darjeeling_ardupilot/ardu.py:160-165 | the vehicle's list becomes the mission's commands in order, and exactly that list is uploaded once; nothing else changes |
| Ardu.Issue | src/darjeeling_ardupilot/ardu.py:105-177 | `issue` returns the outcome of the phase sequence and leaves the vehicle in the state `IssueEffect` describes: armed requested after home, commands cleared then added in order and uploaded after arming, AUTO and the start message only after the upload is acknowledged |
| Ardu.IssueStages | src/darjeeling_ardupilot/ardu.py:132-169 | a successful issue went through armable, home and armed in turn, and the upload was acknowledged at the poll after the arm confirmation |
| Ardu.IssuePhasesInOrder | src/darjeeling_ardupilot/ardu.py:132-170 | a successful issue saw the vehicle armable, then home known, then armed, at strictly increasing polls, and the upload acknowledged in time after that |
| Ardu.IssueTimeoutJustified | src/darjeeling_ardupilot/ardu.py:133-169 | every setup timeout happens at a poll whose stopwatch strictly exceeds the timeout, or whose acknowledgement does not fit the time left |
| Ardu.AwaitBounded | src/darjeeling_ardupilot/ardu.py:133-157 | a wait with a poll past the deadline ahead of it decides no later than that poll |
| Ardu.IssueCannotHang | src/darjeeling_ardupilot/ardu.py:133-169 | once every remaining poll is past the timeout and four polls remain, issue has finished or raised |
| Ardu.IssuedVehicle | src/darjeeling_ardupilot/ardu.py:160-177 | after a successful issue the vehicle's list is the mission's commands in order, one upload of them was sent, mode is AUTO and the last message is MISSION_START addressed to len+1 |
| Ardu.TimedOutVehicle | src/darjeeling_ardupilot/ardu.py:133-177 | a setup that did not finish never changed the mode nor sent the start message |
| Ardu.StartedBeforeStep | src/darjeeling_ardupilot/ardu.py:218 | `has_started` latches: it becomes true at the first non-zero cursor and stays true |
| Ardu.TrackOutcome | src/darjeeling_ardupilot/ardu.py:215-235 | the flight loop completes exactly at the first return of the cursor to 0 after a start, times out exactly at the first poll past the deadline that is not a completion, and completion is checked before the timeout |
| Ardu.InitialZeroNeverCompletes | src/darjeeling_ardupilot/ardu.py:218-231 | a cursor reading 0 at the first poll does not complete the mission |
| Ardu.CompletionNeedsStart | src/darjeeling_ardupilot/ardu.py:229-231 | a completed flight read a non-zero cursor before its final 0 |
| Ardu.StalledVehicleTimesOut | src/darjeeling_ardupilot/ardu.py:215-235 | a cursor that never leaves 0 times out at the first poll past the deadline |
| Ardu.NoReturnTimesOut | src/darjeeling_ardupilot/ardu.py:233-235 | a flight that never returns to 0 after starting times out at the first poll past the deadline |
| Ardu.TrackIgnoresLaterPolls | src/darjeeling_ardupilot/ardu.py:230-235 | once the loop has decided, later polls do not change the verdict |
| Ardu.Execute | src/darjeeling_ardupilot/ardu.py:179-237 | `execute` issues the mission and then runs the cursor loop; result and vehicle state are those of the specification |
| Ardu.NewSitl | src/darjeeling_ardupilot/ardu.py:257-263 | exactly copter, rover and plane are accepted, running `arducopter`, `ardurover` and `arduplane` under the SITL directory; any other model is a key error; the other settings are kept as given |
| Ardu.BinaryIdentifiesModel | src/darjeeling_ardupilot/ardu.py:258-263 | different models get different binaries |
| Ardu.LaunchCommandWords | src/darjeeling_ardupilot/ardu.py:287-298 | the launch command reads back as binary, `--speedup` n, `--model` m, `--home` h, `--defaults` f, and the speed-up word reads back as the speed-up |
| Ardu.RelayUrls | src/darjeeling_ardupilot/ardu.py:304 | one relay URL per port |
| Ardu.RelayUrlsNamePorts | src/darjeeling_ardupilot/ardu.py:304 | each relay URL is `udp:127.0.0.1:` followed by its own port, which reads back |
| Ardu.RelayUrlsAreWords | src/darjeeling_ardupilot/ardu.py:304 | relay URLs contain no whitespace |
| Ardu.OutArgs | src/darjeeling_ardupilot/ardu.py:306 | one `--out` argument per URL |
| Ardu.SplitOutArgs | src/darjeeling_ardupilot/ardu.py:306-307 | the `--out` arguments read back as `--out`, URL pairs in URL order |
| Ardu.MasterArgIsWord | src/darjeeling_ardupilot/ardu.py:302-305 | the master argument is one word |
| Ardu.MavproxyHeadWords | src/darjeeling_ardupilot/ardu.py:305 | the first argument reads back as binary, `--daemon`, `--master=tcp:<ip>:5760` |
| Ardu.MavproxyCommandWords | src/darjeeling_ardupilot/ardu.py:301-307 | the relay command line reads back as binary, `--daemon`, the master URL, then `--out` and the relay URL for each port in order |
| Text.Split | src/darjeeling_ardupilot/ardu.py:85 | `split()` yields only non-empty, whitespace-free fields; `Text.SplitKeepsNonSpace` and `Text.SplitAroundGap` tie them to the input |
| Text.SplitJoin | src/darjeeling_ardupilot/ardu.py:85 | words joined by any run of whitespace split back into the same words |
| Text.SplitAroundGap | src/darjeeling_ardupilot/ardu.py:85 | splitting at a run of whitespace splits the two sides independently |
| Text.SplitKeepsNonSpace | src/darjeeling_ardupilot/ardu.py:85 | `split()` drops only whitespace: its fields, concatenated, are the input's non-whitespace characters in order |
| Text.ParseShowInt | src/darjeeling_ardupilot/ardu.py:294 | an integer written with `str` reads back with `int` as itself |
| Dronekit.Vehicle.Clear | src/darjeeling_ardupilot/ardu.py:162 | the local command list becomes empty; nothing else changes |
| Dronekit.Vehicle.Add | src/darjeeling_ardupilot/ardu.py:164 | the command is appended to the local list; nothing else changes |
| Dronekit.Vehicle.Upload | src/darjeeling_ardupilot/ardu.py:165 | the local list is sent as one upload; nothing else changes |
| Dronekit.Vehicle.RequestArm | src/darjeeling_ardupilot/ardu.py:153 | the arm request is recorded; nothing else changes |
| Dronekit.Vehicle.SetMode | src/darjeeling_ardupilot/ardu.py:173 | the mode is set; nothing else changes |
| Dronekit.Vehicle.SendMavlink | src/darjeeling_ardupilot/ardu.py:175-177 | the message is appended to those sent; nothing else changes |
| Dronekit.Vehicle.SetParameter | src/darjeeling_ardupilot/attack.py:30 | the parameter map gets the new value; nothing else changes |
| Attacks.FromDict | src/darjeeling_ardupilot/attack.py:20-25 | the keys are required in the order parameter, value, waypoint; success iff all three are present with the right types, and the attack carries them |
| Attacks.Watch | src/darjeeling_ardupilot/attack.py:39-50 | the watcher fires at the first poll with cursor >= trigger, stops at a stop signal, ends at a lost connection, each only if every earlier poll read a cursor below the trigger |
| Attacks.FiresAtFirstReach | src/darjeeling_ardupilot/attack.py:40-46 | the attack fires at poll i if and only if i is the first poll reaching the trigger and nothing ended the watcher before |
| Attacks.StopOrLossPreventsAttack | src/darjeeling_ardupilot/attack.py:41-50 | a stop signal or lost connection before the trigger is reached means the attack is never sent |
| Attacks.WatchIgnoresLaterPolls | src/darjeeling_ardupilot/attack.py:44-46 | once the watcher decided it has returned: later polls change nothing, so the write happens at most once |
| Attacks.Attack.SendEffect | src/darjeeling_ardupilot/attack.py:27-33 | an acknowledged write sets the parameter to the value; a timed-out write leaves the vehicle as it was; nothing but parameters changes |
| Attacks.Attack.Send | src/darjeeling_ardupilot/attack.py:27-33 | `_send` changes the vehicle exactly as `SendEffect` |
| Attacks.Attack.WaitLoop | src/darjeeling_ardupilot/attack.py:39-50 | the loop's outcome is `Watch`, and the vehicle is changed by one send exactly when it fired |
| Config.Get | src/darjeeling_ardupilot/plugin.py:92 | `d.get(key, default)` is the entry when present and the default otherwise |
| Simple.Seen | src/darjeeling_ardupilot/simple.py:50-51 | the indices recorded from a stream of messages are exactly those that occur in it |
| Simple.VisitedAllExactly | src/darjeeling_ardupilot/simple.py:66-73 | the waypoint check passes iff every index 0..len-1 was visited and nothing outside that range was |
| Simple.SimpleMonitorStatus.constructor | src/darjeeling_ardupilot/simple.py:20-21 | both flags start false, so the status is not ok |
| Simple.SimpleMonitorStatus.IsOk | src/darjeeling_ardupilot/simple.py:23-24 | ok iff home was reached and all waypoints were visited |
| Simple.SimpleMonitor.constructor | src/darjeeling_ardupilot/simple.py:29-35 | a fresh monitor has a fresh status, no URL, no connection and nothing visited |
| Simple.SimpleMonitor.IsOk | src/darjeeling_ardupilot/core.py:40-41 | the monitor's verdict is its status's verdict, read without changing anything |
| Simple.SimpleMonitor.AttachTo | src/darjeeling_ardupilot/simple.py:41-43 | the URL is remembered; nothing else changes |
| Simple.SimpleMonitor.Open | src/darjeeling_ardupilot/simple.py:45-54 | opening succeeds iff a non-empty URL was attached, and then the connection is live |
| Simple.SimpleMonitor.OnMissionCurrent | src/darjeeling_ardupilot/simple.py:50-51 | a message on a live connection adds its index; the visited set never shrinks |
| Simple.SimpleMonitor.NotifyMissionEnd | src/darjeeling_ardupilot/simple.py:56-79 | without a connection nothing changes; otherwise the waypoint flag is set iff visited equals the waypoint set, the home flag iff the distance is below 3.0, and neither flag is ever cleared |
| Simple.SimpleMonitor.Close | src/darjeeling_ardupilot/simple.py:81-83 | only an opened connection is closed |
| Simple.SimpleMonitor.Enter | src/darjeeling_ardupilot/core.py:43-45 | entering opens the monitor and yields the monitor itself |
| Simple.SimpleMonitor.Exit | src/darjeeling_ardupilot/core.py:47-48 | leaving closes the monitor whatever the reason and never suppresses an exception |
| Simple.MonitorTrial | src/darjeeling_ardupilot/simple.py:41-83 | a monitored trial is ok iff the URL is non-empty, the indices heard are exactly the waypoint set and the final distance to home is below 3.0 |
| Plugin.TimeoutWithoutSpeedup | src/darjeeling_ardupilot/plugin.py:61-63 | the wall-clock budget is the timeout scaled by the speed-up: for a non-zero speed-up it divides exactly by the speed-up and the quotient is the timeout, and it is 0 at speed-up 0; it equals the timeout at speed-up 1 and is never smaller for a positive speed-up |
| Plugin.ScaledTimeout | src/darjeeling_ardupilot/plugin.py:61-63 | the facts about timeout × speedup the budget relies on: identity at 1, 0 at 0, no shrinking for a positive speed-up, exact division by a non-zero speed-up |
| Plugin.PathJoin | src/darjeeling_ardupilot/plugin.py:101-102 | joining keeps an absolute path, keeps the directory as prefix and the path as suffix otherwise |
| Plugin.MissionPath | src/darjeeling_ardupilot/plugin.py:100-102 | relative mission paths are taken from the directory, so the path is absolute when the directory is |
| Plugin.ParametersFile | src/darjeeling_ardupilot/plugin.py:87-94 | the parameters file defaults to /opt/ardupilot/copter.parm and is accepted iff it is an absolute path |
| Plugin.LoadMission | src/darjeeling_ardupilot/plugin.py:96-106 | a missing mission is rejected; loading succeeds iff the mission is named, the joined path exists and the file loads, the mission being the one loaded from it; "not found" is reported iff the joined path does not exist, and names that path; a file that fails to load passes on its error |
| Plugin.Settings | src/darjeeling_ardupilot/plugin.py:108-121 | succeeds iff the speed-up (default 1) and the timeout are integers and any attack given loads; a missing timeout is rejected; the attack is absent iff the key is absent, and otherwise loaded from it, its error passed on |
| Plugin.TestFromDict | src/darjeeling_ardupilot/plugin.py:65-128 | a missing name is reported before anything else; succeeds iff the name, parameters, mission and settings all load, and the test is assembled from them; otherwise the first failing stage's error is reported, in the order parameters, mission, settings; "mission not found" is reported iff name and parameters are fine and the mission file is missing |
| Plugin.LoadTest | src/darjeeling_ardupilot/plugin.py:167 | an item of the tests section is loaded as a test definition |
| Plugin.LoadTests | src/darjeeling_ardupilot/plugin.py:167 | all tests load in order, or the first failing one is reported with its index and error |
| Plugin.SuiteFromDict | src/darjeeling_ardupilot/plugin.py:146-169 | a directory is required; the vehicle defaults to copter; a missing tests section is rejected; succeeds iff the directory is given, the vehicle is a string, the tests section is a list and every test loads, the tests being those loaded in order; otherwise the first failing test's error is reported |
| Plugin.Build | src/darjeeling_ardupilot/plugin.py:171-178 | the suite keeps the model and is keyed by exactly the tests' names |
| Plugin.ByNameKeys | src/darjeeling_ardupilot/plugin.py:175 | the map's keys are the names, and each maps to a listed test carrying that name |
| Plugin.ByNameLastWins | src/darjeeling_ardupilot/plugin.py:175 | a name maps to the last test listed with it |
| Plugin.DuplicateNameReplaced | src/darjeeling_ardupilot/plugin.py:175 | a later test with a duplicate name replaces the earlier one |
| Plugin.GetItem | src/darjeeling_ardupilot/plugin.py:192-193 | lookup succeeds iff the name is a key |
| Plugin.SuiteLookup | src/darjeeling_ardupilot/plugin.py:192-193 | a name is found in a built suite iff some listed test has it, and the test found carries that name |
| Plugin.Length | src/darjeeling_ardupilot/plugin.py:198-199 | the length is the number of keys |
| Plugin.SuiteLength | src/darjeeling_ardupilot/plugin.py:198-199 | the suite's length is the number of distinct names, never more than the number of tests listed |

## Left out

- Real time: the stopwatches, `time.sleep` and poll intervals become the `elapsed` readings carried by each poll.
- The DroneKit session itself (connecting, heartbeats, `download`, `wait_ready`, message listeners): what the vehicle reports is a trace of polls, and an acknowledgement wait is a delay compared with the time left.
- The STATUSTEXT listener that `execute` adds, and the logging of the cursor, distance and mode at each new waypoint: they affect no outcome.
- Threads and the stop `Event` of `attack.py`: the stop signal is a kind of poll in the watcher's trace; the connection made by `wait_and_send` is not modelled.
- `executor.py`, the worker process that runs a trial and turns a timeout into a failure, is not part of this model.
- `SITL.open`/`close` and the MAVProxy process start and teardown: only the command strings are modelled.
- `distance_metres` and all floating-point arithmetic: the monitor is given the distance to home as an input.
- `float()`: a caller-supplied function from a field to an optional number. The text form of the home tuple in `SITL.command` is given as four strings.
- `int()` accepts only an optional sign and ASCII digits; underscores, surrounding whitespace and non-ASCII digits that Python also accepts are not modelled (after `split()` there is no whitespace left).
- File I/O: reading the mission file, `os.path.exists` and `os.path.abspath` are functions of a `FileSystem` value; `open` failing on a missing file is the only I/O error modelled (permission errors, directories and decoding errors are not).
- The MAVLink port pool `CircleIntBuffer` and `StartTestSuite.execute`/`_execute_with_monitor`: `util.py` is not part of this model.
- `StartTestSuite.__iter__`, `__str__`, `__repr__`, and the Darjeeling environment passed to `build`.
- Plugin.TestFromDict: Python does not check the types of configuration values; the model reports a value of the wrong kind as `BadType`, and an item of the tests section that is not a dictionary as `NotADict`.
- Attacks.FromDict: likewise reports a value of the wrong kind as `WrongType`, where Python would build the attack anyway.
- Plugin.SuiteFromDict: likewise rejects a non-string vehicle and a tests section that is not a list.
- Simple.SimpleMonitor.Open: a connection failure of `dronekit.connect` is not modelled; opening with an attached non-empty URL always succeeds.
- Default arguments are explicit parameters: the `timeout=30.0` of `issue`, the `timeout_setup=90.0` and `timeout_mission=120.0` of `execute`, and the SITL `home` and `speedup=1` defaults are supplied by the caller; a call with the defaults is an instance of the model.
- Ardu.GetItem: slices (`Union[int, slice]` in `Mission.__getitem__`) are not modelled, only integer indices; nothing in the modelled code slices a mission.
- Hashing of missions: only equality is modelled.
- Simple.MonitorTrial: models a trial in which every MISSION_CURRENT message arrives while the monitor is open; messages racing with `close` are not modelled.
