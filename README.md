# CyberInfiltrator game engine, in Dafny

This project models the in-memory engine of the CyberInfiltrator hacking game (package `game`):

- **The command interpreter and objective tracker (`State`).**
  - It records every typed line and splits it into fields.
  - It gates verbs on the unlocked tools, with "help" always allowed.
  - It dispatches to the `scan`, `connect`, `ls`, `cat`, `crack`, `exploit`, `download`, `upload`, `status` and `exit` handlers.
  - It completes "connect", "data" and "command" objectives, recomputes progress and ratchets the security level.
- **The simulated network (`Network`).**
  - The node table is keyed by IP.
  - The route table is a full mesh without self-routes.
  - It keeps a discovered set and the player's current node.
- **The simulated file system.** A table from absolute paths to directories, with lexical path resolution. Clean, Join and Split are written out as this project's own functions.
- **The progression tracker (`GameProgression`).**
- **The scenario catalogue.** Three constant scenarios: Network Breach, Data Heist and System Takeover.

The modules follow the source files:

| module | file | for |
|---|---|---|
| `Text` | `text.dfy` | Go's `strings.Fields`, `strings.Join` and `%d`; Go's map iteration orders |
| `Paths` | `paths.dfy` | `filepath.Clean`, `Join` and `Split` |
| `Fs` | `filesystem.dfy` | game/filesystem.go |
| `Net` | `network.dfy` | game/network.go |
| `Tracker` | `progress.dfy` | game/progress.go |
| `Scenarios` | `scenarios.dfy` | game/scenarios.go |
| `Engine` | `engine.dfy` | game/state.go |

Objects whose fields the source updates in place are classes: `Engine.State`, `Net.Network` and `Tracker.GameProgression`. Their methods keep the source's loops.

`Engine` is in two halves. The first half is pure:

- A `Session` holds everything a command can change. A `World` holds what NewGameState fixes.
- `Process` is ProcessCommand on a session and `Check` is CheckObjectiveCompletion. `TurnStep` composes the two in the order the hosting loops use.
- `State`'s methods are proved to move their fields exactly as those functions say.
- The game's properties are lemmas about the functions.

Go iterates over maps in an unspecified order. Three outputs depend on that order: the port lines of a node scan, the file lines of a listing, and the node lines of the network map. For each, the model states that the output is the text for *some* order that lists every key exactly once (`Text.Enumerates`).

Three things in the code are worth knowing:

- **Play never unlocks a tool.** Only `scan`, `connect`, `ls`, `cat` and `help` are unlocked at the start, and nothing unlocks `crack`. So `crack`, `exploit`, `download`, `upload`, `status` and `exit` stay refused for the whole game.
- **A "data" objective can never be completed.**
  - No command changes `CurrentPath`, so it stays "/".
  - Every "data" target is a bare file name.
  - Reading a bare name looks only in the current directory. No scenario's root holds a data target.
  - One might expect `cat` on a file in a subdirectory to complete it. The code matches the file name exactly as typed, so it does not.
- **In play, progress is the completed share and only grows.** `exploit` adds 0.2 to progress, and the next recompute would set it back to the completed share. That would break the invariant, but `exploit` is never unlocked. So after every turn, progress equals the share of completed objectives and never falls. The premise of `CheckReports` therefore holds at every turn.

## Model

| member | source | states |
|---|---|---|
| `Engine.NewGameState` | game/state.go:26-56 | the new state is a fresh game on the scenario chosen by exact name ("data-heist", "system-takeover", anything else Network Breach): progress 0, the scenario's initial security level, tools scan/connect/ls/cat/help, empty history, detection chance 0.1, the network and file system built from the scenario |
| `Engine.State.constructor` | game/state.go:39-55 | the starting state on a given scenario, as above |
| `Engine.SelectScenarioName` | game/state.go:29-36 | the chosen scenario is "Data Heist" or "System Takeover" only for those exact names, and "Network Breach" for every other name |
| `Engine.InitialReadsFromRoot` | game/state.go:42 | a new game's file system is the scenario's table, with current path "/" |
| `Engine.State.ProcessCommand` | game/state.go:59-104 | the new state and the printed text are those of `Process`: the raw line is appended to the history, a line with no fields answers "Error: Empty command", a verb neither unlocked nor "help" is denied, anything else runs its handler |
| `Engine.State.Execute` | game/state.go:78-103 | the new state and text are those of the handler the verb selects; an unknown verb is "not recognized" and changes nothing |
| `Engine.Process` | game/state.go:59-104 | ProcessCommand never changes the number of objectives |
| `Engine.Run` | game/state.go:78-103 | no handler changes the number of objectives |
| `Engine.State.Turn` | game/state.go:59-359 | one turn of the hosting loops, ProcessCommand then CheckObjectiveCompletion on the same line, moves the state as `TurnStep` does and returns its text and its changed flag |
| `Engine.ProcessShape` | game/state.go:59-104 | every line is recorded; a line the gate stops changes nothing else; an admitted line has exactly its handler's effect on objectives and tools, and progress and level move only through a completion or the exploit bonus |
| `Engine.ProcessRecords` | game/state.go:61 | every call appends exactly the raw input to the history, whatever it is |
| `Engine.EmptyLine` | game/state.go:63-67 | a line that is only white space is recorded and answers "Error: Empty command", and nothing else changes |
| `Engine.LockedVerb` | game/state.go:69-75 | a verb that is not unlocked and is not "help" is refused with "Error: Command '<verb>' not found or access denied", and only the history changes |
| `Engine.ProcessTools` | game/state.go:209-318 | the unlocked tools only grow, never hold a duplicate, and only exploit, download and upload can be added |
| `Engine.ToolsStayLocked` | game/state.go:73-253 | while neither crack nor exploit is unlocked, no command changes the tools |
| `Engine.InitialToolsFinal` | game/state.go:52 | from the initial tools, play never unlocks anything, and crack, exploit, download, upload, status and exit are not among them |
| `Engine.LevelNeverDrops` | game/state.go:362-378 | the security level never decreases, in either half of a turn |
| `Engine.ProcessObjective` | game/state.go:158-273 | a command changes an objective only by completing it when it was open; completed flags never revert |
| `Engine.ConnectObjectiveTrigger` | game/state.go:158-177 | a "connect" objective is completed only by an unlocked `connect` whose IP argument equals its target and which Connect accepts |
| `Engine.DataObjectiveTrigger` | game/state.go:190-273 | a "data" objective is completed only by an unlocked `cat` or `download` whose raw filename argument equals its target and whose read succeeds |
| `Engine.DataMarkOfShape` | game/state.go:190-273 | of all handlers, only a cat or download whose argument reads can change a "data" objective, and only one aimed at that argument |
| `Engine.CommandObjectiveUntouched` | game/state.go:78-103 | ProcessCommand never completes a "command" objective (so "clear" and "execute" can only be completed by CheckObjectiveCompletion) |
| `Engine.DataObjectiveStuck` | game/state.go:190-273 | a "data" objective whose target does not read stays as it is, whatever is typed |
| `Engine.DataTargetsUnreadable` | game/filesystem.go:89-115 | in a scenario whose data targets are bare names missing from "/", reading any target in a new game fails |
| `Engine.CheckKeeps` | game/state.go:341-359 | CheckObjectiveCompletion leaves every objective that is not a "command" objective as it was |
| `Engine.DataObjectivesStayOpen` | game/state.go:190-273 | in a game on such a scenario, a whole turn leaves each "data" objective as it was, whatever else has already been completed |
| `Engine.PlayDataObjectivesOpen` | game/state.go:190-273 | over any sequence of turns on such a scenario, each "data" objective ends as it started, so one open in the new game is never completed |
| `Engine.CheckObjective` | game/state.go:341-359 | CheckObjectiveCompletion completes exactly the open "command" objectives whose target is the first field, whether that verb is unlocked or not, and changes no other objective |
| `Engine.CheckReports` | game/state.go:341-359 | when progress is not ahead of the completed share, CheckObjectiveCompletion reports true exactly when it completes an open "command" objective |
| `Engine.ProcessSteady` | game/state.go:59-104 | from the initial tools, with progress equal to the completed share, ProcessCommand keeps the tools, keeps progress equal to the share and does not lower progress |
| `Engine.CheckSteady` | game/state.go:341-359 | CheckObjectiveCompletion keeps progress equal to the completed share, does not lower it and leaves the tools alone |
| `Engine.TurnSteady` | game/state.go:59-359 | from the initial tools, with progress equal to the completed share, a whole turn keeps all of that and lowers neither progress nor the security level |
| `Engine.PlaySteady` | game/state.go:59-359 | over any sequence of turns from such a session, progress stays the completed share, and neither progress nor the level falls |
| `Engine.PlayCheckReports` | game/state.go:341-359 | after any sequence of turns from such a session, CheckObjectiveCompletion reports true exactly when it completes an open "command" objective |
| `Engine.InitialSteady` | game/state.go:39-55 | a new game on a scenario with objectives, all open, has the initial tools and progress 0, the completed share |
| `Engine.GameSteady` | game/state.go:39-359 | in any game on such a scenario, progress is the completed share after every turn |
| `Engine.SweepAllSteady` | game/state.go:321-378 | completing the open objectives a step matches, then recomputing, keeps progress equal to the completed share and does not lower it |
| `Engine.RunTools` | game/state.go:208-250 | the tools a handler leaves keep every tool, add only exploit, download or upload, and never repeat one |
| `Engine.State.CheckObjectiveCompletion` | game/state.go:341-359 | the new state is `Check` of the old one, and the result is true exactly when progress strictly rose |
| `Engine.State.CompleteObjectives` | game/state.go:321-338 | the loop over the objectives completes each open one of the kind and target, recomputing progress after each, as `Sweep` does |
| `Engine.SweepObjectives` | game/state.go:321-338 | after the loop, an objective is completed exactly when it was completed already or matched; nothing else about it changes |
| `Engine.SweepProgress` | game/state.go:321-378 | a loop that completes something leaves progress at the completed share; one that completes nothing changes nothing |
| `Engine.SweepMarked` | game/state.go:321-338 | a whole loop completes exactly the matching objectives (`Marked`) |
| `Engine.CountGrows` | game/state.go:362-370 | completing an open objective raises the completed count |
| `Engine.State.UpdateProgress` | game/state.go:362-378 | progress becomes completed/total and the level is ratcheted, as `Recompute` says |
| `Engine.Recompute` | game/state.go:362-378 | after updateProgress, progress equals the completed share and the security level has not dropped; nothing else changes |
| `Engine.Ratio` | game/state.go:362-371 | the completed share lies between 0 and 1 |
| `Engine.Ratchet` | game/state.go:372-377 | the level never drops; it becomes 5 only at progress 0.5 or more, and 8 only at progress 0.75 or more from a level of at least 5; conversely progress 0.5 lifts it to at least 5, and progress 0.75 from a level of at least 5 lifts it to at least 8 |
| `Engine.RatchetOneStep` | game/state.go:372-377 | one recompute takes a level below 5 to exactly 5, however high progress is, and a second recompute at progress 0.75 or more takes it to 8 |
| `Engine.Unlock` | game/state.go:314-318 | unlockTool adds the tool if absent: the old tools are a prefix of the new, the new ones are the old plus the tool, and no duplicate appears |
| `Engine.UnlockIdempotent` | game/state.go:314-318 | unlocking twice is unlocking once |
| `Engine.State.UnlockTool` | game/state.go:314-318 | the tools become `Unlock` of the old tools and nothing else changes |
| `Engine.State.IsToolUnlocked` | game/state.go:304-311 | true exactly when the tool is in the unlocked list |
| `Engine.State.HelpCommand` | game/state.go:107-145 | with an argument, that command's help text ("No help available for ..." for an unknown one); without, the list of unlocked tools |
| `Engine.State.ScanCommand` | game/state.go:148-155 | scans the first argument, or the routes when there is none, as `Network.Scan` does |
| `Engine.State.ConnectCommand` | game/state.go:158-177 | without an IP, a usage error and no change; otherwise Connect on the port (default "22"), and on success the "connect" objectives for that IP are completed |
| `Engine.State.LsCommand` | game/state.go:180-187 | the listing of the argument, or of "." when there is none |
| `Engine.State.CatCommand` | game/state.go:190-206 | without a filename, a usage error; a failed read prints "Error: " and the error and changes nothing; a successful one prints the content and completes the "data" objectives named by the argument as typed |
| `Engine.State.CrackCommand` | game/state.go:209-226 | without a target, a usage error and no change; otherwise "exploit" is unlocked |
| `Engine.State.ExploitCommand` | game/state.go:229-253 | without a name, a usage error and no change; otherwise progress rises by 0.2 and "download" and "upload" are unlocked |
| `Engine.State.DownloadCommand` | game/state.go:256-273 | like cat, but prints "Successfully downloaded <file>" |
| `Engine.State.UploadCommand` | game/state.go:276-286 | a usage error with fewer than two arguments, otherwise the upload message |
| `Engine.State.StatusCommand` | game/state.go:289-301 | the status text: mission, progress percentage, level, connected node, the elapsed time passed in, and the tools |
| `Engine.RoundHalfEven` | game/state.go:294 | the %.0f rounding: within one half of the value, ties to even |
| `Engine.State.GetObjectives` | game/state.go:381-394 | one line per objective, in order, with a check mark exactly for the completed ones |
| `Engine.ObjectiveLineShows` | game/state.go:384-391 | a line's box is "[✓]" exactly when its objective is completed and "[ ]" exactly when it is open, followed by the description |
| `Engine.State.GetNetworkMap` | game/state.go:397-399 | the network's map |
| `Engine.State.GetAvailableTools` | game/state.go:402-426 | one line per unlocked tool, in order, with its description when it has one |
| `Engine.ToolLineShows` | game/state.go:403-423 | every line starts with its tool's name and adds a description exactly when the tool has one; "exit" has none, and every initial tool has one |
| `Engine.State.GetSystemStatus` | game/state.go:429-436 | the node, level, detection risk and progress lines |
| `Engine.DetectionRiskText` | game/state.go:432-433 | the detection line always reads "10.0%" |
| `Engine.ScanTurn` | game/state.go:341-359 | a turn "scan" completes exactly the open "command" objectives aimed at "scan", reports a change exactly when progress rose, and sets progress to the completed share when one matched |
| `Engine.ScanTurnOfOne` | game/state.go:341-378 | with every objective open and exactly one aimed at "scan", a turn "scan" from progress 0 reports a change and leaves progress at 1/n |
| `Engine.NetworkBreachFirstScan` | game/scenarios.go:26-63 | a new Network Breach game meets the conditions of `ScanTurnOfOne` with n = 6, so its first turn "scan" raises progress to 1/6 |
| `Net.Network.constructor` | game/network.go:34-72 | NewNetwork indexes the nodes by IP and routes each node to every other one. It starts on the first node, which alone is discovered, or at "local" with nothing discovered when there are no nodes |
| `Net.NewTopology` | game/network.go:48-57 | the route table has a key for each node, and a node's routes are exactly the other nodes, never itself |
| `Net.IndexNodes` | game/network.go:36-39 | the node table's keys are the nodes' IPs, and each IP maps to a node carrying it |
| `Net.IndexNodesDistinct` | game/network.go:36-39 | with distinct IPs, each IP maps to its own node |
| `Net.OtherIPs` | game/network.go:50-55 | a node's route list holds exactly the IPs other than its own |
| `Net.RoutesOf` | game/network.go:48-57 | every node's routes are the other nodes' IPs |
| `Net.BuildNodeMap` | game/network.go:36-39 | the loop builds the node table |
| `Net.BuildRouteList` | game/network.go:50-55 | the inner loop builds one node's routes |
| `Net.BuildRoutes` | game/network.go:48-57 | the outer loop builds the route table |
| `Net.Network.Scan` | game/network.go:75-106 | Scan(t) for a node t discovers only t and prints its report. For any other non-empty t it prints "No host found at t". Scan("") with no routes prints the no-routes message; otherwise it discovers every routed node and lists them. The current node never changes and the discovered set only grows |
| `Net.ScanRoutes` | game/network.go:94-103 | the loop over the routes lists, in route order, each route that names a node, and discovers exactly those |
| `Net.ScanDiscovered` | game/network.go:77-103 | the discovered set only grows, only by nodes, and a targeted scan adds at most the target |
| `Net.RoutedNodes` | game/network.go:98-103 | the IPs a full scan discovers are exactly the routed IPs that are nodes |
| `Net.ScanAllDiscoversOthers` | game/network.go:89-103 | in a network NewNetwork built, a full scan from a node discovers every other node |
| `Net.ScanLinesExact` | game/network.go:98-103 | a node's scan line appears exactly when its IP is routed |
| `Net.FormatNodeScan` | game/network.go:152-163 | the report is the header followed by one line per port, in some enumeration of the ports |
| `Net.ReportPortLines` | game/network.go:158-160 | a report carries exactly one line per port of the node, and no other |
| `Net.Network.Connect` | game/network.go:109-149 | failures are checked in order: "Host not found", then "No route to host", then "Connection refused". Every failure leaves the current node alone. Success moves it to the IP. The discovered set never changes |
| `Net.ConnectSucceedsIff` | game/network.go:109-149 | a connection succeeds exactly when the host exists, is not the current node and offers the port; being discovered is not needed |
| `Net.ConnectToSelf` | game/network.go:116-132 | connecting to the current node always fails with "No route to host" |
| `Net.Network.GetNetworkMap` | game/network.go:166-189 | the map text for some enumeration of the nodes |
| `Net.DiscoveredLinesExact` | game/network.go:170-176 | the map lists exactly the discovered nodes |
| `Net.UndiscoveredCountIs` | game/network.go:170-186 | the undiscovered count is the number of nodes not discovered |
| `Fs.NewFileSystem` | game/filesystem.go:25-42 | a given table is kept as it is; with none, the table is a single empty "/" directory with "rwx". The current path is always "/" |
| `Fs.ResolvePath` | game/filesystem.go:118-130 | "" resolves to the current path and a rooted path to its Clean; from an absolute clean current path, every result is absolute and clean |
| `Fs.ResolveIdempotent` | game/filesystem.go:118-130 | resolving a resolved path changes nothing |
| `Fs.ReadFile` | game/filesystem.go:89-115 | the split at the last '/' picks the directory (the current one when there is no directory part) and the file. The read succeeds exactly when both exist, and returns that directory's content for the file. A missing directory gives "directory not found: <p>" and a missing file "file not found: <f>" |
| `Fs.ReadBareName` | game/filesystem.go:89-94 | a name without '/' reads exactly when the current directory holds it |
| `Fs.ReadInSubdirectory` | game/filesystem.go:89-115 | "/<d>/<f>" reads the file f of the directory "/<d>", with the matching error when either is missing |
| `Fs.ListFiles` | game/filesystem.go:45-86 | the output is a listing of the resolved path, or "Error: Directory not found: <p>" when it has no entry |
| `Fs.ListSubdirs` | game/filesystem.go:64-71 | the loop over the subdirectory names yields one line per name whose joined path is in the table |
| `Fs.ListFileNames` | game/filesystem.go:74-78 | the loop over the files yields one line per file, in some enumeration of the file names |
| `Fs.SubdirLinesExact` | game/filesystem.go:64-71 | a subdirectory line appears exactly when some listed name joins to a path in the table, and it shows that directory |
| `Fs.ListingFiles` | game/filesystem.go:74-78 | a file's line appears in the listing exactly when the directory holds the file |
| `Fs.ListingEmptyMarker` | game/filesystem.go:80-83 | "<empty directory>" appears exactly when the directory has neither subdirectories nor files |
| `Paths.CleanIdempotent` | game/filesystem.go:125-129 | Clean of a Clean path changes nothing |
| `Paths.CleanRooted` | game/filesystem.go:125 | a rooted path cleans to a rooted path with no "." or ".." elements |
| `Paths.JoinPathRooted` | game/filesystem.go:118-130 | joining onto a rooted path gives an absolute clean path |
| `Paths.Split` | game/filesystem.go:91 | the two parts concatenate to the input, the file part has no '/', and the directory part is empty exactly when the input has no '/', otherwise it ends in '/' |
| `Text.FieldsEmptyIff` | game/state.go:63-67 | a line has no fields exactly when it is all white space |
| `Text.FieldsOfJoin` | game/state.go:63 | splitting words joined by spaces gives the words back |
| `Text.NatToStringRoundTrip` | game/network.go:185 | the decimal text of a count reads back as the count |
| `Tracker.GameProgression.constructor` | game/progress.go:39-49 | no achievements, and no visited nodes, run commands or accessed files |
| `Tracker.GameProgression.AddAchievement` | game/progress.go:52-60 | exactly one achievement is appended at the end; nothing else changes |
| `Tracker.GameProgression.RecordNodeVisit` | game/progress.go:63-68 | true exactly when the IP was not recorded, and afterwards it is; nothing else changes |
| `Tracker.GameProgression.RecordCommandRun` | game/progress.go:71-74 | the command's count rises by one, other counts stay, and the total rises by one |
| `Tracker.GameProgression.RecordFileAccess` | game/progress.go:77-82 | true exactly when the file was not recorded, and afterwards it is; nothing else changes |
| `Tracker.RecordAddsOne` | game/progress.go:71-92 | raising one count by one raises the total by one |
| `Tracker.GameProgression.GetStats` | game/progress.go:85-102 | nodes, files, unique commands, total commands (the sum of all counts) and achievements |
| `Tracker.GameProgression.ListAchievements` | game/progress.go:105-118 | "No achievements yet" when there are none, otherwise one line per achievement in insertion order |
| `Tracker.LinesAfterAdd` | game/progress.go:105-118 | adding an achievement appends its line and keeps the earlier lines |
| `Scenarios.NetworkBreachScenario` | game/scenarios.go:24-185 | "Network Breach", 6 objectives, initial security level 3 |
| `Scenarios.DataHeistScenario` | game/scenarios.go:188-350 | "Data Heist", 7 objectives, initial security level 5 |
| `Scenarios.SystemTakeoverScenario` | game/scenarios.go:353-535 | "System Takeover", 8 objectives, initial security level 8 |
| `Scenarios.NetworkBreachWellFormed` | game/scenarios.go:26-183 | all objectives open and of a known kind; node IPs distinct; every "connect" target is a node; "/" exists and each of its subdirectories has an entry; every "data" target is a file of some directory |
| `Scenarios.DataHeistWellFormed` | game/scenarios.go:190-348 | the same for Data Heist |
| `Scenarios.SystemTakeoverWellFormed` | game/scenarios.go:355-533 | the same for System Takeover |
| `Scenarios.NetworkBreachDataOutOfReach` | game/scenarios.go:41-154 | the "data" target is a bare name that "/" does not hold |
| `Scenarios.DataHeistDataOutOfReach` | game/scenarios.go:217-318 | the same for Data Heist |
| `Scenarios.SystemTakeoverDataOutOfReach` | game/scenarios.go:370-503 | the same for System Takeover |

## Left out

- Float arithmetic.
  - Progress and the detection chance are exact reals, so the exploit bonus of 0.2 is exact.
  - The %.0f and %.1f renderings are modelled as round-half-even of the exact value, not of the nearest float64.
- The clock.
  - The session time that `status` prints is a parameter of `ProcessCommand`, `Turn` and `StatusCommand`.
  - The achievement timestamp is a string passed to `AddAchievement`.
  - `StartTime`, `LastActionTime` and the session duration of `GetStats` are not modelled.
- Tracker.GameProgression.GetStats: returns the five counts as a record, not the formatted text with the session duration.
- Map iteration order.
  - The port lines of a node scan, the file lines of a listing and the node lines of the network map are specified for some enumeration of the keys, not one fixed order.
  - The methods pick the next key with a choice rather than Go's runtime order.
- Net.Network.Scan: a full scan collects the IPs it discovers during the loop and adds them to the discovered set once the loop ends. Go writes each one as it goes. No caller can observe the difference.
- Engine.State.UpdateProgress: requires at least one objective. With none, Go divides 0 by 0 and gets NaN, which has no real counterpart. Every scenario has objectives.
- The `crack` and `exploit` failure branches are not modelled. Their success flag is a constant true, so those branches are dead code.
- The descriptive node and service data (kind, credentials, Vulnerable, AccessLevel) and directory permissions are kept as data only, since no logic reads them. The exception is the permissions a listing prints.
- Engine.NetworkBreachFirstScan: states the conditions under which `ScanTurnOfOne` applies to a new Network Breach game, rather than running that concrete turn.
- The hosting programs are not part of this model beyond the turn order that `Turn` composes: the terminal and web front ends, the CLI, the demos and ASCII art. They do rendering, network I/O, session locking and timers.
