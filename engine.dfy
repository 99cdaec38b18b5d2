/** The command interpreter and objective tracker of game/state.go.

    The specification half is pure: a Session holds everything a command can
    change, a World what never changes after NewGameState, and Process and
    Check say what ProcessCommand and CheckObjectiveCompletion do to a
    Session. The class State below keeps the source's fields and methods and
    is proved against those functions. The clock is a parameter: callers
    pass the rendering of the elapsed session time that "status" prints. */
module Engine {
  import Text
  import Fs
  import Paths
  import Net
  import Scenarios
  import opened Wrappers

  type Objective = Scenarios.Objective

  const InitialTools := ["scan", "connect", "ls", "cat", "help"]

  /** What the commands of a session can change. */
  datatype Session = Session(scenario: Scenarios.Scenario, progress: real, securityLevel: int,
                             tools: seq<string>, history: seq<string>,
                             currentNode: string, discovered: set<string>)

  /** What stays fixed: the network's tables and the file system. */
  datatype World = World(nodes: map<string, Net.Node>, routes: map<string, seq<string>>, fs: Fs.FileSystem)

  /** The text a command prints. A node report and a directory listing
      depend on Go's map order, so they are described, not spelled out. */
  datatype Reply = Exact(text: string) | Report(node: Net.Node) | Listing(path: string)

  ghost predicate Shows(w: World, reply: Reply, out: string) {
    match reply
    case Exact(text) => out == text
    case Report(node) => Net.IsNodeReport(node, out)
    case Listing(path) => Fs.IsListing(w.fs, path, out)
  }

  datatype Outcome = Outcome(next: Session, reply: Reply)

  function Objectives(s: Session): seq<Objective> {
    s.scenario.objectives
  }

  // ----- tools -----

  /** unlockTool: append unless already there. */
  function Unlock(tools: seq<string>, tool: string): (r: seq<string>)
    ensures tool in r && (forall t :: t in r <==> t in tools || t == tool)
    ensures Text.Distinct(tools) ==> Text.Distinct(r)
    ensures tools <= r
  {
    if tool in tools then tools else tools + [tool]
  }

  /** Unlocking twice is unlocking once. */
  lemma UnlockIdempotent(tools: seq<string>, tool: string)
    ensures Unlock(Unlock(tools, tool), tool) == Unlock(tools, tool)
  {
  }

  // ----- progress -----

  function CountCompleted(objs: seq<Objective>): (n: nat)
    ensures n <= |objs|
  {
    if objs == [] then 0
    else CountCompleted(objs[..|objs| - 1]) + (if objs[|objs| - 1].completed then 1 else 0)
  }

  /** The share of completed objectives. */
  function Ratio(objs: seq<Objective>): (p: real)
    requires |objs| > 0
    ensures 0.0 <= p <= 1.0
  {
    CountCompleted(objs) as real / |objs| as real
  }

  /** The security level after a recompute at progress `p`. */
  function Ratchet(level: int, p: real): (r: int)
    ensures r >= level
    ensures r == level || (r == 5 && p >= 0.5) || (r == 8 && p >= 0.75 && level >= 5)
    ensures p >= 0.5 ==> r >= 5
    ensures p >= 0.75 && level >= 5 ==> r >= 8
  {
    if p >= 0.5 && level < 5 then 5
    else if p >= 0.75 && level < 8 then 8
    else level
  }

  /** One recompute raises a level below 5 to 5 and no further, however
      high progress is: reaching 8 takes a second recompute. */
  lemma RatchetOneStep(level: int, p: real)
    requires level < 5 && p >= 0.5
    ensures Ratchet(level, p) == 5
    ensures p >= 0.75 ==> Ratchet(Ratchet(level, p), p) == 8
  {
  }

  /** updateProgress: progress becomes the completed share, and the
      security level is ratcheted. */
  function Recompute(s: Session): (r: Session)
    requires |Objectives(s)| > 0
    ensures r.progress == Ratio(Objectives(s)) && r.securityLevel >= s.securityLevel
    ensures r == s.(progress := r.progress, securityLevel := r.securityLevel)
  {
    var p := Ratio(Objectives(s));
    s.(progress := p, securityLevel := Ratchet(s.securityLevel, p))
  }

  /** Progress is the completed share, as updateProgress leaves it. */
  predicate Steady(s: Session) {
    |Objectives(s)| > 0 && s.progress == Ratio(Objectives(s))
  }

  /** The objectives a sweep for (kind, target) completes. */
  predicate Matches(o: Objective, kind: string, target: string) {
    !o.completed && o.kind == kind && o.target == target
  }

  function Complete(s: Session, i: nat): Session
    requires i < |Objectives(s)|
  {
    var objs := Objectives(s);
    s.(scenario := s.scenario.(objectives := objs[i := objs[i].(completed := true)]))
  }

  /** The loop of checkNetworkObjectives, checkDataObjectives and
      CheckObjectiveCompletion after `n` objectives: each matching objective
      is completed and progress recomputed. */
  function Sweep(s: Session, kind: string, target: string, n: nat): (r: Session)
    requires n <= |Objectives(s)|
    ensures |Objectives(r)| == |Objectives(s)|
    ensures r.scenario == s.scenario.(objectives := Objectives(r))
    ensures r.tools == s.tools && r.history == s.history
    ensures r.currentNode == s.currentNode && r.discovered == s.discovered
    ensures r.securityLevel >= s.securityLevel
  {
    if n == 0 then s
    else
      var t := Sweep(s, kind, target, n - 1);
      if Matches(Objectives(t)[n - 1], kind, target) then Recompute(Complete(t, n - 1)) else t
  }

  function SweepAll(s: Session, kind: string, target: string): Session {
    Sweep(s, kind, target, |Objectives(s)|)
  }

  /** After a sweep an objective is completed exactly when it was
      completed before or it matched; nothing else about it changes. */
  lemma {:induction false} SweepObjectives(s: Session, kind: string, target: string, n: nat, j: nat)
    requires n <= |Objectives(s)| && j < |Objectives(s)|
    ensures Objectives(Sweep(s, kind, target, n))[j] ==
              if j < n && Matches(Objectives(s)[j], kind, target)
              then Objectives(s)[j].(completed := true) else Objectives(s)[j]
  {
    if n > 0 {
      SweepObjectives(s, kind, target, n - 1, j);
      SweepObjectives(s, kind, target, n - 1, n - 1);
    }
  }

  /** A sweep that completes something leaves progress at the completed
      share; one that completes nothing changes nothing. */
  lemma {:induction false} SweepNoMatch(s: Session, kind: string, target: string, n: nat)
    requires n <= |Objectives(s)|
    requires forall j :: 0 <= j < n ==> !Matches(Objectives(s)[j], kind, target)
    ensures Sweep(s, kind, target, n) == s
  {
    if n > 0 {
      SweepNoMatch(s, kind, target, n - 1);
    }
  }

  lemma {:induction false} SweepRatio(s: Session, kind: string, target: string, n: nat, j: nat)
    requires j < n <= |Objectives(s)| && Matches(Objectives(s)[j], kind, target)
    ensures Sweep(s, kind, target, n).progress == Ratio(Objectives(Sweep(s, kind, target, n)))
  {
    SweepObjectives(s, kind, target, n - 1, n - 1);
    if !Matches(Objectives(s)[n - 1], kind, target) {
      SweepRatio(s, kind, target, n - 1, j);
    }
  }

  lemma SweepProgress(s: Session, kind: string, target: string, n: nat)
    requires n <= |Objectives(s)|
    ensures (exists j :: 0 <= j < n && Matches(Objectives(s)[j], kind, target)) ==>
              Sweep(s, kind, target, n).progress == Ratio(Objectives(Sweep(s, kind, target, n)))
    ensures (forall j :: 0 <= j < n ==> !Matches(Objectives(s)[j], kind, target)) ==>
              Sweep(s, kind, target, n) == s
  {
    if exists j :: 0 <= j < n && Matches(Objectives(s)[j], kind, target) {
      var j :| 0 <= j < n && Matches(Objectives(s)[j], kind, target);
      SweepRatio(s, kind, target, n, j);
    } else {
      SweepNoMatch(s, kind, target, n);
    }
  }


  /** The objectives after completing every open one of `kind` aimed at
      `target`. */
  function Marked(objs: seq<Objective>, kind: string, target: string): (r: seq<Objective>)
    ensures |r| == |objs|
  {
    seq(|objs|, j requires 0 <= j < |objs| =>
      if Matches(objs[j], kind, target) then objs[j].(completed := true) else objs[j])
  }

  /** A whole sweep completes exactly the matching objectives; if none
      matches, it changes nothing. */
  lemma SweepMarked(s: Session, kind: string, target: string)
    ensures Objectives(SweepAll(s, kind, target)) == Marked(Objectives(s), kind, target)
    ensures Marked(Objectives(s), kind, target) == Objectives(s) ==> SweepAll(s, kind, target) == s
  {
    var objs := Objectives(s);
    var r := SweepAll(s, kind, target);
    forall j | 0 <= j < |objs| ensures Objectives(r)[j] == Marked(objs, kind, target)[j] {
      SweepObjectives(s, kind, target, |objs|, j);
    }
    SweepProgress(s, kind, target, |objs|);
    if Marked(objs, kind, target) == objs {
      forall j | 0 <= j < |objs| ensures !Matches(objs[j], kind, target) {
        assert Marked(objs, kind, target)[j] == objs[j];
      }
    }
  }

  /** Completing objectives never lowers the completed count. */
  lemma MarkedNoLess(objs: seq<Objective>, kind: string, target: string)
    ensures CountCompleted(Marked(objs, kind, target)) >= CountCompleted(objs)
  {
    CountNoLess(objs, Marked(objs, kind, target));
  }

  lemma RatioNoLess(a: seq<Objective>, b: seq<Objective>)
    requires |a| == |b| > 0 && CountCompleted(b) >= CountCompleted(a)
    ensures Ratio(b) >= Ratio(a)
  {
    DivideMonotone(CountCompleted(b) as real, CountCompleted(a) as real, |a| as real);
  }

  /** A whole sweep from a steady session is steady again, and its
      progress has not fallen. */
  lemma SweepAllSteady(s: Session, kind: string, target: string)
    requires Steady(s)
    ensures Steady(SweepAll(s, kind, target)) && SweepAll(s, kind, target).progress >= s.progress
  {
    var objs := Objectives(s);
    SweepProgress(s, kind, target, |objs|);
    SweepMarked(s, kind, target);
    MarkedNoLess(objs, kind, target);
    RatioNoLess(objs, Marked(objs, kind, target));
  }

  /** Completing objectives that were open raises the completed count. */
  lemma {:induction false} CountGrows(a: seq<Objective>, b: seq<Objective>, k: nat)
    requires |a| == |b| && k < |a|
    requires forall j :: 0 <= j < |a| && a[j].completed ==> b[j].completed
    requires !a[k].completed && b[k].completed
    ensures CountCompleted(b) > CountCompleted(a)
  {
    var n := |a| - 1;
    if k < n {
      CountGrows(a[..n], b[..n], k);
    } else {
      CountNoLess(a[..n], b[..n]);
    }
  }

  lemma {:induction false} CountNoLess(a: seq<Objective>, b: seq<Objective>)
    requires |a| == |b|
    requires forall j :: 0 <= j < |a| && a[j].completed ==> b[j].completed
    ensures CountCompleted(b) >= CountCompleted(a)
  {
    if a != [] {
      CountNoLess(a[..|a| - 1], b[..|b| - 1]);
    }
  }

  // ----- command texts -----

  const EmptyCommand := "Error: Empty command"

  function Denied(verb: string): string {
    "Error: Command '" + verb + "' not found or access denied"
  }

  function NotRecognized(verb: string): string {
    "Error: Command '" + verb + "' not recognized"
  }

  const MissingIP := "Error: Missing IP address\nUsage: connect <ip> [port]"
  const MissingFilenameCat := "Error: Missing filename\nUsage: cat <filename>"
  const MissingTarget := "Error: Missing target\nUsage: crack <target>"
  const MissingExploit := "Error: Missing exploit name\nUsage: exploit <name> [target]"
  const MissingFilenameDownload := "Error: Missing filename\nUsage: download <filename>"
  const MissingParameters := "Error: Missing parameters\nUsage: upload <file> <destination>"
  const Disconnected := "Disconnected from current session."

  /** The help text for one command. */
  function CommandHelp(command: string): string {
    if command == "scan" then "scan - Scan for network nodes\nUsage: scan [ip]"
    else if command == "connect" then "connect - Connect to a network node\nUsage: connect <ip> [port]"
    else if command == "ls" then "ls - List files in current directory\nUsage: ls [directory]"
    else if command == "cat" then "cat - View file contents\nUsage: cat <filename>"
    else if command == "crack" then "crack - Attempt to crack password or encryption\nUsage: crack <target>"
    else if command == "exploit" then "exploit - Exploit a vulnerability\nUsage: exploit <name> [target]"
    else if command == "download" then "download - Download a file\nUsage: download <filename>"
    else if command == "upload" then "upload - Upload a file\nUsage: upload <file> <destination>"
    else if command == "status" then "status - Display current system status\nUsage: status"
    else if command == "exit" then "exit - Disconnect from current session\nUsage: exit"
    else "No help available for '" + command + "'"
  }

  function GeneralHelp(tools: seq<string>): string {
    "Available commands:\n" + Text.Join(tools, ", ")
      + "\n\nUse 'help <command>' for more information on a specific command."
  }

  function HelpText(tools: seq<string>, args: seq<string>): string {
    if |args| > 0 then CommandHelp(args[0]) else GeneralHelp(tools)
  }

  /** Rounding to the nearest integer, ties to even, as fmt's %.0f rounds
      a value it holds exactly. */
  function RoundHalfEven(x: real): (r: int)
    ensures r as real - 0.5 <= x <= r as real + 0.5
    ensures (x == r as real - 0.5 || x == r as real + 0.5) ==> r % 2 == 0
  {
    var f := x.Floor;
    var d := x - f as real;
    if d < 0.5 then f
    else if d > 0.5 then f + 1
    else if f % 2 == 0 then f
    else f + 1
  }

  /** The %.0f rendering of progress * 100, without the '%'. */
  function PercentText(p: real): string {
    Text.IntToString(RoundHalfEven(p * 100.0))
  }

  function StatusText(s: Session, elapsed: string): string {
    "=== SYSTEM STATUS ===\n"
      + "Mission: " + s.scenario.name + "\n"
      + "Progress: " + PercentText(s.progress) + "%" + "\n"
      + "Security Level: " + Text.IntToString(s.securityLevel) + "/10" + "\n"
      + "Connected Node: " + s.currentNode + "\n"
      + "Session Time: " + elapsed + "\n"
      + "Available Tools: " + Text.Join(s.tools, ", ")
  }

  // ----- the handlers -----

  function ScanStep(w: World, s: Session, args: seq<string>): Outcome {
    var target := if |args| > 0 then args[0] else "";
    var result := Net.ScanReply(w.nodes, w.routes, s.currentNode, target);
    Outcome(s.(discovered := Net.ScanDiscovered(w.nodes, w.routes, s.currentNode, s.discovered, target)),
            if result.NodeReport? then Report(result.node) else Exact(result.text))
  }

  function Port(args: seq<string>): string {
    if |args| > 1 then args[1] else "22"
  }

  /** connect <ip> [port]: the port defaults to "22"; a successful
      connection moves the player and completes "connect" objectives for
      that IP. */
  function ConnectStep(w: World, s: Session, args: seq<string>): Outcome {
    if |args| < 1 then Outcome(s, Exact(MissingIP))
    else
      var ip := args[0];
      var (text, success) := Net.ConnectReply(w.nodes, w.routes, s.currentNode, ip, Port(args));
      if success then Outcome(SweepAll(s.(currentNode := ip), Scenarios.ConnectKind, ip), Exact(text))
      else Outcome(s, Exact(text))
  }

  function LsStep(s: Session, args: seq<string>): Outcome {
    Outcome(s, Listing(if |args| > 0 then args[0] else "."))
  }

  /** cat <file>: print the file and complete "data" objectives whose target
      is the argument as typed. */
  function CatStep(w: World, s: Session, args: seq<string>): Outcome {
    if |args| < 1 then Outcome(s, Exact(MissingFilenameCat))
    else
      match Fs.ReadFile(w.fs, args[0])
      case Err(e) => Outcome(s, Exact("Error: " + e))
      case Ok(content) => Outcome(SweepAll(s, Scenarios.DataKind, args[0]), Exact(content))
  }

  function CrackStep(s: Session, args: seq<string>): Outcome {
    if |args| < 1 then Outcome(s, Exact(MissingTarget))
    else Outcome(s.(tools := Unlock(s.tools, "exploit")),
                 Exact("Successfully cracked " + args[0] + "!\nNew tool unlocked: exploit"))
  }

  function ExploitStep(s: Session, args: seq<string>): Outcome {
    if |args| < 1 then Outcome(s, Exact(MissingExploit))
    else
      var target := if |args| > 1 then args[1] else "";
      Outcome(s.(progress := s.progress + 0.2, tools := Unlock(Unlock(s.tools, "download"), "upload")),
              Exact("Successfully exploited " + args[0] + " on " + target + "!\n"
                    + "Gained elevated access. New tools unlocked: download, upload"))
  }

  function DownloadStep(w: World, s: Session, args: seq<string>): Outcome {
    if |args| < 1 then Outcome(s, Exact(MissingFilenameDownload))
    else
      match Fs.ReadFile(w.fs, args[0])
      case Err(e) => Outcome(s, Exact("Error: " + e))
      case Ok(_) => Outcome(SweepAll(s, Scenarios.DataKind, args[0]), Exact("Successfully downloaded " + args[0]))
  }

  function UploadText(args: seq<string>): string {
    if |args| < 2 then MissingParameters else "Successfully uploaded " + args[0] + " to " + args[1]
  }

  /** The switch of ProcessCommand, once the verb has passed the gate. */
  function Run(w: World, s: Session, verb: string, args: seq<string>, elapsed: string): (o: Outcome)
    ensures |Objectives(o.next)| == |Objectives(s)|
  {
    if verb == "help" then Outcome(s, Exact(HelpText(s.tools, args)))
    else if verb == "scan" then ScanStep(w, s, args)
    else if verb == "connect" then ConnectStep(w, s, args)
    else if verb == "ls" then LsStep(s, args)
    else if verb == "cat" then CatStep(w, s, args)
    else if verb == "crack" then CrackStep(s, args)
    else if verb == "exploit" then ExploitStep(s, args)
    else if verb == "download" then DownloadStep(w, s, args)
    else if verb == "upload" then Outcome(s, Exact(UploadText(args)))
    else if verb == "status" then Outcome(s, Exact(StatusText(s, elapsed)))
    else if verb == "exit" then Outcome(s, Exact(Disconnected))
    else Outcome(s, Exact(NotRecognized(verb)))
  }

  /** ProcessCommand: record the line, split it into fields, refuse a verb
      that is not unlocked (except "help"), and run it. */
  function Process(w: World, s: Session, cmd: string, elapsed: string): (o: Outcome)
    ensures |Objectives(o.next)| == |Objectives(s)|
  {
    var s1 := s.(history := s.history + [cmd]);
    var parts := Text.Fields(cmd);
    if parts == [] then Outcome(s1, Exact(EmptyCommand))
    else if parts[0] !in s1.tools && parts[0] != "help" then Outcome(s1, Exact(Denied(parts[0])))
    else Run(w, s1, parts[0], parts[1..], elapsed)
  }

  /** CheckObjectiveCompletion's effect: complete the open "command"
      objectives whose target is the first field, unlocked or not. */
  function Check(s: Session, cmd: string): Session {
    var parts := Text.Fields(cmd);
    if parts == [] then s else SweepAll(s, Scenarios.CommandKind, parts[0])
  }

  /** One turn of the hosting loops: ProcessCommand, then
      CheckObjectiveCompletion on the same line; the flag says whether
      progress rose. */
  function TurnStep(w: World, s: Session, cmd: string, elapsed: string): (Outcome, bool) {
    var o := Process(w, s, cmd, elapsed);
    var c := Check(o.next, cmd);
    (Outcome(c, o.reply), c.progress > o.next.progress)
  }

  /** The hosting loops: TurnStep on each (line, elapsed) pair in order. */
  function Play(w: World, s: Session, turns: seq<(string, string)>): Session
    decreases |turns|
  {
    if turns == [] then s
    else Play(w, TurnStep(w, s, turns[0].0, turns[0].1).0.next, turns[1..])
  }

  // ----- what a step does -----

  /** The objectives a verb leaves: a successful connect completes the
      "connect" objectives for its IP, a successful cat or download the
      "data" objectives named by its argument as typed, and nothing else
      completes any. */
  function RunMarks(w: World, s: Session, verb: string, args: seq<string>): seq<Objective> {
    var objs := Objectives(s);
    if verb == "connect" && |args| > 0 && Net.ConnectReply(w.nodes, w.routes, s.currentNode, args[0], Port(args)).1
    then Marked(objs, Scenarios.ConnectKind, args[0])
    else if (verb == "cat" || verb == "download") && |args| > 0 && Fs.ReadFile(w.fs, args[0]).Ok?
    then Marked(objs, Scenarios.DataKind, args[0])
    else objs
  }

  /** The tools a verb leaves: crack unlocks exploit, exploit unlocks
      download and upload, each given an argument. */
  function RunTools(tools: seq<string>, verb: string, args: seq<string>): (r: seq<string>)
    ensures tools <= r && (Text.Distinct(tools) ==> Text.Distinct(r))
    ensures forall t :: t in r ==> t in tools || t in {"exploit", "download", "upload"}
  {
    if verb == "crack" && |args| > 0 then Unlock(tools, "exploit")
    else if verb == "exploit" && |args| > 0 then Unlock(Unlock(tools, "download"), "upload")
    else tools
  }

  /** How running `verb` took `s` to `r`. Progress moves only through a
      completion or the exploit bonus. */
  predicate Shaped(w: World, s: Session, verb: string, args: seq<string>, r: Session) {
    && r.history == s.history
    && r.scenario == s.scenario.(objectives := Objectives(r))
    && Objectives(r) == RunMarks(w, s, verb, args)
    && r.tools == RunTools(s.tools, verb, args)
    && r.securityLevel >= s.securityLevel
    && (Objectives(r) == Objectives(s) && !(verb == "exploit" && |args| > 0) ==>
          r.progress == s.progress && r.securityLevel == s.securityLevel)
    && (Steady(s) && !(verb == "exploit" && |args| > 0) ==> Steady(r) && r.progress >= s.progress)
  }

  lemma ConnectShape(w: World, s: Session, args: seq<string>, elapsed: string)
    ensures Shaped(w, s, "connect", args, Run(w, s, "connect", args, elapsed).next)
  {
    if |args| > 0 && Net.ConnectReply(w.nodes, w.routes, s.currentNode, args[0], Port(args)).1 {
      SweepMarked(s.(currentNode := args[0]), Scenarios.ConnectKind, args[0]);
      if Steady(s) {
        SweepAllSteady(s.(currentNode := args[0]), Scenarios.ConnectKind, args[0]);
      }
    }
  }

  lemma CatShape(w: World, s: Session, args: seq<string>, elapsed: string)
    ensures Shaped(w, s, "cat", args, Run(w, s, "cat", args, elapsed).next)
  {
    if |args| > 0 && Fs.ReadFile(w.fs, args[0]).Ok? {
      SweepMarked(s, Scenarios.DataKind, args[0]);
      if Steady(s) {
        SweepAllSteady(s, Scenarios.DataKind, args[0]);
      }
    }
  }

  lemma DownloadShape(w: World, s: Session, args: seq<string>, elapsed: string)
    ensures Shaped(w, s, "download", args, Run(w, s, "download", args, elapsed).next)
  {
    if |args| > 0 && Fs.ReadFile(w.fs, args[0]).Ok? {
      SweepMarked(s, Scenarios.DataKind, args[0]);
      if Steady(s) {
        SweepAllSteady(s, Scenarios.DataKind, args[0]);
      }
    }
  }

  /** A verb that completes nothing and unlocks nothing: any step that
      changes at most what was discovered has its shape. */
  lemma KeepShape(w: World, s: Session, verb: string, args: seq<string>, d: set<string>)
    requires verb != "connect" && verb != "cat" && verb != "download" && verb != "crack" && verb != "exploit"
    ensures Shaped(w, s, verb, args, s.(discovered := d))
  {
  }

  lemma ScanShape(w: World, s: Session, args: seq<string>, elapsed: string)
    ensures Shaped(w, s, "scan", args, Run(w, s, "scan", args, elapsed).next)
  {
    var r := Run(w, s, "scan", args, elapsed).next;
    assert r == s.(discovered := r.discovered);
    KeepShape(w, s, "scan", args, r.discovered);
  }

  lemma CrackShape(w: World, s: Session, args: seq<string>, elapsed: string)
    ensures Shaped(w, s, "crack", args, Run(w, s, "crack", args, elapsed).next)
  {
  }

  lemma ExploitShape(w: World, s: Session, args: seq<string>, elapsed: string)
    ensures Shaped(w, s, "exploit", args, Run(w, s, "exploit", args, elapsed).next)
  {
  }

  /** Every verb has the effect Shaped describes. */
  lemma RunShape(w: World, s: Session, verb: string, args: seq<string>, elapsed: string)
    ensures Shaped(w, s, verb, args, Run(w, s, verb, args, elapsed).next)
  {
    if verb == "connect" {
      ConnectShape(w, s, args, elapsed);
    } else if verb == "cat" {
      CatShape(w, s, args, elapsed);
    } else if verb == "download" {
      DownloadShape(w, s, args, elapsed);
    } else if verb == "scan" {
      ScanShape(w, s, args, elapsed);
    } else if verb == "crack" {
      CrackShape(w, s, args, elapsed);
    } else if verb == "exploit" {
      ExploitShape(w, s, args, elapsed);
    }
  }

  /** Whether a line gets past the parser and the gate. */
  predicate Admitted(s: Session, cmd: string) {
    var parts := Text.Fields(cmd);
    parts != [] && (parts[0] in s.tools || parts[0] == "help")
  }

  /** ProcessCommand records the line; a line the gate stops changes
      nothing else, and an admitted one has its handler's effect. */
  lemma ProcessShape(w: World, s: Session, cmd: string, elapsed: string)
    ensures var r := Process(w, s, cmd, elapsed).next;
      && r.history == s.history + [cmd]
      && (!Admitted(s, cmd) ==> r == s.(history := s.history + [cmd]))
      && (Admitted(s, cmd) ==>
            Shaped(w, s.(history := r.history), Text.Fields(cmd)[0], Text.Fields(cmd)[1..], r))
  {
    if Admitted(s, cmd) {
      var parts := Text.Fields(cmd);
      RunShape(w, s.(history := s.history + [cmd]), parts[0], parts[1..], elapsed);
    }
  }

  /** Every line is recorded, whatever it is. */
  lemma ProcessRecords(w: World, s: Session, cmd: string, elapsed: string)
    ensures Process(w, s, cmd, elapsed).next.history == s.history + [cmd]
  {
    ProcessShape(w, s, cmd, elapsed);
  }

  /** A line that is only white space records itself and answers
      "Error: Empty command". */
  lemma EmptyLine(w: World, s: Session, cmd: string, elapsed: string)
    requires Text.AllSpace(cmd)
    ensures Process(w, s, cmd, elapsed) == Outcome(s.(history := s.history + [cmd]), Exact(EmptyCommand))
  {
    Text.FieldsEmptyIff(cmd);
  }

  /** A locked verb other than "help" is refused and only recorded. */
  lemma LockedVerb(w: World, s: Session, cmd: string, elapsed: string)
    requires Text.Fields(cmd) != []
    requires Text.Fields(cmd)[0] !in s.tools && Text.Fields(cmd)[0] != "help"
    ensures Process(w, s, cmd, elapsed) ==
              Outcome(s.(history := s.history + [cmd]), Exact(Denied(Text.Fields(cmd)[0])))
  {
  }

  /** Tools only grow, never repeat, and only exploit, download and upload
      can be added. */
  lemma ProcessTools(w: World, s: Session, cmd: string, elapsed: string)
    requires Text.Distinct(s.tools)
    ensures var r := Process(w, s, cmd, elapsed).next;
      && s.tools <= r.tools && Text.Distinct(r.tools)
      && forall t :: t in r.tools ==> t in s.tools || t in {"exploit", "download", "upload"}
  {
    ProcessShape(w, s, cmd, elapsed);
  }

  /** Without crack and exploit unlocked no tool can be unlocked. */
  lemma ToolsStayLocked(w: World, s: Session, cmd: string, elapsed: string)
    requires "crack" !in s.tools && "exploit" !in s.tools
    ensures Process(w, s, cmd, elapsed).next.tools == s.tools
  {
    ProcessShape(w, s, cmd, elapsed);
  }

  /** Hence, from NewGameState's tools, play never unlocks anything, and
      "crack", "exploit", "download", "upload", "status" and "exit" stay
      refused for good. */
  lemma InitialToolsFinal(w: World, s: Session, cmd: string, elapsed: string)
    requires s.tools == InitialTools
    ensures Process(w, s, cmd, elapsed).next.tools == InitialTools
    ensures forall t :: t in {"crack", "exploit", "download", "upload", "status", "exit"} ==> t !in InitialTools
  {
    ToolsStayLocked(w, s, cmd, elapsed);
  }

  /** The security level never drops, in either half of a turn. */
  lemma LevelNeverDrops(w: World, s: Session, cmd: string, elapsed: string)
    ensures Process(w, s, cmd, elapsed).next.securityLevel >= s.securityLevel
    ensures Check(s, cmd).securityLevel >= s.securityLevel
  {
    ProcessShape(w, s, cmd, elapsed);
  }

  /** A step changes an objective only by completing it when open. */
  lemma ProcessObjective(w: World, s: Session, cmd: string, elapsed: string, j: nat)
    requires j < |Objectives(s)|
    ensures var r := Process(w, s, cmd, elapsed).next; var o := Objectives(s)[j];
      && |Objectives(r)| == |Objectives(s)|
      && (Objectives(r)[j] == o || (!o.completed && Objectives(r)[j] == o.(completed := true)))
  {
    ProcessShape(w, s, cmd, elapsed);
  }

  /** ProcessCommand completes a "connect" objective only through a
      connect to its target that Connect accepts. */
  lemma ConnectObjectiveTrigger(w: World, s: Session, cmd: string, elapsed: string, j: nat)
    requires j < |Objectives(s)| && Objectives(s)[j].kind == Scenarios.ConnectKind
    requires Objectives(Process(w, s, cmd, elapsed).next)[j] != Objectives(s)[j]
    ensures var parts := Text.Fields(cmd);
      && |parts| > 1 && parts[0] == "connect" && "connect" in s.tools && parts[1] == Objectives(s)[j].target
      && Net.ConnectReply(w.nodes, w.routes, s.currentNode, parts[1], Port(parts[1..])).1
  {
    ProcessShape(w, s, cmd, elapsed);
  }

  /** An objective Marked changes is one that matched. */
  lemma MarkedChanges(objs: seq<Objective>, kind: string, target: string, j: nat)
    requires j < |objs| && Marked(objs, kind, target)[j] != objs[j]
    ensures Matches(objs[j], kind, target)
  {
  }

  /** Of the handlers only a cat or download that reads its argument can
      complete a "data" objective, and only one aimed at that argument. */
  lemma DataMarkOfShape(w: World, s: Session, verb: string, args: seq<string>, r: Session, j: nat)
    requires Shaped(w, s, verb, args, r)
    requires j < |Objectives(s)| && Objectives(s)[j].kind == Scenarios.DataKind
    requires Objectives(r)[j] != Objectives(s)[j]
    ensures (verb == "cat" || verb == "download") && |args| > 0
    ensures args[0] == Objectives(s)[j].target && Fs.ReadFile(w.fs, args[0]).Ok?
  {
    var objs := Objectives(s);
    if verb == "connect" && |args| > 0 && Net.ConnectReply(w.nodes, w.routes, s.currentNode, args[0], Port(args)).1 {
      MarkedChanges(objs, Scenarios.ConnectKind, args[0], j);
      assert false;
    } else {
      MarkedChanges(objs, Scenarios.DataKind, args[0], j);
    }
  }

  /** ProcessCommand completes a "data" objective only through a cat or
      download whose argument, as typed, equals the target and reads. */
  lemma DataObjectiveTrigger(w: World, s: Session, cmd: string, elapsed: string, j: nat)
    requires j < |Objectives(s)| && Objectives(s)[j].kind == Scenarios.DataKind
    requires Objectives(Process(w, s, cmd, elapsed).next)[j] != Objectives(s)[j]
    ensures var parts := Text.Fields(cmd);
      && |parts| > 1 && (parts[0] == "cat" || parts[0] == "download") && parts[0] in s.tools
      && parts[1] == Objectives(s)[j].target && Fs.ReadFile(w.fs, parts[1]).Ok?
  {
    ProcessShape(w, s, cmd, elapsed);
    var parts := Text.Fields(cmd);
    DataMarkOfShape(w, s.(history := s.history + [cmd]), parts[0], parts[1..], Process(w, s, cmd, elapsed).next, j);
  }

  /** ProcessCommand never completes a "command" objective. */
  lemma CommandObjectiveUntouched(w: World, s: Session, cmd: string, elapsed: string, j: nat)
    requires j < |Objectives(s)| && Objectives(s)[j].kind == Scenarios.CommandKind
    ensures Objectives(Process(w, s, cmd, elapsed).next)[j] == Objectives(s)[j]
  {
    ProcessShape(w, s, cmd, elapsed);
  }

  /** Check changes exactly the open "command" objectives named by the
      first field. */
  lemma CheckObjective(s: Session, cmd: string)
    ensures Objectives(Check(s, cmd)) ==
              if Text.Fields(cmd) == [] then Objectives(s)
              else Marked(Objectives(s), Scenarios.CommandKind, Text.Fields(cmd)[0])
  {
    if Text.Fields(cmd) != [] {
      SweepMarked(s, Scenarios.CommandKind, Text.Fields(cmd)[0]);
    }
  }

  lemma DivideMonotone(a: real, b: real, n: real)
    requires n > 0.0
    ensures a > b ==> a / n > b / n
    ensures a >= b ==> a / n >= b / n
  {
  }

  /** When progress is not ahead of the completed share, a check reports a
      change exactly when it completes an open "command" objective. */
  lemma CheckReports(s: Session, cmd: string)
    requires |Objectives(s)| > 0 && s.progress <= Ratio(Objectives(s))
    ensures var c := Check(s, cmd);
      (c.progress > s.progress) <==>
        Text.Fields(cmd) != [] &&
        exists j :: 0 <= j < |Objectives(s)| && Matches(Objectives(s)[j], Scenarios.CommandKind, Text.Fields(cmd)[0])
  {
    var parts := Text.Fields(cmd);
    if parts != [] {
      var verb := parts[0];
      var objs := Objectives(s);
      var c := SweepAll(s, Scenarios.CommandKind, verb);
      SweepProgress(s, Scenarios.CommandKind, verb, |objs|);
      SweepMarked(s, Scenarios.CommandKind, verb);
      if exists j :: 0 <= j < |objs| && Matches(objs[j], Scenarios.CommandKind, verb) {
        var k :| 0 <= k < |objs| && Matches(objs[k], Scenarios.CommandKind, verb);
        var marked := Marked(objs, Scenarios.CommandKind, verb);
        assert !objs[k].completed && marked[k].completed;
        CountGrows(objs, marked, k);
        DivideMonotone(CountCompleted(marked) as real, CountCompleted(objs) as real, |objs| as real);
      }
    }
  }

  // ----- progress in play -----

  /** The exploit bonus is the only step that moves progress off the
      completed share; every other admitted line keeps progress equal to
      the share, and the share never falls. */
  lemma ProcessSteady(w: World, s: Session, cmd: string, elapsed: string)
    requires s.tools == InitialTools && Steady(s)
    ensures var r := Process(w, s, cmd, elapsed).next;
      r.tools == InitialTools && Steady(r) && r.progress >= s.progress
  {
    ProcessShape(w, s, cmd, elapsed);
    InitialToolsFinal(w, s, cmd, elapsed);
  }

  /** CheckObjectiveCompletion keeps progress equal to the completed share. */
  lemma CheckSteady(s: Session, cmd: string)
    requires Steady(s)
    ensures Steady(Check(s, cmd)) && Check(s, cmd).progress >= s.progress
    ensures Check(s, cmd).tools == s.tools
  {
    if Text.Fields(cmd) != [] {
      SweepAllSteady(s, Scenarios.CommandKind, Text.Fields(cmd)[0]);
    }
  }

  /** From NewGameState's tools, one turn keeps progress equal to the
      completed share and lowers neither progress nor the level. */
  lemma TurnSteady(w: World, s: Session, cmd: string, elapsed: string)
    requires s.tools == InitialTools && Steady(s)
    ensures var n := TurnStep(w, s, cmd, elapsed).0.next;
      && n.tools == InitialTools && Steady(n)
      && n.progress >= s.progress && n.securityLevel >= s.securityLevel
  {
    var r := Process(w, s, cmd, elapsed).next;
    ProcessSteady(w, s, cmd, elapsed);
    LevelNeverDrops(w, s, cmd, elapsed);
    CheckSteady(r, cmd);
    LevelNeverDrops(w, r, cmd, elapsed);
  }

  /** Hence, over any sequence of turns from such a session, progress stays
      the completed share and neither progress nor the level falls. */
  lemma {:induction false} PlaySteady(w: World, s: Session, turns: seq<(string, string)>)
    requires s.tools == InitialTools && Steady(s)
    ensures var e := Play(w, s, turns);
      && e.tools == InitialTools && Steady(e)
      && e.progress >= s.progress && e.securityLevel >= s.securityLevel
    decreases |turns|
  {
    if turns != [] {
      TurnSteady(w, s, turns[0].0, turns[0].1);
      PlaySteady(w, TurnStep(w, s, turns[0].0, turns[0].1).0.next, turns[1..]);
    }
  }

  /** ... and so the premise of CheckReports holds at every turn. */
  lemma PlayCheckReports(w: World, s: Session, turns: seq<(string, string)>, cmd: string)
    requires s.tools == InitialTools && Steady(s)
    ensures var e := Play(w, s, turns); var c := Check(e, cmd);
      (c.progress > e.progress) <==>
        Text.Fields(cmd) != [] &&
        exists j :: 0 <= j < |Objectives(e)| && Matches(Objectives(e)[j], Scenarios.CommandKind, Text.Fields(cmd)[0])
  {
    PlaySteady(w, s, turns);
    CheckReports(Play(w, s, turns), cmd);
  }

  /** A data objective cannot be completed while no data target reads. */
  lemma DataObjectiveStuck(w: World, s: Session, cmd: string, elapsed: string, j: nat)
    requires j < |Objectives(s)| && Objectives(s)[j].kind == Scenarios.DataKind
    requires Fs.ReadFile(w.fs, Objectives(s)[j].target).Err?
    ensures Objectives(Process(w, s, cmd, elapsed).next)[j] == Objectives(s)[j]
  {
    if Objectives(Process(w, s, cmd, elapsed).next)[j] != Objectives(s)[j] {
      DataObjectiveTrigger(w, s, cmd, elapsed, j);
    }
  }

  // ----- the initial state -----

  /** NewGameState's choice of scenario: exact names, Network Breach for
      anything else. */
  function SelectScenario(name: string): Scenarios.Scenario {
    if name == "data-heist" then Scenarios.DataHeistScenario()
    else if name == "system-takeover" then Scenarios.SystemTakeoverScenario()
    else Scenarios.NetworkBreachScenario()
  }

  lemma SelectScenarioName(name: string)
    ensures SelectScenario(name).name ==
              if name == "data-heist" then "Data Heist"
              else if name == "system-takeover" then "System Takeover"
              else "Network Breach"
  {
  }

  function InitialWorld(sc: Scenarios.Scenario): World {
    World(Net.IndexNodes(sc.networkNodes), Net.RoutesOf(sc.networkNodes, sc.networkNodes),
          Fs.NewFileSystem(Some(sc.fileSystems)))
  }

  function InitialSession(sc: Scenarios.Scenario): Session {
    var ns := sc.networkNodes;
    Session(sc, 0.0, sc.initialSecurityLevel, InitialTools, [],
            if ns == [] then "local" else ns[0].ip, if ns == [] then {} else {ns[0].ip})
  }

  /** NewGameState's worlds: the file system of a scenario read from "/" */
  lemma InitialReadsFromRoot(sc: Scenarios.Scenario)
    ensures InitialWorld(sc).fs.directories == sc.fileSystems && InitialWorld(sc).fs.currentPath == "/"
  {
  }

  /** A "data" objective completes only if reading its target as typed
      succeeds; in a scenario whose data targets are out of reach from "/"
      that read fails, and the current path never leaves "/". */
  lemma DataTargetsUnreadable(sc: Scenarios.Scenario, j: nat)
    requires Scenarios.DataOutOfReach(sc)
    requires j < |sc.objectives| && sc.objectives[j].kind == Scenarios.DataKind
    ensures Fs.ReadFile(InitialWorld(sc).fs, sc.objectives[j].target).Err?
  {
    var fs := InitialWorld(sc).fs;
    Fs.ReadBareName(fs, sc.objectives[j].target);
  }

  /** CheckObjectiveCompletion touches only "command" objectives. */
  lemma CheckKeeps(s: Session, cmd: string, j: nat)
    requires j < |Objectives(s)| && Objectives(s)[j].kind != Scenarios.CommandKind
    ensures |Objectives(Check(s, cmd))| == |Objectives(s)|
    ensures Objectives(Check(s, cmd))[j] == Objectives(s)[j]
  {
    CheckObjective(s, cmd);
  }

  /** So, in a game on such a scenario, a turn leaves each "data"
      objective as it was, whatever is typed and whatever else has been
      completed. */
  lemma DataObjectivesStayOpen(sc: Scenarios.Scenario, s: Session, cmd: string, elapsed: string, j: nat)
    requires Scenarios.DataOutOfReach(sc)
    requires j < |sc.objectives| && sc.objectives[j].kind == Scenarios.DataKind
    requires j < |Objectives(s)| && Objectives(s)[j].kind == Scenarios.DataKind
    requires Objectives(s)[j].target == sc.objectives[j].target
    ensures var n := TurnStep(InitialWorld(sc), s, cmd, elapsed).0.next;
      |Objectives(n)| == |Objectives(s)| && Objectives(n)[j] == Objectives(s)[j]
  {
    var w := InitialWorld(sc);
    DataTargetsUnreadable(sc, j);
    DataObjectiveStuck(w, s, cmd, elapsed, j);
    CheckKeeps(Process(w, s, cmd, elapsed).next, cmd, j);
  }

  /** ... and over a whole game from NewGameState's session they are never
      completed. */
  lemma {:induction false} PlayDataObjectivesOpen(sc: Scenarios.Scenario, s: Session,
                                                   turns: seq<(string, string)>, j: nat)
    requires Scenarios.DataOutOfReach(sc)
    requires j < |sc.objectives| && sc.objectives[j].kind == Scenarios.DataKind
    requires j < |Objectives(s)| && Objectives(s)[j].kind == Scenarios.DataKind
    requires Objectives(s)[j].target == sc.objectives[j].target
    ensures var e := Play(InitialWorld(sc), s, turns);
      |Objectives(e)| == |Objectives(s)| && Objectives(e)[j] == Objectives(s)[j]
    decreases |turns|
  {
    if turns != [] {
      DataObjectivesStayOpen(sc, s, turns[0].0, turns[0].1, j);
      PlayDataObjectivesOpen(sc, TurnStep(InitialWorld(sc), s, turns[0].0, turns[0].1).0.next, turns[1..], j);
    }
  }

  /** A new game meets the premises of PlaySteady: no objective done and
      progress zero, the share of none. */
  lemma InitialSteady(sc: Scenarios.Scenario)
    requires |sc.objectives| > 0 && Scenarios.OpenObjectives(sc.objectives)
    ensures InitialSession(sc).tools == InitialTools && Steady(InitialSession(sc))
  {
    CountNone(sc.objectives);
  }

  /** So in any game on such a scenario progress is the completed share
      after every turn. */
  lemma GameSteady(sc: Scenarios.Scenario, turns: seq<(string, string)>)
    requires |sc.objectives| > 0 && Scenarios.OpenObjectives(sc.objectives)
    ensures Steady(Play(InitialWorld(sc), InitialSession(sc), turns))
  {
    InitialSteady(sc);
    PlaySteady(InitialWorld(sc), InitialSession(sc), turns);
  }

  /** The count of a list of objectives in which only the one at `k` is
      completed. */
  lemma {:induction false} CountOnly(objs: seq<Objective>, k: nat)
    requires k < |objs|
    requires forall j :: 0 <= j < |objs| ==> objs[j].completed == (j == k)
    ensures CountCompleted(objs) == 1
  {
    var n := |objs| - 1;
    if k < n {
      CountOnly(objs[..n], k);
    } else {
      CountNone(objs[..n]);
    }
  }

  lemma {:induction false} CountNone(objs: seq<Objective>)
    requires forall j :: 0 <= j < |objs| ==> !objs[j].completed
    ensures CountCompleted(objs) == 0
  {
    if objs != [] {
      CountNone(objs[..|objs| - 1]);
    }
  }

  lemma FieldsOfScan()
    ensures Text.Fields("scan") == ["scan"]
  {
    Text.FieldsOfJoin(["scan"]);
  }

  /** The command "scan" leaves objectives, progress and level alone. */
  lemma ScanKeeps(w: World, s: Session, elapsed: string)
    requires "scan" in s.tools
    ensures var p := Process(w, s, "scan", elapsed).next;
      Objectives(p) == Objectives(s) && p.progress == s.progress
  {
    FieldsOfScan();
    ProcessShape(w, s, "scan", elapsed);
  }

  /** Checking "scan" completes exactly the open "command" objectives aimed
      at "scan" and, if there is one, sets progress to the completed share. */
  lemma CheckScan(p: Session)
    ensures Objectives(Check(p, "scan")) == Marked(Objectives(p), Scenarios.CommandKind, "scan")
    ensures (exists j :: 0 <= j < |Objectives(p)| && Matches(Objectives(p)[j], Scenarios.CommandKind, "scan")) ==>
              Check(p, "scan").progress == Ratio(Objectives(Check(p, "scan")))
    ensures (forall j :: 0 <= j < |Objectives(p)| ==> !Matches(Objectives(p)[j], Scenarios.CommandKind, "scan")) ==>
              Check(p, "scan") == p
  {
    FieldsOfScan();
    SweepMarked(p, Scenarios.CommandKind, "scan");
    SweepProgress(p, Scenarios.CommandKind, "scan", |Objectives(p)|);
  }

  /** A turn "scan" completes exactly the open "command" objectives aimed at
      "scan", and reports a change exactly when progress rose. */
  lemma ScanTurn(w: World, s: Session, elapsed: string)
    requires "scan" in s.tools
    ensures var (o, changed) := TurnStep(w, s, "scan", elapsed);
      && Objectives(o.next) == Marked(Objectives(s), Scenarios.CommandKind, "scan")
      && (changed <==> o.next.progress > s.progress)
      && ((exists j :: 0 <= j < |Objectives(s)| && Matches(Objectives(s)[j], Scenarios.CommandKind, "scan")) ==>
            o.next.progress == Ratio(Objectives(o.next)))
      && ((forall j :: 0 <= j < |Objectives(s)| ==> !Matches(Objectives(s)[j], Scenarios.CommandKind, "scan")) ==>
            o.next.progress == s.progress)
  {
    ScanKeeps(w, s, elapsed);
    CheckScan(Process(w, s, "scan", elapsed).next);
  }

  /** Completing the one objective that matches, out of open ones, leaves
      a completed share of one in |objs|. */
  lemma MarkedOne(objs: seq<Objective>, kind: string, target: string, k: nat)
    requires k < |objs| && Scenarios.OpenObjectives(objs)
    requires forall j :: 0 <= j < |objs| ==> (objs[j].kind == kind && objs[j].target == target) == (j == k)
    ensures Matches(objs[k], kind, target)
    ensures Ratio(Marked(objs, kind, target)) == 1.0 / |objs| as real > 0.0
  {
    CountOnly(Marked(objs, kind, target), k);
  }

  /** With every objective open and only the one at `k` aimed at "scan", a
      turn "scan" raises progress to one objective's share. */
  lemma ScanTurnOfOne(w: World, s: Session, elapsed: string, k: nat)
    requires "scan" in s.tools && s.progress == 0.0
    requires k < |Objectives(s)| && Scenarios.OpenObjectives(Objectives(s))
    requires forall j :: 0 <= j < |Objectives(s)| ==>
               (Objectives(s)[j].kind == Scenarios.CommandKind && Objectives(s)[j].target == "scan") == (j == k)
    ensures var (o, changed) := TurnStep(w, s, "scan", elapsed);
      changed && o.next.progress == 1.0 / |Objectives(s)| as real
  {
    ScanTurn(w, s, elapsed);
    MarkedOne(Objectives(s), Scenarios.CommandKind, "scan", k);
  }

  /** Network Breach starts with its objectives open and only the first
      aimed at the command "scan", so by ScanTurnOfOne the first turn
      "scan" of a fresh game raises progress from 0 to 1/6 and reports a
      change. */
  lemma NetworkBreachFirstScan()
    ensures var s := InitialSession(Scenarios.NetworkBreachScenario());
      && "scan" in s.tools && s.progress == 0.0
      && |Objectives(s)| == 6 && Scenarios.OpenObjectives(Objectives(s))
      && forall j :: 0 <= j < |Objectives(s)| ==>
           (Objectives(s)[j].kind == Scenarios.CommandKind && Objectives(s)[j].target == "scan") == (j == 0)
  {
    Scenarios.NetworkBreachWellFormed();
  }

  // ----- read-only views -----

  /** GetObjectives: a check mark for a completed objective, a blank box
      for an open one. */
  function ObjectiveLine(o: Objective): string {
    (if o.completed then "[\U{2713}]" else "[ ]") + " " + o.description
  }

  /** The box of a line shows whether its objective is completed, and the
      description follows it. */
  lemma ObjectiveLineShows(o: Objective)
    ensures var line := ObjectiveLine(o);
      && |line| == 4 + |o.description| && line[4..] == o.description
      && (line[..3] == "[\U{2713}]" <==> o.completed)
      && (line[..3] == "[ ]" <==> !o.completed)
  {
    var line := ObjectiveLine(o);
    if o.completed { assert line[1] == '\U{2713}'; } else { assert line[1] == ' '; }
  }

  const ToolDescriptions: map<string, string> := map[
    "scan" := "Network scanner - Discover nodes on the network",
    "connect" := "Connection utility - Connect to remote systems",
    "ls" := "List files and directories",
    "cat" := "View file contents",
    "crack" := "Password cracking tool",
    "exploit" := "Vulnerability exploitation framework",
    "download" := "Download files from remote systems",
    "upload" := "Upload files to remote systems",
    "status" := "Display current system status",
    "help" := "Show help information"]

  /** GetAvailableTools: a tool with a description is shown with it, any
      other tool by its name alone. */
  function ToolLine(tool: string): string {
    if tool in ToolDescriptions then tool + " - " + ToolDescriptions[tool] else tool
  }

  /** Every line starts with its tool's name; only "exit" of the commands the
      game knows has no description. */
  lemma ToolLineShows(tool: string)
    ensures ToolLine(tool)[..|tool|] == tool
    ensures ToolLine(tool) == tool <==> tool !in ToolDescriptions
    ensures "exit" !in ToolDescriptions
    ensures forall t :: t in InitialTools ==> t in ToolDescriptions
  {
    if tool in ToolDescriptions {
      assert |ToolLine(tool)| > |tool|;
    }
  }

  /** %.1f of a value held exactly, rounded half to even. */
  function OneDecimalText(x: real): string {
    var n := RoundHalfEven(x * 10.0);
    var m: nat := if n < 0 then -n else n;
    (if n < 0 then "-" else "") + Text.NatToString(m / 10) + "." + [Text.DigitChar(m % 10)]
  }

  /** The detection chance every game starts with and keeps. */
  const InitialDetectionChance := 0.1

  /** GetSystemStatus. */
  function SystemStatusText(s: Session, detectionChance: real): string {
    "Current Node: " + s.currentNode + "\n"
      + "Security Level: " + Text.IntToString(s.securityLevel) + "/10\n"
      + "Detection Risk: " + OneDecimalText(detectionChance * 100.0) + "%\n"
      + "Mission Progress: " + PercentText(s.progress) + "%\n"
  }

  /** The detection line always reads "10.0%". */
  lemma DetectionRiskText()
    ensures OneDecimalText(InitialDetectionChance * 100.0) == "10.0"
  {
    assert RoundHalfEven(100.0) == 100;
    assert Text.NatToString(10) == "10" by {
      assert Text.NatToString(1) == "1";
    }
  }

  // ----- the game state -----

  lemma InitialToolsDistinct()
    ensures Text.Distinct(InitialTools)
  {
  }

  /** NewGameState: pick the scenario by name and start a game on it. */
  method NewGameState(scenarioName: string) returns (st: State)
    ensures fresh(st) && fresh(st.network) && st.Valid()
    ensures st.Snap() == InitialSession(SelectScenario(scenarioName))
    ensures st.Env() == InitialWorld(SelectScenario(scenarioName))
    ensures st.detectionChance == InitialDetectionChance
  {
    st := new State(SelectScenario(scenarioName));
  }

  /** State: the scenario and its objectives, the network and file system,
      progress, security level, unlocked tools and command history. */
  class State {
    var currentScenario: Scenarios.Scenario
    const network: Net.Network
    const fileSystem: Fs.FileSystem
    var progress: real
    var securityLevel: int
    const detectionChance: real
    var toolsUnlocked: seq<string>
    var commandHistory: seq<string>

    ghost predicate Valid()
      reads this, network
    {
      network.Valid() && Text.Distinct(toolsUnlocked)
    }

    /** What the commands can change, as a Session. */
    function Snap(): Session
      reads this, network
    {
      Session(currentScenario, progress, securityLevel, toolsUnlocked, commandHistory,
              network.currentNode, network.discovered)
    }

    /** What they cannot change. */
    function Env(): World {
      World(network.nodes, network.routes, fileSystem)
    }

    /** The struct literal of NewGameState, for a chosen scenario. */
    constructor (scenario: Scenarios.Scenario)
      ensures Valid() && fresh(network)
      ensures Snap() == InitialSession(scenario)
      ensures Env() == InitialWorld(scenario)
      ensures detectionChance == InitialDetectionChance
    {
      InitialToolsDistinct();
      var net := new Net.Network(scenario.networkNodes);
      currentScenario := scenario;
      network := net;
      fileSystem := Fs.NewFileSystem(Some(scenario.fileSystems));
      progress := 0.0;
      securityLevel := scenario.initialSecurityLevel;
      detectionChance := InitialDetectionChance;
      toolsUnlocked := InitialTools;
      commandHistory := [];
    }

    /** ProcessCommand: the new state and the reply are those of Process. */
    method ProcessCommand(cmd: string, elapsed: string) returns (out: string)
      requires Valid()
      modifies this, network
      ensures Valid()
      ensures Snap() == Process(Env(), old(Snap()), cmd, elapsed).next
      ensures Shows(Env(), Process(Env(), old(Snap()), cmd, elapsed).reply, out)
    {
      commandHistory := commandHistory + [cmd];
      var parts := Text.Fields(cmd);
      if |parts| == 0 {
        return EmptyCommand;
      }
      var command := parts[0];
      var args := parts[1..];
      var unlocked := IsToolUnlocked(command);
      if !unlocked && command != "help" {
        return Denied(command);
      }
      out := Execute(command, args, elapsed);
    }

    /** One turn of the hosting loops: ProcessCommand, then
        CheckObjectiveCompletion on the same line. */
    method Turn(cmd: string, elapsed: string) returns (out: string, changed: bool)
      requires Valid()
      modifies this, network
      ensures Valid()
      ensures Snap() == TurnStep(Env(), old(Snap()), cmd, elapsed).0.next
      ensures Shows(Env(), TurnStep(Env(), old(Snap()), cmd, elapsed).0.reply, out)
      ensures changed == TurnStep(Env(), old(Snap()), cmd, elapsed).1
    {
      out := ProcessCommand(cmd, elapsed);
      changed := CheckObjectiveCompletion(cmd);
    }

    /** The switch of ProcessCommand. */
    method Execute(command: string, args: seq<string>, elapsed: string) returns (out: string)
      requires Valid()
      modifies this, network
      ensures Valid()
      ensures Snap() == Run(Env(), old(Snap()), command, args, elapsed).next
      ensures Shows(Env(), Run(Env(), old(Snap()), command, args, elapsed).reply, out)
    {
      if command == "help" {
        out := HelpCommand(args);
      } else if command == "scan" {
        out := ScanCommand(args);
      } else if command == "connect" {
        out := ConnectCommand(args);
      } else if command == "ls" {
        out := LsCommand(args);
      } else if command == "cat" {
        out := CatCommand(args);
      } else if command == "crack" {
        out := CrackCommand(args);
      } else if command == "exploit" {
        out := ExploitCommand(args);
      } else if command == "download" {
        out := DownloadCommand(args);
      } else if command == "upload" {
        out := UploadCommand(args);
      } else if command == "status" {
        out := StatusCommand(elapsed);
      } else if command == "exit" {
        out := Disconnected;
      } else {
        out := NotRecognized(command);
      }
    }

    method HelpCommand(args: seq<string>) returns (out: string)
      ensures out == HelpText(toolsUnlocked, args)
    {
      if |args| > 0 {
        return CommandHelp(args[0]);
      }
      var available: seq<string> := [];
      for i := 0 to |toolsUnlocked|
        invariant available == toolsUnlocked[..i]
      {
        available := available + [toolsUnlocked[i]];
      }
      assert available == toolsUnlocked;
      out := GeneralHelp(available);
    }

    method ScanCommand(args: seq<string>) returns (out: string)
      requires Valid()
      modifies network
      ensures Valid()
      ensures Snap() == ScanStep(Env(), old(Snap()), args).next
      ensures Shows(Env(), ScanStep(Env(), old(Snap()), args).reply, out)
    {
      var targetIP := "";
      if |args| > 0 {
        targetIP := args[0];
      }
      out := network.Scan(targetIP);
    }

    method ConnectCommand(args: seq<string>) returns (out: string)
      requires Valid()
      modifies this, network
      ensures Valid()
      ensures Snap() == ConnectStep(Env(), old(Snap()), args).next
      ensures Shows(Env(), ConnectStep(Env(), old(Snap()), args).reply, out)
    {
      if |args| < 1 {
        return MissingIP;
      }
      var ip := args[0];
      var port := "22";
      if |args| > 1 {
        port := args[1];
      }
      var success;
      out, success := network.Connect(ip, port);
      if success {
        CompleteObjectives(Scenarios.ConnectKind, ip);
      }
    }

    method LsCommand(args: seq<string>) returns (out: string)
      ensures Fs.IsListing(fileSystem, if |args| > 0 then args[0] else ".", out)
    {
      var path := ".";
      if |args| > 0 {
        path := args[0];
      }
      out := Fs.ListFiles(fileSystem, path);
    }

    method CatCommand(args: seq<string>) returns (out: string)
      requires Valid()
      modifies this
      ensures Valid()
      ensures Snap() == CatStep(Env(), old(Snap()), args).next
      ensures Shows(Env(), CatStep(Env(), old(Snap()), args).reply, out)
    {
      if |args| < 1 {
        return MissingFilenameCat;
      }
      var filename := args[0];
      var content := Fs.ReadFile(fileSystem, filename);
      if content.Err? {
        return "Error: " + content.error;
      }
      CompleteObjectives(Scenarios.DataKind, filename);
      out := content.value;
    }

    method CrackCommand(args: seq<string>) returns (out: string)
      requires Valid()
      modifies this
      ensures Valid()
      ensures Snap() == CrackStep(old(Snap()), args).next
      ensures Shows(Env(), CrackStep(old(Snap()), args).reply, out)
    {
      if |args| < 1 {
        return MissingTarget;
      }
      UnlockTool("exploit");
      out := "Successfully cracked " + args[0] + "!\nNew tool unlocked: exploit";
    }

    method ExploitCommand(args: seq<string>) returns (out: string)
      requires Valid()
      modifies this
      ensures Valid()
      ensures Snap() == ExploitStep(old(Snap()), args).next
      ensures Shows(Env(), ExploitStep(old(Snap()), args).reply, out)
    {
      if |args| < 1 {
        return MissingExploit;
      }
      var target := "";
      if |args| > 1 {
        target := args[1];
      }
      progress := progress + 0.2;
      UnlockTool("download");
      UnlockTool("upload");
      out := "Successfully exploited " + args[0] + " on " + target + "!\n"
             + "Gained elevated access. New tools unlocked: download, upload";
    }

    method DownloadCommand(args: seq<string>) returns (out: string)
      requires Valid()
      modifies this
      ensures Valid()
      ensures Snap() == DownloadStep(Env(), old(Snap()), args).next
      ensures Shows(Env(), DownloadStep(Env(), old(Snap()), args).reply, out)
    {
      if |args| < 1 {
        return MissingFilenameDownload;
      }
      var filename := args[0];
      var content := Fs.ReadFile(fileSystem, filename);
      if content.Err? {
        return "Error: " + content.error;
      }
      CompleteObjectives(Scenarios.DataKind, filename);
      out := "Successfully downloaded " + filename;
    }

    method UploadCommand(args: seq<string>) returns (out: string)
      ensures out == UploadText(args)
    {
      out := UploadText(args);
    }

    method StatusCommand(elapsed: string) returns (out: string)
      ensures out == StatusText(Snap(), elapsed)
    {
      out := StatusText(Snap(), elapsed);
    }

    /** isToolUnlocked. */
    method IsToolUnlocked(tool: string) returns (b: bool)
      ensures b <==> tool in toolsUnlocked
    {
      for i := 0 to |toolsUnlocked|
        invariant tool !in toolsUnlocked[..i]
      {
        if toolsUnlocked[i] == tool {
          return true;
        }
      }
      assert toolsUnlocked[..|toolsUnlocked|] == toolsUnlocked;
      return false;
    }

    /** unlockTool. */
    method UnlockTool(tool: string)
      requires Valid()
      modifies this
      ensures Valid()
      ensures Snap() == old(Snap()).(tools := Unlock(old(toolsUnlocked), tool))
    {
      var unlocked := IsToolUnlocked(tool);
      if !unlocked {
        toolsUnlocked := toolsUnlocked + [tool];
      }
    }

    /** The loop of checkNetworkObjectives, checkDataObjectives and
        CheckObjectiveCompletion: complete each open objective of `kind`
        aimed at `target`, recomputing progress after each. */
    method CompleteObjectives(kind: string, target: string)
      requires Valid()
      modifies this
      ensures Valid()
      ensures Snap() == SweepAll(old(Snap()), kind, target)
    {
      var n := |currentScenario.objectives|;
      for i := 0 to n
        invariant Valid()
        invariant Snap() == Sweep(old(Snap()), kind, target, i)
      {
        var objective := currentScenario.objectives[i];
        if !objective.completed && objective.kind == kind && objective.target == target {
          var objs := currentScenario.objectives;
          currentScenario := currentScenario.(objectives := objs[i := objective.(completed := true)]);
          UpdateProgress();
        }
      }
    }

    /** CheckObjectiveCompletion: true exactly when progress rose. */
    method CheckObjectiveCompletion(cmd: string) returns (changed: bool)
      requires Valid()
      modifies this
      ensures Valid()
      ensures Snap() == Check(old(Snap()), cmd)
      ensures changed <==> progress > old(progress)
    {
      var beforeProgress := progress;
      var parts := Text.Fields(cmd);
      if |parts| > 0 {
        CompleteObjectives(Scenarios.CommandKind, parts[0]);
      }
      changed := progress > beforeProgress;
    }

    /** updateProgress. */
    method UpdateProgress()
      requires |currentScenario.objectives| > 0
      modifies this
      ensures Snap() == Recompute(old(Snap()))
    {
      var objs := currentScenario.objectives;
      var completed := 0;
      for i := 0 to |objs|
        invariant completed == CountCompleted(objs[..i])
      {
        assert objs[..i + 1][..i] == objs[..i];
        if objs[i].completed {
          completed := completed + 1;
        }
      }
      assert objs[..|objs|] == objs;
      progress := completed as real / |objs| as real;
      if progress >= 0.5 && securityLevel < 5 {
        securityLevel := 5;
      } else if progress >= 0.75 && securityLevel < 8 {
        securityLevel := 8;
      }
    }

    method GetObjectives() returns (lines: seq<string>)
      ensures |lines| == |currentScenario.objectives|
      ensures forall i :: 0 <= i < |lines| ==> lines[i] == ObjectiveLine(currentScenario.objectives[i])
    {
      lines := [];
      for i := 0 to |currentScenario.objectives|
        invariant |lines| == i
        invariant forall j :: 0 <= j < i ==> lines[j] == ObjectiveLine(currentScenario.objectives[j])
      {
        var obj := currentScenario.objectives[i];
        var status := "[ ]";
        if obj.completed {
          status := "[\U{2713}]";
        }
        lines := lines + [status + " " + obj.description];
      }
    }

    method GetNetworkMap() returns (out: string)
      ensures Net.IsNetworkMap(network.nodes, network.discovered, out)
    {
      out := network.GetNetworkMap();
    }

    method GetAvailableTools() returns (lines: seq<string>)
      ensures |lines| == |toolsUnlocked|
      ensures forall i :: 0 <= i < |lines| ==> lines[i] == ToolLine(toolsUnlocked[i])
    {
      lines := [];
      for i := 0 to |toolsUnlocked|
        invariant |lines| == i
        invariant forall j :: 0 <= j < i ==> lines[j] == ToolLine(toolsUnlocked[j])
      {
        var tool := toolsUnlocked[i];
        if tool in ToolDescriptions {
          lines := lines + [tool + " - " + ToolDescriptions[tool]];
        } else {
          lines := lines + [tool];
        }
      }
    }

    method GetSystemStatus() returns (out: string)
      ensures out == SystemStatusText(Snap(), detectionChance)
    {
      out := SystemStatusText(Snap(), detectionChance);
    }
  }
}
