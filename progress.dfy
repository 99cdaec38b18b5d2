/** The progression tracker of game/progress.go: first-visit and
    first-access sets, per-command counters and an append-only list of
    achievements. The clock is outside the model: the caller passes the
    "15:04:05" rendering of an achievement's time. */
module Tracker {

  /** The source's achievement type names. */
  const Connected := "connected"
  const CommandRun := "command"
  const DataFound := "data"
  const ObjectivesCompleted := "objectives"

  datatype Achievement = Achievement(kind: string, name: string, description: string, time: string, value: string)

  /** The counts GetStats reports. */
  datatype Stats = Stats(nodesVisited: nat, filesAccessed: nat, uniqueCommands: nat, totalCommands: nat,
                         achievements: nat)

  /** A counter as Go reads it: missing keys count 0. */
  function Count(m: map<string, nat>, c: string): nat {
    if c in m then m[c] else 0
  }

  /** The sum of all counters. */
  ghost function TotalCount(m: map<string, nat>): nat
    decreases |m|
  {
    if m == map[] then 0
    else
      var k :| k in m;
      m[k] + TotalCount(m - {k})
  }

  /** The sum does not depend on which key is taken out first. */
  lemma {:induction false} TotalCountRemove(m: map<string, nat>, k: string)
    requires k in m
    ensures TotalCount(m) == m[k] + TotalCount(m - {k})
    decreases |m|
  {
    var j :| j in m && TotalCount(m) == m[j] + TotalCount(m - {j});
    if j != k {
      TotalCountRemove(m - {j}, k);
      TotalCountRemove(m - {k}, j);
      assert m - {j} - {k} == m - {k} - {j};
    }
  }

  /** One more run of `c` adds exactly one to the total. */
  lemma RecordAddsOne(m: map<string, nat>, c: string)
    ensures TotalCount(m[c := Count(m, c) + 1]) == TotalCount(m) + 1
  {
    var n := m[c := Count(m, c) + 1];
    TotalCountRemove(n, c);
    assert n - {c} == m - {c};
    if c in m {
      TotalCountRemove(m, c);
    } else {
      assert m - {c} == m;
    }
  }

  const NoAchievements := "No achievements yet"

  function AchievementLine(a: Achievement): string {
    "[" + a.time + "] " + a.name + " - " + a.description
  }

  /** What ListAchievements returns for a list of achievements. */
  function AchievementLines(achievements: seq<Achievement>): seq<string> {
    if achievements == [] then [NoAchievements]
    else seq(|achievements|, i requires 0 <= i < |achievements| => AchievementLine(achievements[i]))
  }

  /** Adding an achievement appends its line and keeps the earlier lines. */
  lemma LinesAfterAdd(achievements: seq<Achievement>, a: Achievement)
    ensures AchievementLines(achievements + [a]) ==
              (if achievements == [] then [] else AchievementLines(achievements)) + [AchievementLine(a)]
  {
  }

  class GameProgression {
    var achievements: seq<Achievement>
    var nodesVisited: set<string>
    var commandsRun: map<string, nat>
    var filesAccessed: set<string>

    /** NewGameProgression: everything starts empty. */
    constructor ()
      ensures achievements == [] && nodesVisited == {} && commandsRun == map[] && filesAccessed == {}
    {
      achievements := [];
      nodesVisited := {};
      commandsRun := map[];
      filesAccessed := {};
    }

    /** AddAchievement: one entry at the end, the rest unchanged. */
    method AddAchievement(kind: string, name: string, description: string, value: string, time: string)
      modifies this
      ensures achievements == old(achievements) + [Achievement(kind, name, description, time, value)]
      ensures nodesVisited == old(nodesVisited) && commandsRun == old(commandsRun)
      ensures filesAccessed == old(filesAccessed)
    {
      achievements := achievements + [Achievement(kind, name, description, time, value)];
    }

    /** RecordNodeVisit: true exactly on the first visit of `ip`. */
    method RecordNodeVisit(ip: string) returns (firstVisit: bool)
      modifies this
      ensures firstVisit <==> ip !in old(nodesVisited)
      ensures nodesVisited == old(nodesVisited) + {ip}
      ensures achievements == old(achievements) && commandsRun == old(commandsRun)
      ensures filesAccessed == old(filesAccessed)
    {
      firstVisit := ip !in nodesVisited;
      nodesVisited := nodesVisited + {ip};
    }

    /** RecordCommandRun: the counter of `command` goes up by one. */
    method RecordCommandRun(command: string)
      modifies this
      ensures commandsRun == old(commandsRun)[command := Count(old(commandsRun), command) + 1]
      ensures TotalCount(commandsRun) == TotalCount(old(commandsRun)) + 1
      ensures achievements == old(achievements) && nodesVisited == old(nodesVisited)
      ensures filesAccessed == old(filesAccessed)
    {
      RecordAddsOne(commandsRun, command);
      commandsRun := commandsRun[command := Count(commandsRun, command) + 1];
    }

    /** RecordFileAccess: true exactly on the first access of `filename`. */
    method RecordFileAccess(filename: string) returns (firstAccess: bool)
      modifies this
      ensures firstAccess <==> filename !in old(filesAccessed)
      ensures filesAccessed == old(filesAccessed) + {filename}
      ensures achievements == old(achievements) && nodesVisited == old(nodesVisited)
      ensures commandsRun == old(commandsRun)
    {
      firstAccess := filename !in filesAccessed;
      filesAccessed := filesAccessed + {filename};
    }

    /** GetStats: the sizes of the collections and the sum of the counters. */
    method GetStats() returns (stats: Stats)
      ensures stats == Stats(|nodesVisited|, |filesAccessed|, |commandsRun|, TotalCount(commandsRun), |achievements|)
    {
      var totalCommands := 0;
      var remaining := commandsRun;
      while remaining != map[]
        invariant remaining.Keys <= commandsRun.Keys
        invariant forall c :: c in remaining ==> remaining[c] == commandsRun[c]
        invariant totalCommands + TotalCount(remaining) == TotalCount(commandsRun)
        decreases |remaining|
      {
        var command :| command in remaining;
        TotalCountRemove(remaining, command);
        totalCommands := totalCommands + remaining[command];
        remaining := remaining - {command};
      }
      stats := Stats(|nodesVisited|, |filesAccessed|, |commandsRun|, totalCommands, |achievements|);
    }

    /** ListAchievements: one line per achievement in insertion order, or the
        "no achievements" line. */
    method ListAchievements() returns (result: seq<string>)
      ensures result == AchievementLines(achievements)
      ensures achievements == [] ==> result == [NoAchievements]
      ensures achievements != [] ==> |result| == |achievements|
                                     && forall i :: 0 <= i < |result| ==> result[i] == AchievementLine(achievements[i])
    {
      if |achievements| == 0 {
        return [NoAchievements];
      }
      result := [];
      for i := 0 to |achievements|
        invariant |result| == i
        invariant forall k :: 0 <= k < i ==> result[k] == AchievementLine(achievements[k])
      {
        result := result + [AchievementLine(achievements[i])];
      }
    }
  }
}
