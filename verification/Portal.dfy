/**
 The portal's job queue: its tables, the statements its functions are made of, and the functions as they run without
 interference.  Each statement changes the tables at once; doneJob's statements form one transaction, whose changes
 are undone unless it commits.  A job waits until a worker claims it and ends done, aborted or canceled.
 */
module Portal {
  import opened Common

  datatype Status = Waiting | Running | Done | Aborted | Canceled
  datatype Report = Report(pass: bool, score: int)
  datatype Job = Job(team: int, group: string, ip: string, status: Status, node: Option<string>, report: Option<Report>,
    updatedAt: int)
  datatype Score = Score(team: int, score: int)
  datatype TeamScore = TeamScore(latest: int, best: int)

  /** The queues, scores and team_scores tables; a job's id is its place in the queue. */
  datatype Db = Db(jobs: seq<Job>, scores: seq<Score>, teamScores: map<int, TeamScore>)

  const TIMEOUT := 150

  function WaitingIn(group: string): Job -> bool { (j: Job) => j.status == Waiting && j.group == group }
  function WaitingOf(team: int): Job -> bool { (j: Job) => j.status == Waiting && j.team == team }
  function ActiveOf(team: int): Job -> bool
  {
    (j: Job) => j.team == team && (j.status == Waiting || j.status == Running)
  }

  /** The first job, by id, that satisfies p, or |jobs|. */
  function First(jobs: seq<Job>, p: Job -> bool): (k: nat)
    ensures k <= |jobs| && (k < |jobs| ==> p(jobs[k])) && forall j :: 0 <= j < k ==> !p(jobs[j])
  {
    if |jobs| == 0 then 0
    else
      var k := First(jobs[..|jobs| - 1], p);
      if k < |jobs| - 1 || p(jobs[|jobs| - 1]) then k else |jobs|
  }

  // ---- Statements -------------------------------------------------------------------------------------------------

  function Inserted(jobs: seq<Job>, team: int, group: string, ip: string, now: int): seq<Job>
  {
    jobs + [Job(team, group, ip, Waiting, None, None, now)]
  }

  /** UPDATE ... SET status = b WHERE id = ? AND status = a. */
  function Moved(jobs: seq<Job>, id: nat, a: Status, b: Status, now: int): seq<Job>
  {
    if id < |jobs| && jobs[id].status == a then jobs[id := jobs[id].(status := b, updatedAt := now)] else jobs
  }

  function Claimed(jobs: seq<Job>, id: nat, node: string, now: int): seq<Job>
  {
    if id < |jobs| && jobs[id].status == Waiting
      then jobs[id := jobs[id].(status := Running, node := Some(node), updatedAt := now)] else jobs
  }

  function Finished(jobs: seq<Job>, id: nat, report: Report, now: int): seq<Job>
  {
    if id < |jobs| && jobs[id].status == Running
      then jobs[id := jobs[id].(status := Done, report := Some(report), updatedAt := now)] else jobs
  }

  predicate Stale(j: Job, now: int) { j.status == Running && j.updatedAt < now - TIMEOUT }

  function TimedOut(jobs: seq<Job>, now: int): seq<Job>
  {
    seq(|jobs|, i requires 0 <= i < |jobs| => if Stale(jobs[i], now) then jobs[i].(status := Aborted, updatedAt := now)
      else jobs[i])
  }

  function Greatest(a: int, b: int): int { if a < b then b else a }

  /** INSERT ... ON DUPLICATE KEY UPDATE best_score = GREATEST(...), latest_score = VALUES(...). */
  function NewStanding(teamScores: map<int, TeamScore>, team: int, score: int): TeamScore
  {
    if team in teamScores then TeamScore(score, Greatest(teamScores[team].best, score)) else TeamScore(score, score)
  }

  function Recorded(db: Db, team: int, score: int): Db
  {
    db.(scores := db.scores + [Score(team, score)],
      teamScores := db.teamScores[team := NewStanding(db.teamScores, team, score)])
  }

  /** A finished job with its score, if it passed. */
  function Completed(db: Db, id: nat, report: Report, now: int): Db
    requires id < |db.jobs|
  {
    var next := db.(jobs := Finished(db.jobs, id, report, now));
    if report.pass then Recorded(next, db.jobs[id].team, report.score) else next
  }

  // ---- The functions, run without interference ----------------------------------------------------------------------

  class Queue {
    var jobs: seq<Job>
    var scores: seq<Score>
    var teamScores: map<int, TeamScore>

    constructor ()
      ensures Tables() == Db([], [], map[])
    {
      jobs, scores, teamScores := [], [], map[];
    }

    function Tables(): Db
      reads this
    {
      Db(jobs, scores, teamScores)
    }

    /** Runs UPDATE ... WHERE id = ? AND status = ? and reports the affected rows. */
    method Update(id: nat, a: Status, b: Status, now: int) returns (affected: nat)
      modifies `jobs
      ensures jobs == Moved(old(jobs), id, a, b, now)
      ensures affected == if id < |old(jobs)| && old(jobs)[id].status == a then 1 else 0
    {
      if id < |jobs| && jobs[id].status == a {
        jobs := jobs[id := jobs[id].(status := b, updatedAt := now)];
        return 1;
      }
      return 0;
    }

    /** Refuses a team that has a job waiting or running. */
    method EnqueueJob(team: int, group: string, ip: string, now: int) returns (ok: bool)
      modifies this
      ensures ok <==> forall j :: j in old(jobs) && j.team == team ==> j.status != Waiting && j.status != Running
      ensures ok ==> jobs == old(jobs) + [Job(team, group, ip, Waiting, None, None, now)]
      ensures Tables() == if ok then old(Tables()).(jobs := Inserted(old(jobs), team, group, ip, now))
        else old(Tables())
    {
      var id := First(jobs, ActiveOf(team));
      if id < |jobs| {
        assert jobs[id] in jobs;
        return false;
      }
      forall j | j in jobs ensures !ActiveOf(team)(j) {
        var k :| 0 <= k < |jobs| && jobs[k] == j;
      }
      jobs := jobs + [Job(team, group, ip, Waiting, None, None, now)];
      return true;
    }

    /** Hands out the oldest waiting job of the group. */
    method DequeueJob(group: string, node: string, now: int) returns (r: Option<nat>)
      modifies this
      ensures r.None? <==> forall j :: j in old(jobs) && j.group == group ==> j.status != Waiting
      ensures r.Some? ==>
        && r.value < |old(jobs)| && old(jobs)[r.value].status == Waiting && old(jobs)[r.value].group == group
        && (forall j :: 0 <= j < r.value && old(jobs)[j].group == group ==> old(jobs)[j].status != Waiting)
        && jobs == old(jobs)[r.value := old(jobs)[r.value].(status := Running, node := Some(node), updatedAt := now)]
      ensures Tables() == if r.Some? then old(Tables()).(jobs := Claimed(old(jobs), r.value, node, now))
        else old(Tables())
    {
      var id := First(jobs, WaitingIn(group));
      if id == |jobs| {
        forall j | j in jobs ensures !WaitingIn(group)(j) {
          var k :| 0 <= k < |jobs| && jobs[k] == j;
        }
        return None;
      }
      assert jobs[id] in jobs && WaitingIn(group)(jobs[id]);
      assert forall j :: 0 <= j < id ==> !WaitingIn(group)(jobs[j]);
      var affected := Update(id, Waiting, Running, now);
      if affected < 1 {
        return None; // another worker was faster
      }
      jobs := jobs[id := jobs[id].(node := Some(node))];
      return Some(id);
    }

    /** Cancels the team's oldest waiting job, and nothing else. */
    method CancelJob(team: int, now: int)
      modifies this
      ensures |jobs| == |old(jobs)|
      ensures forall id :: 0 <= id < |jobs| ==>
        jobs[id] ==
          if old(jobs)[id].team == team && old(jobs)[id].status == Waiting
            && forall j :: 0 <= j < id && old(jobs)[j].team == team ==> old(jobs)[j].status != Waiting
          then old(jobs)[id].(status := Canceled, updatedAt := now) else old(jobs)[id]
      ensures Tables()
        == old(Tables()).(jobs := Moved(old(jobs), First(old(jobs), WaitingOf(team)), Waiting, Canceled, now))
    {
      var id := First(jobs, WaitingOf(team));
      assert id < |jobs| ==> WaitingOf(team)(jobs[id]);
      assert forall j :: 0 <= j < id ==> !WaitingOf(team)(jobs[j]);
      if id == |jobs| {
        return;
      }
      var affected := Update(id, Waiting, Canceled, now);
    }

    /** Records a job's result; everything is rolled back unless the job was running. */
    method DoneJob(id: nat, report: Report, now: int) returns (ok: bool)
      modifies this
      ensures ok <==> id < |old(jobs)| && old(jobs)[id].status == Running
      ensures Tables() == if ok then Completed(old(Tables()), id, report, now) else old(Tables())
      ensures ok ==>
        jobs == old(jobs)[id := old(jobs)[id].(status := Done, report := Some(report), updatedAt := now)]
      ensures ok && report.pass ==>
        var team := old(jobs)[id].team;
        && scores == old(scores) + [Score(team, report.score)]
        && team in teamScores && teamScores[team].latest == report.score
        && (team !in old(teamScores) ==> teamScores[team].best == report.score)
        && (team in old(teamScores) ==>
          && (teamScores[team].best == report.score || teamScores[team].best == old(teamScores)[team].best)
          && report.score <= teamScores[team].best && old(teamScores)[team].best <= teamScores[team].best)
    {
      if id >= |jobs| {
        return false;
      }
      var before := jobs;
      var team := jobs[id].team;
      var affected := Update(id, Running, Done, now);
      if affected != 1 {
        jobs := before; // rollback
        return false;
      }
      jobs := jobs[id := jobs[id].(report := Some(report))];
      if report.pass {
        scores := scores + [Score(team, report.score)];
        if team in teamScores {
          teamScores := teamScores[team := TeamScore(report.score, Greatest(teamScores[team].best, report.score))];
        } else {
          teamScores := teamScores[team := TeamScore(report.score, report.score)];
        }
      }
      return true;
    }

    /** Aborts the job if it is running. */
    method AbortJob(id: nat, now: int)
      modifies this
      ensures |jobs| == |old(jobs)|
      ensures forall k :: 0 <= k < |jobs| ==>
        jobs[k] == if k == id && old(jobs)[k].status == Running
          then old(jobs)[k].(status := Aborted, updatedAt := now) else old(jobs)[k]
      ensures Tables() == old(Tables()).(jobs := Moved(old(jobs), id, Running, Aborted, now))
    {
      var affected := Update(id, Running, Aborted, now);
    }

    /** Aborts every running job that has not been touched for 150 seconds. */
    method CheckTimeoutJob(now: int) returns (affected: nat)
      modifies this
      ensures Tables() == old(Tables()).(jobs := TimedOut(old(jobs), now))
      ensures |jobs| == |old(jobs)|
      ensures forall k :: 0 <= k < |jobs| ==>
        jobs[k] == if old(jobs)[k].status == Running && old(jobs)[k].updatedAt < now - 150
          then old(jobs)[k].(status := Aborted, updatedAt := now) else old(jobs)[k]
      ensures affected == |set i | 0 <= i < |old(jobs)| && Stale(old(jobs)[i], now)|
    {
      affected := 0;
      ghost var before, ids: set<int> := jobs, {};
      for i := 0 to |jobs|
        invariant |jobs| == |before|
        invariant forall k :: 0 <= k < i ==> jobs[k] == TimedOut(before, now)[k]
        invariant forall k :: i <= k < |before| ==> jobs[k] == before[k]
        invariant scores == old(scores) && teamScores == old(teamScores)
        invariant ids == (set k | 0 <= k < i && Stale(before[k], now)) && affected == |ids|
      {
        if jobs[i].status == Running && jobs[i].updatedAt < now - TIMEOUT {
          jobs := jobs[i := jobs[i].(status := Aborted, updatedAt := now)];
          affected := affected + 1;
          ids := ids + {i};
        }
      }
      assert jobs == TimedOut(before, now);
    }
  }
}
