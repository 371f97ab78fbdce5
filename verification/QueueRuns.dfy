/** Many workers on the job queue, one statement at a time, and what every interleaving keeps. */
module QueueRuns {
  import opened Common
  import opened Portal
  import opened Sums

  // A function's SELECT and its later UPDATE or INSERT are separate steps, and doneJob's transaction holds its row
  // locks until it commits or rolls back.

  /** Where a worker stands inside a function. */
  datatype Task =
    | Enqueue(team: int, group: string, ip: string) // found no active job
    | Dequeue(id: nat, group: string, node: string) // found the group's oldest waiting job
    | Cancel(id: nat) // found the team's oldest waiting job
    | Found(id: nat, team: int, report: Report) // doneJob: has read the job
    | Updated(id: nat, team: int, report: Report) // its transaction has updated the job row
    | Scored(id: nat, team: int, report: Report) // and inserted the score
    | Ranked(id: nat, team: int, report: Report, row: TeamScore) // and written the team's row

  /** Who asked for a job that was handed out. */
  datatype Asker = Asker(group: string, node: string)

  /**
   The committed tables, the workers, the ids handed out and to whom, and the jobs whose scores were recorded, in
   order.
   */
  datatype State = State(db: Db, tasks: map<int, Task>, dispatched: seq<nat>, askers: seq<Asker>, ledger: seq<nat>)

  const START := State(Db([], [], map[]), map[], [], [], [])

  datatype Action =
    | EnqueueLook(w: int, team: int, group: string, ip: string)
    | EnqueueInsert(w: int, now: int)
    | DequeueLook(w: int, group: string, node: string)
    | DequeueClaim(w: int, now: int)
    | CancelLook(w: int, team: int)
    | CancelSet(w: int, now: int)
    | DoneLook(w: int, id: nat, report: Report)
    | DoneUpdate(w: int)
    | DoneScore(w: int)
    | DoneTeam(w: int)
    | DoneCommit(w: int, now: int)
    | Quit(w: int) // gives up, rolling back what it has not committed
    | Abort(id: nat, now: int)
    | Timeout(now: int)

  predicate HoldsJob(t: Task, id: nat) { (t.Updated? || t.Scored? || t.Ranked?) && t.id == id }
  predicate HoldsTeam(t: Task, team: int) { t.Ranked? && t.team == team }

  predicate JobLocked(tasks: map<int, Task>, id: nat) { exists w :: w in tasks && HoldsJob(tasks[w], id) }
  predicate TeamLocked(tasks: map<int, Task>, team: int) { exists w :: w in tasks && HoldsTeam(tasks[w], team) }

  function Without(tasks: map<int, Task>, w: int): map<int, Task> { map v | v in tasks && v != w :: tasks[v] }

  function WithJobs(s: State, jobs: seq<Job>): State { s.(db := s.db.(jobs := jobs)) }

  /** A statement that finds nothing to change ends its function. */
  function Look(s: State, a: Action): State
    requires a.EnqueueLook? || a.DequeueLook? || a.CancelLook? || a.DoneLook?
  {
    if a.w in s.tasks then s
    else
      match a
      case EnqueueLook(w, team, group, ip) =>
        if First(s.db.jobs, ActiveOf(team)) == |s.db.jobs| then s.(tasks := s.tasks[w := Enqueue(team, group, ip)])
          else s
      case DequeueLook(w, group, node) =>
        var id := First(s.db.jobs, WaitingIn(group));
        if id < |s.db.jobs| then s.(tasks := s.tasks[w := Dequeue(id, group, node)]) else s
      case CancelLook(w, team) =>
        var id := First(s.db.jobs, WaitingOf(team));
        if id < |s.db.jobs| then s.(tasks := s.tasks[w := Cancel(id)]) else s
      case DoneLook(w, id, report) =>
        if id < |s.db.jobs| then s.(tasks := s.tasks[w := Found(id, s.db.jobs[id].team, report)]) else s
  }

  /** doneJob's transaction; a locked row makes it wait. */
  function DoneStep(s: State, a: Action, t: Task): State
  {
    match a
    case DoneUpdate(w) =>
      if !t.Found? || JobLocked(s.tasks, t.id) then s
      else if t.id < |s.db.jobs| && s.db.jobs[t.id].status == Running
        then s.(tasks := s.tasks[w := Updated(t.id, t.team, t.report)])
      else s.(tasks := Without(s.tasks, w))
    case DoneScore(w) => if t.Updated? && t.report.pass then s.(tasks := s.tasks[w := Scored(t.id, t.team, t.report)])
      else s
    case DoneTeam(w) =>
      if t.Scored? && !TeamLocked(s.tasks, t.team)
      then s.(tasks := s.tasks[w := Ranked(t.id, t.team, t.report,
        NewStanding(s.db.teamScores, t.team, t.report.score))])
      else s
    case DoneCommit(w, now) =>
      var jobs := if t.Updated? || t.Ranked? then Finished(s.db.jobs, t.id, t.report, now) else s.db.jobs;
      if t.Updated? && !t.report.pass then WithJobs(s, jobs).(tasks := Without(s.tasks, w))
      else if t.Ranked? then
        State(Db(jobs, s.db.scores + [Score(t.team, t.report.score)], s.db.teamScores[t.team := t.row]),
              Without(s.tasks, w), s.dispatched, s.askers, s.ledger + [t.id])
      else s
    case _ => s
  }

  function TaskStep(s: State, a: Action, t: Task): State
    requires !a.EnqueueLook? && !a.DequeueLook? && !a.CancelLook? && !a.DoneLook? && !a.Abort? && !a.Timeout?
  {
    match a
    case EnqueueInsert(w, now) =>
      if t.Enqueue? then WithJobs(s, Inserted(s.db.jobs, t.team, t.group, t.ip, now)).(tasks := Without(s.tasks, w))
        else s
    case DequeueClaim(w, now) =>
      if !t.Dequeue? || JobLocked(s.tasks, t.id) then s
      else
        var won := t.id < |s.db.jobs| && s.db.jobs[t.id].status == Waiting;
        WithJobs(s, Claimed(s.db.jobs, t.id, t.node, now)).(tasks := Without(s.tasks, w),
          dispatched := if won then s.dispatched + [t.id] else s.dispatched,
          askers := if won then s.askers + [Asker(t.group, t.node)] else s.askers)
    case CancelSet(w, now) =>
      if !t.Cancel? || JobLocked(s.tasks, t.id) then s
      else WithJobs(s, Moved(s.db.jobs, t.id, Waiting, Canceled, now)).(tasks := Without(s.tasks, w))
    case Quit(w) => s.(tasks := Without(s.tasks, w))
    case _ => DoneStep(s, a, t)
  }

  function Do(s: State, a: Action): State
  {
    match a
    case Abort(id, now) => if JobLocked(s.tasks, id) then s
      else WithJobs(s, Moved(s.db.jobs, id, Running, Aborted, now))
    case Timeout(now) =>
      if exists id: nat :: id < |s.db.jobs| && Stale(s.db.jobs[id], now) && JobLocked(s.tasks, id) then s
      else WithJobs(s, TimedOut(s.db.jobs, now))
    case EnqueueLook(_, _, _, _) => Look(s, a)
    case DequeueLook(_, _, _) => Look(s, a)
    case CancelLook(_, _) => Look(s, a)
    case DoneLook(_, _, _) => Look(s, a)
    case _ => if a.w in s.tasks then TaskStep(s, a, s.tasks[a.w]) else s
  }

  function Run(actions: seq<Action>): State
  {
    if |actions| == 0 then START else Do(Run(actions[..|actions| - 1]), actions[|actions| - 1])
  }

  // ---- Run alone, the steps are the functions -----------------------------------------------------------------------

  /** The worker is free and no transaction holds a row. */
  ghost predicate Idle(s: State, w: int)
  {
    w !in s.tasks && forall v :: v in s.tasks ==> !s.tasks[v].Updated? && !s.tasks[v].Scored? && !s.tasks[v].Ranked?
  }

  /** EnqueueJob's two statements with nothing in between change the jobs only, and leave the worker free. */
  lemma EnqueueAlone(s: State, w: int, team: int, group: string, ip: string, now: int)
    requires w !in s.tasks
    ensures Do(Do(s, EnqueueLook(w, team, group, ip)), EnqueueInsert(w, now))
         == s.(db := s.db.(jobs := if First(s.db.jobs, ActiveOf(team)) == |s.db.jobs|
           then Inserted(s.db.jobs, team, group, ip, now) else s.db.jobs))
  {
    TaskDone(s.tasks, w, Enqueue(team, group, ip));
  }

  /** DequeueJob's statements with nothing in between. */
  lemma DequeueAlone(s: State, w: int, group: string, node: string, now: int)
    requires Idle(s, w)
    ensures var id := First(s.db.jobs, WaitingIn(group));
            Do(Do(s, DequeueLook(w, group, node)), DequeueClaim(w, now))
              == if id == |s.db.jobs| then s
                 else s.(db := s.db.(jobs := Claimed(s.db.jobs, id, node, now)), dispatched := s.dispatched + [id],
                   askers := s.askers + [Asker(group, node)])
  {
    var n1, id := Do(s, DequeueLook(w, group, node)), First(s.db.jobs, WaitingIn(group));
    assert !JobLocked(n1.tasks, id);
    TaskDone(s.tasks, w, Dequeue(id, group, node));
  }

  /** CancelJob's statements with nothing in between. */
  lemma CancelAlone(s: State, w: int, team: int, now: int)
    requires Idle(s, w)
    ensures Do(Do(s, CancelLook(w, team)), CancelSet(w, now))
         == s.(db := s.db.(jobs := Moved(s.db.jobs, First(s.db.jobs, WaitingOf(team)), Waiting, Canceled, now)))
  {
    var n1, id := Do(s, CancelLook(w, team)), First(s.db.jobs, WaitingOf(team));
    assert !JobLocked(n1.tasks, id);
    TaskDone(s.tasks, w, Cancel(id));
  }

  /** DoneJob's transaction with nothing in between: a running job is completed, its locks are released. */
  lemma DoneAlone(s: State, w: int, id: nat, report: Report, now: int)
    requires Idle(s, w)
    ensures var n := Do(Do(Do(Do(Do(s, DoneLook(w, id, report)), DoneUpdate(w)), DoneScore(w)), DoneTeam(w)),
      DoneCommit(w, now));
            n == if id < |s.db.jobs| && s.db.jobs[id].status == Running
              then s.(db := Completed(s.db, id, report, now),
                ledger := if report.pass then s.ledger + [id] else s.ledger)
              else s
  {
    var n1 := Do(s, DoneLook(w, id, report));
    if id < |s.db.jobs| {
      var t := n1.tasks[w];
      assert !JobLocked(n1.tasks, id);
      var n2 := Do(n1, DoneUpdate(w));
      TaskDone(s.tasks, w, t);
      if s.db.jobs[id].status == Running {
        assert n2.tasks[w] == Updated(id, t.team, report);
        TaskDone(s.tasks, w, Updated(id, t.team, report));
        var n3 := Do(n2, DoneScore(w));
        if report.pass {
          assert n3.tasks[w] == Scored(id, t.team, report);
          assert !TeamLocked(n3.tasks, t.team);
          var n4 := Do(n3, DoneTeam(w));
          assert n4.tasks[w] == Ranked(id, t.team, report, NewStanding(s.db.teamScores, t.team, report.score));
          TaskDone(s.tasks, w, n4.tasks[w]);
        }
      }
    }
  }

  /** AbortJob's and CheckTimeoutJob's one statement while no transaction holds a row. */
  lemma AbortAndTimeoutAlone(s: State, w: int, id: nat, now: int)
    requires Idle(s, w)
    ensures Do(s, Abort(id, now)) == s.(db := s.db.(jobs := Moved(s.db.jobs, id, Running, Aborted, now)))
    ensures Do(s, Timeout(now)) == s.(db := s.db.(jobs := TimedOut(s.db.jobs, now)))
  {
  }

  /** Giving up undoes all a worker has not committed, releases its locks and touches no other worker. */
  lemma QuitUndoes(s: State, w: int)
    ensures Do(s, Quit(w)) == s.(tasks := map v | v in s.tasks && v != w :: s.tasks[v])
  {
    assert w !in s.tasks ==> s.tasks == map v | v in s.tasks && v != w :: s.tasks[v];
  }

  lemma TaskDone(tasks: map<int, Task>, w: int, t: Task)
    ensures w !in tasks ==> Without(tasks[w := t], w) == tasks
  {
  }

  // ---- Statuses move one way ----------------------------------------------------------------------------------------

  predicate StatusMoves(a: Status, b: Status)
  {
    a == b || (a == Waiting && (b == Running || b == Canceled)) || (a == Running && (b == Done || b == Aborted))
  }

  predicate JobMoves(j: Job, k: Job)
  {
    j.team == k.team && j.group == k.group && j.ip == k.ip && StatusMoves(j.status, k.status)
  }

  ghost predicate JobsMove(js: seq<Job>, ks: seq<Job>)
  {
    && |js| <= |ks|
    && (forall id :: 0 <= id < |js| ==> JobMoves(js[id], ks[id]))
    && (forall id :: |js| <= id < |ks| ==> ks[id].status == Waiting)
  }

  /**
   Whatever happens, jobs are only appended, as waiting, and statuses move along waiting, running, done or aborted,
   or waiting, canceled.
   */
  lemma StatusesMoveOneWay(s: State, a: Action)
    ensures JobsMove(s.db.jobs, Do(s, a).db.jobs)
  {
    if !a.EnqueueLook? && !a.DequeueLook? && !a.CancelLook? && !a.DoneLook? && !a.Abort? && !a.Timeout? {
      if a.w in s.tasks {
        StatementsMoveOneWay(s, a, s.tasks[a.w]);
      }
    }
    hide TaskStep;
  }

  lemma StatementsMoveOneWay(s: State, a: Action, t: Task)
    requires !a.EnqueueLook? && !a.DequeueLook? && !a.CancelLook? && !a.DoneLook? && !a.Abort? && !a.Timeout?
    ensures JobsMove(s.db.jobs, TaskStep(s, a, t).db.jobs)
  {
  }

  // ---- Dispatching --------------------------------------------------------------------------------------------------

  predicate WasDispatched(j: Job) { j.status == Running || j.status == Done || j.status == Aborted }

  /** Nothing older in its group is waiting. */
  ghost predicate OldestWaiting(jobs: seq<Job>, id: nat)
  {
    id < |jobs| && forall j :: 0 <= j < id && jobs[j].group == jobs[id].group ==> jobs[j].status != Waiting
  }

  ghost predicate Dispatching(s: State)
  {
    var jobs := s.db.jobs;
    && (forall k :: 0 <= k < |s.dispatched| ==> s.dispatched[k] < |jobs|)
    && (forall id: nat :: id < |jobs| ==> (id in s.dispatched <==> WasDispatched(jobs[id])))
    && (forall a, b :: 0 <= a < b < |s.dispatched| && jobs[s.dispatched[a]].group == jobs[s.dispatched[b]].group ==>
      s.dispatched[a] < s.dispatched[b])
    && (forall k, j :: 0 <= k < |s.dispatched| && 0 <= j < |jobs| && jobs[j].status == Waiting ==>
      jobs[j].group == jobs[s.dispatched[k]].group ==> s.dispatched[k] < j)
    && (forall w :: w in s.tasks && s.tasks[w].Dequeue? ==> OldestWaiting(jobs, s.tasks[w].id))
  }

  /** Jobs move without any being handed out. */
  ghost predicate QuietMove(js: seq<Job>, ks: seq<Job>)
  {
    JobsMove(js, ks) && forall id :: 0 <= id < |js| ==> (WasDispatched(js[id]) <==> WasDispatched(ks[id]))
  }

  lemma OldestStaysOldest(js: seq<Job>, ks: seq<Job>, id: nat)
    requires JobsMove(js, ks) && OldestWaiting(js, id)
    ensures OldestWaiting(ks, id)
  {
    forall j | 0 <= j < id && ks[j].group == ks[id].group ensures ks[j].status != Waiting {
      assert JobMoves(js[j], ks[j]) && JobMoves(js[id], ks[id]);
    }
  }

  lemma QuietKeepsDispatching(s: State, n: State)
    requires Dispatching(s) && QuietMove(s.db.jobs, n.db.jobs) && n.dispatched == s.dispatched
    requires forall w :: w in n.tasks && n.tasks[w].Dequeue? ==> OldestWaiting(n.db.jobs, n.tasks[w].id)
    ensures Dispatching(n)
  {
    var js, ks := s.db.jobs, n.db.jobs;
    forall id | 0 <= id < |js| ensures JobMoves(js[id], ks[id]) && (WasDispatched(js[id]) <==> WasDispatched(ks[id])) {
    }
  }

  lemma ClaimKeepsDispatching(s: State, w: int, now: int)
    requires Dispatching(s) && w in s.tasks && s.tasks[w].Dequeue?
    ensures Dispatching(Do(s, DequeueClaim(w, now)))
  {
    hide First, StatusMoves;
    var id, n := s.tasks[w].id, Do(s, DequeueClaim(w, now));
    StatusesMoveOneWay(s, DequeueClaim(w, now));
    forall v | v in n.tasks && n.tasks[v].Dequeue? ensures OldestWaiting(n.db.jobs, n.tasks[v].id) {
      OldestStaysOldest(s.db.jobs, n.db.jobs, s.tasks[v].id);
    }
    if JobLocked(s.tasks, id) || s.db.jobs[id].status != Waiting {
      QuietKeepsDispatching(s, n);
    } else {
      assert OldestWaiting(s.db.jobs, id);
    }
  }

  lemma LookFindsOldest(jobs: seq<Job>, group: string)
    ensures First(jobs, WaitingIn(group)) < |jobs| ==> OldestWaiting(jobs, First(jobs, WaitingIn(group)))
  {
  }

  lemma DoKeepsDispatching(s: State, a: Action)
    requires Dispatching(s) && Holding(s)
    ensures Dispatching(Do(s, a))
  {
    var n := Do(s, a);
    StatusesMoveOneWay(s, a);
    if a.DequeueClaim? && a.w in s.tasks && s.tasks[a.w].Dequeue? {
      ClaimKeepsDispatching(s, a.w, a.now);
    } else {
      forall v | v in n.tasks && n.tasks[v].Dequeue? ensures OldestWaiting(n.db.jobs, n.tasks[v].id) {
        if v in s.tasks && n.tasks[v] == s.tasks[v] {
          OldestStaysOldest(s.db.jobs, n.db.jobs, s.tasks[v].id);
        } else {
          LookFindsOldest(s.db.jobs, a.group);
        }
      }
      OthersAreQuiet(s, a);
      QuietKeepsDispatching(s, n);
    }
  }

  lemma OthersAreQuiet(s: State, a: Action)
    requires !(a.DequeueClaim? && a.w in s.tasks && s.tasks[a.w].Dequeue?)
    ensures QuietMove(s.db.jobs, Do(s, a).db.jobs) && Do(s, a).dispatched == s.dispatched
  {
    StatusesMoveOneWay(s, a);
  }

  // ---- Transactions in progress -------------------------------------------------------------------------------------

  /** What a transaction has read and written stays true while it holds its rows. */
  ghost predicate TaskOk(db: Db, t: Task)
  {
    && (t.Found? || t.Updated? || t.Scored? || t.Ranked? ==> t.id < |db.jobs| && t.team == db.jobs[t.id].team)
    && (t.Updated? || t.Scored? || t.Ranked? ==> db.jobs[t.id].status == Running)
    && (t.Scored? || t.Ranked? ==> t.report.pass)
    && (t.Ranked? ==> t.row == NewStanding(db.teamScores, t.team, t.report.score))
  }

  ghost predicate Holding(s: State)
  {
    && (forall w :: w in s.tasks ==> TaskOk(s.db, s.tasks[w]))
    && (forall v, w, id :: v in s.tasks && w in s.tasks && v != w && HoldsJob(s.tasks[v], id) ==>
      !HoldsJob(s.tasks[w], id))
    && (forall v, w, team :: v in s.tasks && w in s.tasks && v != w && HoldsTeam(s.tasks[v], team) ==>
      !HoldsTeam(s.tasks[w], team))
  }

  /** The statement leaves every row held by a transaction as it is. */
  ghost predicate RespectsLocks(s: State, n: State)
  {
    && JobsMove(s.db.jobs, n.db.jobs)
    && (forall id: nat :: id < |s.db.jobs| && s.db.jobs[id].status == Running && n.db.jobs[id].status != Running ==>
      !JobLocked(n.tasks, id))
    && (forall team :: TeamLocked(n.tasks, team) ==> Lookup(n.db.teamScores, team) == Lookup(s.db.teamScores, team))
  }

  lemma TaskStaysOk(s: State, n: State, w: int)
    requires RespectsLocks(s, n) && w in n.tasks && TaskOk(s.db, n.tasks[w])
    ensures TaskOk(n.db, n.tasks[w])
  {
    var t := n.tasks[w];
    if t.Found? || t.Updated? || t.Scored? || t.Ranked? {
      assert JobMoves(s.db.jobs[t.id], n.db.jobs[t.id]);
    }
    if t.Updated? || t.Scored? || t.Ranked? {
      assert HoldsJob(t, t.id);
    }
    if t.Ranked? {
      assert HoldsTeam(t, t.team);
      assert TeamLocked(n.tasks, t.team);
      assert Lookup(n.db.teamScores, t.team) == Lookup(s.db.teamScores, t.team);
    }
  }

  ghost predicate Exclusive(tasks: map<int, Task>)
  {
    && (forall v, w, id :: v in tasks && w in tasks && v != w && HoldsJob(tasks[v], id) ==> !HoldsJob(tasks[w], id))
    && (forall v, w, team :: v in tasks && w in tasks && v != w && HoldsTeam(tasks[v], team) ==>
      !HoldsTeam(tasks[w], team))
  }

  lemma HoldingKept(s: State, n: State)
    requires RespectsLocks(s, n) && Exclusive(n.tasks) && forall w :: w in n.tasks ==> TaskOk(s.db, n.tasks[w])
    ensures Holding(n)
  {
    forall w | w in n.tasks ensures TaskOk(n.db, n.tasks[w]) {
      TaskStaysOk(s, n, w);
    }
  }

  lemma LooksKeepHolding(s: State, a: Action)
    requires Holding(s) && (a.EnqueueLook? || a.DequeueLook? || a.CancelLook? || a.DoneLook?)
    ensures Holding(Do(s, a))
  {
    var n := Do(s, a);
    StatusesMoveOneWay(s, a);
    hide JobMoves, NewStanding;
    HoldingKept(s, n);
  }

  lemma JobChangesKeepHolding(s: State, a: Action)
    requires Holding(s) && (a.EnqueueInsert? || a.DequeueClaim? || a.CancelSet? || a.Quit? || a.Abort? || a.Timeout?)
    ensures Holding(Do(s, a))
  {
    var n := Do(s, a);
    StatusesMoveOneWay(s, a);
    forall w, id: nat | w in n.tasks && HoldsJob(n.tasks[w], id) ensures JobLocked(s.tasks, id) {
      assert w in s.tasks && s.tasks[w] == n.tasks[w];
    }
    HoldingKept(s, n);
  }

  lemma TransactionsKeepHolding(s: State, a: Action)
    requires Holding(s) && (a.DoneUpdate? || a.DoneScore? || a.DoneTeam?)
    ensures Holding(Do(s, a))
  {
    var n := Do(s, a);
    StatusesMoveOneWay(s, a);
    if a.w in s.tasks {
      assert TaskOk(s.db, s.tasks[a.w]);
    }
    HoldingKept(s, n);
  }

  lemma CommitKeepsHolding(s: State, w: int, now: int)
    requires Holding(s)
    ensures Holding(Do(s, DoneCommit(w, now)))
  {
    var n := Do(s, DoneCommit(w, now));
    StatusesMoveOneWay(s, DoneCommit(w, now));
    if w in s.tasks && n != s {
      var t := s.tasks[w];
      assert HoldsJob(t, t.id);
      forall v | v in n.tasks ensures v in s.tasks && n.tasks[v] == s.tasks[v] && !HoldsJob(n.tasks[v], t.id) {
      }
      if t.Ranked? {
        assert HoldsTeam(t, t.team);
        forall v | v in n.tasks ensures !HoldsTeam(n.tasks[v], t.team) {
        }
      }
      HoldingKept(s, n);
    }
  }

  lemma DoKeepsHolding(s: State, a: Action)
    requires Holding(s)
    ensures Holding(Do(s, a))
  {
    match a {
      case EnqueueLook(_, _, _, _) => LooksKeepHolding(s, a);
      case DequeueLook(_, _, _) => LooksKeepHolding(s, a);
      case CancelLook(_, _) => LooksKeepHolding(s, a);
      case DoneLook(_, _, _) => LooksKeepHolding(s, a);
      case DoneUpdate(_) => TransactionsKeepHolding(s, a);
      case DoneScore(_) => TransactionsKeepHolding(s, a);
      case DoneTeam(_) => TransactionsKeepHolding(s, a);
      case DoneCommit(w, now) => CommitKeepsHolding(s, w, now);
      case _ => JobChangesKeepHolding(s, a);
    }
  }

  // ---- The score ledger ---------------------------------------------------------------------------------------------

  predicate Passed(j: Job) { j.status == Done && j.report.Some? && j.report.value.pass }

  function ScoreOf(j: Job): Score
    requires j.report.Some?
  {
    Score(j.team, j.report.value.score)
  }

  /** The scores rows correspond one to one to the jobs done and passed. */
  ghost predicate Ledger(s: State)
  {
    && Distinct(s.ledger) && |s.db.scores| == |s.ledger|
    && (forall k :: 0 <= k < |s.ledger| ==>
          s.ledger[k] < |s.db.jobs| && Passed(s.db.jobs[s.ledger[k]])
            && s.db.scores[k] == ScoreOf(s.db.jobs[s.ledger[k]]))
    && (forall id: nat :: id < |s.db.jobs| && Passed(s.db.jobs[id]) ==> id in s.ledger)
  }

  ghost predicate SamePasses(js: seq<Job>, ks: seq<Job>)
  {
    && |js| <= |ks|
    && (forall id :: 0 <= id < |js| ==>
      (Passed(js[id]) <==> Passed(ks[id])) && js[id].team == ks[id].team && js[id].report == ks[id].report)
    && (forall id :: |js| <= id < |ks| ==> !Passed(ks[id]))
  }

  lemma PassesKeepLedger(s: State, n: State)
    requires Ledger(s) && SamePasses(s.db.jobs, n.db.jobs) && n.ledger == s.ledger && n.db.scores == s.db.scores
    ensures Ledger(n)
  {
  }

  lemma OthersKeepPasses(s: State, a: Action)
    requires !a.DoneCommit?
    ensures SamePasses(s.db.jobs, Do(s, a).db.jobs) && Do(s, a).ledger == s.ledger && Do(s, a).db.scores == s.db.scores
    ensures Do(s, a).db.teamScores == s.db.teamScores
  {
  }

  lemma CommitKeepsLedger(s: State, w: int, now: int)
    requires Ledger(s) && Holding(s)
    ensures Ledger(Do(s, DoneCommit(w, now)))
  {
    var n := Do(s, DoneCommit(w, now));
    if w in s.tasks && n != s {
      var t := s.tasks[w];
      assert TaskOk(s.db, t);
      var js, ks := s.db.jobs, n.db.jobs;
      assert ks == js[t.id := js[t.id].(status := Done, report := Some(t.report), updatedAt := now)];
      assert t.id !in s.ledger;
    }
  }

  lemma DoKeepsLedger(s: State, a: Action)
    requires Ledger(s) && Holding(s)
    ensures Ledger(Do(s, a))
  {
    if a.DoneCommit? {
      CommitKeepsLedger(s, a.w, a.now);
    } else {
      OthersKeepPasses(s, a);
      PassesKeepLedger(s, Do(s, a));
    }
  }

  /** A team's latest and best score by the scores rows. */
  function StandingOf(scores: seq<Score>, team: int): Option<TeamScore>
  {
    if |scores| == 0 then None
    else
      var before, x := StandingOf(scores[..|scores| - 1], team), scores[|scores| - 1];
      if x.team != team then before
      else Some(TeamScore(x.score, if before.Some? then Greatest(before.value.best, x.score) else x.score))
  }

  /** Row k is the team's last. */
  predicate LastOf(scores: seq<Score>, team: int, k: int)
  {
    0 <= k < |scores| && scores[k].team == team && forall j :: k < j < |scores| ==> scores[j].team != team
  }

  /** Which is the last row's score, and the maximum of all rows' scores. */
  lemma {:induction false} StandingMeans(scores: seq<Score>, team: int)
    ensures StandingOf(scores, team).None? <==> forall x :: x in scores ==> x.team != team
    ensures StandingOf(scores, team).Some? ==> var r := StandingOf(scores, team).value;
      (forall x :: x in scores && x.team == team ==> x.score <= r.best) && Score(team, r.best) in scores
    ensures StandingOf(scores, team).Some? ==>
      exists k :: LastOf(scores, team, k) && scores[k].score == StandingOf(scores, team).value.latest
  {
    if |scores| > 0 {
      var n := |scores| - 1;
      StandingMeans(scores[..n], team);
      assert scores == scores[..n] + [scores[n]];
      if scores[n].team != team && StandingOf(scores, team).Some? {
        var k :| LastOf(scores[..n], team, k) && scores[..n][k].score == StandingOf(scores[..n], team).value.latest;
        forall j | k < j < |scores| ensures scores[j].team != team {
          assert j == n || scores[j] == scores[..n][j];
        }
        assert LastOf(scores, team, k);
      } else if scores[n].team == team {
        assert LastOf(scores, team, n);
      }
    }
  }

  ghost predicate Standings(db: Db)
  {
    forall team :: Lookup(db.teamScores, team) == StandingOf(db.scores, team)
  }

  lemma DoKeepsStandings(s: State, a: Action)
    requires Standings(s.db) && Holding(s)
    ensures Standings(Do(s, a).db)
  {
    if a.DoneCommit? {
      var n := Do(s, a);
      if a.w in s.tasks && s.tasks[a.w].Ranked? {
        var t := s.tasks[a.w];
        assert TaskOk(s.db, t);
        forall team ensures Lookup(n.db.teamScores, team) == StandingOf(n.db.scores, team) {
          assert Lookup(s.db.teamScores, team) == StandingOf(s.db.scores, team);
          assert n.db.scores[..|s.db.scores|] == s.db.scores;
        }
      }
    } else {
      OthersKeepPasses(s, a);
    }
  }

  // ---- Over whole runs ----------------------------------------------------------------------------------------------

  lemma {:induction false} RunsKeepAll(actions: seq<Action>)
    ensures Dispatching(Run(actions)) && Holding(Run(actions)) && Ledger(Run(actions)) && Standings(Run(actions).db)
  {
    if |actions| > 0 {
      var n := |actions| - 1;
      RunsKeepAll(actions[..n]);
      DoKeepsDispatching(Run(actions[..n]), actions[n]);
      DoKeepsHolding(Run(actions[..n]), actions[n]);
      DoKeepsLedger(Run(actions[..n]), actions[n]);
      DoKeepsStandings(Run(actions[..n]), actions[n]);
    }
  }

  /** No job is handed out twice, and within a group jobs are handed out in the order of their ids. */
  lemma DispatchIsFifo(actions: seq<Action>, a: nat, b: nat)
    requires a < b < |Run(actions).dispatched|
    ensures var s := Run(actions); var i, j := s.dispatched[a], s.dispatched[b];
            i < |s.db.jobs| && j < |s.db.jobs| && i != j && (s.db.jobs[i].group == s.db.jobs[j].group ==> i < j)
  {
    RunsKeepAll(actions);
  }

  // Who asked for what was handed out.

  predicate IsServed(j: Job, x: Asker) { j.status != Waiting && j.group == x.group && j.node == Some(x.node) }

  ghost predicate ServesAskers(s: State)
  {
    && |s.askers| == |s.dispatched|
    && (forall k :: 0 <= k < |s.dispatched| ==> s.dispatched[k] < |s.db.jobs|)
    && (forall k :: 0 <= k < |s.dispatched| ==> IsServed(s.db.jobs[s.dispatched[k]], s.askers[k]))
    && (forall w :: w in s.tasks && s.tasks[w].Dequeue? ==>
      s.tasks[w].id < |s.db.jobs| && s.db.jobs[s.tasks[w].id].group == s.tasks[w].group)
  }

  /** Only a claim sets a job's node. */
  lemma NodesStay(s: State, a: Action, id: nat)
    requires id < |s.db.jobs| && s.db.jobs[id].status != Waiting
    ensures id < |Do(s, a).db.jobs| && Do(s, a).db.jobs[id].node == s.db.jobs[id].node
  {
  }

  lemma DoKeepsAskers(s: State, a: Action)
    requires ServesAskers(s)
    ensures ServesAskers(Do(s, a))
  {
    var n := Do(s, a);
    StatusesMoveOneWay(s, a);
    forall k | 0 <= k < |s.dispatched|
      ensures IsServed(n.db.jobs[s.dispatched[k]], s.askers[k])
    {
      NodesStay(s, a, s.dispatched[k]);
      assert JobMoves(s.db.jobs[s.dispatched[k]], n.db.jobs[s.dispatched[k]]);
    }
    LooksAreOfTheirGroup(s, a);
  }

  lemma LooksAreOfTheirGroup(s: State, a: Action)
    requires ServesAskers(s)
    ensures var n := Do(s, a);
            forall w :: w in n.tasks && n.tasks[w].Dequeue? ==>
              n.tasks[w].id < |n.db.jobs| && n.db.jobs[n.tasks[w].id].group == n.tasks[w].group
  {
    var n := Do(s, a);
    StatusesMoveOneWay(s, a);
    forall w | w in n.tasks && n.tasks[w].Dequeue?
      ensures n.tasks[w].id < |n.db.jobs| && n.db.jobs[n.tasks[w].id].group == n.tasks[w].group
    {
      if w in s.tasks && s.tasks[w] == n.tasks[w] {
        assert JobMoves(s.db.jobs[s.tasks[w].id], n.db.jobs[s.tasks[w].id]);
      }
    }
  }

  lemma {:induction false} RunsServeAskers(actions: seq<Action>)
    ensures ServesAskers(Run(actions))
  {
    if |actions| > 0 {
      RunsServeAskers(actions[..|actions| - 1]);
      DoKeepsAskers(Run(actions[..|actions| - 1]), actions[|actions| - 1]);
    }
  }

  /** Every job handed out is of the group its worker asked for, and runs on that worker's node. */
  lemma DispatchedToTheirGroup(actions: seq<Action>, k: nat)
    requires k < |Run(actions).dispatched|
    ensures var s := Run(actions);
            && |s.askers| == |s.dispatched| && s.dispatched[k] < |s.db.jobs|
            && s.db.jobs[s.dispatched[k]].group == s.askers[k].group
            && s.db.jobs[s.dispatched[k]].node == Some(s.askers[k].node)
  {
    RunsServeAskers(actions);
  }

  /** A job is handed out exactly if it has left the queue other than by being canceled. */
  lemma HandedOutMeansRun(actions: seq<Action>, id: nat)
    requires id < |Run(actions).db.jobs|
    ensures id in Run(actions).dispatched <==> WasDispatched(Run(actions).db.jobs[id])
  {
    RunsKeepAll(actions);
  }

  /**
   The scores rows are one to one with the jobs that are done and passed, so a job that was aborted or canceled
   never contributes; each team's latest score is its last row and its best score the maximum of its rows.
   */
  lemma ScoresMatchJobs(actions: seq<Action>)
    ensures var s := Run(actions);
            && Ledger(s)
            && (forall id: nat :: id < |s.db.jobs| ==>
              s.db.jobs[id].status == Aborted || s.db.jobs[id].status == Canceled ==> id !in s.ledger)
    ensures forall team :: Ranks(Run(actions).db, team)
  {
    RunsKeepAll(actions);
    var s := Run(actions);
    forall team ensures Ranks(s.db, team) {
      StandingMeans(s.db.scores, team);
      assert Lookup(s.db.teamScores, team) == StandingOf(s.db.scores, team);
    }
  }

  ghost predicate Ranks(db: Db, team: int)
  {
    if team !in db.teamScores then forall x :: x in db.scores ==> x.team != team
    else
      && Score(team, db.teamScores[team].best) in db.scores
      && (forall x :: x in db.scores && x.team == team ==> x.score <= db.teamScores[team].best)
      && exists k :: LastOf(db.scores, team, k) && db.scores[k].score == db.teamScores[team].latest
  }

  predicate Settled(j: Job) { j.status == Done || j.status == Aborted || j.status == Canceled }

  lemma SettledStays(js: seq<Job>, ks: seq<Job>, id: nat)
    requires JobsMove(js, ks) && id < |js| && Settled(js[id])
    ensures id < |ks| && ks[id].status == js[id].status
  {
    assert JobMoves(js[id], ks[id]);
  }

  lemma ScoresStay(s: State, a: Action)
    ensures s.db.scores <= Do(s, a).db.scores
  {
  }

  lemma RunStep(actions: seq<Action>)
    requires |actions| > 0
    ensures Run(actions) == Do(Run(actions[..|actions| - 1]), actions[|actions| - 1])
  {
  }

  /** A job once done, aborted or canceled stays so. */
  lemma {:induction false} SettledForever(actions: seq<Action>, k: nat, id: nat)
    requires k <= |actions| && id < |Run(actions[..k]).db.jobs| && Settled(Run(actions[..k]).db.jobs[id])
    ensures id < |Run(actions).db.jobs| && Run(actions).db.jobs[id].status == Run(actions[..k]).db.jobs[id].status
  {
    hide Do, Run, JobsMove;
    if k < |actions| {
      var n := |actions| - 1;
      var s := Run(actions[..n]);
      RunStep(actions);
      assert actions[..n][..k] == actions[..k];
      SettledForever(actions[..n], k, id);
      StatusesMoveOneWay(s, actions[n]);
      SettledStays(s.db.jobs, Do(s, actions[n]).db.jobs, id);
    } else {
      assert actions[..k] == actions;
    }
  }

  lemma PrefixChain<T>(a: seq<T>, b: seq<T>, c: seq<T>)
    requires a <= b && b <= c
    ensures a <= c
  {
  }

  /** Recorded scores stay recorded. */
  lemma {:induction false} ScoresForever(actions: seq<Action>, k: nat)
    requires k <= |actions|
    ensures Run(actions[..k]).db.scores <= Run(actions).db.scores
  {
    hide Do, Run;
    if k < |actions| {
      var n := |actions| - 1;
      var s := Run(actions[..n]);
      RunStep(actions);
      assert actions[..n][..k] == actions[..k];
      ScoresForever(actions[..n], k);
      ScoresStay(s, actions[n]);
      PrefixChain(Run(actions[..k]).db.scores, s.db.scores, Do(s, actions[n]).db.scores);
    } else {
      assert actions[..k] == actions;
    }
  }

  // ---- At most one active job ---------------------------------------------------------------------------------------

  predicate Active(j: Job) { j.status == Waiting || j.status == Running }

  ghost predicate OneActive(jobs: seq<Job>)
  {
    forall i, j :: 0 <= i < j < |jobs| && Active(jobs[i]) && Active(jobs[j]) ==> jobs[i].team != jobs[j].team
  }

  lemma MovesKeepOneActive(js: seq<Job>, ks: seq<Job>)
    requires OneActive(js) && JobsMove(js, ks) && |js| == |ks|
    ensures OneActive(ks)
  {
    forall i, j | 0 <= i < j < |ks| && Active(ks[i]) && Active(ks[j]) ensures ks[i].team != ks[j].team {
      assert JobMoves(js[i], ks[i]) && JobMoves(js[j], ks[j]);
    }
  }

  lemma OthersInsertNothing(s: State, a: Action)
    requires !a.EnqueueInsert?
    ensures |Do(s, a).db.jobs| == |s.db.jobs|
  {
  }

  /** The SELECT's guard, asked again of the jobs the INSERT meets; an insert nobody looked for changes nothing. */
  ghost predicate InsertIsFresh(s: State, a: Action)
  {
    a.EnqueueInsert? && a.w in s.tasks && s.tasks[a.w].Enqueue? ==>
      First(s.db.jobs, ActiveOf(s.tasks[a.w].team)) == |s.db.jobs|
  }

  lemma NoneActive(jobs: seq<Job>, team: int)
    ensures First(jobs, ActiveOf(team)) == |jobs|
      <==> forall i :: 0 <= i < |jobs| && Active(jobs[i]) ==> jobs[i].team != team
  {
    var id := First(jobs, ActiveOf(team));
    if id == |jobs| {
      forall i | 0 <= i < |jobs| && Active(jobs[i]) ensures jobs[i].team != team {
        assert !ActiveOf(team)(jobs[i]);
      }
    } else {
      assert ActiveOf(team)(jobs[id]);
      assert Active(jobs[id]);
    }
  }

  lemma InsertedOneActive(jobs: seq<Job>, team: int, group: string, ip: string, now: int)
    requires OneActive(jobs)
    ensures OneActive(Inserted(jobs, team, group, ip, now)) <==> First(jobs, ActiveOf(team)) == |jobs|
  {
    hide First, ActiveOf;
    NoneActive(jobs, team);
    var n, ks := |jobs|, Inserted(jobs, team, group, ip, now);
    assert ks[..n] == jobs && Active(ks[n]) && ks[n].team == team;
    if OneActive(ks) {
      forall i | 0 <= i < n && Active(jobs[i]) ensures jobs[i].team != team {
        assert ks[i] == jobs[i];
      }
    }
  }

  /** One statement leaves every team at most one active job exactly if it is no insert that overlooks an active job. */
  lemma OneActiveStep(s: State, a: Action)
    requires OneActive(s.db.jobs)
    ensures OneActive(Do(s, a).db.jobs) <==> InsertIsFresh(s, a)
  {
    if a.EnqueueInsert? {
      if a.w in s.tasks && s.tasks[a.w].Enqueue? {
        var t := s.tasks[a.w];
        InsertedOneActive(s.db.jobs, t.team, t.group, t.ip, a.now);
      }
    } else {
      OthersInsertNothing(s, a);
      StatusesMoveOneWay(s, a);
      MovesKeepOneActive(s.db.jobs, Do(s, a).db.jobs);
    }
  }

  ghost predicate InsertsAreFresh(actions: seq<Action>)
  {
    forall k :: 0 <= k < |actions| ==> InsertIsFresh(Run(actions[..k]), actions[k])
  }

  ghost predicate AlwaysOneActive(actions: seq<Action>)
  {
    forall k :: 0 <= k <= |actions| ==> OneActive(Run(actions[..k]).db.jobs)
  }

  /**
   Throughout a run no team has two jobs waiting or running, exactly if every insert meets no active job of its team.
   */
  lemma {:induction false} OneActiveExactly(actions: seq<Action>)
    ensures AlwaysOneActive(actions) <==> InsertsAreFresh(actions)
  {
    hide Do, Run, OneActive, InsertIsFresh;
    if |actions| == 0 {
      assert actions[..0] == actions;
      NothingIsActive();
    } else {
      var n := |actions| - 1;
      var before := actions[..n];
      forall k | 0 <= k <= n ensures before[..k] == actions[..k] {}
      assert actions[..n + 1] == actions;
      OneActiveExactly(before);
      assert AlwaysOneActive(actions) <==> AlwaysOneActive(before) && OneActive(Run(actions).db.jobs);
      assert InsertsAreFresh(actions) <==> InsertsAreFresh(before) && InsertIsFresh(Run(before), actions[n]);
      if AlwaysOneActive(before) {
        assert before[..n] == before;
        assert OneActive(Run(before).db.jobs);
        RunStep(actions);
        OneActiveStep(Run(before), actions[n]);
      }
    }
  }

  lemma NothingIsActive()
    ensures OneActive(Run([]).db.jobs)
  {
    assert Run([]) == START;
  }

  /** Every insert follows its own look with nothing in between. */
  ghost predicate EnqueuesAtOnce(actions: seq<Action>)
  {
    forall k :: 0 <= k < |actions| && actions[k].EnqueueInsert? ==>
      k > 0 && actions[k - 1].EnqueueLook? && actions[k - 1].w == actions[k].w
        && actions[k].w !in Run(actions[..k - 1]).tasks
  }

  lemma LookThenInsert(s: State, look: Action, insert: Action)
    requires look.EnqueueLook? && insert.EnqueueInsert? && look.w == insert.w && look.w !in s.tasks
    ensures InsertIsFresh(Do(s, look), insert)
  {
  }

  /** If SELECT and INSERT of every enqueue run at once, a team never has two jobs waiting or running. */
  lemma OneActivePerTeam(actions: seq<Action>)
    requires EnqueuesAtOnce(actions)
    ensures AlwaysOneActive(actions)
  {
    hide Do, Run, InsertIsFresh, AlwaysOneActive;
    forall k | 0 <= k < |actions| ensures InsertIsFresh(Run(actions[..k]), actions[k]) {
      if actions[k].EnqueueInsert? {
        RunStep(actions[..k]);
        assert actions[..k][..k - 1] == actions[..k - 1];
        LookThenInsert(Run(actions[..k - 1]), actions[k - 1], actions[k]);
      } else {
        OnlyInsertsMatter(Run(actions[..k]), actions[k]);
      }
    }
    OneActiveExactly(actions);
  }

  lemma OnlyInsertsMatter(s: State, a: Action)
    requires !a.EnqueueInsert?
    ensures InsertIsFresh(s, a)
  {
  }

  /** Two requests that both look before either inserts enqueue the same team twice. */
  lemma TwoActiveJobs() returns (actions: seq<Action>)
    ensures var jobs := Run(actions).db.jobs;
      |jobs| == 2 && Active(jobs[0]) && Active(jobs[1]) && jobs[0].team == jobs[1].team
  {
    var a, b, c, d := EnqueueLook(1, 7, "g", "x"), EnqueueLook(2, 7, "g", "y"), EnqueueInsert(1, 0),
      EnqueueInsert(2, 0);
    actions := [a, b, c, d];
    assert actions[..3] == [a, b, c] && [a, b, c][..2] == [a, b] && [a, b][..1] == [a] && [a][..0] == [];
    assert Run([]) == START;
    assert Run([a]) == Do(START, a);
    var s1 := Run([a]);
    assert s1.tasks[1] == Enqueue(7, "g", "x") && 2 !in s1.tasks;
    var s2 := Run([a, b]);
    assert s2 == Do(s1, b) && s2.tasks[1] == Enqueue(7, "g", "x") && s2.tasks[2] == Enqueue(7, "g", "y");
    var s3 := Run([a, b, c]);
    assert s3 == Do(s2, c) && s3.tasks[2] == Enqueue(7, "g", "y");
    assert Run(actions) == Do(s3, d);
  }
}
