/** Interleaved transactions on one room, one statement at a time, and their serial order. */
module Transactions {
  import opened Common
  import opened Ledger
  import opened Rooms
  import opened Runs
  import opened Status

  /** How far a transaction has come; the last three are reached by purchases and status reads, RowRead by adds. */
  datatype Phase = Begun | Locked | Clocked | TimeSet | RowRead | CountRead | AddingRead | Ready

  /** The snapshot is what plain SELECTs see: the tables as committed when the transaction issued its first one. */
  datatype Tx = Tx(req: Request, phase: Phase, roomTime: int, now: int, snapshot: Option<RoomState>,
    adding: seq<Adding>, buying: seq<Buying>, isu: int)

  /**
   The committed tables, who holds the room lock, the open transactions, and the requests committed so far in order.
   */
  datatype State = State(committed: RoomState, owner: Option<int>, txs: map<int, Tx>, history: seq<Event>)

  const START := State(EMPTY_ROOM, None, map[], [])

  datatype Action =
    | Begin(id: int, req: Request)
    | ReadEarly(id: int) // a plain SELECT before the lock, which the code avoids
    | Lock(id: int)
    | Clock(id: int, now: int)
    | Advance(id: int)
    | Commit(id: int)
    | Abort(id: int)

  /** Drops a transaction and its lock. */
  function Closed(s: State, id: int): State
  {
    s.(txs := map i | i in s.txs && i != id :: s.txs[i], owner := if s.owner == Some(id) then None else s.owner)
  }

  function With(s: State, id: int, t: Tx): State { s.(txs := s.txs[id := t]) }

  /** What a plain SELECT of t sees, and keeps seeing. */
  function Seen(s: State, t: Tx): RoomState { if t.snapshot.Some? then t.snapshot.value else s.committed }

  function IsuOfRow(adding: seq<Adding>, time: int): int
  {
    var k := RowIndex(adding, time);
    if k < |adding| then adding[k].isu else 0
  }

  /** The row-level change a commit makes. */
  function Committed(r: RoomState, t: Tx): RoomState
  {
    match t.req
    case AddIsu(isu, time) =>
      var k := RowIndex(r.adding, time);
      var row := Adding(time, t.isu + isu);
      RoomState(t.now, if k < |r.adding| then r.adding[k := row] else r.adding + [row], r.buying)
    case BuyItem(item, n, time) => RoomState(t.now, r.adding, r.buying + [Buying(item, n + 1, time)])
    case View(_) => RoomState(t.now, r.adding, r.buying)
  }

  /** The next statement of a transaction that has read the clock. */
  function AdvanceTx(ms: Masters, s: State, id: int, t: Tx): State
  {
    match t.phase
    case Clocked =>
      if t.roomTime > t.now || (t.req.time != 0 && t.req.time < t.now) then Closed(s, id)
        else With(s, id, t.(phase := TimeSet))
    case TimeSet =>
      (match t.req
       case AddIsu(_, time) => With(s, id, t.(phase := RowRead, isu := IsuOfRow(s.committed.adding, time)))
       case BuyItem(item, n, _) =>
         if Bought(Seen(s, t).buying, item) != n then Closed(s, id)
         else With(s, id, t.(phase := CountRead, snapshot := Some(Seen(s, t))))
       case View(_) => With(s, id, t.(phase := AddingRead, snapshot := Some(Seen(s, t)), adding := Seen(s, t).adding)))
    case RowRead => With(s, id, t.(phase := Ready))
    case CountRead => With(s, id, t.(phase := AddingRead, snapshot := Some(Seen(s, t)), adding := Seen(s, t).adding))
    case AddingRead =>
      var u := t.(phase := Ready, snapshot := Some(Seen(s, t)), buying := Seen(s, t).buying);
      if t.req.BuyItem?
        && !(t.req.item in ms && Need(ms, t.req.item, t.req.countBought) <= Balance(ms, u.adding, u.buying, t.req.time))
      then Closed(s, id) else With(s, id, u)
    case _ => s
  }

  function Do(ms: Masters, s: State, a: Action): State
  {
    if a.Begin? then (if a.id in s.txs then s else With(s, a.id, Tx(a.req, Begun, 0, 0, None, [], [], 0)))
    else if a.id !in s.txs then s
    else
      var t := s.txs[a.id];
      match a
      case Begin(_, _) => s
      case ReadEarly(id) => if t.phase == Begun then With(s, id, t.(snapshot := Some(Seen(s, t)))) else s
      case Lock(id) => if t.phase == Begun && s.owner == None
        then With(s, id, t.(phase := Locked, roomTime := s.committed.time)).(owner := Some(id)) else s
      case Clock(id, now) => if t.phase == Locked then With(s, id, t.(phase := Clocked, now := now)) else s
      case Advance(id) => AdvanceTx(ms, s, id, t)
      case Commit(id) =>
        if t.phase != Ready then s
        else Closed(s, id).(committed := Committed(s.committed, t), history := s.history + [Event(t.now, t.req)])
      case Abort(id) => Closed(s, id)
  }

  function Run(ms: Masters, actions: seq<Action>): State
  {
    if |actions| == 0 then START else Do(ms, Run(ms, actions[..|actions| - 1]), actions[|actions| - 1])
  }

  // ---- What every step keeps ----------------------------------------------------------------------------------------

  predicate PastClock(p: Phase) { p != Begun && p != Locked && p != Clocked }

  /** What a transaction past the lock has read is what is committed, and it has passed its checks so far. */
  ghost predicate ReadsCommitted(ms: Masters, r: RoomState, t: Tx)
  {
    && t.roomTime == r.time
    && (t.snapshot.Some? ==> t.snapshot.value == r)
    && (PastClock(t.phase) ==> TimeOk(r, t.now, t.req.time))
    && (t.phase == RowRead ==> t.req.AddIsu?)
    && (t.phase == CountRead ==> t.req.BuyItem?)
    && (t.phase == AddingRead ==> !t.req.AddIsu?)
    && (t.phase in {RowRead, Ready} && t.req.AddIsu? ==> t.isu == IsuOfRow(r.adding, t.req.time))
    && (t.phase in {CountRead, AddingRead, Ready} && t.req.BuyItem? ==>
      Bought(r.buying, t.req.item) == t.req.countBought)
    && (t.phase in {AddingRead, Ready} && !t.req.AddIsu? ==> t.adding == r.adding)
    && (t.phase == Ready && !t.req.AddIsu? ==> t.buying == r.buying)
    && (t.phase == Ready ==> Accepts(ms, r, t.now, t.req))
  }

  ghost predicate TxOk(ms: Masters, s: State, id: int)
    requires id in s.txs
  {
    var t := s.txs[id];
    if t.phase == Begun then s.owner != Some(id) && t.snapshot == None
    else s.owner == Some(id) && ReadsCommitted(ms, s.committed, t)
  }

  ghost predicate Inv(ms: Masters, s: State)
  {
    && s.committed == After(ms, EMPTY_ROOM, s.history)
    && (forall k: nat :: k < |s.history| ==> Accepted(ms, s.history, k))
    && (s.owner.Some? ==> s.owner.value in s.txs)
    && (forall id :: id in s.txs ==> TxOk(ms, s, id))
  }

  lemma ClosedKeepsInv(ms: Masters, s: State, id: int)
    requires Inv(ms, s)
    ensures Inv(ms, Closed(s, id))
  {
    forall i | i in Closed(s, id).txs ensures TxOk(ms, Closed(s, id), i) {
      assert TxOk(ms, s, i);
    }
  }

  lemma WithKeepsInv(ms: Masters, s: State, id: int, t: Tx)
    requires Inv(ms, s) && id in s.txs && s.txs[id].phase != Begun
    requires t.phase != Begun && ReadsCommitted(ms, s.committed, t)
    ensures Inv(ms, With(s, id, t))
  {
    assert TxOk(ms, s, id);
    forall i | i in With(s, id, t).txs ensures TxOk(ms, With(s, id, t), i) {
      if i != id {
        assert TxOk(ms, s, i);
      }
    }
  }

  lemma RowUpdateIsStep(ms: Masters, r: RoomState, t: Tx)
    requires ReadsCommitted(ms, r, t) && t.phase == Ready
    ensures Committed(r, t) == Step(ms, r, t.now, t.req)
  {
  }

  lemma CommitKeepsInv(ms: Masters, s: State, id: int)
    requires Inv(ms, s) && id in s.txs && s.txs[id].phase == Ready
    ensures Inv(ms, Do(ms, s, Commit(id)))
  {
    var t, n := s.txs[id], Do(ms, s, Commit(id));
    assert TxOk(ms, s, id);
    RowUpdateIsStep(ms, s.committed, t);
    var h := s.history + [Event(t.now, t.req)];
    assert h[..|s.history|] == s.history;
    forall k: nat | k < |h| ensures Accepted(ms, h, k) {
      if k < |s.history| {
        assert h[..k] == s.history[..k];
        assert Accepted(ms, s.history, k);
      }
    }
    forall i | i in n.txs ensures TxOk(ms, n, i) {
      assert TxOk(ms, s, i);
    }
  }

  lemma AdvanceKeepsInv(ms: Masters, s: State, id: int)
    requires Inv(ms, s) && id in s.txs
    ensures Inv(ms, AdvanceTx(ms, s, id, s.txs[id]))
  {
    var t, n := s.txs[id], AdvanceTx(ms, s, id, s.txs[id]);
    assert TxOk(ms, s, id);
    ClosedKeepsInv(ms, s, id);
    if n != Closed(s, id) && n != s {
      WithKeepsInv(ms, s, id, n.txs[id]);
    }
  }

  ghost predicate NoEarlyReads(actions: seq<Action>) { forall k :: 0 <= k < |actions| ==> !actions[k].ReadEarly? }

  lemma DoKeepsInv(ms: Masters, s: State, a: Action)
    requires Inv(ms, s) && !a.ReadEarly?
    ensures Inv(ms, Do(ms, s, a))
  {
    var n := Do(ms, s, a);
    if a.Begin? {
      forall i | i in n.txs ensures TxOk(ms, n, i) {
        if i in s.txs {
          assert TxOk(ms, s, i);
        }
      }
    } else if a.id in s.txs {
      assert TxOk(ms, s, a.id);
      match a {
        case Lock(id) =>
          forall i | i in n.txs ensures TxOk(ms, n, i) {
            if i in s.txs {
              assert TxOk(ms, s, i);
            }
          }
        case Clock(id, now) =>
          if s.txs[id].phase == Locked {
            WithKeepsInv(ms, s, id, s.txs[id].(phase := Clocked, now := now));
          }
        case Advance(id) => AdvanceKeepsInv(ms, s, id);
        case Commit(id) =>
          if s.txs[id].phase == Ready {
            CommitKeepsInv(ms, s, id);
          }
        case Abort(id) => ClosedKeepsInv(ms, s, id);
        case Begin(_, _) =>
      }
    }
  }

  lemma {:induction false} RunsKeepInv(ms: Masters, actions: seq<Action>)
    requires NoEarlyReads(actions)
    ensures Inv(ms, Run(ms, actions))
  {
    if |actions| > 0 {
      RunsKeepInv(ms, actions[..|actions| - 1]);
      DoKeepsInv(ms, Run(ms, actions[..|actions| - 1]), actions[|actions| - 1]);
    }
  }

  // ---- Serializability ----------------------------------------------------------------------------------------------

  lemma {:induction false} TimesNeverFall(ms: Masters, es: seq<Event>, j: nat, k: nat)
    requires j <= k < |es| && forall i: nat :: i < |es| ==> Accepted(ms, es, i)
    ensures es[j].now <= es[k].now && After(ms, EMPTY_ROOM, es[..k + 1]).time == es[k].now
  {
    assert es[..k + 1][..k] == es[..k];
    assert Accepted(ms, es, k) && Accepted(ms, es, j);
    if j < k {
      TimesNeverFall(ms, es, j, k - 1);
    }
  }

  /**
   However the statements of any number of transactions interleave, and whatever the clock does, the committed
   tables are those of the committed requests run one after the other in commit order, each of them one the
   serial room accepts, with room times that never fall.
   */
  lemma Serializable(ms: Masters, actions: seq<Action>)
    requires NoEarlyReads(actions)
    ensures var s := Run(ms, actions);
            && s.committed == After(ms, EMPTY_ROOM, s.history)
            && (forall k: nat :: k < |s.history| ==> Accepted(ms, s.history, k))
            && (forall j: nat, k: nat :: j <= k < |s.history| ==> s.history[j].now <= s.history[k].now)
  {
    RunsKeepInv(ms, actions);
    var h := Run(ms, actions).history;
    forall j: nat, k: nat | j <= k < |h| ensures h[j].now <= h[k].now {
      TimesNeverFall(ms, h, j, k);
    }
  }

  /** Past the lock, every plain SELECT of a transaction has seen exactly what is committed, and still does. */
  lemma ReadsAreCurrent(ms: Masters, actions: seq<Action>, id: int)
    requires NoEarlyReads(actions) && id in Run(ms, actions).txs && Run(ms, actions).txs[id].phase != Begun
    ensures var s := Run(ms, actions); var t := s.txs[id];
            && s.owner == Some(id) && t.roomTime == s.committed.time && Seen(s, t) == s.committed
            && (t.phase == Ready && t.req.View? ==> t.adding == s.committed.adding && t.buying == s.committed.buying)
  {
    RunsKeepInv(ms, actions);
    assert TxOk(ms, Run(ms, actions), id);
  }

  /**
   A transaction that rolls itself back carries a request the serial room refuses; one that reaches its commit, a
   request it accepts.
   */
  lemma OutcomeIsSerial(ms: Masters, actions: seq<Action>, id: int)
    requires NoEarlyReads(actions) && id in Run(ms, actions).txs
    ensures var s := Run(ms, actions); var t := s.txs[id];
            && (id !in AdvanceTx(ms, s, id, t).txs ==> !Accepts(ms, s.committed, t.now, t.req))
            && (t.phase == Ready ==>
              && Accepts(ms, s.committed, t.now, t.req)
              && Do(ms, s, Commit(id)).committed == Step(ms, s.committed, t.now, t.req))
  {
    RunsKeepInv(ms, actions);
    var s := Run(ms, actions);
    assert TxOk(ms, s, id);
    if s.txs[id].phase == Ready {
      RowUpdateIsStep(ms, s.committed, s.txs[id]);
    }
  }

  // ---- Why nothing may be read before the lock ----------------------------------------------------------------------

  /** The rest of a transaction, without interruption; one that needs fewer statements waits for its commit. */
  function Finish(ms: Masters, s: State, id: int, now: int): State
  {
    var a := Advance(id);
    Do(ms, Do(ms, Do(ms, Do(ms, Do(ms, Do(ms, Do(ms, s, Lock(id)), Clock(id, now)), a), a), a), a), Commit(id))
  }

  /** A purchase judged by the tables `before` and applied to r. */
  function Decided(ms: Masters, r: RoomState, before: RoomState, now: int, q: Request): RoomState
    requires q.BuyItem?
  {
    if TimeOk(r, now, q.time) && Affordable(ms, before, q.item, q.countBought, q.time) then Apply(r, now, q) else r
  }

  /** The transaction once the lock is held and the clock is read. */
  lemma CheckedTime(ms: Masters, s: State, id: int, now: int) returns (n: State)
    requires id in s.txs && s.owner == None && s.txs[id].phase == Begun
    ensures n == Do(ms, Do(ms, Do(ms, s, Lock(id)), Clock(id, now)), Advance(id))
    ensures n.committed == s.committed && n.history == s.history
    ensures !TimeOk(s.committed, now, s.txs[id].req.time) ==> id !in n.txs && n.owner == None
    ensures TimeOk(s.committed, now, s.txs[id].req.time) ==>
      id in n.txs && n.txs[id] == s.txs[id].(phase := TimeSet, roomTime := s.committed.time, now := now)
        && n.owner == Some(id)
  {
    var s1 := Do(ms, s, Lock(id));
    assert id in s1.txs && s1.txs[id] == s.txs[id].(phase := Locked, roomTime := s.committed.time);
    var s2 := Do(ms, s1, Clock(id, now));
    assert id in s2.txs && s2.txs[id] == s1.txs[id].(phase := Clocked, now := now);
    n := Do(ms, s2, Advance(id));
  }

  /** Its reads, its decision and its commit. */
  lemma ReadAndCommitted(ms: Masters, s: State, id: int) returns (n: State)
    requires id in s.txs ==> s.txs[id].phase == TimeSet && s.txs[id].req.BuyItem? && s.owner == Some(id)
    requires id !in s.txs ==> s.owner == None
    ensures var a := Advance(id); n == Do(ms, Do(ms, Do(ms, Do(ms, s, a), a), a), Commit(id))
    ensures n.owner == None && id !in n.txs
    ensures n.committed == if id !in s.txs then s.committed else
      var t := s.txs[id];
      if Affordable(ms, Seen(s, t), t.req.item, t.req.countBought, t.req.time) then Apply(s.committed, t.now, t.req)
        else s.committed
    ensures n.history == if id !in s.txs then s.history else
      var t := s.txs[id];
      if Affordable(ms, Seen(s, t), t.req.item, t.req.countBought, t.req.time)
        then s.history + [Event(t.now, t.req)] else s.history
  {
    var a := Advance(id);
    var s1 := Do(ms, s, a);
    if id in s1.txs {
      assert s1.txs[id].phase == CountRead && s1.txs[id].snapshot == Some(Seen(s, s.txs[id]));
    }
    var s2 := Do(ms, s1, a);
    if id in s2.txs {
      assert s2.txs[id].phase == AddingRead && s2.txs[id].adding == Seen(s, s.txs[id]).adding;
    }
    var s3 := Do(ms, s2, a);
    if id in s3.txs {
      assert s3.txs[id].phase == Ready;
    }
    n := Do(ms, s3, Commit(id));
  }

  /** A purchase is decided by the tables its first SELECT saw, not by those it is committed to. */
  lemma FirstReadDecides(ms: Masters, s: State, id: int, now: int)
    requires id in s.txs && s.owner == None && s.txs[id].phase == Begun && s.txs[id].req.BuyItem?
    ensures Finish(ms, s, id, now).committed == Decided(ms, s.committed, Seen(s, s.txs[id]), now, s.txs[id].req)
    ensures Finish(ms, s, id, now).owner == None
  {
    var s3 := CheckedTime(ms, s, id, now);
    var n := ReadAndCommitted(ms, s3, id);
  }

  /**
   So a purchase that read the tables before its lock is committed although the room can no longer pay for it: run
   serially on those tables it would be refused, whatever the clock.
   */
  lemma StaleReadIsCommitted(ms: Masters, s: State, id: int, now: int)
    requires id in s.txs && s.owner == None && s.txs[id].phase == Begun && s.txs[id].req.BuyItem?
      && s.txs[id].snapshot.Some?
    requires var q, seen := s.txs[id].req, s.txs[id].snapshot.value;
             TimeOk(s.committed, now, q.time) && Affordable(ms, seen, q.item, q.countBought, q.time)
               && !Affordable(ms, s.committed, q.item, q.countBought, q.time)
    ensures Finish(ms, s, id, now).committed.buying
      == s.committed.buying + [Buying(s.txs[id].req.item, s.txs[id].req.countBought + 1, s.txs[id].req.time)]
    ensures forall clock :: Step(ms, s.committed, clock, s.txs[id].req) == s.committed
    ensures Finish(ms, s, id, now).committed != s.committed
  {
    FirstReadDecides(ms, s, id, now);
  }

  // ---- Alone, a transaction is the serial step ----------------------------------------------------------------------

  /** The statements of an add or a status read, past the clock, to its commit. */
  lemma OthersCommit(ms: Masters, s: State, id: int) returns (n: State)
    requires id in s.txs ==> s.txs[id].phase == TimeSet && !s.txs[id].req.BuyItem? && s.owner == Some(id)
    requires id !in s.txs ==> s.owner == None
    ensures var a := Advance(id); n == Do(ms, Do(ms, Do(ms, Do(ms, s, a), a), a), Commit(id))
    ensures n.owner == None && id !in n.txs
    ensures n.committed == if id in s.txs then Apply(s.committed, s.txs[id].now, s.txs[id].req) else s.committed
    ensures n.history == if id in s.txs then s.history + [Event(s.txs[id].now, s.txs[id].req)] else s.history
  {
    var a := Advance(id);
    var s1 := Do(ms, s, a);
    if id in s1.txs {
      var t := s.txs[id];
      assert t.req.AddIsu? ==>
        s1.txs[id] == t.(phase := RowRead, isu := IsuOfRow(s.committed.adding, t.req.time));
      assert t.req.View? ==> s1.txs[id].phase == AddingRead && s1.txs[id].req == t.req && s1.txs[id].now == t.now;
    }
    var s2 := Do(ms, s1, a);
    if id in s2.txs {
      assert s2.txs[id].phase == Ready && s2.txs[id].req == s.txs[id].req && s2.txs[id].now == s.txs[id].now;
      assert s.txs[id].req.AddIsu? ==> s2.txs[id].isu == s1.txs[id].isu;
    }
    n := Do(ms, Do(ms, s2, a), Commit(id));
  }

  /**
   A request begun while the lock is free and run to its end with nothing in between has the effect of the serial
   room: it commits exactly if the room accepts it, and leaves the lock free either way.
   */
  lemma AloneIsSerial(ms: Masters, s: State, id: int, q: Request, now: int)
    requires s.owner == None && id !in s.txs
    ensures var n := Finish(ms, Do(ms, s, Begin(id, q)), id, now);
            && n.committed == Step(ms, s.committed, now, q)
            && n.history == (if Accepts(ms, s.committed, now, q) then s.history + [Event(now, q)] else s.history)
            && n.owner == None && id !in n.txs
  {
    hide Affordable, Balance, Apply;
    var s0 := Do(ms, s, Begin(id, q));
    assert s0.txs[id] == Tx(q, Begun, 0, 0, None, [], [], 0);
    var s3 := CheckedTime(ms, s0, id, now);
    if q.BuyItem? {
      var n := ReadAndCommitted(ms, s3, id);
    } else {
      var n := OthersCommit(ms, s3, id);
    }
  }

  /** Giving up changes nothing but the transaction itself, and frees its lock. */
  lemma AbortFrees(ms: Masters, s: State, id: int)
    requires id in s.txs
    ensures var n := Do(ms, s, Abort(id));
            && n.committed == s.committed && n.history == s.history && id !in n.txs && n.owner != Some(id)
            && (s.owner != Some(id) ==> n.owner == s.owner)
            && forall i :: i in s.txs && i != id ==> i in n.txs && n.txs[i] == s.txs[i]
  {
  }
}
