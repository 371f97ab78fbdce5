/** validateGameLog on the three lists the clients write: statuses, requests, and responses that name their request. */
module LogPairing {
  import opened BenchLog
  import opened Common
  import opened GameLog
  import opened Ledger
  import opened Rooms

  /** A request as its client logged it: when it was sent, and what it asked. */
  datatype SentLog = SentLog(id: int, client: int, time: int, req: Request)

  datatype HeardLog = HeardLog(id: int, client: int, time: int, success: bool)

  predicate UniqueResponses(heard: seq<HeardLog>)
  {
    forall j, k :: 0 <= j < k < |heard| ==> heard[j].id != heard[k].id
  }

  /** Responses come in on the connection the request was sent on. */
  predicate SameClients(sent: seq<SentLog>, heard: seq<HeardLog>)
  {
    forall q, x :: q in sent && x in heard && x.id == q.id ==> x.client == q.client
  }

  function ResponseTo(heard: seq<HeardLog>, id: int): (x: Option<HeardLog>)
    ensures x.Some? ==> x.value in heard && x.value.id == id
    ensures x.None? ==> forall y :: y in heard ==> y.id != id
  {
    if |heard| == 0 then None
    else if heard[|heard| - 1].id == id then Some(heard[|heard| - 1])
    else ResponseTo(heard[..|heard| - 1], id)
  }

  lemma OnlyResponse(heard: seq<HeardLog>, id: int)
    requires UniqueResponses(heard)
    ensures forall x :: x in heard && x.id == id ==> ResponseTo(heard, id) == Some(x)
  {
    forall x | x in heard && x.id == id ensures ResponseTo(heard, id) == Some(x) {
      var i :| 0 <= i < |heard| && heard[i] == x;
    }
  }

  /** A request with its response, or marked as unanswered. */
  function Paired(q: SentLog, heard: seq<HeardLog>): RequestLog
  {
    match ResponseTo(heard, q.id)
    case None => RequestLog(q.client, q.time, 0, Entry(q.req, false, false))
    case Some(x) => RequestLog(q.client, q.time, x.time, Entry(q.req, true, x.success))
  }

  function PairedLog(sent: seq<SentLog>, heard: seq<HeardLog>): seq<RequestLog>
  {
    seq(|sent|, k requires 0 <= k < |sent| => Paired(sent[k], heard))
  }

  /** Unless responses repeat, a request is paired with the one that names it, and only then counts as answered. */
  lemma PairedIsHeard(sent: seq<SentLog>, heard: seq<HeardLog>, k: nat)
    requires k < |sent| && UniqueResponses(heard)
    ensures PairedLog(sent, heard)[k].client == sent[k].client && PairedLog(sent, heard)[k].sent == sent[k].time
    ensures PairedLog(sent, heard)[k].e.req == sent[k].req
    ensures PairedLog(sent, heard)[k].e.answered <==> exists x :: x in heard && x.id == sent[k].id
    ensures forall x :: x in heard && x.id == sent[k].id ==>
      PairedLog(sent, heard)[k].heard == x.time && PairedLog(sent, heard)[k].e.success == x.success
  {
    OnlyResponse(heard, sent[k].id);
  }

  ghost predicate HoldsResponses(dict: map<int, HeardLog>, heard: seq<HeardLog>)
  {
    forall id :: Lookup(dict, id) == ResponseTo(heard, id)
  }

  lemma PushResponse(dict: map<int, HeardLog>, heard: seq<HeardLog>, x: HeardLog)
    requires HoldsResponses(dict, heard) && UniqueResponses(heard)
    ensures UniqueResponses(heard + [x]) <==> x.id !in dict
    ensures HoldsResponses(dict[x.id := x], heard + [x])
  {
    var next := heard + [x];
    assert next[..|next| - 1] == heard;
    assert Lookup(dict, x.id) == ResponseTo(heard, x.id);
    forall id ensures ResponseTo(next, id) == if x.id == id then Some(x) else Lookup(dict, id) {
      assert Lookup(dict, id) == ResponseTo(heard, id);
    }
    if x.id in dict {
      var j :| 0 <= j < |heard| && heard[j] == dict[x.id];
      assert next[j].id == next[|heard|].id;
    }
  }

  lemma PrefixIsUnique(heard: seq<HeardLog>, k: nat)
    requires k <= |heard| && UniqueResponses(heard)
    ensures UniqueResponses(heard[..k])
  {
  }

  /** The responses by request id, unless two name the same request. */
  method ReadResponses(heard: seq<HeardLog>) returns (r: Option<map<int, HeardLog>>)
    ensures r.Some? <==> UniqueResponses(heard)
    ensures r.Some? ==> HoldsResponses(r.value, heard)
  {
    hide UniqueResponses, HoldsResponses;
    var dict := map[];
    assert heard[..0] == [] && UniqueResponses([]) && HoldsResponses(dict, []) by { NothingHeard(); }
    for k := 0 to |heard|
      invariant UniqueResponses(heard[..k]) && HoldsResponses(dict, heard[..k])
    {
      var x := heard[k];
      PushResponse(dict, heard[..k], x);
      assert heard[..k + 1] == heard[..k] + [x];
      if x.id in dict {
        if UniqueResponses(heard) {
          PrefixIsUnique(heard, k + 1);
        }
        return None;
      }
      dict := dict[x.id := x];
    }
    assert heard[..|heard|] == heard;
    return Some(dict);
  }

  lemma NothingHeard()
    ensures UniqueResponses([]) && HoldsResponses(map[], [])
  {
  }

  /** The requests with their responses, unless responses repeat or come to another client. */
  method PairLogs(sent: seq<SentLog>, heard: seq<HeardLog>) returns (r: Option<seq<RequestLog>>)
    ensures r.Some? <==> UniqueResponses(heard) && SameClients(sent, heard)
    ensures r.Some? ==> r.value == PairedLog(sent, heard)
  {
    var dict := ReadResponses(heard);
    if dict.None? {
      return None;
    }
    var log := [];
    for k := 0 to |sent|
      invariant |log| == k && forall j :: 0 <= j < k ==> log[j] == Paired(sent[j], heard)
      invariant SameClients(sent[..k], heard)
    {
      var q := sent[k];
      assert Lookup(dict.value, q.id) == ResponseTo(heard, q.id);
      OnlyResponse(heard, q.id);
      if q.id in dict.value {
        var x := dict.value[q.id];
        if q.client != x.client {
          assert q in sent && x in heard;
          return None;
        }
        log := log + [RequestLog(q.client, q.time, x.time, Entry(q.req, true, x.success))];
      } else {
        log := log + [RequestLog(q.client, q.time, 0, Entry(q.req, false, false))];
      }
      assert sent[..k + 1] == sent[..k] + [q];
    }
    assert sent[..|sent|] == sent;
    return Some(log);
  }

  /** The whole validation of a room's log. */
  method ValidateLogs(ms: Masters, isPreTest: bool, statuses: seq<StatusLog>, sent: seq<SentLog>, heard: seq<HeardLog>)
    returns (ok: bool)
    requires StatusesOk(ms, StatusesOf(statuses))
    ensures ok ==> forall j, k :: 0 <= j < k < |heard| ==> heard[j].id != heard[k].id
    ensures ok ==> forall q, x :: q in sent && x in heard && x.id == q.id ==> x.client == q.client
    ensures ok ==> LogAcceptable(isPreTest, EntriesOf(PairedLog(sent, heard)))
    ensures ok ==> AllReflected(statuses, PairedLog(sent, heard))
    ensures forall d :: DictsOf(EntriesOf(PairedLog(sent, heard)), d) ==>
      (ok <==>
        && UniqueResponses(heard) && SameClients(sent, heard)
        && LogAcceptable(isPreTest, EntriesOf(PairedLog(sent, heard)))
        && AllReflected(statuses, PairedLog(sent, heard)) && Verdict(ms, isPreTest, d, StatusesOf(statuses)))
  {
    var log := PairLogs(sent, heard);
    if log.None? {
      return false;
    }
    ok := ValidateGameLog(ms, isPreTest, statuses, log.value);
  }
}
