/** The in-memory log backend: idempotent, revision-checked, atomic appends. */
module LogStore {
  import opened JsonValue
  import opened EventLog

  /** A typed in-process handle to a fact; never serialized. */
  type Handle(==, !new)

  /** An event on its way into the log. */
  datatype EventData = EventData(
    eventId: Uuid,
    causation: Option<Uuid>,
    workflow: Uuid,
    kind: string,
    payload: Payload,
    createdAt: nat,
    category: Option<string>,
    subject: Option<Uuid>,
    metadata: map<string, Json>,
    ephemeral: Option<Handle>,
    persistent: bool)

  datatype StreamState = Any | NoStream | StreamExists | AtRevision(revision: nat)

  datatype AppendResult =
    | Written(position: nat, revision: nat)
    | Conflict(current: Option<nat>)
    | Rejected

  function LastPosition(log: Log): nat {
    if log == [] then 0 else log[|log| - 1].position
  }

  predicate Expected(expected: StreamState, count: nat) {
    match expected
    case Any => true
    case NoStream => count == 0
    case StreamExists => count > 0
    case AtRevision(r) => count > 0 && r == count - 1
  }

  function Record(log: Log, s: StreamId, k: nat, d: EventData): Event {
    Event(s, |Stream(log, s)| + k, LastPosition(log) + 1 + k, d.kind, d.payload, d.eventId, d.workflow, d.causation)
  }

  /** The batch as it lands: consecutive revisions and positions. */
  function Records(log: Log, s: StreamId, batch: seq<EventData>): seq<Event> {
    seq(|batch|, k requires 0 <= k < |batch| => Record(log, s, k, batch[k]))
  }

  function FindById(log: Log, id: Uuid): (r: Option<Event>)
    ensures r.Some? ==> r.value in log && r.value.eventId == id
    ensures r.None? ==> forall e | e in log :: e.eventId != id
  {
    if log == [] then None
    else if log[|log| - 1].eventId == id then Some(log[|log| - 1])
    else FindById(log[..|log| - 1], id)
  }

  predicate SameContent(e: Event, s: StreamId, d: EventData) {
    e.payload == d.payload && e.kind == d.kind && e.workflow == d.workflow
    && e.causation == d.causation && e.stream == s
  }

  predicate DistinctIds(batch: seq<EventData>) {
    forall i, j | 0 <= i < j < |batch| :: batch[i].eventId != batch[j].eventId
  }

  /** Every fact of the batch is in the log already, as submitted. */
  predicate AllStored(log: Log, s: StreamId, batch: seq<EventData>) {
    batch == []
    || (var row := FindById(log, batch[0].eventId);
        row.Some? && SameContent(row.value, s, batch[0]) && AllStored(log, s, batch[1..]))
  }

  /** Some fact of the batch is. */
  predicate AnyStored(log: Log, batch: seq<EventData>) {
    batch != [] && (FindById(log, batch[0].eventId).Some? || AnyStored(log, batch[1..]))
  }

  /** `append_to_stream`: the log afterwards and what the caller is told. */
  function Append(log: Log, s: StreamId, expected: StreamState, batch: seq<EventData>): (Log, AppendResult) {
    if batch == [] || !DistinctIds(batch) then (log, Rejected)
    else
      var row := FindById(log, batch[|batch| - 1].eventId);
      if row.Some? then
        if AllStored(log, s, batch) then (log, Written(row.value.position, row.value.revision))
        else (log, Rejected)
      else if AnyStored(log, batch) then (log, Rejected)
      else
        var count := |Stream(log, s)|;
        if !Expected(expected, count) then (log, Conflict(if count == 0 then None else Some(count - 1)))
        else (log + Records(log, s, batch), Written(LastPosition(log) + |batch|, count + |batch| - 1))
  }

  predicate FreshIds(log: Log, batch: seq<EventData>) {
    forall d | d in batch :: FindById(log, d.eventId).None?
  }

  lemma {:induction false} NoneStored(log: Log, batch: seq<EventData>)
    requires FreshIds(log, batch)
    ensures !AnyStored(log, batch)
  {
    if batch != [] {
      assert batch[0] in batch && forall d | d in batch[1..] :: d in batch;
      NoneStored(log, batch[1..]);
    }
  }

  /** An append of fresh facts: the whole batch when the stream's head is as
      expected, nothing otherwise. */
  lemma FreshAppend(log: Log, s: StreamId, expected: StreamState, batch: seq<EventData>)
    requires batch != [] && DistinctIds(batch) && FreshIds(log, batch)
    ensures var (log', r) := Append(log, s, expected, batch);
            if Expected(expected, |Stream(log, s)|) then
              log' == log + Records(log, s, batch)
              && r == Written(LastPosition(log) + |batch|, |Stream(log, s)| + |batch| - 1)
            else log' == log && r.Conflict?
  {
    assert batch[|batch| - 1] in batch;
    NoneStored(log, batch);
  }

  lemma AppendShape(log: Log, s: StreamId, expected: StreamState, batch: seq<EventData>)
    ensures var log' := Append(log, s, expected, batch).0;
            log' == log || log' == log + Records(log, s, batch)
  {
  }

  /** A landed batch is a contiguous stretch of its stream. */
  lemma {:induction false} RecordsStream(log: Log, s: StreamId, batch: seq<EventData>, t: StreamId)
    ensures Stream(Records(log, s, batch), t) == if s == t then Records(log, s, batch) else []
    decreases |batch|
  {
    var rs := Records(log, s, batch);
    if batch != [] {
      var batch' := batch[..|batch| - 1];
      assert rs[..|rs| - 1] == Records(log, s, batch');
      RecordsStream(log, s, batch', t);
      assert rs == rs[..|rs| - 1] + [rs[|rs| - 1]];
    }
  }

  lemma AppendKeepsStreams(log: Log, s: StreamId, batch: seq<EventData>, t: StreamId)
    ensures Stream(log + Records(log, s, batch), t)
         == Stream(log, t) + if s == t then Records(log, s, batch) else []
  {
    StreamOfAppend(log, Records(log, s, batch), t);
    RecordsStream(log, s, batch, t);
  }

  lemma RecordIsDense(log: Log, s: StreamId, batch: seq<EventData>, i: nat)
    requires WellFormed(log) && i < |log + Records(log, s, batch)|
    ensures DenseAt(log + Records(log, s, batch), i)
  {
    var log' := log + Records(log, s, batch);
    if i < |log| {
      assert DenseAt(log, i) && log'[..i] == log[..i];
    } else {
      var k := i - |log|;
      assert log'[..i] == log + Records(log, s, batch[..k]);
      AppendKeepsStreams(log, s, batch[..k], s);
    }
  }

  lemma {:induction false} PositionsBounded(log: Log, i: nat)
    requires WellFormed(log) && i < |log|
    ensures 0 < log[i].position <= LastPosition(log)
  {
    assert DenseAt(log, i);
    if i < |log| - 1 { assert Follows(log[i], log[|log| - 1]); }
  }

  lemma RecordsKeepLog(log: Log, s: StreamId, batch: seq<EventData>)
    requires WellFormed(log)
    ensures WellFormed(log + Records(log, s, batch))
  {
    var log' := log + Records(log, s, batch);
    forall i: nat | i < |log'| ensures DenseAt(log', i) {
      RecordIsDense(log, s, batch, i);
    }
    forall i: nat, j: nat | i < j < |log'| ensures Follows(log'[i], log'[j]) {
      if j < |log| {
        assert Follows(log[i], log[j]);
      } else if i < |log| {
        PositionsBounded(log, i);
      }
    }
  }

  // ── Redelivery ────────────────────────────────────────────────────

  lemma {:induction false} FindRecord(log: Log, s: StreamId, batch: seq<EventData>, k: nat)
    requires k < |batch| && DistinctIds(batch)
    ensures FindById(log + Records(log, s, batch), batch[k].eventId) == Some(Record(log, s, k, batch[k]))
    decreases |batch|
  {
    var n := |batch| - 1;
    var front := log + Records(log, s, batch[..n]);
    assert log + Records(log, s, batch) == front + [Record(log, s, n, batch[n])];
    FindLast(front, Record(log, s, n, batch[n]), batch[k].eventId);
    if k < n { FindRecord(log, s, batch[..n], k); }
  }

  lemma {:induction false} FindLast(log: Log, e: Event, id: Uuid)
    ensures FindById(log + [e], id) == if e.eventId == id then Some(e) else FindById(log, id)
  {
    assert (log + [e])[..|log + [e]| - 1] == log;
  }

  lemma {:induction false} SuffixStored(log: Log, s: StreamId, batch: seq<EventData>, i: nat)
    requires i <= |batch| && DistinctIds(batch)
    ensures AllStored(log + Records(log, s, batch), s, batch[i..])
    decreases |batch| - i
  {
    if i < |batch| {
      FindRecord(log, s, batch, i);
      SuffixStored(log, s, batch, i + 1);
      assert batch[i..][0] == batch[i] && batch[i..][1..] == batch[i + 1..];
    }
  }

  /** Redelivering a batch that landed, under any expectation, changes nothing
      and reports what the first delivery did. */
  lemma AppendTwice(log: Log, s: StreamId, expected: StreamState, again: StreamState, batch: seq<EventData>,
                    log': Log, r: AppendResult)
    requires batch != [] && DistinctIds(batch) && FreshIds(log, batch) && Expected(expected, |Stream(log, s)|)
    requires (log', r) == Append(log, s, expected, batch)
    ensures r.Written? && Append(log', s, again, batch) == (log', r)
  {
    FreshAppend(log, s, expected, batch);
    LandedEchoes(log, s, again, batch, log', r);
  }

  lemma LandedEchoes(log: Log, s: StreamId, again: StreamState, batch: seq<EventData>, log': Log, r: AppendResult)
    requires batch != [] && DistinctIds(batch) && log' == log + Records(log, s, batch)
    requires r == Written(LastPosition(log) + |batch|, |Stream(log, s)| + |batch| - 1)
    ensures Append(log', s, again, batch) == (log', r)
  {
    AllLanded(log, s, batch);
    EchoStored(log', s, again, batch, Record(log, s, |batch| - 1, batch[|batch| - 1]));
  }

  lemma AllLanded(log: Log, s: StreamId, batch: seq<EventData>)
    requires batch != [] && DistinctIds(batch)
    ensures var log', n := log + Records(log, s, batch), |batch| - 1;
            && AllStored(log', s, batch)
            && FindById(log', batch[n].eventId) == Some(Record(log, s, n, batch[n]))
  {
    FindRecord(log, s, batch, |batch| - 1);
    SuffixStored(log, s, batch, 0);
    assert batch[0..] == batch;
  }

  lemma EchoStored(log: Log, s: StreamId, expected: StreamState, batch: seq<EventData>, row: Event)
    requires batch != [] && DistinctIds(batch) && AllStored(log, s, batch)
    requires FindById(log, batch[|batch| - 1].eventId) == Some(row)
    ensures Append(log, s, expected, batch) == (log, Written(row.position, row.revision))
  {
  }

  lemma {:induction false} OneDiffers(log: Log, s: StreamId, batch: seq<EventData>, k: nat)
    requires k < |batch|
    requires var row := FindById(log, batch[k].eventId); row.None? || !SameContent(row.value, s, batch[k])
    ensures !AllStored(log, s, batch)
  {
    if k > 0 { OneDiffers(log, s, batch[1..], k - 1); }
  }

  lemma {:induction false} OneStored(log: Log, batch: seq<EventData>, k: nat)
    requires k < |batch| && FindById(log, batch[k].eventId).Some?
    ensures AnyStored(log, batch)
  {
    if k > 0 { OneStored(log, batch[1..], k - 1); }
  }

  /** A redelivery that decided differently anywhere, or overlaps the log only
      in part — whichever part — is refused and leaves the log alone. */
  lemma DivergentIsRefused(log: Log, s: StreamId, expected: StreamState, batch: seq<EventData>, j: nat, k: nat)
    requires j < |batch| && FindById(log, batch[j].eventId).Some?
    requires k < |batch|
    requires var row := FindById(log, batch[k].eventId); row.None? || !SameContent(row.value, s, batch[k])
    ensures Append(log, s, expected, batch) == (log, Rejected)
  {
    OneDiffers(log, s, batch, k);
    OneStored(log, batch, j);
  }

  /** The backend keeps the log well formed and only ever extends it; a
      refused append leaves it alone. */
  lemma AppendKeepsLog(log: Log, s: StreamId, expected: StreamState, batch: seq<EventData>)
    requires WellFormed(log)
    ensures var (log', r) := Append(log, s, expected, batch);
            WellFormed(log') && log <= log' && (!r.Written? ==> log' == log)
  {
    RecordsKeepLog(log, s, batch);
  }

  class MemoryLog {
    var events: Log

    constructor ()
      ensures events == [] && WellFormed(events)
    {
      events := [];
    }

    method ReadStream(s: StreamId, after: Option<nat>) returns (r: seq<Event>)
      ensures r == EventLog.ReadStream(events, s, after)
    {
      r := EventLog.ReadStream(events, s, after);
    }

    /** Events past `after` in log order, at most `limit` of them. */
    method ReadAll(after: nat, limit: nat) returns (page: seq<Event>)
      ensures page == PageAfter(events, after, limit)
    {
      var i := 0;
      while i < |events| && events[i].position <= after
        invariant i <= |events| && NextIndex(events, i, after) == NextIndex(events, 0, after)
      {
        i := i + 1;
      }
      page := events[i..PageEnd(events, i, limit)];
    }

    method AppendToStream(s: StreamId, expected: StreamState, batch: seq<EventData>) returns (r: AppendResult)
      modifies this
      ensures (events, r) == Append(old(events), s, expected, batch)
      ensures WellFormed(old(events)) ==> WellFormed(events) && old(events) <= events
    {
      if WellFormed(events) { AppendKeepsLog(events, s, expected, batch); }
      var (log', result) := Append(events, s, expected, batch);
      events := log';
      r := result;
    }
  }

  /** The first index from `m` on past a position. */
  function NextIndex(log: Log, m: nat, position: nat): (k: nat)
    requires m <= |log|
    ensures m <= k <= |log|
    ensures forall i | m <= i < k :: log[i].position <= position
    ensures k < |log| ==> log[k].position > position
    decreases |log| - m
  {
    if m == |log| || log[m].position > position then m else NextIndex(log, m + 1, position)
  }

  function PageEnd(log: Log, n: nat, limit: nat): nat {
    if n + limit <= |log| then n + limit else |log|
  }

  function PageAfter(log: Log, after: nat, limit: nat): seq<Event> {
    var n := NextIndex(log, 0, after);
    log[n..PageEnd(log, n, limit)]
  }
}
