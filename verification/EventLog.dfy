/** The append-only event log: events, per-stream histories, the reads the
    runtime performs and the atomic, revision-checked append. */
module EventLog {

  import opened JsonValue

  type Uuid = nat

  /** A fact's JSON body; only aggregators look inside it. */
  type Payload = Json

  /** A physical stream, written `{category}-{subject}` in storage. */
  datatype StreamId = StreamId(category: string, subject: Uuid)

  datatype Event = Event(
    stream: StreamId,
    revision: nat,
    position: nat,
    kind: string,
    payload: Payload,
    eventId: Uuid,
    workflow: Uuid,
    causation: Option<Uuid>)

  type Log = seq<Event>

  /** The history of one stream, in log order. */
  function Stream(log: Log, s: StreamId): (h: seq<Event>)
    ensures |h| <= |log|
  {
    if log == [] then []
    else
      var init := Stream(log[..|log| - 1], s);
      if log[|log| - 1].stream == s then init + [log[|log| - 1]] else init
  }

  /** The event's revision is the number of its stream's earlier events, and
      positions start above zero. */
  ghost predicate DenseAt(log: Log, i: nat)
    requires i < |log|
  {
    log[i].revision == |Stream(log[..i], log[i].stream)| && 0 < log[i].position
  }

  /** Positions never decrease, and only facts of one atomic batch (hence of
      one stream) share a position. */
  ghost predicate Follows(x: Event, y: Event) {
    x.position <= y.position && (x.position == y.position ==> x.stream == y.stream)
  }

  ghost predicate WellFormed(log: Log) {
    && (forall i: nat {:trigger DenseAt(log, i)} | i < |log| :: DenseAt(log, i))
    && (forall i: nat, j: nat {:trigger Follows(log[i], log[j])} | i < j < |log| :: Follows(log[i], log[j]))
  }

  /** `read_stream`: the events past revision `after`, all of them for `None`. */
  function ReadStream(log: Log, s: StreamId, after: Option<nat>): seq<Event> {
    var h := Stream(log, s);
    var skip := if after.None? then 0 else after.value + 1;
    h[(if skip <= |h| then skip else |h|)..]
  }

  /** The event is in the log, up to the position a writer reports for it:
      an appender folds every fact of a batch at the batch's last position. */
  ghost predicate Committed(log: Log, e: Event) {
    var h := Stream(log, e.stream);
    e.revision < |h| && h[e.revision].kind == e.kind && h[e.revision].payload == e.payload
  }

  lemma {:induction false} StreamOfAppend(a: Log, b: Log, s: StreamId)
    ensures Stream(a + b, s) == Stream(a, s) + Stream(b, s)
    decreases |b|
  {
    if b == [] {
      assert a + b == a;
    } else {
      var b', last := b[..|b| - 1], b[|b| - 1];
      assert (a + b)[..|a + b| - 1] == a + b';
      StreamOfAppend(a, b', s);
    }
  }

  lemma {:induction false} StreamGrows(log: Log, log': Log, s: StreamId)
    requires log <= log'
    ensures Stream(log, s) <= Stream(log', s)
  {
    assert log' == log + log'[|log|..];
    StreamOfAppend(log, log'[|log|..], s);
  }

  lemma WellFormedPrefix(log: Log, n: nat)
    requires WellFormed(log) && n <= |log|
    ensures WellFormed(log[..n])
  {
    var front := log[..n];
    forall i: nat | i < n ensures DenseAt(front, i) {
      assert DenseAt(log, i) && front[..i] == log[..i];
    }
    forall i: nat, j: nat | i < j < n ensures Follows(front[i], front[j]) {
      assert Follows(log[i], log[j]);
    }
  }

  /** Density: position `r` of a stream's history holds revision `r`. */
  lemma {:induction false} StreamIsDense(log: Log, s: StreamId)
    requires WellFormed(log)
    ensures forall r | 0 <= r < |Stream(log, s)| ::
              Stream(log, s)[r].revision == r && Stream(log, s)[r].stream == s
  {
    if log != [] {
      var n := |log| - 1;
      WellFormedPrefix(log, n);
      StreamIsDense(log[..n], s);
      assert DenseAt(log, n);
    }
  }

  /** An event of the log sits in its own stream at its own revision. */
  lemma EventInStream(log: Log, i: nat)
    requires WellFormed(log) && i < |log|
    ensures log[i].revision < |Stream(log, log[i].stream)|
    ensures Stream(log, log[i].stream)[log[i].revision] == log[i]
    ensures Committed(log, log[i])
  {
    var s := log[i].stream;
    assert DenseAt(log, i) && log[..i + 1][..i] == log[..i];
    assert Stream(log[..i + 1], s) == Stream(log[..i], s) + [log[i]];
    StreamGrows(log[..i + 1], log, s);
  }

  /** Conversely every event of a stream's history is an event of the log. */
  lemma {:induction false} StreamInLog(log: Log, s: StreamId, r: nat) returns (i: nat)
    requires r < |Stream(log, s)|
    ensures i < |log| && log[i] == Stream(log, s)[r]
    ensures |Stream(log[..i], s)| == r
  {
    var n := |log| - 1;
    if r < |Stream(log[..n], s)| {
      i := StreamInLog(log[..n], s, r);
      assert log[..n][..i] == log[..i];
    } else {
      i := n;
    }
  }

  lemma CommittedGrows(log: Log, log': Log, e: Event)
    requires log <= log' && Committed(log, e)
    ensures Committed(log', e)
  {
    StreamGrows(log, log', e.stream);
  }

  function Max(a: nat, b: nat): nat {
    if a > b then a else b
  }

  /** Position, then revision within a batch. */
  predicate Before(x: Event, y: Event) {
    x.position < y.position || (x.position == y.position && x.revision < y.revision)
  }

  /** Log order is lexicographic in (position, revision) among facts that
      share a position, because those share a stream. */
  lemma LogOrder(d: Log, i: nat, k: nat)
    requires WellFormed(d) && i < k < |d|
    ensures Before(d[i], d[k])
  {
    assert Follows(d[i], d[k]) && DenseAt(d, i) && DenseAt(d, k);
    if d[i].position == d[k].position {
      var s := d[i].stream;
      assert d[..i + 1][..i] == d[..i];
      assert Stream(d[..i + 1], s) == Stream(d[..i], s) + [d[i]];
      StreamGrows(d[..i + 1], d[..k], s);
    }
  }
}
