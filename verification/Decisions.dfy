/** Decision records: the durable projection of an output batch, and the
    first-write-wins store that holds one record per (consumer, trigger). */
module Decisions {
  import opened JsonValue
  import opened EventLog
  import opened LogStore

  // ── Sanitizing ────────────────────────────────────────────────────

  function Strip(s: string): (r: string)
    ensures NulFree(r)
    ensures NulFree(s) ==> r == s
  {
    if s == "" then ""
    else if s[0] == NUL then Strip(s[1..])
    else
      assert NulFree(s) ==> NulFree(s[1..]);
      [s[0]] + Strip(s[1..])
  }

  /** `sanitize_nul`: strings lose their NULs; object keys are left alone. */
  function Sanitize(v: Json): Json {
    match v
    case Str(s) => Str(Strip(s))
    case Arr(items) => Arr(seq(|items|, i requires 0 <= i < |items| => Sanitize(items[i])))
    case Obj(fields) => Obj(map k | k in fields :: Sanitize(fields[k]))
    case _ => v
  }

  ghost predicate NoNulAnywhere(v: Json) {
    match v
    case Str(s) => NulFree(s)
    case Arr(items) => forall i | 0 <= i < |items| :: NoNulAnywhere(items[i])
    case Obj(fields) => forall k | k in fields :: NulFree(k) && NoNulAnywhere(fields[k])
    case _ => true
  }

  ghost predicate NoNulInKeys(v: Json) {
    match v
    case Arr(items) => forall i | 0 <= i < |items| :: NoNulInKeys(items[i])
    case Obj(fields) => forall k | k in fields :: NulFree(k) && NoNulInKeys(fields[k])
    case _ => true
  }

  /** Sanitizing leaves a value the database accepts exactly when no object
      key in it holds a NUL: keys are not stripped. */
  lemma {:induction false} SanitizedIsNulFree(v: Json)
    ensures NoNulAnywhere(Sanitize(v)) <==> NoNulInKeys(v)
  {
    match v {
      case Arr(items) =>
        forall i | 0 <= i < |items| ensures NoNulAnywhere(Sanitize(items[i])) <==> NoNulInKeys(items[i]) {
          SanitizedIsNulFree(items[i]);
        }
        assert forall i | 0 <= i < |items| :: Sanitize(v).items[i] == Sanitize(items[i]);
      case Obj(fields) =>
        forall k | k in fields ensures NoNulAnywhere(Sanitize(fields[k])) <==> NoNulInKeys(fields[k]) {
          SanitizedIsNulFree(fields[k]);
        }
        assert forall k | k in fields :: k in Sanitize(v).fields && Sanitize(v).fields[k] == Sanitize(fields[k]);
      case _ =>
    }
  }

  /** The documented promise fails on a NUL in an object key. */
  lemma NulKeySurvives()
    ensures !NoNulAnywhere(Sanitize(Obj(map["a\0" := Null])))
  {
    var v := Obj(map["a\0" := Null]);
    var key := "a\0";
    assert key[1] == NUL;
    assert key in v.fields && !NulFree(key);
    SanitizedIsNulFree(v);
  }

  lemma {:induction false} SanitizeTwice(v: Json)
    ensures Sanitize(Sanitize(v)) == Sanitize(v)
  {
    match v {
      case Arr(items) =>
        forall i | 0 <= i < |items| ensures Sanitize(Sanitize(items[i])) == Sanitize(items[i]) {
          SanitizeTwice(items[i]);
        }
        assert Sanitize(Sanitize(v)).items == Sanitize(v).items;
      case Obj(fields) =>
        forall k | k in fields ensures Sanitize(Sanitize(fields[k])) == Sanitize(fields[k]) {
          SanitizeTwice(fields[k]);
        }
        assert Sanitize(Sanitize(v)).fields == Sanitize(v).fields;
      case _ =>
    }
  }

  // ── The output envelope ───────────────────────────────────────────

  /** What survives storage: every string without its NULs, no in-process
      handle, always persistent. */
  function Clean(d: EventData): EventData {
    d.(kind := Strip(d.kind),
       payload := Sanitize(d.payload),
       category := if d.category.Some? then Some(Strip(d.category.value)) else None,
       metadata := map k | k in d.metadata :: Sanitize(d.metadata[k]),
       ephemeral := None,
       persistent := true)
  }

  datatype Name =
    EventId | WorkflowId | EventType | PayloadBody | CreatedAt | CausationId | Category | SubjectId | Metadata

  const ALL_NAMES: set<Name> :=
    {EventId, WorkflowId, EventType, PayloadBody, CreatedAt, CausationId, Category, SubjectId, Metadata}

  /** Length and first letter tell the field names apart. */
  ghost function Tag(s: string): Option<Name> {
    if |s| == 7 then Some(PayloadBody)
    else if |s| == 8 then
      (if s[0] == 'e' then Some(EventId) else if s[0] == 'c' then Some(Category) else Some(Metadata))
    else if |s| == 10 then
      (if s[0] == 'e' then Some(EventType) else if s[0] == 'c' then Some(CreatedAt) else Some(SubjectId))
    else if |s| == 11 then Some(WorkflowId)
    else if |s| == 12 then Some(CausationId)
    else None
  }

  function Spell(n: Name): (s: string)
    ensures Tag(s) == Some(n)
  {
    match n
    case EventId => "event_id"
    case WorkflowId => "workflow_id"
    case EventType => "event_type"
    case PayloadBody => "payload"
    case CreatedAt => "created_at"
    case CausationId => "causation_id"
    case Category => "category"
    case SubjectId => "subject_id"
    case Metadata => "metadata"
  }

  function Wrap(s: Option<string>): Option<Json> {
    if s.Some? then Some(Str(s.value)) else None
  }

  function TextOf(n: Option<nat>): Option<Json> {
    if n.Some? then Some(Str(Text(n.value))) else None
  }

  /** One field of the envelope: absent options and empty metadata are left
      out. */
  function Field(d: EventData, name: Name): Option<Json> {
    match name
    case EventId => Some(Str(Text(d.eventId)))
    case WorkflowId => Some(Str(Text(d.workflow)))
    case EventType => Some(Str(d.kind))
    case PayloadBody => Some(d.payload)
    case CreatedAt => Some(Str(Text(d.createdAt)))
    case CausationId => TextOf(d.causation)
    case Category => Wrap(d.category)
    case SubjectId => TextOf(d.subject)
    case Metadata => if d.metadata == map[] then None else Some(Obj(d.metadata))
  }

  function Encode(d: EventData): map<string, Json> {
    map name | name in ALL_NAMES && Field(d, name).Some? :: Spell(name) := Field(d, name).value
  }

  /** The field `name` of an object. */
  function Get(o: map<string, Json>, name: Name): Option<Json> {
    if Spell(name) in o then Some(o[Spell(name)]) else None
  }

  datatype Result<+T> = Ok(value: T) | Malformed

  function StringOf(v: Option<Json>): Result<string> {
    if v.Some? && v.value.Str? then Ok(v.value.s) else Malformed
  }

  function NumberOf(v: Option<Json>): Result<nat> {
    if v.Some? && v.value.Str? && Parse(v.value.s).Some? then Ok(Parse(v.value.s).value) else Malformed
  }

  /** An option field may be absent or null. */
  predicate Absent(v: Option<Json>) {
    v.None? || v.value.Null?
  }

  function OptionalString(v: Option<Json>): Result<Option<string>> {
    if Absent(v) then Ok(None)
    else
      var s := StringOf(v);
      if s.Ok? then Ok(Some(s.value)) else Malformed
  }

  function OptionalNumber(v: Option<Json>): Result<Option<nat>> {
    if Absent(v) then Ok(None)
    else
      var n := NumberOf(v);
      if n.Ok? then Ok(Some(n.value)) else Malformed
  }

  function MetadataOf(v: Option<Json>): Result<map<string, Json>> {
    if v.None? then Ok(map[])
    else if v.value.Obj? then Ok(v.value.fields)
    else Malformed
  }

  function Decode(v: Json): Result<EventData> {
    if !v.Obj? then Malformed
    else
      var o := v.fields;
      var id, workflow, created := NumberOf(Get(o, EventId)), NumberOf(Get(o, WorkflowId)), NumberOf(Get(o, CreatedAt));
      var kind, category := StringOf(Get(o, EventType)), OptionalString(Get(o, Category));
      var causation, subject := OptionalNumber(Get(o, CausationId)), OptionalNumber(Get(o, SubjectId));
      var metadata, payload := MetadataOf(Get(o, Metadata)), Get(o, PayloadBody);
      if id.Ok? && workflow.Ok? && created.Ok? && kind.Ok? && category.Ok? && causation.Ok? && subject.Ok?
         && metadata.Ok? && payload.Some?
      then Ok(EventData(id.value, causation.value, workflow.value, kind.value, payload.value, created.value,
                        category.value, subject.value, metadata.value, None, true))
      else Malformed
  }

  /** `outputs_to_json` */
  function ToJson(outputs: seq<EventData>): Json {
    Sanitize(Arr(seq(|outputs|, i requires 0 <= i < |outputs| => Obj(Encode(outputs[i])))))
  }

  /** Convert every item, or fail on the first that does not convert. */
  function TryAll<A, B>(f: A -> Result<B>, items: seq<A>): Result<seq<B>> {
    if items == [] then Ok([])
    else
      var first, rest := f(items[0]), TryAll(f, items[1..]);
      if first.Ok? && rest.Ok? then Ok([first.value] + rest.value) else Malformed
  }

  /** `outputs_from_json` */
  function FromJson(v: Json): Result<seq<EventData>> {
    if v.Arr? then TryAll(Decode, v.items) else Malformed
  }

  function CleanAll(outputs: seq<EventData>): seq<EventData> {
    seq(|outputs|, i requires 0 <= i < |outputs| => Clean(outputs[i]))
  }

  // ── Round trips ───────────────────────────────────────────────────

  /** Ids and instants hold no NUL, so sanitizing does not touch them. */
  lemma NumberSurvives(n: nat)
    ensures Sanitize(Str(Text(n))) == Str(Text(n)) && NumberOf(Some(Str(Text(n)))) == Ok(n)
  {
    TextRoundTrips(n);
  }

  function SanitizeField(v: Option<Json>): Option<Json> {
    if v.Some? then Some(Sanitize(v.value)) else None
  }

  lemma SanitizeOneField(d: EventData, name: Name)
    ensures SanitizeField(Field(d, name)) == Field(Clean(d), name)
  {
    match name {
      case EventId => NumberSurvives(d.eventId);
      case WorkflowId => NumberSurvives(d.workflow);
      case CreatedAt => NumberSurvives(d.createdAt);
      case CausationId => if d.causation.Some? { NumberSurvives(d.causation.value); }
      case SubjectId => if d.subject.Some? { NumberSurvives(d.subject.value); }
      case Metadata => SanitizeMetadata(d);
      case EventType =>
      case PayloadBody =>
      case Category =>
    }
  }

  lemma SanitizeMetadata(d: EventData)
    ensures SanitizeField(Field(d, Metadata)) == Field(Clean(d), Metadata)
  {
    var m, clean := d.metadata, Clean(d).metadata;
    assert clean.Keys == m.Keys;
    assert m == map[] <==> m.Keys == {};
    assert clean == map[] <==> clean.Keys == {};
    assert Sanitize(Obj(m)) == Obj(clean);
  }

  /** Sanitizing and taking the envelope commute. */
  lemma SanitizeEncodes(d: EventData)
    ensures Sanitize(Obj(Encode(d))) == Obj(Encode(Clean(d)))
  {
    var a, b := Sanitize(Obj(Encode(d))).fields, Encode(Clean(d));
    forall k ensures k in a <==> k in b
      ensures k in a ==> a[k] == b[k]
    {
      SanitizeKey(d, k);
    }
    assert a == b;
  }

  lemma SanitizeKey(d: EventData, k: string)
    ensures var a, b := Sanitize(Obj(Encode(d))).fields, Encode(Clean(d));
            (k in a <==> k in b) && (k in a ==> a[k] == b[k])
  {
    EncodeKeys(d, k);
    EncodeKeys(Clean(d), k);
    if Tag(k).Some? { SanitizeOneField(d, Tag(k).value); }
  }

  lemma EncodeKeys(d: EventData, k: string)
    ensures k in Encode(d) <==> Tag(k).Some? && k == Spell(Tag(k).value) && Field(d, Tag(k).value).Some?
    ensures k in Encode(d) ==> Encode(d)[k] == Field(d, Tag(k).value).value
  {
  }

  lemma GetEncode(d: EventData, name: Name)
    ensures Get(Encode(d), name) == Field(d, name)
  {
  }

  lemma NumberReads(n: nat)
    ensures NumberOf(Some(Str(Text(n)))) == Ok(n)
    ensures OptionalNumber(Some(Str(Text(n)))) == Ok(Some(n))
  {
    NumberSurvives(n);
  }

  lemma OptionalNumberReads(v: Option<Json>, n: Option<nat>)
    requires v == TextOf(n)
    ensures OptionalNumber(v) == Ok(n)
  {
    if n.Some? { NumberReads(n.value); }
  }

  lemma DecodeEncode(d: EventData)
    ensures Decode(Obj(Encode(d))) == Ok(d.(ephemeral := None, persistent := true))
  {
    forall name ensures Get(Encode(d), name) == Field(d, name) {
      GetEncode(d, name);
    }
    DecodeFields(Encode(d), d);
  }

  lemma DecodeFields(o: map<string, Json>, d: EventData)
    requires forall name :: Get(o, name) == Field(d, name)
    ensures Decode(Obj(o)) == Ok(d.(ephemeral := None, persistent := true))
  {
    RequiredRead(o, d);
    OptionalFields(o, d);
    ReadFields(o, d);
  }

  lemma OptionalFields(o: map<string, Json>, d: EventData)
    requires forall name :: Get(o, name) == Field(d, name)
    ensures ReadsOptional(o, d)
  {
    assert Get(o, CausationId) == TextOf(d.causation);
    assert Get(o, SubjectId) == TextOf(d.subject);
    assert Get(o, Category) == Wrap(d.category);
    OptionalRead(o, d);
  }

  ghost predicate ReadsRequired(o: map<string, Json>, d: EventData) {
    && NumberOf(Get(o, EventId)) == Ok(d.eventId) && NumberOf(Get(o, WorkflowId)) == Ok(d.workflow)
    && NumberOf(Get(o, CreatedAt)) == Ok(d.createdAt) && StringOf(Get(o, EventType)) == Ok(d.kind)
    && Get(o, PayloadBody) == Some(d.payload)
  }

  ghost predicate ReadsOptional(o: map<string, Json>, d: EventData) {
    && OptionalNumber(Get(o, CausationId)) == Ok(d.causation) && OptionalNumber(Get(o, SubjectId)) == Ok(d.subject)
    && OptionalString(Get(o, Category)) == Ok(d.category) && MetadataOf(Get(o, Metadata)) == Ok(d.metadata)
  }

  lemma RequiredRead(o: map<string, Json>, d: EventData)
    requires forall name :: Get(o, name) == Field(d, name)
    ensures ReadsRequired(o, d)
  {
    NumberReads(d.eventId);
    NumberReads(d.workflow);
    NumberReads(d.createdAt);
  }

  lemma OptionalRead(o: map<string, Json>, d: EventData)
    requires Get(o, CausationId) == TextOf(d.causation) && Get(o, SubjectId) == TextOf(d.subject)
    requires Get(o, Category) == Wrap(d.category) && Get(o, Metadata) == Field(d, Metadata)
    ensures ReadsOptional(o, d)
  {
    OptionalNumberReads(Get(o, CausationId), d.causation);
    OptionalNumberReads(Get(o, SubjectId), d.subject);
    OptionalStringReads(Get(o, Category), d.category);
    MetadataReads(Get(o, Metadata), d);
  }

  lemma OptionalStringReads(v: Option<Json>, s: Option<string>)
    requires v == Wrap(s)
    ensures OptionalString(v) == Ok(s)
  {
  }

  lemma MetadataReads(v: Option<Json>, d: EventData)
    requires v == Field(d, Metadata)
    ensures MetadataOf(v) == Ok(d.metadata)
  {
  }

  /** Decoding an object from what its fields say. */
  lemma ReadFields(o: map<string, Json>, d: EventData)
    requires ReadsRequired(o, d) && ReadsOptional(o, d)
    ensures Decode(Obj(o)) == Ok(d.(ephemeral := None, persistent := true))
  {
  }

  lemma {:induction false} TryAllItems<A, B>(f: A -> Result<B>, items: seq<A>, outputs: seq<B>)
    requires |items| == |outputs|
    requires forall i | 0 <= i < |items| :: f(items[i]) == Ok(outputs[i])
    ensures TryAll(f, items) == Ok(outputs)
  {
    if items != [] {
      TryAllItems(f, items[1..], outputs[1..]);
      assert outputs == [outputs[0]] + outputs[1..];
    }
  }

  lemma ToJsonItems(outputs: seq<EventData>)
    ensures ToJson(outputs).Arr? && |ToJson(outputs).items| == |outputs|
    ensures forall i | 0 <= i < |outputs| :: ToJson(outputs).items[i] == Obj(Encode(Clean(outputs[i])))
  {
    forall i | 0 <= i < |outputs| ensures ToJson(outputs).items[i] == Obj(Encode(Clean(outputs[i]))) {
      SanitizeEncodes(outputs[i]);
    }
  }

  /** Loading a sealed batch gives back the batch, in order, with every string
      value free of NULs and the in-process handles dropped. */
  lemma SealedOutputsLoad(outputs: seq<EventData>)
    ensures FromJson(ToJson(outputs)) == Ok(CleanAll(outputs))
  {
    ToJsonItems(outputs);
    forall i | 0 <= i < |outputs| ensures Decode(ToJson(outputs).items[i]) == Ok(CleanAll(outputs)[i]) {
      DecodeEncode(Clean(outputs[i]));
    }
    TryAllItems(Decode, ToJson(outputs).items, CleanAll(outputs));
  }

  lemma CleanTwice(d: EventData)
    ensures Clean(Clean(d)) == Clean(d)
  {
    SanitizeTwice(d.payload);
    forall k | k in d.metadata ensures Sanitize(Sanitize(d.metadata[k])) == Sanitize(d.metadata[k]) {
      SanitizeTwice(d.metadata[k]);
    }
    assert Clean(Clean(d)).metadata == Clean(d).metadata;
  }

  /** Sealing what was loaded writes the very same JSON. */
  lemma ResealIsIdentical(outputs: seq<EventData>)
    ensures ToJson(CleanAll(outputs)) == ToJson(outputs)
  {
    ToJsonItems(outputs);
    ToJsonItems(CleanAll(outputs));
    forall i | 0 <= i < |outputs| ensures Clean(CleanAll(outputs)[i]) == Clean(outputs[i]) {
      CleanTwice(outputs[i]);
    }
    assert ToJson(CleanAll(outputs)).items == ToJson(outputs).items;
  }

  // ── The store ─────────────────────────────────────────────────────

  datatype DecisionRecord = DecisionRecord(
    consumer: string,
    trigger: Uuid,
    triggerPosition: nat,
    outputs: seq<EventData>,
    parked: bool,
    sealedAt: int)

  datatype DecisionKey = DecisionKey(consumer: string, trigger: Uuid)

  datatype StoredDecision = StoredDecision(outputs: Json, sealedAt: int, triggerPosition: nat, parked: bool)

  type Table = map<DecisionKey, StoredDecision>

  function KeyOf(rec: DecisionRecord): DecisionKey {
    DecisionKey(rec.consumer, rec.trigger)
  }

  function Row(rec: DecisionRecord): StoredDecision {
    StoredDecision(ToJson(rec.outputs), rec.sealedAt, rec.triggerPosition, rec.parked)
  }

  function Load(key: DecisionKey, row: StoredDecision): Result<DecisionRecord> {
    var outputs := FromJson(row.outputs);
    if outputs.Ok? then
      Ok(DecisionRecord(key.consumer, key.trigger, row.triggerPosition, outputs.value, row.parked, row.sealedAt))
    else Malformed
  }

  /** A record as any later reader will see it. */
  function Canonical(rec: DecisionRecord): DecisionRecord {
    rec.(outputs := CleanAll(rec.outputs))
  }

  predicate Reclaimable(row: StoredDecision, agedBefore: int, floor: nat) {
    row.sealedAt < agedBefore && row.triggerPosition <= floor && !row.parked
  }

  function Retained(table: Table, consumer: string, agedBefore: int, floor: nat): Table {
    map k | k in table && !(k.consumer == consumer && Reclaimable(table[k], agedBefore, floor)) :: table[k]
  }

  class InMemoryDecisionStore {
    var inner: Table

    constructor ()
      ensures inner == map[]
    {
      inner := map[];
    }

    /** Every row loads, and to something that seals back to itself. */
    ghost predicate Valid()
      reads this
    {
      forall k | k in inner ::
        Load(k, inner[k]).Ok? && Row(Load(k, inner[k]).value) == inner[k]
    }

    /** First write wins; the canonical record comes back either way. */
    method Seal(rec: DecisionRecord) returns (canonical: Result<DecisionRecord>)
      requires Valid()
      modifies this
      ensures Valid()
      ensures inner == if KeyOf(rec) in old(inner) then old(inner) else old(inner)[KeyOf(rec) := Row(rec)]
      ensures canonical.Ok? && canonical == Load(KeyOf(rec), inner[KeyOf(rec)])
      ensures KeyOf(rec) !in old(inner) ==> canonical.value == Canonical(rec)
      ensures KeyOf(canonical.value) == KeyOf(rec)
    {
      var key := KeyOf(rec);
      SealedOutputsLoad(rec.outputs);
      ResealIsIdentical(rec.outputs);
      if key !in inner {
        inner := inner[key := Row(rec)];
      }
      canonical := Load(key, inner[key]);
    }

    method Get(consumer: string, trigger: Uuid) returns (rec: Option<DecisionRecord>)
      requires Valid()
      ensures rec.Some? <==> DecisionKey(consumer, trigger) in inner
      ensures rec.Some? ==>
                var key := DecisionKey(consumer, trigger);
                Load(key, inner[key]) == Ok(rec.value) && Canonical(rec.value) == rec.value
    {
      var key := DecisionKey(consumer, trigger);
      if key !in inner { return None; }
      rec := Some(Load(key, inner[key]).value);
      LoadedIsCanonical(key, inner[key]);
    }

    method Remove(consumer: string, trigger: Uuid)
      requires Valid()
      modifies this
      ensures Valid() && inner == old(inner) - {DecisionKey(consumer, trigger)}
    {
      inner := inner - {DecisionKey(consumer, trigger)};
    }

    /** Retention: this consumer's aged, acked, unparked records go. */
    method RemoveReclaimable(consumer: string, agedBefore: int, floor: nat) returns (removed: nat)
      requires Valid()
      modifies this
      ensures Valid() && inner == Retained(old(inner), consumer, agedBefore, floor)
      ensures removed == |old(inner).Keys - inner.Keys|
    {
      var before := |inner|;
      ghost var was := inner;
      inner := Retained(inner, consumer, agedBefore, floor);
      RetainedCount(was, inner);
      removed := before - |inner|;
    }
  }

  lemma RetainedCount(a: Table, b: Table)
    requires b.Keys <= a.Keys
    ensures |b| <= |a| && |a| - |b| == |a.Keys - b.Keys|
  {
  }

  /** A loaded record is a fixed point of storage. */
  lemma LoadedIsCanonical(key: DecisionKey, row: StoredDecision)
    requires Load(key, row).Ok? && Row(Load(key, row).value) == row
    ensures Canonical(Load(key, row).value) == Load(key, row).value
  {
    SealedOutputsLoad(Load(key, row).value.outputs);
  }
}
