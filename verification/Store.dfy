/**
 * The observability tables, the repositories that write them, and the unit of work.
 *
 * `Land` is the meaning of one worker transaction; `Session`, `RawEventRepository` and
 * `InferenceLogRepository` are the step-by-step code proved against it.
 */
module Store {
  import opened Common
  import opened Events

  datatype ProcessingStatus = Pending | Processed | Failed

  datatype RawRow = RawRow(eventType: string, payload: Payload, status: ProcessingStatus)

  /** `events_raw`, `inference_logs` and the primary keys of `conversations`. */
  datatype Tables = Tables(
    raws: map<EventId, RawRow>,
    logs: map<EventId, Fields>,
    conversations: set<ConvId>)

  const EVENT_TYPE_WIDTH := 64

  predicate ForeignKeyHolds(t: Tables, f: Fields) {
    f.conversationId.Some? ==> f.conversationId.value in t.conversations
  }

  function AfterRecord(t: Tables, id: EventId, p: Payload): Tables {
    if id in t.raws then t else t.(raws := t.raws[id := RawRow(EventTypeOf(p), p, Pending)])
  }

  function AfterMark(t: Tables, id: EventId, status: ProcessingStatus): Tables {
    if id in t.raws then t.(raws := t.raws[id := t.raws[id].(status := status)]) else t
  }

  function AfterUpsert(t: Tables, e: InferenceEvent): Tables {
    if e.id in t.logs then t else t.(logs := t.logs[e.id := e.fields])
  }

  /** The insert raises: a value does not fit its column, or a new row names a missing conversation. */
  predicate UpsertRaises(t: Tables, e: InferenceEvent) {
    !RowAccepted(e.fields) || (e.id !in t.logs && !ForeignKeyHolds(t, e.fields))
  }

  /** The whole transaction for one payload with a usable id; None when a statement raises. */
  function Land(t: Tables, id: EventId, p: Payload): Option<Tables> {
    if |EventTypeOf(p)| > EVENT_TYPE_WIDTH then None
    else
      match Validate(p)
      case None => Some(AfterMark(AfterRecord(t, id, p), id, Failed))
      case Some(e) =>
        if UpsertRaises(t, e) then None
        else Some(AfterMark(AfterUpsert(AfterRecord(t, id, p), e), id, Processed))
  }

  /** ON DELETE SET NULL on the log's conversation. */
  function NullIfDead(f: Fields, live: set<ConvId>): Fields {
    if f.conversationId.Some? && f.conversationId.value !in live then f.(conversationId := None) else f
  }

  function AfterDelete(t: Tables, c: ConvId): Tables {
    var live := t.conversations - {c};
    Tables(t.raws, map id | id in t.logs :: NullIfDead(t.logs[id], live), live)
  }

  /**
   * Deleting a conversation removes it, and from the log rows that named it nothing but that name: no
   * latency, no token count, no other row.
   */
  lemma DeleteForgetsOnlyTheName(t: Tables, c: ConvId, id: EventId)
    requires id in t.logs && ForeignKeyHolds(t, t.logs[id])
    ensures var n := AfterDelete(t, c);
      && n.raws == t.raws && n.conversations == t.conversations - {c} && n.logs.Keys == t.logs.Keys
      && n.logs[id].(conversationId := t.logs[id].conversationId) == t.logs[id]
      && n.logs[id].conversationId == (if t.logs[id].conversationId == Some(c) then None else t.logs[id].conversationId)
  {
  }

  /** A transaction's view of the tables: its own writes over what was committed. */
  class Session {
    var tables: Tables

    constructor (committed: Tables)
      ensures tables == committed
    {
      tables := committed;
    }
  }

  class RawEventRepository {
    const session: Session

    constructor (session: Session)
      ensures this.session == session
    {
      this.session := session;
    }

    /** INSERT .. ON CONFLICT DO NOTHING; raises when the event type is wider than its column. */
    method Record(id: EventId, eventType: string, payload: Payload) returns (r: Result<bool>)
      requires eventType == EventTypeOf(payload)
      modifies session
      ensures r.Raised? <==> |eventType| > EVENT_TYPE_WIDTH
      ensures r.Raised? ==> session.tables == old(session.tables)
      ensures r.Ok? ==> session.tables == AfterRecord(old(session.tables), id, payload)
      ensures r.Ok? ==> (r.value <==> id !in old(session.tables.raws))
    {
      if |eventType| > EVENT_TYPE_WIDTH {
        return Raised;
      }
      if id in session.tables.raws {
        return Ok(false);
      }
      session.tables := session.tables.(raws := session.tables.raws[id := RawRow(eventType, payload, Pending)]);
      return Ok(true);
    }

    method MarkProcessed(id: EventId)
      modifies session
      ensures session.tables == AfterMark(old(session.tables), id, Processed)
    {
      if id in session.tables.raws {
        var row := session.tables.raws[id];
        session.tables := session.tables.(raws := session.tables.raws[id := row.(status := Processed)]);
      }
    }

    method MarkFailed(id: EventId)
      modifies session
      ensures session.tables == AfterMark(old(session.tables), id, Failed)
    {
      if id in session.tables.raws {
        var row := session.tables.raws[id];
        session.tables := session.tables.(raws := session.tables.raws[id := row.(status := Failed)]);
      }
    }
  }

  class InferenceLogRepository {
    const session: Session

    constructor (session: Session)
      ensures this.session == session
    {
      this.session := session;
    }

    /** INSERT .. ON CONFLICT DO NOTHING; true when a row was inserted. */
    method Upsert(event: InferenceEvent) returns (r: Result<bool>)
      modifies session
      ensures r.Raised? <==> UpsertRaises(old(session.tables), event)
      ensures r.Raised? ==> session.tables == old(session.tables)
      ensures r.Ok? ==> session.tables == AfterUpsert(old(session.tables), event)
      ensures r.Ok? ==> (r.value <==> event.id !in old(session.tables.logs))
    {
      if !RowAccepted(event.fields) {
        return Raised;
      }
      if event.id in session.tables.logs {
        return Ok(false);
      }
      if !ForeignKeyHolds(session.tables, event.fields) {
        return Raised;
      }
      session.tables := session.tables.(logs := session.tables.logs[event.id := event.fields]);
      return Ok(true);
    }
  }

  /** The raw row that a committed transaction leaves: the first payload landed, the latest verdict. */
  function LandedRaw(t: Tables, id: EventId, p: Payload): RawRow {
    var status := if Validate(p).Some? then Processed else Failed;
    if id in t.raws then t.raws[id].(status := status) else RawRow(EventTypeOf(p), p, status)
  }

  /** One raw row written, at most one log row added, conversations untouched. */
  function Landed(t: Tables, id: EventId, p: Payload): Tables {
    Tables(
      t.raws[id := LandedRaw(t, id, p)],
      if Validate(p).Some? && id !in t.logs then t.logs[id := p.fields] else t.logs,
      t.conversations)
  }

  /** The statements of a transaction that commits amount to exactly that. */
  lemma LandShape(t: Tables, id: EventId, p: Payload)
    requires ExtractId(p) == Some(id)
    requires Land(t, id, p).Some?
    ensures Land(t, id, p).value == Landed(t, id, p)
  {
  }

  /** A transaction aborts exactly when a value is too wide or a new row names a missing conversation. */
  lemma LandAborts(t: Tables, id: EventId, p: Payload)
    requires ExtractId(p) == Some(id)
    ensures Land(t, id, p).None? <==>
      || |EventTypeOf(p)| > EVENT_TYPE_WIDTH
      || (Validate(p).Some? && !IntegersFit(p.fields))
      || (Validate(p).Some? && id !in t.logs && !ForeignKeyHolds(t, p.fields))
  {
  }

  predicate TooWide(n: Option<int>) {
    n.Some? && n.value > 2147483647
  }

  /** When a worker's transaction fails, in the payload's own terms. */
  lemma TransactionFailsExactly(t: Tables, id: EventId, p: Payload)
    requires p.idField == Uuid(id)
    ensures Land(t, id, p).None? <==>
      || (p.eventType.Some? && |p.eventType.value| > 64)
      || (&& p.wellTyped && p.eventType in {None, Some("inference.completed")} && Valid(p.fields)
          && (|| TooWide(p.fields.latencyMs) || TooWide(p.fields.ttftMs)
              || TooWide(p.fields.inputTokens) || TooWide(p.fields.outputTokens)
              || (id !in t.logs && p.fields.conversationId.Some? && p.fields.conversationId.value !in t.conversations)))
  {
    ValidatesExactly(p);
    LandAborts(t, id, p);
  }

  /** Handling the same payload again changes nothing: redelivery is absorbed. */
  lemma LandIsIdempotent(t: Tables, id: EventId, p: Payload)
    requires ExtractId(p) == Some(id)
    requires Land(t, id, p).Some?
    ensures Land(Land(t, id, p).value, id, p) == Land(t, id, p)
  {
    LandAborts(t, id, p);
    LandShape(t, id, p);
    var once := Landed(t, id, p);
    LandAborts(once, id, p);
    LandShape(once, id, p);
    assert Landed(once, id, p) == once;
  }

  lemma RawRowIsLocal(t: Tables, a: EventId, p: Payload, b: EventId, q: Payload)
    requires a != b
    ensures LandedRaw(Landed(t, a, p), b, q) == LandedRaw(t, b, q)
  {
  }

  lemma LogRowsCommute(t: Tables, a: EventId, p: Payload, b: EventId, q: Payload)
    requires a != b
    ensures Landed(Landed(t, a, p), b, q).logs == Landed(Landed(t, b, q), a, p).logs
  {
  }

  lemma LandedCommutes(t: Tables, a: EventId, p: Payload, b: EventId, q: Payload)
    requires a != b
    ensures Landed(Landed(t, a, p), b, q) == Landed(Landed(t, b, q), a, p)
  {
    RawRowIsLocal(t, a, p, b, q);
    RawRowIsLocal(t, b, q, a, p);
    LogRowsCommute(t, a, p, b, q);
    var x, y := LandedRaw(t, a, p), LandedRaw(t, b, q);
    assert t.raws[a := x][b := y] == t.raws[b := y][a := x];
  }

  /** Two payloads with different ids land in either order with the same result. */
  lemma LandCommutes(t: Tables, a: EventId, p: Payload, b: EventId, q: Payload)
    requires a != b && ExtractId(p) == Some(a) && ExtractId(q) == Some(b)
    requires Land(t, a, p).Some? && Land(t, b, q).Some?
    ensures Land(Land(t, a, p).value, b, q).Some?
    ensures Land(Land(t, a, p).value, b, q) == Land(Land(t, b, q).value, a, p)
  {
    LandAborts(t, a, p);
    LandAborts(t, b, q);
    LandShape(t, a, p);
    LandShape(t, b, q);
    var first, second := Landed(t, a, p), Landed(t, b, q);
    LandAborts(first, b, q);
    LandAborts(second, a, p);
    LandShape(first, b, q);
    LandShape(second, a, p);
    LandedCommutes(t, a, p, b, q);
  }
}
