/**
 * The event contract: what an inference event is, when it can be constructed,
 * how it looks on the wire and which rows the tables accept.
 */
module Events {
  import opened Common

  type EventId = nat
  type ConvId = nat

  const EVENT_TYPE_INFERENCE := "inference.completed"
  const MAX_INT4 := 2147483647

  datatype Status = Success | Error | Cancelled

  /** The columns of one inference; timestamps and durations are integers. */
  datatype Fields = Fields(
    conversationId: Option<ConvId>,
    provider: string,
    model: string,
    status: Status,
    streamed: bool,
    startedAt: int,
    completedAt: int,
    latencyMs: Option<int>,
    ttftMs: Option<int>,
    inputTokens: Option<int>,
    outputTokens: Option<int>,
    errorType: Option<string>,
    errorMessage: Option<string>,
    finishReason: Option<string>,
    rawMetadata: Option<map<string, string>>)

  datatype InferenceEvent = InferenceEvent(id: EventId, fields: Fields)

  predicate NonNegative(n: Option<int>) {
    n.Some? ==> n.value >= 0
  }

  predicate AtMost(s: Option<string>, width: nat) {
    s.Some? ==> |s.value| <= width
  }

  /** The declared field bounds plus the two cross-field invariants of the model validator. */
  predicate Valid(f: Fields) {
    && 1 <= |f.provider| <= 64
    && 1 <= |f.model| <= 128
    && NonNegative(f.latencyMs) && NonNegative(f.ttftMs)
    && NonNegative(f.inputTokens) && NonNegative(f.outputTokens)
    && AtMost(f.errorType, 128) && AtMost(f.finishReason, 64)
    && f.startedAt <= f.completedAt
    && (f.status.Error? ==> f.errorMessage.Some? && f.errorMessage.value != "")
  }

  /** What `payload.get("id")` can turn out to be. */
  datatype IdField = NoId | NotAString | NotAUuid | Uuid(id: EventId)

  /**
   * A JSON object from the stream. `wellTyped` says that every required key is present, every
   * value parses as its declared type and no unknown key appears (`extra="forbid"`).
   */
  datatype Payload = Payload(idField: IdField, eventType: Option<string>, wellTyped: bool, fields: Fields)

  function Encode(e: InferenceEvent): Payload {
    Payload(Uuid(e.id), Some(EVENT_TYPE_INFERENCE), true, e.fields)
  }

  function ExtractId(p: Payload): Option<EventId> {
    match p.idField
    case Uuid(id) => Some(id)
    case _ => None
  }

  /** `str(payload.get("event_type", EVENT_TYPE_INFERENCE))`. */
  function EventTypeOf(p: Payload): string {
    if p.eventType.Some? then p.eventType.value else EVENT_TYPE_INFERENCE
  }

  /** `InferenceEvent.model_validate`; None is a ValidationError. */
  function Validate(p: Payload): Option<InferenceEvent> {
    if p.idField.Uuid? && p.wellTyped && EventTypeOf(p) == EVENT_TYPE_INFERENCE && Valid(p.fields)
    then Some(InferenceEvent(p.idField.id, p.fields))
    else None
  }

  /**
   * What the schema accepts: a usable id, every declared field present with a parsable value and no
   * other key, the one event type, spelled out or left out, and values within the model's bounds.
   */
  lemma ValidatesExactly(p: Payload)
    ensures Validate(p).Some? <==>
      && p.idField.Uuid? && p.wellTyped
      && (p.eventType == None || p.eventType == Some("inference.completed"))
      && Valid(p.fields)
    ensures Validate(p).Some? ==> Validate(p).value == InferenceEvent(p.idField.id, p.fields)
  {
  }

  predicate FitsInt4(n: Option<int>) {
    n.Some? ==> -MAX_INT4 - 1 <= n.value <= MAX_INT4
  }

  /** INTEGER columns are four bytes wide; the event model puts no upper bound on them. */
  predicate IntegersFit(f: Fields) {
    FitsInt4(f.latencyMs) && FitsInt4(f.ttftMs) && FitsInt4(f.inputTokens) && FitsInt4(f.outputTokens)
  }

  /** Everything `inference_logs` demands of a row apart from its foreign key: widths and CHECKs. */
  predicate RowAccepted(f: Fields) {
    && |f.provider| <= 64 && |f.model| <= 128
    && AtMost(f.errorType, 128) && AtMost(f.finishReason, 64)
    && NonNegative(f.latencyMs) && NonNegative(f.ttftMs)
    && NonNegative(f.inputTokens) && NonNegative(f.outputTokens)
    && f.completedAt >= f.startedAt
    && IntegersFit(f)
  }

  /** A producer's event survives the wire unchanged exactly when it was constructible. */
  lemma WireRoundTrip(e: InferenceEvent)
    ensures Validate(Encode(e)) == (if Valid(e.fields) then Some(e) else None)
    ensures ExtractId(Encode(e)) == Some(e.id)
    ensures EventTypeOf(Encode(e)) == EVENT_TYPE_INFERENCE
  {
  }

  /**
   * The table constraints add exactly one thing to the event contract: the integers must fit four
   * bytes. A constructible event whose counters do not fit is refused by the database alone.
   */
  lemma TableRefusesOnlyWideIntegers(f: Fields)
    requires Valid(f)
    ensures RowAccepted(f) <==> IntegersFit(f)
  {
  }
}
