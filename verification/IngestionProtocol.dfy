/**
 * The ingestion pipeline as a transition system: request handlers that record a turn, call the
 * provider and publish, a bounded stream, several workers that can stop between any two awaits, and
 * one database.
 *
 * A transaction takes effect at its commit: PostgreSQL's row locks on the raw id and on the
 * referenced conversation make that the serialisation point. The dead letter written inside a
 * transaction is visible at once and survives an abort.
 */
module IngestionProtocol {
  import opened Common
  import opened Events
  import opened Store
  import opened Broker
  import Instrumentation
  import Producer = Publishing

  type WorkerId = nat

  /** How far the head of the batch has come. */
  datatype Stage = Fresh | NoIdLettered | InTransaction | RejectionLettered | Committed

  /**
   * `Decoding` is inside `poll` (`lettered`: the head's dead letter is written, its ack is not),
   * `Handling` is the loop of `process_batch`.
   */
  datatype Phase =
    | Idle
    | Decoding(todo: seq<nat>, lettered: bool, ready: seq<nat>)
    | Handling(batch: seq<nat>, stage: Stage)

  /** What one worker can touch. */
  datatype Local = Local(redis: Redis, tables: Tables, phase: Phase)

  datatype WorkerAction =
    | CreateGroup            // ensure_group, at start or after NOGROUP
    | Fetch(count: nat)      // XREADGROUP ">"
    | Redeliver(d: nat)      // a pending entry is handed to an idle worker
    | Accept                 // the head decodes to a value
    | LetterMalformed
    | AckMalformed
    | ReturnBatch            // poll returns
    | LetterNoId
    | Begin                  // open the session, write the raw row
    | LetterInvalid
    | Commit
    | Ack
    | FinishBatch
    | Abandon                // an exception leaves process_batch, or the process dies

  function PayloadAt(r: Redis, d: nat): Option<Payload> {
    if d < |r.entries| && r.entries[d].Object? then Some(r.entries[d].payload) else None
  }

  function IdAt(r: Redis, d: nat): Option<EventId> {
    var p := PayloadAt(r, d);
    if p.Some? then ExtractId(p.value) else None
  }

  /** One await of a worker; None when the worker is not at that point. */
  function WorkerNext(l: Local, a: WorkerAction): Option<Local> {
    match a
    case CreateGroup =>
      if l.phase.Idle? then Some(l.(redis := EnsureGroup(l.redis))) else None
    case Fetch(count) =>
      if l.phase.Idle? && l.redis.group.Group? && ReadFrom(l.redis) + count <= |l.redis.entries|
      then Some(l.(redis := Read(l.redis, count),
                   phase := Decoding(Positions(ReadFrom(l.redis), count), false, [])))
      else None
    case Redeliver(d) =>
      if l.phase.Idle? && l.redis.group.Group? && d in l.redis.group.pending && d < |l.redis.entries|
      then Some(l.(phase := Decoding([d], false, [])))
      else None
    case Accept =>
      if l.phase.Decoding? && !l.phase.lettered && l.phase.todo != []
         && l.phase.todo[0] < |l.redis.entries| && !Malformed(l.redis.entries[l.phase.todo[0]])
      then Some(l.(phase := Decoding(l.phase.todo[1..], false, l.phase.ready + [l.phase.todo[0]])))
      else None
    case LetterMalformed =>
      if l.phase.Decoding? && !l.phase.lettered && l.phase.todo != []
         && l.phase.todo[0] < |l.redis.entries| && Malformed(l.redis.entries[l.phase.todo[0]])
      then Some(l.(redis := AddLetter(l.redis, l.redis.entries[l.phase.todo[0]], MalformedJson),
                   phase := l.phase.(lettered := true)))
      else None
    case AckMalformed =>
      if l.phase.Decoding? && l.phase.lettered && l.phase.todo != []
      then Some(l.(redis := XAck(l.redis, l.phase.todo[0]),
                   phase := Decoding(l.phase.todo[1..], false, l.phase.ready)))
      else None
    case ReturnBatch =>
      if l.phase.Decoding? && l.phase.todo == []
      then Some(l.(phase := Handling(l.phase.ready, Fresh)))
      else None
    case LetterNoId =>
      if l.phase.Handling? && l.phase.batch != [] && l.phase.stage.Fresh?
         && PayloadAt(l.redis, l.phase.batch[0]).Some? && IdAt(l.redis, l.phase.batch[0]).None?
      then Some(l.(redis := AddLetter(l.redis, l.redis.entries[l.phase.batch[0]], MissingOrInvalidId),
                   phase := l.phase.(stage := NoIdLettered)))
      else None
    case Begin =>
      if l.phase.Handling? && l.phase.batch != [] && l.phase.stage.Fresh?
         && IdAt(l.redis, l.phase.batch[0]).Some?
      then Some(l.(phase := l.phase.(stage := InTransaction)))
      else None
    case LetterInvalid =>
      if l.phase.Handling? && l.phase.batch != [] && l.phase.stage.InTransaction?
         && PayloadAt(l.redis, l.phase.batch[0]).Some?
         && Validate(PayloadAt(l.redis, l.phase.batch[0]).value).None?
      then Some(l.(redis := AddLetter(l.redis, l.redis.entries[l.phase.batch[0]], SchemaValidationFailed),
                   phase := l.phase.(stage := RejectionLettered)))
      else None
    case Commit =>
      if l.phase.Handling? && l.phase.batch != [] && IdAt(l.redis, l.phase.batch[0]).Some?
      then
        var p := PayloadAt(l.redis, l.phase.batch[0]).value;
        var landed := Land(l.tables, ExtractId(p).value, p);
        if landed.Some? && l.phase.stage == (if Validate(p).Some? then InTransaction else RejectionLettered)
        then Some(l.(tables := landed.value, phase := l.phase.(stage := Committed)))
        else None
      else None
    case Ack =>
      if l.phase.Handling? && l.phase.batch != [] && (l.phase.stage.NoIdLettered? || l.phase.stage.Committed?)
      then Some(l.(redis := XAck(l.redis, l.phase.batch[0]), phase := Handling(l.phase.batch[1..], Fresh)))
      else None
    case FinishBatch =>
      if l.phase.Handling? && l.phase.batch == [] then Some(l.(phase := Idle)) else None
    case Abandon =>
      Some(l.(phase := Idle))
  }

  /** A worker's actions in a row. */
  function WorkerRun(l: Local, actions: seq<WorkerAction>): Option<Local>
    decreases |actions|
  {
    if actions == [] then Some(l)
    else
      var next := WorkerNext(l, actions[0]);
      if next.None? then None else WorkerRun(next.value, actions[1..])
  }

  type TurnId = Producer.CallId

  /** How far a request handler has come, up to the provider call. */
  datatype Turn =
    | Recording(c: ConvId, creates: bool) // in the first transaction; `creates`: it makes the conversation
    | TurnCommitted(c: ConvId)            // that transaction has committed
    | Called(c: ConvId)                   // the provider has been called
    | NotRecorded                         // that transaction raised, and the turn is over

  /**
   * `created` and `deleted` are the conversations committed and removed so far; `calls` holds each
   * turn's instrumented provider call, from its start on.
   */
  datatype State = State(
    redis: Redis,
    tables: Tables,
    created: set<ConvId>,
    deleted: set<ConvId>,
    turns: map<TurnId, Turn>,
    calls: Producer.State,
    workers: map<WorkerId, Phase>)

  datatype Label =
    | CreateInTurn(t: TurnId, c: ConvId)         // open the first transaction, creating a conversation
    | RequireInTurn(t: TurnId, c: ConvId)        // open it on an existing one, or find there is none
    | CommitTurn(t: TurnId)
    | AbortTurn(t: TurnId)
    | DeleteConversation(c: ConvId)
    | StartCall(t: TurnId, id: EventId, provider: string, model: string, streamed: bool)
    | Produce(step: Producer.Label, first: nat)  // any further stretch of a call's code
    | ForeignPublish(wire: Wire, first: nat)     // anything else that writes to the stream
    | LoseStream
    | LoseGroup
    | StartWorker(w: WorkerId)
    | Work(w: WorkerId, action: WorkerAction)

  function Init(): State {
    State(Redis([], 0, NoGroup, {}, []), Tables(map[], map[], {}), {}, {}, map[], Producer.Init(), map[])
  }

  /** `uuid4()` does not repeat itself. */
  predicate FreshConversation(s: State, c: ConvId) {
    c !in s.created && forall t :: t in s.turns && s.turns[t].Recording? ==> s.turns[t].c != c
  }

  /** The first transaction's commit; appending to a conversation deleted meanwhile breaks the foreign key. */
  function AfterTurnCommit(s: State, t: TurnId): State
    requires t in s.turns && s.turns[t].Recording?
  {
    var c := s.turns[t].c;
    if s.turns[t].creates then
      s.(created := s.created + {c}, turns := s.turns[t := TurnCommitted(c)],
         tables := s.tables.(conversations := s.tables.conversations + {c}))
    else if c in s.tables.conversations then s.(turns := s.turns[t := TurnCommitted(c)])
    else s.(turns := s.turns[t := NotRecorded])
  }

  /** What a step of a call puts on the stream: its event, when the publish lands. */
  function Landing(calls: Producer.State, l: Producer.Label): Option<InferenceEvent> {
    if l.PublishFinishes? && l.landed && l.c in calls.flights && calls.flights[l.c].ended.Some?
    then Some(Producer.EventOf(calls.flights[l.c])) else None
  }

  function Next(s: State, maxlen: nat, l: Label): Option<State> {
    match l
    case CreateInTurn(t, c) =>
      if t in s.turns || !FreshConversation(s, c) then None
      else Some(s.(turns := s.turns[t := Recording(c, true)]))
    case RequireInTurn(t, c) =>
      if t in s.turns then None
      else Some(s.(turns := s.turns[t := if c in s.tables.conversations then Recording(c, false) else NotRecorded]))
    case CommitTurn(t) =>
      if t !in s.turns || !s.turns[t].Recording? then None else Some(AfterTurnCommit(s, t))
    case AbortTurn(t) =>
      if t !in s.turns || !s.turns[t].Recording? then None else Some(s.(turns := s.turns[t := NotRecorded]))
    case DeleteConversation(c) =>
      if c !in s.tables.conversations then None
      else Some(s.(deleted := s.deleted + {c}, tables := AfterDelete(s.tables, c)))
    case StartCall(t, id, provider, model, streamed) =>
      if t !in s.turns || !s.turns[t].TurnCommitted? then None
      else
        var c := s.turns[t].c;
        var ctx := Instrumentation.Context(id, Some(c), provider, model, streamed);
        var next := Producer.Next(s.calls, Producer.Start(t, ctx));
        if next.None? then None else Some(s.(turns := s.turns[t := Called(c)], calls := next.value))
    case Produce(step, first) =>
      if step.Start? then None
      else
        var next := Producer.Next(s.calls, step);
        if next.None? then None
        else if Landing(s.calls, step).None? then Some(s.(calls := next.value))
        else if !TrimAllowed(s.redis, maxlen, first) then None
        else Some(s.(calls := next.value,
                     redis := XAdd(s.redis, Object(Encode(Landing(s.calls, step).value)), first)))
    case ForeignPublish(wire, first) =>
      if !TrimAllowed(s.redis, maxlen, first) then None else Some(s.(redis := XAdd(s.redis, wire, first)))
    case LoseStream => Some(s.(redis := DropStream(s.redis)))
    case LoseGroup => Some(s.(redis := DropGroup(s.redis)))
    case StartWorker(w) =>
      if w in s.workers then None else Some(s.(workers := s.workers[w := Idle]))
    case Work(w, a) =>
      if w !in s.workers then None
      else
        var next := WorkerNext(Local(s.redis, s.tables, s.workers[w]), a);
        if next.None? then None
        else Some(s.(redis := next.value.redis, tables := next.value.tables,
                     workers := s.workers[w := next.value.phase]))
  }

  /** A whole run; None when some label was not possible where it stands. */
  function Run(s: State, maxlen: nat, labels: seq<Label>): Option<State>
    decreases |labels|
  {
    if labels == [] then Some(s)
    else
      var next := Next(s, maxlen, labels[0]);
      if next.None? then None else Run(next.value, maxlen, labels[1..])
  }
}
