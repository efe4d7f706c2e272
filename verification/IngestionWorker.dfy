/**
 * The worker as it is written: `poll` decodes entry by entry, `process_batch` loops over what it
 * returned, `_handle` runs one transaction and acknowledges last. Each method is proved to be a run
 * of the transition system in which only this worker moves.
 *
 * `Network` is the environment: it decides how many more awaits succeed. The await after the last
 * one raises, which also stands for the process dying there.
 */
module IngestionWorker {
  import opened Common
  import opened Events
  import opened Store
  import opened Broker
  import opened IngestionProtocol

  class Network {
    var luck: nat
    var failed: bool

    constructor (luck: nat)
      ensures this.luck == luck && !failed
    {
      this.luck, failed := luck, false;
    }

    method Await() returns (ok: bool)
      modifies this
      ensures ok <==> old(luck) > 0
      ensures ok ==> luck == old(luck) - 1 && failed == old(failed)
      ensures !ok ==> luck == 0 && failed
    {
      ok := luck > 0;
      if ok {
        luck := luck - 1;
      } else {
        failed := true;
      }
    }
  }

  datatype DeliveredEvent = DeliveredEvent(deliveryId: nat, payload: Wire)

  lemma {:induction false} WorkerRunConcat(l: Local, xs: seq<WorkerAction>, ys: seq<WorkerAction>)
    requires WorkerRun(l, xs).Some?
    ensures WorkerRun(l, xs + ys) == WorkerRun(WorkerRun(l, xs).value, ys)
    decreases |xs|
  {
    if xs == [] {
      assert xs + ys == ys;
    } else {
      assert (xs + ys)[1..] == xs[1..] + ys;
      WorkerRunConcat(WorkerNext(l, xs[0]).value, xs[1..], ys);
    }
  }

  /** One more await at the end of a run. */
  lemma WorkerRunSnoc(l: Local, xs: seq<WorkerAction>, a: WorkerAction)
    requires WorkerRun(l, xs).Some?
    ensures WorkerRun(l, xs + [a]) == WorkerNext(WorkerRun(l, xs).value, a)
  {
    WorkerRunConcat(l, xs, [a]);
    var m := WorkerRun(l, xs).value;
    if WorkerNext(m, a).Some? {
      assert WorkerRun(m, [a]) == WorkerRun(WorkerNext(m, a).value, []);
    }
  }

  /** One entry: a malformed one is lettered and then acknowledged. */
  function AfterDecode(r: Redis, d: nat): Redis {
    if d < |r.entries| && Malformed(r.entries[d])
    then XAck(AddLetter(r, r.entries[d], MalformedJson), d)
    else r
  }

  /** The broker after `poll` has decoded `todo` in turn. */
  function AfterDecoding(r: Redis, todo: seq<nat>): Redis
    decreases |todo|
  {
    if todo == [] then r else AfterDecoding(AfterDecode(r, todo[0]), todo[1..])
  }

  /** The deliveries among `todo` that decode, in order. */
  function Decoded(entries: seq<Wire>, todo: seq<nat>): seq<nat> {
    if todo == [] then []
    else if todo[0] < |entries| && !Malformed(entries[todo[0]]) then [todo[0]] + Decoded(entries, todo[1..])
    else Decoded(entries, todo[1..])
  }

  /** Moving the head of `todo` into `ready`, if it decodes, changes neither what the loop returns nor what it does to the broker. */
  lemma DecodingStep(r: Redis, ready: seq<nat>, todo: seq<nat>)
    requires todo != []
    ensures AfterDecoding(r, todo) == AfterDecoding(AfterDecode(r, todo[0]), todo[1..])
    ensures (if todo[0] < |r.entries| && !Malformed(r.entries[todo[0]]) then ready + [todo[0]] else ready) + Decoded(r.entries, todo[1..])
         == ready + Decoded(r.entries, todo)
  {
    if todo[0] < |r.entries| && !Malformed(r.entries[todo[0]]) {
      MovesOver(ready, todo[0], Decoded(r.entries, todo[1..]));
    }
  }

  lemma MovesOver(xs: seq<nat>, x: nat, ys: seq<nat>)
    ensures (xs + [x]) + ys == xs + ([x] + ys)
  {
  }

  lemma GenuineSnoc(entries: seq<Wire>, items: seq<DeliveredEvent>, item: DeliveredEvent)
    requires Genuine(entries, items) && Genuine(entries, [item])
    ensures Genuine(entries, items + [item])
    ensures Ids(items + [item]) == Ids(items) + [item.deliveryId]
  {
    assert item == [item][0];
  }

  function Ids(items: seq<DeliveredEvent>): (ids: seq<nat>)
    ensures |ids| == |items|
    ensures forall k :: 0 <= k < |items| ==> ids[k] == items[k].deliveryId
  {
    seq(|items|, k requires 0 <= k < |items| => items[k].deliveryId)
  }

  function Min(a: nat, b: nat): nat {
    if a < b then a else b
  }

  /**
   * `taken` are the next entries: consecutive, from the first one neither offered before nor trimmed
   * away, as many as asked for or all there are. So a backlog always yields something.
   */
  predicate Takes(cursor: nat, first: nat, length: nat, count: nat, taken: seq<nat>) {
    && |taken| <= count
    && (forall k :: 0 <= k < |taken| ==> taken[k] == taken[0] + k)
    && (taken != [] ==> taken[0] >= cursor && taken[0] >= first && (taken[0] == cursor || taken[0] == first))
    && (|taken| < count ==> (forall d :: d >= cursor && d >= first && d < length ==> d in taken))
    && (forall k :: 0 <= k < |taken| ==> taken[k] < length)
  }

  /** How many entries XREADGROUP ">" COUNT count returns. */
  function Offered(r: Redis, count: nat): nat
    requires r.group.Group?
  {
    if ReadFrom(r) < |r.entries| then Min(count, |r.entries| - ReadFrom(r)) else 0
  }

  lemma OfferedTakes(r: Redis, count: nat)
    requires r.group.Group?
    ensures Takes(r.group.cursor, r.first, |r.entries|, count, Positions(ReadFrom(r), Offered(r, count)))
  {
    var from, n := ReadFrom(r), Offered(r, count);
    var taken := Positions(from, n);
    if n < count {
      forall d | d >= r.group.cursor && d >= r.first && d < |r.entries| ensures d in taken {
        assert taken[d - from] == d;
      }
    }
  }

  class RedisEventStream {
    var entries: seq<Wire>
    var first: nat
    var group: Group
    var acks: set<nat>
    var letters: seq<DeadLetter>
    const network: Network

    constructor (network: Network)
      ensures this.network == network
      ensures Contents() == Redis([], 0, NoGroup, {}, [])
    {
      this.network := network;
      entries, first, group, acks, letters := [], 0, NoGroup, {}, [];
    }

    function Contents(): Redis
      reads this
    {
      Redis(entries, first, group, acks, letters)
    }

    /** XGROUP CREATE; the BUSYGROUP error is swallowed. */
    method EnsureGroup() returns (ok: bool)
      modifies this, network
      ensures ok ==> Contents() == Broker.EnsureGroup(old(Contents()))
      ensures !ok ==> Contents() == old(Contents()) && network.failed
    {
      ok := network.Await();
      if ok && group.NoGroup? {
        group := Group(0, {}, {});
      }
    }

    method Ack(deliveryId: nat) returns (ok: bool)
      modifies this, network
      ensures ok <==> old(network.luck) > 0
      ensures ok ==> Contents() == XAck(old(Contents()), deliveryId) && network.luck == old(network.luck) - 1
      ensures !ok ==> Contents() == old(Contents()) && network.failed
    {
      ok := network.Await();
      if ok {
        acks := acks + {deliveryId};
        if group.Group? && deliveryId in group.pending {
          group := group.(pending := group.pending - {deliveryId}, acked := group.acked + {deliveryId});
        }
      }
    }

    method SendLetter(payload: Wire, reason: Reason) returns (ok: bool)
      modifies this, network
      ensures ok <==> old(network.luck) > 0
      ensures ok ==> Contents() == AddLetter(old(Contents()), payload, reason) && network.luck == old(network.luck) - 1
      ensures !ok ==> Contents() == old(Contents()) && network.failed
    {
      ok := network.Await();
      if ok {
        letters := letters + [DeadLetter(payload, reason)];
      }
    }

    /** XREADGROUP ">" COUNT count on an existing group: the positions returned. */
    method ReadGroup(count: nat) returns (r: Result<seq<nat>>)
      requires group.Group?
      modifies this, network
      ensures r.Ok? ==> r.value == Positions(ReadFrom(old(Contents())), Offered(old(Contents()), count))
                        && Contents() == Read(old(Contents()), |r.value|)
      ensures r.Ok? ==> Takes(old(group).cursor, old(first), |entries|, count, r.value)
      ensures r.Raised? ==> Contents() == old(Contents()) && network.failed
    {
      var up := network.Await();
      if !up {
        return Raised;
      }
      var from := if group.cursor < first then first else group.cursor;
      OfferedTakes(Contents(), count);
      var n := Offered(Contents(), count);
      var response := Positions(from, n);
      group := group.(cursor := from + n, pending := group.pending + set d | d in response);
      return Ok(response);
    }

    /** One turn of the decode loop: a value joins the batch, anything else is lettered, then acknowledged. */
    method Decode(deliveryId: nat, ghost tables: Tables, ghost rest: seq<nat>, ghost ready: seq<nat>)
      returns (r: Result<Option<DeliveredEvent>>, ghost trace: seq<WorkerAction>)
      requires deliveryId < |entries|
      modifies this, network
      ensures entries == old(entries)
      ensures r.Ok? ==> Contents() == AfterDecode(old(Contents()), deliveryId)
      ensures r.Ok? ==> r.value == if Malformed(entries[deliveryId]) then None
                                   else Some(DeliveredEvent(deliveryId, entries[deliveryId]))
      ensures r.Raised? ==> network.failed
      ensures WorkerRun(Local(old(Contents()), tables, Decoding([deliveryId] + rest, false, ready)), trace)
           == Some(Local(Contents(), tables,
                if r.Raised? then Idle else Decoding(rest, false, if r.value.Some? then ready + [deliveryId] else ready)))
    {
      ghost var start := Local(Contents(), tables, Decoding([deliveryId] + rest, false, ready));
      assert ([deliveryId] + rest)[1..] == rest;
      trace := [];
      var fields := entries[deliveryId];
      if !Malformed(fields) {
        WorkerRunSnoc(start, [], Accept);
        return Ok(Some(DeliveredEvent(deliveryId, fields))), [Accept];
      }
      var ok := SendLetter(fields, MalformedJson);
      if ok {
        WorkerRunSnoc(start, [], LetterMalformed);
        trace := [LetterMalformed];
        ok := Ack(deliveryId);
      }
      if !ok {
        WorkerRunSnoc(start, trace, Abandon);
        return Raised, trace + [Abandon];
      }
      WorkerRunSnoc(start, trace, AckMalformed);
      return Ok(None), trace + [AckMalformed];
    }

    /**
     * Up to `count` new entries, decoded. When the group has vanished it is recreated and nothing is
     * returned; a malformed entry is lettered and acknowledged before the next one is looked at.
     */
    method Poll(count: nat, ghost tables: Tables) returns (r: Result<seq<DeliveredEvent>>, ghost trace: seq<WorkerAction>)
      requires Bounded(Contents())
      modifies this, network
      ensures entries == old(entries)
      ensures WorkerRun(Local(old(Contents()), tables, Idle), trace)
           == Some(Local(Contents(), tables, if r.Ok? && old(group).Group? then Handling(Ids(r.value), Fresh) else Idle))
      ensures r.Raised? ==> network.failed
      ensures r.Ok? && old(group).NoGroup? ==> r.value == [] && Contents() == Broker.EnsureGroup(old(Contents()))
      ensures r.Ok? && old(group).Group? ==>
        var todo := Positions(ReadFrom(old(Contents())), Offered(old(Contents()), count));
        && Contents() == AfterDecoding(Read(old(Contents()), |todo|), todo)
        && Ids(r.value) == Decoded(entries, todo)
      ensures r.Ok? ==> Genuine(entries, r.value)
      ensures r.Ok? && old(group).Group? ==>
        var from := if old(group).cursor < old(first) then old(first) else old(group).cursor;
        && group.Group? && from <= group.cursor <= from + count
        && (group.cursor == from + count || group.cursor == |entries|)
    {
      ghost var start := Local(Contents(), tables, Idle);
      trace := [];
      if group.NoGroup? {
        // NOGROUP
        var ok := EnsureGroup();
        if !ok {
          return Raised, [];
        }
        WorkerRunSnoc(start, [], CreateGroup);
        return Ok([]), [CreateGroup];
      }
      var response := ReadGroup(count);
      if response.Raised? {
        return Raised, [];
      }
      var todo := response.value;
      DecodingKeepsCursor(Contents(), todo);
      trace := [Fetch(|todo|)];
      WorkerRunSnoc(start, [], Fetch(|todo|));
      ghost var more;
      r, more := DecodeAll(todo, tables);
      WorkerRunConcat(start, trace, more);
      return r, trace + more;
    }

    /** The loop of `poll` over the entries of one reply. */
    method DecodeAll(response: seq<nat>, ghost tables: Tables) returns (r: Result<seq<DeliveredEvent>>, ghost trace: seq<WorkerAction>)
      requires forall k :: 0 <= k < |response| ==> response[k] < |entries|
      modifies this, network
      ensures entries == old(entries)
      ensures WorkerRun(Local(old(Contents()), tables, Decoding(response, false, [])), trace)
           == Some(Local(Contents(), tables, if r.Ok? then Handling(Ids(r.value), Fresh) else Idle))
      ensures r.Raised? ==> network.failed
      ensures r.Ok? ==> Contents() == AfterDecoding(old(Contents()), response)
      ensures r.Ok? ==> Ids(r.value) == Decoded(entries, response) && Genuine(entries, r.value)
    {
      ghost var start := Local(Contents(), tables, Decoding(response, false, []));
      ghost var todo, ids: seq<nat>, here := response, [], start;
      var delivered: seq<DeliveredEvent> := [];
      trace := [];
      var i := 0;
      while i < |response|
        invariant 0 <= i <= |response| && entries == old(entries)
        invariant todo == response[i..] && ids == Ids(delivered)
        invariant here == Local(Contents(), tables, Decoding(todo, false, ids))
        invariant WorkerRun(start, trace) == Some(here)
        invariant AfterDecoding(start.redis, response) == AfterDecoding(here.redis, todo)
        invariant ids + Decoded(entries, todo) == Decoded(entries, response)
        invariant Genuine(entries, delivered)
      {
        DecodingStep(here.redis, ids, todo);
        assert todo == [response[i]] + todo[1..];
        ghost var more;
        var item;
        item, more := Decode(response[i], tables, todo[1..], ids);
        WorkerRunConcat(start, trace, more);
        trace := trace + more;
        if item.Raised? {
          return Raised, trace;
        }
        if item.value.Some? {
          GenuineSnoc(entries, delivered, item.value.value);
          delivered := delivered + [item.value.value];
          ids := ids + [todo[0]];
        }
        todo := todo[1..];
        here := Local(Contents(), tables, Decoding(todo, false, ids));
        i := i + 1;
      }
      WorkerRunSnoc(start, trace, ReturnBatch);
      return Ok(delivered), trace + [ReturnBatch];
    }
  }

  predicate Bounded(r: Redis) {
    r.first <= |r.entries| && (r.group.Group? ==> r.group.cursor <= |r.entries|)
  }

  lemma {:induction false} WorkerRunKeepsBounded(l: Local, actions: seq<WorkerAction>)
    requires Bounded(l.redis) && WorkerRun(l, actions).Some?
    ensures Bounded(WorkerRun(l, actions).value.redis)
    decreases |actions|
  {
    if actions != [] {
      WorkerNextKeepsBounded(l, actions[0]);
      WorkerRunKeepsBounded(WorkerNext(l, actions[0]).value, actions[1..]);
    }
  }

  lemma WorkerNextKeepsBounded(l: Local, a: WorkerAction)
    requires Bounded(l.redis) && WorkerNext(l, a).Some?
    ensures Bounded(WorkerNext(l, a).value.redis)
  {
  }

  /** Every delivered event is the decoded entry of its delivery id. */
  predicate Genuine(entries: seq<Wire>, items: seq<DeliveredEvent>) {
    forall k :: 0 <= k < |items| ==>
      && items[k].deliveryId < |entries|
      && items[k].payload == entries[items[k].deliveryId]
      && !Malformed(items[k].payload)
  }

  /** `Database.session()`: hands out a view and either commits it or leaves the tables alone. */
  class Database {
    var tables: Tables

    constructor ()
      ensures tables == Tables(map[], map[], {})
    {
      tables := Tables(map[], map[], {});
    }

    method Open() returns (session: Session)
      ensures fresh(session) && session.tables == tables
    {
      session := new Session(tables);
    }

    method Commit(session: Session)
      modifies this
      ensures tables == session.tables
    {
      tables := session.tables;
    }
  }

  /** Per-batch counters. */
  class BatchOutcome {
    var received: nat
    var inserted: nat
    var duplicates: nat
    var rejected: nat

    constructor ()
      ensures received == 0 && inserted == 0 && duplicates == 0 && rejected == 0
    {
      received, inserted, duplicates, rejected := 0, 0, 0, 0;
    }

    function Counts(): Counts
      reads this
    {
      Counters(received, inserted, duplicates, rejected)
    }
  }

  datatype Counts = Counters(received: nat, inserted: nat, duplicates: nat, rejected: nat)

  /** Which counter one handled payload moves, against the tables it met. */
  function Tally(c: Counts, t: Tables, w: Wire): Counts {
    if w.Object? && Validate(w.payload).Some? then
      if Validate(w.payload).value.id in t.logs then c.(duplicates := c.duplicates + 1) else c.(inserted := c.inserted + 1)
    else c.(rejected := c.rejected + 1)
  }

  /** The payload can never be handled against these tables: it is not an object, or its transaction aborts. */
  predicate Poison(t: Tables, w: Wire) {
    || w.NonObject?
    || (w.Object? && ExtractId(w.payload).Some? && Land(t, ExtractId(w.payload).value, w.payload).None?)
  }

  predicate HasPoison(t: Tables, entries: seq<Wire>, todo: seq<nat>) {
    exists k :: 0 <= k < |todo| && todo[k] < |entries| && Poison(t, entries[todo[k]])
  }

  /** The awaits that handling one payload takes. */
  function Awaits(w: Wire): nat {
    if w.Object? && ExtractId(w.payload).Some? then 5 else 2
  }

  /** The tables after one delivery has been handled. */
  function AfterHandling(t: Tables, w: Wire): Tables {
    if w.Object? && ExtractId(w.payload).Some? && !Poison(t, w)
    then Land(t, ExtractId(w.payload).value, w.payload).value else t
  }

  class IngestionWorker {
    const stream: RedisEventStream
    const database: Database
    const network: Network
    const batchSize: nat

    constructor (stream: RedisEventStream, database: Database, batchSize: nat)
      ensures this.stream == stream && this.database == database && this.network == stream.network
      ensures this.batchSize == batchSize
    {
      this.stream, this.database, this.network, this.batchSize := stream, database, stream.network, batchSize;
    }

    /** The worker's surroundings with its own position in the protocol. */
    function View(phase: Phase): Local
      reads stream, database
    {
      Local(stream.Contents(), database.tables, phase)
    }

    /**
     * The body of the `async with` block: raw row, validation, then log row or rejection, mark.
     * Nothing is committed here; a rejection's dead letter is already on its stream.
     */
    method Write(session: Session, eventId: EventId, item: DeliveredEvent, outcome: BatchOutcome) returns (ok: bool)
      requires network == stream.network
      requires item.payload.Object? && ExtractId(item.payload.payload) == Some(eventId)
      modifies session, stream, network, outcome
      ensures ok <==> Land(old(session.tables), eventId, item.payload.payload).Some? && old(network.luck) >= 3
      ensures ok ==> Some(session.tables) == Land(old(session.tables), eventId, item.payload.payload)
      ensures ok ==> network.luck == old(network.luck) - 3
      ensures !ok ==> network.failed || Land(old(session.tables), eventId, item.payload.payload).None?
      ensures stream.Contents() == if ok && Validate(item.payload.payload).None?
                                   then AddLetter(old(stream.Contents()), item.payload, SchemaValidationFailed)
                                   else old(stream.Contents())
      ensures ok ==> outcome.Counts() == Tally(old(outcome.Counts()), old(session.tables), item.payload)
    {
      var payload := item.payload.payload;
      var rawEvents := new RawEventRepository(session);
      ok := network.Await();
      if !ok {
        return;
      }
      var recorded := rawEvents.Record(eventId, EventTypeOf(payload), payload);
      if recorded.Raised? {
        return false;
      }

      var event := Validate(payload);
      if event.None? {
        ok := Reject(session, eventId, item, outcome);
      } else {
        ok := Insert(session, event.value, outcome);
      }
    }

    /** The schema refused it: kept as failed, and diverted. */
    method Reject(session: Session, eventId: EventId, item: DeliveredEvent, outcome: BatchOutcome) returns (ok: bool)
      requires network == stream.network
      modifies session, stream, network, outcome
      ensures ok <==> old(network.luck) >= 2
      ensures ok ==> network.luck == old(network.luck) - 2
      ensures !ok ==> network.failed
      ensures ok ==> session.tables == AfterMark(old(session.tables), eventId, Failed)
      ensures stream.Contents() == if ok then AddLetter(old(stream.Contents()), item.payload, SchemaValidationFailed)
                                   else old(stream.Contents())
      ensures ok ==> outcome.Counts() == old(outcome.Counts()).(rejected := old(outcome.rejected) + 1)
    {
      ok := network.Await();
      if !ok {
        return;
      }
      var rawEvents := new RawEventRepository(session);
      rawEvents.MarkFailed(eventId);
      ok := stream.SendLetter(item.payload, SchemaValidationFailed);
      if !ok {
        return;
      }
      outcome.rejected := outcome.rejected + 1;
    }

    /** The log row, unless it is there already, and the mark on the raw row. */
    method Insert(session: Session, event: InferenceEvent, outcome: BatchOutcome) returns (ok: bool)
      modifies session, network, outcome
      ensures ok <==> !UpsertRaises(old(session.tables), event) && old(network.luck) >= 2
      ensures ok ==> network.luck == old(network.luck) - 2
      ensures !ok ==> network.failed || UpsertRaises(old(session.tables), event)
      ensures ok ==> session.tables == AfterMark(AfterUpsert(old(session.tables), event), event.id, Processed)
      ensures ok ==> outcome.Counts() == if event.id in old(session.tables.logs)
                                         then old(outcome.Counts()).(duplicates := old(outcome.duplicates) + 1)
                                         else old(outcome.Counts()).(inserted := old(outcome.inserted) + 1)
    {
      var rawEvents := new RawEventRepository(session);
      var logs := new InferenceLogRepository(session);
      ok := network.Await();
      if !ok {
        return;
      }
      var inserted := logs.Upsert(event);
      if inserted.Raised? {
        return false;
      }
      ok := network.Await();
      if !ok {
        return;
      }
      rawEvents.MarkProcessed(event.id);
      if inserted.value {
        outcome.inserted := outcome.inserted + 1;
      } else {
        // The row was there already.
        outcome.duplicates := outcome.duplicates + 1;
      }
    }

    /**
     * The unit of work around the writes: everything they did is committed, or nothing is. `written`
     * tells whether a failure came only at the commit.
     */
    method Transact(eventId: EventId, item: DeliveredEvent, outcome: BatchOutcome) returns (ok: bool, ghost written: bool)
      requires network == stream.network
      requires item.payload.Object? && ExtractId(item.payload.payload) == Some(eventId)
      modifies stream, database, network, outcome
      ensures ok <==> !Poison(old(database.tables), item.payload) && old(network.luck) >= 4
      ensures ok ==> written && network.luck == old(network.luck) - 4
      ensures written ==> !Poison(old(database.tables), item.payload)
      ensures !ok ==> network.failed || Poison(database.tables, item.payload)
      ensures database.tables == if ok then AfterHandling(old(database.tables), item.payload) else old(database.tables)
      ensures stream.Contents() == if written && Validate(item.payload.payload).None?
                                   then AddLetter(old(stream.Contents()), item.payload, SchemaValidationFailed)
                                   else old(stream.Contents())
      ensures ok ==> outcome.Counts() == Tally(old(outcome.Counts()), old(database.tables), item.payload)
    {
      var session := database.Open();
      ok := Write(session, eventId, item, outcome);
      written := ok;
      if ok {
        ok := network.Await();
        if ok {
          database.Commit(session);
        }
      }
    }

    /** One delivery: the transaction, its commit, and only then the acknowledgement. */
    method Handle(item: DeliveredEvent, outcome: BatchOutcome, ghost rest: seq<nat>)
      returns (ok: bool, ghost trace: seq<WorkerAction>)
      requires network == stream.network && Genuine(stream.entries, [item])
      modifies stream, database, network, outcome
      ensures stream.entries == old(stream.entries) && old(stream.acks) <= stream.acks
      ensures ok <==> !Poison(old(database.tables), item.payload) && old(network.luck) >= Awaits(item.payload)
      ensures !ok ==> network.failed || Poison(database.tables, item.payload)
      ensures ok ==> database.tables == AfterHandling(old(database.tables), item.payload)
      ensures database.tables == old(database.tables) || database.tables == AfterHandling(old(database.tables), item.payload)
      ensures ok ==> stream.acks == old(stream.acks) + {item.deliveryId}
      ensures ok ==> |stream.letters| - |old(stream.letters)| == outcome.rejected - old(outcome.rejected)
      ensures ok ==> outcome.Counts() == Tally(old(outcome.Counts()), old(database.tables), item.payload)
      ensures WorkerRun(old(View(Handling([item.deliveryId] + rest, Fresh))), trace)
           == Some(View(if ok then Handling(rest, Fresh) else Idle))
    {
      ghost var start := View(Handling([item.deliveryId] + rest, Fresh));
      assert item == [item][0];
      assert ([item.deliveryId] + rest)[1..] == rest;
      if item.payload.NonObject? {
        // `payload.get` is an AttributeError.
        WorkerRunSnoc(start, [], Abandon);
        return false, [Abandon];
      }
      var eventId := ExtractId(item.payload.payload);
      if eventId.None? {
        ok := stream.SendLetter(item.payload, MissingOrInvalidId);
        ghost var sent := ok;
        if ok {
          ok := stream.Ack(item.deliveryId);
        }
        trace := NoIdTrace(start, item.payload, sent, ok);
        if ok {
          outcome.rejected := outcome.rejected + 1;
        }
        return;
      }

      ghost var written;
      ok, written := Transact(eventId.value, item, outcome);
      ghost var committed := ok;
      ghost var before := TransactionTrace(start, item.payload, written);
      if ok {
        // From here on the rows are durable, so the delivery may be forgotten.
        ok := stream.Ack(item.deliveryId);
      }
      trace := before;
      if written {
        ghost var middle := WorkerRun(start, before).value;
        ghost var after := CommitTrace(middle, item.payload, committed, ok);
        WorkerRunConcat(start, before, after);
        trace := before + after;
      }
    }

    /**
     * Poll once, then handle what came back in order. When it returns, every entry offered has been
     * acknowledged, every counter adds up and `inserted` is the number of new log rows; when it raises,
     * an await failed or one of the entries is poison.
     */
    method ProcessBatch() returns (r: Result<BatchOutcome>, ghost trace: seq<WorkerAction>)
      requires network == stream.network && Bounded(stream.Contents())
      modifies stream, database, network
      ensures WorkerRun(old(View(Idle)), trace) == Some(View(Idle))
      ensures stream.entries == old(stream.entries) && Bounded(stream.Contents())
      ensures r.Raised? ==> network.failed || HasPoison(database.tables, stream.entries,
                                                        OfferedTo(old(stream.Contents()), batchSize))
      ensures r.Ok? ==>
        var todo := OfferedTo(old(stream.Contents()), batchSize);
        && fresh(r.value)
        && r.value.received == |Decoded(stream.entries, todo)|
        && r.value.inserted + r.value.duplicates + r.value.rejected == r.value.received
        && |database.tables.logs| == |old(database.tables.logs)| + r.value.inserted
        && (forall d: nat :: d in todo ==> d in stream.acks)
        && |stream.letters| == |old(stream.letters)| + r.value.rejected + (|todo| - r.value.received)
    {
      ghost var start := View(Idle);
      ghost var todo := OfferedTo(stream.Contents(), batchSize);
      var outcome := new BatchOutcome();
      var delivered;
      delivered, trace := stream.Poll(batchSize, database.tables);
      WorkerRunKeepsBounded(start, trace);
      if delivered.Raised? {
        return Raised, trace;
      }
      outcome.received := |delivered.value|;
      if start.redis.group.Group? {
        DecodingAcksTheRest(Read(start.redis, |todo|), todo);
        DecodingLettersTheRest(Read(start.redis, |todo|), todo);
        DecodedAreOffered(stream.entries, todo);
      }
      ghost var more;
      var ok;
      ok, more := HandleAll(delivered.value, outcome);
      if start.redis.group.Group? {
        WorkerRunConcat(start, trace, more);
        trace := trace + more;
      }
      WorkerRunKeepsBounded(start, trace);
      return if ok then Ok(outcome) else Raised, trace;
    }

    /**
     * The loop around `process_batch`: what a batch raises is logged and the next one is polled. Each
     * round brings its own number of awaits that succeed; a failing `ensure_group` ends it at once.
     */
    method RunForever(rounds: seq<nat>) returns (ok: bool, ghost trace: seq<WorkerAction>)
      requires network == stream.network && Bounded(stream.Contents())
      modifies stream, database, network
      ensures WorkerRun(old(View(Idle)), trace) == Some(View(Idle))
      ensures stream.entries == old(stream.entries) && Bounded(stream.Contents())
      ensures !ok ==> database.tables == old(database.tables) && stream.Contents() == old(stream.Contents())
    {
      ghost var start := View(Idle);
      trace := [];
      ok := stream.EnsureGroup();
      if !ok {
        return;
      }
      WorkerRunSnoc(start, trace, CreateGroup);
      trace := [CreateGroup];
      var i := 0;
      while i < |rounds|
        invariant 0 <= i <= |rounds|
        invariant WorkerRun(start, trace) == Some(View(Idle))
        invariant stream.entries == old(stream.entries) && Bounded(stream.Contents())
      {
        network.luck := rounds[i];
        ghost var more;
        var outcome;
        outcome, more := ProcessBatch();
        WorkerRunConcat(start, trace, more);
        trace := trace + more;
        i := i + 1;
      }
    }

    /** The loop of `process_batch`, and the return to `run_forever` after it. */
    method HandleAll(delivered: seq<DeliveredEvent>, outcome: BatchOutcome) returns (ok: bool, ghost trace: seq<WorkerAction>)
      requires network == stream.network && Genuine(stream.entries, delivered)
      modifies stream, database, network, outcome
      ensures WorkerRun(old(View(Handling(Ids(delivered), Fresh))), trace) == Some(View(Idle))
      ensures delivered == [] ==> ok && unchanged(stream) && unchanged(database)
      ensures stream.entries == old(stream.entries) && old(stream.acks) <= stream.acks
      ensures !ok ==> network.failed || HasPoison(database.tables, stream.entries, Ids(delivered))
      ensures ok ==> Balanced(old(outcome.Counts()), outcome.Counts(), |delivered|, old(database.tables), database.tables)
      ensures ok ==> forall k :: 0 <= k < |delivered| ==> delivered[k].deliveryId in stream.acks
      ensures ok ==> |stream.letters| - |old(stream.letters)| == outcome.rejected - old(outcome.rejected)
    {
      ghost var ids := Ids(delivered);
      ghost var start := View(Handling(ids, Fresh));
      trace := [];
      assert ids[0..] == ids;
      var i := 0;
      while i < |delivered|
        invariant 0 <= i <= |delivered|
        invariant stream.entries == old(stream.entries) && old(stream.acks) <= stream.acks
        invariant WorkerRun(start, trace) == Some(View(Handling(ids[i..], Fresh)))
        invariant Balanced(old(outcome.Counts()), outcome.Counts(), i, old(database.tables), database.tables)
        invariant forall k :: 0 <= k < i ==> ids[k] in stream.acks
        invariant i == 0 ==> unchanged(stream) && unchanged(database)
        invariant |stream.letters| - |old(stream.letters)| == outcome.rejected - old(outcome.rejected)
      {
        var item := delivered[i];
        assert ids[i..] == [item.deliveryId] + ids[i + 1..];
        ghost var counts, tables := outcome.Counts(), database.tables;
        ghost var more;
        ok, more := Handle(item, outcome, ids[i + 1..]);
        WorkerRunConcat(start, trace, more);
        trace := trace + more;
        if !ok {
          assert stream.entries[ids[i]] == item.payload;
          return;
        }
        HandlingCountsRows(counts, tables, item.payload);
        i := i + 1;
      }
      assert ids[i..] == [];
      WorkerRunSnoc(start, trace, FinishBatch);
      return true, trace + [FinishBatch];
    }
  }

  /** `n` more payloads handled: some counter moved for each, `inserted` by the log rows added. */
  predicate Balanced(c: Counts, c': Counts, n: nat, t: Tables, t': Tables) {
    && c'.received == c.received
    && c'.inserted + c'.duplicates + c'.rejected == c.inserted + c.duplicates + c.rejected + n
    && |t'.logs| - |t.logs| == c'.inserted - c.inserted
  }

  /** The entries one poll is offered. */
  function OfferedTo(r: Redis, count: nat): seq<nat> {
    if r.group.Group? then Positions(ReadFrom(r), Offered(r, count)) else []
  }

  /** What one poll is offered, in its own terms. */
  lemma PollTakesTheNext(r: Redis, count: nat)
    requires r.group.Group? && Bounded(r)
    ensures Takes(r.group.cursor, r.first, |r.entries|, count, OfferedTo(r, count))
    ensures OfferedTo(r, count) == [] <==> count == 0 || (r.group.cursor >= |r.entries| || r.first >= |r.entries|)
  {
    OfferedTakes(r, count);
  }

  /** Decoding leaves the group's cursor where the read put it, and the entries. */
  lemma {:induction false} DecodingKeepsCursor(r: Redis, todo: seq<nat>)
    ensures var n := AfterDecoding(r, todo);
      && n.entries == r.entries && n.first == r.first && n.acks >= r.acks
      && (r.group.Group? ==> n.group.Group? && n.group.cursor == r.group.cursor)
    decreases |todo|
  {
    if todo != [] {
      DecodingKeepsCursor(AfterDecode(r, todo[0]), todo[1..]);
    }
  }

  /** One letter for each entry that does not join the batch. */
  lemma {:induction false} DecodingLettersTheRest(r: Redis, todo: seq<nat>)
    requires forall k :: 0 <= k < |todo| ==> todo[k] < |r.entries|
    ensures |AfterDecoding(r, todo).letters| == |r.letters| + |todo| - |Decoded(r.entries, todo)|
    decreases |todo|
  {
    if todo != [] {
      DecodingLettersTheRest(AfterDecode(r, todo[0]), todo[1..]);
    }
  }

  /** The batch is what decodes to a value, each entry as often as it was offered. */
  lemma {:induction false} DecodedExactly(entries: seq<Wire>, todo: seq<nat>, d: nat)
    ensures multiset(Decoded(entries, todo))[d]
         == if d < |entries| && !entries[d].NoField? && !entries[d].BadJson? && !entries[d].JsonNull? then multiset(todo)[d] else 0
  {
    if todo != [] {
      assert todo == [todo[0]] + todo[1..];
      DecodedExactly(entries, todo[1..], d);
    }
  }

  predicate Increasing(ids: seq<nat>) {
    forall i, j :: 0 <= i < j < |ids| ==> ids[i] < ids[j]
  }

  /** And in the order in which the entries were offered. */
  lemma {:induction false} DecodedInOrder(entries: seq<Wire>, todo: seq<nat>)
    requires Increasing(todo)
    ensures Increasing(Decoded(entries, todo))
  {
    if todo != [] {
      var tail := todo[1..];
      var later := Decoded(entries, tail);
      DecodedInOrder(entries, tail);
      DecodedAreOffered(entries, tail);
      forall k | 0 <= k < |later| ensures todo[0] < later[k] {
        var j :| 0 <= j < |tail| && tail[j] == later[k];
        assert todo[j + 1] == later[k];
      }
    }
  }

  /** Whatever does not join the batch has been acknowledged by `poll`. */
  lemma {:induction false} DecodingAcksTheRest(r: Redis, todo: seq<nat>)
    requires forall k :: 0 <= k < |todo| ==> todo[k] < |r.entries|
    ensures r.acks <= AfterDecoding(r, todo).acks
    ensures forall d :: d in todo ==> d in AfterDecoding(r, todo).acks || d in Decoded(r.entries, todo)
    decreases |todo|
  {
    if todo != [] {
      DecodingAcksTheRest(AfterDecode(r, todo[0]), todo[1..]);
      assert forall d :: d in todo ==> d == todo[0] || d in todo[1..];
    }
  }

  lemma {:induction false} DecodedAreOffered(entries: seq<Wire>, todo: seq<nat>)
    ensures forall k :: 0 <= k < |Decoded(entries, todo)| ==>
      exists j :: 0 <= j < |todo| && todo[j] == Decoded(entries, todo)[k]
  {
    if todo != [] {
      var rest := Decoded(entries, todo[1..]);
      DecodedAreOffered(entries, todo[1..]);
      forall k | 0 <= k < |Decoded(entries, todo)|
        ensures exists j :: 0 <= j < |todo| && todo[j] == Decoded(entries, todo)[k]
      {
        if Decoded(entries, todo)[k] == todo[0] {
          assert todo[0] == Decoded(entries, todo)[k];
        } else {
          var k' := if |Decoded(entries, todo)| == |rest| then k else k - 1;
          var j :| 0 <= j < |todo[1..]| && todo[1..][j] == rest[k'];
          assert todo[j + 1] == Decoded(entries, todo)[k];
        }
      }
    }
  }

  /** The `inserted` counter moves exactly when a log row is added, and some counter always moves. */
  lemma HandlingCountsRows(c: Counts, t: Tables, w: Wire)
    requires !Poison(t, w) && w.Object?
    ensures Balanced(c, Tally(c, t, w), 1, t, AfterHandling(t, w))
  {
    if ExtractId(w.payload).Some? {
      LandShape(t, ExtractId(w.payload).value, w.payload);
    }
  }

  /** The stage a transaction is in when only its commit is missing. */
  function Written(w: Wire): Stage {
    if w.Object? && Validate(w.payload).None? then RejectionLettered else InTransaction
  }

  predicate AtHead(l: Local, w: Wire) {
    && l.phase.Handling? && l.phase.batch != []
    && l.phase.batch[0] < |l.redis.entries| && l.redis.entries[l.phase.batch[0]] == w
  }

  /** An id-less delivery as the other workers could see it. */
  lemma NoIdTrace(start: Local, w: Wire, sent: bool, acked: bool) returns (trace: seq<WorkerAction>)
    requires AtHead(start, w) && start.phase.stage.Fresh?
    requires w.Object? && ExtractId(w.payload).None? && (acked ==> sent)
    ensures var r := if sent then AddLetter(start.redis, w, MissingOrInvalidId) else start.redis;
      WorkerRun(start, trace) == Some(Local(
        if acked then XAck(r, start.phase.batch[0]) else r,
        start.tables,
        if acked then Handling(start.phase.batch[1..], Fresh) else Idle))
  {
    trace := [];
    if sent {
      WorkerRunSnoc(start, [], LetterNoId);
      trace := [LetterNoId];
    }
    var last := if acked then Ack else Abandon;
    WorkerRunSnoc(start, trace, last);
    trace := trace + [last];
  }

  /** The transaction up to its commit. */
  lemma TransactionTrace(start: Local, w: Wire, ok: bool) returns (trace: seq<WorkerAction>)
    requires AtHead(start, w) && start.phase.stage.Fresh?
    requires w.Object? && ExtractId(w.payload).Some?
    ensures WorkerRun(start, trace) == Some(Local(
      if ok && Validate(w.payload).None? then AddLetter(start.redis, w, SchemaValidationFailed) else start.redis,
      start.tables,
      if ok then Handling(start.phase.batch, Written(w)) else Idle))
  {
    trace := [Begin];
    WorkerRunSnoc(start, [], Begin);
    if !ok {
      WorkerRunSnoc(start, trace, Abandon);
      trace := trace + [Abandon];
    } else if Validate(w.payload).None? {
      WorkerRunSnoc(start, trace, LetterInvalid);
      trace := trace + [LetterInvalid];
    }
  }

  lemma CommitAction(start: Local, w: Wire)
    requires AtHead(start, w) && start.phase.stage == Written(w)
    requires w.Object? && ExtractId(w.payload).Some? && !Poison(start.tables, w)
    ensures WorkerNext(start, Commit)
         == Some(Local(start.redis, AfterHandling(start.tables, w), Handling(start.phase.batch, Committed)))
  {
    assert IdAt(start.redis, start.phase.batch[0]) == ExtractId(w.payload);
  }

  /** The commit and the acknowledgement after it. */
  lemma CommitTrace(start: Local, w: Wire, committed: bool, acked: bool) returns (trace: seq<WorkerAction>)
    requires AtHead(start, w) && start.phase.stage == Written(w)
    requires w.Object? && ExtractId(w.payload).Some? && !Poison(start.tables, w) && (acked ==> committed)
    ensures WorkerRun(start, trace) == Some(Local(
      if acked then XAck(start.redis, start.phase.batch[0]) else start.redis,
      if committed then AfterHandling(start.tables, w) else start.tables,
      if acked then Handling(start.phase.batch[1..], Fresh) else Idle))
  {
    trace := [];
    if committed {
      CommitAction(start, w);
      WorkerRunSnoc(start, [], Commit);
      trace := [Commit];
    }
    var last := if acked then Ack else Abandon;
    WorkerRunSnoc(start, trace, last);
    trace := trace + [last];
  }

  // ---- the code's runs are runs of the whole system ----

  function WorkLabels(w: WorkerId, actions: seq<WorkerAction>): seq<Label> {
    if actions == [] then [] else [Work(w, actions[0])] + WorkLabels(w, actions[1..])
  }

  /**
   * What a worker's method does on its own is a run of the pipeline in which nobody else moves, so
   * every reachable-state theorem applies to the state it leaves behind, exceptions included.
   */
  lemma {:induction false} WorkerRunsAreRuns(s: State, maxlen: nat, w: WorkerId, actions: seq<WorkerAction>)
    requires w in s.workers
    requires WorkerRun(Local(s.redis, s.tables, s.workers[w]), actions).Some?
    ensures var m := WorkerRun(Local(s.redis, s.tables, s.workers[w]), actions).value;
      Run(s, maxlen, WorkLabels(w, actions))
        == Some(s.(redis := m.redis, tables := m.tables, workers := s.workers[w := m.phase]))
    decreases |actions|
  {
    if actions == [] {
      assert s.workers[w := s.workers[w]] == s.workers;
    } else {
      var s1 := Next(s, maxlen, Work(w, actions[0])).value;
      WorkerRunsAreRuns(s1, maxlen, w, actions[1..]);
      assert WorkLabels(w, actions)[1..] == WorkLabels(w, actions[1..]);
      var m := WorkerRun(Local(s.redis, s.tables, s.workers[w]), actions).value;
      assert s1.workers[w := m.phase] == s.workers[w := m.phase];
    }
  }
}
