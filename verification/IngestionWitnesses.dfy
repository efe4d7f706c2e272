/** Concrete runs in which an event is lost from sight, and a payload that no worker can ever land. */
module IngestionWitnesses {
  import opened Common
  import opened Events
  import opened Store
  import opened Broker
  import opened IngestionProtocol
  import opened IngestionSafety
  import opened IngestionStranding
  import opened IngestionTurns
  import opened Instrumentation
  import Producer = Publishing

  lemma {:induction false} RunConcat(s: State, maxlen: nat, xs: seq<Label>, ys: seq<Label>)
    requires Run(s, maxlen, xs).Some?
    ensures Run(s, maxlen, xs + ys) == Run(Run(s, maxlen, xs).value, maxlen, ys)
    decreases |xs|
  {
    if xs == [] {
      assert xs + ys == ys;
    } else {
      assert (xs + ys)[1..] == xs[1..] + ys;
      RunConcat(Next(s, maxlen, xs[0]).value, maxlen, xs[1..], ys);
    }
  }

  lemma RunSnoc(s: State, maxlen: nat, xs: seq<Label>, l: Label)
    requires Run(s, maxlen, xs).Some?
    ensures Run(s, maxlen, xs + [l]) == Next(Run(s, maxlen, xs).value, maxlen, l)
  {
    RunConcat(s, maxlen, xs, [l]);
    var m := Run(s, maxlen, xs).value;
    if Next(m, maxlen, l).Some? {
      assert Run(m, maxlen, [l]) == Run(Next(m, maxlen, l).value, maxlen, []);
    }
  }

  /** A state some run reaches; `own`: without foreign writers. */
  ghost predicate Reached(s: State, maxlen: nat, own: bool) {
    exists labels :: (own ==> OwnRun(labels)) && Run(Init(), maxlen, labels) == Some(s)
  }

  lemma ReachedInit(maxlen: nat, own: bool)
    ensures Reached(Init(), maxlen, own)
  {
    assert Run(Init(), maxlen, []) == Some(Init()) && OwnRun([]);
  }

  lemma ReachedInv(s: State, maxlen: nat, own: bool)
    requires Reached(s, maxlen, own)
    ensures Inv(s)
  {
    var labels :| Run(Init(), maxlen, labels) == Some(s);
    RunKeepsInv(Init(), maxlen, labels);
  }

  lemma Take(s: State, maxlen: nat, own: bool, l: Label) returns (n: State)
    requires Reached(s, maxlen, own) && (own ==> !l.ForeignPublish?) && Next(s, maxlen, l).Some?
    ensures Some(n) == Next(s, maxlen, l) && Reached(n, maxlen, own)
  {
    var labels :| (own ==> OwnRun(labels)) && Run(Init(), maxlen, labels) == Some(s);
    RunSnoc(Init(), maxlen, labels, l);
    assert own ==> OwnRun(labels + [l]);
    n := Next(s, maxlen, l).value;
  }

  function After(s: State, w: WorkerId, l: Local): State {
    s.(redis := l.redis, tables := l.tables, workers := s.workers[w := l.phase])
  }

  lemma WorkerTakes(s: State, maxlen: nat, own: bool, w: WorkerId, a: WorkerAction, l: Local)
    requires Reached(s, maxlen, own) && w in s.workers
    requires WorkerNext(Local(s.redis, s.tables, s.workers[w]), a) == Some(l)
    ensures Reached(After(s, w, l), maxlen, own)
  {
    var n := Take(s, maxlen, own, Work(w, a));
  }

  /** A first worker reads `n` entries from a stream that has no group yet. */
  lemma FirstRead(s: State, maxlen: nat, own: bool, w: WorkerId, n: nat)
    requires Reached(s, maxlen, own) && s.workers == map[] && s.redis.group.NoGroup? && s.redis.first + n <= |s.redis.entries|
    ensures Reached(After(s, w, Local(Read(EnsureGroup(s.redis), n), s.tables,
                                      Decoding(Positions(s.redis.first, n), false, []))), maxlen, own)
  {
    var started := Take(s, maxlen, own, StartWorker(w));
    var grouped := Local(EnsureGroup(s.redis), s.tables, Idle);
    WorkerTakes(started, maxlen, own, w, CreateGroup, grouped);
    var read := Local(Read(grouped.redis, n), s.tables, Decoding(Positions(s.redis.first, n), false, []));
    WorkerTakes(After(started, w, grouped), maxlen, own, w, Fetch(n), read);
    assert After(After(started, w, grouped), w, read) == After(s, w, read);
  }

  /** And stops: its phase is idle again, everything else stays. */
  lemma Stops(s: State, maxlen: nat, own: bool, w: WorkerId)
    requires Reached(s, maxlen, own) && w in s.workers
    ensures Reached(s.(workers := s.workers[w := Idle]), maxlen, own)
  {
    WorkerTakes(s, maxlen, own, w, Abandon, Local(s.redis, s.tables, Idle));
    assert After(s, w, Local(s.redis, s.tables, Idle)) == s.(workers := s.workers[w := Idle]);
  }

  // ---- a lost event ----

  /** A turn that has committed its conversation and called the provider. */
  lemma CalledTurn(maxlen: nat) returns (s: State)
    ensures Reached(s, maxlen, true)
    ensures s.redis == Init().redis && s.tables.raws == map[] && s.tables.logs == map[] && s.workers == map[]
    ensures s.calls == Producer.State(
      map[0 := Producer.Flight(CTX, [], None, Producer.Streaming(false), Producer.NotCreated, false, [])], {})
  {
    ReachedInit(maxlen, true);
    s := Take(Init(), maxlen, true, CreateInTurn(0, 0));
    s := Take(s, maxlen, true, CommitTurn(0));
    s := Take(s, maxlen, true, StartCall(0, 0, "mock", "mock-1", true));
  }

  /** One whole turn: recorded, called, and its event on the stream. */
  lemma PublishedTurn(maxlen: nat) returns (s: State, f: Producer.Flight)
    ensures Reached(s, maxlen, true)
    ensures s.calls.flights == map[0 := f] && HasLanded(f)
    ensures s.redis == Redis([WireOf(f)], 0, NoGroup, {}, [])
    ensures s.tables.raws == map[] && s.tables.logs == map[] && s.workers == map[]
  {
    var call: TimedCall := ShortCall(Exhausted, 0, 1);
    s := CalledTurn(maxlen);
    ConstructibleExactly(CTX, call);
    s := Take(s, maxlen, true, Produce(Producer.InnerEnds(0, call), 0));
    s := Take(s, maxlen, true, Produce(Producer.PublishFinishes(0, true, None), 0));
    f := s.calls.flights[0];
  }

  /**
   * The lost event: a call is answered, its event published, a worker reads it and stops. The delivery
   * is stranded, no table shows the call, and without an outside rescue that stays so.
   */
  lemma AStrandedDeliveryIsReachable(maxlen: nat) returns (s: State, f: Producer.Flight)
    ensures Reached(s, maxlen, true) && Inv(s) && Stranded(s, 0)
    ensures s.calls.flights == map[0 := f] && HasLanded(f) && s.redis.entries == [WireOf(f)]
    ensures s.tables.raws == map[] && s.tables.logs == map[] && s.redis.acks == {}
  {
    var published;
    published, f := PublishedTurn(maxlen);
    FirstRead(published, maxlen, true, 1, 1);
    var r := Read(EnsureGroup(published.redis), 1);
    s := After(published, 1, Local(r, published.tables, Decoding(Positions(0, 1), false, [])));
    Stops(s, maxlen, true, 1);
    s := s.(workers := s.workers[1 := Idle]);
    assert Positions(0, 1)[0] == 0;
    ReachedInv(s, maxlen, true);
  }

  // ---- a poisoned batch ----

  /** A JSON value that is not an object at the head of a batch leaves the worker one way out. */
  lemma NonObjectStopsItsBatch(l: Local, a: WorkerAction)
    requires l.phase.Handling? && l.phase.batch != [] && l.phase.stage.Fresh?
    requires l.phase.batch[0] < |l.redis.entries| && l.redis.entries[l.phase.batch[0]].NonObject?
    ensures WorkerNext(l, a).Some? <==> a.Abandon?
  {
  }

  /** A batch of two that decodes. */
  lemma DecodesTwo(s: State, maxlen: nat, own: bool, w: WorkerId)
    requires Reached(s, maxlen, own) && w in s.workers && s.workers[w] == Decoding([0, 1], false, [])
    requires Decodable(s.redis, 0) && Decodable(s.redis, 1)
    ensures Reached(s.(workers := s.workers[w := Handling([0, 1], Fresh)]), maxlen, own)
  {
    var one := Local(s.redis, s.tables, Decoding([1], false, [0]));
    var two := Local(s.redis, s.tables, Decoding([], false, [0, 1]));
    var ready := Local(s.redis, s.tables, Handling([0, 1], Fresh));
    assert [0, 1][1..] == [1] && [1][1..] == [] && [] + [0] == [0] && [0] + [1] == [0, 1];
    var mid, late := After(s, w, one), After(s, w, two);
    WorkerTakes(s, maxlen, own, w, Accept, one);
    WorkerTakes(mid, maxlen, own, w, Accept, two);
    assert After(mid, w, two) == late;
    WorkerTakes(late, maxlen, own, w, ReturnBatch, ready);
    assert After(late, w, ready) == s.(workers := s.workers[w := Handling([0, 1], Fresh)]);
  }

  /** Two entries published, nobody reading yet. */
  function TwoEntries(a: Wire, b: Wire): State {
    Init().(redis := Redis([a, b], 0, NoGroup, {}, []))
  }

  lemma TwoEntriesReached(maxlen: nat, a: Wire, b: Wire)
    ensures Reached(TwoEntries(a, b), maxlen, false)
  {
    ReachedInit(maxlen, false);
    var one := Take(Init(), maxlen, false, ForeignPublish(a, 0));
    var two := Take(one, maxlen, false, ForeignPublish(b, 0));
    assert two == TwoEntries(a, b);
  }

  lemma BothRead(r: Redis)
    requires r.first == 0 && |r.entries| == 2 && r.group.NoGroup?
    ensures Positions(0, 2) == [0, 1]
    ensures Read(EnsureGroup(r), 2) == r.(group := Group(2, {0, 1}, {}))
  {
    assert Positions(0, 2) == [0, 1];
    var n := Read(EnsureGroup(r), 2);
    assert n.group.pending == {0, 1};
    assert n.group == Group(2, {0, 1}, {});
  }

  /** Worker 1 holds both entries, decoded and not yet handled. */
  function HoldingBoth(a: Wire, b: Wire): State {
    var s := TwoEntries(a, b);
    s.(redis := s.redis.(group := Group(2, {0, 1}, {})), workers := map[1 := Handling([0, 1], Fresh)])
  }

  lemma HoldingBothReached(maxlen: nat, a: Wire, b: Wire)
    requires !Malformed(a) && !Malformed(b)
    ensures Reached(HoldingBoth(a, b), maxlen, false)
  {
    var s := TwoEntries(a, b);
    TwoEntriesReached(maxlen, a, b);
    FirstRead(s, maxlen, false, 1, 2);
    BothRead(s.redis);
    var read := After(s, 1, Local(s.redis.(group := Group(2, {0, 1}, {})), s.tables, Decoding([0, 1], false, [])));
    DecodesTwo(read, maxlen, false, 1);
    assert read.(workers := read.workers[1 := Handling([0, 1], Fresh)]) == HoldingBoth(a, b);
  }

  /**
   * Such a batch is reachable: the entry in front keeps a good one from being handled. The worker can
   * do nothing but give up, and both stay behind without a row or a dead letter.
   */
  lemma NonObjectStrandsItsNeighbour(maxlen: nat, good: Payload, a: WorkerAction)
    requires Validate(good).Some?
    ensures Reached(HoldingBoth(NonObject, Object(good)), maxlen, false)
    ensures Next(HoldingBoth(NonObject, Object(good)), maxlen, Work(1, a)).Some? <==> a.Abandon?
    ensures var t := Next(HoldingBoth(NonObject, Object(good)), maxlen, Work(1, Abandon)).value;
      && Stranded(t, 0) && Stranded(t, 1)
      && t.redis.acks == {} && t.redis.letters == [] && t.tables.raws == map[]
  {
    HoldingBothReached(maxlen, NonObject, Object(good));
    var s := HoldingBoth(NonObject, Object(good));
    NonObjectStopsItsBatch(Local(s.redis, s.tables, s.workers[1]), a);
  }

  // ---- a counter the columns cannot hold ----

  /** A call that reports one output token more than four bytes hold. */
  function WideCall(): TimedCall {
    Call([StreamChunk("hi", None, Some(TokenUsage(None, Some(MAX_INT4 + 1))), map[])], Exhausted, [0], 0, 0, 0, 1)
  }

  lemma WideRecord()
    ensures Valid(Recorded(CTX, WideCall())) && Recorded(CTX, WideCall()).outputTokens == Some(MAX_INT4 + 1)
  {
    var c := WideCall();
    ReportsGrow([], c.chunks[0]);
    assert c.chunks == [] + [c.chunks[0]];
    ConstructibleExactly(CTX, c);
  }

  lemma WideNeverLands(t: Tables, e: InferenceEvent)
    requires Valid(e.fields) && !IntegersFit(e.fields)
    ensures Land(t, e.id, Encode(e)).None?
  {
    WireRoundTrip(e);
    LandAborts(t, e.id, Encode(e));
  }

  /** Its event is constructed and published, and no state of the tables lets it land. */
  lemma WideCounterNeverLands(t: Tables)
    ensures Valid(Recorded(CTX, WideCall()))
    ensures Land(t, CTX.id, Encode(InferenceEvent(CTX.id, Recorded(CTX, WideCall())))).None?
  {
    WideRecord();
    WideNeverLands(t, InferenceEvent(CTX.id, Recorded(CTX, WideCall())));
  }
}
