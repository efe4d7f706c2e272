/**
 * Where the events come from. Each turn commits its conversation, calls the provider, builds its
 * record and publishes it, in that order; what follows for the stream and for the tables is proved
 * here of every run in which nobody else writes to the stream.
 */
module IngestionTurns {
  import opened Common
  import opened Events
  import opened Store
  import opened Broker
  import opened IngestionProtocol
  import opened IngestionSafety
  import opened IngestionConfluence
  import Instrumentation
  import Producer = Publishing

  // ---- turns and calls ----

  /** A call belongs to a turn, and its record names that turn's conversation. */
  predicate Linked(turns: map<TurnId, Turn>, flights: map<TurnId, Producer.Flight>) {
    forall t :: t in flights ==>
      t in turns && turns[t].Called? && flights[t].ctx.conversationId == Some(turns[t].c)
  }

  predicate CallsOk(s: State) {
    Producer.Inv(s.calls) && Linked(s.turns, s.calls.flights)
  }

  lemma StartKeepsCalls(s: State, maxlen: nat, l: Label)
    requires CallsOk(s) && l.StartCall? && Next(s, maxlen, l).Some?
    ensures CallsOk(Next(s, maxlen, l).value)
  {
    var ctx := Instrumentation.Context(l.id, Some(s.turns[l.t].c), l.provider, l.model, l.streamed);
    Producer.NextKeepsInv(s.calls, Producer.Start(l.t, ctx));
    StartLinks(s.turns, s.calls, l.t, ctx);
  }

  lemma StartLinks(turns: map<TurnId, Turn>, calls: Producer.State, t: TurnId, ctx: Instrumentation.Context)
    requires Linked(turns, calls.flights) && Producer.Next(calls, Producer.Start(t, ctx)).Some?
    requires ctx.conversationId.Some?
    ensures Linked(turns[t := Called(ctx.conversationId.value)], Producer.Next(calls, Producer.Start(t, ctx)).value.flights)
  {
  }

  /** A step of a call, seen from the whole system. */
  lemma ProduceIsTheCallsStep(s: State, maxlen: nat, l: Label)
    requires l.Produce? && Next(s, maxlen, l).Some?
    ensures !l.step.Start? && Some(Next(s, maxlen, l).value.calls) == Producer.Next(s.calls, l.step)
    ensures Next(s, maxlen, l).value.turns == s.turns
  {
  }

  lemma ProducingKeepsLinks(turns: map<TurnId, Turn>, calls: Producer.State, l: Producer.Label)
    requires Producer.Inv(calls) && Linked(turns, calls.flights) && !l.Start? && Producer.Next(calls, l).Some?
    ensures Linked(turns, Producer.Next(calls, l).value.flights)
  {
    ProducingKeepsContexts(calls, l);
    SameContextsLinked(turns, calls.flights, Producer.Next(calls, l).value.flights);
  }

  lemma ProduceKeepsCalls(s: State, maxlen: nat, l: Label)
    requires CallsOk(s) && l.Produce? && Next(s, maxlen, l).Some?
    ensures CallsOk(Next(s, maxlen, l).value)
  {
    ProduceIsTheCallsStep(s, maxlen, l);
    Producer.NextKeepsInv(s.calls, l.step);
    ProducingKeepsLinks(s.turns, s.calls, l.step);
  }

  lemma SameContextsLinked(turns: map<TurnId, Turn>, flights: map<TurnId, Producer.Flight>, later: map<TurnId, Producer.Flight>)
    requires Linked(turns, flights) && later.Keys == flights.Keys
    requires forall t :: t in flights ==> later[t].ctx == flights[t].ctx
    ensures Linked(turns, later)
  {
  }

  /** A call is made for the conversation its turn committed, with the request's own parameters, once. */
  lemma CallCarriesItsRequest(s: State, maxlen: nat, l: Label)
    requires CallsOk(s) && l.StartCall? && Next(s, maxlen, l).Some?
    ensures var n := Next(s, maxlen, l).value;
      && s.turns[l.t].TurnCommitted? && n.turns[l.t] == Called(s.turns[l.t].c)
      && l.t !in s.calls.flights && l.t in n.calls.flights
      && var ctx := n.calls.flights[l.t].ctx;
      && ctx.id == l.id && ctx.conversationId == Some(s.turns[l.t].c)
      && ctx.provider == l.provider && ctx.model == l.model && ctx.streamed == l.streamed
      && n.calls.flights[l.t].chunks == [] && n.calls.flights[l.t].published == []
      && (forall u :: u in s.calls.flights ==> s.calls.flights[u].ctx.id != l.id)
  {
  }

  /** Steps that are not a call's leave the calls alone, and the turns that have made one. */
  lemma OthersLeaveCallsAlone(s: State, maxlen: nat, l: Label)
    requires !l.StartCall? && !l.Produce? && Next(s, maxlen, l).Some?
    ensures var n := Next(s, maxlen, l).value;
      && n.calls == s.calls
      && (forall t :: t in s.turns && s.turns[t].Called? ==> t in n.turns && n.turns[t] == s.turns[t])
      && (!l.ForeignPublish? ==> n.redis.entries == s.redis.entries)
  {
    if l.Work? {
      WorkerNextKeepsConversations(Local(s.redis, s.tables, s.workers[l.w]), l.action);
    }
  }

  lemma NextKeepsCalls(s: State, maxlen: nat, l: Label)
    requires CallsOk(s) && Next(s, maxlen, l).Some?
    ensures CallsOk(Next(s, maxlen, l).value)
  {
    if l.StartCall? {
      StartKeepsCalls(s, maxlen, l);
    } else if l.Produce? {
      ProduceKeepsCalls(s, maxlen, l);
    } else {
      OthersLeaveCallsAlone(s, maxlen, l);
    }
  }

  lemma ProducingKeepsContexts(calls: Producer.State, l: Producer.Label)
    requires Producer.Inv(calls) && !l.Start? && Producer.Next(calls, l).Some?
    ensures var n := Producer.Next(calls, l).value;
      && n.flights.Keys == calls.flights.Keys
      && (forall t :: t in calls.flights ==> n.flights[t].ctx == calls.flights[t].ctx)
  {
    Producer.AdvanceKeepsRecords(calls.flights[l.c], l.c in calls.inflight, l);
  }

  // ---- turns and stream entries ----

  predicate OwnRun(labels: seq<Label>) {
    forall k :: 0 <= k < |labels| ==> !labels[k].ForeignPublish?
  }

  /** The call's publish has put its event on the stream. */
  predicate HasLanded(f: Producer.Flight) {
    f.ended.Some? && f.task.Done? && f.task.landed
  }

  function WireOf(f: Producer.Flight): Wire
    requires f.ended.Some?
  {
    Object(Encode(Producer.EventOf(f)))
  }

  predicate Sent(calls: Producer.State, t: TurnId, w: Wire) {
    t in calls.flights && HasLanded(calls.flights[t]) && w == WireOf(calls.flights[t])
  }

  predicate FromSomeCall(calls: Producer.State, w: Wire) {
    exists t :: t in calls.flights && Sent(calls, t, w)
  }

  predicate OnStream(entries: seq<Wire>, w: Wire) {
    exists d :: 0 <= d < |entries| && entries[d] == w
  }

  predicate DistinctEntries(r: Redis) {
    forall d: nat, e: nat :: d < e < |r.entries| ==> IdAt(r, d) != IdAt(r, e)
  }

  /** Entries and landed publishes correspond, one to one. */
  predicate Sourced(r: Redis, calls: Producer.State) {
    && (forall d :: 0 <= d < |r.entries| ==> FromSomeCall(calls, r.entries[d]))
    && (forall t :: t in calls.flights && HasLanded(calls.flights[t]) ==> OnStream(r.entries, WireOf(calls.flights[t])))
    && DistinctEntries(r)
  }

  lemma SentIsOwn(calls: Producer.State, t: TurnId, w: Wire)
    requires Producer.Inv(calls) && Sent(calls, t, w)
    ensures w.Object? && Validate(w.payload) == Some(Producer.EventOf(calls.flights[t]))
    ensures ExtractId(w.payload) == Some(calls.flights[t].ctx.id)
    ensures w.payload.fields == Producer.RecordOf(calls.flights[t])
    ensures w.payload.fields.conversationId == calls.flights[t].ctx.conversationId
    ensures EventTypeOf(w.payload) == EVENT_TYPE_INFERENCE
    ensures Valid(Producer.RecordOf(calls.flights[t]))
  {
    assert Producer.FlightOk(calls.flights[t], t in calls.inflight);
    WireRoundTrip(Producer.EventOf(calls.flights[t]));
  }

  /** A call that has landed is not touched by any later step. */
  lemma LandedStays(calls: Producer.State, l: Producer.Label, t: TurnId)
    requires Producer.Inv(calls) && Producer.Next(calls, l).Some? && t in calls.flights && HasLanded(calls.flights[t])
    ensures var n := Producer.Next(calls, l).value;
      && t in n.flights && HasLanded(n.flights[t]) && WireOf(n.flights[t]) == WireOf(calls.flights[t])
  {
    if l.c == t {
      Producer.AdvanceKeepsRecords(calls.flights[t], t in calls.inflight, l);
    }
  }

  /** And only a step that lands makes a call a landed one. */
  lemma LandsOnlyByLanding(calls: Producer.State, l: Producer.Label, t: TurnId)
    requires Producer.Inv(calls) && Producer.Next(calls, l).Some?
    requires t in Producer.Next(calls, l).value.flights && HasLanded(Producer.Next(calls, l).value.flights[t])
    ensures var n := Producer.Next(calls, l).value;
      || (t in calls.flights && HasLanded(calls.flights[t]) && WireOf(n.flights[t]) == WireOf(calls.flights[t]))
      || (l.c == t && Landing(calls, l).Some? && WireOf(n.flights[t]) == Object(Encode(Landing(calls, l).value)))
  {
    if l.c == t && t in calls.flights {
      assert Producer.FlightOk(calls.flights[t], t in calls.inflight);
    }
  }

  lemma FromSomeCallStays(calls: Producer.State, l: Producer.Label, w: Wire)
    requires Producer.Inv(calls) && Producer.Next(calls, l).Some? && FromSomeCall(calls, w)
    ensures FromSomeCall(Producer.Next(calls, l).value, w)
  {
    var t :| t in calls.flights && Sent(calls, t, w);
    LandedStays(calls, l, t);
    assert Sent(Producer.Next(calls, l).value, t, w);
  }

  /** A step of a call that does not land. */
  lemma QuietStepKeepsSourced(r: Redis, calls: Producer.State, l: Producer.Label)
    requires Producer.Inv(calls) && Producer.Next(calls, l).Some? && Landing(calls, l).None?
    requires Sourced(r, calls)
    ensures Sourced(r, Producer.Next(calls, l).value)
  {
    var n := Producer.Next(calls, l).value;
    forall d | 0 <= d < |r.entries| ensures FromSomeCall(n, r.entries[d]) {
      FromSomeCallStays(calls, l, r.entries[d]);
    }
    forall t | t in n.flights && HasLanded(n.flights[t]) ensures OnStream(r.entries, WireOf(n.flights[t])) {
      LandsOnlyByLanding(calls, l, t);
    }
  }

  /** An id is on the stream only if its own call has landed. */
  lemma EntriesOfOthers(r: Redis, calls: Producer.State, t: TurnId, d: nat)
    requires Producer.Inv(calls) && Sourced(r, calls) && d < |r.entries|
    requires t in calls.flights && !HasLanded(calls.flights[t])
    ensures IdAt(r, d) != Some(calls.flights[t].ctx.id)
  {
    var u :| u in calls.flights && Sent(calls, u, r.entries[d]);
    SentIsOwn(calls, u, r.entries[d]);
  }

  lemma LandingReachesTheStream(r: Redis, r': Redis, calls: Producer.State, l: Producer.Label)
    requires Producer.Inv(calls) && Producer.Next(calls, l).Some? && Landing(calls, l).Some?
    requires forall t :: t in calls.flights && HasLanded(calls.flights[t]) ==> OnStream(r.entries, WireOf(calls.flights[t]))
    requires r'.entries == r.entries + [Object(Encode(Landing(calls, l).value))]
    ensures var n := Producer.Next(calls, l).value;
      forall t :: t in n.flights && HasLanded(n.flights[t]) ==> OnStream(r'.entries, WireOf(n.flights[t]))
  {
    var n := Producer.Next(calls, l).value;
    forall t | t in n.flights && HasLanded(n.flights[t]) ensures OnStream(r'.entries, WireOf(n.flights[t])) {
      LandsOnlyByLanding(calls, l, t);
      if t in calls.flights && HasLanded(calls.flights[t]) {
        StillOnStream(r.entries, r'.entries, WireOf(calls.flights[t]));
      } else {
        assert r'.entries[|r.entries|] == WireOf(n.flights[t]);
      }
    }
  }

  lemma StillOnStream(entries: seq<Wire>, longer: seq<Wire>, w: Wire)
    requires entries <= longer && OnStream(entries, w)
    ensures OnStream(longer, w)
  {
    var d :| 0 <= d < |entries| && entries[d] == w;
    assert longer[d] == w;
  }

  lemma LandingIsFromItsCall(calls: Producer.State, l: Producer.Label)
    requires Producer.Inv(calls) && Producer.Next(calls, l).Some? && Landing(calls, l).Some?
    ensures Sent(Producer.Next(calls, l).value, l.c, Object(Encode(Landing(calls, l).value)))
    ensures l.c in calls.flights && !HasLanded(calls.flights[l.c])
    ensures ExtractId(Encode(Landing(calls, l).value)) == Some(calls.flights[l.c].ctx.id)
  {
    WireRoundTrip(Landing(calls, l).value);
  }

  lemma AppendKeepsDistinct(r: Redis, r': Redis, w: Wire)
    requires DistinctEntries(r) && r'.entries == r.entries + [w]
    requires forall d: nat :: d < |r.entries| ==> IdAt(r, d) != IdAt(r', |r.entries|)
    ensures DistinctEntries(r')
  {
    forall d: nat, e: nat | d < e < |r'.entries| ensures IdAt(r', d) != IdAt(r', e) {
      assert IdAt(r', d) == IdAt(r, d);
      assert e < |r.entries| ==> IdAt(r', e) == IdAt(r, e);
    }
  }

  lemma LandingStepKeepsSourced(r: Redis, calls: Producer.State, l: Producer.Label, first: nat)
    requires Producer.Inv(calls) && Producer.Next(calls, l).Some? && Landing(calls, l).Some?
    requires Sourced(r, calls)
    ensures Sourced(XAdd(r, Object(Encode(Landing(calls, l).value)), first), Producer.Next(calls, l).value)
  {
    var n := Producer.Next(calls, l).value;
    var w := Object(Encode(Landing(calls, l).value));
    var r' := XAdd(r, w, first);
    LandingIsFromItsCall(calls, l);
    LandingReachesTheStream(r, r', calls, l);
    forall d | 0 <= d < |r'.entries| ensures FromSomeCall(n, r'.entries[d]) {
      if d < |r.entries| {
        FromSomeCallStays(calls, l, r.entries[d]);
      }
    }
    forall d: nat | d < |r.entries| ensures IdAt(r, d) != IdAt(r', |r.entries|) {
      EntriesOfOthers(r, calls, l.c, d);
    }
    AppendKeepsDistinct(r, r', w);
  }

  lemma NextKeepsSourced(s: State, maxlen: nat, l: Label)
    requires CallsOk(s) && Sourced(s.redis, s.calls) && !l.ForeignPublish? && Next(s, maxlen, l).Some?
    ensures Sourced(Next(s, maxlen, l).value.redis, Next(s, maxlen, l).value.calls)
  {
    var n := Next(s, maxlen, l).value;
    if l.Produce? && Landing(s.calls, l.step).Some? {
      LandingStepKeepsSourced(s.redis, s.calls, l.step, l.first);
    } else if l.Produce? {
      QuietStepKeepsSourced(s.redis, s.calls, l.step);
    } else if l.StartCall? {
      var ctx := Instrumentation.Context(l.id, Some(s.turns[l.t].c), l.provider, l.model, l.streamed);
      QuietStepKeepsSourced(s.redis, s.calls, Producer.Start(l.t, ctx));
    } else {
      OthersLeaveCallsAlone(s, maxlen, l);
      SameEntriesSourced(s.redis, n.redis, s.calls);
    }
  }

  lemma SameEntriesSourced(r: Redis, r': Redis, calls: Producer.State)
    requires Sourced(r, calls) && r'.entries == r.entries
    ensures Sourced(r', calls)
  {
    assert forall d: nat :: IdAt(r', d) == IdAt(r, d);
  }

  /** Everything a run without foreign writers keeps. */
  predicate OwnInv(s: State) {
    Inv(s) && NamesOk(s) && CallsOk(s) && Sourced(s.redis, s.calls)
  }

  lemma {:induction false} RunKeepsOwnInv(s: State, maxlen: nat, labels: seq<Label>)
    requires OwnInv(s) && OwnRun(labels) && Run(s, maxlen, labels).Some?
    ensures OwnInv(Run(s, maxlen, labels).value)
    decreases |labels|
  {
    if labels != [] {
      NextKeepsInv(s, maxlen, labels[0]);
      NextKeepsNames(s, maxlen, labels[0]);
      NextKeepsCalls(s, maxlen, labels[0]);
      NextKeepsSourced(s, maxlen, labels[0]);
      RunKeepsOwnInv(Next(s, maxlen, labels[0]).value, maxlen, labels[1..]);
    }
  }

  lemma ReachableOwnInv(maxlen: nat, labels: seq<Label>)
    requires OwnRun(labels) && Run(Init(), maxlen, labels).Some?
    ensures OwnInv(Run(Init(), maxlen, labels).value)
  {
    RunKeepsOwnInv(Init(), maxlen, labels);
  }

  /** An entry and the turn it comes from: its call's own record, under the id minted for that call. */
  lemma SourceOf(s: State, d: nat) returns (t: TurnId)
    requires OwnInv(s) && d < |s.redis.entries|
    ensures t in s.calls.flights && Sent(s.calls, t, s.redis.entries[d])
    ensures s.redis.entries[d].Object? && IdAt(s.redis, d) == Some(s.calls.flights[t].ctx.id)
    ensures var p := s.redis.entries[d].payload;
      && Validate(p) == Some(Producer.EventOf(s.calls.flights[t])) && Valid(Producer.RecordOf(s.calls.flights[t]))
      && EventTypeOf(p) == EVENT_TYPE_INFERENCE
      && p.fields == Producer.RecordOf(s.calls.flights[t])
      && p.fields.conversationId.Some? && p.fields.conversationId.value in s.created
  {
    assert FromSomeCall(s.calls, s.redis.entries[d]);
    t :| t in s.calls.flights && Sent(s.calls, t, s.redis.entries[d]);
    SentIsOwn(s.calls, t, s.redis.entries[d]);
  }

  /**
   * One call, at most one stream entry. An entry carries a call's id only if it is that call's own
   * record, no two entries share an id, and there is one exactly if the publish landed; the record
   * names the conversation of the turn, which had been committed.
   */
  lemma OneEntryPerCall(maxlen: nat, labels: seq<Label>, t: TurnId, d: nat, e: nat)
    requires OwnRun(labels) && Run(Init(), maxlen, labels).Some?
    requires var s := Run(Init(), maxlen, labels).value;
      t in s.calls.flights && d < |s.redis.entries| && e < |s.redis.entries|
    ensures var s := Run(Init(), maxlen, labels).value;
      var f := s.calls.flights[t];
      && (IdAt(s.redis, d) == Some(f.ctx.id) ==> HasLanded(f) && s.redis.entries[d] == WireOf(f))
      && (IdAt(s.redis, d) == IdAt(s.redis, e) ==> d == e)
      && (HasLanded(f) ==> OnStream(s.redis.entries, WireOf(f)))
      && t in s.turns && s.turns[t].Called? && f.ctx.conversationId == Some(s.turns[t].c) && s.turns[t].c in s.created
  {
    var s := Run(Init(), maxlen, labels).value;
    ReachableOwnInv(maxlen, labels);
    var u := SourceOf(s, d);
    if d != e {
      assert IdAt(s.redis, if d < e then d else e) != IdAt(s.redis, if d < e then e else d);
    }
  }

  /** So an id determines its payload, and the confluence premise holds of every such run. */
  lemma OwnRunsHaveACatalogue(maxlen: nat, labels: seq<Label>) returns (cat: Catalogue)
    requires OwnRun(labels) && Run(Init(), maxlen, labels).Some?
    ensures Conforms(Run(Init(), maxlen, labels).value.redis, cat)
  {
    ReachableOwnInv(maxlen, labels);
    var s := Run(Init(), maxlen, labels).value;
    cat := BuildCatalogue(s.redis, |s.redis.entries|);
  }

  lemma {:induction false} BuildCatalogue(r: Redis, n: nat) returns (cat: Catalogue)
    requires DistinctEntries(r) && n <= |r.entries|
    ensures forall d: nat :: d < n && IdAt(r, d).Some? ==>
      IdAt(r, d).value in cat && cat[IdAt(r, d).value] == r.entries[d].payload
  {
    if n == 0 {
      cat := map[];
    } else {
      cat := BuildCatalogue(r, n - 1);
      if IdAt(r, n - 1).Some? {
        cat := cat[IdAt(r, n - 1).value := r.entries[n - 1].payload];
      }
    }
  }

  /** A raw row's id is the id of some published entry. */
  lemma {:induction false} CommittedIdWasPublished(s: State, maxlen: nat, labels: seq<Label>, id: EventId) returns (d: nat)
    requires Inv(s) && Run(s, maxlen, labels).Some?
    requires id in Run(s, maxlen, labels).value.tables.raws && id !in s.tables.raws
    ensures d < |Run(s, maxlen, labels).value.redis.entries|
    ensures IdAt(Run(s, maxlen, labels).value.redis, d) == Some(id)
    decreases |labels|
  {
    var s1 := Next(s, maxlen, labels[0]).value;
    NextKeepsInv(s, maxlen, labels[0]);
    NextRecordsIds(s, maxlen, labels[0]);
    if id in s1.tables.raws {
      d := s.workers[labels[0].w].batch[0];
      RunKeepsEntries(s, maxlen, labels);
      assert s.redis.entries[d] == Run(s, maxlen, labels).value.redis.entries[d];
    } else {
      d := CommittedIdWasPublished(s1, maxlen, labels[1..], id);
    }
  }

  /** The rows of an id whose payload validates. */
  lemma CanonicalRow(t: Tables, created: set<ConvId>, cat: Catalogue, id: EventId, e: InferenceEvent)
    requires Canonical(t, created, cat) && id in t.raws
    requires cat[id] == Encode(e) && Valid(e.fields)
    ensures id in t.logs && t.logs[id] == NullIfDead(e.fields, t.conversations)
    ensures t.raws[id] == RawRow(EVENT_TYPE_INFERENCE, Encode(e), Processed)
  {
    WireRoundTrip(e);
  }

  /** What the rows of an id show, given an entry that carries it. */
  predicate ShowsCall(s: State, t: TurnId, id: EventId) {
    && t in s.calls.flights && s.calls.flights[t].ctx.id == id && HasLanded(s.calls.flights[t])
    && Valid(Producer.RecordOf(s.calls.flights[t]))
    && id in s.tables.logs && id in s.tables.raws
    && s.tables.logs[id] == NullIfDead(Producer.RecordOf(s.calls.flights[t]), s.tables.conversations)
    && s.tables.raws[id] == RawRow(EVENT_TYPE_INFERENCE, Encode(Producer.EventOf(s.calls.flights[t])), Processed)
  }

  lemma RowShowsCall(s: State, cat: Catalogue, d: nat) returns (t: TurnId)
    requires OwnInv(s) && Canonical(s.tables, s.created, cat) && Conforms(s.redis, cat)
    requires d < |s.redis.entries| && IdAt(s.redis, d).Some? && IdAt(s.redis, d).value in s.tables.raws
    ensures ShowsCall(s, t, IdAt(s.redis, d).value)
  {
    t := SourceOf(s, d);
    CanonicalRow(s.tables, s.created, cat, IdAt(s.redis, d).value, Producer.EventOf(s.calls.flights[t]));
  }

  lemma ReachableCanonical(maxlen: nat, labels: seq<Label>) returns (cat: Catalogue)
    requires OwnRun(labels) && Run(Init(), maxlen, labels).Some?
    ensures var s := Run(Init(), maxlen, labels).value; Conforms(s.redis, cat) && Canonical(s.tables, s.created, cat)
  {
    cat := OwnRunsHaveACatalogue(maxlen, labels);
    RunKeepsCanonical(Init(), maxlen, labels, cat);
  }

  /** Every row belongs to one call, and shows that call's own record. */
  lemma RowsComeFromCalls(maxlen: nat, labels: seq<Label>, id: EventId) returns (t: TurnId)
    requires OwnRun(labels) && Run(Init(), maxlen, labels).Some?
    requires id in Run(Init(), maxlen, labels).value.tables.raws
    ensures var s := Run(Init(), maxlen, labels).value;
      && ShowsCall(s, t, id)
      && (forall u :: u in s.calls.flights && s.calls.flights[u].ctx.id == id ==> u == t)
  {
    ReachableOwnInv(maxlen, labels);
    var cat := ReachableCanonical(maxlen, labels);
    var d := CommittedIdWasPublished(Init(), maxlen, labels, id);
    t := RowShowsCall(Run(Init(), maxlen, labels).value, cat, d);
  }

  /**
   * One call, one event, one row. In every reachable state, a call that has ended has at most one row;
   * it has one exactly if its event was handled in a committed transaction; and the row is then the
   * call's own record, its conversation nulled only if it was deleted since. Once the calls are quiet,
   * that record has been published exactly once if it could be constructed at all.
   */
  lemma OneCallOneRow(maxlen: nat, labels: seq<Label>, t: TurnId)
    requires OwnRun(labels) && Run(Init(), maxlen, labels).Some?
    requires var s := Run(Init(), maxlen, labels).value; t in s.calls.flights && s.calls.flights[t].ended.Some?
    ensures var s := Run(Init(), maxlen, labels).value;
      var f := s.calls.flights[t];
      var record := Instrumentation.Recorded(f.ctx, f.ended.value);
      && (f.ctx.id in s.tables.logs <==> f.ctx.id in CommittedIds(Init(), maxlen, labels))
      && (f.ctx.id in s.tables.logs ==>
            && HasLanded(f) && Instrumentation.Constructible(f.ctx, f.ended.value)
            && f.published == [InferenceEvent(f.ctx.id, record)]
            && s.tables.logs[f.ctx.id].(conversationId := record.conversationId) == record
            && s.tables.logs[f.ctx.id].conversationId
                 == (if record.conversationId.Some? && record.conversationId.value in s.tables.conversations
                     then record.conversationId else None)
            && f.ctx.id in s.tables.raws
            && s.tables.raws[f.ctx.id] == RawRow(EVENT_TYPE_INFERENCE, Encode(InferenceEvent(f.ctx.id, record)), Processed))
      && (forall u :: u in s.calls.flights && u != t ==> s.calls.flights[u].ctx.id != f.ctx.id)
      && (Producer.Quiet(s.calls) ==>
            f.published == if Instrumentation.Constructible(f.ctx, f.ended.value)
                           then [InferenceEvent(f.ctx.id, record)] else [])
  {
    var s := Run(Init(), maxlen, labels).value;
    var f := s.calls.flights[t];
    ReachableOwnInv(maxlen, labels);
    RawRowsAreTheCommittedIds(Init(), maxlen, labels);
    assert Producer.FlightOk(f, t in s.calls.inflight);
    Instrumentation.ConstructibleExactly(f.ctx, f.ended.value);
    if f.ctx.id in s.tables.raws {
      var u := RowsComeFromCalls(maxlen, labels, f.ctx.id);
      assert u == t;
    }
  }

  /**
   * Referential safety. A transaction for one of our own events cannot commit exactly when a counter
   * overflows its column, or the row is new and its conversation has been deleted since the user
   * turn committed; there is no other way for the foreign key to fail.
   */
  lemma ForeignKeyFailsOnlyAfterDeletion(maxlen: nat, labels: seq<Label>, d: nat)
    requires OwnRun(labels) && Run(Init(), maxlen, labels).Some?
    requires d < |Run(Init(), maxlen, labels).value.redis.entries|
    ensures var s := Run(Init(), maxlen, labels).value;
      && PayloadAt(s.redis, d).Some?
      && var p := PayloadAt(s.redis, d).value;
      && ExtractId(p).Some? && p.fields.conversationId.Some?
      && (Land(s.tables, ExtractId(p).value, p).None? <==>
            || !IntegersFit(p.fields)
            || (ExtractId(p).value !in s.tables.logs && p.fields.conversationId.value in s.deleted))
  {
    var s := Run(Init(), maxlen, labels).value;
    ReachableOwnInv(maxlen, labels);
    var t := SourceOf(s, d);
    var p := PayloadAt(s.redis, d).value;
    LandAborts(s.tables, ExtractId(p).value, p);
  }
}
