/**
 * Order does not matter: the committed tables are a function of which events were committed and
 * which conversations are alive.
 */
module IngestionConfluence {
  import opened Common
  import opened Events
  import opened Store
  import opened Broker
  import opened IngestionProtocol
  import opened IngestionSafety

  /** An id determines its payload: `cat` says which. */
  type Catalogue = map<EventId, Payload>

  predicate Conforms(r: Redis, cat: Catalogue) {
    forall d: nat :: d < |r.entries| && IdAt(r, d).Some? ==>
      IdAt(r, d).value in cat && cat[IdAt(r, d).value] == r.entries[d].payload
  }

  function Verdict(p: Payload): ProcessingStatus {
    if Validate(p).Some? then Processed else Failed
  }

  /** Every raw row shows its id's payload with the schema's verdict on it. */
  ghost predicate CanonicalRaws(t: Tables, cat: Catalogue) {
    forall id :: id in t.raws ==> id in cat && t.raws[id] == RawRow(EventTypeOf(cat[id]), cat[id], Verdict(cat[id]))
  }

  /** The log rows are those of the accepted payloads, without the conversations that have gone. */
  ghost predicate CanonicalLogs(t: Tables, created: set<ConvId>, cat: Catalogue)
    requires CanonicalRaws(t, cat)
  {
    && (forall id :: id in t.logs <==> id in t.raws && Verdict(cat[id]).Processed?)
    && (forall id :: id in t.logs ==> t.logs[id] == NullIfDead(cat[id].fields, t.conversations))
    && (forall id :: id in t.logs && cat[id].fields.conversationId.Some? ==> cat[id].fields.conversationId.value in created)
  }

  /** The tables that follow from the set of ids handled (the raw keys) and the live conversations. */
  ghost predicate Canonical(t: Tables, created: set<ConvId>, cat: Catalogue) {
    CanonicalRaws(t, cat) && CanonicalLogs(t, created, cat)
  }

  lemma LandKeepsCanonical(t: Tables, created: set<ConvId>, cat: Catalogue, id: EventId, p: Payload)
    requires Canonical(t, created, cat) && t.conversations <= created
    requires ExtractId(p) == Some(id) && id in cat && cat[id] == p
    requires Land(t, id, p).Some?
    ensures Canonical(Land(t, id, p).value, created, cat)
  {
    LandShape(t, id, p);
    LandAborts(t, id, p);
    LandedKeepsCanonical(t, created, cat, id, p);
  }

  /** One more id, whose payload the catalogue knows and whose conversation, if the row is new, is alive. */
  lemma LandedKeepsCanonical(t: Tables, created: set<ConvId>, cat: Catalogue, id: EventId, p: Payload)
    requires Canonical(t, created, cat) && t.conversations <= created && id in cat && cat[id] == p
    requires Validate(p).Some? && id !in t.logs ==> ForeignKeyHolds(t, p.fields)
    ensures Canonical(Landed(t, id, p), created, cat)
  {
    LandedKeepsRaws(t, cat, id, p);
    LandedKeepsLogs(t, created, cat, id, p);
  }

  lemma LandedKeepsRaws(t: Tables, cat: Catalogue, id: EventId, p: Payload)
    requires CanonicalRaws(t, cat) && id in cat && cat[id] == p
    ensures CanonicalRaws(Landed(t, id, p), cat)
  {
  }

  lemma LandedKeepsLogs(t: Tables, created: set<ConvId>, cat: Catalogue, id: EventId, p: Payload)
    requires Canonical(t, created, cat) && t.conversations <= created && id in cat && cat[id] == p
    requires CanonicalRaws(Landed(t, id, p), cat)
    requires Validate(p).Some? && id !in t.logs ==> ForeignKeyHolds(t, p.fields)
    ensures CanonicalLogs(Landed(t, id, p), created, cat)
  {
  }

  lemma DeleteKeepsCanonical(t: Tables, created: set<ConvId>, cat: Catalogue, c: ConvId)
    requires Canonical(t, created, cat)
    ensures Canonical(AfterDelete(t, c), created, cat)
  {
  }

  /** A conversation that appears for the first time changes nothing for the rows there are. */
  lemma TurnCommitKeepsCanonical(s: State, t: TurnId, cat: Catalogue)
    requires NamesOk(s) && t in s.turns && s.turns[t].Recording?
    requires Canonical(s.tables, s.created, cat)
    ensures Canonical(AfterTurnCommit(s, t).tables, AfterTurnCommit(s, t).created, cat)
  {
  }

  lemma OthersKeepTables(s: State, maxlen: nat, l: Label)
    requires Next(s, maxlen, l).Some?
    requires !l.DeleteConversation? && !l.CommitTurn? && !(l.Work? && l.action.Commit?)
    ensures Next(s, maxlen, l).value.tables == s.tables && Next(s, maxlen, l).value.created == s.created
  {
  }

  lemma NextKeepsCanonical(s: State, maxlen: nat, l: Label, cat: Catalogue)
    requires Inv(s) && NamesOk(s) && Next(s, maxlen, l).Some?
    requires Conforms(s.redis, cat) && Canonical(s.tables, s.created, cat)
    ensures Canonical(Next(s, maxlen, l).value.tables, Next(s, maxlen, l).value.created, cat)
  {
    if l.DeleteConversation? {
      DeleteKeepsCanonical(s.tables, s.created, cat, l.c);
    } else if l.CommitTurn? {
      TurnCommitKeepsCanonical(s, l.t, cat);
    } else if l.Work? && l.action.Commit? {
      var d := s.workers[l.w].batch[0];
      LandKeepsCanonical(s.tables, s.created, cat, IdAt(s.redis, d).value, PayloadAt(s.redis, d).value);
    } else {
      OthersKeepTables(s, maxlen, l);
    }
  }

  /** Conforming at the end of a run means conforming all along: entries are only ever appended. */
  lemma {:induction false} RunKeepsEntries(s: State, maxlen: nat, labels: seq<Label>)
    requires Inv(s) && Run(s, maxlen, labels).Some?
    ensures s.redis.entries <= Run(s, maxlen, labels).value.redis.entries
    decreases |labels|
  {
    if labels != [] {
      NextGrows(s, maxlen, labels[0]);
      NextKeepsInv(s, maxlen, labels[0]);
      RunKeepsEntries(Next(s, maxlen, labels[0]).value, maxlen, labels[1..]);
    }
  }

  lemma ConformsEarlier(r: Redis, r': Redis, cat: Catalogue)
    requires r.entries <= r'.entries && Conforms(r', cat)
    ensures Conforms(r, cat)
  {
    forall d: nat | d < |r.entries| && IdAt(r, d).Some?
      ensures IdAt(r, d).value in cat && cat[IdAt(r, d).value] == r.entries[d].payload
    {
      assert r.entries[d] == r'.entries[d];
      assert IdAt(r', d) == IdAt(r, d);
    }
  }

  lemma {:induction false} RunKeepsCanonical(s: State, maxlen: nat, labels: seq<Label>, cat: Catalogue)
    requires Inv(s) && NamesOk(s) && Run(s, maxlen, labels).Some?
    requires Conforms(Run(s, maxlen, labels).value.redis, cat) && Canonical(s.tables, s.created, cat)
    ensures Canonical(Run(s, maxlen, labels).value.tables, Run(s, maxlen, labels).value.created, cat)
    decreases |labels|
  {
    if labels != [] {
      RunKeepsEntries(s, maxlen, labels);
      ConformsEarlier(s.redis, Run(s, maxlen, labels).value.redis, cat);
      NextKeepsCanonical(s, maxlen, labels[0], cat);
      NextKeepsInv(s, maxlen, labels[0]);
      NextKeepsNames(s, maxlen, labels[0]);
      RunKeepsCanonical(Next(s, maxlen, labels[0]).value, maxlen, labels[1..], cat);
    }
  }

  // ---- which ids a run committed ----

  function CommittedBy(s: State, l: Label): set<EventId> {
    if l.Work? && l.action.Commit? && l.w in s.workers && s.workers[l.w].Handling? && s.workers[l.w].batch != []
       && IdAt(s.redis, s.workers[l.w].batch[0]).Some?
    then {IdAt(s.redis, s.workers[l.w].batch[0]).value} else {}
  }

  /** The ids handled in a committed transaction along the run, by whichever worker. */
  function CommittedIds(s: State, maxlen: nat, labels: seq<Label>): set<EventId>
    decreases |labels|
  {
    if labels == [] then {}
    else
      var next := Next(s, maxlen, labels[0]);
      CommittedBy(s, labels[0]) + (if next.Some? then CommittedIds(next.value, maxlen, labels[1..]) else {})
  }

  lemma NextRecordsIds(s: State, maxlen: nat, l: Label)
    requires Inv(s) && Next(s, maxlen, l).Some?
    ensures Next(s, maxlen, l).value.tables.raws.Keys == s.tables.raws.Keys + CommittedBy(s, l)
  {
    if l.Work? && l.action.Commit? {
      var d := s.workers[l.w].batch[0];
      LandKeepsTables(s.tables, IdAt(s.redis, d).value, PayloadAt(s.redis, d).value);
    }
  }

  lemma {:induction false} RawRowsAreTheCommittedIds(s: State, maxlen: nat, labels: seq<Label>)
    requires Inv(s) && Run(s, maxlen, labels).Some?
    ensures Run(s, maxlen, labels).value.tables.raws.Keys == s.tables.raws.Keys + CommittedIds(s, maxlen, labels)
    decreases |labels|
  {
    if labels != [] {
      NextRecordsIds(s, maxlen, labels[0]);
      NextKeepsInv(s, maxlen, labels[0]);
      RawRowsAreTheCommittedIds(Next(s, maxlen, labels[0]).value, maxlen, labels[1..]);
    }
  }

  lemma CanonicalTablesAreEqual(t: Tables, u: Tables, ct: set<ConvId>, cu: set<ConvId>, cat: Catalogue)
    requires Canonical(t, ct, cat) && Canonical(u, cu, cat)
    requires t.raws.Keys == u.raws.Keys && t.conversations == u.conversations
    ensures t == u
  {
    assert t.raws == u.raws;
    assert t.logs.Keys == u.logs.Keys;
    assert t.logs == u.logs;
  }

  /**
   * Ingestion is confluent. Two runs over events with the same payloads that committed the same ids
   * and left the same conversations alive have the same tables, row for row: order, duplicates,
   * crashes, aborted transactions, lost groups and the choice of worker leave no trace.
   */
  lemma IngestionIsConfluent(maxlen: nat, left: seq<Label>, maxlen': nat, right: seq<Label>, cat: Catalogue)
    requires Run(Init(), maxlen, left).Some? && Run(Init(), maxlen', right).Some?
    requires Conforms(Run(Init(), maxlen, left).value.redis, cat)
    requires Conforms(Run(Init(), maxlen', right).value.redis, cat)
    requires CommittedIds(Init(), maxlen, left) == CommittedIds(Init(), maxlen', right)
    requires Run(Init(), maxlen, left).value.tables.conversations == Run(Init(), maxlen', right).value.tables.conversations
    ensures Run(Init(), maxlen, left).value.tables == Run(Init(), maxlen', right).value.tables
  {
    RunKeepsCanonical(Init(), maxlen, left, cat);
    RunKeepsCanonical(Init(), maxlen', right, cat);
    RawRowsAreTheCommittedIds(Init(), maxlen, left);
    RawRowsAreTheCommittedIds(Init(), maxlen', right);
    CanonicalTablesAreEqual(Run(Init(), maxlen, left).value.tables, Run(Init(), maxlen', right).value.tables,
                            Run(Init(), maxlen, left).value.created, Run(Init(), maxlen', right).value.created, cat);
  }

  /** With determined payloads the raw status says exactly whether there is a log row. */
  lemma StatusTellsTheLogRow(maxlen: nat, labels: seq<Label>, cat: Catalogue, id: EventId)
    requires Run(Init(), maxlen, labels).Some?
    requires Conforms(Run(Init(), maxlen, labels).value.redis, cat)
    requires id in Run(Init(), maxlen, labels).value.tables.raws
    ensures var t := Run(Init(), maxlen, labels).value.tables;
      && (id in t.logs <==> t.raws[id].status.Processed?)
      && (id !in t.logs <==> t.raws[id].status.Failed?)
      && id in CommittedIds(Init(), maxlen, labels)
  {
    RunKeepsCanonical(Init(), maxlen, labels, cat);
    RawRowsAreTheCommittedIds(Init(), maxlen, labels);
  }

  /**
   * With determined payloads an id whose payload is not well typed, is of another event type or breaks
   * the model's bounds never has a log row, and its raw row, if it has been handled, says FAILED.
   */
  lemma RejectedNeverShows(maxlen: nat, labels: seq<Label>, cat: Catalogue, id: EventId)
    requires Run(Init(), maxlen, labels).Some?
    requires Conforms(Run(Init(), maxlen, labels).value.redis, cat)
    requires id in cat
    requires var p := cat[id];
      !p.wellTyped || (p.eventType.Some? && p.eventType.value != "inference.completed") || !Valid(p.fields)
    ensures var t := Run(Init(), maxlen, labels).value.tables;
      id !in t.logs && (id in t.raws ==> t.raws[id].status.Failed? && t.raws[id].payload == cat[id])
  {
    ReachableCanonicalTables(maxlen, labels, cat);
    ValidatesExactly(cat[id]);
  }

  lemma ReachableCanonicalTables(maxlen: nat, labels: seq<Label>, cat: Catalogue)
    requires Run(Init(), maxlen, labels).Some?
    requires Conforms(Run(Init(), maxlen, labels).value.redis, cat)
    ensures Canonical(Run(Init(), maxlen, labels).value.tables, Run(Init(), maxlen, labels).value.created, cat)
  {
    RunKeepsCanonical(Init(), maxlen, labels, cat);
  }

  /**
   * The premise cannot be dropped: when two payloads share a fresh id, landing them in either order
   * gives the same tables exactly when they are the same payload.
   */
  lemma SharedIdIsOrderSensitive(t: Tables, id: EventId, p: Payload, q: Payload)
    requires ExtractId(p) == Some(id) && ExtractId(q) == Some(id) && id !in t.raws
    requires Land(t, id, p).Some? && Land(Land(t, id, p).value, id, q).Some?
    requires Land(t, id, q).Some? && Land(Land(t, id, q).value, id, p).Some?
    ensures Land(Land(t, id, p).value, id, q) == Land(Land(t, id, q).value, id, p) <==> p == q
  {
    LandShape(t, id, p);
    LandShape(t, id, q);
    LandShape(Landed(t, id, p), id, q);
    LandShape(Landed(t, id, q), id, p);
    assert Landed(Landed(t, id, p), id, q).raws[id].payload == p;
    assert Landed(Landed(t, id, q), id, p).raws[id].payload == q;
  }

  // ---- the counters of many workers ----

  /** This step is a commit whose payload adds a log row: what its worker counts as `inserted`. */
  predicate Inserts(s: State, l: Label) {
    && l.Work? && l.action.Commit? && l.w in s.workers && s.workers[l.w].Handling? && s.workers[l.w].batch != []
    && IdAt(s.redis, s.workers[l.w].batch[0]).Some?
    && Validate(PayloadAt(s.redis, s.workers[l.w].batch[0]).value).Some?
    && IdAt(s.redis, s.workers[l.w].batch[0]).value !in s.tables.logs
  }

  function InsertedAlong(s: State, maxlen: nat, labels: seq<Label>): nat
    decreases |labels|
  {
    if labels == [] then 0
    else
      var next := Next(s, maxlen, labels[0]);
      (if Inserts(s, labels[0]) then 1 else 0) + (if next.Some? then InsertedAlong(next.value, maxlen, labels[1..]) else 0)
  }

  lemma NextCountsInserts(s: State, maxlen: nat, l: Label)
    requires Inv(s) && Next(s, maxlen, l).Some?
    ensures |Next(s, maxlen, l).value.tables.logs| == |s.tables.logs| + if Inserts(s, l) then 1 else 0
  {
    if l.Work? && l.action.Commit? {
      var d := s.workers[l.w].batch[0];
      LandShape(s.tables, IdAt(s.redis, d).value, PayloadAt(s.redis, d).value);
    } else if l.DeleteConversation? {
      DeleteKeepsLogCount(s.tables, l.c);
    } else if !l.CommitTurn? {
      OthersKeepTables(s, maxlen, l);
    }
  }

  lemma DeleteKeepsLogCount(t: Tables, c: ConvId)
    ensures |AfterDelete(t, c).logs| == |t.logs|
  {
    assert AfterDelete(t, c).logs.Keys == t.logs.Keys;
    assert |AfterDelete(t, c).logs| == |AfterDelete(t, c).logs.Keys| && |t.logs| == |t.logs.Keys|;
  }

  /** However many workers interleave, together they count as inserted exactly the log rows added. */
  lemma {:induction false} InsertedCountsAddUp(s: State, maxlen: nat, labels: seq<Label>)
    requires Inv(s) && Run(s, maxlen, labels).Some?
    ensures |Run(s, maxlen, labels).value.tables.logs| == |s.tables.logs| + InsertedAlong(s, maxlen, labels)
    decreases |labels|
  {
    if labels != [] {
      NextCountsInserts(s, maxlen, labels[0]);
      NextKeepsInv(s, maxlen, labels[0]);
      InsertedCountsAddUp(Next(s, maxlen, labels[0]).value, maxlen, labels[1..]);
    }
  }
}
