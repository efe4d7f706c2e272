/**
 * What every reachable state of the pipeline satisfies, whatever the interleaving, however
 * often workers stop, transactions abort, entries are redelivered or the group is lost.
 */
module IngestionSafety {
  import opened Common
  import opened Events
  import opened Store
  import opened Broker
  import opened IngestionProtocol

  predicate Lettered(r: Redis, d: nat, reason: Reason) {
    d < |r.entries| && DeadLetter(r.entries[d], reason) in r.letters
  }

  /** Nothing about the delivery is lost any more: its row, or its dead letter, exists. */
  predicate Accounted(r: Redis, t: Tables, d: nat) {
    && d < |r.entries|
    && match r.entries[d]
       case Object(p) =>
         var id := ExtractId(p);
         if id.None? then Lettered(r, d, MissingOrInvalidId)
         else if Validate(p).Some? then id.value in t.logs && id.value in t.raws
         else id.value in t.raws && Lettered(r, d, SchemaValidationFailed)
       case NonObject => false
       case _ => Lettered(r, d, MalformedJson)
  }

  /** Every entry still in the stream is in exactly one of undelivered, pending and acknowledged. */
  predicate GroupConserves(r: Redis) {
    r.group.Group? ==>
      && r.group.cursor <= |r.entries|
      && (forall d :: d in r.group.pending ==> d < r.group.cursor && d !in r.group.acked)
      && (forall d :: d in r.group.acked ==> d < r.group.cursor)
      && (forall d :: r.first <= d < r.group.cursor ==> d in r.group.pending || d in r.group.acked)
  }

  predicate RedisOk(r: Redis) {
    && r.first <= |r.entries|
    && GroupConserves(r)
    && (r.group.Group? ==> r.group.acked <= r.acks)
  }

  predicate AcksAccounted(r: Redis, t: Tables) {
    forall d :: d in r.acks ==> Accounted(r, t, d)
  }

  predicate Decodable(r: Redis, d: nat) {
    d < |r.entries| && !Malformed(r.entries[d])
  }

  /** What a worker has established about the deliveries in its hands. */
  predicate PhaseOk(r: Redis, t: Tables, phase: Phase) {
    match phase
    case Idle => true
    case Decoding(todo, lettered, ready) =>
      && (forall k :: 0 <= k < |todo| ==> todo[k] < |r.entries|)
      && (forall k :: 0 <= k < |ready| ==> Decodable(r, ready[k]))
      && (lettered ==> todo != [] && todo[0] < |r.entries| && Malformed(r.entries[todo[0]])
                       && Lettered(r, todo[0], MalformedJson))
    case Handling(batch, stage) =>
      && (forall k :: 0 <= k < |batch| ==> Decodable(r, batch[k]))
      && (!stage.Fresh? ==> batch != [])
      && (stage.NoIdLettered? ==> PayloadAt(r, batch[0]).Some? && IdAt(r, batch[0]).None?
                                  && Lettered(r, batch[0], MissingOrInvalidId))
      && (stage.InTransaction? ==> IdAt(r, batch[0]).Some?)
      && (stage.RejectionLettered? ==> IdAt(r, batch[0]).Some? && Lettered(r, batch[0], SchemaValidationFailed))
      && (stage.Committed? ==> Accounted(r, t, batch[0]))
  }

  /** The two tables agree with each other and with `conversations`. */
  predicate TablesOk(t: Tables) {
    && (forall id :: id in t.raws ==> !t.raws[id].status.Pending?)
    && (forall id :: id in t.raws && t.raws[id].status.Processed? ==> id in t.logs)
    && (forall id :: id in t.logs ==> id in t.raws)
    && (forall id :: id in t.logs ==> ForeignKeyHolds(t, t.logs[id]))
  }

  predicate Inv(s: State) {
    && RedisOk(s.redis)
    && AcksAccounted(s.redis, s.tables)
    && TablesOk(s.tables)
    && s.tables.conversations <= s.created
    && (forall w :: w in s.workers ==> PhaseOk(s.redis, s.tables, s.workers[w]))
  }

  /** Histories only get longer and keys never disappear. */
  predicate Grows(r: Redis, t: Tables, r': Redis, t': Tables) {
    && r.entries <= r'.entries
    && (forall x :: x in r.letters ==> x in r'.letters)
    && t.raws.Keys <= t'.raws.Keys
    && t.logs.Keys <= t'.logs.Keys
  }

  lemma AccountedPersists(r: Redis, t: Tables, r': Redis, t': Tables, d: nat)
    requires Grows(r, t, r', t') && Accounted(r, t, d)
    ensures Accounted(r', t', d)
  {
    assert r.entries[d] == r'.entries[d];
  }

  lemma PhasePersists(r: Redis, t: Tables, r': Redis, t': Tables, phase: Phase)
    requires Grows(r, t, r', t') && PhaseOk(r, t, phase)
    ensures PhaseOk(r', t', phase)
  {
    assert forall d: nat :: d < |r.entries| ==> r.entries[d] == r'.entries[d];
    if phase.Handling? && phase.stage.Committed? {
      AccountedPersists(r, t, r', t', phase.batch[0]);
    }
  }

  lemma LandKeepsTables(t: Tables, id: EventId, p: Payload)
    requires TablesOk(t) && ExtractId(p) == Some(id) && Land(t, id, p).Some?
    ensures TablesOk(Land(t, id, p).value)
    ensures t.raws.Keys + {id} == Land(t, id, p).value.raws.Keys
    ensures t.logs.Keys + (if Validate(p).Some? then {id} else {}) == Land(t, id, p).value.logs.Keys
  {
    LandShape(t, id, p);
    LandAborts(t, id, p);
  }

  /** Reading hands out each position once and moves it from undelivered to pending. */
  lemma ReadConserves(r: Redis, n: nat)
    requires RedisOk(r) && r.group.Group? && ReadFrom(r) + n <= |r.entries|
    ensures RedisOk(Read(r, n))
    ensures forall d :: d in Positions(ReadFrom(r), n) ==>
      d >= r.group.cursor && r.first <= d < |r.entries| && d !in r.group.pending && d !in r.group.acked
  {
    var from, r' := ReadFrom(r), Read(r, n);
    forall d | r'.first <= d < r'.group.cursor ensures d in r'.group.pending || d in r'.group.acked {
      if from <= d {
        assert Positions(from, n)[d - from] == d;
      }
    }
  }

  /** What one await of one worker keeps: histories, broker, tables, and the worker's own knowledge. */
  predicate Keeps(l: Local, n: Local) {
    && Grows(l.redis, l.tables, n.redis, n.tables) && RedisOk(n.redis) && AcksAccounted(n.redis, n.tables)
    && TablesOk(n.tables) && PhaseOk(n.redis, n.tables, n.phase)
    && n.tables.conversations == l.tables.conversations
  }

  predicate Sound(l: Local) {
    && RedisOk(l.redis) && AcksAccounted(l.redis, l.tables) && TablesOk(l.tables)
    && PhaseOk(l.redis, l.tables, l.phase)
  }

  predicate PollAction(a: WorkerAction) {
    a.CreateGroup? || a.Fetch? || a.Redeliver? || a.Accept? || a.LetterMalformed? || a.AckMalformed? || a.ReturnBatch?
  }

  lemma FetchKeeps(l: Local, count: nat)
    requires Sound(l) && WorkerNext(l, Fetch(count)).Some?
    ensures Keeps(l, WorkerNext(l, Fetch(count)).value)
  {
    ReadConserves(l.redis, count);
  }

  lemma PollKeeps(l: Local, a: WorkerAction)
    requires Sound(l) && PollAction(a) && !a.Fetch? && WorkerNext(l, a).Some?
    ensures Keeps(l, WorkerNext(l, a).value)
  {
  }

  lemma CommitKeeps(l: Local)
    requires Sound(l) && WorkerNext(l, Commit).Some?
    ensures Keeps(l, WorkerNext(l, Commit).value)
  {
    var n := WorkerNext(l, Commit).value;
    var p := PayloadAt(l.redis, l.phase.batch[0]).value;
    LandKeepsTables(l.tables, ExtractId(p).value, p);
    LandShape(l.tables, ExtractId(p).value, p);
    forall d | d in l.redis.acks ensures Accounted(n.redis, n.tables, d) {
      AccountedPersists(l.redis, l.tables, n.redis, n.tables, d);
    }
  }

  lemma HandlingKeeps(l: Local, a: WorkerAction)
    requires Sound(l) && !PollAction(a) && !a.Commit? && WorkerNext(l, a).Some?
    ensures Keeps(l, WorkerNext(l, a).value)
  {
  }

  lemma WorkerKeeps(l: Local, a: WorkerAction)
    requires Sound(l) && WorkerNext(l, a).Some?
    ensures Keeps(l, WorkerNext(l, a).value)
  {
    if a.Fetch? {
      FetchKeeps(l, a.count);
    } else if PollAction(a) {
      PollKeeps(l, a);
    } else if a.Commit? {
      CommitKeeps(l);
    } else {
      HandlingKeeps(l, a);
    }
  }

  /** What the other workers know is still true after somebody else's step. */
  lemma OthersPersist(s: State, s': State)
    requires Inv(s) && Grows(s.redis, s.tables, s'.redis, s'.tables)
    ensures forall w :: w in s.workers ==> PhaseOk(s'.redis, s'.tables, s.workers[w])
    ensures forall d :: d in s.redis.acks ==> Accounted(s'.redis, s'.tables, d)
  {
    forall w | w in s.workers ensures PhaseOk(s'.redis, s'.tables, s.workers[w]) {
      PhasePersists(s.redis, s.tables, s'.redis, s'.tables, s.workers[w]);
    }
    forall d | d in s.redis.acks ensures Accounted(s'.redis, s'.tables, d) {
      AccountedPersists(s.redis, s.tables, s'.redis, s'.tables, d);
    }
  }

  /** Everything but a worker's step: what was written stays, and nobody else learns or forgets anything. */
  lemma OutsideGrows(s: State, maxlen: nat, l: Label)
    requires !l.Work? && Next(s, maxlen, l).Some?
    ensures var n := Next(s, maxlen, l).value;
      && Grows(s.redis, s.tables, n.redis, n.tables)
      && n.redis.acks == s.redis.acks
      && (forall w :: w in n.workers ==> n.workers[w].Idle? || (w in s.workers && n.workers[w] == s.workers[w]))
  {
  }

  lemma OutsideKeepsRedis(s: State, maxlen: nat, l: Label)
    requires RedisOk(s.redis) && !l.Work? && Next(s, maxlen, l).Some?
    ensures RedisOk(Next(s, maxlen, l).value.redis)
  {
  }

  lemma OutsideKeepsTables(s: State, maxlen: nat, l: Label)
    requires TablesOk(s.tables) && s.tables.conversations <= s.created && !l.Work? && Next(s, maxlen, l).Some?
    ensures var n := Next(s, maxlen, l).value; TablesOk(n.tables) && n.tables.conversations <= n.created
  {
  }

  lemma NextGrows(s: State, maxlen: nat, l: Label)
    requires Inv(s) && Next(s, maxlen, l).Some?
    ensures Grows(s.redis, s.tables, Next(s, maxlen, l).value.redis, Next(s, maxlen, l).value.tables)
  {
    if l.Work? {
      WorkerKeeps(Local(s.redis, s.tables, s.workers[l.w]), l.action);
    } else {
      OutsideGrows(s, maxlen, l);
    }
  }

  lemma NextKeepsInv(s: State, maxlen: nat, l: Label)
    requires Inv(s) && Next(s, maxlen, l).Some?
    ensures Inv(Next(s, maxlen, l).value)
  {
    if l.Work? {
      WorkKeepsInv(s, maxlen, l);
    } else {
      OutsideKeepsInv(s, maxlen, l);
    }
  }

  lemma WorkKeepsInv(s: State, maxlen: nat, l: Label)
    requires Inv(s) && l.Work? && Next(s, maxlen, l).Some?
    ensures Inv(Next(s, maxlen, l).value)
  {
    NextGrows(s, maxlen, l);
    OthersPersist(s, Next(s, maxlen, l).value);
    WorkerKeeps(Local(s.redis, s.tables, s.workers[l.w]), l.action);
  }

  lemma OutsideKeepsInv(s: State, maxlen: nat, l: Label)
    requires Inv(s) && !l.Work? && Next(s, maxlen, l).Some?
    ensures Inv(Next(s, maxlen, l).value)
  {
    OutsideGrows(s, maxlen, l);
    OutsideKeepsRedis(s, maxlen, l);
    OutsideKeepsTables(s, maxlen, l);
    OthersPersist(s, Next(s, maxlen, l).value);
  }

  lemma {:induction false} RunKeepsInv(s: State, maxlen: nat, labels: seq<Label>)
    requires Inv(s) && Run(s, maxlen, labels).Some?
    ensures Inv(Run(s, maxlen, labels).value)
    decreases |labels|
  {
    if labels != [] {
      NextKeepsInv(s, maxlen, labels[0]);
      RunKeepsInv(Next(s, maxlen, labels[0]).value, maxlen, labels[1..]);
    }
  }

  /**
   * Acked implies accounted for: in every reachable state, an acknowledged schema-valid event has
   * its log row, a schema-invalid one its raw row and dead letter, an id-less or malformed one its
   * dead letter; and a JSON value that is not an object is never acknowledged at all.
   */
  lemma AckedIsAccountedFor(maxlen: nat, labels: seq<Label>, d: nat)
    requires Run(Init(), maxlen, labels).Some?
    requires d in Run(Init(), maxlen, labels).value.redis.acks
    ensures var s := Run(Init(), maxlen, labels).value;
      && d < |s.redis.entries|
      && var w := s.redis.entries[d];
      && !w.NonObject?
      && (w.NoField? || w.BadJson? || w.JsonNull? ==> DeadLetter(w, MalformedJson) in s.redis.letters)
      && (w.Object? && !w.payload.idField.Uuid? ==> DeadLetter(w, MissingOrInvalidId) in s.redis.letters)
      && (w.Object? && w.payload.idField.Uuid? ==>
            var p := w.payload;
            && p.idField.id in s.tables.raws
            && (p.wellTyped && p.eventType in {None, Some("inference.completed")} && Valid(p.fields) ==>
                  p.idField.id in s.tables.logs)
            && (!p.wellTyped || (p.eventType.Some? && p.eventType.value != "inference.completed") || !Valid(p.fields) ==>
                  DeadLetter(w, SchemaValidationFailed) in s.redis.letters))
  {
    RunKeepsInv(Init(), maxlen, labels);
    var s := Run(Init(), maxlen, labels).value;
    if s.redis.entries[d].Object? {
      ValidatesExactly(s.redis.entries[d].payload);
    }
  }

  /** No committed state shows a half-landed event, and every log row's conversation is null or alive. */
  lemma CommittedTablesAgree(maxlen: nat, labels: seq<Label>, id: EventId)
    requires Run(Init(), maxlen, labels).Some?
    ensures var t := Run(Init(), maxlen, labels).value.tables;
      && (id in t.raws ==> !t.raws[id].status.Pending?)
      && (id in t.raws && t.raws[id].status.Processed? ==> id in t.logs)
      && (id in t.logs ==> id in t.raws)
      && (id in t.logs && t.logs[id].conversationId.Some? ==> t.logs[id].conversationId.value in t.conversations)
  {
    RunKeepsInv(Init(), maxlen, labels);
  }

  /** The three places an entry can be in, as a count, so that "exactly one" is literal. */
  function Places(r: Redis, d: nat): nat
    requires r.group.Group?
  {
    (if d >= r.group.cursor then 1 else 0) + (if d in r.group.pending then 1 else 0)
    + (if d in r.group.acked then 1 else 0)
  }

  lemma EveryRetainedEntryIsInOnePlace(maxlen: nat, labels: seq<Label>, d: nat)
    requires Run(Init(), maxlen, labels).Some?
    requires var r := Run(Init(), maxlen, labels).value.redis; r.group.Group? && r.first <= d < |r.entries|
    ensures Places(Run(Init(), maxlen, labels).value.redis, d) == 1
  {
    RunKeepsInv(Init(), maxlen, labels);
  }

  /** A second ensure_group resets nothing; one after a loss offers every retained entry again. */
  lemma EnsureGroupSkipsNothing(r: Redis)
    requires RedisOk(r)
    ensures r.group.Group? ==> EnsureGroup(r) == r
    ensures r.group.NoGroup? ==> ReadFrom(EnsureGroup(r)) == r.first
    ensures r.group.NoGroup? ==>
      forall d :: r.first <= d < |r.entries| ==> Places(EnsureGroup(r), d) == 1 && d >= EnsureGroup(r).group.cursor
    ensures RedisOk(EnsureGroup(r))
  {
  }

  // ---- conversations and the turns that record them ----

  predicate Creating(turn: Turn) {
    turn.Recording? && turn.creates
  }

  /** A turn that has got past its first transaction names a conversation that was committed. */
  predicate NamesOk(s: State) {
    && s.created == s.tables.conversations + s.deleted
    && s.tables.conversations !! s.deleted
    && (forall t :: t in s.turns && (s.turns[t].TurnCommitted? || s.turns[t].Called?) ==> s.turns[t].c in s.created)
    && (forall t :: t in s.turns && s.turns[t].Recording? ==> (s.turns[t].creates <==> s.turns[t].c !in s.created))
    && (forall t, u :: t in s.turns && u in s.turns && t != u && Creating(s.turns[t]) && s.turns[u].Recording? ==>
          s.turns[t].c != s.turns[u].c)
  }

  lemma WorkerNextKeepsConversations(l: Local, a: WorkerAction)
    requires WorkerNext(l, a).Some?
    ensures WorkerNext(l, a).value.tables.conversations == l.tables.conversations
    ensures WorkerNext(l, a).value.redis.entries == l.redis.entries
  {
    if a.Commit? {
      var p := PayloadAt(l.redis, l.phase.batch[0]).value;
      LandShape(l.tables, ExtractId(p).value, p);
    }
  }

  /** Moving one turn on. */
  lemma ReplacingTurnKeepsNames(s: State, t: TurnId, turn: Turn)
    requires NamesOk(s)
    requires turn.TurnCommitted? || turn.Called? ==> turn.c in s.created
    requires turn.Recording? ==> (turn.creates <==> turn.c !in s.created)
    requires Creating(turn) ==> forall u :: u in s.turns && u != t && s.turns[u].Recording? ==> s.turns[u].c != turn.c
    ensures NamesOk(s.(turns := s.turns[t := turn]))
  {
    var n := s.(turns := s.turns[t := turn]);
    forall u, v | u in n.turns && v in n.turns && u != v && Creating(n.turns[u]) && n.turns[v].Recording?
      ensures n.turns[u].c != n.turns[v].c
    {
      assert u != t ==> Creating(s.turns[u]) && s.turns[u].c !in s.created;
    }
  }

  lemma TurnCommitKeepsNames(s: State, t: TurnId)
    requires NamesOk(s) && t in s.turns && s.turns[t].Recording?
    ensures NamesOk(AfterTurnCommit(s, t))
  {
    if s.turns[t].creates {
      assert Creating(s.turns[t]);
    } else if s.turns[t].c in s.tables.conversations {
      ReplacingTurnKeepsNames(s, t, TurnCommitted(s.turns[t].c));
    } else {
      ReplacingTurnKeepsNames(s, t, NotRecorded);
    }
  }

  /** A turn gets past its transaction exactly if, at the commit, its conversation is new or still there. */
  lemma TurnCommitsExactly(s: State, t: TurnId)
    requires t in s.turns && s.turns[t].Recording?
    ensures var c, n := s.turns[t].c, AfterTurnCommit(s, t);
      && (n.turns[t] == TurnCommitted(c) <==> s.turns[t].creates || c in s.tables.conversations)
      && (n.turns[t] == TurnCommitted(c) ==> c in n.tables.conversations)
      && (n.turns[t] != TurnCommitted(c) ==> n.turns[t] == NotRecorded && n.tables == s.tables)
      && n.tables.logs == s.tables.logs && n.tables.raws == s.tables.raws
      && s.tables.conversations <= n.tables.conversations <= s.tables.conversations + {c}
  {
  }

  lemma TurnStepKeepsNames(s: State, maxlen: nat, l: Label)
    requires NamesOk(s) && Next(s, maxlen, l).Some?
    requires l.CreateInTurn? || l.RequireInTurn? || l.AbortTurn? || l.StartCall?
    ensures NamesOk(Next(s, maxlen, l).value)
  {
    match l
    case CreateInTurn(t, c) => ReplacingTurnKeepsNames(s, t, Recording(c, true));
    case RequireInTurn(t, c) =>
      ReplacingTurnKeepsNames(s, t, if c in s.tables.conversations then Recording(c, false) else NotRecorded);
    case AbortTurn(t) => ReplacingTurnKeepsNames(s, t, NotRecorded);
    case StartCall(t, _, _, _, _) => ReplacingTurnKeepsNames(s, t, Called(s.turns[t].c));
    case _ =>
  }

  /** Steps that move no turn change the conversations only by deleting one. */
  lemma OtherStepKeepsTurns(s: State, maxlen: nat, l: Label)
    requires Next(s, maxlen, l).Some?
    requires !l.CreateInTurn? && !l.RequireInTurn? && !l.AbortTurn? && !l.StartCall? && !l.CommitTurn?
    ensures var n := Next(s, maxlen, l).value;
      && n.turns == s.turns && n.created == s.created
      && (l.DeleteConversation? ==> l.c in s.tables.conversations && n.deleted == s.deleted + {l.c}
                                    && n.tables.conversations == s.tables.conversations - {l.c})
      && (!l.DeleteConversation? ==> n.deleted == s.deleted && n.tables.conversations == s.tables.conversations)
  {
    if l.Work? {
      WorkerNextKeepsConversations(Local(s.redis, s.tables, s.workers[l.w]), l.action);
    }
  }

  lemma NextKeepsNames(s: State, maxlen: nat, l: Label)
    requires NamesOk(s) && Next(s, maxlen, l).Some?
    ensures NamesOk(Next(s, maxlen, l).value)
  {
    if l.CommitTurn? {
      TurnCommitKeepsNames(s, l.t);
    } else if l.CreateInTurn? || l.RequireInTurn? || l.AbortTurn? || l.StartCall? {
      TurnStepKeepsNames(s, maxlen, l);
    } else {
      OtherStepKeepsTurns(s, maxlen, l);
    }
  }

  // ---- each entry is handed to one consumer ----

  predicate LosesGroup(l: Label) {
    l.LoseStream? || l.LoseGroup?
  }

  /** The delivery ids one label hands out through XREADGROUP ">". */
  function FetchedBy(s: State, l: Label): seq<nat> {
    if l.Work? && l.action.Fetch? && l.w in s.workers && s.redis.group.Group?
    then Positions(ReadFrom(s.redis), l.action.count) else []
  }

  function Fetched(s: State, maxlen: nat, labels: seq<Label>): seq<nat>
    decreases |labels|
  {
    if labels == [] then []
    else
      var next := Next(s, maxlen, labels[0]);
      FetchedBy(s, labels[0]) + (if next.Some? then Fetched(next.value, maxlen, labels[1..]) else [])
  }

  function Cursor(r: Redis): nat {
    if r.group.Group? then r.group.cursor else 0
  }

  function HandedOut(r: Redis): set<nat> {
    if r.group.Group? then r.group.pending + r.group.acked else {}
  }

  predicate IncreasingWithin(xs: seq<nat>, lo: nat, hi: nat) {
    && (forall i, j :: 0 <= i < j < |xs| ==> xs[i] < xs[j])
    && (forall i :: 0 <= i < |xs| ==> lo <= xs[i] < hi)
    && lo <= hi
  }

  lemma IncreasingConcat(xs: seq<nat>, ys: seq<nat>, lo: nat, mid: nat, hi: nat)
    requires IncreasingWithin(xs, lo, mid) && IncreasingWithin(ys, mid, hi)
    ensures IncreasingWithin(xs + ys, lo, hi)
  {
  }

  function Elements(xs: seq<nat>): set<nat> {
    set x | x in xs
  }

  /** Everything but a read hands out nothing. */
  lemma ActionHandsOutNothing(l: Local, a: WorkerAction)
    requires !a.Fetch? && WorkerNext(l, a).Some?
    ensures var r' := WorkerNext(l, a).value.redis; Cursor(r') == Cursor(l.redis) && HandedOut(r') == HandedOut(l.redis)
  {
    if a.Commit? {
      assert WorkerNext(l, a).value.redis == l.redis;
    }
  }

  lemma FetchHandsOut(r: Redis, n: nat)
    requires RedisOk(r) && r.group.Group? && ReadFrom(r) + n <= |r.entries|
    ensures IncreasingWithin(Positions(ReadFrom(r), n), Cursor(r), Cursor(Read(r, n)))
    ensures HandedOut(Read(r, n)) == HandedOut(r) + Elements(Positions(ReadFrom(r), n))
  {
  }

  lemma NextHandsOut(s: State, maxlen: nat, l: Label)
    requires Inv(s) && Next(s, maxlen, l).Some? && !LosesGroup(l)
    ensures var r' := Next(s, maxlen, l).value.redis;
      && IncreasingWithin(FetchedBy(s, l), Cursor(s.redis), Cursor(r'))
      && HandedOut(r') == HandedOut(s.redis) + Elements(FetchedBy(s, l))
  {
    if l.Work? && l.action.Fetch? {
      FetchHandsOut(s.redis, l.action.count);
    } else if l.Work? {
      ActionHandsOutNothing(Local(s.redis, s.tables, s.workers[l.w]), l.action);
    } else {
      OutsideHandsOutNothing(s, maxlen, l);
    }
  }

  lemma OutsideHandsOutNothing(s: State, maxlen: nat, l: Label)
    requires Next(s, maxlen, l).Some? && !LosesGroup(l) && !l.Work?
    ensures Next(s, maxlen, l).value.redis.group == s.redis.group
  {
  }

  /**
   * While the group survives, no two reads hand out the same entry, to the same worker or to two
   * different ones; and what has been handed out is exactly what is pending or acknowledged.
   */
  lemma {:induction false} EachEntryGoesToOneConsumer(s: State, maxlen: nat, labels: seq<Label>)
    requires Inv(s) && Run(s, maxlen, labels).Some?
    requires forall k :: 0 <= k < |labels| ==> !LosesGroup(labels[k])
    ensures var r' := Run(s, maxlen, labels).value.redis;
      && IncreasingWithin(Fetched(s, maxlen, labels), Cursor(s.redis), Cursor(r'))
      && HandedOut(r') == HandedOut(s.redis) + Elements(Fetched(s, maxlen, labels))
    decreases |labels|
  {
    if labels == [] {
      assert Fetched(s, maxlen, labels) == [];
    } else {
      var s1 := Next(s, maxlen, labels[0]).value;
      var now, later := FetchedBy(s, labels[0]), Fetched(s1, maxlen, labels[1..]);
      NextKeepsInv(s, maxlen, labels[0]);
      NextHandsOut(s, maxlen, labels[0]);
      EachEntryGoesToOneConsumer(s1, maxlen, labels[1..]);
      IncreasingConcat(now, later, Cursor(s.redis), Cursor(s1.redis),
                       Cursor(Run(s1, maxlen, labels[1..]).value.redis));
      assert Elements(now + later) == Elements(now) + Elements(later);
    }
  }
}
