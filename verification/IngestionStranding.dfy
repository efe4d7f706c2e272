/**
 * What "not acked, so redelivered" amounts to. `poll` only ever asks for ">" and nothing claims
 * pending entries, so a delivery that a worker drops is not offered again by this code.
 */
module IngestionStranding {
  import opened Common
  import opened Broker
  import opened IngestionProtocol
  import opened IngestionSafety

  predicate Holds(phase: Phase, d: nat) {
    match phase
    case Idle => false
    case Decoding(todo, _, ready) => d in todo || d in ready
    case Handling(batch, _) => d in batch
  }

  /** Pending, and in no worker's hands. */
  predicate Stranded(s: State, d: nat) {
    && s.redis.group.Group?
    && d in s.redis.group.pending
    && (forall w :: w in s.workers ==> !Holds(s.workers[w], d))
  }

  /** The steps from outside that could bring a stranded delivery back. */
  predicate Rescues(l: Label, d: nat) {
    LosesGroup(l) || (l.Work? && l.action == Redeliver(d))
  }

  lemma WorkerNextDoesNotPickUp(l: Local, a: WorkerAction, d: nat)
    requires RedisOk(l.redis) && PhaseOk(l.redis, l.tables, l.phase)
    requires l.redis.group.Group? && d in l.redis.group.pending && !Holds(l.phase, d)
    requires a != Redeliver(d) && WorkerNext(l, a).Some?
    ensures var n := WorkerNext(l, a).value;
      && n.redis.group.Group? && d in n.redis.group.pending && !Holds(n.phase, d)
      && (d in n.redis.acks <==> d in l.redis.acks)
  {
    var n := WorkerNext(l, a).value;
    match a
    case Fetch(count) =>
      ReadConserves(l.redis, count);
    case Accept =>
      assert l.phase.todo[0] in l.phase.todo;
      assert forall x :: x in l.phase.todo[1..] ==> x in l.phase.todo;
    case AckMalformed =>
      assert l.phase.todo[0] in l.phase.todo;
      assert forall x :: x in l.phase.todo[1..] ==> x in l.phase.todo;
    case Ack =>
      assert l.phase.batch[0] in l.phase.batch;
      assert forall x :: x in l.phase.batch[1..] ==> x in l.phase.batch;
    case _ =>
  }

  lemma OutsideDoesNotPickUp(s: State, maxlen: nat, l: Label)
    requires !l.Work? && !LosesGroup(l) && Next(s, maxlen, l).Some?
    ensures var n := Next(s, maxlen, l).value;
      && n.redis.group == s.redis.group && n.redis.acks == s.redis.acks
      && (forall w :: w in n.workers ==> n.workers[w].Idle? || (w in s.workers && n.workers[w] == s.workers[w]))
  {
    OutsideGrows(s, maxlen, l);
    OutsideHandsOutNothing(s, maxlen, l);
  }

  lemma NextKeepsStranded(s: State, maxlen: nat, l: Label, d: nat)
    requires Inv(s) && Stranded(s, d) && Next(s, maxlen, l).Some? && !Rescues(l, d)
    ensures Stranded(Next(s, maxlen, l).value, d)
    ensures d in Next(s, maxlen, l).value.redis.acks <==> d in s.redis.acks
  {
    if l.Work? {
      WorkerNextDoesNotPickUp(Local(s.redis, s.tables, s.workers[l.w]), l.action, d);
    } else {
      OutsideDoesNotPickUp(s, maxlen, l);
    }
  }

  /**
   * A dropped delivery stays dropped: until the group is lost or an operator hands it out again, it
   * remains pending, is never acknowledged and is never given to a worker, however long the run.
   */
  lemma {:induction false} StrandedStaysStranded(s: State, maxlen: nat, labels: seq<Label>, d: nat)
    requires Inv(s) && Stranded(s, d) && Run(s, maxlen, labels).Some?
    requires forall k :: 0 <= k < |labels| ==> !Rescues(labels[k], d)
    ensures Stranded(Run(s, maxlen, labels).value, d)
    ensures d in Run(s, maxlen, labels).value.redis.acks <==> d in s.redis.acks
    decreases |labels|
  {
    if labels != [] {
      assert !Rescues(labels[0], d);
      NextKeepsStranded(s, maxlen, labels[0], d);
      NextKeepsInv(s, maxlen, labels[0]);
      StrandedStaysStranded(Next(s, maxlen, labels[0]).value, maxlen, labels[1..], d);
    }
  }

  /** An exception in the middle of a batch strands exactly the deliveries not yet acknowledged. */
  lemma AbandonStrandsTheRest(s: State, maxlen: nat, w: WorkerId, d: nat)
    requires Inv(s) && w in s.workers && Holds(s.workers[w], d)
    requires forall v :: v in s.workers && v != w ==> !Holds(s.workers[v], d)
    requires s.redis.group.Group?
    ensures Next(s, maxlen, Work(w, Abandon)).Some?
    ensures Stranded(Next(s, maxlen, Work(w, Abandon)).value, d) <==> d in s.redis.group.pending
  {
  }
}
