/**
 * The bounded queue between the generation and the response: a producer task, a disconnect
 * watcher and the response generator, interruptible only where they await.
 *
 * `Next` has one label per stretch of code between two awaits. The source is arbitrary: it may
 * yield any frames, end in any way, and even survive a cancellation.
 */
module SseQueue {
  import opened Common

  type Frame = string

  datatype Item = Chunk(frame: Frame) | DoneMark

  datatype Producer =
    | Pulling                                   // awaiting the source's next frame
    | Putting(frame: Frame, cancelled: bool)    // suspended in queue.put: the queue was full
    | Ended(marked: bool)                       // its finally has run

  datatype Consumer =
    | Getting                                   // awaiting queue.get
    | Yielding                                  // suspended at the yield, the frame is with the client
    | TearingDown                               // in its finally, awaiting the producer
    | Finished

  datatype Watcher = Watching | Returned

  /**
   * `pulled`, `delivered` and `lost` are histories: frames the source yielded, frames handed to the
   * client, frames dropped because a cancellation hit the put. The three counters are the calls of
   * `producer.cancel()` by the watcher, by the teardown, and relayed by a cancelled teardown;
   * `intoSource` counts those that surface inside the source. `marks` counts the end markers enqueued.
   */
  datatype State = State(
    queue: seq<Item>,
    producer: Producer,
    consumer: Consumer,
    watcher: Watcher,
    pulled: seq<Frame>,
    delivered: seq<Frame>,
    lost: seq<Frame>,
    watcherCancels: nat,
    teardownCancels: nat,
    relayedCancels: nat,
    intoSource: nat,
    marks: nat)

  datatype Label =
    | SourceYields(frame: Frame)
    | SourceEnds             // exhausted, failed or cancelled inside
    | PutResumes             // a slot is free
    | PutInterrupted         // CancelledError out of queue.put
    | WatcherSeesDisconnect
    | WatcherSeesEnd
    | Get
    | Resume                 // the client asks for the next frame
    | Close                  // aclose() at the yield
    | CancelConsumer         // the response task itself is cancelled
    | TeardownDone

  function Init(): State {
    State([], Pulling, Getting, Watching, [], [], [], 0, 0, 0, 0, 0)
  }

  /** `producer.cancel()`: nothing once it is done, otherwise it lands on the current await. */
  function Cancelled(s: State): State {
    match s.producer
    case Pulling => s.(intoSource := s.intoSource + 1)
    case Putting(frame, _) => s.(producer := Putting(frame, true))
    case Ended(_) => s
  }

  /** `put_nowait(_DONE)` with QueueFull suppressed, and the producer is over. */
  function ProducerFinally(s: State, cap: nat): State {
    if |s.queue| < cap then s.(queue := s.queue + [DoneMark], marks := s.marks + 1, producer := Ended(true))
    else s.(producer := Ended(false))
  }

  /** The consumer's finally up to its first await. */
  function EnterTeardown(s: State): State {
    Cancelled(s.(consumer := TearingDown, watcher := Returned, teardownCancels := s.teardownCancels + 1))
  }

  function Next(s: State, cap: nat, l: Label): Option<State> {
    match l
    case SourceYields(frame) =>
      if !s.producer.Pulling? then None
      else
        var t := s.(pulled := s.pulled + [frame]);
        if |s.queue| < cap then Some(t.(queue := s.queue + [Chunk(frame)]))
        else Some(t.(producer := Putting(frame, false)))
    case SourceEnds =>
      if s.producer.Pulling? then Some(ProducerFinally(s, cap)) else None
    case PutResumes =>
      if s.producer.Putting? && !s.producer.cancelled && |s.queue| < cap
      then Some(s.(queue := s.queue + [Chunk(s.producer.frame)], producer := Pulling))
      else None
    case PutInterrupted =>
      if s.producer.Putting? && s.producer.cancelled
      then Some(ProducerFinally(s.(lost := s.lost + [s.producer.frame]), cap))
      else None
    case WatcherSeesDisconnect =>
      if s.watcher.Watching? then Some(Cancelled(s.(watcher := Returned, watcherCancels := s.watcherCancels + 1)))
      else None
    case WatcherSeesEnd =>
      if s.watcher.Watching? && s.producer.Ended? then Some(s.(watcher := Returned)) else None
    case Get =>
      if !s.consumer.Getting? || s.queue == [] then None
      else
        var t := s.(queue := s.queue[1..]);
        if s.queue[0].Chunk? then Some(t.(consumer := Yielding, delivered := s.delivered + [s.queue[0].frame]))
        else Some(EnterTeardown(t))
    case Resume =>
      if s.consumer.Yielding? then Some(s.(consumer := Getting)) else None
    case Close =>
      if s.consumer.Yielding? then Some(EnterTeardown(s)) else None
    case CancelConsumer =>
      if s.consumer.Getting? || s.consumer.Yielding? then Some(EnterTeardown(s))
      else if s.consumer.TearingDown? && !s.producer.Ended?
      then Some(Cancelled(s.(relayedCancels := s.relayedCancels + 1)))
      else None
    case TeardownDone =>
      if s.consumer.TearingDown? && s.producer.Ended? then Some(s.(consumer := Finished)) else None
  }

  function Run(s: State, cap: nat, labels: seq<Label>): Option<State>
    decreases |labels|
  {
    if labels == [] then Some(s)
    else
      var next := Next(s, cap, labels[0]);
      if next.None? then None else Run(next.value, cap, labels[1..])
  }

  // ---- what every run keeps ----

  function Frames(queue: seq<Item>): seq<Frame> {
    if queue == [] then []
    else (if queue[0].Chunk? then [queue[0].frame] else []) + Frames(queue[1..])
  }

  function InPut(p: Producer): seq<Frame> {
    if p.Putting? then [p.frame] else []
  }

  /** The end marker only ever stands last, and only behind a producer that has ended. */
  predicate MarkLast(s: State) {
    forall k :: 0 <= k < |s.queue| && s.queue[k].DoneMark? ==> k == |s.queue| - 1 && s.producer == Ended(true)
  }

  predicate Alive(c: Consumer) {
    c.Getting? || c.Yielding?
  }

  function Flow(s: State): seq<Frame> {
    s.delivered + Frames(s.queue) + InPut(s.producer) + s.lost
  }

  /** Everything the source yielded is delivered, queued, being put or known to be lost, in order. */
  predicate Conserves(s: State) {
    && Flow(s) == s.pulled
    && (s.lost != [] ==> s.producer.Ended? && |s.lost| == 1)
  }

  /** The teardown awaits a producer that is itself waiting for room nobody will make. */
  predicate Blocked(s: State) {
    s.consumer.TearingDown? && s.producer.Putting? && !s.producer.cancelled
  }

  predicate Controlled(s: State, cap: nat) {
    && |s.queue| <= cap
    && MarkLast(s)
    && s.marks == (if s.producer == Ended(true) then 1 else 0)
    && (s.producer == Ended(true) && Alive(s.consumer) ==> s.queue != [] && s.queue[|s.queue| - 1].DoneMark?)
    && (s.watcherCancels == 0 || (s.watcherCancels == 1 && s.watcher.Returned?))
    && s.teardownCancels == (if Alive(s.consumer) then 0 else 1)
    && (Alive(s.consumer) ==> s.relayedCancels == 0)
    && (!Alive(s.consumer) ==> s.watcher.Returned?)
    && (s.consumer.Finished? ==> s.producer.Ended?)
    && (Blocked(s) ==> |s.queue| == cap)
    && s.intoSource <= s.watcherCancels + s.teardownCancels + s.relayedCancels
  }

  predicate Inv(s: State, cap: nat) {
    Conserves(s) && Controlled(s, cap)
  }

  lemma {:induction false} FramesAppend(q: seq<Item>, x: Item)
    ensures Frames(q + [x]) == Frames(q) + (if x.Chunk? then [x.frame] else [])
  {
    if q == [] {
      assert q + [x] == [x] && [x][1..] == [];
    } else {
      var longer := q + [x];
      assert longer[0] == q[0] && longer[1..] == q[1..] + [x];
      FramesAppend(q[1..], x);
    }
  }

  lemma FlowOfYield(s: State, cap: nat, frame: Frame)
    requires s.producer.Pulling? && s.lost == []
    ensures Flow(Next(s, cap, SourceYields(frame)).value) == Flow(s) + [frame]
  {
    FramesAppend(s.queue, Chunk(frame));
  }

  lemma FlowOfPut(s: State, frame: Frame)
    requires s.producer.Putting? && s.producer.frame == frame
    ensures Flow(s.(queue := s.queue + [Chunk(frame)], producer := Pulling)) == Flow(s)
  {
    FramesAppend(s.queue, Chunk(frame));
  }

  lemma FlowOfFinally(s: State, cap: nat)
    requires InPut(s.producer) == []
    ensures Flow(ProducerFinally(s, cap)) == Flow(s)
  {
    FramesAppend(s.queue, DoneMark);
  }

  lemma FlowOfLoss(s: State, cap: nat, frame: Frame)
    requires s.producer.Putting? && s.producer.frame == frame && s.lost == []
    ensures Flow(ProducerFinally(s.(lost := s.lost + [frame]), cap)) == Flow(s)
  {
    FramesAppend(s.queue, DoneMark);
  }

  lemma FlowOfGet(s: State)
    requires s.queue != []
    ensures s.queue[0].Chunk? ==> Flow(s.(queue := s.queue[1..], delivered := s.delivered + [s.queue[0].frame])) == Flow(s)
    ensures s.queue[0].DoneMark? ==> Flow(s.(queue := s.queue[1..])) == Flow(s)
  {
  }

  lemma FlowOfCancel(s: State)
    ensures Flow(Cancelled(s)) == Flow(s) && Cancelled(s).lost == s.lost && Cancelled(s).pulled == s.pulled
    ensures Cancelled(s).producer.Ended? <==> s.producer.Ended?
  {
  }

  lemma FlowOfTeardown(s: State)
    ensures Flow(EnterTeardown(s)) == Flow(s) && EnterTeardown(s).lost == s.lost && EnterTeardown(s).pulled == s.pulled
    ensures EnterTeardown(s).producer.Ended? <==> s.producer.Ended?
  {
  }

  lemma NextKeepsConserves(s: State, cap: nat, l: Label)
    requires Conserves(s) && Next(s, cap, l).Some?
    ensures Conserves(Next(s, cap, l).value)
  {
    match l
    case SourceYields(frame) => FlowOfYield(s, cap, frame);
    case SourceEnds => FlowOfFinally(s, cap);
    case PutResumes => FlowOfPut(s, s.producer.frame);
    case PutInterrupted => FlowOfLoss(s, cap, s.producer.frame);
    case WatcherSeesDisconnect => FlowOfCancel(s.(watcher := Returned, watcherCancels := s.watcherCancels + 1));
    case Get =>
      FlowOfGet(s);
      FlowOfTeardown(s.(queue := s.queue[1..]));
    case Close => FlowOfTeardown(s);
    case CancelConsumer =>
      FlowOfTeardown(s);
      FlowOfCancel(s.(relayedCancels := s.relayedCancels + 1));
    case _ =>
  }

  lemma ProducerKeepsControlled(s: State, cap: nat, l: Label)
    requires Controlled(s, cap) && Next(s, cap, l).Some?
    requires l.SourceYields? || l.SourceEnds? || l.PutResumes? || l.PutInterrupted?
    ensures Controlled(Next(s, cap, l).value, cap)
  {
  }

  lemma TeardownEntryKeepsControlled(s: State, cap: nat)
    requires Controlled(s, cap) && Alive(s.consumer)
    ensures Controlled(EnterTeardown(s), cap)
  {
  }

  lemma GetKeepsControlled(s: State, cap: nat)
    requires Controlled(s, cap) && Next(s, cap, Get).Some?
    ensures Controlled(Next(s, cap, Get).value, cap)
  {
    var t := s.(queue := s.queue[1..]);
    assert forall k :: 0 <= k < |t.queue| ==> t.queue[k] == s.queue[k + 1];
  }

  lemma ConsumerKeepsControlled(s: State, cap: nat, l: Label)
    requires Controlled(s, cap) && Next(s, cap, l).Some?
    requires l.Get? || l.Resume? || l.Close? || l.CancelConsumer? || l.TeardownDone?
    ensures Controlled(Next(s, cap, l).value, cap)
  {
    if l.Get? {
      GetKeepsControlled(s, cap);
    } else if l.Close? || (l.CancelConsumer? && Alive(s.consumer)) {
      TeardownEntryKeepsControlled(s, cap);
    }
  }

  lemma NextKeepsControlled(s: State, cap: nat, l: Label)
    requires Controlled(s, cap) && Next(s, cap, l).Some?
    ensures Controlled(Next(s, cap, l).value, cap)
  {
    if l.SourceYields? || l.SourceEnds? || l.PutResumes? || l.PutInterrupted? {
      ProducerKeepsControlled(s, cap, l);
    } else if !l.WatcherSeesDisconnect? && !l.WatcherSeesEnd? {
      ConsumerKeepsControlled(s, cap, l);
    }
  }

  lemma NextKeepsInv(s: State, cap: nat, l: Label)
    requires Inv(s, cap) && Next(s, cap, l).Some?
    ensures Inv(Next(s, cap, l).value, cap)
  {
    NextKeepsConserves(s, cap, l);
    NextKeepsControlled(s, cap, l);
  }

  lemma {:induction false} RunKeepsInv(s: State, cap: nat, labels: seq<Label>)
    requires Inv(s, cap) && Run(s, cap, labels).Some?
    ensures Inv(Run(s, cap, labels).value, cap)
    decreases |labels|
  {
    if labels != [] {
      NextKeepsInv(s, cap, labels[0]);
      RunKeepsInv(Next(s, cap, labels[0]).value, cap, labels[1..]);
    }
  }

  lemma ReachableInv(cap: nat, labels: seq<Label>)
    requires Run(Init(), cap, labels).Some?
    ensures Inv(Run(Init(), cap, labels).value, cap)
  {
    RunKeepsInv(Init(), cap, labels);
  }

  /**
   * No frame is duplicated, reordered or dropped on the way, whatever the interleaving: what the
   * client got, then the queue, then the frame being put is a prefix of what the source yielded, and
   * all of it unless a cancellation interrupted a put, which loses that one frame. The end marker is
   * enqueued at most once in the whole run, by an ending producer, and stands last.
   */
  lemma DeliveryIsAPrefixOfTheSource(cap: nat, labels: seq<Label>)
    requires Run(Init(), cap, labels).Some?
    ensures var s := Run(Init(), cap, labels).value;
      && |s.queue| <= cap
      && s.delivered + Frames(s.queue) + InPut(s.producer) <= s.pulled
      && (s.delivered + Frames(s.queue) + InPut(s.producer) == s.pulled || (s.producer.Ended? && |s.lost| == 1))
      && (forall k :: 0 <= k < |s.queue| && s.queue[k].DoneMark? ==> k == |s.queue| - 1)
      && s.marks <= 1 && (s.marks == 1 ==> s.producer.Ended?)
  {
    ReachableInv(cap, labels);
  }

  /**
   * The watcher cancels at most once and so does the teardown; a third cancellation reaches the
   * producer only by cancelling the response while it is already awaiting the producer.
   */
  lemma CancellationsAreBounded(cap: nat, labels: seq<Label>)
    requires Run(Init(), cap, labels).Some?
    ensures var s := Run(Init(), cap, labels).value;
      var total := s.watcherCancels + s.teardownCancels + s.relayedCancels;
      && s.watcherCancels <= 1 && s.teardownCancels <= 1
      && s.intoSource <= total
      && (total > 2 ==> s.relayedCancels > 0)
      && (s.relayedCancels > 0 ==> s.teardownCancels == 1)
      && (s.consumer.Finished? ==> s.producer.Ended?)
  {
    ReachableInv(cap, labels);
  }

  /** The third cancellation does happen: a client that is gone, and a response cancelled twice. */
  lemma ThirdCancellation(cap: nat)
    ensures var labels := [WatcherSeesDisconnect, CancelConsumer, CancelConsumer];
      && Run(Init(), cap, labels).Some?
      && var s := Run(Init(), cap, labels).value;
         s.watcherCancels == s.teardownCancels == s.relayedCancels == 1 && s.intoSource == 3
  {
    var seen := Next(Init(), cap, WatcherSeesDisconnect).value;
    var torn := Next(seen, cap, CancelConsumer).value;
    var last := Next(torn, cap, CancelConsumer).value;
    RunStep(torn, cap, CancelConsumer, []);
    RunStep(seen, cap, CancelConsumer, [CancelConsumer]);
    RunStep(Init(), cap, WatcherSeesDisconnect, [CancelConsumer, CancelConsumer]);
    assert Run(last, cap, []) == Some(last);
    assert [WatcherSeesDisconnect] + [CancelConsumer, CancelConsumer] == [WatcherSeesDisconnect, CancelConsumer, CancelConsumer];
  }

  // ---- when the response ends by itself ----

  predicate FromOutside(l: Label) {
    l.Close? || l.CancelConsumer?
  }

  /** A run in which nobody closes or cancels the response. */
  predicate Unattended(s: State, cap: nat, labels: seq<Label>) {
    (forall k :: 0 <= k < |labels| ==> !FromOutside(labels[k])) && Run(s, cap, labels).Some?
  }

  /** Nothing inside can move any more. */
  ghost predicate Still(s: State, cap: nat) {
    forall l :: !FromOutside(l) ==> Next(s, cap, l).None?
  }

  ghost predicate EndsWithin(s: State, cap: nat, bound: nat) {
    forall labels :: Unattended(s, cap, labels) ==>
      && |labels| <= bound
      && (Still(Run(s, cap, labels).value, cap) ==> Run(s, cap, labels).value.consumer.Finished?)
  }

  /** Left alone, the response finishes: no run goes on for ever, and none stops short of the end. */
  ghost predicate AlwaysEnds(s: State, cap: nat) {
    exists bound: nat :: EndsWithin(s, cap, bound)
  }

  /** Left alone, the response stays open however long one waits. */
  ghost predicate NeverEnds(s: State, cap: nat) {
    forall labels :: Unattended(s, cap, labels) ==> Alive(Run(s, cap, labels).value.consumer)
  }

  lemma RunStep(s: State, cap: nat, l: Label, rest: seq<Label>)
    requires Next(s, cap, l).Some?
    ensures Run(s, cap, [l] + rest) == Run(Next(s, cap, l).value, cap, rest)
  {
    assert ([l] + rest)[1..] == rest;
  }

  lemma UnattendedTail(s: State, cap: nat, labels: seq<Label>)
    requires Unattended(s, cap, labels) && labels != []
    ensures Next(s, cap, labels[0]).Some? && !FromOutside(labels[0])
    ensures Unattended(Next(s, cap, labels[0]).value, cap, labels[1..])
  {
  }

  /** How many more steps there can be once the producer has ended. */
  function Steps(s: State): nat {
    3 * |s.queue| + (if s.consumer.Yielding? then 1 else 0)
    + (if s.consumer.TearingDown? then 1 else if s.consumer.Finished? then 0 else 2)
    + (if s.watcher.Watching? then 1 else 0)
  }

  lemma StepsDrop(s: State, cap: nat, l: Label)
    requires s.producer.Ended? && !FromOutside(l) && Next(s, cap, l).Some?
    ensures Steps(Next(s, cap, l).value) < Steps(s)
    ensures Next(s, cap, l).value.producer == s.producer
  {
  }

  /** Some run leads to a state where nothing moves. */
  lemma {:induction false} RunToStill(s: State, cap: nat) returns (labels: seq<Label>)
    requires s.producer.Ended?
    ensures Unattended(s, cap, labels) && Still(Run(s, cap, labels).value, cap)
    decreases Steps(s)
  {
    labels := [];
    if !Still(s, cap) {
      var l :| !FromOutside(l) && Next(s, cap, l).Some?;
      StepsDrop(s, cap, l);
      var rest := RunToStill(Next(s, cap, l).value, cap);
      RunStep(s, cap, l, rest);
      labels := [l] + rest;
    }
  }

  /** The queue is being read, or has been read to the end. */
  predicate Draining(s: State, cap: nat) {
    Inv(s, cap) && s.producer == Ended(true) && (Alive(s.consumer) || s.queue == [])
  }

  lemma DrainStep(s: State, cap: nat, l: Label)
    requires Draining(s, cap) && !FromOutside(l) && Next(s, cap, l).Some?
    ensures var n := Next(s, cap, l).value;
      Draining(n, cap) && Steps(n) < Steps(s) && n.delivered + Frames(n.queue) == s.delivered + Frames(s.queue)
  {
    NextKeepsInv(s, cap, l);
    StepsDrop(s, cap, l);
  }

  lemma DrainMoves(s: State, cap: nat)
    requires Draining(s, cap)
    ensures Still(s, cap) ==> s.consumer.Finished?
  {
    if s.consumer.Getting? {
      assert Next(s, cap, Get).Some?;
    } else if s.consumer.Yielding? {
      assert Next(s, cap, Resume).Some?;
    } else if s.consumer.TearingDown? {
      assert Next(s, cap, TeardownDone).Some?;
    }
  }

  /**
   * With the marker queued every way of going on, short of closing the response from outside, is
   * finite, cannot stop before the response has finished, and has then delivered every queued frame.
   */
  lemma {:induction false} MarkedQueueDrains(s: State, cap: nat, labels: seq<Label>)
    requires Draining(s, cap) && Unattended(s, cap, labels)
    ensures var t := Run(s, cap, labels).value;
      && |labels| + Steps(t) <= Steps(s)
      && (Still(t, cap) ==> t.consumer.Finished?)
      && (t.consumer.Finished? ==> t.delivered == s.delivered + Frames(s.queue))
      && t.delivered + Frames(t.queue) == s.delivered + Frames(s.queue)
    decreases |labels|
  {
    if labels == [] {
      DrainMoves(s, cap);
      assert s.consumer.Finished? ==> Frames(s.queue) == [];
    } else {
      UnattendedTail(s, cap, labels);
      DrainStep(s, cap, labels[0]);
      MarkedQueueDrains(Next(s, cap, labels[0]).value, cap, labels[1..]);
    }
  }

  /** Without the marker, no step short of closing the response from outside ever ends it. */
  lemma {:induction false} UnmarkedNeverStops(s: State, cap: nat, labels: seq<Label>)
    requires Inv(s, cap) && s.producer == Ended(false) && Alive(s.consumer) && Unattended(s, cap, labels)
    ensures Alive(Run(s, cap, labels).value.consumer)
    decreases |labels|
  {
    if labels != [] {
      UnattendedTail(s, cap, labels);
      NextKeepsInv(s, cap, labels[0]);
      UnmarkedNeverStops(Next(s, cap, labels[0]).value, cap, labels[1..]);
    }
  }

  lemma MarkedAlwaysEnds(s: State, cap: nat)
    requires Inv(s, cap) && s.producer == Ended(true) && Alive(s.consumer)
    ensures EndsWithin(s, cap, Steps(s)) && !NeverEnds(s, cap)
  {
    forall labels | Unattended(s, cap, labels)
      ensures |labels| <= Steps(s)
      ensures Still(Run(s, cap, labels).value, cap) ==> Run(s, cap, labels).value.consumer.Finished?
    {
      MarkedQueueDrains(s, cap, labels);
    }
    var whole := RunToStill(s, cap);
    assert Run(s, cap, whole).value.consumer.Finished?;
  }

  lemma UnmarkedNeverEnds(s: State, cap: nat)
    requires Inv(s, cap) && s.producer == Ended(false) && Alive(s.consumer)
    ensures NeverEnds(s, cap) && !AlwaysEnds(s, cap)
  {
    forall labels | Unattended(s, cap, labels) ensures Alive(Run(s, cap, labels).value.consumer) {
      UnmarkedNeverStops(s, cap, labels);
    }
    var whole := RunToStill(s, cap);
    assert !Run(s, cap, whole).value.consumer.Finished?;
  }

  /**
   * No hang, exactly. Take the step in which the producer ends, in any reachable state with the
   * response still open. Left alone, the response finishes on every interleaving, within a number of
   * steps known in advance, if and only if the queue had a free slot when the producer's finally ran;
   * otherwise it stays open on every interleaving.
   */
  lemma ResponseEndsIffQueueHadRoom(cap: nat, labels: seq<Label>, l: Label)
    requires Run(Init(), cap, labels).Some?
    requires var s := Run(Init(), cap, labels).value;
      Alive(s.consumer) && !s.producer.Ended? && Next(s, cap, l).Some? && Next(s, cap, l).value.producer.Ended?
    ensures var s := Run(Init(), cap, labels).value;
      var s' := Next(s, cap, l).value;
      && (AlwaysEnds(s', cap) <==> |s.queue| < cap)
      && (NeverEnds(s', cap) <==> |s.queue| >= cap)
      && (|s.queue| < cap ==> EndsWithin(s', cap, Steps(s')))
  {
    var s := Run(Init(), cap, labels).value;
    var s' := Next(s, cap, l).value;
    ReachableInv(cap, labels);
    NextKeepsInv(s, cap, l);
    if |s.queue| < cap {
      MarkedAlwaysEnds(s', cap);
    } else {
      UnmarkedNeverEnds(s', cap);
    }
  }

  /**
   * While the response is open nothing else brings it to a standstill: it stands still exactly when the
   * producer has ended without its marker and every frame has been handed out. In particular a producer
   * waiting for room always gets it.
   */
  lemma OpenResponseStandsStillExactly(cap: nat, labels: seq<Label>)
    requires cap >= 1 && Run(Init(), cap, labels).Some? && Alive(Run(Init(), cap, labels).value.consumer)
    ensures var s := Run(Init(), cap, labels).value;
      Still(s, cap) <==> s.producer == Ended(false) && s.consumer.Getting? && s.queue == [] && s.watcher.Returned?
  {
    ReachableInv(cap, labels);
    StandstillOfOpenResponse(Run(Init(), cap, labels).value, cap);
  }

  lemma StandstillOfOpenResponse(s: State, cap: nat)
    requires cap >= 1 && Inv(s, cap) && Alive(s.consumer)
    ensures Still(s, cap) <==> s.producer == Ended(false) && s.consumer.Getting? && s.queue == [] && s.watcher.Returned?
  {
    if s.consumer.Yielding? {
      assert Next(s, cap, Resume).Some?;
    } else if s.queue != [] {
      assert Next(s, cap, Get).Some?;
    } else if s.producer.Pulling? {
      assert Next(s, cap, SourceEnds).Some?;
    } else if s.producer.Putting? {
      assert Next(s, cap, if s.producer.cancelled then PutInterrupted else PutResumes).Some?;
    } else if s.watcher.Watching? {
      assert Next(s, cap, WatcherSeesEnd).Some?;
    }
  }

  // ---- when the teardown ends by itself ----

  /** Somewhere along the run the source yields although the queue is full. */
  predicate YieldsIntoFull(s: State, cap: nat, labels: seq<Label>)
    decreases |labels|
  {
    && labels != []
    && (|| (labels[0].SourceYields? && |s.queue| >= cap)
        || (Next(s, cap, labels[0]).Some? && YieldsIntoFull(Next(s, cap, labels[0]).value, cap, labels[1..])))
  }

  /** How many more steps a teardown can see: each frame of a source that goes on fills a slot. */
  function TeardownSteps(s: State, cap: nat): nat
    requires |s.queue| <= cap
  {
    2 * (cap - |s.queue|)
    + (match s.producer case Pulling => 2 case Putting(_, _) => 1 case Ended(_) => 0)
    + (if s.consumer.Finished? then 0 else 1)
  }

  lemma TeardownStep(s: State, cap: nat, l: Label)
    requires Inv(s, cap) && !Alive(s.consumer) && !Blocked(s) && !FromOutside(l) && Next(s, cap, l).Some?
    ensures var n := Next(s, cap, l).value;
      && Inv(n, cap) && !Alive(n.consumer)
      && TeardownSteps(n, cap) < TeardownSteps(s, cap)
      && (Blocked(n) <==> l.SourceYields? && |s.queue| >= cap)
  {
    NextKeepsInv(s, cap, l);
  }

  lemma BlockedIsStill(s: State, cap: nat)
    requires Inv(s, cap) && Blocked(s)
    ensures Still(s, cap) && !s.consumer.Finished?
  {
  }

  lemma UnblockedMoves(s: State, cap: nat)
    requires Inv(s, cap) && !Alive(s.consumer) && !Blocked(s)
    ensures Still(s, cap) ==> s.consumer.Finished?
  {
    if s.consumer.TearingDown? {
      match s.producer
      case Pulling => assert Next(s, cap, SourceEnds).Some?;
      case Putting(_, _) => assert Next(s, cap, PutInterrupted).Some?;
      case Ended(_) => assert Next(s, cap, TeardownDone).Some?;
    }
  }

  lemma {:induction false} TeardownRun(s: State, cap: nat, labels: seq<Label>)
    requires Inv(s, cap) && !Alive(s.consumer) && !Blocked(s) && Unattended(s, cap, labels)
    ensures var t := Run(s, cap, labels).value;
      && |labels| <= TeardownSteps(s, cap)
      && (YieldsIntoFull(s, cap, labels) ==> Still(t, cap) && !t.consumer.Finished?)
      && (!YieldsIntoFull(s, cap, labels) && Still(t, cap) ==> t.consumer.Finished?)
    decreases |labels|
  {
    if labels == [] {
      UnblockedMoves(s, cap);
    } else {
      UnattendedTail(s, cap, labels);
      TeardownStep(s, cap, labels[0]);
      var n := Next(s, cap, labels[0]).value;
      if Blocked(n) {
        BlockedIsStill(n, cap);
        if labels[1..] != [] {
          UnattendedTail(n, cap, labels[1..]);
        }
      } else {
        TeardownRun(n, cap, labels[1..]);
      }
    }
  }

  /** The step that leaves the response cancels whatever put the producer was in. */
  lemma EntryIsNotBlocked(s: State, cap: nat, l: Label)
    requires Alive(s.consumer) && Next(s, cap, l).Some?
    ensures !Blocked(Next(s, cap, l).value)
  {
  }

  /**
   * The other way to hang. However the response is left, by the marker, by a close or by a
   * cancellation: left alone from then on, every run of the teardown is finite, and one that has come
   * to a standstill has finished if and only if the source never yielded into a full queue again after
   * the teardown had cancelled it.
   */
  lemma TeardownEndsIffSourceStops(cap: nat, labels: seq<Label>, l: Label, more: seq<Label>)
    requires Run(Init(), cap, labels).Some?
    requires var s := Run(Init(), cap, labels).value;
      && Alive(s.consumer) && Next(s, cap, l).Some? && !Alive(Next(s, cap, l).value.consumer)
      && Unattended(Next(s, cap, l).value, cap, more)
    ensures var s' := Next(Run(Init(), cap, labels).value, cap, l).value;
      var t := Run(s', cap, more).value;
      && |s'.queue| <= cap && |more| <= TeardownSteps(s', cap)
      && (Still(t, cap) ==> (t.consumer.Finished? <==> !YieldsIntoFull(s', cap, more)))
      && (YieldsIntoFull(s', cap, more) ==> Still(t, cap))
  {
    var s := Run(Init(), cap, labels).value;
    ReachableInv(cap, labels);
    NextKeepsInv(s, cap, l);
    EntryIsNotBlocked(s, cap, l);
    TeardownRun(Next(s, cap, l).value, cap, more);
  }

  // ---- the run that hangs ----

  function Burst(source: seq<Frame>): seq<Label> {
    if source == [] then [] else Burst(source[..|source| - 1]) + [SourceYields(source[|source| - 1])]
  }

  function Chunks(source: seq<Frame>): (q: seq<Item>)
    ensures |q| == |source|
    ensures forall k :: 0 <= k < |q| ==> q[k] == Chunk(source[k])
  {
    seq(|source|, k requires 0 <= k < |source| => Chunk(source[k]))
  }

  lemma {:induction false} RunConcat(s: State, cap: nat, xs: seq<Label>, ys: seq<Label>)
    requires Run(s, cap, xs).Some?
    ensures Run(s, cap, xs + ys) == Run(Run(s, cap, xs).value, cap, ys)
    decreases |xs|
  {
    if xs == [] {
      assert xs + ys == ys;
    } else {
      assert (xs + ys)[1..] == xs[1..] + ys;
      RunConcat(Next(s, cap, xs[0]).value, cap, xs[1..], ys);
    }
  }

  lemma RunSnoc(s: State, cap: nat, xs: seq<Label>, l: Label)
    requires Run(s, cap, xs).Some?
    ensures Run(s, cap, xs + [l]) == Next(Run(s, cap, xs).value, cap, l)
  {
    RunConcat(s, cap, xs, [l]);
    var m := Run(s, cap, xs).value;
    if Next(m, cap, l).Some? {
      assert Run(m, cap, [l]) == Run(Next(m, cap, l).value, cap, []);
    }
  }

  /** A source that does not pause fills the queue before the consumer is scheduled. */
  lemma {:induction false} BurstFillsTheQueue(cap: nat, source: seq<Frame>)
    requires |source| <= cap
    ensures Run(Init(), cap, Burst(source)) == Some(Init().(queue := Chunks(source), pulled := source))
    decreases |source|
  {
    if source == [] {
      assert Chunks(source) == [];
    } else {
      var shorter := source[..|source| - 1];
      BurstFillsTheQueue(cap, shorter);
      RunSnoc(Init(), cap, Burst(shorter), SourceYields(source[|source| - 1]));
      assert Chunks(source) == Chunks(shorter) + [Chunk(source[|source| - 1])];
      assert source == shorter + [source[|source| - 1]];
    }
  }

  /**
   * For every capacity there is a connected client and a source that ends normally, namely one of
   * exactly that many frames, whose response never ends by itself: the marker found the queue full.
   */
  lemma ExactlyFullSourceHangs(cap: nat, source: seq<Frame>)
    requires cap >= 1 && |source| == cap
    ensures Run(Init(), cap, Burst(source) + [SourceEnds]).Some?
    ensures var s := Run(Init(), cap, Burst(source) + [SourceEnds]).value;
      s.pulled == source && s.producer.Ended? && Alive(s.consumer) && s.watcherCancels == 0 && NeverEnds(s, cap)
  {
    BurstFillsTheQueue(cap, source);
    RunSnoc(Init(), cap, Burst(source), SourceEnds);
    ResponseEndsIffQueueHadRoom(cap, Burst(source), SourceEnds);
  }

  /**
   * And for every capacity there is a teardown that never ends: the client takes one frame and leaves,
   * the source, cancelled while the queue is full, yields one frame more.
   */
  lemma SourceThatYieldsOnHangsTheTeardown(cap: nat, source: seq<Frame>, next: Frame, last: Frame)
    requires cap >= 1 && |source| == cap
    ensures var labels := Burst(source) + [Get] + [SourceYields(next)] + [Close] + [SourceYields(last)];
      && Run(Init(), cap, labels).Some?
      && var s := Run(Init(), cap, labels).value;
         s.consumer.TearingDown? && s.intoSource == 1 && Blocked(s) && Still(s, cap)
         && s.pulled == source + [next, last]
  {
    BurstFillsTheQueue(cap, source);
    var full := Burst(source);
    RunSnoc(Init(), cap, full, Get);
    RunSnoc(Init(), cap, full + [Get], SourceYields(next));
    RunSnoc(Init(), cap, full + [Get] + [SourceYields(next)], Close);
    RunSnoc(Init(), cap, full + [Get] + [SourceYields(next)] + [Close], SourceYields(last));
    var labels := full + [Get] + [SourceYields(next)] + [Close] + [SourceYields(last)];
    ReachableInv(cap, labels);
    BlockedIsStill(Run(Init(), cap, labels).value, cap);
  }

  /** The same for a given source of just those frames. */
  lemma SourceOfTwoMoreHangs(cap: nat, frames: seq<Frame>) returns (labels: seq<Label>)
    requires cap >= 1 && |frames| == cap + 2
    ensures Run(Init(), cap, labels).Some?
    ensures var s := Run(Init(), cap, labels).value;
      s.pulled == frames && s.consumer.TearingDown? && s.intoSource == 1 && Blocked(s) && Still(s, cap)
  {
    var source, next, last := frames[..cap], frames[cap], frames[cap + 1];
    SourceThatYieldsOnHangsTheTeardown(cap, source, next, last);
    labels := Burst(source) + [Get] + [SourceYields(next)] + [Close] + [SourceYields(last)];
    assert source + [next, last] == frames;
  }

  // ---- a frame lost in the middle of a stream ----

  /** The client has read `i` frames of the source and awaits the next; the queue is full. */
  function Flowing(cap: nat, source: seq<Frame>, i: nat): State
    requires i + cap <= |source|
  {
    Init().(queue := Chunks(source[i..i + cap]), pulled := source[..i + cap], delivered := source[..i])
  }

  lemma OneFrameOn(cap: nat, source: seq<Frame>, i: nat, labels: seq<Label>) returns (longer: seq<Label>)
    requires cap >= 1 && i + cap < |source| && Run(Init(), cap, labels) == Some(Flowing(cap, source, i))
    ensures Run(Init(), cap, longer) == Some(Flowing(cap, source, i + 1))
  {
    var next := source[i + cap];
    RunSnoc(Init(), cap, labels, Get);
    RunSnoc(Init(), cap, labels + [Get], SourceYields(next));
    RunSnoc(Init(), cap, labels + [Get] + [SourceYields(next)], Resume);
    longer := labels + [Get] + [SourceYields(next)] + [Resume];
    assert Chunks(source[i..i + cap])[1..] + [Chunk(next)] == Chunks(source[i + 1..i + 1 + cap]);
    assert source[..i] + [source[i]] == source[..i + 1];
    assert source[..i + cap] + [next] == source[..i + 1 + cap];
  }

  lemma {:induction false} FlowingIsReachable(cap: nat, source: seq<Frame>, i: nat) returns (labels: seq<Label>)
    requires cap >= 1 && i + cap <= |source|
    ensures Run(Init(), cap, labels) == Some(Flowing(cap, source, i))
  {
    if i == 0 {
      labels := Burst(source[..cap]);
      BurstFillsTheQueue(cap, source[..cap]);
      assert source[0..0 + cap] == source[..cap];
    } else {
      var shorter := FlowingIsReachable(cap, source, i - 1);
      labels := OneFrameOn(cap, source, i - 1, shorter);
    }
  }

  /**
   * For every capacity and any number of frames read: the source yields into the full queue, the client
   * goes, and the cancellation interrupts the put. The source never sees it, and the frame is lost.
   */
  lemma DisconnectDuringPut(cap: nat, source: seq<Frame>, i: nat) returns (labels: seq<Label>)
    requires cap >= 1 && |source| == i + cap + 1
    ensures Run(Init(), cap, labels).Some?
    ensures var s := Run(Init(), cap, labels).value;
      && s.pulled == source && s.delivered == source[..i] && s.lost == [source[i + cap]]
      && s.producer.Ended? && s.watcherCancels == 1 && s.intoSource == 0
  {
    var flowing := FlowingIsReachable(cap, source, i);
    var last := source[i + cap];
    RunSnoc(Init(), cap, flowing, SourceYields(last));
    RunSnoc(Init(), cap, flowing + [SourceYields(last)], WatcherSeesDisconnect);
    RunSnoc(Init(), cap, flowing + [SourceYields(last)] + [WatcherSeesDisconnect], PutInterrupted);
    labels := flowing + [SourceYields(last)] + [WatcherSeesDisconnect] + [PutInterrupted];
    assert source[..i + cap] + [last] == source;
  }

  /** The frame lost is the last one the source yielded. */
  lemma LostIsLast(cap: nat, labels: seq<Label>)
    requires Run(Init(), cap, labels).Some? && Run(Init(), cap, labels).value.lost != []
    ensures var s := Run(Init(), cap, labels).value;
      s.pulled != [] && s.lost == [s.pulled[|s.pulled| - 1]] && s.delivered < s.pulled
  {
    ReachableInv(cap, labels);
    var s := Run(Init(), cap, labels).value;
    assert s.pulled == s.delivered + Frames(s.queue) + s.lost;
  }
}
