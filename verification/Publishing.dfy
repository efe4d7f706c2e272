/**
 * The shielded publish under repeated cancellation, for any number of concurrent calls.
 *
 * A label is one stretch of code between two suspension points. `CancelCaller` may come at any
 * time and any number of times; it takes effect only where the caller is awaiting.
 */
module Publishing {
  import opened Common
  import opened Events
  import opened Instrumentation

  type CallId = nat

  /**
   * `Streaming` awaits the provider's next chunk, `AtYield` is suspended with a chunk handed out,
   * `Shielded` awaits the shield around the publish task, `Over` has left the generator. `cancelled`
   * is a CancelledError on its way to the current await.
   */
  datatype Caller =
    | Streaming(cancelled: bool)
    | AtYield
    | Shielded(cancelled: bool)
    | Over(outcome: Ending)

  /** `landed`: the event is in the stream; the bus may also report or raise something else. */
  datatype Task = NotCreated | Running | Done(landed: bool, raised: Option<Exception>)

  /**
   * One instrumented call: the chunks yielded so far, the whole inner call once it has ended, whether
   * a cancellation has struck the publish wait, and the events whose `bus.publish` has been run to its
   * end on the call's behalf.
   */
  datatype Flight = Flight(
    ctx: Context,
    chunks: seq<StreamChunk>,
    ended: Option<TimedCall>,
    caller: Caller,
    task: Task,
    struck: bool,
    published: seq<InferenceEvent>)

  /** `inflight` is the module-level set. */
  datatype State = State(flights: map<CallId, Flight>, inflight: set<CallId>)

  datatype Label =
    | Start(c: CallId, ctx: Context)             // mints the event id
    | InnerYields(c: CallId, chunk: StreamChunk)
    | ConsumerResumes(c: CallId)
    | InnerEnds(c: CallId, call: TimedCall)      // exhausted, failed, or the CancelledError comes out of it
    | CloseAtYield(c: CallId, call: TimedCall)   // aclose(), by the consumer or by the loop's finalizer
    | CancelCaller(c: CallId)
    | PublishFinishes(c: CallId, landed: bool, raised: Option<Exception>)
    | ShieldReturns(c: CallId)
    | ShieldInterrupted(c: CallId)
    | DoneCallback(c: CallId)                    // _INFLIGHT.discard

  function Init(): State {
    State(map[], {})
  }

  /** `uuid4()` does not repeat itself. */
  predicate FreshId(s: State, id: EventId) {
    forall d :: d in s.flights ==> s.flights[d].ctx.id != id
  }

  function RecordOf(f: Flight): Fields
    requires f.ended.Some?
  {
    Recorded(f.ctx, f.ended.value)
  }

  function EventOf(f: Flight): InferenceEvent
    requires f.ended.Some?
  {
    InferenceEvent(f.ctx.id, RecordOf(f))
  }

  /** One call with its membership of the in-flight set. */
  datatype Progress = Progress(flight: Flight, held: bool)

  /** The finally: build the event, create its publish task, enter the shield; or fail to build it. */
  function Finally(f: Flight, held: bool, call: TimedCall): Progress {
    var ended := f.(ended := Some(call));
    if Valid(RecordOf(ended)) then Progress(ended.(caller := Shielded(false), task := Running), true)
    else Progress(ended.(caller := Over(Raises(ValidationError))), held)
  }

  /** One stretch of code of one call; None when the call is not at that point. */
  function Advance(f: Flight, held: bool, l: Label): Option<Progress> {
    match l
    case Start(_, _) => None
    case InnerYields(_, chunk) =>
      if f.caller.Streaming? then Some(Progress(f.(caller := AtYield, chunks := f.chunks + [chunk]), held)) else None
    case ConsumerResumes(_) =>
      if f.caller.AtYield? then Some(Progress(f.(caller := Streaming(false)), held)) else None
    case InnerEnds(_, call) =>
      if f.caller.Streaming? && call.chunks == f.chunks then Some(Finally(f, held, call)) else None
    case CloseAtYield(_, call) =>
      if f.caller.AtYield? && call.chunks == f.chunks && call.ending == Raises(GeneratorExit)
      then Some(Finally(f, held, call)) else None
    case CancelCaller(_) =>
      (match f.caller
       case Streaming(_) => Some(Progress(f.(caller := Streaming(true)), held))
       case Shielded(_) => Some(Progress(f.(caller := Shielded(true), struck := true), held))
       case _ => Some(Progress(f, held)))
    case PublishFinishes(_, landed, raised) =>
      if f.task.Running? && f.ended.Some?
      then Some(Progress(f.(task := Done(landed, raised), published := f.published + [EventOf(f)]), held)) else None
    case ShieldReturns(_) =>
      if f.caller.Shielded? && !f.caller.cancelled && f.task.Done? && f.ended.Some?
      then Some(Progress(f.(caller := Over(
        if f.task.raised.Some? then Raises(f.task.raised.value) else f.ended.value.ending)), held)) else None
    case ShieldInterrupted(_) =>
      if f.caller.Shielded? && f.caller.cancelled
      then Some(Progress(f.(caller := Over(Raises(CancelledError))), held)) else None
    case DoneCallback(_) =>
      if f.task.Done? && held then Some(Progress(f, false)) else None
  }

  function Next(s: State, l: Label): Option<State> {
    if l.Start? then
      if l.c in s.flights || !FreshId(s, l.ctx.id) then None
      else Some(State(s.flights[l.c := Flight(l.ctx, [], None, Streaming(false), NotCreated, false, [])], s.inflight))
    else if l.c !in s.flights then None
    else
      var next := Advance(s.flights[l.c], l.c in s.inflight, l);
      if next.None? then None
      else Some(State(s.flights[l.c := next.value.flight],
                      if next.value.held then s.inflight + {l.c} else s.inflight - {l.c}))
  }

  function Run(s: State, labels: seq<Label>): Option<State>
    decreases |labels|
  {
    if labels == [] then Some(s)
    else
      var next := Next(s, labels[0]);
      if next.None? then None else Run(next.value, labels[1..])
  }

  /** How the publish wait of a finished call went. */
  function WaitOf(f: Flight): PublishWait {
    if f.struck then Interrupted
    else if f.task.Done? && f.task.raised.Some? then TaskRaised(f.task.raised.value)
    else Returned
  }

  predicate FlightOk(f: Flight, held: bool) {
    && (f.ended.None? <==> f.caller.Streaming? || f.caller.AtYield?)
    && (f.ended.None? ==> f.task.NotCreated?)
    && (f.ended.Some? ==> f.ended.value.chunks == f.chunks && (f.task.NotCreated? <==> !Valid(RecordOf(f))))
    && (f.caller.Shielded? ==> !f.task.NotCreated? && (f.struck <==> f.caller.cancelled))
    && (f.struck ==> !f.task.NotCreated?)
    && (f.caller.Over? && !f.struck ==> !f.task.Running?)
    && (f.caller.Over? ==> f.caller.outcome == OutcomeOf(f.ctx, f.ended.value, WaitOf(f)))
    && f.published == (if f.task.Done? && f.ended.Some? then [EventOf(f)] else [])
    && (f.task.Running? ==> held)
    && (held ==> !f.task.NotCreated?)
  }

  predicate DistinctIds(s: State) {
    forall c, d :: c in s.flights && d in s.flights && c != d ==> s.flights[c].ctx.id != s.flights[d].ctx.id
  }

  predicate Inv(s: State) {
    && (forall c :: c in s.flights ==> FlightOk(s.flights[c], c in s.inflight))
    && (forall c :: c in s.inflight ==> c in s.flights)
    && DistinctIds(s)
  }

  lemma EndingKeepsFlight(f: Flight, held: bool, call: TimedCall)
    requires FlightOk(f, held) && f.ended.None? && call.chunks == f.chunks
    ensures FlightOk(Finally(f, held, call).flight, Finally(f, held, call).held)
  {
  }

  lemma AdvanceKeepsFlight(f: Flight, held: bool, l: Label)
    requires FlightOk(f, held) && Advance(f, held, l).Some?
    ensures FlightOk(Advance(f, held, l).value.flight, Advance(f, held, l).value.held)
  {
    if l.InnerEnds? || l.CloseAtYield? {
      EndingKeepsFlight(f, held, l.call);
    }
  }

  /** Nothing a call has fixed is changed later: its context, its end, its task once created and once done. */
  lemma AdvanceKeepsRecords(f: Flight, held: bool, l: Label)
    requires FlightOk(f, held) && Advance(f, held, l).Some?
    ensures var g := Advance(f, held, l).value.flight;
      && g.ctx == f.ctx
      && (f.ended.Some? ==> g.ended == f.ended && (f.task.NotCreated? <==> g.task.NotCreated?))
      && (f.task.Done? ==> g.task == f.task)
  {
  }

  lemma StartKeepsDistinctIds(s: State, l: Label)
    requires DistinctIds(s) && l.Start? && Next(s, l).Some?
    ensures DistinctIds(Next(s, l).value)
  {
    var n := Next(s, l).value;
    forall c, d | c in n.flights && d in n.flights && c != d ensures n.flights[c].ctx.id != n.flights[d].ctx.id {
      assert c != l.c ==> n.flights[c] == s.flights[c];
      assert d != l.c ==> n.flights[d] == s.flights[d];
    }
  }

  lemma StartKeepsInv(s: State, l: Label)
    requires Inv(s) && l.Start? && Next(s, l).Some?
    ensures Inv(Next(s, l).value)
  {
    StartKeepsDistinctIds(s, l);
  }

  /** Moving one call on leaves the others as they were. */
  lemma ReplacingKeepsInv(s: State, c: CallId, p: Progress)
    requires Inv(s) && c in s.flights && FlightOk(p.flight, p.held) && p.flight.ctx == s.flights[c].ctx
    ensures Inv(State(s.flights[c := p.flight], if p.held then s.inflight + {c} else s.inflight - {c}))
  {
    var n := State(s.flights[c := p.flight], if p.held then s.inflight + {c} else s.inflight - {c});
    forall d | d in n.flights ensures FlightOk(n.flights[d], d in n.inflight) {
      if d != c {
        assert FlightOk(s.flights[d], d in s.inflight);
      }
    }
  }

  lemma NextKeepsInv(s: State, l: Label)
    requires Inv(s) && Next(s, l).Some?
    ensures Inv(Next(s, l).value)
  {
    if l.Start? {
      StartKeepsInv(s, l);
    } else {
      var f, held := s.flights[l.c], l.c in s.inflight;
      AdvanceKeepsFlight(f, held, l);
      AdvanceKeepsRecords(f, held, l);
      ReplacingKeepsInv(s, l.c, Advance(f, held, l).value);
    }
  }

  lemma {:induction false} RunKeepsInv(s: State, labels: seq<Label>)
    requires Inv(s) && Run(s, labels).Some?
    ensures Inv(Run(s, labels).value)
    decreases |labels|
  {
    if labels != [] {
      NextKeepsInv(s, labels[0]);
      RunKeepsInv(Next(s, labels[0]).value, labels[1..]);
    }
  }

  /** The chunks that the calls under one id have handed to their consumers, in order. */
  function Yielded(labels: seq<Label>, c: CallId): seq<StreamChunk> {
    if labels == [] then []
    else (if labels[0].InnerYields? && labels[0].c == c then [labels[0].chunk] else []) + Yielded(labels[1..], c)
  }

  lemma NextAppendsYields(s: State, l: Label, c: CallId)
    requires Next(s, l).Some? && c in s.flights
    ensures c in Next(s, l).value.flights
    ensures Next(s, l).value.flights[c].chunks
         == s.flights[c].chunks + (if l.InnerYields? && l.c == c then [l.chunk] else [])
  {
  }

  lemma {:induction false} ChunksAreTheYields(s: State, labels: seq<Label>, c: CallId)
    requires Run(s, labels).Some? && c in Run(s, labels).value.flights
    ensures Run(s, labels).value.flights[c].chunks
         == (if c in s.flights then s.flights[c].chunks else []) + Yielded(labels, c)
    decreases |labels|
  {
    if labels != [] {
      var n := Next(s, labels[0]).value;
      if c in s.flights {
        NextAppendsYields(s, labels[0], c);
      }
      ChunksAreTheYields(n, labels[1..], c);
    }
  }

  /** The record is of the chunks the consumer was given: all of them and nothing else. */
  lemma RecordIsOfTheYields(labels: seq<Label>, c: CallId)
    requires Run(Init(), labels).Some? && c in Run(Init(), labels).value.flights
    requires Run(Init(), labels).value.flights[c].ended.Some?
    ensures Run(Init(), labels).value.flights[c].ended.value.chunks == Yielded(labels, c)
  {
    RunKeepsInv(Init(), labels);
    ChunksAreTheYields(Init(), labels, c);
    assert FlightOk(Run(Init(), labels).value.flights[c], c in Run(Init(), labels).value.inflight);
  }

  /** Nothing is left to run: every caller has left and every publish task has finished. */
  predicate Quiet(s: State) {
    forall c :: c in s.flights ==> s.flights[c].caller.Over? && !s.flights[c].task.Running?
  }

  /**
   * One call, one event. Once the loop is quiet, every call that was started has had its own record
   * published, once, if that event can be constructed, and nothing otherwise: for every outcome,
   * every interleaving and any number of cancellations at any await.
   */
  lemma EachCallPublishesOnce(labels: seq<Label>, c: CallId)
    requires Run(Init(), labels).Some? && Quiet(Run(Init(), labels).value)
    requires c in Run(Init(), labels).value.flights
    ensures var f := Run(Init(), labels).value.flights[c];
      && f.ended.Some? && f.ended.value.chunks == f.chunks
      && f.published == if Constructible(f.ctx, f.ended.value)
                        then [InferenceEvent(f.ctx.id, Recorded(f.ctx, f.ended.value))] else []
  {
    RunKeepsInv(Init(), labels);
    var f := Run(Init(), labels).value.flights[c];
    assert FlightOk(f, c in Run(Init(), labels).value.inflight);
    ConstructibleExactly(f.ctx, f.ended.value);
  }

  /**
   * Under any interleaving a call ends for its consumer as the wrapper's own contract says: with
   * CancelledError if a cancellation struck the publish wait of a constructible event, however the publish
   * itself went, and otherwise with what the finally or the inner call raised.
   */
  lemma OutcomesAreTheWrappers(labels: seq<Label>, c: CallId)
    requires Run(Init(), labels).Some? && c in Run(Init(), labels).value.flights
    requires Run(Init(), labels).value.flights[c].caller.Over?
    ensures var f := Run(Init(), labels).value.flights[c];
      f.ended.Some? && f.caller.outcome == OutcomeOf(f.ctx, f.ended.value, WaitOf(f))
  {
    RunKeepsInv(Init(), labels);
    assert FlightOk(Run(Init(), labels).value.flights[c], c in Run(Init(), labels).value.inflight);
  }

  /** A publish task is referenced by the in-flight set from its creation until it is done. */
  lemma InflightHoldsEveryRunningTask(labels: seq<Label>, c: CallId)
    requires Run(Init(), labels).Some? && c in Run(Init(), labels).value.flights
    ensures var s := Run(Init(), labels).value;
      && (s.flights[c].task.Running? ==> c in s.inflight)
      && (c in s.inflight ==> !s.flights[c].task.NotCreated?)
      && |s.flights[c].published| == (if s.flights[c].task.Done? then 1 else 0)
  {
    RunKeepsInv(Init(), labels);
    assert FlightOk(Run(Init(), labels).value.flights[c], c in Run(Init(), labels).value.inflight);
  }

  /**
   * Cancelling cannot undo a publish: from the moment the finally has created a publish task, it
   * either still runs or has published that very event, whatever further cancellations and steps follow.
   */
  lemma {:induction false} CreatedTasksSurvive(s: State, labels: seq<Label>, c: CallId)
    requires Inv(s) && Run(s, labels).Some? && c in s.flights && !s.flights[c].task.NotCreated?
    ensures var t := Run(s, labels).value;
      && s.flights[c].ended.Some? && c in t.flights && !t.flights[c].task.NotCreated?
      && (t.flights[c].task.Running? || t.flights[c].published == [EventOf(s.flights[c])])
    decreases |labels|
  {
    assert FlightOk(s.flights[c], c in s.inflight);
    if labels != [] {
      var l := labels[0];
      NextKeepsInv(s, l);
      if l.c == c {
        AdvanceKeepsRecords(s.flights[c], c in s.inflight, l);
      }
      CreatedTasksSurvive(Next(s, labels[0]).value, labels[1..], c);
    }
  }

  function AboutNow(chunks: seq<StreamChunk>): TimedCall {
    Call(chunks, Exhausted, seq(|chunks|, k => 0), 0, 0, 0, 0)
  }

  lemma StreamingCanEnd(f: Flight, held: bool, c: CallId)
    requires f.caller.Streaming?
    ensures Advance(f, held, InnerEnds(c, AboutNow(f.chunks))).Some?
  {
  }

  lemma OthersCanMove(f: Flight, held: bool, c: CallId, landed: bool, raised: Option<Exception>)
    requires FlightOk(f, held)
    ensures f.task.Running? ==> Advance(f, held, PublishFinishes(c, landed, raised)).Some?
    ensures f.caller.AtYield? ==> Advance(f, held, ConsumerResumes(c)).Some?
    ensures f.caller.Shielded? && f.struck ==> Advance(f, held, ShieldInterrupted(c)).Some?
    ensures f.caller.Shielded? && !f.struck && !f.task.Running? ==> Advance(f, held, ShieldReturns(c)).Some?
    ensures f.task.Done? && held ==> Advance(f, held, DoneCallback(c)).Some?
  {
  }

  lemma AdvanceIsNext(s: State, l: Label)
    requires !l.Start? && l.c in s.flights
    ensures Next(s, l).Some? <==> Advance(s.flights[l.c], l.c in s.inflight, l).Some?
  {
  }

  /**
   * Nothing gets stuck, whatever has been cancelled: in every reachable state a publish that is running
   * can finish, and a call that is not over can move on by itself.
   */
  lemma NothingGetsStuck(labels: seq<Label>, c: CallId, landed: bool, raised: Option<Exception>)
    requires Run(Init(), labels).Some? && c in Run(Init(), labels).value.flights
    ensures var s := Run(Init(), labels).value;
      var f := s.flights[c];
      && (f.task.Running? ==> Next(s, PublishFinishes(c, landed, raised)).Some?)
      && (f.caller.Streaming? ==> Next(s, InnerEnds(c, AboutNow(f.chunks))).Some?)
      && (f.caller.AtYield? ==> Next(s, ConsumerResumes(c)).Some?)
      && (f.caller.Shielded? && f.struck ==> Next(s, ShieldInterrupted(c)).Some?)
      && (f.caller.Shielded? && !f.struck && !f.task.Running? ==> Next(s, ShieldReturns(c)).Some?)
      && (f.task.Done? && c in s.inflight ==> Next(s, DoneCallback(c)).Some?)
  {
    RunKeepsInv(Init(), labels);
    CanMove(Run(Init(), labels).value, c, landed, raised);
  }

  lemma CanMove(s: State, c: CallId, landed: bool, raised: Option<Exception>)
    requires Inv(s) && c in s.flights
    ensures var f := s.flights[c];
      && (f.task.Running? ==> Next(s, PublishFinishes(c, landed, raised)).Some?)
      && (f.caller.Streaming? ==> Next(s, InnerEnds(c, AboutNow(f.chunks))).Some?)
      && (f.caller.AtYield? ==> Next(s, ConsumerResumes(c)).Some?)
      && (f.caller.Shielded? && f.struck ==> Next(s, ShieldInterrupted(c)).Some?)
      && (f.caller.Shielded? && !f.struck && !f.task.Running? ==> Next(s, ShieldReturns(c)).Some?)
      && (f.task.Done? && c in s.inflight ==> Next(s, DoneCallback(c)).Some?)
  {
    var f, held := s.flights[c], c in s.inflight;
    OthersCanMove(f, held, c, landed, raised);
    if f.caller.Streaming? {
      StreamingCanEnd(f, held, c);
      AdvanceIsNext(s, InnerEnds(c, AboutNow(f.chunks)));
    }
    AdvanceIsNext(s, PublishFinishes(c, landed, raised));
    AdvanceIsNext(s, ConsumerResumes(c));
    AdvanceIsNext(s, ShieldInterrupted(c));
    AdvanceIsNext(s, ShieldReturns(c));
    AdvanceIsNext(s, DoneCallback(c));
  }
}
