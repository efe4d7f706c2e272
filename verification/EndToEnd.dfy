/**
 * From the service to the screen: the turn's events, printed as frames, through the bounded queue
 * under any interleaving, over a network that cuts the bytes anywhere, into the client's handlers.
 */
module EndToEnd {
  import opened Common
  import opened ChatEvents
  import opened SseWire
  import Turn = ChatStream
  import Queue = SseQueue

  /** What the client has appended to its text: the `onChunk` calls. */
  function Shown(fired: seq<Outcome>): string {
    if fired == [] then ""
    else (if fired[0].Fired? && fired[0].event.StreamDelta? then fired[0].event.text else "") + Shown(fired[1..])
  }

  predicate SawDone(fired: seq<Outcome>) {
    exists k :: 0 <= k < |fired| && fired[k].Fired? && fired[k].event.StreamCompleted?
  }

  lemma {:induction false} ShownOfAll(events: seq<ChatEvent>)
    ensures Shown(FiredAll(events)) == Join(DeltaTexts(events))
  {
    if events == [] {
      assert FiredAll(events) == [];
    } else {
      assert FiredAll(events)[1..] == FiredAll(events[1..]);
      ShownOfAll(events[1..]);
      if events[0].StreamDelta? {
        assert DeltaTexts(events) == [events[0].text] + DeltaTexts(events[1..]);
        JoinAppend([events[0].text], DeltaTexts(events[1..]));
        JoinSingle(events[0].text);
      } else {
        assert [] + DeltaTexts(events[1..]) == DeltaTexts(events[1..]);
      }
    }
  }

  /** A client that has received only part of the bytes has fired only the first of the events. */
  lemma PartialReadFiresAPrefix(events: seq<ChatEvent>, received: string)
    ensures received <= Join(Print(events)) ==> FiredFor(received) <= FiredAll(events)
  {
    if received <= Join(Print(events)) {
      var rest := Join(Print(events))[|received|..];
      assert Join(Print(events)) == received + rest;
      ReadFires(received, rest);
      StreamRoundTrip(events);
    }
  }

  lemma JoinPrefix(a: seq<string>, b: seq<string>)
    requires a <= b
    ensures Join(a) <= Join(b)
  {
    assert b == a + b[|a|..];
    JoinAppend(a, b[|a|..]);
  }

  /** The frames the service yielded, as the queue's source saw them. */
  predicate Carries(s: Turn.Script, st: Queue.State) {
    st.pulled <= Print(Turn.Prefix(Turn.FullTrace(s), s.resumes + 1))
  }

  /** What the client fires is a prefix of the turn's events, whatever lies in between. */
  lemma ClientSeesAPrefixOfTheTurn(s: Turn.Script, cap: nat, labels: seq<Queue.Label>, chunks: seq<string>)
    requires Queue.Run(Queue.Init(), cap, labels).Some?
    requires Carries(s, Queue.Run(Queue.Init(), cap, labels).value)
    requires Join(chunks) <= Join(Queue.Run(Queue.Init(), cap, labels).value.delivered)
    ensures FiredFor(Join(chunks)) <= FiredAll(Turn.Prefix(Turn.FullTrace(s), s.resumes + 1))
  {
    var st := Queue.Run(Queue.Init(), cap, labels).value;
    Queue.DeliveryIsAPrefixOfTheSource(cap, labels);
    var trace := Turn.Prefix(Turn.FullTrace(s), s.resumes + 1);
    assert st.delivered <= Print(trace);
    JoinPrefix(st.delivered, Print(trace));
    PartialReadFiresAPrefix(trace, Join(chunks));
  }

  /** A client that has handled a prefix of the turn's events, `done` among them, has handled them all. */
  lemma DoneMeansStored(s: Turn.Script, fired: seq<Outcome>)
    requires fired <= FiredAll(Turn.Prefix(Turn.FullTrace(s), s.resumes + 1)) && SawDone(fired)
    ensures var trace := Turn.Prefix(Turn.FullTrace(s), s.resumes + 1);
      && Shown(fired) == Join(DeltaTexts(trace))
      && Turn.LoopLeft(s) && s.write.commits
      && Turn.AttemptAfterLoop(s) == [Turn.Attempt(Shown(fired), false)]
  {
    var trace := Turn.Prefix(Turn.FullTrace(s), s.resumes + 1);
    var k :| 0 <= k < |fired| && fired[k].Fired? && fired[k].event.StreamCompleted?;
    assert fired[k] == FiredAll(trace)[k] == Fired(trace[k]);
    Turn.CompletedMeansStored(s, k);
    assert fired == FiredAll(trace);
    ShownOfAll(trace);
  }

  /**
   * End to end. On any run, with any capacity, any interleaving of producer, watcher and consumer, any
   * number of cancellations and any cutting of the bytes: once the client's handlers have seen `done`,
   * the text it accumulated is the concatenation of the service's deltas, and that is the content of
   * the one assistant message the turn attempted to store, which has been committed.
   */
  lemma ScreenMatchesTranscript(s: Turn.Script, cap: nat, labels: seq<Queue.Label>, chunks: seq<string>)
    requires Queue.Run(Queue.Init(), cap, labels).Some?
    requires Carries(s, Queue.Run(Queue.Init(), cap, labels).value)
    requires Join(chunks) <= Join(Queue.Run(Queue.Init(), cap, labels).value.delivered)
    requires SawDone(FiredFor(Join(chunks)))
    ensures var fired := FiredFor(Join(chunks));
      var trace := Turn.Prefix(Turn.FullTrace(s), s.resumes + 1);
      && Shown(fired) == Join(DeltaTexts(trace))
      && Turn.LoopLeft(s) && s.write.commits
      && Turn.AttemptAfterLoop(s) == [Turn.Attempt(Shown(fired), false)]
  {
    ClientSeesAPrefixOfTheTurn(s, cap, labels, chunks);
    DoneMeansStored(s, FiredFor(Join(chunks)));
  }

  /** The same for the code itself: run the turn, then read what the network brought. */
  method ReadTurn(s: Turn.Script, cap: nat, ghost labels: seq<Queue.Label>, chunks: seq<string>)
    returns (turn: Turn.StreamingTurn, fired: seq<Outcome>, threw: bool)
    requires Queue.Run(Queue.Init(), cap, labels).Some?
    requires Carries(s, Queue.Run(Queue.Init(), cap, labels).value)
    requires Join(chunks) <= Join(Queue.Run(Queue.Init(), cap, labels).value.delivered)
    ensures fired <= FiredAll(turn.trace) && !threw
    ensures SawDone(fired) ==> turn.stored == [Shown(fired)] && Shown(fired) == Join(DeltaTexts(turn.trace))
  {
    turn := new Turn.StreamingTurn();
    turn.Stream(s);
    var buffer;
    fired, buffer, threw := StreamMessage(chunks);
    ClientSeesAPrefixOfTheTurn(s, cap, labels, chunks);
    if SawDone(fired) {
      ScreenMatchesTranscript(s, cap, labels, chunks);
    }
  }

  // ---- what a disconnect leaves behind ----

  /** The queue's source is this turn, and a put was interrupted: the turn was not resumed after its last frame. */
  predicate LeftAtItsLastFrame(s: Turn.Script, st: Queue.State) {
    && st.lost != []
    && st.pulled == Print(Turn.Prefix(Turn.FullTrace(s), s.resumes + 1))
    && s.resumes + 1 == |st.pulled|
  }

  predicate ClosingEvent(e: ChatEvent) {
    e.StreamCompleted? || e.StreamFailed?
  }

  lemma LoopEventsDoNotClose(s: Turn.Script, k: nat)
    requires s.userTurn.Recorded? && k < |Turn.FullTrace(s)|
    ensures ClosingEvent(Turn.FullTrace(s)[k]) <==> k == 1 + |Turn.LoopEvents(s)|
  {
    var events := Turn.LoopEvents(s);
    assert forall j :: 0 <= j < |events| ==> Turn.FullTrace(s)[j + 1] == events[j] && !ClosingEvent(events[j]);
  }

  /** Where the turn stands decides what it stores. */
  lemma StoresOnlyAfterTheLoop(s: Turn.Script)
    requires s.userTurn.Recorded? && s.resumes < |Turn.FullTrace(s)|
    ensures Turn.LoopLeft(s) <==> ClosingEvent(Turn.FullTrace(s)[s.resumes])
    ensures !ClosingEvent(Turn.FullTrace(s)[s.resumes]) ==> Turn.Stored(s) == []
    ensures s.loopEnd.CancelledInLoop? ==> Turn.Stored(s) == []
  {
    LoopEventsDoNotClose(s, s.resumes);
    assert s.loopEnd.CancelledInLoop? ==> |Turn.FullTrace(s)| == 1 + |Turn.LoopEvents(s)|;
  }

  lemma LastPrinted(trace: seq<ChatEvent>)
    requires trace != []
    ensures Print(trace)[|trace| - 1] == ToSse(trace[|trace| - 1])
  {
  }

  /**
   * "Keep whatever they already saw" does not reach a cancellation that lands on the put: on any run
   * in which a put was interrupted, the turn stores nothing at all unless the frame lost is its closing
   * one, however much of the reply the client has been shown; and the branch that keeps a partial reply
   * for a cancelled turn is never entered.
   */
  lemma InterruptedPutKeepsNothing(s: Turn.Script, cap: nat, labels: seq<Queue.Label>)
    requires Queue.Run(Queue.Init(), cap, labels).Some?
    requires s.userTurn.Recorded? && LeftAtItsLastFrame(s, Queue.Run(Queue.Init(), cap, labels).value)
    ensures s.resumes < |Turn.FullTrace(s)|
    ensures var last := Turn.FullTrace(s)[s.resumes];
      && Queue.Run(Queue.Init(), cap, labels).value.lost == [ToSse(last)]
      && (Turn.LoopLeft(s) <==> ClosingEvent(last))
      && (!ClosingEvent(last) ==> Turn.Stored(s) == [])
      && (s.loopEnd.CancelledInLoop? ==> Turn.Stored(s) == [])
  {
    Queue.LostIsLast(cap, labels);
    LastPrinted(Turn.Prefix(Turn.FullTrace(s), s.resumes + 1));
    StoresOnlyAfterTheLoop(s);
  }

  lemma {:induction false} NothingEmpty(texts: seq<string>)
    requires forall k :: 0 <= k < |texts| ==> texts[k] != ""
    ensures Turn.NonEmpty(texts) == texts
  {
    if texts != [] {
      NothingEmpty(texts[..|texts| - 1]);
      assert texts == texts[..|texts| - 1] + [texts[|texts| - 1]];
    }
  }

  lemma OneDelta(a: ChatEvent, b: ChatEvent, c: ChatEvent)
    requires !a.StreamDelta? && !b.StreamDelta? && c.StreamDelta?
    ensures DeltaTexts([a, b, c]) == [c.text]
  {
    assert [a, b, c][1..] == [b, c] && [b, c][1..] == [c] && [c][1..] == [];
    assert DeltaTexts([c]) == [c.text];
    assert DeltaTexts([b, c]) == [c.text];
  }

  /** The first three events of a turn that shows something show its first text. */
  lemma FirstThree(s: Turn.Script, trace: seq<ChatEvent>)
    requires s.userTurn.Recorded? && Turn.NonEmpty(s.texts) != []
    requires |trace| >= 3 && trace <= Turn.FullTrace(s)
    ensures Join(DeltaTexts(trace[..3])) == Turn.NonEmpty(s.texts)[0]
  {
    var a, b, c := trace[0], trace[1], trace[2];
    assert trace[..3] == [a, b, c];
    OneDelta(a, b, c);
    JoinSingle(Turn.NonEmpty(s.texts)[0]);
  }

  lemma ReadingThree(trace: seq<ChatEvent>)
    requires |trace| >= 3
    ensures Shown(FiredFor(Join(Print(trace)[..3]))) == Join(DeltaTexts(trace[..3]))
  {
    assert Print(trace)[..3] == Print(trace[..3]);
    StreamRoundTrip(trace[..3]);
    ShownOfAll(trace[..3]);
  }

  /** Shown and not stored, for every capacity: the client has the start, the first token and `texts[0]`. */
  lemma ShownButNotStored(s: Turn.Script, cap: nat) returns (labels: seq<Queue.Label>)
    requires cap >= 1 && s.userTurn.Recorded? && s.resumes == cap + 3
    requires |s.texts| == cap + 2 && forall k :: 0 <= k < |s.texts| ==> s.texts[k] != ""
    ensures Queue.Run(Queue.Init(), cap, labels).Some?
    ensures var st := Queue.Run(Queue.Init(), cap, labels).value;
      && LeftAtItsLastFrame(s, st)
      && Shown(FiredFor(Join(st.delivered))) == s.texts[0]
      && Turn.Stored(s) == []
  {
    NothingEmpty(s.texts);
    var trace := Turn.Prefix(Turn.FullTrace(s), s.resumes + 1);
    StoresOnlyAfterTheLoop(s);
    LoopEventsDoNotClose(s, s.resumes);
    labels := Queue.DisconnectDuringPut(cap, Print(trace), 3);
    FirstThree(s, trace);
    ReadingThree(trace);
  }

  lemma FailedTurn(s: Turn.Script)
    requires s.userTurn.Recorded? && s.loopEnd.ProviderFailed? && s.write.interrupted
    requires Turn.NonEmpty(s.texts) != [] && !Turn.Blank(Join(s.texts))
    ensures |Turn.FullTrace(s)| == |Turn.NonEmpty(s.texts)| + 3
    ensures Turn.AttemptAfterLoop(s) == [Turn.Attempt(Turn.Strip(Join(s.texts)), true)]
  {
    var left, right := Turn.StripMeaning(Join(s.texts));
  }

  /**
   * The teardown that never ends is one this turn brings about: a provider error after `cap - 1`
   * deltas, a client that goes while the partial reply is being stored, and the error frame after it.
   */
  lemma TurnHangsItsTeardown(s: Turn.Script, cap: nat) returns (labels: seq<Queue.Label>)
    requires cap >= 2 && s.userTurn.Recorded? && s.loopEnd.ProviderFailed? && s.write.interrupted
    requires |Turn.NonEmpty(s.texts)| == cap - 1 && !Turn.Blank(Join(s.texts)) && s.resumes >= cap + 1
    ensures Queue.Run(Queue.Init(), cap, labels).Some?
    ensures var st := Queue.Run(Queue.Init(), cap, labels).value;
      && st.pulled == Print(Turn.FullTrace(s))
      && st.consumer.TearingDown? && st.intoSource == 1 && Queue.Blocked(st) && Queue.Still(st, cap)
    ensures Turn.Prefix(Turn.FullTrace(s), s.resumes + 1) == Turn.FullTrace(s)
    ensures Turn.AttemptAfterLoop(s) == [Turn.Attempt(Turn.Strip(Join(s.texts)), true)]
  {
    FailedTurn(s);
    labels := Queue.SourceOfTwoMoreHangs(cap, Print(Turn.FullTrace(s)));
  }
}
