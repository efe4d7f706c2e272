/**
 * `StreamingChatService.stream`: one turn, two transactions with the provider in between, and
 * what is stored when the second one is reached some other way.
 */
module ChatStream {
  import opened Common
  import opened ChatEvents

  // ---- str.strip() ----

  /** The characters for which Python's `str.isspace` holds. */
  predicate IsSpace(c: char) {
    || '\U{09}' <= c <= '\U{0D}' || '\U{1C}' <= c <= '\U{20}' || c == '\U{85}' || c == '\U{A0}'
    || c == '\U{1680}' || '\U{2000}' <= c <= '\U{200A}' || c == '\U{2028}' || c == '\U{2029}'
    || c == '\U{202F}' || c == '\U{205F}' || c == '\U{3000}'
  }

  /** Which characters those are: six controls and the space, four separators, and the Unicode spaces. */
  lemma SpacesExactly(c: char)
    ensures IsSpace(c) <==>
      || c in {' ', '\t', '\n', '\r', '\U{0B}', '\U{0C}'}
      || c in {'\U{1C}', '\U{1D}', '\U{1E}', '\U{1F}', '\U{85}', '\U{A0}', '\U{1680}'}
      || c in {'\U{2000}', '\U{2001}', '\U{2002}', '\U{2003}', '\U{2004}', '\U{2005}', '\U{2006}', '\U{2007}'}
      || c in {'\U{2008}', '\U{2009}', '\U{200A}', '\U{2028}', '\U{2029}', '\U{202F}', '\U{205F}', '\U{3000}'}
  {
  }

  predicate Blank(s: string) {
    forall i :: 0 <= i < |s| ==> IsSpace(s[i])
  }

  function StripLeft(s: string): string {
    if s != "" && IsSpace(s[0]) then StripLeft(s[1..]) else s
  }

  function StripRight(s: string): string {
    if s != "" && IsSpace(s[|s| - 1]) then StripRight(s[..|s| - 1]) else s
  }

  function Strip(s: string): string {
    StripRight(StripLeft(s))
  }

  lemma {:induction false} StripLeftDrops(s: string) returns (dropped: string)
    ensures s == dropped + StripLeft(s) && Blank(dropped)
    ensures StripLeft(s) != "" ==> !IsSpace(StripLeft(s)[0])
  {
    if s != "" && IsSpace(s[0]) {
      var more := StripLeftDrops(s[1..]);
      dropped := [s[0]] + more;
    } else {
      dropped := "";
    }
  }

  lemma {:induction false} StripRightDrops(s: string) returns (dropped: string)
    ensures s == StripRight(s) + dropped && Blank(dropped)
    ensures StripRight(s) != "" ==> !IsSpace(StripRight(s)[|StripRight(s)| - 1])
  {
    if s != "" && IsSpace(s[|s| - 1]) {
      var more := StripRightDrops(s[..|s| - 1]);
      dropped := more + [s[|s| - 1]];
      assert s == s[..|s| - 1] + [s[|s| - 1]];
    } else {
      dropped := "";
    }
  }

  /** Stripping removes whitespace at the ends and nothing else; the result is empty iff all was blank. */
  lemma StripMeaning(s: string) returns (left: string, right: string)
    ensures s == left + Strip(s) + right && Blank(left) && Blank(right)
    ensures Strip(s) != "" ==> !IsSpace(Strip(s)[0]) && !IsSpace(Strip(s)[|Strip(s)| - 1])
    ensures Strip(s) == "" <==> Blank(s)
  {
    left := StripLeftDrops(s);
    right := StripRightDrops(StripLeft(s));
    assert Strip(s) != "" ==> Strip(s)[0] == StripLeft(s)[0];
    assert Strip(s) != "" ==> s[|left|] == Strip(s)[0];
  }

  // ---- one turn ----

  /** How the first transaction went. */
  datatype UserTurn = Recorded(conversationId: string) | TurnFailed(code: string, message: string) | TurnRaised

  /** How the loop over the provider's chunks ended, unless the generator was closed at a yield. */
  datatype LoopEnd =
    | Exhausted
    | CancelledInLoop                                    // CancelledError raised inside the loop
    | ProviderFailed(code: string, message: string)
    | AppFailed(code: string, message: string)
    | OtherRaised

  /**
   * The second transaction: whether it commits, and whether a cancellation interrupts the wait for
   * it. A shielded write goes on when the wait is interrupted.
   */
  datatype SecondWrite = SecondWrite(commits: bool, interrupted: bool, messageId: string)

  /**
   * Everything the turn does not decide. `texts` are the chunks' texts, empty ones included;
   * `resumes` is how often the consumer comes back for more before it closes the generator.
   */
  datatype Script = Script(
    userTurn: UserTurn,
    provider: string,
    model: string,
    texts: seq<string>,
    loopEnd: LoopEnd,
    write: SecondWrite,
    ttftMs: nat,
    latencyMs: nat,
    resumes: nat)

  /** A content handed to `_record_assistant_turn`. */
  datatype Attempt = Attempt(content: string, shielded: bool)

  function NonEmpty(texts: seq<string>): seq<string> {
    if texts == [] then []
    else NonEmpty(texts[..|texts| - 1]) + (if texts[|texts| - 1] == "" then [] else [texts[|texts| - 1]])
  }

  function Deltas(texts: seq<string>): (r: seq<ChatEvent>)
    ensures |r| == |texts|
    ensures forall k :: 0 <= k < |r| ==> r[k] == StreamDelta(texts[k])
  {
    seq(|texts|, k requires 0 <= k < |texts| => StreamDelta(texts[k]))
  }

  /** The events of the loop: the first token announced once, immediately before the first delta. */
  function LoopEvents(s: Script): seq<ChatEvent> {
    var texts := NonEmpty(s.texts);
    if texts == [] then [] else [StreamFirstToken(s.ttftMs)] + Deltas(texts)
  }

  /** The write after the loop, if the consumer stayed that long. */
  function AttemptAfterLoop(s: Script): seq<Attempt> {
    match s.loopEnd
    case Exhausted => [Attempt(Join(s.texts), false)]
    case CancelledInLoop => if Strip(Join(s.texts)) == "" then [] else [Attempt(Strip(Join(s.texts)), true)]
    case ProviderFailed(_, _) => if Strip(Join(s.texts)) == "" then [] else [Attempt(Strip(Join(s.texts)), true)]
    case _ => []
  }

  /** The event after the loop, if any. */
  function Closing(s: Script): seq<ChatEvent> {
    match s.loopEnd
    case Exhausted =>
      if s.write.commits && !s.write.interrupted then [StreamCompleted(s.write.messageId, s.latencyMs)] else []
    case ProviderFailed(code, message) =>
      if AttemptAfterLoop(s) == [] || s.write.commits || s.write.interrupted then [StreamFailed(code, message)] else []
    case AppFailed(code, message) => [StreamFailed(code, message)]
    case _ => []
  }

  /** All events of a turn whose consumer never leaves. */
  function FullTrace(s: Script): seq<ChatEvent> {
    match s.userTurn
    case TurnFailed(code, message) => [StreamFailed(code, message)]
    case TurnRaised => []
    case Recorded(c) => [StreamStarted(c, s.provider, s.model)] + LoopEvents(s) + Closing(s)
  }

  function Prefix(trace: seq<ChatEvent>, n: nat): seq<ChatEvent> {
    if n <= |trace| then trace[..n] else trace
  }

  /** The generator is resumed after its last yield inside the loop. */
  predicate LoopLeft(s: Script) {
    s.userTurn.Recorded? && s.resumes >= 1 + |LoopEvents(s)|
  }

  /** The assistant messages the turn leaves behind. */
  function Stored(s: Script): seq<string> {
    if LoopLeft(s) && s.write.commits && AttemptAfterLoop(s) != [] then [AttemptAfterLoop(s)[0].content] else []
  }

  class StreamingTurn {
    var trace: seq<ChatEvent>
    var attempts: seq<Attempt>
    var stored: seq<string>       // assistant messages committed by this turn

    constructor ()
      ensures trace == [] && attempts == [] && stored == []
    {
      trace, attempts, stored := [], [], [];
    }

    /** A yield: the event is out, and the generator goes on only if it is resumed. */
    method Yield(e: ChatEvent, resumes: nat) returns (resumed: bool)
      modifies this`trace
      ensures trace == old(trace) + [e]
      ensures resumed <==> |trace| <= resumes
    {
      trace := trace + [e];
      resumed := |trace| <= resumes;
    }

    method RecordAssistantTurn(content: string, shielded: bool, write: SecondWrite)
      modifies this`attempts, this`stored
      ensures attempts == old(attempts) + [Attempt(content, shielded)]
      ensures stored == old(stored) + if write.commits then [content] else []
    {
      attempts := attempts + [Attempt(content, shielded)];
      if write.commits {
        stored := stored + [content];
      }
    }

    /** Whatever was shown before an interruption, unless it is blank; true when nothing was raised out of it. */
    method PersistPartial(parts: seq<string>, write: SecondWrite) returns (ok: bool)
      modifies this`attempts, this`stored
      ensures var text := Strip(Join(parts));
        && attempts == old(attempts) + (if text == "" then [] else [Attempt(text, true)])
        && stored == old(stored) + (if text != "" && write.commits then [text] else [])
        && (ok <==> text == "" || write.commits || write.interrupted)
    {
      var text := Strip(Join(parts));
      if text == "" {
        return true;
      }
      RecordAssistantTurn(text, true, write);
      // suppress(CancelledError) around the shielded await
      ok := write.commits || write.interrupted;
    }

    method Stream(s: Script)
      requires trace == [] && attempts == [] && stored == []
      modifies this
      ensures trace == Prefix(FullTrace(s), s.resumes + 1)
      ensures attempts == if LoopLeft(s) then AttemptAfterLoop(s) else []
      ensures stored == Stored(s)
    {
      if s.userTurn.TurnFailed? {
        var _ := Yield(StreamFailed(s.userTurn.code, s.userTurn.message), s.resumes);
        return;
      }
      if s.userTurn.TurnRaised? {
        return;
      }
      var resumed := Yield(StreamStarted(s.userTurn.conversationId, s.provider, s.model), s.resumes);
      if !resumed {
        return;
      }

      var left, parts := ConsumeProvider(s);
      if !left {
        return;
      }
      JoinNonEmpty(s.texts);
      assert FullTrace(s) == trace + Closing(s);

      match s.loopEnd
      case CancelledInLoop =>
        var _ := PersistPartial(parts, s.write);
      case ProviderFailed(code, message) =>
        var ok := PersistPartial(parts, s.write);
        if ok {
          var _ := Yield(StreamFailed(code, message), s.resumes);
        }
      case AppFailed(code, message) =>
        var _ := Yield(StreamFailed(code, message), s.resumes);
      case OtherRaised =>
      case Exhausted =>
        RecordAssistantTurn(Join(parts), false, s.write);
        if s.write.commits && !s.write.interrupted {
          var _ := Yield(StreamCompleted(s.write.messageId, s.latencyMs), s.resumes);
        }
    }

    /** A chunk with text: the first token is announced before the first delta. */
    method Show(s: Script, parts: seq<string>, text: string) returns (resumed: bool)
      requires trace == Head(s) + LoopTrace(s, parts) && |trace| <= s.resumes && text != ""
      modifies this`trace
      ensures trace == Prefix(Head(s) + LoopTrace(s, parts + [text]), s.resumes + 1)
      ensures resumed <==> |Head(s) + LoopTrace(s, parts + [text])| <= s.resumes
    {
      LoopTraceSnoc(s, parts, text);
      if parts == [] {
        resumed := Yield(StreamFirstToken(s.ttftMs), s.resumes);
        if !resumed {
          return;
        }
      }
      resumed := Yield(StreamDelta(text), s.resumes);
    }

    /** The loop over the provider's chunks; `left` unless the consumer closed the generator at a yield. */
    method ConsumeProvider(s: Script) returns (left: bool, parts: seq<string>)
      requires s.userTurn.Recorded? && s.resumes >= 1 && trace == Head(s)
      modifies this`trace
      ensures left <==> LoopLeft(s)
      ensures left ==> trace == Head(s) + LoopEvents(s) && parts == NonEmpty(s.texts)
      ensures !left ==> trace == Prefix(FullTrace(s), s.resumes + 1)
    {
      parts := [];
      var k := 0;
      while k < |s.texts|
        invariant 0 <= k <= |s.texts|
        invariant parts == NonEmpty(s.texts[..k])
        invariant trace == Head(s) + LoopTrace(s, parts) && |trace| <= s.resumes
      {
        var text := s.texts[k];
        NonEmptyStep(s.texts, k);
        if text != "" {
          var resumed := Show(s, parts, text);
          parts := parts + [text];
          if !resumed {
            NonEmptyPrefix(s.texts, k + 1);
            LeavingEarly(s, parts);
            return false, parts;
          }
        }
        k := k + 1;
      }
      assert s.texts[..k] == s.texts;
      return true, parts;
    }
  }

  function Head(s: Script): seq<ChatEvent> {
    if s.userTurn.Recorded? then [StreamStarted(s.userTurn.conversationId, s.provider, s.model)] else []
  }

  /** What the loop has yielded once `parts` are collected. */
  function LoopTrace(s: Script, parts: seq<string>): seq<ChatEvent> {
    if parts == [] then [] else [StreamFirstToken(s.ttftMs)] + Deltas(parts)
  }

  lemma LoopTraceSnoc(s: Script, parts: seq<string>, text: string)
    ensures LoopTrace(s, parts + [text])
         == (if parts == [] then [StreamFirstToken(s.ttftMs)] else LoopTrace(s, parts)) + [StreamDelta(text)]
  {
    assert Deltas(parts + [text]) == Deltas(parts) + [StreamDelta(text)];
  }

  /** A consumer that leaves inside the loop has seen a prefix of the whole turn. */
  lemma LeavingEarly(s: Script, parts: seq<string>)
    requires s.userTurn.Recorded? && parts <= NonEmpty(s.texts)
    requires |Head(s) + LoopTrace(s, parts)| > s.resumes
    ensures !LoopLeft(s)
    ensures Prefix(FullTrace(s), s.resumes + 1) == Prefix(Head(s) + LoopTrace(s, parts), s.resumes + 1)
  {
    assert LoopTrace(s, parts) <= LoopEvents(s);
  }

  lemma NonEmptyStep(texts: seq<string>, k: nat)
    requires k < |texts|
    ensures NonEmpty(texts[..k + 1]) == NonEmpty(texts[..k]) + (if texts[k] == "" then [] else [texts[k]])
  {
    assert texts[..k + 1][..k] == texts[..k];
  }

  lemma {:induction false} NonEmptyPrefix(texts: seq<string>, k: nat)
    requires k <= |texts|
    ensures NonEmpty(texts[..k]) <= NonEmpty(texts)
  {
    if k < |texts| {
      assert texts[..|texts| - 1][..k] == texts[..k];
      NonEmptyPrefix(texts[..|texts| - 1], k);
    } else {
      assert texts[..k] == texts;
    }
  }

  /** Empty chunks contribute nothing to the text. */
  lemma {:induction false} JoinNonEmpty(texts: seq<string>)
    ensures Join(NonEmpty(texts)) == Join(texts)
  {
    if texts != [] {
      var n := |texts| - 1;
      JoinNonEmpty(texts[..n]);
      JoinSnoc(texts[..n], texts[n]);
      JoinSnoc(NonEmpty(texts[..n]), texts[n]);
      assert NonEmpty(texts[..n]) + [] == NonEmpty(texts[..n]);
      assert texts == texts[..n] + [texts[n]];
    }
  }

  // ---- the grammar of a trace ----

  datatype Grammar = Start | AfterStarted | AfterFirstToken | InDeltas | Final

  function Step(g: Grammar, e: ChatEvent): Option<Grammar> {
    match g
    case Start => if e.StreamFailed? then Some(Final) else if e.StreamStarted? then Some(AfterStarted) else None
    case AfterStarted =>
      if e.StreamFirstToken? then Some(AfterFirstToken)
      else if e.StreamCompleted? || e.StreamFailed? then Some(Final) else None
    case AfterFirstToken => if e.StreamDelta? && e.text != "" then Some(InDeltas) else None
    case InDeltas =>
      if e.StreamDelta? && e.text != "" then Some(InDeltas)
      else if e.StreamCompleted? || e.StreamFailed? then Some(Final) else None
    case Final => None
  }

  /** Where the grammar is after the trace; None when it does not allow it. */
  function After(trace: seq<ChatEvent>): Option<Grammar> {
    if trace == [] then Some(Start)
    else
      var before := After(trace[..|trace| - 1]);
      if before.None? then None else Step(before.value, trace[|trace| - 1])
  }

  lemma {:induction false} AfterDeltas(pre: seq<ChatEvent>, texts: seq<string>)
    requires After(pre) == Some(AfterFirstToken) || After(pre) == Some(InDeltas)
    requires texts != [] && forall k :: 0 <= k < |texts| ==> texts[k] != ""
    ensures After(pre + Deltas(texts)) == Some(InDeltas)
  {
    var n := |texts| - 1;
    var shorter := pre + Deltas(texts[..n]);
    assert Deltas(texts) == Deltas(texts[..n]) + [StreamDelta(texts[n])];
    assert (pre + Deltas(texts))[..|pre| + n] == shorter;
    if n == 0 {
      assert shorter == pre;
    } else {
      AfterDeltas(pre, texts[..n]);
    }
  }

  lemma {:induction false} NonEmptyIsNonEmpty(texts: seq<string>)
    ensures forall k :: 0 <= k < |NonEmpty(texts)| ==> NonEmpty(texts)[k] != ""
  {
    if texts != [] {
      NonEmptyIsNonEmpty(texts[..|texts| - 1]);
    }
  }

  lemma AfterSnoc(trace: seq<ChatEvent>, e: ChatEvent)
    requires After(trace).Some?
    ensures After(trace + [e]) == Step(After(trace).value, e)
  {
    assert (trace + [e])[..|trace|] == trace;
  }

  lemma {:induction false} AfterPrefix(trace: seq<ChatEvent>, n: nat)
    requires After(trace).Some? && n <= |trace|
    ensures After(trace[..n]).Some?
  {
    if n < |trace| {
      assert trace[..|trace| - 1][..n] == trace[..n];
      AfterPrefix(trace[..|trace| - 1], n);
    } else {
      assert trace[..n] == trace;
    }
  }

  /** The loop's part of a recorded turn, in the grammar. */
  lemma LoopObeysGrammar(s: Script)
    requires s.userTurn.Recorded?
    ensures var trace := [StreamStarted(s.userTurn.conversationId, s.provider, s.model)] + LoopEvents(s);
      After(trace) == Some(if NonEmpty(s.texts) == [] then AfterStarted else InDeltas)
  {
    var started := [StreamStarted(s.userTurn.conversationId, s.provider, s.model)];
    AfterSnoc([], started[0]);
    assert [] + started == started;
    if NonEmpty(s.texts) == [] {
      assert started + LoopEvents(s) == started;
    } else {
      AfterSnoc(started, StreamFirstToken(s.ttftMs));
      NonEmptyIsNonEmpty(s.texts);
      AfterDeltas(started + [StreamFirstToken(s.ttftMs)], NonEmpty(s.texts));
      assert started + LoopEvents(s) == started + [StreamFirstToken(s.ttftMs)] + Deltas(NonEmpty(s.texts));
    }
  }

  lemma RecordedTurnObeysGrammar(s: Script)
    requires s.userTurn.Recorded?
    ensures After(FullTrace(s)).Some?
  {
    LoopObeysGrammar(s);
    var body := [StreamStarted(s.userTurn.conversationId, s.provider, s.model)] + LoopEvents(s);
    if Closing(s) == [] {
      assert FullTrace(s) == body;
    } else {
      var last := Closing(s)[0];
      assert FullTrace(s) == body + [last];
      AfterSnoc(body, last);
    }
  }

  lemma FullTraceObeysGrammar(s: Script)
    ensures After(FullTrace(s)).Some?
  {
    if s.userTurn.Recorded? {
      RecordedTurnObeysGrammar(s);
    } else if s.userTurn.TurnFailed? {
      AfterSnoc([], FullTrace(s)[0]);
      assert [] + [FullTrace(s)[0]] == FullTrace(s);
    }
  }

  /**
   * Every trace is a prefix of `Failed` or `Started (FirstToken Delta+)? (Completed | Failed)`, however
   * the turn ends and wherever its consumer leaves.
   */
  lemma TracesObeyTheGrammar(s: Script)
    ensures After(Prefix(FullTrace(s), s.resumes + 1)).Some?
  {
    FullTraceObeysGrammar(s);
    if s.resumes + 1 <= |FullTrace(s)| {
      AfterPrefix(FullTrace(s), s.resumes + 1);
    }
  }

  lemma {:induction false} DeltaTextsOfDeltas(texts: seq<string>)
    ensures DeltaTexts(Deltas(texts)) == texts
  {
    if texts != [] {
      assert Deltas(texts)[1..] == Deltas(texts[1..]);
      DeltaTextsOfDeltas(texts[1..]);
    }
  }

  lemma LoopTexts(s: Script)
    ensures DeltaTexts(LoopEvents(s)) == NonEmpty(s.texts)
  {
    if NonEmpty(s.texts) != [] {
      DeltaTextsOfDeltas(NonEmpty(s.texts));
      assert LoopEvents(s)[1..] == Deltas(NonEmpty(s.texts));
    }
  }

  /**
   * When the completion event is out, the stored assistant message is the concatenation of the deltas
   * that were sent, character for character, and it is the only one.
   */
  lemma CompletedMeansStored(s: Script, k: nat)
    requires k < |Prefix(FullTrace(s), s.resumes + 1)|
    requires Prefix(FullTrace(s), s.resumes + 1)[k].StreamCompleted?
    ensures var trace := Prefix(FullTrace(s), s.resumes + 1);
      && LoopLeft(s) && s.write.commits && k == |trace| - 1
      && AttemptAfterLoop(s) == [Attempt(Join(DeltaTexts(trace)), false)]
      && DeltaTexts(trace) == NonEmpty(s.texts)
  {
    var full := FullTrace(s);
    assert full[k].StreamCompleted?;
    assert s.userTurn.Recorded?;
    CompletedIsLast(s, k);
    assert Prefix(full, s.resumes + 1) == full;
    FullTraceTexts(s);
    JoinNonEmpty(s.texts);
  }

  lemma CompletedIsLast(s: Script, k: nat)
    requires s.userTurn.Recorded? && k < |FullTrace(s)| && FullTrace(s)[k].StreamCompleted?
    ensures k == |FullTrace(s)| - 1 == 1 + |LoopEvents(s)| && s.loopEnd.Exhausted? && s.write.commits
  {
    var events := LoopEvents(s);
    assert forall j :: 0 <= j < |events| ==> FullTrace(s)[j + 1] == events[j] && !events[j].StreamCompleted?;
  }

  /**
   * How a turn ends for a consumer that stays to the end. It is told `done`, with the stored message's
   * id, exactly when the provider came to its end and the reply was committed undisturbed; a provider's
   * error reaches it, with its own code and message, unless storing the partial reply raised; an error
   * of the application always does; and in every other case nothing closes the turn.
   */
  lemma TurnEndsExactly(s: Script)
    requires s.userTurn.Recorded? && s.resumes >= |FullTrace(s)|
    ensures Prefix(FullTrace(s), s.resumes + 1) == FullTrace(s) && FullTrace(s) != []
    ensures var last := FullTrace(s)[|FullTrace(s)| - 1];
      && (last == StreamCompleted(s.write.messageId, s.latencyMs) <==>
            s.loopEnd.Exhausted? && s.write.commits && !s.write.interrupted)
      && (last.StreamCompleted? ==> s.loopEnd.Exhausted?)
      && (s.loopEnd.ProviderFailed? ==>
            (last == StreamFailed(s.loopEnd.code, s.loopEnd.message) <==>
               Blank(Join(s.texts)) || s.write.commits || s.write.interrupted))
      && (s.loopEnd.AppFailed? ==> last == StreamFailed(s.loopEnd.code, s.loopEnd.message))
      && (last.StreamFailed? ==> s.loopEnd.AppFailed? || s.loopEnd.ProviderFailed?)
  {
    var left, right := StripMeaning(Join(s.texts));
    var events := LoopEvents(s);
    assert forall k :: 0 <= k < |events| ==> !events[k].StreamCompleted? && !events[k].StreamFailed?;
  }

  /** A turn that could not be recorded reports that, in one event, or raises and says nothing. */
  lemma UnrecordedTurn(s: Script)
    requires !s.userTurn.Recorded?
    ensures s.userTurn.TurnFailed? ==> FullTrace(s) == [StreamFailed(s.userTurn.code, s.userTurn.message)]
    ensures s.userTurn.TurnRaised? ==> FullTrace(s) == []
    ensures Stored(s) == []
  {
  }

  /**
   * What a turn whose loop has been left stores. The whole reply, empty or not, after the provider's
   * end; the stripped part of an interrupted one unless blank; nothing after any other exception.
   */
  lemma StoredExactly(s: Script)
    requires LoopLeft(s)
    ensures s.loopEnd.Exhausted? ==> Stored(s) == if s.write.commits then [Join(s.texts)] else []
    ensures s.loopEnd.CancelledInLoop? || s.loopEnd.ProviderFailed? ==>
      (Stored(s) == if s.write.commits && !Blank(Join(s.texts)) then [Strip(Join(s.texts))] else [])
    ensures s.loopEnd.AppFailed? || s.loopEnd.OtherRaised? ==> Stored(s) == [] && AttemptAfterLoop(s) == []
  {
    var left, right := StripMeaning(Join(s.texts));
  }

  lemma NoDelta(events: seq<ChatEvent>)
    requires |events| <= 1 && forall k :: 0 <= k < |events| ==> !events[k].StreamDelta?
    ensures DeltaTexts(events) == []
  {
    assert events != [] ==> events[1..] == [];
  }

  /** The deltas of a turn are the loop's. */
  lemma FullTraceTexts(s: Script)
    requires s.userTurn.Recorded?
    ensures DeltaTexts(FullTrace(s)) == NonEmpty(s.texts)
  {
    var head, events := [StreamStarted(s.userTurn.conversationId, s.provider, s.model)], LoopEvents(s);
    LoopTexts(s);
    DeltaTextsConcat(head, events);
    DeltaTextsConcat(head + events, Closing(s));
    NoDelta(head);
    NoDelta(Closing(s));
    assert [] + NonEmpty(s.texts) == NonEmpty(s.texts);
    assert NonEmpty(s.texts) + [] == NonEmpty(s.texts);
  }

  /**
   * On a provider failure, or a cancellation raised inside the loop, what is handed to the shielded
   * store is the stripped concatenation of everything shown, and nothing when that is blank; and no
   * turn ever attempts a second assistant message.
   */
  lemma InterruptionKeepsWhatWasShown(s: Script)
    requires LoopLeft(s) && (s.loopEnd.CancelledInLoop? || s.loopEnd.ProviderFailed?)
    ensures var shown := Join(DeltaTexts(LoopEvents(s)));
      && (AttemptAfterLoop(s) == [] <==> Blank(shown))
      && (!Blank(shown) ==> AttemptAfterLoop(s) == [Attempt(Strip(shown), true)])
      && |AttemptAfterLoop(s)| <= 1
  {
    LoopTexts(s);
    JoinNonEmpty(s.texts);
    var left, right := StripMeaning(Join(s.texts));
  }
}
