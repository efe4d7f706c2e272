/**
 * One instrumented provider call: what the wrapper passes on, and what it records.
 *
 * A call is the chunks consumed and how it ended. Every interruption is an ending: a
 * cancellation surfaces at the await for the next chunk, closing the generator at a yield.
 */
module Instrumentation {
  import opened Common
  import opened Events

  datatype TokenUsage = TokenUsage(inputTokens: Option<int>, outputTokens: Option<int>)

  datatype StreamChunk = StreamChunk(
    deltaText: string,
    finishReason: Option<string>,
    usage: Option<TokenUsage>,
    metadata: map<string, string>)

  /** `type(exc).__name__`. */
  type ClassName = name: string | name != "" witness "Exception"

  datatype Exception =
    | CancelledError
    | GeneratorExit
    | ProviderError(message: string, recordedType: Option<string>, className: ClassName)
    | OtherException(className: ClassName, text: string)
    | ValidationError                          // the event refused to be constructed

  datatype Ending = Exhausted | Raises(exception: Exception)

  /** How awaiting the shielded publish goes: a cancellation may land there, or the bus itself may raise. */
  datatype PublishWait = Returned | Interrupted | TaskRaised(exception: Exception)

  /** `ticks[k]` is the monotonic clock, in microseconds, when chunk k arrives; `endTick` in the finally. */
  datatype Call = Call(
    chunks: seq<StreamChunk>,
    ending: Ending,
    ticks: seq<nat>,
    startTick: nat,
    endTick: nat,
    startedAt: int,
    completedAt: int)

  /** What `InstrumentedProvider` was constructed with, plus the request's model. */
  datatype Context = Context(id: EventId, conversationId: Option<ConvId>, provider: string, model: string, streamed: bool)

  /** The monotonic clock never steps back; the wall clock is unconstrained. */
  predicate ClockRuns(c: Call) {
    && |c.ticks| == |c.chunks|
    && (forall k :: 0 <= k < |c.ticks| ==> c.startTick <= c.ticks[k] <= c.endTick)
    && c.startTick <= c.endTick
  }

  /** Calls as they can be observed. */
  type TimedCall = c: Call | ClockRuns(c) witness Call([], Exhausted, [], 0, 0, 0, 0)

  function Millis(from: nat, to: nat): nat
    requires from <= to
  {
    (to - from) / 1000
  }

  function MergeUsage(current: TokenUsage, incoming: Option<TokenUsage>): TokenUsage {
    if incoming.None? then current
    else TokenUsage(
      if incoming.value.inputTokens.Some? then incoming.value.inputTokens else current.inputTokens,
      if incoming.value.outputTokens.Some? then incoming.value.outputTokens else current.outputTokens)
  }

  function Classify(e: Exception): (r: (Status, Option<string>, string)) {
    match e
    case CancelledError => (Cancelled, None, "Cancelled by client")
    case GeneratorExit => (Cancelled, None, "Cancelled by client")
    case ProviderError(message, recorded, className) =>
      (Error, Some(if recorded.Some? && recorded.value != "" then recorded.value else className), message)
    case OtherException(className, text) => (Error, Some(className), if text != "" then text else className)
    case ValidationError => (Error, Some("ValidationError"), "ValidationError")
  }

  // ---- what "the last value reported" means, without the loop ----

  function LastSome<T>(xs: seq<Option<T>>): Option<T> {
    if xs == [] then None
    else if xs[|xs| - 1].Some? then xs[|xs| - 1]
    else LastSome(xs[..|xs| - 1])
  }

  /** `LastSome` in quantifier form: some reported value after which nothing more is reported. */
  lemma {:induction false} LastSomeIsLast<T>(xs: seq<Option<T>>)
    ensures LastSome(xs).Some? <==> exists k :: 0 <= k < |xs| && xs[k].Some?
    ensures LastSome(xs).Some? ==>
      exists k :: 0 <= k < |xs| && xs[k] == LastSome(xs) && forall j :: k < j < |xs| ==> xs[j].None?
  {
    if xs != [] {
      var n := |xs| - 1;
      if xs[n].None? {
        var init := xs[..n];
        LastSomeIsLast(init);
        if LastSome(init).Some? {
          var k :| 0 <= k < |init| && init[k] == LastSome(init) && forall j :: k < j < |init| ==> init[j].None?;
          assert xs[k] == LastSome(xs) && forall j :: k < j < |xs| ==> xs[j].None?;
        }
      } else {
        assert xs[n] == LastSome(xs);
      }
    }
  }

  function InputReports(chunks: seq<StreamChunk>): seq<Option<int>> {
    seq(|chunks|, k requires 0 <= k < |chunks| =>
      if chunks[k].usage.Some? then chunks[k].usage.value.inputTokens else None)
  }

  function OutputReports(chunks: seq<StreamChunk>): seq<Option<int>> {
    seq(|chunks|, k requires 0 <= k < |chunks| =>
      if chunks[k].usage.Some? then chunks[k].usage.value.outputTokens else None)
  }

  /** Finish reasons as the wrapper counts them: the empty string is no reason. */
  function TruthyReasons(chunks: seq<StreamChunk>): seq<Option<string>> {
    seq(|chunks|, k requires 0 <= k < |chunks| =>
      if chunks[k].finishReason == Some("") then None else chunks[k].finishReason)
  }

  function Reasons(chunks: seq<StreamChunk>): seq<Option<string>> {
    seq(|chunks|, k requires 0 <= k < |chunks| => chunks[k].finishReason)
  }

  function Usages(chunks: seq<StreamChunk>): seq<Option<TokenUsage>> {
    seq(|chunks|, k requires 0 <= k < |chunks| => chunks[k].usage)
  }

  function Texts(chunks: seq<StreamChunk>): seq<string> {
    seq(|chunks|, k requires 0 <= k < |chunks| => chunks[k].deltaText)
  }

  function MetadataOf(chunks: seq<StreamChunk>): map<string, string> {
    if chunks == [] then map[] else MetadataOf(chunks[..|chunks| - 1]) + chunks[|chunks| - 1].metadata
  }

  /** The first chunk that carries text. */
  function FirstText(chunks: seq<StreamChunk>): Option<nat> {
    if chunks == [] then None
    else
      var earlier := FirstText(chunks[..|chunks| - 1]);
      if earlier.Some? then earlier
      else if chunks[|chunks| - 1].deltaText != "" then Some(|chunks| - 1)
      else None
  }

  predicate IsFirstText(chunks: seq<StreamChunk>, k: nat) {
    k < |chunks| && chunks[k].deltaText != "" && forall j :: 0 <= j < k ==> chunks[j].deltaText == ""
  }

  lemma {:induction false} FirstTextIsFirst(chunks: seq<StreamChunk>)
    ensures FirstText(chunks).Some? ==> IsFirstText(chunks, FirstText(chunks).value)
    ensures FirstText(chunks).None? ==> forall j :: 0 <= j < |chunks| ==> chunks[j].deltaText == ""
  {
    if chunks != [] {
      FirstTextIsFirst(chunks[..|chunks| - 1]);
      assert forall j :: 0 <= j < |chunks| - 1 ==> chunks[..|chunks| - 1][j] == chunks[j];
    }
  }

  /** The record of a call, field by field. */
  function Recorded(ctx: Context, c: Call): Fields
    requires ClockRuns(c)
  {
    FirstTextIsFirst(c.chunks);
    var first := FirstText(c.chunks);
    var verdict := if c.ending.Raises? then Classify(c.ending.exception) else (Success, None, "");
    Fields(
      ctx.conversationId, ctx.provider, ctx.model,
      verdict.0, ctx.streamed, c.startedAt, c.completedAt,
      Some(Millis(c.startTick, c.endTick)),
      if first.Some? then Some(Millis(c.startTick, c.ticks[first.value])) else None,
      LastSome(InputReports(c.chunks)), LastSome(OutputReports(c.chunks)),
      verdict.1,
      if c.ending.Raises? then Some(verdict.2) else None,
      LastSome(TruthyReasons(c.chunks)),
      if MetadataOf(c.chunks) == map[] then None else Some(MetadataOf(c.chunks)))
  }

  /** What the publish wait raises, if anything. */
  function WaitEnding(wait: PublishWait): Ending {
    match wait
    case Returned => Exhausted
    case Interrupted => Raises(CancelledError)
    case TaskRaised(e) => Raises(e)
  }

  /** How the wrapped stream ends for its consumer: whatever is raised in the finally replaces the ending. */
  function OutcomeOf(ctx: Context, c: Call, wait: PublishWait): Ending
    requires ClockRuns(c)
  {
    if !Valid(Recorded(ctx, c)) then Raises(ValidationError)
    else if WaitEnding(wait).Raises? then WaitEnding(wait)
    else c.ending
  }

  /**
   * `stream_chat`: the loop, the classification, the finally and its one await. `event` is what is
   * handed to the bus; when it cannot be constructed, nothing is.
   */
  method StreamChat(ctx: Context, call: Call, wait: PublishWait)
    returns (yielded: seq<StreamChunk>, outcome: Ending, event: Result<InferenceEvent>)
    requires ClockRuns(call)
    ensures yielded == call.chunks
    ensures event == if Valid(Recorded(ctx, call)) then Ok(InferenceEvent(ctx.id, Recorded(ctx, call))) else Raised
    ensures outcome == OutcomeOf(ctx, call, wait)
  {
    var ttftMs: Option<int> := None;
    var usage := TokenUsage(None, None);
    var finishReason: Option<string> := None;
    var metadata: map<string, string> := map[];
    var status, errorType, errorMessage := Success, None, None;
    yielded := [];

    var k := 0;
    while k < |call.chunks|
      invariant 0 <= k <= |call.chunks|
      invariant yielded == call.chunks[..k]
      invariant Observation(ttftMs, usage, finishReason, metadata) == Observed(call, k)
    {
      var chunk := call.chunks[k];
      if ttftMs.None? && chunk.deltaText != "" {
        ttftMs := Some(Millis(call.startTick, call.ticks[k]));
      }
      usage := MergeUsage(usage, chunk.usage);
      finishReason := if chunk.finishReason.Some? && chunk.finishReason.value != "" then chunk.finishReason else finishReason;
      metadata := metadata + chunk.metadata;
      ObservedStep(call, k);
      yielded := yielded + [chunk];
      k := k + 1;
    }
    assert call.chunks[..k] == call.chunks;

    if call.ending.Raises? {
      var verdict := Classify(call.ending.exception);
      status, errorType, errorMessage := verdict.0, verdict.1, Some(verdict.2);
    }
    var latencyMs := Millis(call.startTick, call.endTick);
    var fields := Fields(
      ctx.conversationId, ctx.provider, ctx.model, status, ctx.streamed, call.startedAt, call.completedAt,
      Some(latencyMs), ttftMs, usage.inputTokens, usage.outputTokens, errorType, errorMessage, finishReason,
      if metadata == map[] then None else Some(metadata));
    if !Valid(fields) {
      return yielded, Raises(ValidationError), Raised;
    }
    event := Ok(InferenceEvent(ctx.id, fields));
    match wait
    case Returned => outcome := call.ending;
    case Interrupted => outcome := Raises(CancelledError);
    case TaskRaised(e) => outcome := Raises(e);
  }

  /** The loop's locals, by meaning, after the first `n` chunks. */
  datatype Observation = Observation(
    ttftMs: Option<int>, usage: TokenUsage, finishReason: Option<string>, metadata: map<string, string>)

  function Observed(c: Call, n: nat): Observation
    requires ClockRuns(c) && n <= |c.chunks|
  {
    var seen := c.chunks[..n];
    FirstTextIsFirst(seen);
    var first := FirstText(seen);
    Observation(
      if first.Some? then Some(Millis(c.startTick, c.ticks[first.value])) else None,
      TokenUsage(LastSome(InputReports(seen)), LastSome(OutputReports(seen))),
      LastSome(TruthyReasons(seen)),
      MetadataOf(seen))
  }

  lemma ObservedStep(c: Call, k: nat)
    requires ClockRuns(c) && k < |c.chunks|
    ensures var before, after, chunk := Observed(c, k), Observed(c, k + 1), c.chunks[k];
      && after.ttftMs == (if before.ttftMs.None? && chunk.deltaText != ""
                          then Some(Millis(c.startTick, c.ticks[k])) else before.ttftMs)
      && after.usage == MergeUsage(before.usage, chunk.usage)
      && after.finishReason == (if chunk.finishReason.Some? && chunk.finishReason.value != "" then chunk.finishReason
                                else before.finishReason)
      && after.metadata == before.metadata + chunk.metadata
  {
    ReportsGrow(c.chunks[..k], c.chunks[k]);
    assert c.chunks[..k + 1] == c.chunks[..k] + [c.chunks[k]];
  }

  lemma ReportsGrow(chunks: seq<StreamChunk>, c: StreamChunk)
    ensures var n := chunks + [c];
      && InputReports(n) == InputReports(chunks) + [if c.usage.Some? then c.usage.value.inputTokens else None]
      && OutputReports(n) == OutputReports(chunks) + [if c.usage.Some? then c.usage.value.outputTokens else None]
      && TruthyReasons(n) == TruthyReasons(chunks) + [if c.finishReason == Some("") then None else c.finishReason]
      && Reasons(n) == Reasons(chunks) + [c.finishReason]
      && Usages(n) == Usages(chunks) + [c.usage]
      && Texts(n) == Texts(chunks) + [c.deltaText]
      && n[..|n| - 1] == chunks
    ensures LastSomeOfSnoc(InputReports(chunks), if c.usage.Some? then c.usage.value.inputTokens else None)
    ensures LastSomeOfSnoc(OutputReports(chunks), if c.usage.Some? then c.usage.value.outputTokens else None)
    ensures LastSomeOfSnoc(TruthyReasons(chunks), if c.finishReason == Some("") then None else c.finishReason)
    ensures LastSomeOfSnoc(Reasons(chunks), c.finishReason)
    ensures LastSomeOfSnoc(Usages(chunks), c.usage)
  {
  }

  predicate LastSomeOfSnoc<T(==)>(xs: seq<Option<T>>, x: Option<T>) {
    LastSome(xs + [x]) == if x.Some? then x else LastSome(xs)
  }

  // ---- the merge itself ----

  /** An optional report seen as a report: absent is the empty one. */
  function AsUsage(u: Option<TokenUsage>): TokenUsage {
    if u.Some? then u.value else TokenUsage(None, None)
  }

  /** Merging is associative with the empty report as identity, so chunks may be grouped at will. */
  lemma MergeIsAMonoid(a: TokenUsage, b: TokenUsage, c: TokenUsage)
    ensures MergeUsage(MergeUsage(a, Some(b)), Some(c)) == MergeUsage(a, Some(MergeUsage(b, Some(c))))
    ensures MergeUsage(a, Some(TokenUsage(None, None))) == a == MergeUsage(TokenUsage(None, None), Some(a))
    ensures MergeUsage(a, None) == a
  {
  }

  // ---- when the event can be constructed ----

  predicate ReportsNonNegative(reports: seq<Option<int>>) {
    NonNegative(LastSome(reports))
  }

  /**
   * The wall clock did not step back, the names fit, the last token counts are not negative, and the
   * failure, if the provider raised one, carries a message and a short enough class name.
   */
  predicate Constructible(ctx: Context, c: Call) {
    && c.startedAt <= c.completedAt
    && 1 <= |ctx.provider| <= 64 && 1 <= |ctx.model| <= 128
    && ReportsNonNegative(InputReports(c.chunks)) && ReportsNonNegative(OutputReports(c.chunks))
    && AtMost(LastSome(TruthyReasons(c.chunks)), 64)
    && (c.ending.Raises? && c.ending.exception.ProviderError? ==> c.ending.exception.message != "")
    && (c.ending.Raises? ==> AtMost(Classify(c.ending.exception).1, 128))
  }

  /** "Exactly one event" rests on the event's own validation, which succeeds exactly then. */
  lemma ConstructibleExactly(ctx: Context, c: Call)
    requires ClockRuns(c)
    ensures Valid(Recorded(ctx, c)) <==> Constructible(ctx, c)
  {
    FirstTextIsFirst(c.chunks);
  }

  /** A short call in which everything but the given parts is in order. */
  function ShortCall(ending: Ending, startedAt: int, completedAt: int): (c: Call)
    ensures ClockRuns(c)
  {
    Call([], ending, [], 0, 0, startedAt, completedAt)
  }

  const CTX := Context(0, Some(0), "mock", "mock-1", true)

  /** A vendor error without a text becomes a ProviderError with an empty message, and no event. */
  lemma EmptyMessageIsRefused()
    ensures var c := ShortCall(Raises(ProviderError("", None, "ProviderError")), 0, 1);
      !Valid(Recorded(CTX, c)) && OutcomeOf(CTX, c, Returned) == Raises(ValidationError)
  {
  }

  /** A wall clock set back during a successful call, and no event. */
  lemma ClockStepBackIsRefused()
    ensures var c := ShortCall(Exhausted, 1, 0);
      !Valid(Recorded(CTX, c)) && OutcomeOf(CTX, c, Returned) == Raises(ValidationError)
  {
  }

  /** A cancellation during the publish wait hides a success and a provider's error alike. */
  lemma InterruptedWaitHidesTheEnding()
    ensures var good, bad := ShortCall(Exhausted, 0, 1), ShortCall(Raises(ProviderError("down", None, "ProviderError")), 0, 1);
      && Valid(Recorded(CTX, good)) && OutcomeOf(CTX, good, Interrupted) == Raises(CancelledError)
      && Valid(Recorded(CTX, bad)) && OutcomeOf(CTX, bad, Interrupted) == Raises(CancelledError)
  {
    ConstructibleExactly(CTX, ShortCall(Exhausted, 0, 1));
    ConstructibleExactly(CTX, ShortCall(Raises(ProviderError("down", None, "ProviderError")), 0, 1));
  }

  /** Status: cancelled for both ways of going away, error for any other exception, success otherwise. */
  lemma StatusTellsTheEnding(ctx: Context, c: Call)
    requires ClockRuns(c)
    ensures var f := Recorded(ctx, c);
      && (f.status.Success? <==> c.ending.Exhausted?)
      && (f.status.Cancelled? <==> c.ending == Raises(CancelledError) || c.ending == Raises(GeneratorExit))
      && (f.errorType.Some? <==> f.status.Error?)
      && (f.errorMessage.Some? <==> c.ending.Raises?)
  {
  }

  /** `k` reports a value and nothing after it does. */
  ghost predicate IsLastReport<T>(reports: seq<Option<T>>, k: nat) {
    k < |reports| && reports[k].Some? && forall j :: k < j < |reports| ==> reports[j].None?
  }

  /** `n` is a duration in whole milliseconds, rounded down. */
  predicate WholeMillis(n: int, from: nat, to: nat) {
    n * 1000 <= to - from < (n + 1) * 1000
  }

  /** What the log says of a failure: the vendor's own error type where the adapter recorded one. */
  lemma FailureIsRecorded(ctx: Context, c: Call)
    requires ClockRuns(c)
    ensures var f := Recorded(ctx, c);
      && (c.ending.Exhausted? ==> f.errorType == None && f.errorMessage == None)
      && (c.ending.Raises? ==>
            match c.ending.exception
            case CancelledError => f.errorType == None && f.errorMessage == Some("Cancelled by client")
            case GeneratorExit => f.errorType == None && f.errorMessage == Some("Cancelled by client")
            case ProviderError(message, recorded, className) =>
              && f.errorMessage == Some(message)
              && (recorded.Some? && recorded.value != "" ==> f.errorType == recorded)
              && (recorded == None || recorded == Some("") ==> f.errorType == Some(className))
            case OtherException(className, text) =>
              && f.errorType == Some(className)
              && (text != "" ==> f.errorMessage == Some(text))
              && (text == "" ==> f.errorMessage == Some(className))
            case ValidationError => f.errorType == Some("ValidationError"))
  {
  }

  /** The fields that pass through, and the clock readings. */
  lemma CallIsRecorded(ctx: Context, c: Call)
    requires ClockRuns(c)
    ensures var f := Recorded(ctx, c);
      && f.conversationId == ctx.conversationId && f.provider == ctx.provider && f.model == ctx.model
      && f.streamed == ctx.streamed && f.startedAt == c.startedAt && f.completedAt == c.completedAt
      && f.latencyMs.Some? && WholeMillis(f.latencyMs.value, c.startTick, c.endTick)
      && (forall k: nat :: IsFirstText(c.chunks, k) ==>
            f.ttftMs.Some? && WholeMillis(f.ttftMs.value, c.startTick, c.ticks[k]))
  {
    FirstTextIsFirst(c.chunks);
    forall k: nat | IsFirstText(c.chunks, k) ensures FirstText(c.chunks) == Some(k) {
      FirstTextIsFirst(c.chunks);
    }
  }

  /** Usage: each count is the last one any chunk reported, whichever chunk reported the other. */
  lemma UsageIsRecorded(ctx: Context, c: Call, k: nat)
    requires ClockRuns(c) && k < |c.chunks|
    ensures var f := Recorded(ctx, c);
      && (IsLastReport(InputReports(c.chunks), k) ==> f.inputTokens == c.chunks[k].usage.value.inputTokens)
      && (IsLastReport(OutputReports(c.chunks), k) ==> f.outputTokens == c.chunks[k].usage.value.outputTokens)
      && ((forall j :: 0 <= j < |c.chunks| ==> c.chunks[j].usage.None?) ==> f.inputTokens == None && f.outputTokens == None)
  {
    LastReportIsLastSome(InputReports(c.chunks), k);
    LastReportIsLastSome(OutputReports(c.chunks), k);
    LastSomeIsLast(InputReports(c.chunks));
    LastSomeIsLast(OutputReports(c.chunks));
  }

  lemma {:induction false} LastReportIsLastSome<T>(reports: seq<Option<T>>, k: nat)
    ensures IsLastReport(reports, k) ==> LastSome(reports) == reports[k]
  {
    if k < |reports| - 1 {
      LastReportIsLastSome(reports[..|reports| - 1], k);
    }
  }

  /** The finish reason: the last one that is not empty. */
  lemma ReasonIsRecorded(ctx: Context, c: Call, k: nat)
    requires ClockRuns(c) && k < |c.chunks|
    requires c.chunks[k].finishReason.Some? && c.chunks[k].finishReason.value != ""
    requires forall j :: k < j < |c.chunks| ==> c.chunks[j].finishReason == None || c.chunks[j].finishReason == Some("")
    ensures Recorded(ctx, c).finishReason == c.chunks[k].finishReason
  {
    LastReportIsLastSome(TruthyReasons(c.chunks), k);
  }

  predicate IsLastWith(chunks: seq<StreamChunk>, key: string, k: nat) {
    k < |chunks| && key in chunks[k].metadata && forall j :: k < j < |chunks| ==> key !in chunks[j].metadata
  }

  /** The metadata: under each key the value of the last chunk that has it, and null when none has any. */
  lemma {:induction false} MetadataIsLast(chunks: seq<StreamChunk>, key: string)
    ensures key in MetadataOf(chunks) <==> exists k :: 0 <= k < |chunks| && key in chunks[k].metadata
    ensures forall k: nat :: IsLastWith(chunks, key, k) ==> MetadataOf(chunks)[key] == chunks[k].metadata[key]
  {
    if chunks != [] {
      var n := |chunks| - 1;
      var init := chunks[..n];
      MetadataIsLast(init, key);
      assert forall k :: 0 <= k < n ==> init[k] == chunks[k];
      assert forall k: nat :: k < n && IsLastWith(chunks, key, k) ==> IsLastWith(init, key, k);
      if key in MetadataOf(chunks) && key !in chunks[n].metadata {
        var k :| 0 <= k < |init| && key in init[k].metadata;
        assert key in chunks[k].metadata;
      }
    }
  }

  lemma MetadataIsRecorded(ctx: Context, c: Call)
    requires ClockRuns(c)
    ensures var f := Recorded(ctx, c);
      && (f.rawMetadata.Some? ==> f.rawMetadata.value == MetadataOf(c.chunks))
      && (f.rawMetadata == None <==> forall k :: 0 <= k < |c.chunks| ==> c.chunks[k].metadata == map[])
  {
    if MetadataOf(c.chunks) == map[] {
      forall k | 0 <= k < |c.chunks| ensures c.chunks[k].metadata == map[] {
        forall key | key in c.chunks[k].metadata ensures false {
          MetadataIsLast(c.chunks, key);
        }
      }
    } else {
      var key :| key in MetadataOf(c.chunks);
      MetadataIsLast(c.chunks, key);
    }
  }

  /** How the consumer's stream ends, case by case. */
  lemma OutcomeExactly(ctx: Context, c: Call, wait: PublishWait)
    requires ClockRuns(c)
    ensures !Constructible(ctx, c) ==> OutcomeOf(ctx, c, wait) == Raises(ValidationError)
    ensures Constructible(ctx, c) && wait == Returned ==> OutcomeOf(ctx, c, wait) == c.ending
    ensures Constructible(ctx, c) && wait == Interrupted ==> OutcomeOf(ctx, c, wait) == Raises(CancelledError)
    ensures Constructible(ctx, c) && wait.TaskRaised? ==> OutcomeOf(ctx, c, wait) == Raises(wait.exception)
  {
    ConstructibleExactly(ctx, c);
  }

  /** TTFT is null exactly when no text was emitted; otherwise it lies between zero and the latency. */
  lemma TtftWithinLatency(ctx: Context, c: Call)
    requires ClockRuns(c)
    ensures var f := Recorded(ctx, c);
      && f.latencyMs.Some? && f.latencyMs.value >= 0
      && (f.ttftMs.None? <==> forall k :: 0 <= k < |c.chunks| ==> c.chunks[k].deltaText == "")
      && (f.ttftMs.Some? ==> 0 <= f.ttftMs.value <= f.latencyMs.value)
      && (f.ttftMs.Some? ==> exists k: nat :: IsFirstText(c.chunks, k) && f.ttftMs.value == Millis(c.startTick, c.ticks[k]))
  {
    FirstTextIsFirst(c.chunks);
  }

  // ---- the non-streaming call built on the stream ----

  datatype CompletedResponse = CompletedResponse(
    text: string, usage: Option<TokenUsage>, finishReason: Option<string>, metadata: map<string, string>)

  /** What `complete` does in the end: return, or let the stream's exception through. */
  datatype Completion = Returns(response: CompletedResponse) | Throws(exception: Exception)

  /** `BaseProvider.complete`: drains whatever stream it is given. */
  method Complete(chunks: seq<StreamChunk>, ending: Ending) returns (r: Completion)
    ensures ending.Raises? ==> r == Throws(ending.exception)
    ensures ending.Exhausted? ==> r == Returns(CompletedResponse(
      Join(Texts(chunks)), LastSome(Usages(chunks)), LastSome(Reasons(chunks)), MetadataOf(chunks)))
  {
    var parts: seq<string> := [];
    var usage: Option<TokenUsage> := None;
    var finishReason: Option<string> := None;
    var metadata: map<string, string> := map[];
    ghost var seen: seq<StreamChunk> := [];
    var k := 0;
    while k < |chunks|
      invariant 0 <= k <= |chunks| && seen == chunks[..k]
      invariant parts == Texts(seen)
      invariant CompletedResponse("", usage, finishReason, metadata) == Drained(seen)
    {
      var chunk := chunks[k];
      parts := parts + [chunk.deltaText];
      if chunk.usage.Some? {
        usage := chunk.usage;
      }
      if chunk.finishReason.Some? {
        finishReason := chunk.finishReason;
      }
      metadata := metadata + chunk.metadata;
      DrainedStep(seen, chunk);
      seen := seen + [chunk];
      k := k + 1;
    }
    assert seen == chunks;
    if ending.Raises? {
      return Throws(ending.exception);
    }
    return Returns(CompletedResponse(Join(parts), usage, finishReason, metadata));
  }

  /** The locals of the drain loop besides the text. */
  function Drained(chunks: seq<StreamChunk>): CompletedResponse {
    CompletedResponse("", LastSome(Usages(chunks)), LastSome(Reasons(chunks)), MetadataOf(chunks))
  }

  lemma DrainedStep(chunks: seq<StreamChunk>, c: StreamChunk)
    ensures Texts(chunks + [c]) == Texts(chunks) + [c.deltaText]
    ensures var d := Drained(chunks);
      Drained(chunks + [c]) == CompletedResponse(
        "",
        if c.usage.Some? then c.usage else d.usage,
        if c.finishReason.Some? then c.finishReason else d.finishReason,
        d.metadata + c.metadata)
  {
    ReportsGrow(chunks, c);
  }

  /** The publish wait raises nothing, or the very exception the call was ending with. */
  predicate WaitPasses(ending: Ending, wait: PublishWait) {
    WaitEnding(wait).Raises? ==> WaitEnding(wait) == ending
  }

  /**
   * The wrapper is transparent, exactly. `complete()` returns the same response or raises the same
   * exception with it as without it if and only if the event can be constructed and the publish wait
   * raises nothing new. (Or it cannot, and the call was already failing with that very error.)
   */
  method CompleteInstrumented(ctx: Context, call: Call, wait: PublishWait)
    returns (bare: Completion, observed: Completion)
    requires ClockRuns(call)
    ensures observed == bare <==>
      if Constructible(ctx, call) then WaitPasses(call.ending, wait) else call.ending == Raises(ValidationError)
    ensures !Constructible(ctx, call) ==> observed == Throws(ValidationError)
    ensures Constructible(ctx, call) && !WaitPasses(call.ending, wait) ==> observed == Throws(WaitEnding(wait).exception)
  {
    ConstructibleExactly(ctx, call);
    bare := Complete(call.chunks, call.ending);
    var yielded, outcome, event := StreamChat(ctx, call, wait);
    observed := Complete(yielded, outcome);
  }

  /** A chunk reports its usage whole or not at all. */
  lemma {:induction false} LastUsageAndLastReports(chunks: seq<StreamChunk>)
    ensures LastSome(Usages(chunks)).None? ==> LastSome(InputReports(chunks)).None? && LastSome(OutputReports(chunks)).None?
    ensures LastSome(Usages(chunks)).Some? ==>
      var u := LastSome(Usages(chunks)).value;
      && (u.inputTokens.Some? ==> LastSome(InputReports(chunks)) == u.inputTokens)
      && (u.outputTokens.Some? ==> LastSome(OutputReports(chunks)) == u.outputTokens)
  {
    if chunks != [] {
      var init, last := chunks[..|chunks| - 1], chunks[|chunks| - 1];
      LastUsageAndLastReports(init);
      ReportsGrow(init, last);
      assert chunks == init + [last];
    }
  }

  /**
   * The response and the log do not always agree on usage: `complete` keeps the last report whole,
   * the log merges field by field. They agree exactly when every field the last report leaves out was
   * never reported at all.
   */
  lemma ResponseUsageAgreesWithLog(chunks: seq<StreamChunk>)
    ensures AsUsage(LastSome(Usages(chunks))) == TokenUsage(LastSome(InputReports(chunks)), LastSome(OutputReports(chunks)))
      <==> && (AsUsage(LastSome(Usages(chunks))).inputTokens.None? ==> LastSome(InputReports(chunks)).None?)
           && (AsUsage(LastSome(Usages(chunks))).outputTokens.None? ==> LastSome(OutputReports(chunks)).None?)
  {
    LastUsageAndLastReports(chunks);
  }

  /** The split report of the Anthropic adapter is a case where they differ. */
  lemma SplitUsageDisagrees()
    ensures var chunks := [StreamChunk("", None, Some(TokenUsage(Some(11), None)), map[]),
                           StreamChunk("hi", Some("stop"), Some(TokenUsage(None, Some(7))), map[])];
      && LastSome(Usages(chunks)) == Some(TokenUsage(None, Some(7)))
      && LastSome(InputReports(chunks)) == Some(11) && LastSome(OutputReports(chunks)) == Some(7)
  {
    var a := StreamChunk("", None, Some(TokenUsage(Some(11), None)), map[]);
    var b := StreamChunk("hi", Some("stop"), Some(TokenUsage(None, Some(7))), map[]);
    ReportsGrow([], a);
    ReportsGrow([a], b);
    assert [a, b] == [a] + [b] && [a] == [] + [a];
  }
}
