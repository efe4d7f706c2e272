/** The domain-level events of a streamed turn, and the history of text they carry. */
module ChatEvents {
  import opened Common

  /** Conversation and message ids in their textual form. */
  datatype ChatEvent =
    | StreamStarted(conversationId: string, provider: string, model: string)
    | StreamFirstToken(ttftMs: nat)
    | StreamDelta(text: string)
    | StreamCompleted(messageId: string, latencyMs: nat)
    | StreamFailed(code: string, message: string)

  /** The texts of the deltas, in order. */
  function DeltaTexts(trace: seq<ChatEvent>): seq<string> {
    if trace == [] then []
    else (if trace[0].StreamDelta? then [trace[0].text] else []) + DeltaTexts(trace[1..])
  }

  lemma {:induction false} DeltaTextsConcat(a: seq<ChatEvent>, b: seq<ChatEvent>)
    ensures DeltaTexts(a + b) == DeltaTexts(a) + DeltaTexts(b)
  {
    if a == [] {
      assert a + b == b;
    } else {
      assert (a + b)[1..] == a[1..] + b;
      DeltaTextsConcat(a[1..], b);
    }
  }
}
