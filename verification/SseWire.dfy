/**
 * Server-Sent Events on the wire: the printer on the server and the incremental parser in the
 * browser. The framing is the subset of sections 9.2.5 and 9.2.6 of the WHATWG HTML Living
 * Standard that uses one `event` and one `data` line per frame and a blank line after it.
 */
module SseWire {
  import opened Common
  import opened Json
  import opened ChatEvents

  // ---- printing ----

  /** What stands between two blank lines. */
  function Body(event: string, data: Object): string {
    "event: " + event + "\n" + ("data: " + Dumps(data))
  }

  function FormatSse(event: string, data: Object): string {
    Body(event, data) + "\n\n"
  }

  /** The event name and payload of one domain event. */
  function NameOf(e: ChatEvent): string {
    match e
    case StreamStarted(_, _, _) => "start"
    case StreamFirstToken(_) => "ttft"
    case StreamDelta(_) => "chunk"
    case StreamCompleted(_, _) => "done"
    case StreamFailed(_, _) => "error"
  }

  function DataOf(e: ChatEvent): Object {
    match e
    case StreamStarted(c, p, m) => [("conversation_id", Str(c)), ("provider", Str(p)), ("model", Str(m))]
    case StreamFirstToken(ms) => [("ttft_ms", Num(ms))]
    case StreamDelta(text) => [("text", Str(text))]
    case StreamCompleted(id, ms) => [("message_id", Str(id)), ("latency_ms", Num(ms))]
    case StreamFailed(code, message) => [("code", Str(code)), ("message", Str(message))]
  }

  function ToSse(e: ChatEvent): string {
    FormatSse(NameOf(e), DataOf(e))
  }

  lemma Flatten(a: string, q: string, k: string, c: string, t: string, d: string)
    ensures a + ((q + k + q) + (c + ((q + t + q) + d))) == (a + q + k + q + c + q) + t + (q + d)
  {
  }

  lemma FlattenFrame(e: string, d: string, x: string, t: string, y: string, z: string)
    ensures (e + (d + (x + t + y))) + z == (e + d + x) + t + (y + z)
  {
  }

  lemma OneMemberOnTheWire(key: string, text: string)
    requires Plain(key) && Plain(text)
    ensures Dumps([(key, Str(text))]) == ("{" + "\"" + key + "\"" + ": " + "\"") + text + ("\"" + "}")
  {
    PlainIsVerbatim(key);
    PlainIsVerbatim(text);
    Flatten("{", "\"", key, ": ", text, "}");
  }

  /** A chunk as it goes over the wire, for text that needs no escapes. */
  lemma DeltaOnTheWire(text: string)
    requires Plain(text)
    ensures ToSse(StreamDelta(text)) == "event: chunk\ndata: {\"text\": \"" + text + "\"}\n\n"
  {
    var x, y := "{" + "\"" + "text" + "\"" + ": " + "\"", "\"" + "}";
    OneMemberOnTheWire("text", text);
    FlattenFrame("event: " + "chunk" + "\n", "data: ", x, text, y, "\n\n");
    ChunkPrefix();
  }

  lemma ChunkPrefix()
    ensures ("event: " + "chunk" + "\n") + "data: " + ("{" + "\"" + "text" + "\"" + ": " + "\"") == "event: chunk\ndata: {\"text\": \""
    ensures ("\"" + "}") + "\n\n" == "\"}\n\n"
  {
  }

  // ---- splitting on the blank line ----

  /** The pieces of `[c] + s`, given those of `s`: the character goes to the first piece. */
  function Attach(c: char, frames: seq<string>, rest: string): (seq<string>, string) {
    if frames == [] then ([], [c] + rest) else ([[c] + frames[0]] + frames[1..], rest)
  }

  /** `s.split("\n\n")`: the complete frames, and the last piece. */
  function Split(s: string): (seq<string>, string)
    decreases |s|
  {
    if |s| < 2 then ([], s)
    else if s[0] == '\n' && s[1] == '\n' then
      var (frames, rest) := Split(s[2..]);
      ([""] + frames, rest)
    else
      var (frames, rest) := Split(s[1..]);
      Attach(s[0], frames, rest)
  }

  predicate BreaksAt(frame: string, i: nat)
    requires i < |frame|
  {
    frame[i] == '\n' && (i + 1 == |frame| || frame[i + 1] == '\n')
  }

  /** No blank line before the end of `frame + "\n\n"`. */
  predicate Unbroken(frame: string) {
    forall i :: 0 <= i < |frame| ==> !BreaksAt(frame, i)
  }

  lemma UnbrokenStep(frame: string)
    requires frame != ""
    ensures Unbroken(frame) <==> Unbroken(frame[1..]) && !BreaksAt(frame, 0)
  {
    var tail := frame[1..];
    assert forall i: nat :: i < |tail| ==> (BreaksAt(tail, i) <==> BreaksAt(frame, i + 1));
    if Unbroken(tail) && !BreaksAt(frame, 0) {
      forall i: nat | i < |frame| ensures !BreaksAt(frame, i) {
        assert i > 0 ==> !BreaksAt(tail, i - 1);
      }
    }
  }

  predicate NoBlankLine(s: string) {
    forall i :: 0 <= i < |s| - 1 ==> !(s[i] == '\n' && s[i + 1] == '\n')
  }

  function Unsplit(frames: seq<string>, rest: string): string {
    if frames == [] then rest else frames[0] + "\n\n" + Unsplit(frames[1..], rest)
  }

  lemma AttachKeepsText(c: char, frames: seq<string>, rest: string)
    ensures var (fs, r) := Attach(c, frames, rest); Unsplit(fs, r) == [c] + Unsplit(frames, rest)
  {
    if frames != [] {
      var fs := [[c] + frames[0]] + frames[1..];
      assert fs[1..] == frames[1..];
      Reassociate(c, frames[0], Unsplit(frames[1..], rest));
    }
  }

  lemma Reassociate(c: char, frame: string, later: string)
    ensures ([c] + frame) + "\n\n" + later == [c] + (frame + "\n\n" + later)
  {
  }

  /** The first character of the text ends up in the first piece. */
  lemma FirstOfUnsplit(frame: string, later: string)
    ensures (frame + "\n\n" + later)[0] == if frame == "" then '\n' else frame[0]
  {
  }

  lemma AttachKeepsUnbroken(c: char, frames: seq<string>, rest: string)
    requires frames != [] && forall k :: 0 <= k < |frames| ==> Unbroken(frames[k])
    requires !(c == '\n' && Unsplit(frames, rest) != "" && Unsplit(frames, rest)[0] == '\n')
    ensures forall k :: 0 <= k < |Attach(c, frames, rest).0| ==> Unbroken(Attach(c, frames, rest).0[k])
  {
    var longer := [c] + frames[0];
    assert longer[1..] == frames[0];
    FirstOfUnsplit(frames[0], Unsplit(frames[1..], rest));
    UnbrokenStep(longer);
  }

  lemma AttachKeepsNoBlankLine(c: char, rest: string)
    requires NoBlankLine(rest) && (rest == "" || !(c == '\n' && rest[0] == '\n'))
    ensures NoBlankLine([c] + rest)
  {
    var longer := [c] + rest;
    forall i | 0 <= i < |longer| - 1 ensures !(longer[i] == '\n' && longer[i + 1] == '\n') {
      assert longer[i + 1] == rest[i];
      assert i > 0 ==> longer[i] == rest[i - 1];
    }
  }

  /** What `Split` means: it puts nothing away and cuts at every blank line, leftmost first. */
  lemma {:induction false} SplitMeaning(s: string)
    ensures Unsplit(Split(s).0, Split(s).1) == s
    ensures forall k :: 0 <= k < |Split(s).0| ==> Unbroken(Split(s).0[k])
    ensures NoBlankLine(Split(s).1)
    decreases |s|
  {
    if |s| >= 2 {
      if s[0] == '\n' && s[1] == '\n' {
        SplitMeaning(s[2..]);
        assert Split(s).0[1..] == Split(s[2..]).0;
        assert s == "" + "\n\n" + s[2..];
      } else {
        var (frames, rest) := Split(s[1..]);
        SplitMeaning(s[1..]);
        AttachKeepsText(s[0], frames, rest);
        assert s == [s[0]] + s[1..];
        if frames == [] {
          AttachKeepsNoBlankLine(s[0], rest);
        } else {
          AttachKeepsUnbroken(s[0], frames, rest);
        }
      }
    }
  }

  lemma AttachThenMore(c: char, frames: seq<string>, more: seq<string>, rest: string, last: string)
    requires frames != []
    ensures Attach(c, frames + more, last).0 == Attach(c, frames, rest).0 + more
  {
    var all := frames + more;
    assert all[0] == frames[0] && all[1..] == frames[1..] + more;
  }

  /** Frames found early are frames of the whole; only the last piece has to be looked at again. */
  lemma {:induction false} SplitResumes(a: string, b: string)
    ensures Split(a + b).0 == Split(a).0 + Split(Split(a).1 + b).0
    ensures Split(a + b).1 == Split(Split(a).1 + b).1
    decreases |a|
  {
    if |a| >= 2 {
      var whole := a + b;
      assert whole[0] == a[0] && whole[1] == a[1];
      assert whole[1..] == a[1..] + b && whole[2..] == a[2..] + b;
      if a[0] == '\n' && a[1] == '\n' {
        SplitResumes(a[2..], b);
      } else {
        var (frames, rest) := Split(a[1..]);
        if frames == [] {
          NoFramesMeansNoCut(a[1..]);
          assert [a[0]] + a[1..] == a;
        } else {
          SplitResumes(a[1..], b);
          AttachThenMore(a[0], frames, Split(rest + b).0, rest, Split(rest + b).1);
        }
      }
    }
  }

  lemma {:induction false} NoFramesMeansNoCut(s: string)
    ensures Split(s).0 == [] ==> Split(s).1 == s
    decreases |s|
  {
    SplitMeaning(s);
  }

  /** A frame without a blank line in it is cut off whole. */
  lemma {:induction false} SplitFirst(frame: string, rest: string)
    requires Unbroken(frame)
    ensures Split(frame + "\n\n" + rest) == ([frame] + Split(rest).0, Split(rest).1)
    decreases |frame|
  {
    var s := frame + "\n\n" + rest;
    if frame == "" {
      assert s[2..] == rest;
    } else {
      var tail := frame[1..];
      assert s[1..] == tail + "\n\n" + rest;
      UnbrokenStep(frame);
      assert frame[0] == '\n' ==> s[1] == frame[1];
      SplitFirst(tail, rest);
      AttachThenMore(frame[0], [tail], Split(rest).0, "", Split(rest).1);
      assert [frame[0]] + tail == frame;
    }
  }

  // ---- one frame ----

  /** What the frame made the client do. `Undefined` is a handler called without the field it reads. */
  datatype Outcome =
    | Ignored
    | Threw
    | Undefined(name: string)
    | Fired(event: ChatEvent)

  /** `text.split("\n")`. */
  function Lines(s: string): (lines: seq<string>)
    ensures lines != []
  {
    if s == "" then [""]
    else
      var rest := Lines(s[1..]);
      if s[0] == '\n' then [""] + rest else [[s[0]] + rest[0]] + rest[1..]
  }

  /** The last line with this prefix, without it. */
  function LastField(lines: seq<string>, prefix: string): string {
    if lines == [] then ""
    else
      var line := lines[|lines| - 1];
      if prefix <= line then line[|prefix|..] else LastField(lines[..|lines| - 1], prefix)
  }

  function StrAt(o: Object, key: string): Option<string> {
    if o == [] then None else if o[0].0 == key && o[0].1.Str? then Some(o[0].1.text) else StrAt(o[1..], key)
  }

  function NumAt(o: Object, key: string): Option<nat> {
    if o == [] then None else if o[0].0 == key && o[0].1.Num? then Some(o[0].1.n) else NumAt(o[1..], key)
  }

  /** The switch over event names; unknown ones are ignored. */
  function Handle(event: string, payload: Object): Outcome {
    if event == "start" then
      var c, p, m := StrAt(payload, "conversation_id"), StrAt(payload, "provider"), StrAt(payload, "model");
      if c.Some? && p.Some? && m.Some? then Fired(StreamStarted(c.value, p.value, m.value)) else Undefined(event)
    else if event == "ttft" then
      var ms := NumAt(payload, "ttft_ms");
      if ms.Some? then Fired(StreamFirstToken(ms.value)) else Undefined(event)
    else if event == "chunk" then
      var text := StrAt(payload, "text");
      if text.Some? then Fired(StreamDelta(text.value)) else Undefined(event)
    else if event == "done" then
      var id, ms := StrAt(payload, "message_id"), NumAt(payload, "latency_ms");
      if id.Some? && ms.Some? then Fired(StreamCompleted(id.value, ms.value)) else Undefined(event)
    else if event == "error" then
      var code, message := StrAt(payload, "code"), StrAt(payload, "message");
      if code.Some? && message.Some? then Fired(StreamFailed(code.value, message.value)) else Undefined(event)
    else Ignored
  }

  function FieldsOutcome(event: string, data: string): Outcome {
    if event == "" || data == "" then Ignored
    else if Parse(data).None? then Threw
    else Handle(event, Parse(data).value)
  }

  function DispatchOf(frame: string): Outcome {
    FieldsOutcome(LastField(Lines(frame), "event: "), LastField(Lines(frame), "data: "))
  }

  function JoinLines(lines: seq<string>): string
    requires lines != []
  {
    if |lines| == 1 then lines[0] else lines[0] + "\n" + JoinLines(lines[1..])
  }

  /** What splitting into lines means: no line holds a newline, and joined by newlines they are the text. */
  lemma {:induction false} LinesMeaning(s: string)
    ensures JoinLines(Lines(s)) == s
    ensures forall k :: 0 <= k < |Lines(s)| ==> '\n' !in Lines(s)[k]
  {
    if s != "" {
      var rest := Lines(s[1..]);
      LinesMeaning(s[1..]);
      if s[0] == '\n' {
        assert Lines(s)[1..] == rest;
        assert s == "" + "\n" + s[1..];
      } else {
        var first := [s[0]] + rest[0];
        assert Lines(s) == [first] + rest[1..];
        assert Lines(s)[1..] == rest[1..];
        assert s == [s[0]] + s[1..];
        if |rest| > 1 {
          assert first + "\n" + JoinLines(rest[1..]) == [s[0]] + (rest[0] + "\n" + JoinLines(rest[1..]));
        }
      }
    }
  }

  /** A field is the rest of the last line that has its prefix, and empty when no line has it. */
  lemma {:induction false} FieldIsTheLast(lines: seq<string>, prefix: string, k: nat)
    ensures k < |lines| && prefix <= lines[k] && (forall j :: k < j < |lines| ==> !(prefix <= lines[j])) ==>
      LastField(lines, prefix) == lines[k][|prefix|..]
    ensures (forall j :: 0 <= j < |lines| ==> !(prefix <= lines[j])) ==> LastField(lines, prefix) == ""
  {
    if lines != [] && !(prefix <= lines[|lines| - 1]) {
      var init := lines[..|lines| - 1];
      FieldIsTheLast(init, prefix, k);
      assert forall j :: 0 <= j < |init| ==> init[j] == lines[j];
    }
  }

  /** A frame is ignored exactly if a field is missing or empty, or the event is of a kind the client does not know. */
  lemma IgnoredExactly(frame: string)
    ensures var event, data := LastField(Lines(frame), "event: "), LastField(Lines(frame), "data: ");
      DispatchOf(frame) == Ignored <==>
        || event == "" || data == ""
        || (Parse(data).Some? && event !in {"start", "ttft", "chunk", "done", "error"})
  {
  }

  /** `dispatch`: later lines overwrite earlier ones. */
  method Dispatch(frame: string) returns (r: Outcome)
    ensures r == DispatchOf(frame)
  {
    var event, data := "", "";
    var lines := Lines(frame);
    var i := 0;
    while i < |lines|
      invariant 0 <= i <= |lines|
      invariant event == LastField(lines[..i], "event: ")
      invariant data == LastField(lines[..i], "data: ")
    {
      var line := lines[i];
      assert lines[..i + 1][..i] == lines[..i];
      if "event: " <= line {
        assert line[0] == 'e';
        event := line[7..];
      } else if "data: " <= line {
        data := line[6..];
      }
      i := i + 1;
    }
    assert lines[..i] == lines;
    if event == "" || data == "" {
      return Ignored;
    }
    var payload := Parse(data);
    if payload.None? {
      return Threw;
    }
    return Handle(event, payload.value);
  }

  lemma {:induction false} LinesOfOne(s: string)
    requires '\n' !in s
    ensures Lines(s) == [s]
  {
    if s != "" {
      LinesOfOne(s[1..]);
      assert s == [s[0]] + s[1..];
    }
  }

  lemma {:induction false} LinesOfTwo(a: string, b: string)
    requires '\n' !in a
    ensures Lines(a + "\n" + b) == [a] + Lines(b)
  {
    var s := a + "\n" + b;
    if a == "" {
      assert s[1..] == b;
    } else {
      assert s[1..] == a[1..] + "\n" + b;
      LinesOfTwo(a[1..], b);
      assert a == [a[0]] + a[1..];
    }
  }

  lemma NamesDiffer()
    ensures "ttft" != "start" && "chunk" != "start" && "done" != "start" && "error" != "start"
    ensures "chunk" != "ttft" && "done" != "ttft" && "error" != "ttft"
    ensures "done" != "chunk" && "error" != "chunk" && "error" != "done"
  {
    assert "chunk"[0] == 'c' && "start"[0] == 's' && "error"[0] == 'e';
    assert "ttft"[0] == 't' && "done"[0] == 'd';
  }

  lemma StrAtHead(key: string, text: string, more: Object)
    ensures StrAt([(key, Str(text))] + more, key) == Some(text)
  {
  }

  lemma StrAtSkips(k: string, v: Value, more: Object, key: string)
    requires k != key
    ensures StrAt([(k, v)] + more, key) == StrAt(more, key)
  {
    assert ([(k, v)] + more)[1..] == more;
  }

  lemma NumAtSkips(k: string, v: Value, more: Object, key: string)
    requires k != key
    ensures NumAt([(k, v)] + more, key) == NumAt(more, key)
  {
    assert ([(k, v)] + more)[1..] == more;
  }

  lemma HandleInverts(e: ChatEvent)
    ensures Handle(NameOf(e), DataOf(e)) == Fired(e)
  {
    NamesDiffer();
    var o := DataOf(e);
    match e
    case StreamStarted(c, p, m) =>
      var third: Object := [("model", Str(m))];
      var second: Object := [("provider", Str(p))] + third;
      assert o == [("conversation_id", Str(c))] + second;
      assert |"conversation_id"| == 15 && |"provider"| == 8 && |"model"| == 5;
      StrAtSkips("conversation_id", Str(c), second, "provider");
      StrAtSkips("conversation_id", Str(c), second, "model");
      StrAtSkips("provider", Str(p), third, "model");
      StrAtHead("provider", p, third);
    case StreamCompleted(id, ms) =>
      var second: Object := [("latency_ms", Num(ms))];
      assert o == [("message_id", Str(id))] + second;
      assert "message_id"[0] == 'm' && "latency_ms"[0] == 'l';
      NumAtSkips("message_id", Str(id), second, "latency_ms");
    case StreamFailed(code, message) =>
      var second: Object := [("message", Str(message))];
      assert o == [("code", Str(code))] + second;
      assert |"code"| == 4 && |"message"| == 7;
      StrAtSkips("code", Str(code), second, "message");
    case _ =>
  }

  lemma TwoLinesAreUnbroken(a: string, b: string)
    requires '\n' !in a && '\n' !in b && b != ""
    ensures Unbroken(a + "\n" + b)
  {
    var s := a + "\n" + b;
    forall i | 0 <= i < |s| ensures !BreaksAt(s, i) {
      assert i < |a| ==> s[i] == a[i] && a[i] in a;
      assert i > |a| ==> s[i] == b[i - |a| - 1] && b[i - |a| - 1] in b;
      assert i == |a| ==> s[i + 1] == b[0] && b[0] in b;
    }
  }

  lemma NamesAreOneLine(e: ChatEvent)
    ensures NameOf(e) != "" && '\n' !in NameOf(e)
  {
  }

  lemma NotInConcat(a: string, b: string, c: char)
    requires c !in a && c !in b
    ensures c !in a + b
  {
  }

  /** A frame of one `event` and one `data` line comes apart into just those, whatever they hold. */
  lemma TwoFieldFrame(event: string, data: string)
    requires '\n' !in event && '\n' !in data
    ensures var body := "event: " + event + "\n" + ("data: " + data);
      && Unbroken(body)
      && LastField(Lines(body), "event: ") == event
      && LastField(Lines(body), "data: ") == data
  {
    var first, second := "event: " + event, "data: " + data;
    NotInConcat("event: ", event, '\n');
    NotInConcat("data: ", data, '\n');
    TwoLinesAreUnbroken(first, second);
    LinesOfTwo(first, second);
    LinesOfOne(second);
    TwoFields(first, second);
    assert first[7..] == event && second[6..] == data;
  }

  lemma TwoFields(first: string, second: string)
    requires "event: " <= first && "data: " <= second
    ensures LastField([first] + [second], "event: ") == first[7..]
    ensures LastField([first] + [second], "data: ") == second[6..]
  {
    var lines := [first] + [second];
    assert lines[..1] == [first] && [first][..0] == [];
    assert second[0] == 'd';
    assert !("event: " <= second) by {
      assert "event: "[0] == 'e';
    }
  }

  lemma BodyIsUnbroken(e: ChatEvent)
    ensures Unbroken(Body(NameOf(e), DataOf(e)))
  {
    NamesAreOneLine(e);
    DumpsIsOneLine(DataOf(e));
    TwoFieldFrame(NameOf(e), Dumps(DataOf(e)));
  }

  lemma FieldsRoundTrip(e: ChatEvent)
    ensures FieldsOutcome(NameOf(e), Dumps(DataOf(e))) == Fired(e)
  {
    NamesAreOneLine(e);
    DumpsIsOneLine(DataOf(e));
    ObjectRoundTrip(DataOf(e));
    HandleInverts(e);
  }

  /** Print, then parse: the client's handler gets the very event the service emitted. */
  lemma FrameRoundTrip(e: ChatEvent)
    ensures DispatchOf(Body(NameOf(e), DataOf(e))) == Fired(e)
  {
    NamesAreOneLine(e);
    DumpsIsOneLine(DataOf(e));
    TwoFieldFrame(NameOf(e), Dumps(DataOf(e)));
    FieldsRoundTrip(e);
  }

  // ---- the stream ----

  /** The handlers fired for a list of frames; an exception ends the reading. */
  function Fire(frames: seq<string>): seq<Outcome> {
    if frames == [] then []
    else
      var o := DispatchOf(frames[0]);
      [o] + (if o.Threw? then [] else Fire(frames[1..]))
  }

  predicate Failed(fired: seq<Outcome>) {
    fired != [] && fired[|fired| - 1].Threw?
  }

  lemma FireCons(frame: string, frames: seq<string>)
    ensures Fire([frame] + frames) == [DispatchOf(frame)] + (if DispatchOf(frame).Threw? then [] else Fire(frames))
  {
    assert ([frame] + frames)[1..] == frames;
  }

  /** `more` follows unless something threw, whether one looks from the first outcome or from the second. */
  lemma ThenUnlessFailed(o: Outcome, rest: seq<Outcome>, more: seq<Outcome>)
    requires !o.Threw?
    ensures [o] + (rest + (if Failed(rest) then [] else more)) == ([o] + rest) + (if Failed([o] + rest) then [] else more)
  {
    var all := [o] + rest;
    assert rest != [] ==> all[|rest|] == rest[|rest| - 1];
    assert Failed(all) <==> Failed(rest);
  }

  lemma {:induction false} FireConcat(a: seq<string>, b: seq<string>)
    ensures Fire(a + b) == Fire(a) + (if Failed(Fire(a)) then [] else Fire(b))
  {
    if a == [] {
      assert a + b == b;
    } else {
      var first, tail := a[0], a[1..];
      assert a == [first] + tail && a + b == [first] + (tail + b);
      FireCons(first, tail);
      FireCons(first, tail + b);
      if DispatchOf(first).Threw? {
        assert Fire(a) == [DispatchOf(first)];
      } else {
        FireConcat(tail, b);
        ThenUnlessFailed(DispatchOf(first), Fire(tail), Fire(b));
      }
    }
  }

  lemma FireStep(frames: seq<string>, k: nat, fired: seq<Outcome>, o: Outcome)
    requires k < |frames| && o == DispatchOf(frames[k])
    ensures fired + Fire(frames[k..]) == (fired + [o]) + (if o.Threw? then [] else Fire(frames[k + 1..]))
  {
    assert frames[k..][0] == frames[k] && frames[k..][1..] == frames[k + 1..];
  }

  /** The frames of one read, in order. */
  method FireFrames(frames: seq<string>) returns (fired: seq<Outcome>, threw: bool)
    ensures fired == Fire(frames) && (threw <==> Failed(fired))
  {
    fired := [];
    var k := 0;
    while k < |frames|
      invariant 0 <= k <= |frames| && !Failed(fired)
      invariant Fire(frames) == fired + Fire(frames[k..])
    {
      var o := Dispatch(frames[k]);
      FireStep(frames, k, fired, o);
      fired := fired + [o];
      if o.Threw? {
        return fired, true;
      }
      k := k + 1;
    }
    assert frames[k..] == [];
    return fired, false;
  }

  /** One more read: what it fires follows what was fired before, unless that already threw. */
  lemma ReadFires(text: string, more: string)
    ensures Fire(Split(text + more).0)
         == Fire(Split(text).0) + (if Failed(Fire(Split(text).0)) then [] else Fire(Split(Split(text).1 + more).0))
    ensures Split(text + more).1 == Split(Split(text).1 + more).1
  {
    SplitResumes(text, more);
    FireConcat(Split(text).0, Split(Split(text).1 + more).0);
  }

  /** What the handlers make of the text received so far, and what stays in the buffer. */
  function FiredFor(text: string): seq<Outcome> {
    Fire(Split(text).0)
  }

  lemma ReadStep(chunks: seq<string>, i: nat)
    requires i < |chunks|
    ensures var before, after := Join(chunks[..i]), Join(chunks[..i + 1]);
      && (!Failed(FiredFor(before)) ==> FiredFor(after) == FiredFor(before) + FiredFor(Split(before).1 + chunks[i]))
      && Split(after).1 == Split(Split(before).1 + chunks[i]).1
  {
    assert chunks[..i + 1] == chunks[..i] + [chunks[i]];
    JoinSnoc(chunks[..i], chunks[i]);
    ReadFires(Join(chunks[..i]), chunks[i]);
  }

  lemma ThrowIsFinal(chunks: seq<string>, i: nat)
    requires i <= |chunks| && Failed(FiredFor(Join(chunks[..i])))
    ensures FiredFor(Join(chunks)) == FiredFor(Join(chunks[..i]))
  {
    var head, tail := Join(chunks[..i]), Join(chunks[i..]);
    assert Join(chunks) == head + tail by {
      assert chunks == chunks[..i] + chunks[i..];
      JoinAppend(chunks[..i], chunks[i..]);
    }
    NothingAfterThrow(head, tail);
  }

  lemma NothingAfterThrow(text: string, more: string)
    requires Failed(FiredFor(text))
    ensures FiredFor(text + more) == FiredFor(text)
  {
    ReadFires(text, more);
  }

  /**
   * `streamMessage`: the loop over network chunks with its buffer. Whatever way the text was cut, the
   * handlers fire as they would for the whole text, and the buffer holds what follows the last blank
   * line; `threw` when a frame's data was not JSON.
   */
  method StreamMessage(chunks: seq<string>) returns (fired: seq<Outcome>, buffer: string, threw: bool)
    ensures fired == FiredFor(Join(chunks))
    ensures threw <==> Failed(fired)
    ensures !threw ==> buffer == Split(Join(chunks)).1
  {
    fired, buffer, threw := [], "", false;
    var i := 0;
    while i < |chunks|
      invariant 0 <= i <= |chunks|
      invariant fired == FiredFor(Join(chunks[..i])) && !Failed(fired)
      invariant buffer == Split(Join(chunks[..i])).1
    {
      ReadStep(chunks, i);
      buffer := buffer + chunks[i];
      var (frames, rest) := Split(buffer);
      buffer := rest;
      var more;
      more, threw := FireFrames(frames);
      fired := fired + more;
      i := i + 1;
      if threw {
        ThrowIsFinal(chunks, i);
        return;
      }
    }
    assert chunks[..i] == chunks;
  }

  // ---- whole streams ----

  function Print(events: seq<ChatEvent>): (r: seq<string>)
    ensures |r| == |events|
    ensures forall k :: 0 <= k < |r| ==> r[k] == ToSse(events[k])
  {
    seq(|events|, k requires 0 <= k < |events| => ToSse(events[k]))
  }

  function FiredAll(events: seq<ChatEvent>): seq<Outcome> {
    seq(|events|, k requires 0 <= k < |events| => Fired(events[k]))
  }

  function Bodies(events: seq<ChatEvent>): seq<string> {
    seq(|events|, k requires 0 <= k < |events| => Body(NameOf(events[k]), DataOf(events[k])))
  }

  /** Each body with its blank line. */
  function Terminated(bodies: seq<string>): (r: seq<string>)
    ensures |r| == |bodies|
    ensures forall k :: 0 <= k < |r| ==> r[k] == bodies[k] + "\n\n"
  {
    seq(|bodies|, k requires 0 <= k < |bodies| => bodies[k] + "\n\n")
  }

  lemma {:induction false} UnbrokenBodiesSplit(bodies: seq<string>)
    requires forall k :: 0 <= k < |bodies| ==> Unbroken(bodies[k])
    ensures Split(Join(Terminated(bodies))) == (bodies, "")
  {
    if bodies != [] {
      assert Terminated(bodies)[1..] == Terminated(bodies[1..]);
      UnbrokenBodiesSplit(bodies[1..]);
      SplitFirst(bodies[0], Join(Terminated(bodies[1..])));
      assert bodies == [bodies[0]] + bodies[1..];
    }
  }

  lemma {:induction false} FireEach(frames: seq<string>, outcomes: seq<Outcome>)
    requires |frames| == |outcomes|
    requires forall k :: 0 <= k < |frames| ==> DispatchOf(frames[k]) == outcomes[k] && !outcomes[k].Threw?
    ensures Fire(frames) == outcomes
  {
    if frames != [] {
      FireEach(frames[1..], outcomes[1..]);
      assert outcomes == [outcomes[0]] + outcomes[1..];
    }
  }

  lemma PrintedSplits(events: seq<ChatEvent>)
    ensures Split(Join(Print(events))) == (Bodies(events), "")
  {
    forall k | 0 <= k < |events| ensures Unbroken(Bodies(events)[k]) {
      BodyIsUnbroken(events[k]);
    }
    UnbrokenBodiesSplit(Bodies(events));
    assert Print(events) == Terminated(Bodies(events));
  }

  lemma BodiesFire(events: seq<ChatEvent>)
    ensures Fire(Bodies(events)) == FiredAll(events)
  {
    forall k | 0 <= k < |events| ensures DispatchOf(Bodies(events)[k]) == FiredAll(events)[k] {
      FrameRoundTrip(events[k]);
    }
    FireEach(Bodies(events), FiredAll(events));
  }

  /**
   * Print/parse round trip: parsing everything the server printed fires exactly the events it was
   * printed from, in order, and leaves nothing in the buffer, even when the texts contain newlines
   * and blank lines.
   */
  lemma StreamRoundTrip(events: seq<ChatEvent>)
    ensures FiredFor(Join(Print(events))) == FiredAll(events)
    ensures Split(Join(Print(events))).1 == ""
  {
    PrintedSplits(events);
    BodiesFire(events);
  }
}
