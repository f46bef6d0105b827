/** The interactive sessions of src/commands/generate/interactive.js (Plain)
    and src/commands/generate/chat/interactive.js (Chat) as one event-driven
    state machine over the record `{ isTerminated, isProcessing, abort }`.

    The terminal and the SDK stream are sources of events; what the session
    writes through readline is the transcript `out`, what it reports on
    stderr is `errors`. Each AbortController is a number: `controller` is the
    one `abortOperation` currently aborts and `aborted` the set already
    aborted. The two source variants differ only in when a controller is
    created: Plain makes a fresh one every turn, Chat one for the whole
    session. `ChatFreshController` is the chat session with a per-turn
    controller, the behaviour the chat variant evidently intends (see the
    findings in README.md). */
module Session {

  import opened Wrappers
  import opened JsValues
  import opened Io
  import opened Common

  datatype Variant = Plain | Chat | ChatFreshController

  /** The parsed arguments the session reads. */
  datatype Args = Args(model: Option<string>, parameters: Option<map<string, JsValue>>, conversation: Option<string>)

  datatype Message = Message(role: string, content: string)

  /** The request issued for one turn, with the controller whose signal it
      carries. */
  datatype Request =
    | GenerateRequest(input: string, modelId: string, parameters: Option<map<string, JsValue>>, signal: nat)
    | ChatRequest(messages: seq<Message>, modelId: string, parameters: Option<map<string, JsValue>>,
                  conversationId: Option<string>, signal: nat)

  /** Where the main loop is suspended. `Spinning`: the loop keeps failing
      without ever suspending on input (see `BeginTurn`); `Crashed`: an
      exception escaped the loop. */
  datatype Phase = Asking | Streaming | Closed | Spinning | Crashed

  datatype Event =
    | Cancel                                          // SIGINT, SIGTSTP or SIGCONT
    | Key(chunk: JsValue)                             // a raw `data` chunk from stdin
    | HistoryPush(line: string)                       // readline adds a line to its history
    | Line(text: string)                              // readline submits a line
    | Chunk(text: string, conversationId: Option<string>) // one streamed chunk
    | End                                             // the stream completed
    | Fail(err: JsValue)                              // the stream rejected with `err`

  datatype Session = Session(
    variant: Variant,
    args: Args,
    phase: Phase,
    isTerminated: bool,
    isProcessing: bool,
    controller: nat,
    aborted: set<nat>,
    conversationId: Option<string>,
    out: seq<Write>,
    errors: seq<JsValue>,
    history: seq<string>,
    editor: seq<JsValue>,
    requests: seq<Request>)

  const STREAM_REQUIRED: string := "Stream is automatically enabled for interactive mode."

  /** The AbortError a promisified `rl.question` rejects with when its
      signal is aborted. */
  const QuestionAbortError: JsValue :=
    Obj(map["message" := Str("The operation was aborted")], map["name" := Str("AbortError")],
        {ObjectClass, ErrorClass})

  /** `args.parameters?.stream === false`. */
  predicate StreamDisabled(parameters: Option<map<string, JsValue>>) {
    parameters.Some? && "stream" in parameters.value && parameters.value["stream"] == Bool(false)
  }

  /** The head of the `while (!ctx.isTerminated)` loop. Once terminated the
      loop exits, writes the farewell and closes the interface. Otherwise
      `isProcessing` is reset and the question is asked with the current
      controller's signal: Plain (and the corrected chat) installs a fresh
      controller first, Chat reuses the session's one. Node's promisified
      `rl.question` rejects at once with an AbortError when that signal is
      already aborted; the handler writes a newline and a clear-line and the
      loop comes back here without ever suspending, so no signal or line can
      be handled again: the session spins. */
  function BeginTurn(s: Session): (r: Session)
    ensures r.phase in {Asking, Closed, Spinning}
    ensures s.isTerminated <==> r.phase == Closed
    ensures s.isTerminated ==> r.out == s.out + [Text("Goodbye"), Text("\n")]
    ensures !s.isTerminated ==>
      && r.out == s.out
      && !r.isProcessing
      && (r.controller == if s.variant == Chat then s.controller else s.controller + 1)
      && (r.phase == Spinning <==> r.controller in s.aborted)
  {
    if s.isTerminated then
      s.(phase := Closed, out := s.out + [Text("Goodbye"), Text("\n")])
    else
      var c := if s.variant == Chat then s.controller else s.controller + 1;
      var s1 := s.(isProcessing := false, controller := c);
      if c in s.aborted then s1.(phase := Spinning) else s1.(phase := Asking)
  }

  /** The session at command start, or the usage error for an explicit
      `--no-stream`, raised before any interface or request exists. */
  function Start(variant: Variant, args: Args): (r: Result<Session, string>)
    ensures r.Err? <==> StreamDisabled(args.parameters)
    ensures r.Err? ==> r.error == STREAM_REQUIRED
    ensures r.Ok? ==> r.value.phase == Asking && r.value.out == [] && r.value.requests == []
    ensures r.Ok? && variant != Plain ==> r.value.conversationId == args.conversation
  {
    if StreamDisabled(args.parameters) then Err(STREAM_REQUIRED)
    else
      var conversation := if variant == Plain then None else args.conversation;
      Ok(BeginTurn(Session(variant, args, Asking, false, false, 0, {}, conversation, [], [], [], [], [])))
  }

  /** The request issued for a non-empty line. */
  function MakeRequest(s: Session, input: string): Request {
    var modelId := s.args.model.GetOr("default");
    if s.variant == Plain then GenerateRequest(input, modelId, s.args.parameters, s.controller)
    else ChatRequest([Message("user", input)], modelId, s.args.parameters, s.conversationId, s.controller)
  }

  /** The `catch` of the loop body: an abort clears the broken line; any other
      error is reported and the loop goes on. `err.message` on a nullish
      error throws out of the handler. */
  function OnFailure(s: Session, err: JsValue): Session {
    if IsAbortError(err) then BeginTurn(s.(out := s.out + [Text("\n"), ClearLine]))
    else if IsNullish(err) then s.(phase := Crashed)
    else BeginTurn(s.(errors := s.errors + [Prop(err, "message")]))
  }

  /** `onUserActionCancel`: abort through the current controller, and
      terminate unless a request is being processed. While the question is
      pending the abort makes it reject. */
  function OnCancel(s: Session): Session {
    var s1 := s.(aborted := s.aborted + {s.controller}, isTerminated := s.isTerminated || !s.isProcessing);
    if s.phase == Asking then OnFailure(s1, QuestionAbortError) else s1
  }

  /** The question resolved with `text`. */
  function Submit(s: Session, text: string): Session {
    var s1 := s.(isProcessing := true);
    if |text| == 0 then BeginTurn(s1)
    else s1.(phase := Streaming, requests := s.requests + [MakeRequest(s1, text)])
  }

  /** Whether the stdin proxy passes a raw chunk on to readline. */
  predicate Forwards(s: Session, chunk: JsValue) {
    !s.isProcessing || IsCancelOperationKey(chunk)
  }

  function OnKey(s: Session, chunk: JsValue): Session {
    if Forwards(s, chunk) then s.(editor := s.editor + [chunk]) else s
  }

  /** readline's `history` event: the new line is at the front of the
      history, and the handler shifts it off again while processing. */
  function OnHistory(s: Session, line: string): Session {
    var h := [line] + s.history;
    s.(history := if s.isProcessing then h[1..] else h)
  }

  function OnChunk(s: Session, text: string, conversation: Option<string>): Session {
    s.(out := s.out + [Text(text)],
       conversationId := if s.variant == Plain then s.conversationId else conversation)
  }

  function OnEnd(s: Session): Session {
    BeginTurn(s.(out := s.out + [Text("\n")]))
  }

  /** One event. Handlers only run while the loop is suspended on the question
      or on the stream; line events only matter to a pending question, stream
      events only to a pending stream. */
  function Step(s: Session, e: Event): Session {
    if !(s.phase == Asking || s.phase == Streaming) then s
    else match e
      case Cancel => OnCancel(s)
      case Key(chunk) => OnKey(s, chunk)
      case HistoryPush(line) => OnHistory(s, line)
      case Line(text) => if s.phase == Asking then Submit(s, text) else s
      case Chunk(text, conversation) => if s.phase == Streaming then OnChunk(s, text, conversation) else s
      case End => if s.phase == Streaming then OnEnd(s) else s
      case Fail(err) => if s.phase == Streaming then OnFailure(s, err) else s
  }

  function Run(s: Session, events: seq<Event>): Session
    decreases |events|
  {
    if |events| == 0 then s else Run(Step(s, events[0]), events[1..])
  }

  /** The requests a variant issues. */
  predicate RequestShape(v: Variant, r: Request) {
    if v == Plain then r.GenerateRequest? else r.ChatRequest? && |r.messages| == 1 && r.messages[0].role == "user"
  }

  /** The invariant every transition keeps. */
  ghost predicate Inv(s: Session) {
    && (forall c :: c in s.aborted ==> c <= s.controller)
    && (s.isTerminated <==> s.phase == Closed)
    && (s.phase == Asking ==> !s.isProcessing && s.controller !in s.aborted)
    && (s.phase == Streaming ==> s.isProcessing && |s.requests| > 0 && s.requests[|s.requests| - 1].signal == s.controller)
    && (s.phase == Spinning ==> s.variant == Chat && s.controller in s.aborted)
    && (forall i :: 0 <= i < |s.requests| ==> RequestShape(s.variant, s.requests[i]))
  }

  lemma StartEstablishesInv(variant: Variant, args: Args)
    requires Start(variant, args).Ok?
    ensures Inv(Start(variant, args).value)
  {
  }

  lemma BeginTurnKeepsInv(s: Session)
    requires forall c :: c in s.aborted ==> c <= s.controller
    requires forall i :: 0 <= i < |s.requests| ==> RequestShape(s.variant, s.requests[i])
    ensures Inv(BeginTurn(s))
  {
  }

  lemma StepKeepsInv(s: Session, e: Event)
    requires Inv(s)
    ensures Inv(Step(s, e))
  {
    if s.phase == Asking || s.phase == Streaming {
      match e
      case Cancel =>
        var s1 := s.(aborted := s.aborted + {s.controller}, isTerminated := s.isTerminated || !s.isProcessing);
        if s.phase == Asking {
          BeginTurnKeepsInv(s1.(out := s1.out + [Text("\n"), ClearLine]));
        }
      case Line(text) =>
        if s.phase == Asking {
          if |text| == 0 {
            BeginTurnKeepsInv(s.(isProcessing := true));
          }
        }
      case End =>
        if s.phase == Streaming {
          BeginTurnKeepsInv(s.(out := s.out + [Text("\n")]));
        }
      case Fail(err) =>
        if s.phase == Streaming {
          BeginTurnKeepsInv(s.(out := s.out + [Text("\n"), ClearLine]));
          BeginTurnKeepsInv(s.(errors := s.errors + [Prop(err, "message")]));
        }
      case _ =>
    }
  }

  /** Every reachable session satisfies the invariant: the loop exits only
      once `isTerminated` is set, a streamed turn is always processing, and
      only the chat variant can spin. */
  lemma {:induction false} RunKeepsInv(s: Session, events: seq<Event>)
    requires Inv(s)
    ensures Inv(Run(s, events))
    ensures Run(s, events).variant == s.variant
    decreases |events|
  {
    if |events| > 0 {
      StepKeepsInv(s, events[0]);
      RunKeepsInv(Step(s, events[0]), events[1..]);
    }
  }

  /** A cancel while waiting for a line terminates the session: the question
      rejects as aborted, the line is cleared, and the farewell follows. */
  lemma CancelWhileIdle(s: Session)
    requires Inv(s) && s.phase == Asking
    ensures var r := Step(s, Cancel);
      && r.phase == Closed && r.isTerminated
      && r.out == s.out + [Text("\n"), ClearLine, Text("Goodbye"), Text("\n")]
      && r.requests == s.requests
  {
  }

  /** A cancel while a reply streams aborts the turn's controller and nothing
      else: the session is not terminated and the stream goes on until the
      client reports the abort. */
  lemma CancelWhileProcessing(s: Session)
    requires Inv(s) && s.phase == Streaming
    ensures var r := Step(s, Cancel);
      && r.phase == Streaming && !r.isTerminated
      && r.aborted == s.aborted + {s.controller}
      && r.out == s.out && r.requests == s.requests
  {
  }

  /** The stdin filter in terms of bytes: while a request is processed, a
      chunk reaches the line editor iff it is a one-byte Buffer holding
      Ctrl+C (0x03), Ctrl+D (0x04) or Ctrl+Z (0x1a); otherwise every chunk
      does. */
  lemma KeyFilter(s: Session, chunk: JsValue)
    requires s.phase == Asking || s.phase == Streaming
    ensures !s.isProcessing ==> Step(s, Key(chunk)).editor == s.editor + [chunk]
    ensures s.isProcessing ==>
      Step(s, Key(chunk)).editor ==
        (if chunk.Buf? && |chunk.bytes| == 1 && chunk.bytes[0] in {0x03, 0x04, 0x1a}
         then s.editor + [chunk] else s.editor)
  {
    CancelKeyCharacterization(chunk);
  }

  /** A history entry is dropped iff a request is being processed. */
  lemma HistoryFilter(s: Session, line: string)
    requires s.phase == Asking || s.phase == Streaming
    ensures Step(s, HistoryPush(line)).history ==
      (if s.isProcessing then s.history else [line] + s.history)
  {
  }

  /** While a reply streams, typing leaves the session exactly as it was:
      keys other than the cancel keys are swallowed and every line readline
      adds to its history is shifted off again. */
  lemma {:induction false} TypingWhileStreaming(s: Session, events: seq<Event>)
    requires s.phase == Streaming && s.isProcessing
    requires forall i :: 0 <= i < |events| ==>
      events[i].HistoryPush? || (events[i].Key? && !IsCancelOperationKey(events[i].chunk))
    ensures Run(s, events) == s
    decreases |events|
  {
    if |events| > 0 {
      assert Step(s, events[0]) == s by {
        if events[0].HistoryPush? {
          assert ([events[0].line] + s.history)[1..] == s.history;
        }
      }
      var tail := events[1..];
      assert forall i :: 0 <= i < |tail| ==> tail[i] == events[i + 1];
      TypingWhileStreaming(s, tail);
    }
  }

  /** An empty line issues no request, writes nothing, and asks again. */
  lemma EmptyLine(s: Session)
    requires Inv(s) && s.phase == Asking
    ensures var r := Step(s, Line(""));
      && r.phase == Asking && r.out == s.out && r.requests == s.requests && !r.isProcessing
  {
  }

  /** A non-empty line issues exactly one request, carrying the current
      controller's signal, the model or "default", and the shared parameters;
      the chat request holds one user message with the line and the current
      conversation id. */
  lemma LineIssuesRequest(s: Session, text: string)
    requires Inv(s) && s.phase == Asking && |text| > 0
    ensures var r := Step(s, Line(text));
      && r.phase == Streaming && r.isProcessing && r.out == s.out
      && |r.requests| == |s.requests| + 1
      && r.requests[..|s.requests|] == s.requests
      && var req := r.requests[|s.requests|];
         && req.signal == s.controller
         && req.modelId == s.args.model.GetOr("default")
         && req.parameters == s.args.parameters
         && (s.variant == Plain ==> req == GenerateRequest(text, req.modelId, req.parameters, req.signal))
         && (s.variant != Plain ==>
              req == ChatRequest([Message("user", text)], req.modelId, req.parameters, s.conversationId, req.signal))
  {
  }

  function ChunkEvents(texts: seq<string>, conversations: seq<Option<string>>): (r: seq<Event>)
    requires |texts| == |conversations|
    ensures |r| == |texts|
  {
    if |texts| == 0 then [] else [Chunk(texts[0], conversations[0])] + ChunkEvents(texts[1..], conversations[1..])
  }

  function Texts(texts: seq<string>): (r: seq<Write>)
    ensures |r| == |texts|
  {
    if |texts| == 0 then [] else [Text(texts[0])] + Texts(texts[1..])
  }

  /** Streamed chunks are written in arrival order; the chat session then
      holds the last chunk's conversation id. */
  lemma {:induction false} StreamChunks(s: Session, texts: seq<string>, conversations: seq<Option<string>>)
    requires s.phase == Streaming && |texts| == |conversations|
    ensures Run(s, ChunkEvents(texts, conversations)) ==
      s.(out := Run(s, ChunkEvents(texts, conversations)).out,
         conversationId := Run(s, ChunkEvents(texts, conversations)).conversationId)
    ensures Run(s, ChunkEvents(texts, conversations)).out == s.out + Texts(texts)
    ensures Run(s, ChunkEvents(texts, conversations)).conversationId ==
      if s.variant == Plain || |texts| == 0 then s.conversationId else conversations[|texts| - 1]
    decreases |texts|
  {
    if |texts| > 0 {
      var events := ChunkEvents(texts, conversations);
      var s1 := s.(out := s.out + [Text(texts[0])],
                   conversationId := if s.variant == Plain then s.conversationId else conversations[0]);
      RunChunk(s, events, texts[0], conversations[0]);
      assert events[1..] == ChunkEvents(texts[1..], conversations[1..]);
      StreamChunks(s1, texts[1..], conversations[1..]);
      var r, r1 := Run(s, events), Run(s1, events[1..]);
      assert r == r1;
      assert Texts(texts) == [Text(texts[0])] + Texts(texts[1..]);
      assert r.out == s.out + Texts(texts);
      if s.variant != Plain && |texts| > 1 {
        assert r1.conversationId == conversations[1..][|texts| - 2];
      }
    }
  }

  lemma RunChunk(s: Session, events: seq<Event>, text: string, conversation: Option<string>)
    requires s.phase == Streaming && |events| > 0 && events[0] == Chunk(text, conversation)
    ensures Run(s, events) ==
      Run(s.(out := s.out + [Text(text)], conversationId := if s.variant == Plain then s.conversationId else conversation),
          events[1..])
  {
    StepChunk(s, text, conversation);
  }

  lemma StepChunk(s: Session, text: string, conversation: Option<string>)
    requires s.phase == Streaming
    ensures Step(s, Chunk(text, conversation)) ==
      s.(out := s.out + [Text(text)], conversationId := if s.variant == Plain then s.conversationId else conversation)
  {
  }

  lemma RunTwo(s: Session, a: Event, b: Event)
    ensures Run(s, [a, b]) == Step(Step(s, a), b)
  {
    assert [a, b][1..] == [b];
    assert Run(s, [a, b]) == Run(Step(s, a), [b]);
    assert [b][1..] == [];
    assert Run(Step(s, a), [b]) == Run(Step(Step(s, a), b), []);
  }

  lemma {:induction false} RunAppend(s: Session, a: seq<Event>, b: seq<Event>)
    ensures Run(s, a + b) == Run(Run(s, a), b)
    decreases |a|
  {
    if |a| == 0 {
      assert a + b == b;
    } else {
      assert (a + b)[0] == a[0];
      assert (a + b)[1..] == a[1..] + b;
      RunAppend(Step(s, a[0]), a[1..], b);
    }
  }

  /** A whole turn: the line, its chunks, the end of the stream. The reply's
      texts are written in order followed by one newline, one request was
      issued, and the session asks for the next line. */
  lemma Turn(s: Session, text: string, texts: seq<string>, conversations: seq<Option<string>>)
    requires Inv(s) && s.phase == Asking && |text| > 0 && |texts| == |conversations|
    ensures var r := Run(s, [Line(text)] + ChunkEvents(texts, conversations) + [End]);
      && r.phase == Asking
      && r.out == s.out + Texts(texts) + [Text("\n")]
      && |r.requests| == |s.requests| + 1
      && r.errors == s.errors
  {
    var s1 := Step(s, Line(text));
    LineIssuesRequest(s, text);
    StepKeepsInv(s, Line(text));
    RunAppend(s, [Line(text)], ChunkEvents(texts, conversations) + [End]);
    assert [Line(text)] + ChunkEvents(texts, conversations) + [End] == [Line(text)] + (ChunkEvents(texts, conversations) + [End]);
    RunAppend(s1, ChunkEvents(texts, conversations), [End]);
    StreamChunks(s1, texts, conversations);
  }

  /** The interactive scenario: "hello" answered by the chunks "Hi" and
      " there" writes exactly `Hi there` and a newline. */
  lemma HelloScenario(args: Args)
    requires !StreamDisabled(args.parameters)
    ensures var s := Start(Plain, args).value;
      var r := Run(s, [Line("hello"), Chunk("Hi", None), Chunk(" there", None), End]);
      && r.out == [Text("Hi"), Text(" there"), Text("\n")]
      && r.phase == Asking
  {
    var s := Start(Plain, args).value;
    StartEstablishesInv(Plain, args);
    Turn(s, "hello", ["Hi", " there"], [None, None]);
    assert ChunkEvents(["Hi", " there"], [None, None]) == [Chunk("Hi", None), Chunk(" there", None)];
    assert [Line("hello")] + [Chunk("Hi", None), Chunk(" there", None)] + [End]
        == [Line("hello"), Chunk("Hi", None), Chunk(" there", None), End];
    assert Texts(["Hi", " there"]) == [Text("Hi"), Text(" there")];
  }

  /** Failures of a turn: an abort writes a newline and clears the line; any
      other error is reported; either way the loop asks again (or, for a
      chat whose only controller is aborted, spins). */
  lemma TurnFailure(s: Session, err: JsValue)
    requires Inv(s) && s.phase == Streaming && !IsNullish(err)
    ensures var r := Step(s, Fail(err));
      && (IsAbortError(err) ==> r.out == s.out + [Text("\n"), ClearLine] && r.errors == s.errors)
      && (!IsAbortError(err) ==> r.out == s.out && r.errors == s.errors + [Prop(err, "message")])
      && (r.phase == Asking || (s.variant == Chat && r.phase == Spinning))
      && (s.controller !in s.aborted ==> r.phase == Asking)
  {
  }

  /** Once closed, spinning or crashed, no event changes the session. */
  lemma {:induction false} StoppedIsFinal(s: Session, events: seq<Event>)
    requires s.phase in {Closed, Spinning, Crashed}
    ensures Run(s, events) == s
    decreases |events|
  {
    if |events| > 0 {
      StoppedIsFinal(Step(s, events[0]), events[1..]);
    }
  }

  /** The plain session installs a fresh controller every turn: after a turn
      is cancelled mid-stream and the client reports the abort, the next line
      is read under a controller that is not aborted. */
  lemma PlainCancelAffectsOneTurn(s: Session)
    requires Inv(s) && s.variant == Plain && s.phase == Streaming
    ensures var r := Run(s, [Cancel, Fail(QuestionAbortError)]);
      && r.phase == Asking && !r.isTerminated
      && r.controller == s.controller + 1 && r.controller !in r.aborted
      && r.out == s.out + [Text("\n"), ClearLine]
  {
    RunTwo(s, Cancel, Fail(QuestionAbortError));
  }

  /** As written, the chat session shares one controller: once it is aborted
      it stays aborted, so the session never reads another line. */
  lemma {:induction false} ChatAbortIsPermanent(s: Session, events: seq<Event>)
    requires Inv(s) && s.variant == Chat && s.controller in s.aborted
    ensures Run(s, events).phase != Asking
    ensures Run(s, events).controller == s.controller
    decreases |events|
  {
    if |events| > 0 {
      var s1 := Step(s, events[0]);
      StepKeepsInv(s, events[0]);
      ChatAbortIsPermanent(s1, events[1..]);
    }
  }

  /** As written, cancelling a chat reply mid-stream leaves the session
      spinning: no later line, signal or key is ever handled. */
  lemma ChatCancelMidStreamSpins(s: Session, later: seq<Event>)
    requires Inv(s) && s.variant == Chat && s.phase == Streaming
    ensures Run(s, [Cancel, Fail(QuestionAbortError)]).phase == Spinning
    ensures Run(s, [Cancel, Fail(QuestionAbortError)] + later) == Run(s, [Cancel, Fail(QuestionAbortError)])
  {
    var r := Run(s, [Cancel, Fail(QuestionAbortError)]);
    RunTwo(s, Cancel, Fail(QuestionAbortError));
    RunAppend(s, [Cancel, Fail(QuestionAbortError)], later);
    StoppedIsFinal(r, later);
  }

  /** With a controller per turn, the chat session never spins: a cancelled
      reply is followed by a fresh turn that reads the next line. */
  lemma CorrectedChatNeverSpins(s: Session, events: seq<Event>)
    requires Inv(s) && s.variant == ChatFreshController
    ensures Run(s, events).phase != Spinning
    ensures s.phase == Streaming ==> Run(s, [Cancel, Fail(QuestionAbortError)]).phase == Asking
  {
    RunKeepsInv(s, events);
    if s.phase == Streaming {
      RunTwo(s, Cancel, Fail(QuestionAbortError));
    }
  }
}
