/**
 * The streaming endpoint `generateStream` of the chat controller: it builds a
 * one-message prompt from the request text, hands it to the chat model, and
 * turns every chunk the model streams back into one server-sent event.
 *
 * The chat model is a function parameter (`Prompt -> seq<ChatResponse>`):
 * the model call and the reactive stream around it are not part of this model.
 */
module ChatController {
  import opened Wrappers

  /** The `defaultValue` of the `message` request parameter. */
  const DefaultMessage: string := "Tell me a joke"

  /** The payload sent for a chunk that carries no text. */
  const Done: string := "[DONE]"

  /** The messages a prompt can hold; the endpoint only ever builds a user message. */
  datatype PromptMessage = UserMessage(text: string) | SystemMessage(text: string) | AssistantMessage(text: string)

  datatype Prompt = Prompt(instructions: seq<PromptMessage>)

  /** One streamed chunk: `getResult()`, `getOutput()` and `getText()` may each be null. */
  datatype AssistantOutput = AssistantOutput(text: Option<string>)
  datatype Generation = Generation(output: Option<AssistantOutput>)
  datatype ChatResponse = ChatResponse(result: Option<Generation>)

  /** A server-sent event built with its `data` field only. */
  datatype ServerSentEvent = ServerSentEvent(data: string)

  /** The text a chunk carries, or `None` when the result, the output or the text is null. */
  function ChunkText(chunk: ChatResponse): (text: Option<string>)
    ensures text.None? <==>
              || chunk.result.None?
              || chunk.result.value.output.None?
              || chunk.result.value.output.value.text.None?
    ensures text.Some? ==> text == chunk.result.value.output.value.text
  {
    match chunk.result
    case None => None
    case Some(generation) =>
      match generation.output
      case None => None
      case Some(output) => output.text
  }

  /** The request text: Spring substitutes the default value when the
    * parameter is absent or empty. */
  function RequestText(param: Option<string>): (message: string)
    ensures param.Some? && param.value != [] ==> message == param.value
    ensures param.None? || param.value == [] ==> message == DefaultMessage
    ensures message != []
  {
    if param.Some? && param.value != [] then param.value else DefaultMessage
  }

  /** The prompt sent for streaming: exactly one message, a user message holding the request text. */
  function StreamPrompt(message: string): (prompt: Prompt)
    ensures |prompt.instructions| == 1
    ensures prompt.instructions[0].UserMessage? && prompt.instructions[0].text == message
  {
    Prompt([UserMessage(message)])
  }

  /** `"` + text + `"`, the payload for a chunk that carries text. */
  function Quoted(text: string): (payload: string)
    ensures |payload| == |text| + 2
    ensures payload[0] == '"' && payload[|payload| - 1] == '"'
    ensures payload[1..|payload| - 1] == text
  {
    "\"" + text + "\""
  }

  /** The mapping lambda: a chunk without text becomes `[DONE]`, any other chunk its text in double quotes. */
  function ToServerSentEvent(chunk: ChatResponse): (event: ServerSentEvent)
    ensures event.data == Done <==> ChunkText(chunk).None?
    ensures ChunkText(chunk).Some? ==>
              && |event.data| == |ChunkText(chunk).value| + 2
              && event.data[0] == '"' && event.data[|event.data| - 1] == '"'
              && event.data[1..|event.data| - 1] == ChunkText(chunk).value
  {
    match ChunkText(chunk)
    case None => ServerSentEvent(Done)
    case Some(text) =>
      QuotedIsNotDone(text);
      ServerSentEvent(Quoted(text))
  }

  /** A quoted text, even the empty one, is never the end marker. */
  lemma QuotedIsNotDone(text: string)
    ensures |Quoted(text)| == |text| + 2
    ensures Quoted(text)[0] == '"' && Quoted(text)[|text| + 1] == '"'
    ensures Quoted(text) != Done
  {
  }

  /** `Flux.map` over the chunk stream: one event per chunk, in order. */
  function ToServerSentEvents(chunks: seq<ChatResponse>): (events: seq<ServerSentEvent>)
    ensures |events| == |chunks|
    ensures forall i :: 0 <= i < |chunks| ==> events[i] == ToServerSentEvent(chunks[i])
  {
    if chunks == [] then [] else [ToServerSentEvent(chunks[0])] + ToServerSentEvents(chunks[1..])
  }

  /** `generateStream`: the events produced for a request, given the model's chunk stream for each prompt. */
  function GenerateStream(param: Option<string>, model: Prompt -> seq<ChatResponse>): (events: seq<ServerSentEvent>)
    ensures var chunks := model(Prompt([UserMessage(RequestText(param))]));
            && |events| == |chunks|
            && forall i :: 0 <= i < |chunks| ==> events[i] == ToServerSentEvent(chunks[i])
  {
    ToServerSentEvents(model(StreamPrompt(RequestText(param))))
  }

  /** Reference reading of a payload, as a client of the stream would do it:
    * a double-quoted payload yields its inside, anything else (the end marker) nothing. */
  function ReadPayload(data: string): Option<string>
  {
    if |data| >= 2 && data[0] == '"' && data[|data| - 1] == '"' then Some(data[1..|data| - 1]) else None
  }

  /** Reading an event's payload recovers exactly the chunk's text, or its absence. */
  lemma PayloadRoundTrip(chunk: ChatResponse)
    ensures ReadPayload(ToServerSentEvent(chunk).data) == ChunkText(chunk)
  {
  }

  /** The texts of a chunk stream, null entries included, in order. */
  function ChunkTexts(chunks: seq<ChatResponse>): seq<Option<string>>
  {
    if chunks == [] then [] else [ChunkText(chunks[0])] + ChunkTexts(chunks[1..])
  }

  /** The payload readings of an event stream, in order. */
  function ReadPayloads(events: seq<ServerSentEvent>): seq<Option<string>>
  {
    if events == [] then [] else [ReadPayload(events[0].data)] + ReadPayloads(events[1..])
  }

  /** The whole event stream carries the chunk texts unchanged and in order. */
  lemma {:induction false} StreamRoundTrip(chunks: seq<ChatResponse>)
    ensures ReadPayloads(ToServerSentEvents(chunks)) == ChunkTexts(chunks)
  {
    if chunks != [] {
      StreamRoundTrip(chunks[1..]);
      PayloadRoundTrip(chunks[0]);
      var events := ToServerSentEvents(chunks);
      assert events[1..] == ToServerSentEvents(chunks[1..]);
    }
  }

  /** Two chunk streams give the same events exactly when they carry the same texts. */
  lemma {:induction false} EventsDetermineTexts(xs: seq<ChatResponse>, ys: seq<ChatResponse>)
    ensures ToServerSentEvents(xs) == ToServerSentEvents(ys) <==> ChunkTexts(xs) == ChunkTexts(ys)
  {
    StreamRoundTrip(xs);
    StreamRoundTrip(ys);
    if ChunkTexts(xs) == ChunkTexts(ys) {
      SameTextsSameEvents(xs, ys);
    }
  }

  /** The event for a chunk depends on nothing but the chunk's text. */
  lemma {:induction false} SameTextsSameEvents(xs: seq<ChatResponse>, ys: seq<ChatResponse>)
    requires ChunkTexts(xs) == ChunkTexts(ys)
    ensures ToServerSentEvents(xs) == ToServerSentEvents(ys)
  {
    if xs != [] && ys != [] {
      assert ChunkText(xs[0]) == ChunkTexts(xs)[0];
      assert ChunkTexts(xs[1..]) == ChunkTexts(xs)[1..];
      assert ChunkTexts(ys[1..]) == ChunkTexts(ys)[1..];
      SameTextsSameEvents(xs[1..], ys[1..]);
    }
  }
}
