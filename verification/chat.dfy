/**
 * The chat route: check that a question and a transcript were posted, flatten
 * the transcript to one string, embed it and the question in a fixed prompt,
 * and answer with the model's text.
 */
module ChatRoute {
  import opened Js
  import opened Http

  const MissingFields: string := "Missing message or transcript"
  const GenerationFailed: string := "Failed to generate AI response"

  /** How `join` renders an object item. */
  const ObjectText: string := "[object Object]"

  const PromptHead: string :=
    "\nBased on the following YouTube video transcript, please answer the user's question:\n\nTRANSCRIPT:\n"
  const PromptMiddle: string := "\n\nUSER QUESTION:\n"
  const PromptTail: string := "\n\nPlease provide a helpful and accurate response based on the transcript content.\n"

  /** The posted JSON body: unreadable, or an object whose two fields may be missing. */
  datatype ChatRequest = UnreadableBody | ChatFields(message: Option<string>, transcript: Option<TranscriptValue>)

  /** The model call's outcome: generated text, or a thrown error. */
  datatype ModelReply = Generated(text: string) | ModelFailed

  /** The prompt sent to the model, if any, and the route's answer. */
  datatype ChatHandled = ChatHandled(prompt: Option<string>, response: Response)

  /** `item.text || item` as `join` renders it: the text, the string item, or the object's default rendering. */
  function SegmentText(item: Segment): string {
    match item
    case Piece(s) => s
    case Entry(text) => if Truthy(text) then text.value else ObjectText
  }

  /** `transcript.map(item => item.text || item)`. */
  function Pieces(items: seq<Segment>): (r: seq<string>)
    ensures |r| == |items|
    ensures forall k :: 0 <= k < |items| ==> r[k] == SegmentText(items[k])
  {
    seq(|items|, k requires 0 <= k < |items| => SegmentText(items[k]))
  }

  /** The transcript as one string: an array is mapped and joined with single spaces, a string is kept. */
  function Normalize(t: TranscriptValue): (r: string)
    ensures t.Text? ==> r == t.s
  {
    match t
    case Text(s) => s
    case Segments(items) => Join(Pieces(items), " ")
  }

  /** For n >= 1 items, the flattened transcript is as long as the pieces plus n - 1 spaces. */
  lemma NormalizedLength(items: seq<Segment>)
    requires |items| >= 1
    ensures |Normalize(Segments(items))| == TotalLength(Pieces(items)) + |items| - 1
  {
    JoinLength(Pieces(items), " ");
  }

  /** When no piece holds a space, splitting the flattened transcript on spaces gives the pieces back. */
  lemma NormalizedSplitsBack(items: seq<Segment>)
    requires |items| >= 1
    requires forall i, k :: 0 <= i < |items| && 0 <= k < |SegmentText(items[i])| ==> SegmentText(items[i])[k] != ' '
    ensures Split(Normalize(Segments(items)), ' ') == Pieces(items)
  {
    SplitJoinRoundTrip(Pieces(items), ' ');
  }

  /** `[{text: "a"}, {text: "b"}]` becomes "a b". */
  lemma NormalizeExample()
    ensures Normalize(Segments([Entry(Some("a")), Entry(Some("b"))])) == "a b"
  {
    var pieces := Pieces([Entry(Some("a")), Entry(Some("b"))]);
    assert pieces == ["a", "b"];
    assert Join(pieces, " ") == "a" + " " + Join(["b"], " ");
  }

  /** The prompt template: the transcript, then the question, inside fixed text. */
  function Prompt(transcript: string, message: string): (p: string)
    ensures |p| == |PromptHead| + |transcript| + |PromptMiddle| + |message| + |PromptTail|
    ensures p[..|PromptHead|] == PromptHead
    ensures p[|PromptHead|..|PromptHead| + |transcript|] == transcript
    ensures p[|PromptHead| + |transcript|..|PromptHead| + |transcript| + |PromptMiddle|] == PromptMiddle
    ensures p[|PromptHead| + |transcript| + |PromptMiddle|..|p| - |PromptTail|] == message
    ensures p[|p| - |PromptTail|..] == PromptTail
  {
    var p := PromptHead + transcript + PromptMiddle + message + PromptTail;
    var a := |PromptHead|;
    var b := a + |transcript|;
    var c := b + |PromptMiddle|;
    var d := c + |message|;
    assert p[..a] == PromptHead;
    assert p[a..b] == transcript;
    assert p[b..c] == PromptMiddle;
    assert p[c..d] == message;
    assert p[d..] == PromptTail;
    p
  }

  /** The route's `POST`, with the model's reply as a parameter. */
  function HandleChat(req: ChatRequest, reply: ModelReply): (h: ChatHandled)
    ensures req.UnreadableBody? ==> h == ChatHandled(None, Response(500, ErrorBody(GenerationFailed)))
    ensures req.ChatFields? && !(Truthy(req.message) && TranscriptPresent(req.transcript)) ==>
      h == ChatHandled(None, Response(400, ErrorBody(MissingFields)))
    ensures h.prompt.Some? <==> req.ChatFields? && Truthy(req.message) && TranscriptPresent(req.transcript)
    ensures h.prompt.Some? ==> h.prompt.value == Prompt(Normalize(req.transcript.value), req.message.value)
    ensures h.prompt.Some? && reply.Generated? ==> h.response == Response(200, ChatBody(reply.text))
    ensures h.prompt.Some? && reply.ModelFailed? ==> h.response == Response(500, ErrorBody(GenerationFailed))
  {
    match req
    case UnreadableBody => ChatHandled(None, Response(500, ErrorBody(GenerationFailed)))
    case ChatFields(message, transcript) =>
      if !Truthy(message) || !TranscriptPresent(transcript) then
        ChatHandled(None, Response(400, ErrorBody(MissingFields)))
      else
        var prompt := Prompt(Normalize(transcript.value), message.value);
        match reply
        case Generated(text) => ChatHandled(Some(prompt), Response(200, ChatBody(text)))
        case ModelFailed => ChatHandled(Some(prompt), Response(500, ErrorBody(GenerationFailed)))
  }
}
