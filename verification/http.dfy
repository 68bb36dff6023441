/**
 * The JSON shapes the two API routes accept and answer with.
 */
module Http {
  import opened Js

  /** One item of a transcript array: a bare string, or an object with an optional `text`. */
  datatype Segment = Piece(s: string) | Entry(text: Option<string>)

  /** A transcript as the client sends it: one string, or an array of items. */
  datatype TranscriptValue = Text(s: string) | Segments(items: seq<Segment>)

  /** A transcript is truthy unless it is the empty string; an array, even an empty one, is truthy. */
  predicate TranscriptPresent(t: Option<TranscriptValue>) {
    t.Some? && (t.value.Segments? || t.value.s != "")
  }

  datatype Body =
    | ErrorBody(error: string)
    | TranscriptBody(transcript: TranscriptValue, title: string)
    | ChatBody(response: string)

  /** `NextResponse.json(body, { status })`; the status is 200 when none is given. */
  datatype Response = Response(status: int, body: Body)
}
