/**
 * The conversation endpoint (backend/app/api/conversation.py): a voice-call
 * transcript is flattened to "role: message" lines for the LLM, and any
 * failure becomes an HTTP 500. The LLM call is a parameter giving its outcome.
 */
module Conversation {
  import opened Wrappers
  import opened Json
  import opened Text
  import opened Http

  datatype Message = Message(role: string, timeInCallSecs: int, message: string)

  /** One transcript entry, `f"{msg.role}: {msg.message}"`. */
  function Line(m: Message): string {
    m.role + ": " + m.message
  }

  /** `"\n".join(...)` over the entries' lines, in transcript order. */
  function FormatTranscript(transcript: seq<Message>): string {
    Join(seq(|transcript|, i requires 0 <= i < |transcript| => Line(transcript[i])), "\n")
  }

  /** An empty transcript gives the empty string; one entry gives its line with no newline. */
  lemma FormatShortTranscripts(m: Message)
    ensures FormatTranscript([]) == ""
    ensures FormatTranscript([m]) == Line(m)
  {
  }

  /** Splitting a transcript splits its text at exactly one newline. */
  lemma FormatConcat(a: seq<Message>, b: seq<Message>)
    requires a != [] && b != []
    ensures FormatTranscript(a + b) == FormatTranscript(a) + "\n" + FormatTranscript(b)
  {
    var la := seq(|a|, i requires 0 <= i < |a| => Line(a[i]));
    var lb := seq(|b|, i requires 0 <= i < |b| => Line(b[i]));
    assert seq(|a + b|, i requires 0 <= i < |a + b| => Line((a + b)[i])) == la + lb;
    JoinConcat(la, lb, "\n");
  }

  /** A later entry appends "\n" and its line; nothing before it changes. */
  lemma FormatAppend(transcript: seq<Message>, m: Message)
    requires transcript != []
    ensures FormatTranscript(transcript + [m]) == FormatTranscript(transcript) + "\n" + Line(m)
  {
    FormatConcat(transcript, [m]);
  }

  /** The text's length is the lines' lengths plus one newline between each pair. */
  lemma {:induction false} FormatLength(transcript: seq<Message>)
    requires transcript != []
    ensures |FormatTranscript(transcript)| == LinesLength(transcript) + |transcript| - 1
    decreases |transcript|
  {
    if |transcript| > 1 {
      var init := transcript[..|transcript| - 1];
      var last := transcript[|transcript| - 1];
      assert transcript == init + [last];
      FormatLength(init);
      FormatAppend(init, last);
    }
  }

  /** The total length of the entries' lines. */
  function LinesLength(transcript: seq<Message>): nat {
    if transcript == [] then 0
    else LinesLength(transcript[..|transcript| - 1]) + |Line(transcript[|transcript| - 1])|
  }

  /** What the LLM call did: returned an analysis, or raised with a message. */
  datatype LlmOutcome = Analysed(analysis: Json) | Raised(message: string)

  const ErrorPrefix := "Error processing conversation: "

  /** The `TypeError` text Python gives for a call of `LLMService.generate_response` that omits `output_parser`. */
  const MissingParserError := "LLMService.generate_response() missing 1 required positional argument: 'output_parser'"

  /**
   * `process_conversation` as written: the call to `generate_response` omits
   * the required `output_parser`, so it raises `TypeError` before the LLM is
   * reached, and the `except` turns that into a 500. The LLM is never used.
   */
  function ProcessConversationAsWritten(transcript: seq<Message>, llm: string -> LlmOutcome): Result<Json, HttpException> {
    var _ := FormatTranscript(transcript);
    Err(HttpException(500, JStr(ErrorPrefix + MissingParserError)))
  }

  /** As written, no conversation and no LLM behaviour gives a success: every request is the same 500. */
  lemma AsWrittenNeverSucceeds(transcript: seq<Message>, llm: string -> LlmOutcome)
    ensures ProcessConversationAsWritten(transcript, llm) == Err(HttpException(500, JStr(ErrorPrefix + MissingParserError)))
    ensures !ProcessConversationAsWritten(transcript, llm).Ok?
  {
  }

  /**
   * The discrepancy on one input: an LLM that always answers makes the
   * corrected call succeed with its analysis, while the call as written fails.
   */
  lemma AsWrittenLosesAnalysis(transcript: seq<Message>, analysis: Json)
    ensures ProcessConversation(transcript, _ => Analysed(analysis)) == Ok(analysis)
    ensures ProcessConversationAsWritten(transcript, _ => Analysed(analysis)).Err?
  {
  }

  /**
   * `process_conversation` with the parser passed, as the other endpoints
   * call `generate_response`: the analysis the LLM returned, or 500 with the
   * error's text.
   */
  function ProcessConversation(transcript: seq<Message>, llm: string -> LlmOutcome): Result<Json, HttpException> {
    match llm(FormatTranscript(transcript))
    case Analysed(analysis) => Ok(analysis)
    case Raised(message) => Err(HttpException(500, JStr(ErrorPrefix + message)))
  }

  /** The LLM receives the formatted transcript; every failure is a 500 whose detail starts with the prefix. */
  lemma ProcessConversationFacts(transcript: seq<Message>, llm: string -> LlmOutcome)
    ensures var r := ProcessConversation(transcript, llm);
      && (r.Ok? <==> llm(FormatTranscript(transcript)).Analysed?)
      && (r.Err? ==> r.error.statusCode == 500 && r.error.detail.JStr?
                     && StartsWith(r.error.detail.s, ErrorPrefix))
  {
    var r := ProcessConversation(transcript, llm);
    if r.Err? {
      assert r.error.detail.s[..|ErrorPrefix|] == ErrorPrefix;
    }
  }
}
