/**
 * The filter applied to every message the transcription service sends back
 * (the body of `on_deepgram_message` in app.py): it decides whether a message
 * yields a final transcript that is reported.
 *
 * A service message is modelled after JSON parsing, as a record whose fields
 * are optional exactly where the source reads them with `dict.get`.
 */
module Transcripts {
  import opened Wrappers

  /** One entry of `channel.alternatives`; `transcript` may be absent. */
  datatype Alternative = Alternative(transcript: Option<string>)

  /** The `channel` object; `alternatives` may be absent. */
  datatype Channel = Channel(alternatives: Option<seq<Alternative>>)

  /** A parsed response: its `type`, `channel` and `is_final` members, each optional. */
  datatype Response = Response(kind: Option<string>, channel: Option<Channel>, isFinal: Option<bool>)

  /** A message from the service: text that is not JSON, or a parsed response. */
  datatype ServiceMessage = Unparsable | Parsed(response: Response)

  /**
   * What handling one message amounts to: a reported transcript, nothing, or
   * an `IndexError` escaping the handler (a present but empty `alternatives`
   * list indexed at 0; only `JSONDecodeError` is caught).
   */
  datatype Verdict = Report(transcript: string) | Discard | Fault

  const ResultsType := "Results"

  /**
   * The message is a final result whose first alternative carries the
   * non-empty text `t`: every member on the path is present, `type` is
   * "Results" and `is_final` is true.
   */
  predicate ReportsText(m: ServiceMessage, t: string) {
    && m.Parsed?
    && m.response.kind == Some(ResultsType)
    && m.response.isFinal == Some(true)
    && m.response.channel.Some?
    && m.response.channel.value.alternatives.Some?
    && |m.response.channel.value.alternatives.value| > 0
    && m.response.channel.value.alternatives.value[0].transcript == Some(t)
    && t != ""
  }

  /** The message is a "Results" message whose `alternatives` list is present and empty. */
  predicate HasEmptyAlternatives(m: ServiceMessage) {
    && m.Parsed?
    && m.response.kind == Some(ResultsType)
    && m.response.channel.Some?
    && m.response.channel.value.alternatives == Some([])
  }

  /**
   * The result filter. An absent `channel` or `alternatives` defaults to one
   * empty alternative, an absent `transcript` to "" and an absent `is_final`
   * to false, so that any missing member discards the message.
   */
  function FinalTranscript(m: ServiceMessage): (v: Verdict)
    ensures forall t :: v == Report(t) <==> ReportsText(m, t)
    ensures v == Fault <==> HasEmptyAlternatives(m)
  {
    match m
    case Unparsable => Discard
    case Parsed(response) =>
      if response.kind != Some(ResultsType) then Discard
      else
        var alternatives :=
          match response.channel
          case None => [Alternative(None)]
          case Some(channel) => channel.alternatives.GetOr([Alternative(None)]);
        if alternatives == [] then Fault
        else
          var transcript := alternatives[0].transcript.GetOr("");
          var isFinal := response.isFinal.GetOr(false);
          if transcript != "" && isFinal then Report(transcript) else Discard
  }

  /** A response as the service sends it for one alternative. */
  function ResultsMessage(text: string, isFinal: bool): ServiceMessage {
    Parsed(Response(Some(ResultsType), Some(Channel(Some([Alternative(Some(text))]))), Some(isFinal)))
  }

  /**
   * Interim results and empty finals are discarded; a final result with
   * text reports exactly that text.
   */
  lemma InterimAndEmptyDiscarded(text: string, isFinal: bool)
    ensures FinalTranscript(ResultsMessage(text, isFinal)) ==
              if text != "" && isFinal then Report(text) else Discard
  {
  }

  /** A message missing `is_final`, `transcript` or `channel` never reports anything. */
  lemma MissingMembersReportNothing(kind: Option<string>, channel: Option<Channel>, isFinal: Option<bool>)
    requires isFinal.None? || channel.None? ||
             (channel.value.alternatives.Some? && |channel.value.alternatives.value| > 0 &&
              channel.value.alternatives.value[0].transcript.None?)
    ensures !FinalTranscript(Parsed(Response(kind, channel, isFinal))).Report?
  {
  }
}
