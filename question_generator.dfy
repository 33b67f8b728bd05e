/**
 * The verification-question generator: it reads the session (never writes it),
 * asks the language model whether a question is needed, and returns a question
 * only when the model's necessity score reaches the threshold.
 *
 * `ask` is the model call (None when it raises) and `parse` the JSON decoder
 * (None when decoding fails).
 */
module QuestionGenerator {
  import opened Strings
  import opened SessionStates
  import opened ScamDetector

  /** The score from which a question is worth asking. */
  const Threshold: int := 7

  /** What fills the question prompt template. */
  datatype QuestionPrompt = QuestionPrompt(riskScore: int, confidenceScore: int, history: string, lastSpeaker: string)

  /** The decoded reply; either key may be absent. */
  datatype QuestionReply = QuestionReply(necessityScore: Option<int>, question: Option<string>)

  /** The question to suggest, if any, and the necessity score behind it. */
  datatype Suggestion = Suggestion(question: Option<string>, necessityScore: int)

  /** The speaker of the newest turn, or "unknown" when there is no turn or it names none. */
  function LastSpeaker(h: seq<Turn>): (r: string)
    ensures h == [] ==> r == "unknown"
    ensures h != [] && h[|h| - 1].speaker.Some? ==> r == h[|h| - 1].speaker.value
    ensures h != [] && h[|h| - 1].speaker.None? ==> r == "unknown"
  {
    if h == [] then "unknown" else h[|h| - 1].speaker.GetOr("unknown")
  }

  /** The prompt: current scores, the last 20 turns (or a placeholder) and the last speaker. */
  function QuestionPromptFor(h: seq<Turn>, risk: int, confidence: int): QuestionPrompt {
    QuestionPrompt(risk, confidence, FormatHistory(h, "(No conversation history yet)"), LastSpeaker(h))
  }

  function QuestionReplyOf(p: QuestionPrompt, ask: QuestionPrompt -> Option<string>, parse: string -> Option<QuestionReply>): Option<QuestionReply> {
    match ask(p)
    case None => None
    case Some(content) => parse(StripJsonFences(content))
  }

  /**
   * generate_question over the session fields it reads. A question comes back
   * only with a score of at least 7; a missing score counts as 0; any failure
   * gives (None, 0).
   */
  function GenerateQuestion(h: seq<Turn>, risk: int, confidence: int,
                            ask: QuestionPrompt -> Option<string>, parse: string -> Option<QuestionReply>): (r: Suggestion)
    ensures r.question.Some? ==> r.necessityScore >= Threshold
    ensures QuestionReplyOf(QuestionPromptFor(h, risk, confidence), ask, parse).None? ==> r == Suggestion(None, 0)
    ensures QuestionReplyOf(QuestionPromptFor(h, risk, confidence), ask, parse).Some? ==>
      var v := QuestionReplyOf(QuestionPromptFor(h, risk, confidence), ask, parse).value;
      && r.necessityScore == v.necessityScore.GetOr(0)
      && (r.necessityScore >= Threshold ==> r.question == v.question)
      && (r.necessityScore < Threshold ==> r.question == None)
  {
    match QuestionReplyOf(QuestionPromptFor(h, risk, confidence), ask, parse)
    case None => Suggestion(None, 0)
    case Some(v) =>
      var score := v.necessityScore.GetOr(0);
      if score >= Threshold then Suggestion(v.question, score) else Suggestion(None, score)
  }
}
