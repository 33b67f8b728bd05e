/**
 * The protective companion chat: the user's question is answered by the
 * language model with the live call's scores and recent transcript as context.
 * The session is only read. `ask` is the model call, None when it raises.
 */
module ChatBot {
  import opened Strings
  import opened SessionStates

  const EmptyHistory: string := "(No conversation history yet)"
  const FallbackReply: string := "I'm having trouble analyzing the call right now. Please hang up if you feel unsafe."
  /** The number of newest turns shown to the model. */
  const ContextTurns: nat := 20

  /** "SPEAKER: text" with the speaker upper-cased; defaults "Unknown" (so "UNKNOWN") and "". */
  function ChatLine(m: Turn): string {
    Upper(m.speaker.GetOr("Unknown")) + ": " + m.text.GetOr("")
  }

  /** The lines of the newest 20 turns, oldest first. */
  function ChatLines(h: seq<Turn>): (lines: seq<string>)
    ensures |lines| == if |h| < ContextTurns then |h| else ContextTurns
    ensures forall i :: 0 <= i < |lines| ==> lines[i] == ChatLine(h[|h| - |lines| + i])
  {
    var w := LastN(h, ContextTurns);
    seq(|w|, i requires 0 <= i < |w| => ChatLine(w[i]))
  }

  /** The transcript block: a placeholder for no history, else the lines joined by newlines. */
  function HistoryContext(h: seq<Turn>): string {
    if h == [] then EmptyHistory else JoinLines(ChatLines(h))
  }

  /** format_history_for_context. */
  method FormatHistoryForContext(history: seq<Turn>) returns (r: string)
    ensures r == HistoryContext(history)
  {
    if history == [] {
      return EmptyHistory;
    }
    var recent := LastN(history, ContextTurns);
    var formatted: seq<string> := [];
    var i := 0;
    while i < |recent|
      invariant 0 <= i <= |recent|
      invariant |formatted| == i
      invariant forall j :: 0 <= j < i ==> formatted[j] == ChatLine(recent[j])
    {
      formatted := formatted + [ChatLine(recent[i])];
      i := i + 1;
    }
    assert formatted == ChatLines(history);
    r := JoinLines(formatted);
  }

  /** Each of the newest 20 turns has its own line in the transcript block. */
  lemma HistoryContextShowsTurn(h: seq<Turn>, k: nat)
    requires k < |h| && |h| - k <= ContextTurns
    ensures Contains(HistoryContext(h), ChatLine(h[k]))
  {
    var lines := ChatLines(h);
    var i := k - (|h| - |lines|);
    assert lines[i] == ChatLine(h[k]);
    JoinLinesContains(lines, i);
  }

  /** "Current Risk Score: r/100". */
  function RiskLine(risk: int): string {
    "Current Risk Score: " + IntToString(risk) + "/100"
  }

  /** "Confidence Score: c/100". */
  function ConfidenceLine(confidence: int): string {
    "Confidence Score: " + IntToString(confidence) + "/100"
  }

  /** The opening persona paragraph and the role guidelines; their wording is not modelled. */
  const Persona: string := "You are a trusted, protective family companion AI."
  const Guidelines: string := "YOUR ROLE:"

  /** The pieces of the prompt, in order. */
  function PromptParts(query: string, risk: int, confidence: int, history: seq<Turn>): seq<string> {
    [Persona, "\n\nCONTEXT FROM LIVE CALL:\n", RiskLine(risk), "\n", ConfidenceLine(confidence),
     "\n\nRECENT TRANSCRIPT:\n", HistoryContext(history), "\n\n", Guidelines, "\n\n",
     "User Question: " + query, "\n"]
  }

  /**
   * The single prompt sent to the model: persona, the risk and confidence lines,
   * the transcript block, the guidelines, then the user's question.
   */
  function ProtectorPrompt(query: string, risk: int, confidence: int, history: seq<Turn>): (p: string)
    ensures Contains(p, RiskLine(risk))
    ensures Contains(p, HistoryContext(history))
    ensures Contains(p, "User Question: " + query)
  {
    var parts := PromptParts(query, risk, confidence, history);
    assert Contains(Concat(parts), RiskLine(risk)) by { ConcatContains(parts, 2); }
    assert Contains(Concat(parts), HistoryContext(history)) by { ConcatContains(parts, 6); }
    assert Contains(Concat(parts), "User Question: " + query) by { ConcatContains(parts, 10); }
    Concat(parts)
  }

  /** chat_with_protector: the model's answer, or the fixed fallback sentence when the call fails. */
  function ChatWithProtector(query: string, session: SessionState, ask: string -> Option<string>): (r: string)
    reads session
    ensures ask(ProtectorPrompt(query, session.riskScore, session.confidenceScore, session.transcriptHistory)).None? ==>
      r == FallbackReply
    ensures ask(ProtectorPrompt(query, session.riskScore, session.confidenceScore, session.transcriptHistory)).Some? ==>
      r == ask(ProtectorPrompt(query, session.riskScore, session.confidenceScore, session.transcriptHistory)).value
  {
    ask(ProtectorPrompt(query, session.riskScore, session.confidenceScore, session.transcriptHistory)).GetOr(FallbackReply)
  }

  lemma RiskLine85()
    ensures RiskLine(85) == "Current Risk Score: 85/100"
  {
    assert IntToString(85) == "85";
  }

  /** A caller turn renders as "CALLER: " followed by its text. */
  lemma CallerLine(t: string)
    ensures ChatLine(Turn(Some("caller"), Some(t))) == "CALLER: " + t
  {
    UpperCaller();
  }

  lemma UpperCaller()
    ensures Upper("caller") == "CALLER"
  {
    var u := Upper("caller");
    assert u[0] == 'C' && u[1] == 'A' && u[2] == 'L' && u[3] == 'L' && u[4] == 'E' && u[5] == 'R';
  }

  /** The caller's sentence in the back end's chatbot test. */
  const GiftCardText: string := "I need you to send money via gift cards."

  /**
   * The scenario of the back end's chatbot test: a session with risk 85 whose
   * history holds a caller turn and a user turn yields a prompt carrying
   * "Current Risk Score: 85/100" and the caller's line in capitals.
   */
  lemma ChatbotTestScenario(query: string, confidence: int)
    ensures var h := [Turn(Some("caller"), Some(GiftCardText)), Turn(Some("user"), Some("But why?"))];
      && Contains(ProtectorPrompt(query, 85, confidence, h), "Current Risk Score: 85/100")
      && Contains(ProtectorPrompt(query, 85, confidence, h), "CALLER: " + GiftCardText)
  {
    var h := [Turn(Some("caller"), Some(GiftCardText)), Turn(Some("user"), Some("But why?"))];
    var p := ProtectorPrompt(query, 85, confidence, h);
    RiskLine85();
    CallerLine(GiftCardText);
    HistoryContextShowsTurn(h, 0);
    ContainsTransitive(p, HistoryContext(h), ChatLine(h[0]));
  }
}
