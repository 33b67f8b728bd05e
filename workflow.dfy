/**
 * The scam-pipeline graph: analyse the new chunk, then route to the alert
 * node, the question generator or the end. Every node returns a new state
 * record built from the old one, so the graph is modelled on values.
 *
 * The wall clock is the parameter `now` (one reading per run), and the alert
 * sender is the parameter `send`, which returns whether the alert went out.
 */
module Workflow {
  import opened Strings
  import opened SessionStates
  import opened ScamDetector
  import opened QuestionGenerator

  /** The record that flows through the graph. */
  datatype KovaState = KovaState(
    transcriptHistory: seq<Turn>,
    riskScore: int,
    confidenceScore: int,
    latestReasoning: string,
    newChunk: Chunk,
    suggestedQuestion: Option<string>,
    necessityScore: int,
    alertSent: bool,
    lastAlertTime: real,
    suspiciousNumberReported: bool,
    emergencyContacts: seq<string>,
    callerPhoneNumber: Option<string>)

  /** Where the graph goes after the analysis node. */
  datatype Route = AlertNode | QuestionGeneratorNode | End

  const AlertRisk: int := 80
  const AlertConfidence: int := 70
  const QuestionConfidence: int := 50
  /** Seconds that must pass between two alerts. */
  const AlertInterval: real := 30.0

  /** Risk and confidence both high enough to call the call a scam. */
  predicate Confirmed(s: KovaState) {
    s.riskScore >= AlertRisk && s.confidenceScore >= AlertConfidence
  }

  /**
   * route_after_analysis: alert only for a confirmed scam whose last alert is at
   * least 30 s old (a throttled one ends, and is never sent to the question
   * generator); otherwise a confidence below 50 asks for a question.
   */
  function RouteAfterAnalysis(s: KovaState, now: real): (r: Route)
    ensures r == AlertNode <==> Confirmed(s) && now - s.lastAlertTime >= AlertInterval
    ensures Confirmed(s) ==> r != QuestionGeneratorNode
    ensures !Confirmed(s) ==> (r == QuestionGeneratorNode <==> s.confidenceScore < QuestionConfidence)
  {
    if Confirmed(s) then
      if now - s.lastAlertTime < AlertInterval then End else AlertNode
    else if s.confidenceScore < QuestionConfidence then QuestionGeneratorNode
    else End
  }

  /**
   * The session fields analyze_node hands to the detector: a fresh session, so
   * the previous reasoning is not carried in.
   */
  function DetectorInput(s: KovaState): Analysis {
    Analysis(s.transcriptHistory, s.riskScore, s.confidenceScore, "")
  }

  /** analyze_node: only the history, the scores and the reasoning change. */
  function AnalyzeNode(s: KovaState, detect: Prompt -> Option<string>, parse: string -> Option<Verdict>): (r: KovaState)
    ensures r.(transcriptHistory := s.transcriptHistory, riskScore := s.riskScore,
               confidenceScore := s.confidenceScore, latestReasoning := s.latestReasoning) == s
    ensures r.transcriptHistory == AppendCapped(s.transcriptHistory, ChunkTurn(s.newChunk))
    ensures ReplyVerdict(PromptFor(s.newChunk, DetectorInput(s)), detect, parse).None? ==>
      r.riskScore == s.riskScore && r.confidenceScore == s.confidenceScore && r.latestReasoning == ""
  {
    var a := Analyze(s.newChunk, DetectorInput(s), detect, parse);
    s.(transcriptHistory := a.history, riskScore := a.riskScore,
       confidenceScore := a.confidenceScore, latestReasoning := a.latestReasoning)
  }

  /** question_generator_node: only the suggested question and the necessity score change. */
  function QuestionNode(s: KovaState, ask: QuestionPrompt -> Option<string>, parse: string -> Option<QuestionReply>): (r: KovaState)
    ensures r.(suggestedQuestion := s.suggestedQuestion, necessityScore := s.necessityScore) == s
    ensures r.suggestedQuestion.Some? ==> r.necessityScore >= Threshold
  {
    var g := GenerateQuestion(s.transcriptHistory, s.riskScore, s.confidenceScore, ask, parse);
    s.(suggestedQuestion := g.question, necessityScore := g.necessityScore)
  }

  /** What the alert sender is given. */
  datatype AlertRequest = AlertRequest(
    riskScore: int, confidenceScore: int, reasoning: string,
    contacts: seq<string>, callerPhoneNumber: Option<string>)

  /** A caller number is known (not None, not empty) and has not been reported yet. */
  predicate ShouldReport(s: KovaState) {
    s.callerPhoneNumber.Some? && s.callerPhoneNumber.value != "" && !s.suspiciousNumberReported
  }

  /** The alert for `s`; the caller number is passed on only when it should be reported. */
  function AlertRequestOf(s: KovaState): (q: AlertRequest)
    ensures q.callerPhoneNumber.Some? <==> ShouldReport(s)
    ensures q.callerPhoneNumber.Some? ==> q.callerPhoneNumber == s.callerPhoneNumber
    ensures q.contacts == s.emergencyContacts && q.reasoning == s.latestReasoning
  {
    AlertRequest(s.riskScore, s.confidenceScore, s.latestReasoning, s.emergencyContacts,
                 if ShouldReport(s) then s.callerPhoneNumber else None)
  }

  /**
   * alert_node. With no contacts only alert_sent changes, to false. Otherwise
   * alert_sent is the sender's answer, the alert time is now, and the number
   * counts as reported once it has been passed on; the flag never goes back.
   */
  function AlertNodeStep(s: KovaState, now: real, send: AlertRequest -> bool): (r: KovaState)
    ensures s.emergencyContacts == [] ==> r == s.(alertSent := false)
    ensures s.emergencyContacts != [] ==> r.alertSent == send(AlertRequestOf(s)) && r.lastAlertTime == now
    ensures r.(alertSent := s.alertSent, lastAlertTime := s.lastAlertTime,
               suspiciousNumberReported := s.suspiciousNumberReported) == s
    ensures s.suspiciousNumberReported ==> r.suspiciousNumberReported
    ensures r.suspiciousNumberReported ==> s.suspiciousNumberReported || (s.emergencyContacts != [] && ShouldReport(s))
  {
    if s.emergencyContacts == [] then s.(alertSent := false)
    else
      s.(alertSent := send(AlertRequestOf(s)), lastAlertTime := now,
         suspiciousNumberReported := s.suspiciousNumberReported || ShouldReport(s))
  }

  /** The external effects a run needs: the two model calls, their decoders and the sender. */
  datatype Services = Services(
    detect: Prompt -> Option<string>, parseVerdict: string -> Option<Verdict>,
    ask: QuestionPrompt -> Option<string>, parseQuestion: string -> Option<QuestionReply>,
    send: AlertRequest -> bool)

  /** One pass through the graph: analysis, then the node the router picks. */
  function RunGraph(s: KovaState, now: real, io: Services): (r: KovaState)
    ensures s.suspiciousNumberReported ==> r.suspiciousNumberReported
  {
    var a := AnalyzeNode(s, io.detect, io.parseVerdict);
    match RouteAfterAnalysis(a, now)
    case AlertNode => AlertNodeStep(a, now, io.send)
    case QuestionGeneratorNode => QuestionNode(a, io.ask, io.parseQuestion)
    case End => a
  }

  /** The caller number the sender receives during a run, if any. */
  function ReportedNumber(s: KovaState, now: real, io: Services): Option<string> {
    var a := AnalyzeNode(s, io.detect, io.parseVerdict);
    if RouteAfterAnalysis(a, now) == AlertNode && a.emergencyContacts != [] then
      AlertRequestOf(a).callerPhoneNumber
    else None
  }

  /**
   * A run that passes the caller number to the sender leaves the number marked
   * as reported, and a run that starts from a reported number passes none: fed
   * from run to run, the number reaches the sender at most once per session.
   */
  lemma ReportedAtMostOnce(s: KovaState, now: real, io: Services)
    ensures ReportedNumber(s, now, io).Some? ==> RunGraph(s, now, io).suspiciousNumberReported
    ensures s.suspiciousNumberReported ==> ReportedNumber(s, now, io) == None
  {
    var a := AnalyzeNode(s, io.detect, io.parseVerdict);
    assert a.suspiciousNumberReported == s.suspiciousNumberReported;
    if RouteAfterAnalysis(a, now) == AlertNode && a.emergencyContacts != [] {
      assert RunGraph(s, now, io) == AlertNodeStep(a, now, io.send);
    }
  }

  /**
   * The state process_chunk starts from. Absent history or contacts become empty
   * lists; no question, score 0, no alert and no reasoning yet.
   */
  function InitialState(chunk: Chunk, history: Option<seq<Turn>>, risk: int, confidence: int,
                        contacts: Option<seq<string>>, lastAlertTime: real,
                        callerPhoneNumber: Option<string>, reported: bool): (s: KovaState)
    ensures s.suggestedQuestion == None && s.necessityScore == 0 && !s.alertSent && s.latestReasoning == ""
    ensures s.transcriptHistory == history.GetOr([]) && s.emergencyContacts == contacts.GetOr([])
    ensures s.riskScore == risk && s.confidenceScore == confidence && s.newChunk == chunk
    ensures s.lastAlertTime == lastAlertTime && s.callerPhoneNumber == callerPhoneNumber
    ensures s.suspiciousNumberReported == reported
  {
    KovaState(history.GetOr([]), risk, confidence, "", chunk, None, 0, false,
              lastAlertTime, reported, contacts.GetOr([]), callerPhoneNumber)
  }

  /** process_chunk: builds the initial state and runs the graph once. */
  function ProcessChunk(chunk: Chunk, history: Option<seq<Turn>>, risk: int, confidence: int,
                        contacts: Option<seq<string>>, lastAlertTime: real,
                        callerPhoneNumber: Option<string>, reported: bool,
                        now: real, io: Services): (r: KovaState)
    ensures reported ==> r.suspiciousNumberReported
    ensures r.alertSent ==> r.lastAlertTime == now
    ensures r.suggestedQuestion.Some? ==> r.necessityScore >= Threshold
  {
    RunGraph(InitialState(chunk, history, risk, confidence, contacts, lastAlertTime, callerPhoneNumber, reported), now, io)
  }
}
