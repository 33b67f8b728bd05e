/**
 * The scam detector: renders the session's recent turns into the detection
 * prompt, hands the prompt to the language model, cleans and parses its reply,
 * and updates the session in place.
 *
 * The model call is the parameter `detect` (None when the call raises) and the
 * JSON decoder is the parameter `parse` (None when decoding fails or the value
 * is not an object); both are arbitrary, so every property holds whatever the
 * model answers.
 */
module ScamDetector {
  import opened Strings
  import opened SessionStates

  /** The chunk under analysis; the source indexes both keys directly. */
  datatype Chunk = Chunk(speaker: string, text: string)

  function ChunkTurn(c: Chunk): Turn {
    Turn(Some(c.speaker), Some(c.text))
  }

  /** "**Speaker**: text" with the speaker capitalised; a missing speaker reads "Unknown" and a missing text "". */
  function FormatMessage(m: Turn): string {
    "**" + Capitalize(m.speaker.GetOr("Unknown")) + "**: " + m.text.GetOr("")
  }

  /** A rendered message can be cut back into its parts: the capitalised speaker and the unchanged text. */
  lemma FormatMessageParts(m: Turn)
    ensures var r, sp, tx := FormatMessage(m), m.speaker.GetOr("Unknown"), m.text.GetOr("");
      && |r| == |sp| + |tx| + 6
      && r[..2] == "**"
      && Capitalized(r[2..|sp| + 2]) && Lower(r[2..|sp| + 2]) == Lower(sp)
      && r[|sp| + 2..|sp| + 6] == "**: "
      && r[|sp| + 6..] == tx
  {
    var sp := Capitalize(m.speaker.GetOr("Unknown"));
    var r := FormatMessage(m);
    assert r[2..|sp| + 2] == sp;
  }

  /** The rendered lines of the newest (at most) 20 turns, oldest first. */
  function HistoryLines(h: seq<Turn>): (lines: seq<string>)
    ensures |lines| == if |h| < 20 then |h| else 20
    ensures forall i :: 0 <= i < |lines| ==> lines[i] == FormatMessage(h[|h| - |lines| + i])
  {
    var w := LastN(h, 20);
    seq(|w|, i requires 0 <= i < |w| => FormatMessage(w[i]))
  }

  /** The history block of a prompt: the rendered window joined by newlines, or `placeholder` when there is nothing to show. */
  function FormatHistory(h: seq<Turn>, placeholder: string): string {
    var joined := JoinLines(HistoryLines(h));
    if joined == "" then placeholder else joined
  }

  /**
   * Empty history renders as the placeholder. Any other history renders to text
   * starting with the oldest shown turn's line, so with "**" and never as the placeholder.
   */
  lemma FormatHistoryShape(h: seq<Turn>, placeholder: string)
    ensures h == [] ==> FormatHistory(h, placeholder) == placeholder
    ensures h != [] ==>
      ("**" <= FormatHistory(h, placeholder) && FormatMessage(h[|h| - |HistoryLines(h)|]) <= FormatHistory(h, placeholder))
  {
    if h != [] {
      var lines := HistoryLines(h);
      FormatMessageParts(h[|h| - |lines|]);
      assert lines[0] == FormatMessage(h[|h| - |lines|]);
    }
  }

  const JsonFence: string := "```json"

  lemma NoFenceNotContains(s: string)
    requires NoFence(s)
    ensures !Contains(s, Fence)
  {
    forall i | 0 <= i <= |s| ensures !(Fence <= s[i..]) {
      if i + 2 < |s| {
        assert !(s[i] == '`' && s[i + 1] == '`' && s[i + 2] == '`');
      }
    }
  }

  lemma RemoveFencesKeepsFirst(s: string)
    requires s != [] && s[0] != '`'
    ensures RemoveAll(s, Fence) != [] && RemoveAll(s, Fence)[0] == s[0]
  {
    assert !(Fence <= s) by { assert Fence[0] != s[0]; }
  }

  /**
   * Removing every "```" left to right leaves no "```" behind: what is left of a
   * run of backticks is shorter than three, and runs stay apart.
   */
  lemma {:induction false} RemoveFencesNoFence(s: string)
    ensures NoFence(RemoveAll(s, Fence))
    decreases |s|
  {
    if |s| < |Fence| {
    } else if Fence <= s {
      RemoveFencesNoFence(s[|Fence|..]);
    } else {
      var t := RemoveAll(s[1..], Fence);
      RemoveFencesNoFence(s[1..]);
      assert RemoveAll(s, Fence) == [s[0]] + t;
      if s[0] == '`' {
        if s[1] != '`' {
          RemoveFencesKeepsFirst(s[1..]);
        } else {
          assert s[2] != '`' by { assert s[..3] != Fence; }
          var u := s[1..];
          if |u| >= |Fence| {
            assert !(Fence <= u) by { assert u[1] != Fence[1]; }
            assert t == [u[0]] + RemoveAll(u[1..], Fence);
            RemoveFencesKeepsFirst(u[1..]);
          }
        }
      }
    }
  }

  /**
   * The reply clean-up: when the reply mentions "```json", every "```json" and
   * then every "```" is removed, so no fence survives; otherwise it is left as is.
   */
  function StripJsonFences(c: string): (r: string)
    ensures Contains(c, JsonFence) ==> !Contains(r, Fence)
    ensures !Contains(c, JsonFence) ==> r == c
  {
    if Contains(c, JsonFence) then
      var r := RemoveAll(RemoveAll(c, JsonFence), Fence);
      RemoveFencesNoFence(RemoveAll(c, JsonFence));
      NoFenceNotContains(r);
      r
    else c
  }

  /** A payload without backticks, wrapped in a "```json" block, comes out exactly. */
  lemma StripJsonFencesBlock(b: string)
    requires forall i :: 0 <= i < |b| ==> b[i] != '`'
    ensures StripJsonFences(JsonFence + b + Fence) == b
  {
    var c := JsonFence + b + Fence;
    var tail := b + Fence;
    assert JsonFence <= c[0..];
    assert c[|JsonFence|..] == tail;
    forall i | 0 <= i < |tail| ensures !(JsonFence <= tail[i..]) {
      if i < |b| { assert tail[i] == b[i]; }
    }
    RemoveAllAbsent(tail, JsonFence);
    forall i | 0 <= i < |b| ensures !(Fence <= (b + Fence)[i..]) {
      assert (b + Fence)[i] == b[i];
    }
    RemoveAllKeepsPrefix(b, Fence, Fence);
    assert Fence[|Fence|..] == [];
    assert b + [] == b;
  }

  /** The fields of the decoded verdict; each key may be absent. */
  datatype Verdict = Verdict(riskScore: Option<int>, confidenceScore: Option<int>, reasoning: Option<string>)

  /** What fills the user prompt template. */
  datatype Prompt = Prompt(riskScore: int, confidence: int, history: string, newChunk: string)

  /** The session fields the detector reads and writes. */
  datatype Analysis = Analysis(history: seq<Turn>, riskScore: int, confidenceScore: int, latestReasoning: string)

  /** The prompt for `chunk`, built from the history as it was before the chunk is added. */
  function PromptFor(chunk: Chunk, s: Analysis): Prompt {
    Prompt(s.riskScore, s.confidenceScore, FormatHistory(s.history, "(No previous history)"), FormatMessage(ChunkTurn(chunk)))
  }

  /** The decoded reply, or None when the call or the decoding fails. */
  function ReplyVerdict(p: Prompt, detect: Prompt -> Option<string>, parse: string -> Option<Verdict>): Option<Verdict> {
    match detect(p)
    case None => None
    case Some(content) => parse(StripJsonFences(content))
  }

  /**
   * The session after analysing `chunk` with the decoded reply `verdict` (None
   * when the model call or the decoding failed). The chunk is appended on every
   * path. On success each score is replaced by the reply's value when present
   * (never added to) and the reasoning becomes the reply's, or ""; on failure
   * the scores and the reasoning stay.
   */
  function ApplyVerdict(chunk: Chunk, s: Analysis, verdict: Option<Verdict>): (r: Analysis)
    ensures r.history == AppendCapped(s.history, ChunkTurn(chunk))
    ensures verdict.None? ==>
      r.riskScore == s.riskScore && r.confidenceScore == s.confidenceScore && r.latestReasoning == s.latestReasoning
    ensures verdict.Some? ==>
      && (verdict.value.riskScore.Some? ==> r.riskScore == verdict.value.riskScore.value)
      && (verdict.value.riskScore.None? ==> r.riskScore == s.riskScore)
      && (verdict.value.confidenceScore.Some? ==> r.confidenceScore == verdict.value.confidenceScore.value)
      && (verdict.value.confidenceScore.None? ==> r.confidenceScore == s.confidenceScore)
      && r.latestReasoning == verdict.value.reasoning.GetOr("")
  {
    var history := AppendCapped(s.history, ChunkTurn(chunk));
    match verdict
    case None => s.(history := history)
    case Some(v) =>
      Analysis(history, v.riskScore.GetOr(s.riskScore), v.confidenceScore.GetOr(s.confidenceScore), v.reasoning.GetOr(""))
  }

  /** The session after analysing `chunk`: the prompt is built before the chunk is added. */
  function Analyze(chunk: Chunk, s: Analysis, detect: Prompt -> Option<string>, parse: string -> Option<Verdict>): Analysis {
    ApplyVerdict(chunk, s, ReplyVerdict(PromptFor(chunk, s), detect, parse))
  }

  function SnapshotOf(session: SessionState): Analysis
    reads session
  {
    Analysis(session.transcriptHistory, session.riskScore, session.confidenceScore, session.latestReasoning)
  }

  /** analyze_transcript: updates the session in place, as Analyze describes. */
  method AnalyzeTranscript(chunk: Chunk, session: SessionState, detect: Prompt -> Option<string>, parse: string -> Option<Verdict>)
    modifies session`transcriptHistory, session`riskScore, session`confidenceScore, session`latestReasoning
    ensures SnapshotOf(session) == Analyze(chunk, old(SnapshotOf(session)), detect, parse)
  {
    var before := SnapshotOf(session);
    var prompt := PromptFor(chunk, before);
    var reply := detect(prompt);
    var verdict := if reply.Some? then parse(StripJsonFences(reply.value)) else None;
    assert verdict == ReplyVerdict(prompt, detect, parse);
    ghost var expected := ApplyVerdict(chunk, before, verdict);
    if verdict.Some? {
      session.riskScore := verdict.value.riskScore.GetOr(session.riskScore);
      session.confidenceScore := verdict.value.confidenceScore.GetOr(session.confidenceScore);
      session.latestReasoning := verdict.value.reasoning.GetOr("");
    }
    session.AddTurn(chunk.speaker, chunk.text);
    assert SnapshotOf(session) == expected;
  }
}
