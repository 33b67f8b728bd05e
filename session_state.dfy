/**
 * The per-connection session record of the back end: the shared transcript
 * history read by the detector and the question generator, the current scores,
 * the protector chat history and the latest reasoning shown to the front end.
 */
module SessionStates {
  import opened Strings

  /**
   * One transcript turn, a dictionary with optional "speaker" and "text" keys.
   * Turns added by AddTurn always carry both; turns handed in by callers may not,
   * which is why readers fall back to defaults.
   */
  datatype Turn = Turn(speaker: Option<string>, text: Option<string>)

  /** One protector chat entry: role "user" or "assistant" and its content. */
  datatype ChatEntry = ChatEntry(role: string, content: string)

  /** The most turns the transcript history keeps. */
  const MaxTurns: nat := 100

  /** The history after appending `t` and keeping only the newest MaxTurns entries. */
  function AppendCapped(h: seq<Turn>, t: Turn): (r: seq<Turn>)
    ensures |r| <= MaxTurns && r != [] && r[|r| - 1] == t
    ensures |h| < MaxTurns ==> r == h + [t]
    ensures |h| >= MaxTurns ==> r == h[|h| - (MaxTurns - 1)..] + [t]
  {
    var r := LastN(h + [t], MaxTurns);
    assert |h| >= MaxTurns ==> r == h[|h| - (MaxTurns - 1)..] + [t] by {
      if |h| >= MaxTurns {
        assert (h + [t])[|h| + 1 - MaxTurns..] == h[|h| + 1 - MaxTurns..] + [t];
      }
    }
    r
  }

  /**
   * The new turn is appended exactly once: it is the newest entry, and everything
   * before it is the newest part of the old history, in its old order.
   */
  lemma AppendCappedKeepsSuffix(h: seq<Turn>, t: Turn)
    ensures var r := AppendCapped(h, t);
      r[..|r| - 1] == h[|h| - (|r| - 1)..] && r[|r| - 1] == t
  {
    var r := AppendCapped(h, t);
    if |h| < MaxTurns {
      assert r[..|r| - 1] == h;
    }
  }

  /** What to_dict reports to the front end. */
  datatype Summary = Summary(riskScore: int, confidenceScore: int, historyLength: nat, chatLength: nat)

  class SessionState {
    var transcriptHistory: seq<Turn>
    var riskScore: int
    var confidenceScore: int
    var chatbotHistory: seq<ChatEntry>
    var latestReasoning: string

    /** A fresh session: no history, zero scores, no reasoning. */
    constructor ()
      ensures transcriptHistory == [] && chatbotHistory == []
      ensures riskScore == 0 && confidenceScore == 0 && latestReasoning == ""
    {
      transcriptHistory := [];
      riskScore := 0;
      confidenceScore := 0;
      chatbotHistory := [];
      latestReasoning := "";
    }

    /** Records a turn; only the transcript history changes. */
    method AddTurn(speaker: string, text: string)
      modifies this`transcriptHistory
      ensures transcriptHistory == AppendCapped(old(transcriptHistory), Turn(Some(speaker), Some(text)))
    {
      transcriptHistory := transcriptHistory + [Turn(Some(speaker), Some(text))];
      if |transcriptHistory| > MaxTurns {
        transcriptHistory := transcriptHistory[|transcriptHistory| - MaxTurns..];
      }
    }

    /** The summary sent to the front end; the session is left as it was. */
    method ToDict() returns (d: Summary)
      ensures d.riskScore == riskScore && d.confidenceScore == confidenceScore
      ensures d.historyLength == |transcriptHistory| && d.chatLength == |chatbotHistory|
    {
      d := Summary(riskScore, confidenceScore, |transcriptHistory|, |chatbotHistory|);
    }
  }
}
