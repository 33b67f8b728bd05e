/**
 * The back end's wake-word listener: transcripts from the speech service are
 * matched against the wake word, and the first match is reported to the browser
 * once; after that no transcript is examined and no audio is forwarded.
 *
 * The two concurrent tasks (receiving transcripts, forwarding audio) become two
 * methods on one listener object sharing the `detected` flag.
 */
module WakeWordRouter {
  import opened Strings

  /** A speech-service message: without a channel, or with its list of alternative transcripts. */
  datatype Message = NoChannel | Channel(alternatives: seq<string>)

  const FirstSyllables: seq<string> := ["ko", "co"]
  const SecondSyllables: seq<string> := ["va", "vah", "ver"]

  /**
   * The match test on lower-cased text: for a wake word mentioning "kova", both
   * syllables of "kova" and the word "activate" must be heard; any other wake
   * word must occur as a substring.
   */
  predicate WakeMatch(wakeLower: string, transcriptLower: string) {
    if Contains(wakeLower, "kova") then
      ContainsAny(transcriptLower, FirstSyllables)
      && ContainsAny(transcriptLower, SecondSyllables)
      && Contains(transcriptLower, "activate")
    else Contains(transcriptLower, wakeLower)
  }

  lemma ActivateHasVa()
    ensures Contains("activate", "va")
  {
    assert "va" <= "activate"[4..];
  }

  /**
   * "activate" itself contains "va", so the second-syllable test adds nothing:
   * a kova wake word matches exactly when "ko" or "co" and "activate" are heard.
   */
  lemma KovaMatchReduces(wakeLower: string, t: string)
    requires Contains(wakeLower, "kova")
    ensures WakeMatch(wakeLower, t) <==> ContainsAny(t, FirstSyllables) && Contains(t, "activate")
  {
    if Contains(t, "activate") {
      ActivateHasVa();
      ContainsTransitive(t, "activate", "va");
      assert Contains(t, SecondSyllables[0]);
    }
  }

  /** Any other wake word matches exactly when it occurs in the transcript. */
  lemma PlainMatch(wakeLower: string, t: string)
    requires !Contains(wakeLower, "kova")
    ensures WakeMatch(wakeLower, t) <==> Contains(t, wakeLower)
  {
  }

  /**
   * The transcript of the first message that matches, scanning in order:
   * messages without a channel and empty transcripts are skipped, and a channel
   * without alternatives ends the scan (the index error stops the receiver).
   */
  function FirstMatch(wakeLower: string, msgs: seq<Message>): (r: Option<string>)
    ensures r.Some? ==> r.value != "" && WakeMatch(wakeLower, Lower(r.value))
  {
    if msgs == [] then None
    else match msgs[0]
      case NoChannel => FirstMatch(wakeLower, msgs[1..])
      case Channel(alts) =>
        if alts == [] then None
        else if alts[0] == "" then FirstMatch(wakeLower, msgs[1..])
        else if WakeMatch(wakeLower, Lower(alts[0])) then Some(alts[0])
        else FirstMatch(wakeLower, msgs[1..])
  }

  /** A message the scan passes over: no channel, or a first transcript that is empty or does not match. */
  predicate Passed(wakeLower: string, m: Message) {
    m.NoChannel? || (m.alternatives != [] && (m.alternatives[0] == "" || !WakeMatch(wakeLower, Lower(m.alternatives[0]))))
  }

  /** A message whose first transcript is non-empty and matches. */
  predicate Hit(wakeLower: string, m: Message) {
    m.Channel? && m.alternatives != [] && m.alternatives[0] != "" && WakeMatch(wakeLower, Lower(m.alternatives[0]))
  }

  /** A hit preceded only by passed-over messages is what the scan returns. */
  lemma {:induction false} FirstMatchFinds(wakeLower: string, msgs: seq<Message>, k: nat)
    requires k < |msgs| && Hit(wakeLower, msgs[k])
    requires forall j :: 0 <= j < k ==> Passed(wakeLower, msgs[j])
    ensures FirstMatch(wakeLower, msgs) == Some(msgs[k].alternatives[0])
    decreases k
  {
    if k > 0 {
      assert Passed(wakeLower, msgs[0]);
      forall j | 0 <= j < k - 1 ensures Passed(wakeLower, msgs[1..][j]) {
        assert msgs[1..][j] == msgs[j + 1];
      }
      FirstMatchFinds(wakeLower, msgs[1..], k - 1);
    }
  }

  /** Conversely, what the scan returns is the first transcript of a hit preceded only by passed-over messages. */
  lemma {:induction false} FirstMatchIsFirst(wakeLower: string, msgs: seq<Message>) returns (k: nat)
    requires FirstMatch(wakeLower, msgs).Some?
    ensures k < |msgs| && Hit(wakeLower, msgs[k])
    ensures FirstMatch(wakeLower, msgs) == Some(msgs[k].alternatives[0])
    ensures forall j :: 0 <= j < k ==> Passed(wakeLower, msgs[j])
  {
    if Hit(wakeLower, msgs[0]) {
      k := 0;
    } else {
      var k' := FirstMatchIsFirst(wakeLower, msgs[1..]);
      k := k' + 1;
      forall j | 0 <= j < k ensures Passed(wakeLower, msgs[j]) {
        if j > 0 { assert msgs[j] == msgs[1..][j - 1]; }
      }
    }
  }

  /** Skipped messages never match: a run of them yields no detection. */
  lemma {:induction false} SkippedNeverMatch(wakeLower: string, msgs: seq<Message>)
    requires forall k :: 0 <= k < |msgs| ==>
      msgs[k].NoChannel? || (msgs[k].alternatives != [] && msgs[k].alternatives[0] == "")
    ensures FirstMatch(wakeLower, msgs) == None
  {
    if msgs != [] {
      SkippedNeverMatch(wakeLower, msgs[1..]);
    }
  }

  class WakeWordListener {
    const wakeWordLower: string
    var detected: bool
    /** The transcripts sent to the browser with {"detected": true}. */
    var sent: seq<string>
    /** The audio forwarded to the speech service. */
    var forwarded: seq<seq<bv8>>

    /** At most one detection message, and one exactly when the flag is set. */
    predicate Valid()
      reads this
    {
      |sent| <= 1 && (detected <==> |sent| == 1)
    }

    constructor (wakeWord: string)
      ensures Valid()
      ensures wakeWordLower == Lower(wakeWord)
      ensures !detected && sent == [] && forwarded == []
    {
      wakeWordLower := Lower(wakeWord);
      detected := false;
      sent := [];
      forwarded := [];
    }

    /**
     * receive_transcripts over the messages that arrive: once detected, nothing
     * is examined; otherwise the first match is sent and sets the flag.
     */
    method ReceiveTranscripts(msgs: seq<Message>)
      requires Valid()
      modifies this`detected, this`sent
      ensures Valid()
      ensures old(detected) ==> detected && sent == old(sent)
      ensures !old(detected) ==>
        && (detected <==> FirstMatch(wakeWordLower, msgs).Some?)
        && sent == (if detected then [FirstMatch(wakeWordLower, msgs).value] else [])
    {
      if detected {
        return;
      }
      var i := 0;
      while i < |msgs|
        invariant 0 <= i <= |msgs|
        invariant !detected && sent == []
        invariant FirstMatch(wakeWordLower, msgs) == FirstMatch(wakeWordLower, msgs[i..])
      {
        assert msgs[i..][1..] == msgs[i + 1..];
        var message := msgs[i];
        if message.NoChannel? {
          i := i + 1;
          continue;
        }
        if message.alternatives == [] {
          return;
        }
        var transcript := message.alternatives[0];
        if transcript == "" {
          i := i + 1;
          continue;
        }
        if WakeMatch(wakeWordLower, Lower(transcript)) {
          detected := true;
          sent := sent + [transcript];
          return;
        }
        i := i + 1;
      }
    }

    /** One step of send_audio: the chunk reaches the speech service only before detection. */
    method ForwardAudio(data: seq<bv8>)
      modifies this`forwarded
      ensures detected ==> forwarded == old(forwarded)
      ensures !detected ==> forwarded == old(forwarded) + [data]
    {
      if !detected {
        forwarded := forwarded + [data];
      }
    }
  }
}
