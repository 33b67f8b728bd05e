/**
 * The transcript processor: speech-to-text pieces accumulate in a buffer until
 * it holds enough words; the buffer is then handed to the speaker identifier and
 * the labelled segments join a bounded conversation history.
 */
module TranscriptProcessors {
  import opened Strings
  import opened SpeakerIdentifier

  const DefaultMinWords: int := 5
  const DefaultMaxHistory: int := 50
  /** How many segments survive when the history outgrows its limit. */
  const KeptOnTrim: nat := 30

  /** The history after adding `segs`: trimmed to the newest 30 once it exceeds `maxHistory`. */
  function ExtendHistory(h: seq<Segment>, segs: seq<Segment>, maxHistory: int): (r: seq<Segment>)
    ensures |h + segs| <= maxHistory ==> r == h + segs
    ensures |h + segs| > maxHistory ==> |r| == (if |h + segs| < KeptOnTrim then |h + segs| else KeptOnTrim)
    ensures r == (h + segs)[|h + segs| - |r|..]
  {
    if |h + segs| > maxHistory then LastN(h + segs, KeptOnTrim) else h + segs
  }

  /** The history bound every processor keeps: the larger of its limit and 30. */
  predicate Bounded(h: seq<Segment>, maxHistory: int) {
    |h| <= maxHistory || |h| <= KeptOnTrim
  }

  /** Extending keeps the bound, whatever the identifier returns, and keeps every label valid. */
  lemma ExtendHistoryValid(h: seq<Segment>, segs: seq<Segment>, maxHistory: int)
    requires AllValid(h) && AllValid(segs)
    ensures Bounded(ExtendHistory(h, segs, maxHistory), maxHistory)
    ensures AllValid(ExtendHistory(h, segs, maxHistory))
  {
    var e := h + segs;
    var r := ExtendHistory(h, segs, maxHistory);
    forall k | 0 <= k < |r| ensures ValidLabel(r[k]) {
      var j := |e| - |r| + k;
      assert r[k] == e[j];
      if j < |h| {
        assert e[j] == h[j];
      } else {
        assert e[j] == segs[j - |h|];
      }
    }
  }

  class TranscriptProcessor {
    var minWords: int
    var maxHistory: int
    var buffer: string
    var conversationHistory: seq<Segment>

    /** The history is bounded and every stored segment is labelled "user" or "caller". */
    predicate Valid()
      reads this
    {
      Bounded(conversationHistory, maxHistory) && AllValid(conversationHistory)
    }

    /** A processor with the given thresholds (the source's defaults are 5 and 50), empty buffer and history. */
    constructor (minWords: int, maxHistory: int)
      ensures Valid()
      ensures this.minWords == minWords && this.maxHistory == maxHistory
      ensures buffer == "" && conversationHistory == []
    {
      this.minWords := minWords;
      this.maxHistory := maxHistory;
      buffer := "";
      conversationHistory := [];
    }

    /** Appends a blank and the new piece to the buffer; nothing else changes. */
    method AddTranscript(transcript: string)
      modifies this`buffer
      ensures buffer == old(buffer) + " " + transcript
    {
      buffer := buffer + " " + transcript;
    }

    /** Whether the buffer holds at least minWords whitespace-separated words. */
    method ShouldProcess() returns (b: bool)
      ensures b <==> |SplitWords(buffer)| >= minWords
    {
      b := |SplitWords(buffer)| >= minWords;
    }

    /**
     * A blank buffer yields nothing and changes nothing. Otherwise the stripped
     * buffer goes to the identifier, its segments are returned unchanged and
     * added to the history, and the buffer is emptied. `identify` stands for
     * identify_speakers with its model call fixed, as Identify(_, _, call, parse).
     */
    method ProcessBuffer(identify: (string, seq<Segment>) -> seq<Segment>)
      returns (segments: seq<Segment>)
      requires Valid()
      requires forall t, h :: AllValid(identify(t, h))
      modifies this`buffer, this`conversationHistory
      ensures Valid()
      ensures AllSpace(old(buffer), Python) ==>
        segments == [] && buffer == old(buffer) && conversationHistory == old(conversationHistory)
      ensures !AllSpace(old(buffer), Python) ==>
        && segments == identify(Trim(old(buffer), Python), old(conversationHistory))
        && buffer == ""
        && conversationHistory == ExtendHistory(old(conversationHistory), segments, maxHistory)
    {
      var text := Trim(buffer, Python);
      if text == [] {
        return [];
      }
      segments := identify(text, conversationHistory);
      AddSegments(segments);
      buffer := "";
    }

    /** Extends the history with `segments`, then keeps only the newest 30 if it grew past the limit. */
    method AddSegments(segments: seq<Segment>)
      requires Valid() && AllValid(segments)
      modifies this`conversationHistory
      ensures Valid()
      ensures conversationHistory == ExtendHistory(old(conversationHistory), segments, maxHistory)
    {
      ExtendHistoryValid(conversationHistory, segments, maxHistory);
      conversationHistory := conversationHistory + segments;
      if |conversationHistory| > maxHistory {
        conversationHistory := LastN(conversationHistory, KeptOnTrim);
      }
    }

    /** Empties the buffer and the history. */
    method Clear()
      modifies this`buffer, this`conversationHistory
      ensures Valid()
      ensures buffer == "" && conversationHistory == []
    {
      buffer := "";
      conversationHistory := [];
    }
  }

  /**
   * Adding a piece adds exactly its words to the buffer's word count: the
   * separating blank never joins the last buffered word to the first new one.
   */
  lemma AddTranscriptWords(buffer: string, transcript: string)
    ensures SplitWords(buffer + " " + transcript) == SplitWords(buffer) + SplitWords(transcript)
    ensures |SplitWords(buffer + " " + transcript)| == |SplitWords(buffer)| + |SplitWords(transcript)|
  {
    SplitWordsAppendSpaced(buffer, transcript);
  }
}
