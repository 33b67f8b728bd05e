/**
 * Speaker identification: the new transcript, with the recent labelled
 * segments as context, goes to the language model, whose JSON reply is cleaned,
 * decoded and validated into segments labelled "user" or "caller".
 *
 * `call` is the model call (None when it raises) and `parse` the JSON decoder
 * (None when decoding fails or the value cannot be iterated).
 */
module SpeakerIdentifier {
  import opened Strings

  /** A labelled piece of the conversation. */
  datatype Segment = Segment(speaker: string, text: string)

  /** One decoded array element: not an object, or an object with optional keys. */
  datatype RawItem = NotDict | Dict(speaker: Option<string>, text: Option<string>)

  /** What fills the identification prompt. */
  datatype SpeakerPrompt = SpeakerPrompt(context: string, transcript: string)

  /** The number of earlier segments shown as context. */
  const ContextSegments: nat := 10

  /** "SPEAKER: text\n" with the label upper-cased. */
  function ContextLine(seg: Segment): string {
    Upper(seg.speaker) + ": " + seg.text + "\n"
  }

  /** A context line can be cut back into the upper-cased label, ": ", the text and the newline. */
  lemma ContextLineParts(seg: Segment)
    ensures var r, n := ContextLine(seg), |seg.speaker|;
      && |r| == n + |seg.text| + 3
      && r[..n] == Upper(seg.speaker) && r[n..n + 2] == ": "
      && r[n + 2..|r| - 1] == seg.text && r[|r| - 1] == '\n'
  {
    var r := ContextLine(seg);
    assert r[..|seg.speaker|] == Upper(seg.speaker);
  }

  /** The context lines of `segs`, oldest first. */
  function Context(segs: seq<Segment>): string {
    if segs == [] then "" else Context(segs[..|segs| - 1]) + ContextLine(segs[|segs| - 1])
  }

  /** The context is empty exactly when there are no segments; otherwise it ends in a newline. */
  lemma ContextEmpty(segs: seq<Segment>)
    ensures Context(segs) == [] <==> segs == []
    ensures segs != [] ==> Context(segs)[|Context(segs)| - 1] == '\n'
  {
    if segs != [] {
      ContextLineParts(segs[|segs| - 1]);
    }
  }

  /** Context distributes over concatenation: every segment keeps its own line, in order. */
  lemma {:induction false} ContextAppend(a: seq<Segment>, b: seq<Segment>)
    ensures Context(a + b) == Context(a) + Context(b)
    decreases |b|
  {
    if b == [] {
      assert a + b == a;
    } else {
      var b', last := b[..|b| - 1], b[|b| - 1];
      calc {
        Context(a + b);
        { assert (a + b)[..|a + b| - 1] == a + b' && (a + b)[|a + b| - 1] == last; }
        Context(a + b') + ContextLine(last);
        { ContextAppend(a, b'); }
        Context(a) + Context(b') + ContextLine(last);
        Context(a) + (Context(b') + ContextLine(last));
        Context(a) + Context(b);
      }
    }
  }

  /** The history context block: the last 10 segments rendered as lines. */
  method BuildHistoryContext(history: seq<Segment>) returns (ctx: string)
    ensures ctx == Context(LastN(history, ContextSegments))
    ensures ctx == [] <==> history == []
  {
    ctx := "";
    var recent := LastN(history, ContextSegments);
    var i := 0;
    while i < |recent|
      invariant 0 <= i <= |recent|
      invariant ctx == Context(recent[..i])
    {
      assert recent[..i + 1][..i] == recent[..i];
      ctx := ctx + ContextLine(recent[i]);
      i := i + 1;
    }
    assert recent[..i] == recent;
    ContextEmpty(recent);
  }

  /** The prompt's context: the rendered history, or a placeholder when there is none. */
  function PromptContext(ctx: string): string {
    if ctx == "" then "(No previous context)" else ctx
  }

  /** The text before the first "```", or all of it: Python's s.split("```")[0]. */
  function BeforeFence(s: string): (r: string)
    ensures r <= s && NoFence(r)
    ensures forall i :: 0 <= i < |r| ==> !FenceAt(s, i)
    ensures |r| < |s| ==> FenceAt(s, |r|) && Fence <= s[|r|..]
  {
    var n := FenceIndex(s, 0);
    var r := s[..n];
    assert NoFence(r) by {
      forall i | 0 <= i && i + 2 < |r|
        ensures !(r[i] == '`' && r[i + 1] == '`' && r[i + 2] == '`')
      {
        assert !FenceAt(s, i);
      }
    }
    assert n < |s| ==> s[n..][..3] == Fence;
    r
  }

  /** Where the payload starts in the text after an opening fence: past a "json" tag, if any. */
  function PayloadStart(body: string): nat {
    if "json" <= body then 4 else 0
  }

  /** The text after an opening "```" cut down to the part before the next fence, less a leading "json". */
  function FencedPayload(body: string): (r: string)
    ensures NoFence(r)
  {
    var inner := BeforeFence(body);
    if "json" <= inner then inner[4..] else inner
  }

  /**
   * The payload is exactly the text from the payload start up to the first
   * later "```", or to the end when there is none.
   */
  lemma FencedPayloadSpan(body: string)
    ensures var r, k := FencedPayload(body), PayloadStart(body);
      && k + |r| <= |body| && r == body[k..k + |r|]
      && (forall i :: k <= i < k + |r| ==> !FenceAt(body, i))
      && (k + |r| < |body| ==> FenceAt(body, k + |r|))
  {
    JsonTagKept(body);
  }

  /** A "json" tag holds no backtick, so the text before the first fence keeps it. */
  lemma JsonTagKept(body: string)
    ensures ("json" <= BeforeFence(body)) == ("json" <= body)
  {
    var inner := BeforeFence(body);
    if "json" <= body {
      assert !FenceAt(body, 0) && !FenceAt(body, 1) && !FenceAt(body, 2) && !FenceAt(body, 3);
      assert inner[..4] == body[..4];
    }
  }

  /**
   * Reply clean-up: strip whitespace; a reply opening with "```" is cut down to
   * its fenced payload. Whatever opened with a fence keeps none.
   */
  function CleanReply(content: string): (r: string)
    ensures !(Fence <= Trim(content, Python)) ==> r == Trim(content, Python)
    ensures Fence <= Trim(content, Python) ==> NoFence(r)
  {
    var c := Trim(content, Python);
    if Fence <= c then FencedPayload(c[|Fence|..]) else c
  }

  /** The text after "```json" up to the closing fence, when the payload holds no backtick. */
  lemma BeforeFenceOfBlock(b: string)
    requires forall i :: 0 <= i < |b| ==> b[i] != '`'
    ensures BeforeFence("json" + b + Fence) == "json" + b
  {
    var body := "json" + b + Fence;
    var inner := BeforeFence(body);
    var n := 4 + |b|;
    assert FenceAt(body, n);
    forall i | 0 <= i < n ensures !FenceAt(body, i) {
      if i >= 4 { assert body[i] == b[i - 4]; }
    }
    assert |inner| == n;
  }

  /** A JSON payload without backticks, sent back in a "```json" block, comes out exactly. */
  lemma CleanReplyJsonBlock(b: string)
    requires forall i :: 0 <= i < |b| ==> b[i] != '`'
    ensures CleanReply(Fence + "json" + b + Fence) == b
  {
    var c := Fence + "json" + b + Fence;
    TrimKeepsUnpadded(c, Python);
    assert Fence <= c && c[|Fence|..] == "json" + b + Fence;
    BeforeFenceOfBlock(b);
  }

  /** A label as stored: lower-cased, and anything but "user" or "caller" becomes "caller". */
  function NormalizeLabel(raw: string): (r: string)
    ensures r == "user" || r == "caller"
    ensures Lower(raw) == "user" ==> r == "user"
    ensures Lower(raw) != "user" ==> r == "caller"
  {
    var l := Lower(raw);
    if l == "user" || l == "caller" then l else "caller"
  }

  predicate ValidLabel(seg: Segment) {
    seg.speaker == "user" || seg.speaker == "caller"
  }

  predicate AllValid(segs: seq<Segment>) {
    forall k :: 0 <= k < |segs| ==> ValidLabel(segs[k])
  }

  /** The segment an item yields, if it is an object with both keys. */
  function Kept(item: RawItem): seq<Segment> {
    if item.Dict? && item.speaker.Some? && item.text.Some? then
      [Segment(NormalizeLabel(item.speaker.value), item.text.value)]
    else []
  }

  /** The validated segments: the kept items, labels normalised, texts and order unchanged. */
  function Validated(items: seq<RawItem>): (segs: seq<Segment>)
    ensures AllValid(segs) && |segs| <= |items|
  {
    if items == [] then []
    else
      var segs := Validated(items[..|items| - 1]) + Kept(items[|items| - 1]);
      assert forall k :: 0 <= k < |segs| ==> ValidLabel(segs[k]) by {
        assert AllValid(Validated(items[..|items| - 1]));
      }
      segs
  }

  /** Validation works item by item: the result for a concatenation is the concatenation of the results. */
  lemma {:induction false} ValidatedAppend(a: seq<RawItem>, b: seq<RawItem>)
    ensures Validated(a + b) == Validated(a) + Validated(b)
    decreases |b|
  {
    if b == [] {
      assert a + b == a;
    } else {
      assert (a + b)[..|a + b| - 1] == a + b[..|b| - 1];
      ValidatedAppend(a, b[..|b| - 1]);
    }
  }

  /** The validation loop. */
  method ValidateSegments(items: seq<RawItem>) returns (validated: seq<Segment>)
    ensures validated == Validated(items)
  {
    validated := [];
    var i := 0;
    while i < |items|
      invariant 0 <= i <= |items|
      invariant validated == Validated(items[..i])
    {
      assert items[..i + 1][..i] == items[..i];
      var item := items[i];
      if item.Dict? && item.speaker.Some? && item.text.Some? {
        validated := validated + [Segment(NormalizeLabel(item.speaker.value), item.text.value)];
      }
      i := i + 1;
    }
    assert items[..i] == items;
  }

  /** The single segment returned when nothing usable comes back. */
  function Fallback(transcript: string): seq<Segment> {
    [Segment("caller", transcript)]
  }

  /** The segments for a decoded reply: the validated ones, or the fallback when none survive. */
  function SegmentsOf(transcript: string, decoded: Option<seq<RawItem>>): (r: seq<Segment>)
    ensures r != [] && AllValid(r)
    ensures decoded.None? ==> r == Fallback(transcript)
    ensures decoded.Some? && Validated(decoded.value) == [] ==> r == Fallback(transcript)
    ensures decoded.Some? && Validated(decoded.value) != [] ==> r == Validated(decoded.value)
  {
    match decoded
    case None => Fallback(transcript)
    case Some(items) => var v := Validated(items); if v == [] then Fallback(transcript) else v
  }

  /** The decoded reply of the model, or None when the call or the decoding fails. */
  function Decoded(p: SpeakerPrompt, call: SpeakerPrompt -> Option<string>,
                   parse: string -> Option<seq<RawItem>>): Option<seq<RawItem>> {
    match call(p)
    case None => None
    case Some(content) => parse(CleanReply(content))
  }

  /** The segments identify_speakers returns for `transcript` given the earlier segments. */
  function Identify(transcript: string, history: seq<Segment>,
                    call: SpeakerPrompt -> Option<string>, parse: string -> Option<seq<RawItem>>): (r: seq<Segment>)
    ensures r != [] && AllValid(r)
  {
    var prompt := SpeakerPrompt(PromptContext(Context(LastN(history, ContextSegments))), transcript);
    SegmentsOf(transcript, Decoded(prompt, call, parse))
  }

  /** identify_speakers: the validated segments of the reply, or the fallback. */
  method IdentifySpeakers(transcript: string, history: seq<Segment>,
                          call: SpeakerPrompt -> Option<string>, parse: string -> Option<seq<RawItem>>)
    returns (segments: seq<Segment>)
    ensures segments == Identify(transcript, history, call, parse)
  {
    var ctx := BuildHistoryContext(history);
    var prompt := SpeakerPrompt(PromptContext(ctx), transcript);
    var reply := call(prompt);
    if reply.None? {
      return Fallback(transcript);
    }
    var decoded := parse(CleanReply(reply.value));
    if decoded.None? {
      return Fallback(transcript);
    }
    var validated := ValidateSegments(decoded.value);
    segments := if validated == [] then Fallback(transcript) else validated;
  }
}
