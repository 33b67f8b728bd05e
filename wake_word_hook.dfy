/**
 * The browser's wake-phrase detector: recognised speech is normalised and
 * compared with the wake phrase and a few fixed variants; a small state machine
 * keeps the recogniser listening, restarting it after it ends unless stopped.
 */
module WakeWordHook {
  import opened Strings

  const DefaultWakePhrase: string := "kova activate"

  /** The punctuation the normaliser deletes: . , ! ? ; : ' and the double quote. */
  predicate IsPunct(c: char) {
    c == '.' || c == ',' || c == '!' || c == '?' || c == ';' || c == ':' || c == '\'' || c == '"'
  }

  predicate NoUpper(s: string) {
    forall i :: 0 <= i < |s| ==> !IsUpperAscii(s[i])
  }

  predicate NoPunct(s: string) {
    forall i :: 0 <= i < |s| ==> !IsPunct(s[i])
  }

  /** Deletes every punctuation character, keeping the rest in order. */
  function StripPunct(s: string): (r: string)
    ensures |r| <= |s|
    ensures NoPunct(r)
    ensures NoUpper(s) ==> NoUpper(r)
  {
    if s == [] then []
    else
      var rest := StripPunct(s[1..]);
      if IsPunct(s[0]) then rest else [s[0]] + rest
  }

  /** Replaces every maximal run of whitespace with one blank: replace(/\s+/g, ' '). */
  function Collapse(s: string): (r: string)
    ensures r == [] <==> s == []
    ensures s != [] && IsSpace(s[0], JavaScript) ==> r[0] == ' '
    ensures s != [] && !IsSpace(s[0], JavaScript) ==> r[0] == s[0]
    decreases |s|
  {
    if s == [] then []
    else if IsSpace(s[0], JavaScript) then [' '] + Collapse(TrimStart(s[1..], JavaScript))
    else [s[0]] + Collapse(s[1..])
  }

  /** A character normalised text may hold: not upper-case, not punctuation, no whitespace but the blank. */
  predicate CleanChar(c: char) {
    !IsUpperAscii(c) && !IsPunct(c) && (IsSpace(c, JavaScript) ==> c == ' ')
  }

  predicate AllClean(s: string) {
    forall i :: 0 <= i < |s| ==> CleanChar(s[i])
  }

  /** A suffix keeps a string's freedom from upper case and punctuation. */
  lemma SuffixClean(s: string, k: nat)
    requires k <= |s| && NoUpper(s) && NoPunct(s)
    ensures NoUpper(s[k..]) && NoPunct(s[k..])
  {
    assert forall i :: 0 <= i < |s| - k ==> s[k..][i] == s[k + i];
  }

  lemma ConsClean(c: char, x: string)
    requires CleanChar(c) && AllClean(x)
    ensures AllClean([c] + x)
  {
    assert forall i :: 1 <= i < |x| + 1 ==> ([c] + x)[i] == x[i - 1];
  }

  /** Collapsing introduces only blanks: no upper case or punctuation appears, and no other whitespace survives. */
  lemma {:induction false} CollapseClean(s: string)
    requires NoUpper(s) && NoPunct(s)
    ensures AllClean(Collapse(s))
    decreases |s|
  {
    if s != [] {
      if IsSpace(s[0], JavaScript) {
        var t := TrimStart(s[1..], JavaScript);
        SuffixClean(s, |s| - |t|);
        assert t == s[|s| - |t|..];
        CollapseClean(t);
        ConsClean(' ', Collapse(t));
      } else {
        SuffixClean(s, 1);
        CollapseClean(s[1..]);
        ConsClean(s[0], Collapse(s[1..]));
      }
    }
  }

  /** Collapsing never leaves two blanks in a row. */
  lemma {:induction false} CollapseNoDouble(s: string)
    ensures NoDoubleSpace(Collapse(s))
    decreases |s|
  {
    if s != [] {
      var r := Collapse(s);
      if IsSpace(s[0], JavaScript) {
        var t := TrimStart(s[1..], JavaScript);
        CollapseNoDouble(t);
        assert r == [' '] + Collapse(t);
        forall i | 0 <= i && i + 1 < |r| ensures !(r[i] == ' ' && r[i + 1] == ' ') {
          if i > 0 {
            assert r[i] == Collapse(t)[i - 1] && r[i + 1] == Collapse(t)[i];
          }
        }
      } else {
        CollapseNoDouble(s[1..]);
        assert r == [s[0]] + Collapse(s[1..]);
        forall i | 0 <= i && i + 1 < |r| ensures !(r[i] == ' ' && r[i + 1] == ' ') {
          if i > 0 {
            assert r[i] == Collapse(s[1..])[i - 1] && r[i + 1] == Collapse(s[1..])[i];
          }
        }
      }
    }
  }

  /** No two blanks in a row. */
  predicate NoDoubleSpace(s: string) {
    forall i :: 0 <= i && i + 1 < |s| ==> !(s[i] == ' ' && s[i + 1] == ' ')
  }

  /** The shape of normalised text: clean characters, single blanks, none at either end. */
  predicate Normalized(s: string) {
    && AllClean(s)
    && NoDoubleSpace(s)
    && (s != [] ==> s[0] != ' ' && s[|s| - 1] != ' ')
  }

  /** normalizeText: lower-case, drop punctuation, collapse whitespace runs, trim. */
  function NormalizeText(text: string): string {
    Trim(Collapse(StripPunct(Lower(text))), JavaScript)
  }

  /** A slice of clean, single-blank text is clean and single-blank too. */
  lemma SliceShape(x: string, k: nat, n: nat)
    requires k + n <= |x| && AllClean(x) && NoDoubleSpace(x)
    ensures AllClean(x[k..k + n]) && NoDoubleSpace(x[k..k + n])
  {
    var y := x[k..k + n];
    assert forall i :: 0 <= i < n ==> y[i] == x[k + i];
  }

  /** Trimming clean, single-blank text leaves it normalised. */
  lemma TrimShape(c: string)
    requires AllClean(c) && NoDoubleSpace(c)
    ensures Normalized(Trim(c, JavaScript))
  {
    TrimTailSpace(c, JavaScript);
    SliceShape(c, LeadingSpace(c, JavaScript), |Trim(c, JavaScript)|);
  }

  /**
   * Normalised text is lower-case, free of the deleted punctuation, has no
   * whitespace but single blanks, and neither starts nor ends with one.
   */
  lemma NormalizeTextShape(text: string)
    ensures Normalized(NormalizeText(text))
  {
    var p := StripPunct(Lower(text));
    CollapseClean(p);
    CollapseNoDouble(p);
    TrimShape(Collapse(p));
  }

  lemma {:induction false} StripPunctKeeps(s: string)
    requires NoPunct(s)
    ensures StripPunct(s) == s
    decreases |s|
  {
    if s != [] {
      StripPunctKeeps(s[1..]);
    }
  }

  lemma {:induction false} CollapseKeeps(s: string)
    requires AllClean(s) && NoDoubleSpace(s)
    ensures Collapse(s) == s
    decreases |s|
  {
    if s != [] {
      SliceShape(s, 1, |s| - 1);
      assert s[1..|s|] == s[1..];
      CollapseKeeps(s[1..]);
      if IsSpace(s[0], JavaScript) {
        assert s[1..] == [] || !IsSpace(s[1], JavaScript);
        assert TrimStart(s[1..], JavaScript) == s[1..];
      }
    }
  }

  /** Normalised text is left as it is. */
  lemma NormalizeTextKeeps(s: string)
    requires Normalized(s)
    ensures NormalizeText(s) == s
  {
    assert Lower(s) == s;
    StripPunctKeeps(s);
    CollapseKeeps(s);
    if s != [] {
      assert LeadingSpace(s, JavaScript) == 0;
      assert TrailingSpace(s, JavaScript) == 0;
    }
  }

  /** normalizeText is idempotent. */
  lemma NormalizeTextIdempotent(text: string)
    ensures NormalizeText(NormalizeText(text)) == NormalizeText(text)
  {
    NormalizeTextShape(text);
    NormalizeTextKeeps(NormalizeText(text));
  }

  /** The variations tried besides the configured phrase, whatever that phrase is. */
  const FixedVariants: seq<string> :=
    ["kova activate", "cova activate", "koba activate", "nova activate", "ko va activate"]

  /** The test on normalised text: the direct test, then the variations (the configured phrase first). */
  predicate MatchNormalized(n: string, w: string) {
    Contains(n, w) || ContainsAny(n, [w] + FixedVariants)
  }

  /** containsWakePhrase: the test on the normalised transcript and phrase. */
  predicate ContainsWakePhrase(transcript: string, wakePhrase: string) {
    MatchNormalized(NormalizeText(transcript), NormalizeText(wakePhrase))
  }

  /**
   * Normalised text matches exactly when it contains the phrase or one of the
   * fixed variants: the first variation only repeats the direct test.
   */
  lemma MatchNormalizedCases(n: string, w: string)
    ensures MatchNormalized(n, w) <==> Contains(n, w) || ContainsAny(n, FixedVariants)
  {
    var vs := [w] + FixedVariants;
    if ContainsAny(n, vs) && !Contains(n, w) {
      var k :| 0 <= k < |vs| && Contains(n, vs[k]);
      assert Contains(n, FixedVariants[k - 1]);
    }
    if ContainsAny(n, FixedVariants) {
      var k :| 0 <= k < |FixedVariants| && Contains(n, FixedVariants[k]);
      assert Contains(n, vs[k + 1]);
    }
  }

  /** A phrase that normalises to nothing matches every (normalised) transcript. */
  lemma EmptyPhraseMatchesAll(n: string)
    ensures MatchNormalized(n, "")
  {
    assert "" <= n[0..];
  }

  /** Normalising the transcript or the phrase beforehand changes no answer. */
  lemma MatchIgnoresNormalizing(transcript: string, wakePhrase: string)
    ensures ContainsWakePhrase(NormalizeText(transcript), wakePhrase) == ContainsWakePhrase(transcript, wakePhrase)
    ensures ContainsWakePhrase(transcript, NormalizeText(wakePhrase)) == ContainsWakePhrase(transcript, wakePhrase)
  {
    NormalizeTextIdempotent(transcript);
    NormalizeTextIdempotent(wakePhrase);
  }

  /** Whether one of the results at indexes lo to hi - 1 satisfies `matches`. */
  predicate WakeBetween(results: seq<string>, lo: nat, hi: nat, matches: string -> bool)
    requires hi <= |results|
    decreases hi
  {
    lo < hi && (WakeBetween(results, lo, hi - 1, matches) || matches(results[hi - 1]))
  }

  /** WakeBetween is the bounded existential it stands for. */
  lemma {:induction false} WakeBetweenExists(results: seq<string>, lo: nat, hi: nat, matches: string -> bool)
    requires hi <= |results|
    ensures WakeBetween(results, lo, hi, matches) <==> exists i :: lo <= i < hi && matches(results[i])
    decreases hi
  {
    if lo < hi {
      WakeBetweenExists(results, lo, hi - 1, matches);
    }
  }

  /** Whether a result from index `lo` on satisfies `matches`. */
  predicate AnyWake(results: seq<string>, lo: nat, matches: string -> bool) {
    lo < |results| && WakeBetween(results, lo, |results|, matches)
  }

  const NotSupported: string := "Speech recognition is not supported in this browser"
  const PermissionDenied: string := "Microphone permission denied"

  /**
   * The hook's state: the React state (listening, activated, error), the two
   * refs (should-listen, restarting), whether a recogniser exists, and counters
   * for the recogniser's start and stop calls, onActivate calls and pending
   * restart timers.
   */
  class WakeWordDetector {
    const wakePhrase: string
    /** The containsWakePhrase callback the recogniser's handler closes over. */
    const matches: string -> bool
    const autoStart: bool
    const supported: bool
    var isListening: bool
    var isActivated: bool
    var error: Option<string>
    var shouldListen: bool
    var isRestarting: bool
    var hasRecognition: bool
    var startCalls: nat
    var stopCalls: nat
    var activations: nat
    var pendingTimers: nat

    /** At most one restart timer is pending, exactly while the restarting flag is set. */
    predicate Valid()
      reads this
    {
      pendingTimers <= 1 && (isRestarting <==> pendingTimers == 1)
    }

    /** The hook's initial state; the wake phrase defaults to "kova activate" and autoStart to true. */
    constructor (wakePhrase: string, autoStart: bool, supported: bool)
      ensures Valid()
      ensures this.wakePhrase == wakePhrase && this.autoStart == autoStart && this.supported == supported
      ensures forall t :: matches(t) == ContainsWakePhrase(t, wakePhrase)
      ensures !isListening && !isActivated && error == None && shouldListen == autoStart
      ensures !isRestarting && !hasRecognition
      ensures startCalls == 0 && stopCalls == 0 && activations == 0 && pendingTimers == 0
    {
      this.wakePhrase := wakePhrase;
      matches := t => ContainsWakePhrase(t, wakePhrase);
      this.autoStart := autoStart;
      this.supported := supported;
      isListening := false;
      isActivated := false;
      error := None;
      shouldListen := autoStart;
      isRestarting := false;
      hasRecognition := false;
      startCalls := 0;
      stopCalls := 0;
      activations := 0;
      pendingTimers := 0;
    }

    /** onstart: listening, and any error cleared. */
    method OnStart()
      modifies this`isListening, this`error
      ensures isListening && error == None
    {
      isListening := true;
      error := None;
    }

    /**
     * onresult: scans the results from `resultIndex`; the first one holding the
     * wake phrase sets the activated flag, stops the recogniser and calls
     * onActivate, once; without a match nothing changes.
     */
    method OnResult(results: seq<string>, resultIndex: nat)
      modifies this`isActivated, this`stopCalls, this`activations
      ensures AnyWake(results, resultIndex, matches) ==>
        isActivated && stopCalls == old(stopCalls) + 1 && activations == old(activations) + 1
      ensures !AnyWake(results, resultIndex, matches) ==>
        isActivated == old(isActivated) && stopCalls == old(stopCalls) && activations == old(activations)
    {
      if resultIndex >= |results| {
        return;
      }
      var i := resultIndex;
      while i < |results|
        invariant resultIndex <= i <= |results|
        invariant !WakeBetween(results, resultIndex, i, matches)
      {
        if matches(results[i]) {
          WakeBetweenExists(results, resultIndex, |results|, matches);
          isActivated := true;
          stopCalls := stopCalls + 1;
          activations := activations + 1;
          return;
        }
        i := i + 1;
      }
    }

    /**
     * onerror: "no-speech" and "aborted" change nothing; "not-allowed" records
     * the permission error and clears should-listen, so no restart follows;
     * any other error is recorded with its code. Listening stops in both.
     */
    method OnError(code: string)
      modifies this`error, this`shouldListen, this`isListening
      ensures code == "no-speech" || code == "aborted" ==>
        error == old(error) && shouldListen == old(shouldListen) && isListening == old(isListening)
      ensures code == "not-allowed" ==> error == Some(PermissionDenied) && !shouldListen && !isListening
      ensures code !in {"no-speech", "aborted", "not-allowed"} ==>
        error == Some("Speech recognition error: " + code) && shouldListen == old(shouldListen) && !isListening
    {
      if code == "no-speech" || code == "aborted" {
        return;
      }
      if code == "not-allowed" {
        error := Some(PermissionDenied);
        shouldListen := false;
      } else {
        error := Some("Speech recognition error: " + code);
      }
      isListening := false;
    }

    /**
     * onend: listening stops; a restart timer is scheduled only while the hook
     * should listen and none is pending.
     */
    method OnEnd()
      requires Valid()
      modifies this`isListening, this`isRestarting, this`pendingTimers
      ensures Valid()
      ensures !isListening
      ensures old(shouldListen) && !old(isRestarting) ==> isRestarting && pendingTimers == old(pendingTimers) + 1
      ensures !(old(shouldListen) && !old(isRestarting)) ==>
        isRestarting == old(isRestarting) && pendingTimers == old(pendingTimers)
    {
      isListening := false;
      if shouldListen && !isRestarting {
        isRestarting := true;
        pendingTimers := pendingTimers + 1;
      }
    }

    /**
     * The restart timer firing 100 ms later: the recogniser is started again
     * only if the hook should still listen, and the restarting flag is cleared.
     */
    method RestartTimerFires()
      requires Valid() && pendingTimers > 0
      modifies this`startCalls, this`isRestarting, this`pendingTimers
      ensures Valid()
      ensures !isRestarting && pendingTimers == 0
      ensures startCalls == old(startCalls) + (if shouldListen && hasRecognition then 1 else 0)
    {
      if shouldListen && hasRecognition {
        startCalls := startCalls + 1;
      }
      isRestarting := false;
      pendingTimers := pendingTimers - 1;
    }

    /**
     * start: unsupported browsers only get the error; otherwise the hook should
     * listen, is not activated, has no error, has a recogniser, and starts it.
     */
    method Start()
      modifies this`error, this`shouldListen, this`isActivated, this`hasRecognition, this`startCalls
      ensures !supported ==> (error == Some(NotSupported) && shouldListen == old(shouldListen)
        && isActivated == old(isActivated) && hasRecognition == old(hasRecognition) && startCalls == old(startCalls))
      ensures supported ==> (shouldListen && !isActivated && error == None && hasRecognition
        && startCalls == old(startCalls) + 1)
    {
      if !supported {
        error := Some(NotSupported);
        return;
      }
      shouldListen := true;
      isActivated := false;
      error := None;
      if !hasRecognition {
        hasRecognition := true;
      }
      startCalls := startCalls + 1;
    }

    /** stop: the hook no longer should listen, the recogniser (if any) is stopped, listening is off. */
    method Stop()
      modifies this`shouldListen, this`stopCalls, this`isListening
      ensures !shouldListen && !isListening
      ensures stopCalls == old(stopCalls) + (if hasRecognition then 1 else 0)
    {
      shouldListen := false;
      if hasRecognition {
        stopCalls := stopCalls + 1;
      }
      isListening := false;
    }

    /** The mount effect: with autoStart on a supported browser, a recogniser is made and started. */
    method Mount()
      modifies this`error, this`shouldListen, this`isActivated, this`hasRecognition, this`startCalls
      ensures autoStart && supported ==> (shouldListen && !isActivated && error == None && hasRecognition
        && startCalls == old(startCalls) + 1)
      ensures !(autoStart && supported) ==> (error == old(error) && shouldListen == old(shouldListen)
        && isActivated == old(isActivated) && hasRecognition == old(hasRecognition) && startCalls == old(startCalls))
    {
      if autoStart && supported {
        hasRecognition := true;
        Start();
      }
    }

    /** The effect's clean-up: the hook no longer should listen and the recogniser is dropped. */
    method Unmount()
      modifies this`shouldListen, this`hasRecognition
      ensures !shouldListen && !hasRecognition
    {
      shouldListen := false;
      hasRecognition := false;
    }
  }
}
