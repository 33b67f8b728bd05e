/**
 * The active-call screen: the risk score decides the status colour tier, and a
 * test simulation raises the risk every two seconds and shows the newest five
 * simulated phrases.
 */
module ActiveCall {
  import opened Strings

  datatype Status = Safe | Warning | Danger

  /** The status derived from the risk score: under 30 safe, under 70 warning, else danger. */
  function StatusOf(risk: int): (st: Status)
    ensures st == Safe <==> risk < 30
    ensures st == Warning <==> 30 <= risk < 70
    ensures st == Danger <==> risk >= 70
  {
    if risk < 30 then Safe else if risk < 70 then Warning else Danger
  }

  /** The tier boundaries: 29 is safe, 30 and 69 warn, 70 is danger. */
  lemma StatusBoundaries()
    ensures StatusOf(29) == Safe && StatusOf(30) == Warning
    ensures StatusOf(69) == Warning && StatusOf(70) == Danger
  {
  }

  /** The highest risk the simulation reaches. */
  const SimulatedCap: int := 95
  /** How many simulated phrases stay on screen. */
  const ShownPhrases: nat := 5

  /** One simulated risk step: up by 5, capped at 95. */
  function TickRisk(prev: int): (r: int)
    ensures r <= SimulatedCap
    ensures prev <= SimulatedCap ==> prev <= r
    ensures r == prev + 5 || r == SimulatedCap
  {
    if prev + 5 < SimulatedCap then prev + 5 else SimulatedCap
  }

  /** The text of simulated phrase number n. */
  function Phrase(n: int): string {
    "Simulated voice phrase #" + IntToString(n) + " detected..."
  }

  /** One simulated transcript step: the next phrase, numbered length + 1, appended; the newest five kept. */
  function TickTranscript(prev: seq<string>): (r: seq<string>)
    ensures |r| == if |prev| < ShownPhrases then |prev| + 1 else ShownPhrases
    ensures r[|r| - 1] == Phrase(|prev| + 1)
    ensures r[..|r| - 1] == prev[|prev| - (|r| - 1)..]
  {
    var r := LastN(prev + [Phrase(|prev| + 1)], ShownPhrases);
    assert r[..|r| - 1] == (prev + [Phrase(|prev| + 1)])[|prev| + 1 - |r|..|prev|];
    r
  }

  /** The transcript after `k` ticks. */
  function TicksOf(prev: seq<string>, k: nat): seq<string> {
    if k == 0 then prev else TickTranscript(TicksOf(prev, k - 1))
  }

  /**
   * The phrase number counts the shown phrases, not the ticks: from a full
   * transcript on, every tick adds a phrase numbered 6.
   */
  lemma {:induction false} SteadyPhraseNumber(prev: seq<string>, k: nat)
    requires |prev| == ShownPhrases && k > 0
    ensures |TicksOf(prev, k)| == ShownPhrases
    ensures TicksOf(prev, k)[ShownPhrases - 1] == Phrase(6)
  {
    if k > 1 {
      SteadyPhraseNumber(prev, k - 1);
    }
  }

  /** The screen's state. */
  class CallScreen {
    var riskScore: int
    var transcript: seq<string>
    var status: Status
    var isSimulationMode: bool

    /** The simulation keeps the risk within 0..95 and at most five phrases on screen. */
    predicate Valid()
      reads this
    {
      0 <= riskScore <= SimulatedCap && |transcript| <= ShownPhrases
    }

    constructor ()
      ensures Valid()
      ensures riskScore == 0 && transcript == [] && status == Safe && !isSimulationMode
    {
      riskScore := 0;
      transcript := [];
      status := Safe;
      isSimulationMode := false;
    }

    /** The status effect, run whenever the risk changes. */
    method DeriveStatus()
      modifies this`status
      ensures status == StatusOf(riskScore)
    {
      if riskScore < 30 {
        status := Safe;
      } else if riskScore < 70 {
        status := Warning;
      } else {
        status := Danger;
      }
    }

    /** One interval tick of the simulation, which runs only in simulation mode. */
    method Tick()
      requires Valid() && isSimulationMode
      modifies this`riskScore, this`transcript
      ensures Valid()
      ensures riskScore == TickRisk(old(riskScore)) && old(riskScore) <= riskScore
      ensures transcript == TickTranscript(old(transcript))
    {
      riskScore := if riskScore + 5 < SimulatedCap then riskScore + 5 else SimulatedCap;
      transcript := LastN(transcript + [Phrase(|transcript| + 1)], ShownPhrases);
    }

    /** The simulation button: switching on clears the risk and the transcript; switching off keeps both. */
    method Toggle()
      requires Valid()
      modifies this`isSimulationMode, this`riskScore, this`transcript
      ensures Valid()
      ensures isSimulationMode == !old(isSimulationMode)
      ensures isSimulationMode ==> riskScore == 0 && transcript == []
      ensures !isSimulationMode ==> riskScore == old(riskScore) && transcript == old(transcript)
    {
      var wasOn := isSimulationMode;
      isSimulationMode := !isSimulationMode;
      if !wasOn {
        riskScore := 0;
        transcript := [];
      }
    }
  }
}
