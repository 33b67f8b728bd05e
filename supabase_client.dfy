/**
 * The suspicious-number table: one row per reported phone number holding how
 * often it has been reported. The table is a map from number to count; the
 * database failing at any step is the parameter `dbFails`.
 */
module SuspiciousNumbers {

  /** The table after one successful report of `phone`: its count goes up by one, or starts at 1. */
  function Reported(counts: map<string, int>, phone: string): (r: map<string, int>)
    ensures phone in r && r[phone] == (if phone in counts then counts[phone] + 1 else 1)
    ensures r.Keys == counts.Keys + {phone}
    ensures forall p :: p in counts && p != phone ==> r[p] == counts[p]
  {
    counts[phone := if phone in counts then counts[phone] + 1 else 1]
  }

  function CountOf(counts: map<string, int>, phone: string): int {
    if phone in counts then counts[phone] else 0
  }

  /** How often `phone` occurs in `phones`. */
  function Occurrences(phones: seq<string>, phone: string): nat {
    if phones == [] then 0
    else Occurrences(phones[..|phones| - 1], phone) + (if phones[|phones| - 1] == phone then 1 else 0)
  }

  /** The table after successful reports of each number of `phones` in turn (empty numbers are refused). */
  function ReportAll(counts: map<string, int>, phones: seq<string>): map<string, int> {
    if phones == [] then counts
    else
      var before := ReportAll(counts, phones[..|phones| - 1]);
      var phone := phones[|phones| - 1];
      if phone == "" then before else Reported(before, phone)
  }

  /**
   * After a run of successful reports, a number's count is its earlier count
   * (0 when absent) plus the number of times it was reported: no report is lost
   * or counted twice.
   */
  lemma {:induction false} ReportAllCounts(counts: map<string, int>, phones: seq<string>, phone: string)
    requires phone != ""
    ensures CountOf(ReportAll(counts, phones), phone) == CountOf(counts, phone) + Occurrences(phones, phone)
    decreases |phones|
  {
    if phones != [] {
      ReportAllCounts(counts, phones[..|phones| - 1], phone);
    }
  }

  class SuspiciousNumberTable {
    var reportCounts: map<string, int>

    constructor (counts: map<string, int>)
      ensures reportCounts == counts
    {
      reportCounts := counts;
    }

    /**
     * report_suspicious_number: an empty number or a database failure returns
     * false and leaves the table as it was; otherwise only that number's row
     * changes, as Reported says, and the result is true.
     */
    method ReportSuspiciousNumber(phone: string, dbFails: bool) returns (ok: bool)
      modifies this`reportCounts
      ensures ok <==> phone != "" && !dbFails
      ensures ok ==> reportCounts == Reported(old(reportCounts), phone)
      ensures !ok ==> reportCounts == old(reportCounts)
    {
      if phone == "" {
        return false;
      }
      if dbFails {
        return false;
      }
      if phone in reportCounts {
        var current := reportCounts[phone];
        reportCounts := reportCounts[phone := current + 1];
      } else {
        reportCounts := reportCounts[phone := 1];
      }
      ok := true;
    }
  }
}
