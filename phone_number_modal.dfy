/**
 * The caller-number dialog: a number is accepted when, with spaces, dashes,
 * brackets and dots removed, it has at least ten characters and reads as an
 * optional '+' followed by digits. Accepted numbers are handed on trimmed.
 */
module PhoneNumberModal {
  import opened Strings

  /** The characters removed before validation: JavaScript whitespace, '-', '(', ')' and '.'. */
  predicate Separator(c: char) {
    IsSpace(c, JavaScript) || c == '-' || c == '(' || c == ')' || c == '.'
  }

  /** phone.replace(/[\s\-\(\)\.]/g, ''). */
  function Cleaned(phone: string): (r: string)
    ensures |r| <= |phone|
    ensures forall i :: 0 <= i < |r| ==> !Separator(r[i])
  {
    if phone == [] then []
    else if Separator(phone[0]) then Cleaned(phone[1..])
    else [phone[0]] + Cleaned(phone[1..])
  }

  /** Removing separators works piece by piece. */
  lemma {:induction false} CleanedAppend(a: string, b: string)
    ensures Cleaned(a + b) == Cleaned(a) + Cleaned(b)
    decreases |a|
  {
    if a == [] {
      assert a + b == b;
    } else {
      assert (a + b)[1..] == a[1..] + b;
      CleanedAppend(a[1..], b);
    }
  }

  predicate AllDigits(s: string) {
    forall i :: 0 <= i < |s| ==> IsDigit(s[i])
  }

  /** /^\+?\d+$/: an optional '+' and then one or more digits. */
  predicate PlusDigits(s: string) {
    if s != [] && s[0] == '+' then |s| >= 2 && AllDigits(s[1..]) else s != [] && AllDigits(s)
  }

  /** isValidPhone. */
  predicate IsValidPhone(phone: string) {
    |Cleaned(phone)| >= 10 && PlusDigits(Cleaned(phone))
  }

  /** The number of digits in `s`. */
  function DigitCount(s: string): nat {
    if s == [] then 0 else (if IsDigit(s[0]) then 1 else 0) + DigitCount(s[1..])
  }

  lemma {:induction false} DigitCountAll(s: string)
    requires AllDigits(s)
    ensures DigitCount(s) == |s|
  {
    if s != [] {
      DigitCountAll(s[1..]);
    }
  }

  lemma {:induction false} DigitCountCleaned(s: string)
    ensures DigitCount(Cleaned(s)) == DigitCount(s)
  {
    if s != [] {
      DigitCountCleaned(s[1..]);
    }
  }

  /** A number without separators is its own cleaned form. */
  lemma {:induction false} CleanedKeeps(s: string)
    requires forall i :: 0 <= i < |s| ==> !Separator(s[i])
    ensures Cleaned(s) == s
  {
    if s != [] {
      CleanedKeeps(s[1..]);
    }
  }

  /** The '+' counts towards the ten characters: a valid number may hold as few as nine digits. */
  lemma ValidHasNineDigits(phone: string)
    requires IsValidPhone(phone)
    ensures DigitCount(phone) >= 9
  {
    var c := Cleaned(phone);
    DigitCountCleaned(phone);
    if c[0] == '+' {
      DigitCountAll(c[1..]);
      assert c == [c[0]] + c[1..];
    } else {
      DigitCountAll(c);
    }
  }

  /** '+' followed by nine or more digits is accepted. */
  lemma PlusNineDigitsValid(digits: string)
    requires |digits| >= 9 && AllDigits(digits)
    ensures IsValidPhone("+" + digits)
  {
    var p := "+" + digits;
    assert p[1..] == digits;
    assert forall i :: 1 <= i < |p| ==> p[i] == digits[i - 1];
    CleanedKeeps(p);
  }

  /** Inserting or deleting one separator anywhere never changes validity. */
  lemma SeparatorIrrelevant(a: string, c: char, b: string)
    requires Separator(c)
    ensures IsValidPhone(a + [c] + b) == IsValidPhone(a + b)
  {
    CleanedAppend(a, [c] + b);
    assert a + [c] + b == a + ([c] + b);
    CleanedAppend(a, b);
    assert ([c] + b)[1..] == b;
  }

  /** Trimming removes only separators, so the cleaned number is the same. */
  lemma CleanedTrim(phone: string)
    ensures Cleaned(Trim(phone, JavaScript)) == Cleaned(phone)
  {
    var a, r := LeadingSpace(phone, JavaScript), Trim(phone, JavaScript);
    var b := a + |r|;
    TrimTailSpace(phone, JavaScript);
    SplitThree(phone, a, b);
    BlankRun(phone, 0, a);
    BlankRun(phone, b, |phone|);
    CleanedAroundBlank(phone[0..a], r, phone[b..|phone|]);
  }

  lemma SplitThree(s: string, i: nat, j: nat)
    requires i <= j <= |s|
    ensures s == s[0..i] + s[i..j] + s[j..|s|]
  {
  }

  /** A stretch of whitespace is whitespace-only text. */
  lemma BlankRun(s: string, lo: nat, hi: nat)
    requires lo <= hi <= |s|
    requires forall i :: lo <= i < hi ==> IsSpace(s[i], JavaScript)
    ensures AllSpace(s[lo..hi], JavaScript)
  {
    assert forall i :: 0 <= i < hi - lo ==> s[lo..hi][i] == s[lo + i];
  }

  /** Whitespace on either side cleans away. */
  lemma CleanedAroundBlank(lead: string, r: string, tail: string)
    requires AllSpace(lead, JavaScript) && AllSpace(tail, JavaScript)
    ensures Cleaned(lead + r + tail) == Cleaned(r)
  {
    assert lead + r + tail == lead + (r + tail);
    CleanedAppend(lead, r + tail);
    CleanedAppend(r, tail);
    BlankCleansAway(lead);
    BlankCleansAway(tail);
  }

  /** Trimming the number keeps its validity. */
  lemma TrimKeepsValidity(phone: string)
    ensures IsValidPhone(Trim(phone, JavaScript)) == IsValidPhone(phone)
  {
    CleanedTrim(phone);
  }

  lemma {:induction false} BlankCleansAway(s: string)
    requires AllSpace(s, JavaScript)
    ensures Cleaned(s) == []
  {
    if s != [] {
      BlankCleansAway(s[1..]);
    }
  }

  const EmptyError: string := "Please enter a phone number"
  const InvalidError: string := "Please enter a valid phone number"

  /** The dialog's state, with the numbers handed to onSubmit so far. */
  class PhoneDialog {
    var phoneNumber: string
    var error: string
    var submitted: seq<string>

    /** Only valid numbers are ever handed on. */
    predicate Valid()
      reads this
    {
      forall k :: 0 <= k < |submitted| ==> IsValidPhone(submitted[k])
    }

    constructor ()
      ensures Valid()
      ensures phoneNumber == "" && error == "" && submitted == []
    {
      phoneNumber := "";
      error := "";
      submitted := [];
    }

    /** The input's onChange: the new text, and any error cleared. */
    method Change(value: string)
      modifies this`phoneNumber, this`error
      ensures phoneNumber == value && error == ""
    {
      phoneNumber := value;
      error := "";
    }

    /**
     * handleSubmit: a blank number and an invalid number each set their error;
     * otherwise the error is cleared and the trimmed number handed on.
     */
    method HandleSubmit()
      requires Valid()
      modifies this`error, this`submitted
      ensures Valid()
      ensures AllSpace(phoneNumber, JavaScript) ==> error == EmptyError && submitted == old(submitted)
      ensures !AllSpace(phoneNumber, JavaScript) && !IsValidPhone(phoneNumber) ==>
        error == InvalidError && submitted == old(submitted)
      ensures !AllSpace(phoneNumber, JavaScript) && IsValidPhone(phoneNumber) ==>
        error == "" && submitted == old(submitted) + [Trim(phoneNumber, JavaScript)]
    {
      if Trim(phoneNumber, JavaScript) == "" {
        error := EmptyError;
        return;
      }
      if !IsValidPhone(phoneNumber) {
        error := InvalidError;
        return;
      }
      error := "";
      TrimKeepsValidity(phoneNumber);
      submitted := submitted + [Trim(phoneNumber, JavaScript)];
    }

    /** handleKeyDown: Enter submits, but only a valid number, so it never shows an error. */
    method HandleKeyDown(key: string)
      requires Valid()
      modifies this`error, this`submitted
      ensures Valid()
      ensures key == "Enter" && IsValidPhone(phoneNumber) ==>
        error == "" && submitted == old(submitted) + [Trim(phoneNumber, JavaScript)]
      ensures !(key == "Enter" && IsValidPhone(phoneNumber)) ==>
        error == old(error) && submitted == old(submitted)
    {
      if key == "Enter" && IsValidPhone(phoneNumber) {
        assert !AllSpace(phoneNumber, JavaScript) by {
          TrimKeepsValidity(phoneNumber);
        }
        HandleSubmit();
      }
    }
  }
}
