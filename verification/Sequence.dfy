/**
 * Formatted job references: the year and the number are told back from the text. That
 * committed numbers have no gap, aborts included, is proved of all runs of the dispatch
 * protocol.
 */
module Sequence {
  import opened Decimals
  import Dispatch
  import DispatchSafety

  // ---------------------------------------------------------------- references

  function Zeros(n: nat): string {
    if n == 0 then "" else "0" + Zeros(n - 1)
  }

  function PadStart(text: string, width: nat): string {
    Zeros(if |text| < width then width - |text| else 0) + text
  }

  function FormatJobReference(year: int, value: nat): string {
    "JOB-" + (NumberText(year) + ("-" + PadStart(NatText(value), 6)))
  }

  /** The number a digit text stands for. */
  function Value(digits: string): int {
    if digits == "" then 0 else Value(digits[..|digits| - 1]) * 10 + (digits[|digits| - 1] as int - '0' as int)
  }

  lemma {:induction false} ValueOfText(n: nat)
    ensures Value(NatText(n)) == n
  {
    NatDigits(n);
    if n >= 10 {
      ValueOfText(n / 10);
      assert NatText(n)[..|NatText(n)| - 1] == NatText(n / 10);
    } else {
      assert NatText(n)[..0] == "";
    }
  }

  lemma {:induction false} LeadingZeros(n: nat, digits: string)
    ensures Value(Zeros(n) + digits) == Value(digits)
    decreases n + |digits|
  {
    if digits != "" {
      var last := |digits| - 1;
      LeadingZeros(n, digits[..last]);
      assert (Zeros(n) + digits)[..|Zeros(n) + digits| - 1] == Zeros(n) + digits[..last];
    } else if n > 0 {
      ZerosEnd(n);
      assert Zeros(n) + digits == Zeros(n - 1) + "0";
      assert (Zeros(n - 1) + "0")[..|Zeros(n - 1) + "0"| - 1] == Zeros(n - 1) == Zeros(n - 1) + "";
      LeadingZeros(n - 1, "");
    }
  }

  lemma {:induction false} ZerosEnd(n: nat)
    requires n > 0
    ensures Zeros(n) == Zeros(n - 1) + "0" && |Zeros(n)| == n
  {
    if n > 1 {
      ZerosEnd(n - 1);
    }
  }

  lemma {:induction false} ZerosAreDigits(n: nat)
    ensures forall i :: 0 <= i < |Zeros(n)| ==> Digit(Zeros(n)[i])
  {
    if n > 0 {
      ZerosAreDigits(n - 1);
    }
  }

  /** Padding is undone by reading the digits, whether or not the number fits in the width. */
  lemma PaddingReadsBack(n: nat, width: nat)
    ensures Value(PadStart(NatText(n), width)) == n
    ensures forall i :: 0 <= i < |PadStart(NatText(n), width)| ==> Digit(PadStart(NatText(n), width)[i])
  {
    var missing := if |NatText(n)| < width then width - |NatText(n)| else 0;
    LeadingZeros(missing, NatText(n));
    ValueOfText(n);
    NatDigits(n);
    ZerosAreDigits(missing);
  }

  predicate AllDigits(text: string) {
    forall i :: 0 <= i < |text| ==> Digit(text[i])
  }

  /** A reference is JOB, the year and the number, the number in six digits or more and readable as it is. */
  lemma ReferenceReads(year: int, value: nat) returns (digits: string)
    ensures FormatJobReference(year, value) == "JOB-" + NumberText(year) + "-" + digits
    ensures AllDigits(digits) && Value(digits) == value && |digits| >= 6
    ensures value < 1_000_000 ==> |digits| == 6
    ensures year >= 0 ==> AllDigits(NumberText(year)) && Value(NumberText(year)) == year
  {
    digits := PadStart(NatText(value), 6);
    PaddingReadsBack(value, 6);
    ShortNumbers(value);
    Regroup("JOB-", NumberText(year), "-" + digits);
    assert "JOB-" + NumberText(year) + "-" + digits == "JOB-" + NumberText(year) + ("-" + digits);
    var missing := if |NatText(value)| < 6 then 6 - |NatText(value)| else 0;
    if missing > 0 {
      ZerosEnd(missing);
    }
    if year >= 0 {
      ValueOfText(year);
      NatDigits(year);
    }
  }

  lemma ShortNumbers(n: nat)
    ensures n < 1_000_000 ==> |NatText(n)| <= 6
  {
    if n < 1_000_000 {
      assert n / 10 < 100_000;
      assert n / 10 / 10 < 10_000;
      assert n / 10 / 10 / 10 < 1_000;
      assert n / 10 / 10 / 10 / 10 < 100;
      assert n / 10 / 10 / 10 / 10 / 10 < 10;
      OneDigitMore(n);
      OneDigitMore(n / 10);
      OneDigitMore(n / 10 / 10);
      OneDigitMore(n / 10 / 10 / 10);
      OneDigitMore(n / 10 / 10 / 10 / 10);
      OneDigitMore(n / 10 / 10 / 10 / 10 / 10);
    }
  }

  lemma OneDigitMore(n: nat)
    ensures |NatText(n)| == if n < 10 then 1 else |NatText(n / 10)| + 1
  {
  }

  predicate DashFromEnd(text: string, k: nat) {
    k < |text| && text[|text| - 1 - k] == '-'
  }

  /** Digits after a dash: the dash is the first one met from the end. */
  lemma DashMet(p: string, x: string)
    requires AllDigits(x)
    ensures DashFromEnd(p + ("-" + x), |x|)
    ensures forall k :: 0 <= k < |x| ==> !DashFromEnd(p + ("-" + x), k)
  {
    var text := p + ("-" + x);
    forall k | 0 <= k < |x|
      ensures !DashFromEnd(text, k)
    {
      assert text[|text| - 1 - k] == x[|x| - 1 - k];
    }
  }

  /** What follows the last dash is as long in both texts. */
  lemma LastDash(p: string, x: string, q: string, y: string)
    requires AllDigits(x) && AllDigits(y) && p + ("-" + x) == q + ("-" + y)
    ensures |x| == |y|
  {
    DashMet(p, x);
    DashMet(q, y);
  }

  /** A reference determines its year and its number. */
  lemma ReferenceIsUnique(year: int, value: nat, otherYear: int, otherValue: nat)
    requires FormatJobReference(year, value) == FormatJobReference(otherYear, otherValue)
    ensures value == otherValue && year == otherYear
  {
    var x, y := PadStart(NatText(value), 6), PadStart(NatText(otherValue), 6);
    PaddingReadsBack(value, 6);
    PaddingReadsBack(otherValue, 6);
    var p, q := "JOB-" + NumberText(year), "JOB-" + NumberText(otherYear);
    Regroup("JOB-", NumberText(year), "-" + x);
    Regroup("JOB-", NumberText(otherYear), "-" + y);
    LastDash(p, x, q, y);
    Split(p, "-" + x, q, "-" + y);
    Split("-", x, "-", y);
    Split("JOB-", NumberText(year), "JOB-", NumberText(otherYear));
    YearsDiffer(year, otherYear);
  }

  lemma YearsDiffer(year: int, otherYear: int)
    requires NumberText(year) == NumberText(otherYear)
    ensures year == otherYear
  {
    if year >= 0 { NatDigits(year); }
    if otherYear >= 0 { NatDigits(otherYear); }
    assert NumberText(year)[0] == NumberText(otherYear)[0];
    if year < 0 {
      Split("-", NatText(-year), "-", NatText(-otherYear));
      NatInjective(-year, -otherYear);
    } else {
      NatInjective(year, otherYear);
    }
  }

  /** In every run of the protocol the committed jobs' references are pairwise distinct, whatever their years. */
  lemma ReferencesAreDistinct(start: Dispatch.State, actions: seq<Dispatch.Action>, j: nat, k: nat)
    requires Dispatch.Initial(start) && j != k
    requires j in Dispatch.After(start, actions).db.jobs && k in Dispatch.After(start, actions).db.jobs
    ensures var jobs := Dispatch.After(start, actions).db.jobs;
            FormatJobReference(jobs[j].year, jobs[j].number) != FormatJobReference(jobs[k].year, jobs[k].number)
  {
    var jobs := Dispatch.After(start, actions).db.jobs;
    DispatchSafety.NumbersAreGapless(start, actions);
    if FormatJobReference(jobs[j].year, jobs[j].number) == FormatJobReference(jobs[k].year, jobs[k].number) {
      ReferenceIsUnique(jobs[j].year, jobs[j].number, jobs[k].year, jobs[k].number);
    }
  }
}
