/**
 * The billing-code search of the DKPTKA extractor
 * (`extract_billing_code_advanced`, extractors.py:445-469): four patterns
 * are searched in order and the first capture of twelve or more digits is
 * the code; when none yields one, the lines are scanned in order for a
 * free-standing number of twelve or more digits.
 */
module Billing {
  import opened Wrappers
  import opened Text
  import opened Scan

  /** `(?:Kode\s+Billing|Billing\s+Code|Code\s+Billing)[^\d]*(\d{12,})`, case folded. */
  const LabelledCode :=
    Field([Words(["Kode", "Billing"]), Words(["Billing", "Code"]), Words(["Code", "Billing"])], NonDigits,
          Run(IsDigit, 12), true)

  /** `(?:pembayaran\s+DKPTKA)[^\d]*(\d{12,})`, case folded. */
  const PaymentCode := Field([Words(["pembayaran", "DKPTKA"])], NonDigits, Run(IsDigit, 12), true)

  /** `(?:kode\s+pembayaran)[^\d]*(\d{12,})`, case folded. */
  const PaymentCodeLabel := Field([Words(["kode", "pembayaran"])], NonDigits, Run(IsDigit, 12), true)

  /** `(\d{15,})`: a very long number anywhere. */
  const LongNumber := Bare(Run(IsDigit, 15), true)

  const CodePatterns := [LabelledCode, PaymentCode, PaymentCodeLabel, LongNumber]

  /** `len(code) >= 12 and code.isdigit()`. */
  predicate Acceptable(code: string) {
    |code| >= 12 && AllDigits(code)
  }

  /** The capture of the first pattern whose search yields an acceptable code. */
  function FirstCode(text: string, pats: seq<Pattern>): (r: Option<string>)
    ensures r.Some? ==> Acceptable(r.value)
    ensures r.Some? ==> exists i :: 0 <= i < |pats| && Capture(text, pats[i]) == r
    decreases |pats|
  {
    if pats == [] then None
    else
      var c := Capture(text, pats[0]);
      if c.Some? && Acceptable(c.value) then c
      else
        var r := FirstCode(text, pats[1..]);
        assert forall j :: 1 <= j < |pats| ==> pats[1..][j - 1] == pats[j];
        r
  }

  /** `re.findall(r'\b\d{12,}\b', line)`'s first element, for the first line that has one. */
  function LineCode(lines: seq<string>): (r: Option<string>)
    ensures r.Some? ==> Acceptable(r.value)
    ensures r.Some? ==> exists i :: 0 <= i < |lines| && BoundedRun(lines[i], IsDigit, 12) == r
                                    && forall j :: 0 <= j < i ==> BoundedRun(lines[j], IsDigit, 12).None?
    ensures r.None? ==> forall i :: 0 <= i < |lines| ==> BoundedRun(lines[i], IsDigit, 12).None?
    decreases |lines|
  {
    if lines == [] then None
    else
      var n := BoundedRun(lines[0], IsDigit, 12);
      if n.Some? then n
      else
        var r := LineCode(lines[1..]);
        assert forall j :: 1 <= j < |lines| ==> lines[1..][j - 1] == lines[j];
        assert r.Some? ==> exists i :: 1 <= i < |lines| && BoundedRun(lines[i], IsDigit, 12) == r
                                       && forall j :: 0 <= j < i ==> BoundedRun(lines[j], IsDigit, 12).None? by {
          if r.Some? {
            var i :| 0 <= i < |lines| - 1 && BoundedRun(lines[1..][i], IsDigit, 12) == r
                     && forall j :: 0 <= j < i ==> BoundedRun(lines[1..][j], IsDigit, 12).None?;
            assert BoundedRun(lines[i + 1], IsDigit, 12) == r;
          }
        }
        r
  }

  /** The patterns' capture first, and the lines after them. */
  function CodeSearch(text: string, pats: seq<Pattern>): (r: Option<string>)
    ensures r.Some? ==> Acceptable(r.value)
  {
    match FirstCode(text, pats)
    case Some(c) => Some(c)
    case None => LineCode(SplitOn(text, '\n'))
  }

  /** `extract_billing_code_advanced(text)`. */
  function BillingCode(text: string): (r: Option<string>)
    ensures r.Some? ==> Acceptable(r.value)
  {
    CodeSearch(text, CodePatterns)
  }

  /** The two loops of extractors.py:454-469, each returning at the first code it finds. */
  method SearchCode(text: string, pats: seq<Pattern>) returns (r: Option<string>)
    ensures r == CodeSearch(text, pats)
  {
    var i := 0;
    while i < |pats|
      invariant 0 <= i <= |pats|
      invariant FirstCode(text, pats) == FirstCode(text, pats[i..])
    {
      var m := Capture(text, pats[i]);
      if m.Some? {
        var code := m.value;
        if |code| >= 12 && AllDigits(code) {
          return Some(code);
        }
      }
      assert pats[i..][1..] == pats[i + 1..];
      i := i + 1;
    }
    var lines := SplitOn(text, '\n');
    var l := 0;
    while l < |lines|
      invariant 0 <= l <= |lines|
      invariant LineCode(lines) == LineCode(lines[l..])
    {
      var num := BoundedRun(lines[l], IsDigit, 12);
      if num.Some? {
        return num;
      }
      assert lines[l..][1..] == lines[l + 1..];
      l := l + 1;
    }
    return None;
  }

  /** `extract_billing_code_advanced(text)`, over its four patterns. */
  method ExtractBillingCode(text: string) returns (r: Option<string>)
    ensures r == BillingCode(text)
  {
    r := SearchCode(text, CodePatterns);
  }

  // ---------------------------------------------------------------- properties

  /** Every group is a run of twelve or more digits. */
  predicate DigitPatterns(pats: seq<Pattern>) {
    forall i :: 0 <= i < |pats| ==> DigitGroup(pats[i].g)
  }

  predicate DigitGroup(g: Group) {
    g.Run? && g.min >= 12 && forall c :: g.k(c) ==> IsDigit(c)
  }

  lemma CodePatternsDigits()
    ensures DigitPatterns(CodePatterns)
  {
  }

  /**
   * The length-and-digits check never rejects anything: with digit groups
   * of twelve or more, the first pattern that matches at all gives the code.
   */
  lemma {:induction false} CheckRedundant(text: string, pats: seq<Pattern>)
    requires DigitPatterns(pats)
    ensures FirstCode(text, pats) == FirstCapture(text, pats)
    decreases |pats|
  {
    if pats != [] {
      FirstCaptureStep(text, pats);
      CaptureRun(text, pats[0]);
      if Capture(text, pats[0]).Some? {
        assert Acceptable(Capture(text, pats[0]).value);
      } else {
        assert forall j :: 1 <= j < |pats| ==> pats[1..][j - 1] == pats[j];
        CheckRedundant(text, pats[1..]);
      }
    }
  }

  /** The patterns are tried in order: the first one that matches decides the code, and the lines are not looked at. */
  lemma PatternsFirst(text: string)
    ensures FirstCapture(text, CodePatterns).Some? ==> BillingCode(text) == FirstCapture(text, CodePatterns)
    ensures FirstCapture(text, CodePatterns).None? ==> BillingCode(text) == LineCode(SplitOn(text, '\n'))
  {
    CodePatternsDigits();
    CheckRedundant(text, CodePatterns);
  }

  /** A pattern that matches at all means the lines are never consulted. */
  lemma MatchFound(text: string, pats: seq<Pattern>, i: nat)
    requires DigitPatterns(pats) && i < |pats| && Capture(text, pats[i]).Some?
    ensures FirstCode(text, pats).Some?
  {
    CheckRedundant(text, pats);
  }

  /** A labelled billing code wins over every other candidate. */
  lemma LabelWins(text: string)
    requires Capture(text, LabelledCode).Some?
    ensures BillingCode(text) == Capture(text, LabelledCode)
  {
    PatternsFirst(text);
    assert CodePatterns[0] == LabelledCode;
  }

  /** A run of fifteen digits anywhere in the text guarantees that a code is found. */
  lemma LongRunFound(text: string, s: nat)
    requires s + 15 <= |text| && forall j :: s <= j < s + 15 ==> IsDigit(text[j])
    ensures BillingCode(text).Some?
  {
    LongNumberMatches(text, s);
    CodePatternsDigits();
    assert CodePatterns[3] == LongNumber;
    MatchFound(text, CodePatterns, 3);
  }

  /** The bare pattern matches where fifteen digits start. */
  lemma LongNumberMatches(text: string, s: nat)
    requires s + 15 <= |text| && forall j :: s <= j < s + 15 ==> IsDigit(text[j])
    ensures Capture(text, LongNumber).Some?
  {
    var n := RunLen(text, s, IsDigit);
    assert n >= 15 by {
      if n < 15 {
        assert false;
      }
    }
    assert MatchAt(text, s, LongNumber).Some?;
  }
}
