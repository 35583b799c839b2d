/**
 * The EVLN extractor (`extract_evln`, extractors.py:49-133). The text is cut
 * at every '\n'; the name is first taken from the line after the first
 * "Dear" greeting, then every line fills in at most one field chosen by the
 * label it carries, and the issue date, when still empty, is looked for by
 * two labelled patterns and finally among all dates of the text.
 */
module Evln {
  import opened Wrappers
  import opened Text
  import opened Records
  import opened Scan
  import opened Collaborators
  import opened PyInt

  /** The six fields the extractor fills in; the seventh, the document type, is fixed. */
  datatype Fields = Fields(name: Val, placeOfBirth: Val, dateOfBirth: Val, passportNo: Val,
                           passportExpiry: Val, dateIssue: Val)

  /** Every field starts as the empty string. */
  const Blank := Fields(Str(""), Str(""), Str(""), Str(""), Str(""), Str(""))

  const EvlnKeys := ["Name", "Place of Birth", "Date of Birth", "Passport No", "Passport Expiry", "Date Issue",
                     "Jenis Dokumen"]

  /** The dictionary the extractor returns. */
  function ToRecord(d: Fields): (r: Record)
    ensures Keys(r) == EvlnKeys && r[6].val == Str("EVLN")
    ensures r[0].val == d.name && r[2].val == d.dateOfBirth && r[3].val == d.passportNo
    ensures r[4].val == d.passportExpiry && r[5].val == d.dateIssue
  {
    FromLists(EvlnKeys, [d.name, d.placeOfBirth, d.dateOfBirth, d.passportNo, d.passportExpiry, d.dateIssue,
                         Str("EVLN")])
  }

  // ---------------------------------------------------------------- the greeting

  /**
   * `re.search(r"Dear\s+(Mr\.|Ms\.|Sir|Madam)?", line, re.IGNORECASE)`: since
   * the title is optional, the line matches exactly when it holds "dear", in
   * any case, followed by whitespace.
   */
  predicate IsDearLine(line: string) {
    exists k :: 0 <= k < |line| - 4 && LitAt(line, k, "Dear", true) && IsSpace(line[k + 4])
  }

  /** `IsDearLine` as a function value. */
  const DearLine: string -> bool := line => IsDearLine(line)

  /** The length bound a name candidate must meet, exclusive on both sides. */
  predicate NameSized(candidate: string) {
    3 < |candidate| < 50
  }

  /** Line `g` is the first greeting line. */
  predicate FirstDear(lines: seq<string>, g: nat) {
    g < |lines| && IsDearLine(lines[g]) && forall j :: 0 <= j < g ==> !IsDearLine(lines[j])
  }

  /**
   * The name the greeting yields: the stripped line after the first "Dear"
   * line, cleaned, when it has a plausible length; the empty string otherwise.
   */
  function DearName(lines: seq<string>, h: Helpers): (r: Val)
    ensures FirstWhere(lines, 0, DearLine).None? ==> r == Str("")
    ensures r != Str("") ==>
              exists g: nat :: FirstDear(lines, g) && g + 1 < |lines|
                && NameSized(Strip(lines[g + 1])) && r == h.cleanText(Strip(lines[g + 1]), true)
    ensures forall g: nat :: FirstDear(lines, g) ==>
              r == if g + 1 < |lines| && NameSized(Strip(lines[g + 1])) then h.cleanText(Strip(lines[g + 1]), true)
                   else Str("")
  {
    match FirstWhere(lines, 0, DearLine)
    case None => Str("")
    case Some(i) =>
      assert FirstDear(lines, i);
      if i + 1 < |lines| && NameSized(Strip(lines[i + 1])) then h.cleanText(Strip(lines[i + 1]), true) else Str("")
  }

  /** Only the first greeting counts: lines after the one following it never change the name. */
  lemma DearFirstOnly(lines: seq<string>, more: seq<string>, h: Helpers, i: nat)
    requires i + 1 < |lines| && FirstDear(lines, i)
    ensures DearName(lines + more, h) == DearName(lines, h)
  {
    var all := lines + more;
    assert all[i] == lines[i] && all[i + 1] == lines[i + 1];
    assert forall j :: 0 <= j < i ==> all[j] == lines[j];
    assert FirstWhere(lines, 0, DearLine) == Some(i);
    assert FirstWhere(all, 0, DearLine) == Some(i);
  }

  /** The greeting loop of extractors.py:64-73, which stops at the first "Dear" line. */
  method FindDearName(lines: seq<string>, h: Helpers) returns (name: Val)
    ensures name == DearName(lines, h)
  {
    name := Str("");
    var i := 0;
    while i < |lines|
      invariant 0 <= i <= |lines|
      invariant FirstWhere(lines, 0, DearLine) == FirstWhere(lines, i, DearLine)
    {
      if IsDearLine(lines[i]) {
        if i + 1 < |lines| {
          var candidate := Strip(lines[i + 1]);
          if 3 < |candidate| < 50 {
            name := h.cleanText(candidate, true);
          }
        }
        return;
      }
      i := i + 1;
    }
  }

  // ---------------------------------------------------------------- the line loop

  /** Which branch of the `if`/`elif` chain of extractors.py:76-108 a line takes. */
  datatype LineKind = NameLine | BirthPlaceLine | BirthDateLine | PassportNoLine | PassportExpiryLine
                    | IssueLine | OtherLine

  /**
   * The labels are tried in the chain's order, each as a whole word in any
   * case; a "Name"/"Nama" label only counts while the name is still empty.
   */
  function Classify(line: string, nameFilled: bool): LineKind {
    if !nameFilled && (HasWord(line, "Name", true) || HasWord(line, "Nama", true)) then NameLine
    else if HasWord(line, "Place of Birth", true) || HasWord(line, "Tempat Lahir", true) then BirthPlaceLine
    else if HasWord(line, "Date of Birth", true) || HasWord(line, "Tanggal Lahir", true) then BirthDateLine
    else if HasWord(line, "Passport No", true) then PassportNoLine
    else if HasWord(line, "Passport Expiry", true) then PassportExpiryLine
    else if HasWord(line, "Date of issue", true) || HasWord(line, "Tanggal Penerbitan", true) then IssueLine
    else OtherLine
  }

  /** `line.split(":")[1]`, when the line has a colon. */
  function AfterColon(line: string): (r: Option<string>)
    ensures r.Some? ==> ':' !in r.value
  {
    var parts := SplitOn(line, ':');
    if |parts| > 1 then Some(parts[1]) else None
  }

  /** `(\d{2}/\d{2}/\d{4}|\d{2}-\d{2}-\d{4})`: two-digit day and month, one separator used twice. */
  const LineDate := Bare(Date(2, "/-", true), false)

  predicate UpperOrDigit(c: char) { IsUpper(c) || IsDigit(c) }

  /** `re.search(r"\b([A-Z0-9]+)\b", line)`, case-sensitive: the first whole word of capitals and digits. */
  function PassportToken(line: string): (r: Option<string>)
    ensures r.Some? ==> r.value != "" && forall j :: 0 <= j < |r.value| ==> UpperOrDigit(r.value[j])
  {
    BoundedRun(line, UpperOrDigit, 1)
  }

  /** `\s*Visa\s*Type\s*.*` at `s`, folding case. */
  function VisaAt(t: string, s: nat): (r: Option<Hit>)
    ensures r.Some? ==> s < r.value.end <= |t|
  {
    if s > |t| then None
    else
      var a := s + WsRun(t, s);
      if !LitAt(t, a, "Visa", true) then None
      else
        var b := a + 4 + WsRun(t, a + 4);
        if !LitAt(t, b, "Type", true) then None
        else
          var c := b + 4 + WsRun(t, b + 4);
          Some(Hit(c + RunLen(t, c, l => l != '\n'), []))
  }

  /**
   * `re.sub(r'\s*Visa\s*Type\s*.*', '', s, flags=re.IGNORECASE)` from `p`:
   * every match, leftmost first, is deleted, and the search resumes after it.
   */
  function VisaCutFrom(s: string, p: nat): (r: string)
    requires p <= |s|
    ensures |r| <= |s| - p
    decreases |s| - p
  {
    var m := (t: string, k: nat) => VisaAt(t, k);
    match SearchFrom(s, p, m)
    case None => s[p..]
    case Some((k, hit)) => s[p..k] + VisaCutFrom(s, hit.end)
  }

  function VisaCut(s: string): string {
    VisaCutFrom(s, 0)
  }

  /** Within one line, the cut removes everything from the first "Visa Type" on and keeps the text before it. */
  lemma VisaCutPrefix(s: string)
    requires '\n' !in s
    ensures exists k :: 0 <= k <= |s| && VisaCut(s) == s[..k]
  {
    var m := (t: string, k: nat) => VisaAt(t, k);
    match SearchFrom(s, 0, m)
    case None =>
      assert VisaCut(s) == s[..|s|];
    case Some((k, hit)) =>
      var c := hit.end;
      assert c == |s| by {
        VisaRunsToEnd(s, k);
      }
      assert VisaCutFrom(s, c) == [];
      assert VisaCut(s) == s[..k];
  }

  lemma VisaRunsToEnd(s: string, k: nat)
    requires '\n' !in s && VisaAt(s, k).Some?
    ensures VisaAt(s, k).value.end == |s|
  {
    var a := k + WsRun(s, k);
    var b := a + 4 + WsRun(s, a + 4);
    var c := b + 4 + WsRun(s, b + 4);
  }

  /**
   * One pass of the line loop: the branch the line's label selects may set
   * its own field, and no other.
   */
  function LineStep(d: Fields, line: string, h: Helpers): (r: Fields)
    ensures r.name != d.name ==> Classify(line, Truthy(d.name)) == NameLine
    ensures r.placeOfBirth != d.placeOfBirth ==> Classify(line, Truthy(d.name)) == BirthPlaceLine
    ensures r.dateOfBirth != d.dateOfBirth ==> Classify(line, Truthy(d.name)) == BirthDateLine
    ensures r.passportNo != d.passportNo ==> Classify(line, Truthy(d.name)) == PassportNoLine
    ensures r.passportExpiry != d.passportExpiry ==> Classify(line, Truthy(d.name)) == PassportExpiryLine
    ensures r.dateIssue != d.dateIssue ==> Classify(line, Truthy(d.name)) == IssueLine
  {
    match Classify(line, Truthy(d.name))
    case NameLine =>
      (match AfterColon(line)
       case None => d
       case Some(p) => d.(name := h.cleanText(p, true)))
    case BirthPlaceLine =>
      (match AfterColon(line)
       case None => d
       case Some(p) => d.(placeOfBirth := h.cleanText(VisaCut(Strip(p)), true)))
    case BirthDateLine =>
      (match Capture(line, LineDate)
       case None => d
       case Some(s) => d.(dateOfBirth := h.formatDate(s)))
    case PassportNoLine =>
      (match PassportToken(line)
       case None => d
       case Some(s) => d.(passportNo := Str(s)))
    case PassportExpiryLine =>
      (match Capture(line, LineDate)
       case None => d
       case Some(s) => d.(passportExpiry := h.formatDate(s)))
    case IssueLine =>
      (match Capture(line, LineDate)
       case None => d
       case Some(s) => d.(dateIssue := h.formatDate(s)))
    case OtherLine => d
  }

  /** The line loop over a prefix of the lines. */
  function LineLoop(d: Fields, lines: seq<string>, h: Helpers): Fields
    decreases |lines|
  {
    if lines == [] then d else LineStep(LineLoop(d, lines[..|lines| - 1], h), lines[|lines| - 1], h)
  }

  /** The line loop of extractors.py:76-108. */
  method ScanLines(d0: Fields, lines: seq<string>, h: Helpers) returns (d: Fields)
    ensures d == LineLoop(d0, lines, h)
  {
    d := d0;
    var i := 0;
    while i < |lines|
      invariant 0 <= i <= |lines|
      invariant d == LineLoop(d0, lines[..i], h)
    {
      assert lines[..i + 1][..i] == lines[..i];
      d := LineStep(d, lines[i], h);
      i := i + 1;
    }
    assert lines[..i] == lines;
  }

  /** Once the name is filled in, no "Name" line replaces it: the greeting's name wins. */
  lemma {:induction false} ScanKeepsName(d: Fields, lines: seq<string>, h: Helpers)
    requires Truthy(d.name)
    ensures LineLoop(d, lines, h).name == d.name
    decreases |lines|
  {
    if lines != [] {
      ScanKeepsName(d, lines[..|lines| - 1], h);
    }
  }

  /** A passport number is the initial empty string or a whole word of capitals and digits. */
  predicate PassportShaped(v: Val) {
    v == Str("") || (v.Str? && v.s != "" && forall j :: 0 <= j < |v.s| ==> UpperOrDigit(v.s[j]))
  }

  lemma {:induction false} ScanPassport(d: Fields, lines: seq<string>, h: Helpers)
    requires PassportShaped(d.passportNo)
    ensures PassportShaped(LineLoop(d, lines, h).passportNo)
    decreases |lines|
  {
    if lines != [] {
      ScanPassport(d, lines[..|lines| - 1], h);
    }
  }

  // ---------------------------------------------------------------- the issue date

  /** The two labelled issue-date patterns of extractors.py:112-115, both folding case. */
  const IssuePatterns := [
    Field([Words(["Date", "of", "Issue"]), Words(["Issue", "Date"]), Words(["Issued", "on"]),
           Words(["Tanggal", "Penerbitan"])], OptColonWs, AnyDate, true),
    Field([Lits("Issued"), Lits("Diterbitkan")], OptColonWs, AnyDate, true)]

  /** The pattern loop of extractors.py:117-121, which stops at the first pattern that matches. */
  method FirstIssueCapture(text: string) returns (r: Option<string>)
    ensures r == FirstCapture(text, IssuePatterns)
    ensures Capture(text, IssuePatterns[0]).Some? ==> r == Capture(text, IssuePatterns[0])
    ensures Capture(text, IssuePatterns[0]).None? ==> r == Capture(text, IssuePatterns[1])
  {
    IssueCaptureFirst(text);
    var pats := IssuePatterns;
    r := None;
    var i := 0;
    while i < |pats|
      invariant 0 <= i <= |pats|
      invariant FirstCapture(text, pats) == FirstCapture(text, pats[i..])
    {
      assert pats[i..][1..] == pats[i + 1..];
      FirstCaptureStep(text, pats[i..]);
      var c := Capture(text, pats[i]);
      if c.Some? {
        r := c;
        return;
      }
      i := i + 1;
    }
  }

  /** The first of the two patterns that matches gives the capture; the second only when the first fails. */
  lemma IssueCaptureFirst(text: string)
    ensures Capture(text, IssuePatterns[0]).Some? ==> FirstCapture(text, IssuePatterns) == Capture(text, IssuePatterns[0])
    ensures Capture(text, IssuePatterns[0]).None? ==> FirstCapture(text, IssuePatterns) == Capture(text, IssuePatterns[1])
  {
    var pats := IssuePatterns;
    FirstCaptureStep(text, pats);
    FirstCaptureStep(text, pats[1..]);
    assert pats[1..][0] == pats[1] && pats[1..][1..] == [];
  }

  /** What the date scan makes of one date, in the loop of extractors.py:127-130. */
  datatype Verdict = Picked(date: string) | Rejected | Fault(msg: string)

  const NoneSplitMessage := "'NoneType' object has no attribute 'split'"

  /** `formatted.split('/')[-1]`. */
  function YearText(formatted: string): string {
    var parts := SplitOn(formatted, '/');
    parts[|parts| - 1]
  }

  predicate InIssueYears(y: int) { 2020 <= y <= 2025 }

  /**
   * The date meets the scan's test: it formats to a string whose year reads
   * as an integer in 2020..2025, and that string is neither the date of birth
   * nor the passport expiry.
   */
  predicate Qualifies(date: string, dob: Val, expiry: Val, h: Helpers) {
    h.formatDate(date).Str? && ParseInt(YearText(h.formatDate(date).s)).Some?
    && InIssueYears(ParseInt(YearText(h.formatDate(date).s)).value)
    && h.formatDate(date) != dob && h.formatDate(date) != expiry
  }

  /**
   * One date of the scan: `format_date` must give a string whose last
   * '/'-part reads as an integer, or the call raises; the date is taken when
   * that year is 2020..2025 and the formatted date is neither the date of
   * birth nor the passport expiry.
   */
  function Judge(date: string, dob: Val, expiry: Val, h: Helpers): (r: Verdict)
    ensures r.Picked? ==> h.formatDate(date) == Str(r.date) && ParseInt(YearText(r.date)).Some?
                          && InIssueYears(ParseInt(YearText(r.date)).value)
                          && Str(r.date) != dob && Str(r.date) != expiry
    ensures r.Fault? <==> h.formatDate(date).Null? || ParseInt(YearText(h.formatDate(date).s)).None?
    ensures r.Fault? && h.formatDate(date).Null? ==> r.msg == NoneSplitMessage
    ensures r.Fault? && h.formatDate(date).Str? ==> r.msg == ValueErrorMessage(YearText(h.formatDate(date).s))
    ensures Qualifies(date, dob, expiry, h) ==> r == Picked(h.formatDate(date).s)
  {
    match h.formatDate(date)
    case Null => Fault(NoneSplitMessage)
    case Str(f) =>
      match ParseInt(YearText(f))
      case None => Fault(ValueErrorMessage(YearText(f)))
      case Some(y) => if InIssueYears(y) && Str(f) != dob && Str(f) != expiry then Picked(f) else Rejected
  }

  /** The verdict on every date found, in text order. */
  function Verdicts(dates: seq<string>, dob: Val, expiry: Val, h: Helpers): (vs: seq<Verdict>)
    ensures |vs| == |dates|
    ensures forall k :: 0 <= k < |dates| ==> vs[k] == Judge(dates[k], dob, expiry, h)
  {
    seq(|dates|, k requires 0 <= k < |dates| => Judge(dates[k], dob, expiry, h))
  }

  /** The scan from the `i`-th verdict on: the first one that is not a rejection. */
  function FirstDecided(vs: seq<Verdict>, i: nat): (r: Verdict)
    requires i <= |vs|
    ensures !r.Rejected? ==> exists k :: i <= k < |vs| && vs[k] == r && forall j :: i <= j < k ==> vs[j].Rejected?
    ensures r.Rejected? ==> forall j :: i <= j < |vs| ==> vs[j].Rejected?
    decreases |vs| - i
  {
    if i == |vs| then Rejected
    else if vs[i].Rejected? then FirstDecided(vs, i + 1)
    else vs[i]
  }

  /** The date loop of extractors.py:126-131, which stops at the first date taken. */
  method PickIssueDate(dates: seq<string>, dob: Val, expiry: Val, h: Helpers) returns (r: Verdict)
    ensures r == FirstDecided(Verdicts(dates, dob, expiry, h), 0)
  {
    ghost var vs := Verdicts(dates, dob, expiry, h);
    var i := 0;
    while i < |dates|
      invariant 0 <= i <= |dates|
      invariant FirstDecided(vs, 0) == FirstDecided(vs, i)
    {
      ghost var v := Judge(dates[i], dob, expiry, h);
      assert vs[i] == v;
      FirstDecidedStep(vs, i);
      var formatted := h.formatDate(dates[i]);
      if formatted.Null? {
        assert v == Fault(NoneSplitMessage);
        return Fault(NoneSplitMessage);
      }
      var year := ParseInt(YearText(formatted.s));
      if year.None? {
        assert v == Fault(ValueErrorMessage(YearText(formatted.s)));
        return Fault(ValueErrorMessage(YearText(formatted.s)));
      }
      if 2020 <= year.value <= 2025 && formatted != dob && formatted != expiry {
        assert v == Picked(formatted.s);
        return Picked(formatted.s);
      }
      assert v == Rejected;
      i := i + 1;
    }
    return Rejected;
  }

  /** One step of the scan: a rejection moves on, any other verdict ends it. */
  lemma FirstDecidedStep(vs: seq<Verdict>, i: nat)
    requires i < |vs|
    ensures vs[i].Rejected? ==> FirstDecided(vs, i) == FirstDecided(vs, i + 1)
    ensures !vs[i].Rejected? ==> FirstDecided(vs, i) == vs[i]
  {
  }

  // ---------------------------------------------------------------- the stages

  /** Stage 1: the greeting, then the line loop. */
  function Scanned(text: string, h: Helpers): Fields {
    var lines := SplitOn(text, '\n');
    LineLoop(Blank.(name := DearName(lines, h)), lines, h)
  }

  /** Stage 2, only while the issue date is empty: the first labelled pattern that matches. */
  function Labelled(d: Fields, text: string, h: Helpers): (r: Fields)
    ensures Truthy(d.dateIssue) ==> r == d
    ensures r.(dateIssue := d.dateIssue) == d
    ensures !Truthy(d.dateIssue) && FirstCapture(text, IssuePatterns).Some? ==>
              r.dateIssue == h.formatDate(FirstCapture(text, IssuePatterns).value)
    ensures !Truthy(d.dateIssue) && FirstCapture(text, IssuePatterns).None? ==> r == d
  {
    if Truthy(d.dateIssue) then d
    else
      match FirstCapture(text, IssuePatterns)
      case None => d
      case Some(s) => d.(dateIssue := h.formatDate(s))
  }

  /** `re.findall(r"(\d{1,2}[/\-]\d{1,2}[/\-]\d{4})", text)`: every date of the text, in order. */
  function ScanDates(text: string): seq<string> {
    FindAll(text, Bare(AnyDate, false))
  }

  /** `dates[k]` qualifies and every date before it is read and turned down. */
  predicate FirstQualifying(dates: seq<string>, k: nat, dob: Val, expiry: Val, h: Helpers) {
    k < |dates| && Qualifies(dates[k], dob, expiry, h)
    && forall j :: 0 <= j < k ==> Judge(dates[j], dob, expiry, h).Rejected?
  }

  /**
   * Stage 3, only while the issue date is still empty: the scan over the
   * dates found in the text, in order.
   */
  function Dated(d: Fields, dates: seq<string>, h: Helpers): (r: Outcome)
    ensures Truthy(d.dateIssue) ==> r == Done(ToRecord(d))
    ensures r.Done? ==> exists v :: r.rec == ToRecord(d.(dateIssue := v))
  {
    if Truthy(d.dateIssue) then Done(ToRecord(d))
    else
      match FirstDecided(Verdicts(dates, d.dateOfBirth, d.passportExpiry, h), 0)
      case Picked(f) => Done(ToRecord(d.(dateIssue := Str(f))))
      case Rejected => Done(ToRecord(d))
      case Fault(m) => Raised(m)
  }

  /** With the date still empty, the scan stores the first qualifying date. */
  lemma DatedPicksFirst(d: Fields, dates: seq<string>, h: Helpers, k: nat)
    requires !Truthy(d.dateIssue)
    requires FirstQualifying(dates, k, d.dateOfBirth, d.passportExpiry, h)
    ensures Dated(d, dates, h) == Done(ToRecord(d.(dateIssue := h.formatDate(dates[k]))))
  {
    var vs := Verdicts(dates, d.dateOfBirth, d.passportExpiry, h);
    assert vs[k] == Picked(h.formatDate(dates[k]).s);
    var r := FirstDecided(vs, 0);
    assert !r.Rejected?;
    var i :| 0 <= i < |vs| && vs[i] == r && forall j :: 0 <= j < i ==> vs[j].Rejected?;
    assert i == k;
  }

  /**
   * Conversely, when the scan finishes, either every date was turned down and
   * the fields stay as they were, or what it stores is the first qualifying date.
   */
  lemma DatedStoredFirst(d: Fields, dates: seq<string>, h: Helpers)
    requires !Truthy(d.dateIssue)
    ensures var r := Dated(d, dates, h);
      r.Done? ==>
        ((forall j :: 0 <= j < |dates| ==> Judge(dates[j], d.dateOfBirth, d.passportExpiry, h).Rejected?)
         && r == Done(ToRecord(d)))
        || exists k :: 0 <= k < |dates| && FirstQualifying(dates, k, d.dateOfBirth, d.passportExpiry, h)
                       && r == Done(ToRecord(d.(dateIssue := h.formatDate(dates[k]))))
  {
    var vs := Verdicts(dates, d.dateOfBirth, d.passportExpiry, h);
    var r := FirstDecided(vs, 0);
    if r.Picked? {
      var k :| 0 <= k < |vs| && vs[k] == r && forall j :: 0 <= j < k ==> vs[j].Rejected?;
      assert Judge(dates[k], d.dateOfBirth, d.passportExpiry, h) == r;
      assert FirstQualifying(dates, k, d.dateOfBirth, d.passportExpiry, h);
    }
  }

  /**
   * `extract_evln(text)`: the seven keys with the document type "EVLN"; a
   * later stage only runs while the issue date is empty, and only the date
   * scan of the last stage can raise.
   */
  function ExtractEvln(text: string, h: Helpers): (r: Outcome)
    ensures r.Done? ==> Keys(r.rec) == EvlnKeys && r.rec[6].val == Str("EVLN")
    ensures Truthy(Scanned(text, h).dateIssue) ==> r == Done(ToRecord(Scanned(text, h)))
    ensures Truthy(Labelled(Scanned(text, h), text, h).dateIssue) ==> r == Done(ToRecord(Labelled(Scanned(text, h), text, h)))
    ensures r.Raised? ==> !Truthy(Labelled(Scanned(text, h), text, h).dateIssue)
    ensures r.Done? ==> r.rec[0].val == Scanned(text, h).name
  {
    var d := Labelled(Scanned(text, h), text, h);
    var r := Dated(d, ScanDates(text), h);
    assert r.Done? ==> r.rec[0].val == d.name;
    r
  }

  /** When the first two stages leave the date empty, `extract_evln` stores the first qualifying date of the text. */
  lemma ExtractEvlnPicksFirst(text: string, h: Helpers, k: nat)
    ensures var d, dates := Labelled(Scanned(text, h), text, h), ScanDates(text);
      !Truthy(d.dateIssue) && FirstQualifying(dates, k, d.dateOfBirth, d.passportExpiry, h) ==>
        ExtractEvln(text, h) == Done(ToRecord(d.(dateIssue := h.formatDate(dates[k]))))
  {
    var d, dates := Labelled(Scanned(text, h), text, h), ScanDates(text);
    if !Truthy(d.dateIssue) && FirstQualifying(dates, k, d.dateOfBirth, d.passportExpiry, h) {
      DatedPicksFirst(d, dates, h, k);
    }
  }

  /**
   * Conversely, when the first two stages leave the date empty and
   * `extract_evln` returns a record, either every date was turned down or the
   * stored date is the first qualifying one.
   */
  lemma ExtractEvlnStoredFirst(text: string, h: Helpers)
    ensures var d, dates := Labelled(Scanned(text, h), text, h), ScanDates(text);
      !Truthy(d.dateIssue) && ExtractEvln(text, h).Done? ==>
        ((forall j :: 0 <= j < |dates| ==> Judge(dates[j], d.dateOfBirth, d.passportExpiry, h).Rejected?)
         && ExtractEvln(text, h) == Done(ToRecord(d)))
        || exists k :: 0 <= k < |dates| && FirstQualifying(dates, k, d.dateOfBirth, d.passportExpiry, h)
                       && ExtractEvln(text, h) == Done(ToRecord(d.(dateIssue := h.formatDate(dates[k]))))
  {
    var d, dates := Labelled(Scanned(text, h), text, h), ScanDates(text);
    if !Truthy(d.dateIssue) {
      DatedStoredFirst(d, dates, h);
    }
  }

  /** Stages 1 and 2 as the loops compute them. */
  method RunLabelled(text: string, h: Helpers) returns (d: Fields)
    ensures d == Labelled(Scanned(text, h), text, h)
  {
    var lines := SplitOn(text, '\n');
    var name := FindDearName(lines, h);
    d := ScanLines(Blank.(name := name), lines, h);
    if !Truthy(d.dateIssue) {
      var c := FirstIssueCapture(text);
      if c.Some? {
        d := d.(dateIssue := h.formatDate(c.value));
      }
    }
  }

  /** Stage 3 as the date loop computes it. */
  method RunDated(d: Fields, text: string, h: Helpers) returns (r: Outcome)
    ensures r == Dated(d, ScanDates(text), h)
  {
    if Truthy(d.dateIssue) {
      return Done(ToRecord(d));
    }
    var v := PickIssueDate(ScanDates(text), d.dateOfBirth, d.passportExpiry, h);
    match v
    case Picked(f) => r := Done(ToRecord(d.(dateIssue := Str(f))));
    case Rejected => r := Done(ToRecord(d));
    case Fault(m) => r := Raised(m);
  }

  /** The whole of `extract_evln`, as the loops compute it. */
  method RunEvln(text: string, h: Helpers) returns (r: Outcome)
    ensures r == ExtractEvln(text, h)
  {
    var d := RunLabelled(text, h);
    r := RunDated(d, text, h);
  }
}
