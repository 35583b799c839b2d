/**
 * The SKTT extractor (`extract_sktt`): nine labelled fields, the birth place
 * and date split by a helper, and the issue date read from the signature line
 * just above the first "KEPALA DINAS" line.
 */
module Sktt {
  import opened Wrappers
  import opened Text
  import opened Records
  import opened Scan
  import opened Collaborators

  predicate WordOrSpace(c: char) { IsWord(c) || IsSpace(c) }
  predicate UpperOrSpace(c: char) { IsUpper(c) || IsSpace(c) }

  // The labelled fields; none of these patterns folds case.
  const NikField := Field([Lits("NIK/Number of Population Identity")], ColonWs, Run(IsDigit, 1), false)
  const NameField := Field([Lits("Nama/Name")], ColonWs, Run(WordOrSpace, 1), false)
  const SexField := Field([Lits("Jenis Kelamin/Sex")], ColonWs, OneOf(["MALE", "FEMALE"]), false)
  const BirthField := Field([Lits("Tempat/Tgl Lahir")], ColonWs, Run(c => WordOrSpace(c) || c in ",-", 1), false)
  const NationalityField := Field([Lits("Kewarganegaraan/Nationality")], ColonWs, Run(WordOrSpace, 1), false)
  const OccupationField := Field([Lits("Pekerjaan/Occupation")], ColonWs, Run(WordOrSpace, 1), false)
  const AddressField := Field([Lits("Alamat/Address")], ColonWs, Run(c => WordOrSpace(c) || c in ",./-", 1), false)
  const PermitField := Field([Lits("Nomor KITAP/KITAS Number")], ColonWs, Run(c => IsWord(c) || c == '-', 1), false)
  /** The `.` in `s.d` matches any character but a newline. */
  const ExpiryField := Field([Lits("Berlaku Hingga s") + [AnyNotNl] + Lits("d/Expired date")], ColonWs,
                             Run(c => IsDigit(c) || c == '-', 1), false)

  /**
   * `([A-Z\s]+),\s*(\d{2}-\d{2}-\d{4})` anchored at `s`: a run of capitals and
   * whitespace, a comma, and a dd-mm-yyyy date. The run cannot give back
   * characters usefully, since a shorter run ends before a character of the
   * class rather than before the comma.
   */
  function SignatureAt(t: string, s: nat): (r: Option<Hit>)
    ensures r.Some? ==> |r.value.caps| == 2 && r.value.caps[0] != []
    ensures r.Some? ==> forall j :: 0 <= j < |r.value.caps[0]| ==> UpperOrSpace(r.value.caps[0][j])
    ensures r.Some? ==> TwoDigitDate(r.value.caps[1], "-", true)
  {
    if s >= |t| || !UpperOrSpace(t[s]) then None
    else
      var e := s + RunLen(t, s, UpperOrSpace);
      if e < |t| && t[e] == ',' then
        var p := e + 1 + WsRun(t, e + 1);
        DateEndShape(t, p, "-", true);
        match DateEnd(t, p, 2, "-", true)
        case None => None
        case Some(d) =>
          assert forall j :: 0 <= j < e - s ==> t[s..e][j] == t[s + j];
          Some(Hit(d, [t[s..e], t[p..d]]))
      else None
  }

  /** Group 2 of the signature pattern searched in `line`, or `None`. */
  function SignatureDate(line: string): (r: Option<string>)
    ensures r.Some? ==> TwoDigitDate(r.value, "-", true)
  {
    match SearchFrom(line, 0, (t: string, s: nat) => SignatureAt(t, s))
    case None => None
    case Some((_, h)) => Some(h.caps[1])
  }

  predicate IsMarkerLine(line: string) {
    Contains(Upper(line), "KEPALA DINAS")
  }

  /**
   * The issue date of the signature block: found only on the line immediately
   * before the first marker line, and nowhere when that marker is the first line.
   */
  function IssueDate(lines: seq<string>): (r: Option<string>)
    ensures r.Some? ==> exists i :: 0 < i < |lines| && IsMarkerLine(lines[i])
                          && (forall j :: 0 <= j < i ==> !IsMarkerLine(lines[j]))
                          && r == SignatureDate(lines[i - 1])
    ensures (forall j :: 0 <= j < |lines| ==> !IsMarkerLine(lines[j])) ==> r.None?
    ensures |lines| > 0 && IsMarkerLine(lines[0]) ==> r.None?
    ensures r.Some? ==> TwoDigitDate(r.value, "-", true)
  {
    var m := FirstWhere(lines, 0, IsMarkerLine);
    if m.None? || m.value == 0 then None
    else
      var i := m.value;
      assert 0 < i < |lines| && IsMarkerLine(lines[i]);
      SignatureDate(lines[i - 1])
  }

  /** The marker scan of extractors.py:21-29, a loop that stops at the first marker line. */
  method ScanForIssueDate(lines: seq<string>) returns (dateIssue: Option<string>)
    ensures dateIssue == IssueDate(lines)
  {
    dateIssue := None;
    var i := 0;
    while i < |lines|
      invariant 0 <= i <= |lines|
      invariant forall j :: 0 <= j < i ==> !IsMarkerLine(lines[j])
      invariant FirstWhere(lines, 0, IsMarkerLine) == FirstWhere(lines, i, IsMarkerLine)
    {
      if IsMarkerLine(lines[i]) {
        if i > 0 {
          dateIssue := SignatureDate(lines[i - 1]);
        }
        return;
      }
      i := i + 1;
    }
  }

  function CaptureVal(t: string, p: Pattern): (r: Val)
    ensures r.Str? <==> Capture(t, p).Some?
    ensures r.Str? ==> r.s == Capture(t, p).value
  {
    match Capture(t, p)
    case None => Null
    case Some(c) => Str(c)
  }

  /** The NIK field: a non-empty run of digits when present. */
  function NikVal(text: string): (r: Val)
    ensures r.Str? ==> r.s != "" && AllDigits(r.s)
    ensures r.Str? <==> Capture(text, NikField).Some?
  {
    CaptureRun(text, NikField);
    CaptureVal(text, NikField)
  }

  /** The sex field: one of the two words the pattern lists, when present. */
  function SexVal(text: string): (r: Val)
    ensures r.Str? ==> r.s in ["MALE", "FEMALE"]
    ensures r.Str? <==> Capture(text, SexField).Some?
  {
    CaptureOneOf(text, SexField);
    CaptureVal(text, SexField)
  }

  const SkttKeys := ["NIK", "Name", "Jenis Kelamin", "Place of Birth", "Date of Birth", "Nationality",
                     "Occupation", "Address", "KITAS/KITAP", "Passport Expiry", "Date Issue", "Jenis Dokumen"]

  /** Apply a helper to a capture, `None` when the pattern did not match. */
  function Clean(h: Helpers, c: Option<string>, nameLike: bool): Val {
    match c
    case None => Null
    case Some(s) => h.cleanText(s, nameLike)
  }

  /** The first marker line is not the first line, and the line before it holds a signature date. */
  predicate SignedBeforeMarker(lines: seq<string>) {
    exists i :: 0 < i < |lines| && IsMarkerLine(lines[i]) && (forall j :: 0 <= j < i ==> !IsMarkerLine(lines[j]))
                && SignatureDate(lines[i - 1]).Some?
  }

  /**
   * The value of the issue-date field: `format_date` of the signature date when there is a
   * non-empty one.
   */
  function IssueVal(lines: seq<string>, h: Helpers): (r: Val)
    ensures r != Null ==> SignedBeforeMarker(lines)
    ensures r != Null ==> IssueDate(lines).Some? && r == h.formatDate(IssueDate(lines).value)
    ensures IssueDate(lines).None? ==> r == Null
    ensures IssueDate(lines).Some? ==> r == h.formatDate(IssueDate(lines).value)
  {
    var issue := IssueDate(lines);
    if issue.Some? && issue.value != "" then h.formatDate(issue.value) else Null
  }

  /** The birth field split by the helper into a place and a date. */
  function BirthSplit(text: string, h: Helpers): (Val, Val) {
    match Capture(text, BirthField)
    case None => (Null, Null)
    case Some(birth) => h.splitBirthPlaceDate(birth)
  }

  /** The place of birth, cleaned as a name when non-empty. */
  function PlaceOfBirth(text: string, h: Helpers): Val {
    var place := BirthSplit(text, h).0;
    if Truthy(place) then h.cleanText(place.s, true) else Null
  }

  /** The date of birth, formatted when non-empty. */
  function DateOfBirth(text: string, h: Helpers): Val {
    var date := BirthSplit(text, h).1;
    if Truthy(date) then h.formatDate(date.s) else Null
  }

  /** The passport expiry: the formatted expiry capture, when there is one. */
  function ExpiryVal(text: string, h: Helpers): Val {
    match Capture(text, ExpiryField)
    case None => Null
    case Some(e) => h.formatDate(e)
  }

  /** The personal values of the SKTT record: NIK, name, sex, place and date of birth. */
  function PersonalValues(text: string, h: Helpers): (vs: seq<Val>)
    ensures |vs| == 5 && vs[0] == NikVal(text) && vs[2] == SexVal(text)
  {
    [NikVal(text), Clean(h, Capture(text, NameField), true), SexVal(text), PlaceOfBirth(text, h), DateOfBirth(text, h)]
  }

  /** The cleaned nationality, occupation, address and permit number. */
  function ResidenceValues(text: string, h: Helpers): (vs: seq<Val>)
    ensures |vs| == 4
  {
    [Clean(h, Capture(text, NationalityField), false), Clean(h, Capture(text, OccupationField), false),
     Clean(h, Capture(text, AddressField), false), Clean(h, Capture(text, PermitField), false)]
  }

  /** The remaining values: nationality, occupation, address, permit, the two dates and the tag. */
  function PermitValues(text: string, h: Helpers): (vs: seq<Val>)
    ensures |vs| == 7 && vs[5] == IssueVal(SplitLines(Strip(text)), h) && vs[6] == Str("SKTT")
  {
    ResidenceValues(text, h) + [ExpiryVal(text, h), IssueVal(SplitLines(Strip(text)), h), Str("SKTT")]
  }

  /** The twelve values in key order. */
  function SkttValues(text: string, h: Helpers): (vs: seq<Val>)
    ensures |vs| == 12 && vs[0] == NikVal(text) && vs[2] == SexVal(text)
    ensures vs[10] == IssueVal(SplitLines(Strip(text)), h) && vs[11] == Str("SKTT")
  {
    var p := PersonalValues(text, h);
    var q := PermitValues(text, h);
    ValuesAt(p, q);
    p + q
  }

  lemma ValuesAt(p: seq<Val>, q: seq<Val>)
    requires |p| == 5 && |q| == 7
    ensures |p + q| == 12 && (p + q)[0] == p[0] && (p + q)[2] == p[2] && (p + q)[10] == q[5] && (p + q)[11] == q[6]
  {
  }

  /**
   * `extract_sktt(text)`: always the twelve keys of `SkttKeys`, in that order.
   * A NIK is a non-empty run of digits, the sex is "MALE" or "FEMALE", and a
   * date of issue exists only when the line before the first "KEPALA DINAS"
   * line holds a signature date.
   */
  function ExtractSktt(text: string, h: Helpers): (r: Record)
    ensures Keys(r) == SkttKeys
    ensures r[11].val == Str("SKTT")
    ensures r[0].val.Str? ==> r[0].val.s != "" && AllDigits(r[0].val.s)
    ensures r[2].val.Str? ==> r[2].val.s in ["MALE", "FEMALE"]
    ensures r[10].val != Null ==> SignedBeforeMarker(SplitLines(Strip(text)))
    ensures var d := IssueDate(SplitLines(Strip(text)));
      r[10].val == if d.Some? then h.formatDate(d.value) else Null
  {
    var r := FromLists(SkttKeys, SkttValues(text, h));
    assert r[10].val == IssueVal(SplitLines(Strip(text)), h);
    r
  }
}
