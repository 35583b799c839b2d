/**
 * The ITAS and ITK extractors (`extract_itas`, extractors.py:136-212, and
 * `extract_itk`, extractors.py:215-291). Both are the same thirteen
 * assignments; they differ only in the document type they write last.
 */
module Permit {
  import opened Wrappers
  import opened Text
  import opened Records
  import opened Scan
  import opened Collaborators
  import opened Months

  predicate UpperOrSpace(c: char) { IsUpper(c) || IsSpace(c) }
  predicate PermitChar(c: char) { IsUpper(c) || IsDigit(c) || c == '-' }
  predicate UpperOrDigit(c: char) { IsUpper(c) || IsDigit(c) }

  // ---------------------------------------------------------------- the name

  const PermitMark := "\nPERMIT NUMBER"

  /**
   * The last `p` in `[lo, hi)` where "\nPERMIT NUMBER" starts: the greedy
   * `[A-Z\s]+` handing characters back one at a time stops at the first
   * such `p` it reaches from the right.
   */
  function LastMark(t: string, lo: nat, hi: nat): (r: Option<nat>)
    ensures r.Some? ==> lo <= r.value < hi && LitAt(t, r.value, PermitMark, false)
    ensures r.Some? ==> forall p :: r.value < p < hi ==> !LitAt(t, p, PermitMark, false)
    ensures r.None? ==> forall p :: lo <= p < hi ==> !LitAt(t, p, PermitMark, false)
    decreases hi
  {
    if hi <= lo then None
    else if LitAt(t, hi - 1, PermitMark, false) then Some(hi - 1)
    else LastMark(t, lo, hi - 1)
  }

  /**
   * `([A-Z\s]+)\nPERMIT NUMBER` anchored at `s`. The '\n' belongs to the
   * class, so the group can only end inside the run of capitals and
   * whitespace that starts at `s`, and at least one character in.
   */
  function NameAt(t: string, s: nat): (r: Option<Hit>)
    ensures r.Some? ==> |r.value.caps| == 1 && s < r.value.end <= |t|
    ensures r.Some? ==> var g := r.value.caps[0];
              && g != [] && (forall j :: 0 <= j < |g| ==> UpperOrSpace(g[j]))
              && LitAt(t, s + |g|, PermitMark, false)
  {
    if s >= |t| || !UpperOrSpace(t[s]) then None
    else
      var e := s + RunLen(t, s, UpperOrSpace);
      match LastMark(t, s + 1, e)
      case None => None
      case Some(p) =>
        var g := t[s..p];
        assert forall j :: 0 <= j < |g| ==> g[j] == t[s + j];
        Some(Hit(p + |PermitMark|, [g]))
  }

  /** The name: group 1 of the name pattern, stripped. */
  function NameVal(text: string): (r: Val)
    ensures r.Str? ==> forall j :: 0 <= j < |r.s| ==> UpperOrSpace(r.s[j])
    ensures r.Str? ==> Unpadded(r.s)
    ensures r.Str? <==> exists s :: 0 <= s <= |text| && NameAt(text, s).Some?
  {
    var m := (t: string, s: nat) => NameAt(t, s);
    assert forall s :: m(text, s) == NameAt(text, s);
    match SearchFrom(text, 0, m)
    case None => Null
    case Some((_, hit)) =>
      var g := hit.caps[0];
      StripClass(g, UpperOrSpace);
      Str(Strip(g))
  }

  // ---------------------------------------------------------------- labelled fields

  // Every pattern here is case-sensitive; `.` in `(.+)` is any character but a newline.
  const PermitNumberField := Field([Lits("PERMIT NUMBER")], ColonWs, Run(PermitChar, 1), false)
  const StayExpiryField := Field([Lits("STAY PERMIT EXPIRY")], ColonWs, Run(c => IsDigit(c) || c == '/', 1), false)
  const PassportNumberField := Field([Lits("Passport Number")], ColonSpace, Run(UpperOrDigit, 1), false)
  const PassportExpiryField := Field([Lits("Passport Expiry")], ColonSpace, Run(c => IsDigit(c) || c == '-', 1), false)
  const NationalityField := Field([Lits("Nationality")], ColonSpace, Run(IsUpper, 1), false)
  const GenderField := Field([Lits("Gender")], ColonSpace, Run(IsUpper, 1), false)

  /** `name\s*:\s*(.+)` */
  function LineField(name: string): Pattern {
    Field([Lits(name)], ColonWs, Run(NotNewline, 1), false)
  }

  /** A field taken as captured. */
  function Raw(text: string, p: Pattern): (r: Val)
    requires p.g.Run?
    ensures r.Str? <==> Capture(text, p).Some?
    ensures r.Str? ==> |r.s| >= p.g.min && forall j :: 0 <= j < |r.s| ==> p.g.k(r.s[j])
  {
    CaptureRun(text, p);
    match Capture(text, p)
    case None => Null
    case Some(c) => Str(c)
  }

  /** A free-text field `name\s*:\s*(.+)`, stripped: one line without surrounding whitespace. */
  function Stripped(text: string, name: string): (r: Val)
    ensures r.Str? <==> Capture(text, LineField(name)).Some?
    ensures r.Str? ==> '\n' !in r.s
    ensures r.Str? ==> Unpadded(r.s)
  {
    var p := LineField(name);
    CaptureRun(text, p);
    match Capture(text, p)
    case None => Null
    case Some(c) =>
      StripClass(c, NotNewline);
      Str(Strip(c))
  }

  /** A date field handed to `format_date`. */
  function Formatted(text: string, p: Pattern, h: Helpers): (r: Val)
    ensures Capture(text, p).None? ==> r == Null
    ensures Capture(text, p).Some? ==> r == h.formatDate(Capture(text, p).value)
  {
    match Capture(text, p)
    case None => Null
    case Some(c) => h.formatDate(c)
  }

  /** `f"{place}, {format_date(date)}"` over the stripped groups; `None` renders as "None". */
  function BirthVal(text: string, h: Helpers, c: Captures): (r: Val)
    ensures c.placeDateOfBirth(text).None? ==> r == Null
    ensures c.placeDateOfBirth(text).Some? ==> r.Str? && r.s == Strip(c.placeDateOfBirth(text).value.0) + ", "
                                                + Show(h.formatDate(Strip(c.placeDateOfBirth(text).value.1)))
  {
    match c.placeDateOfBirth(text)
    case None => Null
    case Some((place, date)) => Str(Strip(place) + ", " + Show(h.formatDate(Strip(date))))
  }

  // ---------------------------------------------------------------- the date of issue

  /** `\s+([A-Za-z]+)\s+(\d{4})` at `i`: the month word and the year. */
  function MonthYearAt(t: string, i: nat): (r: Option<Hit>)
    requires i <= |t|
    ensures r.Some? ==> i < r.value.end <= |t| && |r.value.caps| == 2 && r.value.caps[0] != []
    ensures r.Some? ==> forall j :: 0 <= j < |r.value.caps[0]| ==> IsAlpha(r.value.caps[0][j])
    ensures r.Some? ==> |r.value.caps[1]| == 4 && AllDigits(r.value.caps[1])
  {
    var m := i + WsRun(t, i);
    var e := m + RunLen(t, m, IsAlpha);
    var y := e + WsRun(t, e);
    if m == i || e == m || y == e || !FourDigits(t, y) then None
    else
      SliceClass(t, m, e, IsAlpha);
      SliceClass(t, y, y + 4, IsDigit);
      Some(Hit(y + 4, [t[m..e], t[y..y + 4]]))
  }

  /** `(\d{1,2})\s+([A-Za-z]+)\s+(\d{4})` at `d`: the day, the month word and the year. */
  function DayMonthYearAt(t: string, d: nat): (r: Option<Hit>)
    requires d <= |t|
    ensures r.Some? ==> d < r.value.end <= |t| && |r.value.caps| == 3
    ensures r.Some? ==> 1 <= |r.value.caps[0]| <= 2 && AllDigits(r.value.caps[0])
    ensures r.Some? ==> r.value.caps[1] != [] && forall j :: 0 <= j < |r.value.caps[1]| ==> IsAlpha(r.value.caps[1][j])
    ensures r.Some? ==> |r.value.caps[2]| == 4 && AllDigits(r.value.caps[2])
  {
    var n := DigitRun(t, d);
    var take := if n < 2 then n else 2;
    if take == 0 then None
    else
      match MonthYearAt(t, d + take)
      case None => None
      case Some(h) =>
        SliceClass(t, d, d + take, IsDigit);
        Some(Hit(h.end, [t[d..d + take]] + h.caps))
  }

  /**
   * `([A-Za-z]+),\s*(\d{1,2})\s+([A-Za-z]+)\s+(\d{4})` anchored at `s`,
   * with its four groups. Every element is followed by one that no
   * character of its own class can start, so only the greedy choice at each
   * step can succeed.
   */
  function SignedDateAt(t: string, s: nat): (r: Option<Hit>)
    ensures r.Some? ==> s < r.value.end <= |t| && |r.value.caps| == 4
    ensures r.Some? ==> 1 <= |r.value.caps[1]| <= 2 && AllDigits(r.value.caps[1])
    ensures r.Some? ==> forall j :: 0 <= j < |r.value.caps[2]| ==> IsAlpha(r.value.caps[2][j])
    ensures r.Some? ==> |r.value.caps[3]| == 4 && AllDigits(r.value.caps[3])
  {
    if s >= |t| then None
    else
      var c := s + RunLen(t, s, IsAlpha);
      if c == s || c >= |t| || t[c] != ',' then None
      else
        match DayMonthYearAt(t, c + 1 + WsRun(t, c + 1))
        case None => None
        case Some(h) => Some(Hit(h.end, [t[s..c]] + h.caps))
  }

  /**
   * `month_dict.get(month, month)`: an English month name, spelt exactly,
   * becomes its two-digit number; anything else is kept as it is.
   */
  function MonthNumber(month: string): (r: string)
    ensures month !in EnglishMonths ==> r == month
    ensures month in EnglishMonths ==> |r| == 2 && AllDigits(r)
    ensures r == month || (|r| == 2 && AllDigits(r))
  {
    var r := MonthGet(EnglishMonths, month, month);
    if month in EnglishMonths then
      CodeShape(r);
      r
    else r
  }

  /** The i-th English month becomes the i-th number, since no name occurs twice. */
  lemma MonthNumberAt(i: nat)
    requires i < 12
    ensures MonthNumber(EnglishMonths[i]) == MonthCodes[i]
  {
    NamesDistinct();
    MonthGetAt(EnglishMonths, i, EnglishMonths[i]);
  }

  /** The lookup folds no case: a lower-case month name is passed through untranslated. */
  lemma MonthExactCase()
    ensures MonthNumber("january") == "january"
    ensures MonthNumber("January") == "01"
  {
    assert "january" !in EnglishMonths;
    MonthNumberAt(0);
  }

  function SignedDateText(day: string, month: string, year: string): string {
    ZFill2(day) + "/" + MonthNumber(month) + "/" + year
  }

  /** Splitting the rewritten date at '/' gives back its three parts, when none of them holds a '/'. */
  lemma SignedDateSplit(day: string, month: string, year: string)
    requires '/' !in day && '/' !in month && '/' !in year
    ensures SplitOn(SignedDateText(day, month, year), '/') == [ZFill2(day), MonthNumber(month), year]
  {
    var m := MonthNumber(month);
    assert '/' !in m;
    assert '/' !in ZFill2(day);
    SplitThree(ZFill2(day), MonthNumber(month), year);
  }

  /** The first signed date of the text, as its three '/'-separated parts' source. */
  function SignedDate(text: string): (r: Option<Hit>)
    ensures r.Some? ==> |r.value.caps| == 4 && 1 <= |r.value.caps[1]| <= 2 && AllDigits(r.value.caps[1])
    ensures r.Some? ==> (forall j :: 0 <= j < |r.value.caps[2]| ==> IsAlpha(r.value.caps[2][j]))
                        && |r.value.caps[3]| == 4 && AllDigits(r.value.caps[3])
    ensures r.None? <==> forall s :: 0 <= s <= |text| ==> SignedDateAt(text, s).None?
  {
    var m := (t: string, s: nat) => SignedDateAt(t, s);
    assert forall s :: m(text, s) == SignedDateAt(text, s);
    match SearchFrom(text, 0, m)
    case None => None
    case Some((_, hit)) => Some(hit)
  }

  /** The fallback `(\d{1,2})[/-](\d{1,2})[/-](\d{4})`, whose whole match (`group(0)`) is used. */
  const FallbackDate := Bare(AnyDate, false)

  /**
   * The string handed to `format_date` for the date of issue: the signed
   * date rewritten as day/month/year with a two-digit day when there is
   * one, otherwise the first numeric date, otherwise nothing.
   */
  function IssueSource(text: string): (r: Option<string>)
    ensures SignedDate(text).Some? ==> r.Some? && SplitOn(r.value, '/') == SignedParts(SignedDate(text).value)
    ensures SignedDate(text).None? ==> r == Capture(text, FallbackDate)
  {
    match SignedDate(text)
    case Some(hit) => Some(SignedSource(hit))
    case None => Capture(text, FallbackDate)
  }

  /** The rewritten signed date: splitting it at '/' gives back its three parts. */
  function SignedSource(hit: Hit): (r: string)
    requires |hit.caps| == 4 && 1 <= |hit.caps[1]| <= 2 && AllDigits(hit.caps[1])
    requires (forall j :: 0 <= j < |hit.caps[2]| ==> IsAlpha(hit.caps[2][j])) && AllDigits(hit.caps[3])
    ensures SplitOn(r, '/') == SignedParts(hit)
  {
    var day := hit.caps[1];
    var month := hit.caps[2];
    var year := hit.caps[3];
    assert '/' !in day && '/' !in month && '/' !in year by {
      assert forall j :: 0 <= j < |day| ==> day[j] != '/';
      assert forall j :: 0 <= j < |month| ==> IsAlpha(month[j]) && month[j] != '/';
      assert forall j :: 0 <= j < |year| ==> year[j] != '/';
    }
    SignedDateSplit(day, month, year);
    SignedDateText(day, month, year)
  }

  /**
   * The three parts a signed date is rewritten into: the day padded to two
   * digits, the month number (or the word as found) and the four-digit year.
   */
  function SignedParts(hit: Hit): (r: seq<string>)
    requires |hit.caps| == 4 && 1 <= |hit.caps[1]| <= 2 && AllDigits(hit.caps[1])
    ensures |r| == 3 && |r[0]| == 2 && AllDigits(r[0])
  {
    [ZFill2(hit.caps[1]), MonthNumber(hit.caps[2]), hit.caps[3]]
  }

  function IssueVal(text: string, h: Helpers): (r: Val)
    ensures IssueSource(text).None? ==> r == Null
    ensures IssueSource(text).Some? ==> r == h.formatDate(IssueSource(text).value)
  {
    match IssueSource(text)
    case None => Null
    case Some(s) => h.formatDate(s)
  }

  // ---------------------------------------------------------------- the record

  const PermitKeys := ["Name", "Permit Number", "Stay Permit Expiry", "Place & Date of Birth", "Passport Number",
                       "Passport Expiry", "Nationality", "Gender", "Address", "Occupation", "Guarantor",
                       "Date Issue", "Jenis Dokumen"]

  /** The twelve fields both extractors compute alike, in the order they are assigned. */
  datatype Fields = Fields(name: Val, permitNumber: Val, stayExpiry: Val, birth: Val, passportNumber: Val,
                           passportExpiry: Val, nationality: Val, gender: Val, address: Val, occupation: Val,
                           guarantor: Val, dateIssue: Val)

  /** The fields of one permit text. */
  function Extract(text: string, h: Helpers, c: Captures): (f: Fields)
    ensures f.name.Str? ==> forall j :: 0 <= j < |f.name.s| ==> UpperOrSpace(f.name.s[j])
    ensures f.permitNumber.Str? ==> f.permitNumber.s != [] && forall j :: 0 <= j < |f.permitNumber.s| ==> PermitChar(f.permitNumber.s[j])
    ensures f.passportNumber.Str? ==>
              f.passportNumber.s != [] && forall j :: 0 <= j < |f.passportNumber.s| ==> UpperOrDigit(f.passportNumber.s[j])
    ensures f.gender.Str? ==> f.gender.s != [] && forall j :: 0 <= j < |f.gender.s| ==> IsUpper(f.gender.s[j])
    ensures f.address.Str? ==> '\n' !in f.address.s
    ensures f.dateIssue == IssueVal(text, h)
  {
    Fields(NameVal(text), Raw(text, PermitNumberField), Formatted(text, StayExpiryField, h), BirthVal(text, h, c),
           Raw(text, PassportNumberField), Formatted(text, PassportExpiryField, h), Raw(text, NationalityField),
           Raw(text, GenderField), Stripped(text, "Address"), Stripped(text, "Occupation"),
           Stripped(text, "Guarantor"), IssueVal(text, h))
  }

  /** The field values in key order. */
  function Values(f: Fields): (vs: seq<Val>)
    ensures |vs| == 12
  {
    [f.name, f.permitNumber, f.stayExpiry, f.birth, f.passportNumber, f.passportExpiry, f.nationality, f.gender,
     f.address, f.occupation, f.guarantor, f.dateIssue]
  }

  /** The dictionary: the thirteen keys in order, with the given document type last. */
  function ToRecord(f: Fields, tag: string): (r: Record)
    ensures Keys(r) == PermitKeys && r[12].val == Str(tag)
    ensures forall i :: 0 <= i < 12 ==> r[i] == Entry(PermitKeys[i], Values(f)[i])
    ensures r[0].val == f.name && r[1].val == f.permitNumber && r[4].val == f.passportNumber
    ensures r[7].val == f.gender && r[8].val == f.address && r[11].val == f.dateIssue
  {
    FromLists(PermitKeys, Values(f) + [Str(tag)])
  }

  /** The record both extractors build. */
  function PermitRecord(text: string, h: Helpers, c: Captures, tag: string): (r: Record)
    ensures Keys(r) == PermitKeys && r[12].val == Str(tag)
    ensures r[0].val.Str? ==> forall j :: 0 <= j < |r[0].val.s| ==> UpperOrSpace(r[0].val.s[j])
    ensures r[1].val.Str? ==> r[1].val.s != [] && forall j :: 0 <= j < |r[1].val.s| ==> PermitChar(r[1].val.s[j])
    ensures r[4].val.Str? ==> r[4].val.s != [] && forall j :: 0 <= j < |r[4].val.s| ==> UpperOrDigit(r[4].val.s[j])
    ensures r[7].val.Str? ==> r[7].val.s != [] && forall j :: 0 <= j < |r[7].val.s| ==> IsUpper(r[7].val.s[j])
    ensures r[11].val == IssueVal(text, h)
  {
    ToRecord(Extract(text, h, c), tag)
  }

  /** `extract_itas(text)`: the ITAS document type, and no "Error" or "filename" key. */
  function ExtractItas(text: string, h: Helpers, c: Captures): (r: Record)
    ensures Keys(r) == PermitKeys && r[12].val == Str("ITAS")
    ensures "Error" !in Keys(r) && "filename" !in Keys(r) && Get(r, "Jenis Dokumen") == Str("ITAS")
  {
    var r := PermitRecord(text, h, c, "ITAS");
    Stamped(r, "ITAS");
    r
  }

  /** `extract_itk(text)`: the ITK document type, and no "Error" or "filename" key. */
  function ExtractItk(text: string, h: Helpers, c: Captures): (r: Record)
    ensures Keys(r) == PermitKeys && r[12].val == Str("ITK")
    ensures "Error" !in Keys(r) && "filename" !in Keys(r) && Get(r, "Jenis Dokumen") == Str("ITK")
  {
    var r := PermitRecord(text, h, c, "ITK");
    Stamped(r, "ITK");
    r
  }

  /** A record with the permit keys has neither added field, and the type stored last. */
  lemma Stamped(r: Record, tag: string)
    requires Keys(r) == PermitKeys && r[12].val == Str(tag)
    ensures "Error" !in Keys(r) && "filename" !in Keys(r) && Get(r, "Jenis Dokumen") == Str(tag)
  {
    PermitKeyFacts();
    LookupFirst(r, "Jenis Dokumen", 12);
  }

  lemma PermitKeyFacts()
    ensures "Error" !in PermitKeys && "filename" !in PermitKeys && PermitKeys[12] == "Jenis Dokumen"
    ensures forall j :: 0 <= j < 12 ==> PermitKeys[j] != "Jenis Dokumen"
  {
  }

  /** ITAS and ITK documents give the same record but for the document type. */
  lemma ItasItkAgree(text: string, h: Helpers, c: Captures)
    ensures ExtractItas(text, h, c)[..12] == ExtractItk(text, h, c)[..12]
    ensures ExtractItas(text, h, c)[12] != ExtractItk(text, h, c)[12]
  {
    TagOnly(Extract(text, h, c), "ITAS", "ITK");
  }

  /** Two records of the same fields differ only in the type stored last. */
  lemma TagOnly(f: Fields, tag1: string, tag2: string)
    requires tag1 != tag2
    ensures ToRecord(f, tag1)[..12] == ToRecord(f, tag2)[..12] && ToRecord(f, tag1)[12] != ToRecord(f, tag2)[12]
  {
    var a := ToRecord(f, tag1);
    var b := ToRecord(f, tag2);
    assert forall i :: 0 <= i < 12 ==> a[i] == b[i];
  }
}
