/**
 * The Notifikasi extractor (`extract_notifikasi`): a decision number, seven
 * labelled one-line fields, a validity range and a date of issue written with
 * an Indonesian month name. Every pattern folds case. The record always has
 * the same ten keys, each defaulting to the empty string, and no document type.
 */
module Notifikasi {
  import opened Wrappers
  import opened Text
  import opened Records
  import opened Scan
  import opened Collaborators
  import opened Months


  /** The class `[A-Z0-9./-]` under case folding. */
  predicate DecisionChar(c: char) { IsAlnum(c) || c in "./-" }

  /** `NOMOR\s+([A-Z0-9./-]+)`. It matches wherever "Nomor" stands first, "Nomor Paspor" included. */
  const DecisionField := Field([Lits("NOMOR")], Ws1, Run(DecisionChar, 1), true)

  /**
   * `label\s*:\s*(.*)`: after the colon and any white space, which may cross
   * line breaks, the rest of the line where the value starts, possibly empty.
   */
  function LineField(name: string): Pattern {
    Field([Lits(name)], ColonWs, Run(NotNewline, 0), true)
  }

  /** The decision number, stripped, or "" when there is none. */
  function DecisionVal(text: string): (r: Val)
    ensures r.Str?
    ensures Capture(text, DecisionField).None? ==> r.s == ""
    ensures Capture(text, DecisionField).Some? ==> r.s == Capture(text, DecisionField).value
    ensures r.s != "" <==> Capture(text, DecisionField).Some?
    ensures forall j :: 0 <= j < |r.s| ==> DecisionChar(r.s[j])
  {
    var cap := Capture(text, DecisionField);
    if cap.None? then Str("")
    else
      DecisionCaptured(text);
      Str(Strip(cap.value))
  }

  /** A captured decision number is a non-empty run of its class, with no whitespace to strip. */
  lemma DecisionCaptured(text: string)
    requires Capture(text, DecisionField).Some?
    ensures var c := Capture(text, DecisionField).value;
            |c| >= 1 && (forall j :: 0 <= j < |c| ==> DecisionChar(c[j])) && Strip(c) == c
  {
    CaptureRun(text, DecisionField);
    DecisionUnpadded(Capture(text, DecisionField).value);
  }

  lemma DecisionUnpadded(c: string)
    requires |c| >= 1 && forall j :: 0 <= j < |c| ==> DecisionChar(c[j])
    ensures Strip(c) == c
  {
    assert DecisionChar(c[0]) && DecisionChar(c[|c| - 1]);
    StripUnpadded(c);
  }

  /** `find(label)`: the stripped rest of the line where the value starts, or "" when the label is absent. */
  function Find(text: string, name: string): (r: Val)
    ensures r.Str? && '\n' !in r.s
    ensures Unpadded(r.s)
    ensures Capture(text, LineField(name)).None? ==> r.s == ""
    ensures Capture(text, LineField(name)).Some? ==> r.s == Strip(Capture(text, LineField(name)).value)
  {
    var p := LineField(name);
    CaptureRun(text, p);
    match Capture(text, p)
    case None => Str("")
    case Some(c) =>
      StripClass(c, NotNewline);
      Str(Strip(c))
  }

  // ---------------------------------------------------------------- validity range

  /** `\d{2}[-/]\d{2}[-/]\d{4}` at `i`: where it ends. */
  function RangeDate(t: string, i: nat): (r: Option<nat>)
    ensures r.Some? ==> r.value == i + 10 <= |t| && TwoDigitDate(t[i..r.value], "-/", false)
  {
    if i <= |t| then DateEndShape(t, i, "-/", false); DateEnd(t, i, 2, "-/", false) else None
  }

  /**
   * `\s*:?\s*` after `e`. The date that follows starts with a digit, so only
   * the greedy choice can lead to a match.
   */
  function LeadIn(t: string, e: nat): (r: nat)
    requires e <= |t|
    ensures e <= r <= |t|
  {
    var a := e + WsRun(t, e);
    if a < |t| && t[a] == ':' then a + 1 + WsRun(t, a + 1) else a
  }

  /** `s\.?d\.?` at `i`, where it ends. */
  function Abbrev(t: string, i: nat): (r: Option<nat>)
    requires i <= |t|
    ensures r.Some? ==> i < r.value <= |t|
  {
    if i < |t| && CharEq(t[i], 's', true) then
      var j := if i + 1 < |t| && t[i + 1] == '.' then i + 2 else i + 1;
      if j < |t| && CharEq(t[j], 'd', true) then
        Some(if j + 1 < |t| && t[j + 1] == '.' then j + 2 else j + 1)
      else None
    else None
  }

  /**
   * The connector `s\.?d\.?|sampai dengan` at `i`, where it ends. The two
   * spellings differ in their second character, so at most one of them matches.
   */
  function Connector(t: string, i: nat): (r: Option<nat>)
    requires i <= |t|
    ensures r.Some? ==> i < r.value <= |t|
  {
    match Abbrev(t, i)
    case Some(e) => Some(e)
    case None => if LitAt(t, i, "sampai dengan", true) then Some(i + 13) else None
  }

  /**
   * Where the second date of a range starts, after whitespace at `w`: behind a
   * connector when one is there and a date follows it, else (unless the
   * connector is required) right at `w`. A connector begins with an 's', so
   * when one is there the date cannot start at `w` either.
   */
  function SecondStart(t: string, w: nat, connectorRequired: bool): (r: Option<nat>)
    requires w <= |t|
    ensures r.Some? ==> w <= r.value <= |t| && RangeDate(t, r.value).Some?
  {
    var conn := if connectorRequired then Abbrev(t, w) else Connector(t, w);
    var behind := if conn.Some? then conn.value + WsRun(t, conn.value) else w;
    if conn.Some? && RangeDate(t, behind).Some? then Some(behind)
    else if !connectorRequired && RangeDate(t, w).Some? then Some(w)
    else None
  }

  /** Where the connector is required and found, making it optional changes nothing. */
  lemma SecondStartRequired(t: string, w: nat)
    requires w <= |t| && SecondStart(t, w, true).Some?
    ensures SecondStart(t, w, false) == SecondStart(t, w, true)
  {
    assert Abbrev(t, w).Some?;
    assert Connector(t, w) == Abbrev(t, w);
  }

  /** A range's two captures, each a `\d{2}[-/]\d{2}[-/]\d{4}` date. */
  predicate RangeDates(h: Hit) {
    |h.caps| == 2 && TwoDigitDate(h.caps[0], "-/", false) && TwoDigitDate(h.caps[1], "-/", false)
  }

  /** The two dates of a range whose first date starts at `p`; `Hit.caps` is [start, end]. */
  function RangeFrom(t: string, p: nat, connectorRequired: bool): (r: Option<Hit>)
    requires p <= |t|
    ensures r.Some? ==> RangeDates(r.value)
  {
    match RangeDate(t, p)
    case None => None
    case Some(d1) =>
      match SecondStart(t, d1 + WsRun(t, d1), connectorRequired)
      case None => None
      case Some(q) =>
        var d2 := RangeDate(t, q).value;
        Some(Hit(d2, [t[p..d1], t[q..d2]]))
  }

  const Berlaku := "Berlaku"

  /** `Berlaku\s*:?\s*(D)\s*(?:s\.?d\.?|sampai dengan)?\s*(D)` anchored at `s`. */
  function BerlakuAt(t: string, s: nat): (r: Option<Hit>)
    ensures r.Some? ==> RangeDates(r.value)
  {
    if LitAt(t, s, Berlaku, true) then RangeFrom(t, LeadIn(t, s + 7), false) else None
  }

  /** `Tanggal Berlaku\s*:?\s*(D)\s*s\.?d\.?\s*(D)` anchored at `s`. */
  function TanggalBerlakuAt(t: string, s: nat): (r: Option<Hit>)
    ensures r.Some? ==> RangeDates(r.value)
  {
    if LitAt(t, s, "Tanggal " + Berlaku, true) then RangeFrom(t, LeadIn(t, s + 15), true) else None
  }

  /** A range with the connector required is found unchanged when the connector is optional. */
  lemma RangeFromRequired(t: string, p: nat)
    requires p <= |t| && RangeFrom(t, p, true).Some?
    ensures RangeFrom(t, p, false) == RangeFrom(t, p, true)
  {
    var d1 := RangeDate(t, p).value;
    var w := d1 + WsRun(t, d1);
    SecondStartRequired(t, w);
    var q := SecondStart(t, w, true).value;
    var d2 := RangeDate(t, q).value;
    assert RangeFrom(t, p, true) == Some(Hit(d2, [t[p..d1], t[q..d2]]));
  }

  /**
   * The second range pattern adds nothing: wherever it matches, the first
   * pattern matches eight characters later, at its "Berlaku", with the same dates.
   */
  lemma TanggalBerlakuSubsumed(t: string, s: nat)
    requires TanggalBerlakuAt(t, s).Some?
    ensures BerlakuAt(t, s + 8) == TanggalBerlakuAt(t, s)
  {
    LitAtSuffix(t, s, "Tanggal " + Berlaku, 8, true);
    assert ("Tanggal " + Berlaku)[8..] == Berlaku;
    RangeFromRequired(t, LeadIn(t, s + 15));
  }

  /** The first range match in the text: the "Berlaku" pattern, then the "Tanggal Berlaku" one. */
  function Validity(text: string): (r: Option<Hit>)
    ensures r.Some? ==> RangeDates(r.value)
  {
    match SearchFrom(text, 0, BerlakuAt)
    case Some((_, h)) => Some(h)
    case None =>
      match SearchFrom(text, 0, TanggalBerlakuAt)
      case Some((_, h)) => Some(h)
      case None => None
  }

  /** Hence the fallback search never finds anything the first search missed. */
  lemma ValidityFallbackDead(text: string)
    ensures (forall s :: 0 <= s <= |text| ==> BerlakuAt(text, s).None?) ==>
              forall s :: 0 <= s <= |text| ==> TanggalBerlakuAt(text, s).None?
  {
    forall s | 0 <= s <= |text| && TanggalBerlakuAt(text, s).Some?
      ensures s + 8 <= |text| && BerlakuAt(text, s + 8).Some?
    {
      TanggalBerlakuSubsumed(text, s);
    }
  }

  /** `f"{format_date(start)} - {format_date(end)}"`, or "" without a range. */
  function BerlakuVal(text: string, h: Helpers): (r: Val)
    ensures r.Str?
    ensures Validity(text).None? ==> r.s == ""
    ensures Validity(text).Some? ==>
              r.s == Show(h.formatDate(Validity(text).value.caps[0])) + " - "
                     + Show(h.formatDate(Validity(text).value.caps[1]))
  {
    match Validity(text)
    case None => Str("")
    case Some(v) => Str(Show(h.formatDate(v.caps[0])) + " - " + Show(h.formatDate(v.caps[1])))
  }

  /** The validity is given exactly when the "Berlaku" pattern matches somewhere in the text. */
  lemma BerlakuFound(text: string, h: Helpers)
    ensures BerlakuVal(text, h).s != "" <==> exists s :: 0 <= s <= |text| && BerlakuAt(text, s).Some?
  {
    ValidityFallbackDead(text);
    match SearchFrom(text, 0, BerlakuAt)
    case Some((p, _)) =>
    case None =>
      match SearchFrom(text, 0, TanggalBerlakuAt)
      case Some((p, _)) =>
      case None =>
  }

  // ---------------------------------------------------------------- date of issue

  /** The month alternatives of the issue-date pattern, as the pattern spells them. */
  const IssueMonthWords := ["Januari", "Februari", "Maret", "April", "Mei", "Juni", "Juli", "Agustus",
                            "September", "Oktober", "November", "Desember"]

  /** The a-th alternative lower-cased is the a-th table key. */
  lemma IssueWordFolds(a: nat)
    requires a < 12
    ensures |IssueMonthWords[a]| == |IndonesianMonths[a]|
    ensures forall k :: 0 <= k < |IssueMonthWords[a]| ==> LowerChar(IssueMonthWords[a][k]) == LowerChar(IndonesianMonths[a][k])
  {
  }

  /** A day of one or two digits, a month name of the table and a four-digit year. */
  predicate WordDateShaped(caps: seq<string>) {
    && |caps| == 3 && 1 <= |caps[0]| <= 2 && AllDigits(caps[0])
    && |caps[2]| == 4 && AllDigits(caps[2])
    && exists a :: 0 <= a < 12 && Lower(caps[1]) == IndonesianMonths[a]
  }

  /**
   * `(\d{1,2})\s+(Januari|...|Desember)\s+(\d{4})` at `q`, case folded;
   * `Hit.caps` is [day, month, year]. No alternative is a prefix of another,
   * so the first one that matches is the only one.
   */
  function WordDateAt(t: string, q: nat): (r: Option<Hit>)
    requires q <= |t|
    ensures r.Some? ==> WordDateShaped(r.value.caps)
  {
    match ShortNumber(t, q, 1)
    case None => None
    case Some(take) =>
      var d := q + take;
      var m := d + WsRun(t, d);
      if m == d then None
      else
        match FirstAlt(t, m, IssueMonthWords, true)
        case None => None
        case Some(me) =>
          var y := me + WsRun(t, me);
          if y == me || !FourDigits(t, y) then None
          else
            MonthCaptureKnown(t, m, me);
            WordDateParts(t, q, d, m, me, y);
            Some(Hit(y + 4, [t[q..d], t[m..me], t[y..y + 4]]))
  }

  lemma WordDateParts(t: string, q: nat, d: nat, m: nat, me: nat, y: nat)
    requires q <= |t| && ShortNumber(t, q, 1).Some? && d == q + ShortNumber(t, q, 1).value
    requires d <= m <= me <= y && FourDigits(t, y)
    requires exists a :: 0 <= a < 12 && Lower(t[m..me]) == IndonesianMonths[a]
    ensures WordDateShaped([t[q..d], t[m..me], t[y..y + 4]])
  {
    ShortNumberSlice(t, q, 1);
    FourDigitsSlice(t, y);
    var caps := [t[q..d], t[m..me], t[y..y + 4]];
    assert caps[0] == t[q..d] && caps[1] == t[m..me] && caps[2] == t[y..y + 4];
  }

  /** The month the alternation matched, lower-cased, is a key of the month table. */
  lemma MonthCaptureKnown(t: string, m: nat, me: nat)
    requires m <= |t| && FirstAlt(t, m, IssueMonthWords, true) == Some(me)
    ensures m <= me <= |t| && exists a :: 0 <= a < 12 && Lower(t[m..me]) == IndonesianMonths[a]
  {
    IndonesianLowerCase();
    var a :| 0 <= a < 12 && LitAt(t, m, IssueMonthWords[a], true) && me == m + |IssueMonthWords[a]|;
    var word, key := IssueMonthWords[a], IndonesianMonths[a];
    IssueWordFolds(a);
    LitAtFolded(t, m, word, key);
    LowerLit(t, m, me, key);
  }

  /** `Pada tanggal\s*:\s*` then the worded date, anchored at `s`. */
  function WordIssueAt(t: string, s: nat): (r: Option<Hit>)
    ensures r.Some? ==> |r.value.caps| == 3 && 1 <= |r.value.caps[0]| <= 2 && AllDigits(r.value.caps[0])
    ensures r.Some? ==> |r.value.caps[2]| == 4 && AllDigits(r.value.caps[2])
    ensures r.Some? ==> exists a :: 0 <= a < 12 && Lower(r.value.caps[1]) == IndonesianMonths[a]
  {
    if LitAt(t, s, "Pada tanggal", true) then
      var a := s + 12 + WsRun(t, s + 12);
      if a < |t| && t[a] == ':' then WordDateAt(t, a + 1 + WsRun(t, a + 1)) else None
    else None
  }

  /** `Pada tanggal\s*:\s*(\d{1,2}[-/]\d{1,2}[-/]\d{4})`. */
  const NumericIssueField := Field([Lits("Pada tanggal")], ColonWs, AnyDate, true)

  /** `month_map.get(month_name.lower(), '01')`. */
  function IssueMonth(monthName: string): (r: string)
    ensures r in MonthCodes
  {
    var r := MonthGet(IndonesianMonths, Lower(monthName), "01");
    assert "01" == MonthCodes[0];
    r
  }

  /** The month table's default is never used: every matched month name is a key. */
  lemma IssueMonthNumber(monthName: string, a: nat)
    requires a < 12 && Lower(monthName) == IndonesianMonths[a]
    ensures IssueMonth(monthName) == MonthCodes[a]
  {
    NamesDistinct();
    MonthGetAt(IndonesianMonths, a, "01");
  }

  /** Two, two and four digits. */
  predicate DateParts(parts: seq<string>) {
    |parts| == 3 && |parts[0]| == 2 && AllDigits(parts[0]) && |parts[1]| == 2 && AllDigits(parts[1])
    && |parts[2]| == 4 && AllDigits(parts[2])
  }

  /** dd/mm/yyyy: two, two and four digits separated by '/'. */
  predicate SlashDate(s: string) {
    DateParts(SplitOn(s, '/'))
  }

  /** Digits joined by '/' split back into the same digits. */
  lemma SlashDateJoin(day: string, month: string, year: string)
    requires DateParts([day, month, year])
    ensures SplitOn(day + "/" + month + "/" + year, '/') == [day, month, year]
    ensures SlashDate(day + "/" + month + "/" + year)
  {
    assert '/' !in day && '/' !in month && '/' !in year by {
      assert !IsDigit('/');
    }
    SplitThree(day, month, year);
  }

  /** `f"{day}/{month}/{year}"` from a worded issue date. */
  function WordIssueText(hit: Hit): (r: string)
    requires |hit.caps| == 3 && 1 <= |hit.caps[0]| <= 2 && AllDigits(hit.caps[0])
    requires |hit.caps[2]| == 4 && AllDigits(hit.caps[2])
    ensures SlashDate(r)
    ensures SplitOn(r, '/') == [ZFill2(hit.caps[0]), IssueMonth(hit.caps[1]), hit.caps[2]]
  {
    var day := ZFill2(hit.caps[0]);
    var month := IssueMonth(hit.caps[1]);
    CodeShape(month);
    SlashDateJoin(day, month, hit.caps[2]);
    day + "/" + month + "/" + hit.caps[2]
  }

  /** The first worded issue date of the text. */
  function WordIssue(text: string): (r: Option<Hit>)
    ensures r.Some? ==> |r.value.caps| == 3 && 1 <= |r.value.caps[0]| <= 2 && AllDigits(r.value.caps[0])
    ensures r.Some? ==> |r.value.caps[2]| == 4 && AllDigits(r.value.caps[2])
    ensures r.Some? ==> exists a :: 0 <= a < 12 && Lower(r.value.caps[1]) == IndonesianMonths[a]
    ensures r.None? <==> forall s :: 0 <= s <= |text| ==> WordIssueAt(text, s).None?
  {
    var m := (t: string, s: nat) => WordIssueAt(t, s);
    assert forall s :: m(text, s) == WordIssueAt(text, s);
    match SearchFrom(text, 0, m)
    case None => None
    case Some((_, hit)) => Some(hit)
  }

  /**
   * The date of issue: a worded date rewritten as dd/mm/yyyy without `format_date`;
   * else a numeric date handed to `format_date`; else "".
   */
  function IssueVal(text: string, h: Helpers): (r: Val)
    ensures WordIssue(text).Some? ==> r.Str? && SlashDate(r.s)
    ensures WordIssue(text).None? && Capture(text, NumericIssueField).Some? ==>
              r == h.formatDate(Capture(text, NumericIssueField).value)
    ensures WordIssue(text).None? && Capture(text, NumericIssueField).None? ==> r == Str("")
  {
    match WordIssue(text)
    case Some(hit) => Str(WordIssueText(hit))
    case None =>
      match Capture(text, NumericIssueField)
      case Some(c) => h.formatDate(c)
      case None => Str("")
  }

  /** A worded date of issue keeps its day, its year and the number of its month. */
  lemma WordIssueParts(text: string, h: Helpers)
    requires WordIssue(text).Some?
    ensures var hit := WordIssue(text).value;
            exists a :: 0 <= a < 12 && Lower(hit.caps[1]) == IndonesianMonths[a]
                        && SplitOn(IssueVal(text, h).s, '/') == [ZFill2(hit.caps[0]), MonthCodes[a], hit.caps[2]]
  {
    var hit := WordIssue(text).value;
    var a :| 0 <= a < 12 && Lower(hit.caps[1]) == IndonesianMonths[a];
    IssueMonthNumber(hit.caps[1], a);
  }

  // ---------------------------------------------------------------- the record

  const NotifikasiKeys := ["Nomor Keputusan", "Nama TKA", "Tempat/Tanggal Lahir", "Kewarganegaraan",
                           "Alamat Tempat Tinggal", "Nomor Paspor", "Jabatan", "Lokasi Kerja", "Berlaku", "Date Issue"]

  datatype Fields = Fields(decision: Val, name: Val, birth: Val, nationality: Val, address: Val, passport: Val,
                           position: Val, workplace: Val, validity: Val, dateIssue: Val)

  /** The ten fields of one Notifikasi text. */
  function Extract(text: string, h: Helpers): (f: Fields)
    ensures f.decision == DecisionVal(text) && f.validity == BerlakuVal(text, h) && f.dateIssue == IssueVal(text, h)
    ensures f.name == Find(text, "Nama TKA") && f.passport == Find(text, "Nomor Paspor")
    ensures Strings(f)
  {
    Fields(DecisionVal(text), Find(text, "Nama TKA"), Find(text, "Tempat/Tanggal Lahir"),
           Find(text, "Kewarganegaraan"), Find(text, "Alamat Tempat Tinggal"), Find(text, "Nomor Paspor"),
           Find(text, "Jabatan"), Find(text, "Lokasi Kerja"), BerlakuVal(text, h), IssueVal(text, h))
  }

  /** Every field but the date of issue is a string. */
  predicate Strings(f: Fields) {
    f.decision.Str? && f.name.Str? && f.birth.Str? && f.nationality.Str? && f.address.Str? && f.passport.Str?
    && f.position.Str? && f.workplace.Str? && f.validity.Str?
  }

  function Values(f: Fields): (vs: seq<Val>)
    ensures |vs| == 10
  {
    [f.decision, f.name, f.birth, f.nationality, f.address, f.passport, f.position, f.workplace, f.validity,
     f.dateIssue]
  }

  /** The dictionary: the ten keys in order. */
  function ToRecord(f: Fields): (r: Record)
    ensures Keys(r) == NotifikasiKeys && "Jenis Dokumen" !in Keys(r)
    ensures forall i :: 0 <= i < 10 ==> r[i] == Entry(NotifikasiKeys[i], Values(f)[i])
    ensures Strings(f) ==> forall i :: 0 <= i < 9 ==> r[i].val.Str?
    ensures r[0].val == f.decision && r[8].val == f.validity && r[9].val == f.dateIssue
  {
    FromLists(NotifikasiKeys, Values(f))
  }

  /**
   * `extract_notifikasi(text)`: exactly the ten keys, no document type, and
   * every field but the date of issue a string ("" when not found).
   */
  function ExtractNotifikasi(text: string, h: Helpers): (r: Record)
    ensures Keys(r) == NotifikasiKeys && "Jenis Dokumen" !in Keys(r)
    ensures forall i :: 0 <= i < 9 ==> r[i].val.Str?
    ensures r[0].val == DecisionVal(text) && r[8].val == BerlakuVal(text, h) && r[9].val == IssueVal(text, h)
  {
    ToRecord(Extract(text, h))
  }
}
