/**
 * The tabular pass of the DKPTKA extractor (`extract_from_table_format`,
 * extractors.py:394-443). A line that looks like a table row is cut into
 * columns; every non-empty column of a row with at least four columns is
 * classified by an `if`/`elif` chain and, when some branch takes it,
 * assigned to one of six fields, a later cell overwriting an earlier one.
 */
module Table {
  import opened Wrappers
  import opened Text
  import opened Records
  import opened Cleaning

  // ---------------------------------------------------------------- keys

  const Employer := "Nama Pemberi Kerja"
  const Worker := "Nama TKA"
  const Passport := "Nomor Paspor"
  const Nationality := "Kewarganegaraan"
  const Position := "Jabatan"
  const Amount := "DKPTKA"

  /** The six fields the table pass can fill in, which are also the fields of the labelled fallback. */
  const CoreKeys := [Employer, Worker, Passport, Nationality, Position, Amount]

  // ---------------------------------------------------------------- rows

  const RowKeywords := ["CHINA", "INDONESIA", "ENGINEER", "MANAGER", "US$", "USD", "PT", "CV"]
  const CompanyWords := ["PT", "CV", "COMPANY", "CORP", "LTD", "INDUSTRY", "NICKEL", "STEEL", "MINING"]
  const Countries := ["CHINA", "REPUBLIK RAKYAT CHINA", "INDONESIA", "MALAYSIA", "SINGAPORE", "THAILAND",
                      "VIETNAM", "PHILIPPINES", "INDIA", "BANGLADESH", "MYANMAR", "KOREA", "JAPAN"]
  const Jobs := ["ENGINEER", "MANAGER", "SUPERVISOR", "DIRECTOR", "TECHNICIAN", "OPERATOR", "SPECIALIST",
                 "COORDINATOR", "ASSISTANT", "MECHANICAL", "ELECTRICAL", "CIVIL", "CHEMICAL", "INDUSTRIAL"]
  const Currencies := ["US$", "USD", "$"]

  /**
   * The keyword lists, as the one parameter the classification functions
   * take; the pass itself always uses `Keywords`.
   */
  datatype Vocabulary = Vocabulary(rowWords: seq<string>, companies: seq<string>, countries: seq<string>,
                                   jobs: seq<string>, currencies: seq<string>)

  const Keywords := Vocabulary(RowKeywords, CompanyWords, Countries, Jobs, Currencies)

  /** A line the pass looks at: it holds a tab, or four or more tokens and a row keyword in upper case. */
  predicate RowLike(line: string, v: Vocabulary) {
    '\t' in line || (|Tokens(line)| >= 4 && ContainsAny(Upper(line), v.rowWords))
  }

  /** The columns of a row: cut at tabs when there is one, else at gaps of two or more spaces of the stripped line. */
  function Columns(line: string): seq<string> {
    if '\t' in line then SplitOn(line, '\t') else SplitWideGaps(Strip(line))
  }

  /** One stripped column of a classified row, with its index. */
  datatype Cell = Cell(col: nat, text: string)

  /** The stripped cells of a row's columns. */
  function CellsOf(parts: seq<string>): (r: seq<Cell>)
    ensures |r| == |parts| && forall j :: 0 <= j < |r| ==> r[j] == Cell(j, Strip(parts[j]))
  {
    seq(|parts|, j requires 0 <= j < |parts| => Cell(j, Strip(parts[j])))
  }

  /**
   * The cells a line contributes: none unless it is row-like and has at
   * least four columns, otherwise one stripped cell per column.
   */
  function RowCells(line: string, v: Vocabulary): (r: seq<Cell>)
    ensures r != [] ==> RowLike(line, v) && |Columns(line)| >= 4
  {
    if RowLike(line, v) && |Columns(line)| >= 4 then CellsOf(Columns(line)) else []
  }

  /** The cells of all lines, in order. */
  function TableCells(lines: seq<string>, v: Vocabulary): seq<Cell>
    decreases |lines|
  {
    if lines == [] then [] else TableCells(lines[..|lines| - 1], v) + RowCells(lines[|lines| - 1], v)
  }

  // ---------------------------------------------------------------- cells

  /** `re.match(r'^[A-Z\s]+$', part)` on a stripped part. */
  predicate CapitalsAndSpaces(s: string) {
    s != [] && forall i :: 0 <= i < |s| ==> IsUpper(s[i]) || IsSpace(s[i])
  }

  /** `re.match(r'^[A-Z0-9]{6,12}$', part)` on a stripped part. */
  predicate PassportShaped(s: string) {
    6 <= |s| <= 12 && forall i :: 0 <= i < |s| ==> IsUpper(s[i]) || IsDigit(s[i])
  }

  /** `re.search(r'\d', part)`. */
  predicate HasDigit(s: string) {
    exists i :: 0 <= i < |s| && IsDigit(s[i])
  }

  /** The field the `if`/`elif` chain of extractors.py:412-441 assigns a cell to, if any. */
  function Classify(c: Cell, v: Vocabulary): (k: Option<string>)
    ensures k.Some? ==> c.text != []
    ensures k.Some? ==> k.value == Employer || k.value == Worker || k.value == Passport || k.value == Nationality
                        || k.value == Position || k.value == Amount
  {
    var up := Upper(c.text);
    if c.text == [] then None
    else if c.col == 0 && ContainsAny(up, v.companies) then Some(Employer)
    else if c.col == 1 && CapitalsAndSpaces(c.text) && |Tokens(c.text)| >= 2 then Some(Worker)
    else if PassportShaped(c.text) then Some(Passport)
    else if ContainsAny(up, v.countries) then Some(Nationality)
    else if ContainsAny(up, v.jobs) then Some(Position)
    else if ContainsAny(up, v.currencies) && HasDigit(c.text) then Some(Amount)
    else None
  }

  /** The value a classified cell is stored as: a passport as it stands, anything else cleaned. */
  function CellValue(k: string, text: string): Val {
    if k == Passport then Str(text) else Clean(text)
  }

  /** What one cell does: assign a value to a field, or nothing. */
  type Decision = Option<Entry<Val>>

  function Decide(c: Cell, v: Vocabulary): (a: Decision)
    ensures a.Some? ==> Classify(c, v) == Some(a.value.key) && a.value.val == CellValue(a.value.key, c.text)
    ensures a.None? ==> Classify(c, v).None?
  {
    match Classify(c, v)
    case None => None
    case Some(k) => Some(Entry(k, CellValue(k, c.text)))
  }

  function Decisions(cells: seq<Cell>, v: Vocabulary): (ds: seq<Decision>)
    ensures |ds| == |cells| && forall i :: 0 <= i < |ds| ==> ds[i] == Decide(cells[i], v)
  {
    seq(|cells|, i requires 0 <= i < |cells| => Decide(cells[i], v))
  }

  /** `d[key] = value` for an assigning decision. */
  function Put(d: Record, a: Decision): Record {
    match a
    case None => d
    case Some(e) => Set(d, e.key, e.val)
  }

  /** The dictionary after the decisions in order, from an empty one. */
  function Run(ds: seq<Decision>): Record
    decreases |ds|
  {
    if ds == [] then [] else Put(Run(ds[..|ds| - 1]), ds[|ds| - 1])
  }

  /** The dictionary after assigning `cells` in order, from an empty one. */
  function Apply(cells: seq<Cell>, v: Vocabulary): Record {
    Run(Decisions(cells, v))
  }

  /** The cells of a text's lines, with the fixed keyword lists. */
  function TextCells(text: string): seq<Cell> {
    TableCells(SplitOn(text, '\n'), Keywords)
  }

  /** `extract_from_table_format(text)`. */
  function TableRecord(text: string): Record {
    Apply(TextCells(text), Keywords)
  }

  // ---------------------------------------------------------------- reference definition

  /** Where the last cell classified as `k` is, if any. */
  function LastAssigned(cells: seq<Cell>, k: string, v: Vocabulary): (r: Option<nat>)
    ensures r.Some? ==> r.value < |cells| && Classify(cells[r.value], v) == Some(k)
                        && forall j :: r.value < j < |cells| ==> Classify(cells[j], v) != Some(k)
    ensures r.None? ==> forall i :: 0 <= i < |cells| ==> Classify(cells[i], v) != Some(k)
    decreases |cells|
  {
    if cells == [] then None
    else
      var n := |cells| - 1;
      if Classify(cells[n], v) == Some(k) then Some(n)
      else
        assert forall i :: 0 <= i < n ==> cells[..n][i] == cells[i];
        LastAssigned(cells[..n], k, v)
  }

  /** The value of the last cell classified as `k`: the one that wins. */
  function LastValue(cells: seq<Cell>, k: string, v: Vocabulary): (r: Option<Val>)
    ensures r.Some? ==> exists i :: 0 <= i < |cells| && Classify(cells[i], v) == Some(k)
                                  && r.value == CellValue(k, cells[i].text)
                                  && forall j :: i < j < |cells| ==> Classify(cells[j], v) != Some(k)
    ensures r.None? ==> forall i :: 0 <= i < |cells| ==> Classify(cells[i], v) != Some(k)
  {
    match LastAssigned(cells, k, v)
    case None => None
    case Some(i) => Some(CellValue(k, cells[i].text))
  }

  lemma DecisionsConcat(a: seq<Cell>, b: seq<Cell>, v: Vocabulary)
    ensures Decisions(a + b, v) == Decisions(a, v) + Decisions(b, v)
  {
    var whole, parts := Decisions(a + b, v), Decisions(a, v) + Decisions(b, v);
    forall i | 0 <= i < |whole|
      ensures whole[i] == parts[i]
    {
      if i < |a| {
        assert (a + b)[i] == a[i];
      } else {
        assert (a + b)[i] == b[i - |a|];
      }
    }
    assert whole == parts;
  }

  lemma RunAppend(ds: seq<Decision>, a: Decision)
    ensures Run(ds + [a]) == Put(Run(ds), a)
  {
    assert (ds + [a])[..|ds|] == ds;
  }

  /** Each field of the table dictionary holds the value of the last cell assigned to it. */
  lemma {:induction false} ApplyLookup(cells: seq<Cell>, k: string, v: Vocabulary)
    ensures Lookup(Apply(cells, v), k) == LastValue(cells, k, v)
    decreases |cells|
  {
    if cells != [] {
      var n := |cells| - 1;
      assert cells == cells[..n] + [cells[n]];
      DecisionsConcat(cells[..n], [cells[n]], v);
      RunAppend(Decisions(cells[..n], v), Decide(cells[n], v));
      ApplyLookup(cells[..n], k, v);
      if Classify(cells[n], v) != Some(k) {
        assert LastAssigned(cells, k, v) == LastAssigned(cells[..n], k, v);
        match LastAssigned(cells[..n], k, v)
        case None =>
        case Some(i) => assert cells[..n][i] == cells[i];
      }
    }
  }

  /** The table dictionary has distinct keys, all of them among the six fields. */
  lemma {:induction false} ApplyKeys(cells: seq<Cell>, v: Vocabulary)
    ensures DistinctKeys(Apply(cells, v))
    ensures forall k :: k in Keys(Apply(cells, v)) ==> k in CoreKeys
    decreases |cells|
  {
    if cells != [] {
      var n := |cells| - 1;
      var d := Apply(cells[..n], v);
      assert cells == cells[..n] + [cells[n]];
      DecisionsConcat(cells[..n], [cells[n]], v);
      RunAppend(Decisions(cells[..n], v), Decide(cells[n], v));
      ApplyKeys(cells[..n], v);
      match Decide(cells[n], v)
      case None =>
      case Some(e) =>
        SetKeys(d, e.key, e.val);
        SetDistinct(d, e.key, e.val);
    }
  }

  lemma PrefixStep<T>(a: seq<T>, b: seq<T>, j: nat)
    requires j < |b|
    ensures a + b[..j + 1] == (a + b[..j]) + [b[j]]
  {
    assert b[..j + 1] == b[..j] + [b[j]];
  }

  lemma TableCellsAppend(lines: seq<string>, i: nat, v: Vocabulary)
    requires i < |lines|
    ensures TableCells(lines[..i + 1], v) == TableCells(lines[..i], v) + RowCells(lines[i], v)
  {
    assert lines[..i + 1][..i] == lines[..i];
  }

  // ---------------------------------------------------------------- the pass

  /** One pass of the `if`/`elif` chain of extractors.py:412-441 over a stripped column. */
  method AssignCell(d: Record, j: nat, part: string, v: Vocabulary) returns (r: Record)
    ensures r == Put(d, Decide(Cell(j, part), v))
  {
    r := d;
    if part == [] {
      return;
    }
    if j == 0 && ContainsAny(Upper(part), v.companies) {
      r := Set(r, Employer, Clean(part));
    } else if j == 1 && CapitalsAndSpaces(part) && |Tokens(part)| >= 2 {
      r := Set(r, Worker, Clean(part));
    } else if PassportShaped(part) {
      r := Set(r, Passport, Str(part));
    } else if ContainsAny(Upper(part), v.countries) {
      r := Set(r, Nationality, Clean(part));
    } else if ContainsAny(Upper(part), v.jobs) {
      r := Set(r, Position, Clean(part));
    } else if ContainsAny(Upper(part), v.currencies) && HasDigit(part) {
      r := Set(r, Amount, Clean(part));
    }
  }

  /** The dictionary after assigning columns `j..` of a row, starting from `d`. */
  function RowFrom(d: Record, parts: seq<string>, j: nat, v: Vocabulary): Record
    decreases |parts| - j
  {
    if j >= |parts| then d else RowFrom(Put(d, Decide(Cell(j, Strip(parts[j])), v)), parts, j + 1, v)
  }

  /** Assigning the remaining columns of a row continues the fold over the row's decisions. */
  lemma {:induction false} RowFromRun(done: seq<Decision>, parts: seq<string>, j: nat, v: Vocabulary)
    requires j <= |parts|
    ensures RowFrom(Run(done + Decisions(CellsOf(parts), v)[..j]), parts, j, v)
            == Run(done + Decisions(CellsOf(parts), v))
    decreases |parts| - j
  {
    var ds := Decisions(CellsOf(parts), v);
    if j == |parts| {
      assert ds[..j] == ds;
    } else {
      PrefixStep(done, ds, j);
      RunAppend(done + ds[..j], ds[j]);
      RowFromRun(done, parts, j + 1, v);
    }
  }

  /** The column loop of extractors.py:406-441 over one row. */
  method AssignRow(d: Record, parts: seq<string>, v: Vocabulary) returns (r: Record)
    ensures r == RowFrom(d, parts, 0, v)
  {
    r := d;
    var j := 0;
    while j < |parts|
      invariant j <= |parts|
      invariant RowFrom(r, parts, j, v) == RowFrom(d, parts, 0, v)
    {
      r := AssignCell(r, j, Strip(parts[j]), v);
      j := j + 1;
    }
  }

  /** One line of the line loop (extractors.py:401-441). */
  method AssignLine(ghost done: seq<Decision>, d: Record, line: string, v: Vocabulary) returns (r: Record)
    requires d == Run(done)
    ensures r == Run(done + Decisions(RowCells(line, v), v))
  {
    r := d;
    if '\t' in line || (|Tokens(line)| >= 4 && ContainsAny(Upper(line), v.rowWords)) {
      var parts := if '\t' in line then SplitOn(line, '\t') else SplitWideGaps(Strip(line));
      if |parts| >= 4 {
        r := AssignRow(r, parts, v);
        assert done + Decisions(CellsOf(parts), v)[..0] == done;
        RowFromRun(done, parts, 0, v);
        return;
      }
    }
    assert Decisions(RowCells(line, v), v) == [];
    assert done + [] == done;
  }

  /** The line loop of extractors.py:397-441, over the given keyword lists. */
  method TablePass(text: string, v: Vocabulary) returns (result: Record)
    ensures result == Apply(TableCells(SplitOn(text, '\n'), v), v)
  {
    result := [];
    var lines := SplitOn(text, '\n');
    var i := 0;
    while i < |lines|
      invariant 0 <= i <= |lines|
      invariant result == Run(Decisions(TableCells(lines[..i], v), v))
    {
      result := AssignLine(Decisions(TableCells(lines[..i], v), v), result, lines[i], v);
      TableCellsAppend(lines, i, v);
      DecisionsConcat(TableCells(lines[..i], v), RowCells(lines[i], v), v);
      i := i + 1;
    }
    assert lines[..i] == lines;
  }

  /** `extract_from_table_format(text)`. */
  method ExtractFromTable(text: string) returns (result: Record)
    ensures result == TableRecord(text)
  {
    result := TablePass(text, Keywords);
  }

  // ---------------------------------------------------------------- properties

  /**
   * What the table dictionary can hold: distinct keys among the six fields,
   * and for each field the value of some cell its chain assigned to it.
   */
  lemma TableProvenance(text: string, k: string)
    ensures DistinctKeys(TableRecord(text)) && forall k' :: k' in Keys(TableRecord(text)) ==> k' in CoreKeys
    ensures Lookup(TableRecord(text), k).Some? ==>
              exists c :: c in TextCells(text) && Classify(c, Keywords) == Some(k)
                       && Lookup(TableRecord(text), k).value == CellValue(k, c.text)
  {
    ApplyKeys(TextCells(text), Keywords);
    ApplyLookup(TextCells(text), k, Keywords);
  }

  /** Every cell comes from a row-like line of at least four columns, and is that column stripped. */
  lemma {:induction false} CellOrigin(lines: seq<string>, v: Vocabulary, c: Cell)
    requires c in TableCells(lines, v)
    ensures exists l :: 0 <= l < |lines| && RowLike(lines[l], v) && |Columns(lines[l])| >= 4
                     && c.col < |Columns(lines[l])| && c.text == Strip(Columns(lines[l])[c.col])
    decreases |lines|
  {
    var n := |lines| - 1;
    var prefix := lines[..n];
    if c in TableCells(prefix, v) {
      CellOrigin(prefix, v, c);
      var l :| 0 <= l < |prefix| && RowLike(prefix[l], v) && |Columns(prefix[l])| >= 4
               && c.col < |Columns(prefix[l])| && c.text == Strip(Columns(prefix[l])[c.col]);
      assert prefix[l] == lines[l];
    } else {
      var j :| 0 <= j < |RowCells(lines[n], v)| && RowCells(lines[n], v)[j] == c;
      assert c == CellsOf(Columns(lines[n]))[j];
    }
  }

  /** The employer comes only from column 0, from a cell naming a kind of company, cleaned. */
  lemma TableEmployer(text: string)
    requires Lookup(TableRecord(text), Employer).Some?
    ensures exists c :: c in TextCells(text) && c.col == 0 && ContainsAny(Upper(c.text), CompanyWords)
                      && Lookup(TableRecord(text), Employer).value == Clean(c.text)
  {
    TableProvenance(text, Employer);
    var c :| c in TextCells(text) && Classify(c, Keywords) == Some(Employer)
             && Lookup(TableRecord(text), Employer).value == CellValue(Employer, c.text);
    ClassifiedEmployer(c, Keywords);
  }

  lemma ClassifiedEmployer(c: Cell, v: Vocabulary)
    requires Classify(c, v) == Some(Employer)
    ensures c.col == 0 && ContainsAny(Upper(c.text), v.companies)
  {
    assert |Worker| == 8 && |Employer| == 18 && |Passport| == 12 && |Nationality| == 15
           && |Position| == 7 && |Amount| == 6;
  }

  /** The worker's name comes only from column 1: capitals and spaces, two words at least, cleaned. */
  lemma TableWorker(text: string)
    requires Lookup(TableRecord(text), Worker).Some?
    ensures exists c :: c in TextCells(text) && c.col == 1 && CapitalsAndSpaces(c.text) && |Tokens(c.text)| >= 2
                      && Lookup(TableRecord(text), Worker).value == Clean(c.text)
  {
    TableProvenance(text, Worker);
    var c :| c in TextCells(text) && Classify(c, Keywords) == Some(Worker)
             && Lookup(TableRecord(text), Worker).value == CellValue(Worker, c.text);
    ClassifiedWorker(c, Keywords);
  }

  lemma ClassifiedWorker(c: Cell, v: Vocabulary)
    requires Classify(c, v) == Some(Worker)
    ensures c.col == 1 && CapitalsAndSpaces(c.text) && |Tokens(c.text)| >= 2
  {
    assert |Worker| == 8 && |Employer| == 18 && |Passport| == 12 && |Nationality| == 15
           && |Position| == 7 && |Amount| == 6;
  }

  /** A passport from the table is six to twelve capitals and digits, stored unchanged. */
  lemma TablePassport(text: string)
    requires Lookup(TableRecord(text), Passport).Some?
    ensures Lookup(TableRecord(text), Passport).value.Str?
    ensures PassportShaped(Lookup(TableRecord(text), Passport).value.s)
  {
    TableProvenance(text, Passport);
  }

  /** An amount from the table is a cleaned cell holding a digit and a currency marker. */
  lemma TableAmount(text: string)
    requires Lookup(TableRecord(text), Amount).Some?
    ensures exists c :: c in TextCells(text) && HasDigit(c.text) && ContainsAny(Upper(c.text), Currencies)
                      && Lookup(TableRecord(text), Amount).value == Clean(c.text)
  {
    TableProvenance(text, Amount);
    var c :| c in TextCells(text) && Classify(c, Keywords) == Some(Amount)
             && Lookup(TableRecord(text), Amount).value == CellValue(Amount, c.text);
    ClassifiedAmount(c, Keywords);
  }

  lemma ClassifiedAmount(c: Cell, v: Vocabulary)
    requires Classify(c, v) == Some(Amount)
    ensures HasDigit(c.text) && ContainsAny(Upper(c.text), v.currencies)
  {
    assert |Worker| == 8 && |Employer| == 18 && |Passport| == 12 && |Nationality| == 15
           && |Position| == 7 && |Amount| == 6;
  }
}
