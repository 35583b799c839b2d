/**
 * The batch page of app.py once the PDFs' texts are known: one record per
 * upload (app.py:402-420), its logged status (app.py:441), the result table's
 * columns and rows (app.py:468-492), the success and failure counts
 * (app.py:513-518), and `generate_new_filename` (app.py:189-233), which names
 * the renamed copies.
 */
module App {
  import opened Wrappers
  import opened Text
  import opened Records
  import opened Dispatch

  // ---------------------------------------------------------------- one record per upload

  /** The record of app.py:415-419 for an upload whose text could not be read. */
  function NoTextRecord(name: string, tag: string): (r: Record)
    ensures Keys(r) == ["filename", "Error", "Jenis Dokumen"]
  {
    [Entry("filename", Str(name)), Entry("Error", Str("Gagal mengekstrak teks dari PDF")), Entry("Jenis Dokumen", Str(tag))]
  }

  /**
   * What one upload contributes: with a non-empty text, the extraction with
   * the file name added; otherwise the no-text record. `pdfText` is what
   * `extract_pdf_text` returned.
   */
  function UploadResult(t: Extractors, pdfText: Option<string>, name: string, tag: string): Record {
    if pdfText.Some? && pdfText.value != "" then Set(ExtractDocumentData(t, pdfText.value, tag), "filename", Str(name))
    else NoTextRecord(name, tag)
  }

  /** The records of a batch, one per upload, in upload order. */
  function Results(t: Extractors, texts: seq<Option<string>>, names: seq<string>, tag: string): (r: seq<Record>)
    requires |texts| == |names|
    ensures |r| == |texts|
  {
    seq(|texts|, i requires 0 <= i < |texts| => UploadResult(t, texts[i], names[i], tag))
  }

  /** The loop of app.py:402-420, appending one record per upload. */
  method ProcessUploads(t: Extractors, texts: seq<Option<string>>, names: seq<string>, tag: string)
    returns (results: seq<Record>)
    requires |texts| == |names|
    ensures results == Results(t, texts, names, tag)
  {
    results := [];
    var i := 0;
    while i < |texts|
      invariant 0 <= i <= |texts|
      invariant results == Results(t, texts[..i], names[..i], tag)
    {
      var r: Record;
      var pdfText := texts[i];
      if pdfText.Some? && pdfText.value != "" {
        r := ExtractDocumentData(t, pdfText.value, tag);
        r := Set(r, "filename", Str(names[i]));
      } else {
        r := NoTextRecord(names[i], tag);
      }
      assert r == UploadResult(t, texts[i], names[i], tag);
      ResultsSnoc(t, texts, names, tag, i);
      results := results + [r];
      i := i + 1;
    }
    assert texts[..i] == texts && names[..i] == names;
  }

  lemma ResultsSnoc(t: Extractors, texts: seq<Option<string>>, names: seq<string>, tag: string, i: nat)
    requires |texts| == |names| && i < |texts|
    ensures Results(t, texts[..i + 1], names[..i + 1], tag) ==
              Results(t, texts[..i], names[..i], tag) + [UploadResult(t, texts[i], names[i], tag)]
  {
    var longer := Results(t, texts[..i + 1], names[..i + 1], tag);
    var shorter := Results(t, texts[..i], names[..i], tag) + [UploadResult(t, texts[i], names[i], tag)];
    forall j | 0 <= j <= i
      ensures longer[j] == shorter[j]
    {
      if j < i {
        assert texts[..i + 1][j] == texts[..i][j] && names[..i + 1][j] == names[..i][j];
      }
    }
    assert longer == shorter;
  }

  /** `"completed" if "Error" not in result else "failed"`. */
  function Status(r: Record): string {
    if "Error" !in Keys(r) then "completed" else "failed"
  }

  /**
   * With conforming extractors an upload is logged as completed exactly when
   * its text was read, its type is supported and the extractor returned; the
   * record always carries the upload's name.
   */
  lemma UploadStatus(t: Extractors, pdfText: Option<string>, name: string, tag: string)
    requires Conforming(t)
    ensures Status(UploadResult(t, pdfText, name, tag)) == "completed" <==>
              pdfText.Some? && pdfText.value != "" && KindOf(tag).Some?
              && Select(t, KindOf(tag).value)(pdfText.value).Done?
    ensures Lookup(UploadResult(t, pdfText, name, tag), "filename") == Some(Str(name))
  {
    if pdfText.Some? && pdfText.value != "" {
      Dispatch.ErrorIffFailed(t, pdfText.value, tag);
      SetKeys(ExtractDocumentData(t, pdfText.value, tag), "filename", Str(name));
    }
  }

  // ---------------------------------------------------------------- counts

  /** `len([r for r in results if "Error" not in r])`. */
  function Succeeded(results: seq<Record>): (n: nat)
    ensures n <= |results|
    decreases |results|
  {
    if results == [] then 0
    else Succeeded(results[..|results| - 1]) + (if "Error" !in Keys(results[|results| - 1]) then 1 else 0)
  }

  /** `len([r for r in results if "Error" in r])`. */
  function FailedCount(results: seq<Record>): (n: nat)
    ensures n <= |results|
    decreases |results|
  {
    if results == [] then 0
    else FailedCount(results[..|results| - 1]) + (if "Error" in Keys(results[|results| - 1]) then 1 else 0)
  }

  /** Every upload is counted once, as a success or as a failure. */
  lemma {:induction false} CountsCover(results: seq<Record>)
    ensures Succeeded(results) + FailedCount(results) == |results|
    decreases |results|
  {
    if results != [] {
      CountsCover(results[..|results| - 1]);
    }
  }

  /** A batch with no failed record counts every upload as a success. */
  lemma {:induction false} AllSucceeded(results: seq<Record>)
    requires forall i :: 0 <= i < |results| ==> Status(results[i]) == "completed"
    ensures Succeeded(results) == |results| && FailedCount(results) == 0
    decreases |results|
  {
    if results != [] {
      AllSucceeded(results[..|results| - 1]);
    }
  }

  /** A batch whose every record failed counts no success. */
  lemma {:induction false} NoneSucceeded(results: seq<Record>)
    requires forall i :: 0 <= i < |results| ==> Status(results[i]) == "failed"
    ensures Succeeded(results) == 0 && FailedCount(results) == |results|
    decreases |results|
  {
    if results != [] {
      NoneSucceeded(results[..|results| - 1]);
    }
  }

  // ---------------------------------------------------------------- the result table

  const SkttColumns := ["NIK", "Name", "Jenis Kelamin", "Place of Birth", "Date of Birth", "Nationality",
                        "Occupation", "Address"]
  const EvlnColumns := ["Name", "Place of Birth", "Date of Birth", "Passport No", "Passport Expiry", "Date Issue"]
  const PermitColumns := ["Name", "Permit Number", "Place & Date of Birth", "Passport Number", "Passport Expiry",
                          "Nationality", "Gender"]
  const NotificationColumns := ["Nomor Keputusan", "Nama TKA", "Tempat/Tanggal Lahir", "Kewarganegaraan",
                                "Nomor Paspor", "Jabatan"]
  const DkptkaColumns := ["Nama Pemberi Kerja", "Nama TKA", "Nomor Paspor", "Kewarganegaraan", "Jabatan", "DKPTKA"]

  /** The keys the generic table leaves out. */
  const Hidden := ["filename", "Jenis Dokumen", "Error"]

  /** `[k for k in keys if k not in hidden]`. */
  function Without(keys: seq<string>, hidden: seq<string>): (r: seq<string>)
    ensures forall k :: k in r <==> k in keys && k !in hidden
    decreases |keys|
  {
    if keys == [] then []
    else Without(keys[..|keys| - 1], hidden) + (if keys[|keys| - 1] in hidden then [] else [keys[|keys| - 1]])
  }

  /**
   * The table's columns for the selected type, compared exactly. For any
   * other type they are the keys of the set `all_keys` but the hidden ones,
   * in `order`, the order in which the set yields them.
   */
  function Columns(tag: string, order: seq<string>): seq<string> {
    if tag == "SKTT" then SkttColumns
    else if tag == "EVLN" then EvlnColumns
    else if tag == "ITAS" || tag == "ITK" then PermitColumns
    else if tag == "NOTIFICATION" then NotificationColumns
    else if tag == "DKPTKA" then DkptkaColumns
    else Without(order, Hidden)
  }

  /** Some record of the batch has key `k`. */
  predicate InSomeRecord(results: seq<Record>, k: string) {
    exists i :: 0 <= i < |results| && k in Keys(results[i])
  }

  /** `order` lists the set of all the batch's keys. */
  ghost predicate ListsAllKeys(results: seq<Record>, order: seq<string>) {
    Distinct(order) && forall k :: k in order <==> InSomeRecord(results, k)
  }

  /**
   * The generic columns are every key some record has but "filename",
   * "Jenis Dokumen" and "Error", each once.
   */
  lemma GenericColumns(tag: string, results: seq<Record>, order: seq<string>)
    requires tag !in ["SKTT", "EVLN", "ITAS", "ITK", "NOTIFICATION", "DKPTKA"]
    requires ListsAllKeys(results, order)
    ensures forall k :: k in Columns(tag, order) <==> InSomeRecord(results, k) && k !in Hidden
    ensures Distinct(Columns(tag, order))
  {
    WithoutDistinct(order, Hidden);
  }

  lemma {:induction false} WithoutDistinct(keys: seq<string>, hidden: seq<string>)
    requires Distinct(keys)
    ensures Distinct(Without(keys, hidden))
    decreases |keys|
  {
    if keys != [] {
      var p := keys[..|keys| - 1];
      var last := keys[|keys| - 1];
      assert Distinct(p) by {
        forall a, b | 0 <= a < b < |p| ensures p[a] != p[b] {
          assert p[a] == keys[a] && p[b] == keys[b];
        }
      }
      WithoutDistinct(p, hidden);
      if last !in hidden {
        assert last !in p;
        DistinctAppend(Without(p, hidden), last);
      }
    }
  }

  /** A table row: its number and its cells, in column order. */
  datatype Row = Row(no: nat, cells: Record)

  /** The cells `row[col] = result.get(col, '-')` for each column in turn. */
  function Cells(result: Record, columns: seq<string>): Record
    decreases |columns|
  {
    if columns == [] then []
    else
      var col := columns[|columns| - 1];
      Set(Cells(result, columns[..|columns| - 1]), col, GetOr(result, col, Str("-")))
  }

  /** The rows of app.py:487-492, numbered from 1. */
  function Rows(results: seq<Record>, columns: seq<string>): (r: seq<Row>)
    ensures |r| == |results|
  {
    seq(|results|, i requires 0 <= i < |results| => Row(i + 1, Cells(results[i], columns)))
  }

  /** The two loops that build the rows. */
  method BuildRows(results: seq<Record>, columns: seq<string>) returns (rows: seq<Row>)
    ensures rows == Rows(results, columns)
  {
    rows := [];
    var i := 0;
    while i < |results|
      invariant 0 <= i <= |results|
      invariant rows == Rows(results[..i], columns)
    {
      var cells: Record := [];
      var j := 0;
      while j < |columns|
        invariant 0 <= j <= |columns|
        invariant cells == Cells(results[i], columns[..j])
      {
        var col := columns[j];
        CellsSnoc(results[i], columns, j);
        cells := Set(cells, col, GetOr(results[i], col, Str("-")));
        j := j + 1;
      }
      assert columns[..j] == columns;
      RowsSnoc(results, columns, i);
      rows := rows + [Row(i + 1, cells)];
      i := i + 1;
    }
    assert results[..i] == results;
  }

  lemma CellsSnoc(result: Record, columns: seq<string>, j: nat)
    requires j < |columns|
    ensures Cells(result, columns[..j + 1]) == Set(Cells(result, columns[..j]), columns[j], GetOr(result, columns[j], Str("-")))
  {
    assert columns[..j + 1][..j] == columns[..j];
  }

  lemma RowsSnoc(results: seq<Record>, columns: seq<string>, i: nat)
    requires i < |results|
    ensures Rows(results[..i + 1], columns) == Rows(results[..i], columns) + [Row(i + 1, Cells(results[i], columns))]
  {
  }

  /** Each column holds the record's value, or '-' when the record lacks it, and nothing else is in the row. */
  lemma {:induction false} CellsLookup(result: Record, columns: seq<string>, k: string)
    ensures Lookup(Cells(result, columns), k) == if k in columns then Some(GetOr(result, k, Str("-"))) else None
    decreases |columns|
  {
    if columns != [] {
      var p := columns[..|columns| - 1];
      CellsLookup(result, p, k);
      assert columns == p + [columns[|columns| - 1]];
    }
  }

  /** With distinct columns the row's cells come in column order. */
  lemma {:induction false} CellsKeys(result: Record, columns: seq<string>)
    requires Distinct(columns)
    ensures Keys(Cells(result, columns)) == columns
    decreases |columns|
  {
    if columns != [] {
      var p := columns[..|columns| - 1];
      var col := columns[|columns| - 1];
      assert Distinct(p) by {
        forall a, b | 0 <= a < b < |p| ensures p[a] != p[b] {
          assert p[a] == columns[a] && p[b] == columns[b];
        }
      }
      var prev := Cells(result, p);
      CellsKeys(result, p);
      assert col !in Keys(prev);
      var e := Entry(col, GetOr(result, col, Str("-")));
      SetNew(prev, col, e.val);
      KeysSnoc(prev, e);
      assert columns == p + [col];
    }
  }

  /**
   * With "NOTIFICATION" selected every record is an error record, since
   * `extract_document_data` refuses that type, so every cell of the table
   * is '-' and every upload counts as failed.
   */
  lemma NotificationTableBlank(t: Extractors, texts: seq<Option<string>>, names: seq<string>, tag: string,
                               order: seq<string>, i: nat, k: string)
    requires tag == "NOTIFICATION" && |texts| == |names| && i < |texts| && k in NotificationColumns
    ensures Lookup(Rows(Results(t, texts, names, tag), Columns(tag, order))[i].cells, k) == Some(Str("-"))
    ensures Succeeded(Results(t, texts, names, tag)) == 0
  {
    LongRefused(tag);
    NotificationColumnsShown();
    UnsupportedBatch(t, texts, names, tag);
    var rs := Results(t, texts, names, tag);
    CellsLookup(rs[i], NotificationColumns, k);
  }

  /** None of the Notifikasi columns is a hidden key. */
  lemma NotificationColumnsShown()
    ensures forall c :: c in NotificationColumns ==> c !in Hidden
  {
  }

  /**
   * Under a type `extract_document_data` does not support, every record of
   * the batch fails and has only hidden keys.
   */
  lemma UnsupportedBatch(t: Extractors, texts: seq<Option<string>>, names: seq<string>, tag: string)
    requires KindOf(tag).None? && |texts| == |names|
    ensures forall j :: 0 <= j < |texts| ==> forall c :: c in Keys(Results(t, texts, names, tag)[j]) ==> c in Hidden
    ensures Succeeded(Results(t, texts, names, tag)) == 0
  {
    var rs := Results(t, texts, names, tag);
    forall j | 0 <= j < |rs|
      ensures Status(rs[j]) == "failed" && forall c :: c in Keys(rs[j]) ==> c in Hidden
    {
      RefusedUpload(t, texts[j], names[j], tag);
    }
    NoneSucceeded(rs);
  }

  /** One upload under an unsupported type: an error record with only hidden keys. */
  lemma RefusedUpload(t: Extractors, pdfText: Option<string>, name: string, tag: string)
    requires KindOf(tag).None?
    ensures Status(UploadResult(t, pdfText, name, tag)) == "failed"
    ensures forall c :: c in Keys(UploadResult(t, pdfText, name, tag)) ==> c in Hidden
  {
    if pdfText.Some? && pdfText.value != "" {
      var e := ExtractDocumentData(t, pdfText.value, tag);
      UnsupportedRecord(t, pdfText.value, tag);
      SetKeys(e, "filename", Str(name));
    }
  }

  // ---------------------------------------------------------------- generate_new_filename

  /** Index of the last occurrence of `c`, as `str.rfind` (`None` for -1). */
  function LastIndex(s: string, c: char): (r: Option<nat>)
    ensures r.Some? ==> r.value < |s| && s[r.value] == c && forall j :: r.value < j < |s| ==> s[j] != c
    ensures r.None? ==> c !in s
    decreases |s|
  {
    if s == [] then None
    else if s[|s| - 1] == c then Some(|s| - 1)
    else LastIndex(s[..|s| - 1], c)
  }

  /** `Path(p).name`: the text after the last '/'. */
  function FinalComponent(p: string): string {
    match LastIndex(p, '/')
    case None => p
    case Some(i) => p[i + 1..]
  }

  /**
   * `Path(p).suffix`: from the last '.' of the final component, when that
   * dot is neither its first nor its last character; otherwise empty.
   */
  function Suffix(p: string): string {
    var n := FinalComponent(p);
    match LastIndex(n, '.')
    case None => ""
    case Some(i) => if 0 < i < |n| - 1 then n[i..] else ""
  }

  /** The suffix is empty or a dot, then at least one character, none of them a dot or '/'; it ends the path. */
  lemma SuffixShape(p: string)
    ensures var x := Suffix(p);
            x == "" || (|x| >= 2 && x[0] == '.' && forall j :: 1 <= j < |x| ==> x[j] != '.' && x[j] != '/')
    ensures EndsWith(p, Suffix(p))
  {
    var n := FinalComponent(p);
    assert EndsWith(p, n);
    assert forall j :: 0 <= j < |n| ==> n[j] != '/';
    match LastIndex(n, '.')
    case None =>
    case Some(i) =>
      if 0 < i < |n| - 1 {
        assert n[i..] == p[|p| - (|n| - i)..];
      }
  }

  /** A named file with a ".pdf" ending has the suffix ".pdf". */
  lemma PdfSuffix(stem: string)
    requires stem != [] && '/' !in stem
    ensures Suffix(stem + ".pdf") == ".pdf"
  {
    var p := stem + ".pdf";
    assert forall j :: 0 <= j < |p| ==> p[j] != '/';
    assert FinalComponent(p) == p;
    assert LastIndex(p, '.') == Some(|stem|) by {
      assert p[|stem|] == '.';
      assert forall j :: |stem| < j < |p| ==> p[j] != '.';
      if LastIndex(p, '.') != Some(|stem|) {
        assert false;
      }
    }
    assert p[|stem|..] == ".pdf";
  }

  /** A hidden file such as ".pdf" has no suffix. */
  lemma HiddenNoSuffix(s: string)
    requires '.' !in s && '/' !in s
    ensures Suffix("." + s) == ""
  {
    var p := "." + s;
    assert forall j :: 0 <= j < |p| ==> p[j] != '/';
    assert forall j :: 0 < j < |p| ==> p[j] != '.';
  }

  /** The characters kept in a name: letters, digits, ' ', '-' and '_'. */
  predicate NameChar(c: char) {
    IsAlnum(c) || c == ' ' || c == '-' || c == '_'
  }

  /** `name` after app.py:203-205: filtered, stripped, with underscores for spaces. */
  function CleanName(s: string): (r: string)
    ensures forall c :: c in r ==> IsAlnum(c) || c == '-' || c == '_'
  {
    var kept := Filter(s, NameChar);
    NameCharsKept(kept);
    ReplaceChar(Strip(kept), ' ', '_')
  }

  lemma NameCharsKept(kept: string)
    requires forall c :: c in kept ==> NameChar(c)
    ensures forall c :: c in ReplaceChar(Strip(kept), ' ', '_') ==> IsAlnum(c) || c == '-' || c == '_'
  {
    var st := Strip(kept);
    assert forall i :: 0 <= i < |kept| ==> NameChar(kept[i]);
    StripClass(kept, NameChar);
    var r := ReplaceChar(st, ' ', '_');
    forall c | c in r ensures IsAlnum(c) || c == '-' || c == '_' {
      var i :| 0 <= i < |r| && r[i] == c;
      assert NameChar(st[i]);
    }
  }

  /** `passport` after app.py:207-208: only letters and digits. */
  function CleanPassport(s: string): (r: string)
    ensures forall c :: c in r ==> IsAlnum(c)
  {
    var kept := Filter(s, IsAlnum);
    StripClass(kept, IsAlnum);
    Strip(kept)
  }

  /** `get('Name') or get('Nama TKA') or get('nama', '')`, cleaned when truthy; "" when falsy. */
  function NamePart(d: Record): string {
    var v := Or(Get(d, "Name"), Or(Get(d, "Nama TKA"), GetOr(d, "nama", Str(""))));
    if Truthy(v) then CleanName(v.s) else ""
  }

  /** `get('Passport Number') or get('Nomor Paspor') or get('nomor_paspor', '')`, cleaned when truthy. */
  function PassportPart(d: Record): string {
    var v := Or(Get(d, "Passport Number"), Or(Get(d, "Nomor Paspor"), GetOr(d, "nomor_paspor", Str(""))));
    if Truthy(v) then CleanPassport(v.s) else ""
  }

  /** A list with `s` when `c` holds, and empty otherwise. */
  function When(c: bool, s: string): seq<string> {
    if c then [s] else []
  }

  /** The parts after the document type. */
  function NameParts(d: Record, useName: bool, usePassport: bool): seq<string> {
    Parts(NamePart(d), PassportPart(d), useName, usePassport)
  }

  /** The cleaned name, then the cleaned passport, each when asked for and non-empty. */
  function Parts(name: string, passport: string, useName: bool, usePassport: bool): seq<string> {
    When(useName && name != "", name) + When(usePassport && passport != "", passport)
  }

  /** Longer names are cut to 97 characters and the extension is added again. */
  const MaxName := 100

  /**
   * The new name from the document type, the parts after it and the
   * original name: the original when there is no part, or when a stored
   * `None` document type makes the join raise; otherwise the parts joined by
   * '_' with the original suffix, cut to 97 characters plus the suffix when
   * longer than 100.
   */
  function Renamed(doc: Val, parts: seq<string>, original: string): string {
    if parts == [] || doc.Null? then original
    else
      var ext := Suffix(original);
      var full := Join([doc.s] + parts, "_") + ext;
      if |full| > MaxName then full[..97] + ext else full
  }

  /** `generate_new_filename(extracted_data, original_filename, use_name, use_passport)`. */
  function NewFilename(d: Record, original: string, useName: bool, usePassport: bool): string {
    Renamed(GetOr(d, "Jenis Dokumen", Str("DOC")), NameParts(d, useName, usePassport), original)
  }

  /** The body of app.py:189-233, which appends to `parts` as it goes. */
  method GenerateNewFilename(d: Record, original: string, useName: bool, usePassport: bool) returns (r: string)
    ensures r == NewFilename(d, original, useName, usePassport)
  {
    var ext := Suffix(original);
    var name := NamePart(d);
    var passport := PassportPart(d);
    var parts := CollectParts(name, passport, useName, usePassport);
    var docType := GetOr(d, "Jenis Dokumen", Str("DOC"));
    if parts == [] || docType.Null? {
      return original;
    }
    r := Join([docType.s] + parts, "_") + ext;
    if |r| > 100 {
      r := r[..97] + ext;
    }
  }

  /** app.py:211-217: the parts list, appended to as it goes. */
  method CollectParts(name: string, passport: string, useName: bool, usePassport: bool) returns (parts: seq<string>)
    ensures parts == Parts(name, passport, useName, usePassport)
  {
    parts := [];
    if useName && name != "" {
      parts := parts + [name];
    }
    if usePassport && passport != "" {
      parts := parts + [passport];
    }
  }

  /**
   * A new name keeps the original suffix and is at most 100 characters, or
   * exactly 97 plus the suffix when it had to be cut.
   */
  lemma NewFilenameBounds(d: Record, original: string, useName: bool, usePassport: bool)
    ensures var r := NewFilename(d, original, useName, usePassport);
            r == original || (EndsWith(r, Suffix(original)) && (|r| <= 100 || |r| == 97 + |Suffix(original)|))
  {
    RenamedBounds(GetOr(d, "Jenis Dokumen", Str("DOC")), NameParts(d, useName, usePassport), original);
  }

  lemma RenamedBounds(doc: Val, parts: seq<string>, original: string)
    ensures var r := Renamed(doc, parts, original);
            r == original || (EndsWith(r, Suffix(original)) && (|r| <= 100 || |r| == 97 + |Suffix(original)|))
  {
    if parts != [] && doc.Str? {
      var ext := Suffix(original);
      var full := Join([doc.s] + parts, "_") + ext;
      if |full| > MaxName {
        CutEnds(full, ext, 97);
      } else {
        assert full[|full| - |ext|..] == ext;
      }
    }
  }

  /**
   * For any parts list, the joined name with its suffix is kept whole when
   * it fits in 100 characters; a longer one is its first 97 characters
   * followed by the suffix.
   */
  lemma NewFilenameCut(d: Record, original: string, useName: bool, usePassport: bool)
    requires NameParts(d, useName, usePassport) != [] && GetOr(d, "Jenis Dokumen", Str("DOC")).Str?
    ensures var full := Join([GetOr(d, "Jenis Dokumen", Str("DOC")).s] + NameParts(d, useName, usePassport), "_")
                        + Suffix(original);
            (|full| <= 100 ==> NewFilename(d, original, useName, usePassport) == full)
            && (|full| > 100 ==>
                  |NewFilename(d, original, useName, usePassport)| == 97 + |Suffix(original)|
                  && NewFilename(d, original, useName, usePassport)[..97] == full[..97]
                  && EndsWith(NewFilename(d, original, useName, usePassport), Suffix(original)))
  {
    RenamedCut(GetOr(d, "Jenis Dokumen", Str("DOC")), NameParts(d, useName, usePassport), original);
  }

  lemma RenamedCut(doc: Val, parts: seq<string>, original: string)
    requires parts != [] && doc.Str?
    ensures var full := Join([doc.s] + parts, "_") + Suffix(original);
            (|full| <= 100 ==> Renamed(doc, parts, original) == full)
            && (|full| > 100 ==>
                  |Renamed(doc, parts, original)| == 97 + |Suffix(original)|
                  && Renamed(doc, parts, original)[..97] == full[..97]
                  && EndsWith(Renamed(doc, parts, original), Suffix(original)))
  {
    var full := Join([doc.s] + parts, "_") + Suffix(original);
    if |full| > 100 {
      var r := full[..97] + Suffix(original);
      assert r[..97] == full[..97];
      assert r[97..] == Suffix(original);
    }
  }

  /** Without a name or passport to add, the file keeps its original name. */
  lemma NothingToAdd(d: Record, original: string, useName: bool, usePassport: bool)
    requires !useName || NamePart(d) == ""
    requires !usePassport || PassportPart(d) == ""
    ensures NewFilename(d, original, useName, usePassport) == original
  {
  }

  /**
   * A short enough new name is the document type, '_' and the cleaned name,
   * and the suffix; a record without a type is named "DOC".
   */
  lemma NameOnly(d: Record, original: string)
    requires NamePart(d) != "" && GetOr(d, "Jenis Dokumen", Str("DOC")).Str?
    requires |GetOr(d, "Jenis Dokumen", Str("DOC")).s + "_" + NamePart(d) + Suffix(original)| <= 100
    ensures NewFilename(d, original, true, false) ==
              GetOr(d, "Jenis Dokumen", Str("DOC")).s + "_" + NamePart(d) + Suffix(original)
  {
    assert NameParts(d, true, false) == [NamePart(d)];
    SinglePart(GetOr(d, "Jenis Dokumen", Str("DOC")), NamePart(d), original);
  }

  lemma SinglePart(doc: Val, part: string, original: string)
    requires doc.Str? && |doc.s + "_" + part + Suffix(original)| <= 100
    ensures Renamed(doc, [part], original) == doc.s + "_" + part + Suffix(original)
  {
    assert Join([doc.s] + [part], "_") == doc.s + "_" + part by {
      assert ([doc.s] + [part])[1..] == [part];
    }
  }

  /**
   * For an upload ending in ".pdf", a name that had to be cut is 101
   * characters long: one more than the limit the cut is for.
   */
  lemma TruncatedPdfLength(d: Record, stem: string, useName: bool, usePassport: bool)
    requires stem != [] && '/' !in stem
    requires NameParts(d, useName, usePassport) != [] && GetOr(d, "Jenis Dokumen", Str("DOC")).Str?
    requires |Join([GetOr(d, "Jenis Dokumen", Str("DOC")).s] + NameParts(d, useName, usePassport), "_")| > 96
    ensures |NewFilename(d, stem + ".pdf", useName, usePassport)| == 101
  {
    PdfSuffix(stem);
  }

  /** The cut as evidently intended: room is left for the suffix, so no name exceeds 100 characters. */
  function BoundedRenamed(doc: Val, parts: seq<string>, original: string): string {
    if parts == [] || doc.Null? then original
    else
      var ext := Suffix(original);
      var full := Join([doc.s] + parts, "_") + ext;
      if |full| > MaxName && |ext| <= MaxName then full[..MaxName - |ext|] + ext else full
  }

  /** `generate_new_filename` with the intended cut. */
  function BoundedNewFilename(d: Record, original: string, useName: bool, usePassport: bool): string {
    BoundedRenamed(GetOr(d, "Jenis Dokumen", Str("DOC")), NameParts(d, useName, usePassport), original)
  }

  /**
   * The intended cut keeps the suffix and stays within 100 characters for
   * every suffix that fits, and agrees with the code wherever the code's
   * name is within the limit, unless the suffix is shorter than three
   * characters (then the code cuts to fewer than 100).
   */
  lemma BoundedNewFilenameLength(d: Record, original: string, useName: bool, usePassport: bool)
    requires |Suffix(original)| <= 100
    ensures var r := BoundedNewFilename(d, original, useName, usePassport);
            r == original || (EndsWith(r, Suffix(original)) && |r| <= 100)
    ensures |Suffix(original)| >= 3 && |NewFilename(d, original, useName, usePassport)| <= 100 ==>
              BoundedNewFilename(d, original, useName, usePassport) == NewFilename(d, original, useName, usePassport)
  {
    BoundedRenamedLength(GetOr(d, "Jenis Dokumen", Str("DOC")), NameParts(d, useName, usePassport), original);
  }

  lemma BoundedRenamedLength(doc: Val, parts: seq<string>, original: string)
    requires |Suffix(original)| <= 100
    ensures var r := BoundedRenamed(doc, parts, original);
            r == original || (EndsWith(r, Suffix(original)) && |r| <= 100)
    ensures |Suffix(original)| >= 3 && |Renamed(doc, parts, original)| <= 100 ==>
              BoundedRenamed(doc, parts, original) == Renamed(doc, parts, original)
  {
    if parts != [] && doc.Str? {
      var ext := Suffix(original);
      var full := Join([doc.s] + parts, "_") + ext;
      BoundedCut(full, ext);
    }
  }

  /** The two cuts of one joined name `full` ending in `ext`. */
  lemma BoundedCut(full: string, ext: string)
    requires |ext| <= MaxName && EndsWith(full, ext)
    ensures var r := if |full| > MaxName then full[..MaxName - |ext|] + ext else full;
            EndsWith(r, ext) && |r| <= 100
            && (|ext| >= 3 && |if |full| > MaxName then full[..97] + ext else full| <= 100 ==>
                r == if |full| > MaxName then full[..97] + ext else full)
  {
    if |full| > MaxName {
      CutEnds(full, ext, MaxName - |ext|);
      CutEnds(full, ext, 97);
    }
  }

  /** A prefix with the suffix added again ends with the suffix. */
  lemma CutEnds(full: string, ext: string, n: nat)
    requires n <= |full|
    ensures |full[..n] + ext| == n + |ext| && EndsWith(full[..n] + ext, ext)
  {
    assert (full[..n] + ext)[n..] == ext;
  }
}
