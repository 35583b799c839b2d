/**
 * The upload helpers of file_handler.py: `process_single_pdf`
 * (file_handler.py:66-102), which picks the extractor by comparing the
 * document type exactly and records the upload's file name; the fallback
 * `generate_new_filename` (file_handler.py:36-48); and the name and size
 * checks of `validate_pdf_file` (file_handler.py:278-284).
 */
module FileHandler {
  import opened Wrappers
  import opened Text
  import opened Records
  import opened Dispatch

  // ---------------------------------------------------------------- process_single_pdf

  /** The `if`/`elif` chain of file_handler.py:73-85: exact comparisons, two spellings for Notifikasi. */
  function Branch(tag: string): Option<Kind> {
    if tag == "SKTT" then Some(SKTT)
    else if tag == "EVLN" then Some(EVLN)
    else if tag == "ITAS" then Some(ITAS)
    else if tag == "ITK" then Some(ITK)
    else if tag == "Notifikasi" || tag == "NOTIFICATION" then Some(NOTIFIKASI)
    else if tag == "DKPTKA" then Some(DKPTKA)
    else None
  }

  /** The record of file_handler.py:97-102 for an exception with message `msg`. */
  function FailedRecord(name: string, msg: string, tag: string): (r: Record)
    ensures Keys(r) == ["filename", "Error", "Jenis Dokumen"]
  {
    [Entry("filename", Str(name)), Entry("Error", Str("Failed to process PDF: " + msg)), Entry("Jenis Dokumen", Str(tag))]
  }

  /**
   * `process_single_pdf` once the PDF's text is known: the extractor the
   * chain selects, or `extract_document_data` for any other type, and then
   * the upload's name under "filename". An exception from a directly called
   * extractor reaches the outer `except`.
   */
  function ProcessText(t: Extractors, text: string, tag: string, name: string): Record {
    match Branch(tag)
    case None => Set(ExtractDocumentData(t, text, tag), "filename", Str(name))
    case Some(k) =>
      match Select(t, k)(text)
      case Done(rec) => Set(rec, "filename", Str(name))
      case Raised(m) => FailedRecord(name, m, tag)
  }

  /** The whole `try` block: the chain, then the file name. */
  method ProcessSinglePdf(t: Extractors, text: string, tag: string, name: string) returns (r: Record)
    ensures r == ProcessText(t, text, tag, name)
  {
    var k := Branch(tag);
    var extracted: Record;
    if k.None? {
      extracted := ExtractDocumentData(t, text, tag);
    } else {
      var o := Select(t, k.value)(text);
      if o.Raised? {
        return FailedRecord(name, o.msg, tag);
      }
      extracted := o.rec;
    }
    r := Set(extracted, "filename", Str(name));
  }

  // ---------------------------------------------------------------- properties of the dispatch

  /** Every result carries the upload's name. */
  lemma NameRecorded(t: Extractors, text: string, tag: string, name: string)
    ensures Lookup(ProcessText(t, text, tag, name), "filename") == Some(Str(name))
  {
  }

  /**
   * With conforming extractors the name is a new last field: the fields
   * before it are exactly the extraction's.
   */
  lemma NameAppended(t: Extractors, text: string, tag: string, name: string, k: Kind)
    requires Conforming(t) && Branch(tag) == Some(k) && Select(t, k)(text).Done?
    ensures ProcessText(t, text, tag, name) == Select(t, k)(text).rec + [Entry("filename", Str(name))]
  {
    Conforms(t, k, text);
    SetNew(Select(t, k)(text).rec, "filename", Str(name));
  }

  /**
   * The exact-case chain and `extract_document_data` agree on every type the
   * chain names but "NOTIFICATION", as long as the extractor returns.
   */
  lemma ChainAgrees(t: Extractors, text: string, tag: string, name: string)
    requires Branch(tag).Some? && tag != "NOTIFICATION" && Select(t, Branch(tag).value)(text).Done?
    ensures KindOf(tag) == Branch(tag)
    ensures ProcessText(t, text, tag, name) == Set(ExtractDocumentData(t, text, tag), "filename", Str(name))
  {
    var k := Branch(tag).value;
    if tag == "Notifikasi" {
      NotifikasiSelected(tag);
    } else {
      KindNameSelects(k);
    }
  }

  /**
   * A type in any other case falls through to `extract_document_data`, whose
   * upper-casing sends it to the same extractor: while the extractor returns,
   * the case of the type makes no difference.
   */
  lemma FallThroughAgrees(t: Extractors, text: string, tag: string, name: string)
    requires Branch(tag).None? && KindOf(tag).Some? && Select(t, KindOf(tag).value)(text).Done?
    ensures ProcessText(t, text, tag, name) == Set(Select(t, KindOf(tag).value)(text).rec, "filename", Str(name))
  {
  }

  /**
   * "NOTIFICATION" reaches the Notifikasi extractor here, while
   * `extract_document_data` refuses it: only this path can read a
   * notification under the type the upload page offers.
   */
  lemma NotificationAccepted(t: Extractors, text: string, tag: string, name: string)
    requires tag == "NOTIFICATION" && Conforming(t)
    ensures ProcessText(t, text, tag, name) == Select(t, NOTIFIKASI)(text).rec + [Entry("filename", Str(name))]
    ensures "Error" in Keys(ExtractDocumentData(t, text, tag))
  {
    Conforms(t, NOTIFIKASI, text);
    NameAppended(t, text, tag, name, NOTIFIKASI);
    NotificationRefused(t, text, tag);
  }

  /**
   * With conforming extractors a result has an "Error" field exactly when an
   * extractor raised or, off the chain, the type is unsupported; a raise on
   * the chain gives the outer `except`'s three fields.
   */
  lemma ErrorIffFailed(t: Extractors, text: string, tag: string, name: string)
    requires Conforming(t)
    ensures "Error" in Keys(ProcessText(t, text, tag, name)) <==>
              (Branch(tag).Some? && Select(t, Branch(tag).value)(text).Raised?)
              || (Branch(tag).None? && (KindOf(tag).None? || Select(t, KindOf(tag).value)(text).Raised?))
    ensures Branch(tag).Some? && Select(t, Branch(tag).value)(text).Raised? ==>
              Keys(ProcessText(t, text, tag, name)) == ["filename", "Error", "Jenis Dokumen"]
  {
    var r := ProcessText(t, text, tag, name);
    if Branch(tag).None? {
      Dispatch.ErrorIffFailed(t, text, tag);
      SetKeys(ExtractDocumentData(t, text, tag), "filename", Str(name));
    } else if Select(t, Branch(tag).value)(text).Done? {
      Conforms(t, Branch(tag).value, text);
      SetKeys(Select(t, Branch(tag).value)(text).rec, "filename", Str(name));
    }
  }

  // ---------------------------------------------------------------- generate_new_filename (fallback)

  /** `s.replace(' ', '_')`. */
  function Underscored(s: string): (r: string)
    ensures |r| == |s| && ' ' !in r
  {
    ReplaceChar(s, ' ', '_')
  }

  /** A list with `s` when `c` holds, and empty otherwise. */
  function When(c: bool, s: string): seq<string> {
    if c then [s] else []
  }

  /** `get('Name') or get('Nama TKA') or 'Unknown'`. */
  function FallbackWorker(d: Record): (r: string)
    ensures r == "Unknown" || Truthy(Str(r))
  {
    Or(Get(d, "Name"), Or(Get(d, "Nama TKA"), Str("Unknown"))).s
  }

  /** `get('Passport Number') or get('Nomor Paspor') or 'NoPassport'`. */
  function FallbackPassport(d: Record): (r: string)
    ensures r == "NoPassport" || Truthy(Str(r))
  {
    Or(Get(d, "Passport Number"), Or(Get(d, "Nomor Paspor"), Str("NoPassport"))).s
  }

  /**
   * The fallback `generate_new_filename`: the document type, the name with
   * underscores for spaces and the passport number, joined by '_', with
   * ".pdf". A stored `None` document type makes the join raise; `None` here.
   */
  function FallbackName(d: Record, useName: bool, usePassport: bool): Option<string> {
    match GetOr(d, "Jenis Dokumen", Str("DOC"))
    case Null => None
    case Str(doc) =>
      var name := FallbackWorker(d);
      var passport := FallbackPassport(d);
      Some(Join([doc] + When(useName && name != "Unknown", Underscored(name))
                      + When(usePassport && passport != "NoPassport", passport), "_") + ".pdf")
  }

  /** The body of the fallback, which appends to `parts` as it goes. */
  method FallbackNewFilename(d: Record, useName: bool, usePassport: bool) returns (r: Option<string>)
    ensures r == FallbackName(d, useName, usePassport)
  {
    var name := Or(Get(d, "Name"), Or(Get(d, "Nama TKA"), Str("Unknown")));
    var passport := Or(Get(d, "Passport Number"), Or(Get(d, "Nomor Paspor"), Str("NoPassport")));
    var docType := GetOr(d, "Jenis Dokumen", Str("DOC"));
    var parts: seq<string> := [];
    if useName && name.s != "Unknown" {
      parts := parts + [ReplaceChar(name.s, ' ', '_')];
    }
    if usePassport && passport.s != "NoPassport" {
      parts := parts + [passport.s];
    }
    if docType.Null? {
      return None;
    }
    assert parts == When(useName && name.s != "Unknown", Underscored(name.s))
                    + When(usePassport && passport.s != "NoPassport", passport.s);
    assert [docType.s] + parts == [docType.s] + When(useName && name.s != "Unknown", Underscored(name.s))
                                  + When(usePassport && passport.s != "NoPassport", passport.s);
    r := Some(Join([docType.s] + parts, "_") + ".pdf");
  }

  /** `sep.join([a] + rest)` for a non-empty rest. */
  lemma JoinCons(a: string, rest: seq<string>, sep: string)
    requires rest != []
    ensures Join([a] + rest, sep) == a + sep + Join(rest, sep)
  {
    assert ([a] + rest)[1..] == rest;
  }

  /**
   * The name is the document type, then each requested and known part after
   * a '_', then ".pdf"; a missing type is "DOC", so a Notifikasi record's
   * files start with "DOC".
   */
  lemma FallbackShape(d: Record, useName: bool, usePassport: bool)
    ensures FallbackName(d, useName, usePassport).Some? <==> GetOr(d, "Jenis Dokumen", Str("DOC")).Str?
    ensures FallbackName(d, useName, usePassport).Some? ==>
              var doc := GetOr(d, "Jenis Dokumen", Str("DOC")).s;
              var name := FallbackWorker(d);
              var passport := FallbackPassport(d);
              var n := if useName && name != "Unknown" then "_" + Underscored(name) else "";
              var p := if usePassport && passport != "NoPassport" then "_" + passport else "";
              FallbackName(d, useName, usePassport).value == doc + n + p + ".pdf"
  {
    var v := GetOr(d, "Jenis Dokumen", Str("DOC"));
    if v.Str? {
      var name := FallbackWorker(d);
      var passport := FallbackPassport(d);
      JoinWhen(v.s, useName && name != "Unknown", Underscored(name), usePassport && passport != "NoPassport", passport);
    }
  }

  /** The document type leads the name; without one it is "DOC", as for every Notifikasi record. */
  lemma FallbackPrefix(d: Record, useName: bool, usePassport: bool)
    requires GetOr(d, "Jenis Dokumen", Str("DOC")).Str?
    ensures StartsWith(FallbackName(d, useName, usePassport).value, GetOr(d, "Jenis Dokumen", Str("DOC")).s)
    ensures "Jenis Dokumen" !in Keys(d) ==> StartsWith(FallbackName(d, useName, usePassport).value, "DOC")
  {
    FallbackShape(d, useName, usePassport);
    var name := FallbackWorker(d);
    var passport := FallbackPassport(d);
    Prefix(GetOr(d, "Jenis Dokumen", Str("DOC")).s,
           (if useName && name != "Unknown" then "_" + Underscored(name) else "")
           + (if usePassport && passport != "NoPassport" then "_" + passport else "") + ".pdf");
  }

  lemma Prefix(a: string, b: string)
    ensures StartsWith(a + b, a)
  {
    assert (a + b)[..|a|] == a;
  }

  /** Joining the type with the parts that are present. */
  lemma JoinWhen(doc: string, c1: bool, x: string, c2: bool, y: string)
    ensures Join([doc] + When(c1, x) + When(c2, y), "_") ==
            doc + (if c1 then "_" + x else "") + (if c2 then "_" + y else "")
  {
    var a := When(c1, x);
    var b := When(c2, y);
    if a == [] && b == [] {
      assert [doc] + a + b == [doc];
    } else if a == [] {
      assert [doc] + a + b == [doc] + b;
      JoinCons(doc, b, "_");
    } else if b == [] {
      assert [doc] + a + b == [doc] + a;
      JoinCons(doc, a, "_");
    } else {
      assert [doc] + a + b == [doc] + [x, y];
      JoinCons(doc, [x, y], "_");
      assert [x, y] == [x] + [y];
      JoinCons(x, [y], "_");
    }
  }

  /** A worker whose name is literally "Unknown" is left out of the file name. */
  lemma UnknownDropped(d: Record, usePassport: bool)
    requires Get(d, "Name") == Str("Unknown")
    ensures FallbackName(d, true, usePassport) == FallbackName(d, false, usePassport)
  {
  }

  // ---------------------------------------------------------------- validate_pdf_file

  /** `50 * 1024 * 1024` bytes. */
  const MaxSize := 50 * 1024 * 1024

  /**
   * Where the name and size checks leave an upload: refused as not a PDF,
   * refused as too large (the message shows the size in MB), or passed on
   * to the checks that open the file.
   */
  datatype Screen = NotPdf | TooLarge(size: int) | Opened

  /** The message returned with a refusal for the name. */
  const NotPdfMessage := "File must be a PDF"

  /** file_handler.py:278-284: the extension, case-insensitively, then the size. */
  function ScreenUpload(name: string, size: int): Screen {
    if !EndsWith(Lower(name), ".pdf") then NotPdf
    else if size > MaxSize then TooLarge(size)
    else Opened
  }

  /** An upload is passed on exactly when its name ends in ".pdf" in any case and its size is at most 50 MiB. */
  lemma ScreenPasses(name: string, size: int)
    ensures ScreenUpload(name, size) == Opened <==> EndsWith(Lower(name), ".pdf") && size <= 52428800
    ensures ScreenUpload(name, size) == TooLarge(size) <==> EndsWith(Lower(name), ".pdf") && size > 52428800
  {
  }

  /** The name is checked first: a file that is not a PDF is refused as such whatever its size. */
  lemma NameFirst(name: string, size: int, other: int)
    requires ScreenUpload(name, size) == NotPdf
    ensures ScreenUpload(name, other) == NotPdf
  {
  }

  /** The check does not care about the case of the name. */
  lemma ScreenIgnoresCase(a: string, b: string, size: int)
    requires Lower(a) == Lower(b)
    ensures ScreenUpload(a, size) == ScreenUpload(b, size)
  {
  }

  /** ".PDF" counts as a PDF extension. */
  lemma UpperExtension(stem: string, size: int)
    requires 0 <= size <= MaxSize
    ensures ScreenUpload(stem + ".PDF", size) == Opened
  {
    var s := stem + ".PDF";
    var n := |s|;
    LowerAt(s, n - 4);
    LowerAt(s, n - 3);
    LowerAt(s, n - 2);
    LowerAt(s, n - 1);
    assert Lower(s)[n - 4..] == ".pdf";
  }
}
