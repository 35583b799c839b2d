# Ekstrak-Teks field extraction, in Dafny

A model of the field-extraction core of Ekstrak-Teks, a Streamlit tool. The
tool reads the text of scanned Indonesian immigration documents and turns
it into key/value records. The model covers:

- **Extractors** (`extractors.py`):
  - `extract_sktt`, `extract_evln`, `extract_itas`, `extract_itk`,
    `extract_notifikasi` and `extract_dkptka_info`;
  - inside `extract_dkptka_info`: its table pass, its billing-code scanner,
    its labelled fallback, its field cascades and its final filter;
  - the dispatcher `extract_document_data`;
  - the validator `validate_dkptka_data`.
- **Batch page** (`app.py`). The model covers:
  - the per-upload records and the status each one is logged with;
  - the result table's columns and rows;
  - the success and failure counts;
  - `generate_new_filename`.
- **Upload helpers** (`file_handler.py`):
  - the document-type chain of `process_single_pdf`;
  - the fallback `generate_new_filename`;
  - the name and size checks of `validate_pdf_file`.

## How the model is built

**Records.** A Python dictionary is a sequence of entries in insertion
order (`Records.Dict`). Assigning a key keeps an existing key where it
stands and appends a new one, as Python does. A stored value is `Null`
(`None`) or `Str(s)`. Python truthiness, `or` and `d.get` are written out
(`Records.Truthy`, `Records.Or`, `Records.GetOr`).

**Loops.** Code that loops becomes a `method` with a `while` loop and its
invariants. Each method is proved equal to a function. The properties are
proved about those functions. This covers:

- the DKPTKA passes and its filter;
- the table pass, cell by cell;
- the billing scanner;
- the EVLN greeting, line and date loops;
- the SKTT marker scan;
- the validator's two loops;
- the app's upload loop and row loop;
- the parts lists of both file-name builders.

**Regular expressions.** Simple patterns are hand-coded in module `Scan`:

- a label;
- a separator such as `\s*:\s*`;
- a captured run of one character class, optionally bounded, with
  Python's backtracking where it changes the result.

Composite patterns get a function of their own (dates, the permit name, the
validity range, the signed date, e-mail addresses). Patterns whose meaning
rests on lazy repetition, lookahead or DOTALL matching are fields of
`Collaborators.Captures`: each gives the raw group of one `re.search`, and
the code that consumes the group is modelled.

**`helpers.py` functions.** `format_date`, `clean_text` and
`split_birth_place_date` are fields of `Collaborators.Helpers`.
`helpers.py` is not part of this model. Every property proved here holds
whatever those functions return.

**Dispatch.** `extract_document_data` is modelled over a dictionary of
extractors (`Dispatch.Extractors`). Each extractor either returns a record
or raises with a message. `Dispatch.Builtin` is the dictionary of the six
modelled extractors. `Dispatch.BuiltinConforms` proves that it meets
`Dispatch.Sound`:

- no extractor returns an `Error` or `filename` key;
- each extractor names its own document type, except Notifikasi, which
  names none;
- only EVLN can raise, given helper functions that always return. Its
  date scan converts each formatted year with `int` (extractors.py:128),
  which fails on a malformed year.

**Where the batch page and the upload helper disagree.** The upload page
offers the type "NOTIFICATION" (app.py:40). `extract_document_data` has no
such key, only "NOTIFIKASI", so it refuses every NOTIFICATION upload
(`Dispatch.NotificationRefused`). The batch table then shows '-' in every
Notifikasi column and counts no success (`App.NotificationTableBlank`). The
exact-case chain of `process_single_pdf` does send "NOTIFICATION" to the
Notifikasi extractor (`FileHandler.NotificationAccepted`).

**Behaviour of the code worth noting:**

- document types are matched case-insensitively against the six keys
  only (extractors.py:755-776);
- the Notifikasi date of issue falls back to a numeric date when no
  Indonesian month name is found (extractors.py:357-363);
- a new file name that is too long is cut to 97 characters plus the
  extension (see Findings).

## Model

| member | source | states |
|---|---|---|
| App.NoTextRecord | app.py:413-420 | an upload whose text was not read gets exactly the keys filename, Error, Jenis Dokumen, in that order |
| App.Results | app.py:402-420 | a batch has one record per upload |
| App.ProcessUploads | app.py:402-420 | the upload loop builds exactly `Results`: one record per upload, in upload order |
| App.UploadStatus | app.py:406-441 | with conforming extractors, an upload is logged "completed" iff its text was read and non-empty, its type is supported and the extractor returned; every record carries the upload's file name |
| App.Succeeded | app.py:513 | the success count never exceeds the number of records |
| App.FailedCount | app.py:517 | the failure count never exceeds the number of records |
| App.CountsCover | app.py:513-517 | successes plus failures equal the number of records |
| App.AllSucceeded | app.py:513-517 | if every record is "completed", all are counted as successes and none as failures |
| App.NoneSucceeded | app.py:513-517 | if every record is "failed", none is counted as a success and all as failures |
| App.Without | app.py:484 | a key is kept iff it is a key of the list and not hidden |
| App.GenericColumns | app.py:480-484 | for a type without a fixed column list, the columns are exactly the keys some record has, minus filename, Jenis Dokumen and Error, each listed once |
| App.Rows | app.py:487-492 | the table has one row per record |
| App.BuildRows | app.py:487-492 | the two loops build exactly `Rows`, with rows numbered from 1 |
| App.CellsLookup | app.py:489-491 | a column's cell holds the record's value, or '-' when the record lacks the key; no other key is in the row |
| App.CellsKeys | app.py:489-491 | with distinct columns, the row's cells come in column order |
| App.NotificationTableBlank | app.py:475-492 | under "NOTIFICATION", every Notifikasi column of every row is '-' and no upload counts as a success |
| App.NotificationColumnsShown | app.py:476 | none of the six Notifikasi columns is a hidden key |
| App.UnsupportedBatch | app.py:408-420 | under an unsupported type, every record has only hidden keys and no upload counts as a success |
| App.RefusedUpload | app.py:408-441 | under an unsupported type, an upload is logged "failed" and its record has only hidden keys |
| App.SuffixShape | app.py:193 | `Path.suffix` is empty, or a dot followed by at least one character that is neither a dot nor '/'; the path ends with it |
| App.PdfSuffix | app.py:193 | a named file ending in ".pdf" has the suffix ".pdf" |
| App.HiddenNoSuffix | app.py:193 | a hidden file such as ".pdf" has no suffix |
| App.CleanName | app.py:203-205 | the cleaned name holds only letters, digits, '-' and '_' |
| App.CleanPassport | app.py:207-208 | the cleaned passport holds only letters and digits |
| App.CollectParts | app.py:211-217 | the appends build the cleaned name, then the cleaned passport, each when asked for and non-empty |
| App.GenerateNewFilename | app.py:189-233 | the method computes `NewFilename` |
| App.NewFilenameCut | app.py:219-229 | for any non-empty parts list, the type, parts and suffix joined are kept whole when at most 100 characters; a longer name is the first 97 characters of that joined name followed by the suffix, so 97 plus the suffix's length long |
| App.NewFilenameBounds | app.py:219-229 | the new name is the original, or ends with the original suffix and is at most 100 characters or exactly 97 plus the suffix |
| App.NothingToAdd | app.py:219-221 | with no name or passport to add, the original file name is kept |
| App.NameOnly | app.py:196-223 | a short enough name is the document type, '_', the cleaned name and the suffix; a record without a type is named "DOC" |
| App.TruncatedPdfLength | app.py:225-227 | as written: a cut name for a ".pdf" upload is 101 characters long |
| App.BoundedNewFilenameLength | app.py:225-227 | corrected cut: the name keeps its suffix and is at most 100 characters; it agrees with the code whenever the code's name fits and the suffix has at least three characters |
| Billing.CodePatternsDigits | extractors.py:447-452 | every code pattern captures a run of at least twelve digits |
| Billing.FirstCode | extractors.py:454-459 | a code comes from one of the patterns and has at least twelve characters, all digits |
| Billing.LineCode | extractors.py:462-467 | a line code is the 12+-digit word of a line that has one while no earlier line has one, so it is the first line's; none is found iff no line has one |
| Billing.CodeSearch | extractors.py:454-469 | any code found has at least twelve characters, all digits |
| Billing.BillingCode | extractors.py:445-469 | `extract_billing_code_advanced` returns `None` or an all-digit string of length at least 12 |
| Billing.SearchCode | extractors.py:454-469 | the two loops compute `CodeSearch` |
| Billing.ExtractBillingCode | extractors.py:445-469 | the method computes `BillingCode` over the four patterns |
| Billing.CheckRedundant | extractors.py:456-459 | the length-and-digits check never rejects a match: the first pattern that matches gives the code |
| Billing.PatternsFirst | extractors.py:454-469 | a pattern match decides the code; only when none matches are the lines scanned |
| Billing.MatchFound | extractors.py:455-459 | a pattern that matches anywhere yields a code |
| Billing.LabelWins | extractors.py:448-459 | a labelled billing code wins over every other candidate |
| Billing.LongRunFound | extractors.py:451-459 | fifteen consecutive digits anywhere guarantee that a code is found |
| Billing.LongNumberMatches | extractors.py:451 | the bare pattern matches wherever fifteen digits start |
| Cleaning.SubQuotes | extractors.py:391 | the substitution leaves no quote, newline, tab or carriage return, and adds only spaces |
| Cleaning.SubQuotesKeeps | extractors.py:391 | every character outside the class survives the substitution |
| Cleaning.Clean | extractors.py:386-392 | `clean_extracted_text` gives `None` or a non-empty, unpadded text: no quotes or line breaks, its only whitespace character is ' ', no new characters, and every meaningful input character kept |
| Cleaning.SafeExtract | extractors.py:374-384 | `safe_extract` gives `None` iff there is no match or the group is all whitespace; otherwise a non-empty, unpadded value |
| Cleaning.SafeExtractKeeps | extractors.py:379-381 | the extraction keeps every non-space character of the group; its only whitespace character is ' ' and no two whitespace characters are neighbours |
| Cleaning.FirstMatch | extractors.py:547-554 | a DOTALL cascade takes the first pattern that matches, and yields nothing iff none does |
| Cleaning.FirstMatching | extractors.py:547-554 | the cascade loop computes `FirstMatch` |
| Cleaning.FirstSafe | extractors.py:487-491 | a `safe_extract` cascade yields the first non-empty extraction, and nothing iff every pattern yields nothing |
| Cleaning.Cascade | extractors.py:487-491 | the cascade loop computes `FirstSafe` |
| Dispatch.ErrorRecord | extractors.py:773-776 | the error record has exactly the keys Error and Jenis Dokumen, holding the message and the type as written |
| Dispatch.BuiltinConforms | extractors.py:755-762 | every modelled extractor is sound: no Error or filename key, its own document type (none for Notifikasi), and only EVLN can raise |
| Dispatch.BuiltinSktt | extractors.py:7-46 | the SKTT extractor is sound on every text |
| Dispatch.BuiltinEvln | extractors.py:49-133 | the EVLN extractor is sound on every text |
| Dispatch.BuiltinItas | extractors.py:136-212 | the ITAS extractor is sound on every text |
| Dispatch.BuiltinItk | extractors.py:215-291 | the ITK extractor is sound on every text |
| Dispatch.BuiltinNotifikasi | extractors.py:294-365 | the Notifikasi extractor is sound on every text, with no document type |
| Dispatch.BuiltinDkptka | extractors.py:368-699 | the DKPTKA extractor is sound on every text |
| Dispatch.KindOfName | extractors.py:764 | an extractor is selected iff the upper-cased type is its key |
| Dispatch.KindNameSelects | extractors.py:755-764 | each key selects its own extractor, so the table is one-to-one |
| Dispatch.UnsupportedRecord | extractors.py:772-776 | an unsupported type gives exactly Error "Tipe dokumen … tidak didukung" and Jenis Dokumen holding the type as written |
| Dispatch.CaseIgnored | extractors.py:764-766 | types that differ only in case select the same extractor and, when it returns, give the same record |
| Dispatch.ErrorIffFailed | extractors.py:764-776 | with conforming extractors, a result has an Error key iff the type is unsupported or the extractor raised; the result never has a filename key |
| Dispatch.RecordedType | extractors.py:764-771 | a returned record holds its extractor's type whatever case was asked for; a Notifikasi record holds none; a raise records the type as written |
| Dispatch.LongRefused | extractors.py:755-764 | a type longer than ten characters is unsupported |
| Dispatch.NotificationRefused | extractors.py:755-776 | "NOTIFICATION" is refused with the unsupported-type record |
| Dispatch.NotifikasiSelected | extractors.py:760-764 | "Notifikasi" selects the Notifikasi extractor |
| Dkptka.Cleaned | extractors.py:487-491 | a cleaned cascade stores a value iff some pattern yields a non-empty extraction |
| Dkptka.Raw | extractors.py:511-515 | a raw cascade stores a non-empty string iff some pattern yields a non-empty extraction |
| Dkptka.Squash | extractors.py:550-552 | a squashed group has no surrounding whitespace |
| Dkptka.Squashed | extractors.py:547-554 | a DOTALL cascade stores a value iff some pattern matches, even when the group is blank |
| Dkptka.BillingFound | extractors.py:666-668 | a billing code is stored iff the scanner finds one, and it has at least twelve digits |
| Dkptka.AssignLookup | extractors.py:489-491 | after `if value: result[k] = value`, the key holds the value found or its old value; other keys are untouched |
| Dkptka.GuardedLookup | extractors.py:559 | a guarded cascade changes the lookup of its own key only, and only when that key held no truthy value (then the found value, if any, wins); it adds no other key and keeps keys distinct |
| Dkptka.Keep | extractors.py:688-691 | the filter keeps a non-blank string as it is and turns everything else into `None` |
| Dkptka.CleanedOf | extractors.py:487-491 | the cascade loop computes `Cleaned` |
| Dkptka.RawOf | extractors.py:511-515 | the cascade loop computes `Raw` |
| Dkptka.SquashedOf | extractors.py:547-554 | the DOTALL loop computes `Squashed` |
| Dkptka.Store | extractors.py:489-490 | the conditional store computes `Assign` |
| Dkptka.LabelledPass | extractors.py:479-554 | the labelled fallback's six cascades compute `Fallback` |
| Dkptka.FindAddress | extractors.py:559-572 | the address cascade computes `AddressFound` |
| Dkptka.FindPhone | extractors.py:575-586 | the phone cascade and its character filter compute `PhoneFound` |
| Dkptka.ContactPass | extractors.py:558-612 | the guarded cascades compute `Contacts` |
| Dkptka.FindBilling | extractors.py:666-668 | the billing step computes `BillingFound` |
| Dkptka.PostingPass | extractors.py:614-683 | the unguarded cascades and the document type compute `Postings` |
| Dkptka.FilterValues | extractors.py:686-691 | the filter loop computes `Filtered` |
| Dkptka.GatherFields | extractors.py:472-683 | everything before the filter computes `Gather` over the table, fallback, contact and posting results |
| Dkptka.ExtractDkptkaInfo | extractors.py:368-693 | the whole extractor computes `DkptkaInfo` |
| Dkptka.FallbackLookup | extractors.py:479-554 | the fallback sets each of the six core fields it found and nothing else, adds no other key and duplicates none |
| Dkptka.ContactsOpen | extractors.py:558-602 | when only table fields are present, no guard holds its cascade back: all four cascades assign |
| Dkptka.ContactsLookup | extractors.py:558-612 | the guarded cascades set their own four fields to what they found, and nothing else |
| Dkptka.PostingsLookup | extractors.py:614-683 | the other cascades set their own fields and the document type, and nothing else |
| Dkptka.FilteredLookup | extractors.py:686-691 | the filter keeps every key in place and passes each value through `Keep` |
| Dkptka.GatherLookup | extractors.py:472-683 | before the filter, each field holds what its stage found, with distinct keys among the seventeen fields and nothing else |
| Dkptka.ResultTableFields | extractors.py:475-554 | a core field comes from the table when any table value is truthy, otherwise from the fallback where it found something; either way through the filter |
| Dkptka.ResultContactFields | extractors.py:558-612 | the address, phone, e-mail and birth fields hold what their cascades found, after the filter |
| Dkptka.ResultPostingFields | extractors.py:614-683 | the office, location, duration, issue date, billing code and account fields hold what their cascades found, after the filter |
| Dkptka.ResultShape | extractors.py:686-693 | the result's keys are distinct and among the seventeen fields; no value is an empty or blank string |
| Dkptka.ResultDocType | extractors.py:683-691 | the document type survives the filter |
| Dkptka.InfoDocType | extractors.py:683-693 | every DKPTKA result has Jenis Dokumen = "DKPTKA" |
| Dkptka.InfoKeys | extractors.py:472-693 | every key of the result is one of the seventeen fields, and none occurs twice |
| Dkptka.InfoFacts | extractors.py:472-693 | the result has neither an Error nor a filename key, and says it is a DKPTKA |
| Dkptka.PhoneShape | extractors.py:575-586 | a stored phone number is non-empty and holds only digits, '-', '+' and '$' |
| Dkptka.EmailShape | extractors.py:589-599 | a stored e-mail address contains '@' |
| Evln.ToRecord | extractors.py:51-59 | the record has the seven keys in order with Jenis Dokumen = "EVLN", and the name, birth date, passport and issue fields at their keys |
| Evln.DearName | extractors.py:64-73 | without a "Dear" line the name is ""; after the first "Dear" line, the name is `clean_text` of the stripped next line exactly when that line exists and its length is strictly between 3 and 50, and "" otherwise |
| Evln.DearFirstOnly | extractors.py:64-73 | only the first greeting counts: lines after the one following it never change the name |
| Evln.FindDearName | extractors.py:64-73 | the greeting loop computes `DearName` |
| Evln.AfterColon | extractors.py:78-79 | the field between the first colon and the next one contains no colon |
| Evln.PassportToken | extractors.py:96 | a passport token is a non-empty word of capitals and digits |
| Evln.VisaCutFrom | extractors.py:87 | the substitution never lengthens the text |
| Evln.VisaCutPrefix | extractors.py:87 | within one line, the cut keeps a prefix: everything from the first "Visa Type" on goes |
| Evln.LineStep | extractors.py:77-108 | a line changes only the field whose branch its label selects |
| Evln.ScanLines | extractors.py:76-108 | the line loop computes `LineLoop` |
| Evln.ScanKeepsName | extractors.py:77-80 | once the name is filled in, no "Name" line replaces it |
| Evln.ScanPassport | extractors.py:95-98 | the passport number stays a word of capitals and digits (or empty) through the line loop |
| Evln.FirstIssueCapture | extractors.py:117-121 | the pattern loop gives the first pattern's capture when it matches, and the second pattern's otherwise |
| Evln.IssueCaptureFirst | extractors.py:112-121 | of the two issue-date patterns, the first that matches gives the capture; the second counts only when the first fails |
| Scan.FirstCaptureAt | extractors.py:117-121 | for any list of patterns tried in order, a pattern that matches with no match before it gives the capture |
| Scan.FirstCaptureFrom | extractors.py:117-121 | conversely, a capture returned comes from a pattern that matches with no match before it |
| Evln.Judge | extractors.py:127-130 | a date is taken exactly when it qualifies: its year is readable and in 2020..2025 and it differs from the birth and expiry dates, and then its formatted text is taken; the scan raises exactly when `format_date` gives `None` or the year is not an integer, with Python's message |
| Evln.FirstDecided | extractors.py:126-131 | the scan stops at the first date taken or raising, and yields a rejection only if every date is rejected |
| Evln.PickIssueDate | extractors.py:126-131 | the date loop computes `FirstDecided` over the verdicts |
| Evln.Labelled | extractors.py:111-121 | stage 2 runs only while the issue date is empty, and changes nothing but the issue date; with an empty date, the first labelled capture is stored through `format_date`, and without a capture nothing changes |
| Evln.Dated | extractors.py:124-131 | stage 3 runs only while the issue date is empty, and changes nothing but the issue date |
| Evln.DatedPicksFirst | extractors.py:124-131 | with an empty issue date, a qualifying date with only rejected dates before it is the one stored |
| Evln.DatedStoredFirst | extractors.py:124-131 | conversely, a finished scan either rejected every date and stored nothing, or stored the first qualifying date |
| Evln.ExtractEvln | extractors.py:49-133 | the record has the seven keys with "EVLN"; an issue date set by stage 1 or 2 is the one returned; a raise happens only when stages 1 and 2 found no issue date; the name is stage 1's |
| Evln.ExtractEvlnPicksFirst | extractors.py:110-131 | when stages 1 and 2 leave the date empty, the record holds the first qualifying date of the text |
| Evln.ExtractEvlnStoredFirst | extractors.py:110-131 | conversely, when stages 1 and 2 leave the date empty and a record is returned, either every date was rejected and the date stays empty, or the stored date is the first qualifying one |
| Evln.RunLabelled | extractors.py:61-121 | the greeting, line and pattern loops compute stages 1 and 2 |
| Evln.RunDated | extractors.py:124-131 | the date loop computes `Dated` |
| Evln.RunEvln | extractors.py:49-133 | the loops compute `ExtractEvln` |
| FileHandler.FailedRecord | file_handler.py:97-102 | the exception record has exactly the keys filename, Error, Jenis Dokumen |
| FileHandler.ProcessSinglePdf | file_handler.py:72-95 | the chain and the name step compute `ProcessText` |
| FileHandler.NameRecorded | file_handler.py:93-102 | every result carries the upload's file name |
| FileHandler.NameAppended | file_handler.py:72-95 | on the chain, with a returning extractor, the result is the extraction plus filename as a new last key |
| FileHandler.ChainAgrees | file_handler.py:73-90 | on every type the chain names except "NOTIFICATION", the chain selects what `extract_document_data` selects and, when the extractor returns, the results agree |
| FileHandler.FallThroughAgrees | file_handler.py:85-88 | a type in another case falls through to `extract_document_data` and reaches the same extractor |
| FileHandler.NotificationAccepted | file_handler.py:81-82 | "NOTIFICATION" reaches the Notifikasi extractor here, while `extract_document_data` refuses it |
| FileHandler.ErrorIffFailed | file_handler.py:72-102 | a result has an Error key iff an extractor raised or, off the chain, the type is unsupported; a raise on the chain gives the outer `except`'s three keys |
| FileHandler.Underscored | file_handler.py:44 | replacing spaces keeps the length and leaves no space |
| FileHandler.FallbackWorker | file_handler.py:38 | the name is "Unknown" or truthy |
| FileHandler.FallbackPassport | file_handler.py:39 | the passport is "NoPassport" or truthy |
| FileHandler.FallbackNewFilename | file_handler.py:36-48 | the method computes `FallbackName` |
| FileHandler.FallbackShape | file_handler.py:36-48 | a name exists iff the type is a string; it is the type, then "_" and each requested known part, then ".pdf", with no cut |
| FileHandler.FallbackPrefix | file_handler.py:40-48 | the name starts with the document type, or with "DOC" when the record has none |
| FileHandler.UnknownDropped | file_handler.py:38-44 | a worker literally named "Unknown" is left out of the name |
| FileHandler.ScreenPasses | file_handler.py:278-284 | an upload passes iff its lower-cased name ends in ".pdf" and its size is at most 50 MiB; it is refused as too large iff it is a PDF above that |
| FileHandler.NameFirst | file_handler.py:278-279 | a file that is not a PDF is refused as such whatever its size |
| FileHandler.ScreenIgnoresCase | file_handler.py:278 | the check ignores the case of the name |
| FileHandler.UpperExtension | file_handler.py:278-284 | ".PDF" counts as a PDF extension |
| Months.Translate | extractors.py:200 | `dict.get` gives the default for an unknown key, and a table value otherwise |
| Months.MonthGet | extractors.py:200 | a month lookup gives a two-digit month number for a listed name, and the default otherwise |
| Months.MonthGetAt | extractors.py:195-200 | the i-th month name gets the i-th number |
| Months.CodeShape | extractors.py:195-199 | every month number is two digits |
| Months.IndonesianLowerCase | extractors.py:350-354 | the Indonesian keys are all lower case |
| Months.NamesDistinct | extractors.py:195-199 | no month name occurs twice in either table |
| Notifikasi.DecisionVal | extractors.py:313-314 | the decision number is a string, "" iff not found, otherwise the capture itself, made only of its class |
| Notifikasi.DecisionCaptured | extractors.py:313-314 | a captured decision number is non-empty and has nothing to strip |
| Notifikasi.Find | extractors.py:308-310 | `find` gives "" without a match, else the stripped rest of the line where the value starts (the white space after the colon may cross line breaks), with no newline |
| Notifikasi.RangeFromRequired | extractors.py:327-331 | a range found with the connector required is found unchanged when the connector is optional |
| Notifikasi.TanggalBerlakuSubsumed | extractors.py:326-332 | wherever the "Tanggal Berlaku" pattern matches, the "Berlaku" pattern matches eight characters later with the same dates |
| Notifikasi.ValidityFallbackDead | extractors.py:329-332 | the fallback range search never finds anything the first one missed |
| Notifikasi.Validity | extractors.py:326-332 | a range match has exactly two captures, each a dd?mm?yyyy date whose separators are '-' or '/' |
| Notifikasi.BerlakuFound | extractors.py:326-336 | "Berlaku" is non-empty exactly when the "Berlaku" range pattern matches somewhere in the text |
| Notifikasi.WordIssueAt | extractors.py:340-342 | a worded date has a one- or two-digit day, an Indonesian month name in any case and a four-digit year |
| Notifikasi.WordIssue | extractors.py:340-342 | the first worded date is found iff one exists somewhere in the text |
| Notifikasi.MonthCaptureKnown | extractors.py:341 | the month the alternation matched, lower-cased, is a key of the month table |
| Notifikasi.IssueMonth | extractors.py:355 | the month lookup always gives a two-digit month number |
| Notifikasi.IssueMonthNumber | extractors.py:350-355 | the default '01' is never used for a matched month: the a-th name gives the a-th number |
| Notifikasi.WordIssueText | extractors.py:344-356 | the rewritten date is dd/mm/yyyy: it splits back into the padded day, the month number and the year |
| Notifikasi.IssueVal | extractors.py:340-363 | the date of issue is a worded date in dd/mm/yyyy form, else the formatted numeric date, else "" |
| Notifikasi.WordIssueParts | extractors.py:344-356 | a worded date of issue keeps its day, its year and the number of its month |
| Notifikasi.Extract | extractors.py:312-363 | each field is computed from its own pattern; every field but the date of issue is a string |
| Notifikasi.ToRecord | extractors.py:295-306 | the record has exactly the ten keys, in order, and no Jenis Dokumen |
| Notifikasi.ExtractNotifikasi | extractors.py:294-365 | the result has exactly the ten keys and no document type; every field but the date of issue is a string ("" when not found) |
| Permit.LastMark | extractors.py:140 | the last place in a range where "\nPERMIT NUMBER" starts, and none iff there is no such place |
| Permit.NameAt | extractors.py:140 | a name match is a non-empty run of capitals and whitespace directly before "\nPERMIT NUMBER" |
| Permit.NameVal | extractors.py:140-141 | the name is found iff the pattern matches somewhere; it is capitals and whitespace with no surrounding whitespace |
| Permit.Raw | extractors.py:144-145 | an unformatted field is found iff its pattern matches, and is a run of its class |
| Permit.Stripped | extractors.py:177-186 | a free-text field is found iff it matches; it is one line with no surrounding whitespace |
| Permit.SignedDateAt | extractors.py:189 | a signed date has a one- or two-digit day, a month word and a four-digit year |
| Permit.SignedDate | extractors.py:189 | the first signed date is found iff one exists somewhere |
| Permit.MonthNumber | extractors.py:195-200 | an exactly spelt English month becomes two digits; anything else is kept as found |
| Permit.MonthNumberAt | extractors.py:195-200 | the i-th English month becomes the i-th number |
| Permit.MonthExactCase | extractors.py:200 | the lookup folds no case: "january" is passed through untranslated |
| Permit.SignedDateSplit | extractors.py:201 | the rewritten date splits back into the padded day, the month number and the year |
| Permit.IssueSource | extractors.py:189-209 | the text handed to `format_date` is the rewritten signed date when there is one, else the first numeric date, else nothing |
| Permit.SignedSource | extractors.py:191-201 | the rewritten signed date splits back into its three parts |
| Permit.SignedParts | extractors.py:191-201 | the day is padded to two digits |
| Permit.Extract | extractors.py:137-210 | the name, permit number, passport, gender and address have the shapes their patterns allow; the issue date is `IssueVal` |
| Permit.ToRecord | extractors.py:137-211 | the record has the thirteen keys in order with the given type last, and each field where it belongs |
| Permit.PermitRecord | extractors.py:136-212 | the record both extractors build, with the field shapes of `Extract` |
| Permit.ExtractItas | extractors.py:136-212 | `extract_itas` gives the thirteen keys, Jenis Dokumen = "ITAS", and no Error or filename key |
| Permit.ExtractItk | extractors.py:215-291 | `extract_itk` gives the thirteen keys, Jenis Dokumen = "ITK", and no Error or filename key |
| Permit.ItasItkAgree | extractors.py:136-291 | ITAS and ITK give the same record except for the document type |
| PyInt.ParseDecimal | extractors.py:128 | `int(str(n)) == n` |
| PyInt.ParseDigits | extractors.py:128 | `int` reads a non-empty digit string as an unsigned number |
| PyInt.Repr | extractors.py:128 | `repr` of the text in `int`'s error message: the text in matching quotes, double quotes exactly when it holds a single quote and no double quote |
| Sktt.SignatureAt | extractors.py:26 | a signature match captures a non-empty run of capitals and whitespace, and a dd-mm-yyyy date with '-' both times |
| Sktt.IssueDate | extractors.py:21-29 | the issue date comes only from the line just before the first "KEPALA DINAS" line; there is none without a marker or when the marker is the first line |
| Sktt.ScanForIssueDate | extractors.py:21-29 | the marker loop computes `IssueDate` |
| Sktt.NikVal | extractors.py:34 | a NIK is found iff its pattern matches, and is a non-empty run of digits |
| Sktt.SexVal | extractors.py:36 | the sex is found iff its pattern matches, and is "MALE" or "FEMALE" |
| Sktt.IssueVal | extractors.py:21-44 | a date of issue is stored exactly when the line before the first marker holds a signature date, and it is then `format_date` of that date (`IssueDate`); without such a date nothing is stored |
| Sktt.SkttValues | extractors.py:33-46 | the twelve values in key order, with the NIK, sex, issue date and "SKTT" where they belong |
| Sktt.ExtractSktt | extractors.py:7-46 | the result always has the twelve keys in order with "SKTT"; a NIK is digits, the sex is MALE or FEMALE; the date of issue is `format_date` of the signature date on the line before the first marker line (`IssueDate`) when there is one, and none otherwise |
| Table.RowCells | extractors.py:401-405 | a line contributes cells only if it is row-like and has at least four columns |
| Table.Classify | extractors.py:412-441 | a cell assigned to a field is non-empty, and the field is one of the six |
| Table.LastValue | extractors.py:406-441 | the winning value comes from a cell classified for the field with no later cell so classified, and is absent iff no cell is |
| Table.ApplyLookup | extractors.py:406-441 | each field of the table dictionary holds the value of the last cell assigned to it |
| Table.ApplyKeys | extractors.py:396-443 | the table dictionary has distinct keys, all among the six fields |
| Table.AssignCell | extractors.py:407-441 | one pass of the chain computes one assignment step |
| Table.AssignRow | extractors.py:406-441 | the column loop computes the fold over the row's cells |
| Table.AssignLine | extractors.py:401-441 | one line extends the fold by that line's cells |
| Table.TablePass | extractors.py:396-443 | the line loop computes `Apply` over every line's cells |
| Table.ExtractFromTable | extractors.py:394-443 | the method computes `TableRecord` over the extractor's keyword lists |
| Table.TableProvenance | extractors.py:394-443 | the table dictionary's keys are distinct core fields, and each value comes from a cell its chain assigned to that field |
| Table.CellOrigin | extractors.py:401-407 | every cell is a stripped column of a row-like line with at least four columns |
| Table.TableEmployer | extractors.py:412-413 | the employer comes only from column 0, from a cell naming a kind of company, cleaned |
| Table.ClassifiedEmployer | extractors.py:412 | a cell classified as the employer is in column 0 and names a kind of company |
| Table.TableWorker | extractors.py:416-417 | the worker's name comes only from column 1: capitals and spaces, at least two words, cleaned |
| Table.ClassifiedWorker | extractors.py:416 | a cell classified as the worker is in column 1, is capitals and spaces, and has at least two words |
| Table.TablePassport | extractors.py:420-421 | a passport from the table is six to twelve capitals and digits, stored unchanged |
| Table.TableAmount | extractors.py:440-441 | an amount from the table is a cleaned cell holding a digit and a currency marker |
| Table.ClassifiedAmount | extractors.py:440 | a cell classified as the amount holds a digit and a currency marker |
| Validation.MissingMembers | extractors.py:721-724 | a field is missing iff it is required and its value is not truthy |
| Validation.MissingOrdered | extractors.py:721-724 | the missing fields keep the order of the required list |
| Validation.MissingOf | extractors.py:721-724 | the loop computes `Missing` |
| Validation.CollectWarnings | extractors.py:731-746 | the four checks compute `Warnings` |
| Validation.Validate | extractors.py:701-748 | the method computes the report `Validation` |
| Validation.MissingFields | extractors.py:712-728 | the report lists, in order, exactly the required fields that are absent, `None` or empty; the status is "valid" iff every one is truthy, else "incomplete" |
| Validation.WarningsFacts | extractors.py:731-746 | each warning appears iff its value is present and suspect, and the warnings keep their fixed order |
| Validation.CurrencyMarkers | extractors.py:745 | the amount check's "US$" alternative is redundant: it accepts iff the text has "USD" or '$' |
| Validation.FoundCodeAccepted | extractors.py:740 | a code the billing scanner accepts never draws the billing warning |

## Left out

- `helpers.py`: `format_date`, `clean_text` and `split_birth_place_date` are parameters (`Collaborators.Helpers`). Their code is not part of this model, so no property depends on what they return.
- Patterns with lazy repetition, lookahead or DOTALL are parameters (`Collaborators.Captures`), one per pattern, each giving its raw group. This covers:
  - the place/date of birth of ITAS and ITK;
  - two of the three employer patterns;
  - the first name, nationality and position patterns of the DKPTKA fallback;
  - both amount patterns;
  - both address patterns;
  - the loose birth pattern;
  - both office patterns;
  - the first location pattern;
  - the first duration pattern.

  What the code does with each group is modelled.
- Character classes are ASCII: `\s`, `\w`, `\d`, `str.isalnum`, `str.upper`, `str.lower` and `str.isspace` are modelled on ASCII characters only, and `int()` accepts only ASCII digits and ASCII whitespace, since Unicode tables are out of reach here.
- PDF text extraction (pdfplumber), the Streamlit page, progress bars and messages, the database log, ZIP/Excel export, authentication and the dashboard are I/O.
  - The text of an upload is a parameter: `Option<string>` for `extract_pdf_text` on the batch page, `string` in `process_single_pdf`.
  - Only the status the log records is modelled.
- The generic columns: Python iterates a `set` in an order it does not specify. The model takes the order as a parameter (`order`) and proves that the columns are the right keys, each once, whatever the order.
- `validate_pdf_file` after the size check (file_handler.py:286-296) opens the PDF, so it is left out.
- FileHandler.ScreenUpload: a refusal for size carries the size in bytes, not the formatted "current: x.xMB" text, since float formatting is not modelled.
- App.Suffix: `Path` drops trailing '/' separators before it takes the suffix; the model does not normalise the path.
- Exceptions that cannot occur in the modelled code are left out:
  - the `except` of `extract_dkptka_info` (extractors.py:695-699);
  - the inner `except` of `process_single_pdf` (file_handler.py:89-90), since `extract_document_data` catches everything itself;
  - the `except` branch of `safe_extract` (extractors.py:383-384).
- The outer `except` of `process_single_pdf` is modelled only for an extractor that raises, not for pdfplumber failures.
- The `else` branch of the EVLN greeting (extractors.py:71-72) is left out, because `clean_text` is always imported, so its condition always holds.
- Evln.Judge: the `ValueError` message renders the year text with `repr` but without CPython's 200-character cut (`%.200R`) and without its `\uXXXX` escapes for characters beyond Latin-1, so the message is Python's only for short Latin-1 year texts.
- Dispatch.BuiltinConforms: the `helpers.py` functions are taken to always return a value. A raising `format_date`, `clean_text` or `split_birth_place_date` (SKTT extractors.py:31-44, ITAS/ITK extractors.py:149-207 and 228-286, Notifikasi extractors.py:334-335 and 363) would give the error record for those types too.
- Evln.Judge: only the two ways the year conversion can fail are modelled (`None` from `format_date`, and a year that is not an integer). A `format_date` that itself raises is not modelled, since its code is not part of this model.
- The success and failure metrics only count records; the "Total Files" metric and the time measurements are left out.

## Findings

| source | as written | input that shows it | evidently intended | confidence | as-written member | corrected member |
|---|---|---|---|---|---|---|
| app.py:225-227 | a new name longer than 100 characters becomes its first 97 characters plus the extension, which is 101 characters for ".pdf" (and more for longer extensions) | a record with Jenis Dokumen "SKTT" and a 120-character name, uploaded as "scan.pdf": the result is 97 + 4 = 101 characters | the cut keeps the whole name within the 100-character limit it checks, ending with the extension | not executed | App.TruncatedPdfLength | App.BoundedNewFilenameLength |

`App.BoundedNewFilename` cuts the joined name to `100 - |suffix|`
characters before adding the suffix again. `App.BoundedNewFilenameLength`
proves three things about it:

- the result keeps the suffix;
- the result is never longer than 100 characters;
- it equals the code's result whenever the code's name already fits and
  the suffix has at least three characters.
