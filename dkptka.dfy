/**
 * The DKPTKA extractor (`extract_dkptka_info`, extractors.py:368-699). The
 * table pass runs first; only when it found nothing truthy are the six
 * fields it fills looked for by their labels. The address, phone, e-mail
 * and birth fields are then looked for when still empty, the remaining
 * fields always, the document type is set, and finally every value that is
 * empty or only whitespace becomes `None`.
 */
module Dkptka {
  import opened Wrappers
  import opened Text
  import opened Records
  import opened Scan
  import opened Collaborators
  import opened Cleaning
  import Table
  import Billing

  // ---------------------------------------------------------------- keys

  const AddressKey := "Alamat"
  const PhoneKey := "No Telepon"
  const EmailKey := "Email"
  const BirthKey := "Tempat/Tanggal Lahir"
  const OfficeKey := "Kanim"
  const LocationKey := "Lokasi Kerja"
  const DurationKey := "Jangka Waktu"
  const IssueKey := "Tanggal Penerbitan"
  const BillingKey := "Kode Billing Pembayaran"
  const AccountKey := "No Rekening"
  const DocTypeKey := "Jenis Dokumen"

  /** The fields looked for only while they are still empty. */
  const ContactKeys := [AddressKey, PhoneKey, EmailKey, BirthKey]

  /** The fields looked for on every text, and the document type. */
  const PostingKeys := [OfficeKey, LocationKey, DurationKey, IssueKey, BillingKey, AccountKey, DocTypeKey]

  /** Every field the extractor can return. */
  const DkptkaKeys := Table.CoreKeys + ContactKeys + PostingKeys

  // ---------------------------------------------------------------- patterns

  /** `Nama\s+Pemberi\s+Kerja\s*:\s*([^\n]+)`. */
  const CompanyField := Field([Words(["Nama", "Pemberi", "Kerja"])], ColonWs, Run(NotNewline, 1), true)
  /** `Nama\s+TKA\s*:\s*([^\n]+)`. */
  const WorkerField := Field([Words(["Nama", "TKA"])], ColonWs, Run(NotNewline, 1), true)
  /** `Nomor\s+Paspor\s*:\s*([A-Z0-9]+)`, case folded. */
  const PassportNumberField := Field([Words(["Nomor", "Paspor"])], ColonWs, Run(IsAlnum, 1), true)
  /** `Paspor\s*:\s*([A-Z0-9]+)`, case folded. */
  const PassportField := Field([Lits("Paspor")], ColonWs, Run(IsAlnum, 1), true)
  /** `Kewarganegaraan\s*:\s*([^\n]+)`. */
  const NationalityField := Field([Lits("Kewarganegaraan")], ColonWs, Run(NotNewline, 1), true)
  /** `Jabatan\s*:\s*([^\n]+)`. */
  const PositionField := Field([Lits("Jabatan")], ColonWs, Run(NotNewline, 1), true)

  /** The class `[0-9\-\+$\s]` of a phone number group. */
  predicate PhoneClass(c: char) { IsDigit(c) || c == '-' || c == '+' || c == '$' || IsSpace(c) }
  /** What `re.sub(r'[^\d\-\+$]', '', phone)` keeps. */
  predicate PhoneKept(c: char) { IsDigit(c) || c == '-' || c == '+' || c == '$' }

  /** `Nomor\s+Telepon\s*:\s*([0-9\-\+$\s]+)`. */
  const PhoneNumberField := Field([Words(["Nomor", "Telepon"])], ColonWs, Run(PhoneClass, 1), true)
  /** `Telepon\s*:\s*([0-9\-\+$\s]+)`. */
  const PhoneField := Field([Lits("Telepon")], ColonWs, Run(PhoneClass, 1), true)
  /** `Email\s*:\s*(<address>)`. */
  const EmailField := Field([Lits("Email")], ColonWs, Email, true)
  /** `E-mail\s*:\s*(<address>)`. */
  const EMailField := Field([Lits("E-mail")], ColonWs, Email, true)
  // `Tempat`, a slash between optional whitespace, then `Tgl\s+Lahir\s*:\s*([^,\n]+,\s*\d{1,2}\s+\w+\s+\d{4})`.
  const BirthField :=
    Field([Lits("Tempat") + [Spaces0, Lit('/'), Spaces0] + Lits("Tgl") + [Spaces1] + Lits("Lahir")], ColonWs,
          PlaceCommaDate, true)
  /** `Lokasi\s+Kerja\s*:\s*([^\n]+)`. */
  const LocationField := Field([Words(["Lokasi", "Kerja"])], ColonWs, Run(NotNewline, 1), true)
  /** `Jangka\s+Waktu\s*:\s*([^\n]+)`. */
  const DurationField := Field([Words(["Jangka", "Waktu"])], ColonWs, Run(NotNewline, 1), true)
  /** `Tanggal\s+Penerbitan\s*:\s*(\d{1,2}\s+\w+\s+\d{4})`. */
  const IssueWordField := Field([Words(["Tanggal", "Penerbitan"])], ColonWs, DayWordYear, true)
  /** `Tanggal\s+Penerbitan\s*:\s*(\d{1,2}[\-/]\d{1,2}[\-/]\d{4})`. */
  const IssueNumericField := Field([Words(["Tanggal", "Penerbitan"])], ColonWs, AnyDate, true)
  /** `No\s+Rekening\s*:\s*([0-9]+)`. */
  const AccountNumberField := Field([Words(["No", "Rekening"])], ColonWs, Run(IsDigit, 1), true)
  /** `Rekening\s*:\s*([0-9]+)`. */
  const AccountField := Field([Lits("Rekening")], ColonWs, Run(IsDigit, 1), true)

  // ---------------------------------------------------------------- what each cascade finds

  /** A `safe_extract` cascade whose value is stored through `clean_extracted_text`. */
  function Cleaned(caps: seq<Option<string>>): (r: Option<Val>)
    ensures r.Some? <==> FirstSafe(caps).Some?
  {
    match FirstSafe(caps)
    case None => None
    case Some(v) => Some(Clean(v))
  }

  /** A `safe_extract` cascade whose value is stored as it is. */
  function Raw(caps: seq<Option<string>>): (r: Option<Val>)
    ensures r.Some? <==> FirstSafe(caps).Some?
    ensures r.Some? ==> r.value.Str? && r.value.s != []
  {
    match FirstSafe(caps)
    case None => None
    case Some(v) => Some(Str(v))
  }

  /**
   * What the DOTALL cascades do with a group: strip it, turn each newline
   * and the whitespace after it into a space, collapse whitespace runs and
   * strip again.
   */
  function Squash(g: string): (r: string)
    ensures Unpadded(r)
  {
    Strip(CollapseWs(SubNewlineWs(Strip(g))))
  }

  /** A DOTALL cascade whose squashed group is stored, empty or not. */
  function Squashed(caps: seq<Option<string>>): (r: Option<Val>)
    ensures r.Some? <==> FirstMatch(caps).Some?
  {
    match FirstMatch(caps)
    case None => None
    case Some(g) => Some(Str(Squash(g)))
  }

  function CompanyFound(t: string, cap: Captures): Option<Val> {
    Cleaned([Capture(t, CompanyField), cap.companyBeforeAddress(t), cap.companyNumbered(t)])
  }

  function WorkerFound(t: string, cap: Captures): Option<Val> {
    Cleaned([cap.workerBeforeNext(t), Capture(t, WorkerField)])
  }

  function PassportFound(t: string): Option<Val> {
    Raw([Capture(t, PassportNumberField), Capture(t, PassportField)])
  }

  function NationalityFound(t: string, cap: Captures): Option<Val> {
    Cleaned([cap.nationalityBeforeNext(t), Capture(t, NationalityField)])
  }

  function PositionFound(t: string, cap: Captures): Option<Val> {
    Cleaned([cap.positionBeforeNext(t), Capture(t, PositionField)])
  }

  function AmountFound(t: string, cap: Captures): Option<Val> {
    Squashed([cap.amountPaid(t), cap.amountUsd(t)])
  }

  /** The address cascade: the squashed group, without the final strip, then cleaned. */
  function AddressFound(t: string, cap: Captures): Option<Val> {
    match FirstMatch([cap.addressBeforePhone(t), cap.addressLoose(t)])
    case None => None
    case Some(g) => Some(Clean(CollapseWs(SubNewlineWs(Strip(g)))))
  }

  /** The phone cascade: the extraction with everything but digits, '-', '+' and '$' removed. */
  function PhoneFound(t: string): Option<Val> {
    match FirstSafe([Capture(t, PhoneNumberField), Capture(t, PhoneField)])
    case None => None
    case Some(p) => Some(Str(Filter(p, PhoneKept)))
  }

  function EmailFound(t: string): Option<Val> {
    Raw([Capture(t, EmailField), Capture(t, EMailField)])
  }

  function BirthFound(t: string, cap: Captures): Option<Val> {
    Cleaned([Capture(t, BirthField), cap.birthLoose(t)])
  }

  function OfficeFound(t: string, cap: Captures): Option<Val> {
    Cleaned([cap.officeBeforeNext(t), cap.officeLoose(t)])
  }

  function LocationFound(t: string, cap: Captures): Option<Val> {
    Cleaned([cap.locationBeforeNext(t), Capture(t, LocationField)])
  }

  function DurationFound(t: string, cap: Captures): Option<Val> {
    Squashed([cap.durationBeforeNext(t), Capture(t, DurationField)])
  }

  function IssueFound(t: string): Option<Val> {
    Raw([Capture(t, IssueWordField), Capture(t, IssueNumericField)])
  }

  /** `if billing_code: result[...] = billing_code`. */
  function BillingFound(t: string): (r: Option<Val>)
    ensures r.Some? <==> Billing.BillingCode(t).Some?
    ensures r.Some? ==> r.value == Str(Billing.BillingCode(t).value) && Billing.Acceptable(r.value.s)
  {
    match Billing.BillingCode(t)
    case None => None
    case Some(b) => if b != [] then Some(Str(b)) else None
  }

  function AccountFound(t: string): Option<Val> {
    Raw([Capture(t, AccountNumberField), Capture(t, AccountField)])
  }

  /** What the labelled fallback finds, field by field. */
  datatype Core = Core(company: Option<Val>, worker: Option<Val>, passport: Option<Val>,
                       nationality: Option<Val>, position: Option<Val>, amount: Option<Val>)

  /** What the cascades for the fields looked for only while empty find. */
  datatype Contact = Contact(address: Option<Val>, phone: Option<Val>, email: Option<Val>, birth: Option<Val>)

  /** What the cascades run on every text find. */
  datatype Posting = Posting(office: Option<Val>, location: Option<Val>, duration: Option<Val>,
                             issue: Option<Val>, billing: Option<Val>, account: Option<Val>)

  function CoreFound(t: string, cap: Captures): Core {
    Core(CompanyFound(t, cap), WorkerFound(t, cap), PassportFound(t), NationalityFound(t, cap),
         PositionFound(t, cap), AmountFound(t, cap))
  }

  function ContactFound(t: string, cap: Captures): Contact {
    Contact(AddressFound(t, cap), PhoneFound(t), EmailFound(t), BirthFound(t, cap))
  }

  function PostingFound(t: string, cap: Captures): Posting {
    Posting(OfficeFound(t, cap), LocationFound(t, cap), DurationFound(t, cap), IssueFound(t), BillingFound(t),
            AccountFound(t))
  }

  // ---------------------------------------------------------------- the dictionary

  /** `result[k] = v` for a cascade that found `v`; nothing when it found nothing. */
  function Assign(d: Record, k: string, f: Option<Val>): Record {
    match f
    case None => d
    case Some(v) => Set(d, k, v)
  }

  /** After `Assign`, its key holds the value found or what it held before, and every other key is untouched. */
  lemma AssignLookup(d: Record, key: string, f: Option<Val>, k: string)
    ensures Lookup(Assign(d, key, f), k) == if k == key then Prefer(f, Lookup(d, k)) else Lookup(d, k)
  {
  }

  /** `if not result.get(k): <cascade>`. */
  function Guarded(d: Record, k: string, f: Option<Val>): (r: Record)
    ensures Truthy(Get(d, k)) ==> r == d
    ensures !Truthy(Get(d, k)) ==> r == Assign(d, k, f)
  {
    if Truthy(Get(d, k)) then d else Assign(d, k, f)
  }

  /** The labelled fallback (extractors.py:478-554). */
  function Fallback(d: Record, c: Core): Record {
    var d1 := Assign(d, Table.Employer, c.company);
    var d2 := Assign(d1, Table.Worker, c.worker);
    var d3 := Assign(d2, Table.Passport, c.passport);
    var d4 := Assign(d3, Table.Nationality, c.nationality);
    var d5 := Assign(d4, Table.Position, c.position);
    Assign(d5, Table.Amount, c.amount)
  }

  /** The fields looked for while still empty (extractors.py:558-612). */
  function Contacts(d: Record, c: Contact): Record {
    var d1 := Guarded(d, AddressKey, c.address);
    var d2 := Guarded(d1, PhoneKey, c.phone);
    var d3 := Guarded(d2, EmailKey, c.email);
    Guarded(d3, BirthKey, c.birth)
  }

  /** The fields looked for on every text, and the document type (extractors.py:614-683). */
  function Postings(d: Record, p: Posting): Record {
    var d1 := Assign(d, OfficeKey, p.office);
    var d2 := Assign(d1, LocationKey, p.location);
    var d3 := Assign(d2, DurationKey, p.duration);
    var d4 := Assign(d3, IssueKey, p.issue);
    var d5 := Assign(d4, BillingKey, p.billing);
    var d6 := Assign(d5, AccountKey, p.account);
    Set(d6, DocTypeKey, Str("DKPTKA"))
  }

  /** `any(result.values())`. */
  predicate AnyTruthy(d: Record) {
    exists i :: 0 <= i < |d| && Truthy(d[i].val)
  }

  /** The table dictionary, or the labelled fallback applied to it when nothing in it is truthy. */
  function Base(table: Record, c: Core): Record {
    if AnyTruthy(table) then table else Fallback(table, c)
  }

  /** The dictionary before the final filter, given the table dictionary and what the cascades find. */
  function Gather(table: Record, c: Core, k: Contact, p: Posting): Record {
    Postings(Contacts(Base(table, c), k), p)
  }

  /**
   * A guarded cascade changes only its own key, and that one only when the
   * key held no truthy value; it adds no key but its own and duplicates none.
   */
  lemma GuardedLookup(d: Record, key: string, f: Option<Val>, k: string)
    ensures Lookup(Guarded(d, key, f), k) ==
              if k == key && !Truthy(Get(d, key)) then Prefer(f, Lookup(d, k)) else Lookup(d, k)
    ensures forall x :: x in Keys(Guarded(d, key, f)) ==> x in Keys(d) || x == key
    ensures DistinctKeys(d) ==> DistinctKeys(Guarded(d, key, f))
  {
    AssignLookup(d, key, f, k);
    AssignKeys(d, key, f);
  }

  /** `value if value and str(value).strip() else None`. */
  function Keep(v: Val): (r: Val)
    ensures r == Null || (r == v && v.Str? && !AllSpace(v.s))
    ensures v.Str? && !AllSpace(v.s) ==> r == v
  {
    StripEmpty(if v.Str? then v.s else "");
    if Truthy(v) && Strip(v.s) != [] then v else Null
  }

  /** The filter loop of extractors.py:686-691: every key kept in order, each value through `Keep`. */
  function Filtered(d: Record): Record
    decreases |d|
  {
    if d == [] then [] else Set(Filtered(d[..|d| - 1]), d[|d| - 1].key, Keep(d[|d| - 1].val))
  }

  /** `extract_dkptka_info(full_text)`. */
  function DkptkaInfo(t: string, cap: Captures): Record {
    Filtered(Gather(Table.TableRecord(t), CoreFound(t, cap), ContactFound(t, cap), PostingFound(t, cap)))
  }

  // ---------------------------------------------------------------- the code

  /** A `safe_extract` cascade followed by `clean_extracted_text`. */
  method CleanedOf(caps: seq<Option<string>>) returns (f: Option<Val>)
    ensures f == Cleaned(caps)
  {
    var v := Cascade(caps);
    f := if v.Some? then Some(Clean(v.value)) else None;
  }

  /** A `safe_extract` cascade whose value is stored as it is. */
  method RawOf(caps: seq<Option<string>>) returns (f: Option<Val>)
    ensures f == Raw(caps)
  {
    var v := Cascade(caps);
    f := if v.Some? then Some(Str(v.value)) else None;
  }

  /** A DOTALL cascade whose group is squashed. */
  method SquashedOf(caps: seq<Option<string>>) returns (f: Option<Val>)
    ensures f == Squashed(caps)
  {
    var g := FirstMatching(caps);
    f := if g.Some? then Some(Str(Squash(g.value))) else None;
  }

  /** `if value: result[k] = value`. */
  method Store(d: Record, k: string, f: Option<Val>) returns (r: Record)
    ensures r == Assign(d, k, f)
  {
    r := d;
    if f.Some? {
      r := Set(d, k, f.value);
    }
  }

  /** The labelled fallback: five `safe_extract` cascades and the amount's DOTALL cascade. */
  method LabelledPass(d: Record, text: string, cap: Captures) returns (r: Record)
    ensures r == Fallback(d, CoreFound(text, cap))
  {
    var company := CleanedOf([Capture(text, CompanyField), cap.companyBeforeAddress(text), cap.companyNumbered(text)]);
    r := Store(d, Table.Employer, company);
    var worker := CleanedOf([cap.workerBeforeNext(text), Capture(text, WorkerField)]);
    r := Store(r, Table.Worker, worker);
    var passport := RawOf([Capture(text, PassportNumberField), Capture(text, PassportField)]);
    r := Store(r, Table.Passport, passport);
    var nationality := CleanedOf([cap.nationalityBeforeNext(text), Capture(text, NationalityField)]);
    r := Store(r, Table.Nationality, nationality);
    var position := CleanedOf([cap.positionBeforeNext(text), Capture(text, PositionField)]);
    r := Store(r, Table.Position, position);
    var amount := SquashedOf([cap.amountPaid(text), cap.amountUsd(text)]);
    r := Store(r, Table.Amount, amount);
  }

  /** The address cascade: the first group that matched, squashed without the final strip, then cleaned. */
  method FindAddress(text: string, cap: Captures) returns (f: Option<Val>)
    ensures f == AddressFound(text, cap)
  {
    var g := FirstMatching([cap.addressBeforePhone(text), cap.addressLoose(text)]);
    f := if g.Some? then Some(Clean(CollapseWs(SubNewlineWs(Strip(g.value))))) else None;
  }

  /** The phone cascade and its `re.sub(r'[^\d\-\+$]', '', phone)`. */
  method FindPhone(text: string) returns (f: Option<Val>)
    ensures f == PhoneFound(text)
  {
    var v := Cascade([Capture(text, PhoneNumberField), Capture(text, PhoneField)]);
    f := if v.Some? then Some(Str(Filter(v.value, PhoneKept))) else None;
  }

  /** The cascades for the fields looked for only while still empty. */
  method ContactPass(d: Record, text: string, cap: Captures) returns (r: Record)
    ensures r == Contacts(d, ContactFound(text, cap))
  {
    ghost var k := ContactFound(text, cap);
    r := d;
    if !Truthy(Get(r, AddressKey)) {
      var address := FindAddress(text, cap);
      r := Store(r, AddressKey, address);
    }
    ghost var d1 := r;
    assert d1 == Guarded(d, AddressKey, k.address);
    if !Truthy(Get(r, PhoneKey)) {
      var phone := FindPhone(text);
      r := Store(r, PhoneKey, phone);
    }
    ghost var d2 := r;
    assert d2 == Guarded(d1, PhoneKey, k.phone);
    if !Truthy(Get(r, EmailKey)) {
      var email := RawOf([Capture(text, EmailField), Capture(text, EMailField)]);
      r := Store(r, EmailKey, email);
    }
    assert r == Guarded(d2, EmailKey, k.email);
    if !Truthy(Get(r, BirthKey)) {
      var birth := CleanedOf([Capture(text, BirthField), cap.birthLoose(text)]);
      r := Store(r, BirthKey, birth);
    }
  }

  /** The billing search, stored when it found a code. */
  method FindBilling(text: string) returns (f: Option<Val>)
    ensures f == BillingFound(text)
  {
    var code := Billing.ExtractBillingCode(text);
    f := if code.Some? && code.value != [] then Some(Str(code.value)) else None;
  }

  /** The cascades run on every text, and the document type. */
  method PostingPass(d: Record, text: string, cap: Captures) returns (r: Record)
    ensures r == Postings(d, PostingFound(text, cap))
  {
    var office := CleanedOf([cap.officeBeforeNext(text), cap.officeLoose(text)]);
    r := Store(d, OfficeKey, office);
    var location := CleanedOf([cap.locationBeforeNext(text), Capture(text, LocationField)]);
    r := Store(r, LocationKey, location);
    var duration := SquashedOf([cap.durationBeforeNext(text), Capture(text, DurationField)]);
    r := Store(r, DurationKey, duration);
    var issue := RawOf([Capture(text, IssueWordField), Capture(text, IssueNumericField)]);
    r := Store(r, IssueKey, issue);
    var billing := FindBilling(text);
    r := Store(r, BillingKey, billing);
    var account := RawOf([Capture(text, AccountNumberField), Capture(text, AccountField)]);
    r := Store(r, AccountKey, account);
    r := Set(r, DocTypeKey, Str("DKPTKA"));
  }

  /** The filter loop of extractors.py:686-691. */
  method FilterValues(d: Record) returns (r: Record)
    ensures r == Filtered(d)
  {
    r := [];
    var i := 0;
    while i < |d|
      invariant i <= |d|
      invariant r == Filtered(d[..i])
    {
      var v := if Truthy(d[i].val) && Strip(d[i].val.s) != [] then d[i].val else Null;
      FilteredStep(d, i);
      r := Set(r, d[i].key, v);
      i := i + 1;
    }
    assert d[..i] == d;
  }

  lemma FilteredStep(d: Record, i: nat)
    requires i < |d|
    ensures Filtered(d[..i + 1]) == Set(Filtered(d[..i]), d[i].key, Keep(d[i].val))
  {
    assert d[..i + 1][..i] == d[..i];
  }

  /** Everything before the final filter: the table pass, the fallback and the cascades. */
  method GatherFields(text: string, cap: Captures) returns (d: Record)
    ensures d == Gather(Table.TableRecord(text), CoreFound(text, cap), ContactFound(text, cap), PostingFound(text, cap))
  {
    var table := Table.ExtractFromTable(text);
    d := table;
    if !AnyTruthy(d) {
      d := LabelledPass(d, text, cap);
    }
    d := ContactPass(d, text, cap);
    d := PostingPass(d, text, cap);
  }

  /** `extract_dkptka_info(full_text)`. */
  method ExtractDkptkaInfo(text: string, cap: Captures) returns (result: Record)
    ensures result == DkptkaInfo(text, cap)
  {
    var d := GatherFields(text, cap);
    result := FilterValues(d);
  }

  // ---------------------------------------------------------------- properties

  /** What the final filter makes of a looked-up value. */
  function KeepOpt(o: Option<Val>): Option<Val> {
    match o
    case None => None
    case Some(v) => Some(Keep(v))
  }

  /** What a key holds after `Assign`: the value found, or what it held before. */
  function Prefer(f: Option<Val>, before: Option<Val>): Option<Val> {
    if f.Some? then f else before
  }

  /** The fallback's findings, in the order of `Table.CoreKeys`. */
  function CoreValues(c: Core): seq<Option<Val>> {
    [c.company, c.worker, c.passport, c.nationality, c.position, c.amount]
  }

  /** The contact findings, in the order of `ContactKeys`. */
  function ContactValues(k: Contact): seq<Option<Val>> {
    [k.address, k.phone, k.email, k.birth]
  }

  /** The posting findings and the document type, in the order of `PostingKeys`. */
  function PostingValues(p: Posting): seq<Option<Val>> {
    [p.office, p.location, p.duration, p.issue, p.billing, p.account, Some(Str("DKPTKA"))]
  }

  /** The three groups of field names are disjoint, and no name occurs twice within a group. */
  lemma KeyFacts()
    ensures Distinct(Table.CoreKeys) && Distinct(ContactKeys) && Distinct(PostingKeys)
    ensures forall k :: k in ContactKeys ==> k !in Table.CoreKeys
    ensures forall k :: k in PostingKeys ==> k !in Table.CoreKeys && k !in ContactKeys
  {
  }

  /** The fallback sets each of the six table fields it found and nothing else. */
  lemma FallbackLookup(d: Record, c: Core, k: string)
    ensures forall i :: 0 <= i < 6 && k == Table.CoreKeys[i] ==> Lookup(Fallback(d, c), k) == Prefer(CoreValues(c)[i], Lookup(d, k))
    ensures k !in Table.CoreKeys ==> Lookup(Fallback(d, c), k) == Lookup(d, k)
    ensures forall key :: key in Keys(Fallback(d, c)) ==> key in Keys(d) || key in Table.CoreKeys
    ensures DistinctKeys(d) ==> DistinctKeys(Fallback(d, c))
  {
    var fs := CoreValues(c);
    var ks := Table.CoreKeys;
    KeyFacts();
    var d1 := Assign(d, ks[0], fs[0]);
    var d2 := Assign(d1, ks[1], fs[1]);
    var d3 := Assign(d2, ks[2], fs[2]);
    var d4 := Assign(d3, ks[3], fs[3]);
    var d5 := Assign(d4, ks[4], fs[4]);
    var d6 := Assign(d5, ks[5], fs[5]);
    assert d6 == Fallback(d, c);
    AssignChain(d, ks, fs, [d, d1, d2, d3, d4, d5, d6], k);
    ChainKeys(d, ks, fs, [d, d1, d2, d3, d4, d5, d6]);
  }

  /**
   * The guards of the contact cascades never hold a cascade back when the
   * dictionary so far only has table fields: all four cascades assign.
   */
  lemma ContactsOpen(d: Record, kk: Contact)
    requires forall key :: key in Keys(d) ==> key in Table.CoreKeys
    ensures Contacts(d, kk) ==
            Assign(Assign(Assign(Assign(d, AddressKey, kk.address), PhoneKey, kk.phone), EmailKey, kk.email),
                   BirthKey, kk.birth)
  {
    KeyFacts();
    var d1 := Assign(d, AddressKey, kk.address);
    var d2 := Assign(d1, PhoneKey, kk.phone);
    var d3 := Assign(d2, EmailKey, kk.email);
    GuardOpen(d, AddressKey, kk.address);
    AssignLookup(d, AddressKey, kk.address, PhoneKey);
    GuardOpen(d1, PhoneKey, kk.phone);
    AssignLookup(d, AddressKey, kk.address, EmailKey);
    AssignLookup(d1, PhoneKey, kk.phone, EmailKey);
    GuardOpen(d2, EmailKey, kk.email);
    AssignLookup(d, AddressKey, kk.address, BirthKey);
    AssignLookup(d1, PhoneKey, kk.phone, BirthKey);
    AssignLookup(d2, EmailKey, kk.email, BirthKey);
    GuardOpen(d3, BirthKey, kk.birth);
  }

  /** A guard on a key the dictionary does not have lets its cascade assign. */
  lemma GuardOpen(d: Record, key: string, f: Option<Val>)
    requires Lookup(d, key) == None
    ensures Guarded(d, key, f) == Assign(d, key, f)
  {
  }

  /** The contact cascades set their own four fields to what they found, and nothing else. */
  lemma ContactsLookup(d: Record, kk: Contact, k: string)
    requires forall key :: key in Keys(d) ==> key in Table.CoreKeys
    ensures forall i :: 0 <= i < 4 && k == ContactKeys[i] ==> Lookup(Contacts(d, kk), k) == ContactValues(kk)[i]
    ensures k !in ContactKeys ==> Lookup(Contacts(d, kk), k) == Lookup(d, k)
    ensures forall key :: key in Keys(Contacts(d, kk)) ==> key in Keys(d) || key in ContactKeys
    ensures DistinctKeys(d) ==> DistinctKeys(Contacts(d, kk))
  {
    var fs := ContactValues(kk);
    var ks := ContactKeys;
    KeyFacts();
    ContactsOpen(d, kk);
    var d1 := Assign(d, ks[0], fs[0]);
    var d2 := Assign(d1, ks[1], fs[1]);
    var d3 := Assign(d2, ks[2], fs[2]);
    var d4 := Assign(d3, ks[3], fs[3]);
    AssignChain(d, ks, fs, [d, d1, d2, d3, d4], k);
    ChainKeys(d, ks, fs, [d, d1, d2, d3, d4]);
    if k in ks {
      assert Lookup(d, k) == None;
    }
  }

  /** The posting cascades set their own fields and the document type, and nothing else. */
  lemma PostingsLookup(d: Record, p: Posting, k: string)
    ensures forall i :: 0 <= i < 7 && k == PostingKeys[i] ==> Lookup(Postings(d, p), k) == Prefer(PostingValues(p)[i], Lookup(d, k))
    ensures k !in PostingKeys ==> Lookup(Postings(d, p), k) == Lookup(d, k)
    ensures forall key :: key in Keys(Postings(d, p)) ==> key in Keys(d) || key in PostingKeys
    ensures DistinctKeys(d) ==> DistinctKeys(Postings(d, p))
  {
    var fs := PostingValues(p);
    var ks := PostingKeys;
    KeyFacts();
    var d1 := Assign(d, ks[0], fs[0]);
    var d2 := Assign(d1, ks[1], fs[1]);
    var d3 := Assign(d2, ks[2], fs[2]);
    var d4 := Assign(d3, ks[3], fs[3]);
    var d5 := Assign(d4, ks[4], fs[4]);
    var d6 := Assign(d5, ks[5], fs[5]);
    var d7 := Assign(d6, ks[6], fs[6]);
    assert d7 == Postings(d, p);
    AssignChain(d, ks, fs, [d, d1, d2, d3, d4, d5, d6, d7], k);
    ChainKeys(d, ks, fs, [d, d1, d2, d3, d4, d5, d6, d7]);
  }

  /** A chain of assignments to distinct keys: each key ends up with its value or keeps its old one. */
  lemma {:induction false} AssignChain(d: Record, ks: seq<string>, fs: seq<Option<Val>>, ds: seq<Record>, k: string)
    requires |ks| == |fs| && |ds| == |ks| + 1 && ds[0] == d && Distinct(ks)
    requires forall n :: 0 <= n < |ks| ==> ds[n + 1] == Assign(ds[n], ks[n], fs[n])
    ensures forall i :: 0 <= i < |ks| && k == ks[i] ==> Lookup(ds[|ks|], k) == Prefer(fs[i], Lookup(d, k))
    ensures k !in ks ==> Lookup(ds[|ks|], k) == Lookup(d, k)
    decreases |ks|
  {
    if ks != [] {
      var n := |ks| - 1;
      var ks', fs', ds' := ks[..n], fs[..n], ds[..n + 1];
      ChainTrim(d, ks, fs, ds);
      AssignChain(d, ks', fs', ds', k);
      AssignLookup(ds[n], ks[n], fs[n], k);
      ChainStep(ks', fs', ks[n], fs[n], k, Lookup(d, k), Lookup(ds[n], k), Lookup(ds[n + 1], k));
    }
  }

  /** A chain of assignments without its last step is again a chain, which the last key does not meet. */
  lemma ChainTrim(d: Record, ks: seq<string>, fs: seq<Option<Val>>, ds: seq<Record>)
    requires |ks| == |fs| && |ds| == |ks| + 1 && ds[0] == d && Distinct(ks) && ks != []
    requires forall n :: 0 <= n < |ks| ==> ds[n + 1] == Assign(ds[n], ks[n], fs[n])
    ensures var n := |ks| - 1;
            Distinct(ks[..n]) && ds[..n + 1][0] == d && ds[..n + 1][n] == ds[n] && ks[n] !in ks[..n]
            && ks == ks[..n] + [ks[n]] && fs == fs[..n] + [fs[n]]
            && forall m :: 0 <= m < n ==> ds[..n + 1][m + 1] == Assign(ds[..n + 1][m], ks[..n][m], fs[..n][m])
  {
    var n := |ks| - 1;
    var ks', fs', ds' := ks[..n], fs[..n], ds[..n + 1];
    assert Distinct(ks') by {
      forall a, b | 0 <= a < b < n ensures ks'[a] != ks'[b] {
        assert ks'[a] == ks[a] && ks'[b] == ks[b];
      }
    }
    forall m | 0 <= m < n ensures ds'[m + 1] == Assign(ds'[m], ks'[m], fs'[m]) {
      assert ds'[m + 1] == ds[m + 1] && ds'[m] == ds[m] && ks'[m] == ks[m] && fs'[m] == fs[m];
    }
    assert ks[n] !in ks' by {
      forall j | 0 <= j < n ensures ks'[j] != ks[n] {
        assert ks'[j] == ks[j];
      }
    }
    assert ks == ks' + [ks[n]] && fs == fs' + [fs[n]];
  }

  /** One more assignment in the chain, on the values looked up before and after it. */
  lemma ChainStep(ks: seq<string>, fs: seq<Option<Val>>, key: string, f: Option<Val>, k: string,
                  first: Option<Val>, before: Option<Val>, after: Option<Val>)
    requires |ks| == |fs| && key !in ks
    requires forall i :: 0 <= i < |ks| && k == ks[i] ==> before == Prefer(fs[i], first)
    requires k !in ks ==> before == first
    requires after == if k == key then Prefer(f, before) else before
    ensures forall i :: 0 <= i < |ks| + 1 && k == (ks + [key])[i] ==> after == Prefer((fs + [f])[i], first)
    ensures k !in ks + [key] ==> after == first
  {
    forall i | 0 <= i < |ks| + 1 && k == (ks + [key])[i] ensures after == Prefer((fs + [f])[i], first) {
      if i < |ks| {
        assert (ks + [key])[i] == ks[i] && (fs + [f])[i] == fs[i];
      }
    }
  }

  /** A chain of assignments only adds its own keys, and never duplicates one. */
  lemma {:induction false} ChainKeys(d: Record, ks: seq<string>, fs: seq<Option<Val>>, ds: seq<Record>)
    requires |ks| == |fs| && |ds| == |ks| + 1 && ds[0] == d
    requires forall n :: 0 <= n < |ks| ==> ds[n + 1] == Assign(ds[n], ks[n], fs[n])
    ensures forall key :: key in Keys(ds[|ks|]) ==> key in Keys(d) || key in ks
    ensures DistinctKeys(d) ==> DistinctKeys(ds[|ks|])
    decreases |ks|
  {
    if ks != [] {
      var n := |ks| - 1;
      ChainKeys(d, ks[..n], fs[..n], ds[..n + 1]);
      assert ds[..n + 1][n] == ds[n];
      assert forall key :: key in ks[..n] ==> key in ks;
      AssignKeys(ds[n], ks[n], fs[n]);
    }
  }

  /** `Assign` adds at most its own key, and never a second copy of it. */
  lemma AssignKeys(d: Record, key: string, f: Option<Val>)
    ensures forall k :: k in Keys(Assign(d, key, f)) ==> k in Keys(d) || k == key
    ensures DistinctKeys(d) ==> DistinctKeys(Assign(d, key, f))
  {
    if f.Some? {
      SetKeys(d, key, f.value);
      if DistinctKeys(d) {
        SetDistinct(d, key, f.value);
      }
    }
  }

  /** The final filter keeps every key where it stands and passes each value through `Keep`. */
  lemma {:induction false} FilteredLookup(d: Record, k: string)
    requires DistinctKeys(d)
    ensures Lookup(Filtered(d), k) == KeepOpt(Lookup(d, k))
    ensures Keys(Filtered(d)) == Keys(d)
    decreases |d|
  {
    if d != [] {
      var n := |d| - 1;
      var p := d[..n];
      var e := d[n];
      assert d == p + [e];
      KeysSnoc(p, e);
      assert Keys(p) == Keys(d)[..n];
      assert DistinctKeys(p) by {
        forall a, b | 0 <= a < b < n ensures Keys(p)[a] != Keys(p)[b] {
          assert Keys(p)[a] == Keys(d)[a] && Keys(p)[b] == Keys(d)[b];
        }
      }
      assert e.key !in Keys(p) by {
        forall a | 0 <= a < n ensures Keys(p)[a] != e.key {
          assert Keys(d)[n] == e.key;
        }
      }
      FilteredLookup(p, k);
      LookupSnoc(p, e, k);
      SetKeys(Filtered(p), e.key, Keep(e.val));
    }
  }

  /** What the dictionary holds before the final filter, key by key. */
  lemma GatherLookup(table: Record, c: Core, kk: Contact, p: Posting, k: string)
    requires DistinctKeys(table) && forall key :: key in Keys(table) ==> key in Table.CoreKeys
    ensures DistinctKeys(Gather(table, c, kk, p))
    ensures forall key :: key in Keys(Gather(table, c, kk, p)) ==> key in DkptkaKeys
    ensures k in Table.CoreKeys ==> Lookup(Gather(table, c, kk, p), k) == Lookup(Base(table, c), k)
    ensures forall i :: 0 <= i < 4 && k == ContactKeys[i] ==> Lookup(Gather(table, c, kk, p), k) == ContactValues(kk)[i]
    ensures forall i :: 0 <= i < 7 && k == PostingKeys[i] ==> Lookup(Gather(table, c, kk, p), k) == PostingValues(p)[i]
    ensures k !in DkptkaKeys ==> Lookup(Gather(table, c, kk, p), k) == None
  {
    KeyFacts();
    var b := Base(table, c);
    FallbackLookup(table, c, k);
    var q := Contacts(b, kk);
    ContactsLookup(b, kk, k);
    PostingsLookup(q, p, k);
    if k in PostingKeys {
      assert Lookup(q, k) == None;
    }
  }

  /** What the table pass can produce: distinct keys, all of them table fields. */
  predicate TableShaped(table: Record) {
    DistinctKeys(table) && forall key :: key in Keys(table) ==> key in Table.CoreKeys
  }

  lemma TableRecordShaped(t: string)
    ensures TableShaped(Table.TableRecord(t))
  {
    Table.TableProvenance(t, Table.Employer);
  }

  /**
   * The six table fields: taken from the table when anything in it is
   * truthy, otherwise from the labelled fallback where it found something;
   * in both cases through the final filter.
   */
  lemma ResultTableFields(table: Record, c: Core, kk: Contact, p: Posting, i: nat)
    requires TableShaped(table) && i < 6
    ensures Lookup(Filtered(Gather(table, c, kk, p)), Table.CoreKeys[i]) ==
            KeepOpt(if AnyTruthy(table) then Lookup(table, Table.CoreKeys[i])
                    else Prefer(CoreValues(c)[i], Lookup(table, Table.CoreKeys[i])))
  {
    var k := Table.CoreKeys[i];
    GatherLookup(table, c, kk, p, k);
    FilteredLookup(Gather(table, c, kk, p), k);
    FallbackLookup(table, c, k);
  }

  /**
   * The address, phone, e-mail and birth fields hold what their cascades
   * found: the `if not result.get(...)` guards never hold them back, since
   * neither the table nor the fallback sets these fields.
   */
  lemma ResultContactFields(table: Record, c: Core, kk: Contact, p: Posting, i: nat)
    requires TableShaped(table) && i < 4
    ensures Lookup(Filtered(Gather(table, c, kk, p)), ContactKeys[i]) == KeepOpt(ContactValues(kk)[i])
  {
    GatherLookup(table, c, kk, p, ContactKeys[i]);
    FilteredLookup(Gather(table, c, kk, p), ContactKeys[i]);
  }

  /** The posting fields hold what their cascades found, and the document type is set. */
  lemma ResultPostingFields(table: Record, c: Core, kk: Contact, p: Posting, i: nat)
    requires TableShaped(table) && i < 7
    ensures Lookup(Filtered(Gather(table, c, kk, p)), PostingKeys[i]) == KeepOpt(PostingValues(p)[i])
  {
    GatherLookup(table, c, kk, p, PostingKeys[i]);
    FilteredLookup(Gather(table, c, kk, p), PostingKeys[i]);
  }

  /**
   * The result's keys are distinct and among the seventeen fields, and no
   * value is an empty or whitespace-only string.
   */
  lemma ResultShape(table: Record, c: Core, kk: Contact, p: Posting, k: string)
    requires TableShaped(table)
    ensures DistinctKeys(Filtered(Gather(table, c, kk, p)))
    ensures forall key :: key in Keys(Filtered(Gather(table, c, kk, p))) ==> key in DkptkaKeys
    ensures Lookup(Filtered(Gather(table, c, kk, p)), k).Some? ==>
              Lookup(Filtered(Gather(table, c, kk, p)), k).value == Null
              || !AllSpace(Lookup(Filtered(Gather(table, c, kk, p)), k).value.s)
  {
    GatherLookup(table, c, kk, p, k);
    FilteredLookup(Gather(table, c, kk, p), k);
  }

  /** The document type survives the final filter. */
  lemma ResultDocType(table: Record, c: Core, kk: Contact, p: Posting)
    requires TableShaped(table)
    ensures Lookup(Filtered(Gather(table, c, kk, p)), DocTypeKey) == Some(Str("DKPTKA"))
  {
    ResultPostingFields(table, c, kk, p, 6);
    KeepDocType();
  }

  lemma KeepDocType()
    ensures Keep(Str("DKPTKA")) == Str("DKPTKA")
  {
    var s := "DKPTKA";
    assert !IsSpace(s[0]);
  }

  /** The result always says it is a DKPTKA. */
  lemma InfoDocType(t: string, cap: Captures)
    ensures Lookup(DkptkaInfo(t, cap), DocTypeKey) == Some(Str("DKPTKA"))
  {
    TableRecordShaped(t);
    ResultDocType(Table.TableRecord(t), CoreFound(t, cap), ContactFound(t, cap), PostingFound(t, cap));
  }

  /** Every key of the result is one of the seventeen fields, and none occurs twice. */
  lemma InfoKeys(t: string, cap: Captures)
    ensures DistinctKeys(DkptkaInfo(t, cap))
    ensures forall key :: key in Keys(DkptkaInfo(t, cap)) ==> key in DkptkaKeys
  {
    TableRecordShaped(t);
    ResultShape(Table.TableRecord(t), CoreFound(t, cap), ContactFound(t, cap), PostingFound(t, cap), DocTypeKey);
  }

  /** The result has neither an "Error" nor a "filename" field, and says it is a DKPTKA. */
  lemma InfoFacts(t: string, cap: Captures)
    ensures "Error" !in Keys(DkptkaInfo(t, cap)) && "filename" !in Keys(DkptkaInfo(t, cap))
    ensures Lookup(DkptkaInfo(t, cap), DocTypeKey) == Some(Str("DKPTKA"))
  {
    InfoKeys(t, cap);
    InfoDocType(t, cap);
    NotFields();
    Outside(DkptkaInfo(t, cap), "Error");
    Outside(DkptkaInfo(t, cap), "filename");
  }

  lemma NotFields()
    ensures "Error" !in DkptkaKeys && "filename" !in DkptkaKeys
  {
  }

  lemma Outside(r: Record, k: string)
    requires forall key :: key in Keys(r) ==> key in DkptkaKeys
    requires k !in DkptkaKeys
    ensures k !in Keys(r)
  {
  }

  /**
   * A stored phone number is non-empty and holds only digits, '-', '+' and
   * '$': the group always has a character other than whitespace, and the
   * substitution keeps it.
   */
  lemma PhoneShape(t: string)
    ensures PhoneFound(t).Some? ==>
              PhoneFound(t).value.Str? && PhoneFound(t).value.s != []
              && forall c :: c in PhoneFound(t).value.s ==> PhoneKept(c)
  {
    CaptureRun(t, PhoneNumberField);
    CaptureRun(t, PhoneField);
    PhoneCascade([Capture(t, PhoneNumberField), Capture(t, PhoneField)]);
  }

  lemma PhoneCascade(caps: seq<Option<string>>)
    requires forall i :: 0 <= i < |caps| && caps[i].Some? ==> forall j :: 0 <= j < |caps[i].value| ==> PhoneClass(caps[i].value[j])
    ensures FirstSafe(caps).Some? ==> Filter(FirstSafe(caps).value, PhoneKept) != []
  {
    if FirstSafe(caps).Some? {
      var x := FirstSafe(caps).value;
      var i :| 0 <= i < |caps| && SafeExtract(caps[i]) == Some(x);
      assert caps[i].Some?;
      var g := caps[i].value;
      assert SafeExtract(Some(g)) == Some(x);
      PhoneKeptChar(g, x);
    }
  }

  lemma PhoneKeptChar(g: string, x: string)
    requires (forall j :: 0 <= j < |g| ==> PhoneClass(g[j])) && SafeExtract(Some(g)) == Some(x)
    ensures Filter(x, PhoneKept) != []
  {
    var j :| 0 <= j < |g| && !IsSpace(g[j]);
    SafeExtractKeeps(g);
    assert PhoneKept(g[j]);
    assert g[j] in Filter(x, PhoneKept);
  }

  /** A stored e-mail address contains '@'. */
  lemma EmailShape(t: string)
    ensures EmailFound(t).Some? ==> EmailFound(t).value.Str? && '@' in EmailFound(t).value.s
  {
    CaptureEmail(t, EmailField);
    CaptureEmail(t, EMailField);
    EmailCascade([Capture(t, EmailField), Capture(t, EMailField)]);
  }

  lemma EmailCascade(caps: seq<Option<string>>)
    requires forall i :: 0 <= i < |caps| && caps[i].Some? ==> '@' in caps[i].value
    ensures FirstSafe(caps).Some? ==> '@' in FirstSafe(caps).value
  {
    if FirstSafe(caps).Some? {
      var x := FirstSafe(caps).value;
      var i :| 0 <= i < |caps| && SafeExtract(caps[i]) == Some(x);
      assert caps[i].Some?;
      var g := caps[i].value;
      assert SafeExtract(Some(g)) == Some(x);
      EmailKept(g, x);
    }
  }

  lemma EmailKept(g: string, x: string)
    requires '@' in g && SafeExtract(Some(g)) == Some(x)
    ensures '@' in x
  {
    var j :| 0 <= j < |g| && g[j] == '@';
    assert !IsSpace(g[j]);
    SafeExtractKeeps(g);
    assert g[j] in x;
  }
}
