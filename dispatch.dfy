/**
 * `extract_document_data` (extractors.py:751-776): the document type is
 * upper-cased and looked up among the six extractors; a supported type runs
 * its extractor, and an exception it raises becomes an error record; an
 * unsupported type gives an error record at once. Both error records carry
 * the type as the caller wrote it.
 */
module Dispatch {
  import opened Wrappers
  import opened Text
  import opened Records
  import opened Collaborators
  import Sktt
  import Evln
  import Permit
  import Notifikasi
  import Dkptka

  /** The entries of the `extractors` table. */
  datatype Kind = SKTT | EVLN | ITAS | ITK | NOTIFIKASI | DKPTKA

  /** The table key of each extractor. */
  function KindName(k: Kind): string {
    match k
    case SKTT => "SKTT"
    case EVLN => "EVLN"
    case ITAS => "ITAS"
    case ITK => "ITK"
    case NOTIFIKASI => "NOTIFIKASI"
    case DKPTKA => "DKPTKA"
  }

  /** `document_type.upper() in extractors`, and the entry it selects. */
  function KindOf(tag: string): Option<Kind> {
    var u := Upper(tag);
    if u == "SKTT" then Some(SKTT)
    else if u == "EVLN" then Some(EVLN)
    else if u == "ITAS" then Some(ITAS)
    else if u == "ITK" then Some(ITK)
    else if u == "NOTIFIKASI" then Some(NOTIFIKASI)
    else if u == "DKPTKA" then Some(DKPTKA)
    else None
  }

  /**
   * The `extractors` dictionary: for each entry, what its extractor makes of
   * a text, a record or the message of the exception it raises.
   */
  datatype Extractors = Extractors(sktt: string -> Outcome, evln: string -> Outcome, itas: string -> Outcome,
                                   itk: string -> Outcome, notifikasi: string -> Outcome, dkptka: string -> Outcome)

  /** The extractor an entry of the dictionary holds. */
  function Select(t: Extractors, k: Kind): string -> Outcome {
    match k
    case SKTT => t.sktt
    case EVLN => t.evln
    case ITAS => t.itas
    case ITK => t.itk
    case NOTIFIKASI => t.notifikasi
    case DKPTKA => t.dkptka
  }

  /** The six extractors of extractors.py; only the EVLN extractor can raise. */
  function Builtin(h: Helpers, c: Captures): Extractors {
    Extractors(SkttEntry(h), EvlnEntry(h), ItasEntry(h, c), ItkEntry(h, c), NotifikasiEntry(h), DkptkaEntry(c))
  }

  function SkttEntry(h: Helpers): string -> Outcome {
    text => Done(Sktt.ExtractSktt(text, h))
  }

  function EvlnEntry(h: Helpers): string -> Outcome {
    text => Evln.ExtractEvln(text, h)
  }

  function ItasEntry(h: Helpers, c: Captures): string -> Outcome {
    text => Done(Permit.ExtractItas(text, h, c))
  }

  function ItkEntry(h: Helpers, c: Captures): string -> Outcome {
    text => Done(Permit.ExtractItk(text, h, c))
  }

  function NotifikasiEntry(h: Helpers): string -> Outcome {
    text => Done(Notifikasi.ExtractNotifikasi(text, h))
  }

  function DkptkaEntry(c: Captures): string -> Outcome {
    text => Done(Dkptka.DkptkaInfo(text, c))
  }

  /** `{"Error": msg, "Jenis Dokumen": document_type}`. */
  function ErrorRecord(msg: string, tag: string): (r: Record)
    ensures Keys(r) == ["Error", "Jenis Dokumen"]
    ensures Get(r, "Error") == Str(msg) && Get(r, "Jenis Dokumen") == Str(tag)
  {
    [Entry("Error", Str(msg)), Entry("Jenis Dokumen", Str(tag))]
  }

  /** `extract_document_data(text, document_type)` over the dictionary `t`. */
  function ExtractDocumentData(t: Extractors, text: string, tag: string): Record {
    match KindOf(tag)
    case None => ErrorRecord("Tipe dokumen " + tag + " tidak didukung", tag)
    case Some(k) =>
      match Select(t, k)(text)
      case Done(rec) => rec
      case Raised(m) => ErrorRecord("Gagal mengekstrak dokumen " + tag + ": " + m, tag)
  }

  // ---------------------------------------------------------------- properties

  /**
   * What every extractor's record is like: no "Error" and no "filename"
   * field, and the document type of its own entry, save that a Notifikasi
   * record has none. Only the EVLN extractor raises.
   */
  predicate Sound(k: Kind, o: Outcome) {
    (o.Raised? ==> k == EVLN)
    && (o.Done? ==> "Error" !in Keys(o.rec) && "filename" !in Keys(o.rec))
    && (o.Done? && k == NOTIFIKASI ==> "Jenis Dokumen" !in Keys(o.rec))
    && (o.Done? && k != NOTIFIKASI ==> Get(o.rec, "Jenis Dokumen") == Str(KindName(k)))
  }

  /** Every entry of `t` is sound on every text. */
  ghost predicate Conforming(t: Extractors) {
    ConformingFirst(t) && ConformingRest(t)
  }

  ghost predicate ConformingFirst(t: Extractors) {
    (forall text :: Sound(SKTT, t.sktt(text))) && (forall text :: Sound(EVLN, t.evln(text)))
    && (forall text :: Sound(ITAS, t.itas(text)))
  }

  ghost predicate ConformingRest(t: Extractors) {
    (forall text :: Sound(ITK, t.itk(text))) && (forall text :: Sound(NOTIFIKASI, t.notifikasi(text)))
    && (forall text :: Sound(DKPTKA, t.dkptka(text)))
  }

  lemma Conforms(t: Extractors, k: Kind, text: string)
    requires Conforming(t)
    ensures Sound(k, Select(t, k)(text))
  {
  }

  /** The extractors of extractors.py all conform. */
  lemma BuiltinConforms(h: Helpers, c: Captures)
    ensures Conforming(Builtin(h, c))
  {
    BuiltinFirst(h, c);
    BuiltinRest(h, c);
  }

  lemma BuiltinFirst(h: Helpers, c: Captures)
    ensures ConformingFirst(Builtin(h, c))
  {
    BuiltinSktt(h);
    BuiltinEvln(h);
    BuiltinItas(h, c);
  }

  lemma BuiltinRest(h: Helpers, c: Captures)
    ensures ConformingRest(Builtin(h, c))
  {
    BuiltinItk(h, c);
    BuiltinNotifikasi(h);
    BuiltinDkptka(c);
  }

  lemma BuiltinSktt(h: Helpers)
    ensures forall text :: Sound(SKTT, SkttEntry(h)(text))
  {
    forall text ensures Sound(SKTT, SkttEntry(h)(text)) {
      SkttSound(text, h);
    }
  }

  lemma BuiltinEvln(h: Helpers)
    ensures forall text :: Sound(EVLN, EvlnEntry(h)(text))
  {
    forall text ensures Sound(EVLN, EvlnEntry(h)(text)) {
      EvlnSound(text, h);
    }
  }

  lemma BuiltinItas(h: Helpers, c: Captures)
    ensures forall text :: Sound(ITAS, ItasEntry(h, c)(text))
  {
    forall text ensures Sound(ITAS, ItasEntry(h, c)(text)) {
      ItasStamp(Permit.ExtractItas(text, h, c));
    }
  }

  lemma BuiltinItk(h: Helpers, c: Captures)
    ensures forall text :: Sound(ITK, ItkEntry(h, c)(text))
  {
    forall text ensures Sound(ITK, ItkEntry(h, c)(text)) {
      ItkStamp(Permit.ExtractItk(text, h, c));
    }
  }

  lemma BuiltinNotifikasi(h: Helpers)
    ensures forall text :: Sound(NOTIFIKASI, NotifikasiEntry(h)(text))
  {
    forall text ensures Sound(NOTIFIKASI, NotifikasiEntry(h)(text)) {
      NotifikasiSound(text, h);
    }
  }

  lemma BuiltinDkptka(c: Captures)
    ensures forall text :: Sound(DKPTKA, DkptkaEntry(c)(text))
  {
    forall text ensures Sound(DKPTKA, DkptkaEntry(c)(text)) {
      DkptkaSound(text, c);
    }
  }

  lemma SkttSound(text: string, h: Helpers)
    ensures Sound(SKTT, Done(Sktt.ExtractSktt(text, h)))
  {
    SkttListed();
    ListedSound(SKTT, Sktt.ExtractSktt(text, h), Sktt.SkttKeys, 11);
  }

  lemma EvlnSound(text: string, h: Helpers)
    ensures Sound(EVLN, Evln.ExtractEvln(text, h))
  {
    var o := Evln.ExtractEvln(text, h);
    if o.Done? {
      EvlnListed();
      ListedSound(EVLN, o.rec, Evln.EvlnKeys, 6);
    }
  }

  lemma NotifikasiSound(text: string, h: Helpers)
    ensures Sound(NOTIFIKASI, Done(Notifikasi.ExtractNotifikasi(text, h)))
  {
    NotifikasiListed();
    UnlistedSound(Notifikasi.ExtractNotifikasi(text, h), Notifikasi.NotifikasiKeys);
  }

  lemma DkptkaSound(text: string, c: Captures)
    ensures Sound(DKPTKA, Done(Dkptka.DkptkaInfo(text, c)))
  {
    Dkptka.InfoFacts(text, c);
    DkptkaStamp(Dkptka.DkptkaInfo(text, c));
  }

  lemma SkttListed()
    ensures Jenis(Sktt.SkttKeys, 11)
  {
  }

  lemma EvlnListed()
    ensures Jenis(Evln.EvlnKeys, 6)
  {
  }

  lemma NotifikasiListed()
    ensures "Error" !in Notifikasi.NotifikasiKeys && "filename" !in Notifikasi.NotifikasiKeys
    ensures "Jenis Dokumen" !in Notifikasi.NotifikasiKeys
  {
  }

  /** The fixed key list has the document type at `i` and neither "Error" nor "filename". */
  predicate Jenis(keys: seq<string>, i: nat) {
    i < |keys| && keys[i] == "Jenis Dokumen" && (forall j :: 0 <= j < i ==> keys[j] != "Jenis Dokumen")
    && "Error" !in keys && "filename" !in keys
  }

  /** A record with fixed keys, the document type of `k` at position `i`. */
  lemma ListedSound(k: Kind, r: Record, keys: seq<string>, i: nat)
    requires Keys(r) == keys && Jenis(keys, i) && k != NOTIFIKASI && r[i].val == Str(KindName(k))
    ensures Sound(k, Done(r))
  {
    TagAt(r, i);
  }

  /*
   * Records without the two fields, with the document type of their entry,
   * one lemma per type, so that the name is compared as a literal.
   */

  lemma ItasStamp(r: Record)
    requires "Error" !in Keys(r) && "filename" !in Keys(r) && Get(r, "Jenis Dokumen") == Str("ITAS")
    ensures Sound(ITAS, Done(r))
  {
  }

  lemma ItkStamp(r: Record)
    requires "Error" !in Keys(r) && "filename" !in Keys(r) && Get(r, "Jenis Dokumen") == Str("ITK")
    ensures Sound(ITK, Done(r))
  {
  }

  lemma DkptkaStamp(r: Record)
    requires "Error" !in Keys(r) && "filename" !in Keys(r) && Lookup(r, "Jenis Dokumen") == Some(Str("DKPTKA"))
    ensures Sound(DKPTKA, Done(r))
  {
  }

  /** A Notifikasi record: fixed keys without a document type. */
  lemma UnlistedSound(r: Record, keys: seq<string>)
    requires Keys(r) == keys && "Error" !in keys && "filename" !in keys && "Jenis Dokumen" !in keys
    ensures Sound(NOTIFIKASI, Done(r))
  {
  }

  /** The document type stored at position `i`, the first key of that name. */
  lemma {:induction false} TagAt(r: Record, i: nat)
    requires i < |r| && r[i].key == "Jenis Dokumen" && forall j :: 0 <= j < i ==> r[j].key != "Jenis Dokumen"
    ensures Get(r, "Jenis Dokumen") == r[i].val
  {
    if i > 0 {
      assert r[1..][i - 1] == r[i];
      TagAt(r[1..], i - 1);
    }
  }

  /** The lookup selects an extractor exactly when the upper-cased type is its key. */
  lemma KindOfName(tag: string, k: Kind)
    ensures KindOf(tag) == Some(k) <==> Upper(tag) == KindName(k)
  {
  }

  /** Each key selects its own extractor, so the table is one-to-one. */
  lemma KindNameSelects(k: Kind)
    ensures KindOf(KindName(k)) == Some(k)
  {
    var n := KindName(k);
    assert forall i :: 0 <= i < |n| ==> IsUpper(n[i]);
    UpperFixed(n);
  }

  /**
   * An unsupported type gives exactly the two error fields, with the type as
   * written.
   */
  lemma UnsupportedRecord(t: Extractors, text: string, tag: string)
    requires KindOf(tag).None?
    ensures Keys(ExtractDocumentData(t, text, tag)) == ["Error", "Jenis Dokumen"]
    ensures Get(ExtractDocumentData(t, text, tag), "Error") == Str("Tipe dokumen " + tag + " tidak didukung")
    ensures Get(ExtractDocumentData(t, text, tag), "Jenis Dokumen") == Str(tag)
  {
  }

  /** Types that differ only in case give the same record when the extractor returns. */
  lemma CaseIgnored(t: Extractors, text: string, a: string, b: string)
    requires Upper(a) == Upper(b)
    requires KindOf(a).None? || Select(t, KindOf(a).value)(text).Done?
    ensures KindOf(a) == KindOf(b)
    ensures KindOf(a).Some? ==> ExtractDocumentData(t, text, a) == ExtractDocumentData(t, text, b)
  {
  }

  /**
   * The result has an "Error" field exactly when the type is unsupported or
   * the extractor raised; it never has a "filename" field.
   */
  lemma ErrorIffFailed(t: Extractors, text: string, tag: string)
    requires Conforming(t)
    ensures "Error" in Keys(ExtractDocumentData(t, text, tag)) <==>
              KindOf(tag).None? || Select(t, KindOf(tag).value)(text).Raised?
    ensures "filename" !in Keys(ExtractDocumentData(t, text, tag))
  {
    if KindOf(tag).Some? {
      Conforms(t, KindOf(tag).value, text);
    }
  }

  /**
   * A record the extractor returned names its entry's document type,
   * whatever the case of the type asked for; a Notifikasi record names none.
   * An error record repeats the type as written.
   */
  lemma RecordedType(t: Extractors, text: string, tag: string)
    requires Conforming(t) && KindOf(tag).Some?
    ensures Select(t, KindOf(tag).value)(text).Done? && KindOf(tag) != Some(NOTIFIKASI) ==>
              Get(ExtractDocumentData(t, text, tag), "Jenis Dokumen") == Str(KindName(KindOf(tag).value))
    ensures Select(t, KindOf(tag).value)(text).Done? && KindOf(tag) == Some(NOTIFIKASI) ==>
              "Jenis Dokumen" !in Keys(ExtractDocumentData(t, text, tag))
    ensures Select(t, KindOf(tag).value)(text).Raised? ==>
              Get(ExtractDocumentData(t, text, tag), "Jenis Dokumen") == Str(tag)
  {
    Conforms(t, KindOf(tag).value, text);
  }

  /** No key of the table is longer than ten characters. */
  lemma LongRefused(tag: string)
    requires |tag| > 10
    ensures KindOf(tag).None?
  {
  }

  /**
   * "Notifikasi" reaches the Notifikasi extractor, but "NOTIFICATION", the
   * type the upload page offers, is not a key of the table and is refused.
   */
  lemma NotificationRefused(t: Extractors, text: string, tag: string)
    requires tag == "NOTIFICATION"
    ensures ExtractDocumentData(t, text, tag) == ErrorRecord("Tipe dokumen " + tag + " tidak didukung", tag)
  {
    LongRefused(tag);
  }

  lemma NotifikasiSelected(tag: string)
    requires tag == "Notifikasi"
    ensures KindOf(tag) == Some(NOTIFIKASI)
  {
    assert Upper(tag) == "NOTIFIKASI" by {
      forall i | 0 <= i < |tag|
        ensures Upper(tag)[i] == "NOTIFIKASI"[i]
      {
        UpperAt(tag, i);
      }
    }
  }
}
