/**
 * What the extractors use but this model does not define.
 *
 * `Helpers` stands for the three functions the extractors import from
 * `helpers.py` (extractors.py:4), whose code is not part of this model: every
 * property proved here holds whatever they return.
 *
 * `Captures` stands for the regular expressions whose meaning rests on lazy
 * repetition, lookahead or DOTALL matching. Each field is the raw group 1 of
 * one `re.search` on the whole text, or `None` when the pattern does not
 * match; the code that consumes the group is modelled.
 */
module Collaborators {
  import opened Wrappers
  import opened Records

  datatype Helpers = Helpers(
    // `format_date(s)`
    formatDate: string -> Val,
    // `clean_text(s, is_name_or_pob=b)`
    cleanText: (string, bool) -> Val,
    // `split_birth_place_date(s)`: place and date
    splitBirthPlaceDate: string -> (Val, Val)
  )

  datatype Captures = Captures(
    // groups 1 and 2 of `Place / Date of Birth\s*.*:\s*([A-Za-z\s]+)\s*/\s*([\d-]+)` (extractors.py:152, 231)
    placeDateOfBirth: string -> Option<(string, string)>,
    // `([A-Z][A-Z\s]*PT\.?[A-Z\s]*)\s*(?=\n.*Alamat)` (extractors.py:483)
    companyBeforeAddress: string -> Option<string>,
    // `I\.\s*Pemberi\s+Kerja\s+TKA.*?:\s*\n\s*\d+\.\s*Nama\s+Pemberi\s+Kerja\s*:\s*([^\n]+)` (extractors.py:484)
    companyNumbered: string -> Option<string>,
    // `Nama\s+TKA\s*:\s*([A-Z\s]+?)(?=\n\s*\d+\.|\n\s*Tempat)` (extractors.py:495)
    workerBeforeNext: string -> Option<string>,
    // `Kewarganegaraan\s*:\s*([A-Z\s]+?)(?=\n\s*\d+\.|\n\s*Jabatan)` (extractors.py:519)
    nationalityBeforeNext: string -> Option<string>,
    // `Jabatan\s*:\s*([A-Z\s]+?)(?=\n\s*\d+\.|\n\s*Kanim)` (extractors.py:531)
    positionBeforeNext: string -> Option<string>,
    // `DKPTKA\s+yang\s+dibayarkan\s*:\s*(.*?)(?=...)`, DOTALL (extractors.py:543)
    amountPaid: string -> Option<string>,
    // `DKPTKA.*?:\s*(US\$[^\n]+)`, DOTALL (extractors.py:544)
    amountUsd: string -> Option<string>,
    // `Alamat\s*:\s*(.*?)(?=\n\s*\d+\.\s*Nomor\s+Telepon|\n\s*3\.|$)`, DOTALL (extractors.py:561)
    addressBeforePhone: string -> Option<string>,
    // `Alamat\s*:\s*(.*?)(?=Nomor\s+Telepon|Email|$)`, DOTALL (extractors.py:562)
    addressLoose: string -> Option<string>,
    // `Tempat.*?Lahir\s*:\s*([^\n]+)` (extractors.py:605)
    birthLoose: string -> Option<string>,
    // `Kanim\s+Perpanjangan\s+ITAS/ITAP\s*:\s*([A-Za-z\s]+?)(?=\n\s*\d+\.|\n\s*Lokasi)` (extractors.py:616)
    officeBeforeNext: string -> Option<string>,
    // `Kanim.*?:\s*([^\n]+)` (extractors.py:617)
    officeLoose: string -> Option<string>,
    // `Lokasi\s+Kerja\s*:\s*([A-Za-z$$$$\s]+?)(?=\n\s*\d+\.|\n\s*Jangka)` (extractors.py:628)
    locationBeforeNext: string -> Option<string>,
    // `Jangka\s+Waktu\s*:\s*(.*?)(?=\n\s*III\.|$)`, DOTALL (extractors.py:640)
    durationBeforeNext: string -> Option<string>
  )
}
