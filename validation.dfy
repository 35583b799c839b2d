/**
 * The DKPTKA validator (`validate_dkptka_data`, extractors.py:701-748): the
 * required fields that are missing, in their fixed order, a status that is
 * "incomplete" exactly when one is missing, and up to four format warnings,
 * in a fixed order, each for a value that is present but looks malformed.
 */
module Validation {
  import opened Wrappers
  import opened Text
  import opened Records
  import Billing

  /** The six fields a DKPTKA must have, in the order they are reported. */
  const RequiredFields := ["Nama Pemberi Kerja", "Nama TKA", "Nomor Paspor", "Kewarganegaraan", "Jabatan", "DKPTKA"]

  const EmailWarning := "Format email mungkin tidak valid"
  const PhoneWarning := "Format nomor telepon mungkin tidak valid"
  const BillingWarning := "Format kode billing pembayaran mungkin tidak valid (harus berupa angka minimal 10 digit)"
  const AmountWarning := "Format jumlah DKPTKA mungkin tidak valid"

  /** The four warnings in the order they are checked. */
  const AllWarnings := [EmailWarning, PhoneWarning, BillingWarning, AmountWarning]

  /** The validator's dictionary: `status`, `missing_fields` and `warnings`. */
  datatype Report = Report(status: string, missing: seq<string>, warnings: seq<string>)

  // ---------------------------------------------------------------- order

  /** `a` is `b` with some elements left out, the rest in their order. */
  predicate Sublist(a: seq<string>, b: seq<string>)
    decreases |b|
  {
    if a == [] then true
    else if b == [] then false
    else (a[|a| - 1] == b[|b| - 1] && Sublist(a[..|a| - 1], b[..|b| - 1])) || Sublist(a, b[..|b| - 1])
  }

  // ---------------------------------------------------------------- missing fields

  /** The fields, in order, whose value is absent, `None` or empty. */
  function Missing(d: Record, fields: seq<string>): seq<string>
    decreases |fields|
  {
    if fields == [] then []
    else
      var n := |fields| - 1;
      Missing(d, fields[..n]) + if !Truthy(Get(d, fields[n])) then [fields[n]] else []
  }

  /** A field is reported missing exactly when it is listed and its value is not truthy. */
  lemma {:induction false} MissingMembers(d: Record, fields: seq<string>)
    ensures forall k :: k in Missing(d, fields) <==> k in fields && !Truthy(Get(d, k))
    decreases |fields|
  {
    if fields != [] {
      var n := |fields| - 1;
      MissingMembers(d, fields[..n]);
      assert forall k :: k in fields <==> k in fields[..n] || k == fields[n];
    }
  }

  /** The missing fields keep the order of the list they come from. */
  lemma {:induction false} MissingOrdered(d: Record, fields: seq<string>)
    ensures Sublist(Missing(d, fields), fields)
    decreases |fields|
  {
    if fields != [] {
      var n := |fields| - 1;
      MissingOrdered(d, fields[..n]);
      var rest := Missing(d, fields[..n]);
      if !Truthy(Get(d, fields[n])) {
        SublistSnoc(rest, fields[..n], fields[n]);
        assert fields[..n] + [fields[n]] == fields;
      } else {
        assert Missing(d, fields) == rest;
        SublistGrow(rest, fields[..n], fields[n]);
        assert fields[..n] + [fields[n]] == fields;
      }
    }
  }

  /** A sublist stays one when the longer list grows at its end. */
  lemma {:induction false} SublistGrow(a: seq<string>, b: seq<string>, x: string)
    requires Sublist(a, b)
    ensures Sublist(a, b + [x])
  {
    if a != [] {
      assert (b + [x])[..|b|] == b;
    }
  }

  // ---------------------------------------------------------------- format checks

  /** `re.search(r'\d', s)`. */
  predicate HasDigit(s: string) {
    exists i :: 0 <= i < |s| && IsDigit(s[i])
  }

  /**
   * `re.match(r'^\d{10,}$', s)`: ten or more digits and nothing else, except
   * that `$` also matches before a final newline.
   */
  predicate LongDigits(s: string) {
    var body := if |s| > 0 && s[|s| - 1] == '\n' then s[..|s| - 1] else s;
    |body| >= 10 && AllDigits(body)
  }

  /** `re.search(r'US\$|USD|\$', s)`. */
  predicate HasCurrency(s: string) {
    Contains(s, "US$") || Contains(s, "USD") || '$' in s
  }

  /** The first alternative is redundant: it contains the third. */
  lemma CurrencyMarkers(s: string)
    ensures HasCurrency(s) <==> Contains(s, "USD") || '$' in s
  {
    if Contains(s, "US$") {
      var k :| 0 <= k <= |s| && At(s, k, "US$");
      assert s[k + 2] == s[k..k + 3][2] == '$';
    }
  }

  /** A present e-mail value without '@'. */
  predicate EmailSuspect(v: Val) {
    Truthy(v) && '@' !in Show(v)
  }

  /** A present phone value without a digit. */
  predicate PhoneSuspect(v: Val) {
    Truthy(v) && !HasDigit(Show(v))
  }

  /** A present billing code that is not ten or more digits. */
  predicate BillingSuspect(v: Val) {
    Truthy(v) && !LongDigits(Show(v))
  }

  /** A present amount without a currency marker. */
  predicate AmountSuspect(v: Val) {
    Truthy(v) && !HasCurrency(Show(v))
  }

  /** `if c: warnings.append(w)`. */
  function Warn(ws: seq<string>, c: bool, w: string): seq<string> {
    if c then ws + [w] else ws
  }

  /** The warnings for the suspect values, in the order they are checked. */
  function Warnings(d: Record): seq<string> {
    var w1 := Warn([], EmailSuspect(Get(d, "Email")), EmailWarning);
    var w2 := Warn(w1, PhoneSuspect(Get(d, "No Telepon")), PhoneWarning);
    var w3 := Warn(w2, BillingSuspect(Get(d, "Kode Billing Pembayaran")), BillingWarning);
    Warn(w3, AmountSuspect(Get(d, "DKPTKA")), AmountWarning)
  }

  /** `validate_dkptka_data(extracted_data)`. */
  function Validation(d: Record): Report {
    var m := Missing(d, RequiredFields);
    Report(if m == [] then "valid" else "incomplete", m, Warnings(d))
  }

  // ---------------------------------------------------------------- the code

  /** The loop over the required fields, appending each one that is not truthy. */
  method MissingOf(d: Record, fields: seq<string>) returns (missing: seq<string>)
    ensures missing == Missing(d, fields)
  {
    missing := [];
    var i := 0;
    while i < |fields|
      invariant 0 <= i <= |fields|
      invariant missing == Missing(d, fields[..i])
    {
      var field := fields[i];
      if !Truthy(Get(d, field)) {
        missing := missing + [field];
      }
      assert fields[..i + 1][..i] == fields[..i];
      i := i + 1;
    }
    assert fields[..i] == fields;
  }

  /** The four format checks, each appending its warning. */
  method CollectWarnings(d: Record) returns (warnings: seq<string>)
    ensures warnings == Warnings(d)
  {
    warnings := [];
    var email := Get(d, "Email");
    if Truthy(email) && '@' !in Show(email) {
      warnings := warnings + [EmailWarning];
    }
    assert warnings == Warn([], EmailSuspect(email), EmailWarning);
    ghost var w1 := warnings;
    var phone := Get(d, "No Telepon");
    if Truthy(phone) && !HasDigit(Show(phone)) {
      warnings := warnings + [PhoneWarning];
    }
    assert warnings == Warn(w1, PhoneSuspect(phone), PhoneWarning);
    ghost var w2 := warnings;
    var code := Get(d, "Kode Billing Pembayaran");
    if Truthy(code) {
      if !LongDigits(Show(code)) {
        warnings := warnings + [BillingWarning];
      }
    }
    assert warnings == Warn(w2, BillingSuspect(code), BillingWarning);
    var amount := Get(d, "DKPTKA");
    if Truthy(amount) && !HasCurrency(Show(amount)) {
      warnings := warnings + [AmountWarning];
    }
  }

  /** `validate_dkptka_data(extracted_data)`. */
  method Validate(d: Record) returns (r: Report)
    ensures r == Validation(d)
  {
    var missing := MissingOf(d, RequiredFields);
    var status := "valid";
    if missing != [] {
      status := "incomplete";
    }
    var warnings := CollectWarnings(d);
    r := Report(status, missing, warnings);
  }

  // ---------------------------------------------------------------- properties

  /**
   * The report lists, in their fixed order, exactly the required fields
   * that are absent, `None` or empty, and says "valid" exactly when every
   * required field is truthy.
   */
  lemma MissingFields(d: Record)
    ensures forall k :: k in Validation(d).missing <==> k in RequiredFields && !Truthy(Get(d, k))
    ensures Sublist(Validation(d).missing, RequiredFields)
    ensures Validation(d).status == "valid" <==> forall k :: k in RequiredFields ==> Truthy(Get(d, k))
    ensures Validation(d).status == "valid" || Validation(d).status == "incomplete"
  {
    MissingOrdered(d, RequiredFields);
    MissingMembers(d, RequiredFields);
    var m := Validation(d).missing;
    if m != [] {
      assert m[0] in m;
    }
  }

  /** Each warning is given exactly when its value is present and suspect, and they keep their order. */
  lemma WarningsFacts(d: Record)
    ensures EmailWarning in Warnings(d) <==> EmailSuspect(Get(d, "Email"))
    ensures PhoneWarning in Warnings(d) <==> PhoneSuspect(Get(d, "No Telepon"))
    ensures BillingWarning in Warnings(d) <==> BillingSuspect(Get(d, "Kode Billing Pembayaran"))
    ensures AmountWarning in Warnings(d) <==> AmountSuspect(Get(d, "DKPTKA"))
    ensures Sublist(Warnings(d), AllWarnings)
  {
    WarnMembers(EmailSuspect(Get(d, "Email")), PhoneSuspect(Get(d, "No Telepon")),
                BillingSuspect(Get(d, "Kode Billing Pembayaran")), AmountSuspect(Get(d, "DKPTKA")));
    WarnSublist(EmailSuspect(Get(d, "Email")), PhoneSuspect(Get(d, "No Telepon")),
                BillingSuspect(Get(d, "Kode Billing Pembayaran")), AmountSuspect(Get(d, "DKPTKA")));
  }

  /** Each warning is in the list exactly when its check failed. */
  lemma WarnMembers(x: bool, y: bool, z: bool, u: bool)
    ensures var w := Warn(Warn(Warn(Warn([], x, EmailWarning), y, PhoneWarning), z, BillingWarning), u, AmountWarning);
            (EmailWarning in w <==> x) && (PhoneWarning in w <==> y) && (BillingWarning in w <==> z)
            && (AmountWarning in w <==> u)
  {
    WarningsDistinct();
    var w1 := Warn([], x, EmailWarning);
    var w2 := Warn(w1, y, PhoneWarning);
    var w3 := Warn(w2, z, BillingWarning);
    var w4 := Warn(w3, u, AmountWarning);
    assert forall m :: m in w1 <==> x && m == EmailWarning;
    assert forall m :: m in w2 <==> m in w1 || (y && m == PhoneWarning);
    assert forall m :: m in w3 <==> m in w2 || (z && m == BillingWarning);
    assert forall m :: m in w4 <==> m in w3 || (u && m == AmountWarning);
  }

  /** The four warnings are different texts. */
  lemma WarningsDistinct()
    ensures EmailWarning != PhoneWarning && EmailWarning != BillingWarning && EmailWarning != AmountWarning
    ensures PhoneWarning != BillingWarning && PhoneWarning != AmountWarning && BillingWarning != AmountWarning
  {
    assert |EmailWarning| == 32 && |PhoneWarning| == 40 && |AmountWarning| == 40 && |BillingWarning| > 40;
    assert PhoneWarning[7] != AmountWarning[7];
  }

  /** Both lists growing by the same element keeps a sublist one. */
  lemma SublistSnoc(a: seq<string>, b: seq<string>, x: string)
    requires Sublist(a, b)
    ensures Sublist(a + [x], b + [x])
  {
    assert (a + [x])[..|a|] == a;
    assert (b + [x])[..|b|] == b;
  }

  /** The warnings, whichever are given, keep their fixed order. */
  lemma WarnSublist(x: bool, y: bool, z: bool, u: bool)
    ensures Sublist(Warn(Warn(Warn(Warn([], x, EmailWarning), y, PhoneWarning), z, BillingWarning), u, AmountWarning),
                    AllWarnings)
  {
    var w1 := Warn([], x, EmailWarning);
    var w2 := Warn(w1, y, PhoneWarning);
    var w3 := Warn(w2, z, BillingWarning);
    var l1 := [EmailWarning];
    var l2 := l1 + [PhoneWarning];
    var l3 := l2 + [BillingWarning];
    WarnStep([], [], x, EmailWarning);
    WarnStep(w1, l1, y, PhoneWarning);
    WarnStep(w2, l2, z, BillingWarning);
    WarnStep(w3, l3, u, AmountWarning);
    assert l3 + [AmountWarning] == AllWarnings;
  }

  lemma WarnStep(a: seq<string>, l: seq<string>, c: bool, w: string)
    requires Sublist(a, l)
    ensures Sublist(Warn(a, c, w), l + [w])
  {
    if c {
      SublistSnoc(a, l, w);
    } else {
      SublistGrow(a, l, w);
    }
  }

  /** A code the billing search accepts (twelve or more digits) never draws the billing warning. */
  lemma FoundCodeAccepted(code: string)
    requires Billing.Acceptable(code)
    ensures !BillingSuspect(Str(code))
  {
  }
}
