/**
 * The month tables of the ITAS/ITK and Notifikasi extractors: English names
 * (extractors.py:195-199) and Indonesian names (extractors.py:350-354), both
 * mapped to the same two-digit numbers.
 */
module Months {
  import opened Wrappers
  import opened Text
  import opened Records

  const EnglishMonths := ["January", "February", "March", "April", "May", "June", "July", "August",
                          "September", "October", "November", "December"]

  /** The keys of the Indonesian table, which the extractor looks up lower-cased. */
  const IndonesianMonths := ["januari", "februari", "maret", "april", "mei", "juni", "juli", "agustus",
                             "september", "oktober", "november", "desember"]

  /** The values of both tables. */
  const MonthCodes := ["01", "02", "03", "04", "05", "06", "07", "08", "09", "10", "11", "12"]

  /**
   * `table.get(key, default)` for a table written as its keys and, in the same
   * order, its values: the value of the first matching key, else the default.
   */
  function Translate(key: string, keys: seq<string>, vals: seq<string>, default: string): (r: string)
    requires |keys| == |vals|
    ensures key !in keys ==> r == default
    ensures key in keys ==> r in vals
    decreases |keys|
  {
    if keys == [] then default
    else if keys[0] == key then vals[0]
    else
      var r := Translate(key, keys[1..], vals[1..], default);
      assert key in keys[1..] ==> r in vals[1..];
      r
  }

  /** Where the key first occurs, its value is the result. */
  lemma {:induction false} TranslateAt(key: string, keys: seq<string>, vals: seq<string>, default: string, i: nat)
    requires |keys| == |vals| && i < |keys| && keys[i] == key && forall j :: 0 <= j < i ==> keys[j] != key
    ensures Translate(key, keys, vals, default) == vals[i]
    decreases i
  {
    if i > 0 {
      assert keys[0] != key;
      TranslateAt(key, keys[1..], vals[1..], default, i - 1);
    }
  }

  /** A month table lookup: the number of a month name of the table, else the default. */
  function MonthGet(names: seq<string>, key: string, default: string): (r: string)
    requires |names| == 12
    ensures key !in names ==> r == default
    ensures key in names ==> r in MonthCodes
  {
    Translate(key, names, MonthCodes, default)
  }

  predicate Distinct12(names: seq<string>) {
    |names| == 12 && Distinct(names)
  }

  /** In a table whose names are distinct, the i-th name gets the i-th number. */
  lemma MonthGetAt(names: seq<string>, i: nat, default: string)
    requires Distinct12(names) && i < 12
    ensures MonthGet(names, names[i], default) == MonthCodes[i]
  {
    TranslateAt(names[i], names, MonthCodes, default, i);
  }

  /** Every number of the tables is two digits. */
  lemma CodeShape(code: string)
    requires code in MonthCodes
    ensures |code| == 2 && AllDigits(code)
  {
  }

  /** The Indonesian keys are written in lower case. */
  lemma IndonesianLowerCase()
    ensures forall a, k :: 0 <= a < 12 && 0 <= k < |IndonesianMonths[a]| ==> !IsUpper(IndonesianMonths[a][k])
  {
  }

  lemma NamesDistinct()
    ensures Distinct12(EnglishMonths) && Distinct12(IndonesianMonths)
  {
  }
}
