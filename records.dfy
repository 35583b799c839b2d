/**
 * The records the extractors return: Python dictionaries from field names to
 * values, kept in insertion order. A value is a string or `None`.
 */
module Records {
  import opened Wrappers

  /** A field value: `None` or a string. */
  datatype Val = Null | Str(s: string)

  /** Python truthiness of a field value: a non-empty string. */
  predicate Truthy(v: Val) {
    v.Str? && v.s != ""
  }

  /** `str(v)` / f-string rendering of a field value. */
  function Show(v: Val): (r: string)
    ensures v.Str? ==> r == v.s
    ensures v.Null? ==> r == "None"
  {
    match v
    case Null => "None"
    case Str(s) => s
  }

  /** `a or b`: the first operand when it is truthy, else the second. */
  function Or(a: Val, b: Val): (r: Val)
    ensures Truthy(a) ==> r == a
    ensures !Truthy(a) ==> r == b
  {
    if Truthy(a) then a else b
  }

  datatype Entry<V> = Entry(key: string, val: V)

  /** A dictionary in insertion order. */
  type Dict<V> = seq<Entry<V>>

  type Record = Dict<Val>

  /** The keys of a dictionary, in insertion order. */
  function Keys<V>(d: Dict<V>): (r: seq<string>)
    ensures |r| == |d|
    ensures forall i :: 0 <= i < |d| ==> r[i] == d[i].key
  {
    if d == [] then [] else [d[0].key] + Keys(d[1..])
  }

  /** A dictionary literal: the i-th key paired with the i-th value. */
  function FromLists<V>(ks: seq<string>, vs: seq<V>): (r: Dict<V>)
    requires |ks| == |vs|
    ensures Keys(r) == ks
    ensures forall i :: 0 <= i < |r| ==> r[i] == Entry(ks[i], vs[i])
  {
    if ks == [] then [] else [Entry(ks[0], vs[0])] + FromLists(ks[1..], vs[1..])
  }

  /** What an extractor call ends in: a record, or an exception with its message (`str(e)`). */
  datatype Outcome = Done(rec: Record) | Raised(msg: string)

  /** No string occurs twice. */
  predicate Distinct(ks: seq<string>) {
    forall i, j :: 0 <= i < j < |ks| ==> ks[i] != ks[j]
  }

  /** No key occurs twice, as in every Python dictionary. */
  predicate DistinctKeys<V>(d: Dict<V>) {
    Distinct(Keys(d))
  }

  /** `d[k]` when present. */
  function Lookup<V>(d: Dict<V>, k: string): (r: Option<V>)
    ensures r.None? <==> k !in Keys(d)
    ensures r.Some? ==> exists i :: 0 <= i < |d| && d[i] == Entry(k, r.value)
  {
    if d == [] then None
    else if d[0].key == k then Some(d[0].val)
    else Lookup(d[1..], k)
  }

  /** `d.get(k, default)`. */
  function GetOr<V>(d: Dict<V>, k: string, default: V): (r: V)
    ensures k !in Keys(d) ==> r == default
    ensures k in Keys(d) ==> Some(r) == Lookup(d, k)
  {
    Lookup(d, k).GetOr(default)
  }

  /** `d.get(k)`: `None` for a missing key. */
  function Get(d: Record, k: string): (r: Val)
    ensures k !in Keys(d) ==> r == Null
    ensures k in Keys(d) ==> Some(r) == Lookup(d, k)
  {
    GetOr(d, k, Null)
  }

  /**
   * `d[k] = v`: an existing key keeps its position and takes the new value,
   * a new key is appended.
   */
  function Set<V>(d: Dict<V>, k: string, v: V): (r: Dict<V>)
    ensures Lookup(r, k) == Some(v)
    ensures forall k' :: k' != k ==> Lookup(r, k') == Lookup(d, k')
  {
    if d == [] then [Entry(k, v)]
    else if d[0].key == k then [Entry(k, v)] + d[1..]
    else [d[0]] + Set(d[1..], k, v)
  }

  /** Assignment keeps the key order and appends only a new key. */
  lemma SetKeys<V>(d: Dict<V>, k: string, v: V)
    ensures Keys(Set(d, k, v)) == if k in Keys(d) then Keys(d) else Keys(d) + [k]
  {
    if k in Keys(d) {
      SetOld(d, k, v);
    } else {
      SetNew(d, k, v);
      KeysSnoc(d, Entry(k, v));
    }
  }

  /** Assigning a key the dictionary has keeps its keys as they are. */
  lemma {:induction false} SetOld<V>(d: Dict<V>, k: string, v: V)
    requires k in Keys(d)
    ensures Keys(Set(d, k, v)) == Keys(d)
  {
    assert d != [];
    var tail := Set(d[1..], k, v);
    if d[0].key == k {
      assert Set(d, k, v) == [Entry(k, v)] + d[1..];
      KeysCons(Entry(k, v), d[1..]);
    } else {
      assert Set(d, k, v) == [d[0]] + tail;
      assert d == [d[0]] + d[1..];
      KeysCons(d[0], d[1..]);
      SetOld(d[1..], k, v);
      KeysCons(d[0], tail);
    }
    assert d == [d[0]] + d[1..];
    KeysCons(d[0], d[1..]);
  }

  /** Assigning a key the dictionary lacks appends it. */
  lemma {:induction false} SetNew<V>(d: Dict<V>, k: string, v: V)
    requires k !in Keys(d)
    ensures Set(d, k, v) == d + [Entry(k, v)]
  {
    if d != [] {
      KeysCons(d[0], d[1..]);
      assert d == [d[0]] + d[1..];
      SetNew(d[1..], k, v);
      assert [d[0]] + (d[1..] + [Entry(k, v)]) == d + [Entry(k, v)];
    }
  }

  /** Looking a key up in a dictionary with one more entry at the end. */
  lemma {:induction false} LookupSnoc<V>(p: Dict<V>, e: Entry<V>, k: string)
    ensures k != e.key ==> Lookup(p + [e], k) == Lookup(p, k)
    ensures k == e.key && k !in Keys(p) ==> Lookup(p + [e], k) == Some(e.val)
  {
    if p != [] {
      assert (p + [e])[0] == p[0];
      assert (p + [e])[1..] == p[1..] + [e];
      assert Keys(p) == [p[0].key] + Keys(p[1..]);
      LookupSnoc(p[1..], e, k);
    }
  }

  /** The keys of a dictionary with one more entry at the end. */
  lemma KeysSnoc<V>(p: Dict<V>, e: Entry<V>)
    ensures Keys(p + [e]) == Keys(p) + [e.key]
  {
  }

  lemma KeysCons<V>(e: Entry<V>, d: Dict<V>)
    ensures Keys([e] + d) == [e.key] + Keys(d)
  {
    assert ([e] + d)[1..] == d;
  }

  /** Assignment never duplicates a key. */
  lemma SetDistinct<V>(d: Dict<V>, k: string, v: V)
    requires DistinctKeys(d)
    ensures DistinctKeys(Set(d, k, v))
  {
    SetKeys(d, k, v);
    if k !in Keys(d) {
      DistinctAppend(Keys(d), k);
    }
  }

  lemma DistinctAppend(ks: seq<string>, k: string)
    requires Distinct(ks) && k !in ks
    ensures Distinct(ks + [k])
  {
    assert forall i :: 0 <= i < |ks| ==> (ks + [k])[i] == ks[i] != k;
  }

  /** The value of the first entry with key `k`. */
  lemma {:induction false} LookupFirst<V>(d: Dict<V>, k: string, i: nat)
    requires i < |d| && d[i].key == k && forall j :: 0 <= j < i ==> d[j].key != k
    ensures Lookup(d, k) == Some(d[i].val)
  {
    if i > 0 {
      assert d[1..][i - 1] == d[i];
      LookupFirst(d[1..], k, i - 1);
    }
  }

  /** A dictionary literal built only from distinct keys looks each key up where it stands. */
  lemma LookupDistinct<V>(d: Dict<V>, i: nat)
    requires DistinctKeys(d) && i < |d|
    ensures Lookup(d, d[i].key) == Some(d[i].val)
  {
    if i > 0 {
      var ks := Keys(d);
      var rest := Keys(d[1..]);
      assert Distinct(rest) by {
        forall a, b | 0 <= a < b < |rest| ensures rest[a] != rest[b] {
          assert rest[a] == ks[a + 1] && rest[b] == ks[b + 1];
        }
      }
      assert ks[0] != ks[i];
      assert d[1..][i - 1] == d[i];
      LookupDistinct(d[1..], i - 1);
    }
  }
}
