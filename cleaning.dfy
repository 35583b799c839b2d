/**
 * The two text cleaners local to `extract_dkptka_info`: `safe_extract`
 * (extractors.py:374-384), which strips a captured group and collapses its
 * whitespace, and `clean_extracted_text` (extractors.py:386-392), which also
 * turns runs of quotes and line breaks into spaces. Both give `None` for a
 * result that ends up empty.
 */
module Cleaning {
  import opened Wrappers
  import opened Text
  import opened Records

  // ---------------------------------------------------------------- clean_extracted_text

  /** The class `["'\n\r\t]`. */
  predicate IsQuoteOrBreak(c: char) {
    c == '"' || c == '\'' || c == '\n' || c == '\r' || c == '\t'
  }

  /** A character that survives cleaning: neither whitespace nor a quote. */
  predicate Meaningful(c: char) {
    !IsSpace(c) && !IsQuoteOrBreak(c)
  }

  /** The string without its leading run of quotes and line breaks. */
  function DropQuotes(s: string): (r: string)
    ensures |r| <= |s| && r == s[|s| - |r|..]
    ensures r == [] || !IsQuoteOrBreak(r[0])
    decreases |s|
  {
    if |s| > 0 && IsQuoteOrBreak(s[0]) then DropQuotes(s[1..]) else s
  }

  /** `re.sub(r'["\'\n\r\t]+', ' ', s)`: every maximal run of the class becomes one space. */
  function SubQuotes(s: string): (r: string)
    ensures forall c :: c in r ==> !IsQuoteOrBreak(c)
    ensures forall c :: c in r ==> c == ' ' || c in s
    decreases |s|
  {
    if s == [] then []
    else if IsQuoteOrBreak(s[0]) then
      var d := DropQuotes(s);
      assert forall c :: c in d ==> c in s;
      " " + SubQuotes(d)
    else [s[0]] + SubQuotes(s[1..])
  }

  /** The substitution keeps every character outside the class. */
  lemma {:induction false} SubQuotesKeeps(s: string, i: nat)
    requires i < |s| && !IsQuoteOrBreak(s[i])
    ensures s[i] in SubQuotes(s)
    decreases |s|
  {
    if i == 0 {
      assert SubQuotes(s)[0] == s[0];
    } else if IsQuoteOrBreak(s[0]) {
      var d := DropQuotes(s);
      var n := |s| - |d|;
      assert n <= i by {
        if n > i {
          QuotesPrefix(s, i);
        }
      }
      assert d[i - n] == s[i];
      SubQuotesKeeps(d, i - n);
    } else {
      assert s[1..][i - 1] == s[i];
      SubQuotesKeeps(s[1..], i - 1);
    }
  }

  /** Every character `DropQuotes` removes is in the class. */
  lemma {:induction false} QuotesPrefix(s: string, i: nat)
    requires i < |s| - |DropQuotes(s)|
    ensures IsQuoteOrBreak(s[i])
    decreases |s|
  {
    if i > 0 {
      assert s[1..][i - 1] == s[i];
      QuotesPrefix(s[1..], i - 1);
    }
  }

  /**
   * `clean_extracted_text(text)`: `None` for an empty text; otherwise the text
   * stripped, its whitespace runs collapsed, its quote and line-break runs
   * turned into spaces and stripped again, or `None` when nothing is left.
   */
  function Clean(s: string): (r: Val)
    ensures r.Str? ==> r.s != [] && Unpadded(r.s)
    ensures r.Str? ==> forall c :: c in r.s ==> !IsQuoteOrBreak(c) && (IsSpace(c) ==> c == ' ')
    ensures r.Str? ==> forall c :: c in r.s ==> c == ' ' || c in s
    ensures forall i :: 0 <= i < |s| && Meaningful(s[i]) ==> r.Str? && s[i] in r.s
  {
    if s == [] then Null
    else
      var collapsed := CollapseWs(Strip(s));
      var sub := SubQuotes(collapsed);
      var cleaned := Strip(sub);
      CleanKeeps(s, collapsed, sub, cleaned);
      if cleaned == [] then Null else Str(cleaned)
  }

  lemma CleanKeeps(s: string, collapsed: string, sub: string, cleaned: string)
    requires collapsed == CollapseWs(Strip(s)) && sub == SubQuotes(collapsed) && cleaned == Strip(sub)
    ensures forall c :: c in cleaned ==> !IsQuoteOrBreak(c) && (IsSpace(c) ==> c == ' ')
    ensures forall c :: c in cleaned ==> c == ' ' || c in s
    ensures forall i :: 0 <= i < |s| && Meaningful(s[i]) ==> s[i] in cleaned
  {
    var st := Strip(s);
    var a := StripSlice(s);
    assert forall c :: c in st ==> c in s;
    var b := StripSlice(sub);
    assert forall c :: c in cleaned ==> c in sub;
    forall i | 0 <= i < |s| && Meaningful(s[i])
      ensures s[i] in cleaned
    {
      StripKeeps(s, i);
      var j :| 0 <= j < |st| && st[j] == s[i];
      CollapseKeeps(st, j);
      var k :| 0 <= k < |collapsed| && collapsed[k] == s[i];
      SubQuotesKeeps(collapsed, k);
      var m :| 0 <= m < |sub| && sub[m] == s[i];
      StripKeeps(sub, m);
    }
  }

  // ---------------------------------------------------------------- safe_extract

  /**
   * `safe_extract` given the outcome of its `re.search`: the group stripped
   * with its whitespace runs collapsed, or `None` when the pattern did not
   * match or the group held only whitespace. With these patterns `group(1)`
   * always exists, so the `except` branch is never taken.
   */
  function SafeExtract(cap: Option<string>): (r: Option<string>)
    ensures cap.None? ==> r.None?
    ensures cap.Some? ==> (r.Some? <==> !AllSpace(cap.value))
    ensures r.Some? ==> r.value != [] && Unpadded(r.value)
  {
    match cap
    case None => None
    case Some(g) =>
      var st := Strip(g);
      var collapsed := CollapseWs(st);
      SafeKeeps(g, st, collapsed);
      if collapsed == [] then None else Some(collapsed)
  }

  /** An extraction keeps every non-space character of the group, and its only whitespace is single spaces. */
  lemma SafeExtractKeeps(g: string)
    requires SafeExtract(Some(g)).Some?
    ensures forall i :: 0 <= i < |SafeExtract(Some(g)).value| && IsSpace(SafeExtract(Some(g)).value[i])
                     ==> SafeExtract(Some(g)).value[i] == ' '
    ensures forall i :: 0 <= i < |g| && !IsSpace(g[i]) ==> g[i] in SafeExtract(Some(g)).value
    ensures SingleSpaced(SafeExtract(Some(g)).value)
  {
    SafeKeeps(g, Strip(g), CollapseWs(Strip(g)));
    CollapseSingle(Strip(g));
  }

  lemma SafeKeeps(g: string, st: string, collapsed: string)
    requires st == Strip(g) && collapsed == CollapseWs(st)
    ensures collapsed == [] <==> AllSpace(g)
    ensures Unpadded(collapsed)
    ensures forall i :: 0 <= i < |g| && !IsSpace(g[i]) ==> g[i] in collapsed
  {
    StripEmpty(g);
    CollapseUnpadded(st);
    forall i | 0 <= i < |g| && !IsSpace(g[i])
      ensures g[i] in collapsed
    {
      StripKeeps(g, i);
      var j :| 0 <= j < |st| && st[j] == g[i];
      CollapseKeeps(st, j);
    }
  }

  /**
   * A cascade that takes the first pattern that matches at all, as the
   * DOTALL loops do (extractors.py:547-554, 565-572, 644-651).
   */
  function FirstMatch(caps: seq<Option<string>>): (r: Option<string>)
    ensures r.Some? ==> exists i :: 0 <= i < |caps| && caps[i] == r && forall j :: 0 <= j < i ==> caps[j].None?
    ensures r.None? ==> forall j :: 0 <= j < |caps| ==> caps[j].None?
    decreases |caps|
  {
    if caps == [] then None
    else if caps[0].Some? then caps[0]
    else
      var r := FirstMatch(caps[1..]);
      assert forall j :: 1 <= j < |caps| ==> caps[1..][j - 1] == caps[j];
      r
  }

  /** The loop of a DOTALL cascade. */
  method FirstMatching(caps: seq<Option<string>>) returns (r: Option<string>)
    ensures r == FirstMatch(caps)
  {
    var i := 0;
    while i < |caps|
      invariant 0 <= i <= |caps|
      invariant FirstMatch(caps) == FirstMatch(caps[i..])
    {
      if caps[i].Some? {
        return caps[i];
      }
      assert caps[i..][1..] == caps[i + 1..];
      i := i + 1;
    }
    return None;
  }

  /** What `safe_extract` makes of each search outcome. */
  function Extracted(caps: seq<Option<string>>): (r: seq<Option<string>>)
    ensures |r| == |caps|
  {
    seq(|caps|, i requires 0 <= i < |caps| => SafeExtract(caps[i]))
  }

  /**
   * A `for pattern in patterns: v = safe_extract(...); if v: ...; break`
   * cascade, given each pattern's search outcome in order: the first
   * non-empty extraction, or `None` when every pattern yields nothing.
   */
  function FirstSafe(caps: seq<Option<string>>): (r: Option<string>)
    ensures r.Some? ==> exists i :: 0 <= i < |caps| && SafeExtract(caps[i]) == r
                                  && forall j :: 0 <= j < i ==> SafeExtract(caps[j]).None?
    ensures r.None? ==> forall j :: 0 <= j < |caps| ==> SafeExtract(caps[j]).None?
  {
    FirstSafeWitness(caps);
    FirstMatch(Extracted(caps))
  }

  lemma FirstSafeWitness(caps: seq<Option<string>>)
    ensures FirstMatch(Extracted(caps)).Some? ==>
              exists i :: 0 <= i < |caps| && SafeExtract(caps[i]) == FirstMatch(Extracted(caps))
                       && forall j :: 0 <= j < i ==> SafeExtract(caps[j]).None?
    ensures FirstMatch(Extracted(caps)).None? ==> forall j :: 0 <= j < |caps| ==> SafeExtract(caps[j]).None?
  {
    var xs := Extracted(caps);
    var r := FirstMatch(xs);
    if r.None? {
      forall j | 0 <= j < |caps|
        ensures SafeExtract(caps[j]).None?
      {
        assert xs[j] == SafeExtract(caps[j]);
      }
    } else {
      var i :| 0 <= i < |xs| && xs[i] == r && forall j :: 0 <= j < i ==> xs[j].None?;
      assert SafeExtract(caps[i]) == r;
      assert forall j :: 0 <= j < i ==> SafeExtract(caps[j]).None? by {
        forall j | 0 <= j < i
          ensures SafeExtract(caps[j]).None?
        {
          assert xs[j] == SafeExtract(caps[j]);
        }
      }
      assert 0 <= i < |caps| && SafeExtract(caps[i]) == FirstMatch(Extracted(caps))
             && forall j :: 0 <= j < i ==> SafeExtract(caps[j]).None?;
    }
  }

  /** The cascade's loop, which stops at the first pattern that yields something. */
  method Cascade(caps: seq<Option<string>>) returns (r: Option<string>)
    ensures r == FirstSafe(caps)
  {
    ghost var xs := Extracted(caps);
    var i := 0;
    while i < |caps|
      invariant 0 <= i <= |caps|
      invariant FirstSafe(caps) == FirstMatch(xs[i..])
    {
      var v := SafeExtract(caps[i]);
      if v.Some? {
        return v;
      }
      assert xs[i..][1..] == xs[i + 1..];
      i := i + 1;
    }
    return None;
  }
}
