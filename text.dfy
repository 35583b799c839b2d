/**
 * Character classes and Python `str` operations as the extraction code uses
 * them, restricted to ASCII: `\s` / `str.isspace()` is the ten ASCII characters
 * Python treats as whitespace, `\w` is `[A-Za-z0-9_]`, `\d` is `[0-9]`,
 * `upper()` / `lower()` change only ASCII letters.
 */
module Text {
  import opened Wrappers

  // ---------------------------------------------------------------- characters

  /** Python whitespace in the ASCII range: space, \t \n \v \f \r and \x1c-\x1f. */
  predicate IsSpace(c: char) {
    c == ' ' || (9 <= c as int <= 13) || (28 <= c as int <= 31)
  }

  predicate IsDigit(c: char) { '0' <= c <= '9' }
  predicate IsUpper(c: char) { 'A' <= c <= 'Z' }
  predicate IsLower(c: char) { 'a' <= c <= 'z' }
  predicate IsAlpha(c: char) { IsUpper(c) || IsLower(c) }
  /** `str.isalnum()` on one ASCII character. */
  predicate IsAlnum(c: char) { IsAlpha(c) || IsDigit(c) }
  /** The regex class `\w`. */
  predicate IsWord(c: char) { IsAlnum(c) || c == '_' }
  /** The regex class `[^\n]`. */
  predicate NotNewline(c: char) { c != '\n' }

  function UpperChar(c: char): (r: char)
    ensures IsLower(c) ==> IsUpper(r)
    ensures !IsLower(c) ==> r == c
  {
    if IsLower(c) then (c as int - 32) as char else c
  }

  function LowerChar(c: char): (r: char)
    ensures IsUpper(c) ==> IsLower(r)
    ensures !IsUpper(c) ==> r == c
  {
    if IsUpper(c) then (c as int + 32) as char else c
  }

  /** `str.upper()`. */
  function Upper(s: string): (r: string)
    ensures |r| == |s|
  {
    if s == [] then [] else [UpperChar(s[0])] + Upper(s[1..])
  }

  lemma {:induction false} UpperAt(s: string, i: nat)
    requires i < |s|
    ensures Upper(s)[i] == UpperChar(s[i])
  {
    if i > 0 {
      UpperAt(s[1..], i - 1);
    }
  }

  /** A string with no lower-case letter is its own upper case. */
  lemma {:induction false} UpperFixed(s: string)
    requires forall i :: 0 <= i < |s| ==> !IsLower(s[i])
    ensures Upper(s) == s
  {
    if s != [] {
      UpperFixed(s[1..]);
    }
  }

  /** `str.lower()`. */
  function Lower(s: string): (r: string)
    ensures |r| == |s|
  {
    if s == [] then [] else [LowerChar(s[0])] + Lower(s[1..])
  }

  lemma {:induction false} LowerAt(s: string, i: nat)
    requires i < |s|
    ensures Lower(s)[i] == LowerChar(s[i])
  {
    if i > 0 {
      LowerAt(s[1..], i - 1);
    }
  }

  // ---------------------------------------------------------------- searching

  predicate StartsWith(s: string, p: string) {
    |p| <= |s| && s[..|p|] == p
  }

  predicate EndsWith(s: string, p: string) {
    |p| <= |s| && s[|s| - |p|..] == p
  }

  /** `t[k..]` starts with `w`. */
  predicate At(t: string, k: int, w: string) {
    0 <= k && k + |w| <= |t| && t[k..k + |w|] == w
  }

  /** Python's `needle in hay`. */
  predicate Contains(hay: string, needle: string) {
    exists k :: 0 <= k <= |hay| && At(hay, k, needle)
  }

  /** `any(n in hay for n in needles)`. */
  predicate ContainsAny(hay: string, needles: seq<string>) {
    exists i :: 0 <= i < |needles| && Contains(hay, needles[i])
  }

  /** Index of the first element at or after `i` that satisfies `p`. */
  function FirstWhere<T>(xs: seq<T>, i: nat, p: T -> bool): (r: Option<nat>)
    requires i <= |xs|
    ensures r.Some? ==> i <= r.value < |xs| && p(xs[r.value])
    ensures r.Some? ==> forall j :: i <= j < r.value ==> !p(xs[j])
    ensures r.None? ==> forall j :: i <= j < |xs| ==> !p(xs[j])
    decreases |xs| - i
  {
    if i == |xs| then None
    else if p(xs[i]) then Some(i)
    else FirstWhere(xs, i + 1, p)
  }

  // ---------------------------------------------------------------- stripping

  predicate AllSpace(s: string) {
    forall i :: 0 <= i < |s| ==> IsSpace(s[i])
  }

  /** A whitespace head stays one when a whitespace character is put in front. */
  lemma SpaceCons(s: string, r: nat)
    requires r < |s| && AllSpace(s[1..][..|s| - 1 - r]) && IsSpace(s[0])
    ensures AllSpace(s[..|s| - r])
  {
    var head, tail := s[..|s| - r], s[1..][..|s| - 1 - r];
    forall k | 0 < k < |head|
      ensures IsSpace(head[k])
    {
      assert head[k] == tail[k - 1];
    }
  }

  /** `str.lstrip()`: the longest suffix that does not start with whitespace. */
  function LStrip(s: string): (r: string)
    ensures |r| <= |s| && r == s[|s| - |r|..]
    ensures AllSpace(s[..|s| - |r|])
    ensures r == [] || !IsSpace(r[0])
    ensures r == [] <==> AllSpace(s)
    decreases |s|
  {
    if |s| > 0 && IsSpace(s[0]) then
      var r := LStrip(s[1..]);
      SpaceCons(s, |r|);
      r
    else s
  }

  /** A whitespace tail stays one when a whitespace character is added at the end. */
  lemma SpaceSnoc(s: string, r: nat)
    requires r < |s| && AllSpace(s[..|s| - 1][r..]) && IsSpace(s[|s| - 1])
    ensures AllSpace(s[r..])
  {
    forall k | 0 <= k < |s| - r
      ensures IsSpace(s[r..][k])
    {
      if k < |s| - 1 - r {
        assert s[r..][k] == s[..|s| - 1][r..][k];
      }
    }
  }

  /** `str.rstrip()`: the longest prefix that does not end with whitespace. */
  function RStrip(s: string): (r: string)
    ensures |r| <= |s| && r == s[..|r|]
    ensures AllSpace(s[|r|..])
    ensures r == [] || !IsSpace(r[|r| - 1])
    decreases |s|
  {
    if |s| > 0 && IsSpace(s[|s| - 1]) then
      var r := RStrip(s[..|s| - 1]);
      SpaceSnoc(s, |r|);
      r
    else s
  }

  /** Neither starts nor ends with whitespace (the empty string included). */
  predicate Unpadded(s: string) {
    s == [] || (!IsSpace(s[0]) && !IsSpace(s[|s| - 1]))
  }

  /** `str.strip()`. */
  function Strip(s: string): (r: string)
    ensures |r| <= |s|
    ensures Unpadded(r)
  {
    RStrip(LStrip(s))
  }

  /** Stripping keeps exactly the non-whitespace content, at one offset. */
  lemma StripSlice(s: string) returns (a: nat)
    ensures a + |Strip(s)| <= |s| && Strip(s) == s[a..a + |Strip(s)|]
    ensures AllSpace(s[..a]) && AllSpace(s[a + |Strip(s)|..])
  {
    var l := LStrip(s);
    a := |s| - |l|;
    var r := RStrip(l);
    assert Strip(s) == r;
    assert r == s[a..a + |r|] by {
      assert r == l[..|r|] && l == s[a..];
      assert s[a..][..|r|] == s[a..a + |r|];
    }
    assert s[a + |r|..] == l[|r|..] by {
      assert l == s[a..];
    }
  }

  /** A string that neither starts nor ends with whitespace is its own strip. */
  lemma StripUnpadded(s: string)
    requires s != [] && !IsSpace(s[0]) && !IsSpace(s[|s| - 1])
    ensures Strip(s) == s
  {
    assert LStrip(s) == s;
  }

  /** Stripping keeps every character of a class the whole string belongs to. */
  lemma StripClass(s: string, k: char -> bool)
    ensures (forall i :: 0 <= i < |s| ==> k(s[i])) ==> forall i :: 0 <= i < |Strip(s)| ==> k(Strip(s)[i])
  {
    var a := StripSlice(s);
    var st := Strip(s);
    if forall i :: 0 <= i < |s| ==> k(s[i]) {
      forall i | 0 <= i < |st| ensures k(st[i]) {
        assert st[i] == s[a + i];
      }
    }
  }

  /** Left-stripping keeps a non-whitespace character, at the index returned. */
  lemma {:induction false} LStripKeeps(s: string, i: nat) returns (j: nat)
    requires i < |s| && !IsSpace(s[i])
    ensures j < |LStrip(s)| && LStrip(s)[j] == s[i]
    decreases |s|
  {
    if IsSpace(s[0]) {
      j := LStripKeeps(s[1..], i - 1);
    } else {
      j := i;
    }
  }

  /** Right-stripping keeps a non-whitespace character at the same index. */
  lemma {:induction false} RStripKeeps(s: string, i: nat)
    requires i < |s| && !IsSpace(s[i])
    ensures i < |RStrip(s)| && RStrip(s)[i] == s[i]
    decreases |s|
  {
    if IsSpace(s[|s| - 1]) {
      RStripKeeps(s[..|s| - 1], i);
    }
  }

  /** Stripping never removes a non-whitespace character. */
  lemma StripKeeps(s: string, i: nat)
    requires i < |s| && !IsSpace(s[i])
    ensures s[i] in Strip(s)
  {
    var j := LStripKeeps(s, i);
    RStripKeeps(LStrip(s), j);
    assert Strip(s)[j] == s[i];
  }

  /** A stripped string is empty exactly when the input was all whitespace. */
  lemma StripEmpty(s: string)
    ensures Strip(s) == [] <==> AllSpace(s)
  {
    if !AllSpace(s) {
      var i :| 0 <= i < |s| && !IsSpace(s[i]);
      StripKeeps(s, i);
    }
  }

  // ---------------------------------------------------------------- rewriting

  /** `re.sub(r'\s+', ' ', s)`: every maximal whitespace run becomes one space. */
  function CollapseWs(s: string): (r: string)
    ensures forall i :: 0 <= i < |r| && IsSpace(r[i]) ==> r[i] == ' '
    ensures forall c :: c in r ==> c == ' ' || c in s
    ensures |r| <= |s|
    ensures r == [] <==> s == []
    decreases |s|
  {
    if s == [] then []
    else if IsSpace(s[0]) then
      var l := LStrip(s);
      assert forall c :: c in l ==> c in s;
      " " + CollapseWs(l)
    else [s[0]] + CollapseWs(s[1..])
  }

  /** No two neighbouring characters are both whitespace. */
  predicate SingleSpaced(s: string) {
    forall i :: 0 <= i < |s| - 1 && IsSpace(s[i]) ==> !IsSpace(s[i + 1])
  }

  /** After collapsing, whitespace never comes two in a row. */
  lemma {:induction false} CollapseSingle(s: string)
    ensures SingleSpaced(CollapseWs(s))
    decreases |s|
  {
    if s != [] {
      if IsSpace(s[0]) {
        var l := LStrip(s);
        CollapseSingle(l);
        var r := CollapseWs(l);
        assert l != [] ==> r[0] == l[0];
        assert forall i :: 1 <= i < |r| + 1 ==> (" " + r)[i] == r[i - 1];
      } else {
        CollapseSingle(s[1..]);
        var r := CollapseWs(s[1..]);
        assert forall i :: 1 <= i < |r| + 1 ==> ([s[0]] + r)[i] == r[i - 1];
      }
    }
  }

  /** Collapsing whitespace keeps a string's first and last characters when neither is whitespace. */
  lemma {:induction false} CollapseUnpadded(s: string)
    requires Unpadded(s)
    ensures Unpadded(CollapseWs(s))
    decreases |s|
  {
    if s != [] {
      assert CollapseWs(s)[0] == s[0];
      CollapseLast(s);
    }
  }

  lemma {:induction false} CollapseLast(s: string)
    requires s != [] && !IsSpace(s[|s| - 1])
    ensures CollapseWs(s) != [] && CollapseWs(s)[|CollapseWs(s)| - 1] == s[|s| - 1]
    decreases |s|
  {
    if IsSpace(s[0]) {
      var l := LStrip(s);
      assert !AllSpace(s) by {
        assert !IsSpace(s[|s| - 1]);
      }
      assert l == s[|s| - |l|..];
      assert l[|l| - 1] == s[|s| - 1];
      CollapseLast(l);
    } else if |s| > 1 {
      assert s[1..][|s| - 2] == s[|s| - 1];
      CollapseLast(s[1..]);
    }
  }

  /** Collapsing whitespace keeps every non-whitespace character. */
  lemma {:induction false} CollapseKeeps(s: string, i: nat)
    requires i < |s| && !IsSpace(s[i])
    ensures s[i] in CollapseWs(s)
    decreases |s|
  {
    if i == 0 {
      assert CollapseWs(s)[0] == s[0];
    } else if IsSpace(s[0]) {
      var l := LStrip(s);
      var d := |s| - |l|;
      assert forall j :: 0 <= j < d ==> s[..d][j] == s[j];
      assert l[i - d] == s[i];
      CollapseKeeps(l, i - d);
    } else {
      assert s[1..][i - 1] == s[i];
      CollapseKeeps(s[1..], i - 1);
    }
  }

  /**
   * `re.sub(r'\n\s*', ' ', s)`: a newline and the whitespace run after it
   * become one space.
   */
  function SubNewlineWs(s: string): (r: string)
    ensures r == [] <==> s == []
    decreases |s|
  {
    if s == [] then []
    else if s[0] == '\n' then " " + SubNewlineWs(LStrip(s[1..]))
    else [s[0]] + SubNewlineWs(s[1..])
  }

  /** The newline substitution keeps every non-whitespace character. */
  lemma {:induction false} SubNewlineKeeps(s: string, i: nat)
    requires i < |s| && !IsSpace(s[i])
    ensures s[i] in SubNewlineWs(s)
    decreases |s|
  {
    if i == 0 {
      assert SubNewlineWs(s)[0] == s[0];
    } else if s[0] == '\n' {
      var l := LStrip(s[1..]);
      var d := |s[1..]| - |l|;
      assert forall j :: 0 <= j < d ==> s[1..][..d][j] == s[1..][j];
      assert l[i - 1 - d] == s[i];
      SubNewlineKeeps(l, i - 1 - d);
    } else {
      assert s[1..][i - 1] == s[i];
      SubNewlineKeeps(s[1..], i - 1);
    }
  }

  /** Replace every occurrence of character `a` with `b` (`str.replace` on one character). */
  function ReplaceChar(s: string, a: char, b: char): (r: string)
    ensures |r| == |s|
    ensures forall i :: 0 <= i < |s| ==> r[i] == (if s[i] == a then b else s[i])
  {
    seq(|s|, i requires 0 <= i < |s| => if s[i] == a then b else s[i])
  }

  /** `''.join(c for c in s if keep(c))`: exactly the accepted characters survive. */
  function Filter(s: string, keep: char -> bool): (r: string)
    ensures |r| <= |s|
    ensures forall c :: c in r <==> c in s && keep(c)
    decreases |s|
  {
    if s == [] then []
    else if keep(s[0]) then [s[0]] + Filter(s[1..], keep)
    else Filter(s[1..], keep)
  }

  predicate AllDigits(s: string) {
    forall i :: 0 <= i < |s| ==> IsDigit(s[i])
  }

  /** `t[i..e]`, when every character in it is of class `k`, is a string of class `k`. */
  lemma SliceClass(t: string, i: nat, e: nat, k: char -> bool)
    requires i <= e <= |t| && forall j :: i <= j < e ==> k(t[j])
    ensures forall j :: 0 <= j < e - i ==> k(t[i..e][j])
  {
    assert forall j :: 0 <= j < e - i ==> t[i..e][j] == t[i + j];
  }

  /** `str.zfill(2)`: left-pad with '0' to width two, after a leading sign. */
  function ZFill2(s: string): (r: string)
    ensures |r| == if |s| >= 2 then |s| else 2
    ensures AllDigits(s) && |s| <= 2 ==> AllDigits(r) && |r| == 2
    ensures |s| >= 2 ==> r == s
    ensures forall c :: c in r ==> c in s || c == '0'
  {
    if |s| >= 2 then s
    else if |s| == 1 && (s[0] == '+' || s[0] == '-') then [s[0], '0']
    else seq(2 - |s|, _ => '0') + s
  }

  // ---------------------------------------------------------------- splitting

  /** `s.split(c)` for a one-character separator: never empty, no part holds `c`. */
  function SplitOn(s: string, c: char): (r: seq<string>)
    ensures |r| >= 1
    ensures forall k :: 0 <= k < |r| ==> c !in r[k]
    decreases |s|
  {
    if s == [] then [""]
    else if s[0] == c then [""] + SplitOn(s[1..], c)
    else
      var rest := SplitOn(s[1..], c);
      [[s[0]] + rest[0]] + rest[1..]
  }

  /** A string without the separator does not split. */
  lemma {:induction false} SplitOnNone(s: string, c: char)
    requires c !in s
    ensures SplitOn(s, c) == [s]
    decreases |s|
  {
    if s != [] {
      assert c !in s[1..] by {
        assert forall i :: 0 <= i < |s[1..]| ==> s[1..][i] == s[i + 1];
      }
      SplitOnNone(s[1..], c);
      assert [s[0]] + s[1..] == s;
    }
  }

  /** Splitting `a + [c] + b` where `a` has no `c`: `a` is the first part, the parts of `b` follow. */
  lemma {:induction false} SplitOnFirst(a: string, c: char, b: string)
    requires c !in a
    ensures SplitOn(a + [c] + b, c) == [a] + SplitOn(b, c)
    decreases |a|
  {
    var s := a + [c] + b;
    if a == [] {
      assert s[1..] == b;
    } else {
      assert c !in a[1..] by {
        assert forall i :: 0 <= i < |a[1..]| ==> a[1..][i] == a[i + 1];
      }
      SplitOnFirst(a[1..], c, b);
      assert s[0] == a[0] && s[1..] == a[1..] + [c] + b;
      assert [a[0]] + a[1..] == a;
    }
  }

  /** Three parts joined by '/' split back into themselves when none of them holds a '/'. */
  lemma SplitThree(a: string, b: string, c: string)
    requires '/' !in a && '/' !in b && '/' !in c
    ensures SplitOn(a + "/" + b + "/" + c, '/') == [a, b, c]
  {
    SplitOnFirst(a, '/', b + "/" + c);
    SplitOnFirst(b, '/', c);
    SplitOnNone(c, '/');
    assert a + "/" + b + "/" + c == a + ['/'] + (b + ['/'] + c);
  }

  /** Joining the parts of `s.split(c)` with `c` gives `s` back. */
  lemma {:induction false} SplitOnJoin(s: string, c: char)
    ensures Join(SplitOn(s, c), [c]) == s
    decreases |s|
  {
    if s != [] {
      var rest := SplitOn(s[1..], c);
      SplitOnJoin(s[1..], c);
      if s[0] != c && |rest| >= 2 {
        assert Join(rest, [c]) == rest[0] + [c] + Join(rest[1..], [c]);
        assert SplitOn(s, c)[1..] == rest[1..];
      }
    }
  }

  /** The line breaks `str.splitlines()` recognises in ASCII. */
  predicate IsLineBreak(c: char) {
    c == '\n' || c == '\r' || c as int == 11 || c as int == 12 || (28 <= c as int <= 30)
  }

  /**
   * `str.splitlines()`: lines end at a line break (`\r\n` counts once), and a
   * trailing break does not start an empty last line.
   */
  function SplitLines(s: string): (r: seq<string>)
    ensures s == [] ==> r == []
    ensures forall k :: 0 <= k < |r| ==> forall i :: 0 <= i < |r[k]| ==> !IsLineBreak(r[k][i])
    decreases |s|
  {
    if s == [] then []
    else
      var n := LineLength(s, 0);
      var line := s[..n];
      if n == |s| then [line]
      else
        var skip := if s[n] == '\r' && n + 1 < |s| && s[n + 1] == '\n' then 2 else 1;
        [line] + SplitLines(s[n + skip..])
  }

  /** Length of the run before the first line break at or after `i`, counted from `i`. */
  function LineLength(s: string, i: nat): (n: nat)
    requires i <= |s|
    ensures i + n <= |s|
    ensures forall j :: i <= j < i + n ==> !IsLineBreak(s[j])
    ensures i + n == |s| || IsLineBreak(s[i + n])
    decreases |s| - i
  {
    if i == |s| || IsLineBreak(s[i]) then 0 else 1 + LineLength(s, i + 1)
  }

  /** `s.split()`: the maximal runs of non-whitespace characters. */
  function Tokens(s: string): (r: seq<string>)
    ensures forall k :: 0 <= k < |r| ==> r[k] != [] && !exists i :: 0 <= i < |r[k]| && IsSpace(r[k][i])
    decreases |s|
  {
    if s == [] then []
    else if IsSpace(s[0]) then Tokens(s[1..])
    else
      var n := NonSpaceLength(s, 0);
      [s[..n]] + Tokens(s[n..])
  }

  function NonSpaceLength(s: string, i: nat): (n: nat)
    requires i <= |s|
    ensures i + n <= |s|
    ensures forall j :: i <= j < i + n ==> !IsSpace(s[j])
    ensures i + n == |s| || IsSpace(s[i + n])
    ensures i < |s| && !IsSpace(s[i]) ==> n > 0
    decreases |s| - i
  {
    if i == |s| || IsSpace(s[i]) then 0 else 1 + NonSpaceLength(s, i + 1)
  }

  /**
   * `re.split(r'\s{2,}', s)`: split at every maximal run of two or more
   * whitespace characters; a single whitespace character stays in its part.
   */
  function SplitWideGaps(s: string): (r: seq<string>)
    ensures |r| >= 1
    decreases |s|
  {
    if s == [] then [""]
    else if |s| >= 2 && IsSpace(s[0]) && IsSpace(s[1]) then [""] + SplitWideGaps(LStrip(s))
    else
      var rest := SplitWideGaps(s[1..]);
      [[s[0]] + rest[0]] + rest[1..]
  }

  /** `sep.join(parts)`. */
  function Join(parts: seq<string>, sep: string): (r: string)
    ensures |parts| == 1 ==> r == parts[0]
    decreases |parts|
  {
    if parts == [] then ""
    else if |parts| == 1 then parts[0]
    else parts[0] + sep + Join(parts[1..], sep)
  }
}
