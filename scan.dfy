/**
 * The small family of regular expressions the extractors search for, with
 * Python's `re.search` semantics: the leftmost start position wins, greedy
 * repetitions take as much as they can and give characters back only when the
 * rest of the pattern fails.
 *
 * Most patterns have the shape `Label SEP (GROUP)`: one of several label
 * alternatives, a separator such as `\s*:\s*`, and a captured group that ends
 * the pattern. Since the group ends the pattern, a greedy group never needs to
 * give characters back; the only backtracking that changes a result is the
 * trailing `\s*` of the separator handing whitespace characters to a group
 * whose class contains whitespace. `Backtrack` reproduces that.
 */
module Scan {
  import opened Text
  import opened Wrappers

  /** The text one match consumed (`end`) and its captured groups. */
  datatype Hit = Hit(end: nat, caps: seq<string>)

  /** Character comparison, folding ASCII case under `re.IGNORECASE`. */
  predicate CharEq(a: char, b: char, ci: bool) {
    a == b || (ci && LowerChar(a) == LowerChar(b))
  }

  /** `t[i..]` starts with `w`, folding case under `ci`. */
  predicate LitAt(t: string, i: nat, w: string, ci: bool) {
    i + |w| <= |t| && forall k :: 0 <= k < |w| ==> CharEq(t[i + k], w[k], ci)
  }

  /** Length of the run of characters of class `k` starting at `i`. */
  function RunLen(t: string, i: nat, k: char -> bool): (n: nat)
    requires i <= |t|
    ensures i + n <= |t|
    ensures forall j :: i <= j < i + n ==> k(t[j])
    ensures i + n == |t| || !k(t[i + n])
    decreases |t| - i
  {
    if i == |t| || !k(t[i]) then 0 else 1 + RunLen(t, i + 1, k)
  }

  /** Length of the whitespace run at `i` (the class-generic `RunLen` for `IsSpace`, written out). */
  function WsRun(t: string, i: nat): (n: nat)
    requires i <= |t|
    ensures i + n <= |t|
    decreases |t| - i
  {
    if i == |t| || !IsSpace(t[i]) then 0 else 1 + WsRun(t, i + 1)
  }

  function DigitRun(t: string, i: nat): (n: nat)
    requires i <= |t|
    ensures i + n <= |t|
    ensures forall j :: i <= j < i + n ==> IsDigit(t[j])
  {
    RunLen(t, i, IsDigit)
  }

  // ---------------------------------------------------------------- labels

  /**
   * One element of a label: a literal character, `.` (any character but a
   * newline), or a `\s+` / `\s*` run. In every label a whitespace run is
   * followed by a literal that is not whitespace, so taking the whole run is
   * the only choice that can succeed.
   */
  datatype Atom = Lit(c: char) | AnyNotNl | Spaces1 | Spaces0

  /** A label spelled literally. */
  function Lits(w: string): (r: seq<Atom>)
    ensures |r| == |w|
  {
    seq(|w|, i requires 0 <= i < |w| => Lit(w[i]))
  }

  /** Words separated by `\s+`, as in `Nama\s+Pemberi\s+Kerja`. */
  function Words(ws: seq<string>): seq<Atom>
  {
    if ws == [] then []
    else if |ws| == 1 then Lits(ws[0])
    else Lits(ws[0]) + [Spaces1] + Words(ws[1..])
  }

  /** Where a label matched at `i` ends. */
  function MatchAtoms(t: string, i: nat, atoms: seq<Atom>, ci: bool): (r: Option<nat>)
    requires i <= |t|
    ensures r.Some? ==> i <= r.value <= |t|
    decreases |atoms|
  {
    if atoms == [] then Some(i)
    else
      match atoms[0]
      case Lit(c) =>
        if i < |t| && CharEq(t[i], c, ci) then MatchAtoms(t, i + 1, atoms[1..], ci) else None
      case AnyNotNl =>
        if i < |t| && t[i] != '\n' then MatchAtoms(t, i + 1, atoms[1..], ci) else None
      case Spaces1 =>
        var n := WsRun(t, i);
        if n >= 1 then MatchAtoms(t, i + n, atoms[1..], ci) else None
      case Spaces0 =>
        MatchAtoms(t, i + WsRun(t, i), atoms[1..], ci)
  }

  // ---------------------------------------------------------------- groups

  /** The captured group that ends a pattern. */
  datatype Group =
    | Run(k: char -> bool, min: nat)
      /** `(C{min,})` for a character class `C` (already case-folded where the pattern is). */
    | OneOf(alts: seq<string>)
      /** `(A|B|...)`, alternatives tried in order. */
    | Date(lo: nat, seps: string, sameSep: bool)
      /** `\d{lo,2} S \d{lo,2} S \d{4}` with `S` drawn from `seps`, both equal when `sameSep`. */
    | DayWordYear
      /** `\d{1,2}\s+\w+\s+\d{4}`. */
    | PlaceCommaDate
      /** `[^,\n]+,\s*\d{1,2}\s+\w+\s+\d{4}`. */
    | Email
      /** `[a-zA-Z0-9._%+-]+@[a-zA-Z0-9.-]+\.[a-zA-Z]{2,}`. */

  /** `\d{1,2}[/\-]\d{1,2}[/\-]\d{4}`: one- or two-digit day and month, either separator. */
  const AnyDate := Date(1, "/-", false)

  /**
   * `\d{lo,2}` followed by a character that is not a digit: the greedy count,
   * or `None`. Giving a digit back would leave a digit where the next
   * element needs a non-digit, so the greedy count is the only candidate.
   */
  function ShortNumber(t: string, i: nat, lo: nat): (r: Option<nat>)
    requires i <= |t|
    ensures r.Some? ==> lo <= r.value <= 2 && i + r.value <= |t|
  {
    var take := if i < |t| && IsDigit(t[i]) then (if i + 1 < |t| && IsDigit(t[i + 1]) then 2 else 1) else 0;
    if take >= lo then Some(take) else None
  }

  /** `\d{4}` at `i`: four digits, whatever follows them. */
  predicate FourDigits(t: string, i: nat) {
    i + 4 <= |t| && IsDigit(t[i]) && IsDigit(t[i + 1]) && IsDigit(t[i + 2]) && IsDigit(t[i + 3])
  }

  lemma FourDigitsSlice(t: string, i: nat)
    requires FourDigits(t, i)
    ensures AllDigits(t[i..i + 4])
  {
    var s := t[i..i + 4];
    assert s[0] == t[i] && s[1] == t[i + 1] && s[2] == t[i + 2] && s[3] == t[i + 3];
  }

  lemma ShortNumberSlice(t: string, i: nat, lo: nat)
    requires i <= |t| && ShortNumber(t, i, lo).Some?
    ensures AllDigits(t[i..i + ShortNumber(t, i, lo).value])
  {
    var s := t[i..i + ShortNumber(t, i, lo).value];
    assert forall j :: 0 <= j < |s| ==> s[j] == t[i + j];
  }

  /** A date at `i`; the result is where it ends. */
  function DateEnd(t: string, i: nat, lo: nat, seps: string, sameSep: bool): (r: Option<nat>)
    requires i <= |t|
    ensures r.Some? ==> i < r.value <= |t|
  {
    match ShortNumber(t, i, lo)
    case None => None
    case Some(d) =>
      var s1 := i + d;
      if s1 < |t| && t[s1] in seps then
        match ShortNumber(t, s1 + 1, lo)
        case None => None
        case Some(m) =>
          var s2 := s1 + 1 + m;
          if s2 < |t| && t[s2] in seps && (!sameSep || t[s2] == t[s1]) && FourDigits(t, s2 + 1) then
            Some(s2 + 5)
          else None
      else None
  }

  /** `\d{2}S\d{2}S\d{4}`, each `S` one of `seps` (the same one twice when `sameSep`). */
  predicate TwoDigitDate(s: string, seps: string, sameSep: bool) {
    |s| == 10 && IsDigit(s[0]) && IsDigit(s[1]) && s[2] in seps && IsDigit(s[3]) && IsDigit(s[4])
    && s[5] in seps && IsDigit(s[6]) && IsDigit(s[7]) && IsDigit(s[8]) && IsDigit(s[9])
    && (!sameSep || s[5] == s[2])
  }

  /** A date with two-digit day and month is ten characters long and has that shape. */
  lemma DateEndShape(t: string, i: nat, seps: string, sameSep: bool)
    requires i <= |t|
    ensures DateEnd(t, i, 2, seps, sameSep).Some? ==>
              DateEnd(t, i, 2, seps, sameSep).value == i + 10 && TwoDigitDate(t[i..i + 10], seps, sameSep)
  {
    if DateEnd(t, i, 2, seps, sameSep).Some? {
      var s := t[i..i + 10];
      assert forall j :: 0 <= j < 10 ==> s[j] == t[i + j];
    }
  }

  /** `\d{1,2}\s+\w+\s+\d{4}` at `i`; the result is where it ends. */
  function DayWordYearEnd(t: string, i: nat): (r: Option<nat>)
    requires i <= |t|
    ensures r.Some? ==> i < r.value <= |t|
  {
    match ShortNumber(t, i, 1)
    case None => None
    case Some(d) =>
      var w1 := WsRun(t, i + d);
      var a := i + d + w1;
      var m := RunLen(t, a, IsWord);
      var w2 := WsRun(t, a + m);
      var b := a + m + w2;
      if w1 >= 1 && m >= 1 && w2 >= 1 && FourDigits(t, b) then Some(b + 4) else None
  }

  predicate NotCommaNl(c: char) { c != ',' && c != '\n' }
  predicate IsEmailLocal(c: char) { IsAlnum(c) || c in "._%+-" }
  predicate IsDomainChar(c: char) { IsAlnum(c) || c in ".-" }

  /**
   * The email's final `\.[a-zA-Z]{2,}`: the domain run is given back one
   * character at a time, so the last dot in `[lo, hi]` followed by two or more
   * letters is taken.
   */
  function LastDot(t: string, hi: int, lo: nat): (r: Option<nat>)
    requires hi < |t|
    ensures r.Some? ==> lo <= r.value <= hi && t[r.value] == '.'
    ensures r.Some? ==> RunLen(t, r.value + 1, IsAlpha) >= 2
    decreases hi + 1 - lo
  {
    if hi < lo then None
    else if t[hi] == '.' && RunLen(t, hi + 1, IsAlpha) >= 2 then Some(hi)
    else LastDot(t, hi - 1, lo)
  }

  /** The email group at `i`; the result is where it ends. */
  function EmailEnd(t: string, i: nat): (r: Option<nat>)
    requires i <= |t|
    ensures r.Some? ==> i < r.value <= |t| && '@' in t[i..r.value]
  {
    var local := RunLen(t, i, IsEmailLocal);
    var at := i + local;
    if local == 0 || at >= |t| || t[at] != '@' then None
    else
      var ds := at + 1;
      var de := ds + RunLen(t, ds, IsDomainChar);
      match LastDot(t, de - 1, ds + 1)
      case None => None
      case Some(d) =>
        var e := d + 1 + RunLen(t, d + 1, IsAlpha);
        assert at < d < e;
        CharInSlice(t, i, at, e);
        Some(e)
  }

  /** A character at `at` is in every slice around it. */
  lemma CharInSlice(t: string, i: nat, at: nat, e: nat)
    requires i <= at < e <= |t|
    ensures t[at] in t[i..e]
  {
    assert t[i..e][at - i] == t[at];
  }

  /** Where group `g` matched at `i` ends. */
  function GroupEnd(t: string, i: nat, g: Group, ci: bool): (r: Option<nat>)
    requires i <= |t|
    ensures r.Some? ==> i <= r.value <= |t|
    ensures r.Some? && g.Run? ==> r.value - i >= g.min && forall j :: i <= j < r.value ==> g.k(t[j])
    ensures r.Some? && g.Email? ==> '@' in t[i..r.value]
    ensures r.Some? && g.OneOf? && !ci ==> t[i..r.value] in g.alts
  {
    match g
    case Run(k, min) =>
      var n := RunLen(t, i, k);
      if n >= min then Some(i + n) else None
    case OneOf(alts) => FirstAlt(t, i, alts, ci)
    case Date(lo, seps, same) => DateEnd(t, i, lo, seps, same)
    case DayWordYear => DayWordYearEnd(t, i)
    case PlaceCommaDate =>
      var n := RunLen(t, i, NotCommaNl);
      var c := i + n;
      if n >= 1 && c < |t| && t[c] == ',' then DayWordYearEnd(t, c + 1 + WsRun(t, c + 1)) else None
    case Email => EmailEnd(t, i)
  }

  function FirstAlt(t: string, i: nat, alts: seq<string>, ci: bool): (r: Option<nat>)
    requires i <= |t|
    ensures r.Some? ==> i <= r.value <= |t|
    ensures r.Some? && !ci ==> t[i..r.value] in alts
    ensures r.Some? ==> exists a :: 0 <= a < |alts| && LitAt(t, i, alts[a], ci) && r.value == i + |alts[a]|
    decreases |alts|
  {
    if alts == [] then None
    else if LitAt(t, i, alts[0], ci) then
      var w := t[i..i + |alts[0]|];
      assert forall k :: 0 <= k < |w| ==> w[k] == t[i + k];
      assert !ci ==> w == alts[0];
      Some(i + |alts[0]|)
    else FirstAlt(t, i, alts[1..], ci)
  }

  /** Under case folding a literal matches wherever another of the same lower-case spelling does. */
  lemma LitAtFolded(t: string, i: nat, w: string, v: string)
    requires |w| == |v| && forall k :: 0 <= k < |w| ==> LowerChar(w[k]) == LowerChar(v[k])
    ensures LitAt(t, i, w, true) == LitAt(t, i, v, true)
  {
  }

  /** Where a literal matches, so does each of its suffixes, further on. */
  lemma LitAtSuffix(t: string, i: nat, w: string, k: nat, ci: bool)
    requires LitAt(t, i, w, ci) && k <= |w|
    ensures LitAt(t, i + k, w[k..], ci)
  {
    assert forall j :: 0 <= j < |w| - k ==> w[k..][j] == w[k + j];
  }

  /** A word without capitals matched with case folded: the matched text lower-cased is that word. */
  lemma LowerLit(t: string, i: nat, e: nat, w: string)
    requires LitAt(t, i, w, true) && e == i + |w| && forall k :: 0 <= k < |w| ==> !IsUpper(w[k])
    ensures Lower(t[i..e]) == w
  {
    var m := t[i..e];
    forall k | 0 <= k < |w|
      ensures Lower(m)[k] == w[k]
    {
      LowerAt(m, k);
      assert m[k] == t[i + k];
    }
  }

  /** Group `g` at `i`, as a match whose only capture is the group's text. */
  function MatchGroup(t: string, i: nat, g: Group, ci: bool): (r: Option<Hit>)
    requires i <= |t|
    ensures r.Some? ==> i <= r.value.end <= |t| && r.value.caps == [t[i..r.value.end]]
  {
    match GroupEnd(t, i, g, ci)
    case None => None
    case Some(e) => Some(Hit(e, [t[i..e]]))
  }

  /**
   * The separator's trailing `\s*` handing characters back: the group is
   * tried at `hi`, then `hi - 1`, down to `lo`.
   */
  function Backtrack(t: string, hi: nat, lo: nat, g: Group, ci: bool): (r: Option<Hit>)
    requires lo <= hi <= |t|
    ensures r.Some? ==> exists j :: lo <= j <= hi && MatchGroup(t, j, g, ci) == r
    decreases hi - lo
  {
    match MatchGroup(t, hi, g, ci)
    case Some(h) => Some(h)
    case None => if hi == lo then None else Backtrack(t, hi - 1, lo, g, ci)
  }

  // ---------------------------------------------------------------- fields

  /** What sits between a label and its group. */
  datatype Sep =
    | ColonWs     /** `\s*:\s*` */
    | ColonSpace  /** `\s*: ` */
    | Ws1         /** `\s+` */
    | OptColonWs  /** `\s*:?\s*` */
    | NonDigits   /** `[^\d]*` */

  /** The separator and the group after a label that ended at `e`. */
  function MatchSep(t: string, e: nat, sep: Sep, g: Group, ci: bool): (r: Option<Hit>)
    requires e <= |t|
    ensures r.Some? ==> exists j :: e <= j <= |t| && MatchGroup(t, j, g, ci) == r
  {
    var a := e + WsRun(t, e);
    match sep
    case ColonWs =>
      if a < |t| && t[a] == ':' then
        var q := a + 1;
        Backtrack(t, q + WsRun(t, q), q, g, ci)
      else None
    case ColonSpace =>
      if a + 1 < |t| && t[a] == ':' && t[a + 1] == ' ' then MatchGroup(t, a + 2, g, ci) else None
    case Ws1 =>
      if a > e then Backtrack(t, a, e + 1, g, ci) else None
    case OptColonWs =>
      if a < |t| && t[a] == ':' then
        var q := a + 1;
        match Backtrack(t, q + WsRun(t, q), q, g, ci)
        case Some(h) => Some(h)
        case None => Backtrack(t, a, e, g, ci)
      else Backtrack(t, a, e, g, ci)
    case NonDigits =>
      Backtrack(t, e + RunLen(t, e, c => !IsDigit(c)), e, g, ci)
  }

  /** A pattern: labelled (`(?:L1|L2|...)SEP(GROUP)`) or a bare group. */
  datatype Pattern =
    | Field(labels: seq<seq<Atom>>, sep: Sep, g: Group, ci: bool)
    | Bare(g: Group, ci: bool)

  /** The labelled pattern at `s`: label alternatives are tried in order, each with the rest of the pattern. */
  function FirstLabel(t: string, s: nat, labels: seq<seq<Atom>>, sep: Sep, g: Group, ci: bool): (r: Option<Hit>)
    requires s <= |t|
    ensures r.Some? ==> exists j :: s <= j <= |t| && MatchGroup(t, j, g, ci) == r
    decreases |labels|
  {
    if labels == [] then None
    else
      var rest := FirstLabel(t, s, labels[1..], sep, g, ci);
      match MatchAtoms(t, s, labels[0], ci)
      case None => rest
      case Some(e) =>
        match MatchSep(t, e, sep, g, ci)
        case Some(h) => Some(h)
        case None => rest
  }

  /** Pattern `p` anchored at `s` (`None` past the end of the text). */
  function MatchAt(t: string, s: nat, p: Pattern): (r: Option<Hit>)
    ensures r.Some? ==> exists j :: s <= j <= |t| && MatchGroup(t, j, p.g, p.ci) == r
  {
    if s > |t| then None
    else
      match p
      case Field(labels, sep, g, ci) => FirstLabel(t, s, labels, sep, g, ci)
      case Bare(g, ci) => MatchGroup(t, s, g, ci)
  }

  // ---------------------------------------------------------------- search

  /** `re.search` for any anchored matcher: the leftmost start at or after `s` that matches. */
  function SearchFrom(t: string, s: nat, m: (string, nat) -> Option<Hit>): (r: Option<(nat, Hit)>)
    ensures r.Some? ==> s <= r.value.0 <= |t| && m(t, r.value.0) == Some(r.value.1)
    ensures r.Some? ==> forall p :: s <= p < r.value.0 ==> m(t, p).None?
    ensures r.None? ==> forall p :: s <= p <= |t| ==> m(t, p).None?
    decreases |t| + 1 - s
  {
    if s > |t| then None
    else
      match m(t, s)
      case Some(h) => Some((s, h))
      case None => SearchFrom(t, s + 1, m)
  }

  function Matcher(p: Pattern): (string, nat) -> Option<Hit> {
    (t: string, s: nat) => MatchAt(t, s, p)
  }

  /** `re.search(p, t)`, reduced to the match (its captures and where it ends). */
  function Find(t: string, p: Pattern): (r: Option<Hit>)
    ensures r.Some? ==> exists j :: 0 <= j <= |t| && MatchGroup(t, j, p.g, p.ci) == r
    ensures r.None? ==> forall s :: 0 <= s <= |t| ==> MatchAt(t, s, p).None?
  {
    var m := Matcher(p);
    assert forall s :: m(t, s) == MatchAt(t, s, p);
    match SearchFrom(t, 0, m)
    case None => None
    case Some((_, h)) => Some(h)
  }

  /** `m.group(1)` of `re.search(p, t)`, or `None`. */
  function Capture(t: string, p: Pattern): (r: Option<string>)
    ensures r.Some? ==> exists j :: 0 <= j <= |t| && MatchGroup(t, j, p.g, p.ci).Some? && r.value == MatchGroup(t, j, p.g, p.ci).value.caps[0]
  {
    match Find(t, p)
    case None => None
    case Some(h) => Some(h.caps[0])
  }

  /** What the text of a successful group match is made of. */
  lemma GroupText(t: string, j: nat, g: Group, ci: bool)
    requires j <= |t| && MatchGroup(t, j, g, ci).Some?
    ensures var c := MatchGroup(t, j, g, ci).value.caps[0];
      && (g.Run? ==> |c| >= g.min && forall i :: 0 <= i < |c| ==> g.k(c[i]))
      && (g.Email? ==> '@' in c)
      && (g.OneOf? && !ci ==> c in g.alts)
  {
    var e := GroupEnd(t, j, g, ci).value;
    var c := t[j..e];
    assert forall i :: 0 <= i < |c| ==> c[i] == t[j + i];
  }

  /** A capture of a `Run` group holds only characters of its class, and at least `min` of them. */
  lemma CaptureRun(t: string, p: Pattern)
    requires p.g.Run?
    ensures Capture(t, p).Some? ==> |Capture(t, p).value| >= p.g.min
    ensures Capture(t, p).Some? ==> forall j :: 0 <= j < |Capture(t, p).value| ==> p.g.k(Capture(t, p).value[j])
  {
    if Capture(t, p).Some? {
      var j :| 0 <= j <= |t| && MatchGroup(t, j, p.g, p.ci).Some? && Capture(t, p).value == MatchGroup(t, j, p.g, p.ci).value.caps[0];
      GroupText(t, j, p.g, p.ci);
    }
  }

  /** A case-sensitive capture of a `OneOf` group is one of its alternatives. */
  lemma CaptureOneOf(t: string, p: Pattern)
    requires p.g.OneOf? && !p.ci
    ensures Capture(t, p).Some? ==> Capture(t, p).value in p.g.alts
  {
    if Capture(t, p).Some? {
      var j :| 0 <= j <= |t| && MatchGroup(t, j, p.g, p.ci).Some? && Capture(t, p).value == MatchGroup(t, j, p.g, p.ci).value.caps[0];
      GroupText(t, j, p.g, p.ci);
    }
  }

  /** A capture of an `Email` group contains an '@'. */
  lemma CaptureEmail(t: string, p: Pattern)
    requires p.g.Email?
    ensures Capture(t, p).Some? ==> '@' in Capture(t, p).value
  {
    if Capture(t, p).Some? {
      var j :| 0 <= j <= |t| && MatchGroup(t, j, p.g, p.ci).Some? && Capture(t, p).value == MatchGroup(t, j, p.g, p.ci).value.caps[0];
      GroupText(t, j, p.g, p.ci);
    }
  }

  /**
   * `re.findall` of a bare pattern from position `s`: the captures of the
   * successive non-overlapping matches, each search resuming where the last
   * match ended.
   */
  function FindAllFrom(t: string, s: nat, p: Pattern): (r: seq<string>)
    requires p.Bare?
    decreases |t| + 1 - s
  {
    match SearchFrom(t, s, Matcher(p))
    case None => []
    case Some((start, h)) =>
      var next := if h.end > start then h.end else start + 1;
      [h.caps[0]] + FindAllFrom(t, next, p)
  }

  function FindAll(t: string, p: Pattern): seq<string>
    requires p.Bare?
  {
    FindAllFrom(t, 0, p)
  }

  /** `\b` at position `i`: a word character on exactly one side. */
  predicate Boundary(t: string, i: nat)
    requires i <= |t|
  {
    (i > 0 && IsWord(t[i - 1])) != (i < |t| && IsWord(t[i]))
  }

  /** `\bw\b` at `k`: the word `w`, folding case under `ci`, with a word boundary on each side. */
  predicate WordAt(t: string, k: nat, w: string, ci: bool) {
    k + |w| <= |t| && Boundary(t, k) && LitAt(t, k, w, ci) && Boundary(t, k + |w|)
  }

  /** `re.search(r'\bw\b', t)` succeeds. */
  predicate HasWord(t: string, w: string, ci: bool) {
    exists k :: 0 <= k <= |t| && WordAt(t, k, w, ci)
  }

  /**
   * `\b(C{min,})\b` at `s`, for a class `C` of word characters: inside a run
   * of word characters there is no boundary, so only the maximal run can
   * succeed.
   */
  function BoundedRunAt(t: string, s: nat, k: char -> bool, min: nat): (r: Option<Hit>)
    ensures r.Some? ==> s < r.value.end <= |t| && |r.value.caps| == 1 && r.value.caps[0] == t[s..r.value.end]
    ensures r.Some? ==> r.value.end - s >= min && forall j :: s <= j < r.value.end ==> k(t[j])
  {
    if s >= |t| || !Boundary(t, s) then None
    else
      var n := RunLen(t, s, k);
      if n >= 1 && n >= min && Boundary(t, s + n) then Some(Hit(s + n, [t[s..s + n]])) else None
  }

  /** The first `\b(C{min,})\b` in `t`. */
  function BoundedRun(t: string, k: char -> bool, min: nat): (r: Option<string>)
    ensures r.Some? ==> |r.value| >= 1 && |r.value| >= min && forall j :: 0 <= j < |r.value| ==> k(r.value[j])
  {
    var m := (t: string, s: nat) => BoundedRunAt(t, s, k, min);
    match SearchFrom(t, 0, m)
    case None => None
    case Some((s, h)) =>
      assert forall j :: 0 <= j < |h.caps[0]| ==> h.caps[0][j] == t[s + j];
      Some(h.caps[0])
  }

  /** The first value of `cs` that is present, or `None` when there is none. */
  function FirstSome(cs: seq<Option<string>>): (r: Option<string>)
    ensures r.None? ==> forall j :: 0 <= j < |cs| ==> cs[j].None?
  {
    if cs == [] then None
    else if cs[0].Some? then cs[0]
    else
      var r := FirstSome(cs[1..]);
      assert forall j :: 1 <= j < |cs| ==> cs[1..][j - 1] == cs[j];
      r
  }

  /** A present value with none before it is the one `FirstSome` returns. */
  lemma {:induction false} FirstSomeAt(cs: seq<Option<string>>, i: nat)
    requires i < |cs| && cs[i].Some?
    requires forall j :: 0 <= j < i ==> cs[j].None?
    ensures FirstSome(cs) == cs[i]
  {
    if i > 0 {
      assert cs[1..][i - 1] == cs[i];
      FirstSomeAt(cs[1..], i - 1);
    }
  }

  /** What `FirstSome` returns is a present value with none before it. */
  lemma {:induction false} FirstSomeFrom(cs: seq<Option<string>>)
    ensures FirstSome(cs).Some? ==>
              exists i :: 0 <= i < |cs| && cs[i] == FirstSome(cs) && forall j :: 0 <= j < i ==> cs[j].None?
  {
    if cs != [] && cs[0].None? && FirstSome(cs).Some? {
      var rest := cs[1..];
      FirstSomeFrom(rest);
      var i :| 0 <= i < |rest| && rest[i] == FirstSome(rest) && forall j :: 0 <= j < i ==> rest[j].None?;
      assert cs[i + 1] == rest[i];
      assert forall j :: 1 <= j < i + 1 ==> cs[j] == rest[j - 1];
    }
  }

  /** The capture of each pattern, in order. */
  function Captures(t: string, pats: seq<Pattern>): (cs: seq<Option<string>>)
    ensures |cs| == |pats|
    ensures forall j :: 0 <= j < |pats| ==> cs[j] == Capture(t, pats[j])
  {
    seq(|pats|, j requires 0 <= j < |pats| => Capture(t, pats[j]))
  }

  /**
   * A list of patterns tried in order until one matches, as the extractors'
   * `for pattern in patterns: ... break` loops do: the capture of the first
   * pattern that matches.
   */
  function FirstCapture(t: string, pats: seq<Pattern>): (r: Option<string>)
    ensures r.None? ==> forall j :: 0 <= j < |pats| ==> Capture(t, pats[j]).None?
  {
    FirstSome(Captures(t, pats))
  }

  /** One step of the loop: the first pattern if it matches, else the rest of the list. */
  lemma FirstCaptureStep(t: string, pats: seq<Pattern>)
    requires pats != []
    ensures FirstCapture(t, pats) == if Capture(t, pats[0]).Some? then Capture(t, pats[0]) else FirstCapture(t, pats[1..])
  {
    var cs := Captures(t, pats);
    assert cs[1..] == Captures(t, pats[1..]);
  }

  /** The capture of the first pattern that matches is the one returned. */
  lemma FirstCaptureAt(t: string, pats: seq<Pattern>, i: nat)
    requires i < |pats| && Capture(t, pats[i]).Some?
    requires forall j :: 0 <= j < i ==> Capture(t, pats[j]).None?
    ensures FirstCapture(t, pats) == Capture(t, pats[i])
  {
    FirstSomeAt(Captures(t, pats), i);
  }

  /** Conversely, a capture that is returned comes from the first pattern that matches. */
  lemma FirstCaptureFrom(t: string, pats: seq<Pattern>)
    ensures FirstCapture(t, pats).Some? ==>
              exists i :: 0 <= i < |pats| && Capture(t, pats[i]) == FirstCapture(t, pats)
                          && forall j :: 0 <= j < i ==> Capture(t, pats[j]).None?
  {
    FirstSomeFrom(Captures(t, pats));
  }
}
