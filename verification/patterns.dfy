/** The three regular expressions of the normaliser, as hand-written scanners
    with the semantics of Python's re.search: the match at the leftmost position
    that has one, and at that position the first match in backtracking order.

      salary     ₹?(\d+\.?\d*)\s*-?\s*(\d+\.?\d*)?\s*(lpa|lakh|lac|cr)   scrapper.py:20
      experience (\d+)\s*-?\s*(\d+)?\s*(years|yrs)                         scrapper.py:34
      posted     (\d+)\s*(day|week|month)                                  scrapper.py:56

    Backtracking order. The ends a greedy `\d+\.?\d*` (or `\d+`) can take from
    a digit at q are exactly q+1 .. NumberEnd(q), and the engine tries them
    longest first (an end reached along two paths is retried with the same
    group text, which decides nothing new). Every unit starts with a letter, so
    the `\s*` before the unit is followed by a letter, and one that stops short of
    it leaves whitespace where the letter must be. For the first `\s*`, a shorter
    run with `-?` taking nothing hands the rest of the blanks to the second `\s*`,
    which stops where the longest first run would have led, a state already tried;
    a '-' after the blanks is taken, since with `-?` empty it would be left where
    a digit or a unit letter must begin. So each `\s*` is tried only longest. */
module Patterns {
  import opened Values
  import opened Text

  /** Length of the run of digits at s[i..]. */
  function DigitRun(s: string, i: nat): (n: nat)
    requires i <= |s|
    ensures i + n <= |s|
    ensures i + n == |s| || !IsDigit(s[i + n])
    decreases |s| - i
  {
    if i < |s| && IsDigit(s[i]) then 1 + DigitRun(s, i + 1) else 0
  }

  /** Every character of the run is a digit. */
  lemma {:induction false} DigitRunDigits(s: string, i: nat)
    requires i <= |s|
    ensures forall k :: i <= k < i + DigitRun(s, i) ==> IsDigit(s[k])
    decreases |s| - i
  {
    if i < |s| && IsDigit(s[i]) {
      DigitRunDigits(s, i + 1);
    }
  }

  /** Where a greedy `\s*` starting at i stops. */
  function SkipWs(s: string, i: nat): (j: nat)
    requires i <= |s|
    ensures i <= j <= |s|
    ensures j == |s| || !IsSpace(s[j])
    decreases |s| - i
  {
    if i < |s| && IsSpace(s[i]) then SkipWs(s, i + 1) else i
  }

  /** Everything `\s*` passes over is whitespace. */
  lemma {:induction false} SkipWsSpaces(s: string, i: nat)
    requires i <= |s|
    ensures forall k :: i <= k < SkipWs(s, i) ==> IsSpace(s[k])
    decreases |s| - i
  {
    if i < |s| && IsSpace(s[i]) {
      SkipWsSpaces(s, i + 1);
    }
  }

  /** The longest match of `\d+\.?\d*` (decimal) or `\d+` at a digit at i. */
  function NumberEnd(s: string, i: nat, decimal: bool): (e: nat)
    requires i < |s| && IsDigit(s[i])
    ensures i < e <= |s|
  {
    var a := i + DigitRun(s, i);
    if decimal && a < |s| && s[a] == '.' then a + 1 + DigitRun(s, a + 1) else a
  }

  /** The first alternative of `(u1|u2|...)` that matches at i. */
  function UnitAt(s: string, i: nat, units: seq<string>): (r: Option<string>)
    requires i <= |s|
    ensures r.Some? ==> r.value in units
    decreases |units|
  {
    if units == [] then None
    else if units[0] <= s[i..] then Some(units[0])
    else UnitAt(s, i, units[1..])
  }

  /** u occurs in s at i. */
  predicate At(s: string, i: nat, u: string) { i + |u| <= |s| && s[i..i + |u|] == u }

  /** The unit found is spelled at i. */
  lemma {:induction false} UnitAtSpelled(s: string, i: nat, units: seq<string>)
    requires i <= |s| && UnitAt(s, i, units).Some?
    ensures At(s, i, UnitAt(s, i, units).value)
    decreases |units|
  {
    if !(units[0] <= s[i..]) {
      UnitAtSpelled(s, i, units[1..]);
    }
  }

  /** No unit matches where the text ends or where its next character begins none of them. */
  lemma {:induction false} UnitAtMiss(s: string, i: nat, units: seq<string>)
    requires i <= |s|
    requires forall k :: 0 <= k < |units| ==> units[k] != [] && (i < |s| ==> units[k][0] != s[i])
    ensures UnitAt(s, i, units).None?
    decreases |units|
  {
    if units != [] {
      assert !(units[0] <= s[i..]);
      UnitAtMiss(s, i, units[1..]);
    }
  }

  /** The two shapes of pattern the normaliser uses. */
  datatype Pattern =
      /** `[₹?](num)\s*-?\s*(num)?\s*(unit)` */
    | Range(rupee: bool, decimal: bool, units: seq<string>)
      /** `(\d+)\s*(unit)` */
    | Count(units: seq<string>)
  {
    predicate Decimal() { Range? && decimal }
    function Units(): seq<string> { match this case Range(_, _, us) => us case Count(us) => us }
  }

  const SalaryPattern := Range(true, true, ["lpa", "lakh", "lac", "cr"])
  const ExperiencePattern := Range(false, false, ["years", "yrs"])
  const PostedPattern := Count(["day", "week", "month"])

  /** The groups of one match: the first number, the optional second one and the unit. */
  datatype Match = Match(first: string, second: Option<string>, unit: string)

  /** Where the first '.' of t is, or |t| when there is none. */
  function DotIndex(t: string): (k: nat)
    ensures k <= |t| && (k < |t| ==> t[k] == '.')
    ensures forall i :: 0 <= i < k ==> t[i] != '.'
  {
    if t == [] || t[0] == '.' then 0 else 1 + DotIndex(t[1..])
  }

  /** A number as `\d+\.?\d*` (decimal) or `\d+` spells it: a leading digit, and
      every other character a digit except, for a decimal, its first '.'. */
  predicate IsNumeral(t: string, decimal: bool)
  {
    && |t| > 0 && IsDigit(t[0])
    && forall i :: 0 <= i < |t| ==> IsDigit(t[i]) || (decimal && i == DotIndex(t))
  }

  lemma NumeralSlice(s: string, q: nat, e: nat, decimal: bool)
    requires q < |s| && IsDigit(s[q])
    requires q < e <= NumberEnd(s, q, decimal)
    ensures IsNumeral(s[q..e], decimal)
  {
    var a := q + DigitRun(s, q);
    DigitRunDigits(s, q);
    if a < |s| && s[a] == '.' {
      DigitRunDigits(s, a + 1);
    }
    var t := s[q..e];
    assert forall i :: 0 <= i < |t| ==> t[i] == s[q + i];
    if e > a {
      assert t[a - q] == '.';
      assert DotIndex(t) == a - q;
    }
  }

  // ---------------------------------------------------------------------------
  // The two scans of a regex engine: group ends tried longest first, and start
  // positions tried leftmost first.

  /** The first of e, e - 1, ..., lo + 1 at which `at` yields a result, with that result. */
  function Longest<T>(at: nat -> Option<T>, lo: nat, e: nat): (r: Option<(nat, T)>)
    ensures r.Some? ==> lo < r.value.0 <= e
    decreases e
  {
    if e <= lo then None
    else
      match at(e)
      case Some(x) => Some((e, x))
      case None => Longest(at, lo, e - 1)
  }

  /** Backtracking over a greedy group: the longest end whose continuation matches is
      taken, and the group fails only when no end has a matching continuation. */
  lemma {:induction false} LongestIsLongest<T>(at: nat -> Option<T>, lo: nat, e: nat)
    ensures match Longest(at, lo, e)
      case Some((k, x)) => lo < k <= e && at(k) == Some(x) && forall j :: k < j <= e ==> at(j).None?
      case None => forall j :: lo < j <= e ==> at(j).None?
    decreases e
  {
    if e > lo && at(e).None? {
      LongestIsLongest(at, lo, e - 1);
    }
  }

  /** The first position from p to n at which `at` yields a result, with that result. */
  function Leftmost<T>(at: nat -> Option<T>, p: nat, n: nat): Option<(nat, T)>
    requires p <= n
    decreases n - p
  {
    match at(p)
    case Some(x) => Some((p, x))
    case None => if p == n then None else Leftmost(at, p + 1, n)
  }

  /** re.search's scan: it finds the leftmost position where the pattern matches,
      and fails only when the pattern matches nowhere. */
  lemma {:induction false} LeftmostIsFirst<T>(at: nat -> Option<T>, p: nat, n: nat)
    requires p <= n
    ensures match Leftmost(at, p, n)
      case Some((i, x)) => p <= i <= n && at(i) == Some(x) && forall j :: p <= j < i ==> at(j).None?
      case None => forall j :: p <= j <= n ==> at(j).None?
    decreases n - p
  {
    if at(p).None? && p < n {
      LeftmostIsFirst(at, p + 1, n);
    }
  }

  // ---------------------------------------------------------------------------
  // The patterns

  /** `\s*(unit)` from k. */
  function UnitAfter(s: string, k: nat, units: seq<string>): (r: Option<string>)
    ensures r.Some? ==> r.value in units
  {
    if k <= |s| then UnitAt(s, SkipWs(s, k), units) else None
  }

  /** `(num)?\s*(unit)` at c, where c is past any whitespace: the group first, its
      ends longest first, then without the group. */
  function OptSecond(s: string, c: nat, decimal: bool, units: seq<string>): Option<(Option<string>, string)>
  {
    var withGroup :=
      if c < |s| && IsDigit(s[c]) then Longest(k => UnitAfter(s, k, units), c, NumberEnd(s, c, decimal)) else None;
    if withGroup.Some? then Some((Some(s[c..withGroup.value.0]), withGroup.value.1))
    else
      var u := if c <= |s| then UnitAt(s, c, units) else None;
      if u.Some? then Some((None, u.value)) else None
  }

  /** Where `\s*-?\s*` starting at e stops: blanks, at most one '-', blanks. */
  function Gap(s: string, e: nat): (c: nat)
    requires e <= |s|
    ensures e <= c <= |s|
  {
    var a := SkipWs(s, e);
    if a < |s| && s[a] == '-' then SkipWs(s, a + 1) else a
  }

  /** What follows the first number when it ends at e: `\s*-?\s*(num)?\s*(unit)`. */
  function AfterFirst(s: string, e: nat, decimal: bool, units: seq<string>): Option<(Option<string>, string)>
  {
    if e > |s| then None else OptSecond(s, Gap(s, e), decimal, units)
  }

  /** Where the first number of a match at p begins: past the optional '₹'. */
  function Start(s: string, p: nat, rupee: bool): (q: nat)
    requires p < |s|
    ensures p <= q <= p + 1
  {
    if rupee && s[p] == '\U{20B9}' then p + 1 else p
  }

  /** `(num)\s*-?\s*(num)?\s*(unit)` at q, the first number's ends longest first. */
  function RangeFrom(s: string, q: nat, decimal: bool, units: seq<string>): Option<Match>
    requires q <= |s|
  {
    if q < |s| && IsDigit(s[q]) then
      var found := Longest(k => AfterFirst(s, k, decimal, units), q, NumberEnd(s, q, decimal));
      if found.Some? then
        Some(Match(s[q..found.value.0], found.value.1.0, found.value.1.1))
      else None
    else None
  }

  /** `(\d+)\s*(unit)` at p. A shorter `\d+` would leave a digit where the unit must begin. */
  function CountAt(s: string, p: nat, units: seq<string>): Option<Match>
    requires p < |s|
  {
    if IsDigit(s[p]) then
      var e := p + DigitRun(s, p);
      var u := UnitAt(s, SkipWs(s, e), units);
      if u.Some? then Some(Match(s[p..e], None, u.value)) else None
    else None
  }

  /** The match of the pattern that starts exactly at p, if any. */
  function MatchAt(s: string, p: nat, pat: Pattern): Option<Match>
  {
    if p >= |s| then None
    else
      match pat
      case Range(rupee, decimal, units) => RangeFrom(s, Start(s, p, rupee), decimal, units)
      case Count(units) => CountAt(s, p, units)
  }

  /** re.search from position p on. */
  function Search(s: string, p: nat, pat: Pattern): Option<(nat, Match)>
    requires p <= |s|
  {
    Leftmost(j => MatchAt(s, j, pat), p, |s|)
  }

  /** Without the optional group, the unit is spelled at c. */
  lemma OptSecondBare(s: string, c: nat, decimal: bool, units: seq<string>, x: (Option<string>, string))
    requires OptSecond(s, c, decimal, units) == Some(x) && x.0.None?
    ensures c <= |s| && x.1 in units && At(s, c, x.1)
  {
    assert c <= |s| && UnitAt(s, c, units) == Some(x.1);
    UnitAtSpelled(s, c, units);
  }

  /** With the optional group, the second numeral is spelled at c, and the unit
      after the blanks that follow it. */
  lemma OptSecondGroup(s: string, c: nat, decimal: bool, units: seq<string>, x: (Option<string>, string))
    requires OptSecond(s, c, decimal, units) == Some(x) && x.0.Some?
    ensures IsNumeral(x.0.value, decimal) && x.1 in units && Placed(s, c, x.0.value, x.1)
  {
    assert c < |s| && IsDigit(s[c]);
    var at := k => UnitAfter(s, k, units);
    var e := NumberEnd(s, c, decimal);
    var w := Longest(at, c, e);
    LongestIsLongest(at, c, e);
    var k := w.value.0;
    assert UnitAfter(s, k, units) == Some(w.value.1);
    assert x == (Some(s[c..k]), w.value.1);
    NumeralSlice(s, c, k, decimal);
    UnitAtSpelled(s, SkipWs(s, k), units);
  }

  /** Where the groups of `(num)?\s*(unit)` at c lie: the second number from c to
      w, then the unit after the blanks that follow it (at c itself without the group). */
  lemma OptSecondSound(s: string, c: nat, decimal: bool, units: seq<string>, x: (Option<string>, string))
    requires OptSecond(s, c, decimal, units) == Some(x)
    ensures x.1 in units
    ensures x.0.None? ==> c <= |s| && At(s, c, x.1)
    ensures x.0.Some? ==> IsNumeral(x.0.value, decimal) && Placed(s, c, x.0.value, x.1)
  {
    if x.0.None? {
      OptSecondBare(s, c, decimal, units, x);
    } else {
      OptSecondGroup(s, c, decimal, units, x);
    }
  }

  lemma AfterFirstSound(s: string, e: nat, decimal: bool, units: seq<string>, x: (Option<string>, string))
    requires AfterFirst(s, e, decimal, units) == Some(x)
    ensures e <= |s| && x.1 in units
    ensures x.0.None? ==> At(s, SkipWs(s, Gap(s, e)), x.1)
    ensures x.0.Some? ==> IsNumeral(x.0.value, decimal) && Placed(s, Gap(s, e), x.0.value, x.1)
  {
    OptSecondSound(s, Gap(s, e), decimal, units, x);
  }

  /** The numeral t is spelled at c, and the unit u after the blanks that follow it. */
  predicate Placed(s: string, c: nat, t: string, u: string)
  {
    At(s, c, t) && At(s, SkipWs(s, c + |t|), u)
  }

  /** The groups of m lie in s in the order of the pattern: the first numeral at q,
      the second one (if any) at c, and the unit after the blanks that follow. */
  predicate Laid(s: string, q: nat, c: nat, m: Match)
  {
    && q + |m.first| <= c <= |s| && At(s, q, m.first)
    && (m.second.None? ==> At(s, SkipWs(s, c), m.unit))
    && (m.second.Some? ==> Placed(s, c, m.second.value, m.unit))
  }

  /** A range match from q is a first numeral at q, and what AfterFirst reads after it. */
  lemma RangeFromParts(s: string, q: nat, decimal: bool, units: seq<string>, m: Match)
    requires q <= |s| && RangeFrom(s, q, decimal, units) == Some(m)
    ensures q < |s| && IsDigit(s[q]) && q < q + |m.first| <= NumberEnd(s, q, decimal)
    ensures m.first == s[q..q + |m.first|]
    ensures AfterFirst(s, q + |m.first|, decimal, units) == Some((m.second, m.unit))
  {
    var at := k => AfterFirst(s, k, decimal, units);
    var e := NumberEnd(s, q, decimal);
    LongestIsLongest(at, q, e);
    var r := Longest(at, q, e).value;
    assert m == Match(s[q..r.0], r.1.0, r.1.1);
    assert q + |m.first| == r.0 && r.1 == (m.second, m.unit);
    assert at(r.0) == Some(r.1);
  }

  /** A first numeral at q ending at k, followed by what AfterFirst reads from k:
      both numerals are spelled as the pattern allows, and the whole match is laid
      out in the text. */
  lemma RangeLaid(s: string, q: nat, k: nat, decimal: bool, units: seq<string>, m: Match)
    requires q < |s| && IsDigit(s[q]) && q < k <= NumberEnd(s, q, decimal) && m.first == s[q..k]
    requires AfterFirst(s, k, decimal, units) == Some((m.second, m.unit))
    ensures m.unit in units && IsNumeral(m.first, decimal)
    ensures m.second.Some? ==> IsNumeral(m.second.value, decimal)
    ensures Laid(s, q, Gap(s, k), m)
  {
    NumeralSlice(s, q, k, decimal);
    AfterFirstSound(s, k, decimal, units, (m.second, m.unit));
  }

  /** A range match from q lays its groups out in the text, in the pattern's order. */
  lemma RangeFromSound(s: string, q: nat, decimal: bool, units: seq<string>, m: Match)
    requires q <= |s| && RangeFrom(s, q, decimal, units) == Some(m)
    ensures m.unit in units && IsNumeral(m.first, decimal)
    ensures m.second.Some? ==> IsNumeral(m.second.value, decimal)
    ensures q + |m.first| <= |s| && Laid(s, q, Gap(s, q + |m.first|), m)
  {
    RangeFromParts(s, q, decimal, units, m);
    RangeLaid(s, q, q + |m.first|, decimal, units, m);
  }

  lemma CountAtSound(s: string, p: nat, units: seq<string>, m: Match)
    requires p < |s| && CountAt(s, p, units) == Some(m)
    ensures m.unit in units && IsNumeral(m.first, false) && m.second.None?
    ensures p + |m.first| <= |s| && Laid(s, p, p + |m.first|, m)
  {
    NumeralSlice(s, p, p + DigitRun(s, p), false);
    UnitAtSpelled(s, SkipWs(s, p + DigitRun(s, p)), units);
  }

  /** A match is made of numerals spelled as the pattern allows and one of its units,
      laid out in the text as the pattern orders them: the first numeral right after
      the optional '₹', then (for a range) the `\s*-?\s*` gap and the optional second
      numeral, then blanks and the unit. */
  lemma MatchIsWellFormed(s: string, p: nat, pat: Pattern, m: Match)
    requires MatchAt(s, p, pat) == Some(m)
    ensures p < |s| && m.unit in pat.Units() && IsNumeral(m.first, pat.Decimal())
    ensures m.second.Some? ==> pat.Range? && IsNumeral(m.second.value, pat.Decimal())
    ensures pat.Count? ==> p + |m.first| <= |s| && Laid(s, p, p + |m.first|, m)
    ensures pat.Range? ==> Start(s, p, pat.rupee) + |m.first| <= |s|
    ensures pat.Range? ==> Laid(s, Start(s, p, pat.rupee), Gap(s, Start(s, p, pat.rupee) + |m.first|), m)
  {
    if pat.Range? {
      RangeFromSound(s, Start(s, p, pat.rupee), pat.decimal, pat.units, m);
    } else {
      CountAtSound(s, p, pat.units, m);
    }
  }

  /** A position where the pattern does not start is skipped by the scan. */
  lemma SearchStep(s: string, p: nat, pat: Pattern)
    requires p < |s| && MatchAt(s, p, pat).None?
    ensures Search(s, p, pat) == Search(s, p + 1, pat)
  {
  }

  /** The scan passes over any stretch of positions where the pattern does not start. */
  lemma {:induction false} SearchSkips(s: string, p: nat, k: nat, pat: Pattern)
    requires p <= k <= |s|
    requires forall i :: p <= i < k ==> MatchAt(s, i, pat).None?
    ensures Search(s, p, pat) == Search(s, k, pat)
    decreases k - p
  {
    if p < k {
      SearchStep(s, p, pat);
      SearchSkips(s, p + 1, k, pat);
    }
  }

  /** Every pattern begins with a number, so text without digits never matches. */
  lemma {:induction false} NoDigitNoMatch(s: string, p: nat, pat: Pattern)
    requires p <= |s|
    requires forall i :: p <= i < |s| ==> !IsDigit(s[i])
    ensures Search(s, p, pat).None?
    decreases |s| - p
  {
    if p < |s| {
      assert MatchAt(s, p, pat).None?;
      SearchStep(s, p, pat);
      NoDigitNoMatch(s, p + 1, pat);
    }
  }

  /** Groups laid out in s spell the unit at some position. */
  lemma LaidSpellsUnit(s: string, q: nat, c: nat, m: Match)
    requires Laid(s, q, c, m)
    ensures exists i: nat :: At(s, i, m.unit)
  {
    if m.second.None? {
      assert At(s, SkipWs(s, c), m.unit);
    } else {
      assert At(s, SkipWs(s, c + |m.second.value|), m.unit);
    }
  }

  /** A match spells one of the pattern's units somewhere in the text. */
  lemma MatchSpellsUnit(s: string, p: nat, pat: Pattern, m: Match)
    requires MatchAt(s, p, pat) == Some(m)
    ensures m.unit in pat.Units() && exists i: nat :: At(s, i, m.unit)
  {
    match pat
    case Range(rupee, decimal, units) =>
      var q := Start(s, p, rupee);
      RangeFromSound(s, q, decimal, units, m);
      LaidSpellsUnit(s, q, Gap(s, q + |m.first|), m);
    case Count(units) =>
      CountAtSound(s, p, units, m);
      LaidSpellsUnit(s, p, p + |m.first|, m);
  }

  /** Text that spells none of a pattern's units never matches it. */
  lemma {:induction false} NoUnitNoMatch(s: string, p: nat, pat: Pattern)
    requires p <= |s|
    requires forall i: nat, u :: u in pat.Units() ==> !At(s, i, u)
    ensures Search(s, p, pat).None?
    decreases |s| - p
  {
    if p < |s| {
      if MatchAt(s, p, pat).Some? {
        MatchSpellsUnit(s, p, pat, MatchAt(s, p, pat).value);
        assert false;
      }
      SearchStep(s, p, pat);
      NoUnitNoMatch(s, p + 1, pat);
    }
  }

  // ---------------------------------------------------------------------------
  // Completeness: text spelled as a pattern orders its parts is matched there

  /** Every character of t is whitespace. */
  predicate AllSpace(t: string) { forall i :: 0 <= i < |t| ==> IsSpace(t[i]) }

  /** Nothing at k can extend a number that ends there. */
  predicate Ends(s: string, k: nat) { k == |s| || (k < |s| && !IsDigit(s[k]) && s[k] != '.') }

  /** u begins with a lower-case letter, as every unit of the patterns does. */
  predicate Lettered(u: string) { u != [] && 'a' <= u[0] <= 'z' }

  /** No alternative of the group is a prefix of another, so at most one matches. */
  predicate PrefixFree(units: seq<string>)
  {
    forall j, k :: 0 <= j < |units| && 0 <= k < |units| && j != k ==> !(units[j] <= units[k])
  }

  /** Two strings that differ at i are neither a prefix of the other. */
  lemma Differ(x: string, y: string, i: nat)
    requires i < |x| && i < |y| && x[i] != y[i]
    ensures !(x <= y) && !(y <= x)
  {
  }

  /** The units of the three patterns begin with letters, and none is a prefix of another. */
  lemma UnitListsAreGood()
    ensures forall u :: u in SalaryPattern.units ==> Lettered(u)
    ensures forall u :: u in ExperiencePattern.units ==> Lettered(u)
    ensures forall u :: u in PostedPattern.units ==> Lettered(u)
    ensures PrefixFree(SalaryPattern.units) && PrefixFree(ExperiencePattern.units)
    ensures PrefixFree(PostedPattern.units)
  {
    var us := SalaryPattern.units;
    Differ(us[0], us[1], 1);
    Differ(us[0], us[2], 1);
    Differ(us[0], us[3], 0);
    Differ(us[1], us[2], 2);
    Differ(us[1], us[3], 0);
    Differ(us[2], us[3], 0);
    Differ(ExperiencePattern.units[0], ExperiencePattern.units[1], 1);
    var ps := PostedPattern.units;
    Differ(ps[0], ps[1], 0);
    Differ(ps[0], ps[2], 0);
    Differ(ps[1], ps[2], 0);
  }

  lemma {:induction false} SkipWsOver(s: string, i: nat, j: nat)
    requires i <= j <= |s|
    requires forall k :: i <= k < j ==> IsSpace(s[k])
    requires j == |s| || !IsSpace(s[j])
    ensures SkipWs(s, i) == j
    decreases j - i
  {
    if i < j {
      SkipWsOver(s, i + 1, j);
    }
  }

  lemma {:induction false} DigitRunOver(s: string, i: nat, j: nat)
    requires i <= j <= |s|
    requires forall k :: i <= k < j ==> IsDigit(s[k])
    requires j == |s| || !IsDigit(s[j])
    ensures DigitRun(s, i) == j - i
    decreases j - i
  {
    if i < j {
      DigitRunOver(s, i + 1, j);
    }
  }

  /** A numeral spelled at q and not followed by a digit or a '.' is what the
      greedy number group takes. */
  lemma NumberEndOver(s: string, q: nat, t: string, decimal: bool)
    requires At(s, q, t) && IsNumeral(t, decimal) && Ends(s, q + |t|)
    ensures q < |s| && IsDigit(s[q]) && NumberEnd(s, q, decimal) == q + |t|
  {
    var d := DotIndex(t);
    var e := q + |t|;
    forall k | q <= k < e && k != q + d
      ensures IsDigit(s[k])
    {
      assert s[k] == s[q..e][k - q] == t[k - q];
    }
    if d == |t| {
      DigitRunOver(s, q, e);
    } else {
      assert s[q + d] == s[q..e][d] == '.';
      DigitRunOver(s, q, q + d);
      DigitRunOver(s, q + d + 1, e);
    }
  }

  /** u is spelled at i in s exactly when s holds x + y there, split after x. */
  lemma AtAppend(s: string, i: nat, x: string, y: string)
    requires At(s, i, x + y)
    ensures At(s, i, x) && At(s, i + |x|, y)
  {
    assert s[i..i + |x|] == s[i..i + |x + y|][..|x|] == (x + y)[..|x|] == x;
    assert s[i + |x|..i + |x| + |y|] == s[i..i + |x + y|][|x|..] == (x + y)[|x|..] == y;
  }

  /** `\s*-?\s*` over blanks, at most one '-', and blanks, stops where they end. */
  lemma GapOver(s: string, i: nat, g1: string, dash: string, g2: string)
    requires At(s, i, g1) && At(s, i + |g1|, dash) && At(s, i + |g1| + |dash|, g2)
    requires AllSpace(g1) && AllSpace(g2) && (dash == "" || dash == "-")
    requires i + |g1| + |dash| + |g2| < |s|
    requires !IsSpace(s[i + |g1| + |dash| + |g2|]) && s[i + |g1| + |dash| + |g2|] != '-'
    ensures Gap(s, i) == i + |g1| + |dash| + |g2|
  {
    var k := i + |g1| + |dash|;
    var j := k + |g2|;
    assert forall n :: i <= n < i + |g1| ==> s[n] == s[i..i + |g1|][n - i];
    assert forall n :: k <= n < j ==> s[n] == s[k..j][n - k];
    if dash == "" {
      SkipWsOver(s, i, j);
    } else {
      assert s[i + |g1|] == s[i + |g1|..k][0];
      SkipWsOver(s, i, i + |g1|);
      SkipWsOver(s, k, j);
    }
  }

  lemma PrefixesOfOne(x: string, y: string, z: string)
    requires x <= z && y <= z
    ensures x <= y || y <= x
  {
    if |x| <= |y| {
      assert x == z[..|x|] == y[..|x|];
    } else {
      assert y == z[..|y|] == x[..|y|];
    }
  }

  /** Among prefix-free units, the one spelled at i is the alternative that matches. */
  lemma {:induction false} UnitAtHit(s: string, i: nat, units: seq<string>, u: string)
    requires i <= |s| && PrefixFree(units) && u in units && At(s, i, u)
    ensures UnitAt(s, i, units) == Some(u)
    decreases |units|
  {
    assert u == s[i..][..|u|];
    if units[0] != u {
      var k :| 0 <= k < |units| && units[k] == u;
      assert !(units[0] <= units[k]) && !(units[k] <= units[0]);
      if units[0] <= s[i..] {
        PrefixesOfOne(units[0], u, s[i..]);
      }
      assert PrefixFree(units[1..]) by {
        forall j, k | 0 <= j < |units| - 1 && 0 <= k < |units| - 1 && j != k
          ensures !(units[1..][j] <= units[1..][k])
        {
          assert units[1..][j] == units[j + 1] && units[1..][k] == units[k + 1];
        }
      }
      assert u == units[1..][k - 1];
      UnitAtHit(s, i, units[1..], u);
    }
  }

  /** `(num)?\s*(unit)` at a digit takes the whole number when a unit follows it. */
  lemma OptSecondTakes(s: string, c: nat, decimal: bool, units: seq<string>, k: nat, u: string)
    requires c < |s| && IsDigit(s[c]) && NumberEnd(s, c, decimal) == k
    requires UnitAfter(s, k, units) == Some(u)
    ensures OptSecond(s, c, decimal, units) == Some((Some(s[c..k]), u))
  {
    var at := (j: nat) => UnitAfter(s, j, units);
    assert at(k) == Some(u);
    assert Longest(at, c, k) == Some((k, u));
  }

  /** `(num)?\s*(unit)` at c over a numeral, blanks and a unit takes the numeral. */
  lemma OptSecondHit(s: string, c: nat, decimal: bool, units: seq<string>, b: string, w: string, u: string)
    requires At(s, c, b) && At(s, c + |b|, w) && At(s, c + |b| + |w|, u)
    requires IsNumeral(b, decimal) && AllSpace(w) && Lettered(u) && u in units && PrefixFree(units)
    ensures OptSecond(s, c, decimal, units) == Some((Some(b), u))
  {
    var k := c + |b|;
    var j := k + |w|;
    assert s[j] == s[j..j + |u|][0];
    assert forall n :: k <= n < j ==> s[n] == s[k..j][n - k];
    if w == [] {
      assert Ends(s, k);
    } else {
      assert s[k] == s[k..j][0];
    }
    NumberEndOver(s, c, b, decimal);
    SkipWsOver(s, k, j);
    UnitAtHit(s, j, units, u);
    OptSecondTakes(s, c, decimal, units, k, u);
  }

  /** `(num)?\s*(unit)` at c where a unit is spelled takes no numeral. */
  lemma OptSecondBareHit(s: string, c: nat, decimal: bool, units: seq<string>, u: string)
    requires At(s, c, u) && Lettered(u) && u in units && PrefixFree(units)
    ensures OptSecond(s, c, decimal, units) == Some((None, u))
  {
    assert s[c] == s[c..c + |u|][0];
    UnitAtHit(s, c, units, u);
  }

  lemma AfterFirstTakes(s: string, e: nat, decimal: bool, units: seq<string>, c: nat, x: (Option<string>, string))
    requires e <= |s| && Gap(s, e) == c && OptSecond(s, c, decimal, units) == Some(x)
    ensures AfterFirst(s, e, decimal, units) == Some(x)
  {
  }

  /** After a first number ending at e: a gap, a second numeral, blanks and a unit. */
  lemma AfterFirstTwo(s: string, e: nat, decimal: bool, units: seq<string>,
                      g1: string, dash: string, g2: string, b: string, w: string, u: string)
    requires At(s, e, g1) && At(s, e + |g1|, dash) && At(s, e + |g1| + |dash|, g2)
    requires At(s, e + |g1| + |dash| + |g2|, b) && At(s, e + |g1| + |dash| + |g2| + |b|, w) && At(s, e + |g1| + |dash| + |g2| + |b| + |w|, u)
    requires AllSpace(g1) && AllSpace(g2) && (dash == "" || dash == "-")
    requires IsNumeral(b, decimal) && AllSpace(w) && Lettered(u) && u in units && PrefixFree(units)
    ensures AfterFirst(s, e, decimal, units) == Some((Some(b), u))
  {
    var c := e + |g1| + |dash| + |g2|;
    assert s[c] == s[c..c + |b|][0];
    GapOver(s, e, g1, dash, g2);
    OptSecondHit(s, c, decimal, units, b, w, u);
    AfterFirstTakes(s, e, decimal, units, c, (Some(b), u));
  }

  /** After a first number ending at e: a gap and a unit, with no second numeral. */
  lemma AfterFirstOne(s: string, e: nat, decimal: bool, units: seq<string>,
                      g1: string, dash: string, g2: string, u: string)
    requires At(s, e, g1) && At(s, e + |g1|, dash) && At(s, e + |g1| + |dash|, g2)
    requires At(s, e + |g1| + |dash| + |g2|, u)
    requires AllSpace(g1) && AllSpace(g2) && (dash == "" || dash == "-")
    requires Lettered(u) && u in units && PrefixFree(units)
    ensures AfterFirst(s, e, decimal, units) == Some((None, u))
  {
    var c := e + |g1| + |dash| + |g2|;
    assert s[c] == s[c..c + |u|][0];
    GapOver(s, e, g1, dash, g2);
    OptSecondBareHit(s, c, decimal, units, u);
    AfterFirstTakes(s, e, decimal, units, c, (None, u));
  }

  /** A range match from a digit takes the whole first number when what follows it matches. */
  lemma RangeFromTakes(s: string, q: nat, decimal: bool, units: seq<string>, k: nat, x: (Option<string>, string))
    requires q < |s| && IsDigit(s[q]) && NumberEnd(s, q, decimal) == k
    requires AfterFirst(s, k, decimal, units) == Some(x)
    ensures RangeFrom(s, q, decimal, units) == Some(Match(s[q..k], x.0, x.1))
  {
    var at := (j: nat) => AfterFirst(s, j, decimal, units);
    assert at(k) == Some(x);
    assert Longest(at, q, k) == Some((k, x));
  }

  /** A range match from q takes the whole first numeral when what follows it matches. */
  lemma RangeFromHit(s: string, q: nat, decimal: bool, units: seq<string>, a: string, x: (Option<string>, string))
    requires At(s, q, a) && IsNumeral(a, decimal) && Ends(s, q + |a|)
    requires AfterFirst(s, q + |a|, decimal, units) == Some(x)
    ensures RangeFrom(s, q, decimal, units) == Some(Match(a, x.0, x.1))
  {
    NumberEndOver(s, q, a, decimal);
    RangeFromTakes(s, q, decimal, units, q + |a|, x);
  }

  lemma RangeMatchTakes(s: string, p: nat, rupee: bool, decimal: bool, units: seq<string>, m: Match)
    requires p < |s| && RangeFrom(s, Start(s, p, rupee), decimal, units) == Some(m)
    ensures MatchAt(s, p, Range(rupee, decimal, units)) == Some(m)
  {
  }

  lemma CountMatchTakes(s: string, p: nat, units: seq<string>, k: nat, u: string)
    requires p < |s| && IsDigit(s[p]) && p + DigitRun(s, p) == k && UnitAt(s, SkipWs(s, k), units) == Some(u)
    ensures MatchAt(s, p, Count(units)) == Some(Match(s[p..k], None, u))
  {
  }

  lemma FirstOf(s: string, i: nat, x: string)
    requires At(s, i, x) && x != []
    ensures i < |s| && s[i] == x[0]
  {
    assert s[i] == s[i..i + |x|][0];
  }

  /** The gap after a first numeral begins with a blank or the '-' when it is not empty. */
  lemma GapStartEnds(s: string, i: nat, g1: string, dash: string, g2: string)
    requires At(s, i, g1) && At(s, i + |g1|, dash) && At(s, i + |g1| + |dash|, g2)
    requires AllSpace(g1) && AllSpace(g2) && (dash == "" || dash == "-")
    requires g1 != "" || dash != "" || g2 != ""
    ensures Ends(s, i)
  {
    if g1 != [] {
      FirstOf(s, i, g1);
    } else if dash != [] {
      FirstOf(s, i, dash);
    } else {
      FirstOf(s, i, g2);
    }
  }

  /** What follows a first number ending at e when a gap, a second numeral, blanks
      and a unit are spelled after it: the number ends there, and the rest matches. */
  lemma AfterNumeralTwo(s: string, e: nat, decimal: bool, units: seq<string>,
                        g1: string, dash: string, g2: string, b: string, w: string, u: string)
    requires At(s, e, g1) && At(s, e + |g1|, dash) && At(s, e + |g1| + |dash|, g2)
    requires At(s, e + |g1| + |dash| + |g2|, b) && At(s, e + |g1| + |dash| + |g2| + |b|, w)
    requires At(s, e + |g1| + |dash| + |g2| + |b| + |w|, u)
    requires IsNumeral(b, decimal)
    requires AllSpace(g1) && AllSpace(g2) && (dash == "" || dash == "-") && (g1 != "" || dash != "" || g2 != "")
    requires AllSpace(w) && Lettered(u) && u in units && PrefixFree(units)
    ensures Ends(s, e) && AfterFirst(s, e, decimal, units) == Some((Some(b), u))
  {
    GapStartEnds(s, e, g1, dash, g2);
    AfterFirstTwo(s, e, decimal, units, g1, dash, g2, b, w, u);
  }

  /** Completeness of a range pattern with both numbers: a numeral at a digit, a gap
      of blanks and at most one '-', a second numeral, blanks and one of the units
      make a match with exactly those groups. The gap must not be empty, or the two
      numerals would run together into one. */
  lemma RangeSpelledTwo(s: string, p: nat, decimal: bool, units: seq<string>,
                        a: string, g1: string, dash: string, g2: string, b: string, w: string, u: string)
    requires At(s, p, a) && At(s, p + |a|, g1) && At(s, p + |a| + |g1|, dash)
    requires At(s, p + |a| + |g1| + |dash|, g2) && At(s, p + |a| + |g1| + |dash| + |g2|, b)
    requires At(s, p + |a| + |g1| + |dash| + |g2| + |b|, w) && At(s, p + |a| + |g1| + |dash| + |g2| + |b| + |w|, u)
    requires IsNumeral(a, decimal) && IsNumeral(b, decimal)
    requires AllSpace(g1) && AllSpace(g2) && (dash == "" || dash == "-") && (g1 != "" || dash != "" || g2 != "")
    requires AllSpace(w) && Lettered(u) && u in units && PrefixFree(units)
    ensures RangeFrom(s, p, decimal, units) == Some(Match(a, Some(b), u))
  {
    AfterNumeralTwo(s, p + |a|, decimal, units, g1, dash, g2, b, w, u);
    RangeFromHit(s, p, decimal, units, a, (Some(b), u));
  }

  /** What follows a first number ending at e when a gap and a unit are spelled
      after it: the number ends there, and the rest matches. */
  lemma AfterNumeralOne(s: string, e: nat, decimal: bool, units: seq<string>,
                        g1: string, dash: string, g2: string, u: string)
    requires At(s, e, g1) && At(s, e + |g1|, dash) && At(s, e + |g1| + |dash|, g2)
    requires At(s, e + |g1| + |dash| + |g2|, u)
    requires AllSpace(g1) && AllSpace(g2) && (dash == "" || dash == "-")
    requires Lettered(u) && u in units && PrefixFree(units)
    ensures Ends(s, e) && AfterFirst(s, e, decimal, units) == Some((None, u))
  {
    if g1 != [] || dash != [] || g2 != [] {
      GapStartEnds(s, e, g1, dash, g2);
    } else {
      FirstOf(s, e, u);
    }
    AfterFirstOne(s, e, decimal, units, g1, dash, g2, u);
  }

  /** Completeness of a range pattern with one number: a numeral at a digit, a gap
      of blanks and at most one '-', and one of the units make a match without a
      second number. */
  lemma RangeSpelledOne(s: string, p: nat, decimal: bool, units: seq<string>,
                        a: string, g1: string, dash: string, g2: string, u: string)
    requires At(s, p, a) && At(s, p + |a|, g1) && At(s, p + |a| + |g1|, dash)
    requires At(s, p + |a| + |g1| + |dash|, g2) && At(s, p + |a| + |g1| + |dash| + |g2|, u)
    requires IsNumeral(a, decimal)
    requires AllSpace(g1) && AllSpace(g2) && (dash == "" || dash == "-")
    requires Lettered(u) && u in units && PrefixFree(units)
    ensures RangeFrom(s, p, decimal, units) == Some(Match(a, None, u))
  {
    AfterNumeralOne(s, p + |a|, decimal, units, g1, dash, g2, u);
    RangeFromHit(s, p, decimal, units, a, (None, u));
  }

  /** Completeness of the count pattern: digits, blanks and one of the units make a
      match with those groups. */
  lemma CountSpelled(s: string, p: nat, units: seq<string>, d: string, w: string, u: string)
    requires At(s, p, d) && At(s, p + |d|, w) && At(s, p + |d| + |w|, u)
    requires IsNumeral(d, false) && AllSpace(w) && Lettered(u) && u in units && PrefixFree(units)
    ensures MatchAt(s, p, Count(units)) == Some(Match(d, None, u))
  {
    var k := p + |d|;
    var j := k + |w|;
    FirstOf(s, p, d);
    FirstOf(s, j, u);
    assert forall n :: k <= n < j ==> s[n] == s[k..j][n - k];
    if w != [] {
      FirstOf(s, k, w);
    }
    NumberEndOver(s, p, d, false);
    SkipWsOver(s, k, j);
    UnitAtHit(s, j, units, u);
    CountMatchTakes(s, p, units, k, u);
  }

  /** Where no number can begin at p, the pattern does not start there. */
  lemma RangeFromNone(s: string, q: nat, decimal: bool, units: seq<string>)
    requires q <= |s| && (q == |s| || !IsDigit(s[q]))
    ensures RangeFrom(s, q, decimal, units).None?
  {
  }

  /** No pattern starts at a position that holds neither a digit nor, for a pattern
      with '₹', a '₹' right before a digit. */
  lemma MatchAtNeedsDigit(s: string, j: nat, pat: Pattern)
    requires j < |s| && !IsDigit(s[j])
    requires pat.Range? && pat.rupee && s[j] == '\U{20B9}' ==> j + 1 < |s| && !IsDigit(s[j + 1])
    ensures MatchAt(s, j, pat).None?
  {
    if pat.Range? {
      RangeFromNone(s, Start(s, j, pat.rupee), pat.decimal, pat.units);
    }
  }

  /** A '₹' right before a digit starts the same match as the digit. */
  lemma RupeeStartsSame(s: string, n: nat, pat: Pattern)
    requires pat.Range? && pat.rupee && 0 < n < |s| && s[n - 1] == '\U{20B9}' && IsDigit(s[n])
    ensures MatchAt(s, n - 1, pat) == MatchAt(s, n, pat)
  {
    assert Start(s, n - 1, pat.rupee) == n == Start(s, n, pat.rupee);
  }

  lemma SearchHere(s: string, k: nat, pat: Pattern, m: Match)
    requires k <= |s| && MatchAt(s, k, pat) == Some(m)
    ensures Search(s, k, pat) == Some((k, m))
  {
  }

  /** No match starts in a digit-free stretch, save where a '₹' at its end stands
      right before a digit. */
  lemma NoMatchBefore(s: string, k: nat, pat: Pattern)
    requires k <= |s| && DigitFree(s[..k])
    requires pat.Range? && pat.rupee && 0 < k && s[k - 1] == '\U{20B9}' ==> k < |s| && !IsDigit(s[k])
    ensures forall j :: 0 <= j < k ==> MatchAt(s, j, pat).None?
  {
    assert forall j :: 0 <= j < k ==> s[j] == s[..k][j];
    forall j | 0 <= j < k
      ensures MatchAt(s, j, pat).None?
    {
      MatchAtNeedsDigit(s, j, pat);
    }
  }

  /** re.search over text whose first digit is where the pattern matches finds that
      match: nothing before a digit can start one, except a '₹' right before it,
      which starts the same match. */
  lemma SearchFinds(s: string, n: nat, pat: Pattern, m: Match)
    requires n < |s| && IsDigit(s[n]) && DigitFree(s[..n]) && MatchAt(s, n, pat) == Some(m)
    ensures Search(s, 0, pat).Some? && Search(s, 0, pat).value.1 == m
  {
    var k := n;
    if pat.Range? && pat.rupee && n > 0 && s[n - 1] == '\U{20B9}' {
      RupeeStartsSame(s, n, pat);
      k := n - 1;
      assert s[..k] == s[..n][..k];
    }
    NoMatchBefore(s, k, pat);
    SearchSkips(s, 0, k, pat);
    SearchHere(s, k, pat, m);
  }

  /** A whole text is spelled at its start. */
  lemma AtWhole(s: string)
    ensures At(s, 0, s)
  {
  }

  /** Where the parts of a text made of nine parts lie in it. */
  lemma LaidOutTwo(t: string, pre: string, a: string, g1: string, dash: string,
                   g2: string, b: string, w: string, u: string, rest: string)
    requires t == pre + a + g1 + dash + g2 + b + w + u + rest
    ensures t[..|pre|] == pre
    ensures var p := |pre|; At(t, p, a) && At(t, p + |a|, g1) && At(t, p + |a| + |g1|, dash)
    ensures At(t, |pre| + |a| + |g1| + |dash|, g2) && At(t, |pre| + |a| + |g1| + |dash| + |g2|, b)
    ensures At(t, |pre| + |a| + |g1| + |dash| + |g2| + |b|, w) && At(t, |pre| + |a| + |g1| + |dash| + |g2| + |b| + |w|, u)
  {
    AtWhole(t);
    AtAppend(t, 0, pre + a + g1 + dash + g2 + b + w + u, rest);
    AtAppend(t, 0, pre + a + g1 + dash + g2 + b + w, u);
    AtAppend(t, 0, pre + a + g1 + dash + g2 + b, w);
    AtAppend(t, 0, pre + a + g1 + dash + g2, b);
    AtAppend(t, 0, pre + a + g1 + dash, g2);
    AtAppend(t, 0, pre + a + g1, dash);
    AtAppend(t, 0, pre + a, g1);
    AtAppend(t, 0, pre, a);
  }

  /** Where the parts of a text made of seven parts lie in it. */
  lemma LaidOutOne(t: string, pre: string, a: string, g1: string, dash: string, g2: string, u: string, rest: string)
    requires t == pre + a + g1 + dash + g2 + u + rest
    ensures t[..|pre|] == pre
    ensures var p := |pre|; At(t, p, a) && At(t, p + |a|, g1) && At(t, p + |a| + |g1|, dash)
    ensures At(t, |pre| + |a| + |g1| + |dash|, g2) && At(t, |pre| + |a| + |g1| + |dash| + |g2|, u)
  {
    AtWhole(t);
    AtAppend(t, 0, pre + a + g1 + dash + g2 + u, rest);
    AtAppend(t, 0, pre + a + g1 + dash + g2, u);
    AtAppend(t, 0, pre + a + g1 + dash, g2);
    AtAppend(t, 0, pre + a + g1, dash);
    AtAppend(t, 0, pre + a, g1);
    AtAppend(t, 0, pre, a);
  }

  /** Where the parts of a text made of five parts lie in it. */
  lemma LaidOutCount(t: string, pre: string, d: string, w: string, u: string, rest: string)
    requires t == pre + d + w + u + rest
    ensures t[..|pre|] == pre
    ensures At(t, |pre|, d) && At(t, |pre| + |d|, w) && At(t, |pre| + |d| + |w|, u)
  {
    AtWhole(t);
    AtAppend(t, 0, pre + d + w + u, rest);
    AtAppend(t, 0, pre + d + w, u);
    AtAppend(t, 0, pre + d, w);
    AtAppend(t, 0, pre, d);
  }

  /** re.search of a range pattern over digit-free text, a numeral, a non-empty gap,
      a second numeral, blanks, one of the units and anything after finds those groups. */
  lemma RangeSearchTwo(t: string, pat: Pattern, pre: string, a: string, g1: string, dash: string,
                       g2: string, b: string, w: string, u: string, rest: string)
    requires t == pre + a + g1 + dash + g2 + b + w + u + rest
    requires pat.Range? && PrefixFree(pat.units) && Lettered(u) && u in pat.units
    requires DigitFree(pre) && IsNumeral(a, pat.decimal) && IsNumeral(b, pat.decimal)
    requires AllSpace(g1) && AllSpace(g2) && (dash == "" || dash == "-") && (g1 != "" || dash != "" || g2 != "")
    requires AllSpace(w)
    ensures Search(t, 0, pat).Some? && Search(t, 0, pat).value.1 == Match(a, Some(b), u)
  {
    var n := |pre|;
    LaidOutTwo(t, pre, a, g1, dash, g2, b, w, u, rest);
    RangeSpelledTwo(t, n, pat.decimal, pat.units, a, g1, dash, g2, b, w, u);
    FirstOf(t, n, a);
    RangeMatchTakes(t, n, pat.rupee, pat.decimal, pat.units, Match(a, Some(b), u));
    SearchFinds(t, n, pat, Match(a, Some(b), u));
  }

  /** re.search of a range pattern over digit-free text, a numeral, a gap, one of
      the units and anything after finds a match without a second number. */
  lemma RangeSearchOne(t: string, pat: Pattern, pre: string, a: string, g1: string, dash: string,
                       g2: string, u: string, rest: string)
    requires t == pre + a + g1 + dash + g2 + u + rest
    requires pat.Range? && PrefixFree(pat.units) && Lettered(u) && u in pat.units
    requires DigitFree(pre) && IsNumeral(a, pat.decimal)
    requires AllSpace(g1) && AllSpace(g2) && (dash == "" || dash == "-")
    ensures Search(t, 0, pat).Some? && Search(t, 0, pat).value.1 == Match(a, None, u)
  {
    var n := |pre|;
    LaidOutOne(t, pre, a, g1, dash, g2, u, rest);
    RangeSpelledOne(t, n, pat.decimal, pat.units, a, g1, dash, g2, u);
    FirstOf(t, n, a);
    RangeMatchTakes(t, n, pat.rupee, pat.decimal, pat.units, Match(a, None, u));
    SearchFinds(t, n, pat, Match(a, None, u));
  }

  /** re.search of the count pattern over digit-free text, digits, blanks, one of the
      units and anything after finds those groups. */
  lemma CountSearch(t: string, units: seq<string>, pre: string, d: string, w: string, u: string, rest: string)
    requires t == pre + d + w + u + rest
    requires PrefixFree(units) && Lettered(u) && u in units
    requires DigitFree(pre) && IsNumeral(d, false) && AllSpace(w)
    ensures Search(t, 0, Count(units)).Some? && Search(t, 0, Count(units)).value.1 == Match(d, None, u)
  {
    var n := |pre|;
    LaidOutCount(t, pre, d, w, u, rest);
    CountSpelled(t, n, units, d, w, u);
    FirstOf(t, n, d);
    SearchFinds(t, n, Count(units), Match(d, None, u));
  }

  // ---------------------------------------------------------------------------
  // Numbers: float(...) and int(...) as exact values

  function DigitValue(c: char): nat { if IsDigit(c) then c as int - '0' as int else 0 }

  /** int(t) for a string of digits. */
  function DigitsValue(t: string): nat
    decreases |t|
  {
    if t == [] then 0 else 10 * DigitsValue(t[..|t| - 1]) + DigitValue(t[|t| - 1])
  }

  function Pow10(n: nat): (r: nat)
    ensures r >= 1
  {
    if n == 0 then 1 else 10 * Pow10(n - 1)
  }

  /** The value of the digits y read after a '.', exactly. */
  function Fraction(y: string): (r: real)
    ensures r >= 0.0
    decreases |y|
  {
    if y == [] then 0.0 else (DigitValue(y[0]) as real + Fraction(y[1..])) / 10.0
  }

  /** float(t) for a numeral, exactly. */
  function NumeralValue(t: string): (r: real)
    ensures r >= 0.0
  {
    var k := DotIndex(t);
    if k == |t| then DigitsValue(t) as real
    else DigitsValue(t[..k]) as real + Fraction(t[k + 1..])
  }

  /** The digits of x followed by those of y spell x's number shifted left by |y|
      places, plus y's. */
  lemma {:induction false} DigitsAppend(x: string, y: string)
    ensures DigitsValue(x + y) == DigitsValue(x) * Pow10(|y|) + DigitsValue(y)
    decreases |y|
  {
    if y == [] {
      assert x + y == x;
    } else {
      var y', c := y[..|y| - 1], y[|y| - 1];
      assert (x + y)[..|x + y| - 1] == x + y';
      assert (x + y)[|x + y| - 1] == c;
      DigitsAppend(x, y');
      ShiftDigit(DigitsValue(x), Pow10(|y'|), DigitsValue(y'), DigitValue(c));
    }
  }

  lemma ShiftDigit(a: int, b: int, c: int, d: int)
    ensures 10 * (a * b + c) + d == a * (10 * b) + (10 * c + d)
  {
  }

  /** v times ten to the n, one decimal place at a time. */
  function Shift(v: real, n: nat): real
  {
    if n == 0 then v else 10.0 * Shift(v, n - 1)
  }

  /** Shifting by n places multiplies by ten to the n. */
  lemma {:induction false} ShiftIsProduct(v: real, n: nat)
    ensures Shift(v, n) == v * Pow10(n) as real
  {
    if n > 0 {
      ShiftIsProduct(v, n - 1);
      ShiftTen(v, Shift(v, n - 1), Pow10(n - 1));
    }
  }

  lemma ShiftTen(v: real, s: real, p: nat)
    requires s == v * p as real
    ensures 10.0 * s == v * (10 * p) as real
  {
  }

  lemma {:induction false} ShiftSum(v: real, a: real, b: real, n: nat)
    requires v == a + b
    ensures Shift(v, n) == Shift(a, n) + Shift(b, n)
  {
    if n > 0 {
      ShiftSum(v, a, b, n - 1);
    }
  }

  lemma {:induction false} ShiftOuter(v: real, n: nat)
    ensures Shift(v, n + 1) == Shift(10.0 * v, n)
  {
    if n > 0 {
      ShiftOuter(v, n - 1);
    }
  }

  lemma {:induction false} ShiftWhole(a: nat, n: nat)
    ensures Shift(a as real, n) == (a * Pow10(n)) as real
  {
    if n > 0 {
      ShiftWhole(a, n - 1);
      ShiftDigit(a, Pow10(n - 1), 0, 0);
    }
  }

  /** The fraction the digits y spell, shifted |y| places, is the whole number
      they spell. */
  lemma {:induction false} FractionExact(y: string)
    ensures Shift(Fraction(y), |y|) == DigitsValue(y) as real
    decreases |y|
  {
    if y != [] {
      var c, r := y[0], y[1..];
      FractionExact(r);
      DigitsAppend([c], r);
      assert [c] + r == y;
      assert DigitsValue([c]) == DigitValue(c) by {
        assert [c][..0] == [];
      }
      ShiftOuter(Fraction(y), |r|);
      ShiftSum(10.0 * Fraction(y), DigitValue(c) as real, Fraction(r), |r|);
      ShiftWhole(DigitValue(c), |r|);
    }
  }

  /** Whole digits x followed by fraction digits y, shifted |y| places, spell
      the whole number x + y. */
  lemma ShiftParts(x: string, y: string)
    ensures Shift(DigitsValue(x) as real + Fraction(y), |y|) == DigitsValue(x + y) as real
  {
    var a, f, n := DigitsValue(x), Fraction(y), |y|;
    FractionExact(y);
    DigitsAppend(x, y);
    ShiftSum(a as real + f, a as real, f, n);
    ShiftWhole(a, n);
    AddExact(Shift(a as real + f, n), Shift(a as real, n), Shift(f, n), a * Pow10(n), DigitsValue(y));
  }

  lemma AddExact(s: real, u: real, v: real, i: int, j: int)
    requires s == u + v && u == i as real && v == j as real
    ensures s == (i + j) as real
  {
  }

  /** A numeral with a '.' and f digits after it: its value shifted f places is
      the whole number its digits spell once the '.' is dropped. */
  lemma NumeralValueExact(t: string)
    requires DotIndex(t) < |t|
    ensures var k := DotIndex(t);
            Shift(NumeralValue(t), |t[k + 1..]|) == DigitsValue(t[..k] + t[k + 1..]) as real
  {
    ShiftParts(t[..DotIndex(t)], t[DotIndex(t) + 1..]);
  }

  /** A salary amount in rupees: lakhs (lpa, lakh, lac) times 100000, crores (cr)
      times 10000000, any other unit as it is. */
  function Scaled(x: real, unit: string): real
  {
    if unit in ["lpa", "lakh", "lac"] then x * 100000.0
    else if unit == "cr" then x * 10000000.0
    else x
  }

  /** The pair of numbers a match denotes: the second defaults to the first. */
  function Bounds(m: Match): (real, real)
  {
    var lo := NumeralValue(m.first);
    (lo, if m.second.Some? then NumeralValue(m.second.value) else lo)
  }

  /** A salary match as the pair of numbers it denotes, scaled by its unit. */
  function SalaryBounds(m: Match): (r: (real, real))
    ensures r.0 >= 0.0 && r.1 >= 0.0
  {
    var (lo, hi) := Bounds(m);
    (Scaled(lo, m.unit), Scaled(hi, m.unit))
  }

  /** extract_numeric_values: the salary pattern on the lower-cased text, scaled by
      its unit; failing that the experience pattern; failing that, or for a
      non-string, (None, None). */
  function ExtractNumeric(v: Json): (r: (Json, Json))
    ensures !v.JStr? ==> r == (JNull, JNull)
    ensures r.0.JNull? <==> r.1.JNull?
    ensures r.0.JNum? || r.0.JNull?
    ensures r.1.JNum? || r.1.JNull?
    ensures r.0.JNum? ==> r.0.n >= 0.0
    ensures r.1.JNum? ==> r.1.n >= 0.0
  {
    if !v.JStr? then (JNull, JNull)
    else
      var t := Lower(v.s);
      match Search(t, 0, SalaryPattern)
      case Some((_, m)) =>
        var (lo, hi) := SalaryBounds(m);
        (JNum(lo), JNum(hi))
      case None =>
        match Search(t, 0, ExperiencePattern)
        case Some((_, m)) =>
          var (lo, hi) := Bounds(m);
          (JNum(lo), JNum(hi))
        case None => (JNull, JNull)
  }

  /** The 'Posted Days Ago' value for a footer string: n days, weeks (7 days) or
      months (30 days) at the first match, or None. */
  function PostedDays(footer: string): (r: Json)
    ensures r.JNum? || r.JNull?
    ensures r.JNum? ==> r.n >= 0.0 && r.n.Floor as real == r.n
  {
    match Search(footer, 0, PostedPattern)
    case Some((_, m)) =>
      var n := DigitsValue(m.first);
      JNum((if m.unit == "day" then n else if m.unit == "week" then n * 7 else n * 30) as real)
    case None => JNull
  }

  /** Text without a digit (such as "not disclosed") yields (None, None). */
  lemma ExtractNumericNoDigits(s: string)
    requires forall i :: 0 <= i < |s| ==> !IsDigit(s[i])
    ensures ExtractNumeric(JStr(s)) == (JNull, JNull)
  {
    var t := Lower(s);
    assert forall i :: 0 <= i < |t| ==> !IsDigit(t[i]);
    NoDigitNoMatch(t, 0, SalaryPattern);
    NoDigitNoMatch(t, 0, ExperiencePattern);
  }

  /** A footer without a digit (such as "just now") yields None. */
  lemma PostedDaysNoDigits(footer: string)
    requires forall i :: 0 <= i < |footer| ==> !IsDigit(footer[i])
    ensures PostedDays(footer) == JNull
  {
    NoDigitNoMatch(footer, 0, PostedPattern);
  }

  /** A numeral without a '.' is read as its digits. */
  lemma NumeralOfDigits(t: string)
    requires IsNumeral(t, false)
    ensures NumeralValue(t) == DigitsValue(t) as real
  {
  }

  lemma SalaryFound(s: string, m: Match, lo: real, hi: real)
    requires Search(Lower(s), 0, SalaryPattern).Some? && Search(Lower(s), 0, SalaryPattern).value.1 == m
    requires SalaryBounds(m) == (lo, hi)
    ensures ExtractNumeric(JStr(s)) == (JNum(lo), JNum(hi))
  {
  }

  /** The scaled bounds of a salary match in one of the salary units. */
  lemma SalaryBoundsOf(a: string, b: Option<string>, u: string)
    requires u in SalaryPattern.units
    ensures var hi := if b.Some? then b.value else a;
            u == "cr" ==> SalaryBounds(Match(a, b, u)) == (NumeralValue(a) * 10000000.0, NumeralValue(hi) * 10000000.0)
    ensures var hi := if b.Some? then b.value else a;
            u != "cr" ==> SalaryBounds(Match(a, b, u)) == (NumeralValue(a) * 100000.0, NumeralValue(hi) * 100000.0)
  {
  }

  lemma ExperienceFound(s: string, m: Match)
    requires Search(Lower(s), 0, SalaryPattern).None?
    requires Search(Lower(s), 0, ExperiencePattern).Some? && Search(Lower(s), 0, ExperiencePattern).value.1 == m
    ensures ExtractNumeric(JStr(s)) == (JNum(Bounds(m).0), JNum(Bounds(m).1))
  {
  }

  /** Salary text whose lower-cased form is digit-free text, a numeral, a gap of
      blanks and at most one '-', a second numeral, blanks, a unit and anything
      after (such as "₹5-10 lpa") yields both numbers scaled by the unit: 100000
      for lpa, lakh and lac, 10000000 for cr. */
  lemma SalaryRange(s: string, pre: string, a: string, g1: string, dash: string,
                    g2: string, b: string, w: string, u: string, rest: string)
    requires Lower(s) == pre + a + g1 + dash + g2 + b + w + u + rest
    requires DigitFree(pre) && IsNumeral(a, true) && IsNumeral(b, true)
    requires AllSpace(g1) && AllSpace(g2) && (dash == "" || dash == "-") && (g1 != "" || dash != "" || g2 != "")
    requires AllSpace(w) && u in SalaryPattern.units
    ensures u == "cr" ==> ExtractNumeric(JStr(s)) == (JNum(NumeralValue(a) * 10000000.0), JNum(NumeralValue(b) * 10000000.0))
    ensures u != "cr" ==> ExtractNumeric(JStr(s)) == (JNum(NumeralValue(a) * 100000.0), JNum(NumeralValue(b) * 100000.0))
  {
    UnitListsAreGood();
    RangeSearchTwo(Lower(s), SalaryPattern, pre, a, g1, dash, g2, b, w, u, rest);
    SalaryBoundsOf(a, Some(b), u);
    SalaryFound(s, Match(a, Some(b), u), SalaryBounds(Match(a, Some(b), u)).0, SalaryBounds(Match(a, Some(b), u)).1);
  }

  /** Salary text with one number before its unit (such as "12 lpa") yields that
      number, scaled, for both bounds. */
  lemma SalarySingle(s: string, pre: string, a: string, g1: string, dash: string, g2: string, u: string, rest: string)
    requires Lower(s) == pre + a + g1 + dash + g2 + u + rest
    requires DigitFree(pre) && IsNumeral(a, true)
    requires AllSpace(g1) && AllSpace(g2) && (dash == "" || dash == "-")
    requires u in SalaryPattern.units
    ensures u == "cr" ==> ExtractNumeric(JStr(s)) == (JNum(NumeralValue(a) * 10000000.0), JNum(NumeralValue(a) * 10000000.0))
    ensures u != "cr" ==> ExtractNumeric(JStr(s)) == (JNum(NumeralValue(a) * 100000.0), JNum(NumeralValue(a) * 100000.0))
  {
    UnitListsAreGood();
    RangeSearchOne(Lower(s), SalaryPattern, pre, a, g1, dash, g2, u, rest);
    SalaryBoundsOf(a, None, u);
    SalaryFound(s, Match(a, None, u), SalaryBounds(Match(a, None, u)).0, SalaryBounds(Match(a, None, u)).1);
  }

  /** Experience text that names no salary unit, laid out as digit-free text, a
      whole number, a gap, a second whole number, blanks, "years" or "yrs" and
      anything after (such as "2-5 years"), yields the two numbers. */
  lemma ExperienceRange(s: string, pre: string, a: string, g1: string, dash: string,
                        g2: string, b: string, w: string, u: string, rest: string)
    requires Lower(s) == pre + a + g1 + dash + g2 + b + w + u + rest
    requires forall i: nat, v :: v in SalaryPattern.units ==> !At(Lower(s), i, v)
    requires DigitFree(pre) && IsNumeral(a, false) && IsNumeral(b, false)
    requires AllSpace(g1) && AllSpace(g2) && (dash == "" || dash == "-") && (g1 != "" || dash != "" || g2 != "")
    requires AllSpace(w) && u in ExperiencePattern.units
    ensures ExtractNumeric(JStr(s)) == (JNum(DigitsValue(a) as real), JNum(DigitsValue(b) as real))
  {
    UnitListsAreGood();
    NoUnitNoMatch(Lower(s), 0, SalaryPattern);
    RangeSearchTwo(Lower(s), ExperiencePattern, pre, a, g1, dash, g2, b, w, u, rest);
    NumeralOfDigits(a);
    NumeralOfDigits(b);
    ExperienceFound(s, Match(a, Some(b), u));
  }

  /** Experience text with one whole number before "years" or "yrs" (such as
      "3 yrs"), naming no salary unit, yields that number for both bounds. */
  lemma ExperienceSingle(s: string, pre: string, a: string, g1: string, dash: string, g2: string, u: string, rest: string)
    requires Lower(s) == pre + a + g1 + dash + g2 + u + rest
    requires forall i: nat, v :: v in SalaryPattern.units ==> !At(Lower(s), i, v)
    requires DigitFree(pre) && IsNumeral(a, false)
    requires AllSpace(g1) && AllSpace(g2) && (dash == "" || dash == "-")
    requires u in ExperiencePattern.units
    ensures ExtractNumeric(JStr(s)) == (JNum(DigitsValue(a) as real), JNum(DigitsValue(a) as real))
  {
    UnitListsAreGood();
    NoUnitNoMatch(Lower(s), 0, SalaryPattern);
    RangeSearchOne(Lower(s), ExperiencePattern, pre, a, g1, dash, g2, u, rest);
    NumeralOfDigits(a);
    ExperienceFound(s, Match(a, None, u));
  }

  lemma PostedFound(footer: string, m: Match)
    requires Search(footer, 0, PostedPattern).Some? && Search(footer, 0, PostedPattern).value.1 == m
    ensures var n := DigitsValue(m.first);
            PostedDays(footer) == JNum((if m.unit == "day" then n else if m.unit == "week" then n * 7 else n * 30) as real)
  {
  }

  /** A footer laid out as digit-free text, digits, blanks, "day", "week" or
      "month" and anything after (such as "3 days ago") yields the number of
      days: n, 7 n or 30 n. */
  lemma PostedValue(footer: string, pre: string, d: string, w: string, u: string, rest: string)
    requires footer == pre + d + w + u + rest
    requires DigitFree(pre) && IsNumeral(d, false) && AllSpace(w) && u in PostedPattern.units
    ensures PostedDays(footer) == JNum((DigitsValue(d) * (if u == "day" then 1 else if u == "week" then 7 else 30)) as real)
  {
    UnitListsAreGood();
    CountSearch(footer, PostedPattern.units, pre, d, w, u, rest);
    PostedFound(footer, Match(d, None, u));
  }
}
