/** Worked examples on concrete inputs, among them the examples in the
    source's own comments. Each is stated about a parameter that its
    `requires` pins to one literal (`requires s == "..."`) rather than about
    the literal itself. Exactly one value meets such a requires, so it
    restricts nothing; the form only keeps the verifier from unfolding the
    literal at every step of the proof. */
module Scenarios {
  import opened Values
  import opened Text
  import opened Patterns
  import opened Records
  import opened Normaliser
  import opened Extractor

  const SalaryUnits := ["lpa", "lakh", "lac", "cr"]
  const YearUnits := ["years", "yrs"]

  lemma SecondTen(s: string)
    requires s == "5 10 lpa"
    ensures OptSecond(s, 2, true, SalaryUnits) == Some((Some("10"), "lpa"))
  {
    assert DigitRun(s, 4) == 0 && DigitRun(s, 3) == 1 && DigitRun(s, 2) == 2;
    assert NumberEnd(s, 2, true) == 4;
    assert SkipWs(s, 4) == 5;
    assert s[5..] == "lpa";
    assert UnitAfter(s, 4, SalaryUnits) == Some("lpa");
    assert s[2..4] == "10";
  }

  lemma RangeFiveTen(s: string)
    requires s == "5 10 lpa"
    ensures Search(s, 0, SalaryPattern) == Some((0, Match("5", Some("10"), "lpa")))
  {
    assert DigitRun(s, 1) == 0;
    assert NumberEnd(s, 0, true) == 1;
    assert SkipWs(s, 1) == 2;
    SecondTen(s);
    assert AfterFirst(s, 1, true, SalaryUnits) == Some((Some("10"), "lpa"));
    assert s[0..1] == "5";
    assert MatchAt(s, 0, SalaryPattern) == Some(Match("5", Some("10"), "lpa"));
  }

  lemma NumeralValues()
    ensures NumeralValue("5") == 5.0 && NumeralValue("10") == 10.0
  {
    assert DigitsValue("10") == 10 * DigitsValue("1") + 0;
  }

  /** "5 10 lpa", the cleaned form of "₹5-10 LPA", is 5 to 10 lakh rupees. */
  lemma SalaryInLakhs(s: string)
    requires s == "5 10 lpa"
    ensures ExtractNumeric(JStr(s)) == (JNum(500000.0), JNum(1000000.0))
  {
    assert forall i :: 0 <= i < |s| ==> !('A' <= s[i] <= 'Z');
    LowerFixed(s);
    RangeFiveTen(s);
    NumeralValues();
    var m := Match("5", Some("10"), "lpa");
    assert Bounds(m) == (5.0, 10.0);
    assert SalaryBounds(m) == (500000.0, 1000000.0);
  }

  lemma LowerRupeeRange(s: string)
    requires s == "\U{20B9}5-10 LPA"
    ensures Lower(s) == "\U{20B9}5-10 lpa"
  {
    var t := Lower(s);
    assert LowerChar('L') == 'l' && LowerChar('P') == 'p' && LowerChar('A') == 'a';
    assert t[6] == 'l' && t[7] == 'p' && t[8] == 'a';
  }

  lemma RupeeRange(t: string)
    requires t == "\U{20B9}5-10 lpa"
    ensures Search(t, 0, SalaryPattern) == Some((0, Match("5", Some("10"), "lpa")))
  {
    assert DigitRun(t, 2) == 0;
    assert NumberEnd(t, 1, true) == 2;
    assert SkipWs(t, 2) == 2 && SkipWs(t, 3) == 3;
    assert DigitRun(t, 5) == 0 && DigitRun(t, 4) == 1 && DigitRun(t, 3) == 2;
    assert NumberEnd(t, 3, true) == 5;
    assert SkipWs(t, 5) == 6;
    assert t[6..] == "lpa";
    assert UnitAfter(t, 5, SalaryUnits) == Some("lpa");
    assert t[3..5] == "10";
    assert OptSecond(t, 3, true, SalaryUnits) == Some((Some("10"), "lpa"));
    assert AfterFirst(t, 2, true, SalaryUnits) == Some((Some("10"), "lpa"));
    assert t[1..2] == "5";
    assert MatchAt(t, 0, SalaryPattern) == Some(Match("5", Some("10"), "lpa"));
  }

  /** The example of the source's own comment: "₹5-10 LPA" is 5 to 10 lakh rupees. */
  lemma RawSalaryInLakhs(s: string)
    requires s == "\U{20B9}5-10 LPA"
    ensures ExtractNumeric(JStr(s)) == (JNum(500000.0), JNum(1000000.0))
  {
    var t := Lower(s);
    LowerRupeeRange(s);
    RupeeRange(t);
    NumeralValues();
    var m := Match("5", Some("10"), "lpa");
    assert Bounds(m) == (5.0, 10.0);
    assert SalaryBounds(m) == (500000.0, 1000000.0);
  }

  lemma CroreDigits(t: string)
    requires t == "2 5 cr"
    ensures Search(t, 0, SalaryPattern) == Some((0, Match("2", Some("5"), "cr")))
  {
    assert DigitRun(t, 1) == 0 && DigitRun(t, 3) == 0;
    assert NumberEnd(t, 0, true) == 1 && NumberEnd(t, 2, true) == 3;
    assert SkipWs(t, 1) == 2 && SkipWs(t, 3) == 4;
    assert t[4..] == "cr";
    assert UnitAt(t, 4, SalaryUnits) == Some("cr");
    assert UnitAfter(t, 3, SalaryUnits) == Some("cr");
    assert t[2..3] == "5" && t[0..1] == "2";
    assert OptSecond(t, 2, true, SalaryUnits) == Some((Some("5"), "cr"));
    assert AfterFirst(t, 1, true, SalaryUnits) == Some((Some("5"), "cr"));
    assert MatchAt(t, 0, SalaryPattern) == Some(Match("2", Some("5"), "cr"));
  }

  /** "2 5 cr", what cleaning makes of "₹2.5 Cr", reads as 2 to 5 crore. */
  lemma CleanedCrore(t: string)
    requires t == "2 5 cr"
    ensures ExtractNumeric(JStr(t)) == (JNum(20000000.0), JNum(50000000.0))
  {
    var l := Lower(t);
    assert l == t;
    CroreDigits(t);
    assert NumeralValue("2") == 2.0 && NumeralValue("5") == 5.0;
  }

  lemma RawCroreMatch(t: string)
    requires t == "\U{20B9}2.5 cr"
    ensures Search(t, 0, SalaryPattern) == Some((0, Match("2.5", None, "cr")))
  {
    assert DigitRun(t, 2) == 0 && DigitRun(t, 4) == 0 && DigitRun(t, 3) == 1;
    assert NumberEnd(t, 1, true) == 4;
    assert SkipWs(t, 4) == 5;
    assert t[5..] == "cr";
    assert UnitAt(t, 5, SalaryUnits) == Some("cr");
    assert OptSecond(t, 5, true, SalaryUnits) == Some((None, "cr"));
    assert AfterFirst(t, 4, true, SalaryUnits) == Some((None, "cr"));
    assert t[1..4] == "2.5";
    assert MatchAt(t, 0, SalaryPattern) == Some(Match("2.5", None, "cr"));
  }

  lemma TwoAndAHalf()
    ensures NumeralValue("2.5") == 2.5
  {
    assert DotIndex("2.5") == 1;
    assert "2.5"[..1] == "2" && "2.5"[2..] == "5";
  }

  /** Before cleaning, "₹2.5 Cr" is 2.5 crore. */
  lemma RawCrore(s: string)
    requires s == "\U{20B9}2.5 Cr"
    ensures ExtractNumeric(JStr(s)) == (JNum(25000000.0), JNum(25000000.0))
  {
    var t := Lower(s);
    assert t[5] == 'c' && t[6] == 'r';
    assert t == "\U{20B9}2.5 cr";
    RawCroreMatch(t);
    TwoAndAHalf();
  }

  /** "2 5 years" spells none of the salary units, so the salary pattern
      cannot match anywhere in it. */
  lemma NoSalaryInYears(t: string)
    requires t == "2 5 years"
    ensures Search(t, 0, SalaryPattern).None?
  {
    forall i: nat, u | u in SalaryPattern.Units()
      ensures !At(t, i, u)
    {
      assert u[0] == 'l' || u[0] == 'c';
      assert i < |t| ==> t[i] != 'l' && t[i] != 'c';
    }
    NoUnitNoMatch(t, 0, SalaryPattern);
  }

  lemma YearsRange(t: string)
    requires t == "2 5 years"
    ensures Search(t, 0, ExperiencePattern) == Some((0, Match("2", Some("5"), "years")))
  {
    assert DigitRun(t, 1) == 0 && DigitRun(t, 3) == 0;
    assert NumberEnd(t, 0, false) == 1 && NumberEnd(t, 2, false) == 3;
    assert SkipWs(t, 1) == 2 && SkipWs(t, 3) == 4;
    assert t[4..] == "years";
    assert UnitAfter(t, 3, YearUnits) == Some("years");
    assert t[2..3] == "5" && t[0..1] == "2";
    assert OptSecond(t, 2, false, YearUnits) == Some((Some("5"), "years"));
    assert AfterFirst(t, 1, false, YearUnits) == Some((Some("5"), "years"));
    assert MatchAt(t, 0, ExperiencePattern) == Some(Match("2", Some("5"), "years"));
  }

  /** The example of the source's own comment: "2-5 years", cleaned to "2 5 years", is 2 to 5. */
  lemma ExperienceRange(t: string)
    requires t == "2 5 years"
    ensures ExtractNumeric(JStr(t)) == (JNum(2.0), JNum(5.0))
  {
    var l := Lower(t);
    assert l == t;
    NoSalaryInYears(t);
    YearsRange(t);
    assert NumeralValue("2") == 2.0 && NumeralValue("5") == 5.0;
  }

  /** "30+ Days Ago", cleaned to "30 days ago", is 30 days. */
  lemma PostedThirtyDays(f: string)
    requires f == "30 days ago"
    ensures PostedDays(f) == JNum(30.0)
  {
    assert DigitRun(f, 2) == 0 && DigitRun(f, 0) == 2;
    assert SkipWs(f, 2) == 3;
    assert f[3..] == "days ago";
    assert UnitAt(f, 3, ["day", "week", "month"]) == Some("day");
    assert f[0..2] == "30";
    assert MatchAt(f, 0, PostedPattern) == Some(Match("30", None, "day"));
    assert DigitsValue("30") == 10 * DigitsValue("3");
  }

  /** "2 weeks ago" is 14 days. */
  lemma PostedTwoWeeks(f: string)
    requires f == "2 weeks ago"
    ensures PostedDays(f) == JNum(14.0)
  {
    assert DigitRun(f, 1) == 0;
    assert SkipWs(f, 1) == 2;
    assert f[2..] == "weeks ago";
    assert UnitAt(f, 2, ["day", "week", "month"]) == Some("week");
    assert f[0..1] == "2";
    assert MatchAt(f, 0, PostedPattern) == Some(Match("2", None, "week"));
  }

  lemma CrorePunct(s: string)
    requires s == "\U{20B9}2.5 Cr"
    ensures StripTags(s) == s && ReplacePunct(s) == " 2 5 Cr"
  {
    StripTagsNoOpen(s);
  }

  lemma CroreSpaces(p: string)
    requires p == " 2 5 Cr"
    ensures Strip(Squash(p)) == "2 5 Cr"
  {
    var q := p[1..];
    assert Squash(p) == " " + Squash(q);
    SquashFixed(q);
    assert SkipSpaces(" " + q) == q;
    assert TrimEnd(q) == q;
  }

  lemma CleanCrore(s: string)
    requires s == "\U{20B9}2.5 Cr"
    ensures CleanText(s) == "2 5 cr"
  {
    CrorePunct(s);
    var p := ReplacePunct(StripTags(s));
    CroreSpaces(p);
    LowerCrore(Strip(Squash(p)));
  }

  lemma LowerCrore(t: string)
    requires t == "2 5 Cr"
    ensures Lower(t) == "2 5 cr"
  {
    var l := Lower(t);
    assert LowerChar('C') == 'c';
    assert l[0] == '2' && l[1] == ' ' && l[2] == '5' && l[3] == ' ' && l[4] == 'c' && l[5] == 'r';
  }

  /** A crore salary, run through preprocessing, reads as 2 to 5 crore: the
      decimal point is cleaned away before the pattern sees it. */
  lemma CroreSalaryNormalised(m: Record)
    requires Normalise(m).Done? && Salary in m && m[Salary] == JStr("\U{20B9}2.5 Cr")
    ensures var r := Normalise(m).record;
      MinSalary in r && MaxSalary in r &&
      r[MinSalary] == JNum(20000000.0) && r[MaxSalary] == JNum(50000000.0)
  {
    NormaliseSalary(m);
    CleanCrore(m[Salary].s);
    CleanedCrore("2 5 cr");
  }

  lemma CleanNotAvailable(s: string)
    requires s == "N/A"
    ensures CleanText(s) == "n a"
  {
    StripTagsNoOpen(s);
    var p := ReplacePunct(s);
    assert p == "N A";
    SquashFixed(p);
    assert SkipSpaces(p) == p;
    assert TrimEnd(p) == p;
    var l := Lower(p);
    assert l[0] == 'n' && l[1] == ' ' && l[2] == 'a';
  }

  /** The extractor's 'N/A' placeholder is itself cleaned, so an ordinary
      column that had no value ends as "n a", not as 'Not Specified'. */
  lemma NotAvailableCleaned(m: Record, k: string)
    requires Normalise(m).Done? && k in m && k != TagsAndSkills && k !in DerivedKeys
    requires m[k] == NA
    ensures k in Normalise(m).record && Normalise(m).record[k] == JStr("n a")
  {
    NormaliseFields(m);
    CleanNotAvailable("N/A");
  }

  /** A list of one-letter skills is taken for a spelled-out word: ['C', 'R']
      gives "CR", while the string "C,R" gives "C, R". */
  lemma OneLetterSkillsJoined(items: seq<Json>, s: string)
    requires items == [JStr("C"), JStr("R")] && s == "C,R"
    ensures SkillsText(JArr(items)) == Ok("CR")
    ensures SkillsText(JStr(s)) == Ok("C, R")
  {
    assert IsCharList(items);
    assert Concat(items) == "CR";
    CharListReadsAsString(items);
    assert s == "C" + "," + "R";
    CommaPair("C", "R");
    assert "C" + ", " + "R" == "C, R";
  }

  /** Two comma-free skills with no blanks at their ends, written "a,b", read
      as "a, b". */
  lemma CommaPair(a: string, b: string)
    requires a != "" && ',' !in a && !IsSpace(a[0]) && !IsSpace(a[|a| - 1])
    requires b != "" && ',' !in b && !IsSpace(b[0]) && !IsSpace(b[|b| - 1])
    ensures SkillsText(JStr(a + "," + b)) == Ok(a + ", " + b)
  {
    var s := a + "," + b;
    assert Join([','], [a, b]) == s;
    SplitJoin([a, b], ',');
    StripStripped(a);
    StripStripped(b);
    assert CommaSkills(s) == [a, b];
    NonEmptyKeepsAll([a, b]);
    assert Join(", ", [a, b]) == a + ", " + b;
  }

  lemma SpelledText(items: seq<Json>)
    requires items == [JStr("j"), JStr("a"), JStr("v"), JStr("a"), JStr(","), JStr("c"), JStr("+"), JStr("+")]
    ensures IsCharList(items) && Concat(items) == "java,c++"
  {
    var text := Concat(items);
    assert |text| == 8;
    assert text[0] == 'j' && text[1] == 'a' && text[2] == 'v' && text[3] == 'a';
    assert text[4] == ',' && text[5] == 'c' && text[6] == '+' && text[7] == '+';
  }

  lemma JavaCpp(s: string)
    requires s == "java,c++"
    ensures SkillsText(JStr(s)) == Ok("java, c++")
  {
    assert s == "java" + "," + "c++";
    CommaPair("java", "c++");
    assert "java" + ", " + "c++" == "java, c++";
  }

  /** A word spelled letter by letter, with a comma: the characters of
      "java,c++" give "java, c++". */
  lemma SpelledSkills(items: seq<Json>)
    requires items == [JStr("j"), JStr("a"), JStr("v"), JStr("a"), JStr(","), JStr("c"), JStr("+"), JStr("+")]
    ensures SkillsText(JArr(items)) == Ok("java, c++")
  {
    SpelledText(items);
    assert Concat(items)[4] == ',';
    CharListReadsAsString(items);
    JavaCpp(Concat(items));
  }
}
