/** Text cleaning (clean_text, scrapper.py:8-14) and the str helpers the
    extractor uses: str.strip(), str.split(',') and ', '.join(...).
    Character classes are those of Python's `re` and `str` over ASCII: every
    other character is neither a word character nor whitespace. */
module Text {
  import opened Values

  predicate IsDigit(c: char) { '0' <= c <= '9' }

  /** `\w` */
  predicate IsWordChar(c: char) { 'a' <= c <= 'z' || 'A' <= c <= 'Z' || IsDigit(c) || c == '_' }

  /** `\s`, which is also what str.strip() removes: \t \n \v \f \r, 0x1c-0x1f and ' ' */
  predicate IsSpace(c: char) { 9 <= c as int <= 13 || 28 <= c as int <= 32 }

  function LowerChar(c: char): char { if 'A' <= c <= 'Z' then (c as int + 32) as char else c }

  /** str.lower() */
  function Lower(s: string): string { seq(|s|, i requires 0 <= i < |s| => LowerChar(s[i])) }

  // ---------------------------------------------------------------------------
  // Step 1: re.sub(r'<.*?>', '', text)

  /** Where a non-greedy `<.*?>` whose '<' sits just before i closes: the first '>'
      at or after i, provided no newline comes first (`.` does not match '\n'). */
  function CloseAt(s: string, i: nat): (r: Option<nat>)
    ensures r.Some? ==> i <= r.value < |s| && s[r.value] == '>'
    ensures r.Some? ==> forall k :: i <= k < r.value ==> s[k] != '>' && s[k] != '\n'
    decreases |s| - i
  {
    if i >= |s| || s[i] == '\n' then None
    else if s[i] == '>' then Some(i)
    else CloseAt(s, i + 1)
  }

  /** Scans left to right; a '<' that closes is dropped with everything up to and
      including its '>', and scanning resumes after it. */
  function StripTags(s: string): (r: string)
    ensures |r| <= |s|
    decreases |s|
  {
    if s == [] then []
    else if s[0] == '<' then
      match CloseAt(s, 1)
      case Some(j) => StripTags(s[j + 1..])
      case None => [s[0]] + StripTags(s[1..])
    else [s[0]] + StripTags(s[1..])
  }

  // ---------------------------------------------------------------------------
  // Step 2: re.sub(r'[^\w\s,]', ' ', text)

  predicate KeepChar(c: char) { IsWordChar(c) || IsSpace(c) || c == ',' }

  function ReplacePunct(s: string): string
  {
    seq(|s|, i requires 0 <= i < |s| => if KeepChar(s[i]) then s[i] else ' ')
  }

  // ---------------------------------------------------------------------------
  // Step 3: re.sub(r'\s+', ' ', text).strip()

  /** Drops the leading run of whitespace (str.lstrip()). */
  function SkipSpaces(s: string): (r: string)
    ensures |r| <= |s|
    ensures r == [] || !IsSpace(r[0])
    decreases |s|
  {
    if s != [] && IsSpace(s[0]) then SkipSpaces(s[1..]) else s
  }

  /** Replaces every maximal run of whitespace by one ' '. */
  function Squash(s: string): string
    decreases |s|
  {
    if s == [] then []
    else if IsSpace(s[0]) then [' '] + Squash(SkipSpaces(s[1..]))
    else [s[0]] + Squash(s[1..])
  }

  /** Drops the trailing run of whitespace (str.rstrip()). */
  function TrimEnd(s: string): (r: string)
    ensures |r| <= |s|
    ensures r == [] || !IsSpace(r[|r| - 1])
    decreases |s|
  {
    if s != [] && IsSpace(s[|s| - 1]) then TrimEnd(s[..|s| - 1]) else s
  }

  /** What lstrip() drops is whitespace, and what it keeps is a suffix. */
  lemma {:induction false} SkipSpacesSuffix(s: string)
    ensures var r := SkipSpaces(s);
      && r == s[|s| - |r|..]
      && forall i :: 0 <= i < |s| - |r| ==> IsSpace(s[i])
    decreases |s|
  {
    if s != [] && IsSpace(s[0]) {
      SkipSpacesSuffix(s[1..]);
    }
  }

  /** What rstrip() drops is whitespace, and what it keeps is a prefix. */
  lemma {:induction false} TrimEndPrefix(s: string)
    ensures var r := TrimEnd(s);
      && r == s[..|r|]
      && forall i :: |r| <= i < |s| ==> IsSpace(s[i])
    decreases |s|
  {
    if s != [] && IsSpace(s[|s| - 1]) {
      TrimEndPrefix(s[..|s| - 1]);
    }
  }

  /** str.strip() */
  function Strip(s: string): string { TrimEnd(SkipSpaces(s)) }

  // ---------------------------------------------------------------------------

  /** clean_text on a string. */
  function CleanText(s: string): string
  {
    Lower(Strip(Squash(ReplacePunct(StripTags(s)))))
  }

  /** clean_text on any value: non-strings come back unchanged. */
  function CleanValue(v: Json): (r: Json)
    ensures v.JStr? <==> r.JStr?
    ensures !v.JStr? ==> r == v
  {
    if v.JStr? then JStr(CleanText(v.s)) else v
  }

  // ---------------------------------------------------------------------------
  // What a cleaned string looks like

  predicate IsCleanChar(c: char) { 'a' <= c <= 'z' || IsDigit(c) || c == '_' || c == ',' || c == ' ' }

  /** No two blanks side by side. */
  predicate SingleSpaced(s: string)
  {
    forall i, j :: 0 <= i < |s| && 0 <= j < |s| && j == i + 1 ==> s[i] != ' ' || s[j] != ' '
  }

  /** Lower-case word characters, commas and single inner spaces only. */
  predicate IsCleaned(s: string)
  {
    && (forall i :: 0 <= i < |s| ==> IsCleanChar(s[i]))
    && SingleSpaced(s)
    && (s != [] ==> s[0] != ' ' && s[|s| - 1] != ' ')
  }

  predicate SquashedChar(c: char) { IsWordChar(c) || c == ',' || c == ' ' }

  lemma {:induction false} SquashShape(s: string)
    requires forall i :: 0 <= i < |s| ==> KeepChar(s[i])
    ensures var r := Squash(s);
      && (forall i :: 0 <= i < |r| ==> SquashedChar(r[i]))
      && SingleSpaced(r)
      && (r == [] <==> s == [])
      && (r != [] ==> (r[0] == ' ' <==> IsSpace(s[0])))
    decreases |s|
  {
    if s == [] {
    } else if IsSpace(s[0]) {
      var t := SkipSpaces(s[1..]);
      SkipSpacesSuffix(s[1..]);
      assert forall i :: 0 <= i < |t| ==> t[i] == s[|s| - |t| + i];
      SquashShape(t);
      assert Squash(s) == [' '] + Squash(t);
    } else {
      SquashShape(s[1..]);
      assert Squash(s) == [s[0]] + Squash(s[1..]);
    }
  }

  lemma SliceKeepsShape(u: string, a: nat, b: nat)
    requires a <= b <= |u|
    requires forall i :: 0 <= i < |u| ==> SquashedChar(u[i])
    requires SingleSpaced(u)
    ensures forall i :: 0 <= i < b - a ==> SquashedChar(u[a..b][i])
    ensures SingleSpaced(u[a..b])
  {
    var t := u[a..b];
    forall i | 0 <= i < |t| - 1 && t[i] == ' ' ensures t[i + 1] != ' ' {
      assert t[i] == u[a + i] && t[i + 1] == u[a + i + 1];
    }
  }

  lemma StripShape(q: string)
    requires forall i :: 0 <= i < |q| ==> SquashedChar(q[i])
    requires SingleSpaced(q)
    ensures var t := Strip(q);
      && (forall i :: 0 <= i < |t| ==> SquashedChar(t[i]))
      && SingleSpaced(t)
      && (t != [] ==> t[0] != ' ' && t[|t| - 1] != ' ')
  {
    var l := SkipSpaces(q);
    var t := TrimEnd(l);
    SkipSpacesSuffix(q);
    TrimEndPrefix(l);
    var a := |q| - |l|;
    assert t == q[a..a + |t|];
    SliceKeepsShape(q, a, a + |t|);
  }

  lemma LowerShape(t: string)
    requires forall i :: 0 <= i < |t| ==> SquashedChar(t[i])
    requires SingleSpaced(t)
    requires t != [] ==> t[0] != ' ' && t[|t| - 1] != ' '
    ensures IsCleaned(Lower(t))
  {
    var r := Lower(t);
    forall i | 0 <= i < |r| - 1 && r[i] == ' ' ensures r[i + 1] != ' ' {
      assert t[i] == ' ';
    }
  }

  /** Whatever clean_text is given, what it returns is cleaned. */
  lemma CleanTextShape(s: string)
    ensures IsCleaned(CleanText(s))
  {
    var p := ReplacePunct(StripTags(s));
    SquashShape(p);
    StripShape(Squash(p));
    LowerShape(Strip(Squash(p)));
  }

  lemma {:induction false} StripTagsNoOpen(s: string)
    requires forall i :: 0 <= i < |s| ==> s[i] != '<'
    ensures StripTags(s) == s
    decreases |s|
  {
    if s != [] {
      StripTagsNoOpen(s[1..]);
    }
  }

  lemma {:induction false} SquashFixed(s: string)
    requires forall i :: 0 <= i < |s| ==> SquashedChar(s[i])
    requires SingleSpaced(s)
    ensures Squash(s) == s
    decreases |s|
  {
    if s != [] {
      SquashFixed(s[1..]);
      if s[0] == ' ' {
        assert s[1..] == [] || !IsSpace(s[1]);
        assert SkipSpaces(s[1..]) == s[1..];
        assert Squash(s) == [' '] + Squash(s[1..]);
      } else {
        assert Squash(s) == [s[0]] + Squash(s[1..]);
      }
      assert [s[0]] + s[1..] == s;
    }
  }

  /** Squashing and stripping leave alone a string that is already single-spaced
      with no blank at either end. */
  lemma SpacingFixed(p: string)
    requires forall i :: 0 <= i < |p| ==> SquashedChar(p[i])
    requires SingleSpaced(p)
    requires p != [] ==> p[0] != ' ' && p[|p| - 1] != ' '
    ensures Strip(Squash(p)) == p
  {
    if p != [] {
      SquashedNotSpace(p[0]);
      SquashedNotSpace(p[|p| - 1]);
    }
    TrimEndNone(p);
    SkipSpacesNone(p);
    SquashFixed(p);
  }

  lemma SquashedNotSpace(c: char)
    requires SquashedChar(c) && c != ' '
    ensures !IsSpace(c)
  {
  }

  lemma SkipSpacesNone(s: string)
    requires s == [] || !IsSpace(s[0])
    ensures SkipSpaces(s) == s
  {
  }

  lemma TrimEndNone(s: string)
    requires s == [] || !IsSpace(s[|s| - 1])
    ensures TrimEnd(s) == s
  {
  }

  lemma PunctFixed(s: string)
    requires forall i :: 0 <= i < |s| ==> KeepChar(s[i])
    ensures ReplacePunct(s) == s
  {
  }

  lemma LowerFixed(s: string)
    requires forall i :: 0 <= i < |s| ==> !('A' <= s[i] <= 'Z')
    ensures Lower(s) == s
  {
  }

  /** A cleaned string is left alone by clean_text. */
  lemma CleanedIsFixed(s: string)
    requires IsCleaned(s)
    ensures CleanText(s) == s
  {
    forall i | 0 <= i < |s|
      ensures s[i] != '<' && KeepChar(s[i]) && SquashedChar(s[i]) && !('A' <= s[i] <= 'Z')
    {
      CleanCharKinds(s[i]);
    }
    StripTagsNoOpen(s);
    PunctFixed(s);
    SpacingFixed(s);
    LowerFixed(s);
  }

  lemma CleanCharKinds(c: char)
    requires IsCleanChar(c)
    ensures c != '<' && KeepChar(c) && SquashedChar(c) && !('A' <= c <= 'Z')
  {
  }

  /** For text without tags whose punctuation, once blanked, leaves single spaces
      between words and none at the ends, clean_text only blanks and lower-cases. */
  lemma CleanTextSimple(s: string)
    requires forall i :: 0 <= i < |s| ==> s[i] != '<'
    requires var p := ReplacePunct(s);
      && (forall i :: 0 <= i < |p| ==> SquashedChar(p[i]))
      && SingleSpaced(p) && (p != [] ==> p[0] != ' ' && p[|p| - 1] != ' ')
    ensures CleanText(s) == Lower(ReplacePunct(s))
  {
    StripTagsNoOpen(s);
    SpacingFixed(ReplacePunct(s));
  }

  /** The strings clean_text leaves unchanged are exactly the cleaned ones. */
  lemma FixedIffCleaned(s: string)
    ensures CleanText(s) == s <==> IsCleaned(s)
  {
    if IsCleaned(s) {
      CleanedIsFixed(s);
    } else {
      CleanTextShape(s);
    }
  }

  /** clean_text is idempotent. */
  lemma CleanTextIdempotent(s: string)
    ensures CleanText(CleanText(s)) == CleanText(s)
  {
    CleanTextShape(s);
    CleanedIsFixed(CleanText(s));
  }

  // ---------------------------------------------------------------------------
  // str.split(sep), sep.join(parts) and str.strip() over lists

  /** str.split(sep) with a one-character separator: always at least one piece. */
  function Split(s: string, sep: char): (r: seq<string>)
    ensures |r| >= 1
    ensures forall i :: 0 <= i < |r| ==> sep !in r[i]
    decreases |s|
  {
    if s == [] then [""]
    else
      var rest := Split(s[1..], sep);
      if s[0] == sep then [""] + rest
      else [[s[0]] + rest[0]] + rest[1..]
  }

  /** sep.join(parts) */
  function Join(sep: string, parts: seq<string>): string
    decreases |parts|
  {
    if |parts| == 0 then ""
    else if |parts| == 1 then parts[0]
    else parts[0] + sep + Join(sep, parts[1..])
  }

  /** [p.strip() for p in parts] */
  function StripAll(parts: seq<string>): (r: seq<string>)
    ensures |r| == |parts|
  {
    seq(|parts|, i requires 0 <= i < |parts| => Strip(parts[i]))
  }

  lemma JoinConsHead(sep: string, c: string, p: string, ps: seq<string>)
    ensures Join(sep, [c + p] + ps) == c + Join(sep, [p] + ps)
  {
    if |ps| > 0 {
      assert ([c + p] + ps)[1..] == ps;
      assert ([p] + ps)[1..] == ps;
    }
  }

  /** Joining the pieces of a split with the separator gives the string back. */
  lemma {:induction false} JoinSplit(s: string, sep: char)
    ensures Join([sep], Split(s, sep)) == s
    decreases |s|
  {
    if s != [] {
      var rest := Split(s[1..], sep);
      JoinSplit(s[1..], sep);
      if s[0] == sep {
        assert ([""] + rest)[1..] == rest;
      } else {
        JoinConsHead([sep], [s[0]], rest[0], rest[1..]);
        assert [rest[0]] + rest[1..] == rest;
      }
    }
  }

  lemma {:induction false} SplitNoSep(p: string, sep: char)
    requires sep !in p
    ensures Split(p, sep) == [p]
    decreases |p|
  {
    if p != [] {
      SplitNoSep(p[1..], sep);
      assert [p[0]] + p[1..] == p;
    }
  }

  lemma {:induction false} SplitPrefix(p: string, sep: char, rest: string)
    requires sep !in p
    ensures Split(p + [sep] + rest, sep) == [p] + Split(rest, sep)
    decreases |p|
  {
    if p == [] {
      assert p + [sep] + rest == [sep] + rest;
      assert ([sep] + rest)[1..] == rest;
    } else {
      assert (p + [sep] + rest)[1..] == p[1..] + [sep] + rest;
      SplitPrefix(p[1..], sep, rest);
      assert [p[0]] + p[1..] == p;
    }
  }

  /** Splitting a join of separator-free pieces gives the pieces back. */
  lemma {:induction false} SplitJoin(parts: seq<string>, sep: char)
    requires |parts| >= 1
    requires forall i :: 0 <= i < |parts| ==> sep !in parts[i]
    ensures Split(Join([sep], parts), sep) == parts
    decreases |parts|
  {
    if |parts| == 1 {
      SplitNoSep(parts[0], sep);
    } else {
      SplitJoin(parts[1..], sep);
      SplitPrefix(parts[0], sep, Join([sep], parts[1..]));
      assert [parts[0]] + parts[1..] == parts;
    }
  }

  /** str.strip() keeps the slice of its input between the leading and the
      trailing run of whitespace: everything it drops is whitespace, and what it
      keeps has no whitespace at either end. */
  lemma StripFacts(s: string)
    ensures var r := Strip(s);
      && (r == [] || (!IsSpace(r[0]) && !IsSpace(r[|r| - 1])))
      && forall c :: c in r ==> c in s
    ensures var r := Strip(s);
      var a := |s| - |SkipSpaces(s)|;
      && a + |r| <= |s| && r == s[a..a + |r|]
      && (forall i :: 0 <= i < a ==> IsSpace(s[i]))
      && (forall i :: a + |r| <= i < |s| ==> IsSpace(s[i]))
  {
    var u := SkipSpaces(s);
    var r := TrimEnd(u);
    SkipSpacesSuffix(s);
    TrimEndPrefix(u);
    var a := |s| - |u|;
    assert u == s[a..];
    forall i | a + |r| <= i < |s|
      ensures IsSpace(s[i])
    {
      assert s[i] == u[i - a];
    }
    forall c | c in r
      ensures c in s
    {
      var k :| 0 <= k < |r| && r[k] == c;
      assert r[k] == u[k] == s[a + k];
    }
  }

  /** A string with no whitespace at its ends is its own strip, even after one more leading blank. */
  lemma StripStripped(t: string)
    requires t == [] || (!IsSpace(t[0]) && !IsSpace(t[|t| - 1]))
    ensures Strip(t) == t && Strip(" " + t) == t
  {
    assert (" " + t)[1..] == t;
  }

  // ---------------------------------------------------------------------------
  // Cleaning never makes up a digit

  predicate DigitFree(s: string) { forall i :: 0 <= i < |s| ==> !IsDigit(s[i]) }

  lemma {:induction false} StripTagsDigitFree(s: string)
    requires DigitFree(s)
    ensures DigitFree(StripTags(s))
    decreases |s|
  {
    if s != [] {
      if s[0] == '<' && CloseAt(s, 1).Some? {
        StripTagsDigitFree(s[CloseAt(s, 1).value + 1..]);
      } else {
        StripTagsDigitFree(s[1..]);
        assert StripTags(s) == [s[0]] + StripTags(s[1..]);
      }
    }
  }

  lemma {:induction false} SquashDigitFree(s: string)
    requires DigitFree(s)
    ensures DigitFree(Squash(s))
    decreases |s|
  {
    if s != [] {
      if IsSpace(s[0]) {
        SkipSpacesSuffix(s[1..]);
        SquashDigitFree(SkipSpaces(s[1..]));
      } else {
        SquashDigitFree(s[1..]);
      }
    }
  }

  /** Text without a digit still has none once cleaned. */
  lemma CleanKeepsNoDigit(s: string)
    requires DigitFree(s)
    ensures DigitFree(CleanText(s))
  {
    StripTagsDigitFree(s);
    var p := ReplacePunct(StripTags(s));
    SquashDigitFree(p);
    var q := Squash(p);
    StripFacts(q);
    var r := Strip(q);
    forall i | 0 <= i < |r|
      ensures !IsDigit(r[i])
    {
      assert r[i] in q;
    }
  }
}
