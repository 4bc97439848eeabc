/** extract_job_details (scrapper.py:77-145): one flat record per entry of a
    search response's 'jobDetails' list. The loops of the source are methods,
    each proved against the function that specifies it. */
module Extractor {
  import opened Values
  import opened Text
  import opened Records

  /** d.get(k, default) */
  function Get(m: Record, k: string, default: Json): Json
  {
    if k in m then m[k] else default
  }

  /** The values `for x in v` visits: a list's items and a string's characters.
      A dict yields its keys; they are strings, and being strings is all that
      the loops below look at, so each stands here as an empty string. Other
      values are not iterable. */
  function Elements(v: Json): (r: Result<seq<Json>>)
    ensures r.Ok? <==> v.JArr? || v.JStr? || v.JObj?
    ensures v.JArr? ==> r == Ok(v.items)
    ensures v.JStr? ==> r.Ok? && |r.value| == |v.s| && forall i :: 0 <= i < |v.s| ==> r.value[i] == JStr([v.s[i]])
    ensures v.JObj? ==> r.Ok? && |r.value| == |v.fields|
    ensures r.Ok? && !v.JArr? ==> forall i :: 0 <= i < |r.value| ==> r.value[i].JStr?
  {
    match v
    case JArr(items) => Ok(items)
    case JStr(s) => Ok(seq(|s|, i requires 0 <= i < |s| => JStr([s[i]])))
    case JObj(m) => Ok(seq(|m|, _ => JStr("")))
    case _ => Err(TypeError)
  }

  // ---------------------------------------------------------------------------
  // Tags and skills (scrapper.py:86-114)

  /** A non-empty list of one-character strings, such as ['j', 'a', 'v', 'a']. */
  predicate IsCharList(items: seq<Json>)
  {
    |items| > 0 && forall i :: 0 <= i < |items| ==> items[i].JStr? && |items[i].s| == 1
  }

  /** ''.join(items) for a list of strings. */
  function Concat(items: seq<Json>): (r: string)
    ensures IsCharList(items) ==> |r| == |items| && forall i :: 0 <= i < |items| ==> r[i] == items[i].s[0]
    decreases |items|
  {
    if items == [] then ""
    else
      var last := items[|items| - 1];
      Concat(items[..|items| - 1]) + (if last.JStr? then last.s else "")
  }

  /** item.strip() on a value that must be a string. */
  function StripValue(v: Json): Result<Option<string>>
  {
    if v.JStr? then Ok(Some(Strip(v.s))) else Err(AttributeError)
  }

  /** What one element of a list of words or objects contributes: a string
      stripped; for a dict, its 'label' and failing that its 'title' stripped;
      otherwise nothing. */
  function ItemSkill(item: Json): Result<Option<string>>
  {
    match item
    case JStr(s) => Ok(Some(Strip(s)))
    case JObj(m) =>
      if "label" in m then StripValue(m["label"])
      else if "title" in m then StripValue(m["title"])
      else Ok(None)
    case _ => Ok(None)
  }

  /** The loop over a list of words or objects, stopped by the first error. */
  function ItemSkills(items: seq<Json>): (r: Result<seq<string>>)
    ensures r.Ok? ==> |r.value| <= |items|
    decreases |items|
  {
    if items == [] then Ok([])
    else
      match ItemSkills(items[..|items| - 1])
      case Err(e) => Err(e)
      case Ok(ts) =>
        match ItemSkill(items[|items| - 1])
        case Err(e) => Err(e)
        case Ok(None) => Ok(ts)
        case Ok(Some(t)) => Ok(ts + [t])
  }

  /** The pieces of text between its commas, each stripped. */
  function CommaSkills(text: string): (r: seq<string>)
    ensures |r| >= 1
  {
    StripAll(Split(text, ','))
  }

  /** tags_and_skills before the empty entries are dropped. */
  function RawSkills(raw: Json): Result<seq<string>>
  {
    match raw
    case JArr(items) =>
      if IsCharList(items) then
        var text := Concat(items);
        Ok(if ',' in text then CommaSkills(text) else [text])
      else ItemSkills(items)
    case JStr(s) => Ok(CommaSkills(s))
    case _ => Ok([])
  }

  /** The skills that are not empty, in order. */
  function NonEmpty(ts: seq<string>): (r: seq<string>)
    ensures forall i :: 0 <= i < |r| ==> r[i] != ""
    ensures forall t :: t in r <==> t in ts && t != ""
    decreases |ts|
  {
    if ts == [] then []
    else
      var rest := NonEmpty(ts[..|ts| - 1]);
      assert ts == ts[..|ts| - 1] + [ts[|ts| - 1]];
      if ts[|ts| - 1] == "" then rest else rest + [ts[|ts| - 1]]
  }

  /** The 'Tags and Skills' value: the non-empty skills joined by ", ", or 'N/A'. */
  function SkillsText(raw: Json): (r: Result<string>)
    ensures r.Ok? <==> RawSkills(raw).Ok?
    ensures r.Ok? ==> r.value != ""
    ensures RawSkills(raw).Ok? && (forall t :: t in RawSkills(raw).value ==> t == "") ==> r == Ok("N/A")
  {
    match RawSkills(raw)
    case Err(e) => Err(e)
    case Ok(ts) =>
      var kept := NonEmpty(ts);
      if kept == [] then Ok("N/A")
      else
        assert kept[0] in kept;
        JoinFirst(", ", kept);
        Ok(Join(", ", kept))
  }

  lemma JoinFirst(sep: string, parts: seq<string>)
    requires parts != []
    ensures |Join(sep, parts)| >= |parts[0]|
  {
  }

  // ---------------------------------------------------------------------------
  // Placeholders (scrapper.py:117-128)

  /** The three values the placeholder loop fills in. */
  datatype Slots = Slots(experience: Json, salary: Json, location: Json)

  const Unfilled := Slots(NA, NA, NA)

  /** The placeholder types the loop reads. */
  predicate IsSlotType(t: Json)
  {
    t == JStr("experience") || t == JStr("salary") || t == JStr("location")
  }

  /** One turn of the loop: placeholder['type'] picks the slot that
      placeholder['label'] fills; other types are passed over. Subscripting a
      non-dict raises TypeError, a dict without the key KeyError. */
  function PlaceholderStep(acc: Slots, p: Json): Result<Slots>
  {
    if !p.JObj? then Err(TypeError)
    else if "type" !in p.fields then Err(KeyError("type"))
    else
      var t := p.fields["type"];
      if !IsSlotType(t) then Ok(acc)
      else if "label" !in p.fields then Err(KeyError("label"))
      else
        var l := p.fields["label"];
        Ok(if t == JStr("experience") then acc.(experience := l)
           else if t == JStr("salary") then acc.(salary := l)
           else acc.(location := l))
  }

  /** The whole loop over a list of placeholders. */
  function FoldPlaceholders(items: seq<Json>): Result<Slots>
    decreases |items|
  {
    if items == [] then Ok(Unfilled)
    else
      match FoldPlaceholders(items[..|items| - 1])
      case Err(e) => Err(e)
      case Ok(acc) => PlaceholderStep(acc, items[|items| - 1])
  }

  /** The loop over job.get('placeholders', []), whatever that value is. */
  function PlaceholderSlots(v: Json): Result<Slots>
  {
    match Elements(v)
    case Err(e) => Err(e)
    case Ok(items) => FoldPlaceholders(items)
  }

  // ---------------------------------------------------------------------------
  // One job, and the whole response

  /** The record built for one entry of 'jobDetails'; job.get on a non-dict
      raises AttributeError, and the skills are read before the placeholders. */
  function ExtractJob(job: Json, today: string): Result<Record>
  {
    if !job.JObj? then Err(AttributeError)
    else
      var m := job.fields;
      match SkillsText(Get(m, "tagsAndSkills", JArr([])))
      case Err(e) => Err(e)
      case Ok(skills) =>
        match PlaceholderSlots(Get(m, "placeholders", JArr([])))
        case Err(e) => Err(e)
        case Ok(slots) => Ok(JobRecord(m, skills, slots, today))
  }

  /** A job that reads has exactly the ten fields, the given date and a
      non-empty skills string. */
  lemma ExtractJobShape(job: Json, today: string)
    requires ExtractJob(job, today).Ok?
    ensures ExtractJob(job, today).value.Keys == ExtractedKeys
    ensures ExtractJob(job, today).value[ScrapedDate] == JStr(today)
    ensures ExtractJob(job, today).value[TagsAndSkills].JStr?
      && ExtractJob(job, today).value[TagsAndSkills].s != ""
  {
    var m := job.fields;
    var skills := SkillsText(Get(m, "tagsAndSkills", JArr([]))).value;
    var slots := PlaceholderSlots(Get(m, "placeholders", JArr([]))).value;
    JobRecordKeys(m, skills, slots, today);
    JobRecordFields(m, skills, slots, today);
  }

  /** The dict literal of one job, the plain fields read with their 'N/A' default. */
  function JobRecord(m: Record, skills: string, slots: Slots, today: string): Record
  {
    Dict(JobPairs(m, skills, slots, today))
  }

  function JobPairs(m: Record, skills: string, slots: Slots, today: string): seq<(string, Json)>
  {
    [ (JobId, Get(m, "jobId", NA)),
      (JobTitle, Get(m, "title", NA)),
      (CompanyName, Get(m, "companyName", NA)),
      (FooterLabel, Get(m, "footerPlaceholderLabel", NA)),
      (TagsAndSkills, JStr(skills)),
      (Experience, slots.experience),
      (Salary, slots.salary),
      (Location, slots.location),
      (JobDescription, Get(m, "jobDescription", NA)),
      (ScrapedDate, JStr(today)) ]
  }

  /** The ten field names, in the order of the literal. */
  function JobKeys(): seq<string>
  {
    [JobId, JobTitle, CompanyName, FooterLabel, TagsAndSkills,
     Experience, Salary, Location, JobDescription, ScrapedDate]
  }

  /** The record has exactly the ten fields. */
  lemma JobRecordKeys(m: Record, skills: string, slots: Slots, today: string)
    ensures JobRecord(m, skills, slots, today).Keys == ExtractedKeys
  {
    var ps := JobPairs(m, skills, slots, today);
    var ks := JobKeys();
    assert |ps| == 10 && forall i :: 0 <= i < 10 ==> ps[i].0 == ks[i];
    DictKeys(ps);
    forall k | k in ExtractedKeys
      ensures k in Dict(ps)
    {
      assert k == ks[0] || k == ks[1] || k == ks[2] || k == ks[3] || k == ks[4]
        || k == ks[5] || k == ks[6] || k == ks[7] || k == ks[8] || k == ks[9];
    }
    forall k | k in Dict(ps)
      ensures k in ExtractedKeys
    {
      var i :| 0 <= i < 10 && ps[i].0 == k;
      assert ks[i] in ExtractedKeys;
    }
  }

  /** No field name occurs twice in the literal. */
  lemma JobKeysDistinct()
    ensures forall i, j :: 0 <= i < j < 10 ==> JobKeys()[i] != JobKeys()[j]
  {
    var ks := JobKeys();
    var sig := [(6, 'J'), (9, 'J'), (12, 'C'), (24, 'F'), (15, 'T'),
                (10, 'E'), (6, 'S'), (8, 'L'), (15, 'J'), (12, 'S')];
    forall i | 0 <= i < 10
      ensures |ks[i]| == sig[i].0 && ks[i][0] == sig[i].1
    {
    }
  }

  /** The field at position i of the literal holds the value written there. */
  lemma JobField(m: Record, skills: string, slots: Slots, today: string, i: nat)
    requires i < 10
    ensures JobKeys()[i] in JobRecord(m, skills, slots, today)
    ensures JobRecord(m, skills, slots, today)[JobKeys()[i]] == JobPairs(m, skills, slots, today)[i].1
  {
    var ps := JobPairs(m, skills, slots, today);
    var ks := JobKeys();
    assert forall j :: 0 <= j < 10 ==> ps[j].0 == ks[j];
    JobKeysDistinct();
    DictLookup(ps, i);
  }

  /** Each field holds what the literal puts there. */
  lemma JobRecordFields(m: Record, skills: string, slots: Slots, today: string)
    ensures var r := JobRecord(m, skills, slots, today);
      && ExtractedKeys <= r.Keys
      && r[JobId] == Get(m, "jobId", NA)
      && r[JobTitle] == Get(m, "title", NA)
      && r[CompanyName] == Get(m, "companyName", NA)
      && r[FooterLabel] == Get(m, "footerPlaceholderLabel", NA)
      && r[TagsAndSkills] == JStr(skills)
      && r[Experience] == slots.experience
      && r[Salary] == slots.salary
      && r[Location] == slots.location
      && r[JobDescription] == Get(m, "jobDescription", NA)
      && r[ScrapedDate] == JStr(today)
  {
    JobRecordKeys(m, skills, slots, today);
    JobField(m, skills, slots, today, 0);
    JobField(m, skills, slots, today, 1);
    JobField(m, skills, slots, today, 2);
    JobField(m, skills, slots, today, 3);
    JobField(m, skills, slots, today, 4);
    JobField(m, skills, slots, today, 5);
    JobField(m, skills, slots, today, 6);
    JobField(m, skills, slots, today, 7);
    JobField(m, skills, slots, today, 8);
    JobField(m, skills, slots, today, 9);
  }

  /** A list of outcomes gathered in order; the first failure ends it. */
  function Collect<T>(rs: seq<Result<T>>): Result<seq<T>>
    decreases |rs|
  {
    if rs == [] then Ok([])
    else
      match Collect(rs[..|rs| - 1])
      case Err(e) => Err(e)
      case Ok(vs) =>
        match rs[|rs| - 1]
        case Err(e) => Err(e)
        case Ok(v) => Ok(vs + [v])
  }

  lemma {:induction false} CollectPerItem<T>(rs: seq<Result<T>>)
    requires Collect(rs).Ok?
    ensures |Collect(rs).value| == |rs|
    ensures forall i :: 0 <= i < |rs| ==> rs[i] == Ok(Collect(rs).value[i])
    decreases |rs|
  {
    if rs != [] {
      var init := rs[..|rs| - 1];
      CollectPerItem(init);
      assert forall i :: 0 <= i < |init| ==> init[i] == rs[i];
    }
  }

  lemma {:induction false} CollectFails<T>(rs: seq<Result<T>>)
    ensures Collect(rs).Err? <==> exists i :: 0 <= i < |rs| && rs[i].Err?
    ensures Collect(rs).Err? ==>
      exists i :: 0 <= i < |rs| && rs[i] == Err(Collect(rs).error)
        && forall j :: 0 <= j < i ==> rs[j].Ok?
    decreases |rs|
  {
    if rs != [] {
      var init := rs[..|rs| - 1];
      CollectFails(init);
      assert forall i :: 0 <= i < |init| ==> init[i] == rs[i];
    }
  }

  lemma {:induction false} CollectErrorSticks<T>(rs: seq<Result<T>>, n: nat)
    requires n <= |rs| && Collect(rs[..n]).Err?
    ensures Collect(rs) == Collect(rs[..n])
    decreases |rs| - n
  {
    if n < |rs| {
      var init := rs[..|rs| - 1];
      assert init[..n] == rs[..n];
      CollectErrorSticks(init, n);
    } else {
      assert rs[..n] == rs;
    }
  }

  /** One more outcome: a success is appended, a failure ends the whole list. */
  lemma CollectStep<T>(rs: seq<Result<T>>, i: nat)
    requires i < |rs| && Collect(rs[..i]).Ok?
    ensures rs[i].Ok? ==> Collect(rs[..i + 1]) == Ok(Collect(rs[..i]).value + [rs[i].value])
    ensures rs[i].Err? ==> Collect(rs) == Err(rs[i].error)
  {
    var next := rs[..i + 1];
    assert next[..i] == rs[..i] && next[i] == rs[i];
    if rs[i].Err? {
      CollectErrorSticks(rs, i + 1);
    }
  }

  /** The outcome of each job of the list, in order. */
  function JobResults(jobs: seq<Json>, today: string): seq<Result<Record>>
  {
    seq(|jobs|, i requires 0 <= i < |jobs| => ExtractJob(jobs[i], today))
  }

  /** The records of a list of jobs, in order; the first failing job's error ends it. */
  function ExtractAll(jobs: seq<Json>, today: string): Result<seq<Record>>
  {
    Collect(JobResults(jobs, today))
  }

  /** A successful list has one record per job, each the record of its job. */
  lemma ExtractAllPerJob(jobs: seq<Json>, today: string)
    requires ExtractAll(jobs, today).Ok?
    ensures |ExtractAll(jobs, today).value| == |jobs|
    ensures forall i :: 0 <= i < |jobs| ==> ExtractJob(jobs[i], today) == Ok(ExtractAll(jobs, today).value[i])
  {
    CollectPerItem(JobResults(jobs, today));
  }

  /** The list fails exactly when one of its jobs does, and with the error of
      the first one that does. */
  lemma ExtractAllFails(jobs: seq<Json>, today: string)
    ensures ExtractAll(jobs, today).Err? <==> exists i :: 0 <= i < |jobs| && ExtractJob(jobs[i], today).Err?
    ensures ExtractAll(jobs, today).Err? ==>
      exists i :: 0 <= i < |jobs| && ExtractJob(jobs[i], today) == Err(ExtractAll(jobs, today).error)
        && forall j :: 0 <= j < i ==> ExtractJob(jobs[j], today).Ok?
  {
    var rs := JobResults(jobs, today);
    CollectFails(rs);
    assert forall i :: 0 <= i < |jobs| ==> rs[i] == ExtractJob(jobs[i], today);
    if ExtractAll(jobs, today).Err? {
      var i :| 0 <= i < |rs| && rs[i] == Err(Collect(rs).error) && forall j :: 0 <= j < i ==> rs[j].Ok?;
      assert ExtractJob(jobs[i], today) == Err(ExtractAll(jobs, today).error);
    }
  }

  /** extract_job_details on a decoded response: data['jobDetails'] raises
      TypeError on a non-dict and KeyError without the key. */
  function ExtractRecords(data: Json, today: string): Result<seq<Record>>
  {
    if !data.JObj? then Err(TypeError)
    else if "jobDetails" !in data.fields then Err(KeyError("jobDetails"))
    else
      match Elements(data.fields["jobDetails"])
      case Err(e) => Err(e)
      case Ok(jobs) => ExtractAll(jobs, today)
  }

  // ---------------------------------------------------------------------------
  // What the placeholder loop computes, said without the loop

  /** A placeholder the loop gets past: a dict with a 'type', and with a 'label'
      when the type is one it reads. */
  predicate Accepted(p: Json)
  {
    p.JObj? && "type" in p.fields && (IsSlotType(p.fields["type"]) ==> "label" in p.fields)
  }

  /** The error the loop raises at a placeholder it does not get past. */
  function Rejection(p: Json): PyError
  {
    if !p.JObj? then TypeError else if "type" !in p.fields then KeyError("type") else KeyError("label")
  }

  /** A placeholder of the given type. */
  predicate OfType(p: Json, ty: string)
  {
    p.JObj? && "type" in p.fields && p.fields["type"] == JStr(ty)
  }

  /** The slot a placeholder type fills. */
  function Slot(s: Slots, ty: string): Json
  {
    if ty == "experience" then s.experience else if ty == "salary" then s.salary else s.location
  }

  lemma {:induction false} FoldPrefixOk(items: seq<Json>, n: nat)
    requires n <= |items| && FoldPlaceholders(items).Ok?
    ensures FoldPlaceholders(items[..n]).Ok?
    decreases |items| - n
  {
    if n < |items| {
      var init := items[..|items| - 1];
      assert init[..n] == items[..n];
      FoldPrefixOk(init, n);
    } else {
      assert items[..n] == items;
    }
  }

  /** The loop fails exactly when some placeholder is not accepted, and then
      with the error of the first such placeholder. */
  lemma {:induction false} PlaceholdersFailAtFirstRejected(items: seq<Json>)
    ensures FoldPlaceholders(items).Ok? <==> forall i :: 0 <= i < |items| ==> Accepted(items[i])
    ensures FoldPlaceholders(items).Err? ==>
      exists i :: 0 <= i < |items| && !Accepted(items[i])
        && FoldPlaceholders(items).error == Rejection(items[i])
        && forall j :: 0 <= j < i ==> Accepted(items[j])
    decreases |items|
  {
    if items != [] {
      var init := items[..|items| - 1];
      PlaceholdersFailAtFirstRejected(init);
      assert forall i :: 0 <= i < |init| ==> init[i] == items[i];
    }
  }

  /** A slot holds the label of the last placeholder of its type. */
  lemma {:induction false} LastPlaceholderWins(items: seq<Json>, ty: string, i: nat)
    requires ty == "experience" || ty == "salary" || ty == "location"
    requires FoldPlaceholders(items).Ok?
    requires i < |items| && OfType(items[i], ty)
    requires forall j :: i < j < |items| ==> !OfType(items[j], ty)
    ensures "label" in items[i].fields && Slot(FoldPlaceholders(items).value, ty) == items[i].fields["label"]
    decreases |items|
  {
    var init := items[..|items| - 1];
    FoldPrefixOk(items, |items| - 1);
    if i < |items| - 1 {
      assert init[i] == items[i];
      LastPlaceholderWins(init, ty, i);
    }
  }

  /** A slot no placeholder names keeps 'N/A'. */
  lemma {:induction false} UnnamedSlotKeepsDefault(items: seq<Json>, ty: string)
    requires ty == "experience" || ty == "salary" || ty == "location"
    requires FoldPlaceholders(items).Ok?
    requires forall j :: 0 <= j < |items| ==> !OfType(items[j], ty)
    ensures Slot(FoldPlaceholders(items).value, ty) == NA
    decreases |items|
  {
    if items != [] {
      var init := items[..|items| - 1];
      FoldPrefixOk(items, |items| - 1);
      assert forall j :: 0 <= j < |init| ==> init[j] == items[j];
      UnnamedSlotKeepsDefault(init, ty);
    }
  }

  // ---------------------------------------------------------------------------
  // What the skills code computes

  /** A list of one-character strings is read as the string they spell when
      that string holds a comma; without one, the spelled string is the single
      skill, kept whole and unstripped. */
  lemma CharListReadsAsString(items: seq<Json>)
    requires IsCharList(items)
    ensures var text := Concat(items);
      SkillsText(JArr(items)) == if ',' in text then SkillsText(JStr(text)) else Ok(text)
  {
    var text := Concat(items);
    assert |text| == |items| > 0;
    if ',' !in text {
      assert NonEmpty([text]) == [text];
    }
  }

  /** A string without a comma is one skill, stripped; a blank one leaves 'N/A'. */
  lemma StringWithoutComma(s: string)
    requires ',' !in s
    ensures SkillsText(JStr(s)) == Ok(if Strip(s) == "" then "N/A" else Strip(s))
  {
    var st := Strip(s);
    SplitNoSep(s, ',');
    var ts := CommaSkills(s);
    assert |ts| == 1 && ts[0] == st;
    assert ts == [st];
    assert RawSkills(JStr(s)) == Ok([st]);
    assert [st][..0] == [];
    if st == "" {
      assert NonEmpty([st]) == [];
    } else {
      assert NonEmpty([st]) == [st];
    }
  }

  /** Dicts carrying string labels contribute exactly what the label strings would. */
  lemma {:induction false} LabelsReadAsStrings(objs: seq<Json>, labels: seq<Json>)
    requires |objs| == |labels|
    requires forall i :: 0 <= i < |objs| ==>
      objs[i].JObj? && "label" in objs[i].fields && objs[i].fields["label"] == labels[i] && labels[i].JStr?
    ensures ItemSkills(objs) == ItemSkills(labels)
    decreases |objs|
  {
    if objs != [] {
      LabelsReadAsStrings(objs[..|objs| - 1], labels[..|labels| - 1]);
    }
  }

  lemma {:induction false} NonEmptyKeepsAll(ts: seq<string>)
    requires forall i :: 0 <= i < |ts| ==> ts[i] != ""
    ensures NonEmpty(ts) == ts
    decreases |ts|
  {
    if ts != [] {
      NonEmptyKeepsAll(ts[..|ts| - 1]);
      assert ts[..|ts| - 1] + [ts[|ts| - 1]] == ts;
    }
  }

  /** Dropping the empty entries works piece by piece: it keeps the order and
      the repeats of what it keeps. */
  lemma {:induction false} NonEmptyAppend(a: seq<string>, b: seq<string>)
    ensures NonEmpty(a + b) == NonEmpty(a) + NonEmpty(b)
    decreases |b|
  {
    if b == [] {
      assert a + b == a;
    } else {
      var b', x := b[..|b| - 1], b[|b| - 1];
      assert (a + b)[..|a + b| - 1] == a + b';
      assert (a + b)[|a + b| - 1] == x;
      NonEmptyAppend(a, b');
    }
  }

  /** One entry is kept exactly when it is not empty. */
  lemma NonEmptyOne(t: string)
    ensures NonEmpty([t]) == if t == "" then [] else [t]
  {
    assert [t][..0] == [];
  }

  /** A list of plain strings contributes each of them stripped, in order. */
  lemma {:induction false} StringItems(items: seq<Json>, ss: seq<string>)
    requires |items| == |ss|
    requires forall i :: 0 <= i < |items| ==> items[i] == JStr(ss[i])
    ensures ItemSkills(items) == Ok(StripAll(ss))
    decreases |items|
  {
    if items != [] {
      var n := |items| - 1;
      StringItems(items[..n], ss[..n]);
      assert StripAll(ss) == StripAll(ss[..n]) + [Strip(ss[n])];
    }
  }

  /** A list of comma-free strings that is not a list of single characters
      reads the same as the comma-separated string of its entries. */
  lemma StringsReadAsCommaString(items: seq<Json>, ss: seq<string>)
    requires |items| == |ss| >= 1 && !IsCharList(items)
    requires forall i :: 0 <= i < |items| ==> items[i] == JStr(ss[i]) && ',' !in ss[i]
    ensures SkillsText(JArr(items)) == SkillsText(JStr(Join([','], ss)))
  {
    StringItems(items, ss);
    SplitJoin(ss, ',');
  }

  /** An element the loop takes a skill from: a string, or a dict with a
      'label' or a 'title'. */
  predicate Contributes(item: Json)
  {
    item.JStr? || (item.JObj? && ("label" in item.fields || "title" in item.fields))
  }

  /** The elements the loop takes a skill from, in order. */
  function Contributing(items: seq<Json>): (r: seq<Json>)
    ensures forall i :: 0 <= i < |r| ==> Contributes(r[i])
    ensures forall x :: x in r <==> x in items && Contributes(x)
    decreases |items|
  {
    if items == [] then []
    else
      var rest := Contributing(items[..|items| - 1]);
      var x := items[|items| - 1];
      assert items == items[..|items| - 1] + [x];
      if Contributes(x) then rest + [x] else rest
  }

  /** Numbers, booleans, nulls, nested lists and dicts without a 'label' or a
      'title' are passed over without effect. */
  lemma {:induction false} OthersContributeNothing(items: seq<Json>)
    ensures ItemSkills(items) == ItemSkills(Contributing(items))
    decreases |items|
  {
    if items != [] {
      var n := |items| - 1;
      var init, x := items[..n], items[n];
      var c := Contributing(init);
      OthersContributeNothing(init);
      assert items == init + [x];
      if Contributes(x) {
        assert Contributing(items) == c + [x];
        ItemSkillsSameTail(init, c, x);
      } else {
        assert Contributing(items) == c;
        ItemSkillsPassOver(init, x);
      }
    }
  }

  lemma ItemSkillsPassOver(a: seq<Json>, x: Json)
    requires !Contributes(x)
    ensures ItemSkills(a + [x]) == ItemSkills(a)
  {
    assert (a + [x])[..|a|] == a;
  }

  lemma ItemSkillsSameTail(a: seq<Json>, b: seq<Json>, x: Json)
    requires ItemSkills(a) == ItemSkills(b)
    ensures ItemSkills(a + [x]) == ItemSkills(b + [x])
  {
    assert (a + [x])[..|a|] == a;
    assert (b + [x])[..|b|] == b;
  }

  /** So a list that is not a list of single characters reads the same with
      those elements removed. */
  lemma OthersDroppedFromSkills(items: seq<Json>)
    requires !IsCharList(items) && !IsCharList(Contributing(items))
    ensures SkillsText(JArr(items)) == SkillsText(JArr(Contributing(items)))
  {
    OthersContributeNothing(items);
  }

  /** The pieces ', '.join(ts) falls into at its commas: the first skill, then
      each later one behind a blank. */
  function Padded(ts: seq<string>): seq<string>
    requires |ts| >= 1
  {
    [ts[0]] + Spaced(ts[1..])
  }

  /** Each string behind a blank. */
  function Spaced(ts: seq<string>): (r: seq<string>)
    ensures |r| == |ts|
    decreases |ts|
  {
    if ts == [] then [] else [" " + ts[0]] + Spaced(ts[1..])
  }

  lemma {:induction false} SpacedAt(ts: seq<string>, i: nat)
    requires i < |ts|
    ensures Spaced(ts)[i] == " " + ts[i]
    decreases |ts|
  {
    if i > 0 {
      SpacedAt(ts[1..], i - 1);
    }
  }

  lemma PaddedTail(ts: seq<string>)
    requires |ts| > 1
    ensures Padded(ts)[1..] == [" " + ts[1]] + Padded(ts[1..])[1..]
    ensures [ts[1]] + Padded(ts[1..])[1..] == Padded(ts[1..])
  {
    assert ts[1..][0] == ts[1] && ts[1..][1..] == ts[2..];
  }

  lemma {:induction false} JoinPadded(ts: seq<string>)
    requires |ts| >= 1
    ensures Join(", ", ts) == Join([','], Padded(ts))
    decreases |ts|
  {
    if |ts| > 1 {
      var p := Padded(ts);
      var q := Padded(ts[1..]);
      var x := Join(", ", ts[1..]);
      JoinPadded(ts[1..]);
      PaddedTail(ts);
      JoinConsHead([','], " ", ts[1], q[1..]);
      assert Join([','], p[1..]) == " " + x;
      assert Join(", ", ts) == ts[0] + ", " + x;
      assert Join([','], p) == ts[0] + [','] + (" " + x);
      assert ts[0] + ", " + x == ts[0] + [','] + (" " + x);
    }
  }

  lemma PaddedAt(ts: seq<string>, i: nat)
    requires i < |ts|
    ensures |Padded(ts)| == |ts|
    ensures Padded(ts)[i] == if i == 0 then ts[0] else " " + ts[i]
  {
    if i > 0 {
      SpacedAt(ts[1..], i - 1);
    }
  }

  /** Comma-free skills give comma-free pieces. */
  lemma PaddedCommaFree(ts: seq<string>)
    requires |ts| >= 1
    requires forall i :: 0 <= i < |ts| ==> ',' !in ts[i]
    ensures forall i :: 0 <= i < |Padded(ts)| ==> ',' !in Padded(ts)[i]
  {
    forall i | 0 <= i < |ts|
      ensures ',' !in Padded(ts)[i]
    {
      PaddedAt(ts, i);
    }
  }

  /** Stripping the pieces removes the blanks the padding added. */
  lemma StripPadded(ts: seq<string>)
    requires |ts| >= 1
    requires forall i :: 0 <= i < |ts| ==>
      ts[i] != "" && !IsSpace(ts[i][0]) && !IsSpace(ts[i][|ts[i]| - 1])
    ensures StripAll(Padded(ts)) == ts
  {
    var p := Padded(ts);
    PaddedAt(ts, 0);
    forall i | 0 <= i < |ts|
      ensures StripAll(p)[i] == ts[i]
    {
      PaddedAt(ts, i);
      StripStripped(ts[i]);
    }
  }

  /** Splitting ', '.join(ts) at its commas and stripping the pieces gives ts back. */
  lemma CommaSkillsOfJoin(ts: seq<string>)
    requires |ts| >= 1
    requires forall i :: 0 <= i < |ts| ==>
      ts[i] != "" && ',' !in ts[i] && !IsSpace(ts[i][0]) && !IsSpace(ts[i][|ts[i]| - 1])
    ensures CommaSkills(Join(", ", ts)) == ts
  {
    var p := Padded(ts);
    JoinPadded(ts);
    PaddedCommaFree(ts);
    SplitJoin(p, ',');
    StripPadded(ts);
  }

  /** Skills that are non-empty, comma-free and stripped, once joined, read back as themselves. */
  lemma SkillsRoundTrip(ts: seq<string>)
    requires |ts| >= 1
    requires forall i :: 0 <= i < |ts| ==>
      ts[i] != "" && ',' !in ts[i] && !IsSpace(ts[i][0]) && !IsSpace(ts[i][|ts[i]| - 1])
    ensures SkillsText(JStr(Join(", ", ts))) == Ok(Join(", ", ts))
  {
    CommaSkillsOfJoin(ts);
    assert RawSkills(JStr(Join(", ", ts))) == Ok(ts);
    NonEmptyKeepsAll(ts);
  }

  /** 'N/A', given as a string, reads as itself. */
  lemma NotAvailableReadsAsItself(na: string)
    requires na == "N/A"
    ensures SkillsText(JStr(na)) == Ok(na)
  {
    assert na[0] == 'N' && na[1] == '/' && na[2] == 'A';
    assert forall i :: 0 <= i < |na| ==> na[i] != ',';
    assert ',' !in na;
    StripStripped(na);
    StringWithoutComma(na);
  }

  /** Each piece of a comma split, once stripped, is comma-free and has no
      whitespace at its ends. */
  lemma CommaSkillsAreClean(s: string)
    ensures forall i :: 0 <= i < |CommaSkills(s)| && CommaSkills(s)[i] != "" ==>
      var t := CommaSkills(s)[i];
      ',' !in t && !IsSpace(t[0]) && !IsSpace(t[|t| - 1])
  {
    var pieces := Split(s, ',');
    var ts := CommaSkills(s);
    assert |ts| == |pieces|;
    forall i | 0 <= i < |ts| && ts[i] != ""
      ensures ',' !in ts[i] && !IsSpace(ts[i][0]) && !IsSpace(ts[i][|ts[i]| - 1])
    {
      var piece := pieces[i];
      assert ts[i] == Strip(piece);
      assert ',' !in piece;
      StripFacts(piece);
    }
  }

  /** Reading a skills string, then reading what it gave as a string again, changes nothing. */
  lemma StringSkillsIdempotent(s: string)
    ensures SkillsText(JStr(SkillsText(JStr(s)).value)) == SkillsText(JStr(s))
  {
    var ts := CommaSkills(s);
    var kept := NonEmpty(ts);
    assert RawSkills(JStr(s)) == Ok(ts);
    if kept == [] {
      NotAvailableReadsAsItself("N/A");
    } else {
      CommaSkillsAreClean(s);
      forall i | 0 <= i < |kept|
        ensures ',' !in kept[i] && !IsSpace(kept[i][0]) && !IsSpace(kept[i][|kept[i]| - 1])
      {
        assert kept[i] in ts;
      }
      SkillsRoundTrip(kept);
    }
  }

  // ---------------------------------------------------------------------------
  // The loops of extract_job_details

  /** Once the loop over skills has raised, the later items change nothing. */
  lemma {:induction false} ItemSkillsErrorSticks(items: seq<Json>, n: nat)
    requires n <= |items| && ItemSkills(items[..n]).Err?
    ensures ItemSkills(items) == ItemSkills(items[..n])
    decreases |items| - n
  {
    if n < |items| {
      var init := items[..|items| - 1];
      assert init[..n] == items[..n];
      ItemSkillsErrorSticks(init, n);
    } else {
      assert items[..n] == items;
    }
  }

  /** One more element of a list of words or objects. */
  lemma ItemSkillsStep(items: seq<Json>, i: nat)
    requires i < |items| && ItemSkills(items[..i]).Ok?
    ensures ItemSkill(items[i]) == Ok(None) ==> ItemSkills(items[..i + 1]) == ItemSkills(items[..i])
    ensures ItemSkill(items[i]).Ok? && ItemSkill(items[i]).value.Some? ==>
      ItemSkills(items[..i + 1]) == Ok(ItemSkills(items[..i]).value + [ItemSkill(items[i]).value.value])
    ensures ItemSkill(items[i]).Err? ==> ItemSkills(items) == Err(ItemSkill(items[i]).error)
  {
    var next := items[..i + 1];
    assert next[..i] == items[..i] && next[i] == items[i];
    if ItemSkill(items[i]).Err? {
      ItemSkillsErrorSticks(items, i + 1);
    }
  }

  lemma {:induction false} PlaceholderErrorSticks(items: seq<Json>, n: nat)
    requires n <= |items| && FoldPlaceholders(items[..n]).Err?
    ensures FoldPlaceholders(items) == FoldPlaceholders(items[..n])
    decreases |items| - n
  {
    if n < |items| {
      var init := items[..|items| - 1];
      assert init[..n] == items[..n];
      PlaceholderErrorSticks(init, n);
    } else {
      assert items[..n] == items;
    }
  }

  /** The loop over a list of words or objects (scrapper.py:101-107). */
  method CollectSkills(items: seq<Json>) returns (r: Result<seq<string>>)
    ensures r == ItemSkills(items)
  {
    var tags: seq<string> := [];
    for i := 0 to |items|
      invariant ItemSkills(items[..i]) == Ok(tags)
    {
      ItemSkillsStep(items, i);
      match items[i]
      case JStr(s) =>
        tags := tags + [Strip(s)];
      case JObj(m) =>
        if "label" in m || "title" in m {
          var v := if "label" in m then m["label"] else m["title"];
          if !v.JStr? {
            return Err(AttributeError);
          }
          tags := tags + [Strip(v.s)];
        }
      case _ =>
    }
    assert items[..|items|] == items;
    return Ok(tags);
  }

  /** The loop over the placeholders (scrapper.py:117-128). */
  method ResolvePlaceholders(v: Json) returns (r: Result<Slots>)
    ensures r == PlaceholderSlots(v)
  {
    var items: seq<Json>;
    match Elements(v)
    case Err(e) =>
      return Err(e);
    case Ok(xs) =>
      items := xs;
    var experience, salary, location := NA, NA, NA;
    for i := 0 to |items|
      invariant FoldPlaceholders(items[..i]) == Ok(Slots(experience, salary, location))
    {
      assert items[..i + 1][..i] == items[..i];
      var p := items[i];
      if !p.JObj? {
        PlaceholderErrorSticks(items, i + 1);
        return Err(TypeError);
      }
      if "type" !in p.fields {
        PlaceholderErrorSticks(items, i + 1);
        return Err(KeyError("type"));
      }
      var t := p.fields["type"];
      if IsSlotType(t) && "label" !in p.fields {
        PlaceholderErrorSticks(items, i + 1);
        return Err(KeyError("label"));
      }
      if t == JStr("experience") {
        experience := p.fields["label"];
      } else if t == JStr("salary") {
        salary := p.fields["label"];
      } else if t == JStr("location") {
        location := p.fields["label"];
      }
    }
    assert items[..|items|] == items;
    return Ok(Slots(experience, salary, location));
  }

  /** The body of the loop over 'jobDetails' (scrapper.py:80-143): the record of one job. */
  method ExtractOne(job: Json, today: string) returns (r: Result<Record>)
    ensures r == ExtractJob(job, today)
  {
    if !job.JObj? {
      return Err(AttributeError);
    }
    var m := job.fields;
    var raw := Get(m, "tagsAndSkills", JArr([]));
    var tags: seq<string> := [];
    if raw.JArr? {
      if IsCharList(raw.items) {
        var text := Concat(raw.items);
        tags := if ',' in text then CommaSkills(text) else [text];
      } else {
        var collected := CollectSkills(raw.items);
        if collected.Err? {
          return Err(collected.error);
        }
        tags := collected.value;
      }
    } else if raw.JStr? {
      tags := CommaSkills(raw.s);
    }
    assert RawSkills(raw) == Ok(tags);
    var kept := NonEmpty(tags);
    var skills := if kept == [] then "N/A" else Join(", ", kept);
    var slots := ResolvePlaceholders(Get(m, "placeholders", JArr([])));
    if slots.Err? {
      return Err(slots.error);
    }
    return Ok(JobRecord(m, skills, slots.value, today));
  }

  /** The loop over 'jobDetails' (scrapper.py:79-143): one record per job, in
      order, the first job that raises ending the loop with its error. */
  method ExtractAllJobs(jobs: seq<Json>, today: string) returns (r: Result<seq<Record>>)
    ensures r == ExtractAll(jobs, today)
  {
    var done: seq<Record> := [];
    ghost var rs := JobResults(jobs, today);
    for i := 0 to |jobs|
      invariant Collect(rs[..i]) == Ok(done)
    {
      var rec := ExtractOne(jobs[i], today);
      assert rs[i] == rec;
      CollectStep(rs, i);
      if rec.Err? {
        return Err(rec.error);
      }
      done := done + [rec.value];
    }
    assert rs[..|rs|] == rs;
    return Ok(done);
  }

  /** A fresh dict per record, in order. */
  method NewJobs(recs: seq<Record>) returns (out: seq<Job>)
    ensures |out| == |recs|
    ensures forall i :: 0 <= i < |out| ==> out[i].fields == recs[i] && fresh(out[i])
    ensures forall i, j :: 0 <= i < j < |out| ==> out[i] != out[j]
  {
    out := [];
    for i := 0 to |recs|
      invariant |out| == i
      invariant forall k :: 0 <= k < i ==> out[k].fields == recs[k] && fresh(out[k])
      invariant forall k, l :: 0 <= k < l < i ==> out[k] != out[l]
    {
      var job := new Job(recs[i]);
      out := out + [job];
    }
  }

  /** The jobs of a list, as dicts. */
  method ExtractJobs(jobs: seq<Json>, today: string) returns (r: Result<seq<Job>>)
    ensures r.Ok? <==> ExtractAll(jobs, today).Ok?
    ensures r.Err? ==> r.error == ExtractAll(jobs, today).error
    ensures r.Ok? ==> |r.value| == |ExtractAll(jobs, today).value|
    ensures r.Ok? ==> forall i :: 0 <= i < |r.value| ==> r.value[i].fields == ExtractAll(jobs, today).value[i]
    ensures r.Ok? ==> forall i :: 0 <= i < |r.value| ==> fresh(r.value[i])
    ensures r.Ok? ==> forall i, j :: 0 <= i < j < |r.value| ==> r.value[i] != r.value[j]
  {
    var recs := ExtractAllJobs(jobs, today);
    if recs.Err? {
      return Err(recs.error);
    }
    var out := NewJobs(recs.value);
    return Ok(out);
  }

  /** extract_job_details on a decoded response. */
  method ExtractJobDetails(data: Json, today: string) returns (r: Result<seq<Job>>)
    ensures r.Ok? <==> ExtractRecords(data, today).Ok?
    ensures r.Err? ==> r.error == ExtractRecords(data, today).error
    ensures r.Ok? ==> |r.value| == |ExtractRecords(data, today).value|
    ensures r.Ok? ==> forall i :: 0 <= i < |r.value| ==> r.value[i].fields == ExtractRecords(data, today).value[i]
    ensures r.Ok? ==> forall i :: 0 <= i < |r.value| ==> fresh(r.value[i])
    ensures r.Ok? ==> forall i, j :: 0 <= i < j < |r.value| ==> r.value[i] != r.value[j]
  {
    if !data.JObj? {
      return Err(TypeError);
    }
    if "jobDetails" !in data.fields {
      return Err(KeyError("jobDetails"));
    }
    match Elements(data.fields["jobDetails"])
    case Err(e) =>
      return Err(e);
    case Ok(jobs) =>
      r := ExtractJobs(jobs, today);
  }
}
