/** preprocess_job_details (scrapper.py:43-75): every job dict is cleaned,
    given its salary, experience and posted-days fields, and has its missing
    values replaced, in place and in order. */
module Normaliser {
  import opened Values
  import opened Text
  import opened Patterns
  import opened Records

  const NotSpecified := JStr("Not Specified")

  /** A value counted as missing: the string 'n/a', the empty string or None. */
  predicate IsMissing(v: Json)
  {
    v == JStr("n/a") || v == JStr("") || v == JNull
  }

  function Fill(v: Json): (r: Json)
    ensures !IsMissing(r)
    ensures IsMissing(v) ==> r == NotSpecified
    ensures !IsMissing(v) ==> r == v
  {
    if IsMissing(v) then NotSpecified else v
  }

  // ---------------------------------------------------------------------------
  // What one job becomes, said without the loops

  /** The value clean_text leaves under a key: every field but 'Tags and Skills'
      is cleaned. */
  function CleanField(k: string, v: Json): Json
  {
    if k == TagsAndSkills then v else CleanValue(v)
  }

  /** The dict after the cleaning loop, built one key at a time. */
  ghost function Cleaned(m: Record): Record
    decreases m.Keys
  {
    if m == map[] then m
    else
      var k :| k in m;
      Cleaned(m - {k})[k := CleanField(k, m[k])]
  }

  /** The dict after the filling loop, built one key at a time. */
  ghost function Filled(m: Record): Record
    decreases m.Keys
  {
    if m == map[] then m
    else
      var k :| k in m;
      Filled(m - {k})[k := Fill(m[k])]
  }

  /** Cleaning keeps the keys and cleans each value on its own. */
  lemma {:induction false} CleanedAt(m: Record)
    ensures Cleaned(m).Keys == m.Keys
    ensures forall k :: k in m ==> Cleaned(m)[k] == CleanField(k, m[k])
    decreases m.Keys
  {
    if m != map[] {
      var k :| k in m && Cleaned(m) == Cleaned(m - {k})[k := CleanField(k, m[k])];
      CleanedAt(m - {k});
    }
  }

  /** Filling keeps the keys and fills each value on its own. */
  lemma {:induction false} FilledAt(m: Record)
    ensures Filled(m).Keys == m.Keys
    ensures forall k :: k in m ==> Filled(m)[k] == Fill(m[k])
    decreases m.Keys
  {
    if m != map[] {
      var k :| k in m && Filled(m) == Filled(m - {k})[k := Fill(m[k])];
      FilledAt(m - {k});
    }
  }

  /** How the body of the loop ends for one job: normally, or by raising with
      the dict as far as it got. */
  datatype Outcome = Done(record: Record) | Raised(error: PyError, partial: Record)
  {
    function State(): Record
    {
      match this
      case Done(m) => m
      case Raised(_, m) => m
    }
  }

  /** The dict with its salary and experience bounds, before the footer is read.
      A missing 'Salary' or 'Experience' raises KeyError. */
  ghost function WithBounds(m: Record): Outcome
  {
    var c := Cleaned(m);
    if Salary !in c then Raised(KeyError(Salary), c)
    else
      var (lo, hi) := ExtractNumeric(c[Salary]);
      var c1 := c[MinSalary := lo][MaxSalary := hi];
      if Experience !in c1 then Raised(KeyError(Experience), c1)
      else
        var (elo, ehi) := ExtractNumeric(c1[Experience]);
        Done(c1[MinExperience := elo][MaxExperience := ehi])
  }

  /** The loop body for one job. The footer search raises KeyError when the
      field is missing and TypeError when it is not a string. */
  ghost function Normalise(m: Record): Outcome
  {
    match WithBounds(m)
    case Raised(e, p) => Raised(e, p)
    case Done(c) =>
      if FooterLabel !in c then Raised(KeyError(FooterLabel), c)
      else if !c[FooterLabel].JStr? then Raised(TypeError, c)
      else Done(Filled(c[PostedDaysAgo := PostedDays(c[FooterLabel].s)]))
  }

  /** The dicts after the loop over the list, given what the loop body makes of
      each one, and the error that ended the loop, if any: the jobs before the one
      that raises are normalised, that one is left as far as it got, and the later
      ones are untouched. */
  ghost function Settle(os: seq<Outcome>, ms: seq<Record>): (seq<Record>, Option<PyError>)
    requires |os| == |ms|
    decreases |ms|
  {
    if ms == [] then ([], None)
    else
      match os[0]
      case Raised(e, p) => ([p] + ms[1..], Some(e))
      case Done(d) =>
        var (rest, e) := Settle(os[1..], ms[1..]);
        ([d] + rest, e)
  }

  /** What the loop body makes of each job on its own. */
  ghost function Outcomes(ms: seq<Record>): (os: seq<Outcome>)
    ensures |os| == |ms|
    decreases |ms|
  {
    if ms == [] then [] else [Normalise(ms[0])] + Outcomes(ms[1..])
  }

  lemma {:induction false} OutcomesAt(ms: seq<Record>)
    ensures forall k :: 0 <= k < |ms| ==> Outcomes(ms)[k] == Normalise(ms[k])
    decreases |ms|
  {
    if ms != [] {
      var t := ms[1..];
      OutcomesAt(t);
      assert Outcomes(ms) == [Normalise(ms[0])] + Outcomes(t);
      forall k | 1 <= k < |ms|
        ensures Outcomes(ms)[k] == Normalise(ms[k])
      {
        assert t[k - 1] == ms[k];
      }
    }
  }

  /** The whole loop over a list of jobs. */
  ghost function NormaliseAll(ms: seq<Record>): (seq<Record>, Option<PyError>)
  {
    Settle(Outcomes(ms), ms)
  }

  // ---------------------------------------------------------------------------
  // Properties of one job

  /** What stops the loop body for a job, checked in the order the body reads
      the fields: a missing key raises KeyError, a footer that is not a string
      once cleaned raises TypeError. */
  function Fault(m: Record): Option<PyError>
  {
    if Salary !in m then Some(KeyError(Salary))
    else if Experience !in m then Some(KeyError(Experience))
    else if FooterLabel !in m then Some(KeyError(FooterLabel))
    else if !CleanValue(m[FooterLabel]).JStr? then Some(TypeError)
    else None
  }

  /** After the two extract_numeric_values calls: the cleaned dict with the four
      bounds set from the cleaned salary and experience labels. */
  lemma WithBoundsAt(m: Record)
    requires Salary in m && Experience in m
    ensures WithBounds(m).Done?
    ensures var c := WithBounds(m).record;
      var sal := ExtractNumeric(CleanValue(m[Salary]));
      var exp := ExtractNumeric(CleanValue(m[Experience]));
      && c.Keys == m.Keys + {MinSalary, MaxSalary, MinExperience, MaxExperience}
      && c[MinSalary] == sal.0 && c[MaxSalary] == sal.1
      && c[MinExperience] == exp.0 && c[MaxExperience] == exp.1
      && (forall k :: k in m && k !in DerivedKeys ==> c[k] == CleanField(k, m[k]))
      && (FooterLabel in m ==> c[FooterLabel] == CleanValue(m[FooterLabel]))
  {
    CleanedAt(m);
    assert FooterLabel !in DerivedKeys && FooterLabel != TagsAndSkills;
  }

  /** The loop body raises exactly when the job has a fault, and with that fault. */
  lemma NormaliseRaises(m: Record)
    ensures Normalise(m).Raised? <==> Fault(m).Some?
    ensures Normalise(m).Raised? ==> Normalise(m).error == Fault(m).value
  {
    CleanedAt(m);
  }

  /** A normalised job keeps its keys and gains exactly the five derived ones. */
  lemma NormaliseKeys(m: Record)
    requires Normalise(m).Done?
    ensures Normalise(m).record.Keys == m.Keys + DerivedKeys
  {
    CleanedAt(m);
    var c := WithBounds(m).record;
    var f := c[PostedDaysAgo := PostedDays(c[FooterLabel].s)];
    FilledAt(f);
  }

  /** After normalising, no value is 'n/a', '' or None. */
  lemma NormaliseNoMissing(m: Record)
    requires Normalise(m).Done?
    ensures forall k :: k in Normalise(m).record ==> !IsMissing(Normalise(m).record[k])
  {
    CleanedAt(m);
    var c := WithBounds(m).record;
    var f := c[PostedDaysAgo := PostedDays(c[FooterLabel].s)];
    FilledAt(f);
  }

  /** Each field the job came with, other than the five derived ones, ends up
      cleaned (skills excepted) and then filled. */
  lemma NormaliseFields(m: Record)
    requires Normalise(m).Done?
    ensures forall k :: k in m && k !in DerivedKeys ==>
      k in Normalise(m).record && Normalise(m).record[k] == Fill(CleanField(k, m[k]))
  {
    NormaliseRaises(m);
    WithBoundsAt(m);
    var c := WithBounds(m).record;
    FilledAt(c[PostedDaysAgo := PostedDays(c[FooterLabel].s)]);
  }

  /** 'Min Salary' and 'Max Salary' are the bounds read from the cleaned salary
      label, with None filled in as 'Not Specified'. */
  lemma NormaliseSalary(m: Record)
    requires Normalise(m).Done?
    ensures Salary in m
    ensures var r := Normalise(m).record;
      var sal := ExtractNumeric(CleanValue(m[Salary]));
      MinSalary in r && MaxSalary in r && r[MinSalary] == Fill(sal.0) && r[MaxSalary] == Fill(sal.1)
  {
    NormaliseRaises(m);
    WithBoundsAt(m);
    var c := WithBounds(m).record;
    FilledAt(c[PostedDaysAgo := PostedDays(c[FooterLabel].s)]);
  }

  /** 'Min Experience' and 'Max Experience' likewise, from the cleaned experience label. */
  lemma NormaliseExperience(m: Record)
    requires Normalise(m).Done?
    ensures Experience in m
    ensures var r := Normalise(m).record;
      var exp := ExtractNumeric(CleanValue(m[Experience]));
      MinExperience in r && MaxExperience in r && r[MinExperience] == Fill(exp.0) && r[MaxExperience] == Fill(exp.1)
  {
    NormaliseRaises(m);
    WithBoundsAt(m);
    var c := WithBounds(m).record;
    FilledAt(c[PostedDaysAgo := PostedDays(c[FooterLabel].s)]);
  }

  /** 'Posted Days Ago' is what the cleaned footer says, or 'Not Specified'. */
  lemma NormalisePosted(m: Record)
    requires Normalise(m).Done?
    ensures FooterLabel in m && CleanValue(m[FooterLabel]).JStr?
    ensures var r := Normalise(m).record;
      PostedDaysAgo in r && r[PostedDaysAgo] == Fill(PostedDays(CleanValue(m[FooterLabel]).s))
  {
    NormaliseRaises(m);
    WithBoundsAt(m);
    var c := WithBounds(m).record;
    var f := c[PostedDaysAgo := PostedDays(c[FooterLabel].s)];
    assert Normalise(m).record == Filled(f);
    FilledAt(f);
  }

  /** A cleaned string field that is not empty comes out cleaned; an empty one
      comes out as 'Not Specified'. */
  lemma CleanedFieldShape(v: Json)
    requires v.JStr?
    ensures var r := Fill(CleanValue(v));
      r == NotSpecified || (r.JStr? && IsCleaned(r.s) && r.s != "")
  {
    CleanTextShape(v.s);
    var t := CleanText(v.s);
    if t != "" && t != "n/a" {
      assert Fill(JStr(t)) == JStr(t);
    }
  }

  /** A skills value is never cleaned, so 'N/A' survives there. */
  lemma SkillsNotAvailableKept(m: Record)
    requires Normalise(m).Done? && TagsAndSkills in m && m[TagsAndSkills] == NA
    ensures TagsAndSkills in Normalise(m).record && Normalise(m).record[TagsAndSkills] == NA
  {
    NormaliseFields(m);
  }

  /** A numeric field whose source text holds no digit ends up 'Not Specified'. */
  lemma NoDigitsNotSpecified(m: Record)
    requires Normalise(m).Done?
    requires Salary in m && m[Salary].JStr? && DigitFree(m[Salary].s)
    ensures var r := Normalise(m).record;
      MinSalary in r && MaxSalary in r && r[MinSalary] == NotSpecified && r[MaxSalary] == NotSpecified
  {
    NormaliseSalary(m);
    var s := m[Salary].s;
    var t := CleanText(s);
    CleanKeepsNoDigit(s);
    ExtractNumericNoDigits(t);
  }

  // ---------------------------------------------------------------------------
  // Properties of the list

  /** Where the loop stops: the first job whose body raises, or the end of the list. */
  function FirstRaised(os: seq<Outcome>): (n: nat)
    ensures n <= |os|
    ensures forall k :: 0 <= k < n ==> os[k].Done?
    ensures n < |os| ==> os[n].Raised?
    decreases |os|
  {
    if os == [] || os[0].Raised? then 0
    else
      var n := FirstRaised(os[1..]);
      assert forall k :: 1 <= k < n + 1 ==> os[k] == os[1..][k - 1];
      n + 1
  }

  /** After i normalised jobs, a job that raises ends the loop: the earlier dicts
      are normalised, that one is left as far as it got, the later ones untouched. */
  lemma {:induction false} SettleStep(os: seq<Outcome>, ms: seq<Record>, i: nat)
    requires |os| == |ms| && i < |ms|
    requires forall k :: 0 <= k < i ==> os[k].Done?
    requires os[i].Raised?
    ensures var (out, e) := Settle(os, ms);
      && e == Some(os[i].error) && |out| == |ms|
      && (forall k :: 0 <= k < i ==> out[k] == os[k].record)
      && out[i] == os[i].partial
      && (forall k :: i < k < |ms| ==> out[k] == ms[k])
    decreases i
  {
    if i > 0 {
      var ot, mt := os[1..], ms[1..];
      assert forall k :: 0 <= k < |ot| ==> ot[k] == os[k + 1] && mt[k] == ms[k + 1];
      SettleStep(ot, mt, i - 1);
      var (rest, e) := Settle(ot, mt);
      assert Settle(os, ms) == ([os[0].record] + rest, e);
    }
  }

  /** When no job raises, every dict is normalised. */
  lemma {:induction false} SettleDone(os: seq<Outcome>, ms: seq<Record>)
    requires |os| == |ms|
    requires forall k :: 0 <= k < |os| ==> os[k].Done?
    ensures var (out, e) := Settle(os, ms);
      e == None && |out| == |ms| && forall k :: 0 <= k < |ms| ==> out[k] == os[k].record
    decreases |ms|
  {
    if ms != [] {
      var ot, mt := os[1..], ms[1..];
      assert forall k :: 0 <= k < |ot| ==> ot[k] == os[k + 1];
      SettleDone(ot, mt);
      var (rest, e) := Settle(ot, mt);
      assert Settle(os, ms) == ([os[0].record] + rest, e);
    }
  }

  /** The loop leaves as many dicts as it was given; it ends without error exactly
      when every job is normalised; otherwise the first job that raises gives the
      error, the earlier dicts are normalised, that one is left as far as it got
      and the later ones are untouched. */
  lemma SettleShape(os: seq<Outcome>, ms: seq<Record>)
    requires |os| == |ms|
    ensures var (out, e) := Settle(os, ms);
      var n := FirstRaised(os);
      && |out| == |ms|
      && (e.None? <==> n == |os|)
      && (forall k :: 0 <= k < n ==> out[k] == os[k].record)
      && (n < |os| ==> e == Some(os[n].error) && out[n] == os[n].partial)
      && (forall k :: n < k < |ms| ==> out[k] == ms[k])
  {
    var n := FirstRaised(os);
    if n < |os| {
      SettleStep(os, ms, n);
    } else {
      SettleDone(os, ms);
    }
  }

  /** SettleShape for the loop of preprocess_job_details. */
  lemma NormaliseAllShape(ms: seq<Record>)
    ensures |NormaliseAll(ms).0| == |ms|
    ensures NormaliseAll(ms).1.None? <==> forall i :: 0 <= i < |ms| ==> Normalise(ms[i]).Done?
    ensures NormaliseAll(ms).1.None? ==>
      forall i :: 0 <= i < |ms| ==> NormaliseAll(ms).0[i] == Normalise(ms[i]).record
    ensures NormaliseAll(ms).1.Some? ==>
      exists n :: 0 <= n < |ms|
        && (forall i :: 0 <= i < n ==> Normalise(ms[i]) == Done(NormaliseAll(ms).0[i]))
        && Normalise(ms[n]) == Raised(NormaliseAll(ms).1.value, NormaliseAll(ms).0[n])
        && (forall i :: n < i < |ms| ==> NormaliseAll(ms).0[i] == ms[i])
  {
    var os := Outcomes(ms);
    SettleShape(os, ms);
    OutcomesAt(ms);
    var n := FirstRaised(os);
    if n < |ms| {
      var (out, e) := Settle(os, ms);
      assert forall i :: 0 <= i < n ==> Normalise(ms[i]) == Done(out[i]);
      assert Normalise(ms[n]) == Raised(e.value, out[n]);
    }
  }

  // ---------------------------------------------------------------------------
  // The loops, on the dicts themselves

  /** The current contents of a list of dicts. */
  function Fields(jobs: seq<Job>): seq<Record>
    reads set j | j in jobs
  {
    seq(|jobs|, i reads set j | j in jobs requires 0 <= i < |jobs| => jobs[i].fields)
  }

  /** The first loop over a job's keys (scrapper.py:47-49): each value is
      replaced by its cleaned text, except the skills column, which is kept. */
  method CleanFields(job: Job)
    modifies job
    ensures job.fields == Cleaned(old(job.fields))
  {
    ghost var m0 := job.fields;
    var todo := job.fields.Keys;
    while todo != {}
      invariant todo <= m0.Keys && job.fields.Keys == m0.Keys
      invariant forall k :: k in m0 ==> job.fields[k] == if k in todo then m0[k] else CleanField(k, m0[k])
      decreases todo
    {
      var k :| k in todo;
      if k != TagsAndSkills {
        job.fields := job.fields[k := CleanValue(job.fields[k])];
      }
      todo := todo - {k};
    }
    CleanedAt(m0);
  }

  /** The last loop over a job's keys (scrapper.py:70-72): a value that is the
      string 'n/a', the empty string or None becomes 'Not Specified'. */
  method FillMissing(job: Job)
    modifies job
    ensures job.fields == Filled(old(job.fields))
  {
    ghost var m0 := job.fields;
    var todo := job.fields.Keys;
    while todo != {}
      invariant todo <= m0.Keys && job.fields.Keys == m0.Keys
      invariant forall k :: k in m0 ==> job.fields[k] == if k in todo then m0[k] else Fill(m0[k])
      decreases todo
    {
      var k :| k in todo;
      if IsMissing(job.fields[k]) {
        job.fields := job.fields[k := NotSpecified];
      }
      todo := todo - {k};
    }
    FilledAt(m0);
  }

  /** The body of the loop over the jobs (scrapper.py:46-73) on one dict. */
  method NormaliseJob(job: Job) returns (err: Option<PyError>)
    modifies job
    ensures Normalise(old(job.fields)) == if err.None? then Done(job.fields) else Raised(err.value, job.fields)
  {
    CleanFields(job);
    if Salary !in job.fields {
      return Some(KeyError(Salary));
    }
    var (lo, hi) := ExtractNumeric(job.fields[Salary]);
    job.fields := job.fields[MinSalary := lo][MaxSalary := hi];
    if Experience !in job.fields {
      return Some(KeyError(Experience));
    }
    var (elo, ehi) := ExtractNumeric(job.fields[Experience]);
    job.fields := job.fields[MinExperience := elo][MaxExperience := ehi];
    if FooterLabel !in job.fields {
      return Some(KeyError(FooterLabel));
    }
    var footer := job.fields[FooterLabel];
    if !footer.JStr? {
      return Some(TypeError);
    }
    job.fields := job.fields[PostedDaysAgo := PostedDays(footer.s)];
    FillMissing(job);
    return None;
  }

  /** The loop over the jobs: each dict in turn goes through the loop body, until
      one raises; n is where the loop stopped. The outcomes os are what the body
      makes of the dicts ms the jobs hold on entry. */
  method NormaliseEach(jobs: seq<Job>, ghost ms: seq<Record>, ghost os: seq<Outcome>) returns (n: nat, err: Option<PyError>)
    requires forall i, j :: 0 <= i < j < |jobs| ==> jobs[i] != jobs[j]
    requires |ms| == |jobs| && forall k :: 0 <= k < |jobs| ==> jobs[k].fields == ms[k]
    requires |os| == |jobs| && forall k {:trigger Normalise(ms[k])} :: 0 <= k < |jobs| ==> os[k] == Normalise(ms[k])
    modifies set j | j in jobs
    ensures n <= |jobs| && (err.None? <==> n == |jobs|)
    ensures forall k :: 0 <= k < n ==> os[k] == Done(jobs[k].fields)
    ensures n < |jobs| ==> os[n] == Raised(err.value, jobs[n].fields)
    ensures forall k :: n < k < |jobs| ==> jobs[k].fields == old(jobs[k].fields)
  {
    n := 0;
    while n < |jobs|
      invariant n <= |jobs|
      invariant forall k :: 0 <= k < n ==> os[k] == Done(jobs[k].fields)
      invariant forall k :: n <= k < |jobs| ==> jobs[k].fields == ms[k]
    {
      assert os[n] == Normalise(ms[n]);
      err := NormaliseJob(jobs[n]);
      if err.Some? {
        return;
      }
      n := n + 1;
    }
    err := None;
  }

  /** preprocess_job_details: the same dicts, in the same order, each normalised
      in place, or the error of the first job that raises. */
  method Preprocess(jobs: seq<Job>) returns (r: Result<seq<Job>>)
    requires forall i, j :: 0 <= i < j < |jobs| ==> jobs[i] != jobs[j]
    modifies set j | j in jobs
    ensures Fields(jobs) == NormaliseAll(old(Fields(jobs))).0
    ensures r.Ok? <==> NormaliseAll(old(Fields(jobs))).1.None?
    ensures r.Err? ==> Some(r.error) == NormaliseAll(old(Fields(jobs))).1
    ensures r.Ok? ==> r.value == jobs
  {
    ghost var before := Fields(jobs);
    ghost var os := Outcomes(before);
    OutcomesAt(before);
    var n, err := NormaliseEach(jobs, before, os);
    ghost var out := Settle(os, before).0;
    if err.Some? {
      SettleStep(os, before, n);
      assert forall k :: 0 <= k < |jobs| ==> Fields(jobs)[k] == out[k];
      return Err(err.value);
    }
    SettleDone(os, before);
    assert forall k :: 0 <= k < |jobs| ==> Fields(jobs)[k] == out[k];
    return Ok(jobs);
  }
}
