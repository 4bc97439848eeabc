/** The flat job records the scraper builds: their field names, and the dict
    object that holds one of them and that the normaliser updates in place. */
module Records {
  import opened Values

  // The ten fields extract_job_details writes (scrapper.py:132-143)
  const JobId := "Job ID"
  const JobTitle := "Job Title"
  const CompanyName := "Company Name"
  const FooterLabel := "Footer Placeholder Label"
  const TagsAndSkills := "Tags and Skills"
  const Experience := "Experience"
  const Salary := "Salary"
  const Location := "Location"
  const JobDescription := "Job Description"
  const ScrapedDate := "Scraped Date"

  // The five fields preprocess_job_details adds (scrapper.py:52-67)
  const MinSalary := "Min Salary"
  const MaxSalary := "Max Salary"
  const MinExperience := "Min Experience"
  const MaxExperience := "Max Experience"
  const PostedDaysAgo := "Posted Days Ago"

  const ExtractedKeys: set<string> :=
    {JobId, JobTitle, CompanyName, FooterLabel, TagsAndSkills,
     Experience, Salary, Location, JobDescription, ScrapedDate}

  const DerivedKeys: set<string> :=
    {MinSalary, MaxSalary, MinExperience, MaxExperience, PostedDaysAgo}

  /** A dict display {k1: v1, ..., kn: vn}: built from left to right, a
      later occurrence of a key overriding an earlier one. */
  function Dict(pairs: seq<(string, Json)>): Record
    decreases |pairs|
  {
    if pairs == [] then map[]
    else Dict(pairs[..|pairs| - 1])[pairs[|pairs| - 1].0 := pairs[|pairs| - 1].1]
  }

  /** The keys of a display are the keys it lists. */
  lemma {:induction false} DictKeys(pairs: seq<(string, Json)>)
    ensures forall k :: k in Dict(pairs) <==> exists i :: 0 <= i < |pairs| && pairs[i].0 == k
    decreases |pairs|
  {
    if pairs != [] {
      var init := pairs[..|pairs| - 1];
      DictKeys(init);
      assert forall i :: 0 <= i < |init| ==> init[i] == pairs[i];
    }
  }

  /** A key maps to the value of its last occurrence in the display. */
  lemma {:induction false} DictLookup(pairs: seq<(string, Json)>, i: nat)
    requires i < |pairs|
    requires forall j :: i < j < |pairs| ==> pairs[j].0 != pairs[i].0
    ensures pairs[i].0 in Dict(pairs) && Dict(pairs)[pairs[i].0] == pairs[i].1
    decreases |pairs|
  {
    if i < |pairs| - 1 {
      var init := pairs[..|pairs| - 1];
      DictLookup(init, i);
    }
  }

  /** The default of every field the response leaves out. */
  const NA := JStr("N/A")

  /** A Python dict holding one job. */
  class Job {
    var fields: Record

    constructor (m: Record)
      ensures fields == m
    {
      fields := m;
    }
  }
}
