/** scrape_naukri_jobs (scrapper.py:147-218) with the network taken out: each
    requested page is given as its decoded response body, or None when the
    request failed, raised, or did not answer 200. The pages are read in order,
    their jobs gathered, the whole list preprocessed, and the first row read for
    the CSV header. */
module Scraper {
  import opened Values
  import opened Records
  import opened Extractor
  import opened Normaliser

  /** What one page adds to the results: nothing when the request failed or
      extract_job_details raised (the page's try catches both). */
  function PageRecords(page: Option<Json>, today: string): seq<Record>
  {
    match page
    case None => []
    case Some(data) =>
      match ExtractRecords(data, today)
      case Ok(recs) => recs
      case Err(_) => []
  }

  /** results after the loop over pages. */
  function Gathered(pages: seq<Option<Json>>, today: string): seq<Record>
    decreases |pages|
  {
    if pages == [] then []
    else Gathered(pages[..|pages| - 1], today) + PageRecords(pages[|pages| - 1], today)
  }

  /** What scrape_naukri_jobs returns or raises: the error of the first job the
      preprocessing rejects, IndexError when no job was gathered, and otherwise
      the normalised records. */
  ghost function ScrapeResult(pages: seq<Option<Json>>, today: string): Result<seq<Record>>
  {
    var (out, err) := NormaliseAll(Gathered(pages, today));
    if err.Some? then Err(err.value)
    else if out == [] then Err(IndexError)
    else Ok(out)
  }

  // ---------------------------------------------------------------------------
  // Properties

  /** Every record a page yields has exactly the ten extracted columns. */
  lemma PageColumns(page: Option<Json>, today: string)
    ensures forall i :: 0 <= i < |PageRecords(page, today)| ==> PageRecords(page, today)[i].Keys == ExtractedKeys
  {
    if page.Some? && ExtractRecords(page.value, today).Ok? {
      var data := page.value;
      var jobs := Elements(data.fields["jobDetails"]).value;
      assert ExtractRecords(data, today) == ExtractAll(jobs, today);
      ExtractAllPerJob(jobs, today);
      forall i | 0 <= i < |jobs|
        ensures ExtractAll(jobs, today).value[i].Keys == ExtractedKeys
      {
        ExtractJobShape(jobs[i], today);
      }
    }
  }

  /** Every gathered record has exactly the ten extracted columns. */
  lemma {:induction false} GatheredColumns(pages: seq<Option<Json>>, today: string)
    ensures forall i :: 0 <= i < |Gathered(pages, today)| ==> Gathered(pages, today)[i].Keys == ExtractedKeys
    decreases |pages|
  {
    if pages != [] {
      var init := pages[..|pages| - 1];
      GatheredColumns(init, today);
      PageColumns(pages[|pages| - 1], today);
    }
  }

  /** A dict with the ten extracted columns can only fail preprocessing on its
      footer, which must be a string. */
  lemma ExtractedFault(m: Record)
    requires m.Keys == ExtractedKeys
    ensures Fault(m).None? <==> m[FooterLabel].JStr?
    ensures Fault(m).Some? ==> Fault(m).value == TypeError
  {
  }

  /** Every page failing, or none being requested, leaves nothing to read the
      header from: IndexError. */
  lemma NoPagesIndexError(pages: seq<Option<Json>>, today: string)
    requires forall i :: 0 <= i < |pages| ==> pages[i].None?
    ensures ScrapeResult(pages, today) == Err(IndexError)
  {
    NoPagesGatherNothing(pages, today);
  }

  lemma {:induction false} NoPagesGatherNothing(pages: seq<Option<Json>>, today: string)
    requires forall i :: 0 <= i < |pages| ==> pages[i].None?
    ensures Gathered(pages, today) == []
    decreases |pages|
  {
    if pages != [] {
      NoPagesGatherNothing(pages[..|pages| - 1], today);
    }
  }

  /** Request and extraction errors are swallowed page by page, so the only
      errors that escape are a non-string footer (TypeError) and an empty result
      (IndexError); the run succeeds exactly when something was gathered and
      every gathered footer is a string. */
  lemma ScrapeErrors(pages: seq<Option<Json>>, today: string)
    ensures var ms := Gathered(pages, today);
      ScrapeResult(pages, today).Ok? <==>
        ms != [] && forall i :: 0 <= i < |ms| ==> FooterLabel in ms[i] && ms[i][FooterLabel].JStr?
    ensures ScrapeResult(pages, today).Err? ==>
      ScrapeResult(pages, today).error == TypeError || ScrapeResult(pages, today).error == IndexError
  {
    var ms := Gathered(pages, today);
    GatheredColumns(pages, today);
    NormaliseAllShape(ms);
    forall i | 0 <= i < |ms|
      ensures Normalise(ms[i]).Done? <==> ms[i][FooterLabel].JStr?
      ensures Normalise(ms[i]).Raised? ==> Normalise(ms[i]).error == TypeError
    {
      ExtractedFault(ms[i]);
      NormaliseRaises(ms[i]);
    }
  }

  /** Every row written has the same fifteen columns: the ten extracted ones
      and the five derived ones, so the header read from the first row fits all. */
  lemma ScrapeColumns(pages: seq<Option<Json>>, today: string)
    requires ScrapeResult(pages, today).Ok?
    ensures var rows := ScrapeResult(pages, today).value;
      |rows| > 0 && forall i :: 0 <= i < |rows| ==> rows[i].Keys == ExtractedKeys + DerivedKeys
  {
    var ms := Gathered(pages, today);
    GatheredColumns(pages, today);
    NormaliseAllShape(ms);
    forall i | 0 <= i < |ms|
      ensures Normalise(ms[i]).record.Keys == ExtractedKeys + DerivedKeys
    {
      NormaliseKeys(ms[i]);
    }
  }

  // ---------------------------------------------------------------------------
  // The loop over pages

  lemma FieldsAppend(a: seq<Job>, b: seq<Job>)
    ensures Fields(a + b) == Fields(a) + Fields(b)
  {
    assert forall i :: 0 <= i < |a| + |b| ==> Fields(a + b)[i] == (Fields(a) + Fields(b))[i];
  }

  /** The loop over pages: the jobs of every page that was fetched and
      extracted, in page order, each a new dict. */
  method GatherPages(pages: seq<Option<Json>>, today: string) returns (results: seq<Job>)
    ensures Fields(results) == Gathered(pages, today)
    ensures forall i :: 0 <= i < |results| ==> fresh(results[i])
    ensures forall i, j :: 0 <= i < j < |results| ==> results[i] != results[j]
  {
    results := [];
    for p := 0 to |pages|
      invariant Fields(results) == Gathered(pages[..p], today)
      invariant forall i :: 0 <= i < |results| ==> fresh(results[i])
      invariant forall i, j :: 0 <= i < j < |results| ==> results[i] != results[j]
    {
      assert pages[..p + 1][..p] == pages[..p];
      if pages[p].Some? {
        var page := ExtractJobDetails(pages[p].value, today);
        if page.Ok? {
          assert Fields(page.value) == PageRecords(pages[p], today);
          FieldsAppend(results, page.value);
          results := results + page.value;
        }
      }
    }
    assert pages[..|pages|] == pages;
  }

  /** scrape_naukri_jobs, without the requests and the files it writes. */
  method Scrape(pages: seq<Option<Json>>, today: string) returns (r: Result<seq<Job>>)
    ensures r.Ok? <==> ScrapeResult(pages, today).Ok?
    ensures r.Err? ==> r.error == ScrapeResult(pages, today).error
    ensures r.Ok? ==> Fields(r.value) == ScrapeResult(pages, today).value
  {
    var results := GatherPages(pages, today);
    var processed := Preprocess(results);
    if processed.Err? {
      return Err(processed.error);
    }
    if |processed.value| == 0 {
      return Err(IndexError);
    }
    return Ok(processed.value);
  }
}
