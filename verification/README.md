# Naukri job scraper, modelled in Dafny

This project models the core of `scrapper.py`, a script that pulls job postings
from the Naukri search API page by page, flattens each posting into a dict of ten
columns, normalises the dicts in place and writes them out as CSV and JSON.

The model has one module per part of the script:

- `Values`: decoded JSON values (`Json`), the Python exceptions the core can
  raise (`PyError`), and `Option` and `Result`.
- `Text`: `clean_text`. It removes `<...>` tags, blanks every character that is
  not `\w`, whitespace or a comma, collapses whitespace runs, strips, and lower-cases.
  It also holds the `str.split`, `str.join` and `str.strip` helpers the extractor uses.
- `Patterns`: the three regular expressions of the core. Python's leftmost,
  backtracking search is written out as functions. On top of them sit
  `extract_numeric_values` and the "posted days ago" computation.
- `Records`: the column names, the job dict as a class `Job` whose `fields` map is
  updated in place, and dict literals.
- `Extractor`: `extract_job_details`. Its loops are methods, each proved equal to a
  specification function; the properties are lemmas about those functions.
- `Normaliser`: `preprocess_job_details`. Its methods clean, enrich and fill the
  `Job` objects in place. The methods are proved against `Normalise` (one dict)
  and `NormaliseAll` (the whole list, including a job that raises part-way through).
- `Scraper`: `scrape_naukri_jobs` without the network. Each page is given as its
  decoded response body, or as `None` when the request failed. The pages are
  gathered, preprocessed, and the first row is read for the CSV header.
- `Scenarios`: the worked examples from the script's own comments, and cases
  where the code's behaviour is easy to misread.

Behaviours of the code worth knowing:

- Every field except 'Tags and Skills' is cleaned before the salary and the
  experience are read. So "₹2.5 Cr" is read from "2 5 cr" as 2 to 5 crore, not as
  2.5 crore (`Scenarios.CroreSalaryNormalised`, `Scenarios.RawCrore`).
- The extractor's 'N/A' default is itself cleaned to "n a". It is then no longer one
  of the missing values ('n/a', '', None), so it is never replaced by 'Not Specified'
  (`Scenarios.NotAvailableCleaned`).
- The numeric columns are filled like every other column: a salary or experience
  that does not parse, or a footer without a posted date, ends as 'Not Specified'
  (`Normaliser.NoDigitsNotSpecified`).
- 'Scraped Date' is cleaned like every other column, so "2024-05-01" becomes
  "2024 05 01".
- Any list of one-character strings is taken for a word spelled out letter by
  letter. So the skills ['C', 'R'] give "CR", while the string "C,R" gives "C, R"
  (`Scenarios.OneLetterSkillsJoined`).

The clock enters as the `today` parameter. Floats are exact `real`s. A dict's
iteration order is not modelled: each loop over keys takes them in an arbitrary
order, and the result is proved the same for any order.

## Model

| member | source | states |
|---|---|---|
| Text.CleanValue | scrapper.py:8-14 | a string comes back as a string; any other value comes back unchanged |
| Text.CleanTextShape | scrapper.py:10-13 | the result of clean_text has only lower-case word characters, commas and single inner spaces, with no blank at either end |
| Text.CleanedIsFixed | scrapper.py:10-13 | clean_text leaves an already-cleaned string unchanged |
| Text.FixedIffCleaned | scrapper.py:10-13 | clean_text leaves a string unchanged exactly when the string is already cleaned |
| Text.CleanTextIdempotent | scrapper.py:10-13 | cleaning twice gives the same as cleaning once |
| Text.CleanKeepsNoDigit | scrapper.py:10-13 | cleaning never introduces a digit |
| Text.Split | scrapper.py:96 | str.split gives at least one piece, and no piece contains the separator |
| Text.JoinSplit | scrapper.py:96 | joining the pieces of a split with the separator gives back the string |
| Text.SplitJoin | scrapper.py:96 | splitting a join of separator-free pieces gives back the pieces |
| Text.StripFacts | scrapper.py:12 | str.strip returns the slice of its input between a leading and a trailing run of whitespace, and that slice has no whitespace at either end |
| Patterns.DigitRun | scrapper.py:20 | `\d+` at i ends at the first non-digit |
| Patterns.SkipWs | scrapper.py:20 | `\s*` at i ends at the first non-whitespace character |
| Patterns.DigitRunDigits | scrapper.py:20 | every character `\d+` consumes is a digit |
| Patterns.SkipWsSpaces | scrapper.py:20 | every character `\s*` consumes is whitespace |
| Patterns.LongestIsLongest | scrapper.py:20 | backtracking over a greedy group takes the longest end whose continuation matches, and fails only when no end matches |
| Patterns.LeftmostIsFirst | scrapper.py:20 | re.search returns the leftmost position where the pattern matches, and None only when it matches nowhere |
| Patterns.MatchIsWellFormed | scrapper.py:20 | a match is made of numerals the pattern allows and one of its units, laid out in the text in the pattern's order: the first number after the optional '₹', the gap, the optional second number, blanks and the unit |
| Patterns.NoDigitNoMatch | scrapper.py:20 | text without a digit matches none of the three patterns |
| Patterns.NoUnitNoMatch | scrapper.py:20 | text that spells none of a pattern's units matches it nowhere |
| Patterns.RangeSpelledTwo | scrapper.py:20 | a numeral, a non-empty gap of blanks and at most one '-', a second numeral, blanks and a unit spelled at p make a match at p with exactly those groups |
| Patterns.RangeSpelledOne | scrapper.py:20 | a numeral, a gap of blanks and at most one '-', and a unit spelled at p make a match at p without a second number |
| Patterns.CountSpelled | scrapper.py:56 | digits, blanks and a unit spelled at p make a match of the count pattern at p with those groups |
| Patterns.RangeSearchTwo | scrapper.py:20 | re.search over digit-free text followed by a spelled range with two numbers finds exactly that range's groups |
| Patterns.RangeSearchOne | scrapper.py:20 | re.search over digit-free text followed by a spelled range with one number finds that number and unit, with no second group |
| Patterns.CountSearch | scrapper.py:56 | re.search over digit-free text followed by spelled digits, blanks and a unit finds those groups |
| Patterns.SearchSkips | scrapper.py:20 | the search passes over any stretch of positions where the pattern does not start |
| Patterns.NumeralValueExact | scrapper.py:22-23 | float of a numeral with f digits after its '.', shifted f decimal places, is the whole number its digits spell once the '.' is dropped |
| Patterns.ShiftIsProduct | scrapper.py:22-23 | shifting a value n decimal places is multiplying it by ten to the n |
| Patterns.FractionExact | scrapper.py:22-23 | the digits after a '.', shifted by their count, give the whole number they spell |
| Patterns.NumeralOfDigits | scrapper.py:36-37 | float of a numeral without a '.' is the integer its digits spell |
| Patterns.DigitsAppend | scrapper.py:59 | int of two digit strings written one after the other is the first shifted left by the length of the second, plus the second |
| Patterns.ExtractNumeric | scrapper.py:17-40 | a non-string gives (None, None); both bounds are None or neither is; a bound is a non-negative number |
| Patterns.SalaryRange | scrapper.py:17-31 | salary text laid out as digit-free text, a numeral, a gap, a second numeral, blanks and a unit gives the two numbers scaled by the unit |
| Patterns.SalarySingle | scrapper.py:17-31 | salary text with one numeral before its unit gives that number, scaled by the unit, as both bounds |
| Patterns.ExperienceRange | scrapper.py:33-38 | text naming no salary unit, laid out as digit-free text, a whole number, a gap, a second whole number, blanks and years or yrs, gives the two numbers |
| Patterns.ExperienceSingle | scrapper.py:33-38 | such text with one whole number before years or yrs gives that number as both bounds |
| Patterns.ExtractNumericNoDigits | scrapper.py:17-40 | text without a digit gives (None, None) |
| Patterns.PostedDays | scrapper.py:56-67 | the posted-days value is None or a non-negative whole number |
| Patterns.PostedValue | scrapper.py:56-67 | a footer laid out as digit-free text, digits, blanks and day, week or month gives n, 7 n or 30 n days |
| Patterns.PostedDaysNoDigits | scrapper.py:56-67 | a footer without a digit gives None |
| Records.DictKeys | scrapper.py:132-143 | a dict literal's keys are exactly the keys written in it |
| Records.DictLookup | scrapper.py:132-143 | a dict literal maps a key to the last value written for that key |
| Records.Job.constructor | scrapper.py:132 | a new dict holds exactly the given fields |
| Extractor.Elements | scrapper.py:79 | iterating a list yields its items, a string its characters as one-character strings in order, and a dict its keys; iterating any other value raises TypeError |
| Extractor.Concat | scrapper.py:93 | ''.join of one-character strings has one character per item, in order |
| Extractor.NonEmpty | scrapper.py:113 | the kept skills are exactly the non-empty ones |
| Extractor.NonEmptyAppend | scrapper.py:113 | dropping the empty skills works piece by piece, so the kept skills keep the order and the repeats of the input |
| Extractor.NonEmptyOne | scrapper.py:113 | a single skill is kept exactly when it is not empty |
| Extractor.SkillsText | scrapper.py:86-114 | the skills value exists exactly when the raw tags can be read; it is never empty, and it is 'N/A' when every raw skill is empty |
| Extractor.CharListReadsAsString | scrapper.py:91-98 | a list of single characters is read as the string they spell: split at commas when it has one, kept whole otherwise |
| Extractor.StringWithoutComma | scrapper.py:108-114 | a string without a comma is one stripped skill, or 'N/A' when it is blank |
| Extractor.LabelsReadAsStrings | scrapper.py:104-105 | dicts with string labels contribute exactly what those label strings would |
| Extractor.StringItems | scrapper.py:101-103 | a list of plain strings contributes each string stripped, in order |
| Extractor.StringsReadAsCommaString | scrapper.py:89-110 | a list of comma-free strings that is not a list of single characters reads the same as those strings joined by commas |
| Extractor.OthersContributeNothing | scrapper.py:101-107 | elements that are neither strings nor dicts with a 'label' or a 'title' contribute nothing to the skills |
| Extractor.OthersDroppedFromSkills | scrapper.py:99-114 | removing those elements from a list leaves its skills value unchanged, as long as neither list is a list of single characters |
| Extractor.CommaSkillsAreClean | scrapper.py:110 | each non-empty stripped piece of a comma split has no comma and no blank at either end |
| Extractor.SkillsRoundTrip | scrapper.py:110-114 | a ', '-joined string of clean skills reads back as itself |
| Extractor.NotAvailableReadsAsItself | scrapper.py:110-114 | the string 'N/A' reads back as 'N/A' |
| Extractor.StringSkillsIdempotent | scrapper.py:108-114 | reading a skills string a second time changes nothing |
| Extractor.PlaceholdersFailAtFirstRejected | scrapper.py:122-128 | the placeholder loop succeeds exactly when every placeholder is a dict with a 'type', and with a 'label' when that type is experience, salary or location; otherwise it raises the error of the first one that does not |
| Extractor.LastPlaceholderWins | scrapper.py:122-128 | experience, salary and location each hold the label of the last placeholder of their type |
| Extractor.UnnamedSlotKeepsDefault | scrapper.py:118-128 | a slot that no placeholder names keeps 'N/A' |
| Extractor.ExtractJobShape | scrapper.py:132-143 | an extracted job has exactly the ten columns, today's date, and a non-empty skills string |
| Extractor.JobRecordFields | scrapper.py:80-83 | each column holds what the literal puts there: the job's value or 'N/A', the skills, the three placeholder slots and the date |
| Extractor.JobKeysDistinct | scrapper.py:132-143 | no column name occurs twice in the literal |
| Extractor.CollectFails | scrapper.py:79-143 | a loop of outcomes fails exactly when one element fails, and with the first failure's error |
| Extractor.ExtractAllPerJob | scrapper.py:79-143 | a successful extraction has one record per job, each the record of its job, in order |
| Extractor.ExtractAllFails | scrapper.py:79-143 | the extraction raises exactly when some job does, and with the error of the first such job |
| Extractor.CollectSkills | scrapper.py:101-107 | the loop over a list of words or label dicts computes the skills function |
| Extractor.ResolvePlaceholders | scrapper.py:117-128 | the placeholder loop computes the placeholder fold |
| Extractor.ExtractOne | scrapper.py:80-143 | the loop body builds the record of one job, or raises its error |
| Extractor.ExtractAllJobs | scrapper.py:79-143 | the loop over 'jobDetails' gives the records of all jobs, or the first error |
| Extractor.NewJobs | scrapper.py:132 | one fresh, distinct dict per record, in order |
| Extractor.ExtractJobDetails | scrapper.py:77-145 | succeeds exactly when the specification does, with the same error; otherwise returns fresh, distinct dicts holding the specified records |
| Normaliser.Fill | scrapper.py:70-72 | a missing value ('n/a', '' or None) becomes 'Not Specified'; other values are kept; the result is never missing |
| Normaliser.CleanedAt | scrapper.py:47-49 | the cleaning loop keeps the keys and cleans every value except 'Tags and Skills' |
| Normaliser.FilledAt | scrapper.py:70-72 | the filling loop keeps the keys and fills every value |
| Normaliser.WithBoundsAt | scrapper.py:47-54 | with 'Salary' and 'Experience' present, the four bound columns come from the cleaned salary and experience, and every other column is cleaned |
| Normaliser.NormaliseRaises | scrapper.py:52-56 | a job raises exactly when 'Salary', 'Experience' or the footer is missing (KeyError) or the cleaned footer is not a string (TypeError) |
| Normaliser.NormaliseKeys | scrapper.py:52-67 | a normalised job has its own columns plus the five derived ones |
| Normaliser.NormaliseNoMissing | scrapper.py:69-72 | no column of a normalised job is 'n/a', '' or None |
| Normaliser.NormaliseFields | scrapper.py:47-49 | every original column that is not derived ends as its cleaned (skills: raw) value, filled |
| Normaliser.NormaliseSalary | scrapper.py:52 | Min and Max Salary are the filled bounds read from the cleaned salary |
| Normaliser.NormaliseExperience | scrapper.py:53 | Min and Max Experience are the filled bounds read from the cleaned experience |
| Normaliser.NormalisePosted | scrapper.py:56-67 | 'Posted Days Ago' is the filled day count read from the cleaned footer |
| Normaliser.CleanedFieldShape | scrapper.py:47-49 | a string column ends as 'Not Specified' or as a non-empty cleaned string |
| Normaliser.SkillsNotAvailableKept | scrapper.py:48 | a skills value of 'N/A' is not cleaned and ends as 'N/A' |
| Normaliser.NoDigitsNotSpecified | scrapper.py:52 | a salary string without digits ends with both bounds 'Not Specified' |
| Normaliser.OutcomesAt | scrapper.py:45-74 | the loop body's outcome for each job is that job's own outcome |
| Normaliser.FirstRaised | scrapper.py:45-74 | the position of the first job that raises: every job before it completes |
| Normaliser.SettleShape | scrapper.py:45-74 | the list after the loop: jobs before the first raise are normalised, that job keeps its partial state, later jobs are untouched |
| Normaliser.NormaliseAllShape | scrapper.py:43-75 | no error exactly when every job completes, and then each dict is its normalised self; on an error, the jobs after the raising one are unchanged |
| Normaliser.CleanFields | scrapper.py:47-49 | the in-place cleaning loop leaves the cleaned dict |
| Normaliser.FillMissing | scrapper.py:70-72 | the in-place filling loop leaves the filled dict |
| Normaliser.NormaliseJob | scrapper.py:46-72 | one job's dict ends as its normalised record, or as its partial state together with the error raised |
| Normaliser.NormaliseEach | scrapper.py:45-74 | the loop stops at the first job that raises; the jobs before it are done and the later ones are untouched |
| Normaliser.Preprocess | scrapper.py:43-75 | the dicts end as the specification says; the call returns a new list holding the same dicts in the same order, or raises the specified error |
| Scraper.PageColumns | scrapper.py:188-193 | every record a page adds has exactly the ten extracted columns |
| Scraper.GatheredColumns | scrapper.py:184-197 | every gathered record has exactly the ten extracted columns |
| Scraper.ExtractedFault | scrapper.py:52-56 | an extracted dict can only fail preprocessing with a TypeError on a non-string footer |
| Scraper.NoPagesIndexError | scrapper.py:186-208 | when no page can be fetched, reading the first row raises IndexError |
| Scraper.ScrapeErrors | scrapper.py:186-208 | the run succeeds exactly when something was gathered and every footer is a string; otherwise it raises TypeError or IndexError |
| Scraper.ScrapeColumns | scrapper.py:208-210 | every row written has the same fifteen columns as the first row |
| Scraper.FieldsAppend | scrapper.py:193 | extending the results appends the new dicts' fields |
| Scraper.GatherPages | scrapper.py:184-197 | the page loop gathers the records of every page that was fetched and extracted, in order, as fresh distinct dicts |
| Scraper.Scrape | scrapper.py:147-218 | succeeds exactly when the specification does, with the same error; otherwise the returned dicts hold the specified rows |
| Scenarios.RawSalaryInLakhs | scrapper.py:19-31 | "₹5-10 LPA" is 500000 to 1000000 |
| Scenarios.SalaryInLakhs | scrapper.py:19-31 | its cleaned form "5 10 lpa" is also 500000 to 1000000 |
| Scenarios.RawCrore | scrapper.py:20-30 | uncleaned, "₹2.5 Cr" is 25000000 both ways |
| Scenarios.CleanCrore | scrapper.py:10-13 | clean_text makes "₹2.5 Cr" into "2 5 cr" |
| Scenarios.CleanedCrore | scrapper.py:20-30 | "2 5 cr" is 20000000 to 50000000 |
| Scenarios.CroreSalaryNormalised | scrapper.py:47-52 | a job whose salary is "₹2.5 Cr" ends with a salary range of 2 to 5 crore |
| Scenarios.ExperienceRange | scrapper.py:33-38 | "2 5 years", the cleaned form of "2-5 years", is 2 to 5 |
| Scenarios.PostedThirtyDays | scrapper.py:56-61 | "30 days ago" is 30 days |
| Scenarios.PostedTwoWeeks | scrapper.py:62-63 | "2 weeks ago" is 14 days |
| Scenarios.CleanNotAvailable | scrapper.py:10-13 | clean_text makes 'N/A' into "n a" |
| Scenarios.NotAvailableCleaned | scrapper.py:47-49 | a non-skills column that held 'N/A' ends as "n a", not as 'Not Specified' |
| Scenarios.OneLetterSkillsJoined | scrapper.py:89-114 | the list ['C', 'R'] gives the skills value "CR", while the string "C,R" gives "C, R" |
| Scenarios.SpelledSkills | scrapper.py:90-96 | the characters of "java,c++" give the skills value "java, c++" |
| Scenarios.CommaPair | scrapper.py:108-114 | two clean comma-free skills written "a,b" read as "a, b" |

## Left out

- The HTTP request, with its URL, headers, parameters, timeout and status check, is left out. Each page is given as `Some(body)` or `None`. A body that fails to decode counts as `None`, like the try/except around it.
- Creating the output directory and writing the CSV and JSON files are left out. The model keeps only the `[0]` read that the CSV header needs. The progress messages printed by the script are left out as well.
- The clock is left out: `datetime.now()` enters as the string parameter `today`.
- Floating point is not modelled: salaries and experience are exact reals.
- `\w`, `\s` and `lower()` are ASCII-only. A non-ASCII letter or digit is treated as punctuation, and so is blanked by cleaning. `\d` and `str.strip()` are ASCII-only likewise: a non-ASCII decimal digit is not a digit to the patterns, and non-ASCII whitespace such as U+00A0 or U+3000 is not stripped from skills.
- Dict iteration order is left out. The cleaning and filling loops take keys in an arbitrary order, and their result does not depend on it.
- Normaliser.Preprocess: requires the dicts of the list to be distinct objects. A list holding the same dict twice is not modelled.
- Normaliser.NormaliseEach: requires the same distinctness as `Preprocess`.
- Extractor.ExtractJobDetails: the dicts are allocated after the loop over 'jobDetails' rather than inside it. No caller can observe the difference.
- Extractor.Elements: iterating a dict yields placeholder strings in place of its keys. Only the fact that they are strings matters to the loops that consume them.
- `analysis_dashboard.py` is not part of this model.
