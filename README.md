# GitHub reference counter for package metadata, in Dafny

`metadata-analyzer.py` reads a directory of PyPI-style JSON metadata records
and counts how many of them name a GitHub URL. Each record goes through
`json_parser`. That function always increments `package_count`. It then
probes six fixed paths, in this order:

1. `info.project_urls.Homepage`
2. `info.project_urls["Source Code"]`
3. `info.project_urls.Download`
4. `info.project_urls["Bug Tracker"]`
5. `info.home_page`
6. `info.download_url`

`github_count` is incremented at most once, and only when some probed value
satisfies `'github.com' in value`. A missing key or a wrong-typed container
raises KeyError or TypeError. That error is swallowed, the probe counts as no
match, and the next probe still runs. `analyze` feeds every record to
`json_parser` and prints the two counters and a percentage.

The model has these parts:

- `wrappers.dfy` (`Wrappers`): `Option`.
- `json.dfy` (`Json`): parsed JSON values and Python's subscript `v[key]`.
  `Lookup` returns `None` for KeyError (a dict without the key) and for
  TypeError (anything else). `LookupPath` chains lookups along a path, with
  lemmas on how paths compose.
- `pyin.dfy` (`PyIn`): Python's `needle in container`.
  - On a string it is a substring search, proved equal to "the needle occurs
    at some index".
  - On a list it tests element equality.
  - On a dict it tests key membership.
  - On null, a boolean or a number it is `None`, standing for TypeError.
- `metadata_analyzer.dfy` (`MetadataAnalyzer`): the six paths and the
  classification `IsGithub`, defined as "some probed path resolves to a value
  that contains github.com". The class `Analyzer` holds the two module
  globals as fields. Its methods:
  - `Probe`: one `try` block, with the found flag.
  - `JsonParser`: six probes in the source's order.
  - `Analyze`: the record loop.
  - `Report`: the printed figures.
- `classifier_facts.dfy` (`ClassifierFacts`): failed probes are harmless,
  and keys off the six paths have no effect.
- `scenarios.dfy` (`Scenarios`): concrete records.

Two details of the code that the model keeps:

- `json_parser` probes `Download` before `Bug Tracker`. The order does not
  affect the result, since `IsGithub` and `GithubTotal` depend only on which
  paths match.
- The test is Python's `in`, so besides a string containing `github.com` it
  also matches a list holding exactly `"github.com"` and a dict with that
  key, and does not match a list holding a GitHub URL.
  `Scenarios.ListValuesMatchByElement` and `Scenarios.DictAndNumberValues`
  state this.

## Model

| member | source | states |
|---|---|---|
| `Json.Lookup` | metadata-analyzer.py:17-22 | `v[key]` succeeds exactly when `v` is a dict holding `key`, and then gives that entry; a missing key (KeyError) or a non-dict (TypeError) is `None` |
| `Json.LookupPath` | metadata-analyzer.py:17 | the chained subscript `v[p0][p1]...`: the empty path gives `v`, a one-step path is the single subscript, and any non-empty chain on a non-dict fails (TypeError); how chains compose is `Json.LookupPathAppend` |
| `Json.LookupPathAppend` | metadata-analyzer.py:17 | a chained subscript along `p + q` gives what the chain along `q` gives from the value found along `p`, and fails when `p` fails |
| `Json.LookupPathPastNonObject` | metadata-analyzer.py:17-22 | once a prefix of the path fails or reaches a non-dict (TypeError), every longer chain fails |
| `Json.LookupPathOtherKey` | metadata-analyzer.py:17 | changing a dict entry under a key other than the path's first step leaves the chain's result unchanged |
| `Json.LookupPathUnder` | metadata-analyzer.py:17 | two values that agree along `q` give the same result for the chain `[k] + q` once stored under `k` |
| `PyIn.HasSubstring` | metadata-analyzer.py:18 | `'github.com' in url` on strings is true exactly when the needle occurs at some index of the string |
| `PyIn.In` | metadata-analyzer.py:18 | `in` raises TypeError (None) exactly for null, booleans and numbers; on a string its result is the occurrence test |
| `PyIn.Contains` | metadata-analyzer.py:18 | `'github.com' in url` evaluates without TypeError and is true: never for null, booleans or numbers; on a string exactly when the needle occurs at some index; on a list exactly when some element equals the needle string; on a dict exactly when it has the needle as a key |
| `MetadataAnalyzer.ProbeMatches` | metadata-analyzer.py:17-22 | the condition of one `try` block: true exactly when the path resolves without KeyError or TypeError to a value that contains github.com; a non-empty path can only match on a dict record |
| `MetadataAnalyzer.IsGithub` | metadata-analyzer.py:16-62 | a record is a GitHub record exactly when some one of the six probes matches (its definition), so a failing probe never prevents a later one from deciding; a GitHub record always has a dict under "info" |
| `MetadataAnalyzer.IsGithubSixProbes` | metadata-analyzer.py:16-62 | the classification is the disjunction of the six probes Homepage, Source Code, Download, Bug Tracker, home_page, download_url |
| `MetadataAnalyzer.GithubTotal` | metadata-analyzer.py:67-70 | the number of GitHub records in a list never exceeds the list's length |
| `MetadataAnalyzer.GithubTotalAppend` | metadata-analyzer.py:67-70 | counting two batches of records one after the other adds their counts |
| `MetadataAnalyzer.GithubTotalPermutation` | metadata-analyzer.py:67 | the count does not depend on the order of the directory listing: permuted records give the same count |
| `MetadataAnalyzer.Percentage` | metadata-analyzer.py:73 | defined only with at least one package; between 0 and 100 when github <= packages, 0 exactly when no GitHub record, 100 exactly when all are |
| `MetadataAnalyzer.Analyzer.constructor` | metadata-analyzer.py:5-6 | both counters start at 0, so github_count <= package_count holds |
| `MetadataAnalyzer.Analyzer.Probe` | metadata-analyzer.py:16-22 | one guarded probe, a step of `JsonParser` only: the flag becomes set when it was set or this path matches; github_count rises by 1 exactly when this path matches and the flag was clear; package_count is unchanged |
| `MetadataAnalyzer.Analyzer.JsonParser` | metadata-analyzer.py:9-62 | package_count rises by exactly 1; github_count rises by 1 if and only if some probed path contains github.com, whatever earlier probes raised, otherwise it is unchanged (so at most once); github_count <= package_count is preserved |
| `MetadataAnalyzer.Analyzer.Analyze` | metadata-analyzer.py:67-70 | after the loop package_count has risen by the number of records and github_count by the number of GitHub records; github_count <= package_count is preserved |
| `MetadataAnalyzer.Analyzer.Report` | metadata-analyzer.py:72-73 | returns both counters and a percentage with `percent * package_count == github_count * 100`, in [0, 100] under the invariant; needs package_count > 0 (the source divides by it) |
| `MetadataAnalyzer.Run` | metadata-analyzer.py:67-70 | from 0/0, after n records package_count == n and github_count is the number of GitHub records, with github_count <= package_count |
| `ClassifierFacts.SameProbesSameVerdict` | metadata-analyzer.py:16-62 | two records on which the six paths resolve alike are classified alike |
| `ClassifierFacts.NoInfoObjectNeverMatches` | metadata-analyzer.py:17-62 | a record without a dict under "info" (missing, string, list, non-object record) matches nothing |
| `ClassifierFacts.EmptyRecordNeverMatches` | metadata-analyzer.py:16-62 | the top-level record `{}` is not a GitHub record |
| `ClassifierFacts.BrokenProjectUrlsFallsBack` | metadata-analyzer.py:16-62 | when `info.project_urls` is missing or not a dict, the record is GitHub exactly when `home_page` or `download_url` matches |
| `ClassifierFacts.OtherTopLevelKeysIrrelevant` | metadata-analyzer.py:17 | setting any top-level key other than "info" does not change the classification |
| `ClassifierFacts.OtherInfoKeysIrrelevant` | metadata-analyzer.py:17-57 | setting any key of "info" other than project_urls, home_page and download_url does not change the classification |
| `ClassifierFacts.OtherProjectUrlLabelsIrrelevant` | metadata-analyzer.py:17-41 | setting any project_urls label other than the four probed ones does not change the classification |
| `Scenarios.GithubHomePage` | metadata-analyzer.py:48-52 | a record with `home_page` "http://github.com/a/b" is a GitHub record |
| `Scenarios.OtherHomePage` | metadata-analyzer.py:48-54 | a record whose only field is a `home_page` without the letter g is not a GitHub record |
| `Scenarios.GithubBugTracker` | metadata-analyzer.py:40-44 | a record with the project_urls label "Bug Tracker" naming github.com is a GitHub record |
| `Scenarios.ThreeRecordDirectory` | metadata-analyzer.py:67-73 | the three records above give 2 GitHub records out of 3, a percentage of 200/3 before rounding |
| `Scenarios.DoubleMatchCountedOnce` | metadata-analyzer.py:16-54 | a record whose Homepage label and home_page both name GitHub counts once |
| `Scenarios.ListValuesMatchByElement` | metadata-analyzer.py:48-52 | a list value matches when it holds exactly "github.com", not when it holds a GitHub URL |
| `Scenarios.DictAndNumberValues` | metadata-analyzer.py:56-62 | a dict value matches by key; a number raises TypeError and is no match |

## Left out

- Directory listing, file opening and reading, and `json.load` (metadata-analyzer.py:67-69) are I/O and library parsing. The input is an already-parsed sequence of records. A parse failure, which ends the program, is not modelled.
- Printing the two report lines (metadata-analyzer.py:72-73) is I/O. `Report` returns the printed figures instead.
- `MetadataAnalyzer.Analyzer.Report`: the percentage is the exact real quotient, not Python's float rounded by `round(..., 2)`, because floating point and decimal formatting are out of scope. With no records the source raises ZeroDivisionError; the model states this as the precondition `packageCount > 0`.
- The argparse command line in `main` (metadata-analyzer.py:76-85) is library plumbing.
- The exception machinery is not modelled. KeyError and TypeError from subscripts and from `in` become `None` results.
- JSON numbers are integers in the model. Python floats behave the same here, because the classifier only ever hits TypeError on a number.
- The module globals `github_count` and `package_count` are fields of one `Analyzer` object. The source has exactly one such state per process.
