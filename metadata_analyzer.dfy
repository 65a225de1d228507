/** The GitHub classifier of package metadata records: `json_parser` and the
    record loop of `analyze`, over records that are already parsed. */
module MetadataAnalyzer {
  import opened Wrappers
  import opened Json
  import opened PyIn

  /** The substring a probed value must contain. */
  const GithubHost: string := "github.com"

  const ProjectHomepage: seq<string> := ["info", "project_urls", "Homepage"]
  const ProjectSourceCode: seq<string> := ["info", "project_urls", "Source Code"]
  const ProjectDownload: seq<string> := ["info", "project_urls", "Download"]
  const ProjectBugTracker: seq<string> := ["info", "project_urls", "Bug Tracker"]
  const InfoHomePage: seq<string> := ["info", "home_page"]
  const InfoDownloadUrl: seq<string> := ["info", "download_url"]

  /** The six paths `json_parser` probes, in the order it probes them. */
  const ProbedPaths: seq<seq<string>> :=
    [ProjectHomepage, ProjectSourceCode, ProjectDownload, ProjectBugTracker, InfoHomePage, InfoDownloadUrl]

  /** One guarded probe succeeds: the path resolves and `"github.com" in url`
      is true. A KeyError or TypeError on the way is no match. */
  predicate ProbeMatches(record: Json, path: seq<string>): (b: bool)
    ensures b <==> exists url :: LookupPath(record, path) == Some(url) && Contains(url, GithubHost)
    ensures b && path != [] ==> record.JObj?
  {
    match LookupPath(record, path)
    case None => false
    case Some(url) => Contains(url, GithubHost)
  }

  /** A record is a GitHub package when some probed path holds a value that
      contains "github.com". */
  predicate IsGithub(record: Json): (b: bool)
    ensures b ==> Lookup(record, "info").Some? && Lookup(record, "info").value.JObj?
  {
    exists i :: 0 <= i < |ProbedPaths| && ProbeMatches(record, ProbedPaths[i])
  }

  /** The number of GitHub packages among `records`. */
  function GithubTotal(records: seq<Json>): (n: nat)
    ensures n <= |records|
  {
    if records == [] then 0
    else (if IsGithub(records[0]) then 1 else 0) + GithubTotal(records[1..])
  }

  /** The classification is the disjunction of the six probes. */
  lemma IsGithubSixProbes(record: Json)
    ensures IsGithub(record) <==>
              ProbeMatches(record, ProjectHomepage) || ProbeMatches(record, ProjectSourceCode) ||
              ProbeMatches(record, ProjectDownload) || ProbeMatches(record, ProjectBugTracker) ||
              ProbeMatches(record, InfoHomePage) || ProbeMatches(record, InfoDownloadUrl)
  {
    assert ProbedPaths[0] == ProjectHomepage && ProbedPaths[1] == ProjectSourceCode;
    assert ProbedPaths[2] == ProjectDownload && ProbedPaths[3] == ProjectBugTracker;
    assert ProbedPaths[4] == InfoHomePage && ProbedPaths[5] == InfoDownloadUrl;
  }

  /** Counting a concatenation of record lists adds the counts. */
  lemma {:induction false} GithubTotalAppend(xs: seq<Json>, ys: seq<Json>)
    ensures GithubTotal(xs + ys) == GithubTotal(xs) + GithubTotal(ys)
  {
    if xs == [] {
      assert xs + ys == ys;
    } else {
      assert (xs + ys)[0] == xs[0];
      assert (xs + ys)[1..] == xs[1..] + ys;
      GithubTotalAppend(xs[1..], ys);
    }
  }

  /** The count does not depend on the order in which the records come
      (the directory listing has no defined order). */
  lemma {:induction false} GithubTotalPermutation(xs: seq<Json>, ys: seq<Json>)
    requires multiset(xs) == multiset(ys)
    ensures GithubTotal(xs) == GithubTotal(ys)
    decreases |xs|
  {
    if xs != [] {
      assert xs[0] in multiset(ys);
      var j :| 0 <= j < |ys| && ys[j] == xs[0];
      var rest := ys[..j] + ys[j + 1..];
      assert ys == ys[..j] + [ys[j]] + ys[j + 1..];
      GithubTotalAppend(ys[..j] + [ys[j]], ys[j + 1..]);
      GithubTotalAppend(ys[..j], [ys[j]]);
      GithubTotalAppend(ys[..j], ys[j + 1..]);
      assert xs == [xs[0]] + xs[1..];
      assert multiset(ys) == multiset(ys[..j]) + multiset{ys[j]} + multiset(ys[j + 1..]);
      assert multiset(rest) == multiset(ys[..j]) + multiset(ys[j + 1..]);
      assert multiset(xs) == multiset{xs[0]} + multiset(xs[1..]);
      calc {
        multiset(xs[1..]);
        multiset(xs) - multiset{xs[0]};
        multiset(ys) - multiset{ys[j]};
        multiset(rest);
      }
      GithubTotalPermutation(xs[1..], rest);
    } else {
      assert |ys| == |multiset(ys)| == 0;
    }
  }

  /** The percentage `analyze` reports, before rounding to two decimals.
      With no records the source divides by zero, hence the precondition. */
  function Percentage(github: nat, packages: nat): (p: real)
    requires packages > 0
    ensures github <= packages ==> 0.0 <= p <= 100.0
    ensures p == 0.0 <==> github == 0
    ensures p == 100.0 <==> github == packages
  {
    github as real / packages as real * 100.0
  }

  /** The classifier's state: the module globals `github_count` and
      `package_count`. */
  class Analyzer {
    /** Records in which a GitHub URL was found. */
    var githubCount: nat
    /** Records processed. */
    var packageCount: nat

    /** No record is counted as a GitHub package without being counted. */
    ghost predicate Valid()
      reads this
    {
      githubCount <= packageCount
    }

    /** Both counters start at zero when the program starts. */
    constructor ()
      ensures githubCount == 0 && packageCount == 0
      ensures Valid()
    {
      githubCount := 0;
      packageCount := 0;
    }

    /** One `try` block of `json_parser`: look `path` up, and when the value
        contains "github.com" and no earlier block matched, count the record
        and set the found flag. A step of `JsonParser` only: called on its
        own (before `packageCount` is incremented) it could break `Valid()`. */
    method Probe(jsonData: Json, path: seq<string>, found: bool) returns (found': bool)
      modifies this
      ensures found' == (found || ProbeMatches(jsonData, path))
      ensures githubCount == old(githubCount) + (if !found && ProbeMatches(jsonData, path) then 1 else 0)
      ensures packageCount == old(packageCount)
    {
      found' := found;
      var url := LookupPath(jsonData, path);
      if url.Some? {
        var hit := In(GithubHost, url.value);
        if hit == Some(true) && !found {
          githubCount := githubCount + 1;
          found' := true;
        }
      }
    }

    /** `json_parser`: count the record, then count it as a GitHub package
        exactly when one of the six probes matches, at most once. */
    method JsonParser(jsonData: Json)
      modifies this
      ensures packageCount == old(packageCount) + 1
      ensures githubCount == old(githubCount) + (if IsGithub(jsonData) then 1 else 0)
      ensures old(Valid()) ==> Valid()
    {
      packageCount := packageCount + 1;
      var found := false;
      found := Probe(jsonData, ProjectHomepage, found);
      found := Probe(jsonData, ProjectSourceCode, found);
      found := Probe(jsonData, ProjectDownload, found);
      found := Probe(jsonData, ProjectBugTracker, found);
      found := Probe(jsonData, InfoHomePage, found);
      found := Probe(jsonData, InfoDownloadUrl, found);
      IsGithubSixProbes(jsonData);
    }

    /** The loop of `analyze`: feed every record to `json_parser`. */
    method Analyze(records: seq<Json>)
      modifies this
      ensures packageCount == old(packageCount) + |records|
      ensures githubCount == old(githubCount) + GithubTotal(records)
      ensures old(Valid()) ==> Valid()
    {
      for i := 0 to |records|
        invariant packageCount == old(packageCount) + i
        invariant githubCount == old(githubCount) + GithubTotal(records[..i])
      {
        assert records[..i + 1] == records[..i] + [records[i]];
        GithubTotalAppend(records[..i], [records[i]]);
        JsonParser(records[i]);
      }
      assert records[..|records|] == records;
    }

    /** The figures `analyze` prints: the two counters and the percentage. */
    method Report() returns (packages: nat, github: nat, percent: real)
      requires packageCount > 0
      ensures packages == packageCount && github == githubCount
      ensures Valid() ==> 0.0 <= percent <= 100.0
      ensures percent * packageCount as real == githubCount as real * 100.0
    {
      packages := packageCount;
      github := githubCount;
      percent := Percentage(githubCount, packageCount);
    }
  }

  /** A whole run: counters at zero, then `analyze` over the records. */
  method Run(records: seq<Json>) returns (a: Analyzer)
    ensures fresh(a)
    ensures a.packageCount == |records|
    ensures a.githubCount == GithubTotal(records) && a.Valid()
  {
    a := new Analyzer();
    a.Analyze(records);
  }
}
