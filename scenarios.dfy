/** The classifier's verdict on concrete records. */
module Scenarios {
  import opened Json
  import opened PyIn
  import opened MetadataAnalyzer

  /** `{"info": {key: value}}`. */
  function InfoRecord(key: string, value: Json): Json
  {
    JObj(map["info" := JObj(map[key := value])])
  }

  /** `{"info": {"project_urls": {name: url}}}`. */
  function ProjectUrlRecord(name: string, url: string): Json
  {
    InfoRecord("project_urls", JObj(map[name := JStr(url)]))
  }

  /** A string without the needle's first character does not contain it. */
  lemma NoFirstCharNoOccurrence(needle: string, hay: string)
    requires needle != [] && needle[0] !in hay
    ensures !HasSubstring(needle, hay)
  {
  }

  /** A record whose `home_page` names GitHub. */
  lemma GithubHomePage()
    ensures IsGithub(InfoRecord("home_page", JStr("http://github.com/a/b")))
  {
    var a := InfoRecord("home_page", JStr("http://github.com/a/b"));
    assert OccursAt(GithubHost, "http://github.com/a/b", 7);
    assert ProbeMatches(a, ProbedPaths[4]);
  }

  /** A record whose only `home_page` has no letter 'g' (so no "github.com")
      is not a GitHub package. */
  lemma OtherHomePage(url: string)
    requires 'g' !in url
    ensures !IsGithub(InfoRecord("home_page", JStr(url)))
  {
    NoFirstCharNoOccurrence(GithubHost, url);
    IsGithubSixProbes(InfoRecord("home_page", JStr(url)));
  }

  /** A record whose "Bug Tracker" label names GitHub. */
  lemma GithubBugTracker()
    ensures IsGithub(ProjectUrlRecord("Bug Tracker", "http://github.com/c/d"))
  {
    var c := ProjectUrlRecord("Bug Tracker", "http://github.com/c/d");
    assert OccursAt(GithubHost, "http://github.com/c/d", 7);
    assert ProbeMatches(c, ProbedPaths[3]);
  }

  /** The three records above: two of the three are GitHub packages, for a
      percentage of 200/3 before rounding. */
  lemma ThreeRecordDirectory()
    ensures GithubTotal([InfoRecord("home_page", JStr("http://github.com/a/b")),
                         InfoRecord("home_page", JStr("https://example.com/b")),
                         ProjectUrlRecord("Bug Tracker", "http://github.com/c/d")]) == 2
    ensures Percentage(2, 3) == 200.0 / 3.0
  {
    var a := InfoRecord("home_page", JStr("http://github.com/a/b"));
    var b := InfoRecord("home_page", JStr("https://example.com/b"));
    var c := ProjectUrlRecord("Bug Tracker", "http://github.com/c/d");
    GithubHomePage();
    OtherHomePage("https://example.com/b");
    GithubBugTracker();
    assert [a, b, c][1..] == [b, c];
    assert [b, c][1..] == [c];
  }

  /** A record whose "Homepage" label and `home_page` both name GitHub is
      counted once. */
  lemma DoubleMatchCountedOnce()
    ensures GithubTotal([JObj(map["info" := JObj(map[
              "project_urls" := JObj(map["Homepage" := JStr("https://github.com/x/y")]),
              "home_page" := JStr("https://github.com/x/y")])])]) == 1
  {
    var r := JObj(map["info" := JObj(map[
              "project_urls" := JObj(map["Homepage" := JStr("https://github.com/x/y")]),
              "home_page" := JStr("https://github.com/x/y")])]);
    assert OccursAt(GithubHost, "https://github.com/x/y", 8);
    assert ProbeMatches(r, ProbedPaths[0]) && ProbeMatches(r, ProbedPaths[4]);
    assert IsGithub(r);
    assert [r][1..] == [];
  }

  /** `in` on a list tests element equality, not substrings: a list holding
      exactly "github.com" matches, a list holding a GitHub URL does not. */
  lemma ListValuesMatchByElement()
    ensures IsGithub(InfoRecord("home_page", JArr([JNull, JStr("github.com")])))
    ensures !IsGithub(InfoRecord("home_page", JArr([JStr("https://github.com/x/y")])))
  {
    var hit := InfoRecord("home_page", JArr([JNull, JStr("github.com")]));
    var miss := InfoRecord("home_page", JArr([JStr("https://github.com/x/y")]));
    IsGithubSixProbes(hit);
    IsGithubSixProbes(miss);
    assert ProbeMatches(hit, InfoHomePage);
    assert JStr(GithubHost) != JStr("https://github.com/x/y");
  }

  /** `in` on a dict tests its keys; on a number it raises TypeError, which
      is no match. */
  lemma DictAndNumberValues()
    ensures IsGithub(InfoRecord("download_url", JObj(map["github.com" := JNull])))
    ensures !IsGithub(InfoRecord("download_url", JNum(7)))
  {
    var hit := InfoRecord("download_url", JObj(map["github.com" := JNull]));
    var miss := InfoRecord("download_url", JNum(7));
    IsGithubSixProbes(hit);
    IsGithubSixProbes(miss);
    assert ProbeMatches(hit, InfoDownloadUrl);
  }
}
