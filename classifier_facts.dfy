/** Properties of the GitHub classification that one call of `json_parser`
    relies on: failed probes are harmless, and only the six paths matter. */
module ClassifierFacts {
  import opened Wrappers
  import opened Json
  import opened MetadataAnalyzer

  /** Every probed path starts at the top-level key "info". */
  lemma ProbedPathsStartWithInfo(i: int)
    requires 0 <= i < |ProbedPaths|
    ensures ProbedPaths[i] == ["info"] + ProbedPaths[i][1..]
    ensures |ProbedPaths[i][1..]| > 0
  {
  }

  /** Two records on which the six paths resolve alike are classified alike,
      whatever else they hold. */
  lemma SameProbesSameVerdict(r1: Json, r2: Json)
    requires forall i :: 0 <= i < |ProbedPaths| ==> LookupPath(r1, ProbedPaths[i]) == LookupPath(r2, ProbedPaths[i])
    ensures IsGithub(r1) <==> IsGithub(r2)
  {
    forall i | 0 <= i < |ProbedPaths|
      ensures ProbeMatches(r1, ProbedPaths[i]) <==> ProbeMatches(r2, ProbedPaths[i])
    {
    }
  }

  /** Without an object under "info" (no "info" key, "info" a string or a
      list, or a record that is not an object at all) nothing matches: every
      probe fails and the record is counted only as a package. */
  lemma NoInfoObjectNeverMatches(record: Json)
    requires Lookup(record, "info").Some? ==> !Lookup(record, "info").value.JObj?
    ensures !IsGithub(record)
  {
    forall i | 0 <= i < |ProbedPaths|
      ensures LookupPath(record, ProbedPaths[i]) == None
    {
      ProbedPathsStartWithInfo(i);
      assert LookupPath(record, ["info"]) == Lookup(record, "info");
      LookupPathPastNonObject(record, ["info"], ProbedPaths[i][1..]);
    }
  }

  /** The empty record `{}` is not a GitHub package. */
  lemma EmptyRecordNeverMatches()
    ensures !IsGithub(JObj(map[]))
  {
    NoInfoObjectNeverMatches(JObj(map[]));
  }

  /** A failed `project_urls` lookup is not fatal: the two probes under
      `info` itself still decide the record. */
  lemma BrokenProjectUrlsFallsBack(record: Json)
    requires LookupPath(record, ["info", "project_urls"]).Some? ==>
               !LookupPath(record, ["info", "project_urls"]).value.JObj?
    ensures IsGithub(record) <==> ProbeMatches(record, InfoHomePage) || ProbeMatches(record, InfoDownloadUrl)
  {
    IsGithubSixProbes(record);
    var urls := ["info", "project_urls"];
    assert ProjectHomepage == urls + ["Homepage"];
    assert ProjectSourceCode == urls + ["Source Code"];
    assert ProjectDownload == urls + ["Download"];
    assert ProjectBugTracker == urls + ["Bug Tracker"];
    LookupPathPastNonObject(record, urls, ["Homepage"]);
    LookupPathPastNonObject(record, urls, ["Source Code"]);
    LookupPathPastNonObject(record, urls, ["Download"]);
    LookupPathPastNonObject(record, urls, ["Bug Tracker"]);
  }

  /** Top-level keys other than "info" do not affect the classification. */
  lemma OtherTopLevelKeysIrrelevant(fields: map<string, Json>, k: string, x: Json)
    requires k != "info"
    ensures IsGithub(JObj(fields[k := x])) <==> IsGithub(JObj(fields))
  {
    forall i | 0 <= i < |ProbedPaths|
      ensures LookupPath(JObj(fields[k := x]), ProbedPaths[i]) == LookupPath(JObj(fields), ProbedPaths[i])
    {
      ProbedPathsStartWithInfo(i);
      LookupPathOtherKey(fields, k, x, ProbedPaths[i]);
    }
    SameProbesSameVerdict(JObj(fields[k := x]), JObj(fields));
  }

  /** Keys of "info" other than "project_urls", "home_page" and
      "download_url" do not affect the classification. */
  lemma OtherInfoKeysIrrelevant(fields: map<string, Json>, info: map<string, Json>, k: string, x: Json)
    requires k != "project_urls" && k != "home_page" && k != "download_url"
    ensures IsGithub(JObj(fields["info" := JObj(info[k := x])])) <==> IsGithub(JObj(fields["info" := JObj(info)]))
  {
    var r1 := JObj(fields["info" := JObj(info[k := x])]);
    var r2 := JObj(fields["info" := JObj(info)]);
    forall i | 0 <= i < |ProbedPaths|
      ensures LookupPath(r1, ProbedPaths[i]) == LookupPath(r2, ProbedPaths[i])
    {
      ProbedPathsStartWithInfo(i);
      var q := ProbedPaths[i][1..];
      LookupPathOtherKey(info, k, x, q);
      LookupPathUnder(fields, "info", JObj(info[k := x]), JObj(info), q);
    }
    SameProbesSameVerdict(r1, r2);
  }

  /** Labels of "project_urls" other than the four probed ones do not affect
      the classification. */
  lemma OtherProjectUrlLabelsIrrelevant(fields: map<string, Json>, info: map<string, Json>,
                                        urls: map<string, Json>, k: string, x: Json)
    requires k != "Homepage" && k != "Source Code" && k != "Download" && k != "Bug Tracker"
    ensures IsGithub(JObj(fields["info" := JObj(info["project_urls" := JObj(urls[k := x])])])) <==>
            IsGithub(JObj(fields["info" := JObj(info["project_urls" := JObj(urls)])]))
  {
    var w1 := JObj(info["project_urls" := JObj(urls[k := x])]);
    var w2 := JObj(info["project_urls" := JObj(urls)]);
    var r1 := JObj(fields["info" := w1]);
    var r2 := JObj(fields["info" := w2]);
    forall i | 0 <= i < |ProbedPaths|
      ensures LookupPath(r1, ProbedPaths[i]) == LookupPath(r2, ProbedPaths[i])
    {
      ProbedPathsStartWithInfo(i);
      var q := ProbedPaths[i][1..];
      if i < 4 {
        var tail := [q[1]];
        assert q == ["project_urls"] + tail;
        LookupPathOtherKey(urls, k, x, tail);
        LookupPathUnder(info, "project_urls", JObj(urls[k := x]), JObj(urls), tail);
      } else {
        LookupPathOtherKey(info, "project_urls", JObj(urls[k := x]), q);
        LookupPathOtherKey(info, "project_urls", JObj(urls), q);
      }
      LookupPathUnder(fields, "info", w1, w2, q);
    }
    SameProbesSameVerdict(r1, r2);
  }
}
