/** `IridaAPI`: looking up relations in HAL `links` lists, turning an
    analysis submission into a SISTR record, and the walks that collect
    records for a project, for all projects and for the user's own
    submissions. The connector is replaced by `Lims`, a snapshot of what
    each request would answer. */
module IridaApi {
  import opened Outcome
  import opened Resources
  import opened SistrInfo
  import opened Gathering

  /** The answers of the IRIDA REST API. A request whose key is missing
      fails, as a GET that does not succeed raises in the connector. */
  datatype Lims = Lims(
    projects: Option<seq<Project>>,                         // /api/projects; None when the GET fails
    projectSamples: map<string, seq<Sample>>,               // /api/projects/<id>/samples
    samplePairs: map<string, seq<SeqObject>>,               // /api/samples/<id>/pairs
    submissions: map<string, Submission>,                   // GET of an `analysis/sistr` href
    fileLists: map<string, seq<SeqObject>>,                 // resources of an `input/...` href
    analyses: map<string, seq<Link>>,                       // links of an `analysis` href
    predictionFiles: map<string, Option<seq<Prediction>>>,  // JSON of a prediction file; None is null
    samples: map<string, Option<Sample>>,                   // GET of a `sample` href; None is null
    userSubmissions: Option<seq<Submission>>)               // /api/analysisSubmissions/analysisType/sistr; None likewise

  function Fetch<V>(m: map<string, V>, path: string): (r: Result<V>)
    ensures r.Ok? <==> path in m
    ensures r.Ok? ==> r.value == m[path]
  {
    if path in m then Ok(m[path]) else Err(NotFound(path))
  }

  /** The answer to a request for a fixed path, or its failure. */
  function Answer<V>(answer: Option<V>, path: string): (r: Result<V>)
    ensures r.Ok? <==> answer.Some?
    ensures r.Ok? ==> r.value == answer.value
    ensures r.Err? ==> r.error == NotFound(path)
  {
    if answer.Some? then Ok(answer.value) else Err(NotFound(path))
  }

  const ProjectsPath := "/api/projects"
  const UserSubmissionsPath := "/api/analysisSubmissions/analysisType/sistr"

  // ---------------------------------------------------------------- links

  /** `_has_rel_in_links`: some link carries the relation. */
  function HasRel(rel: string, links: seq<Link>): (b: bool)
    ensures b <==> exists i :: 0 <= i < |links| && links[i].rel == rel
  {
    if links == [] then false
    else if links[0].rel == rel then true
    else
      var b := HasRel(rel, links[1..]);
      assert forall i :: 1 <= i < |links| ==> links[i] == links[1..][i - 1];
      b
  }

  /** Link `i` is the last one that carries the relation. */
  predicate IsLastMatch(rel: string, links: seq<Link>, i: int) {
    0 <= i < |links| && links[i].rel == rel &&
    forall j :: i < j < |links| ==> links[j].rel != rel
  }

  /** The `href` variable of `_get_rel_from_links` after the loop: the href
      of the last link with the relation (which may itself be null), or
      null when no link has it. */
  function LastHref(rel: string, links: seq<Link>): (h: Option<string>)
    ensures forall i :: IsLastMatch(rel, links, i) ==> h == links[i].href
    ensures !HasRel(rel, links) ==> h.None?
  {
    if links == [] then None
    else if links[|links| - 1].rel == rel then links[|links| - 1].href
    else
      var init := links[..|links| - 1];
      assert forall i :: IsLastMatch(rel, links, i) ==> IsLastMatch(rel, init, i);
      assert HasRel(rel, init) ==> HasRel(rel, links) by {
        if HasRel(rel, init) {
          var k :| 0 <= k < |init| && init[k].rel == rel;
          assert links[k].rel == rel;
        }
      }
      LastHref(rel, init)
  }

  /** `_get_rel_from_links` as a value: the href of the last link with the
      relation; it fails when no link has the relation or that href is null. */
  function RelFromLinks(rel: string, links: seq<Link>): (r: Result<string>)
    ensures r.Err? ==> r.error == MissingRel(rel)
  {
    var h := LastHref(rel, links);
    if h.None? then Err(MissingRel(rel)) else Ok(h.value)
  }

  /** The relation lookup succeeds exactly when the last link carrying the
      relation has an href, and then it answers that href. */
  lemma RelFromLinksLastMatch(rel: string, links: seq<Link>)
    ensures RelFromLinks(rel, links).Ok? <==> exists i :: IsLastMatch(rel, links, i) && links[i].href.Some?
    ensures RelFromLinks(rel, links).Ok? ==>
              exists i :: IsLastMatch(rel, links, i) && links[i].href == Some(RelFromLinks(rel, links).value)
  {
    if HasRel(rel, links) {
      LastMatchExists(rel, links);
    }
  }

  lemma {:induction false} LastMatchExists(rel: string, links: seq<Link>)
    requires HasRel(rel, links)
    ensures exists i :: IsLastMatch(rel, links, i)
  {
    var k :| 0 <= k < |links| && links[k].rel == rel;
    if !IsLastMatch(rel, links, k) {
      var j :| k < j < |links| && links[j].rel == rel;
      LastMatchExists(rel, links[j..]);
      var m :| IsLastMatch(rel, links[j..], m);
      assert IsLastMatch(rel, links, j + m);
    }
  }

  /** `_get_rel_from_links`: the loop keeps overwriting `href`, so the last
      match wins. */
  method GetRelFromLinks(rel: string, links: seq<Link>) returns (r: Result<string>)
    ensures r == RelFromLinks(rel, links)
  {
    var href: Option<string> := None;
    for i := 0 to |links|
      invariant href == LastHref(rel, links[..i])
    {
      assert links[..i + 1][..i] == links[..i];
      if links[i].rel == rel {
        href := links[i].href;
      }
    }
    assert links[..|links|] == links;
    if href.None? {
      r := Err(MissingRel(rel));
    } else {
      r := Ok(href.value);
    }
  }

  // ---------------------------------------------------------------- one submission

  /** The href of the SISTR prediction file among an analysis's links. */
  function PredictionFile(lims: Lims, analysisHref: string): Result<string> {
    var links :- Fetch(lims.analyses, analysisHref);
    RelFromLinks("outputFile/sistr-predictions", links)
  }

  /** `get_sistr_predictions`: follow the analysis to its prediction file;
      a file whose JSON is null fails. */
  function SistrPredictions(lims: Lims, analysisHref: string): (r: Result<seq<Prediction>>)
    ensures var file := PredictionFile(lims, analysisHref);
            r.Ok? <==> file.Ok? && file.value in lims.predictionFiles && lims.predictionFiles[file.value].Some?
    ensures r.Ok? ==> PredictionFile(lims, analysisHref).Ok? &&
                      PredictionFile(lims, analysisHref).value in lims.predictionFiles &&
                      lims.predictionFiles[PredictionFile(lims, analysisHref).value] == Some(r.value)
    ensures PredictionFile(lims, analysisHref).Err? ==> r == Err(PredictionFile(lims, analysisHref).error)
    ensures PredictionFile(lims, analysisHref).Ok? &&
            PredictionFile(lims, analysisHref).value in lims.predictionFiles &&
            lims.predictionFiles[PredictionFile(lims, analysisHref).value].None? ==>
              r == Err(NoPredictions(analysisHref))
  {
    var fileHref :- PredictionFile(lims, analysisHref);
    var json :- Fetch(lims.predictionFiles, fileHref);
    if json.None? then Err(NoPredictions(analysisHref)) else Ok(json.value)
  }

  /** `get_sample_from_paired`: the sample linked from the first paired file.
      An empty list fails on `[0]`; a null sample fails (in the source the
      message refers to an undefined name, which raises as well). */
  function SampleFromPaired(lims: Lims, paired: seq<SeqObject>): (r: Result<Sample>)
    ensures paired == [] ==> r == Err(IndexError)
    ensures paired != [] ==>
              var href := RelFromLinks("sample", paired[0].links);
              && (href.Err? ==> r == Err(href.error))
              && (href.Ok? && href.value !in lims.samples ==> r == Err(NotFound(href.value)))
              && (href.Ok? && href.value in lims.samples ==>
                    r == if lims.samples[href.value].None? then Err(NoSample) else Ok(lims.samples[href.value].value))
    ensures r.Ok? ==> paired != [] &&
                      var href := RelFromLinks("sample", paired[0].links);
                      href.Ok? && href.value in lims.samples && lims.samples[href.value] == Some(r.value)
  {
    if paired == [] then Err(IndexError)
    else
      var href :- RelFromLinks("sample", paired[0].links);
      var sample :- Fetch(lims.samples, href);
      if sample.None? then Err(NoSample) else Ok(sample.value)
  }

  /** The unpaired input files of a submission, as the source fetches them. */
  function UnpairedFiles(lims: Lims, submission: Submission): Result<seq<SeqObject>> {
    var path :- RelFromLinks("input/unpaired", submission.links);
    Fetch(lims.fileLists, path)
  }

  /** The paired input files of a submission, as the source fetches them. */
  function PairedFiles(lims: Lims, submission: Submission): Result<seq<SeqObject>> {
    var path :- RelFromLinks("input/paired", submission.links);
    Fetch(lims.fileLists, path)
  }

  /** `get_sistr_info_from_submission`. A submission with unpaired input
      files is refused; otherwise the record has results and keeps the
      submission, its paired files, its predictions and its sample. */
  function InfoFromSubmission(lims: Lims, submission: Submission): (r: Result<Info>)
    ensures var analysis := RelFromLinks("analysis", submission.links);
            var paired := PairedFiles(lims, submission);
            r.Ok? <==>
              && analysis.Ok? && UnpairedFiles(lims, submission) == Ok([]) && paired.Ok?
              && SistrPredictions(lims, analysis.value).Ok? && SampleFromPaired(lims, paired.value).Ok?
    ensures UnpairedFiles(lims, submission).Ok? && UnpairedFiles(lims, submission).value != [] ==> r.Err?
    ensures r.Ok? ==> UnpairedFiles(lims, submission) == Ok([])
    ensures r.Ok? ==> r.value.hasResults && r.value.submission == Some(submission)
    ensures r.Ok? ==> PairedFiles(lims, submission).Ok? &&
                      r.value.pairedFiles == FileList(PairedFiles(lims, submission).value)
    ensures r.Ok? ==> var analysis := RelFromLinks("analysis", submission.links);
                      analysis.Ok? && r.value.predictions.Some? &&
                      SistrPredictions(lims, analysis.value) == Ok(r.value.predictions.value)
    ensures r.Ok? ==> PairedFiles(lims, submission).Ok? &&
                      SampleFromPaired(lims, PairedFiles(lims, submission).value) == Ok(r.value.sample)
  {
    var pairedPath :- RelFromLinks("input/paired", submission.links);
    var analysisHref :- RelFromLinks("analysis", submission.links);
    var unpairedPath :- RelFromLinks("input/unpaired", submission.links);
    var unpaired :- Fetch(lims.fileLists, unpairedPath);
    if |unpaired| > 0 then
      var selfHref :- RelFromLinks("self", submission.links);
      Err(UnpairedInput(selfHref))
    else
      var paired :- Fetch(lims.fileLists, pairedPath);
      var predictions :- SistrPredictions(lims, analysisHref);
      var sample :- SampleFromPaired(lims, paired);
      Ok(Info(true, sample, FileList(paired), Some(predictions), Some(submission)))
  }

  // ---------------------------------------------------------------- walks

  /** The record for one sequencing pair of a sample: from its SISTR
      submission when the pair links one, a record without results that
      carries the sample and the pair otherwise. */
  function PairInfo(lims: Lims, sample: Sample, pair: SeqObject): (r: Result<Info>)
    ensures !HasRel("analysis/sistr", pair.links) ==>
              r.Ok? && !r.value.hasResults && r.value.sample == sample && r.value.pairedFiles == PairObject(pair)
    ensures HasRel("analysis/sistr", pair.links) && r.Ok? ==>
              r.value.hasResults && r.value.submission.Some?
    ensures HasRel("analysis/sistr", pair.links) ==>
              var href := RelFromLinks("analysis/sistr", pair.links);
              && (href.Err? ==> r == Err(href.error))
              && (href.Ok? && href.value !in lims.submissions ==> r == Err(NotFound(href.value)))
              && (href.Ok? && href.value in lims.submissions ==> r == InfoFromSubmission(lims, lims.submissions[href.value]))
  {
    if HasRel("analysis/sistr", pair.links) then
      var sistrRel :- RelFromLinks("analysis/sistr", pair.links);
      var sistr :- Fetch(lims.submissions, sistrRel);
      InfoFromSubmission(lims, sistr)
    else
      Ok(Info(false, sample, PairObject(pair), None, None))
  }

  function PairStep(lims: Lims, sample: Sample): SeqObject -> Result<seq<Info>> {
    pair => One(PairInfo(lims, sample, pair))
  }

  /** The records of all pairs of one sample. */
  function SampleInfos(lims: Lims, sample: Sample): Result<seq<Info>> {
    var pairs :- Fetch(lims.samplePairs, sample.identifier);
    Gather(pairs, PairStep(lims, sample))
  }

  function SampleStep(lims: Lims): Sample -> Result<seq<Info>> {
    sample => SampleInfos(lims, sample)
  }

  /** `get_sistr_results_for_project` as a value. */
  function ProjectResults(lims: Lims, project: string): Result<seq<Info>> {
    var samples :- Fetch(lims.projectSamples, project);
    Gather(samples, SampleStep(lims))
  }

  function ProjectStep(lims: Lims): Project -> Result<seq<Info>> {
    (project: Project) => ProjectResults(lims, project.identifier)
  }

  /** `get_sistr_results_from_projects` as a value. */
  function AllProjectResults(lims: Lims): Result<seq<Info>> {
    var projects :- Answer(lims.projects, ProjectsPath);
    Gather(projects, ProjectStep(lims))
  }

  predicate IsCompleted(submission: Submission) {
    submission.analysisState == "COMPLETED"
  }

  function UserStep(lims: Lims): Submission -> Result<seq<Info>> {
    submission => if IsCompleted(submission) then One(InfoFromSubmission(lims, submission)) else Ok([])
  }

  /** `get_sistr_submissions_for_user` as a value. */
  function UserResults(lims: Lims): Result<seq<Info>> {
    var subs :- Answer(lims.userSubmissions, UserSubmissionsPath);
    Gather(subs, UserStep(lims))
  }

  /** Each sample contributes one record per sequencing pair, in pair order;
      a sample without pairs contributes none. */
  lemma OnePerPair(lims: Lims, sample: Sample)
    requires SampleInfos(lims, sample).Ok?
    ensures sample.identifier in lims.samplePairs
    ensures var pairs := lims.samplePairs[sample.identifier];
            |SampleInfos(lims, sample).value| == |pairs| &&
            forall j :: 0 <= j < |pairs| ==>
              PairInfo(lims, sample, pairs[j]).Ok? &&
              SampleInfos(lims, sample).value[j] == PairInfo(lims, sample, pairs[j]).value
  {
    var pairs := lims.samplePairs[sample.identifier];
    GatherOnePerElement(pairs, pair => PairInfo(lims, sample, pair), PairStep(lims, sample));
  }

  /** A project's records are those of its samples, in sample order. */
  lemma ProjectInSampleOrder(lims: Lims, project: string)
    requires ProjectResults(lims, project).Ok?
    ensures project in lims.projectSamples
    ensures var samples := lims.projectSamples[project];
            (forall i :: 0 <= i < |samples| ==> SampleStep(lims)(samples[i]).Ok?) &&
            ProjectResults(lims, project).value == Concat(samples, SampleStep(lims))
  {
    var samples := lims.projectSamples[project];
    GatherOk(samples, SampleStep(lims));
    GatherValue(samples, SampleStep(lims));
  }

  /** The records of all projects are the per-project records, concatenated
      in project order. */
  lemma AllProjectsInOrder(lims: Lims)
    requires AllProjectResults(lims).Ok?
    ensures lims.projects.Some?
    ensures var projects := lims.projects.value;
            (forall i :: 0 <= i < |projects| ==> ProjectStep(lims)(projects[i]).Ok?) &&
            AllProjectResults(lims).value == Concat(projects, ProjectStep(lims))
  {
    GatherOk(lims.projects.value, ProjectStep(lims));
    GatherValue(lims.projects.value, ProjectStep(lims));
  }

  /** The submissions whose analysis has completed, in input order. */
  function Completed(subs: seq<Submission>): (done: seq<Submission>)
    ensures forall s :: s in done ==> IsCompleted(s) && s in subs
    ensures forall s :: s in subs && IsCompleted(s) ==> s in done
  {
    if subs == [] then []
    else
      var init := Completed(subs[..|subs| - 1]);
      assert forall s :: s in subs[..|subs| - 1] ==> s in subs;
      assert forall s :: s in subs ==> s in subs[..|subs| - 1] || s == subs[|subs| - 1];
      if IsCompleted(subs[|subs| - 1]) then init + [subs[|subs| - 1]] else init
  }

  /** Keeping the completed submissions of two lists one after the other is
      keeping those of each list, in the same order. */
  lemma {:induction false} CompletedAppend(a: seq<Submission>, b: seq<Submission>)
    ensures Completed(a + b) == Completed(a) + Completed(b)
  {
    if b != [] {
      var b' := b[..|b| - 1];
      assert (a + b)[..|a + b| - 1] == a + b';
      CompletedAppend(a, b');
    } else {
      assert a + b == a;
    }
  }

  function SubmissionStep(lims: Lims): Submission -> Result<seq<Info>> {
    submission => One(InfoFromSubmission(lims, submission))
  }

  /** The user's records are exactly those of the completed submissions, in
      input order; the others are skipped. */
  lemma {:induction false} UserResultsFromCompleted(lims: Lims, subs: seq<Submission>)
    ensures Gather(subs, UserStep(lims)) == Gather(Completed(subs), SubmissionStep(lims))
  {
    if subs != [] {
      var init := subs[..|subs| - 1];
      var last := subs[|subs| - 1];
      UserResultsFromCompleted(lims, init);
      if IsCompleted(last) {
        var done := Completed(init) + [last];
        assert done[..|done| - 1] == Completed(init);
        assert UserStep(lims)(last) == SubmissionStep(lims)(last);
      } else {
        assert UserStep(lims)(last) == Ok([]);
        if Gather(init, UserStep(lims)).Ok? {
          assert Gather(init, UserStep(lims)).value + [] == Gather(init, UserStep(lims)).value;
        }
      }
    }
  }

  // ---------------------------------------------------------------- the loops of the source

  /** The body of the inner loop of `get_sistr_results_for_project`: the
      record of one pair. */
  method GetPairInfo(lims: Lims, sample: Sample, pair: SeqObject) returns (r: Result<Info>)
    ensures r == PairInfo(lims, sample, pair)
  {
    if HasRel("analysis/sistr", pair.links) {
      var sistrRel := GetRelFromLinks("analysis/sistr", pair.links);
      if sistrRel.Err? {
        return Err(sistrRel.error);
      }
      if sistrRel.value !in lims.submissions {
        return Err(NotFound(sistrRel.value));
      }
      r := InfoFromSubmission(lims, lims.submissions[sistrRel.value]);
    } else {
      r := Ok(Info(false, sample, PairObject(pair), None, None));
    }
  }

  /** The inner loop of `get_sistr_results_for_project`: the records of the
      pairs of one sample, in pair order. */
  method GetSampleInfos(lims: Lims, sample: Sample) returns (r: Result<seq<Info>>)
    ensures r == SampleInfos(lims, sample)
  {
    if sample.identifier !in lims.samplePairs {
      return Err(NotFound(sample.identifier));
    }
    var pairs := lims.samplePairs[sample.identifier];
    var results: seq<Info> := [];
    for j := 0 to |pairs|
      invariant Gather(pairs[..j], PairStep(lims, sample)) == Ok(results)
    {
      GatherStep(pairs, j, PairStep(lims, sample));
      var info := GetPairInfo(lims, sample, pairs[j]);
      if info.Err? {
        GatherErrSticky(pairs, j + 1, PairStep(lims, sample));
        return Err(info.error);
      }
      results := results + [info.value];
    }
    assert pairs[..|pairs|] == pairs;
    r := Ok(results);
  }

  /** `get_sistr_results_for_project`: one record per (sample, pair), in
      sample-then-pair order. */
  method GetSistrResultsForProject(lims: Lims, project: string) returns (r: Result<seq<Info>>)
    ensures r == ProjectResults(lims, project)
  {
    if project !in lims.projectSamples {
      return Err(NotFound(project));
    }
    var samples := lims.projectSamples[project];
    var results: seq<Info> := [];
    for i := 0 to |samples|
      invariant Gather(samples[..i], SampleStep(lims)) == Ok(results)
    {
      GatherStep(samples, i, SampleStep(lims));
      var infos := GetSampleInfos(lims, samples[i]);
      if infos.Err? {
        GatherErrSticky(samples, i + 1, SampleStep(lims));
        return infos;
      }
      results := results + infos.value;
    }
    assert samples[..|samples|] == samples;
    r := Ok(results);
  }

  /** `get_sistr_results_from_projects`: the per-project lists, concatenated
      in project order. */
  method GetSistrResultsFromProjects(lims: Lims) returns (r: Result<seq<Info>>)
    ensures r == AllProjectResults(lims)
  {
    var sistrList: seq<Info> := [];
    if lims.projects.None? {
      return Err(NotFound(ProjectsPath));
    }
    var projects := lims.projects.value;
    for i := 0 to |projects|
      invariant Gather(projects[..i], ProjectStep(lims)) == Ok(sistrList)
    {
      GatherStep(projects, i, ProjectStep(lims));
      var forProject := GetSistrResultsForProject(lims, projects[i].identifier);
      if forProject.Err? {
        GatherErrSticky(projects, i + 1, ProjectStep(lims));
        return forProject;
      }
      sistrList := sistrList + forProject.value;
    }
    assert projects[..|projects|] == projects;
    r := Ok(sistrList);
  }

  /** `get_sistr_submissions_for_user`: the records of the completed
      submissions, in input order. */
  method GetSistrSubmissionsForUser(lims: Lims) returns (r: Result<seq<Info>>)
    ensures r == UserResults(lims)
  {
    if lims.userSubmissions.None? {
      return Err(NotFound(UserSubmissionsPath));
    }
    var subs := lims.userSubmissions.value;
    var analysisList: seq<Info> := [];
    for i := 0 to |subs|
      invariant Gather(subs[..i], UserStep(lims)) == Ok(analysisList)
    {
      GatherStep(subs, i, UserStep(lims));
      if IsCompleted(subs[i]) {
        var info := InfoFromSubmission(lims, subs[i]);
        if info.Err? {
          GatherErrSticky(subs, i + 1, UserStep(lims));
          return Err(info.error);
        }
        analysisList := analysisList + [info.value];
      } else {
        assert UserStep(lims)(subs[i]) == Ok([]);
        assert analysisList + [] == analysisList;
      }
    }
    assert subs[..|subs|] == subs;
    r := Ok(analysisList);
  }
}
