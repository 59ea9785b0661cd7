/**
 * The badge request: select the jobsets, take each one's verdict and fold
 * the verdicts into one badge.
 */
module Endpoint {
  import opened Wrappers
  import opened Hydra
  import opened Evaluation

  /** The two globs of a badge request: one for `project:jobset` identity
      strings, one for job names. */
  datatype Query = Query(jobsets: Glob, jobs: Glob)

  /** What the Hydra server answers at one base URL: the project list, the
      evaluation history of each jobset and each build, or an error. */
  datatype Remote = Remote(
    projects: Result<seq<Project>>,
    evals: Jobset -> Result<JobsetEvalList>,
    build: i32 -> Result<Build>)

  /** The badge description the endpoint answers with. */
  datatype Response = Response(schemaVersion: int, labelText: string, message: string, isError: bool)

  const SchemaVersion := 1
  const PassingMessage := "passing"
  const FailingMessage := "one or more jobs failing"

  /** The verdict of one jobset: its history is fetched and scanned. */
  function Verdict(remote: Remote, jobs: Glob, j: Jobset): (r: Result<bool>)
    ensures remote.evals(j).Err? ==> r.Err?
  {
    match remote.evals(j)
    case Err => Err
    case Ok(list) => ListPassing(remote.build, jobs, list.evals)
  }

  /** A jobset passes exactly when its history fetches and some evaluation
      in it is preceded only by queued ones and is itself settled with every
      selected build successful. */
  lemma VerdictPassingIff(remote: Remote, jobs: Glob, j: Jobset)
    ensures Verdict(remote, jobs, j) == Ok(true) <==>
      remote.evals(j).Ok? &&
      var evals := remote.evals(j).value.evals;
      exists k :: 0 <= k < |evals| && QueuedPrefix(remote.build, jobs, evals, k) &&
        CheckJobsetEvaluation(remote.build, jobs, evals[k]) == Ok(Summary(false, false))
  {
    if remote.evals(j).Ok? {
      PassingIff(remote.build, jobs, remote.evals(j).value.evals);
    }
  }

  /** The verdict of a fetched history. */
  function ListVerdict(remote: Remote, jobs: Glob): JobsetEvalList -> Result<bool>
  {
    (list: JobsetEvalList) => ListPassing(remote.build, jobs, list.evals)
  }

  /** Answers a badge request: fetch the projects, select the jobsets by
      their identity strings, fetch every selected history, scan every
      history, and report passing only if every scan passed. */
  function Endpoint(remote: Remote, query: Query): (r: Result<Response>)
    ensures remote.projects.Err? ==> r.Err?
    ensures remote.projects.Ok? ==>
      var selected := SelectJobsets(remote.projects.value, query.jobsets);
      (r.Err? <==> exists k :: 0 <= k < |selected| && Verdict(remote, query.jobs, selected[k]).Err?)
    ensures r.Ok? ==> remote.projects.Ok?
    ensures r.Ok? && remote.projects.Ok? ==>
      var selected := SelectJobsets(remote.projects.value, query.jobsets);
      (!r.value.isError <==> forall k :: 0 <= k < |selected| ==> Verdict(remote, query.jobs, selected[k]) == Ok(true))
    ensures r.Ok? ==> r.value.message == (if r.value.isError then FailingMessage else PassingMessage)
    ensures r.Ok? ==> r.value.labelText == query.jobsets.pattern + ":" + query.jobs.pattern
    ensures r.Ok? ==> r.value.schemaVersion == SchemaVersion
  {
    match remote.projects
    case Err => Err
    case Ok(projects) =>
      var selected := SelectJobsets(projects, query.jobsets);
      match CollectAll(selected, remote.evals)
      case Err =>
        assert exists k :: 0 <= k < |selected| && Verdict(remote, query.jobs, selected[k]).Err?;
        Err
      case Ok(lists) =>
        assert forall k :: 0 <= k < |selected| ==>
          Verdict(remote, query.jobs, selected[k]) == ListVerdict(remote, query.jobs)(lists[k]);
        match CollectAll(lists, ListVerdict(remote, query.jobs))
        case Err => Err
        case Ok(passing) =>
          var badgeLabel := query.jobsets.pattern + ":" + query.jobs.pattern;
          if forall k :: 0 <= k < |passing| ==> passing[k] then
            Ok(Response(SchemaVersion, badgeLabel, PassingMessage, false))
          else
            Ok(Response(SchemaVersion, badgeLabel, FailingMessage, true))
  }

  /** With no jobset selected the badge is vacuously passing. */
  lemma NoJobsetSelectedPasses(remote: Remote, query: Query)
    requires remote.projects.Ok? && SelectJobsets(remote.projects.value, query.jobsets) == []
    ensures Endpoint(remote, query) ==
      Ok(Response(SchemaVersion, query.jobsets.pattern + ":" + query.jobs.pattern, PassingMessage, false))
  {
  }

  /** The one project `myproj` listing `trunk` selects exactly `myproj:trunk`
      when the jobset glob accepts that identity string. */
  lemma SingleJobsetSelected(projects: seq<Project>, jobsets: Glob)
    requires projects == [Project("myproj", ["trunk"])]
    requires jobsets.isMatch("myproj:trunk")
    ensures SelectJobsets(projects, jobsets) == [Jobset("myproj", "trunk")]
  {
    var j := Jobset("myproj", "trunk");
    assert Identity(j) == "myproj:trunk";
    SelectJobsetsOfProject(projects[0], jobsets);
    assert ProjectJobsets(projects[0]) == [j];
  }

  /** A history of one evaluation holding the one build 1, of a selected job,
      passes exactly when that build finished and succeeded. */
  lemma SingleBuildVerdict(remote: Remote, jobs: Glob, j: Jobset, b: Build)
    requires remote.evals(j) == Ok(JobsetEvalList([JobsetEvaluation([1])]))
    requires remote.build(1) == Ok(b) && jobs.isMatch(b.job)
    ensures Verdict(remote, jobs, j) == Ok(b.finished == 1 && b.buildstatus == 0)
  {
    var e := JobsetEvaluation([1]);
    assert e.builds[0] == 1;
    assert MatchedAt(remote.build, jobs, e.builds, 0);
    SelectedBuildsDecide(remote.build, jobs, e);
    var s := CheckJobsetEvaluation(remote.build, jobs, e).value;
    assert s.queued <==> b.finished != 1 by {
      assert s.queued ==> QueuedAt(remote.build, jobs, e.builds, 0);
    }
    assert s.failure <==> b.buildstatus != 0 by {
      assert s.failure ==> FailedAt(remote.build, jobs, e.builds, 0);
    }
    assert [e][1..] == [];
    assert ListPassing(remote.build, jobs, [e]) == (if s.queued then Ok(false) else Ok(!s.failure));
  }

  /** One project `myproj` with one jobset `trunk`, whose one evaluation has
      the one build 1 of job `build`: the badge passes exactly when that
      build finished and succeeded. */
  lemma SingleBuildBadge(remote: Remote, query: Query, b: Build)
    requires remote.projects == Ok([Project("myproj", ["trunk"])])
    requires query.jobsets.pattern == "myproj:*" && query.jobsets.isMatch("myproj:trunk")
    requires query.jobs.pattern == "build" && query.jobs.isMatch("build")
    requires remote.evals(Jobset("myproj", "trunk")) == Ok(JobsetEvalList([JobsetEvaluation([1])]))
    requires remote.build(1) == Ok(b) && b.job == "build"
    ensures var passes := b.finished == 1 && b.buildstatus == 0;
      Endpoint(remote, query) ==
        Ok(Response(1, "myproj:*:build", if passes then "passing" else "one or more jobs failing", !passes))
  {
    var j := Jobset("myproj", "trunk");
    SingleJobsetSelected(remote.projects.value, query.jobsets);
    SingleBuildVerdict(remote, query.jobs, j, b);
    var selected := SelectJobsets(remote.projects.value, query.jobsets);
    assert selected[0] == j;
    var r := Endpoint(remote, query);
    assert r.Ok?;
    assert r.value.isError <==> !(b.finished == 1 && b.buildstatus == 0);
    assert "myproj:*" + ":" + "build" == "myproj:*:build";
  }
}
