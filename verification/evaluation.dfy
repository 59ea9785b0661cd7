/**
 * The per-evaluation summary and the scan of a jobset's evaluation history
 * for its most recent settled evaluation.
 */
module Evaluation {
  import opened Wrappers
  import opened Hydra

  /** What one evaluation says about the selected jobs: whether some of them
      are still queued, and whether some of them failed. */
  datatype Summary = Summary(queued: bool, failure: bool)

  /** Whether the job glob accepts a build's job name. */
  function JobMatches(jobs: Glob): Build -> bool
  {
    (b: Build) => jobs.isMatch(b.job)
  }

  /** Build `i` of `ids` was fetched and its job is selected. */
  predicate MatchedAt(fetch: i32 -> Result<Build>, jobs: Glob, ids: seq<i32>, i: int)
    requires 0 <= i < |ids|
  {
    fetch(ids[i]).Ok? && jobs.isMatch(fetch(ids[i]).value.job)
  }

  /** Build `i` of `ids` is selected and not finished. */
  predicate QueuedAt(fetch: i32 -> Result<Build>, jobs: Glob, ids: seq<i32>, i: int)
    requires 0 <= i < |ids|
  {
    MatchedAt(fetch, jobs, ids, i) && fetch(ids[i]).value.finished != 1
  }

  /** Build `i` of `ids` is selected and did not succeed. */
  predicate FailedAt(fetch: i32 -> Result<Build>, jobs: Glob, ids: seq<i32>, i: int)
    requires 0 <= i < |ids|
  {
    MatchedAt(fetch, jobs, ids, i) && fetch(ids[i]).value.buildstatus != 0
  }

  /** The summary of the selected builds of one evaluation. No selected
      build reads as settled and failed. */
  function Summarize(selected: seq<Build>): (r: Summary)
    ensures r == Summary(false, false) <==>
      selected != [] && forall k :: 0 <= k < |selected| ==> selected[k].finished == 1 && selected[k].buildstatus == 0
    ensures selected == [] ==> !r.queued && r.failure
  {
    if selected == [] then Summary(false, true)
    else Summary(
      exists k :: 0 <= k < |selected| && selected[k].finished != 1,
      exists k :: 0 <= k < |selected| && selected[k].buildstatus != 0)
  }

  /** Fetches every build of `evaluation` (any failure aborts), keeps the
      builds whose job the glob accepts and summarises them. A failed fetch
      aborts even when that build's job would not have been selected. */
  function CheckJobsetEvaluation(fetch: i32 -> Result<Build>, jobs: Glob, evaluation: JobsetEvaluation): (r: Result<Summary>)
    ensures r.Err? <==> exists i :: 0 <= i < |evaluation.builds| && fetch(evaluation.builds[i]).Err?
  {
    match CollectAll(evaluation.builds, fetch)
    case Err => Err
    case Ok(statuses) => Ok(Summarize(Filter(statuses, JobMatches(jobs))))
  }

  /** The builds of `ids` the job glob keeps, when every fetch succeeds. */
  function Kept(fetch: i32 -> Result<Build>, jobs: Glob, ids: seq<i32>): seq<Build>
    requires AllOk(ids, fetch)
  {
    Filter(CollectAll(ids, fetch).value, JobMatches(jobs))
  }

  /** Every kept build is a selected build of the evaluation. */
  lemma KeptAreSelected(fetch: i32 -> Result<Build>, jobs: Glob, ids: seq<i32>, k: int)
    requires AllOk(ids, fetch) && 0 <= k < |Kept(fetch, jobs, ids)|
    ensures exists i :: 0 <= i < |ids| && MatchedAt(fetch, jobs, ids, i) && fetch(ids[i]).value == Kept(fetch, jobs, ids)[k]
  {
    var statuses := CollectAll(ids, fetch).value;
    var b := Kept(fetch, jobs, ids)[k];
    assert b in statuses && JobMatches(jobs)(b);
    var i :| 0 <= i < |statuses| && statuses[i] == b;
    assert MatchedAt(fetch, jobs, ids, i);
  }

  /** Every selected build of the evaluation is kept. */
  lemma SelectedAreKept(fetch: i32 -> Result<Build>, jobs: Glob, ids: seq<i32>, i: int)
    requires AllOk(ids, fetch) && 0 <= i < |ids| && MatchedAt(fetch, jobs, ids, i)
    ensures fetch(ids[i]).value in Kept(fetch, jobs, ids)
  {
    var statuses := CollectAll(ids, fetch).value;
    assert statuses[i] == fetch(ids[i]).value;
    assert JobMatches(jobs)(statuses[i]);
  }

  /** When every build fetches but none is selected, the evaluation is
      settled and failed. */
  lemma NoSelectedBuildFails(fetch: i32 -> Result<Build>, jobs: Glob, evaluation: JobsetEvaluation)
    requires AllOk(evaluation.builds, fetch)
    requires forall i :: 0 <= i < |evaluation.builds| ==> !MatchedAt(fetch, jobs, evaluation.builds, i)
    ensures CheckJobsetEvaluation(fetch, jobs, evaluation) == Ok(Summary(false, true))
  {
    if Kept(fetch, jobs, evaluation.builds) != [] {
      KeptAreSelected(fetch, jobs, evaluation.builds, 0);
      assert false;
    }
  }

  /** When every build fetches and some are selected, the evaluation is
      queued exactly when a selected build is unfinished and failed exactly
      when a selected build is unsuccessful; unselected builds play no part. */
  lemma SelectedBuildsDecide(fetch: i32 -> Result<Build>, jobs: Glob, evaluation: JobsetEvaluation)
    requires AllOk(evaluation.builds, fetch)
    requires exists i :: 0 <= i < |evaluation.builds| && MatchedAt(fetch, jobs, evaluation.builds, i)
    ensures var r := CheckJobsetEvaluation(fetch, jobs, evaluation);
      && r.Ok?
      && (r.value.queued <==> exists i :: 0 <= i < |evaluation.builds| && QueuedAt(fetch, jobs, evaluation.builds, i))
      && (r.value.failure <==> exists i :: 0 <= i < |evaluation.builds| && FailedAt(fetch, jobs, evaluation.builds, i))
  {
    var ids := evaluation.builds;
    var kept := Kept(fetch, jobs, ids);
    var i0 :| 0 <= i0 < |ids| && MatchedAt(fetch, jobs, ids, i0);
    SelectedAreKept(fetch, jobs, ids, i0);
    assert kept != [];
    var s := Summarize(kept);
    assert CheckJobsetEvaluation(fetch, jobs, evaluation) == Ok(s);
    if s.queued {
      var k :| 0 <= k < |kept| && kept[k].finished != 1;
      KeptAreSelected(fetch, jobs, ids, k);
      var i :| 0 <= i < |ids| && MatchedAt(fetch, jobs, ids, i) && fetch(ids[i]).value == kept[k];
      assert QueuedAt(fetch, jobs, ids, i);
    }
    if exists i :: 0 <= i < |ids| && QueuedAt(fetch, jobs, ids, i) {
      var i :| 0 <= i < |ids| && QueuedAt(fetch, jobs, ids, i);
      SelectedAreKept(fetch, jobs, ids, i);
    }
    if s.failure {
      var k :| 0 <= k < |kept| && kept[k].buildstatus != 0;
      KeptAreSelected(fetch, jobs, ids, k);
      var i :| 0 <= i < |ids| && MatchedAt(fetch, jobs, ids, i) && fetch(ids[i]).value == kept[k];
      assert FailedAt(fetch, jobs, ids, i);
    }
    if exists i :: 0 <= i < |ids| && FailedAt(fetch, jobs, ids, i) {
      var i :| 0 <= i < |ids| && FailedAt(fetch, jobs, ids, i);
      SelectedAreKept(fetch, jobs, ids, i);
    }
  }

  /** `more` is `ids` with `x` inserted at position `p`. */
  predicate InsertedAt(ids: seq<i32>, p: nat, x: i32, more: seq<i32>)
  {
    && p <= |ids| && |more| == |ids| + 1 && more[p] == x
    && (forall j :: 0 <= j < p ==> more[j] == ids[j])
    && (forall j :: p < j < |more| ==> more[j] == ids[j - 1])
  }

  /** Inserting a build that fetches and is not selected leaves the set of
      selected, queued and failed builds as it was. */
  lemma InsertedUnselected(fetch: i32 -> Result<Build>, jobs: Glob, ids: seq<i32>, p: nat, x: i32, more: seq<i32>)
    requires InsertedAt(ids, p, x, more)
    requires fetch(x).Ok? && !jobs.isMatch(fetch(x).value.job)
    ensures AllOk(ids, fetch) <==> AllOk(more, fetch)
    ensures (exists i :: 0 <= i < |ids| && MatchedAt(fetch, jobs, ids, i)) <==>
            (exists i :: 0 <= i < |more| && MatchedAt(fetch, jobs, more, i))
    ensures (exists i :: 0 <= i < |ids| && QueuedAt(fetch, jobs, ids, i)) <==>
            (exists i :: 0 <= i < |more| && QueuedAt(fetch, jobs, more, i))
    ensures (exists i :: 0 <= i < |ids| && FailedAt(fetch, jobs, ids, i)) <==>
            (exists i :: 0 <= i < |more| && FailedAt(fetch, jobs, more, i))
  {
    forall j | 0 <= j < |ids|
      ensures var j' := if j < p then j else j + 1;
        && fetch(ids[j]) == fetch(more[j'])
        && MatchedAt(fetch, jobs, ids, j) == MatchedAt(fetch, jobs, more, j')
        && QueuedAt(fetch, jobs, ids, j) == QueuedAt(fetch, jobs, more, j')
        && FailedAt(fetch, jobs, ids, j) == FailedAt(fetch, jobs, more, j')
    {
      assert ids[j] == more[if j < p then j else j + 1];
    }
    forall j | 0 <= j < |more| && j != p
      ensures var j' := if j < p then j else j - 1;
        && fetch(more[j]) == fetch(ids[j'])
        && MatchedAt(fetch, jobs, more, j) == MatchedAt(fetch, jobs, ids, j')
        && QueuedAt(fetch, jobs, more, j) == QueuedAt(fetch, jobs, ids, j')
        && FailedAt(fetch, jobs, more, j) == FailedAt(fetch, jobs, ids, j')
    {
      assert more[j] == ids[if j < p then j else j - 1];
    }
    assert !MatchedAt(fetch, jobs, more, p);
  }

  /** Inserting a build that fetches and is not selected anywhere in an
      evaluation leaves its summary unchanged. */
  lemma UnselectedBuildIrrelevant(fetch: i32 -> Result<Build>, jobs: Glob, ids: seq<i32>, p: nat, x: i32)
    requires p <= |ids|
    requires fetch(x).Ok? && !jobs.isMatch(fetch(x).value.job)
    ensures CheckJobsetEvaluation(fetch, jobs, JobsetEvaluation(ids[..p] + [x] + ids[p..])) ==
            CheckJobsetEvaluation(fetch, jobs, JobsetEvaluation(ids))
  {
    var more := ids[..p] + [x] + ids[p..];
    assert InsertedAt(ids, p, x, more);
    InsertedUnselected(fetch, jobs, ids, p, x, more);
    if AllOk(ids, fetch) {
      if exists i :: 0 <= i < |ids| && MatchedAt(fetch, jobs, ids, i) {
        SelectedBuildsDecide(fetch, jobs, JobsetEvaluation(ids));
        SelectedBuildsDecide(fetch, jobs, JobsetEvaluation(more));
      } else {
        NoSelectedBuildFails(fetch, jobs, JobsetEvaluation(ids));
        NoSelectedBuildFails(fetch, jobs, JobsetEvaluation(more));
      }
    }
  }

  /** The verdict of an evaluation history, scanned most recent first:
      queued evaluations are skipped, the first settled one decides, and a
      history with no settled evaluation is not passing. */
  function ListPassing(fetch: i32 -> Result<Build>, jobs: Glob, evals: seq<JobsetEvaluation>): (r: Result<bool>)
    ensures evals == [] ==> r == Ok(false)
    ensures r == Ok(true) ==>
      exists k :: 0 <= k < |evals| && CheckJobsetEvaluation(fetch, jobs, evals[k]) == Ok(Summary(false, false))
  {
    if evals == [] then Ok(false)
    else
      match CheckJobsetEvaluation(fetch, jobs, evals[0])
      case Err => Err
      case Ok(summary) =>
        if summary.queued then ListPassing(fetch, jobs, evals[1..]) else Ok(!summary.failure)
  }

  /** Evaluation `e` fetched completely and is still queued. */
  predicate IsQueued(fetch: i32 -> Result<Build>, jobs: Glob, e: JobsetEvaluation)
  {
    var r := CheckJobsetEvaluation(fetch, jobs, e);
    r.Ok? && r.value.queued
  }

  /** The first `k` evaluations of `evals` are all queued. */
  predicate QueuedPrefix(fetch: i32 -> Result<Build>, jobs: Glob, evals: seq<JobsetEvaluation>, k: int)
    requires 0 <= k <= |evals|
  {
    forall i :: 0 <= i < k ==> IsQueued(fetch, jobs, evals[i])
  }

  /** Walks the history in order, skipping queued evaluations, and answers
      for the first settled one; an error aborts the walk. */
  method CheckListPassing(fetch: i32 -> Result<Build>, jobs: Glob, list: JobsetEvalList) returns (r: Result<bool>)
    ensures r == ListPassing(fetch, jobs, list.evals)
  {
    var evals := list.evals;
    var i := 0;
    while i < |evals|
      invariant 0 <= i <= |evals|
      invariant ListPassing(fetch, jobs, evals) == ListPassing(fetch, jobs, evals[i..])
    {
      var summary := CheckJobsetEvaluation(fetch, jobs, evals[i]);
      if summary.Err? {
        return Err;
      }
      if summary.value.queued {
        assert evals[i..][1..] == evals[i + 1..];
        i := i + 1;
        continue;
      }
      return Ok(!summary.value.failure);
    }
    return Ok(false);
  }

  /** A queued prefix is skipped: the verdict is that of what follows it. */
  lemma {:induction false} QueuedPrefixSkipped(fetch: i32 -> Result<Build>, jobs: Glob, evals: seq<JobsetEvaluation>, k: int)
    requires 0 <= k <= |evals| && QueuedPrefix(fetch, jobs, evals, k)
    ensures ListPassing(fetch, jobs, evals) == ListPassing(fetch, jobs, evals[k..])
  {
    if k > 0 {
      assert IsQueued(fetch, jobs, evals[0]);
      assert QueuedPrefix(fetch, jobs, evals[1..], k - 1) by {
        forall i | 0 <= i < k - 1 ensures IsQueued(fetch, jobs, evals[1..][i]) {
          assert evals[1..][i] == evals[i + 1];
        }
      }
      QueuedPrefixSkipped(fetch, jobs, evals[1..], k - 1);
      assert evals[1..][k - 1..] == evals[k..];
    }
  }

  /** The first evaluation that is not queued decides the verdict: passing
      exactly when none of its selected builds failed. */
  lemma {:induction false} FirstSettledDecides(fetch: i32 -> Result<Build>, jobs: Glob, evals: seq<JobsetEvaluation>, k: int)
    requires 0 <= k < |evals| && QueuedPrefix(fetch, jobs, evals, k)
    requires CheckJobsetEvaluation(fetch, jobs, evals[k]).Ok?
    requires !CheckJobsetEvaluation(fetch, jobs, evals[k]).value.queued
    ensures ListPassing(fetch, jobs, evals) == Ok(!CheckJobsetEvaluation(fetch, jobs, evals[k]).value.failure)
  {
    QueuedPrefixSkipped(fetch, jobs, evals, k);
    assert evals[k..][0] == evals[k];
  }

  /** An error in the first evaluation that is not queued is the verdict. */
  lemma {:induction false} FirstErrorAborts(fetch: i32 -> Result<Build>, jobs: Glob, evals: seq<JobsetEvaluation>, k: int)
    requires 0 <= k < |evals| && QueuedPrefix(fetch, jobs, evals, k)
    requires exists i :: 0 <= i < |evals[k].builds| && fetch(evals[k].builds[i]).Err?
    ensures ListPassing(fetch, jobs, evals) == Err
  {
    QueuedPrefixSkipped(fetch, jobs, evals, k);
    assert evals[k..][0] == evals[k];
  }

  /** A history that is empty or wholly queued is not passing. */
  lemma {:induction false} AllQueuedNotPassing(fetch: i32 -> Result<Build>, jobs: Glob, evals: seq<JobsetEvaluation>)
    requires QueuedPrefix(fetch, jobs, evals, |evals|)
    ensures ListPassing(fetch, jobs, evals) == Ok(false)
  {
    QueuedPrefixSkipped(fetch, jobs, evals, |evals|);
  }

  /** The first evaluation past the queued prefix that fetches completely but
      has no selected build stops the scan as not passing, whatever older
      evaluations hold. */
  lemma {:induction false} MissingJobStopsScan(fetch: i32 -> Result<Build>, jobs: Glob, evals: seq<JobsetEvaluation>, k: int)
    requires 0 <= k < |evals| && QueuedPrefix(fetch, jobs, evals, k)
    requires AllOk(evals[k].builds, fetch)
    requires forall i :: 0 <= i < |evals[k].builds| ==> !MatchedAt(fetch, jobs, evals[k].builds, i)
    ensures ListPassing(fetch, jobs, evals) == Ok(false)
  {
    NoSelectedBuildFails(fetch, jobs, evals[k]);
    FirstSettledDecides(fetch, jobs, evals, k);
  }

  /** Evaluations older than the first one that is not queued are never
      examined: replacing them, errors included, changes nothing. */
  lemma {:induction false} OlderEvaluationsIgnored(fetch: i32 -> Result<Build>, jobs: Glob, evals: seq<JobsetEvaluation>, k: int, older: seq<JobsetEvaluation>)
    requires 0 <= k < |evals| && QueuedPrefix(fetch, jobs, evals, k)
    requires !IsQueued(fetch, jobs, evals[k])
    ensures ListPassing(fetch, jobs, evals[..k + 1] + older) == ListPassing(fetch, jobs, evals)
  {
    var cut := evals[..k + 1] + older;
    assert QueuedPrefix(fetch, jobs, cut, k) by {
      forall i | 0 <= i < k ensures IsQueued(fetch, jobs, cut[i]) {
        assert cut[i] == evals[i];
      }
    }
    QueuedPrefixSkipped(fetch, jobs, cut, k);
    QueuedPrefixSkipped(fetch, jobs, evals, k);
    assert cut[k..][0] == evals[k..][0] == evals[k];
  }

  /** A history passes exactly when some evaluation is preceded only by
      queued ones and is itself settled with no failed selected build. */
  lemma {:induction false} PassingIff(fetch: i32 -> Result<Build>, jobs: Glob, evals: seq<JobsetEvaluation>)
    ensures ListPassing(fetch, jobs, evals) == Ok(true) <==>
      exists k :: 0 <= k < |evals| && QueuedPrefix(fetch, jobs, evals, k) &&
        CheckJobsetEvaluation(fetch, jobs, evals[k]) == Ok(Summary(false, false))
  {
    var k := FirstUnqueued(fetch, jobs, evals);
    QueuedPrefixSkipped(fetch, jobs, evals, k);
    if k < |evals| {
      assert evals[k..][0] == evals[k];
      forall k' | 0 <= k' < |evals| && QueuedPrefix(fetch, jobs, evals, k') &&
          CheckJobsetEvaluation(fetch, jobs, evals[k']) == Ok(Summary(false, false))
        ensures k' == k
      {
      }
    } else {
      forall k' | 0 <= k' < |evals| && QueuedPrefix(fetch, jobs, evals, k')
        ensures CheckJobsetEvaluation(fetch, jobs, evals[k']) != Ok(Summary(false, false))
      {
      }
    }
  }

  /** The length of the longest queued prefix of `evals`. */
  function FirstUnqueued(fetch: i32 -> Result<Build>, jobs: Glob, evals: seq<JobsetEvaluation>): (k: nat)
    ensures k <= |evals| && QueuedPrefix(fetch, jobs, evals, k)
    ensures k < |evals| ==> !IsQueued(fetch, jobs, evals[k])
  {
    if evals == [] || !IsQueued(fetch, jobs, evals[0]) then 0
    else
      var k := FirstUnqueued(fetch, jobs, evals[1..]);
      assert forall i :: 1 <= i <= k ==> evals[i] == evals[1..][i - 1];
      k + 1
  }
}
