/**
 * The records the endpoint reads from a Hydra server, the jobset identity
 * string `project:name`, and the selection of jobsets by a glob.
 */
module Hydra {
  import opened Wrappers

  /** A signed 32-bit integer, the width of the server's ids and codes. */
  newtype i32 = x: int | -0x8000_0000 <= x < 0x8000_0000

  /** A compiled glob, abstracted as the pattern text (shown in the badge
      label) and an uninterpreted matching predicate. */
  datatype Glob = Glob(pattern: string, isMatch: string -> bool)

  /** One entry of the project list returned by the server's root URL. */
  datatype Project = Project(name: string, jobsets: seq<string>)

  /** One evaluation of a jobset: the ids of the builds it produced.
      (The evaluation's own id is never read and is not modelled.) */
  datatype JobsetEvaluation = JobsetEvaluation(builds: seq<i32>)

  /** The evaluation history of a jobset, most recent first. */
  datatype JobsetEvalList = JobsetEvalList(evals: seq<JobsetEvaluation>)

  /** A build: its job name, `finished == 1` when settled, and
      `buildstatus == 0` when successful. */
  datatype Build = Build(job: string, finished: i32, buildstatus: i32)

  /** A jobset named by its project and its own name. */
  datatype Jobset = Jobset(project: string, name: string)

  /** The identity string `project:name`, used to match the jobset glob. */
  function Identity(j: Jobset): (s: string)
    ensures |s| == |j.project| + 1 + |j.name|
    ensures s[..|j.project|] == j.project
    ensures s[|j.project|] == ':'
    ensures s[|j.project| + 1..] == j.name
  {
    j.project + ":" + j.name
  }

  /** The position of the first ':' in `s`, if any. */
  function FirstColon(s: string): (r: Option<nat>)
    ensures r.Some? ==> r.value < |s| && s[r.value] == ':' && ':' !in s[..r.value]
    ensures r.None? ==> ':' !in s
  {
    if s == [] then None
    else if s[0] == ':' then Some(0)
    else match FirstColon(s[1..])
      case None => None
      case Some(k) => Some(k + 1)
  }

  /** Splits an identity string at its first ':' back into a jobset. */
  function ParseIdentity(s: string): (r: Option<Jobset>)
  {
    match FirstColon(s)
    case None => None
    case Some(k) => Some(Jobset(s[..k], s[k + 1..]))
  }

  /** Parsing inverts the identity string of every jobset whose project
      name holds no ':' (the jobset name may hold any character). */
  lemma {:induction false} IdentityRoundTrip(j: Jobset)
    requires ':' !in j.project
    ensures ParseIdentity(Identity(j)) == Some(j)
  {
    var s := Identity(j);
    var k := FirstColon(s);
    assert s[..|j.project|] == j.project;
    if k.None? || k.value != |j.project| {
      assert false;
    }
  }

  /** Every string that parses is the identity string of what it parses to. */
  lemma {:induction false} ParsedIdentityRoundTrip(s: string)
    requires ParseIdentity(s).Some?
    ensures Identity(ParseIdentity(s).value) == s
  {
    var k := FirstColon(s).value;
    assert s == s[..k] + [s[k]] + s[k + 1..];
  }

  /** With ':'-free project names the identity string determines the jobset,
      so matching on it cannot confuse two jobsets. */
  lemma {:induction false} IdentityInjective(a: Jobset, b: Jobset)
    requires ':' !in a.project && ':' !in b.project
    requires Identity(a) == Identity(b)
    ensures a == b
  {
    IdentityRoundTrip(a);
    IdentityRoundTrip(b);
  }

  /** Some project of the list has the jobset's project name and lists the
      jobset's name. */
  predicate ListedBy(projects: seq<Project>, j: Jobset)
  {
    exists i :: 0 <= i < |projects| && j.project == projects[i].name && j.name in projects[i].jobsets
  }

  /** The `(project, jobset)` pairs of the project list, in project order and,
      within a project, in jobset order. */
  function AllJobsets(projects: seq<Project>): (r: seq<Jobset>)
    ensures forall k :: 0 <= k < |r| ==> ListedBy(projects, r[k])
  {
    if projects == [] then []
    else ProjectJobsets(projects[0]) + AllJobsets(projects[1..])
  }

  /** The jobsets of one project, in its order. */
  function ProjectJobsets(p: Project): (r: seq<Jobset>)
    ensures |r| == |p.jobsets|
    ensures forall k :: 0 <= k < |r| ==> r[k] == Jobset(p.name, p.jobsets[k])
  {
    seq(|p.jobsets|, k requires 0 <= k < |p.jobsets| => Jobset(p.name, p.jobsets[k]))
  }

  /** A jobset is among the pairs exactly when some project lists it. */
  lemma {:induction false} AllJobsetsMembers(projects: seq<Project>, j: Jobset)
    ensures j in AllJobsets(projects) <==>
      exists i, k :: 0 <= i < |projects| && 0 <= k < |projects[i].jobsets| &&
        j == Jobset(projects[i].name, projects[i].jobsets[k])
  {
    if projects != [] {
      AllJobsetsMembers(projects[1..], j);
      var here := ProjectJobsets(projects[0]);
      if j in here {
        var k :| 0 <= k < |here| && here[k] == j;
        assert j == Jobset(projects[0].name, projects[0].jobsets[k]);
      }
      if j in AllJobsets(projects[1..]) {
        var i, k :| 0 <= i < |projects[1..]| && 0 <= k < |projects[1..][i].jobsets| &&
          j == Jobset(projects[1..][i].name, projects[1..][i].jobsets[k]);
        assert projects[1..][i] == projects[i + 1];
      }
      if exists i, k :: 0 <= i < |projects| && 0 <= k < |projects[i].jobsets| &&
           j == Jobset(projects[i].name, projects[i].jobsets[k]) {
        var i, k :| 0 <= i < |projects| && 0 <= k < |projects[i].jobsets| &&
          j == Jobset(projects[i].name, projects[i].jobsets[k]);
        if i == 0 {
          assert here[k] == j;
        } else {
          assert projects[1..][i - 1] == projects[i];
        }
      }
    }
  }

  /** Flattening distributes over concatenation of project lists. */
  lemma {:induction false} AllJobsetsConcat(ps: seq<Project>, qs: seq<Project>)
    ensures AllJobsets(ps + qs) == AllJobsets(ps) + AllJobsets(qs)
  {
    if ps == [] {
      assert ps + qs == qs;
    } else {
      assert (ps + qs)[0] == ps[0];
      assert (ps + qs)[1..] == ps[1..] + qs;
      AllJobsetsConcat(ps[1..], qs);
    }
  }

  /** Whether the jobset glob accepts a jobset's identity string. */
  function JobsetSelected(jobsets: Glob): Jobset -> bool
  {
    j => jobsets.isMatch(Identity(j))
  }

  /** The jobsets the endpoint examines: every flattened pair whose identity
      string the jobset glob accepts, in flattened order. */
  function SelectJobsets(projects: seq<Project>, jobsets: Glob): (r: seq<Jobset>)
    ensures |r| <= |AllJobsets(projects)|
    ensures forall k :: 0 <= k < |r| ==> r[k] in AllJobsets(projects) && jobsets.isMatch(Identity(r[k]))
  {
    var r := Filter(AllJobsets(projects), JobsetSelected(jobsets));
    assert forall k :: 0 <= k < |r| ==> JobsetSelected(jobsets)(r[k]);
    r
  }

  /** A jobset is selected exactly when some project lists it and the jobset
      glob accepts its identity string. */
  lemma SelectJobsetsMembers(projects: seq<Project>, jobsets: Glob, j: Jobset)
    ensures j in SelectJobsets(projects, jobsets) <==>
      jobsets.isMatch(Identity(j)) &&
      exists i, k :: 0 <= i < |projects| && 0 <= k < |projects[i].jobsets| &&
        j == Jobset(projects[i].name, projects[i].jobsets[k])
  {
    var all := AllJobsets(projects);
    var r := SelectJobsets(projects, jobsets);
    AllJobsetsMembers(projects, j);
    if j in r {
      var k :| 0 <= k < |r| && r[k] == j;
      assert JobsetSelected(jobsets)(r[k]);
    }
    if j in all && jobsets.isMatch(Identity(j)) {
      var k :| 0 <= k < |all| && all[k] == j;
      assert JobsetSelected(jobsets)(all[k]);
    }
  }

  /** Selection respects the project order: selecting from two project lists
      in sequence is selecting from each in turn. */
  lemma SelectJobsetsConcat(ps: seq<Project>, qs: seq<Project>, jobsets: Glob)
    ensures SelectJobsets(ps + qs, jobsets) == SelectJobsets(ps, jobsets) + SelectJobsets(qs, jobsets)
  {
    AllJobsetsConcat(ps, qs);
    FilterConcat(AllJobsets(ps), AllJobsets(qs), JobsetSelected(jobsets));
  }

  /** Selection within one project keeps its jobsets in their listed order. */
  lemma SelectJobsetsOfProject(p: Project, jobsets: Glob)
    ensures SelectJobsets([p], jobsets) == Filter(ProjectJobsets(p), JobsetSelected(jobsets))
  {
    assert [p][1..] == [];
    assert AllJobsets([p]) == ProjectJobsets(p) + [];
    assert ProjectJobsets(p) + [] == ProjectJobsets(p);
  }
}
