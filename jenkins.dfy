/** `Deployment.check_jenkins` (deployment/deployment.py): the build-stability gate
    before a deployment. The Jenkins job and Git are abstract inputs. */
module JenkinsGate {
  import opened Values
  import opened DeploymentStore

  /** A Jenkins build: whether it is still running, its result (None while
      unknown), the relative paths of its artifacts (None when the build data
      has no `artifacts` key) and its base URL. */
  datatype Build = Build(building: bool, result: Option<string>, artifacts: Option<seq<string>>, baseUrl: string)

  /** The latest build of a branch with the revision data Jenkins records for
      it: the names of the branches involved and the commit that was built. */
  datatype BranchBuild = BranchBuild(build: Build, branches: seq<string>, revision: string)

  /** A Jenkins job: the latest build per branch name, and for a multibranch
      pipeline (a job with child jobs) those of its `master` child job. */
  datatype Job = Job(hasJobs: bool, builds: map<string, BranchBuild>, masterBuilds: map<string, BranchBuild>)

  /** Jenkins, as the job it returns for a job name. */
  type Jenkins = string -> Job

  const Branches: seq<string> := ["master", "origin/master"]

  const MergeRequest := "Latest build is caused by merge request"
  const Stale := "Latest build is stale compared to Git repository"
  const NotFound := "Master branch build could not be found"
  const Incomplete := "Build is not complete"
  const Success := "SUCCESS"

  function NotSuccess(result: Option<string>): string {
    "Build result was not success, but " + (if result.None? then "None" else result.value)
  }

  /** The branch builds of the job whose builds are judged. */
  function BranchBuilds(job: Job): map<string, BranchBuild> {
    if job.hasJobs then job.masterBuilds else job.builds
  }

  /** The distinct branch names involved in a build. */
  function BranchSet(names: seq<string>): set<string> {
    set n | n in names
  }

  /** A build whose revision involves more than one branch comes from a merge request. */
  predicate IsMergeRequest(bb: BranchBuild) {
    |BranchSet(bb.branches)| > 1
  }

  /** The build that is judged: the `master` build, else the `origin/master` build. */
  function Selected(builds: map<string, BranchBuild>): (r: Option<BranchBuild>)
    ensures r.Some? <==> exists k :: 0 <= k < |Branches| && Branches[k] in builds
    ensures r.Some? ==> exists k :: 0 <= k < |Branches| && Branches[k] in builds
                                    && r.value == builds[Branches[k]]
                                    && forall j :: 0 <= j < k ==> Branches[j] !in builds
  {
    if Branches[0] in builds then Some(builds[Branches[0]])
    else if Branches[1] in builds then Some(builds[Branches[1]])
    else None
  }

  /** `check_jenkins` with the build it accepted returned to the caller. The
      checks run in the source's order: source, merge request, staleness,
      missing build, building, result. */
  function CheckJenkins(d: Deployment, jenkins: Jenkins, git: Git): (r: Result<Build>)
    requires WellTyped(d.config)
    ensures GetSource(d).Err? ==> r == Err(GetSource(d).error)
    ensures r.Ok? ==> GetSource(d).Ok? && "jenkins_job" in d.config
    ensures r.Err? ==> r.error.ValueError? || r.error.KeyError?
  {
    match GetSource(d)
    case Err(e) => Err(e)
    case Ok(source) =>
      if "jenkins_job" !in d.config then Err(KeyError("jenkins_job"))
      else
        var selected := Selected(BranchBuilds(jenkins(d.config["jenkins_job"].text)));
        if selected.Some? && IsMergeRequest(selected.value) then Err(ValueError(MergeRequest))
        else if selected.Some? && !git.upToDate(source, selected.value.revision) then Err(ValueError(Stale))
        else if selected.None? then Err(ValueError(NotFound))
        else if selected.value.build.building then Err(ValueError(Incomplete))
        else if selected.value.build.result != Some(Success) then Err(ValueError(NotSuccess(selected.value.build.result)))
        else Ok(selected.value.build)
  }

  /** `check_jenkins` as written: the function ends without `return`, so the caller
      receives `None` in place of the build it accepted. */
  function CheckJenkinsAsWritten(d: Deployment, jenkins: Jenkins, git: Git): (r: Result<Option<Build>>)
    requires WellTyped(d.config)
    ensures r.Ok? <==> CheckJenkins(d, jenkins, git).Ok?
    ensures r.Ok? ==> r.value == None
    ensures r.Err? ==> r.error == CheckJenkins(d, jenkins, git).error
  {
    match CheckJenkins(d, jenkins, git)
    case Ok(_) => Ok(None)
    case Err(e) => Err(e)
  }

  /** The gate as the source runs it: a loop over the two branch names that stops
      at the first with a build, then the checks on that build. */
  method CheckJenkinsLoop(d: Deployment, jenkins: Jenkins, git: Git) returns (r: Result<Build>)
    requires WellTyped(d.config)
    ensures r == CheckJenkins(d, jenkins, git)
  {
    var sourceResult := GetSource(d);
    if sourceResult.Err? {
      return Err(sourceResult.error);
    }
    var source := sourceResult.value;
    if "jenkins_job" !in d.config {
      return Err(KeyError("jenkins_job"));
    }
    var job := jenkins(d.config["jenkins_job"].text);
    var builds := if job.hasJobs then job.masterBuilds else job.builds;
    var found: Option<BranchBuild> := None;
    var i := 0;
    while i < |Branches|
      invariant 0 <= i <= |Branches|
      invariant found.None?
      invariant forall j :: 0 <= j < i ==> Branches[j] !in builds
    {
      var branch := Branches[i];
      if branch in builds {
        var branchBuild := builds[branch];
        found := Some(branchBuild);
        if |BranchSet(branchBuild.branches)| > 1 {
          return Err(ValueError(MergeRequest));
        }
        if !git.upToDate(source, branchBuild.revision) {
          return Err(ValueError(Stale));
        }
        break;
      }
      i := i + 1;
    }
    if found.None? {
      return Err(ValueError(NotFound));
    }
    var build := found.value.build;
    if build.building {
      return Err(ValueError(Incomplete));
    }
    if build.result != Some(Success) {
      return Err(ValueError(NotSuccess(build.result)));
    }
    return Ok(build);
  }

  /** Two distinct names among a build's branches is what makes the set of branch
      names larger than one. */
  lemma MergeRequestIffTwoBranches(bb: BranchBuild)
    ensures IsMergeRequest(bb) <==>
      exists i, j :: 0 <= i < |bb.branches| && 0 <= j < |bb.branches| && bb.branches[i] != bb.branches[j]
  {
    var names := bb.branches;
    if exists i, j :: 0 <= i < |names| && 0 <= j < |names| && names[i] != names[j] {
      var i, j :| 0 <= i < |names| && 0 <= j < |names| && names[i] != names[j];
      assert {names[i], names[j]} <= BranchSet(names);
      assert |{names[i], names[j]}| == 2;
      SubsetCardinality({names[i], names[j]}, BranchSet(names));
    } else if names != [] {
      assert BranchSet(names) <= {names[0]};
      SubsetCardinality(BranchSet(names), {names[0]});
    } else {
      assert BranchSet(names) == {};
    }
  }

  lemma SubsetCardinality(a: set<string>, b: set<string>)
    requires a <= b
    ensures |a| <= |b|
  {
    assert b == a + (b - a);
  }

  /** The gate accepts exactly a found, single-branch, up-to-date, finished and
      successful build, and then hands back the build it judged. */
  lemma AcceptedBuild(d: Deployment, jenkins: Jenkins, git: Git)
    requires WellTyped(d.config)
    ensures CheckJenkins(d, jenkins, git).Ok? <==>
      && GetSource(d).Ok? && "jenkins_job" in d.config
      && var sel := Selected(BranchBuilds(jenkins(d.config["jenkins_job"].text)));
      && sel.Some? && !IsMergeRequest(sel.value)
      && git.upToDate(GetSource(d).value, sel.value.revision)
      && !sel.value.build.building && sel.value.build.result == Some(Success)
    ensures CheckJenkins(d, jenkins, git).Ok? ==>
      CheckJenkins(d, jenkins, git).value == Selected(BranchBuilds(jenkins(d.config["jenkins_job"].text))).value.build
  {
  }

  /** The `master` build is judged whenever it exists: the `origin/master` build
      does not matter then. */
  lemma MasterBeforeOriginMaster(d: Deployment, jenkins: Jenkins, git: Git, other: BranchBuild)
    requires WellTyped(d.config) && "jenkins_job" in d.config
    requires "master" in BranchBuilds(jenkins(d.config["jenkins_job"].text))
    ensures
      var job := jenkins(d.config["jenkins_job"].text);
      var swapped := job.(builds := job.builds["origin/master" := other],
                          masterBuilds := job.masterBuilds["origin/master" := other]);
      CheckJenkins(d, jenkins, git) == CheckJenkins(d, n => if n == d.config["jenkins_job"].text then swapped else jenkins(n), git)
  {
  }

  /** Once the merge-request and staleness checks pass, the gate rejects a
      missing build, then a build still running whatever its result, then a
      finished build whose result is not `SUCCESS`, naming that result. */
  lemma RemainingChecksInOrder(d: Deployment, jenkins: Jenkins, git: Git)
    requires WellTyped(d.config) && GetSource(d).Ok? && "jenkins_job" in d.config
    ensures var sel := Selected(BranchBuilds(jenkins(d.config["jenkins_job"].text)));
      && (sel.None? ==> CheckJenkins(d, jenkins, git) == Err(ValueError(NotFound)))
      && (sel.Some? && !IsMergeRequest(sel.value) && git.upToDate(GetSource(d).value, sel.value.revision) ==>
            && (sel.value.build.building ==> CheckJenkins(d, jenkins, git) == Err(ValueError(Incomplete)))
            && (!sel.value.build.building && sel.value.build.result != Some(Success) ==>
                  CheckJenkins(d, jenkins, git) == Err(ValueError(NotSuccess(sel.value.build.result)))))
  {
  }

  /** A merge-request build is rejected as such, before staleness, build state
      and result are looked at. */
  lemma MergeRequestRejectedFirst(d: Deployment, jenkins: Jenkins, git: Git, i: nat, j: nat)
    requires WellTyped(d.config) && GetSource(d).Ok? && "jenkins_job" in d.config
    requires Selected(BranchBuilds(jenkins(d.config["jenkins_job"].text))).Some?
    requires var bb := Selected(BranchBuilds(jenkins(d.config["jenkins_job"].text))).value;
      i < |bb.branches| && j < |bb.branches| && bb.branches[i] != bb.branches[j]
    ensures CheckJenkins(d, jenkins, git) == Err(ValueError(MergeRequest))
  {
    MergeRequestIffTwoBranches(Selected(BranchBuilds(jenkins(d.config["jenkins_job"].text))).value);
  }

  /** A stale build is rejected as stale even when it is also still building or
      failed: staleness is checked before the build state and result. */
  lemma StaleRejectedBeforeResult(d: Deployment, jenkins: Jenkins, git: Git)
    requires WellTyped(d.config) && GetSource(d).Ok? && "jenkins_job" in d.config
    requires var sel := Selected(BranchBuilds(jenkins(d.config["jenkins_job"].text)));
      sel.Some? && (forall i :: 0 <= i < |sel.value.branches| ==> sel.value.branches[i] == sel.value.branches[0])
      && !git.upToDate(GetSource(d).value, sel.value.revision)
    ensures CheckJenkins(d, jenkins, git) == Err(ValueError(Stale))
  {
    MergeRequestIffTwoBranches(Selected(BranchBuilds(jenkins(d.config["jenkins_job"].text))).value);
  }
}
