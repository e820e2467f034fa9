/** The background deployment task (`Deploy_Task`, deployment/task.py). Every
    effect on the outside world is an event appended to the task's trace; what
    Git, Jenkins, the file system, subprocesses, YAML and the BigBoat client do
    is an abstract `World`. Each part of the task is specified by a function
    returning the events it causes and how it ends (`Steps`); the `DeployTask`
    class performs them step by step and is proved to follow that specification. */
module Task {
  import opened Values
  import opened Text
  import opened DeploymentStore
  import opened JenkinsGate

  /** An observable effect of the task. `Published` is a message on the bus. */
  datatype Event =
    | Published(state: string, message: string)
    | RepositoryUpdated(path: string, branch: string)
    | MadeDirs(path: string)
    | Downloaded(url: string)
    | WroteFile(path: string, content: string)
    | RanScript(script: string, cwd: string, deploymentName: string)
    | Restarted(service: string)
    | ClientCreated(url: string, key: string)
    | AppQueried(name: string, version: string)
    | AppRegistered(name: string, version: string)
    | ComposeUpdated(name: string, version: string, apiFile: string, contents: string)
    | InstanceUpdated(name: string, version: string)

  /** How a subprocess call ends: exit status zero, a non-zero exit with its
      output, or an exception before the process ran (an unbalanced quote in
      `shlex.split`, a missing executable). */
  datatype Process = Succeeded | Failed(output: string) | NotStarted(error: Error)

  /** The outside world during one run of the task. */
  datatype World = World(
    jenkins: Jenkins,
    git: Git,
    repositoryFailure: Option<Error>,           // what `Git_Repository.from_source` raises, if anything
    dirExists: string -> bool,                   // directories present when the artifact step starts
    download: string -> string,                  // the content served at an artifact URL
    downloadError: string -> Option<string>,     // the OSError text when requesting an artifact URL fails
    mkdirError: string -> Option<string>,        // the OSError text when a directory cannot be made
    writeError: string -> Option<string>,        // the OSError text when a file cannot be written
    runScript: string -> Process,
    restart: string -> Process,                  // `sudo systemctl restart <service>`
    contents: string -> string,                  // file contents in the updated repository
    contentsError: string -> Option<Error>,      // what `get_contents` raises for a path, if anything
    composeChanged: seq<string> -> bool,         // whether the update changed any of these paths
    loadYaml: string -> Result<map<string, string>>,
    appExists: (string, string) -> bool,         // BigBoat `get_app(name, version)` is not None
    registerOk: (string, string) -> bool,        // BigBoat `update_app(name, version)` is not None
    composeOk: (string, string, string, string) -> bool,
    bigboatError: Event -> Option<Error>)        // what the BigBoat request behind an event raises, if anything

  /** Everything one run depends on: the deployment, its name, the world,
      whether the task was stopped and whether a bus is attached. */
  datatype Ctx = Ctx(d: Deployment, name: string, w: World, stopped: bool, bus: bool)

  predicate Configured(c: Ctx) {
    WellTyped(c.d.config)
  }

  /** How a piece of the task ends: it returns, or it raises. */
  datatype Outcome = Completed | Raised(error: Error)

  /** The events a piece of the task causes, in order, and how it ends. */
  datatype Steps = Steps(events: seq<Event>, outcome: Outcome)

  function Prepend(events: seq<Event>, s: Steps): Steps {
    Steps(events + s.events, s.outcome)
  }

  /** `a` followed by `b`, where an exception in `a` skips `b`. */
  function Then(a: Steps, b: Steps): Steps {
    if a.outcome.Completed? then Prepend(a.events, b) else a
  }

  const Progress := "progress"
  const CheckingJenkins := "Checking Jenkins build state"
  const UpdatingRepository := "Updating Git repository"
  const NoArtifacts := "Jenkins build has no artifacts"
  const CollectingArtifacts := "Collecting artifacts"
  const WritingSecrets := "Writing secret files"
  const SecretWriteFailed := "Could not write secret file: "
  const KeyRequired := "BigBoat API key required to update BigBoat"
  const ComposeUnchanged := "BigBoat compose files were unchanged, skipping."
  const UpdatingCompose := "Updating BigBoat compose files"
  const RegisterFailed := "Cannot register application"
  const ComposeFailed := "Cannot update compose file"
  const UpdatingInstances := "Updating BigBoat instances"
  const Finished := "Finished deployment"

  /** The compose files sent to BigBoat, with the name the API knows each by. */
  const BigBoatFiles: seq<(string, string)> :=
    [("docker-compose.yml", "dockerCompose"), ("bigboat-compose.yml", "bigboatCompose")]

  /** `_publish`: a stopped task raises the interrupt before anything is logged
      or published. */
  function PublishSteps(c: Ctx, state: string, message: string): Steps {
    if c.stopped then Steps([], Raised(Interrupt))
    else Steps(if c.bus then [Published(state, message)] else [], Completed)
  }

  function Raise(e: Error): Steps {
    Steps([], Raised(e))
  }

  /** The Jenkins check, only when `jenkins_job` is non-empty. */
  function JenkinsSteps(c: Ctx): Steps
    requires Configured(c)
  {
    if c.d.GetText("jenkins_job", "") == "" then Steps([], Completed)
    else Then(PublishSteps(c, Progress, CheckingJenkins),
              match CheckJenkins(c.d, c.w.jenkins, c.w.git)
              case Ok(_) => Steps([], Completed)
              case Err(e) => Raise(e))
  }

  /** The build the Jenkins check accepted: what `_deploy` would keep if
      `check_jenkins` returned it (the corrected behaviour). */
  function LastBuild(c: Ctx): Option<Build>
    requires Configured(c)
  {
    if c.d.GetText("jenkins_job", "") != "" && CheckJenkins(c.d, c.w.jenkins, c.w.git).Ok?
    then Some(CheckJenkins(c.d, c.w.jenkins, c.w.git).value)
    else None
  }

  /** What `_deploy` keeps as written: the value `check_jenkins` returns, which is
      always `None`. */
  function LastBuildAsWritten(c: Ctx): Option<Build>
    requires Configured(c)
  {
    if c.d.GetText("jenkins_job", "") != "" && CheckJenkinsAsWritten(c.d, c.w.jenkins, c.w.git).Ok?
    then CheckJenkinsAsWritten(c.d, c.w.jenkins, c.w.git).value
    else None
  }

  function GitPath(c: Ctx): string
    requires Configured(c)
  {
    c.d.GetText("git_path", "")
  }

  /** Updating the checkout with the deploy key, on `git_branch` (default `master`). */
  function RepositorySteps(c: Ctx): Steps
    requires Configured(c)
  {
    Then(PublishSteps(c, Progress, UpdatingRepository),
         match GetSource(c.d)
         case Err(e) => Raise(e)
         case Ok(_) =>
           if "git_path" !in c.d.config then Raise(KeyError("git_path"))
           else if c.w.repositoryFailure.Some? then Raise(c.w.repositoryFailure.value)
           else Steps([RepositoryUpdated(c.d.config["git_path"].text, c.d.GetText("git_branch", "master"))], Completed))
  }

  /** Whether `dir` exists because of an earlier `mkdir(parents=True)` of one of
      the directories in `made`: it is one of them or one of their ancestors. */
  predicate MadeBefore(made: set<string>, dir: string) {
    exists m :: m in made && (m == dir || dir + "/" <= m)
  }

  /** Whether the artifact loop has to make `dir`: it did not exist before the
      run and no earlier artifact's directory lies in it. */
  predicate MustMake(c: Ctx, known: set<string>, dir: string) {
    !(MadeBefore(known, dir) || c.w.dirExists(dir))
  }

  /** One artifact: its directory is made when it is missing, then it is
      downloaded and written. */
  function ArtifactSteps(c: Ctx, repo: string, b: Build, p: string, known: set<string>): Steps {
    var target := JoinPath(repo, p);
    var dir := Parent(target);
    var url := b.baseUrl + "/artifact/" + p;
    Then(PublishSteps(c, Progress, "Collecting artifact " + p), FetchSteps(c, MustMake(c, known, dir), dir, url, target))
  }

  /** Making the directory when `makeDir` holds, the download, then the write;
      each of the three may raise an `OSError`. */
  function FetchSteps(c: Ctx, makeDir: bool, dir: string, url: string, target: string): Steps {
    if makeDir && c.w.mkdirError(dir).Some? then Raise(OSError(c.w.mkdirError(dir).value))
    else
      var made := if makeDir then [MadeDirs(dir)] else [];
      if c.w.downloadError(url).Some? then Steps(made, Raised(OSError(c.w.downloadError(url).value)))
      else match c.w.writeError(target)
        case Some(m) => Steps(made + [Downloaded(url)], Raised(OSError(m)))
        case None => Steps(made + [Downloaded(url), WroteFile(target, c.w.download(url))], Completed)
  }

  /** The artifacts from the `i`-th on, in build order; `known` holds the
      directories made for the earlier ones. */
  function CollectFrom(c: Ctx, repo: string, b: Build, paths: seq<string>, i: nat, known: set<string>): Steps
    decreases |paths| - i
  {
    if i >= |paths| then Steps([], Completed)
    else Then(ArtifactSteps(c, repo, b, paths[i], known),
              CollectFrom(c, repo, b, paths, i + 1, known + {Parent(JoinPath(repo, paths[i]))}))
  }

  /** `_add_artifacts`: a build without artifacts fails before anything else. */
  function AddArtifactsSteps(c: Ctx, repo: string, b: Build): Steps {
    if b.artifacts.None? || b.artifacts.value == [] then Raise(RuntimeError(NoArtifacts))
    else Then(PublishSteps(c, Progress, CollectingArtifacts), CollectFrom(c, repo, b, b.artifacts.value, 0, {}))
  }

  /** The artifacts step, only with a checked build and `artifacts` set. */
  function ArtifactsStage(c: Ctx, build: Option<Build>): Steps
    requires Configured(c)
  {
    if build.Some? && c.d.Get("artifacts", Flag(false)) == Flag(true) then AddArtifactsSteps(c, GitPath(c), build.value)
    else Steps([], Completed)
  }

  function SecretFiles(c: Ctx): Dict
    requires Configured(c)
  {
    if "secret_files" in c.d.config then c.d.config["secret_files"].files else []
  }

  /** One secret file; an entry with an empty name is skipped. */
  function SecretSteps(c: Ctx, path: string, entry: (string, string)): Steps {
    if entry.0 == "" then Steps([], Completed)
    else
      var target := JoinPath(path, entry.0);
      match c.w.writeError(target)
      case Some(m) => Raise(RuntimeError(SecretWriteFailed + m))
      case None => Steps([WroteFile(target, entry.1)], Completed)
  }

  /** The secret files from the `i`-th entry on, in dictionary order. */
  function SecretsFrom(c: Ctx, path: string, entries: Dict, i: nat): Steps
    decreases |entries| - i
  {
    if i >= |entries| then Steps([], Completed)
    else Then(SecretSteps(c, path, entries[i]), SecretsFrom(c, path, entries, i + 1))
  }

  /** `_add_secret_files`. */
  function AddSecretFilesSteps(c: Ctx, path: string): Steps
    requires Configured(c)
  {
    Then(PublishSteps(c, Progress, WritingSecrets), SecretsFrom(c, path, SecretFiles(c), 0))
  }

  /** The script, only when non-empty; it runs in the checkout with
      `DEPLOYMENT_NAME` set to the deployment's name. */
  function ScriptSteps(c: Ctx, path: string): Steps
    requires Configured(c)
  {
    var script := c.d.GetText("script", "");
    if script == "" then Steps([], Completed)
    else Then(PublishSteps(c, Progress, "Runnning script " + script),
              match c.w.runScript(script)
              case NotStarted(e) => Raise(e)
              case Failed(output) =>
                Steps([RanScript(script, path, c.name)], Raised(RuntimeError("Could not run script " + script + ": " + output)))
              case Succeeded => Steps([RanScript(script, path, c.name)], Completed))
  }

  /** One service restart; an empty name is skipped. */
  function RestartSteps(c: Ctx, service: string): Steps {
    if service == "" then Steps([], Completed)
    else Then(PublishSteps(c, Progress, "Restarting service " + service),
              match c.w.restart(service)
              case NotStarted(e) => Raise(e)
              case Failed(_) => Steps([Restarted(service)], Raised(RuntimeError("Could not restart service " + service)))
              case Succeeded => Steps([Restarted(service)], Completed))
  }

  /** The services from the `i`-th on, in configured order. */
  function RestartFrom(c: Ctx, services: seq<string>, i: nat): Steps
    decreases |services| - i
  {
    if i >= |services| then Steps([], Completed)
    else Then(RestartSteps(c, services[i]), RestartFrom(c, services, i + 1))
  }

  /** The services step: `services` must be configured. */
  function ServicesSteps(c: Ctx): Steps
    requires Configured(c)
  {
    if "services" !in c.d.config then Raise(KeyError("services"))
    else RestartFrom(c, c.d.config["services"].names, 0)
  }

  function ComposePaths(dir: string): (paths: seq<string>)
    ensures |paths| == |BigBoatFiles|
    ensures forall i :: 0 <= i < |paths| ==> paths[i] == JoinPath(dir, BigBoatFiles[i].0)
  {
    seq(|BigBoatFiles|, i requires 0 <= i < |BigBoatFiles| => JoinPath(dir, BigBoatFiles[i].0))
  }

  /** The exception of the first compose file `get_contents` cannot read, if any. */
  function ContentsFailure(w: World, paths: seq<string>): (e: Option<Error>)
    ensures e.None? <==> forall j :: 0 <= j < |paths| ==> w.contentsError(paths[j]).None?
    ensures e.Some? ==> exists j ::
      && 0 <= j < |paths| && e == w.contentsError(paths[j])
      && forall k :: 0 <= k < j ==> w.contentsError(paths[k]).None?
  {
    if paths == [] then None
    else if w.contentsError(paths[0]).Some? then w.contentsError(paths[0])
    else ContentsFailure(w, paths[1..])
  }

  /** How a BigBoat request ends: its exception, if it raises, and otherwise
      `refusal` when the answer is a refusal. */
  function Answer(w: World, request: Event, accepted: bool, refusal: Error): Outcome {
    if w.bigboatError(request).Some? then Raised(w.bigboatError(request).value)
    else if accepted then Completed
    else Raised(refusal)
  }

  /** The compose files by API name, with their contents in the updated checkout. */
  function ComposeFiles(w: World, dir: string): (files: Dict)
    ensures |files| == |BigBoatFiles|
    ensures forall i :: 0 <= i < |files| ==> files[i] == (BigBoatFiles[i].1, w.contents(JoinPath(dir, BigBoatFiles[i].0)))
  {
    seq(|BigBoatFiles|, i requires 0 <= i < |BigBoatFiles| => (BigBoatFiles[i].1, w.contents(JoinPath(dir, BigBoatFiles[i].0))))
  }

  /** Looking the application up, and registering it when it is missing. */
  function RegisterSteps(c: Ctx, name: string, version: string): Steps {
    var query := AppQueried(name, version);
    if c.w.bigboatError(query).Some? then Steps([query], Raised(c.w.bigboatError(query).value))
    else if c.w.appExists(name, version) then Steps([query], Completed)
    else
      var register := AppRegistered(name, version);
      Steps([query, register], Answer(c.w, register, c.w.registerOk(name, version), RuntimeError(RegisterFailed)))
  }

  /** Uploading one compose file; BigBoat may refuse it. */
  function ComposeFileSteps(c: Ctx, name: string, version: string, file: (string, string)): Steps {
    var upload := ComposeUpdated(name, version, file.0, file.1);
    Steps([upload], Answer(c.w, upload, c.w.composeOk(name, version, file.0, file.1), RuntimeError(ComposeFailed)))
  }

  /** Uploading the compose files from the `i`-th on; a refused upload stops the rest. */
  function ComposeFrom(c: Ctx, name: string, version: string, files: Dict, i: nat): Steps
    decreases |files| - i
  {
    if i >= |files| then Steps([], Completed)
    else Then(ComposeFileSteps(c, name, version, files[i]), ComposeFrom(c, name, version, files, i + 1))
  }

  function InstanceSteps(c: Ctx, name: string, version: string): Steps {
    var update := InstanceUpdated(name, version);
    var answer := if c.w.bigboatError(update).Some? then Raised(c.w.bigboatError(update).value) else Completed;
    Then(PublishSteps(c, Progress, UpdatingInstances), Steps([update], answer))
  }

  /** Registering the application if needed, uploading its compose files and
      updating its instance, each only when the one before succeeded. */
  function ApplicationSteps(c: Ctx, name: string, version: string, files: Dict): Steps {
    Then(RegisterSteps(c, name, version),
         Then(ComposeFrom(c, name, version, files, 0), InstanceSteps(c, name, version)))
  }

  /** From loading `bigboat-compose.yml` to updating the instance. */
  function SyncSteps(c: Ctx, files: Dict): Steps
    requires Configured(c) && |files| == |BigBoatFiles|
  {
    var client := [ClientCreated(c.d.GetText("bigboat_url", ""), c.d.GetText("bigboat_key", ""))];
    match c.w.loadYaml(files[1].1)
    case Err(e) => Raise(e)
    case Ok(compose) =>
      if "name" !in compose then Steps(client, Raised(KeyError("name")))
      else if "version" !in compose then Steps(client, Raised(KeyError("version")))
      else
        var name := compose["name"];
        var version := compose["version"];
        Then(Steps(client, Completed), ApplicationSteps(c, name, version, files))
  }

  /** `_update_bigboat`. */
  function UpdateBigBoatSteps(c: Ctx): Steps
    requires Configured(c)
  {
    if c.d.GetText("bigboat_key", "") == "" then Raise(ValueError(KeyRequired))
    else
      var dir := c.d.GetText("bigboat_compose", "");
      if ContentsFailure(c.w, ComposePaths(dir)).Some? then Raise(ContentsFailure(c.w, ComposePaths(dir)).value)
      else if !c.w.composeChanged(ComposePaths(dir)) then PublishSteps(c, Progress, ComposeUnchanged)
      else Then(PublishSteps(c, Progress, UpdatingCompose), SyncSteps(c, ComposeFiles(c.w, dir)))
  }

  /** The BigBoat step, only when `bigboat_url` is non-empty. */
  function BigBoatStage(c: Ctx): Steps
    requires Configured(c)
  {
    if c.d.GetText("bigboat_url", "") == "" then Steps([], Completed) else UpdateBigBoatSteps(c)
  }

  /** `_deploy` given the build the Jenkins check handed back: the Jenkins check,
      the repository update, then the rest. */
  function DeployWith(c: Ctx, build: Option<Build>): Steps
    requires Configured(c)
  {
    Then(JenkinsSteps(c), Then(RepositorySteps(c), CheckoutSteps(c, build)))
  }

  /** What `_deploy` does in the updated checkout: artifacts, secret files and
      the script, then the rest. */
  function CheckoutSteps(c: Ctx, build: Option<Build>): Steps
    requires Configured(c)
  {
    Then(ArtifactsStage(c, build),
         Then(AddSecretFilesSteps(c, GitPath(c)),
              Then(ScriptSteps(c, GitPath(c)), FinishSteps(c))))
  }

  /** The end of `_deploy`: services, BigBoat, and the success message. */
  function FinishSteps(c: Ctx): Steps
    requires Configured(c)
  {
    Then(ServicesSteps(c), Then(BigBoatStage(c), PublishSteps(c, "success", Finished)))
  }

  /** `_deploy` corrected: the Jenkins check returns the build it accepted. */
  function DeploySteps(c: Ctx): Steps
    requires Configured(c)
  {
    DeployWith(c, LastBuild(c))
  }

  /** `_deploy` as written, where the Jenkins check hands back nothing, so the
      artifacts step never runs. This is what `DeployTask.Deploy` does. */
  function DeployAsWritten(c: Ctx): Steps
    requires Configured(c)
  {
    DeployWith(c, LastBuildAsWritten(c))
  }

  /** `run`: the interrupt ends the task quietly; a `RuntimeError` or `ValueError`
      is published as an error; any other exception escapes the thread. */
  function TaskSteps(c: Ctx): Steps
    requires Configured(c)
  {
    var s := DeployAsWritten(c);
    match s.outcome
    case Completed => s
    case Raised(e) =>
      if e.Interrupt? then Steps(s.events, Completed)
      else if e.RuntimeError? || e.ValueError? then Prepend(s.events, PublishSteps(c, "error", e.message))
      else s
  }

  /** The bookkeeping of a loop that has caused `done` and is about to run `a` then `b`. */
  lemma ThenStep(done: seq<Event>, a: Steps, b: Steps)
    ensures a.outcome.Completed? ==> Prepend(done, Then(a, b)) == Prepend(done + a.events, b)
    ensures a.outcome.Raised? ==> Prepend(done, Then(a, b)) == Steps(done + a.events, a.outcome)
  {
  }

  /** The bookkeeping of `a` followed by `b`: the trace went from `before` to `mid`
      by `a`, and from `mid` to `after` by `b` only if `a` completed. */
  lemma Chain(before: seq<Event>, mid: seq<Event>, after: seq<Event>, o1: Outcome, o: Outcome, a: Steps, b: Steps)
    requires mid == before + a.events && o1 == a.outcome
    requires o1.Raised? ==> after == mid && o == o1
    requires o1.Completed? ==> after == mid + b.events && o == b.outcome
    ensures after == before + Then(a, b).events && o == Then(a, b).outcome
  {
  }

  /** A deploy task for one deployment, with its stop flag and the trace of its effects. */
  class DeployTask {
    const deployment: Deployment
    const name: string
    const bus: bool
    var stopped: bool
    var trace: seq<Event>

    ghost predicate Valid()
      reads this
    {
      WellTyped(deployment.config) && NameOf(deployment) == Ok(name)
    }

    function Context(w: World): Ctx
      reads this`stopped
    {
      Ctx(deployment, name, w, stopped, bus)
    }

    /** The trace grew from `before` by the events of `s`, and `o` is how `s` ends. */
    ghost predicate Extends(before: seq<Event>, o: Outcome, s: Steps)
      reads this
    {
      trace == before + s.events && o == s.outcome
    }

    constructor Init(d: Deployment, hasBus: bool)
      requires WellTyped(d.config) && "name" in d.config
      ensures Valid() && deployment == d && bus == hasBus && !stopped && trace == []
    {
      deployment := d;
      name := d.config["name"].text;
      bus := hasBus;
      stopped := false;
      trace := [];
    }

    /** `Deploy_Task(deployment, config, bus)`: reading the name raises `KeyError`
        for a deployment without one. */
    static method Create(d: Deployment, hasBus: bool) returns (r: Result<DeployTask>)
      requires WellTyped(d.config)
      ensures r.Err? <==> "name" !in d.config
      ensures r.Err? ==> r.error == KeyError("name")
      ensures r.Ok? ==> fresh(r.value) && r.value.Valid() && r.value.deployment == d && r.value.bus == hasBus
      ensures r.Ok? ==> !r.value.stopped && r.value.trace == []
    {
      if "name" !in d.config {
        return Err(KeyError("name"));
      }
      var task := new DeployTask.Init(d, hasBus);
      return Ok(task);
    }

    /** `stop`: every later publish raises the interrupt. */
    method Stop()
      modifies this`stopped
      ensures stopped
    {
      stopped := true;
    }

    /** `_publish`. */
    method Publish(w: World, state: string, message: string) returns (o: Outcome)
      modifies this`trace
      ensures Extends(old(trace), o, PublishSteps(Context(w), state, message))
    {
      if stopped {
        return Raised(Interrupt);
      }
      if bus {
        trace := trace + [Published(state, message)];
      }
      return Completed;
    }

    /** One pass of the artifact loop: the `i`-th artifact. */
    method CollectArtifact(ghost c: Ctx, w: World, repo: string, build: Build, paths: seq<string>, i: nat, known: set<string>,
                           ghost start: seq<Event>, ghost done: seq<Event>) returns (o: Outcome, known': set<string>, ghost done': seq<Event>)
      requires c == Context(w) && i < |paths| && trace == start + done
      modifies this`trace
      ensures trace == start + done'
      ensures o.Completed? ==> Prepend(done, CollectFrom(c, repo, build, paths, i, known)) == Prepend(done', CollectFrom(c, repo, build, paths, i + 1, known'))
      ensures o.Raised? ==> Prepend(done, CollectFrom(c, repo, build, paths, i, known)) == Steps(done', o)
    {
      var path := paths[i];
      var target := JoinPath(repo, path);
      var dir := Parent(target);
      known' := known + {dir};
      ghost var one := ArtifactSteps(c, repo, build, path, known);
      ThenStep(done, one, CollectFrom(c, repo, build, paths, i + 1, known'));
      done' := done + one.events;
      ghost var t0 := trace;
      o := Publish(w, Progress, "Collecting artifact " + path);
      ghost var t1, o1 := trace, o;
      if o.Completed? {
        o := Fetch(w, !(MadeBefore(known, dir) || w.dirExists(dir)), dir, build.baseUrl + "/artifact/" + path, target);
      }
      Chain(t0, t1, trace, o1, o, PublishSteps(c, Progress, "Collecting artifact " + path),
            FetchSteps(c, MustMake(c, known, dir), dir, build.baseUrl + "/artifact/" + path, target));
    }

    /** The body of the artifact loop after its progress message: the directory,
        the download and the write. */
    method Fetch(w: World, makeDir: bool, dir: string, url: string, target: string) returns (o: Outcome)
      modifies this`trace
      ensures Extends(old(trace), o, FetchSteps(Context(w), makeDir, dir, url, target))
    {
      if makeDir {
        var mkdirError := w.mkdirError(dir);
        if mkdirError.Some? {
          return Raised(OSError(mkdirError.value));
        }
        trace := trace + [MadeDirs(dir)];
      }
      var downloadError := w.downloadError(url);
      if downloadError.Some? {
        return Raised(OSError(downloadError.value));
      }
      trace := trace + [Downloaded(url)];
      var error := w.writeError(target);
      if error.Some? {
        return Raised(OSError(error.value));
      }
      trace := trace + [WroteFile(target, w.download(url))];
      return Completed;
    }

    /** `_add_artifacts`. */
    method AddArtifacts(w: World, repo: string, build: Build) returns (o: Outcome)
      modifies this`trace
      ensures Extends(old(trace), o, AddArtifactsSteps(Context(w), repo, build))
    {
      if build.artifacts.None? || build.artifacts.value == [] {
        return Raised(RuntimeError(NoArtifacts));
      }
      ghost var t0 := trace;
      o := Publish(w, Progress, CollectingArtifacts);
      ghost var t1, o1 := trace, o;
      if o.Completed? {
        o := CollectArtifacts(w, repo, build, build.artifacts.value);
      }
      Chain(t0, t1, trace, o1, o, PublishSteps(Context(w), Progress, CollectingArtifacts),
            CollectFrom(Context(w), repo, build, build.artifacts.value, 0, {}));
    }

    /** The artifact loop of `_add_artifacts`. */
    method CollectArtifacts(w: World, repo: string, build: Build, paths: seq<string>) returns (o: Outcome)
      modifies this`trace
      ensures Extends(old(trace), o, CollectFrom(Context(w), repo, build, paths, 0, {}))
    {
      ghost var c := Context(w);
      ghost var start := trace;
      ghost var done: seq<Event> := [];
      ghost var whole := CollectFrom(c, repo, build, paths, 0, {});
      var known: set<string> := {};
      var i := 0;
      while i < |paths|
        invariant 0 <= i <= |paths|
        invariant trace == start + done
        invariant whole == Prepend(done, CollectFrom(c, repo, build, paths, i, known))
      {
        o, known, done := CollectArtifact(c, w, repo, build, paths, i, known, start, done);
        if o.Raised? {
          return;
        }
        i := i + 1;
      }
      assert whole == Steps(done + [], Completed);
      assert done + [] == done;
      o := Completed;
    }

    /** One pass of the secret-file loop: the `i`-th entry. */
    method WriteSecret(ghost c: Ctx, w: World, path: string, entries: Dict, i: nat, ghost start: seq<Event>, ghost done: seq<Event>)
      returns (o: Outcome, ghost done': seq<Event>)
      requires c == Context(w) && i < |entries| && trace == start + done
      modifies this`trace
      ensures trace == start + done'
      ensures o.Completed? ==> Prepend(done, SecretsFrom(c, path, entries, i)) == Prepend(done', SecretsFrom(c, path, entries, i + 1))
      ensures o.Raised? ==> Prepend(done, SecretsFrom(c, path, entries, i)) == Steps(done', o)
    {
      ghost var one := SecretSteps(c, path, entries[i]);
      ThenStep(done, one, SecretsFrom(c, path, entries, i + 1));
      done' := done + one.events;
      var (secretName, secretFile) := entries[i];
      if secretName == "" {
        return Completed, done';
      }
      var target := JoinPath(path, secretName);
      var error := w.writeError(target);
      if error.Some? {
        return Raised(RuntimeError(SecretWriteFailed + error.value)), done';
      }
      trace := trace + [WroteFile(target, secretFile)];
      o := Completed;
    }

    /** `_add_secret_files`. */
    method AddSecretFiles(w: World, path: string) returns (o: Outcome)
      requires Valid()
      modifies this`trace
      ensures Extends(old(trace), o, AddSecretFilesSteps(Context(w), path))
    {
      var entries := if "secret_files" in deployment.config then deployment.config["secret_files"].files else [];
      ghost var t0 := trace;
      o := Publish(w, Progress, WritingSecrets);
      ghost var t1, o1 := trace, o;
      if o.Completed? {
        o := WriteSecrets(w, path, entries);
      }
      Chain(t0, t1, trace, o1, o, PublishSteps(Context(w), Progress, WritingSecrets), SecretsFrom(Context(w), path, entries, 0));
    }

    /** The loop over the secret files of `_add_secret_files`. */
    method WriteSecrets(w: World, path: string, entries: Dict) returns (o: Outcome)
      modifies this`trace
      ensures Extends(old(trace), o, SecretsFrom(Context(w), path, entries, 0))
    {
      ghost var c := Context(w);
      ghost var start := trace;
      ghost var done: seq<Event> := [];
      var i := 0;
      while i < |entries|
        invariant 0 <= i <= |entries|
        invariant trace == start + done
        invariant SecretsFrom(c, path, entries, 0) == Prepend(done, SecretsFrom(c, path, entries, i))
      {
        o, done := WriteSecret(c, w, path, entries, i, start, done);
        if o.Raised? {
          return;
        }
        i := i + 1;
      }
      o := Completed;
    }

    /** One pass of the service loop: the `i`-th service. */
    method RestartService(ghost c: Ctx, w: World, services: seq<string>, i: nat, ghost start: seq<Event>, ghost done: seq<Event>)
      returns (o: Outcome, ghost done': seq<Event>)
      requires c == Context(w) && i < |services| && trace == start + done
      modifies this`trace
      ensures trace == start + done'
      ensures o.Completed? ==> Prepend(done, RestartFrom(c, services, i)) == Prepend(done', RestartFrom(c, services, i + 1))
      ensures o.Raised? ==> Prepend(done, RestartFrom(c, services, i)) == Steps(done', o)
    {
      var service := services[i];
      ghost var one := RestartSteps(c, service);
      ThenStep(done, one, RestartFrom(c, services, i + 1));
      done' := done + one.events;
      if service == "" {
        return Completed, done';
      }
      o := Publish(w, Progress, "Restarting service " + service);
      if o.Raised? {
        return;
      }
      var result := w.restart(service);
      if result.NotStarted? {
        return Raised(result.error), done';
      }
      trace := trace + [Restarted(service)];
      if result.Failed? {
        return Raised(RuntimeError("Could not restart service " + service)), done';
      }
    }

    /** The service restarts of `_deploy`. */
    method RestartServices(w: World) returns (o: Outcome)
      requires Valid()
      modifies this`trace
      ensures Extends(old(trace), o, ServicesSteps(Context(w)))
    {
      if "services" !in deployment.config {
        return Raised(KeyError("services"));
      }
      var services := deployment.config["services"].names;
      ghost var c := Context(w);
      ghost var start := trace;
      ghost var done: seq<Event> := [];
      var i := 0;
      while i < |services|
        invariant 0 <= i <= |services|
        invariant trace == start + done
        invariant RestartFrom(c, services, 0) == Prepend(done, RestartFrom(c, services, i))
      {
        o, done := RestartService(c, w, services, i, start, done);
        if o.Raised? {
          return;
        }
        i := i + 1;
      }
      o := Completed;
    }

    method RunScript(w: World, path: string) returns (o: Outcome)
      requires Valid()
      modifies this`trace
      ensures Extends(old(trace), o, ScriptSteps(Context(w), path))
    {
      var script := deployment.GetText("script", "");
      if script == "" {
        return Completed;
      }
      o := Publish(w, Progress, "Runnning script " + script);
      if o.Raised? {
        return;
      }
      var result := w.runScript(script);
      if result.NotStarted? {
        return Raised(result.error);
      }
      trace := trace + [RanScript(script, path, name)];
      if result.Failed? {
        return Raised(RuntimeError("Could not run script " + script + ": " + result.output));
      }
    }

    /** One pass of the compose-file loop: the `i`-th file. */
    method UpdateComposeFile(ghost c: Ctx, w: World, composeName: string, version: string, files: Dict, i: nat,
                             ghost start: seq<Event>, ghost done: seq<Event>) returns (o: Outcome, ghost done': seq<Event>)
      requires c == Context(w) && i < |files| && trace == start + done
      modifies this`trace
      ensures trace == start + done'
      ensures o.Completed? ==>
        Prepend(done, ComposeFrom(c, composeName, version, files, i)) == Prepend(done', ComposeFrom(c, composeName, version, files, i + 1))
      ensures o.Raised? ==> Prepend(done, ComposeFrom(c, composeName, version, files, i)) == Steps(done', o)
    {
      ghost var one := ComposeFileSteps(c, composeName, version, files[i]);
      ThenStep(done, one, ComposeFrom(c, composeName, version, files, i + 1));
      done' := done + one.events;
      var (api, contents) := files[i];
      var upload := ComposeUpdated(composeName, version, api, contents);
      trace := trace + [upload];
      if w.bigboatError(upload).Some? {
        return Raised(w.bigboatError(upload).value), done';
      }
      if !w.composeOk(composeName, version, api, contents) {
        return Raised(RuntimeError(ComposeFailed)), done';
      }
      o := Completed;
    }

    method UpdateCompose(w: World, composeName: string, version: string, files: Dict) returns (o: Outcome)
      modifies this`trace
      ensures Extends(old(trace), o, ComposeFrom(Context(w), composeName, version, files, 0))
    {
      ghost var c := Context(w);
      ghost var start := trace;
      ghost var done: seq<Event> := [];
      var i := 0;
      while i < |files|
        invariant 0 <= i <= |files|
        invariant trace == start + done
        invariant ComposeFrom(c, composeName, version, files, 0) == Prepend(done, ComposeFrom(c, composeName, version, files, i))
      {
        o, done := UpdateComposeFile(c, w, composeName, version, files, i, start, done);
        if o.Raised? {
          return;
        }
        i := i + 1;
      }
      o := Completed;
    }

    method Register(w: World, composeName: string, version: string) returns (o: Outcome)
      modifies this`trace
      ensures Extends(old(trace), o, RegisterSteps(Context(w), composeName, version))
    {
      var query := AppQueried(composeName, version);
      trace := trace + [query];
      if w.bigboatError(query).Some? {
        return Raised(w.bigboatError(query).value);
      }
      if !w.appExists(composeName, version) {
        var register := AppRegistered(composeName, version);
        trace := trace + [register];
        if w.bigboatError(register).Some? {
          return Raised(w.bigboatError(register).value);
        }
        if !w.registerOk(composeName, version) {
          return Raised(RuntimeError(RegisterFailed));
        }
      }
      o := Completed;
    }

    method UpdateInstance(w: World, composeName: string, version: string) returns (o: Outcome)
      modifies this`trace
      ensures Extends(old(trace), o, InstanceSteps(Context(w), composeName, version))
    {
      o := Publish(w, Progress, UpdatingInstances);
      if o.Raised? {
        return;
      }
      var update := InstanceUpdated(composeName, version);
      trace := trace + [update];
      if w.bigboatError(update).Some? {
        return Raised(w.bigboatError(update).value);
      }
    }

    method UpdateApplication(w: World, composeName: string, version: string, files: Dict) returns (o: Outcome)
      modifies this`trace
      ensures Extends(old(trace), o, ApplicationSteps(Context(w), composeName, version, files))
    {
      ghost var c := Context(w);
      ghost var compose := ComposeFrom(c, composeName, version, files, 0);
      ghost var instance := InstanceSteps(c, composeName, version);
      ghost var t0 := trace;
      o := Register(w, composeName, version);
      ghost var t1, o1 := trace, o;
      if o.Completed? {
        o := UpdateCompose(w, composeName, version, files);
        ghost var t2, o2 := trace, o;
        if o.Completed? {
          o := UpdateInstance(w, composeName, version);
        }
        Chain(t1, t2, trace, o2, o, compose, instance);
      }
      Chain(t0, t1, trace, o1, o, RegisterSteps(c, composeName, version), Then(compose, instance));
    }

    /** `_update_bigboat` from loading the compose file on. */
    method Sync(w: World, files: Dict) returns (o: Outcome)
      requires Valid() && |files| == |BigBoatFiles|
      modifies this`trace
      ensures Extends(old(trace), o, SyncSteps(Context(w), files))
    {
      var loaded := w.loadYaml(files[1].1);
      if loaded.Err? {
        return Raised(loaded.error);
      }
      ghost var t0 := trace;
      var client := ClientCreated(deployment.GetText("bigboat_url", ""), deployment.GetText("bigboat_key", ""));
      trace := trace + [client];
      var compose := loaded.value;
      if "name" !in compose {
        return Raised(KeyError("name"));
      }
      if "version" !in compose {
        return Raised(KeyError("version"));
      }
      ghost var t1 := trace;
      o := UpdateApplication(w, compose["name"], compose["version"], files);
      Chain(t0, t1, trace, Completed, o, Steps([client], Completed),
            ApplicationSteps(Context(w), compose["name"], compose["version"], files));
    }

    /** The loop over `BIGBOAT_FILES`: each compose file's path and contents,
        or the exception of the first file `get_contents` cannot read. */
    method ReadComposeFiles(w: World, dir: string) returns (files: Dict, paths: seq<string>, failure: Option<Error>)
      ensures failure == ContentsFailure(w, ComposePaths(dir))
      ensures failure.None? ==> files == ComposeFiles(w, dir) && paths == ComposePaths(dir)
    {
      ghost var all := ComposePaths(dir);
      files := [];
      paths := [];
      var i := 0;
      while i < |BigBoatFiles|
        invariant 0 <= i <= |BigBoatFiles| && |files| == |paths| == i
        invariant forall j :: 0 <= j < i ==> paths[j] == JoinPath(dir, BigBoatFiles[j].0)
        invariant forall j :: 0 <= j < i ==> files[j] == (BigBoatFiles[j].1, w.contents(paths[j]))
        invariant ContentsFailure(w, all) == ContentsFailure(w, all[i..])
      {
        var (filename, apiFilename) := BigBoatFiles[i];
        var fullFilename := JoinPath(dir, filename);
        assert all[i..][0] == fullFilename && all[i..][1..] == all[i + 1..];
        if w.contentsError(fullFilename).Some? {
          return files, paths, w.contentsError(fullFilename);
        }
        assert Keys(files) == if i == 0 then [] else [BigBoatFiles[0].1];
        PutNewKey(files, apiFilename, w.contents(fullFilename));
        files := Put(files, apiFilename, w.contents(fullFilename));
        paths := paths + [fullFilename];
        i := i + 1;
      }
      assert all[i..] == [];
      failure := None;
    }

    /** `_update_bigboat`. */
    method UpdateBigBoat(w: World) returns (o: Outcome)
      requires Valid()
      modifies this`trace
      ensures Extends(old(trace), o, UpdateBigBoatSteps(Context(w)))
    {
      if deployment.GetText("bigboat_key", "") == "" {
        return Raised(ValueError(KeyRequired));
      }
      var dir := deployment.GetText("bigboat_compose", "");
      var files, paths, failure := ReadComposeFiles(w, dir);
      if failure.Some? {
        return Raised(failure.value);
      }
      if !w.composeChanged(paths) {
        o := Publish(w, Progress, ComposeUnchanged);
        return;
      }
      ghost var t0 := trace;
      o := Publish(w, Progress, UpdatingCompose);
      ghost var t1, o1 := trace, o;
      if o.Completed? {
        o := Sync(w, files);
      }
      Chain(t0, t1, trace, o1, o, PublishSteps(Context(w), Progress, UpdatingCompose), SyncSteps(Context(w), files));
    }

    /** The BigBoat step of `_deploy`, only when `bigboat_url` is set. */
    method BigBoat(w: World) returns (o: Outcome)
      requires Valid()
      modifies this`trace
      ensures Extends(old(trace), o, BigBoatStage(Context(w)))
    {
      o := Completed;
      if deployment.GetText("bigboat_url", "") != "" {
        o := UpdateBigBoat(w);
      }
    }

    /** The Jenkins check of `_deploy`, keeping what `check_jenkins` returns. */
    method CheckBuild(w: World) returns (o: Outcome, build: Option<Build>)
      requires Valid()
      modifies this`trace
      ensures Extends(old(trace), o, JenkinsSteps(Context(w)))
      ensures o.Completed? ==> build == LastBuildAsWritten(Context(w))
    {
      build := None;
      if deployment.GetText("jenkins_job", "") == "" {
        return Completed, None;
      }
      o := Publish(w, Progress, CheckingJenkins);
      if o.Raised? {
        return;
      }
      var checked := CheckJenkinsLoop(deployment, w.jenkins, w.git);
      if checked.Err? {
        return Raised(checked.error), None;
      }
      // `check_jenkins` ends without `return`: `_deploy` keeps `None`.
      build := None;
    }

    method UpdateRepository(w: World) returns (o: Outcome)
      requires Valid()
      modifies this`trace
      ensures Extends(old(trace), o, RepositorySteps(Context(w)))
    {
      o := Publish(w, Progress, UpdatingRepository);
      if o.Raised? {
        return;
      }
      var source := GetSource(deployment);
      if source.Err? {
        return Raised(source.error);
      }
      if "git_path" !in deployment.config {
        return Raised(KeyError("git_path"));
      }
      if w.repositoryFailure.Some? {
        return Raised(w.repositoryFailure.value);
      }
      trace := trace + [RepositoryUpdated(deployment.config["git_path"].text, deployment.GetText("git_branch", "master"))];
    }

    /** `_deploy` as written: the steps in order, the first exception ending the
        deployment; the Jenkins check hands back no build, so no artifacts are
        collected. */
    method Deploy(w: World) returns (o: Outcome)
      requires Valid()
      modifies this`trace
      ensures Extends(old(trace), o, DeployAsWritten(Context(w)))
    {
      ghost var c := Context(w);
      ghost var rest := CheckoutSteps(c, LastBuildAsWritten(c));
      ghost var t0 := trace;
      var lastBuild;
      o, lastBuild := CheckBuild(w);
      ghost var t1, o1 := trace, o;
      if o.Completed? {
        o := UpdateRepository(w);
        ghost var t2, o2 := trace, o;
        if o.Completed? {
          o := DeployCheckout(w, lastBuild);
        }
        Chain(t1, t2, trace, o2, o, RepositorySteps(c), rest);
      }
      Chain(t0, t1, trace, o1, o, JenkinsSteps(c), Then(RepositorySteps(c), rest));
    }

    /** `_deploy` once the checkout is updated. */
    method DeployCheckout(w: World, lastBuild: Option<Build>) returns (o: Outcome)
      requires Valid()
      modifies this`trace
      ensures Extends(old(trace), o, CheckoutSteps(Context(w), lastBuild))
    {
      ghost var c := Context(w);
      var gitPath := deployment.GetText("git_path", "");
      ghost var script := ScriptSteps(c, gitPath);
      ghost var secrets := AddSecretFilesSteps(c, gitPath);
      ghost var finish := FinishSteps(c);
      ghost var t0 := trace;
      o := Artifacts(w, lastBuild);
      ghost var t1, o1 := trace, o;
      if o.Completed? {
        o := AddSecretFiles(w, gitPath);
        ghost var t2, o2 := trace, o;
        if o.Completed? {
          o := RunScript(w, gitPath);
          ghost var t3, o3 := trace, o;
          if o.Completed? {
            o := FinishDeploy(w);
          }
          Chain(t2, t3, trace, o3, o, script, finish);
        }
        Chain(t1, t2, trace, o2, o, secrets, Then(script, finish));
      }
      Chain(t0, t1, trace, o1, o, ArtifactsStage(c, lastBuild), Then(secrets, Then(script, finish)));
    }

    /** The artifacts step of `_deploy`, only with a checked build and `artifacts` set. */
    method Artifacts(w: World, lastBuild: Option<Build>) returns (o: Outcome)
      requires Valid()
      modifies this`trace
      ensures Extends(old(trace), o, ArtifactsStage(Context(w), lastBuild))
    {
      o := Completed;
      if lastBuild.Some? && deployment.Get("artifacts", Flag(false)) == Flag(true) {
        o := AddArtifacts(w, deployment.GetText("git_path", ""), lastBuild.value);
      }
    }

    /** The service restarts, the BigBoat update and the success message of `_deploy`. */
    method FinishDeploy(w: World) returns (o: Outcome)
      requires Valid()
      modifies this`trace
      ensures Extends(old(trace), o, FinishSteps(Context(w)))
    {
      ghost var c := Context(w);
      ghost var success := PublishSteps(c, "success", Finished);
      ghost var t0 := trace;
      o := RestartServices(w);
      ghost var t1, o1 := trace, o;
      if o.Completed? {
        o := BigBoat(w);
        ghost var t2, o2 := trace, o;
        if o.Completed? {
          o := Publish(w, "success", Finished);
        }
        Chain(t1, t2, trace, o2, o, BigBoatStage(c), success);
      }
      Chain(t0, t1, trace, o1, o, ServicesSteps(c), Then(BigBoatStage(c), success));
    }

    /** `run`. */
    method Run(w: World) returns (o: Outcome)
      requires Valid()
      modifies this`trace
      ensures Extends(old(trace), o, TaskSteps(Context(w)))
    {
      ghost var c := Context(w);
      ghost var s := DeployAsWritten(c);
      o := Deploy(w);
      assert Context(w) == c;
      if o.Raised? {
        var e := o.error;
        if e.Interrupt? {
          o := Completed;
        } else if e.RuntimeError? || e.ValueError? {
          ghost var t1 := trace;
          o := Publish(w, "error", e.message);
          assert trace == t1 + PublishSteps(c, "error", e.message).events;
        }
      }
    }
  }
}
