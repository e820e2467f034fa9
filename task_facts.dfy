/** What a run of the deploy task promises, proved on the specification
    functions of module Task: the messages it leaves for the frontend, the
    files it writes, the services it restarts, what it sends to BigBoat, and
    what the missing `return` in `check_jenkins` costs. */
module TaskFacts {
  import opened Values
  import opened Text
  import opened DeploymentStore
  import opened JenkinsGate
  import opened Task

  /** The items `f` picks out of a trace, in trace order. */
  function Project<T>(events: seq<Event>, f: Event -> Option<T>): seq<T> {
    if events == [] then []
    else (if f(events[0]).Some? then [f(events[0]).value] else []) + Project(events[1..], f)
  }

  lemma {:induction false} ProjectAppend<T>(a: seq<Event>, b: seq<Event>, f: Event -> Option<T>)
    ensures Project(a + b, f) == Project(a, f) + Project(b, f)
  {
    if a != [] {
      var head := if f(a[0]).Some? then [f(a[0]).value] else [];
      assert (a + b)[0] == a[0];
      assert (a + b)[1..] == a[1..] + b;
      ProjectAppend(a[1..], b, f);
      calc {
        Project(a + b, f);
        head + Project(a[1..] + b, f);
        head + (Project(a[1..], f) + Project(b, f));
        (head + Project(a[1..], f)) + Project(b, f);
        Project(a, f) + Project(b, f);
      }
    } else {
      assert a + b == b;
    }
  }

  /** A trace with nothing for `f` shows nothing of `f`. */
  lemma {:induction false} ProjectNone<T>(events: seq<Event>, f: Event -> Option<T>)
    requires forall k :: 0 <= k < |events| ==> f(events[k]).None?
    ensures Project(events, f) == []
  {
    if events != [] {
      ProjectNone(events[1..], f);
    }
  }

  /** What `a` then `b` shows of `f`: all of `a`, and `b` only when `a` completed. */
  lemma ThenProject<T>(a: Steps, b: Steps, f: Event -> Option<T>)
    ensures Project(Then(a, b).events, f) ==
      Project(a.events, f) + (if a.outcome.Completed? then Project(b.events, f) else [])
  {
    if a.outcome.Completed? {
      ProjectAppend(a.events, b.events, f);
    }
  }

  /** A publication with a state other than `progress`: the final state the
      frontend records for the deployment. */
  function AnnouncementOf(e: Event): Option<(string, string)> {
    if e.Published? && e.state != Progress then Some((e.state, e.message)) else None
  }

  function DownloadOf(e: Event): Option<string> {
    if e.Downloaded? then Some(e.url) else None
  }

  function WriteOf(e: Event): Option<(string, string)> {
    if e.WroteFile? then Some((e.path, e.content)) else None
  }

  function RestartOf(e: Event): Option<string> {
    if e.Restarted? then Some(e.service) else None
  }

  function UploadOf(e: Event): Option<(string, string)> {
    if e.ComposeUpdated? then Some((e.apiFile, e.contents)) else None
  }

  /** A piece of the task that announces nothing: it publishes progress only. */
  predicate Quiet(s: Steps) {
    Project(s.events, AnnouncementOf) == []
  }

  lemma {:induction false} NoPublications(events: seq<Event>)
    requires forall k :: 0 <= k < |events| ==> !events[k].Published?
    ensures Project(events, AnnouncementOf) == []
  {
    if events != [] {
      NoPublications(events[1..]);
    }
  }

  lemma QuietThen(a: Steps, b: Steps)
    requires Quiet(a) && Quiet(b)
    ensures Quiet(Then(a, b))
  {
    ThenProject(a, b, AnnouncementOf);
  }

  lemma JenkinsQuiet(c: Ctx)
    requires Configured(c)
    ensures Quiet(JenkinsSteps(c))
  {
    if c.d.GetText("jenkins_job", "") != "" {
      var check := match CheckJenkins(c.d, c.w.jenkins, c.w.git)
        case Ok(_) => Steps([], Completed)
        case Err(e) => Raise(e);
      QuietThen(PublishSteps(c, Progress, CheckingJenkins), check);
    }
  }

  lemma RepositoryQuiet(c: Ctx)
    requires Configured(c)
    ensures Quiet(RepositorySteps(c))
  {
    var update := match GetSource(c.d)
      case Err(e) => Raise(e)
      case Ok(_) =>
        if "git_path" !in c.d.config then Raise(KeyError("git_path"))
        else if c.w.repositoryFailure.Some? then Raise(c.w.repositoryFailure.value)
        else Steps([RepositoryUpdated(c.d.config["git_path"].text, c.d.GetText("git_branch", "master"))], Completed);
    NoPublications(update.events);
    QuietThen(PublishSteps(c, Progress, UpdatingRepository), update);
  }

  lemma {:induction false} CollectQuiet(c: Ctx, repo: string, b: Build, paths: seq<string>, i: nat, known: set<string>)
    ensures Quiet(CollectFrom(c, repo, b, paths, i, known))
    decreases |paths| - i
  {
    if i < |paths| {
      var known' := known + {Parent(JoinPath(repo, paths[i]))};
      ArtifactEffects(c, repo, b, paths[i], known);
      CollectQuiet(c, repo, b, paths, i + 1, known');
      QuietThen(ArtifactSteps(c, repo, b, paths[i], known), CollectFrom(c, repo, b, paths, i + 1, known'));
    }
  }

  lemma ArtifactsStageQuiet(c: Ctx, build: Option<Build>)
    requires Configured(c)
    ensures Quiet(ArtifactsStage(c, build))
  {
    if build.Some? && build.value.artifacts.Some? && build.value.artifacts.value != [] {
      CollectQuiet(c, GitPath(c), build.value, build.value.artifacts.value, 0, {});
      QuietThen(PublishSteps(c, Progress, CollectingArtifacts), CollectFrom(c, GitPath(c), build.value, build.value.artifacts.value, 0, {}));
    }
  }

  lemma {:induction false} SecretsQuiet(c: Ctx, path: string, entries: Dict, i: nat)
    ensures Quiet(SecretsFrom(c, path, entries, i))
    decreases |entries| - i
  {
    if i < |entries| {
      SecretsQuiet(c, path, entries, i + 1);
      QuietThen(SecretSteps(c, path, entries[i]), SecretsFrom(c, path, entries, i + 1));
    }
  }

  lemma AddSecretFilesQuiet(c: Ctx, path: string)
    requires Configured(c)
    ensures Quiet(AddSecretFilesSteps(c, path))
  {
    SecretsQuiet(c, path, SecretFiles(c), 0);
    QuietThen(PublishSteps(c, Progress, WritingSecrets), SecretsFrom(c, path, SecretFiles(c), 0));
  }

  lemma ScriptQuiet(c: Ctx, path: string)
    requires Configured(c)
    ensures Quiet(ScriptSteps(c, path))
  {
    var script := c.d.GetText("script", "");
    if script != "" {
      var run := match c.w.runScript(script)
        case NotStarted(e) => Raise(e)
        case Failed(output) =>
          Steps([RanScript(script, path, c.name)], Raised(RuntimeError("Could not run script " + script + ": " + output)))
        case Succeeded => Steps([RanScript(script, path, c.name)], Completed);
      NoPublications(run.events);
      QuietThen(PublishSteps(c, Progress, "Runnning script " + script), run);
    }
  }

  lemma RestartQuiet(c: Ctx, service: string)
    ensures Quiet(RestartSteps(c, service))
  {
    if service != "" {
      var run := match c.w.restart(service)
        case NotStarted(e) => Raise(e)
        case Failed(_) => Steps([Restarted(service)], Raised(RuntimeError("Could not restart service " + service)))
        case Succeeded => Steps([Restarted(service)], Completed);
      NoPublications(run.events);
      QuietThen(PublishSteps(c, Progress, "Restarting service " + service), run);
    }
  }

  lemma {:induction false} RestartFromQuiet(c: Ctx, services: seq<string>, i: nat)
    ensures Quiet(RestartFrom(c, services, i))
    decreases |services| - i
  {
    if i < |services| {
      RestartQuiet(c, services[i]);
      RestartFromQuiet(c, services, i + 1);
      QuietThen(RestartSteps(c, services[i]), RestartFrom(c, services, i + 1));
    }
  }

  lemma ServicesQuiet(c: Ctx)
    requires Configured(c)
    ensures Quiet(ServicesSteps(c))
  {
    if "services" in c.d.config {
      RestartFromQuiet(c, c.d.config["services"].names, 0);
    }
  }

  lemma {:induction false} ComposeQuiet(c: Ctx, name: string, version: string, files: Dict, i: nat)
    ensures Quiet(ComposeFrom(c, name, version, files, i))
    decreases |files| - i
  {
    if i < |files| {
      ComposeQuiet(c, name, version, files, i + 1);
      QuietThen(ComposeFileSteps(c, name, version, files[i]), ComposeFrom(c, name, version, files, i + 1));
    }
  }

  lemma ApplicationQuiet(c: Ctx, name: string, version: string, files: Dict)
    ensures Quiet(ApplicationSteps(c, name, version, files))
  {
    var instance := InstanceSteps(c, name, version);
    QuietThen(PublishSteps(c, Progress, UpdatingInstances), Steps([InstanceUpdated(name, version)], Completed));
    ComposeQuiet(c, name, version, files, 0);
    QuietThen(ComposeFrom(c, name, version, files, 0), instance);
    NoPublications(RegisterSteps(c, name, version).events);
    QuietThen(RegisterSteps(c, name, version), Then(ComposeFrom(c, name, version, files, 0), instance));
  }

  lemma BigBoatQuiet(c: Ctx)
    requires Configured(c)
    ensures Quiet(BigBoatStage(c))
  {
    var dir := c.d.GetText("bigboat_compose", "");
    var files := ComposeFiles(c.w, dir);
    var client := [ClientCreated(c.d.GetText("bigboat_url", ""), c.d.GetText("bigboat_key", ""))];
    NoPublications(client);
    match c.w.loadYaml(files[1].1)
    case Err(_) =>
    case Ok(compose) =>
      if "name" in compose && "version" in compose {
        ApplicationQuiet(c, compose["name"], compose["version"], files);
        QuietThen(Steps(client, Completed), ApplicationSteps(c, compose["name"], compose["version"], files));
      }
    QuietThen(PublishSteps(c, Progress, UpdatingCompose), SyncSteps(c, files));
  }

  /** `s` announces success, on a bus, exactly when it completes, and nothing else. */
  predicate AnnouncesSuccessOnly(c: Ctx, s: Steps) {
    Project(s.events, AnnouncementOf) == if s.outcome.Completed? && c.bus then [("success", Finished)] else []
  }

  lemma QuietBefore(c: Ctx, a: Steps, b: Steps)
    requires Quiet(a) && AnnouncesSuccessOnly(c, b)
    ensures AnnouncesSuccessOnly(c, Then(a, b))
  {
    ThenProject(a, b, AnnouncementOf);
  }

  /** `_deploy` publishes progress only, and `success` as its very last
      publication when (and only when) every step completed. */
  lemma DeployAnnounces(c: Ctx, build: Option<Build>)
    requires Configured(c)
    ensures AnnouncesSuccessOnly(c, DeployWith(c, build))
  {
    var success := PublishSteps(c, "success", Finished);
    var finish := FinishSteps(c);
    var script := ScriptSteps(c, GitPath(c));
    var secrets := AddSecretFilesSteps(c, GitPath(c));
    var checkout := CheckoutSteps(c, build);
    BigBoatQuiet(c);
    QuietBefore(c, BigBoatStage(c), success);
    ServicesQuiet(c);
    QuietBefore(c, ServicesSteps(c), Then(BigBoatStage(c), success));
    ScriptQuiet(c, GitPath(c));
    QuietBefore(c, script, finish);
    AddSecretFilesQuiet(c, GitPath(c));
    QuietBefore(c, secrets, Then(script, finish));
    ArtifactsStageQuiet(c, build);
    QuietBefore(c, ArtifactsStage(c, build), Then(secrets, Then(script, finish)));
    RepositoryQuiet(c);
    QuietBefore(c, RepositorySteps(c), checkout);
    JenkinsQuiet(c);
    QuietBefore(c, JenkinsSteps(c), Then(RepositorySteps(c), checkout));
  }

  /** `run` leaves exactly one final state for the frontend when the deployment
      ends or fails in a way the task handles: `success`, or `error` with the
      exception's message. A stop ends the run quietly, and any other exception
      escapes the task with nothing announced. */
  lemma RunAnnounces(c: Ctx)
    requires Configured(c) && c.bus
    ensures var s := DeployAsWritten(c); var t := TaskSteps(c);
      && (s.outcome.Completed? ==> t == s && Project(t.events, AnnouncementOf) == [("success", Finished)])
      && (s.outcome == Raised(Interrupt) ==> t.outcome.Completed? && Project(t.events, AnnouncementOf) == [])
      && (s.outcome.Raised? && (s.outcome.error.RuntimeError? || s.outcome.error.ValueError?) && !c.stopped ==>
            t.outcome.Completed? && Project(t.events, AnnouncementOf) == [("error", s.outcome.error.message)])
      && (s.outcome.Raised? && !s.outcome.error.Interrupt? && !s.outcome.error.RuntimeError? && !s.outcome.error.ValueError? ==>
            t == s && Project(t.events, AnnouncementOf) == [])
  {
    var s := DeployAsWritten(c);
    DeployAnnounces(c, LastBuildAsWritten(c));
    if s.outcome.Raised? && (s.outcome.error.RuntimeError? || s.outcome.error.ValueError?) && !c.stopped {
      ProjectAppend(s.events, [Published("error", s.outcome.error.message)], AnnouncementOf);
    }
  }

  /** A task stopped before it runs publishes nothing, does nothing and ends quietly. */
  lemma StoppedTaskDoesNothing(c: Ctx)
    requires Configured(c) && c.stopped
    ensures DeployAsWritten(c) == Steps([], Raised(Interrupt))
    ensures DeploySteps(c) == Steps([], Raised(Interrupt))
    ensures TaskSteps(c) == Steps([], Completed)
  {
  }

  /** The URLs of the artifacts at `paths`. */
  function ArtifactUrls(b: Build, paths: seq<string>): seq<string> {
    if paths == [] then [] else [b.baseUrl + "/artifact/" + paths[0]] + ArtifactUrls(b, paths[1..])
  }

  /** The files the artifacts at `paths` become: each under the checkout with
      the content served at its URL. */
  function ArtifactFiles(c: Ctx, repo: string, b: Build, paths: seq<string>): seq<(string, string)> {
    if paths == [] then []
    else [(JoinPath(repo, paths[0]), c.w.download(b.baseUrl + "/artifact/" + paths[0]))] + ArtifactFiles(c, repo, b, paths[1..])
  }

  /** Whether the directory step and the request of one artifact succeed. */
  predicate Fetched(c: Ctx, makeDir: bool, dir: string, url: string) {
    (makeDir ==> c.w.mkdirError(dir).None?) && c.w.downloadError(url).None?
  }

  /** The directory, download and write of one artifact: the artifact is
      downloaded once when its directory could be made and its URL answered,
      and written exactly when all three steps succeed; every failure is an
      `OSError`. */
  lemma FetchEffects(c: Ctx, makeDir: bool, dir: string, url: string, target: string)
    ensures var fetch := FetchSteps(c, makeDir, dir, url, target);
      && Project(fetch.events, DownloadOf) == (if Fetched(c, makeDir, dir, url) then [url] else [])
      && Project(fetch.events, WriteOf) == (if fetch.outcome.Completed? then [(target, c.w.download(url))] else [])
      && (fetch.outcome.Completed? <==> Fetched(c, makeDir, dir, url) && c.w.writeError(target).None?)
      && Quiet(fetch)
      && (fetch.outcome.Raised? ==> fetch.outcome.error.OSError?)
  {
    var fetch := FetchSteps(c, makeDir, dir, url, target);
    var made := if makeDir then [MadeDirs(dir)] else [];
    assert forall k :: 0 <= k < |made| ==> made[k].MadeDirs?;
    if makeDir && c.w.mkdirError(dir).Some? {
      assert fetch.events == [];
    } else if c.w.downloadError(url).Some? {
      assert fetch.events == made;
      ProjectNone(made, DownloadOf);
      ProjectNone(made, WriteOf);
      NoPublications(made);
    } else {
      var tail := if fetch.outcome.Completed? then [WroteFile(target, c.w.download(url))] else [];
      assert fetch.events == made + ([Downloaded(url)] + tail);
      DownloadThenWrite(made, url, tail);
    }
  }

  /** The events of a fetch that reached the request: directories, the download, then any write. */
  lemma DownloadThenWrite(made: seq<Event>, url: string, tail: seq<Event>)
    requires forall k :: 0 <= k < |made| ==> made[k].MadeDirs?
    requires forall k :: 0 <= k < |tail| ==> tail[k].WroteFile?
    ensures Project(made + ([Downloaded(url)] + tail), DownloadOf) == [url]
    ensures Project(made + ([Downloaded(url)] + tail), WriteOf) == Project(tail, WriteOf)
    ensures Project(made + ([Downloaded(url)] + tail), AnnouncementOf) == []
  {
    ProjectNone(made, DownloadOf);
    ProjectNone(made, WriteOf);
    ProjectNone(tail, DownloadOf);
    ProjectAppend(made, [Downloaded(url)] + tail, DownloadOf);
    ProjectAppend(made, [Downloaded(url)] + tail, WriteOf);
    ProjectAppend([Downloaded(url)], tail, DownloadOf);
    ProjectAppend([Downloaded(url)], tail, WriteOf);
    NoPublications(made + ([Downloaded(url)] + tail));
  }

  /** The progress message, then the directory, download and write of one artifact. */
  lemma PublishThenFetch(c: Ctx, message: string, makeDir: bool, dir: string, url: string, target: string)
    ensures var one := Then(PublishSteps(c, Progress, message), FetchSteps(c, makeDir, dir, url, target));
      && Project(one.events, DownloadOf) == (if !c.stopped && Fetched(c, makeDir, dir, url) then [url] else [])
      && Project(one.events, WriteOf) == (if one.outcome.Completed? then [(target, c.w.download(url))] else [])
      && (one.outcome.Completed? <==> !c.stopped && Fetched(c, makeDir, dir, url) && c.w.writeError(target).None?)
      && Quiet(one)
      && (one.outcome.Raised? ==> one.outcome.error == Interrupt || one.outcome.error.OSError?)
  {
    var pub := PublishSteps(c, Progress, message);
    var fetch := FetchSteps(c, makeDir, dir, url, target);
    FetchEffects(c, makeDir, dir, url, target);
    ProjectNone(pub.events, DownloadOf);
    ProjectNone(pub.events, WriteOf);
    ProjectNone(pub.events, AnnouncementOf);
    ThenProject(pub, fetch, DownloadOf);
    ThenProject(pub, fetch, WriteOf);
    ThenProject(pub, fetch, AnnouncementOf);
  }

  /** One artifact is downloaded when the task is not stopped and its directory
      could be made and its URL answered; it is written under the checkout with
      the downloaded content exactly when every step succeeds. It publishes
      progress only, and fails only on the interrupt or an `OSError` from the
      directory, the request or the file. */
  lemma ArtifactEffects(c: Ctx, repo: string, b: Build, p: string, known: set<string>)
    ensures var one := ArtifactSteps(c, repo, b, p, known);
      var dir := Parent(JoinPath(repo, p));
      var url := b.baseUrl + "/artifact/" + p;
      var fetched := Fetched(c, MustMake(c, known, dir), dir, url);
      && Project(one.events, DownloadOf) == (if !c.stopped && fetched then [url] else [])
      && Project(one.events, WriteOf) ==
           (if one.outcome.Completed? then [(JoinPath(repo, p), c.w.download(url))] else [])
      && (one.outcome.Completed? <==> !c.stopped && fetched && c.w.writeError(JoinPath(repo, p)).None?)
      && Quiet(one)
      && (one.outcome.Raised? ==> one.outcome.error == Interrupt || one.outcome.error.OSError?)
  {
    var target := JoinPath(repo, p);
    var dir := Parent(target);
    var url := b.baseUrl + "/artifact/" + p;
    assert ArtifactSteps(c, repo, b, p, known) ==
      Then(PublishSteps(c, Progress, "Collecting artifact " + p), FetchSteps(c, MustMake(c, known, dir), dir, url, target));
    PublishThenFetch(c, "Collecting artifact " + p, MustMake(c, known, dir), dir, url, target);
  }

  /** The directories of the artifacts `a/b/x` and `a/y` in checkout `r`; the
      first is under the second. */
  lemma ExampleDirectories()
    ensures Parent(JoinPath("r", "a/b/x")) == "r/a/b"
    ensures Parent(JoinPath("r", "a/y")) == "r/a"
    ensures MadeBefore({"r/a/b"}, "r/a")
  {
    assert JoinPath("r", "a/b/x") == "r/a/b/x";
    assert JoinPath("r", "a/y") == "r/a/y";
    assert RFind("r/a/b/x", '/') == 5;
    assert RFind("r/a/y", '/') == 3;
    assert "r/a" + "/" <= "r/a/b";
  }

  /** An event of `a` then `b` is an event of one of them. */
  lemma ThenEvents(a: Steps, b: Steps, e: Event)
    requires e in Then(a, b).events
    ensures e in a.events || e in b.events
  {
  }

  /** One artifact makes at most its own directory, and only when that is
      missing and not made before; it does make it then, unless the task is
      stopped or `mkdir` fails. */
  lemma ArtifactMakes(c: Ctx, repo: string, b: Build, p: string, known: set<string>)
    ensures var one := ArtifactSteps(c, repo, b, p, known); var dir := Parent(JoinPath(repo, p));
      && (forall e :: e in one.events && e.MadeDirs? ==> e == MadeDirs(dir) && MustMake(c, known, dir))
      && (!c.stopped && MustMake(c, known, dir) && c.w.mkdirError(dir).None? ==> MadeDirs(dir) in one.events)
  {
    var target := JoinPath(repo, p);
    var dir := Parent(target);
    var pub := PublishSteps(c, Progress, "Collecting artifact " + p);
    var fetch := FetchSteps(c, MustMake(c, known, dir), dir, b.baseUrl + "/artifact/" + p, target);
    forall e | e in ArtifactSteps(c, repo, b, p, known).events && e.MadeDirs?
      ensures e == MadeDirs(dir) && MustMake(c, known, dir)
    {
      ThenEvents(pub, fetch, e);
    }
    if !c.stopped && MustMake(c, known, dir) && c.w.mkdirError(dir).None? {
      assert fetch.events[0] == MadeDirs(dir);
      assert ArtifactSteps(c, repo, b, p, known).events == pub.events + fetch.events;
    }
  }

  /** `mkdir(parents=True)` also makes the missing ancestors: with the artifacts
      `a/b/x` and then `a/y` in checkout `r`, the directory `r/a/b` is made for
      the first when it is missing, and `r/a`, made with it, is never made again. */
  lemma AncestorNotRemade(c: Ctx, b: Build)
    ensures var s := CollectFrom(c, "r", b, ["a/b/x", "a/y"], 0, {});
      && MadeDirs("r/a") !in s.events
      && (!c.stopped && !c.w.dirExists("r/a/b") && c.w.mkdirError("r/a/b").None? ==> MadeDirs("r/a/b") in s.events)
  {
    var paths := ["a/b/x", "a/y"];
    var none: set<string> := {};
    var known := none + {"r/a/b"};
    ExampleDirectories();
    var first := ArtifactSteps(c, "r", b, paths[0], none);
    var second := ArtifactSteps(c, "r", b, paths[1], known);
    ArtifactMakes(c, "r", b, paths[0], none);
    ArtifactMakes(c, "r", b, paths[1], known);
    var rest := CollectFrom(c, "r", b, paths, 1, known);
    assert CollectFrom(c, "r", b, paths, 2, known + {"r/a"}) == Steps([], Completed);
    assert rest == Then(second, Steps([], Completed));
    assert CollectFrom(c, "r", b, paths, 0, none) == Then(first, rest);
    if MadeDirs("r/a") in CollectFrom(c, "r", b, paths, 0, none).events {
      ThenEvents(first, rest, MadeDirs("r/a"));
      if MadeDirs("r/a") in rest.events {
        ThenEvents(second, Steps([], Completed), MadeDirs("r/a"));
      }
      assert false;
    }
  }

  /** A completed artifact loop downloaded every artifact once, in build order,
      and wrote each to its relative path in the checkout; a failed one stopped
      on the interrupt or on an `OSError` from a directory, a request or a file. */
  lemma {:induction false} CollectWritesAll(c: Ctx, repo: string, b: Build, paths: seq<string>, i: nat, known: set<string>)
    requires i <= |paths|
    ensures var s := CollectFrom(c, repo, b, paths, i, known);
      && (s.outcome.Completed? ==> Project(s.events, DownloadOf) == ArtifactUrls(b, paths[i..]))
      && (s.outcome.Completed? ==> Project(s.events, WriteOf) == ArtifactFiles(c, repo, b, paths[i..]))
      && (s.outcome.Raised? ==> s.outcome.error == Interrupt || s.outcome.error.OSError?)
    decreases |paths| - i
  {
    if i < |paths| {
      var p := paths[i];
      var known' := known + {Parent(JoinPath(repo, p))};
      var one := ArtifactSteps(c, repo, b, p, known);
      var rest := CollectFrom(c, repo, b, paths, i + 1, known');
      CollectWritesAll(c, repo, b, paths, i + 1, known');
      assert paths[i..][1..] == paths[i + 1..];
      ArtifactEffects(c, repo, b, p, known);
      ThenProject(one, rest, DownloadOf);
      ThenProject(one, rest, WriteOf);
    }
  }

  /** The secret files written for the entries, in dictionary order; entries
      with an empty name are skipped. */
  function SecretWrites(path: string, entries: Dict): seq<(string, string)> {
    if entries == [] then []
    else (if entries[0].0 == "" then [] else [(JoinPath(path, entries[0].0), entries[0].1)]) + SecretWrites(path, entries[1..])
  }

  /** The secret-file loop completes exactly when every named file can be
      written, and then has written each under the deploy path with its
      content; a failure is a `RuntimeError` that says which write failed. */
  lemma {:induction false} SecretsWritten(c: Ctx, path: string, entries: Dict, i: nat)
    requires i <= |entries|
    ensures var s := SecretsFrom(c, path, entries, i);
      && (s.outcome.Completed? <==>
            forall k :: i <= k < |entries| && entries[k].0 != "" ==> c.w.writeError(JoinPath(path, entries[k].0)).None?)
      && (s.outcome.Completed? ==> Project(s.events, WriteOf) == SecretWrites(path, entries[i..]))
      && (s.outcome.Raised? ==> s.outcome.error.RuntimeError? && SecretWriteFailed <= s.outcome.error.message)
    decreases |entries| - i
  {
    if i < |entries| {
      var one := SecretSteps(c, path, entries[i]);
      var rest := SecretsFrom(c, path, entries, i + 1);
      SecretsWritten(c, path, entries, i + 1);
      assert entries[i..][0] == entries[i] && entries[i..][1..] == entries[i + 1..];
      ThenProject(one, rest, WriteOf);
      if one.outcome.Raised? {
        var m := c.w.writeError(JoinPath(path, entries[i].0)).value;
        assert (SecretWriteFailed + m)[..|SecretWriteFailed|] == SecretWriteFailed;
      }
    }
  }

  /** The non-empty names, in order. */
  function NonEmpty(names: seq<string>): seq<string> {
    if names == [] then [] else (if names[0] == "" then [] else [names[0]]) + NonEmpty(names[1..])
  }

  /** The restart loop completes exactly when every named service restarts
      (and the task is not stopped before one), and then has restarted each
      named service once, in configured order. */
  lemma {:induction false} RestartsInOrder(c: Ctx, services: seq<string>, i: nat)
    requires i <= |services|
    ensures var s := RestartFrom(c, services, i);
      && (s.outcome.Completed? <==>
            forall k :: i <= k < |services| && services[k] != "" ==> !c.stopped && c.w.restart(services[k]).Succeeded?)
      && (s.outcome.Completed? ==> Project(s.events, RestartOf) == NonEmpty(services[i..]))
    decreases |services| - i
  {
    if i < |services| {
      var one := RestartSteps(c, services[i]);
      var rest := RestartFrom(c, services, i + 1);
      RestartsInOrder(c, services, i + 1);
      assert services[i..][0] == services[i] && services[i..][1..] == services[i + 1..];
      ThenProject(one, rest, RestartOf);
      if services[i] != "" && one.outcome.Completed? {
        var pub := PublishSteps(c, Progress, "Restarting service " + services[i]);
        ProjectAppend(pub.events, [Restarted(services[i])], RestartOf);
      }
    }
  }

  /** One named service: it is restarted, once, unless the task was stopped or
      the command could not start, and the step completes exactly when the
      restart succeeds; a failed `systemctl` raises `RuntimeError`. */
  lemma RestartEffects(c: Ctx, service: string)
    requires service != ""
    ensures var one := RestartSteps(c, service);
      && Project(one.events, RestartOf) == (if !c.stopped && !c.w.restart(service).NotStarted? then [service] else [])
      && (one.outcome.Completed? <==> !c.stopped && c.w.restart(service).Succeeded?)
      && (!c.stopped && c.w.restart(service).Failed? ==>
            one.outcome == Raised(RuntimeError("Could not restart service " + service)))
  {
    var pub := PublishSteps(c, Progress, "Restarting service " + service);
    var tail := match c.w.restart(service)
      case NotStarted(e) => Raise(e)
      case Failed(_) => Steps([Restarted(service)], Raised(RuntimeError("Could not restart service " + service)))
      case Succeeded => Steps([Restarted(service)], Completed);
    ProjectNone(pub.events, RestartOf);
    ThenProject(pub, tail, RestartOf);
  }

  /** A service that is unnamed, or restarts, lets the loop go on. */
  lemma RestartCompletes(c: Ctx, service: string)
    requires service == "" || (!c.stopped && c.w.restart(service).Succeeded?)
    ensures RestartSteps(c, service).outcome.Completed?
    ensures Project(RestartSteps(c, service).events, RestartOf) == NonEmpty([service])
  {
    if service != "" {
      RestartEffects(c, service);
    }
  }

  lemma AppendAssoc<T>(a: seq<T>, b: seq<T>, c: seq<T>)
    ensures a + (b + c) == (a + b) + c
  {
  }

  lemma NonEmptyStep(names: seq<string>, i: nat, k: nat)
    requires i < k <= |names|
    ensures NonEmpty(names[i..k]) == NonEmpty([names[i]]) + NonEmpty(names[i + 1..k])
  {
    assert names[i..k][1..] == names[i + 1..k];
    assert [names[i]][1..] == [];
  }

  /** Services `i` up to `k` are unnamed or restart, and `k` is named and does not. */
  predicate FirstFailure(c: Ctx, services: seq<string>, i: nat, k: nat) {
    && i <= k < |services| && services[k] != ""
    && !(!c.stopped && c.w.restart(services[k]).Succeeded?)
    && forall j :: i <= j < k && services[j] != "" ==> !c.stopped && c.w.restart(services[j]).Succeeded?
  }

  /** The loop ends as the first failing restart does. */
  lemma {:induction false} FirstFailureOutcome(c: Ctx, services: seq<string>, i: nat, k: nat)
    requires FirstFailure(c, services, i, k)
    ensures RestartFrom(c, services, i).outcome == RestartSteps(c, services[k]).outcome
    decreases k - i
  {
    if i == k {
      RestartEffects(c, services[k]);
    } else {
      RestartCompletes(c, services[i]);
      FirstFailureOutcome(c, services, i + 1, k);
    }
  }

  /** The services restarted by the loop: the named ones before the first
      failing restart, and that one when its command ran. */
  lemma {:induction false} FirstFailureRestarts(c: Ctx, services: seq<string>, i: nat, k: nat)
    requires FirstFailure(c, services, i, k)
    ensures Project(RestartFrom(c, services, i).events, RestartOf) ==
      NonEmpty(services[i..k]) + (if !c.stopped && c.w.restart(services[k]).Failed? then [services[k]] else [])
    decreases k - i
  {
    var one := RestartSteps(c, services[i]);
    var rest := RestartFrom(c, services, i + 1);
    ThenProject(one, rest, RestartOf);
    if i == k {
      RestartEffects(c, services[k]);
      assert services[i..k] == [];
    } else {
      RestartCompletes(c, services[i]);
      FirstFailureRestarts(c, services, i + 1, k);
      var head, tail := NonEmpty([services[i]]), NonEmpty(services[i + 1..k]);
      var last := if !c.stopped && c.w.restart(services[k]).Failed? then [services[k]] else [];
      assert Project(rest.events, RestartOf) == tail + last;
      NonEmptyStep(services, i, k);
      assert Project(RestartFrom(c, services, i).events, RestartOf) == head + (tail + last);
      AppendAssoc(head, tail, last);
    }
  }

  /** The first named service that does not restart (the task was stopped, the
      command could not start, or it failed) ends the loop with that service's
      exception: the services before it were restarted once each, in order, and
      none after it is attempted; a failed `systemctl` raises `RuntimeError`. */
  lemma FirstFailedRestartStops(c: Ctx, services: seq<string>, i: nat, k: nat)
    requires i <= k < |services| && services[k] != ""
    requires !(!c.stopped && c.w.restart(services[k]).Succeeded?)
    requires forall j :: i <= j < k && services[j] != "" ==> !c.stopped && c.w.restart(services[j]).Succeeded?
    ensures var s := RestartFrom(c, services, i);
      && s.outcome == RestartSteps(c, services[k]).outcome
      && Project(s.events, RestartOf) ==
           NonEmpty(services[i..k]) + (if !c.stopped && c.w.restart(services[k]).Failed? then [services[k]] else [])
      && (!c.stopped && c.w.restart(services[k]).Failed? ==>
            s.outcome == Raised(RuntimeError("Could not restart service " + services[k])))
  {
    FirstFailureOutcome(c, services, i, k);
    FirstFailureRestarts(c, services, i, k);
    RestartEffects(c, services[k]);
  }

  /** BigBoat answers the upload of `file` without an exception, and accepts it. */
  predicate ComposeAccepted(c: Ctx, name: string, version: string, file: (string, string)) {
    c.w.bigboatError(ComposeUpdated(name, version, file.0, file.1)).None? && c.w.composeOk(name, version, file.0, file.1)
  }

  /** The application is found, or else registered, without an exception. */
  predicate Registered(c: Ctx, name: string, version: string) {
    && c.w.bigboatError(AppQueried(name, version)).None?
    && (c.w.appExists(name, version) || (c.w.bigboatError(AppRegistered(name, version)).None? && c.w.registerOk(name, version)))
  }

  /** The compose uploads complete exactly when BigBoat answers and accepts
      every file, and then every file was sent once, in order. */
  lemma {:induction false} ComposeUploadsAll(c: Ctx, name: string, version: string, files: Dict, i: nat)
    requires i <= |files|
    ensures var s := ComposeFrom(c, name, version, files, i);
      && (s.outcome.Completed? <==> forall k :: i <= k < |files| ==> ComposeAccepted(c, name, version, files[k]))
      && (s.outcome.Completed? ==> Project(s.events, UploadOf) == files[i..])
    decreases |files| - i
  {
    if i < |files| {
      var one := ComposeFileSteps(c, name, version, files[i]);
      ComposeUploadsAll(c, name, version, files, i + 1);
      assert files[i..] == [files[i]] + files[i + 1..];
      ThenProject(one, ComposeFrom(c, name, version, files, i + 1), UploadOf);
    }
  }

  lemma SliceStep<T>(xs: seq<T>, i: nat, k: nat)
    requires i < k <= |xs|
    ensures xs[i..k] == [xs[i]] + xs[i + 1..k]
  {
  }

  /** Files `i` up to `k` are accepted, and file `k` is not. */
  predicate FirstRefusal(c: Ctx, name: string, version: string, files: Dict, i: nat, k: nat) {
    && i <= k < |files|
    && !ComposeAccepted(c, name, version, files[k])
    && forall j :: i <= j < k ==> ComposeAccepted(c, name, version, files[j])
  }

  /** One compose file is sent once; the upload completes exactly when BigBoat
      answers and accepts it, and otherwise raises the request's exception or,
      for a refusal, `RuntimeError`. */
  lemma ComposeFileEffects(c: Ctx, name: string, version: string, file: (string, string))
    ensures var one := ComposeFileSteps(c, name, version, file);
      var upload := ComposeUpdated(name, version, file.0, file.1);
      && Project(one.events, UploadOf) == [file]
      && (one.outcome.Completed? <==> ComposeAccepted(c, name, version, file))
      && (!ComposeAccepted(c, name, version, file) ==>
            one.outcome == if c.w.bigboatError(upload).Some? then Raised(c.w.bigboatError(upload).value)
                           else Raised(RuntimeError(ComposeFailed)))
  {
    var one := ComposeFileSteps(c, name, version, file);
    assert Project(one.events[1..], UploadOf) == [];
  }

  /** The upload loop ends as the first refused upload does. */
  lemma {:induction false} FirstRefusalOutcome(c: Ctx, name: string, version: string, files: Dict, i: nat, k: nat)
    requires FirstRefusal(c, name, version, files, i, k)
    ensures ComposeFrom(c, name, version, files, i).outcome == ComposeFileSteps(c, name, version, files[k]).outcome
    decreases k - i
  {
    ComposeFileEffects(c, name, version, files[i]);
    if i < k {
      FirstRefusalOutcome(c, name, version, files, i + 1, k);
    }
  }

  /** The files sent by the loop: those up to and including the first refused one. */
  lemma {:induction false} FirstRefusalUploads(c: Ctx, name: string, version: string, files: Dict, i: nat, k: nat)
    requires FirstRefusal(c, name, version, files, i, k)
    ensures Project(ComposeFrom(c, name, version, files, i).events, UploadOf) == files[i..k + 1]
    decreases k - i
  {
    var one := ComposeFileSteps(c, name, version, files[i]);
    var rest := ComposeFrom(c, name, version, files, i + 1);
    ComposeFileEffects(c, name, version, files[i]);
    ThenProject(one, rest, UploadOf);
    if i == k {
      assert files[i..k + 1] == [files[i]];
    } else {
      FirstRefusalUploads(c, name, version, files, i + 1, k);
      SliceStep(files, i, k + 1);
    }
  }

  /** The first compose file BigBoat does not accept ends the uploads with the
      request's exception or, for a refusal, `RuntimeError`: the files before it
      and that file were sent, once each, in order, and no later file is. */
  lemma FirstRefusedUploadStops(c: Ctx, name: string, version: string, files: Dict, i: nat, k: nat)
    requires i <= k < |files| && !ComposeAccepted(c, name, version, files[k])
    requires forall j :: i <= j < k ==> ComposeAccepted(c, name, version, files[j])
    ensures var s := ComposeFrom(c, name, version, files, i);
      var upload := ComposeUpdated(name, version, files[k].0, files[k].1);
      && s.outcome == (if c.w.bigboatError(upload).Some? then Raised(c.w.bigboatError(upload).value)
                       else Raised(RuntimeError(ComposeFailed)))
      && Project(s.events, UploadOf) == files[i..k + 1]
  {
    FirstRefusalOutcome(c, name, version, files, i, k);
    FirstRefusalUploads(c, name, version, files, i, k);
    ComposeFileEffects(c, name, version, files[k]);
  }

  /** An application that is neither found nor registered ends the BigBoat
      update there: nothing is uploaded and no instance is updated, and a
      registration BigBoat answers with a refusal raises `RuntimeError`. */
  lemma RegisterRefusalStops(c: Ctx, name: string, version: string, files: Dict)
    requires !Registered(c, name, version)
    ensures ApplicationSteps(c, name, version, files) == RegisterSteps(c, name, version)
    ensures RegisterSteps(c, name, version).outcome.Raised?
    ensures var answered := c.w.bigboatError(AppQueried(name, version)).None? && !c.w.appExists(name, version)
        && c.w.bigboatError(AppRegistered(name, version)).None?;
      var refused := Steps([AppQueried(name, version), AppRegistered(name, version)], Raised(RuntimeError(RegisterFailed)));
      answered ==> RegisterSteps(c, name, version) == refused
  {
  }

  /** The upload loop sends compose files and does nothing else. */
  lemma {:induction false} ComposeOnlyUploads(c: Ctx, name: string, version: string, files: Dict, i: nat)
    ensures forall e :: e in ComposeFrom(c, name, version, files, i).events ==> e.ComposeUpdated?
    decreases |files| - i
  {
    if i < |files| {
      ComposeOnlyUploads(c, name, version, files, i + 1);
    }
  }

  /** The BigBoat instance update is requested, as the last thing the update
      does, exactly when the application was found or registered, every compose
      file was accepted and the task was not stopped, and never otherwise; the
      whole completes when that request does not raise as well. */
  lemma InstanceOnlyAfterCompose(c: Ctx, name: string, version: string, files: Dict)
    ensures var s := ApplicationSteps(c, name, version, files);
      var ready := Registered(c, name, version) && (forall k :: 0 <= k < |files| ==> ComposeAccepted(c, name, version, files[k])) && !c.stopped;
      && (ready ==> s.events != [] && s.events[|s.events| - 1] == InstanceUpdated(name, version))
      && (InstanceUpdated(name, version) in s.events ==> ready)
      && (s.outcome.Completed? <==> ready && c.w.bigboatError(InstanceUpdated(name, version)).None?)
  {
    ComposeUploadsAll(c, name, version, files, 0);
    ComposeOnlyUploads(c, name, version, files, 0);
  }

  /** Without an API key the BigBoat update fails before anything happens; a
      compose file `get_contents` cannot read ends it with that exception before
      anything is published; unchanged compose files are reported and nothing is
      sent to BigBoat. */
  lemma BigBoatGuards(c: Ctx)
    requires Configured(c)
    ensures c.d.GetText("bigboat_key", "") == "" ==> UpdateBigBoatSteps(c) == Raise(ValueError(KeyRequired))
    ensures var paths := ComposePaths(c.d.GetText("bigboat_compose", ""));
      c.d.GetText("bigboat_key", "") != "" && ContentsFailure(c.w, paths).Some? ==>
        UpdateBigBoatSteps(c) == Raise(ContentsFailure(c.w, paths).value)
    ensures var paths := ComposePaths(c.d.GetText("bigboat_compose", ""));
      c.d.GetText("bigboat_key", "") != "" && ContentsFailure(c.w, paths).None? && !c.w.composeChanged(paths) ==>
        UpdateBigBoatSteps(c) == PublishSteps(c, Progress, ComposeUnchanged)
  {
  }

  /** A script that exits with an error has run in the checkout under the
      deployment's name and ends the run with a `RuntimeError` carrying its
      output: the services, BigBoat and success steps never start. */
  lemma ScriptFailureStopsRun(c: Ctx, build: Option<Build>)
    requires Configured(c) && !c.stopped
    requires c.d.GetText("script", "") != "" && c.w.runScript(c.d.GetText("script", "")).Failed?
    ensures var script := c.d.GetText("script", ""); var s := ScriptSteps(c, GitPath(c));
      && s.outcome == Raised(RuntimeError("Could not run script " + script + ": " + c.w.runScript(script).output))
      && s.events[|s.events| - 1] == RanScript(script, GitPath(c), c.name)
      && CheckoutSteps(c, build) ==
           Then(ArtifactsStage(c, build), Then(AddSecretFilesSteps(c, GitPath(c)), s))
  {
  }

  /** A running task that gets a build with artifacts downloads the first one
      as the first download of the artifacts step. */
  lemma FirstArtifactDownloaded(c: Ctx, repo: string, b: Build)
    requires !c.stopped && b.artifacts.Some? && b.artifacts.value != []
    requires var p := b.artifacts.value[0];
      c.w.mkdirError(Parent(JoinPath(repo, p))).None? && c.w.downloadError(b.baseUrl + "/artifact/" + p).None?
    ensures var s := AddArtifactsSteps(c, repo, b);
      Project(s.events, DownloadOf) != [] && Project(s.events, DownloadOf)[0] == b.baseUrl + "/artifact/" + b.artifacts.value[0]
  {
    var paths := b.artifacts.value;
    var first := ArtifactSteps(c, repo, b, paths[0], {});
    var none: set<string> := {};
    var rest := CollectFrom(c, repo, b, paths, 1, none + {Parent(JoinPath(repo, paths[0]))});
    var pub := PublishSteps(c, Progress, CollectingArtifacts);
    assert CollectFrom(c, repo, b, paths, 0, none) == Then(first, rest);
    ArtifactEffects(c, repo, b, paths[0], {});
    ProjectNone(pub.events, DownloadOf);
    ThenProject(first, rest, DownloadOf);
    ThenProject(pub, Then(first, rest), DownloadOf);
  }

  /** The missing `return` in `check_jenkins`: with the gate passed, `artifacts`
      set and a build that has artifacts, the code as written skips the
      artifacts step, while the build the gate accepted would have been downloaded. */
  lemma AsWrittenSkipsArtifacts(c: Ctx)
    requires Configured(c) && !c.stopped
    requires c.d.GetText("jenkins_job", "") != "" && CheckJenkins(c.d, c.w.jenkins, c.w.git).Ok?
    requires c.d.Get("artifacts", Flag(false)) == Flag(true)
    requires var b := CheckJenkins(c.d, c.w.jenkins, c.w.git).value; b.artifacts.Some? && b.artifacts.value != []
    requires var b := CheckJenkins(c.d, c.w.jenkins, c.w.git).value; var p := b.artifacts.value[0];
      c.w.mkdirError(Parent(JoinPath(GitPath(c), p))).None? && c.w.downloadError(b.baseUrl + "/artifact/" + p).None?
    ensures DeployAsWritten(c) == DeployWith(c, None)
    ensures ArtifactsStage(c, LastBuildAsWritten(c)) == Steps([], Completed)
    ensures Project(ArtifactsStage(c, LastBuild(c)).events, DownloadOf) != []
  {
    FirstArtifactDownloaded(c, GitPath(c), LastBuild(c).value);
  }

  /** With the build returned, a deployment that reaches the artifacts step and
      completes has written every artifact of the accepted build into the checkout. */
  lemma CorrectedCollectsArtifacts(c: Ctx)
    requires Configured(c)
    requires LastBuild(c).Some? && c.d.Get("artifacts", Flag(false)) == Flag(true)
    ensures var b := LastBuild(c).value; var s := ArtifactsStage(c, LastBuild(c));
      && b == CheckJenkins(c.d, c.w.jenkins, c.w.git).value
      && (b.artifacts.None? || b.artifacts.value == [] ==> s == Raise(RuntimeError(NoArtifacts)))
      && (s.outcome.Completed? ==> Project(s.events, WriteOf) == ArtifactFiles(c, GitPath(c), b, b.artifacts.value))
  {
    var b := LastBuild(c).value;
    if b.artifacts.Some? && b.artifacts.value != [] {
      var paths := b.artifacts.value;
      CollectWritesAll(c, GitPath(c), b, paths, 0, {});
      assert paths[0..] == paths;
      var pub := PublishSteps(c, Progress, CollectingArtifacts);
      assert Project(pub.events, WriteOf) == [];
      ThenProject(pub, CollectFrom(c, GitPath(c), b, paths, 0, {}), WriteOf);
    }
  }
}
