/** The web frontend's core (`Deployer`, deployment/deployer.py): reading
    uploaded files, carrying secret files over an edit, building a new
    deployment from the form, the login redirects, and the progress records
    that let one run of a deployment happen at a time. Requests, sessions,
    HTML, key generation and the file system are not modelled: what they
    supply becomes parameters. */
module Frontend {
  import opened Values
  import opened Text
  import opened DeploymentStore
  import opened DeploymentFacts
  import opened Task
  import opened TaskFacts

  // ---------------------------------------------------------------- uploads

  const BlockSize := 8192

  /** `read(n)` on an uploaded file whose first `pos` characters were read:
      the next at most `n` characters, empty at the end of the file. */
  function ReadBlock(content: string, pos: nat, n: nat): (chunk: string)
    requires pos <= |content|
    ensures pos + |chunk| <= |content|
    ensures chunk == [] <==> pos == |content| || n == 0
    ensures content[..pos] + chunk == content[..pos + |chunk|]
  {
    content[pos..if pos + n < |content| then pos + n else |content|]
  }

  /** `_upload_file`: reads blocks until a read comes back empty; the result is
      the whole file. */
  method UploadFile(content: string) returns (data: string)
    ensures data == content
  {
    var pos := 0;
    var hasData := true;
    data := "";
    while hasData
      invariant pos <= |content|
      invariant data == content[..pos]
      invariant !hasData ==> pos == |content|
      decreases |content| - pos, hasData
    {
      var chunk := ReadBlock(content, pos, BlockSize);
      data := data + chunk;
      pos := pos + |chunk|;
      if chunk == "" {
        hasData := false;
      }
    }
  }

  /** The prefix a browser puts before the bare name of an uploaded file. */
  const FakePath := "C:\\fakepath\\"

  /** `_extract_filename`: the last component of a client-side path. After the
      browser's fake-path prefix everything is kept; otherwise the name is
      what follows the last `/`, or the last `\` when there is no `/`. */
  function ExtractFilename(path: string): (name: string)
    ensures |name| <= |path| && name == path[|path| - |name|..]
    ensures FakePath <= path ==> path == FakePath + name
    ensures !(FakePath <= path) ==> '/' !in name && ('/' !in path ==> '\\' !in name)
    ensures !(FakePath <= path) && |name| < |path| ==>
      var sep := path[|path| - |name| - 1]; sep == '/' || ('/' !in path && sep == '\\')
  {
    if FakePath <= path then
      assert path == FakePath + path[|FakePath|..];
      path[|FakePath|..]
    else if '/' in path then AfterLast(path, '/')
    else if '\\' in path then AfterLast(path, '\\')
    else path
  }

  /** `path[path.rfind(c) + 1:]` when `c` occurs in `path`. */
  function AfterLast(path: string, c: char): (r: string)
    requires c in path
    ensures |r| < |path| && r == path[|path| - |r|..]
    ensures path[|path| - |r| - 1] == c && c !in r
  {
    path[RFind(path, c) + 1..]
  }

  /** An uploaded form field: the file name the browser sent, and the file's
      content, or None when the field carries no file. */
  datatype Upload = Upload(filename: string, file: Option<string>)

  /** The `secret_files` form value: one upload, or a list of them. */
  datatype Uploads = One(upload: Upload) | Many(uploads: seq<Upload>)

  /** `new_files` after `_upload_files` wrapped a single upload in a list. */
  function AsList(u: Uploads): (files: seq<Upload>)
    ensures u.One? ==> files == [u.upload]
    ensures u.Many? ==> files == u.uploads
  {
    match u
    case One(x) => [x]
    case Many(xs) => xs
  }

  /** How many uploads are read: those before the first without a file. */
  function UploadCount(files: seq<Upload>): (n: nat)
    ensures n <= |files|
    ensures forall k :: 0 <= k < n ==> files[k].file.Some?
    ensures n < |files| ==> files[n].file.None?
  {
    CountFrom(files, 0)
  }

  /** The index of the first upload from `i` on without a file, or the end. */
  function CountFrom(files: seq<Upload>, i: nat): (n: nat)
    requires i <= |files|
    ensures i <= n <= |files|
    ensures forall k :: i <= k < n ==> files[k].file.Some?
    ensures n < |files| ==> files[n].file.None?
    decreases |files| - i
  {
    if i == |files| || files[i].file.None? then i else CountFrom(files, i + 1)
  }

  /** The name the `i`-th upload is stored under: the `i`-th existing name, or
      its own file name past the existing names. */
  function UploadName(names: seq<string>, files: seq<Upload>, i: nat): string
    requires i < |files|
  {
    if i < |names| then names[i] else ExtractFilename(files[i].filename)
  }

  /** The assignments `_upload_files` makes, in order. */
  function UploadEntries(names: seq<string>, files: seq<Upload>): (es: seq<(string, string)>)
    ensures |es| == UploadCount(files)
    ensures forall i :: 0 <= i < |es| ==> es[i] == (UploadName(names, files, i), files[i].file.value)
  {
    seq(UploadCount(files), i requires 0 <= i < UploadCount(files) => (UploadName(names, files, i), files[i].file.value))
  }

  /** `_upload_files`: pairs the existing names with the uploads in order,
      stops at the first missing upload, and stores each file read. The
      dictionary is returned rather than updated in place. */
  method UploadFiles(current: Dict, uploads: Uploads) returns (updated: Dict)
    ensures updated == PutAll(current, UploadEntries(Keys(current), AsList(uploads)))
  {
    var files := AsList(uploads);
    var names := Keys(current);
    ghost var es := UploadEntries(names, files);
    updated := current;
    var i := 0;
    while i < |names| || i < |files|
      invariant 0 <= i <= UploadCount(files)
      invariant updated == PutAll(current, es[..i])
      decreases |names| + |files| - i
    {
      if i >= |files| || files[i].file.None? {
        break;
      }
      updated := StoreUpload(current, files, i, updated);
      i := i + 1;
    }
    assert i == UploadCount(files);
    assert es[..i] == es;
  }

  /** One pass of the loop of `_upload_files`: the `i`-th upload is read and
      stored under its name, which extends the assignments made so far. */
  method StoreUpload(current: Dict, files: seq<Upload>, i: nat, updated: Dict) returns (updated': Dict)
    requires i < |files| && files[i].file.Some? && i <= UploadCount(files)
    requires updated == PutAll(current, UploadEntries(Keys(current), files)[..i])
    ensures i < UploadCount(files)
    ensures updated' == PutAll(current, UploadEntries(Keys(current), files)[..i + 1])
  {
    var names := Keys(current);
    var name := if i < |names| then names[i] else ExtractFilename(files[i].filename);
    var data := UploadFile(files[i].file.value);
    PutAllStep(current, UploadEntries(names, files), i);
    updated' := Put(updated, name, data);
  }

  /** Uploading no more files than there are secret files keeps the names and
      their order: the first uploads replace the contents of the first names,
      and the other names keep theirs. */
  lemma UploadsReplaceInPlace(current: Dict, files: seq<Upload>)
    requires Distinct(Keys(current)) && UploadCount(files) <= |current|
    ensures var r := PutAll(current, UploadEntries(Keys(current), files));
      && |r| == |current|
      && forall k :: 0 <= k < |current| ==>
           r[k] == (current[k].0, if k < UploadCount(files) then files[k].file.value else current[k].1)
  {
    var es := UploadEntries(Keys(current), files);
    forall j | 0 <= j < |es| ensures es[j] == (current[j].0, files[j].file.value) {
      assert UploadName(Keys(current), files, j) == Keys(current)[j];
    }
    PutAllPrefix(current, es);
  }

  /** Uploads past the existing names are added under their own file names,
      unless a later upload has the same name. */
  lemma ExtraUploadAdded(current: Dict, files: seq<Upload>, k: nat)
    requires |current| <= k < UploadCount(files)
    requires forall j :: k < j < UploadCount(files) ==> ExtractFilename(files[j].filename) != ExtractFilename(files[k].filename)
    ensures Lookup(PutAll(current, UploadEntries(Keys(current), files)), ExtractFilename(files[k].filename)) == files[k].file
  {
    var names := Keys(current);
    var es := UploadEntries(names, files);
    assert es[k] == (ExtractFilename(files[k].filename), files[k].file.value);
    forall j | k < j < |es| ensures es[j].0 != es[k].0 {
      assert es[j].0 == UploadName(names, files, j) == ExtractFilename(files[j].filename);
    }
    PutAllLast(current, es, k);
  }

  // ---------------------------------------------------------- secret files

  /** The secret files a deployment holds, none when it has no such key. */
  function OldSecrets(d: Deployment): Dict
    requires WellTyped(d.config)
  {
    if "secret_files" in d.config then d.config["secret_files"].files else []
  }

  /** The assignments `_check_old_secrets` makes, in order: each new name
      receives the content of the previous file in the same position, or empty text
      past the previous files; previous files past the new names are dropped.
      (`old_secrets[old_names[i]]` is the `i`-th value of the dictionary, whose
      keys are distinct.) */
  function CarriedEntries(newNames: seq<string>, previous: Dict): (es: seq<(string, string)>)
    ensures |es| == |newNames|
    ensures forall i :: 0 <= i < |es| ==> es[i].0 == newNames[i]
    ensures forall i :: 0 <= i < |es| ==> es[i].1 == (if i < |previous| then previous[i].1 else "")
  {
    seq(|newNames|, i requires 0 <= i < |newNames| => (newNames[i], if i < |previous| then previous[i].1 else ""))
  }

  /** The paths of `names` under `dir` that exist, in order. */
  function ExistingFiles(dir: string, names: seq<string>, isFile: string -> bool): (paths: seq<string>)
    ensures forall p :: p in paths <==> exists k :: 0 <= k < |names| && p == JoinPath(dir, names[k]) && isFile(p)
  {
    if names == [] then []
    else
      var init := names[..|names| - 1];
      var path := JoinPath(dir, names[|names| - 1]);
      assert forall k :: 0 <= k < |init| ==> init[k] == names[k];
      ExistingFiles(dir, init, isFile) + (if isFile(path) then [path] else [])
  }

  /** The removal loop of `_check_old_secrets`: each named file under `dir`
      that exists is removed, in order. */
  method RemoveFiles(dir: string, names: seq<string>, isFile: string -> bool) returns (removed: seq<string>)
    ensures removed == ExistingFiles(dir, names, isFile)
  {
    removed := [];
    var i := 0;
    while i < |names|
      invariant 0 <= i <= |names|
      invariant removed == ExistingFiles(dir, names[..i], isFile)
    {
      var path := JoinPath(dir, names[i]);
      assert names[..i + 1][..i] == names[..i];
      if isFile(path) {
        removed := removed + [path];
      }
      i := i + 1;
    }
    assert names[..i] == names;
  }

  /** `_check_old_secrets`: when the names differ from the stored ones, the
      stored files that exist in the previous clone are removed (returned here as
      the list of paths removed); the new secret files are then built by
      position. */
  method CheckOldSecrets(newNames: seq<string>, previous: Deployment, isFile: string -> bool)
    returns (secrets: Dict, removed: seq<string>)
    requires WellTyped(previous.config)
    ensures removed == (if Keys(OldSecrets(previous)) != newNames
                        then ExistingFiles(previous.GetText("git_path", ""), Keys(OldSecrets(previous)), isFile) else [])
    ensures secrets == PutAll([], CarriedEntries(newNames, OldSecrets(previous)))
  {
    var oldPath := previous.GetText("git_path", "");
    var oldSecrets := OldSecrets(previous);
    var oldNames := Keys(oldSecrets);
    removed := [];
    if oldNames != newNames {
      removed := RemoveFiles(oldPath, oldNames, isFile);
    }
    ghost var es := CarriedEntries(newNames, oldSecrets);
    secrets := [];
    var i := 0;
    while i < |newNames| || i < |oldNames|
      invariant 0 <= i
      decreases |newNames| + |oldNames| - i
      invariant secrets == PutAll([], es[..if i < |newNames| then i else |newNames|])
    {
      if i >= |oldNames| {
        assert es[i] == (newNames[i], "");
        PutAllStep([], es, i);
        secrets := Put(secrets, newNames[i], "");
      } else if i < |newNames| {
        assert es[i] == (newNames[i], oldSecrets[i].1);
        PutAllStep([], es, i);
        secrets := Put(secrets, newNames[i], oldSecrets[i].1);
      }
      i := i + 1;
    }
    assert es[..|newNames|] == es;
  }

  /** The new secret files have one entry per distinct new name, in
      first-occurrence order. */
  lemma {:induction false} CarriedKeys(newNames: seq<string>, previous: Dict)
    ensures Keys(PutAll([], CarriedEntries(newNames, previous))) == Dedup(newNames)
  {
    PutAllDedup(CarriedEntries(newNames, previous));
    KeysAre(CarriedEntries(newNames, previous), newNames);
  }

  /** With distinct new names, the new secret files are exactly the new names
      in order, each holding the content of the previous file in its position,
      or empty text past the previous files. */
  lemma CarriedContents(newNames: seq<string>, previous: Dict)
    requires Distinct(newNames)
    ensures var r := PutAll([], CarriedEntries(newNames, previous));
      && |r| == |newNames|
      && forall i :: 0 <= i < |r| ==> r[i] == (newNames[i], if i < |previous| then previous[i].1 else "")
  {
    KeysAre(CarriedEntries(newNames, previous), newNames);
    PutAllNew(CarriedEntries(newNames, previous));
  }

  /** Submitting the edit form with the stored names keeps every secret file. */
  lemma UnchangedNamesKeepSecrets(previous: Deployment)
    requires WellTyped(previous.config) && Distinct(Keys(OldSecrets(previous)))
    ensures PutAll([], CarriedEntries(Keys(OldSecrets(previous)), OldSecrets(previous))) == OldSecrets(previous)
  {
    var secrets := OldSecrets(previous);
    var es := CarriedEntries(Keys(secrets), secrets);
    KeysAre(es, Keys(secrets));
    PutAllNew(es);
    assert es == secrets;
  }

  /** Assignments starting from nothing keep each distinct key once, in
      first-assignment order. */
  lemma {:induction false} PutAllDedup(es: seq<(string, string)>)
    ensures Keys(PutAll([], es)) == Dedup(Keys(es))
  {
    if es != [] {
      var init := es[..|es| - 1];
      assert Keys(init) == Keys(es)[..|es| - 1];
      PutAllDedup(init);
      DedupElements(Keys(init));
      PutSpec(PutAll([], init), es[|es| - 1].0, es[|es| - 1].1);
    }
  }

  // ------------------------------------------------------ new deployments

  /** `services.split(',') if services != '' else []`: the names are free of
      commas, and showing them again as the edit form does gives the text back. */
  function ParseServices(services: string): (names: seq<string>)
    ensures forall k :: 0 <= k < |names| ==> ',' !in names[k]
    ensures FormatServices(names) == services
  {
    if services == "" then [] else Split(services, ',')
  }

  /** How the form shows a list field: `','.join(names)`. */
  function FormatServices(names: seq<string>): string {
    if names == [] then "" else Join(names, ',')
  }

  /** Showing stored services and submitting them again gives the same list,
      for names free of commas other than a single empty name. */
  lemma ServicesRoundTrip(names: seq<string>)
    requires forall k :: 0 <= k < |names| ==> ',' !in names[k]
    requires names != [""]
    ensures ParseServices(FormatServices(names)) == names
  {
    if names != [] {
      SplitJoin(names, ',');
      if |names| == 1 {
        assert names[0] != "";
      }
    }
  }

  /** A form field's value, empty when the form does not have it. */
  function FormText(form: map<string, string>, key: string): string {
    if key in form then form[key] else ""
  }

  /** The text fields `_create_deployment` copies from the form. */
  const FormFields: set<string> :=
    {"git_path", "git_url", "jenkins_job", "script", "bigboat_url", "bigboat_key", "bigboat_compose"}

  /** The configuration `_create_deployment` builds. */
  function FormConfig(name: string, form: map<string, string>, deployKey: string, secrets: Dict): (c: Config)
    ensures WellTyped(c)
  {
    map[
      "name" := Text(name),
      "git_path" := Text(FormText(form, "git_path")),
      "git_url" := Text(FormText(form, "git_url")),
      "deploy_key" := Text(deployKey),
      "jenkins_job" := Text(FormText(form, "jenkins_job")),
      "script" := Text(FormText(form, "script")),
      "services" := Names(ParseServices(FormText(form, "services"))),
      "bigboat_url" := Text(FormText(form, "bigboat_url")),
      "bigboat_key" := Text(FormText(form, "bigboat_key")),
      "bigboat_compose" := Text(FormText(form, "bigboat_compose")),
      "secret_files" := Files(secrets)]
  }

  /** A deployment created from the form has its name, a Git source made of
      the form's URL and its deploy key, every form field or empty text, and no
      branch and no artifacts setting: its runs use `master` and never collect
      artifacts. */
  lemma CreatedDeploymentReadsBack(name: string, form: map<string, string>, deployKey: string, secrets: Dict)
    ensures var d := Deployment(FormConfig(name, form, deployKey, secrets));
      && NameOf(d) == Ok(name)
      && GetSource(d) == Ok(Source(name, FormText(form, "git_url"), deployKey))
      && (forall f :: f in FormFields ==> d.Item(f) == Ok(Text(FormText(form, f))))
      && d.Item("git_branch").Err? && d.Item("artifacts").Err?
      && FormatServices(d.config["services"].names) == FormText(form, "services")
      && OldSecrets(d) == secrets
  {
    FormFieldsReadBack(name, form, deployKey, secrets);
  }

  /** Each text field of the form is stored under its own key. */
  lemma FormFieldsReadBack(name: string, form: map<string, string>, deployKey: string, secrets: Dict)
    ensures var d := Deployment(FormConfig(name, form, deployKey, secrets));
      forall f :: f in FormFields ==> d.Item(f) == Ok(Text(FormText(form, f)))
  {
  }

  // ----------------------------------------------------------- login pages

  const IndexPrefix := "index?page="
  const ParamsPrefix := "&params="

  /** `page` sits at index `i` of `s`, and everything around it is `/`. */
  predicate SlashesAround(s: string, i: int, page: string) {
    && 0 <= i <= |s| - |page| && page == s[i..i + |page|]
    && (forall j :: 0 <= j < i ==> s[j] == '/')
    && (forall j :: i + |page| <= j < |s| ==> s[j] == '/')
  }

  /** The page a request is for when none is given: the request path without
      its leading and trailing slashes. */
  function DefaultPage(pathInfo: string): (page: string)
    ensures page == [] || (page[0] != '/' && page[|page| - 1] != '/')
    ensures exists i :: SlashesAround(pathInfo, i, page)
  {
    var left := LStrip(pathInfo, '/');
    var page := RStrip(left, '/');
    var i := |pathInfo| - |left|;
    assert SlashesAround(pathInfo, i, page);
    page
  }

  /** The login page `_validate_login` redirects to: it names the requested
      page, and carries its parameters only when there is a page. */
  function LoginRedirect(page: string, params: string): string {
    IndexPrefix + page + (if params != "" && page != "" then ParamsPrefix + params else "")
  }

  /** Reading the page and the parameters back from a login redirect. */
  function ParseLoginRedirect(url: string): Option<(string, string)> {
    if !(IndexPrefix <= url) then None
    else
      var query := url[|IndexPrefix|..];
      var k := Find(query, '&');
      if k < 0 then Some((query, ""))
      else if ParamsPrefix <= query[k..] then Some((query[..k], query[k + |ParamsPrefix|..]))
      else None
  }

  /** Where `login` sends the user once logged in: the page, with its
      parameters as the query string when there are any. */
  function AfterLogin(page: string, params: string): (target: string)
    ensures page <= target
    ensures target == page <==> params == ""
    ensures params != "" ==> target[|page|] == '?' && target[|page| + 1..] == params
  {
    page + (if params != "" then "?" + params else "")
  }

  /** The redirect to the login page keeps the requested page, and keeps the
      parameters exactly when there is a page; logging in from it then returns
      to that page with those parameters. */
  lemma LoginRoundTrip(page: string, params: string)
    requires '&' !in page
    ensures ParseLoginRedirect(LoginRedirect(page, params)) == Some((page, if page != "" then params else ""))
    ensures var r := ParseLoginRedirect(LoginRedirect(page, params)).value;
      AfterLogin(r.0, r.1) == page + (if page != "" && params != "" then "?" + params else "")
  {
    var url := LoginRedirect(page, params);
    var query := page + (if params != "" && page != "" then ParamsPrefix + params else "");
    assert url == IndexPrefix + query;
    assert url[|IndexPrefix|..] == query;
    if params != "" && page != "" {
      FindFirstAfter(page, ParamsPrefix + params);
      assert Find(query, '&') == |page|;
      assert query[|page|..] == ParamsPrefix + params;
      assert query[|page|..][|ParamsPrefix|..] == params;
      assert query[..|page|] == page;
    } else {
      assert query == page;
    }
  }

  /** In text free of `c` followed by text that starts with `c`, the first `c`
      is the one after the text; text free of `c` has none. */
  lemma FindFirstAfter(head: string, rest: string)
    requires '&' !in head && rest != [] && rest[0] == '&'
    ensures Find(head, '&') == -1
    ensures Find(head + rest, '&') == |head|
  {
    var s := head + rest;
    assert s[|head|] == '&';
    assert forall j :: 0 <= j < |head| ==> s[j] == head[j];
  }

  // ------------------------------------------------------ deploy progress

  /** What the frontend records about the latest run of a deployment: its
      state, its latest message, and its task while that may still run. */
  datatype Progress = Progress(state: string, message: string, thread: Option<DeployTask>)

  const Starting := "starting"
  const ThreadStarting := "Thread is starting"

  /** A run ends for the frontend when the task announces one of these. */
  predicate Final(state: string) {
    state == "success" || state == "error"
  }

  /** `_set_deploy_progress` on one record: the new state and message, and the
      task forgotten once the state is final. */
  function Updated(p: Progress, state: string, message: string): (q: Progress)
    ensures q.state == state && q.message == message
    ensures Final(state) ==> q.thread.None?
    ensures !Final(state) ==> q.thread == p.thread
  {
    Progress(state, message, if Final(state) then None else p.thread)
  }

  /** The record after each publication of a run reached `_set_deploy_progress`, in order. */
  function Replay(p: Progress, events: seq<Event>): Progress
    decreases |events|
  {
    if events == [] then p
    else Replay(if events[0].Published? then Updated(p, events[0].state, events[0].message) else p, events[1..])
  }

  /** Whether `deploy` may start a run: no task is recorded for the name. */
  predicate Free(progress: map<string, Progress>, name: string) {
    name !in progress || progress[name].thread.None?
  }

  /** Publications of progress only leave the recorded task in place. */
  lemma {:induction false} ReplayQuiet(p: Progress, events: seq<Event>)
    requires Project(events, AnnouncementOf) == []
    ensures Replay(p, events).thread == p.thread
    decreases |events|
  {
    if events != [] {
      var p' := if events[0].Published? then Updated(p, events[0].state, events[0].message) else p;
      assert AnnouncementOf(events[0]).None?;
      ReplayQuiet(p', events[1..]);
    }
  }

  /** A run whose one announcement is final leaves no task recorded. */
  lemma {:induction false} ReplayAnnounced(p: Progress, events: seq<Event>, a: (string, string))
    requires Project(events, AnnouncementOf) == [a] && Final(a.0)
    ensures Replay(p, events).thread.None?
    decreases |events|
  {
    var p' := if events[0].Published? then Updated(p, events[0].state, events[0].message) else p;
    var head := AnnouncementOf(events[0]);
    assert Project(events, AnnouncementOf) == (if head.Some? then [head.value] else []) + Project(events[1..], AnnouncementOf);
    if head.Some? {
      assert ([head.value] + Project(events[1..], AnnouncementOf))[0] == head.value;
      assert p'.thread.None?;
      ReplayQuiet(p', events[1..]);
    } else {
      ReplayAnnounced(p', events[1..], a);
    }
  }

  /** A run started by the frontend frees its slot for the next run exactly
      when it succeeds or fails with an error the task reports; a run stopped
      or ended by any other exception leaves its task recorded, and `deploy`
      refuses further runs of that deployment. */
  lemma RunFreesSlot(c: Ctx, t: DeployTask)
    requires Configured(c) && c.bus
    ensures var s := DeployAsWritten(c);
      var q := Replay(Progress(Starting, ThreadStarting, Some(t)), TaskSteps(c).events);
      q.thread.None? <==> (s.outcome.Completed? || s.outcome.error.RuntimeError? || s.outcome.error.ValueError?)
  {
    var s := DeployAsWritten(c);
    var p := Progress(Starting, ThreadStarting, Some(t));
    RunAnnounces(c);
    if c.stopped {
      StoppedTaskDoesNothing(c);
    } else if s.outcome.Completed? {
      ReplayAnnounced(p, TaskSteps(c).events, ("success", Finished));
    } else if s.outcome.error.RuntimeError? || s.outcome.error.ValueError? {
      ReplayAnnounced(p, TaskSteps(c).events, ("error", s.outcome.error.message));
    } else {
      ReplayQuiet(p, TaskSteps(c).events);
    }
  }

  /** What `deploy` answers: the deployment is unknown (HTTP 404), the state
      of its latest run, a redirect to the list, a refusal while another run
      is underway, or the task it started. */
  datatype DeployPage =
    | NotFound(message: string)
    | Status(state: string, message: string)
    | ToList
    | Underway
    | Started(task: DeployTask)

  /** The frontend's hold on the deployments and the progress of their runs. */
  class Deployer {
    const store: Deployments
    var progress: map<string, Progress>

    ghost predicate Valid()
      reads this, store
    {
      store.Valid()
    }

    /** The tasks recorded as possibly running. */
    function Threads(): set<DeployTask>
      reads this
    {
      set n | n in progress && progress[n].thread.Some? :: progress[n].thread.value
    }

    constructor Init(s: Deployments)
      requires s.Valid()
      ensures Valid() && store == s && progress == map[]
    {
      store := s;
      progress := map[];
    }

    /** `deploy`: an unknown name is not found; without a POST the latest
        state is shown, or the list when there is none; with a POST a new task
        is started and recorded unless one is recorded already. */
    method Deploy(name: string, post: bool) returns (page: DeployPage)
      requires Valid()
      modifies this
      ensures name !in store.table ==> page == NotFound("Deployment " + name + " does not exist")
      ensures name in store.table && !post ==>
        page == (if name in progress then Status(progress[name].state, progress[name].message) else ToList)
      ensures name in store.table && post && !Free(old(progress), name) ==> page == Underway
      ensures page.Started? <==> name in store.table && post && Free(old(progress), name)
      ensures !page.Started? ==> progress == old(progress)
      ensures page.Started? ==>
        && fresh(page.task) && page.task.Valid() && page.task.deployment == store.table[name]
        && page.task.name == name && page.task.bus && !page.task.stopped && page.task.trace == []
        && progress == old(progress)[name := Progress(Starting, ThreadStarting, Some(page.task))]
    {
      var found := store.Get(Bare(name));
      if found.Err? {
        return NotFound("Deployment " + name + " does not exist");
      }
      if !post {
        if name in progress {
          return Status(progress[name].state, progress[name].message);
        }
        return ToList;
      }
      if name in progress && progress[name].thread.Some? {
        return Underway;
      }
      var task := new DeployTask.Init(found.value, true);
      progress := progress[name := Progress(Starting, ThreadStarting, Some(task))];
      return Started(task);
    }

    /** `_set_deploy_progress`, called for each publication of a task: the
        record of an unknown name raises `KeyError`. */
    method SetProgress(name: string, state: string, message: string) returns (err: Option<Error>)
      modifies this
      ensures name !in old(progress) ==> err == Some(KeyError(name)) && progress == old(progress)
      ensures name in old(progress) ==>
        err.None? && progress == old(progress)[name := Updated(old(progress)[name], state, message)]
    {
      if name !in progress {
        return Some(KeyError(name));
      }
      var thread := progress[name].thread;
      progress := progress[name := Progress(state, message, thread)];
      if state == "success" || state == "error" {
        progress := progress[name := progress[name].(thread := None)];
      }
      return None;
    }

    /** `_stop_threads`: stops every recorded task and forgets all records. */
    method StopThreads()
      modifies this, Threads()
      ensures progress == map[]
      ensures forall t :: t in old(Threads()) ==> t.stopped && t.trace == old(t.trace)
    {
      var pending := Threads();
      ghost var all := pending;
      while pending != {}
        invariant pending <= all
        invariant forall t :: t in all - pending ==> t.stopped
        invariant forall t :: t in all ==> t.trace == old(t.trace)
        decreases |pending|
      {
        var t :| t in pending;
        t.Stop();
        pending := pending - {t};
      }
      progress := map[];
    }

    /** `_create_deployment`: a name already stored raises `ValueError`;
        otherwise the uploads are added to the secret files, and the
        configuration built from the form is stored. */
    method CreateDeployment(name: string, form: map<string, string>, deployKey: string, secrets: Dict, uploads: Uploads)
      returns (r: Result<Config>)
      requires Valid()
      modifies store
      ensures Valid()
      ensures name in old(store.table) ==>
        r == Err(ValueError("Deployment '" + name + "' already exists")) && store.State() == old(store.State())
      ensures name !in old(store.table) ==>
        && r == Ok(FormConfig(name, form, deployKey, PutAll(secrets, UploadEntries(Keys(secrets), AsList(uploads)))))
        && store.order == old(store.order) + [name]
        && store.table == old(store.table)[name := Deployment(r.value)]
    {
      var present := store.Contains(Bare(name));
      if present.value {
        return Err(ValueError("Deployment '" + name + "' already exists"));
      }
      var files := UploadFiles(secrets, uploads);
      var config := FormConfig(name, form, deployKey, files);
      assert NameOf(Convert(Dict(config))) == Ok(name);
      var err := store.Add(Dict(config));
      return Ok(config);
    }
  }
}
