# deployer: a verified model of the deployment registry, the deploy task and the frontend core

This project models the core of *deployer*, a small web application that keeps
a set of deployment configurations and brings a deployment up to date on
request. It has three parts, one module (or a module and a module of lemmas) each.

- **The deployment registry** (`deployment/deployment.py`).
  - `DeploymentStore` models `Deployment`, a read-only mapping over a configuration. It has `get_source` and `is_up_to_date`.
  - `DeploymentStore.Deployments` is a class over an insertion-ordered table keyed by name. It is built from a list of configurations, and `add` and `discard` change it in place.
  - `DeploymentFacts` proves what these operations promise on the abstract state `Store`. That includes the round trip through the list of configurations that `write` emits.
  - `JenkinsGate` models `check_jenkins`, the build-stability gate, in two forms. The first is a function stating the order of its checks. The second is a method with the source's loop over the two branch names, proved equal to the function.
- **The deploy task** (`deployment/task.py`).
  - In `Task`, every effect on the outside world is an event appended to the trace of a `DeployTask`. Examples are a publication on the bus, a repository update, a download, a file written, a script run, a service restarted and a BigBoat call.
  - Git, Jenkins, the file system, subprocesses, YAML and the BigBoat client form an abstract `World` that answers each request.
  - Each part of `_deploy` is specified by a function that gives the events it causes and how it ends (`Steps`). `Then` chains these functions, so a raised exception skips everything after it.
  - Each method of the class, the loops included, is proved to extend the trace by exactly those events. The class runs `_deploy` as written (`DeployAsWritten`), in which `check_jenkins` hands back nothing; `DeploySteps` is the same run with the accepted build kept (see "Findings").
  - The world can refuse each artifact's directory, request or file with an `OSError`. A compose file `get_contents` cannot read, and each BigBoat request, can raise an exception as well.
  - `TaskFacts` proves what a run promises: the single final announcement, the files written, the services restarted, what reaches BigBoat, and what the missing `return` in `check_jenkins` costs.
- **The frontend core** (`deployment/deployer.py`). `Frontend` covers:
  - reading uploads and storing them as secret files;
  - carrying secret files over an edit;
  - building a new deployment from the form;
  - the login redirects;
  - the `_deploy_progress` records, modelled by the `Deployer` class. These records allow one run per deployment name at a time.

Python's `dict` is an insertion-ordered sequence of pairs (`Values.Dict`) with `Put` for `d[k] = v`. Configuration values are JSON text, booleans, lists of names or dictionaries of secret files (`Values.Value`). Exceptions are the `Values.Error` datatype, and a raising call returns `Err`/`Raised`.

Where the system's design description and the code differ, the model follows the code:
- `check_jenkins` rejects a stale build before it looks at the build state and result.
- Only the result `"SUCCESS"` is accepted. The code has no `jenkins_states` or `jenkins_git` settings.
- A failed service restart stops the remaining restarts and the rest of the run.
- A second `deploy` while a task is recorded fails fast.
- Failures are exceptions with free-text messages, not reason codes.

## Model

| member | source | states |
|---|---|---|
| DeploymentStore.Deployment.Item | deployment/deployment.py:187-188 | `deployment[key]` yields the stored value exactly when the key is configured, and otherwise raises `KeyError(key)` |
| DeploymentStore.Deployment.Len | deployment/deployment.py:193-194 | `len(deployment)` is the number of configured keys |
| DeploymentStore.GetTextIsGet | deployment/deployment.py:187-188 | for a well-typed configuration, `deployment.get(key, default)` of a text field is text, and the typed read `GetText` agrees with it, the default included |
| DeploymentStore.Convert | deployment/deployment.py:45-53 | a bare string `s` becomes `Deployment(name=s)`, a dict becomes a deployment with that configuration, and a `Deployment` is kept |
| DeploymentStore.NameOf | deployment/deployment.py:74-75 | reading `deployment["name"]` succeeds exactly when the name is configured, and otherwise raises `KeyError("name")` |
| DeploymentStore.Listed | deployment/deployment.py:59-60 | iteration yields the stored deployment of each name, in insertion order |
| DeploymentStore.AddTo | deployment/deployment.py:78-85 | `add` on the abstract state fails exactly when the converted value has no name, with `KeyError("name")` |
| DeploymentStore.DiscardFrom | deployment/deployment.py:87-93 | `discard` on the abstract state fails exactly when the converted value has no name, with `KeyError("name")` |
| DeploymentStore.Written | deployment/deployment.py:40-43 | `write` emits one configuration dict per stored deployment, in insertion order |
| DeploymentStore.Without | deployment/deployment.py:93 | deleting a name from the ordered table keeps every other name in its order, and keeps the names distinct; an absent name leaves the table as it was, and with distinct names the one at position `i` is cut out there |
| DeploymentStore.GetSource | deployment/deployment.py:107-121 | `ValueError` exactly when `git_url` is absent; with `git_url`, a missing `name` raises `KeyError('name')` and then a missing `deploy_key` raises `KeyError('deploy_key')`; a success carries the name, URL and key path |
| DeploymentStore.IsUpToDate | deployment/deployment.py:123-139 | false when `get_source` raises `ValueError`, and any other error of `get_source` is passed on; with a source, a missing `git_path` raises `KeyError('git_path')`; otherwise true exactly when a checkout exists at `git_path` and its HEAD is up to date upstream |
| DeploymentStore.CollectErrPersists | deployment/deployment.py:16-20 | once a configuration without a name raises, the constructor's result is that error however many configurations follow |
| DeploymentStore.Deployments.Empty | deployment/deployment.py:18 | a new set is valid and holds no deployment |
| DeploymentStore.Deployments.Create | deployment/deployment.py:16-20 | the loop adds the configurations in turn; it succeeds exactly when the list-level construction does, and builds its state |
| DeploymentStore.Deployments.Contains | deployment/deployment.py:55-57 | membership is true exactly when the converted value's name is stored; a nameless value raises `KeyError` |
| DeploymentStore.Deployments.Get | deployment/deployment.py:65-76 | `KeyError(name)` exactly when membership is false; otherwise the stored deployment under that name |
| DeploymentStore.Deployments.Iterate | deployment/deployment.py:59-60 | every stored deployment once, in insertion order, each under its own name |
| DeploymentStore.Deployments.Length | deployment/deployment.py:62-63 | the number of stored names, which equals the size of the table |
| DeploymentStore.Deployments.Add | deployment/deployment.py:78-85 | the new state is `AddTo` of the old one, and the set stays well formed |
| DeploymentStore.Deployments.Discard | deployment/deployment.py:87-93 | the new state is `DiscardFrom` of the old one, and the set stays well formed |
| DeploymentFacts.AddSpec | deployment/deployment.py:78-85 | adding a stored name leaves the set as it was, so an extra key is not merged in; a fresh name grows the set by one, is found under its name and is listed last |
| DeploymentFacts.AddFresh | deployment/deployment.py:85 | appending a deployment under a new name keeps the set well formed and extends the iteration order by it |
| DeploymentFacts.DiscardSpec | deployment/deployment.py:87-93 | discarding removes exactly that name and keeps every other entry, and the remaining names keep their order around the gap; an absent name changes nothing |
| DeploymentFacts.CollectOkIffNamed | deployment/deployment.py:16-20 | construction succeeds exactly when every configuration has a name |
| DeploymentFacts.CollectOrderIsDedup | deployment/deployment.py:16-20 | construction keeps one entry per distinct name, in first-occurrence order |
| DeploymentFacts.CollectKeepsFirst | deployment/deployment.py:81-83 | the configuration stored for a name is the first one given for it |
| DeploymentFacts.CollectLength | deployment/deployment.py:62-63 | after construction `len` equals the number of distinct names given |
| DeploymentFacts.RebuildPrefix | deployment/deployment.py:40-43 | constructing from the first `i` written configurations gives the first `i` entries |
| DeploymentFacts.WriteThenRebuild | deployment/deployment.py:40-43 | round trip: rebuilding from the list `write` emits gives the same names, in the same order, with equal configurations |
| JenkinsGate.Selected | deployment/deployment.py:156-176 | the `master` build is judged when there is one, else the `origin/master` build; nothing is judged when neither exists |
| JenkinsGate.CheckJenkins | deployment/deployment.py:141-185 | a `get_source` failure is passed on; acceptance needs a source and a `jenkins_job`; every rejection is a `ValueError` or `KeyError` |
| JenkinsGate.CheckJenkinsAsWritten | deployment/deployment.py:141-185 | the gate as written passes and fails exactly as `CheckJenkins` does, but hands `None` back on success |
| JenkinsGate.CheckJenkinsLoop | deployment/deployment.py:148-185 | the loop over `master` and `origin/master`, with its `break` and raises, returns exactly `CheckJenkins` |
| JenkinsGate.RemainingChecksInOrder | deployment/deployment.py:160-185 | with a source and a `jenkins_job`, no selected build raises `ValueError`; once the merge-request and staleness checks pass, a build still running is rejected whatever its result, and a finished build whose result is not `SUCCESS` is rejected naming that result |
| JenkinsGate.MergeRequestIffTwoBranches | deployment/deployment.py:165-168 | the set of branch names is larger than one exactly when two of the build's branch names differ |
| JenkinsGate.AcceptedBuild | deployment/deployment.py:141-185 | the gate accepts exactly a found build that is single-branch, up to date, finished and `SUCCESS`, and then hands back that build |
| JenkinsGate.MasterBeforeOriginMaster | deployment/deployment.py:156-176 | when a `master` build exists, the `origin/master` build does not affect the verdict |
| JenkinsGate.MergeRequestRejectedFirst | deployment/deployment.py:165-168 | a build involving two different branches is rejected as a merge request, before staleness, build state and result are looked at |
| JenkinsGate.StaleRejectedBeforeResult | deployment/deployment.py:170-185 | a stale single-branch build is rejected as stale whatever its build state and result |
| Task.DeployTask.Init | deployment/task.py:47-53 | a new task holds its deployment and name, is not stopped and has done nothing |
| Task.DeployTask.Create | deployment/task.py:47-53 | constructing a task raises `KeyError("name")` exactly when the deployment has no name |
| Task.DeployTask.Stop | deployment/task.py:63-68 | after `stop` the task is stopped |
| Task.DeployTask.Publish | deployment/task.py:70-76 | a stopped task raises the interrupt before publishing; otherwise the message reaches the bus when there is one |
| Task.DeployTask.AddArtifacts | deployment/task.py:78-98 | the trace grows by exactly the events of `AddArtifactsSteps`: a missing or empty artifact list fails before any message; each artifact makes its directory only when it is missing and not made with an earlier one, and the directory, the request or the file can fail with `OSError` |
| Task.DeployTask.CollectArtifacts | deployment/task.py:84-98 | the artifact loop causes exactly the events of `CollectFrom`, in build order, remembering each directory it made so that none of them or their ancestors is made again |
| Task.DeployTask.CollectArtifact | deployment/task.py:85-92 | one pass of the artifact loop: the progress message, then `Fetch` with the directory to make exactly when it neither exists nor was made with an earlier one; it advances `CollectFrom` by one artifact or ends it with the exception |
| Task.DeployTask.Fetch | deployment/task.py:91-98 | exactly the events of `FetchSteps`: the directory when asked, the download, the write, each failing with `OSError` from the world and stopping there |
| Task.DeployTask.AddSecretFiles | deployment/task.py:100-110 | the trace grows by exactly the events of `AddSecretFilesSteps` |
| Task.DeployTask.WriteSecrets | deployment/task.py:103-110 | the secret-file loop causes exactly the events of `SecretsFrom`, in dictionary order |
| Task.DeployTask.WriteSecret | deployment/task.py:104-110 | one pass: an empty name is skipped, a write failure becomes a `RuntimeError`; it advances `SecretsFrom` by one entry |
| Task.DeployTask.RunScript | deployment/task.py:176-189 | the trace grows by exactly the events of `ScriptSteps` |
| Task.DeployTask.RestartServices | deployment/task.py:191-200 | the trace grows by exactly the events of `ServicesSteps`; a missing `services` key raises `KeyError` |
| Task.DeployTask.RestartService | deployment/task.py:193-200 | one pass: an empty name is skipped, a failed restart raises; it advances `RestartFrom` by one service |
| Task.ContentsFailure | deployment/task.py:119-122 | no exception exactly when `get_contents` can read every compose path; otherwise the exception `get_contents` raises for the first path, in `BIGBOAT_FILES` order, that it cannot read |
| Task.DeployTask.ReadComposeFiles | deployment/task.py:116-122 | the loop over `BIGBOAT_FILES` ends with the exception of the first compose file `get_contents` cannot read (`ContentsFailure`); otherwise it builds `ComposeFiles` and `ComposePaths` |
| Task.DeployTask.UpdateBigBoat | deployment/task.py:112-148 | the trace grows by exactly the events of `UpdateBigBoatSteps`: the key check, the compose file reads, the unchanged skip, then the BigBoat requests |
| Task.DeployTask.Sync | deployment/task.py:130-148 | from loading the compose file to updating the instance, exactly the events of `SyncSteps` |
| Task.DeployTask.Register | deployment/task.py:136-141 | exactly the events of `RegisterSteps`: the lookup, then for an unknown application the registration; either request may raise, and a refused registration raises `RuntimeError` |
| Task.DeployTask.UpdateCompose | deployment/task.py:143-145 | the upload loop causes exactly the events of `ComposeFrom` |
| Task.DeployTask.UpdateComposeFile | deployment/task.py:144-145 | one pass of the upload loop advances `ComposeFrom` by one file, or ends it with the request's exception or, for a refusal, `RuntimeError` |
| Task.DeployTask.UpdateInstance | deployment/task.py:147-148 | exactly the events of `InstanceSteps`: the progress message, then the instance request, which may raise with BigBoat's exception; its answer is ignored |
| Task.DeployTask.UpdateApplication | deployment/task.py:134-148 | exactly the events of `ApplicationSteps` |
| Task.DeployTask.BigBoat | deployment/task.py:202-204 | the BigBoat step runs only with a non-empty `bigboat_url` |
| Task.DeployTask.CheckBuild | deployment/task.py:151-157 | exactly the events of `JenkinsSteps`; a completed check hands back `LastBuildAsWritten`, which is `None` because `check_jenkins` returns nothing |
| Task.DeployTask.UpdateRepository | deployment/task.py:159-169 | exactly the events of `RepositorySteps` |
| Task.DeployTask.Deploy | deployment/task.py:150-206 | `_deploy` as written causes exactly the events of `DeployAsWritten`: Jenkins, repository, artifacts (skipped, since the build kept is `None`), secret files, script, services, BigBoat and success, in this order, with the first exception ending the run |
| Task.DeployTask.DeployCheckout | deployment/task.py:171-206 | exactly the events of `CheckoutSteps` for the build it is given, the artifacts step included |
| Task.DeployTask.Artifacts | deployment/task.py:171-172 | the artifacts step runs only with a checked build and `artifacts` set, and then causes exactly the events of `AddArtifactsSteps` |
| Task.DeployTask.FinishDeploy | deployment/task.py:191-206 | exactly the events of `FinishSteps` |
| Task.DeployTask.Run | deployment/task.py:55-61 | `run` over `_deploy` as written causes exactly the events of `TaskSteps`: the interrupt is swallowed, a `RuntimeError` or `ValueError` is published as `error`, and any other exception escapes |
| TaskFacts.JenkinsQuiet | deployment/task.py:152-157 | the Jenkins check announces no final state: it publishes progress messages at most |
| TaskFacts.RepositoryQuiet | deployment/task.py:159-169 | the repository update announces no final state: it publishes progress messages at most |
| TaskFacts.CollectQuiet | deployment/task.py:84-98 | the artifact loop announces no final state: it publishes progress messages at most |
| TaskFacts.ArtifactsStageQuiet | deployment/task.py:171-172 | the artifacts step announces no final state: it publishes progress messages at most |
| TaskFacts.SecretsQuiet | deployment/task.py:103-110 | the secret-file loop announces no final state |
| TaskFacts.AddSecretFilesQuiet | deployment/task.py:100-110 | the secret-file step announces no final state: it publishes progress messages at most |
| TaskFacts.ScriptQuiet | deployment/task.py:176-189 | the script step announces no final state: it publishes progress messages at most |
| TaskFacts.RestartQuiet | deployment/task.py:193-200 | one restart announces no final state: it publishes progress messages at most |
| TaskFacts.RestartFromQuiet | deployment/task.py:192-200 | the restart loop announces no final state: it publishes progress messages at most |
| TaskFacts.ServicesQuiet | deployment/task.py:191-200 | the services step announces no final state: it publishes progress messages at most |
| TaskFacts.ComposeQuiet | deployment/task.py:143-145 | the compose uploads announce no final state |
| TaskFacts.ApplicationQuiet | deployment/task.py:134-148 | the application update announces no final state: it publishes progress messages at most |
| TaskFacts.BigBoatQuiet | deployment/task.py:202-204 | the BigBoat step announces no final state: it publishes progress messages at most |
| TaskFacts.DeployAnnounces | deployment/task.py:150-206 | `_deploy` publishes progress only, plus `('success', 'Finished deployment')` on a bus exactly when every step completed |
| TaskFacts.RunAnnounces | deployment/task.py:55-61 | `run`, over `_deploy` as written, leaves exactly one final announcement: success, or one `error` with the exception's message; a stop, or an exception other than `RuntimeError`/`ValueError`, announces nothing |
| TaskFacts.StoppedTaskDoesNothing | deployment/task.py:70-72 | a task stopped before it runs causes no event and ends quietly |
| TaskFacts.FetchEffects | deployment/task.py:91-98 | one artifact is downloaded once exactly when its directory, if needed, could be made and its URL answered, and written exactly when the file could be written as well; every failure is an `OSError` |
| TaskFacts.PublishThenFetch | deployment/task.py:86-98 | after its progress message an artifact is downloaded exactly when the task is not stopped and the directory and request succeed, and written exactly on completion; it fails only on the interrupt or an `OSError` |
| TaskFacts.ArtifactEffects | deployment/task.py:85-98 | one artifact goes to `repo_path / relativePath` with the content served at `base_url/artifact/path`; it completes exactly when the task runs and the directory, the request and the file all succeed, and fails only on the interrupt or an `OSError` from one of them |
| TaskFacts.ArtifactMakes | deployment/task.py:89-92 | one artifact makes at most its own directory, only when that is missing and was not made before, and does make it then unless the task is stopped or `mkdir` fails |
| TaskFacts.AncestorNotRemade | deployment/task.py:89-92 | `mkdir(parents=True)` makes the missing ancestors with the directory: after `a/b/x` has made `r/a/b`, the artifact `a/y` does not make `r/a` again |
| TaskFacts.CollectWritesAll | deployment/task.py:84-98 | a completed artifact loop downloaded every artifact once, in build order, and wrote each under the checkout; a failed one stopped on the interrupt or an `OSError` |
| TaskFacts.SecretsWritten | deployment/task.py:103-110 | the secret-file loop completes exactly when every named file can be written; it writes each named entry to `git_path/name` in order and skips empty names; a failure is a `RuntimeError` saying the write failed |
| TaskFacts.RestartsInOrder | deployment/task.py:191-200 | the restarts complete exactly when every named service restarts; each named service is then restarted once, in configured order, with empty names skipped |
| TaskFacts.RestartEffects | deployment/task.py:192-200 | one named service is restarted once unless the task is stopped or `systemctl` cannot start; the step completes exactly when the restart succeeds, and a failed restart raises `RuntimeError('Could not restart service <name>')` |
| TaskFacts.FirstFailedRestartStops | deployment/task.py:191-200 | the first named service that does not restart ends the loop with its exception (`RuntimeError` naming it when `systemctl` failed): the named services before it were restarted once each, in order, it was attempted when its command ran, and no later service is |
| TaskFacts.ComposeUploadsAll | deployment/task.py:143-145 | the uploads complete exactly when BigBoat answers every compose file without an exception and accepts it, and then each file was sent once, in order |
| TaskFacts.ComposeFileEffects | deployment/task.py:144-145 | one compose file is sent once; it completes exactly when BigBoat answers and accepts it, and otherwise raises BigBoat's exception or `RuntimeError('Cannot update compose file')` |
| TaskFacts.FirstRefusedUploadStops | deployment/task.py:143-145 | the first compose file BigBoat does not accept ends the uploads with BigBoat's exception or `RuntimeError('Cannot update compose file')`; exactly the files up to and including it were sent, in order |
| TaskFacts.RegisterRefusalStops | deployment/task.py:136-141 | an application neither found nor registered ends the BigBoat update with an exception before any upload or instance request; an unknown application whose registration BigBoat refuses raises `RuntimeError('Cannot register application')` after the lookup and the registration |
| TaskFacts.InstanceOnlyAfterCompose | deployment/task.py:136-148 | the instance update is requested, as the last effect, when the application was found or registered, every compose file was accepted and the task was not stopped, and it is never requested otherwise; the whole completes exactly when, in addition, that request does not raise |
| TaskFacts.BigBoatGuards | deployment/task.py:113-127 | an empty `bigboat_key` raises `ValueError` before any client exists; an unreadable compose file raises its exception before anything is published; unchanged compose files publish the skip message and nothing else |
| TaskFacts.ScriptFailureStopsRun | deployment/task.py:176-189 | a failing script runs in the checkout under the deployment's name and raises `RuntimeError` with its output; services, BigBoat and success never start |
| TaskFacts.FirstArtifactDownloaded | deployment/task.py:78-98 | a running task with a build that has artifacts, whose first directory and request succeed, downloads the first artifact first |
| TaskFacts.AsWrittenSkipsArtifacts | deployment/task.py:155-172 | as written, with the gate passed and `artifacts` set, the artifacts step does nothing, although the accepted build would have been downloaded |
| TaskFacts.CorrectedCollectsArtifacts | deployment/task.py:171-172 | with the accepted build returned, a completed artifacts step wrote every artifact of that build, and a build without artifacts raises `RuntimeError` |
| Frontend.ReadBlock | deployment/deployer.py:416 | `read(n)` returns the next at most `n` characters, and is empty exactly at the end of the file |
| Frontend.UploadFile | deployment/deployer.py:412-423 | the blocks read, up to the first empty one, concatenate to the whole file |
| Frontend.ExtractFilename | deployment/deployer.py:425-444 | the result is a suffix of the path: everything after the `C:\fakepath\` prefix, else after the last `/`, else after the last `\`, else the whole path |
| Frontend.AfterLast | deployment/deployer.py:431-444 | `path[path.rfind(c) + 1:]` is the suffix after the last `c`, and contains no `c` |
| Frontend.AsList | deployment/deployer.py:447-448 | a single upload is treated as a one-element list |
| Frontend.UploadCount | deployment/deployer.py:450-452 | uploads are read up to the first one without a file |
| Frontend.UploadEntries | deployment/deployer.py:450-458 | the `i`-th upload read is stored under the `i`-th existing name, or under its extracted file name past the existing names |
| Frontend.UploadFiles | deployment/deployer.py:446-458 | the result is the current dictionary with the assignments of `UploadEntries` applied in order |
| Frontend.StoreUpload | deployment/deployer.py:453-458 | one pass of the upload loop applies the next assignment |
| Frontend.UploadsReplaceInPlace | deployment/deployer.py:450-458 | with no more uploads than names, each paired name gets its upload in place, and the other entries and the order are kept |
| Frontend.ExtraUploadAdded | deployment/deployer.py:452-458 | an upload past the existing names is found under its extracted file name, unless a later upload has the same name |
| Frontend.CarriedEntries | deployment/deployer.py:536-540 | the `i`-th new name gets the `i`-th previous content, or `''` past the previous files; previous files past the new names are dropped |
| Frontend.ExistingFiles | deployment/deployer.py:528-532 | exactly the old secret paths under `git_path` that exist |
| Frontend.RemoveFiles | deployment/deployer.py:528-532 | the removal loop removes exactly the existing old secret files, in order |
| Frontend.CheckOldSecrets | deployment/deployer.py:524-542 | when the new names differ from the stored ones, exactly the stored secret files that exist in the old checkout are removed, and none otherwise; the new secret files are the assignments of `CarriedEntries` made into an empty dictionary |
| Frontend.CarriedKeys | deployment/deployer.py:535-542 | the new secret files hold each distinct new name once, in first-occurrence order |
| Frontend.CarriedContents | deployment/deployer.py:535-542 | with distinct new names, the new secret files are the new names in order, each with the previous content in its position or `''` |
| Frontend.UnchangedNamesKeepSecrets | deployment/deployer.py:524-542 | an edit that keeps the stored names keeps every secret file and its content |
| Frontend.PutAllDedup | deployment/deployer.py:535-540 | assignments into an empty dictionary keep each distinct key once, in first-assignment order |
| Frontend.ParseServices | deployment/deployer.py:470-478 | the parsed service names are free of commas, and joining them with `,` as the edit form shows them gives the submitted text back |
| Frontend.ServicesRoundTrip | deployment/deployer.py:478 | showing comma-free service names joined by `,` and submitting them again gives the same list, except for a single empty name |
| Frontend.FormConfig | deployment/deployer.py:470-483 | the configuration built from the form is well typed |
| Frontend.CreatedDeploymentReadsBack | deployment/deployer.py:470-483 | a created deployment has its name, a source with the form's URL and the deploy key, each form field or `''`, the services given, the secret files, and no branch or artifacts setting |
| Frontend.DefaultPage | deployment/deployer.py:244-245 | the default page is a piece of the request path with only `/` before and after it, and it neither starts nor ends with `/`: the path without its leading and trailing slashes |
| Frontend.LoginRoundTrip | deployment/deployer.py:250-252 | the login redirect `index?page=<page>`, with `&params=<params>` only when both are non-empty, reads back as that page and, when there is a page, those parameters; logging in then returns to the page, with `?<params>` only when both are non-empty |
| Frontend.AfterLogin | deployment/deployer.py:283-285 | the page after login starts with the requested page and equals it exactly when there are no parameters; otherwise `?` and the parameters follow it |
| Frontend.Updated | deployment/deployer.py:614-621 | the record takes the new state and message, keeps its task, and forgets the task exactly on `success` or `error` |
| Frontend.ReplayQuiet | deployment/deployer.py:614-621 | progress messages alone leave the recorded task in place |
| Frontend.ReplayAnnounced | deployment/deployer.py:614-621 | a run whose one announcement is `success` or `error` leaves no task recorded |
| Frontend.RunFreesSlot | deployment/deployer.py:614-621 | a started run of `_deploy` as written frees its deployment for the next run exactly when it succeeds or fails with a `RuntimeError` or `ValueError`; a stop or any other exception leaves it busy |
| Frontend.Deployer.Init | deployment/deployer.py:92 | the frontend starts with no progress records |
| Frontend.Deployer.Deploy | deployment/deployer.py:623-663 | an unknown name gives the 404 message; a GET shows the latest state or redirects to the list; a POST starts a task and records `starting` exactly when no task is recorded, and otherwise refuses and changes nothing |
| Frontend.Deployer.SetProgress | deployment/deployer.py:614-621 | an unrecorded name raises `KeyError`; otherwise the record becomes `Updated` of the old one |
| Frontend.Deployer.StopThreads | deployment/deployer.py:603-612 | every recorded task is stopped with its trace left as it was, and the map is emptied |
| Frontend.Deployer.CreateDeployment | deployment/deployer.py:460-484 | a stored name raises `ValueError` and leaves the set unchanged; otherwise the uploads are added to the secret files and the configuration from the form is appended under the name |
| Values.PutSpec | deployment/deployer.py:458 | `d[k] = v` keeps the keys and their order for a known key and appends an unknown one; `k` then maps to `v`, and other keys keep their values |

## Left out

- The design description of the service is not followed where it differs from the code; the list is in the introduction.
- `Deployments.read`/`write` go through JSON files. Only the list of configuration dicts is modelled (`Written`, `Collect`), without the file system.
- Key generation and removal use `sshdeploy.Key` and the file system. `CreateDeployment` takes the deploy key path as a parameter, and the public key read is left out.
- CherryPy requests, sessions, authentication, templates and HTML are left out: `_validate_login`'s credential check, `_format_fields`, `create`/`edit` rendering and ETags. The redirect strings and the default page are modelled.
- Git, Jenkins, BigBoat, YAML, `subprocess` and `systemctl` are abstract answers in `World`/`Git`/`Jenkins`. Logging is left out.
- JenkinsGate.CheckJenkins: the Jenkins queries (`Jenkins.from_config`, `get_job`, `get_last_branch_build`) and `Git_Repository.is_up_to_date` are assumed to return. A network failure there, which would escape `_deploy` unannounced, is not modelled. The same holds for `CheckJenkinsAsWritten`, `CheckJenkinsLoop`, `AcceptedBuild`, `DeploymentStore.IsUpToDate` and the Jenkins step of the task.
- Task.UpdateBigBoatSteps: `repository.head.diff` (whether the compose files changed) and the `Client_v2` constructor are assumed to return. The BigBoat requests and `get_contents` can raise.
- Threads are left out: starting, joining, cross-thread interleaving and the CherryPy bus. The task and the progress map are sequential state. Publications reach `_set_deploy_progress` in order, and that is what `Replay` models.
- Frontend.UploadFiles: returns the updated dictionary instead of changing the caller's dictionary in place.
- Frontend.Deployer.StopThreads: the `join` on live threads is not modelled.
- Frontend.CarriedEntries: reads the `i`-th previous value by position. `old_secrets[old_names[i]]` is that value because dictionary keys are distinct.
- DeploymentStore.WellTyped: a configuration whose known keys hold values of another JSON type (a non-text `name`, say) is outside the model. Operations require well-typed configurations.
- The `edit` handler is modelled only through `CheckOldSecrets` and `CreateDeployment`. Splitting `secret_files_names` on spaces, `deployments.remove` of the old entry and the deploy-key checkbox are left out.
- Artifact paths are compared as text: `..` and repeated slashes are not resolved when deciding whether a directory was already made.
- Task.DeployTask.Publish: logging is left out. Only the bus publication is an event.

## Findings

| source | as written | input that shows it | evidently intended | confidence | as-written member | corrected member |
|---|---|---|---|---|---|---|
| deployment/deployment.py:141-185 | `check_jenkins` ends without `return`, so `_deploy` (deployment/task.py:155) always stores `None` as `last_build`, and the artifacts step (deployment/task.py:171-172) never runs | a deployment with a non-empty `jenkins_job` and `artifacts: true`, whose latest `master` build is up to date, single-branch, finished, `SUCCESS` and has an artifact: no artifact is downloaded | return the accepted build, so that its artifacts are collected into the checkout | not executed | JenkinsGate.CheckJenkinsAsWritten, Task.DeployTask.Deploy, TaskFacts.AsWrittenSkipsArtifacts | JenkinsGate.CheckJenkins, TaskFacts.CorrectedCollectsArtifacts |
