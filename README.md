# Integration-test workflow of the OpenSearch bundle build, in Dafny

This project models the part of the OpenSearch bundle-build workflow that
runs integration tests against a bundle that has already been built.

- **The on-box test cluster** (`LocalTestCluster`). It downloads and unpacks
  the bundle, switches security off when asked, starts the process, polls
  the health endpoint, and shuts the process down in two phases.
- **The integration-test suite**. It looks up a component's test script and
  runs it against the cluster's endpoint and port, or reports that it is
  missing.
- **The four test drivers**:
  - `integ_tests.py`;
  - the older `python/integ_test.py`;
  - the `python/test.py` script;
  - the newest `run_integ_test.py`.

  Each pulls common dependencies, syncs them to the local maven repository,
  and then tests or skips every bundle component.
- **The data views and path builders**: the bundle manifest and test manifest
  (construction and `to_dict`), and the S3 path and name formatters of the
  bundle manifest and of `BundleInfoProvider`.
- **The component `Builder`**: its build command and its enumeration of
  built artifacts.
- **The shared helpers** `get_dependency_repo` and `pull_plugin_repo`.

Everything outside the workflow appears as an `Effects.Event` in a trace of
calls. This covers git checkouts, S3 downloads, shell commands, the child
process, HTTP requests, sleeps and printed messages.

What those calls do comes from an `Effects.World` value, which acts as an
oracle:

- which calls succeed;
- the process id;
- the answers of the health endpoint, attempt by attempt;
- whether the process exits after each signal;
- which scripts the script finder returns, and whether they exist.

An operation's result is a `Step`: how it ended (`Ok`, or the exception
that escaped it) and the calls it made, in order. The combinators work as
follows:

- `Then` is Python's sequencing: a raise stops everything after it.
- `Finally` is `try`/`finally`.
- `Run` makes the calls of a plan in order and stops at the first one that
  raises.

A YAML document as the loader returns it is an `Values.Value`.

The imperative parts are written imperatively:

- `LocalTestCluster` is a class whose methods update its `process`, `stdout`,
  `stderr` and `install_dir` fields.
- Every `for` loop of the drivers is a method with a loop, proved equal to a
  specification function.

Each property the code promises is proved about those functions.

## Model

| member | source | states |
|---|---|---|
| LocalCluster.LocalTestCluster.constructor | bundle-workflow/src/test_workflow/local_test_cluster.py:26-32 | the cluster directory is `work_dir` joined with "local-test-cluster"; the manifest, security flag and bucket are kept; no process is started and no capture file is open |
| LocalCluster.PortText | bundle-workflow/src/test_workflow/local_test_cluster.py:51-55 | the port renders as "9200" |
| LocalCluster.UrlScheme | bundle-workflow/src/test_workflow/local_test_cluster.py:72-73 | the URL starts with "https://" exactly when security is enabled and with "http://" exactly when it is not |
| LocalCluster.SchemePrefixes | bundle-workflow/src/test_workflow/local_test_cluster.py:73 | the choice of scheme decides both prefixes, in both directions, whatever follows the separator |
| LocalCluster.UrlHost | bundle-workflow/src/test_workflow/local_test_cluster.py:51-73 | the URL is the scheme, then localhost, then port 9200, then the path |
| LocalCluster.UrlPathOfUrl | bundle-workflow/src/test_workflow/local_test_cluster.py:72-73 | parsing the cluster's URL gives back the path it was built with |
| LocalCluster.BundleKey | bundle-workflow/src/test_workflow/local_test_cluster.py:80-81 | the S3 key is the location's URL path with every leading '/' stripped |
| LocalCluster.BundleFileName | bundle-workflow/src/test_workflow/local_test_cluster.py:82 | the bundle's file name is the last '/'-separated piece of the URL path and holds no '/' |
| LocalCluster.FileNameEndsKey | bundle-workflow/src/test_workflow/local_test_cluster.py:80-82 | the file name that is unpacked is the last piece of the key that was downloaded, and a suffix of it |
| LocalCluster.KeyOfSlashedPath | bundle-workflow/src/test_workflow/local_test_cluster.py:80-82 | a URL path of one '/' followed by a key gives that key, and its last piece as the file name |
| LocalCluster.S3UrlKey | bundle-workflow/src/test_workflow/local_test_cluster.py:80-82 | for "scheme://host/key", the key is read back exactly and the file name is its last piece |
| LocalCluster.TarballNameIsPlain | bundle-workflow/src/test_workflow/local_test_cluster.py:80 | a tarball name built from a plain version and architecture holds no '/', ':', '?' or '#', so the modelled `urlparse` finds no scheme, separator, query or fragment in it |
| LocalCluster.TarballLocationIsPlain | bundle-workflow/src/test_workflow/local_test_cluster.py:80 | the same holds for the tarball's relative location |
| LocalCluster.RelativeLocationKey | bundle-workflow/src/test_workflow/local_test_cluster.py:80-82 | a plain relative location is its own key, and its file name is its last piece |
| LocalCluster.TarballLocationKey | bundle-workflow/src/test_workflow/local_test_cluster.py:80-82 | for the tarball location a bundle manifest records, the key is that location and the file name is the tarball name |
| LocalCluster.Fetch | bundle-workflow/src/test_workflow/local_test_cluster.py:78-86 | change into the cluster directory, download the key there, unpack the file; the fetch completes exactly when the download and the unpacking succeed |
| LocalCluster.DownloadSpec | bundle-workflow/src/test_workflow/local_test_cluster.py:75-87 | a location that is not a string raises after the directory change; otherwise the fetch of its key and file name |
| LocalCluster.LocalTestCluster.Download | bundle-workflow/src/test_workflow/local_test_cluster.py:75-87 | `download()` makes the calls of `DownloadSpec` |
| LocalCluster.InstallDirName | bundle-workflow/src/test_workflow/local_test_cluster.py:38 | the install directory is "opensearch-" followed by the build version |
| LocalCluster.DisableSecurityCommand | bundle-workflow/src/test_workflow/local_test_cluster.py:89-93 | the command appends "plugins.security.disabled: true" |
| LocalCluster.DisableSecurityTarget | bundle-workflow/src/test_workflow/local_test_cluster.py:91 | the target is `dir/config/opensearch.yml` |
| LocalCluster.SwitchOffIsNotUnpack | bundle-workflow/src/test_workflow/local_test_cluster.py:86-91 | the switch-off command differs from every unpacking command |
| LocalCluster.FetchRunsOnlyUnpack | bundle-workflow/src/test_workflow/local_test_cluster.py:78-86 | a fetch runs no shell command but the unpacking one |
| LocalCluster.DownloadRunsOnlyUnpack | bundle-workflow/src/test_workflow/local_test_cluster.py:75-87 | the download never runs the security switch-off |
| LocalCluster.FirstDecisive | bundle-workflow/src/test_workflow/local_test_cluster.py:99-108 | the first attempt whose answer ends the wait, or 10: every earlier answer was indecisive |
| LocalCluster.FirstDecisiveAt | bundle-workflow/src/test_workflow/local_test_cluster.py:99-108 | any attempt that is preceded only by indecisive answers and is decisive itself is the first decisive one |
| LocalCluster.Rounds | bundle-workflow/src/test_workflow/local_test_cluster.py:99-109 | n unanswered attempts are 2n calls |
| LocalCluster.RoundsCount | bundle-workflow/src/test_workflow/local_test_cluster.py:99-109 | n unanswered attempts hold n requests and n sleeps |
| LocalCluster.RoundsKinds | bundle-workflow/src/test_workflow/local_test_cluster.py:99-109 | they hold nothing but health requests and 10-second sleeps |
| LocalCluster.LocalTestCluster.WaitForService | bundle-workflow/src/test_workflow/local_test_cluster.py:95-110 | the loop of ten attempts makes the calls and has the outcome of `Poll` on the health URL |
| LocalCluster.PollOutcomes | bundle-workflow/src/test_workflow/local_test_cluster.py:99-110 | the wait returns exactly when the first decisive answer is 200 with a green body; it raises the request's error exactly when that answer is a failed request (a refused connection only retries); it raises "not green" exactly when none of the ten answers was decisive, after ten requests and ten sleeps |
| LocalCluster.PollCounts | bundle-workflow/src/test_workflow/local_test_cluster.py:99-110 | at most ten requests; one sleep per indecisive answer; a final request without a sleep when the wait stopped early |
| LocalCluster.PollEvents | bundle-workflow/src/test_workflow/local_test_cluster.py:95-110 | the wait does nothing but request the health endpoint and sleep 10 seconds |
| LocalCluster.LocalTestCluster.TerminateProcess | bundle-workflow/src/test_workflow/local_test_cluster.py:112-131 | the signals and waits of `Teardown`; both capture files closed and the process cleared on every path, the install directory kept |
| LocalCluster.TeardownSignals | bundle-workflow/src/test_workflow/local_test_cluster.py:112-131 | exactly one SIGTERM, sent first; SIGKILL exactly when the first wait timed out, at most once; both files closed last; `TimeoutExpired` escapes exactly when the process also survives SIGKILL |
| LocalCluster.DestroySpec | bundle-workflow/src/test_workflow/local_test_cluster.py:57-61 | after `destroy()` no process is left, and the state stays consistent |
| LocalCluster.LocalTestCluster.Destroy | bundle-workflow/src/test_workflow/local_test_cluster.py:57-61 | `destroy()` makes the calls of `DestroySpec` and leaves its state |
| LocalCluster.DestroyWithoutProcess | bundle-workflow/src/test_workflow/local_test_cluster.py:57-60 | destroying a cluster without a process only logs and changes nothing, so destroying a fresh cluster sends no signal and touches no file |
| LocalCluster.DestroyIdempotent | bundle-workflow/src/test_workflow/local_test_cluster.py:127-131 | a second `destroy()` only logs and changes nothing |
| LocalCluster.DestroyCleansUp | bundle-workflow/src/test_workflow/local_test_cluster.py:112-131 | destroying a started cluster runs the teardown of its process, closes both files and clears the process, whatever the process does |
| LocalCluster.CreateAndDestroyTwice | bundle-workflow/src/test_workflow/local_test_cluster.py:57-60 | after create and destroy on a real object, a second destroy returns having only logged |
| LocalCluster.AfterDownload | bundle-workflow/src/test_workflow/local_test_cluster.py:36-49 | the rest of `create()` keeps a consistent state consistent, whichever call raises: a running process always has both capture files open |
| LocalCluster.LocalTestCluster.Start | bundle-workflow/src/test_workflow/local_test_cluster.py:36-49 | the method makes the calls and leaves the fields of `AfterDownload` |
| LocalCluster.AfterDownloadStarts | bundle-workflow/src/test_workflow/local_test_cluster.py:35-49 | the process starts exactly when the download, both `open()` calls, the switch-off (with security off) and `Popen` succeed, and a start that fails raises; each capture file is set exactly when it and the calls before it succeeded, the install directory exactly when both files opened; the calls come in source order; `create()` returns only if the poll does, leaving the process running, both files open and the install directory set |
| LocalCluster.CreateSpec | bundle-workflow/src/test_workflow/local_test_cluster.py:34-49 | `create()` keeps the state consistent |
| LocalCluster.LocalTestCluster.Create | bundle-workflow/src/test_workflow/local_test_cluster.py:34-49 | `create()` makes the calls and leaves the fields of `CreateSpec` |
| LocalCluster.CreateStarts | bundle-workflow/src/test_workflow/local_test_cluster.py:34-49 | the process starts exactly when the download, opening both capture files, the switch-off (if needed) and `Popen` succeed; a `create()` that returns leaves it running from "opensearch-{version}" with both files open, and saw a green reply within ten attempts |
| LocalCluster.AfterDownloadGate | bundle-workflow/src/test_workflow/local_test_cluster.py:36-40 | the switch-off runs exactly when security is disabled, the download succeeded and both capture files opened |
| LocalCluster.CreateSecurityGate | bundle-workflow/src/test_workflow/local_test_cluster.py:35-40 | `create()` switches security off on "opensearch-{version}" exactly when security is disabled, the bundle was downloaded and unpacked, and both capture files opened |
| LocalCluster.CreateFailedDownload | bundle-workflow/src/test_workflow/local_test_cluster.py:35 | a download that raises leaves every field as it was |
| IntegTestSuites.NewSuite | bundle-workflow/src/test_workflow/integ_test_workflow/integ_test_suite.py:11-15 | the suite takes the component's name and repository and the bundle manifest |
| IntegTestSuites.SkipMessage | bundle-workflow/src/test_workflow/integ_test_workflow/integ_test_suite.py:39 | the skip message names the script first and the component last |
| IntegTestSuites.Execute | bundle-workflow/src/test_workflow/integ_test_workflow/integ_test_suite.py:32-39 | one call in all: the test command on the script found for the suite's name, exactly when that script exists, otherwise the skip message; only a failing test command raises |
| IntegTestSuites.TestCommandWords | bundle-workflow/src/test_workflow/integ_test_workflow/integ_test_suite.py:36 | the command is the script, "-b" endpoint, "-p" port, "-s" and "true" or "false" for the security flag |
| TestUtils.DependencyRepo | bundle-workflow/src/test_workflow/utils.py:8-9 | the URL starts with "https://github.com/opensearch-project/", ends with ".git", has the name between them, and has length `len(name) + 42` |
| TestUtils.DependencyRepoInjective | bundle-workflow/src/test_workflow/utils.py:8-9 | distinct names give distinct URLs |
| TestUtils.PullPluginRepo | bundle-workflow/src/test_workflow/utils.py:12-13 | the checkout is of the component's repository at its `commit_id` (not `ref`), into `work_dir/name` |
| TestUtils.PullNamed | bundle-workflow/src/test_workflow/integ_test_workflow/integ_tests.py:55-57 | the filter yields checkouts only, at most one per component |
| TestUtils.PullNamedMembers | bundle-workflow/src/test_workflow/integ_test_workflow/integ_tests.py:55-57 | a checkout is made exactly for each component whose name is in the list, at its commit into `work_dir/name`; no listed component means no checkout |
| TestUtils.PullNamedAppend | bundle-workflow/src/test_workflow/integ_test_workflow/integ_tests.py:55-57 | the checkouts keep manifest order |
| IntegTests.CommonDependenciesDistinct | bundle-workflow/src/test_workflow/integ_test_workflow/integ_tests.py:42-49 | five distinct names, in the listed order |
| IntegTests.PullCommonDependencies | bundle-workflow/src/test_workflow/integ_test_workflow/integ_tests.py:53-57 | the loop makes the checkouts of `PullNamed` for the common dependencies and stops at the first that raises |
| IntegTests.SyncMaven | bundle-workflow/src/test_workflow/integ_test_workflow/integ_tests.py:63-75 | no command is checked, so only a version or component name that is not a string raises, from string concatenation |
| IntegTests.SyncMavenCommands | bundle-workflow/src/test_workflow/integ_test_workflow/integ_tests.py:63-75 | a completed sync alternates six directory changes with six commands, so each command runs right after a change of directory; the commands are, in order, the dependency script for opensearch and for common-utils, the move of job-scheduler under the component, the script for job-scheduler, the move of alerting to notifications and the script for alerting, and every script run ends in the version |
| IntegTests.TestBody | bundle-workflow/src/test_workflow/integ_test_workflow/integ_tests.py:90-95 | the component's name is printed, then its repository is checked out at "main" into `work_dir/name`; a name that is not a string raises `TypeError` first |
| IntegTests.RunComponentIntegTests | bundle-workflow/src/test_workflow/integ_test_workflow/integ_tests.py:85-97 | the method makes the calls and has the outcome of `ClusterRun` |
| IntegTests.RunInCluster | bundle-workflow/src/test_workflow/integ_test_workflow/integ_tests.py:86-97 | the `try`/`finally` around create and test is `ClusterRun` |
| IntegTests.Test | bundle-workflow/src/test_workflow/integ_test_workflow/integ_tests.py:90-95 | the statements inside the `try` make the calls of `TestBody` |
| IntegTests.ClusterRunCleansUp | bundle-workflow/src/test_workflow/integ_test_workflow/integ_tests.py:85-97 | `destroy()` always runs, last, whether `create()` or the suite raised: it tears down exactly the process `create()` started and otherwise only logs; the run succeeds exactly when create, test and teardown all do |
| IntegTests.Visit | bundle-workflow/src/test_workflow/integ_test_workflow/integ_tests.py:110-115 | an unsupported component only gets the skip message; a supported one is pulled first; a pull that raises ends the visit with that failure; after a pull that succeeds come the sync's calls, which never raise, and the visit ends as the sync does |
| IntegTests.VisitAll | bundle-workflow/src/test_workflow/integ_test_workflow/integ_tests.py:110-115 | the loop makes the calls of `Visits` |
| IntegTests.RunMain | bundle-workflow/src/test_workflow/integ_test_workflow/integ_tests.py:105-115 | `main()` prints and changes into `work_dir`, pulls the common dependencies, then runs the loop |
| IntegTests.VisitsAppend | bundle-workflow/src/test_workflow/integ_test_workflow/integ_tests.py:110 | the visits keep manifest order |
| IntegTests.VisitsPullOnlySupported | bundle-workflow/src/test_workflow/integ_test_workflow/integ_tests.py:110-115 | every checkout in the loop is of a supported component; a completed loop pulled every supported component and reported every unsupported one as skipped |
| PythonIntegTest.CommonDependencyBranches | bundle-workflow/python/integ_test.py:14-25 | five distinct dependencies; opensearch-build at "main", the other four at "1.0" |
| PythonIntegTest.PullPlan | bundle-workflow/python/integ_test.py:44-48 | two calls per dependency |
| PythonIntegTest.PullPlanAt | bundle-workflow/python/integ_test.py:44-48 | entry i is announced, then checked out from its GitHub URL at its branch into `work_dir/name` |
| PythonIntegTest.PullCommonDependencies | bundle-workflow/python/integ_test.py:44-48 | the method runs `PullPlan` over the five entries, in order |
| PythonIntegTest.PullDependencies | bundle-workflow/python/integ_test.py:46-48 | the loop stops at the first checkout that raises |
| PythonIntegTest.PullStep | bundle-workflow/python/integ_test.py:46-48 | one round announces and then checks out; a failed checkout ends the loop |
| PythonIntegTest.RunPluginTests | bundle-workflow/python/integ_test.py:87-99 | the same `try`/`finally` as `ClusterRun` under the plugin heading, so destroy runs after create and the suite |
| PythonIntegTest.Visit | bundle-workflow/python/integ_test.py:113-119 | an unsupported component only gets the skip message |
| PythonIntegTest.VisitComponent | bundle-workflow/python/integ_test.py:114-119 | the loop body makes the calls of `Visit` |
| PythonIntegTest.VisitOrder | bundle-workflow/python/integ_test.py:117-119 | a supported component is pulled first, synced only after the pull succeeded, and tested only after the sync completed |
| PythonIntegTest.VisitAll | bundle-workflow/python/integ_test.py:113-119 | the loop makes the calls of `Visits` |
| PythonIntegTest.RunMain | bundle-workflow/python/integ_test.py:107-119 | `main()` prints and changes into `work_dir`, pulls the dependencies, then runs the loop |
| PythonIntegTest.NothingSupported | bundle-workflow/python/integ_test.py:113-116 | with no supported component, the loop only prints the skip messages, one per component in order; nothing is pulled, synced or tested |
| PythonTest.TestOne | bundle-workflow/python/test.py:32-35 | the component's name is printed first; a name that is not a string then raises `TypeError` and nothing is checked out; otherwise the component is checked out at its commit into `work_dir/name`, before its suite executes |
| PythonTest.TestComponents | bundle-workflow/python/test.py:31-35 | the loop makes the calls of `TestAll` |
| PythonTest.Script | bundle-workflow/python/test.py:22-37 | the script makes the calls of `ScriptSpec` |
| PythonTest.AroundShape | bundle-workflow/python/test.py:23-37 | a `create()` that raises ends the script with no destroy; otherwise the loop's calls are followed by the teardown, and a teardown timeout replaces the loop's outcome |
| PythonTest.CreateOutsideTry | bundle-workflow/python/test.py:26-37 | the cluster is created once, before any component; a failed create skips destroy; once create returns, destroy always runs once after the loop, whether the loop completed or raised |
| PythonTest.TestAllAppend | bundle-workflow/python/test.py:31 | the rounds keep manifest order |
| PythonTest.TestAllCoversEvery | bundle-workflow/python/test.py:31-35 | there is no filter: a completed loop met only string names, and printed and checked out every component |
| RunIntegTest.CommonDependenciesDistinct | bundle-workflow/src/run_integ_test.py:28 | the four names are distinct |
| RunIntegTest.CheckoutsOf | bundle-workflow/src/run_integ_test.py:74-90 | the checkouts of a trace, in order, are no more than its calls |
| RunIntegTest.CheckoutsOfAppend | bundle-workflow/src/run_integ_test.py:74-90 | the checkouts of two traces are concatenated |
| RunIntegTest.DependencyPullsCheckouts | bundle-workflow/src/run_integ_test.py:83-90 | the loop checks out exactly the build components that the shared filter selects for the four names |
| RunIntegTest.PullPlanCheckouts | bundle-workflow/src/run_integ_test.py:74-90 | opensearch-build at "main" is checked out first; after it come exactly the named build components, in manifest order, at their commits into `work_dir/name` |
| RunIntegTest.RunAfterInfallible | bundle-workflow/src/run_integ_test.py:75-77 | the log messages and the directory change ahead of the checkouts cannot raise |
| RunIntegTest.PullCommonDependencies | bundle-workflow/src/run_integ_test.py:74-90 | the method runs `PullPlan`; a checkout that raises ends it |
| RunIntegTest.PullDependencies | bundle-workflow/src/run_integ_test.py:83-90 | the loop makes the calls of running `DependencyPulls` |
| RunIntegTest.PullStep | bundle-workflow/src/run_integ_test.py:84-90 | a common dependency is announced and then checked out; other components are passed over |
| RunIntegTest.SyncDependenciesToMavenLocal | bundle-workflow/src/run_integ_test.py:94-112 | the method runs `SyncPlan` |
| RunIntegTest.RunChecked | bundle-workflow/src/run_integ_test.py:95-112 | two checked commands, each after a directory change, run one after the other |
| RunIntegTest.SyncOrder | bundle-workflow/src/run_integ_test.py:94-112 | the sync completes exactly when "opensearch {ver}" and "common-utils {ver}" both succeed; the second runs only after the first completed; a failing command (`check=True`) is what escapes |
| RunIntegTest.IntegTestConfig | bundle-workflow/src/run_integ_test.py:136-138 | the loop leaves `ConfigOf` |
| RunIntegTest.ConfigKeys | bundle-workflow/src/run_integ_test.py:136-138 | a name is a key exactly when some test component with that name has `integ_test` not None |
| RunIntegTest.ConfigLastWins | bundle-workflow/src/run_integ_test.py:136-138 | the entry under a name is the last configured test component with that name |
| RunIntegTest.SelectionLength | bundle-workflow/src/run_integ_test.py:141-154 | one call per bundle component |
| RunIntegTest.SelectionAt | bundle-workflow/src/run_integ_test.py:141-154 | bundle component i, in manifest order, gets its suite executed exactly when its name is a key of the config, and the skip message otherwise |
| RunIntegTest.SelectionOnlySuites | bundle-workflow/src/run_integ_test.py:141-154 | the selection only executes suites and logs skips |
| RunIntegTest.RunSelected | bundle-workflow/src/run_integ_test.py:141-154 | the loop runs `Selection`; a suite that raises ends it |
| RunIntegTest.SelectComponent | bundle-workflow/src/run_integ_test.py:142-154 | the loop body makes the call `Selected` gives |
| RunIntegTest.SelectStep | bundle-workflow/src/run_integ_test.py:141-154 | one round of the loop is one call; a raise stops the loop |
| RunIntegTest.RunTests | bundle-workflow/src/run_integ_test.py:139-154 | pull, sync and the selection run in that order, each only after the previous completed |
| RunIntegTest.NoSuiteAppend | bundle-workflow/src/run_integ_test.py:139-140 | two traces without a suite execution concatenate to one without |
| RunIntegTest.SuitesLastAppend | bundle-workflow/src/run_integ_test.py:139-154 | a suite-free trace followed by suites and messages has no checkout or checked command after a suite |
| RunIntegTest.RunKeepsNoSuite | bundle-workflow/src/run_integ_test.py:139-140 | running a plan makes only calls of that plan |
| RunIntegTest.PullPlanNoSuite | bundle-workflow/src/run_integ_test.py:74-90 | the pull plan executes no suite |
| RunIntegTest.DependencyPullsNoSuite | bundle-workflow/src/run_integ_test.py:83-90 | the dependency loop executes no suite |
| RunIntegTest.NoSuiteInPreparation | bundle-workflow/src/run_integ_test.py:139-140 | neither the pulls nor the sync execute a suite |
| RunIntegTest.SelectionRunSuitesAndMessages | bundle-workflow/src/run_integ_test.py:141-154 | the selection loop only executes suites and logs |
| RunIntegTest.SuitesAfterDependencies | bundle-workflow/src/run_integ_test.py:139-141 | once any suite has executed, the pulls and the sync both completed, and no checkout or checked command follows a suite |
| RunIntegTest.RunMain | bundle-workflow/src/run_integ_test.py:120-154 | `main()` inside the temporary directory makes the calls of `MainSpec` |
| RunIntegTest.LoadAndTest | bundle-workflow/src/run_integ_test.py:129-154 | from the loading of the bundle manifest on, the calls of `Loaded` |
| RunIntegTest.MainLoadErrors | bundle-workflow/src/run_integ_test.py:121-135 | the bundle manifest is downloaded before anything else that can raise; a failed download or a bundle manifest that does not load stops the run before the build manifest is downloaded; a test manifest that does not load stops it before anything is pulled |
| RunIntegTest.MainRunsTests | bundle-workflow/src/run_integ_test.py:121-154 | once both downloads completed and both manifests loaded, the run is the two downloads, then the pulls, the sync and the selection over the bundle's components with the config built from the test manifest |
| RunIntegTest.AfterTwoCalls | bundle-workflow/src/run_integ_test.py:127-133 | two downloads that complete leave the rest's outcome and put their calls first |
| BundleManifests.BuildFrom | bundle-workflow/src/manifests/bundle_manifest.py:71-77 | the build section loads exactly when it is a mapping with all five keys, and keeps those five values |
| BundleManifests.BuildWritesBack | bundle-workflow/src/manifests/bundle_manifest.py:72-86 | a loaded build section writes back exactly the five entries it read |
| BundleManifests.BuildError | bundle-workflow/src/manifests/bundle_manifest.py:73-77 | a section that does not load raises `TypeError` when it is not a mapping, otherwise `KeyError` for the first missing key in reading order |
| BundleManifests.ComponentFrom | bundle-workflow/src/manifests/bundle_manifest.py:88-94 | a component loads exactly when it is a mapping with all five keys, and keeps those five values |
| BundleManifests.ComponentWritesBack | bundle-workflow/src/manifests/bundle_manifest.py:89-103 | a loaded component writes back exactly the five entries it read |
| BundleManifests.ComponentError | bundle-workflow/src/manifests/bundle_manifest.py:90-94 | `TypeError` for an entry that is not a mapping, otherwise `KeyError` for the first missing key |
| BundleManifests.RestrictedAll | bundle-workflow/src/manifests/bundle_manifest.py:46-48 | restricting a list of entries keeps its length and order |
| BundleManifests.ComponentsToDict | bundle-workflow/src/manifests/bundle_manifest.py:46-48 | one dictionary per component, in order |
| BundleManifests.RoundTrip | bundle-workflow/src/manifests/bundle_manifest.py:34-49 | loading what `to_dict` wrote gives the same manifest back |
| BundleManifests.ToDictReproduces | bundle-workflow/src/manifests/bundle_manifest.py:34-49 | load then `to_dict` gives schema version "1.0", the build section's five entries, and every component's five entries, in the length and order of `data["components"]` |
| BundleManifests.FromDataParts | bundle-workflow/src/manifests/bundle_manifest.py:37-40 | a loaded manifest was read from a mapping whose build section and component list each loaded into its parts |
| BundleManifests.ComponentsWriteBack | bundle-workflow/src/manifests/bundle_manifest.py:38-48 | component entries that loaded write back, in order, restricted to their five keys |
| BundleManifests.TarballName | bundle-workflow/src/manifests/bundle_manifest.py:63-65 | "opensearch-", then version "-linux-" architecture, then ".tar.gz" |
| BundleManifests.TarballRelativeLocation | bundle-workflow/src/manifests/bundle_manifest.py:59-65 | "bundles/{ver}/{id}/{arch}/" followed by the tarball name |
| BundleManifests.ManifestRelativeLocation | bundle-workflow/src/manifests/bundle_manifest.py:67-69 | the same directory followed by exactly "manifest.yml" |
| TestManifests.ComponentFrom | bundle-workflow/src/manifests/test_manifest.py:52-55 | loads exactly when the entry is a mapping with "name", "integ-test" and "bwc-test", and keeps the three values unchanged; the error is that of the first failing read |
| TestManifests.FromData | bundle-workflow/src/manifests/test_manifest.py:35-41 | a loaded manifest has version "1.0"; over a mapping with a schema version whose `str()` is not "1.0" it raises the unsupported-version error before the components are read |
| TestManifests.NumericVersionAccepted | bundle-workflow/src/manifests/test_manifest.py:36 | the YAML number 1.0 passes the check, because it is stringified first |
| TestManifests.LoadKeepsComponents | bundle-workflow/src/manifests/test_manifest.py:39-41 | a loaded manifest has one component per entry of `data["components"]`, in order |
| TestManifests.ComponentsToDict | bundle-workflow/src/manifests/test_manifest.py:46-48 | one dictionary per component, in order |
| TestManifests.ToDict | bundle-workflow/src/manifests/test_manifest.py:43-62 | schema version "1.0" and one entry per component, in order, with keys "name", "integTest" and "bwcTest" |
| TestManifests.ToDictNotReloadable | bundle-workflow/src/manifests/test_manifest.py:54-61 | because of the renamed keys, loading what `to_dict` wrote fails with `KeyError("integ-test")` whenever there is a component |
| TestManifests.EmptyRoundTrip | bundle-workflow/src/manifests/test_manifest.py:35-49 | with no components the renaming does not show, and the manifest round-trips |
| BundleInfo.TarballName | bundle-workflow/src/test_workflow/bundle_info_provider.py:17-18 | starts with "opensearch-", has version "-linux-" architecture in the middle, ends with ".tar.gz" |
| BundleInfo.TarballRelativeLocation | bundle-workflow/src/test_workflow/bundle_info_provider.py:13-18 | "bundles/{ver}/{id}/{arch}/" followed by the tarball name |
| BundleInfo.BundleManifestRelativeLocation | bundle-workflow/src/test_workflow/bundle_info_provider.py:21-22 | starts with "bundles/" and ends with "/manifest.yml" |
| BundleInfo.BuildManifestRelativeLocation | bundle-workflow/src/test_workflow/bundle_info_provider.py:25-26 | starts with "builds/" and ends with "/manifest.yml" |
| BundleInfo.ManifestLocationsDifferInRoot | bundle-workflow/src/test_workflow/bundle_info_provider.py:21-26 | the bundle and build manifest locations differ only in "bundles/" versus "builds/" |
| BundleInfo.AgreesWithBundleManifest | bundle-workflow/src/test_workflow/bundle_info_provider.py:13-22 | the provider's formatters give the same strings as the bundle manifest's |
| BundleInfo.LocationInjective | bundle-workflow/src/test_workflow/bundle_info_provider.py:13-26 | two locations that are equal, with '/'-free middle pieces, agree in id, version, architecture and file |
| BundleInfo.LocationsInjective | bundle-workflow/src/test_workflow/bundle_info_provider.py:13-26 | for '/'-free arguments, distinct (id, version, architecture) give distinct tarball, bundle-manifest and build-manifest locations |
| BuildWorkflow.NewBuilder | bundle-workflow/python/build_workflow/builder.py:12-25 | the builder keeps its component and repository, and its output path is "artifacts" |
| BuildWorkflow.BuildCommandWords | bundle-workflow/python/build_workflow/builder.py:29 | the command is the script, "-v" version, "-a" architecture, "-s" and "true" or "false", and "-o artifacts" |
| BuildWorkflow.Build | bundle-workflow/python/build_workflow/builder.py:27-31 | the script found for the component and repository directory is run there first; the component is recorded exactly once, after it, and only when the build did not raise |
| BuildWorkflow.RelativePath | bundle-workflow/python/build_workflow/builder.py:38-39 | a recorded relative path begins with its artifact-type directory |
| BuildWorkflow.DirRecords | bundle-workflow/python/build_workflow/builder.py:37-40 | one record per file of a walked directory, in order |
| BuildWorkflow.ExportDir | bundle-workflow/python/build_workflow/builder.py:37-40 | the innermost loop makes the records of `DirRecords` |
| BuildWorkflow.ExportType | bundle-workflow/python/build_workflow/builder.py:36-40 | the walk loop of one type makes the records of `TypeRecords` |
| BuildWorkflow.ExportArtifacts | bundle-workflow/python/build_workflow/builder.py:33-40 | the nested loops make the records of `Exported` |
| BuildWorkflow.TypeRecordsShape | bundle-workflow/python/build_workflow/builder.py:36-40 | one record per file, each for this component and this type, relative path under the type's directory, absolute path the artifacts directory joined with it |
| BuildWorkflow.RecordsShape | bundle-workflow/python/build_workflow/builder.py:35-40 | the same over several types, each record naming one of them |
| BuildWorkflow.ExportedShape | bundle-workflow/python/build_workflow/builder.py:33-40 | one record per file found under maven, bundle, plugins or libs, each under its type's directory |
| BuildWorkflow.OnlyArtifactTypesRead | bundle-workflow/python/build_workflow/builder.py:35 | only the artifact directories are looked at: walks that agree on them give the same records |
| BuildWorkflow.ExportOrder | bundle-workflow/python/build_workflow/builder.py:35 | the maven records come first, then bundle, then plugins, then libs |
| Values.Get | bundle-workflow/src/manifests/bundle_manifest.py:73 | `data[key]`: the value when the key is present, `KeyError` on a mapping without it, `TypeError` on anything else |
| Values.Entries | bundle-workflow/src/manifests/bundle_manifest.py:38-40 | a list yields its items |
| Values.LoadEach | bundle-workflow/src/manifests/bundle_manifest.py:38-40 | every entry loaded in order; the first failure is the error |
| Text.LStrip | bundle-workflow/src/test_workflow/local_test_cluster.py:81 | `lstrip('/')`: the result is no longer than the input and does not start with '/' |
| Text.LStripRemovesOnly | bundle-workflow/src/test_workflow/local_test_cluster.py:81 | it removes a prefix made only of that character |
| Text.AfterLast | bundle-workflow/src/test_workflow/local_test_cluster.py:82 | `split('/')[-1]` holds no '/' |
| Text.AfterLastUnique | bundle-workflow/src/test_workflow/local_test_cluster.py:82 | it is the only '/'-free suffix that is all of the string or follows a '/' |
| Text.Split | bundle-workflow/python/build_workflow/builder.py:29 | `split` gives at least one piece |
| Text.SplitJoin | bundle-workflow/python/build_workflow/builder.py:29 | splitting words joined by a separator none of them holds gives the words back |
| Text.PathJoin | bundle-workflow/src/test_workflow/local_test_cluster.py:29 | `os.path.join` ends with its second argument, which wins when absolute |
| Text.PathJoinChild | bundle-workflow/src/test_workflow/local_test_cluster.py:29 | for a directory and a relative child, the two joined by one '/' |
| Text.BoolFlag | bundle-workflow/src/test_workflow/integ_test_workflow/integ_test_suite.py:36 | `str(b).lower()` is "true" or "false" |
| Text.Decimal | bundle-workflow/src/test_workflow/local_test_cluster.py:73 | `str(n)` of a port is a non-empty string of digits |
| Text.Lower | bundle-workflow/python/build_workflow/builder.py:29 | `lower()` maps each character |
| Urls.UrlPath | bundle-workflow/src/test_workflow/local_test_cluster.py:80 | the path of `urlparse` holds no '?' and no '#' |
| Urls.AbsoluteUrlPath | bundle-workflow/src/test_workflow/local_test_cluster.py:80 | the path of "scheme://host/path" is "/path" |
| Urls.RelativeLocationIsPath | bundle-workflow/src/test_workflow/local_test_cluster.py:80 | a plain relative location is its own path |
| Effects.Finally | bundle-workflow/src/test_workflow/integ_test_workflow/integ_tests.py:86-97 | the cleanup runs after the body whatever the body did; its own raise replaces the body's outcome |
| Effects.Run | bundle-workflow/src/run_integ_test.py:83-90 | the calls of a plan, in order, up to and including the first that raises; it completes exactly when every call does |
| Effects.RunAppend | bundle-workflow/src/run_integ_test.py:139-140 | running two plans in turn is running their concatenation |

## Left out

- Python's `str()` of a list or mapping is rendered only as "[...]" or "{...}". The model needs only its prefix, so these values never compare equal to "1.0". `Num` keeps a number's `str()` text, so Python's equality between numbers and booleans (`1 == True`) is not modelled.
- YAML parsing, `from_file` and `from_s3` are left out. A manifest is given as the value the loader returns.
- The `Manifest` base class of the bundle manifest is not part of this model, and its constructor is taken to accept any data.
- The build manifest's loader is not part of this model. In `run_integ_test.py`, `RunIntegTest.BuildManifestView` is an input holding the build's version and components.
- The build manifest downloaded over the bundle's `manifest.yml` is given as that view, not read from the file.
- The test manifest read from "config/test_manifest.yml" is an input value.
- The collaborators are modelled only as the calls they receive:
  - `S3Bucket`, `GitRepository`, `ScriptFinder` and `TemporaryDirectory`;
  - `subprocess`, `tar`, `echo`, `mv` and the install script;
  - `requests.get` and `time.sleep`;
  - `open()`, `Popen` and the process's `wait`.

  Whether each checkout, command run in a repository, checked shell command, S3 download, `open()`, `Popen` and suite raises is given by the `World`, as are the process id, the health replies and whether the process exits within each wait. Real time, real signals and concurrency with the child process are not modelled.
- `terminate()`, `kill()`, `close()`, `print`, `logging.info`, `time.sleep` and the unchecked `subprocess.run` are modelled as calls that never raise.
- `os.chdir` is modelled as an infallible call, so a missing directory is not modelled.
- `os.makedirs` is not modelled.
- `os.walk` is given as a list of (directory, files) per artifact type. `os.path.realpath` is taken as the identity, and `relpath` as the part after the artifacts directory.
- `urlparse` is modelled for its path only: scheme, network location, query and fragment. Its params (`;`), whitespace stripping and scheme-case handling are not modelled.
- Command-line parsing and console and logging configuration are not modelled.
- Every message that `print` writes appears as an event. Of the `logging.info` lines, only these appear: "Local test cluster is not started" (`local_test_cluster.py:59`), and in `run_integ_test.py` the two pulling messages (lines 75-76), "Pulling " with each dependency's name (line 85), the switch to the work directory (line 121) and the skip message (lines 151-154). The other log lines of `local_test_cluster.py` (the PID, download, unpack, poll and termination messages) are not modelled.
- `pdb.set_trace()` in `run_integ_test.py` is left out.
- The exit status of `sys.exit(main())` is not modelled.
- The arguments of `run_integ_test.py` are modelled as the four values that select the build; `--keep` and `--logging-level` are left out.
- Calls whose arity does not match the class they construct are modelled as the evident intent:
  - `LocalTestCluster(manifest, work_dir)` in `integ_tests.py` and `python/integ_test.py`, and `LocalTestCluster(manifest)` in `python/test.py`, use the constructor's four settings;
  - `IntegTestSuite(component.name, repo)` and `execute(cluster)`, whose `security` is taken from the cluster's setting;
  - the `IntegTestSuite(component, config, manifest, work_dir).execute()` of `run_integ_test.py` is the abstract call `ExecuteSuite(name)`.
- The import of `test_workflow.test_cluster` in the two `python/` drivers is read as `LocalTestCluster` of `local_test_cluster.py`. `test_workflow/test_cluster.py` is not part of this model.
- `IntegTestSuite.execute` reads `self.repo.dir` although `repo` is a string. The model passes the repository directory explicitly.
- `args.manifest` in `integ_tests.py` does not exist. That print is left out, and the manifests are inputs.
- In `integ_tests.py`, if `LocalTestCluster(...)` ever raised inside the `try`, the `finally` would raise `UnboundLocalError`. The model starts the `try` at `create()`.
- `IntegTestSuite.run_component_integ_tests` refers to names that do not exist in its module and is left out.
- `main` of `integ_tests.py` does not call `run_component_integ_tests`: the call is commented out in the source, and the model follows it.
- `IntegTests.SyncMaven` models a `TypeError` from `+` only for a version or name that is not a string. It does not model `subprocess.run` failures: the calls are not checked, so they never raise.
- Unhashable manifest names used as dictionary keys (a list or mapping) are not modelled; `Value` keys are compared structurally.
- `LocalCluster.DisableSecurityCommand`: the contract states only the prefix of the appended text. The target file is stated by `LocalCluster.DisableSecurityTarget` for a directory that does not end in '/'.
- `BuildWorkflow.ExportArtifacts`: a builder's `git_repo` is given as its directory.
- The `build_recorder` is the abstract calls `RecordComponent` and `RecordArtifact`.
- `src/test_s3.py` and `tests/test_aws/test_s3_bucket.py` are I/O scripts and tests of a class whose source is not part of this model. They are left out.
