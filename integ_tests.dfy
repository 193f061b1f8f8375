/** The component integration-test driver: pull the common dependencies
    named in the build manifest, then for every bundle component either skip
    it or pull it and sync its maven dependencies; and the routine that runs
    one component's suite against a fresh cluster that is destroyed whatever
    happens. */
module IntegTests {
  import opened Values
  import opened Text
  import opened Effects
  import opened TestUtils
  import BundleManifests
  import LocalCluster
  import IntegTestSuites

  /** `_get_common_dependencies()`, in the order it lists them. */
  const CommonDependencies: seq<string> := ["opensearch", "opensearch-build", "common-utils", "job-scheduler", "alerting"]

  /** The five names are distinct, so the list acts as the set it is used as. */
  lemma CommonDependenciesDistinct()
    ensures |CommonDependencies| == 5
    ensures forall i, j :: 0 <= i < j < |CommonDependencies| ==> CommonDependencies[i] != CommonDependencies[j]
  {
    var d := CommonDependencies;
    assert |d[0]| == 10 && |d[1]| == 16 && |d[2]| == 12 && |d[3]| == 13 && |d[4]| == 8;
  }

  /** `pull_common_dependencies(work_dir, build_manifest)`: the build
      components named in the list are checked out in manifest order, the
      first checkout that raises ending the loop. */
  method PullCommonDependencies(w: World, workDir: string, components: seq<BundleManifests.Component>) returns (s: Step)
    ensures s == Run(w, PullNamed(components, CommonDependencies, workDir))
  {
    s := Done;
    assert components[0..] == components;
    for i := 0 to |components|
      invariant s.outcome.Ok?
      invariant Then(s, Run(w, PullNamed(components[i..], CommonDependencies, workDir)))
             == Run(w, PullNamed(components, CommonDependencies, workDir))
    {
      var c := components[i];
      NamedPullStep(w, s, components, i, workDir);
      if NamedIn(c, CommonDependencies) {
        s := Then(s, Call(w, PullPluginRepo(c, workDir)));
        if s.outcome.Raised? {
          return;
        }
      }
    }
    assert s.events + [] == s.events;
  }

  /** `is_component_test_supported(component)`. */
  predicate Supported(c: BundleManifests.Component)
  {
    c.name == Str("index-management")
  }

  function SkipMessage(name: Value): string
  {
    "Skipping tests for " + StrOf(name) + ", as it is currently not supported"
  }

  /** The dependency script every sync step runs, below `work_dir`. */
  const DepsScript := "/opensearch-build/tools/standard-test/integtest_dependencies_opensearch.sh"

  function DepsCommand(workDir: string, dependency: string, version: string): string
  {
    workDir + DepsScript + " " + dependency + " " + version
  }

  /** One round of `PullCommonDependencies`: a named component's checkout
      runs next, and one that raises ends the loop. */
  lemma NamedPullStep(w: World, s: Step, cs: seq<BundleManifests.Component>, i: nat, workDir: string)
    requires i < |cs|
    ensures var c := cs[i];
      var pulled := if NamedIn(c, CommonDependencies) then Then(s, Call(w, PullPluginRepo(c, workDir))) else s;
      && Then(s, Run(w, PullNamed(cs[i..], CommonDependencies, workDir)))
         == Then(pulled, Run(w, PullNamed(cs[i + 1..], CommonDependencies, workDir)))
      && (pulled.outcome.Raised? ==> Then(s, Run(w, PullNamed(cs[i..], CommonDependencies, workDir))) == pulled)
  {
    var c := cs[i];
    var rest := PullNamed(cs[i + 1..], CommonDependencies, workDir);
    assert cs[i..][0] == c && cs[i..][1..] == cs[i + 1..];
    if NamedIn(c, CommonDependencies) {
      var pull := PullPluginRepo(c, workDir);
      assert PullNamed(cs[i..], CommonDependencies, workDir) == [pull] + rest;
      assert ([pull] + rest)[0] == pull && ([pull] + rest)[1..] == rest;
      RunFirst(w, s, [pull] + rest);
    } else {
      assert PullNamed(cs[i..], CommonDependencies, workDir) == [] + rest;
      assert [] + rest == rest;
    }
  }

  /** `sync_maven_dependencies(component, work_dir, manifest_build_ver)`.
      The commands are added up from strings, so a version that is not a
      string raises `TypeError` as soon as the first command is formed, and
      a component name that is not one when the first `mv` is. The exit
      status of every command is ignored. */
  function SyncMaven(c: BundleManifests.Component, workDir: string, version: Value): (r: Step)
    ensures r.outcome.Ok? <==> version.Str? && c.name.Str?
    ensures r.outcome.Raised? ==> r.outcome.fault == NotAString(if version.Str? then c.name else version)
    ensures forall e :: e in r.events ==> !Fallible(e)
  {
    var first := [ChangeDir(workDir + "/opensearch")];
    if !version.Str? then Step(Raised(NotAString(version)), first)
    else
      var v := version.s;
      var upToMove := first + [Shell(DepsCommand(workDir, "opensearch", v)),
        ChangeDir(workDir + "/common-utils"), Shell(DepsCommand(workDir, "common-utils", v)),
        ChangeDir(workDir)];
      if !c.name.Str? then Step(Raised(NotAString(c.name)), upToMove)
      else
        var name := c.name.s;
        Step(Ok, upToMove + [Shell("mv -v job-scheduler " + name),
          ChangeDir(workDir + "/" + name + "/job-scheduler"), Shell(DepsCommand(workDir, "job-scheduler", v)),
          ChangeDir(workDir), Shell("mv alerting notifications"),
          ChangeDir(workDir + "/" + "/notifications"), Shell(DepsCommand(workDir, "alerting", v))])
  }

  /** The commands of the shell events of `ev`, in order. */
  function Commands(ev: seq<Event>): (r: seq<string>)
    ensures |r| <= |ev|
    decreases |ev|
  {
    if |ev| == 0 then [] else (if ev[0].Shell? then [ev[0].command] else []) + Commands(ev[1..])
  }

  /** `cmd` runs the dependency script below `work_dir` for `dependency`,
      and its last word is `version`. */
  predicate RunsScript(cmd: string, workDir: string, dependency: string, version: string)
  {
    IsPrefix(workDir + DepsScript + " " + dependency + " ", cmd) && IsSuffix(" " + version, cmd)
  }

  lemma DepsCommandRunsScript(workDir: string, dependency: string, version: string)
    ensures RunsScript(DepsCommand(workDir, dependency, version), workDir, dependency, version)
  {
    var head := workDir + DepsScript + " " + dependency;
    assert DepsCommand(workDir, dependency, version) == (head + " ") + version == head + (" " + version);
    PrefixOfConcat(head + " ", version);
    SuffixOfConcat(head, " " + version);
  }

  /** A completed sync alternates directory changes and commands, six of
      each, so every command runs right after a change of directory. The
      commands are, in order: the dependency script for opensearch, for
      common-utils, the move of job-scheduler under the component, the script
      for job-scheduler, the move of alerting to notifications and the
      script for alerting; every script run ends in the version. */
  lemma SyncMavenCommands(c: BundleManifests.Component, workDir: string, version: Value)
    requires version.Str? && c.name.Str?
    ensures var ev := SyncMaven(c, workDir, version).events;
      var cmds := Commands(ev);
      && |ev| == 12
      && (forall i :: 0 <= i < |ev| ==> (ev[i].Shell? <==> i % 2 == 1) && (ev[i].ChangeDir? <==> i % 2 == 0))
      && |cmds| == 6
      && RunsScript(cmds[0], workDir, "opensearch", version.s)
      && RunsScript(cmds[1], workDir, "common-utils", version.s)
      && cmds[2] == "mv -v job-scheduler " + c.name.s
      && RunsScript(cmds[3], workDir, "job-scheduler", version.s)
      && cmds[4] == "mv alerting notifications"
      && RunsScript(cmds[5], workDir, "alerting", version.s)
  {
    var v := version.s;
    var ev := SyncMaven(c, workDir, version).events;
    var scripts := [DepsCommand(workDir, "opensearch", v), DepsCommand(workDir, "common-utils", v),
                    "mv -v job-scheduler " + c.name.s, DepsCommand(workDir, "job-scheduler", v),
                    "mv alerting notifications", DepsCommand(workDir, "alerting", v)];
    assert forall i :: 0 <= i < |ev| && i % 2 == 1 ==> ev[i] == Shell(scripts[i / 2]);
    CommandsOfAlternation(ev, scripts);
    DepsCommandRunsScript(workDir, "opensearch", v);
    DepsCommandRunsScript(workDir, "common-utils", v);
    DepsCommandRunsScript(workDir, "job-scheduler", v);
    DepsCommandRunsScript(workDir, "alerting", v);
  }

  /** Directory changes alternating with the shell commands `cmds`. */
  lemma {:induction false} CommandsOfAlternation(ev: seq<Event>, cmds: seq<string>)
    requires |ev| == 2 * |cmds|
    requires forall i :: 0 <= i < |ev| && i % 2 == 0 ==> ev[i].ChangeDir?
    requires forall i :: 0 <= i < |ev| && i % 2 == 1 ==> ev[i] == Shell(cmds[i / 2])
    ensures Commands(ev) == cmds
    decreases |cmds|
  {
    if |cmds| > 0 {
      var rest := ev[2..];
      assert Commands(ev) == Commands(ev[1..]) && ev[1..][1..] == rest;
      assert forall i :: 0 <= i < |rest| && i % 2 == 1 ==> rest[i] == ev[i + 2] && (i + 2) / 2 == i / 2 + 1;
      CommandsOfAlternation(rest, cmds[1..]);
    }
  }

  // ------------------------------------------------- one suite in a cluster

  const ComponentLabel := "component name: "

  /** The rest of the `try` once the cluster is up: print the component's
      name (a `TypeError` when it is not a string), check its repository out
      at "main" into `work_dir/name`, and execute its suite against the
      cluster's endpoint and port. */
  function TestBody(heading: string, manifest: BundleManifests.BundleManifest, c: BundleManifests.Component,
      workDir: string, securityEnabled: bool, w: World): (r: Step)
    ensures !c.name.Str? ==> r == Step(Raised(NotAString(c.name)), [])
    ensures c.name.Str? ==>
      |r.events| >= 2 && r.events[0] == Message(heading + c.name.s)
      && r.events[1] == Checkout(c.repository, Str("main"), Under(workDir, c.name))
  {
    if !c.name.Str? then Step(Raised(NotAString(c.name)), [])
    else
      var repoDir := Under(workDir, c.name);
      Then(Step(Ok, [Message(heading + c.name.s)]),
           Then(Call(w, Checkout(c.repository, Str("main"), repoDir)),
                IntegTestSuites.Execute(IntegTestSuites.NewSuite(c, manifest), repoDir,
                                        LocalCluster.Endpoint, LocalCluster.Port, securityEnabled, w)))
  }

  /** What `create()` does to a cluster just constructed in `work_dir`. */
  function Created(manifest: BundleManifests.BundleManifest, workDir: string, securityEnabled: bool,
      s3Bucket: string, w: World): LocalCluster.Transition
  {
    LocalCluster.CreateSpec(PathJoin(workDir, LocalCluster.ClusterDirName), s3Bucket, manifest, securityEnabled,
                            LocalCluster.Fresh, w)
  }

  /** `try: create(); body finally: destroy()`. */
  function ClusterRun(heading: string, manifest: BundleManifests.BundleManifest, c: BundleManifests.Component,
      workDir: string, securityEnabled: bool, s3Bucket: string, w: World): Step
  {
    var created := Created(manifest, workDir, securityEnabled, s3Bucket, w);
    Finally(Then(created.step, TestBody(heading, manifest, c, workDir, securityEnabled, w)),
            LocalCluster.DestroySpec(created.after, w).step)
  }

  /** The destroy in the `finally` always runs, after everything else: it
      shuts down exactly the process `create()` started, when it started
      one, and otherwise only logs. The run succeeds exactly when creating,
      testing and shutting down all do. */
  lemma ClusterRunCleansUp(heading: string, manifest: BundleManifests.BundleManifest, c: BundleManifests.Component,
      workDir: string, securityEnabled: bool, s3Bucket: string, w: World)
    ensures var created := Created(manifest, workDir, securityEnabled, s3Bucket, w);
      var body := Then(created.step, TestBody(heading, manifest, c, workDir, securityEnabled, w));
      var r := ClusterRun(heading, manifest, c, workDir, securityEnabled, s3Bucket, w);
      && created.after.process in {LocalCluster.NoProcess, LocalCluster.Running(w.pid)}
      && (created.after.process.Running? ==>
            r.events == body.events + LocalCluster.Teardown(w.pid, w.exitsOnTerminate, w.exitsOnKill).events)
      && (created.after.process.NoProcess? ==> r.events == body.events + [Message(LocalCluster.NotStarted)])
      && (r.outcome.Ok? <==> body.outcome.Ok? && (created.after.process.NoProcess? || w.exitsOnTerminate || w.exitsOnKill))
  {
    var created := Created(manifest, workDir, securityEnabled, s3Bucket, w);
    LocalCluster.CreateStarts(PathJoin(workDir, LocalCluster.ClusterDirName), s3Bucket, manifest, securityEnabled,
                              LocalCluster.Fresh, w);
    LocalCluster.TeardownSignals(w.pid, w.exitsOnTerminate, w.exitsOnKill);
  }

  /** `run_component_integ_tests(manifest, component, work_dir)`, with the
      cluster's security setting and bucket passed in. */
  method RunComponentIntegTests(w: World, manifest: BundleManifests.BundleManifest, c: BundleManifests.Component,
      workDir: string, securityEnabled: bool, s3Bucket: string) returns (s: Step)
    ensures s == ClusterRun(ComponentLabel, manifest, c, workDir, securityEnabled, s3Bucket, w)
  {
    s := RunInCluster(ComponentLabel, w, manifest, c, workDir, securityEnabled, s3Bucket);
  }

  /** Creating the cluster inside the `try`, testing, and destroying it in
      the `finally`. */
  method RunInCluster(heading: string, w: World, manifest: BundleManifests.BundleManifest, c: BundleManifests.Component,
      workDir: string, securityEnabled: bool, s3Bucket: string) returns (s: Step)
    ensures s == ClusterRun(heading, manifest, c, workDir, securityEnabled, s3Bucket, w)
  {
    var cluster := new LocalCluster.LocalTestCluster(workDir, manifest, securityEnabled, s3Bucket);
    var body := cluster.Create(w);
    if body.outcome.Ok? {
      var tested := Test(heading, w, manifest, c, workDir, securityEnabled);
      body := Then(body, tested);
    }
    var cleanup := cluster.Destroy(w);
    s := Finally(body, cleanup);
  }

  /** The statements of `TestBody`, one call at a time. */
  method Test(heading: string, w: World, manifest: BundleManifests.BundleManifest, c: BundleManifests.Component,
      workDir: string, securityEnabled: bool) returns (s: Step)
    ensures s == TestBody(heading, manifest, c, workDir, securityEnabled, w)
  {
    if !c.name.Str? {
      s := Step(Raised(NotAString(c.name)), []);
      return;
    }
    var printed := Step(Ok, [Message(heading + c.name.s)]);
    var repoDir := Under(workDir, c.name);
    var checkout := Call(w, Checkout(c.repository, Str("main"), repoDir));
    var executed := IntegTestSuites.Execute(IntegTestSuites.NewSuite(c, manifest), repoDir,
                                            LocalCluster.Endpoint, LocalCluster.Port, securityEnabled, w);
    ThenAssoc(printed, checkout, executed);
    s := Then(printed, checkout);
    if s.outcome.Raised? {
      return;
    }
    s := Then(s, executed);
  }

  // ------------------------------------------------------------ main

  /** One bundle component in `main`'s loop: a skip message, or the pull of
      its repository followed by the maven sync. */
  function Visit(w: World, c: BundleManifests.Component, workDir: string, version: Value): (r: Step)
    ensures !Supported(c) ==> r == Step(Ok, [Message(SkipMessage(c.name))])
    ensures Supported(c) ==>
      |r.events| >= 1 && r.events[0] == PullPluginRepo(c, workDir)
      && forall i :: 1 <= i < |r.events| ==> !Fallible(r.events[i])
    ensures Supported(c) && !w.succeeds(PullPluginRepo(c, workDir)) ==>
      r == Step(Raised(CallFailed(PullPluginRepo(c, workDir))), [PullPluginRepo(c, workDir)])
    ensures Supported(c) && w.succeeds(PullPluginRepo(c, workDir)) ==>
      && r.events == [PullPluginRepo(c, workDir)] + SyncMaven(c, workDir, version).events
      && r.outcome == SyncMaven(c, workDir, version).outcome
  {
    if !Supported(c) then Step(Ok, [Message(SkipMessage(c.name))])
    else Then(Call(w, PullPluginRepo(c, workDir)), SyncMaven(c, workDir, version))
  }

  function Visits(w: World, cs: seq<BundleManifests.Component>, workDir: string, version: Value): Step
    decreases |cs|
  {
    if |cs| == 0 then Done else Then(Visit(w, cs[0], workDir, version), Visits(w, cs[1..], workDir, version))
  }

  /** The body of `main`'s temporary-directory block. */
  function MainSpec(w: World, bundle: BundleManifests.BundleManifest, buildComponents: seq<BundleManifests.Component>,
      workDir: string): Step
  {
    Then(Step(Ok, [Message("Switching to temporary work_dir: " + workDir), ChangeDir(workDir)]),
         Then(Run(w, PullNamed(buildComponents, CommonDependencies, workDir)),
              Visits(w, bundle.components, workDir, bundle.build.version)))
  }

  /** `main()` from the temporary directory on, both manifests loaded. */
  method RunMain(w: World, bundle: BundleManifests.BundleManifest, buildComponents: seq<BundleManifests.Component>,
      workDir: string) returns (s: Step)
    ensures s == MainSpec(w, bundle, buildComponents, workDir)
  {
    s := Step(Ok, [Message("Switching to temporary work_dir: " + workDir), ChangeDir(workDir)]);
    var pulled := PullCommonDependencies(w, workDir, buildComponents);
    var visited := VisitAll(w, bundle.components, workDir, bundle.build.version);
    ThenAssoc(s, pulled, visited);
    s := Then(s, pulled);
    if s.outcome.Raised? {
      return;
    }
    s := Then(s, visited);
  }

  /** `main`'s loop over the bundle components `cs`. */
  method VisitAll(w: World, cs: seq<BundleManifests.Component>, workDir: string, version: Value) returns (s: Step)
    ensures s == Visits(w, cs, workDir, version)
  {
    s := Done;
    assert cs[0..] == cs;
    for i := 0 to |cs|
      invariant s.outcome.Ok?
      invariant Then(s, Visits(w, cs[i..], workDir, version)) == Visits(w, cs, workDir, version)
    {
      var c := cs[i];
      assert cs[i..][0] == c && cs[i..][1..] == cs[i + 1..];
      var one: Step;
      if !Supported(c) {
        one := Step(Ok, [Message(SkipMessage(c.name))]);
      } else {
        one := Call(w, PullPluginRepo(c, workDir));
        if one.outcome.Ok? {
          one := Then(one, SyncMaven(c, workDir, version));
        }
      }
      ThenAssoc(s, one, Visits(w, cs[i + 1..], workDir, version));
      s := Then(s, one);
      if s.outcome.Raised? {
        return;
      }
    }
    assert s.events + [] == s.events;
  }

  /** The visits keep manifest order. */
  lemma {:induction false} VisitsAppend(w: World, cs: seq<BundleManifests.Component>, ds: seq<BundleManifests.Component>,
      workDir: string, version: Value)
    ensures Visits(w, cs + ds, workDir, version) == Then(Visits(w, cs, workDir, version), Visits(w, ds, workDir, version))
    decreases |cs|
  {
    if |cs| == 0 {
      assert cs + ds == ds;
    } else {
      assert (cs + ds)[0] == cs[0] && (cs + ds)[1..] == cs[1..] + ds;
      VisitsAppend(w, cs[1..], ds, workDir, version);
      ThenAssoc(Visit(w, cs[0], workDir, version), Visits(w, cs[1..], workDir, version), Visits(w, ds, workDir, version));
    }
  }

  /** Only supported components are pulled: every checkout in the loop is
      of one; and when the loop completes, every supported component was
      pulled and every unsupported one reported as skipped. */
  lemma {:induction false} VisitsPullOnlySupported(w: World, cs: seq<BundleManifests.Component>, workDir: string, version: Value)
    ensures var r := Visits(w, cs, workDir, version);
      && (forall e :: e in r.events && e.Checkout? ==> exists c :: c in cs && Supported(c) && e == PullPluginRepo(c, workDir))
      && (r.outcome.Ok? ==> forall c :: c in cs ==>
            (Supported(c) ==> PullPluginRepo(c, workDir) in r.events) &&
            (!Supported(c) ==> Message(SkipMessage(c.name)) in r.events))
    decreases |cs|
  {
    if |cs| > 0 {
      var v := Visit(w, cs[0], workDir, version);
      var rest := Visits(w, cs[1..], workDir, version);
      VisitsPullOnlySupported(w, cs[1..], workDir, version);
      assert forall c :: c in cs[1..] ==> c in cs;
      assert forall c :: c in cs ==> c == cs[0] || c in cs[1..];
      forall e | e in v.events && e.Checkout?
        ensures Supported(cs[0]) && e == PullPluginRepo(cs[0], workDir)
      {
        if Supported(cs[0]) {
          var k :| 0 <= k < |v.events| && v.events[k] == e;
          assert k == 0;
        }
      }
    }
  }
}
