/** The first test driver, a script: one cluster is created, every bundle
    component is checked out at its built commit and its suite executed
    against that cluster, and the cluster is destroyed in a `finally` that
    only covers the loop. */
module PythonTest {
  import opened Values
  import opened Text
  import opened Effects
  import opened TestUtils
  import BundleManifests
  import LocalCluster
  import IntegTestSuites
  import IntegTests

  /** One round of the loop: print the name, check the repository out at
      the built commit into `work_dir/name`, execute the suite there. A
      name that is not a string is printed, and then `os.path.join` raises
      a `TypeError` before anything is checked out. */
  function TestOne(w: World, manifest: BundleManifests.BundleManifest, c: BundleManifests.Component,
      workDir: string, securityEnabled: bool): (r: Step)
    ensures |r.events| >= 1 && r.events[0] == Message(StrOf(c.name))
    ensures !c.name.Str? ==> r == Step(Raised(NotAString(c.name)), [Message(StrOf(c.name))])
    ensures c.name.Str? ==> |r.events| >= 2 && r.events[1] == PullPluginRepo(c, workDir)
  {
    Then(Step(Ok, [Message(StrOf(c.name))]),
         if !c.name.Str? then Step(Raised(NotAString(c.name)), [])
         else Then(Call(w, PullPluginRepo(c, workDir)),
                   IntegTestSuites.Execute(IntegTestSuites.NewSuite(c, manifest), Under(workDir, c.name),
                                           LocalCluster.Endpoint, LocalCluster.Port, securityEnabled, w)))
  }

  /** The loop over `cs`, in order, ending at the first round that raises. */
  function TestAll(w: World, manifest: BundleManifests.BundleManifest, cs: seq<BundleManifests.Component>,
      workDir: string, securityEnabled: bool): Step
    decreases |cs|
  {
    if |cs| == 0 then Done
    else Then(TestOne(w, manifest, cs[0], workDir, securityEnabled), TestAll(w, manifest, cs[1..], workDir, securityEnabled))
  }

  /** The script from the temporary directory on: `create()` outside the
      `try`, the loop inside it, `destroy()` in its `finally`. */
  function ScriptSpec(w: World, manifest: BundleManifests.BundleManifest, workDir: string, securityEnabled: bool,
      s3Bucket: string): Step
  {
    Around(IntegTests.Created(manifest, workDir, securityEnabled, s3Bucket, w),
           TestAll(w, manifest, manifest.components, workDir, securityEnabled), workDir, w)
  }

  /** Changing to `work_dir`, then what `create()` did, then the loop with
      `destroy()` in its `finally`. */
  function Around(created: LocalCluster.Transition, loop: Step, workDir: string, w: World): Step
  {
    Then(Step(Ok, [ChangeDir(workDir)]), Then(created.step, Finally(loop, LocalCluster.DestroySpec(created.after, w).step)))
  }

  /** `Around` for a `create()` that leaves the process running whenever it
      returns. */
  lemma AroundShape(created: LocalCluster.Transition, loop: Step, workDir: string, w: World)
    requires created.step.outcome.Ok? ==> created.after.process == LocalCluster.Running(w.pid)
    ensures var teardown := LocalCluster.Teardown(w.pid, w.exitsOnTerminate, w.exitsOnKill);
      var r := Around(created, loop, workDir, w);
      && (created.step.outcome.Raised? ==> r == Step(created.step.outcome, [ChangeDir(workDir)] + created.step.events))
      && (created.step.outcome.Ok? ==>
            && r.events == [ChangeDir(workDir)] + created.step.events + loop.events + teardown.events
            && r.outcome == (if teardown.outcome.Raised? then teardown.outcome else loop.outcome))
  {
    if created.step.outcome.Ok? {
      LocalCluster.DestroyCleansUp(created.after, w);
    }
  }

  method Script(w: World, manifest: BundleManifests.BundleManifest, workDir: string, securityEnabled: bool,
      s3Bucket: string) returns (s: Step)
    ensures s == ScriptSpec(w, manifest, workDir, securityEnabled, s3Bucket)
  {
    s := Step(Ok, [ChangeDir(workDir)]);
    var cluster := new LocalCluster.LocalTestCluster(workDir, manifest, securityEnabled, s3Bucket);
    var created := cluster.Create(w);
    s := Then(s, created);
    if s.outcome.Raised? {
      return;
    }
    var tested := TestComponents(w, manifest, manifest.components, workDir, securityEnabled);
    var destroyed := cluster.Destroy(w);
    ThenAssoc(Step(Ok, [ChangeDir(workDir)]), created, Finally(tested, destroyed));
    s := Then(s, Finally(tested, destroyed));
  }

  /** The loop of the script over `cs`. */
  method TestComponents(w: World, manifest: BundleManifests.BundleManifest, cs: seq<BundleManifests.Component>,
      workDir: string, securityEnabled: bool) returns (s: Step)
    ensures s == TestAll(w, manifest, cs, workDir, securityEnabled)
  {
    s := Done;
    assert cs[0..] == cs;
    for i := 0 to |cs|
      invariant s.outcome.Ok?
      invariant Then(s, TestAll(w, manifest, cs[i..], workDir, securityEnabled)) == TestAll(w, manifest, cs, workDir, securityEnabled)
    {
      var c := cs[i];
      assert cs[i..][0] == c && cs[i..][1..] == cs[i + 1..];
      var printed := Step(Ok, [Message(StrOf(c.name))]);
      var joined: Step;
      if !c.name.Str? {
        joined := Step(Raised(NotAString(c.name)), []);
      } else {
        joined := Call(w, PullPluginRepo(c, workDir));
        if joined.outcome.Ok? {
          var executed := IntegTestSuites.Execute(IntegTestSuites.NewSuite(c, manifest), Under(workDir, c.name),
                                                  LocalCluster.Endpoint, LocalCluster.Port, securityEnabled, w);
          joined := Then(joined, executed);
        }
      }
      var one := Then(printed, joined);
      ThenAssoc(s, one, TestAll(w, manifest, cs[i + 1..], workDir, securityEnabled));
      s := Then(s, one);
      if s.outcome.Raised? {
        return;
      }
    }
    assert s.events + [] == s.events;
  }

  /** A `create()` that raises is outside the `try`: the script stops there
      and `destroy()` is never called. Once it returns, the process it
      started is shut down after the loop, whether the loop completed or
      raised, and a shutdown that times out replaces the loop's outcome. */
  lemma CreateOutsideTry(w: World, manifest: BundleManifests.BundleManifest, workDir: string, securityEnabled: bool,
      s3Bucket: string)
    ensures var created := IntegTests.Created(manifest, workDir, securityEnabled, s3Bucket, w);
      var loop := TestAll(w, manifest, manifest.components, workDir, securityEnabled);
      var teardown := LocalCluster.Teardown(w.pid, w.exitsOnTerminate, w.exitsOnKill);
      var r := ScriptSpec(w, manifest, workDir, securityEnabled, s3Bucket);
      && (created.step.outcome.Raised? ==> r == Step(created.step.outcome, [ChangeDir(workDir)] + created.step.events))
      && (created.step.outcome.Ok? ==>
            && r.events == [ChangeDir(workDir)] + created.step.events + loop.events + teardown.events
            && r.outcome == (if teardown.outcome.Raised? then teardown.outcome else loop.outcome))
  {
    LocalCluster.CreateStarts(PathJoin(workDir, LocalCluster.ClusterDirName), s3Bucket, manifest, securityEnabled,
                              LocalCluster.Fresh, w);
    AroundShape(IntegTests.Created(manifest, workDir, securityEnabled, s3Bucket, w),
                TestAll(w, manifest, manifest.components, workDir, securityEnabled), workDir, w);
  }

  /** The rounds keep manifest order. */
  lemma {:induction false} TestAllAppend(w: World, manifest: BundleManifests.BundleManifest,
      cs: seq<BundleManifests.Component>, ds: seq<BundleManifests.Component>, workDir: string, securityEnabled: bool)
    ensures TestAll(w, manifest, cs + ds, workDir, securityEnabled)
         == Then(TestAll(w, manifest, cs, workDir, securityEnabled), TestAll(w, manifest, ds, workDir, securityEnabled))
    decreases |cs|
  {
    if |cs| == 0 {
      assert cs + ds == ds;
    } else {
      assert (cs + ds)[0] == cs[0] && (cs + ds)[1..] == cs[1..] + ds;
      TestAllAppend(w, manifest, cs[1..], ds, workDir, securityEnabled);
      ThenAssoc(TestOne(w, manifest, cs[0], workDir, securityEnabled), TestAll(w, manifest, cs[1..], workDir, securityEnabled),
                TestAll(w, manifest, ds, workDir, securityEnabled));
    }
  }

  /** There is no filter: a loop that completes met only string names,
      and printed and checked out every component at its built commit. */
  lemma {:induction false} TestAllCoversEvery(w: World, manifest: BundleManifests.BundleManifest,
      cs: seq<BundleManifests.Component>, workDir: string, securityEnabled: bool)
    ensures var r := TestAll(w, manifest, cs, workDir, securityEnabled);
      r.outcome.Ok? ==> forall c :: c in cs ==>
        c.name.Str? && Message(StrOf(c.name)) in r.events && PullPluginRepo(c, workDir) in r.events
    decreases |cs|
  {
    if |cs| > 0 {
      var one := TestOne(w, manifest, cs[0], workDir, securityEnabled);
      var rest := TestAll(w, manifest, cs[1..], workDir, securityEnabled);
      TestAllCoversEvery(w, manifest, cs[1..], workDir, securityEnabled);
      assert forall c :: c in cs ==> c == cs[0] || c in cs[1..];
      if one.outcome.Ok? {
        assert one.events[0] in one.events && one.events[1] in one.events;
      }
    }
  }
}
