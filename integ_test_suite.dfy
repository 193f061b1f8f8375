/** One component's integration-test suite: find the component's
    integration-test script in its checked-out repository and run it against
    a running cluster, or report that there is none. */
module IntegTestSuites {
  import opened Values
  import opened Text
  import opened Effects
  import BundleManifests

  datatype IntegTestSuite = IntegTestSuite(name: Value, repository: Value, bundleManifest: BundleManifests.BundleManifest)

  /** `IntegTestSuite(component, bundle_manifest, script_finder)`: the suite
      is named after the component and remembers its repository. */
  function NewSuite(c: BundleManifests.Component, m: BundleManifests.BundleManifest): (s: IntegTestSuite)
    ensures s.name == c.name && s.repository == c.repository && s.bundleManifest == m
  {
    IntegTestSuite(c.name, c.repository, m)
  }

  /** "{script} -b {endpoint} -p {port} -s {security, lower-cased}". */
  function TestCommand(script: string, endpoint: string, port: nat, security: bool): string
  {
    Join([script, "-b", endpoint, "-p", Decimal(port), "-s", BoolFlag(security)], ' ')
  }

  function SkipMessage(script: string, name: Value): (r: string)
    ensures IsPrefix(script, r) && IsSuffix(StrOf(name), r)
  {
    script + " does not exist. Skipping integ tests for " + StrOf(name)
  }

  /** `IntegTestSuite.execute(cluster, security)`: only the cluster's endpoint
      and port are read. Exactly one thing happens: the test command runs in
      the repository when the script found for the suite's name exists, and
      a message naming the script and the component is printed when it does
      not; no other call is made, and only a failing test command raises. */
  function Execute(suite: IntegTestSuite, repoDir: Dir, endpoint: string, port: nat, security: bool, w: World): (r: Step)
    ensures var script := w.integTestScript(suite.name, repoDir);
      var run := RepoExecute(repoDir, TestCommand(script, endpoint, port, security));
      && |r.events| == 1
      && (r.events[0] == run <==> w.pathExists(script))
      && (!w.pathExists(script) ==> r == Step(Ok, [Message(SkipMessage(script, suite.name))]))
      && (r.outcome.Raised? <==> w.pathExists(script) && !w.succeeds(run))
      && (r.outcome.Raised? ==> r.outcome.fault == CallFailed(run))
  {
    var script := w.integTestScript(suite.name, repoDir);
    if w.pathExists(script) then Call(w, RepoExecute(repoDir, TestCommand(script, endpoint, port, security)))
    else Step(Ok, [Message(SkipMessage(script, suite.name))])
  }

  /** The command holds exactly seven words when the script and endpoint
      hold no space, the flag among them being "true" or "false". */
  lemma TestCommandWords(script: string, endpoint: string, port: nat, security: bool)
    requires ' ' !in script && ' ' !in endpoint
    ensures Split(TestCommand(script, endpoint, port, security), ' ')
         == [script, "-b", endpoint, "-p", Decimal(port), "-s", if security then "true" else "false"]
  {
    var words := [script, "-b", endpoint, "-p", Decimal(port), "-s", BoolFlag(security)];
    assert ' ' !in Decimal(port) by {
      var d := Decimal(port);
      forall i | 0 <= i < |d| ensures d[i] != ' ' {
        assert '0' <= d[i] <= '9';
      }
    }
    forall i | 0 <= i < |words| ensures ' ' !in words[i] {
    }
    SplitJoin(words, ' ');
  }
}
