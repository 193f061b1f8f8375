/** Helpers shared by the integration-test drivers: the GitHub URL of an
    OpenSearch project repository, and checking a component out at the
    commit it was built from. */
module TestUtils {
  import opened Values
  import opened Text
  import opened Effects
  import BundleManifests

  const GitHubPrefix := "https://github.com/opensearch-project/"

  /** `get_dependency_repo(dep_name)`: the name sits between the fixed
      38-character prefix and ".git", so it can be read back. */
  function DependencyRepo(name: string): (r: string)
    ensures IsPrefix(GitHubPrefix, r) && IsSuffix(".git", r)
    ensures |r| == |name| + 42
    ensures r[38..|r| - 4] == name
  {
    var r := GitHubPrefix + name + ".git";
    assert r[38..|r| - 4] == name;
    r
  }

  /** Distinct names give distinct URLs. */
  lemma DependencyRepoInjective(a: string, b: string)
    requires DependencyRepo(a) == DependencyRepo(b)
    ensures a == b
  {
    var r := DependencyRepo(a);
    assert a == r[38..|r| - 4];
  }

  /** `pull_plugin_repo(component, work_dir)`: the component's repository
      at the commit that was built (not its `ref`), into `work_dir/name`. */
  function PullPluginRepo(c: BundleManifests.Component, workDir: string): (e: Event)
    ensures e.Checkout? && e.repository == c.repository && e.revision == c.commitId
    ensures e.into == Under(workDir, c.name)
  {
    Checkout(c.repository, c.commitId, Under(workDir, c.name))
  }

  /** `name in names` for a component name read from a manifest: only a
      string can equal one of the listed names. */
  predicate NamedIn(c: BundleManifests.Component, names: seq<string>)
  {
    c.name.Str? && c.name.s in names
  }

  /** The checkouts of `for c in cs: if c.name in names: pull(c)`, in the
      order of `cs`. */
  function PullNamed(cs: seq<BundleManifests.Component>, names: seq<string>, workDir: string): (r: seq<Event>)
    ensures |r| <= |cs|
    ensures forall i :: 0 <= i < |r| ==> r[i].Checkout?
    decreases |cs|
  {
    if |cs| == 0 then []
    else (if NamedIn(cs[0], names) then [PullPluginRepo(cs[0], workDir)] else []) + PullNamed(cs[1..], names, workDir)
  }

  /** Exactly the components named in `names` are pulled, each as
      `PullPluginRepo` does; none is pulled when none is named. */
  lemma {:induction false} PullNamedMembers(cs: seq<BundleManifests.Component>, names: seq<string>, workDir: string)
    ensures forall e :: e in PullNamed(cs, names, workDir) <==>
      exists c :: c in cs && NamedIn(c, names) && e == PullPluginRepo(c, workDir)
    ensures (forall c :: c in cs ==> !NamedIn(c, names)) ==> PullNamed(cs, names, workDir) == []
    decreases |cs|
  {
    if |cs| > 0 {
      PullNamedMembers(cs[1..], names, workDir);
      assert forall c :: c in cs[1..] ==> c in cs;
      assert forall c :: c in cs ==> c == cs[0] || c in cs[1..];
    }
  }

  /** The pulls keep manifest order: those for `cs + ds` are those for `cs`
      followed by those for `ds`. */
  lemma {:induction false} PullNamedAppend(cs: seq<BundleManifests.Component>, ds: seq<BundleManifests.Component>,
      names: seq<string>, workDir: string)
    ensures PullNamed(cs + ds, names, workDir) == PullNamed(cs, names, workDir) + PullNamed(ds, names, workDir)
    decreases |cs|
  {
    if |cs| == 0 {
      assert cs + ds == ds;
    } else {
      assert (cs + ds)[0] == cs[0] && (cs + ds)[1..] == cs[1..] + ds;
      PullNamedAppend(cs[1..], ds, names, workDir);
    }
  }
}
