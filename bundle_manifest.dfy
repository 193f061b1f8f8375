/** The bundle manifest: an immutable view of the build that was assembled
    (its `build` section) and the components that went into it, loaded from
    YAML data and written back with `to_dict`, plus the relative S3 paths of
    a bundle's tarball and manifest. */
module BundleManifests {
  import opened Values
  import opened Text

  datatype Build = Build(name: Value, version: Value, architecture: Value, location: Value, id: Value)

  datatype Component = Component(name: Value, repository: Value, ref: Value, commitId: Value, location: Value)

  datatype BundleManifest = BundleManifest(build: Build, components: seq<Component>)

  /** The keys `Build.__init__` reads, in the order it reads them. */
  const BuildFields: seq<string> := ["name", "version", "architecture", "location", "id"]

  /** The keys `Component.__init__` reads, in the order it reads them. */
  const ComponentFields: seq<string> := ["name", "repository", "ref", "commit_id", "location"]

  /** The entries of a mapping under `keys`; anything else is left as it is. */
  function Restricted(v: Value, keys: set<string>): Value
  {
    if v.Dict? then Dict(Restrict(v.fields, keys)) else v
  }

  function RestrictedAll(vs: seq<Value>, keys: set<string>): (r: seq<Value>)
    ensures |r| == |vs| && forall i :: 0 <= i < |vs| ==> r[i] == Restricted(vs[i], keys)
  {
    seq(|vs|, i requires 0 <= i < |vs| => Restricted(vs[i], keys))
  }

  function BuildToDict(b: Build): Value
  {
    Dict(map["name" := b.name, "version" := b.version, "architecture" := b.architecture,
             "location" := b.location, "id" := b.id])
  }

  /** `BundleManifest.Build(data)`. It succeeds exactly when `data` is a
      mapping holding all five keys. */
  function BuildFrom(data: Value): (r: Result<Build, LoadError>)
    ensures r.Success? <==> data.Dict? && forall k :: k in BuildFields ==> k in data.fields
  {
    var name :- Get(data, "name");
    var version :- Get(data, "version");
    var architecture :- Get(data, "architecture");
    var location :- Get(data, "location");
    var id :- Get(data, "id");
    Success(Build(name, version, architecture, location, id))
  }

  /** A loaded build section writes back exactly the five entries of `data`
      it was read from. */
  lemma BuildWritesBack(data: Value)
    requires BuildFrom(data).Success?
    ensures BuildToDict(BuildFrom(data).value) == Restricted(data, set k | k in BuildFields)
  {
    assert BuildToDict(BuildFrom(data).value).fields == Restrict(data.fields, set k | k in BuildFields);
  }

  /** A build section that does not load raises `TypeError` when it is not a
      mapping, and otherwise the `KeyError` of the first key it lacks. */
  lemma BuildError(data: Value)
    requires BuildFrom(data).Failure?
    ensures BuildFrom(data).error ==
      (if data.Dict? then KeyError(BuildFields[FirstMissing(BuildFields, data.fields)]) else TypeError)
  {
  }

  function ComponentToDict(c: Component): Value
  {
    Dict(map["name" := c.name, "repository" := c.repository, "ref" := c.ref,
             "commit_id" := c.commitId, "location" := c.location])
  }

  /** `BundleManifest.Component(data)`: succeeds exactly when `data` is a
      mapping holding all five keys. */
  function ComponentFrom(data: Value): (r: Result<Component, LoadError>)
    ensures r.Success? <==> data.Dict? && forall k :: k in ComponentFields ==> k in data.fields
  {
    var name :- Get(data, "name");
    var repository :- Get(data, "repository");
    var ref :- Get(data, "ref");
    var commitId :- Get(data, "commit_id");
    var location :- Get(data, "location");
    Success(Component(name, repository, ref, commitId, location))
  }

  /** A loaded component writes back exactly the five entries of `data` it
      was read from. */
  lemma ComponentWritesBack(data: Value)
    requires ComponentFrom(data).Success?
    ensures ComponentToDict(ComponentFrom(data).value) == Restricted(data, set k | k in ComponentFields)
  {
    assert ComponentToDict(ComponentFrom(data).value).fields == Restrict(data.fields, set k | k in ComponentFields);
  }

  /** A component entry that does not load raises `TypeError` when it is not
      a mapping, and otherwise the `KeyError` of the first key it lacks. */
  lemma ComponentError(data: Value)
    requires ComponentFrom(data).Failure?
    ensures ComponentFrom(data).error ==
      (if data.Dict? then KeyError(ComponentFields[FirstMissing(ComponentFields, data.fields)]) else TypeError)
  {
  }

  /** `BundleManifest(data)`: the build section first, then every component
      entry in order. */
  function FromData(data: Value): (r: Result<BundleManifest, LoadError>)
  {
    var buildData :- Get(data, "build");
    var build :- BuildFrom(buildData);
    var componentsData :- Get(data, "components");
    var entries :- Entries(componentsData);
    var components :- LoadEach(entries, ComponentFrom);
    Success(BundleManifest(build, components))
  }

  function ComponentsToDict(cs: seq<Component>): (r: seq<Value>)
    ensures |r| == |cs| && forall i :: 0 <= i < |cs| ==> r[i] == ComponentToDict(cs[i])
  {
    seq(|cs|, i requires 0 <= i < |cs| => ComponentToDict(cs[i]))
  }

  /** `BundleManifest.to_dict()`: always schema version "1.0". */
  function ToDict(m: BundleManifest): Value
  {
    Dict(map["schema-version" := Str("1.0"), "build" := BuildToDict(m.build),
             "components" := List(ComponentsToDict(m.components))])
  }

  /** Loading what `to_dict` wrote gives the same manifest back. */
  lemma RoundTrip(m: BundleManifest)
    ensures FromData(ToDict(m)) == Success(m)
  {
    var d := ToDict(m);
    assert Get(d, "build") == Success(BuildToDict(m.build));
    assert BuildFrom(BuildToDict(m.build)) == Success(m.build);
    var entries := ComponentsToDict(m.components);
    assert Entries(d.fields["components"]) == Success(entries);
    forall i | 0 <= i < |entries| ensures ComponentFrom(entries[i]) == Success(m.components[i]) {
      var c := m.components[i];
      assert entries[i] == ComponentToDict(c);
    }
    var loaded := LoadEach(entries, ComponentFrom);
    assert loaded.Success?;
    assert loaded.value == m.components;
  }

  /** Loading and writing back reproduces the build section and every
      component field for field, in the order and number of the input list,
      and sets the schema version to "1.0". */
  lemma ToDictReproduces(data: Value)
    requires FromData(data).Success?
    ensures data.Dict? && "build" in data.fields && "components" in data.fields
    ensures var out := ToDict(FromData(data).value).fields;
      && out["schema-version"] == Str("1.0")
      && out["build"] == Restricted(data.fields["build"], set k | k in BuildFields)
      && var entries := Entries(data.fields["components"]).value;
         out["components"] == List(RestrictedAll(entries, set k | k in ComponentFields))
  {
    var m := FromData(data).value;
    FromDataParts(data);
    BuildWritesBack(data.fields["build"]);
    ComponentsWriteBack(Entries(data.fields["components"]).value, m.components);
  }

  /** A manifest that loads was read from a mapping whose build section and
      component entries each loaded. */
  lemma FromDataParts(data: Value)
    requires FromData(data).Success?
    ensures data.Dict? && "build" in data.fields && "components" in data.fields
    ensures BuildFrom(data.fields["build"]) == Success(FromData(data).value.build)
    ensures Entries(data.fields["components"]).Success?
    ensures LoadEach(Entries(data.fields["components"]).value, ComponentFrom) == Success(FromData(data).value.components)
  {
  }

  /** Component entries that loaded write back restricted to the five keys. */
  lemma ComponentsWriteBack(entries: seq<Value>, cs: seq<Component>)
    requires LoadEach(entries, ComponentFrom) == Success(cs)
    ensures ComponentsToDict(cs) == RestrictedAll(entries, set k | k in ComponentFields)
  {
    var written := ComponentsToDict(cs);
    var expected := RestrictedAll(entries, set k | k in ComponentFields);
    assert |written| == |cs| == |entries| == |expected|;
    forall i | 0 <= i < |entries| ensures written[i] == expected[i] {
      assert ComponentFrom(entries[i]).Success? && cs[i] == ComponentFrom(entries[i]).value;
      ComponentWritesBack(entries[i]);
      assert written[i] == ComponentToDict(cs[i]);
    }
    assert written == expected;
  }

  /** "bundles/{version}/{build_id}/{architecture}/", the directory both
      bundle paths live in. */
  function BundleDirectory(buildId: string, version: string, architecture: string): string
  {
    "bundles/" + version + "/" + buildId + "/" + architecture + "/"
  }

  /** `BundleManifest.get_tarball_name`. */
  function TarballName(version: string, architecture: string): (r: string)
    ensures IsPrefix("opensearch-", r) && IsSuffix(".tar.gz", r) && |r| >= 18
    ensures r[11..|r| - 7] == version + "-linux-" + architecture
  {
    var r := "opensearch-" + version + "-linux-" + architecture + ".tar.gz";
    assert r[11..|r| - 7] == version + "-linux-" + architecture;
    r
  }

  /** `BundleManifest.get_tarball_relative_location`: the tarball named by
      `TarballName` inside the bundle directory. */
  function TarballRelativeLocation(buildId: string, version: string, architecture: string): (r: string)
    ensures r == BundleDirectory(buildId, version, architecture) + TarballName(version, architecture)
  {
    "bundles/" + version + "/" + buildId + "/" + architecture + "/opensearch-" + version + "-linux-" + architecture + ".tar.gz"
  }

  /** `BundleManifest.get_bundle_manifest_relative_location`: "manifest.yml"
      inside the same bundle directory. */
  function ManifestRelativeLocation(buildId: string, version: string, architecture: string): (r: string)
    ensures IsPrefix(BundleDirectory(buildId, version, architecture), r) && IsSuffix("manifest.yml", r)
    ensures r[|BundleDirectory(buildId, version, architecture)|..] == "manifest.yml"
  {
    "bundles/" + version + "/" + buildId + "/" + architecture + "/manifest.yml"
  }
}
