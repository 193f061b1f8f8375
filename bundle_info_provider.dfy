/** The S3 layout of a build: where a bundle's tarball, its bundle manifest
    and its build manifest live for one (build id, version, architecture). */
module BundleInfo {
  import opened Text
  import BundleManifests

  /** "{root}/{version}/{build_id}/{architecture}/{file}". */
  function Location(root: string, buildId: string, version: string, architecture: string, file: string): string
  {
    root + "/" + version + "/" + buildId + "/" + architecture + "/" + file
  }

  /** `BundleInfoProvider.get_tarball_name`. */
  function TarballName(version: string, architecture: string): (r: string)
    ensures IsPrefix("opensearch-", r) && IsSuffix(".tar.gz", r) && |r| >= 18
    ensures r[11..|r| - 7] == version + "-linux-" + architecture
  {
    var r := "opensearch-" + version + "-linux-" + architecture + ".tar.gz";
    assert r[11..|r| - 7] == version + "-linux-" + architecture;
    r
  }

  /** `BundleInfoProvider.get_tarball_relative_location`: the tarball named
      by `TarballName`, under "bundles". */
  function TarballRelativeLocation(buildId: string, version: string, architecture: string): (r: string)
    ensures r == "bundles/" + version + "/" + buildId + "/" + architecture + "/" + TarballName(version, architecture)
  {
    Location("bundles", buildId, version, architecture, TarballName(version, architecture))
  }

  /** `BundleInfoProvider.get_bundle_manifest_relative_location`. */
  function BundleManifestRelativeLocation(buildId: string, version: string, architecture: string): (r: string)
    ensures IsPrefix("bundles/", r) && IsSuffix("/manifest.yml", r)
  {
    Location("bundles", buildId, version, architecture, "manifest.yml")
  }

  /** `BundleInfoProvider.get_build_manifest_relative_location`. */
  function BuildManifestRelativeLocation(buildId: string, version: string, architecture: string): (r: string)
    ensures IsPrefix("builds/", r) && IsSuffix("/manifest.yml", r)
  {
    Location("builds", buildId, version, architecture, "manifest.yml")
  }

  /** The two manifest locations differ only in their leading directory. */
  lemma ManifestLocationsDifferInRoot(buildId: string, version: string, architecture: string)
    ensures var bundle := BundleManifestRelativeLocation(buildId, version, architecture);
      var build := BuildManifestRelativeLocation(buildId, version, architecture);
      && bundle[|"bundles"|..] == build[|"builds"|..]
      && bundle != build
  {
    var tail := "/" + version + "/" + buildId + "/" + architecture + "/" + "manifest.yml";
    var bundle := BundleManifestRelativeLocation(buildId, version, architecture);
    var build := BuildManifestRelativeLocation(buildId, version, architecture);
    assert bundle == "bundles" + tail;
    assert build == "builds" + tail;
    assert bundle[6] != build[6];
  }

  /** The same formatters in the bundle manifest give the same paths. */
  lemma AgreesWithBundleManifest(buildId: string, version: string, architecture: string)
    ensures TarballName(version, architecture) == BundleManifests.TarballName(version, architecture)
    ensures TarballRelativeLocation(buildId, version, architecture)
         == BundleManifests.TarballRelativeLocation(buildId, version, architecture)
    ensures BundleManifestRelativeLocation(buildId, version, architecture)
         == BundleManifests.ManifestRelativeLocation(buildId, version, architecture)
  {
    var d := "bundles/" + version + "/" + buildId + "/" + architecture + "/";
    assert BundleManifestRelativeLocation(buildId, version, architecture) == d + "manifest.yml";
    assert BundleManifests.ManifestRelativeLocation(buildId, version, architecture) == d + "manifest.yml";
  }

  /** Splitting a location at its separators: when the three middle pieces
      hold no '/', equal locations under the same root have equal pieces. */
  lemma {:induction false} LocationInjective(root: string,
      buildId: string, version: string, architecture: string, file: string,
      buildId': string, version': string, architecture': string, file': string)
    requires '/' !in buildId && '/' !in version && '/' !in architecture
    requires '/' !in buildId' && '/' !in version' && '/' !in architecture'
    requires Location(root, buildId, version, architecture, file) == Location(root, buildId', version', architecture', file')
    ensures buildId == buildId' && version == version' && architecture == architecture' && file == file'
  {
    var l := Location(root, buildId, version, architecture, file);
    var l' := Location(root, buildId', version', architecture', file');
    var n := |root| + 1;
    var t1 := buildId + "/" + architecture + "/" + file;
    var t1' := buildId' + "/" + architecture' + "/" + file';
    assert l[n..] == version + ['/'] + t1;
    assert l'[n..] == version' + ['/'] + t1';
    CutAtFirst(version, t1, version', t1', '/');
    var t2 := architecture + "/" + file;
    var t2' := architecture' + "/" + file';
    assert t1 == buildId + ['/'] + t2;
    assert t1' == buildId' + ['/'] + t2';
    CutAtFirst(buildId, t2, buildId', t2', '/');
    assert t2 == architecture + ['/'] + file;
    assert t2' == architecture' + ['/'] + file';
    CutAtFirst(architecture, file, architecture', file', '/');
  }

  /** For arguments free of '/', distinct (build id, version, architecture)
      triples give distinct locations, for each of the three locations. */
  lemma LocationsInjective(buildId: string, version: string, architecture: string,
      buildId': string, version': string, architecture': string)
    requires '/' !in buildId && '/' !in version && '/' !in architecture
    requires '/' !in buildId' && '/' !in version' && '/' !in architecture'
    requires (buildId, version, architecture) != (buildId', version', architecture')
    ensures TarballRelativeLocation(buildId, version, architecture) != TarballRelativeLocation(buildId', version', architecture')
    ensures BundleManifestRelativeLocation(buildId, version, architecture) != BundleManifestRelativeLocation(buildId', version', architecture')
    ensures BuildManifestRelativeLocation(buildId, version, architecture) != BuildManifestRelativeLocation(buildId', version', architecture')
  {
    if TarballRelativeLocation(buildId, version, architecture) == TarballRelativeLocation(buildId', version', architecture') {
      LocationInjective("bundles", buildId, version, architecture, TarballName(version, architecture),
        buildId', version', architecture', TarballName(version', architecture'));
    }
    if BundleManifestRelativeLocation(buildId, version, architecture) == BundleManifestRelativeLocation(buildId', version', architecture') {
      LocationInjective("bundles", buildId, version, architecture, "manifest.yml", buildId', version', architecture', "manifest.yml");
    }
    if BuildManifestRelativeLocation(buildId, version, architecture) == BuildManifestRelativeLocation(buildId', version', architecture') {
      LocationInjective("builds", buildId, version, architecture, "manifest.yml", buildId', version', architecture', "manifest.yml");
    }
  }
}
