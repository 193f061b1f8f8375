/** An on-box test cluster: the bundle named in a bundle manifest is
    downloaded from S3 and unpacked, security is switched off unless asked
    for, OpenSearch is started as a child process and polled until its
    health turns green, and it is shut down by SIGTERM, then SIGKILL. */
module LocalCluster {
  import opened Values
  import opened Text
  import opened Urls
  import opened Effects
  import BundleManifests

  const ClusterDirName := "local-test-cluster"
  const StdoutName := "stdout.txt"
  const StderrName := "stderr.txt"
  const InstallScript := "./opensearch-tar-install.sh"
  const HealthPath := "/_cluster/health"
  /** `endpoint()` and `port()`. */
  const Endpoint := "localhost"
  const Port: nat := 9200
  /** The health poll: 10 attempts, 10 seconds apart. */
  const Attempts: nat := 10
  const RetryDelay: nat := 10
  /** Seconds `terminate_process` waits after each signal. */
  const WaitTimeout: nat := 10
  const GreenMarker := "\"status\":\"green\""
  const NotStarted := "Local test cluster is not started"

  /** A capture file for the child's output: not yet opened, open, closed. */
  datatype Stream = Unopened | Open | Closed

  datatype Process = NoProcess | Running(pid: int)

  datatype Option<T> = None | Some(value: T)

  /** The fields `create` sets and `terminate_process` clears. */
  datatype State = State(process: Process, stdout: Stream, stderr: Stream, installDir: Option<string>)

  /** A cluster just constructed: `process` is None, nothing opened yet. */
  const Fresh := State(NoProcess, Unopened, Unopened, None)

  /** A running process always has both capture files open; `create` opens
      them before it starts the process. */
  predicate Consistent(st: State)
  {
    st.process.Running? ==> st.stdout == Open && st.stderr == Open && st.installDir.Some?
  }

  /** What an operation did, and the fields it left behind. */
  datatype Transition = Transition(step: Step, after: State)

  // ---------------------------------------------------------------- url

  lemma PortText()
    ensures Decimal(Port) == "9200"
  {
    assert Decimal(9) == "9";
    assert Decimal(92) == "9" + "2";
    assert Decimal(920) == "92" + "0";
    assert Decimal(9200) == "920" + "0";
  }

  function Scheme(securityEnabled: bool): string
  {
    if securityEnabled then "https" else "http"
  }

  const Separator := "://"

  /** `url(path)`. */
  function Url(securityEnabled: bool, path: string): string
  {
    Scheme(securityEnabled) + Separator + Endpoint + ":" + Decimal(Port) + path
  }

  lemma SchemePrefixes(securityEnabled: bool, rest: string)
    requires IsPrefix(Separator, rest)
    ensures IsPrefix("https://", Scheme(securityEnabled) + rest) <==> securityEnabled
    ensures IsPrefix("http://", Scheme(securityEnabled) + rest) <==> !securityEnabled
  {
    var r := Scheme(securityEnabled) + rest;
    assert rest[..3] == Separator;
    if securityEnabled {
      assert r[..8] == "https" + Separator;
      assert r[4] != "http://"[4];
    } else {
      assert r[..7] == "http" + Separator;
      assert r[4] != "https://"[4];
    }
  }

  /** The URL is https exactly when security is enabled, http otherwise. */
  lemma UrlScheme(securityEnabled: bool, path: string)
    ensures IsPrefix("https://", Url(securityEnabled, path)) <==> securityEnabled
    ensures IsPrefix("http://", Url(securityEnabled, path)) <==> !securityEnabled
  {
    var tail := Endpoint + ":" + Decimal(Port) + path;
    PrefixOfConcat(Separator, tail);
    SchemePrefixes(securityEnabled, Separator + tail);
  }

  /** Always on localhost, port 9200, with `path` appended. */
  lemma UrlHost(securityEnabled: bool, path: string)
    ensures Url(securityEnabled, path) == Scheme(securityEnabled) + Separator + Endpoint + ":" + "9200" + path
  {
    PortText();
  }

  /** The path `urlparse` finds in the cluster's URL is the one it was
      formed with. */
  lemma UrlPathOfUrl(securityEnabled: bool, path: string)
    requires IsPrefix("/", path) && '#' !in path && '?' !in path
    ensures UrlPath(Url(securityEnabled, path)) == path
  {
    var scheme := Scheme(securityEnabled);
    var host := Endpoint + ":" + "9200";
    UrlHost(securityEnabled, path);
    assert forall i :: 0 <= i < |host| ==> !StartsPath(host[i]);
    assert Url(securityEnabled, path) == scheme + "://" + host + path;
    AbsoluteUrlPath(scheme, host, path);
  }

  // ----------------------------------------------------------- download

  /** The S3 key of the bundle: the location's URL path without its
      leading slashes. */
  function BundleKey(location: string): (r: string)
    ensures r == [] || r[0] != '/'
  {
    LStrip(UrlPath(location), '/')
  }

  /** The bundle's file name: the last '/'-separated piece of the URL path. */
  function BundleFileName(location: string): (r: string)
    ensures '/' !in r
  {
    AfterLast(UrlPath(location), '/')
  }

  /** The file name is the last piece of the key, so the file that is
      unpacked is the one that was downloaded. */
  lemma FileNameEndsKey(location: string)
    ensures BundleFileName(location) == AfterLast(BundleKey(location), '/')
    ensures IsSuffix(BundleFileName(location), BundleKey(location))
  {
    AfterLastOfLStrip(UrlPath(location), '/');
    AfterLastIsSuffix(BundleKey(location), '/');
  }

  /** A URL path of one '/' and a key that does not start with '/' gives
      back the key, and its last piece as the file name. */
  lemma KeyOfSlashedPath(u: string, key: string)
    requires UrlPath(u) == ['/'] + key && (key == [] || key[0] != '/')
    ensures BundleKey(u) == key && BundleFileName(u) == AfterLast(key, '/')
  {
    var path := ['/'] + key;
    assert path[1..] == key;
    assert LStrip(path, '/') == key;
    AfterLastOfLStrip(path, '/');
  }

  /** For an S3 URL "scheme://host/key", the key is read back exactly. */
  lemma S3UrlKey(scheme: string, host: string, key: string)
    requires |scheme| > 0 && IsAsciiLetter(scheme[0])
    requires forall i :: 0 <= i < |scheme| ==> IsSchemeChar(scheme[i])
    requires forall i :: 0 <= i < |host| ==> !StartsPath(host[i])
    requires '#' !in key && '?' !in key && (key == [] || key[0] != '/')
    ensures BundleKey(scheme + "://" + host + "/" + key) == key
    ensures BundleFileName(scheme + "://" + host + "/" + key) == AfterLast(key, '/')
  {
    var path := ['/'] + key;
    assert scheme + "://" + host + "/" + key == scheme + "://" + host + path;
    AbsoluteUrlPath(scheme, host, path);
    KeyOfSlashedPath(scheme + "://" + host + path, key);
  }

  lemma TarballNameIsPlain(version: string, architecture: string)
    requires PlainText(version) && PlainText(architecture) && '/' !in version && '/' !in architecture
    ensures var name := BundleManifests.TarballName(version, architecture);
      PlainText(name) && '/' !in name
  {
    assert PlainText("opensearch-") && '/' !in "opensearch-";
    assert PlainText("-linux-") && '/' !in "-linux-";
    assert PlainText(".tar.gz") && '/' !in ".tar.gz";
    PlainConcat("opensearch-", version);
    PlainConcat("opensearch-" + version, "-linux-");
    PlainConcat("opensearch-" + version + "-linux-", architecture);
    PlainConcat("opensearch-" + version + "-linux-" + architecture, ".tar.gz");
  }

  lemma TarballLocationIsPlain(buildId: string, version: string, architecture: string)
    requires PlainText(buildId) && PlainText(version) && PlainText(architecture)
    requires '/' !in version && '/' !in architecture
    ensures PlainText(BundleManifests.TarballRelativeLocation(buildId, version, architecture))
  {
    var name := BundleManifests.TarballName(version, architecture);
    TarballNameIsPlain(version, architecture);
    assert PlainText("bundles/") && PlainText("/");
    PlainConcat("bundles/", version);
    PlainConcat("bundles/" + version, "/");
    PlainConcat("bundles/" + version + "/", buildId);
    PlainConcat("bundles/" + version + "/" + buildId, "/");
    PlainConcat("bundles/" + version + "/" + buildId + "/", architecture);
    PlainConcat("bundles/" + version + "/" + buildId + "/" + architecture, "/");
    PlainConcat("bundles/" + version + "/" + buildId + "/" + architecture + "/", name);
  }

  /** A relative location free of `:`, `?` and `#` is its own key. */
  lemma RelativeLocationKey(u: string)
    requires PlainText(u) && u != [] && u[0] != '/'
    ensures BundleKey(u) == u && BundleFileName(u) == AfterLast(u, '/')
  {
    assert ':' !in u && '#' !in u && '?' !in u;
    assert !IsPrefix("//", u) by {
      if |u| >= 2 {
        assert u[..2][0] != "//"[0];
      }
    }
    RelativeLocationIsPath(u);
  }

  /** For the relative tarball location a bundle manifest records, the key
      is the location itself and the unpacked file is the tarball's name. */
  lemma TarballLocationKey(buildId: string, version: string, architecture: string)
    requires PlainText(buildId) && PlainText(version) && PlainText(architecture)
    requires '/' !in version && '/' !in architecture
    ensures var location := BundleManifests.TarballRelativeLocation(buildId, version, architecture);
      && BundleKey(location) == location
      && BundleFileName(location) == BundleManifests.TarballName(version, architecture)
  {
    var location := BundleManifests.TarballRelativeLocation(buildId, version, architecture);
    var name := BundleManifests.TarballName(version, architecture);
    var dir := BundleManifests.BundleDirectory(buildId, version, architecture);
    TarballLocationIsPlain(buildId, version, architecture);
    TarballNameIsPlain(version, architecture);
    assert location == dir + name;
    assert location[0] == dir[0] == 'b';
    RelativeLocationKey(location);
    assert location[|dir| - 1] == dir[|dir| - 1] == '/';
    AfterLastUnique(location, name, '/');
  }

  function UnpackCommand(bundleName: string): string
  {
    "tar -xzf " + bundleName
  }

  /** Fetching `key` from the bucket into the cluster directory and
      unpacking the file `name` there: the calls run in this order and the
      first that raises ends the download. */
  function Fetch(w: World, workDir: string, bucket: string, key: string, name: string): (r: Step)
    ensures r.events <= [ChangeDir(workDir), DownloadFile(bucket, key, workDir), CheckedShell(UnpackCommand(name))]
    ensures |r.events| >= 2
    ensures r.outcome.Ok? <==> w.succeeds(DownloadFile(bucket, key, workDir)) && w.succeeds(CheckedShell(UnpackCommand(name)))
  {
    Then(Step(Ok, [ChangeDir(workDir)]),
         Then(Call(w, DownloadFile(bucket, key, workDir)), Call(w, CheckedShell(UnpackCommand(name)))))
  }

  /** `download()`: change into the cluster directory, fetch the bundle's key
      from the bucket into it and unpack the downloaded file there. A
      location that is not a string cannot be parsed. */
  function DownloadSpec(w: World, workDir: string, bucket: string, location: Value): (r: Step)
    ensures !location.Str? ==> r == Step(Raised(BadLocation), [ChangeDir(workDir)])
    ensures location.Str? ==> r == Fetch(w, workDir, bucket, BundleKey(location.s), BundleFileName(location.s))
  {
    if !location.Str? then Step(Raised(BadLocation), [ChangeDir(workDir)])
    else Fetch(w, workDir, bucket, BundleKey(location.s), BundleFileName(location.s))
  }

  // ------------------------------------------------------------ install

  /** The directory the bundle unpacks into: "opensearch-{version}". */
  function InstallDirName(version: Value): (r: string)
    ensures IsPrefix("opensearch-", r) && r[11..] == StrOf(version)
  {
    "opensearch-" + StrOf(version)
  }

  const SecurityOffLine := "echo \"plugins.security.disabled: true\" >> "
  const ConfigDir := "config"
  const ConfigFile := "opensearch.yml"

  /** `disable_security(dir)`: append the setting to the installation's
      `config/opensearch.yml`. */
  function DisableSecurityCommand(dir: string): (r: string)
    ensures IsPrefix(SecurityOffLine, r)
  {
    var file := PathJoin(PathJoin(dir, ConfigDir), ConfigFile);
    PrefixOfConcat(SecurityOffLine, file);
    SecurityOffLine + file
  }

  /** For an install directory that does not end in '/' and is not empty,
      the file appended to is "{dir}/config/opensearch.yml". */
  lemma DisableSecurityTarget(dir: string)
    requires dir != [] && dir[|dir| - 1] != '/'
    ensures DisableSecurityCommand(dir) == SecurityOffLine + dir + "/" + ConfigDir + "/" + ConfigFile
  {
    PathJoinChild(dir, ConfigDir);
    var config := dir + "/" + ConfigDir;
    assert config[|config| - 1] == 'g';
    PathJoinChild(config, ConfigFile);
  }

  // ------------------------------------------------------- health poll

  /** A reply that ends the wait: status 200 with a green status in the body. */
  predicate Green(p: PollResult)
  {
    p.Reply? && p.status == 200 && Contains(p.body, GreenMarker)
  }

  /** A reply that stops the poll, for better or worse. A refused connection
      and any other reply are not decisive: the poll sleeps and retries. */
  predicate Decisive(p: PollResult)
  {
    Green(p) || p.RequestFailed?
  }

  /** The first attempt from `from` on whose answer is decisive, or `Attempts`. */
  function FirstDecisive(health: nat -> PollResult, from: nat): (k: nat)
    requires from <= Attempts
    ensures from <= k <= Attempts
    ensures forall j :: from <= j < k ==> !Decisive(health(j))
    ensures k < Attempts ==> Decisive(health(k))
    decreases Attempts - from
  {
    if from == Attempts || Decisive(health(from)) then from else FirstDecisive(health, from + 1)
  }

  /** An attempt preceded only by indecisive answers, and decisive itself
      unless it is past the last, is the first decisive one. */
  lemma FirstDecisiveAt(health: nat -> PollResult, a: nat)
    requires a <= Attempts
    requires forall j :: 0 <= j < a ==> !Decisive(health(j))
    requires a < Attempts ==> Decisive(health(a))
    ensures FirstDecisive(health, 0) == a
  {
  }

  /** `n` attempts that were not answered decisively: a request, then a sleep. */
  function Rounds(url: string, n: nat): (r: seq<Event>)
    ensures |r| == 2 * n
  {
    if n == 0 then [] else Rounds(url, n - 1) + [HealthRequest(url), Sleep(RetryDelay)]
  }

  function PollOutcome(health: nat -> PollResult, k: nat): Outcome
  {
    if k >= Attempts then Raised(ClusterNotGreen)
    else if Green(health(k)) then Ok
    else Raised(RequestError)
  }

  /** `wait_for_service()`: every attempt before the first decisive one is a
      request and a 10-second sleep; the decisive one is a request that
      returns (green) or raises (request error); with none, all ten attempts
      sleep and the cluster is reported not green. */
  function Poll(url: string, health: nat -> PollResult): Step
  {
    var k := FirstDecisive(health, 0);
    Step(PollOutcome(health, k), Rounds(url, k) + (if k < Attempts then [HealthRequest(url)] else []))
  }

  predicate IsHealthRequest(e: Event) { e.HealthRequest? }

  predicate IsSleep(e: Event) { e.Sleep? }

  lemma {:induction false} RoundsCount(url: string, n: nat)
    ensures Count(Rounds(url, n), IsHealthRequest) == n
    ensures Count(Rounds(url, n), IsSleep) == n
  {
    if n > 0 {
      var pair := [HealthRequest(url), Sleep(RetryDelay)];
      RoundsCount(url, n - 1);
      CountAppend(Rounds(url, n - 1), pair, IsHealthRequest);
      CountAppend(Rounds(url, n - 1), pair, IsSleep);
      assert pair[1..] == [Sleep(RetryDelay)];
    }
  }

  lemma {:induction false} RoundsKinds(url: string, n: nat)
    ensures forall e :: e in Rounds(url, n) ==> e == HealthRequest(url) || e == Sleep(RetryDelay)
  {
    if n > 0 {
      RoundsKinds(url, n - 1);
    }
  }

  /** The poll returns exactly when the first decisive answer is green,
      raises the request's error exactly when that answer is a failed
      request, and raises "not green" exactly when no answer among the
      ten was decisive, after ten requests and ten sleeps. */
  lemma PollOutcomes(url: string, health: nat -> PollResult)
    ensures var r := Poll(url, health);
      var k := FirstDecisive(health, 0);
      && (r.outcome.Ok? <==> k < Attempts && Green(health(k)))
      && (r.outcome == Raised(RequestError) <==> k < Attempts && health(k).RequestFailed?)
      && (r.outcome == Raised(ClusterNotGreen) <==> k == Attempts)
      && (r.outcome == Raised(ClusterNotGreen) ==> r.events == Rounds(url, Attempts))
  {
    var k := FirstDecisive(health, 0);
    if k == Attempts {
      assert Rounds(url, k) + [] == Rounds(url, k);
    }
  }

  /** The poll asks at most ten times, once more than it sleeps unless it
      gave up, and sleeps once per indecisive answer. */
  lemma PollCounts(url: string, health: nat -> PollResult)
    ensures var r := Poll(url, health);
      var k := FirstDecisive(health, 0);
      && Count(r.events, IsHealthRequest) == (if k < Attempts then k + 1 else Attempts)
      && Count(r.events, IsSleep) == k
      && Count(r.events, IsHealthRequest) <= Attempts
  {
    var k := FirstDecisive(health, 0);
    var tail: seq<Event> := if k < Attempts then [HealthRequest(url)] else [];
    RoundsCount(url, k);
    CountAppend(Rounds(url, k), tail, IsHealthRequest);
    CountAppend(Rounds(url, k), tail, IsSleep);
  }

  /** The poll does nothing but ask the health endpoint and sleep. */
  lemma PollEvents(url: string, health: nat -> PollResult)
    ensures forall e :: e in Poll(url, health).events ==> e == HealthRequest(url) || e == Sleep(RetryDelay)
  {
    RoundsKinds(url, FirstDecisive(health, 0));
  }

  // ----------------------------------------------------------- shutdown

  predicate IsTerminate(e: Event) { e.Terminate? }

  predicate IsKill(e: Event) { e.Kill? }

  /** `terminate_process()`: SIGTERM and a 10-second wait; if the process
      outlives it, SIGKILL and another wait, whose timeout is re-raised;
      in every case both capture files are closed last. */
  function Teardown(pid: int, exitsOnTerminate: bool, exitsOnKill: bool): Step
  {
    var graceful := [Terminate(pid), WaitFor(pid, WaitTimeout)];
    var forceful := if exitsOnTerminate then [] else [Kill(pid), WaitFor(pid, WaitTimeout)];
    var close := [CloseFile(StdoutName), CloseFile(StderrName)];
    Step(if exitsOnTerminate || exitsOnKill then Ok else Raised(TimeoutExpired), graceful + forceful + close)
  }

  /** One SIGTERM, sent first; SIGKILL at most once and only when the first
      wait timed out; both files closed last on every path; the timeout
      escapes exactly when the process survives SIGKILL too. */
  lemma TeardownSignals(pid: int, exitsOnTerminate: bool, exitsOnKill: bool)
    ensures var r := Teardown(pid, exitsOnTerminate, exitsOnKill);
      && |r.events| >= 4
      && r.events[0] == Terminate(pid)
      && Count(r.events, IsTerminate) == 1
      && Count(r.events, IsKill) == (if exitsOnTerminate then 0 else 1)
      && (Kill(pid) in r.events <==> !exitsOnTerminate)
      && r.events[|r.events| - 2..] == [CloseFile(StdoutName), CloseFile(StderrName)]
      && (r.outcome.Raised? <==> !exitsOnTerminate && !exitsOnKill)
      && (r.outcome.Raised? ==> r.outcome.fault == TimeoutExpired)
  {
    var graceful := [Terminate(pid), WaitFor(pid, WaitTimeout)];
    var forceful: seq<Event> := if exitsOnTerminate then [] else [Kill(pid), WaitFor(pid, WaitTimeout)];
    var close := [CloseFile(StdoutName), CloseFile(StderrName)];
    CountAppend(graceful + forceful, close, IsTerminate);
    CountAppend(graceful, forceful, IsTerminate);
    CountAppend(graceful + forceful, close, IsKill);
    CountAppend(graceful, forceful, IsKill);
    assert graceful[1..] == [WaitFor(pid, WaitTimeout)];
    assert close[1..] == [CloseFile(StderrName)];
    if !exitsOnTerminate {
      assert forceful[1..] == [WaitFor(pid, WaitTimeout)];
    }
  }

  /** `destroy()`: a cluster without a process only logs that it was never
      started; otherwise the process is shut down and forgotten. */
  function DestroySpec(st: State, w: World): (r: Transition)
    ensures r.after.process == NoProcess
    ensures Consistent(r.after)
  {
    if st.process.NoProcess? then Transition(Step(Ok, [Message(NotStarted)]), st)
    else Transition(Teardown(st.process.pid, w.exitsOnTerminate, w.exitsOnKill),
                    st.(process := NoProcess, stdout := Closed, stderr := Closed))
  }

  /** Destroying a cluster that has no process sends no signal and touches
      no file; in particular a fresh cluster, and one already destroyed. */
  lemma DestroyWithoutProcess(st: State, w: World)
    requires st.process.NoProcess?
    ensures DestroySpec(st, w) == Transition(Step(Ok, [Message(NotStarted)]), st)
    ensures DestroySpec(Fresh, w).after == Fresh
  {
  }

  /** A second `destroy()` does nothing but log. */
  lemma DestroyIdempotent(st: State, w: World)
    ensures var once := DestroySpec(st, w).after;
      DestroySpec(once, w) == Transition(Step(Ok, [Message(NotStarted)]), once)
  {
  }

  /** Whatever the process does, destroying a started cluster closes both
      files, clears the process and leaves the install directory alone. */
  lemma DestroyCleansUp(st: State, w: World)
    requires st.process.Running?
    ensures var r := DestroySpec(st, w);
      && r.after == State(NoProcess, Closed, Closed, st.installDir)
      && r.step == Teardown(st.process.pid, w.exitsOnTerminate, w.exitsOnKill)
  {
  }

  // ------------------------------------------------------------- create

  /** The two capture files `create()` opens in the cluster directory. */
  const Opens := [OpenFile(StdoutName), OpenFile(StderrName)]

  /** Both capture files can be opened. */
  predicate CanOpen(w: World)
  {
    w.succeeds(OpenFile(StdoutName)) && w.succeeds(OpenFile(StderrName))
  }

  /** The rest of `create()`, given what the download and the health poll
      do. A failed download, or a first file that does not open, leaves the
      fields as they were; each capture file is set once it is open, the
      install directory once both are, before security is disabled (only
      when it is not enabled); the process is recorded once `Popen`
      returns and before the poll, so a poll that fails still leaves it to
      `destroy()`. */
  function AfterDownload(download: Step, dir: string, securityEnabled: bool, poll: Step, st: State, w: World): (r: Transition)
    ensures Consistent(st) ==> Consistent(r.after)
  {
    if download.outcome.Raised? then Transition(download, st)
    else
      var out := Then(download, Call(w, OpenFile(StdoutName)));
      if out.outcome.Raised? then Transition(out, st)
      else
        var err := Then(out, Call(w, OpenFile(StderrName)));
        if err.outcome.Raised? then Transition(err, st.(stdout := Open))
        else
          var prepared := st.(stdout := Open, stderr := Open, installDir := Some(dir));
          var secure := if securityEnabled then Done else Call(w, CheckedShell(DisableSecurityCommand(dir)));
          var setup := Then(err, secure);
          if setup.outcome.Raised? then Transition(setup, prepared)
          else
            var spawned := Then(setup, Call(w, Spawn(InstallScript, dir)));
            if spawned.outcome.Raised? then Transition(spawned, prepared)
            else Transition(Then(spawned, poll), prepared.(process := Running(w.pid)))
  }

  /** `create()`: download, then the rest, polling the health URL. */
  function CreateSpec(workDir: string, bucket: string, manifest: BundleManifests.BundleManifest,
      securityEnabled: bool, st: State, w: World): (r: Transition)
    ensures Consistent(st) ==> Consistent(r.after)
  {
    AfterDownload(DownloadSpec(w, workDir, bucket, manifest.build.location), InstallDirName(manifest.build.version),
                  securityEnabled, Poll(Url(securityEnabled, HealthPath), w.health), st, w)
  }

  /** The process is started exactly when the download, opening both
      files, the switch-off (when security is off) and `Popen` succeed, and
      is otherwise left as it was; a start that fails raises. Each capture
      file is recorded exactly when it and every call before it succeeded,
      the install directory exactly when both files ready. A started
      cluster did, in order: the download, opening both files, the
      switch-off when security is off, the start from `dir`, the poll; and
      `create()` returns only if the poll does, with both files open. */
  lemma AfterDownloadStarts(download: Step, dir: string, securityEnabled: bool, poll: Step, st: State, w: World)
    ensures var r := AfterDownload(download, dir, securityEnabled, poll, st, w);
      var switchOff := CheckedShell(DisableSecurityCommand(dir));
      var ready := download.outcome.Ok? && CanOpen(w);
      var starts := ready && (securityEnabled || w.succeeds(switchOff)) && w.succeeds(Spawn(InstallScript, dir));
      && r.after.process == (if starts then Running(w.pid) else st.process)
      && r.after.stdout == (if download.outcome.Ok? && w.succeeds(OpenFile(StdoutName)) then Open else st.stdout)
      && r.after.stderr == (if ready then Open else st.stderr)
      && r.after.installDir == (if ready then Some(dir) else st.installDir)
      && (!starts ==> r.step.outcome.Raised?)
      && (starts ==> r.step == Step(poll.outcome,
            download.events + Opens + (if securityEnabled then [] else [switchOff]) + [Spawn(InstallScript, dir)] + poll.events))
      && (r.step.outcome.Ok? ==> starts && poll.outcome.Ok? && r.after == State(Running(w.pid), Open, Open, Some(dir)))
  {
  }

  /** The process is started exactly when the download, opening both
      capture files, the security switch-off (without security) and
      `Popen` all succeed (otherwise it is left as it was); it then runs from "opensearch-{version}" with both files
      open; `create()` returns only after a green health reply. */
  lemma CreateStarts(workDir: string, bucket: string, manifest: BundleManifests.BundleManifest,
      securityEnabled: bool, st: State, w: World)
    ensures var r := CreateSpec(workDir, bucket, manifest, securityEnabled, st, w);
      var dir := InstallDirName(manifest.build.version);
      var starts := DownloadSpec(w, workDir, bucket, manifest.build.location).outcome.Ok? && CanOpen(w)
           && (securityEnabled || w.succeeds(CheckedShell(DisableSecurityCommand(dir))))
           && w.succeeds(Spawn(InstallScript, dir));
      && r.after.process == (if starts then Running(w.pid) else st.process)
      && (r.step.outcome.Ok? ==>
           && r.after == State(Running(w.pid), Open, Open, Some(dir))
           && exists k :: 0 <= k < Attempts && Green(w.health(k)))
  {
    var url := Url(securityEnabled, HealthPath);
    var download := DownloadSpec(w, workDir, bucket, manifest.build.location);
    var dir := InstallDirName(manifest.build.version);
    var poll := Poll(url, w.health);
    AfterDownloadStarts(download, dir, securityEnabled, poll, st, w);
    PollOutcomes(url, w.health);
    if AfterDownload(download, dir, securityEnabled, poll, st, w).step.outcome.Ok? {
      var k := FirstDecisive(w.health, 0);
      assert 0 <= k < Attempts && Green(w.health(k));
    }
  }

  /** The switch-off command starts with "echo", the unpacking one with "tar". */
  lemma SwitchOffIsNotUnpack(dir: string, name: string)
    ensures DisableSecurityCommand(dir) != UnpackCommand(name)
  {
    assert DisableSecurityCommand(dir)[0] == SecurityOffLine[0] == 'e';
    assert UnpackCommand(name)[0] == 't';
  }

  /** The only shell command a fetch runs is the unpacking one. */
  lemma FetchRunsOnlyUnpack(w: World, workDir: string, bucket: string, key: string, name: string, command: string)
    requires command != UnpackCommand(name)
    ensures CheckedShell(command) !in Fetch(w, workDir, bucket, key, name).events
  {
    var get := DownloadFile(bucket, key, workDir);
    if w.succeeds(get) {
      assert Fetch(w, workDir, bucket, key, name).events == [ChangeDir(workDir), get, CheckedShell(UnpackCommand(name))];
    } else {
      assert Fetch(w, workDir, bucket, key, name).events == [ChangeDir(workDir), get];
    }
  }

  /** The download runs no shell command but the unpacking one, so it never
      switches security off. */
  lemma DownloadRunsOnlyUnpack(w: World, workDir: string, bucket: string, location: Value, dir: string)
    ensures CheckedShell(DisableSecurityCommand(dir)) !in DownloadSpec(w, workDir, bucket, location).events
  {
    if location.Str? {
      var name := BundleFileName(location.s);
      SwitchOffIsNotUnpack(dir, name);
      FetchRunsOnlyUnpack(w, workDir, bucket, BundleKey(location.s), name, DisableSecurityCommand(dir));
    }
  }

  /** The security switch-off runs exactly when security is not enabled,
      the download succeeded and both capture files opened, as long as
      neither the download nor the poll runs that command themselves. */
  lemma AfterDownloadGate(download: Step, dir: string, securityEnabled: bool, poll: Step, st: State, w: World)
    requires CheckedShell(DisableSecurityCommand(dir)) !in download.events
    requires CheckedShell(DisableSecurityCommand(dir)) !in poll.events
    ensures var r := AfterDownload(download, dir, securityEnabled, poll, st, w);
      CheckedShell(DisableSecurityCommand(dir)) in r.step.events <==> !securityEnabled && download.outcome.Ok? && CanOpen(w)
  {
    var switchOff := CheckedShell(DisableSecurityCommand(dir));
    if download.outcome.Ok? {
      var out := Then(download, Call(w, OpenFile(StdoutName)));
      var err := Then(out, Call(w, OpenFile(StderrName)));
      if err.outcome.Ok? {
        var secure := if securityEnabled then Done else Call(w, switchOff);
        var setup := Then(err, secure);
        assert setup.events == download.events + Opens + secure.events;
        assert switchOff in setup.events <==> !securityEnabled;
        if setup.outcome.Ok? {
          var spawned := Then(setup, Call(w, Spawn(InstallScript, dir)));
          assert spawned.events == setup.events + [Spawn(InstallScript, dir)];
          if spawned.outcome.Ok? {
            var r := AfterDownload(download, dir, securityEnabled, poll, st, w);
            assert r.step.events == spawned.events + poll.events;
          }
        }
      } else if out.outcome.Ok? {
        assert err.events == download.events + Opens;
      }
    }
  }

  /** Security is switched off, on "opensearch-{version}", exactly when it
      is not enabled, the bundle was downloaded and unpacked and both
      capture files opened. */
  lemma CreateSecurityGate(workDir: string, bucket: string, manifest: BundleManifests.BundleManifest,
      securityEnabled: bool, st: State, w: World)
    ensures var r := CreateSpec(workDir, bucket, manifest, securityEnabled, st, w);
      var switchOff := CheckedShell(DisableSecurityCommand(InstallDirName(manifest.build.version)));
      var downloaded := DownloadSpec(w, workDir, bucket, manifest.build.location).outcome.Ok?;
      switchOff in r.step.events <==> !securityEnabled && downloaded && CanOpen(w)
  {
    var download := DownloadSpec(w, workDir, bucket, manifest.build.location);
    var dir := InstallDirName(manifest.build.version);
    var url := Url(securityEnabled, HealthPath);
    DownloadRunsOnlyUnpack(w, workDir, bucket, manifest.build.location, dir);
    PollEvents(url, w.health);
    AfterDownloadGate(download, dir, securityEnabled, Poll(url, w.health), st, w);
  }

  /** A failed download changes nothing. */
  lemma CreateFailedDownload(workDir: string, bucket: string, manifest: BundleManifests.BundleManifest,
      securityEnabled: bool, st: State, w: World)
    requires DownloadSpec(w, workDir, bucket, manifest.build.location).outcome.Raised?
    ensures CreateSpec(workDir, bucket, manifest, securityEnabled, st, w)
         == Transition(DownloadSpec(w, workDir, bucket, manifest.build.location), st)
  {
  }

  // ------------------------------------------------------------ the class

  /** `LocalTestCluster`: the settings it is constructed with, and the
      fields `create` and `terminate_process` change. */
  class LocalTestCluster {
    const workDir: string
    const manifest: BundleManifests.BundleManifest
    const securityEnabled: bool
    const s3Bucket: string
    var process: Process
    var stdout: Stream
    var stderr: Stream
    var installDir: Option<string>

    function Snapshot(): State
      reads this
    {
      State(process, stdout, stderr, installDir)
    }

    predicate Valid()
      reads this
    {
      Consistent(Snapshot())
    }

    /** `LocalTestCluster(work_dir, bundle_manifest, security_enabled, s3_bucket)`:
        the cluster lives in `work_dir/local-test-cluster` and has no process. */
    constructor(workDir: string, manifest: BundleManifests.BundleManifest, securityEnabled: bool, s3Bucket: string)
      ensures this.workDir == PathJoin(workDir, ClusterDirName)
      ensures this.manifest == manifest && this.securityEnabled == securityEnabled && this.s3Bucket == s3Bucket
      ensures Snapshot() == Fresh && Valid()
    {
      this.workDir := PathJoin(workDir, ClusterDirName);
      this.manifest := manifest;
      this.securityEnabled := securityEnabled;
      this.s3Bucket := s3Bucket;
      process := NoProcess;
      stdout := Unopened;
      stderr := Unopened;
      installDir := None;
    }

    /** `download()`: the calls of `DownloadSpec`, key and file name read
        once from the parsed location. */
    method Download(w: World) returns (s: Step)
      ensures s == DownloadSpec(w, workDir, s3Bucket, manifest.build.location)
    {
      s := Step(Ok, [ChangeDir(workDir)]);
      if !manifest.build.location.Str? {
        s := Step(Raised(BadLocation), s.events);
        return;
      }
      var path := manifest.build.location.s;
      var key := BundleKey(path);
      var bundleName := BundleFileName(path);
      var fetch := Call(w, DownloadFile(s3Bucket, key, workDir));
      var unpack := Call(w, CheckedShell(UnpackCommand(bundleName)));
      ThenAssoc(s, fetch, unpack);
      s := Then(s, fetch);
      if s.outcome.Raised? {
        return;
      }
      s := Then(s, unpack);
    }

    /** `wait_for_service()`: at most ten requests to the health endpoint,
        each indecisive one followed by a sleep. */
    method WaitForService(w: World) returns (s: Step)
      ensures s == Poll(Url(securityEnabled, HealthPath), w.health)
    {
      var url := Url(securityEnabled, HealthPath);
      var events: seq<Event> := [];
      for attempt := 0 to Attempts
        invariant events == Rounds(url, attempt)
        invariant forall j :: 0 <= j < attempt ==> !Decisive(w.health(j))
      {
        events := events + [HealthRequest(url)];
        var answer := w.health(attempt);
        if answer.Reply? && answer.status == 200 && Contains(answer.body, GreenMarker) {
          FirstDecisiveAt(w.health, attempt);
          s := Step(Ok, events);
          return;
        }
        if answer.RequestFailed? {
          FirstDecisiveAt(w.health, attempt);
          s := Step(Raised(RequestError), events);
          return;
        }
        assert events + [Sleep(RetryDelay)] == Rounds(url, attempt) + [HealthRequest(url), Sleep(RetryDelay)];
        events := events + [Sleep(RetryDelay)];
      }
      FirstDecisiveAt(w.health, Attempts);
      assert events + [] == events;
      s := Step(Raised(ClusterNotGreen), events);
    }

    /** `create()`: the download, then the rest. */
    method Create(w: World) returns (s: Step)
      requires Valid()
      modifies this
      ensures Valid()
      ensures Transition(s, Snapshot()) == CreateSpec(workDir, s3Bucket, manifest, securityEnabled, old(Snapshot()), w)
    {
      s := Download(w);
      if s.outcome.Raised? {
        return;
      }
      s := Start(w, s);
    }

    /** `create()` after a download that succeeded: open the capture files,
        switch security off unless it is enabled, start the process from the
        install directory and wait for it to turn green. */
    method Start(w: World, download: Step) returns (s: Step)
      requires Valid() && download.outcome.Ok?
      modifies this
      ensures Valid()
      ensures Transition(s, Snapshot())
           == AfterDownload(download, InstallDirName(manifest.build.version), securityEnabled,
                            Poll(Url(securityEnabled, HealthPath), w.health), old(Snapshot()), w)
    {
      s := Then(download, Call(w, OpenFile(StdoutName)));
      if s.outcome.Raised? {
        return;
      }
      stdout := Open;
      s := Then(s, Call(w, OpenFile(StderrName)));
      if s.outcome.Raised? {
        return;
      }
      stderr := Open;
      var dir := InstallDirName(manifest.build.version);
      installDir := Some(dir);
      if !securityEnabled {
        s := Then(s, Call(w, CheckedShell(DisableSecurityCommand(dir))));
        if s.outcome.Raised? {
          return;
        }
      } else {
        s := Then(s, Done);
      }
      s := Then(s, Call(w, Spawn(InstallScript, dir)));
      if s.outcome.Raised? {
        return;
      }
      process := Running(w.pid);
      var poll := WaitForService(w);
      s := Then(s, poll);
    }

    method TerminateProcess(w: World) returns (s: Step)
      requires Valid() && process.Running?
      modifies this
      ensures s == Teardown(old(process).pid, w.exitsOnTerminate, w.exitsOnKill)
      ensures Snapshot() == State(NoProcess, Closed, Closed, old(installDir)) && Valid()
    {
      var pid := process.pid;
      var events := [Terminate(pid), WaitFor(pid, WaitTimeout)];
      var outcome := Ok;
      if !w.exitsOnTerminate {
        events := events + [Kill(pid), WaitFor(pid, WaitTimeout)];
        if !w.exitsOnKill {
          outcome := Raised(TimeoutExpired);
        }
      }
      stdout := Closed;
      stderr := Closed;
      events := events + [CloseFile(StdoutName), CloseFile(StderrName)];
      process := NoProcess;
      s := Step(outcome, events);
    }

    method Destroy(w: World) returns (s: Step)
      requires Valid()
      modifies this
      ensures Valid()
      ensures Transition(s, Snapshot()) == DestroySpec(old(Snapshot()), w)
    {
      if process.NoProcess? {
        s := Step(Ok, [Message(NotStarted)]);
        return;
      }
      s := TerminateProcess(w);
    }
  }

  /** A cluster that is created and then destroyed twice: the second
      `destroy()` only logs, whatever happened before. */
  method CreateAndDestroyTwice(w: World, workDir: string, manifest: BundleManifests.BundleManifest,
      securityEnabled: bool, s3Bucket: string) returns (second: Step)
    ensures second == Step(Ok, [Message(NotStarted)])
  {
    var cluster := new LocalTestCluster(workDir, manifest, securityEnabled, s3Bucket);
    var created := cluster.Create(w);
    var first := cluster.Destroy(w);
    second := cluster.Destroy(w);
  }
}
