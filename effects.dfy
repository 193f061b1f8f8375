/** The calls the workflow makes into collaborators it does not own (git,
    S3, the shell, the child process, the health endpoint, the build
    recorder), recorded as a trace of events, and the answers those
    collaborators give, gathered in a `World`. */
module Effects {
  import opened Values
  import opened Text

  /** A directory written as `os.path.join(root, name)`, kept unevaluated
      because `name` comes from a manifest, or an already formed path. */
  datatype Dir = Under(root: string, name: Value) | At(path: string)

  datatype Event =
    | Message(text: string)                                    // print(...) or logging.info(...)
    | ChangeDir(path: string)                                  // os.chdir(path)
    | Checkout(repository: Value, revision: Value, into: Dir)  // GitRepository(url, ref, dir)
    | RepoExecute(dir: Dir, command: string)                   // GitRepository.execute(command)
    | CheckedShell(command: string)                            // check_call / run(check=True), shell=True
    | DownloadFile(bucket: string, key: string, localDir: string)  // S3Bucket(bucket).download_file
    | OpenFile(name: string)                                   // open(name, "w")
    | CloseFile(name: string)                                  // file.close()
    | Spawn(command: string, cwd: string)                      // subprocess.Popen(command, cwd=cwd)
    | HealthRequest(url: string)                               // requests.get(url)
    | Sleep(seconds: nat)                                      // time.sleep(seconds)
    | Terminate(pid: int)                                      // process.terminate()
    | Kill(pid: int)                                           // process.kill()
    | WaitFor(pid: int, timeout: nat)                          // process.wait(timeout)
    | Shell(command: string)                                   // subprocess.run(command, shell=True), status ignored
    | ExecuteSuite(component: Value)                           // IntegTestSuite(...).execute()
    | RecordComponent(built: string, repoDir: string)          // build_recorder.record_component
    | RecordArtifact(builtBy: string, artifactType: string, relativePath: string, absolutePath: string)

  /** Calls that can raise: a checkout, a command run in a repository, a
      checked shell command, an S3 download, opening a file, starting a
      process and a component's suite. */
  predicate Fallible(e: Event)
  {
    e.Checkout? || e.RepoExecute? || e.CheckedShell? || e.DownloadFile? || e.OpenFile? || e.Spawn? || e.ExecuteSuite?
  }

  /** What the health endpoint answers to one request: the connection is
      refused (`ConnectionError`), some other request error is raised, or an
      HTTP reply arrives. */
  datatype PollResult = Refused | RequestFailed | Reply(status: int, body: string)

  /** The behaviour of everything outside the workflow, as inputs. */
  datatype World = World(
    succeeds: Event -> bool,                  // a fallible call completes without raising
    pid: int,                                 // the PID the started cluster gets
    health: nat -> PollResult,                // the answer to health request number n (from 0)
    exitsOnTerminate: bool,                   // the process exits within the wait after SIGTERM
    exitsOnKill: bool,                        // the process exits within the wait after SIGKILL
    integTestScript: (Value, Dir) -> string,  // ScriptFinder.find_integ_test_script
    buildScript: (string, string) -> string,  // ScriptFinder.find_build_script
    pathExists: string -> bool)               // os.path.exists

  predicate Completes(w: World, e: Event) { !Fallible(e) || w.succeeds(e) }

  /** An exception that escapes a step: a failed call, a bundle location
      that is not a string, a manifest that does not load, the cluster never
      turning green, a request error other than a refused connection, an
      unkillable process, a manifest value that is not a string added to a
      string (`TypeError`). */
  datatype Fault =
    | CallFailed(call: Event)
    | BadLocation
    | BadManifest(error: LoadError)
    | ClusterNotGreen
    | RequestError
    | TimeoutExpired
    | NotAString(value: Value)

  datatype Outcome = Ok | Raised(fault: Fault)

  /** How a step ended and what it did on the way. */
  datatype Step = Step(outcome: Outcome, events: seq<Event>)

  const Done := Step(Ok, [])

  /** Running `a` and then, unless `a` raised, `b`. */
  function Then(a: Step, b: Step): (r: Step)
    ensures a.outcome.Raised? ==> r == a
    ensures a.outcome.Ok? ==> r.outcome == b.outcome && r.events == a.events + b.events
  {
    if a.outcome.Raised? then a else Step(b.outcome, a.events + b.events)
  }

  lemma ThenAssoc(a: Step, b: Step, c: Step)
    ensures Then(Then(a, b), c) == Then(a, Then(b, c))
  {
    if a.outcome.Ok? && b.outcome.Ok? {
      assert (a.events + b.events) + c.events == a.events + (b.events + c.events);
    }
  }

  /** Three steps in a row: the second runs only after the first completed,
      the third only after the second did. */
  lemma ThenThenEvents(a: Step, b: Step, c: Step)
    ensures a.outcome.Raised? ==> Then(a, Then(b, c)) == a
    ensures a.outcome.Ok? ==>
      Then(a, Then(b, c)).events == a.events + b.events + (if b.outcome.Ok? then c.events else [])
  {
    if a.outcome.Ok? && b.outcome.Raised? {
      assert b.events + [] == b.events;
    }
  }

  /** `try: body finally: cleanup`: the cleanup always runs after the body;
      an exception it raises replaces the body's, otherwise the body's
      outcome stands. */
  function Finally(body: Step, cleanup: Step): (r: Step)
    ensures r.events == body.events + cleanup.events
    ensures cleanup.outcome.Raised? ==> r.outcome == cleanup.outcome
    ensures cleanup.outcome.Ok? ==> r.outcome == body.outcome
  {
    Step(if cleanup.outcome.Raised? then cleanup.outcome else body.outcome, body.events + cleanup.events)
  }

  /** One call, which raises when it is fallible and `w` says it fails. */
  function Call(w: World, e: Event): (r: Step)
    ensures r.events == [e]
    ensures r.outcome.Ok? <==> Completes(w, e)
  {
    if Completes(w, e) then Step(Ok, [e]) else Step(Raised(CallFailed(e)), [e])
  }

  /** The calls of `plan` in order, stopping at the first one that raises. */
  function Run(w: World, plan: seq<Event>): (r: Step)
    ensures r.events <= plan
    ensures r.outcome.Ok? <==> forall i :: 0 <= i < |plan| ==> Completes(w, plan[i])
    ensures r.outcome.Ok? ==> r.events == plan
    ensures r.outcome.Raised? ==>
      && |r.events| > 0
      && r.outcome.fault == CallFailed(r.events[|r.events| - 1])
      && !Completes(w, r.events[|r.events| - 1])
      && forall i :: 0 <= i < |r.events| - 1 ==> Completes(w, r.events[i])
    decreases |plan|
  {
    if |plan| == 0 then Done else Then(Call(w, plan[0]), Run(w, plan[1..]))
  }

  /** One more call of a plan run after `s`: if it raises, nothing after it runs. */
  lemma RunFirst(w: World, s: Step, plan: seq<Event>)
    requires |plan| > 0
    ensures Then(s, Run(w, plan)) == Then(Then(s, Call(w, plan[0])), Run(w, plan[1..]))
    ensures Then(s, Call(w, plan[0])).outcome.Raised? ==> Then(s, Run(w, plan)) == Then(s, Call(w, plan[0]))
  {
    ThenAssoc(s, Call(w, plan[0]), Run(w, plan[1..]));
  }

  /** Running two plans one after the other is running their concatenation. */
  lemma {:induction false} RunAppend(w: World, a: seq<Event>, b: seq<Event>)
    ensures Run(w, a + b) == Then(Run(w, a), Run(w, b))
    decreases |a|
  {
    if |a| == 0 {
      assert a + b == b;
    } else {
      assert (a + b)[0] == a[0] && (a + b)[1..] == a[1..] + b;
      RunAppend(w, a[1..], b);
      ThenAssoc(Call(w, a[0]), Run(w, a[1..]), Run(w, b));
    }
  }

  /** A plan without fallible calls always completes. */
  lemma RunInfallible(w: World, plan: seq<Event>)
    requires forall i :: 0 <= i < |plan| ==> !Fallible(plan[i])
    ensures Run(w, plan) == Step(Ok, plan)
  {
  }

  /** The number of events of `ev` that satisfy `p`. */
  function Count(ev: seq<Event>, p: Event -> bool): (n: nat)
    ensures n <= |ev|
    decreases |ev|
  {
    if |ev| == 0 then 0 else (if p(ev[0]) then 1 else 0) + Count(ev[1..], p)
  }

  lemma {:induction false} CountAppend(a: seq<Event>, b: seq<Event>, p: Event -> bool)
    ensures Count(a + b, p) == Count(a, p) + Count(b, p)
    decreases |a|
  {
    if |a| == 0 {
      assert a + b == b;
    } else {
      assert (a + b)[0] == a[0] && (a + b)[1..] == a[1..] + b;
      CountAppend(a[1..], b, p);
    }
  }
}
