/** The container lifecycle and scenario sequencing of
    tests/backwards_compatibility_tests/test_runner.py.

    The module-level set `containers_to_cleanup` is a field of a `Runner`,
    and so is the trace of every call the runner makes out of the file (to
    Docker through subprocess.run, to a test class's prepare, to pytest.main).
    Whether such a call succeeds is decided by the runner's `engine`, which
    sees the calls made so far and the new one; every property below holds
    for every engine. A raised exception is a `Fail` outcome that ends the
    enclosing steps early. The body of each `try` is a method of its own,
    which the scenario then follows with the statements of its `finally`
    block, whatever the outcome. */
module TestRunner {
  import opened Commands
  import opened Selection
  import opened Traces
  import opened Steps

  class Runner {
    /** Decides the outcome of every call the runner makes. */
    const engine: Engine
    /** BaseTestCase.__subclasses__(), in the order Python lists them. */
    const testClasses: seq<TestClass>
    /** The module-level `containers_to_cleanup`. */
    var containersToCleanup: set<string>
    /** Every call made so far, oldest first. */
    var trace: seq<Event>

    /** A name is only ever registered after a `docker run` of it succeeded. */
    ghost predicate Valid()
      reads this
    {
      containersToCleanup <= Started(engine, [], trace)
    }

    /** The state when the module is loaded: nothing registered, nothing issued. */
    constructor (engine: Engine, testClasses: seq<TestClass>)
      ensures Valid()
      ensures this.engine == engine && this.testClasses == testClasses
      ensures containersToCleanup == {} && trace == []
    {
      this.engine := engine;
      this.testClasses := testClasses;
      containersToCleanup := {};
      trace := [];
    }

    /** Makes one call out of the runner and reports whether it succeeded. */
    method Perform(e: Event) returns (ok: bool)
      requires Valid()
      modifies this`trace
      ensures Valid()
      ensures trace == old(trace) + [e]
      ensures ok == engine(old(trace), e)
    {
      ok := engine(trace, e);
      StartedAppend(engine, [], trace, [e]);
      assert [] + trace == trace;
      trace := trace + [e];
    }

    /** pull_marqo_image: one `docker pull`, failing exactly when it does. */
    method PullMarqoImage(image: string) returns (r: Outcome)
      requires Valid()
      modifies this`trace
      ensures Valid()
      ensures trace == old(trace) + [Docker(PullCommand(image))]
      ensures r == if engine(old(trace), Docker(PullCommand(image))) then Ok else Fail(PullFailed(image))
    {
      var ok := Perform(Docker(PullCommand(image)));
      r := if ok then Ok else Fail(PullFailed(image));
    }

    /** start_marqo_container: pull first; no run when the pull fails; the
        container is registered exactly when its run succeeds. */
    method StartMarqoContainer(version: string, image: Option<string>, transferState: Option<string>)
      returns (r: Outcome, ghost issued: seq<Event>)
      requires Valid()
      modifies this
      ensures Valid()
      ensures trace == old(trace) + issued
      ensures var s := StartEvents(version, image, transferState);
        if !engine(old(trace), s[0]) then
          issued == [s[0]] && r == Fail(PullFailed(ImageFor(version, image)))
        else
          issued == s && r == if engine(old(trace) + [s[0]], s[1]) then Ok else Fail(RunFailed(version))
      ensures Attempted(engine, old(trace), issued, StartEvents(version, image, transferState), r)
      ensures containersToCleanup == if r.Ok? then old(containersToCleanup) + {ContainerName(version)}
                                     else old(containersToCleanup)
      ensures containersToCleanup == old(containersToCleanup) + Started(engine, old(trace), issued)
    {
      var img := ImageFor(version, image);
      var containerName := ContainerName(version);
      ghost var s := StartEvents(version, image, transferState);
      StartAttempted(engine, trace, version, image, transferState);
      r := PullMarqoImage(img);
      issued := [s[0]];
      if r.Fail? {
        return;
      }
      var cmd := ["docker", "run", "-d", "--name", containerName, img];
      if Given(transferState) {
        cmd := cmd + ["--volumes-from", transferState.value];
      }
      assert cmd == RunCommand(containerName, img, transferState);
      ghost var before := trace;
      var ok := Perform(Docker(cmd));
      issued := s;
      StartedAppend(engine, [], before, [s[1]]);
      assert [] + before == before;
      if ok {
        containersToCleanup := containersToCleanup + {containerName};
        r := Ok;
      } else {
        r := Fail(RunFailed(version));
      }
    }

    /** stop_marqo_container: one `docker stop`; a failure is only a warning,
        and the registry is not touched. */
    method StopMarqoContainer(version: string)
      requires Valid()
      modifies this`trace
      ensures Valid()
      ensures trace == old(trace) + [Docker(StopCommand(ContainerName(version)))]
    {
      var ok := Perform(Docker(StopCommand(ContainerName(version))));
    }

    /** cleanup_containers: one `docker rm -f` per registered name, in the
        set's iteration order `order`, past any failure; then the registry is
        cleared. */
    method CleanupContainers() returns (ghost order: seq<string>)
      requires Valid()
      modifies this
      ensures Valid()
      ensures containersToCleanup == {}
      ensures NoDuplicates(order)
      ensures forall n :: n in order <==> n in old(containersToCleanup)
      ensures |order| == |old(containersToCleanup)|
      ensures trace == old(trace) + RemoveAll(order)
    {
      var pending := containersToCleanup;
      order := [];
      while pending != {}
        invariant Valid()
        invariant containersToCleanup == old(containersToCleanup)
        invariant pending <= containersToCleanup
        invariant forall n :: n in order <==> n in containersToCleanup && n !in pending
        invariant NoDuplicates(order)
        invariant |order| + |pending| == |containersToCleanup|
        invariant trace == old(trace) + RemoveAll(order)
        decreases pending
      {
        var name :| name in pending;
        var ok := Perform(Docker(RemoveCommand(name)));
        RemoveAllSnoc(old(trace), order, name);
        NoDuplicatesSnoc(order, name);
        order := order + [name];
        pending := pending - {name};
      }
      containersToCleanup := {};
    }

    /** The prepare branch of run_tests: the prepare step of each selected
        class in turn, stopping at the first that raises. */
    method PrepareSelected(fromVersion: string) returns (r: Outcome, ghost issued: seq<Event>)
      requires Valid()
      modifies this`trace
      ensures Valid()
      ensures trace == old(trace) + issued
      ensures Attempted(engine, old(trace), issued, PrepareEvents(SelectForPrepare(testClasses, fromVersion)), r)
      ensures r.Fail? ==> r.error.PrepareFailed? && issued != [] && issued[|issued| - 1] == Prepare(r.error.test)
    {
      issued := [];
      r := Ok;
      var tests := SelectForPrepare(testClasses, fromVersion);
      ghost var p := PrepareEvents(tests);
      var i := 0;
      while i < |tests| && r.Ok?
        invariant 0 <= i <= |tests|
        invariant Valid()
        invariant trace == old(trace) + issued
        invariant Attempted(engine, old(trace), issued, p[..i], r)
      {
        var e := Prepare(tests[i].name);
        ghost var done := issued;
        PrepareRaises(tests[i].name);
        var ok := Perform(e);
        r := if ok then Ok else Fail(PrepareFailed(tests[i].name));
        assert e == p[i];
        AttemptedNext(engine, old(trace), done, p, i, r);
        issued := issued + [p[i]];
        i := i + 1;
      }
      if r.Fail? {
        AttemptedStops(engine, old(trace), issued, p[..i], p[i..], r);
        assert p[..i] + p[i..] == p;
        AttemptedPrefix(engine, old(trace), issued, p, r);
        assert issued[|issued| - 1] == p[|issued| - 1];
      } else {
        assert p[..i] == p;
      }
    }

    /** The test branch of run_tests: one pytest run, whose exit status is
        not looked at. */
    method RunTestPhase(fromVersion: string, toVersion: string, marqoApi: string)
      returns (ghost issued: seq<Event>)
      requires Valid()
      modifies this`trace
      ensures Valid()
      ensures issued == [Pytest(PytestArgs(marqoApi, fromVersion, toVersion))]
      ensures trace == old(trace) + issued
    {
      var e := Pytest(PytestArgs(marqoApi, fromVersion, toVersion));
      var exitCode := Perform(e);
      issued := [e];
    }

    /** run_tests: in prepare mode, the prepare branch; in test mode, the
        test branch, which never raises; in any other mode, nothing. */
    method RunTests(mode: string, fromVersion: string, toVersion: string, marqoApi: string)
      returns (r: Outcome, ghost issued: seq<Event>)
      requires Valid()
      modifies this`trace
      ensures Valid()
      ensures trace == old(trace) + issued
      ensures mode == "prepare" ==>
        Attempted(engine, old(trace), issued, PrepareEvents(SelectForPrepare(testClasses, fromVersion)), r)
        && (r.Fail? ==> r.error.PrepareFailed? && issued != [] && issued[|issued| - 1] == Prepare(r.error.test))
      ensures mode == "test" ==> issued == [Pytest(PytestArgs(marqoApi, fromVersion, toVersion))] && r == Ok
      ensures mode != "prepare" && mode != "test" ==> issued == [] && r == Ok
    {
      if mode == "prepare" {
        r, issued := PrepareSelected(fromVersion);
      } else if mode == "test" {
        issued := RunTestPhase(fromVersion, toVersion, marqoApi);
        r := Ok;
      } else {
        issued := [];
        r := Ok;
      }
    }

    /** The first half of backwards_compatibility_test's try block: start
        the from-version container, then prepare. What gets registered is
        what the engine let `docker run` start; the from-version container is
        among it when both steps returned normally. */
    method LaunchAndPrepare(fromVersion: string, toVersion: string, fromImage: Option<string>)
      returns (r: Outcome, ghost issued: seq<Event>)
      requires Valid()
      modifies this
      ensures Valid()
      ensures trace == old(trace) + issued
      ensures Attempted(engine, old(trace), issued, LaunchEvents(fromVersion, fromImage, testClasses), r)
      ensures containersToCleanup == old(containersToCleanup) + Started(engine, old(trace), issued)
      ensures containersToCleanup <= old(containersToCleanup) + {ContainerName(fromVersion)}
      ensures r.Ok? ==> ContainerName(fromVersion) in containersToCleanup
    {
      ghost var t0 := trace;
      ghost var s1 := StartEvents(fromVersion, fromImage, None);
      ghost var p := PrepareEvents(SelectForPrepare(testClasses, fromVersion));
      r, issued := StartMarqoContainer(fromVersion, fromImage, None);
      if r.Ok? {
        ghost var prepared;
        r, prepared := RunTests("prepare", fromVersion, toVersion, MarqoApi);
        AttemptedThen(engine, t0, s1, s1, prepared, p, r);
        AppendAssociative(t0, s1, prepared);
        AttemptedPrefix(engine, t0 + s1, prepared, p, r);
        OtherEventsStartNothing(SelectForPrepare(testClasses, fromVersion), [], "", []);
        assert forall k | 0 <= k < |prepared| :: prepared[k] == p[k];
        StartedNone(engine, t0 + s1, prepared);
        StartedAppend(engine, t0, s1, prepared);
        issued := s1 + prepared;
      } else {
        AttemptedStops(engine, t0, issued, s1, p, r);
      }
    }

    /** The second half of the try block: stop the from-version container,
        start the to-version container with its volumes, then the test
        phase. What gets registered is what the engine let `docker run`
        start, the to-version container exactly when the start returned
        normally; the test phase never raises, so a failure leaves part of
        the intended calls unmade. */
    method TransferAndTest(fromVersion: string, toVersion: string, toImage: Option<string>)
      returns (r: Outcome, ghost issued: seq<Event>)
      requires Valid()
      modifies this
      ensures Valid()
      ensures trace == old(trace) + issued
      ensures Attempted(engine, old(trace), issued, TransferEvents(fromVersion, toVersion, toImage), r)
      ensures r.Fail? ==> |issued| < |TransferEvents(fromVersion, toVersion, toImage)|
      ensures containersToCleanup == old(containersToCleanup) + Started(engine, old(trace), issued)
      ensures containersToCleanup == if r.Ok? then old(containersToCleanup) + {ContainerName(toVersion)}
                                     else old(containersToCleanup)
    {
      ghost var t1 := trace;
      ghost var stop := [Docker(StopCommand(ContainerName(fromVersion)))];
      ghost var s := StartEvents(toVersion, toImage, Some(ContainerName(fromVersion)));
      ghost var py := [Pytest(PytestArgs(MarqoApi, fromVersion, toVersion))];
      StopMarqoContainer(fromVersion);
      QuietCalls(ContainerName(fromVersion), PytestArgs(MarqoApi, fromVersion, toVersion));
      OtherEventsStartNothing([], [], ContainerName(fromVersion), PytestArgs(MarqoApi, fromVersion, toVersion));
      QuietStep(engine, t1, stop[0]);
      StartedNone(engine, t1, stop);
      ghost var started;
      r, started := StartMarqoContainer(toVersion, toImage, Some(ContainerName(fromVersion)));
      AttemptedThen(engine, t1, stop, stop, started, s, r);
      AppendAssociative(t1, stop, started);
      StartedAppend(engine, t1, stop, started);
      issued := stop + started;
      if r.Fail? {
        AttemptedStops(engine, t1, issued, stop + s, py, r);
        return;
      }
      ghost var tested;
      r, tested := RunTests("test", fromVersion, toVersion, MarqoApi);
      QuietStep(engine, t1 + issued, py[0]);
      AttemptedThen(engine, t1, issued, stop + s, py, py, r);
      AppendAssociative(t1, issued, py);
      StartedNone(engine, t1 + issued, py);
      StartedAppend(engine, t1, issued, py);
      issued := issued + py;
    }

    /** The try block of backwards_compatibility_test: start the from-version
        container and prepare, then stop it, start the to-version container
        with its volumes and run the test phase. `body` is the intended
        upgrade up to the first step that raised, all of it exactly when none
        did. What gets registered is what the engine let `docker run` start
        in `body`, so only the two containers of the scenario, and both of
        them when every step returned normally. */
    method UpgradeSteps(fromVersion: string, toVersion: string,
                        fromImage: Option<string>, toImage: Option<string>)
      returns (r: Outcome, ghost body: seq<Event>)
      requires Valid()
      modifies this
      ensures Valid()
      ensures trace == old(trace) + body
      ensures Attempted(engine, old(trace), body, UpgradeBody(fromVersion, toVersion, fromImage, toImage, testClasses), r)
      ensures r.Fail? ==> |body| < |UpgradeBody(fromVersion, toVersion, fromImage, toImage, testClasses)|
      ensures containersToCleanup == old(containersToCleanup) + Started(engine, old(trace), body)
      ensures containersToCleanup <= old(containersToCleanup) + {ContainerName(fromVersion), ContainerName(toVersion)}
      ensures r.Ok? ==> ContainerName(fromVersion) in containersToCleanup && ContainerName(toVersion) in containersToCleanup
    {
      ghost var t0 := trace;
      ghost var launch := LaunchEvents(fromVersion, fromImage, testClasses);
      ghost var transfer := TransferEvents(fromVersion, toVersion, toImage);
      r, body := LaunchAndPrepare(fromVersion, toVersion, fromImage);
      if r.Fail? {
        AttemptedStops(engine, t0, body, launch, transfer, r);
        return;
      }
      AttemptedPrefix(engine, t0, body, launch, r);
      ghost var second;
      r, second := TransferAndTest(fromVersion, toVersion, toImage);
      AttemptedThen(engine, t0, body, launch, second, transfer, r);
      AppendAssociative(t0, body, second);
      StartedAppend(engine, t0, body, second);
      body := body + second;
    }

    /** backwards_compatibility_test. Whatever its try block did, the
        finally block then stops the to-version container and removes every
        registered container, once each and in the set's iteration order
        `order`, so the registry ends empty. The removed containers are those
        registered before and those whose `docker run` the try block got
        accepted. */
    method BackwardsCompatibilityTest(fromVersion: string, toVersion: string,
                                      fromImage: Option<string>, toImage: Option<string>)
      returns (r: Outcome, ghost body: seq<Event>, ghost order: seq<string>)
      requires Valid()
      modifies this
      ensures Valid()
      ensures containersToCleanup == {}
      ensures trace == old(trace) + WithFinally(body, toVersion, order)
      ensures Attempted(engine, old(trace), body, UpgradeBody(fromVersion, toVersion, fromImage, toImage, testClasses), r)
      ensures r.Fail? ==> |body| < |UpgradeBody(fromVersion, toVersion, fromImage, toImage, testClasses)|
      ensures NoDuplicates(order)
      ensures forall n :: n in order <==> n in old(containersToCleanup) || n in Started(engine, old(trace), body)
      ensures forall n :: n in order ==>
        n in old(containersToCleanup) || n == ContainerName(fromVersion) || n == ContainerName(toVersion)
      ensures r.Ok? ==> ContainerName(fromVersion) in order && ContainerName(toVersion) in order
      ensures StopBeforeTransfer(WithFinally(body, toVersion, order))
      ensures PullBeforeRun(WithFinally(body, toVersion, order))
    {
      ghost var t0 := trace;
      r, body := UpgradeSteps(fromVersion, toVersion, fromImage, toImage);
      StopMarqoContainer(toVersion);
      order := CleanupContainers();
      WithFinallyAfter(t0, body, toVersion, order);
      AttemptedPrefix(engine, t0, body, UpgradeBody(fromVersion, toVersion, fromImage, toImage, testClasses), r);
      UpgradeTraceOrdered(fromVersion, toVersion, fromImage, toImage, testClasses, body, order);
    }

    /** The steps of rollback_test's try block after the nested upgrade: stop
        the to-version container, start the from-version container with its
        volumes, run the test phase. What gets registered is what the engine
        let `docker run` start, the from-version container exactly when the
        steps all returned normally. */
    method RollbackSteps(fromVersion: string, toVersion: string, fromImage: Option<string>)
      returns (r: Outcome, ghost tail: seq<Event>)
      requires Valid()
      modifies this
      ensures Valid()
      ensures trace == old(trace) + tail
      ensures Attempted(engine, old(trace), tail, RollbackTail(fromVersion, toVersion, fromImage), r)
      ensures r.Fail? ==> |tail| < |RollbackTail(fromVersion, toVersion, fromImage)|
      ensures containersToCleanup == old(containersToCleanup) + Started(engine, old(trace), tail)
      ensures containersToCleanup == if r.Ok? then old(containersToCleanup) + {ContainerName(fromVersion)}
                                     else old(containersToCleanup)
    {
      ghost var t1 := trace;
      ghost var stopTo := [Docker(StopCommand(ContainerName(toVersion)))];
      ghost var s := StartEvents(fromVersion, fromImage, Some(ContainerName(toVersion)));
      ghost var py := [Pytest(PytestArgs(MarqoApi, fromVersion, toVersion))];
      assert RollbackTail(fromVersion, toVersion, fromImage) == stopTo + s + py;
      StopMarqoContainer(toVersion);
      QuietCalls(ContainerName(toVersion), PytestArgs(MarqoApi, fromVersion, toVersion));
      OtherEventsStartNothing([], [], ContainerName(toVersion), PytestArgs(MarqoApi, fromVersion, toVersion));
      QuietStep(engine, t1, stopTo[0]);
      StartedNone(engine, t1, stopTo);
      ghost var issued;
      r, issued := StartMarqoContainer(fromVersion, fromImage, Some(ContainerName(toVersion)));
      AttemptedThen(engine, t1, stopTo, stopTo, issued, s, r);
      AppendAssociative(t1, stopTo, issued);
      StartedAppend(engine, t1, stopTo, issued);
      tail := stopTo + issued;
      if r.Fail? {
        AttemptedStops(engine, t1, tail, stopTo + s, py, r);
        return;
      }
      ghost var tested;
      r, tested := RunTests("test", fromVersion, toVersion, MarqoApi);
      QuietStep(engine, t1 + tail, py[0]);
      AttemptedThen(engine, t1, tail, stopTo + s, py, py, r);
      AppendAssociative(t1, tail, py);
      StartedNone(engine, t1 + tail, py);
      StartedAppend(engine, t1, tail, py);
      tail := tail + py;
    }

    /** The try block of rollback_test: the whole upgrade scenario, whose
        outcome is `upgraded` (`upgrade` and `upgradeOrder` are its try block
        and cleanup order), and, only when that returned normally, the
        rollback steps `tail`. What stays registered is the from-version
        container, exactly when the rollback steps all returned normally. */
    method RollbackTry(fromVersion: string, toVersion: string,
                       fromImage: Option<string>, toImage: Option<string>)
      returns (r: Outcome, ghost upgraded: Outcome, ghost upgrade: seq<Event>,
               ghost upgradeOrder: seq<string>, ghost tail: seq<Event>)
      requires Valid()
      modifies this
      ensures Valid()
      ensures containersToCleanup == if r.Ok? then {ContainerName(fromVersion)} else {}
      ensures trace == old(trace) + WithFinally(upgrade, toVersion, upgradeOrder) + tail
      ensures Attempted(engine, old(trace), upgrade, UpgradeBody(fromVersion, toVersion, fromImage, toImage, testClasses), upgraded)
      ensures upgraded.Fail? ==> tail == [] && r == upgraded
      ensures upgraded.Ok? ==>
        Attempted(engine, old(trace) + WithFinally(upgrade, toVersion, upgradeOrder),
                  tail, RollbackTail(fromVersion, toVersion, fromImage), r)
      ensures tail <= RollbackTail(fromVersion, toVersion, fromImage)
      ensures NoDuplicates(upgradeOrder)
      ensures forall n :: n in upgradeOrder <==> n in old(containersToCleanup) || n in Started(engine, old(trace), upgrade)
      ensures forall n :: n in upgradeOrder ==>
        n in old(containersToCleanup) || n == ContainerName(fromVersion) || n == ContainerName(toVersion)
      ensures upgraded.Ok? ==> ContainerName(fromVersion) in upgradeOrder && ContainerName(toVersion) in upgradeOrder
      ensures StopBeforeTransfer(WithFinally(upgrade, toVersion, upgradeOrder))
      ensures PullBeforeRun(WithFinally(upgrade, toVersion, upgradeOrder))
    {
      tail := [];
      ghost var t0 := trace;
      r, upgrade, upgradeOrder := BackwardsCompatibilityTest(fromVersion, toVersion, fromImage, toImage);
      upgraded := r;
      if r.Ok? {
        r, tail := RollbackSteps(fromVersion, toVersion, fromImage);
        AttemptedPrefix(engine, t0 + WithFinally(upgrade, toVersion, upgradeOrder), tail,
                        RollbackTail(fromVersion, toVersion, fromImage), r);
      }
    }

    /** rollback_test: the try block, then the finally block, which stops the
        from-version container and removes what is registered, so the
        registry ends empty. The final cleanup removes the from-version
        container exactly when the rollback returned normally, and nothing
        else. */
    method RollbackTest(fromVersion: string, toVersion: string,
                        fromImage: Option<string>, toImage: Option<string>)
      returns (r: Outcome, ghost upgraded: Outcome, ghost upgrade: seq<Event>,
               ghost upgradeOrder: seq<string>, ghost tail: seq<Event>, ghost order: seq<string>)
      requires Valid()
      modifies this
      ensures Valid()
      ensures containersToCleanup == {}
      ensures trace == old(trace) + WithFinally(WithFinally(upgrade, toVersion, upgradeOrder) + tail, fromVersion, order)
      ensures Attempted(engine, old(trace), upgrade, UpgradeBody(fromVersion, toVersion, fromImage, toImage, testClasses), upgraded)
      ensures upgraded.Fail? ==> tail == [] && r == upgraded
      ensures upgraded.Ok? ==>
        Attempted(engine, old(trace) + WithFinally(upgrade, toVersion, upgradeOrder),
                  tail, RollbackTail(fromVersion, toVersion, fromImage), r)
      ensures NoDuplicates(upgradeOrder)
      ensures forall n :: n in upgradeOrder <==> n in old(containersToCleanup) || n in Started(engine, old(trace), upgrade)
      ensures forall n :: n in upgradeOrder ==>
        n in old(containersToCleanup) || n == ContainerName(fromVersion) || n == ContainerName(toVersion)
      ensures upgraded.Ok? ==> ContainerName(fromVersion) in upgradeOrder && ContainerName(toVersion) in upgradeOrder
      ensures order == if r.Ok? then [ContainerName(fromVersion)] else []
      ensures r.Ok? ==> trace == old(trace) + RollbackRun(fromVersion, toVersion, fromImage, toImage, testClasses,
                                                           upgradeOrder, [ContainerName(fromVersion)])
      ensures StopBeforeTransfer(WithFinally(WithFinally(upgrade, toVersion, upgradeOrder) + tail, fromVersion, order))
      ensures PullBeforeRun(WithFinally(WithFinally(upgrade, toVersion, upgradeOrder) + tail, fromVersion, order))
    {
      ghost var t0 := trace;
      r, upgraded, upgrade, upgradeOrder, tail := RollbackTry(fromVersion, toVersion, fromImage, toImage);
      ghost var registered := containersToCleanup;
      StopMarqoContainer(fromVersion);
      order := CleanupContainers();
      AppendAssociative(t0, WithFinally(upgrade, toVersion, upgradeOrder), tail);
      WithFinallyAfter(t0, WithFinally(upgrade, toVersion, upgradeOrder) + tail, fromVersion, order);
      ListingOfAtMostOne(order, registered, ContainerName(fromVersion));
      if r.Ok? {
        AttemptedPrefix(engine, t0, upgrade, UpgradeBody(fromVersion, toVersion, fromImage, toImage, testClasses), upgraded);
        AttemptedPrefix(engine, t0 + WithFinally(upgrade, toVersion, upgradeOrder), tail,
                        RollbackTail(fromVersion, toVersion, fromImage), r);
      }
      RollbackTraceOrdered(fromVersion, toVersion, fromImage, WithFinally(upgrade, toVersion, upgradeOrder), tail, order);
    }
  }
}
