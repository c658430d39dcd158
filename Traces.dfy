/** The sequences of calls the two scenarios of test_runner.py are meant to
    make, and two ordering rules every scenario trace obeys: a container that
    imports the volumes of another is only run after that other container
    was stopped, and every `docker run` directly follows the pull of its image. */
module Traces {
  import opened Commands
  import opened Selection

  /** The API address both scenarios hand to run_tests. */
  const MarqoApi := "http://localhost:8882"

  /** One `test().prepare()` per selected class, in list order. */
  function PrepareEvents(tests: seq<TestClass>): seq<Event> {
    seq(|tests|, k requires 0 <= k < |tests| => Prepare(tests[k].name))
  }

  /** One forced removal per name, in the given order. */
  function RemoveAll(names: seq<string>): seq<Event> {
    seq(|names|, k requires 0 <= k < |names| => Docker(RemoveCommand(names[k])))
  }

  /** What start_marqo_container issues when both of its calls are made:
      the pull, then the run. */
  function StartEvents(version: string, image: Option<string>, transferState: Option<string>): seq<Event> {
    [Docker(PullCommand(ImageFor(version, image))),
     Docker(RunCommand(ContainerName(version), ImageFor(version, image), transferState))]
  }

  /** The first half of the upgrade: start the from-version container, then
      prepare the selected classes. */
  function LaunchEvents(fromVersion: string, fromImage: Option<string>, classes: seq<TestClass>): seq<Event> {
    StartEvents(fromVersion, fromImage, None) + PrepareEvents(SelectForPrepare(classes, fromVersion))
  }

  /** The second half of the upgrade: stop the from-version container, start
      the to-version container with its volumes, then the test phase. */
  function TransferEvents(fromVersion: string, toVersion: string, toImage: Option<string>): seq<Event> {
    [Docker(StopCommand(ContainerName(fromVersion)))]
    + StartEvents(toVersion, toImage, Some(ContainerName(fromVersion)))
    + [Pytest(PytestArgs(MarqoApi, fromVersion, toVersion))]
  }

  /** The try block of backwards_compatibility_test when every step succeeds:
      the first half, then the second. */
  function UpgradeBody(fromVersion: string, toVersion: string, fromImage: Option<string>,
                       toImage: Option<string>, classes: seq<TestClass>): seq<Event>
  {
    LaunchEvents(fromVersion, fromImage, classes) + TransferEvents(fromVersion, toVersion, toImage)
  }

  /** The upgrade, call group by call group. */
  lemma UpgradeBodyPieces(fromVersion: string, toVersion: string, fromImage: Option<string>,
                          toImage: Option<string>, classes: seq<TestClass>)
    ensures UpgradeBody(fromVersion, toVersion, fromImage, toImage, classes)
         == StartEvents(fromVersion, fromImage, None) + PrepareEvents(SelectForPrepare(classes, fromVersion))
            + [Docker(StopCommand(ContainerName(fromVersion)))]
            + StartEvents(toVersion, toImage, Some(ContainerName(fromVersion)))
            + [Pytest(PytestArgs(MarqoApi, fromVersion, toVersion))]
  {
    var s1 := StartEvents(fromVersion, fromImage, None);
    var p := PrepareEvents(SelectForPrepare(classes, fromVersion));
    var stop := [Docker(StopCommand(ContainerName(fromVersion)))];
    var s2 := StartEvents(toVersion, toImage, Some(ContainerName(fromVersion)));
    var py := [Pytest(PytestArgs(MarqoApi, fromVersion, toVersion))];
    assert (s1 + p) + (stop + s2 + py) == s1 + p + stop + s2 + py;
  }

  lemma RemoveAllSnoc(t: seq<Event>, names: seq<string>, name: string)
    ensures t + RemoveAll(names) + [Docker(RemoveCommand(name))] == t + RemoveAll(names + [name])
  {
    assert RemoveAll(names + [name]) == RemoveAll(names) + [Docker(RemoveCommand(name))];
  }

  /** The steps of rollback_test after its nested upgrade, when all succeed. */
  function RollbackTail(fromVersion: string, toVersion: string, fromImage: Option<string>): seq<Event> {
    [Docker(StopCommand(ContainerName(toVersion)))]
    + StartEvents(fromVersion, fromImage, Some(ContainerName(toVersion)))
    + [Pytest(PytestArgs(MarqoApi, fromVersion, toVersion))]
  }

  /** A scenario's try block `body` followed by its finally block: the stop
      of the named version's container and the removals, in the order the
      registry was iterated. */
  function WithFinally(body: seq<Event>, version: string, order: seq<string>): seq<Event> {
    body + [Docker(StopCommand(ContainerName(version)))] + RemoveAll(order)
  }

  lemma AppendAssociative(a: seq<Event>, b: seq<Event>, c: seq<Event>)
    ensures a + b + c == a + (b + c)
  {
  }

  lemma WithFinallyAfter(t: seq<Event>, body: seq<Event>, version: string, order: seq<string>)
    ensures t + body + [Docker(StopCommand(ContainerName(version)))] + RemoveAll(order)
         == t + WithFinally(body, version, order)
  {
  }

  /** The whole of a successful rollback_test, given the orders in which the
      two cleanups remove their containers. */
  function RollbackRun(fromVersion: string, toVersion: string, fromImage: Option<string>,
                       toImage: Option<string>, classes: seq<TestClass>,
                       upgradeOrder: seq<string>, order: seq<string>): seq<Event>
  {
    WithFinally(WithFinally(UpgradeBody(fromVersion, toVersion, fromImage, toImage, classes), toVersion, upgradeOrder)
                + RollbackTail(fromVersion, toVersion, fromImage),
                fromVersion, order)
  }

  /** Every state transfer comes after a stop of the container it copies from. */
  ghost predicate StopBeforeTransfer(t: seq<Event>) {
    forall j | 0 <= j < |t| && IsTransfer(t[j]) :: Docker(StopCommand(t[j].args[7])) in t[..j]
  }

  /** Every `docker run` directly follows the pull of the image it runs. */
  ghost predicate PullBeforeRun(t: seq<Event>) {
    forall j | 0 <= j < |t| && IsStart(t[j]) :: 0 < j && t[j - 1] == Docker(PullCommand(t[j].args[5]))
  }

  function Count(t: seq<Event>, p: Event -> bool): nat
    decreases |t|
  {
    if t == [] then 0 else (if p(t[0]) then 1 else 0) + Count(t[1..], p)
  }

  lemma {:induction false} CountAppend(a: seq<Event>, b: seq<Event>, p: Event -> bool)
    ensures Count(a + b, p) == Count(a, p) + Count(b, p)
    decreases |a|
  {
    if a == [] {
      assert a + b == b;
    } else {
      assert (a + b)[0] == a[0];
      assert (a + b)[1..] == a[1..] + b;
      CountAppend(a[1..], b, p);
    }
  }

  lemma {:induction false} CountNone(t: seq<Event>, p: Event -> bool)
    requires forall k :: 0 <= k < |t| ==> !p(t[k])
    ensures Count(t, p) == 0
    decreases |t|
  {
    if t != [] {
      assert !p(t[0]);
      CountNone(t[1..], p);
    }
  }

  /** Extending a trace keeps the rule when each new transfer has its stop
      somewhere before it, in the old part or the new. */
  lemma StopBeforeTransferExtend(a: seq<Event>, b: seq<Event>)
    requires StopBeforeTransfer(a)
    requires forall j | 0 <= j < |b| && IsTransfer(b[j]) :: Docker(StopCommand(b[j].args[7])) in a + b[..j]
    ensures StopBeforeTransfer(a + b)
  {
    var t := a + b;
    forall j | 0 <= j < |t| && IsTransfer(t[j])
      ensures Docker(StopCommand(t[j].args[7])) in t[..j]
    {
      if j < |a| {
        assert t[j] == a[j] && t[..j] == a[..j];
      } else {
        assert t[j] == b[j - |a|] && t[..j] == a + b[..j - |a|];
      }
    }
  }

  lemma StopBeforeTransferAppend(a: seq<Event>, b: seq<Event>)
    requires StopBeforeTransfer(a) && StopBeforeTransfer(b)
    ensures StopBeforeTransfer(a + b)
  {
    forall j | 0 <= j < |b| && IsTransfer(b[j])
      ensures Docker(StopCommand(b[j].args[7])) in a + b[..j]
    {
      assert Docker(StopCommand(b[j].args[7])) in b[..j];
    }
    StopBeforeTransferExtend(a, b);
  }

  lemma StopBeforeTransferPrefix(a: seq<Event>, b: seq<Event>)
    requires StopBeforeTransfer(a) && b <= a
    ensures StopBeforeTransfer(b)
  {
    forall j | 0 <= j < |b| && IsTransfer(b[j])
      ensures Docker(StopCommand(b[j].args[7])) in b[..j]
    {
      assert b[j] == a[j] && b[..j] == a[..j];
    }
  }

  lemma PullBeforeRunAppend(a: seq<Event>, b: seq<Event>)
    requires PullBeforeRun(a) && PullBeforeRun(b)
    ensures PullBeforeRun(a + b)
  {
    var t := a + b;
    forall j | 0 <= j < |t| && IsStart(t[j])
      ensures 0 < j && t[j - 1] == Docker(PullCommand(t[j].args[5]))
    {
      if j < |a| {
        assert t[j] == a[j] && t[j - 1] == a[j - 1];
      } else {
        assert t[j] == b[j - |a|];
        assert t[j - 1] == b[j - |a| - 1];
      }
    }
  }

  lemma PullBeforeRunPrefix(a: seq<Event>, b: seq<Event>)
    requires PullBeforeRun(a) && b <= a
    ensures PullBeforeRun(b)
  {
    forall j | 0 <= j < |b| && IsStart(b[j])
      ensures 0 < j && b[j - 1] == Docker(PullCommand(b[j].args[5]))
    {
      assert b[j] == a[j] && b[j - 1] == a[j - 1];
    }
  }

  /** Stops, removals, prepares and pytest runs are neither runs nor transfers. */
  lemma NoStarts(t: seq<Event>)
    requires forall k :: 0 <= k < |t| ==> !IsStart(t[k])
    ensures StopBeforeTransfer(t) && PullBeforeRun(t)
  {
  }

  lemma OtherEventsStartNothing(tests: seq<TestClass>, names: seq<string>, name: string, args: seq<string>)
    ensures forall k :: 0 <= k < |PrepareEvents(tests)| ==> !IsStart(PrepareEvents(tests)[k])
    ensures forall k :: 0 <= k < |RemoveAll(names)| ==> !IsStart(RemoveAll(names)[k])
    ensures !IsStart(Docker(StopCommand(name))) && !IsStart(Pytest(args))
  {
  }

  lemma StartEventsOrdered(version: string, image: Option<string>, transferState: Option<string>)
    ensures PullBeforeRun(StartEvents(version, image, transferState))
    ensures !Given(transferState) ==> StopBeforeTransfer(StartEvents(version, image, transferState))
    ensures IsTransfer(StartEvents(version, image, transferState)[1]) <==> Given(transferState)
    ensures Given(transferState) ==> StartEvents(version, image, transferState)[1].args[7] == transferState.value
  {
    var s := StartEvents(version, image, transferState);
    RunCommandTransfer(ContainerName(version), ImageFor(version, image), transferState);
    var r := RunCommand(ContainerName(version), ImageFor(version, image), transferState);
    assert r[5] == r[..6][5];
    assert !IsStart(s[0]);
  }

  /** Pieces that issue no `docker run` have no transfers and keep both rules. */
  lemma QuietPiecesOrdered(tests: seq<TestClass>, names: seq<string>, name: string, args: seq<string>)
    ensures StopBeforeTransfer(PrepareEvents(tests)) && PullBeforeRun(PrepareEvents(tests))
    ensures StopBeforeTransfer(RemoveAll(names)) && PullBeforeRun(RemoveAll(names))
    ensures StopBeforeTransfer([Docker(StopCommand(name))]) && PullBeforeRun([Docker(StopCommand(name))])
    ensures StopBeforeTransfer([Pytest(args)]) && PullBeforeRun([Pytest(args)])
  {
    OtherEventsStartNothing(tests, names, name, args);
    NoStarts(PrepareEvents(tests));
    NoStarts(RemoveAll(names));
    NoStarts([Docker(StopCommand(name))]);
    NoStarts([Pytest(args)]);
  }

  /** In a successful upgrade the to-version container imports the state of
      the from-version container only after the latter has been stopped, and
      each run follows its pull. */
  lemma UpgradeBodyOrdered(fromVersion: string, toVersion: string, fromImage: Option<string>,
                           toImage: Option<string>, classes: seq<TestClass>)
    ensures StopBeforeTransfer(UpgradeBody(fromVersion, toVersion, fromImage, toImage, classes))
    ensures PullBeforeRun(UpgradeBody(fromVersion, toVersion, fromImage, toImage, classes))
  {
    var s1 := StartEvents(fromVersion, fromImage, None);
    var p := PrepareEvents(SelectForPrepare(classes, fromVersion));
    var stop := [Docker(StopCommand(ContainerName(fromVersion)))];
    var s2 := StartEvents(toVersion, toImage, Some(ContainerName(fromVersion)));
    var py := [Pytest(PytestArgs(MarqoApi, fromVersion, toVersion))];
    StartEventsOrdered(fromVersion, fromImage, None);
    StartEventsOrdered(toVersion, toImage, Some(ContainerName(fromVersion)));
    QuietPiecesOrdered(SelectForPrepare(classes, fromVersion), [], ContainerName(fromVersion),
                       PytestArgs(MarqoApi, fromVersion, toVersion));
    StopBeforeTransferAppend(s1, p);
    StopBeforeTransferAppend(s1 + p, stop);
    var a := s1 + p + stop;
    var b := s2 + py;
    assert a[|a| - 1] == Docker(StopCommand(ContainerName(fromVersion)));
    forall j | 0 <= j < |b| && IsTransfer(b[j])
      ensures Docker(StopCommand(b[j].args[7])) in a + b[..j]
    {
      assert j == 1;
    }
    StopBeforeTransferExtend(a, b);
    UpgradeBodyPieces(fromVersion, toVersion, fromImage, toImage, classes);
    assert a + b == UpgradeBody(fromVersion, toVersion, fromImage, toImage, classes);
    PullBeforeRunAppend(s1, p);
    PullBeforeRunAppend(s1 + p, stop);
    PullBeforeRunAppend(a, s2);
    PullBeforeRunAppend(a + s2, py);
  }

  /** In the rollback steps the from-version container imports the state of
      the to-version container only after the latter has been stopped. */
  lemma RollbackTailOrdered(fromVersion: string, toVersion: string, fromImage: Option<string>)
    ensures StopBeforeTransfer(RollbackTail(fromVersion, toVersion, fromImage))
    ensures PullBeforeRun(RollbackTail(fromVersion, toVersion, fromImage))
  {
    var stop := [Docker(StopCommand(ContainerName(toVersion)))];
    var s := StartEvents(fromVersion, fromImage, Some(ContainerName(toVersion)));
    var py := [Pytest(PytestArgs(MarqoApi, fromVersion, toVersion))];
    StartEventsOrdered(fromVersion, fromImage, Some(ContainerName(toVersion)));
    QuietPiecesOrdered([], [], ContainerName(toVersion), PytestArgs(MarqoApi, fromVersion, toVersion));
    var b := s + py;
    forall j | 0 <= j < |b| && IsTransfer(b[j])
      ensures Docker(StopCommand(b[j].args[7])) in stop + b[..j]
    {
      assert j == 1;
    }
    StopBeforeTransferExtend(stop, b);
    assert stop + b == RollbackTail(fromVersion, toVersion, fromImage);
    PullBeforeRunAppend(stop, s);
    PullBeforeRunAppend(stop + s, py);
  }

  lemma QuietCounts(tests: seq<TestClass>, names: seq<string>, name: string)
    ensures Count(PrepareEvents(tests), IsStart) == 0 && Count(PrepareEvents(tests), IsTestPhase) == 0
    ensures Count(RemoveAll(names), IsStart) == 0 && Count(RemoveAll(names), IsTestPhase) == 0
    ensures Count([Docker(StopCommand(name))], IsStart) == 0 && Count([Docker(StopCommand(name))], IsTestPhase) == 0
  {
    OtherEventsStartNothing(tests, names, name, []);
    CountNone(PrepareEvents(tests), IsStart);
    CountNone(PrepareEvents(tests), IsTestPhase);
    CountNone(RemoveAll(names), IsStart);
    CountNone(RemoveAll(names), IsTestPhase);
    CountNone([Docker(StopCommand(name))], IsStart);
    CountNone([Docker(StopCommand(name))], IsTestPhase);
  }

  lemma StartCounts(version: string, image: Option<string>, transferState: Option<string>, args: seq<string>)
    ensures Count(StartEvents(version, image, transferState), IsStart) == 1
    ensures Count(StartEvents(version, image, transferState), IsTestPhase) == 0
    ensures Count([Pytest(args)], IsStart) == 0 && Count([Pytest(args)], IsTestPhase) == 1
  {
    var s := StartEvents(version, image, transferState);
    RunCommandTransfer(ContainerName(version), ImageFor(version, image), transferState);
    assert !IsStart(s[0]) && IsStart(s[1]);
    assert s[1..][1..] == [];
    assert Count(s[1..], IsStart) == 1 && Count(s[1..], IsTestPhase) == 0;
    assert [Pytest(args)][1..] == [];
  }

  /** A successful upgrade starts two containers and runs the test phase once. */
  lemma UpgradeCounts(fromVersion: string, toVersion: string, fromImage: Option<string>,
                      toImage: Option<string>, classes: seq<TestClass>)
    ensures Count(UpgradeBody(fromVersion, toVersion, fromImage, toImage, classes), IsStart) == 2
    ensures Count(UpgradeBody(fromVersion, toVersion, fromImage, toImage, classes), IsTestPhase) == 1
  {
    var s1 := StartEvents(fromVersion, fromImage, None);
    var p := PrepareEvents(SelectForPrepare(classes, fromVersion));
    var stop := [Docker(StopCommand(ContainerName(fromVersion)))];
    var s2 := StartEvents(toVersion, toImage, Some(ContainerName(fromVersion)));
    var py := [Pytest(PytestArgs(MarqoApi, fromVersion, toVersion))];
    QuietCounts(SelectForPrepare(classes, fromVersion), [], ContainerName(fromVersion));
    StartCounts(fromVersion, fromImage, None, PytestArgs(MarqoApi, fromVersion, toVersion));
    StartCounts(toVersion, toImage, Some(ContainerName(fromVersion)), PytestArgs(MarqoApi, fromVersion, toVersion));
    UpgradeBodyPieces(fromVersion, toVersion, fromImage, toImage, classes);
    forall q: Event -> bool | q == IsStart || q == IsTestPhase
      ensures Count(s1 + p + stop + s2 + py, q) == Count(s1, q) + Count(p, q) + Count(stop, q) + Count(s2, q) + Count(py, q)
    {
      CountAppend(s1, p, q);
      CountAppend(s1 + p, stop, q);
      CountAppend(s1 + p + stop, s2, q);
      CountAppend(s1 + p + stop + s2, py, q);
    }
  }

  /** A successful rollback starts three containers (from, to, from again)
      and runs the test phase twice, whatever the cleanup orders. */
  lemma RollbackCounts(fromVersion: string, toVersion: string, fromImage: Option<string>,
                       toImage: Option<string>, classes: seq<TestClass>,
                       upgradeOrder: seq<string>, order: seq<string>)
    ensures Count(RollbackRun(fromVersion, toVersion, fromImage, toImage, classes, upgradeOrder, order), IsStart) == 3
    ensures Count(RollbackRun(fromVersion, toVersion, fromImage, toImage, classes, upgradeOrder, order), IsTestPhase) == 2
  {
    var u := UpgradeBody(fromVersion, toVersion, fromImage, toImage, classes);
    var stopTo := [Docker(StopCommand(ContainerName(toVersion)))];
    var tail := RollbackTail(fromVersion, toVersion, fromImage);
    var stopFrom := [Docker(StopCommand(ContainerName(fromVersion)))];
    var s := StartEvents(fromVersion, fromImage, Some(ContainerName(toVersion)));
    var py := [Pytest(PytestArgs(MarqoApi, fromVersion, toVersion))];
    assert RollbackRun(fromVersion, toVersion, fromImage, toImage, classes, upgradeOrder, order)
        == u + stopTo + RemoveAll(upgradeOrder) + tail + stopFrom + RemoveAll(order);
    UpgradeCounts(fromVersion, toVersion, fromImage, toImage, classes);
    QuietCounts([], upgradeOrder, ContainerName(toVersion));
    QuietCounts([], order, ContainerName(fromVersion));
    StartCounts(fromVersion, fromImage, Some(ContainerName(toVersion)), PytestArgs(MarqoApi, fromVersion, toVersion));
    forall q: Event -> bool | q == IsStart || q == IsTestPhase
      ensures Count(tail, q) == Count(stopTo, q) + Count(s, q) + Count(py, q)
    {
      CountAppend(stopTo, s, q);
      CountAppend(stopTo + s, py, q);
    }
    forall q: Event -> bool | q == IsStart || q == IsTestPhase
      ensures Count(u + stopTo + RemoveAll(upgradeOrder) + tail + stopFrom + RemoveAll(order), q)
           == Count(u, q) + Count(stopTo, q) + Count(RemoveAll(upgradeOrder), q) + Count(tail, q)
              + Count(stopFrom, q) + Count(RemoveAll(order), q)
    {
      CountAppend(u, stopTo, q);
      CountAppend(u + stopTo, RemoveAll(upgradeOrder), q);
      CountAppend(u + stopTo + RemoveAll(upgradeOrder), tail, q);
      CountAppend(u + stopTo + RemoveAll(upgradeOrder) + tail, stopFrom, q);
      CountAppend(u + stopTo + RemoveAll(upgradeOrder) + tail + stopFrom, RemoveAll(order), q);
    }
  }

  /** Whatever prefix of the upgrade the try block issued, the upgrade
      scenario's whole trace, with its stop and removals, keeps both rules. */
  lemma UpgradeTraceOrdered(fromVersion: string, toVersion: string, fromImage: Option<string>,
                            toImage: Option<string>, classes: seq<TestClass>,
                            body: seq<Event>, order: seq<string>)
    requires body <= UpgradeBody(fromVersion, toVersion, fromImage, toImage, classes)
    ensures StopBeforeTransfer(WithFinally(body, toVersion, order))
    ensures PullBeforeRun(WithFinally(body, toVersion, order))
  {
    var u := UpgradeBody(fromVersion, toVersion, fromImage, toImage, classes);
    var fin := [Docker(StopCommand(ContainerName(toVersion)))];
    UpgradeBodyOrdered(fromVersion, toVersion, fromImage, toImage, classes);
    StopBeforeTransferPrefix(u, body);
    PullBeforeRunPrefix(u, body);
    QuietPiecesOrdered([], order, ContainerName(toVersion), []);
    StopBeforeTransferAppend(body, fin);
    StopBeforeTransferAppend(body + fin, RemoveAll(order));
    PullBeforeRunAppend(body, fin);
    PullBeforeRunAppend(body + fin, RemoveAll(order));
  }

  /** After an upgrade trace that keeps both rules, any prefix of the
      rollback steps, with the final stop and removals, keeps them too. */
  lemma RollbackTraceOrdered(fromVersion: string, toVersion: string, fromImage: Option<string>,
                             upgrade: seq<Event>, tail: seq<Event>, order: seq<string>)
    requires StopBeforeTransfer(upgrade) && PullBeforeRun(upgrade)
    requires tail <= RollbackTail(fromVersion, toVersion, fromImage)
    ensures StopBeforeTransfer(WithFinally(upgrade + tail, fromVersion, order))
    ensures PullBeforeRun(WithFinally(upgrade + tail, fromVersion, order))
  {
    var rt := RollbackTail(fromVersion, toVersion, fromImage);
    var fin := [Docker(StopCommand(ContainerName(fromVersion)))];
    RollbackTailOrdered(fromVersion, toVersion, fromImage);
    StopBeforeTransferPrefix(rt, tail);
    PullBeforeRunPrefix(rt, tail);
    QuietPiecesOrdered([], order, ContainerName(fromVersion), []);
    StopBeforeTransferAppend(upgrade, tail);
    StopBeforeTransferAppend(upgrade + tail, fin);
    StopBeforeTransferAppend(upgrade + tail + fin, RemoveAll(order));
    PullBeforeRunAppend(upgrade, tail);
    PullBeforeRunAppend(upgrade + tail, fin);
    PullBeforeRunAppend(upgrade + tail + fin, RemoveAll(order));
  }

  /** Every `docker run` in `t` is of a container named in `names`. */
  predicate OnlyStarts(t: seq<Event>, names: set<string>) {
    forall k | 0 <= k < |t| && IsStart(t[k]) :: t[k].args[4] in names
  }

  lemma OnlyStartsAppend(a: seq<Event>, b: seq<Event>, names: set<string>)
    requires OnlyStarts(a, names) && OnlyStarts(b, names)
    ensures OnlyStarts(a + b, names)
  {
    forall k | 0 <= k < |a + b| && IsStart((a + b)[k])
      ensures (a + b)[k].args[4] in names
    {
      if k >= |a| {
        assert (a + b)[k] == b[k - |a|];
      }
    }
  }

  /** A start runs only the container of its version. */
  lemma StartEventsStart(version: string, image: Option<string>, transferState: Option<string>)
    ensures var s := StartEvents(version, image, transferState);
      OnlyStarts(s, {ContainerName(version)}) && IsRunOf(s[1], ContainerName(version))
  {
    PullCommandParts(ImageFor(version, image));
    RunCommandTransfer(ContainerName(version), ImageFor(version, image), transferState);
  }

  /** The upgrade runs the from-version container and the to-version
      container, and no other. */
  lemma UpgradeBodyStarts(fromVersion: string, toVersion: string, fromImage: Option<string>,
                          toImage: Option<string>, classes: seq<TestClass>)
    ensures var names := {ContainerName(fromVersion), ContainerName(toVersion)};
      OnlyStarts(UpgradeBody(fromVersion, toVersion, fromImage, toImage, classes), names)
    ensures exists k | 0 <= k < |UpgradeBody(fromVersion, toVersion, fromImage, toImage, classes)| ::
      IsRunOf(UpgradeBody(fromVersion, toVersion, fromImage, toImage, classes)[k], ContainerName(fromVersion))
    ensures exists k | 0 <= k < |UpgradeBody(fromVersion, toVersion, fromImage, toImage, classes)| ::
      IsRunOf(UpgradeBody(fromVersion, toVersion, fromImage, toImage, classes)[k], ContainerName(toVersion))
  {
    var names := {ContainerName(fromVersion), ContainerName(toVersion)};
    var s1 := StartEvents(fromVersion, fromImage, None);
    var p := PrepareEvents(SelectForPrepare(classes, fromVersion));
    var stop := [Docker(StopCommand(ContainerName(fromVersion)))];
    var s2 := StartEvents(toVersion, toImage, Some(ContainerName(fromVersion)));
    var py := [Pytest(PytestArgs(MarqoApi, fromVersion, toVersion))];
    var u := UpgradeBody(fromVersion, toVersion, fromImage, toImage, classes);
    UpgradeBodyPieces(fromVersion, toVersion, fromImage, toImage, classes);
    StartEventsStart(fromVersion, fromImage, None);
    StartEventsStart(toVersion, toImage, Some(ContainerName(fromVersion)));
    OtherEventsStartNothing(SelectForPrepare(classes, fromVersion), [], ContainerName(fromVersion),
                            PytestArgs(MarqoApi, fromVersion, toVersion));
    OnlyStartsAppend(s1, p, names);
    OnlyStartsAppend(s1 + p, stop, names);
    OnlyStartsAppend(s1 + p + stop, s2, names);
    OnlyStartsAppend(s1 + p + stop + s2, py, names);
    assert u[1] == s1[1];
    assert u[|s1 + p + stop| + 1] == s2[1];
  }

  /** The rollback steps run the from-version container and no other. */
  lemma RollbackTailStarts(fromVersion: string, toVersion: string, fromImage: Option<string>)
    ensures OnlyStarts(RollbackTail(fromVersion, toVersion, fromImage), {ContainerName(fromVersion)})
    ensures IsRunOf(RollbackTail(fromVersion, toVersion, fromImage)[2], ContainerName(fromVersion))
  {
    var names := {ContainerName(fromVersion)};
    var stop := [Docker(StopCommand(ContainerName(toVersion)))];
    var s := StartEvents(fromVersion, fromImage, Some(ContainerName(toVersion)));
    var py := [Pytest(PytestArgs(MarqoApi, fromVersion, toVersion))];
    StartEventsStart(fromVersion, fromImage, Some(ContainerName(toVersion)));
    OtherEventsStartNothing([], [], ContainerName(toVersion), PytestArgs(MarqoApi, fromVersion, toVersion));
    OnlyStartsAppend(stop, s, names);
    OnlyStartsAppend(stop + s, py, names);
  }
}

