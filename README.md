# Marqo backwards-compatibility test runner, modelled in Dafny

`tests/backwards_compatibility_tests/test_runner.py` drives two upgrade
scenarios against Docker containers of two Marqo versions. The upgrade
(`backwards_compatibility_test`) does these steps in order:

1. start the from-version container;
2. run the `prepare` step of each test class selected for that version;
3. stop the from-version container;
4. start the to-version container with the volumes of the from-version one;
5. run pytest.

The rollback (`rollback_test`) runs the whole upgrade, then stops the
to-version container, starts the from-version container again with the
volumes of the to-version one, and runs pytest again. Each scenario ends
with a `finally` block. The upgrade's block stops the to-version container
and the rollback's block stops the from-version one. Each block then
removes every container in the module-level registry `containers_to_cleanup`.

The model has six modules:

- `LexOrder` is Python's order on `str`, which the prepare filter uses to
  compare version strings.
- `Commands` holds the image rule, the container-name rule, the argument
  lists handed to `subprocess.run`, and pytest's argument list.
- `Selection` is the prepare-mode filter over the given list of test classes.
- `Traces` holds the call sequences the scenarios are meant to make and
  the two ordering rules. The first rule: a container that imports another
  container's volumes is only run after that other container was stopped.
  The second rule: every `docker run` directly follows the pull of its image.
- `Steps` holds the call oracle and the outcomes. `Attempted` says what a
  step that means to make a sequence of calls does: it makes them in order
  and stops at the first refused call that raises, failing with that
  call's exception. A refused call that does not raise changes nothing.
  `Started` is the set of containers whose `docker run` was accepted.
- `TestRunner` holds the class `Runner`.

`TestRunner.Runner` is the module state: the registry, and the trace of
every call made out of the file. Its methods are the file's functions.
Success of each call is decided by the runner's `engine`, a total function
from the calls so far and the next call to a success flag. Every contract
holds for every engine.

- A `docker` call that exits non-zero is refused.
- A `prepare()` that raises is refused.
- pytest's answer is never looked at.

An exception raised by a step becomes a `Fail` outcome, and the remaining
steps of the `try` block are skipped. Each `try` block is a method of its
own, followed in the scenario method by the statements of its `finally` block.

The main results are these:

- Both scenarios always end with an empty registry.
- A container name is only ever registered after a successful `docker run`
  of it. This is the class invariant `Valid`.
- The upgrade's cleanup removes exactly the containers registered before
  it plus those whose `docker run` the engine accepted. The rollback's
  final cleanup removes the from-version container exactly when the
  rollback steps returned normally, and nothing otherwise.
- The outcome and the calls made are decided by the engine and the order in
  which each cleanup iterates the registry.
- Both ordering rules hold for every trace either scenario can produce.
  This covers traces cut short by a failure at any step.
- A fully successful rollback starts three containers and runs pytest twice.
- The prepare filter keeps exactly the classes whose minimum version is at
  most the from-version, in their original order.

Only `subprocess.CalledProcessError` is caught (lines 16, 35, 44 and 53),
so only a refused `docker` call is turned into an exception or a warning.
The `--marqo-api` option is parsed (line 121) but never read. Both
scenarios pass `http://localhost:8882` to `run_tests`, which is
`Traces.MarqoApi`.

## Model

| member | source | states |
|---|---|---|
| LexOrder.LexLeCharacterized | tests/backwards_compatibility_tests/test_runner.py:106 | `LexLe` is Python's `<=` on strings: `a` is a prefix of `b`, or at the first position where they differ `a` has the smaller character |
| LexOrder.LexLeReflexive | tests/backwards_compatibility_tests/test_runner.py:106 | every version string satisfies `v <= v` under Python's string order |
| LexOrder.LexLeAntisymmetric | tests/backwards_compatibility_tests/test_runner.py:106 | two strings each `<=` the other are equal |
| LexOrder.LexLeTransitive | tests/backwards_compatibility_tests/test_runner.py:106 | the string order is transitive |
| LexOrder.LexLeTotal | tests/backwards_compatibility_tests/test_runner.py:106 | any two strings are comparable |
| LexOrder.PrefixIsLexLe | tests/backwards_compatibility_tests/test_runner.py:106 | a prefix of a string comes before it |
| LexOrder.DefaultVersionBound | tests/backwards_compatibility_tests/test_runner.py:106 | the default `"0"` is `<=` exactly the non-empty strings starting with a character at least `'0'` |
| LexOrder.VersionsCompareAsText | tests/backwards_compatibility_tests/test_runner.py:106 | versions compare as text, not as release numbers: `"2.10" <= "2.9"` and `"10.0" <= "9.0"` |
| Commands.ImageFor | tests/backwards_compatibility_tests/test_runner.py:22 | a given non-empty image is used as is; otherwise the image is `marqoai/marqo:` followed by the version; never empty |
| Commands.ContainerName | tests/backwards_compatibility_tests/test_runner.py:23 | the name is `marqo-` followed by the version |
| Commands.NamesDetermineVersion | tests/backwards_compatibility_tests/test_runner.py:22-23 | equal container names, or equal default images, mean equal versions |
| Commands.VersionOfContainerName | tests/backwards_compatibility_tests/test_runner.py:23 | the version can be read back from its container name |
| Commands.PullCommandParts | tests/backwards_compatibility_tests/test_runner.py:15 | `PullCommand` is a `docker pull` of the given image and never a run |
| Commands.StopCommandParts | tests/backwards_compatibility_tests/test_runner.py:43 | `StopCommand` is a `docker stop` of the named container, neither a pull nor a run |
| Commands.RemoveCommandParts | tests/backwards_compatibility_tests/test_runner.py:52 | `RemoveCommand` is a `docker rm -f` of the named container, neither a pull nor a run |
| Commands.RunCommand | tests/backwards_compatibility_tests/test_runner.py:28-30 | the command starts with `docker run -d --name <name> <image>`; it has the two extra arguments `--volumes-from <source>` exactly when a non-empty source is given |
| Commands.RunCommandTransfer | tests/backwards_compatibility_tests/test_runner.py:28-30 | the run command is a `docker run` of its named container; it imports volumes exactly when a source is given, and then from that source |
| Commands.RunCommandInjective | tests/backwards_compatibility_tests/test_runner.py:28-30 | two equal run commands have the same name, image and transfer source |
| Commands.PytestArgsParts | tests/backwards_compatibility_tests/test_runner.py:111-112 | `PytestArgs` is `--marqo-api=<address>`, `-m`, and a marker expression comparing `marqo_from_version` with the from-version and `marqo_version` with the to-version; the address can be read back, and each version sits at the stated slice of the marker |
| Commands.PytestArgsAmbiguous | tests/backwards_compatibility_tests/test_runner.py:111-112 | the versions are inserted without escaping, so two different version pairs can give the same pytest arguments |
| Selection.SelectMembers | tests/backwards_compatibility_tests/test_runner.py:105-106 | `SelectForPrepare` keeps a class exactly when it is in the list and its minimum version is `<=` the from-version; every selected class is eligible; the selection is no longer than the list |
| Selection.SelectAppend | tests/backwards_compatibility_tests/test_runner.py:105-106 | the filter keeps input order: selecting from a concatenation concatenates the selections |
| Selection.SelectIdempotent | tests/backwards_compatibility_tests/test_runner.py:105-106 | selecting again from a selection changes nothing |
| Selection.SelectAllEligible | tests/backwards_compatibility_tests/test_runner.py:105-106 | when every class is eligible the whole list is selected, in order |
| Selection.SelectExample | tests/backwards_compatibility_tests/test_runner.py:105-106 | classes with minimum versions 1.0, 2.0, 2.5, 3.0 and from-version 2.5 select the first three, in order |
| Selection.MissingAttributeSelected | tests/backwards_compatibility_tests/test_runner.py:106 | `MinVersion` of a class without `marqo_from_version` is `"0"`, so such a class is selected exactly when the from-version is non-empty and starts with a character at least `'0'` |
| Steps.PullRaises | tests/backwards_compatibility_tests/test_runner.py:14-17 | a refused pull raises the failure to pull that image |
| Steps.RunRaises | tests/backwards_compatibility_tests/test_runner.py:32-36 | a refused `docker run` of a version's container raises the failure to start that version |
| Steps.PrepareRaises | tests/backwards_compatibility_tests/test_runner.py:109 | a prepare() that fails raises the failure naming its class |
| Steps.QuietCalls | tests/backwards_compatibility_tests/test_runner.py:42-54 | a `docker stop` (lines 42-45), a `docker rm -f` (lines 51-54) and the pytest run of line 111 never raise |
| Steps.AttemptedPrefix | tests/backwards_compatibility_tests/test_runner.py:60-76 | a step makes a prefix of the calls it means to make, all of them when it returns normally; when it fails, its last call raises, was refused, and gives the exception |
| Steps.AttemptedAccepted | tests/backwards_compatibility_tests/test_runner.py:60-76 | when a step returns normally every raising call it made was accepted; when it fails every raising call but the last was accepted |
| Steps.AttemptedDeterministic | tests/backwards_compatibility_tests/test_runner.py:60-76 | the engine alone decides which calls a step makes and how it ends |
| Steps.AttemptedStep | tests/backwards_compatibility_tests/test_runner.py:108-109 | one more call extends a step that returned normally; the step fails exactly when that call raises and is refused |
| Steps.AttemptedNext | tests/backwards_compatibility_tests/test_runner.py:108-109 | the same, for the next call of the intended sequence |
| Steps.QuietStep | tests/backwards_compatibility_tests/test_runner.py:42-45 | a call that cannot raise returns normally whatever the engine answers |
| Steps.AttemptedThen | tests/backwards_compatibility_tests/test_runner.py:60-76 | a step that returned normally followed by a second step is an attempt at both steps' calls, which ends as the second step does |
| Steps.AttemptedStops | tests/backwards_compatibility_tests/test_runner.py:60-76 | a step that raised makes none of the calls meant to come after it |
| Steps.StartedMembers | tests/backwards_compatibility_tests/test_runner.py:33-34 | a name is in `Started` exactly when some call was an accepted `docker run` of it |
| Steps.StartedAppend | tests/backwards_compatibility_tests/test_runner.py:33-34 | the containers started by two sequences of calls, one after the other, are those started by each |
| Steps.StartedNone | tests/backwards_compatibility_tests/test_runner.py:33-34 | calls that are not runs start nothing |
| Steps.StartAttempted | tests/backwards_compatibility_tests/test_runner.py:26-36 | a refused pull fails with the image and starts nothing; after an accepted pull, the run is made, and the start returns normally and starts its container exactly when the run is accepted, failing with the version otherwise |
| Traces.StartEventsOrdered | tests/backwards_compatibility_tests/test_runner.py:26-33 | a start pulls the image it runs just before the run; its run imports volumes exactly when a source is given, and then from that source |
| Traces.StartEventsStart | tests/backwards_compatibility_tests/test_runner.py:28-33 | a start runs only the container of its version |
| Traces.UpgradeBodyStarts | tests/backwards_compatibility_tests/test_runner.py:60-76 | `UpgradeBody` runs the from-version container and the to-version container, and no other |
| Traces.RollbackTailStarts | tests/backwards_compatibility_tests/test_runner.py:89-96 | `RollbackTail` runs the from-version container and no other |
| Traces.UpgradeBodyOrdered | tests/backwards_compatibility_tests/test_runner.py:60-76 | in a full upgrade the to-version container imports the from-version container's volumes only after that container was stopped, and every run follows the pull of its image |
| Traces.RollbackTailOrdered | tests/backwards_compatibility_tests/test_runner.py:89-96 | in the rollback steps the from-version container imports the to-version container's volumes only after that container was stopped, and every run follows its pull |
| Traces.UpgradeCounts | tests/backwards_compatibility_tests/test_runner.py:60-76 | a full upgrade starts two containers and runs pytest once |
| Traces.RollbackCounts | tests/backwards_compatibility_tests/test_runner.py:84-101 | a full rollback starts three containers and runs pytest twice, whatever order the cleanups remove containers in |
| Traces.UpgradeTraceOrdered | tests/backwards_compatibility_tests/test_runner.py:58-81 | both ordering rules hold for every prefix of the upgrade followed by its `finally` block |
| Traces.RollbackTraceOrdered | tests/backwards_compatibility_tests/test_runner.py:84-101 | both ordering rules hold for an ordered upgrade trace followed by any prefix of the rollback steps and the `finally` block |
| TestRunner.Runner.constructor | tests/backwards_compatibility_tests/test_runner.py:9 | the registry starts empty and no call has been made |
| TestRunner.Runner.Perform | tests/backwards_compatibility_tests/test_runner.py:15 | one call out of the file is appended to the trace; its answer is the engine's answer; the registry invariant is kept |
| TestRunner.Runner.PullMarqoImage | tests/backwards_compatibility_tests/test_runner.py:12-17 | exactly one `docker pull <image>` is made; the outcome fails, naming the image, exactly when the pull is refused |
| TestRunner.Runner.StartMarqoContainer | tests/backwards_compatibility_tests/test_runner.py:20-36 | the pull is made first; a refused pull fails with the image and makes no run; otherwise the run command is made, and a refused run fails with the version; the name is registered exactly when the run succeeds, which is what the engine let the start start |
| TestRunner.Runner.StopMarqoContainer | tests/backwards_compatibility_tests/test_runner.py:39-45 | exactly one `docker stop marqo-<version>` is made; it never fails and leaves the registry alone |
| TestRunner.Runner.CleanupContainers | tests/backwards_compatibility_tests/test_runner.py:48-55 | one `docker rm -f` per registered name, each once, in some order, past every refusal; it never fails; the registry ends empty |
| TestRunner.Runner.PrepareSelected | tests/backwards_compatibility_tests/test_runner.py:104-109 | the prepare steps of the selected classes are made in order until one is refused, which raises and names that class |
| TestRunner.Runner.RunTestPhase | tests/backwards_compatibility_tests/test_runner.py:110-112 | exactly one pytest run with the API address and the marker expression for the two versions |
| TestRunner.Runner.RunTests | tests/backwards_compatibility_tests/test_runner.py:103-112 | prepare mode runs the prepare loop; test mode runs pytest once and never fails; any other mode does nothing |
| TestRunner.Runner.LaunchAndPrepare | tests/backwards_compatibility_tests/test_runner.py:62-65 | the start of the from-version container and then, if it returned normally, the prepare phase, stopping at the first refused raising call; the registry gains exactly the containers whose run the engine accepted, at most the from-version one, and that one whenever both steps returned normally |
| TestRunner.Runner.TransferAndTest | tests/backwards_compatibility_tests/test_runner.py:68-75 | the stop of the from-version container, the start of the to-version container with the from-version container's volumes, then the test phase, stopping at the first refused raising call; a failure leaves some intended calls unmade; the registry gains exactly the containers whose run the engine accepted, which is the to-version one exactly when the start returned normally |
| TestRunner.Runner.UpgradeSteps | tests/backwards_compatibility_tests/test_runner.py:60-76 | the upgrade's try block makes the intended calls up to the first refused raising call, all of them exactly when none was refused; the registry gains exactly the containers whose run the engine accepted, at most the two scenario containers, both when it returns normally |
| TestRunner.Runner.BackwardsCompatibilityTest | tests/backwards_compatibility_tests/test_runner.py:58-81 | whatever the try block did, the to-version container is stopped and the containers removed, once each, are exactly those registered before plus those whose run the engine accepted; the registry ends empty; both ordering rules hold for the whole trace |
| TestRunner.Runner.RollbackSteps | tests/backwards_compatibility_tests/test_runner.py:89-96 | stop the to-version container, start the from-version container with its volumes, run pytest, up to the first refused raising call; the registry gains exactly the containers whose run the engine accepted, which is the from-version one exactly when it returns normally |
| TestRunner.Runner.RollbackTry | tests/backwards_compatibility_tests/test_runner.py:85-96 | the whole upgrade scenario, whose cleanup removes exactly the containers registered before plus those its try block got started, then the rollback steps only when the upgrade returned normally; afterwards the registry holds the from-version container exactly when the rollback returned normally |
| TestRunner.Runner.RollbackTest | tests/backwards_compatibility_tests/test_runner.py:84-101 | the registry ends empty whatever failed; the upgrade's cleanup removes exactly the containers registered before plus those its try block got started; the final cleanup removes the from-version container exactly when the rollback returned normally; a successful rollback makes exactly the intended call sequence; both ordering rules hold for the whole trace |

## Left out

- Docker's own behaviour is outside the model. Pulling, running, stopping and removing are only calls whose success the engine decides. Whether `--volumes-from` placed after the image name, or taken from a container that a cleanup has already removed, does what is meant is not modelled.
- pytest itself is outside the model. Its exit status is ignored, as in the code, and the `-m` marker expression is only an argument string.
- `BaseTestCase.__subclasses__()` is an input list of classes, each with a name and an optional `marqo_from_version`. base_test_case.py and the way pytest markers attach attributes are not part of this model.
- The bodies of the `prepare()` methods are outside the model: the engine decides whether each one raises.
- Python's iteration order over a set is outside the model. The cleanup loop picks any remaining name, and the order is returned as a ghost value.
- The `__main__` block (lines 114-127) is left out: argument parsing and the choice between the two scenarios. The two scenario methods are the entry points.
- `print` output and the texts of the raised exceptions are left out. An `Error` records only the image, version or test class it names.
- Exceptions other than a refused call are left out, for example a missing `docker` binary. In the code these would escape `stop_marqo_container` and `cleanup_containers`; in the model those two never fail.
