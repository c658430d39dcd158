/** The calls the test runner makes into code outside test_runner.py, and
    the name, image and argument-list rules it uses to build them. */
module Commands {

  datatype Option<T> = None | Some(value: T)

  /** One call out of the runner, in the order it is made. */
  datatype Event =
    | Docker(args: seq<string>)   // subprocess.run(args, check=True)
    | Prepare(test: string)       // test().prepare() on one selected test class
    | Pytest(args: seq<string>)   // pytest.main(args)

  /** Python truthiness of an optional string: neither None nor empty. */
  predicate Given(s: Option<string>) {
    s.Some? && s.value != []
  }

  /** `image or f"marqoai/marqo:{version}"`. */
  function ImageFor(version: string, image: Option<string>): (r: string)
    ensures r != []
    ensures Given(image) ==> r == image.value
    ensures !Given(image) ==> |r| == 14 + |version| && r[..14] == "marqoai/marqo:" && r[14..] == version
  {
    if Given(image) then image.value else "marqoai/marqo:" + version
  }

  /** `f"marqo-{version}"`. */
  function ContainerName(version: string): (r: string)
    ensures |r| == 6 + |version| && r[..6] == "marqo-" && r[6..] == version
  {
    "marqo-" + version
  }

  /** Different versions never share a container name, nor a default image. */
  lemma NamesDetermineVersion(v: string, w: string)
    ensures ContainerName(v) == ContainerName(w) ==> v == w
    ensures ImageFor(v, None) == ImageFor(w, None) ==> v == w
  {
    if ContainerName(v) == ContainerName(w) {
      assert v == ContainerName(v)[6..];
    }
    if ImageFor(v, None) == ImageFor(w, None) {
      assert v == ImageFor(v, None)[14..];
    }
  }

  /** The version a container name was made from. */
  function VersionOfName(name: string): string {
    if |name| >= 6 then name[6..] else name
  }

  /** The name and the version can be read back from each other. */
  lemma VersionOfContainerName(v: string)
    ensures VersionOfName(ContainerName(v)) == v
  {
  }

  function PullCommand(image: string): seq<string> {
    ["docker", "pull", image]
  }

  function StopCommand(name: string): seq<string> {
    ["docker", "stop", name]
  }

  function RemoveCommand(name: string): seq<string> {
    ["docker", "rm", "-f", name]
  }

  /** The run command of start_marqo_container: the detached run of the named
      container from the image, extended by `--volumes-from` when a transfer
      source is given. */
  function RunCommand(name: string, image: string, transferState: Option<string>): (r: seq<string>)
    ensures |r| == 8 <==> Given(transferState)
    ensures |r| == 6 <==> !Given(transferState)
    ensures r[..6] == ["docker", "run", "-d", "--name", name, image]
    ensures |r| == 8 ==> r[6..] == ["--volumes-from", transferState.value]
  {
    var base := ["docker", "run", "-d", "--name", name, image];
    if Given(transferState) then base + ["--volumes-from", transferState.value] else base
  }

  /** The argument list handed to pytest.main in test mode. */
  function PytestArgs(marqoApi: string, fromVersion: string, toVersion: string): seq<string> {
    ["--marqo-api=" + marqoApi, "-m",
     "marqo_from_version<='" + fromVersion + "' or marqo_version<='" + toVersion + "'"]
  }

  /** A pull command is a `docker pull` of its image, and never a run. */
  lemma PullCommandParts(image: string)
    ensures IsPull(Docker(PullCommand(image))) && !IsStart(Docker(PullCommand(image)))
    ensures PullCommand(image)[2] == image
  {
  }

  /** A stop command stops the named container; it is neither a pull nor a run. */
  lemma StopCommandParts(name: string)
    ensures var e := Docker(StopCommand(name)); !IsPull(e) && !IsStart(e) && e.args[1] == "stop"
    ensures StopCommand(name)[2] == name
  {
  }

  /** A removal command force-removes the named container; it is neither a
      pull nor a run. */
  lemma RemoveCommandParts(name: string)
    ensures var e := Docker(RemoveCommand(name)); !IsPull(e) && !IsStart(e) && e.args[1] == "rm"
    ensures RemoveCommand(name)[2] == "-f" && RemoveCommand(name)[3] == name
  {
  }

  /** The pytest arguments: the API address as `--marqo-api`, then a `-m`
      marker expression that selects the tests of the from-version and of
      the to-version. The address can be read back; each version sits at the
      stated slice of the marker. */
  lemma PytestArgsParts(marqoApi: string, fromVersion: string, toVersion: string)
    ensures var r := PytestArgs(marqoApi, fromVersion, toVersion);
      |r| == 3 && r[1] == "-m"
      && r[0][..12] == "--marqo-api=" && r[0][12..] == marqoApi
      && |r[2]| == 43 + |fromVersion| + |toVersion|
      && r[2][..21] == "marqo_from_version<='" && r[2][21..21 + |fromVersion|] == fromVersion
      && r[2][21 + |fromVersion|..42 + |fromVersion|] == "' or marqo_version<='"
      && r[2][|r[2]| - |toVersion| - 1..|r[2]| - 1] == toVersion && r[2][|r[2]| - 1] == '\''
  {
    var m := PytestArgs(marqoApi, fromVersion, toVersion)[2];
    var head := "marqo_from_version<='" + fromVersion;
    var mid := "' or marqo_version<='";
    assert m == head + mid + toVersion + "'";
    assert m[..21] == head[..21];
    assert m[21..21 + |fromVersion|] == head[21..];
    assert m[21 + |fromVersion|..42 + |fromVersion|] == mid;
    assert m[|m| - |toVersion| - 1..|m| - 1] == toVersion;
  }

  /** The versions are put into the marker without escaping, so a version
      that itself holds the text between the two comparisons gives the same
      arguments as another pair of versions. */
  lemma PytestArgsAmbiguous(marqoApi: string)
    ensures PytestArgs(marqoApi, "x' or marqo_version<='y", "z")
         == PytestArgs(marqoApi, "x", "y' or marqo_version<='z")
  {
    assert "marqo_from_version<='" + "x' or marqo_version<='y" + "' or marqo_version<='" + "z" + "'"
        == "marqo_from_version<='" + "x" + "' or marqo_version<='" + "y' or marqo_version<='z" + "'";
  }

  /** A `docker pull`. */
  predicate IsPull(e: Event) {
    e.Docker? && |e.args| == 3 && e.args[1] == "pull"
  }

  /** A `docker run` that imports the volumes of another container. */
  predicate IsTransfer(e: Event) {
    e.Docker? && |e.args| == 8 && e.args[1] == "run" && e.args[6] == "--volumes-from"
  }

  /** Any `docker run`, with or without a transfer. */
  predicate IsStart(e: Event) {
    e.Docker? && |e.args| >= 6 && e.args[1] == "run"
  }

  /** A `docker run` of the container called `name`. */
  predicate IsRunOf(e: Event, name: string) {
    IsStart(e) && e.args[4] == name
  }

  predicate IsTestPhase(e: Event) {
    e.Pytest?
  }

  /** The run command imports state exactly when a transfer source is given,
      and then from that source; it always starts the container it names. */
  lemma RunCommandTransfer(name: string, image: string, transferState: Option<string>)
    ensures var e := Docker(RunCommand(name, image, transferState));
      IsStart(e) && IsRunOf(e, name) &&
      (IsTransfer(e) <==> Given(transferState)) &&
      (IsTransfer(e) ==> e.args[7] == transferState.value)
  {
    var r := RunCommand(name, image, transferState);
    assert r[1] == r[..6][1] && r[4] == r[..6][4];
    if |r| == 8 {
      assert r[6] == r[6..][0] && r[7] == r[6..][1];
    }
  }

  /** The parts of a run command can be read back from it: two starts issue
      the same command only if they name the same container, image and
      transfer. */
  lemma RunCommandInjective(n1: string, i1: string, t1: Option<string>, n2: string, i2: string, t2: Option<string>)
    requires RunCommand(n1, i1, t1) == RunCommand(n2, i2, t2)
    ensures n1 == n2 && i1 == i2
    ensures Given(t1) <==> Given(t2)
    ensures Given(t1) ==> t1.value == t2.value
  {
    var r := RunCommand(n1, i1, t1);
    assert r[4] == r[..6][4] && r[5] == r[..6][5];
    assert RunCommand(n2, i2, t2)[4] == n2 && RunCommand(n2, i2, t2)[5] == i2;
    if Given(t1) {
      assert r[7] == r[6..][1];
      assert RunCommand(n2, i2, t2)[7] == RunCommand(n2, i2, t2)[6..][1];
    }
  }
}
