/** How the calls of the test runner succeed or fail, and what a step that
    makes several of them can be said to have done. */
module Steps {
  import opened Commands
  import opened Traces

  /** Answers whether a call succeeds (for subprocess.run: exits with status
      zero), given the calls made before it. */
  type Engine = (seq<Event>, Event) -> bool

  /** The exceptions the runner raises, by the step that raised them. */
  datatype Error =
    | PullFailed(image: string)     // pull_marqo_image
    | RunFailed(version: string)    // start_marqo_container, at `docker run`
    | PrepareFailed(test: string)   // a test class's prepare() raised

  datatype Outcome = Ok | Fail(error: Error)

  predicate NoDuplicates(s: seq<string>) {
    forall i, j | 0 <= i < j < |s| :: s[i] != s[j]
  }

  lemma NoDuplicatesSnoc(s: seq<string>, x: string)
    requires NoDuplicates(s) && x !in s
    ensures NoDuplicates(s + [x])
  {
  }

  /** A listing of a set with at most the one element `x`, as long as the
      set is large, is `[x]` or empty. */
  lemma ListingOfAtMostOne(order: seq<string>, names: set<string>, x: string)
    requires names <= {x} && |order| == |names|
    requires forall n :: n in order <==> n in names
    ensures order == if x in names then [x] else []
  {
    if x in names {
      assert names == {x};
      assert order[0] in order;
    } else {
      assert names == {};
    }
  }

  /** The calls whose refusal raises: `pull_marqo_image` and the run of
      `start_marqo_container` re-raise a failed `docker` call, and a
      prepare() that fails raises. A refused `docker stop` or `docker rm`
      is only a warning, and pytest's answer is never looked at. */
  predicate Raises(e: Event) {
    IsPull(e) || IsStart(e) || e.Prepare?
  }

  /** The exception a refused raising call becomes. */
  function Raised(e: Event): Error
    requires Raises(e)
  {
    if e.Prepare? then PrepareFailed(e.test)
    else if IsPull(e) then PullFailed(e.args[2])
    else RunFailed(VersionOfName(e.args[4]))
  }

  /** A refused `docker pull` raises the failure to pull that image. */
  lemma PullRaises(image: string)
    ensures Raises(Docker(PullCommand(image))) && Raised(Docker(PullCommand(image))) == PullFailed(image)
  {
  }

  /** A refused run of a version's container raises the failure to start
      that version. */
  lemma RunRaises(version: string, image: string, transferState: Option<string>)
    ensures var run := Docker(RunCommand(ContainerName(version), image, transferState));
      Raises(run) && Raised(run) == RunFailed(version)
  {
    var r := RunCommand(ContainerName(version), image, transferState);
    assert r[1] == r[..6][1] && r[4] == r[..6][4];
    VersionOfContainerName(version);
  }

  lemma PrepareRaises(test: string)
    ensures Raises(Prepare(test)) && Raised(Prepare(test)) == PrepareFailed(test)
  {
  }

  /** Stops, removals and pytest runs never raise. */
  lemma QuietCalls(name: string, args: seq<string>)
    ensures !Raises(Docker(StopCommand(name))) && !Raises(Docker(RemoveCommand(name))) && !Raises(Pytest(args))
  {
  }

  /** A step meant to make the calls `intended`, one after another after
      the calls `before`, made `issued` and ended with outcome `r`: it stops
      at the first raising call the engine refuses, failing with what that
      call raises, and otherwise makes every call and returns normally. */
  ghost predicate Attempted(engine: Engine, before: seq<Event>, issued: seq<Event>,
                            intended: seq<Event>, r: Outcome)
    decreases |intended|
  {
    if intended == [] then issued == [] && r == Ok
    else if Raises(intended[0]) && !engine(before, intended[0]) then
      issued == [intended[0]] && r == Fail(Raised(intended[0]))
    else
      issued != [] && issued[0] == intended[0]
      && Attempted(engine, before + [intended[0]], issued[1..], intended[1..], r)
  }

  /** An attempt makes a prefix of its calls: all of them exactly when it
      returned normally, and otherwise up to a raising call the engine
      refused, whose exception is the outcome. */
  lemma {:induction false} AttemptedPrefix(engine: Engine, before: seq<Event>, issued: seq<Event>,
                                           intended: seq<Event>, r: Outcome)
    requires Attempted(engine, before, issued, intended, r)
    ensures issued <= intended
    ensures r.Ok? ==> issued == intended
    ensures r.Fail? ==>
      (issued != [] && Raises(issued[|issued| - 1])
       && !engine(before + issued[..|issued| - 1], issued[|issued| - 1])
       && r == Fail(Raised(issued[|issued| - 1])))
    decreases |intended|
  {
    if intended != [] {
      if Raises(intended[0]) && !engine(before, intended[0]) {
        assert before + issued[..0] == before;
      } else {
        var b := before + [intended[0]];
        AttemptedPrefix(engine, b, issued[1..], intended[1..], r);
        assert issued == [intended[0]] + issued[1..];
        assert intended == [intended[0]] + intended[1..];
        if r.Fail? {
          var n := |issued[1..]|;
          assert issued[..|issued| - 1] == [intended[0]] + issued[1..][..n - 1];
          assert before + issued[..|issued| - 1] == b + issued[1..][..n - 1];
        }
      }
    }
  }

  /** In an attempt every raising call made was accepted, except the last
      one when the attempt failed. */
  lemma {:induction false} AttemptedAccepted(engine: Engine, before: seq<Event>, issued: seq<Event>,
                                             intended: seq<Event>, r: Outcome)
    requires Attempted(engine, before, issued, intended, r)
    ensures forall k | 0 <= k < |issued| && Raises(issued[k]) ::
      engine(before + issued[..k], issued[k]) <==> (r.Ok? || k < |issued| - 1)
    decreases |intended|
  {
    if intended != [] && !(Raises(intended[0]) && !engine(before, intended[0])) {
      var b := before + [issued[0]];
      var rest := issued[1..];
      AttemptedAccepted(engine, b, rest, intended[1..], r);
      AttemptedPrefix(engine, b, rest, intended[1..], r);
      forall k | 0 < k < |issued|
        ensures before + issued[..k] == b + rest[..k - 1] && issued[k] == rest[k - 1]
      {
        assert issued[..k] == [issued[0]] + rest[..k - 1];
      }
      assert before + issued[..0] == before;
    } else if intended != [] {
      assert before + issued[..0] == before;
    }
  }

  /** The engine alone decides an attempt: the calls made and the outcome. */
  lemma {:induction false} AttemptedDeterministic(engine: Engine, before: seq<Event>, intended: seq<Event>,
                                                  issued1: seq<Event>, r1: Outcome,
                                                  issued2: seq<Event>, r2: Outcome)
    requires Attempted(engine, before, issued1, intended, r1)
    requires Attempted(engine, before, issued2, intended, r2)
    ensures issued1 == issued2 && r1 == r2
    decreases |intended|
  {
    if intended != [] && !(Raises(intended[0]) && !engine(before, intended[0])) {
      AttemptedDeterministic(engine, before + [intended[0]], intended[1..],
                             issued1[1..], r1, issued2[1..], r2);
      assert issued1 == [issued1[0]] + issued1[1..] && issued2 == [issued2[0]] + issued2[1..];
    }
  }

  /** One more call after an attempt that returned normally: the outcome
      is what that call raises if it raises and is refused, and `Ok`
      otherwise. */
  lemma {:induction false} AttemptedStep(engine: Engine, before: seq<Event>, issued: seq<Event>,
                                         intended: seq<Event>, e: Event, r: Outcome)
    requires Attempted(engine, before, issued, intended, Ok)
    requires r == if Raises(e) && !engine(before + issued, e) then Fail(Raised(e)) else Ok
    ensures Attempted(engine, before, issued + [e], intended + [e], r)
    decreases |intended|
  {
    if intended == [] {
      assert before + issued == before && intended + [e] == [e] && issued + [e] == [e];
      assert [e][1..] == [];
    } else {
      var b := before + [intended[0]];
      assert b + issued[1..] == before + issued by {
        assert issued == [intended[0]] + issued[1..];
      }
      AttemptedStep(engine, b, issued[1..], intended[1..], e, r);
      assert (issued + [e])[1..] == issued[1..] + [e];
      assert (intended + [e])[1..] == intended[1..] + [e];
    }
  }

  /** A step that returned normally followed by another step is a step,
      which fails exactly when the second one does. */
  lemma {:induction false} AttemptedThen(engine: Engine, before: seq<Event>, a: seq<Event>, intendedA: seq<Event>,
                                         b: seq<Event>, intendedB: seq<Event>, r: Outcome)
    requires Attempted(engine, before, a, intendedA, Ok)
    requires Attempted(engine, before + a, b, intendedB, r)
    ensures Attempted(engine, before, a + b, intendedA + intendedB, r)
    decreases |intendedA|
  {
    if intendedA == [] {
      assert a == [] && before + a == before;
      assert a + b == b && intendedA + intendedB == intendedB;
    } else {
      var x := intendedA[0];
      assert a == [x] + a[1..];
      assert before + [x] + a[1..] == before + a;
      AttemptedThen(engine, before + [x], a[1..], intendedA[1..], b, intendedB, r);
      assert (a + b)[0] == x && (a + b)[1..] == a[1..] + b;
      assert (intendedA + intendedB)[0] == x && (intendedA + intendedB)[1..] == intendedA[1..] + intendedB;
    }
  }

  /** The same, for the next call of a sequence meant to be made in full. */
  lemma AttemptedNext(engine: Engine, before: seq<Event>, issued: seq<Event>,
                      intended: seq<Event>, i: nat, r: Outcome)
    requires i < |intended|
    requires Attempted(engine, before, issued, intended[..i], Ok)
    requires r == if Raises(intended[i]) && !engine(before + issued, intended[i]) then Fail(Raised(intended[i])) else Ok
    ensures Attempted(engine, before, issued + [intended[i]], intended[..i + 1], r)
    ensures before + issued + [intended[i]] == before + (issued + [intended[i]])
  {
    assert intended[..i + 1] == intended[..i] + [intended[i]];
    AttemptedStep(engine, before, issued, intended[..i], intended[i], r);
  }

  /** A call that cannot raise is a step that returns normally, whatever
      the engine answers. */
  lemma QuietStep(engine: Engine, before: seq<Event>, e: Event)
    requires !Raises(e)
    ensures Attempted(engine, before, [e], [e], Ok)
  {
    assert [e][1..] == [];
  }

  /** A step that raised makes none of the calls meant to come after it. */
  lemma {:induction false} AttemptedStops(engine: Engine, before: seq<Event>, a: seq<Event>, intendedA: seq<Event>,
                                          rest: seq<Event>, r: Outcome)
    requires r.Fail? && Attempted(engine, before, a, intendedA, r)
    ensures Attempted(engine, before, a, intendedA + rest, r)
    ensures rest != [] ==> |a| < |intendedA + rest|
    decreases |intendedA|
  {
    assert intendedA != [];
    assert (intendedA + rest)[0] == intendedA[0];
    if !(Raises(intendedA[0]) && !engine(before, intendedA[0])) {
      AttemptedStops(engine, before + [intendedA[0]], a[1..], intendedA[1..], rest, r);
      assert (intendedA + rest)[1..] == intendedA[1..] + rest;
    }
  }

  /** The names of the containers whose `docker run` the engine accepted,
      among the calls `s` made after `before`. */
  ghost function Started(engine: Engine, before: seq<Event>, s: seq<Event>): set<string>
    decreases |s|
  {
    if s == [] then {}
    else (if IsStart(s[0]) && engine(before, s[0]) then {s[0].args[4]} else {})
         + Started(engine, before + [s[0]], s[1..])
  }

  /** A name is started exactly when some accepted call is a run of it. */
  lemma {:induction false} StartedMembers(engine: Engine, before: seq<Event>, s: seq<Event>, n: string)
    ensures n in Started(engine, before, s) <==>
      exists i | 0 <= i < |s| :: IsRunOf(s[i], n) && engine(before + s[..i], s[i])
    decreases |s|
  {
    if s != [] {
      var b := before + [s[0]];
      var rest := s[1..];
      StartedMembers(engine, b, rest, n);
      forall i | 0 < i < |s|
        ensures before + s[..i] == b + rest[..i - 1] && s[i] == rest[i - 1]
      {
        assert s[..i] == [s[0]] + rest[..i - 1];
      }
      assert before + s[..0] == before;
      if n in Started(engine, b, rest) {
        var j :| 0 <= j < |rest| && IsRunOf(rest[j], n) && engine(b + rest[..j], rest[j]);
        assert IsRunOf(s[j + 1], n) && engine(before + s[..j + 1], s[j + 1]);
      }
    }
  }

  lemma {:induction false} StartedAppend(engine: Engine, before: seq<Event>, a: seq<Event>, b: seq<Event>)
    ensures Started(engine, before, a + b) == Started(engine, before, a) + Started(engine, before + a, b)
    decreases |a|
  {
    if a == [] {
      assert a + b == b && before + a == before;
    } else {
      assert (a + b)[0] == a[0] && (a + b)[1..] == a[1..] + b;
      assert before + [a[0]] + a[1..] == before + a by {
        assert a == [a[0]] + a[1..];
      }
      StartedAppend(engine, before + [a[0]], a[1..], b);
    }
  }

  lemma {:induction false} StartedNone(engine: Engine, before: seq<Event>, s: seq<Event>)
    requires forall k | 0 <= k < |s| :: !IsStart(s[k])
    ensures Started(engine, before, s) == {}
    decreases |s|
  {
    if s != [] {
      assert !IsStart(s[0]);
      StartedNone(engine, before + [s[0]], s[1..]);
    }
  }

  /** What the two calls of start_marqo_container amount to, for each
      answer of the engine: a refused pull ends the step before the run; an
      accepted pull is followed by the run, which starts the container
      exactly when it is accepted. */
  lemma StartAttempted(engine: Engine, before: seq<Event>, version: string,
                       image: Option<string>, transferState: Option<string>)
    ensures var s := StartEvents(version, image, transferState);
      !engine(before, s[0]) ==>
        Attempted(engine, before, [s[0]], s, Fail(PullFailed(ImageFor(version, image))))
        && Started(engine, before, [s[0]]) == {}
    ensures var s := StartEvents(version, image, transferState);
      var r := if engine(before + [s[0]], s[1]) then Ok else Fail(RunFailed(version));
      engine(before, s[0]) ==>
        Attempted(engine, before, s, s, r)
        && Started(engine, before + [s[0]], [s[1]]) == (if r.Ok? then {ContainerName(version)} else {})
        && Started(engine, before, s) == (if r.Ok? then {ContainerName(version)} else {})
  {
    var s := StartEvents(version, image, transferState);
    var img := ImageFor(version, image);
    PullRaises(img);
    RunRaises(version, img, transferState);
    RunCommandTransfer(ContainerName(version), img, transferState);
    assert [s[0]][1..] == [] && s[1..] == [s[1]] && s[1..][1..] == [];
  }
}
