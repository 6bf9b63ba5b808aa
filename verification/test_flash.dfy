/** The flashing test (pytest/tests/test_flash.py): pick the probe-rs driver
    named by the environment, download the image, attach under reset and
    check that the first line the firmware prints is its launch banner with
    the expected version and hash; the attach stream is always closed. The
    bench — environment variables, the drivers the target offers, how the
    download ends and what the attached process prints — is a parameter. */
module FlashTest {
  import opened Results
  import opened LogStream
  import opened ProbeRs

  /** `os.environ.get(key) or fallback`: an unset or empty variable gives
      the fallback. */
  function EnvOr(env: map<string, string>, key: string, fallback: string): (v: string)
    ensures v == fallback || (key in env && v == env[key])
    ensures v == "" ==> fallback == ""
    ensures key in env && env[key] != "" ==> v == env[key]
  {
    if key in env && env[key] != "" then env[key] else fallback
  }

  /** The text the first line must contain. */
  function Banner(version: string, hash: string): string
  {
    "Launching: FW version=" + version + " hash=" + hash
  }

  /** Python's `pat in s` on strings. */
  predicate Contains(s: string, pat: string)
    decreases |s|
  {
    pat <= s || (s != [] && Contains(s[1..], pat))
  }

  /** `pat` occurs in `s` starting at position `i`. */
  predicate OccursAt(s: string, pat: string, i: int)
  {
    0 <= i <= |s| - |pat| && s[i..i + |pat|] == pat
  }

  /** `pat in s` holds exactly when `pat` occurs at some position of `s`. */
  lemma ContainsIff(s: string, pat: string)
    ensures Contains(s, pat) <==> exists i :: OccursAt(s, pat, i)
  {
    if Contains(s, pat) {
      var i := ContainsAt(s, pat);
    }
    if i :| OccursAt(s, pat, i) {
      OccursContains(s, pat, i);
    }
  }

  /** Where `pat in s` finds the pattern. */
  lemma {:induction false} ContainsAt(s: string, pat: string) returns (i: nat)
    requires Contains(s, pat)
    ensures OccursAt(s, pat, i)
    decreases |s|
  {
    if pat <= s {
      i := 0;
    } else {
      var j := ContainsAt(s[1..], pat);
      assert s[1..][j..j + |pat|] == s[j + 1..j + 1 + |pat|];
      i := j + 1;
    }
  }

  /** An occurrence anywhere makes `pat in s` true. */
  lemma {:induction false} OccursContains(s: string, pat: string, i: int)
    requires OccursAt(s, pat, i)
    ensures Contains(s, pat)
    decreases i
  {
    if i > 0 {
      assert s[1..][i - 1..i - 1 + |pat|] == s[i..i + |pat|];
      OccursContains(s[1..], pat, i - 1);
    }
  }

  /** What the test does, in order. */
  datatype Step =
    | GetDriver(name: string)
    | RunFlash(argv: seq<string>)
    | SpawnAttach(launch: Launch)
    | FirstLine(pulled: Pulls)        // the one next() on the stream's lines
    | CloseStream(ops: seq<Op>)       // what stream.close() issued

  datatype TestFailure =
    | NoSuchDriver(name: string)
    | FlashFailed(cause: CommandError)
    | AttachFailed(cause: CommandError)
    | AssertionFailed(message: string)
    | StreamFailed(end: End)          // an exception out of next(): timeout, exit code, reap

  /** Everything the test's outcome depends on. `attach` is the process the
      attach command becomes, and `attachedAt` the clock when the stream was
      created. */
  datatype Bench = Bench(
    env: map<string, string>,
    drivers: map<string, ProbeRsDriver>,
    flashRun: Completion,
    attachSpawned: bool,
    attach: Process,
    attachedAt: int)

  datatype TestRun = TestRun(trace: seq<Step>, verdict: Outcome<TestFailure>)

  /** The deadline the test gives the attach stream, in seconds. */
  const AttachTimeout: int := 30

  /** The grace close() gives each signal, in seconds. */
  const CloseGrace: nat := 2

  const NoOutput: string := "no output received from probe-rs"

  function ProbeName(env: map<string, string>): string { EnvOr(env, "PROBE_NAME", "no-probe") }
  function Binary(env: map<string, string>): string { EnvOr(env, "BINARY", "no-binary") }
  function FwVersion(env: map<string, string>): string { EnvOr(env, "FW_VERSION", "no-version") }
  function FwHash(env: map<string, string>): string { EnvOr(env, "FW_HASH", "no-hash") }

  // ---------------------------------------------------------------------------
  // The test, step by step

  /** test_flash: get the driver, flash, attach, take one line, check it,
      and close the stream whatever the check found. */
  method TestFlash(b: Bench) returns (trace: seq<Step>, verdict: Outcome<TestFailure>)
    ensures TestRun(trace, verdict) == Expected(b)
  {
    var name := ProbeName(b.env);
    trace := [GetDriver(name)];
    if name !in b.drivers {
      return trace, Fail(NoSuchDriver(name));
    }
    var d := b.drivers[name];
    var binary := Binary(b.env);
    var version := FwVersion(b.env);
    var hash := FwHash(b.env);

    trace := trace + [RunFlash(FlashArgv(d, binary))];
    var flashed := Flash(d, binary, b.flashRun);
    if flashed.Fail? {
      return trace, Fail(FlashFailed(flashed.error));
    }

    trace := trace + [SpawnAttach(AttachLaunch(d, binary))];
    var attached := AttachWithReset(d, binary, Some(AttachTimeout), b.attachSpawned, b.attach, b.attachedAt);
    if attached.Err? {
      return trace, Fail(AttachFailed(attached.error));
    }
    var stream := attached.value;
    var steps, failure := FirstLineThenClose(stream, version, hash);
    trace := trace + steps;
    verdict := if failure.Some? then Fail(failure.value) else Pass;
  }

  /** The try/finally around the attach stream: one next() on its lines,
      the check on what it gave, then close() whatever the check found. */
  method FirstLineThenClose(stream: ProcessLogStream, version: string, hash: string)
    returns (steps: seq<Step>, failure: Option<TestFailure>)
    requires stream.Valid() && stream.State() == Started(stream.proc)
    modifies stream
    ensures var first := Consume(Drain(stream.proc, stream.timeout, stream.start, Started(stream.proc)), 1);
      steps == [FirstLine(first), CloseStream(CloseOps(stream.proc, Started(stream.proc), CloseGrace))] &&
      failure == Judge(first, version, hash) &&
      stream.State() == CloseState(stream.proc, AfterFirstPull(stream.proc, first), CloseGrace)
    ensures stream.Valid() && stream.cursor <= 1
  {
    // try
    var lines, end := stream.IterLines(1);
    if lines == [] {
      // next() ended the generator: StopIteration, or the exception it raised
      failure := if end == Some(Exhausted) then Some(AssertionFailed(NoOutput)) else Some(StreamFailed(end.value));
    } else if Contains(lines[0], Banner(version, hash)) {
      failure := None;
    } else {
      failure := Some(AssertionFailed("unexpected first line: " + lines[0]));
    }

    // finally
    var before := stream.log;
    stream.Close(CloseGrace);
    steps := [FirstLine(Pulls(lines, end)), CloseStream(stream.log[|before|..])];
  }

  // ---------------------------------------------------------------------------
  // The test, described as a whole

  /** The stream's state after the single next() on a fresh stream: readline
      has consumed the line it yielded, or the late line it gave up on, and
      an end at end of file has logged the 1-second reap wait. */
  function AfterFirstPull(p: Process, first: Pulls): ProcState
  {
    var st := Started(p);
    st.(cursor := |first.lines| + (if first.end == Some(TimedOut) then 1 else 0),
        log := if first.end.Some? && AtEof(first.end.value) then [Wait(1, st.status.Some?)] else [])
  }

  /** The attached process as the stream sees it: stdout is piped. */
  function Attached(b: Bench): Process
  {
    b.attach.(hasStdout := true)
  }

  /** What the single next() on a fresh stream gives. */
  function FirstPull(b: Bench): Pulls
  {
    var p := Attached(b);
    Consume(Drain(p, Some(AttachTimeout), b.attachedAt, Started(p)), 1)
  }

  /** The check made on the first pull: a line containing the banner passes;
      an empty stream that ended cleanly is "no output"; any other end is
      the generator's own exception. */
  function Judge(first: Pulls, version: string, hash: string): Option<TestFailure>
  {
    if first.lines != [] then
      if Contains(first.lines[0], Banner(version, hash)) then None
      else Some(AssertionFailed("unexpected first line: " + first.lines[0]))
    else if first.end == Some(Exhausted) || first.end.None? then Some(AssertionFailed(NoOutput))
    else Some(StreamFailed(first.end.value))
  }

  function Expected(b: Bench): TestRun
  {
    var name := ProbeName(b.env);
    if name !in b.drivers then TestRun([GetDriver(name)], Fail(NoSuchDriver(name)))
    else
      var d := b.drivers[name];
      var binary := Binary(b.env);
      var flashed := Flash(d, binary, b.flashRun);
      var flashing := [GetDriver(name), RunFlash(FlashArgv(d, binary))];
      if flashed.Fail? then TestRun(flashing, Fail(FlashFailed(flashed.error)))
      else
        var launch := AttachLaunch(d, binary);
        if !b.attachSpawned then TestRun(flashing + [SpawnAttach(launch)], Fail(AttachFailed(SpawnFailed(launch.argv))))
        else
          var first := FirstPull(b);
          var failure := Judge(first, FwVersion(b.env), FwHash(b.env));
          TestRun(flashing + [SpawnAttach(launch), FirstLine(first),
                              CloseStream(CloseOps(Attached(b), Started(Attached(b)), CloseGrace))],
                  if failure.Some? then Fail(failure.value) else Pass)
  }

  // ---------------------------------------------------------------------------
  // What the test guarantees

  /** A text contains each of its prefixes. */
  lemma ContainsPrefix(s: string, pat: string, rest: string)
    requires s == pat + rest
    ensures Contains(s, pat)
  {
    assert pat <= s;
  }

  /** A pattern longer than the text never occurs in it. */
  lemma {:induction false} ContainsNeedsRoom(s: string, pat: string)
    ensures Contains(s, pat) ==> |pat| <= |s|
    decreases |s|
  {
    if s != [] && !(pat <= s) {
      ContainsNeedsRoom(s[1..], pat);
    }
  }

  /** The first next() reads one line and no more: the first line printed,
      stripped, unless it arrived after the 30-second deadline. With no
      output at all it ends as the reap after end of file decides. Later
      lines, and the exit code once a line exists, play no part. */
  lemma FirstPullIsFirstLine(b: Bench)
    ensures var out := b.attach.output;
      FirstPull(b) ==
        if out == [] then Pulls([], Some(AfterEof(Started(Attached(b)).status)))
        else if Late(Some(AttachTimeout), b.attachedAt, out[0].at) then Pulls([], Some(TimedOut))
        else Pulls([StripNewlines(out[0].raw)], None)
  {
    var p := Attached(b);
    assert p.output[0..] == b.attach.output;
    if b.attach.output != [] && !Late(Some(AttachTimeout), b.attachedAt, b.attach.output[0].at) {
      var d := Run(Some(AttachTimeout), b.attachedAt, b.attach.output, Started(p).status);
      assert d.lines[..1] == [StripNewlines(b.attach.output[0].raw)];
    }
  }

  /** The image is flashed before anything is attached, and the attach
      command names the same image for the same chip. A failed download ends
      the test with the download's error before any attach. */
  lemma FlashBeforeAttach(b: Bench)
    ensures var t := Expected(b).trace;
      forall i :: 0 <= i < |t| && t[i].SpawnAttach? ==>
        i == 2 && t[1].RunFlash? && t[1].argv[7] == t[i].launch.argv[7] &&
        t[1].argv[8] == t[i].launch.argv[8] == Binary(b.env)
    ensures ProbeName(b.env) in b.drivers ==>
      var flashed := Flash(b.drivers[ProbeName(b.env)], Binary(b.env), b.flashRun);
      flashed.Fail? ==> |Expected(b).trace| == 2 && Expected(b).verdict == Fail(FlashFailed(flashed.error))
  {
    if ProbeName(b.env) in b.drivers {
      FlashAndAttachAgree(b.drivers[ProbeName(b.env)], Binary(b.env));
    }
  }

  /** Once the attach command has started, the test always ends by closing
      the stream, whatever the first line was: close() sends at most SIGINT,
      SIGTERM and SIGKILL, in that order, waits no longer than 3 * 2 + 1
      seconds, ends with the one-second reap, and reaps a process that
      SIGKILL stops, releasing the probe. When the attach command does not
      start there is no stream and nothing to close. */
  lemma StreamAlwaysClosed(b: Bench)
    requires ProbeName(b.env) in b.drivers
    requires Flash(b.drivers[ProbeName(b.env)], Binary(b.env), b.flashRun).Pass?
    ensures var t := Expected(b).trace;
      b.attachSpawned <==> |t| == 5 && t[4].CloseStream?
    ensures var t := Expected(b).trace;
      b.attachSpawned ==>
        var ops := t[4].ops;
        Signals(ops) <= Ladder && WaitTime(ops) <= 3 * CloseGrace + 1 &&
        ops[|ops| - 1].Wait? && ops[|ops| - 1].limit == 1 &&
        (b.attach.stop.StopsOn? && Kill !in b.attach.refused ==> ops[|ops| - 1].exited)
  {
    var p := Attached(b);
    var st := Started(p);
    CloseSignalsFollowLadder(p, st, CloseGrace);
    CloseWaitBound(p, st, CloseGrace);
    if b.attach.stop.StopsOn? && Kill !in b.attach.refused {
      CloseReapsKillable(p, st, CloseGrace);
    }
  }

  /** The test passes exactly when the named driver exists, the download
      succeeds within its deadline, the attach command starts, and the first
      line arrives within 30 seconds and holds the banner for the expected
      version and hash somewhere in it. */
  lemma PassIff(b: Bench)
    ensures Expected(b).verdict.Pass? <==>
      ProbeName(b.env) in b.drivers &&
      b.flashRun.Finished? && b.flashRun.code == 0 && b.flashRun.seconds <= FlashTimeout &&
      b.attachSpawned && b.attach.output != [] &&
      !Late(Some(AttachTimeout), b.attachedAt, b.attach.output[0].at) &&
      exists i :: OccursAt(StripNewlines(b.attach.output[0].raw), Banner(FwVersion(b.env), FwHash(b.env)), i)
  {
    FirstPullIsFirstLine(b);
    if b.attach.output != [] {
      ContainsIff(StripNewlines(b.attach.output[0].raw), Banner(FwVersion(b.env), FwHash(b.env)));
    }
  }

  /** When the attach stream prints nothing and reaches end of file: a clean
      exit fails the test with "no output received from probe-rs", a non-zero
      exit with the CalledProcessError, and a process that closed its stdout
      but is still running with the reap's timeout. */
  lemma EmptyStream(b: Bench)
    requires ProbeName(b.env) in b.drivers
    requires Flash(b.drivers[ProbeName(b.env)], Binary(b.env), b.flashRun).Pass?
    requires b.attachSpawned && b.attach.output == []
    ensures b.attach.stop.ExitsOnItsOwn? && b.attach.exitCode == 0 ==>
      Expected(b).verdict == Fail(AssertionFailed(NoOutput))
    ensures b.attach.stop.ExitsOnItsOwn? && b.attach.exitCode != 0 ==>
      Expected(b).verdict == Fail(StreamFailed(ExitError(b.attach.exitCode)))
    ensures !b.attach.stop.ExitsOnItsOwn? ==>
      Expected(b).verdict == Fail(StreamFailed(ReapTimedOut))
  {
    FirstPullIsFirstLine(b);
  }

  /** A first line in time decides the test alone: it passes if the banner
      occurs in it, and otherwise fails with a message quoting the line. A
      first line after the deadline fails the test with TimeoutError. */
  lemma FirstLineDecides(b: Bench)
    requires ProbeName(b.env) in b.drivers
    requires Flash(b.drivers[ProbeName(b.env)], Binary(b.env), b.flashRun).Pass?
    requires b.attachSpawned && b.attach.output != []
    ensures var line := StripNewlines(b.attach.output[0].raw);
      Expected(b).verdict ==
        if Late(Some(AttachTimeout), b.attachedAt, b.attach.output[0].at) then Fail(StreamFailed(TimedOut))
        else if Contains(line, Banner(FwVersion(b.env), FwHash(b.env))) then Pass
        else Fail(AssertionFailed("unexpected first line: " + line))
  {
    FirstPullIsFirstLine(b);
  }

  // ---------------------------------------------------------------------------
  // The flatsat scenarios

  const SampleDriver: ProbeRsDriver :=
    ProbeRsDriver(NetworkService("192.168.1.50", 3000), "", "STM32G474RETx", "ws", "probe-rs")

  /** The banner firmware 1.2.3 with hash deadbeef prints. */
  const BannerLine: string := Banner("1.2.3", "deadbeef")

  /** The bench with the probe-rs driver "probe-eps", the image
      "fw/eps-software", a download that succeeds, the expected version and
      hash taken from the environment, and a probe-rs attach that handles
      SIGINT by exiting with 0. */
  function Sample(version: string, output: seq<Line>, stop: Stop, exitCode: int): Bench
  {
    Bench(map["PROBE_NAME" := "probe-eps", "BINARY" := "fw/eps-software",
              "FW_VERSION" := version, "FW_HASH" := "deadbeef"],
          map["probe-eps" := SampleDriver],
          Finished(0, 5), true,
          Process(output, exitCode, stop, {}, map[Interrupt := 0], true, false), 100)
  }

  /** On the sample bench the driver is found, the download succeeds and
      the expected banner is the one for `version` and hash deadbeef. */
  lemma SampleSetUp(version: string, output: seq<Line>, stop: Stop, exitCode: int)
    requires version != ""
    ensures var b := Sample(version, output, stop, exitCode);
      ProbeName(b.env) in b.drivers &&
      Flash(b.drivers[ProbeName(b.env)], Binary(b.env), b.flashRun).Pass? &&
      b.attachSpawned && b.attach.output == output && b.attach.stop == stop && b.attach.exitCode == exitCode &&
      Banner(FwVersion(b.env), FwHash(b.env)) == Banner(version, "deadbeef")
  {
    var b := Sample(version, output, stop, exitCode);
    assert ProbeName(b.env) == "probe-eps";
    assert FwVersion(b.env) == version && FwHash(b.env) == "deadbeef";
  }

  /** Firmware that prints the expected banner first passes. */
  lemma FlatsatBannerPasses()
    ensures Expected(Sample("1.2.3", [Line(BannerLine + "\n", 101)], Unstoppable, 0)).verdict == Pass
  {
    var b := Sample("1.2.3", [Line(BannerLine + "\n", 101)], Unstoppable, 0);
    SampleSetUp("1.2.3", [Line(BannerLine + "\n", 101)], Unstoppable, 0);
    StripReadlineLine(BannerLine);
    ContainsPrefix(BannerLine, BannerLine, "");
    FirstLineDecides(b);
  }

  /** Firmware announcing another version fails the test, quoting the line. */
  lemma FlatsatWrongVersion()
    ensures Expected(Sample("1.2.30", [Line(BannerLine + "\n", 101)], StopsOn(Interrupt), 0)).verdict ==
      Fail(AssertionFailed("unexpected first line: " + BannerLine))
  {
    var b := Sample("1.2.30", [Line(BannerLine + "\n", 101)], StopsOn(Interrupt), 0);
    SampleSetUp("1.2.30", [Line(BannerLine + "\n", 101)], StopsOn(Interrupt), 0);
    StripReadlineLine(BannerLine);
    assert |Banner("1.2.30", "deadbeef")| > |BannerLine|;
    ContainsNeedsRoom(BannerLine, Banner("1.2.30", "deadbeef"));
    FirstLineDecides(b);
  }

  /** A banner that arrives 31 seconds after attaching is too late. */
  lemma FlatsatLateBanner()
    ensures Expected(Sample("1.2.3", [Line(BannerLine + "\n", 131)], StopsOn(Interrupt), 0)).verdict ==
      Fail(StreamFailed(TimedOut))
  {
    SampleSetUp("1.2.3", [Line(BannerLine + "\n", 131)], StopsOn(Interrupt), 0);
    FirstLineDecides(Sample("1.2.3", [Line(BannerLine + "\n", 131)], StopsOn(Interrupt), 0));
  }

  /** Firmware that exits cleanly without printing fails with "no output
      received from probe-rs"; close() then sends no signal and reaps it. */
  lemma FlatsatSilentExit()
    ensures var r := Expected(Sample("1.2.3", [], ExitsOnItsOwn, 0));
      r.verdict == Fail(AssertionFailed(NoOutput)) &&
      r.trace[4] == CloseStream([CloseStdout(true), Wait(1, true)])
  {
    SampleSetUp("1.2.3", [], ExitsOnItsOwn, 0);
    EmptyStream(Sample("1.2.3", [], ExitsOnItsOwn, 0));
  }
}
