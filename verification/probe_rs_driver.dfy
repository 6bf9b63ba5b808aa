/** The probe-rs driver (ProbeRsDriver in pytest/drivers/probe_rs_driver.py):
    the command lines it builds for the probe-rs binary and how each
    invocation's result becomes a return or an exception. The binary's own
    behaviour is not modelled: how each invocation ends is a parameter. */
module ProbeRs {
  import opened Results
  import opened LogStream

  /** The labgrid NetworkService resource the driver is bound to. */
  datatype NetworkService = NetworkService(address: string, port: nat)

  datatype ProbeRsDriver = ProbeRsDriver(
    svc: NetworkService,
    token: string,
    chip: string,
    wsScheme: string,     // "ws" or "wss"
    probeRsBin: string)

  /** A driver with every attribute left at its default. */
  function WithDefaults(svc: NetworkService): ProbeRsDriver
  {
    ProbeRsDriver(svc, "", "", "ws", "probe-rs")
  }

  // ---------------------------------------------------------------------------
  // Decimal rendering of the port, as an f-string renders an int

  predicate AllDigits(s: string)
  {
    forall i :: 0 <= i < |s| ==> '0' <= s[i] <= '9'
  }

  function Digit(d: nat): (c: char)
    requires d < 10
    ensures '0' <= c <= '9' && (c as int) - ('0' as int) == d
  {
    (('0' as int) + d) as char
  }

  function Decimal(n: nat): (r: string)
    ensures r != [] && AllDigits(r)
    ensures |r| == 1 || r[0] != '0'
    ensures r[0] == '0' ==> n == 0
    decreases n
  {
    if n < 10 then [Digit(n)] else Decimal(n / 10) + [Digit(n % 10)]
  }

  /** The number a string of decimal digits denotes. */
  function DigitsValue(s: string): nat
    requires AllDigits(s)
  {
    if s == [] then 0 else DigitsValue(s[..|s| - 1]) * 10 + ((s[|s| - 1] as int) - ('0' as int))
  }

  /** Reading the rendered port back gives the port. */
  lemma {:induction false} DecimalRoundTrip(n: nat)
    ensures DigitsValue(Decimal(n)) == n
    decreases n
  {
    if n >= 10 {
      DecimalRoundTrip(n / 10);
      var r := Decimal(n);
      assert r[..|r| - 1] == Decimal(n / 10);
    }
  }

  // ---------------------------------------------------------------------------
  // Command lines

  datatype Subcommand =
    | List
    | Download(chip: string, path: string)
    | Reset(chip: string)
    | AttachUnderReset(chip: string, path: string)

  /** The websocket URL of the probe-rs server. */
  function Host(d: ProbeRsDriver): string
  {
    d.wsScheme + "://" + d.svc.address + ":" + Decimal(d.svc.port)
  }

  function BaseArgs(d: ProbeRsDriver): seq<string>
  {
    [d.probeRsBin, "--host", Host(d), "--token", d.token]
  }

  function Words(sub: Subcommand): seq<string>
  {
    match sub
    case List => ["list"]
    case Download(chip, path) => ["download", "--chip", chip, path]
    case Reset(chip) => ["reset", "--chip", chip]
    case AttachUnderReset(chip, path) => ["attach", "--chip", chip, path, "--connect-under-reset"]
  }

  function Argv(d: ProbeRsDriver, sub: Subcommand): seq<string>
  {
    BaseArgs(d) + Words(sub)
  }

  function ListArgv(d: ProbeRsDriver): seq<string> { Argv(d, List) }

  function FlashArgv(d: ProbeRsDriver, path: string): seq<string> { Argv(d, Download(d.chip, path)) }

  function ResetArgv(d: ProbeRsDriver): seq<string> { Argv(d, Reset(d.chip)) }

  /** attach_with_reset starts the attach command with stderr merged into stdout. */
  function AttachLaunch(d: ProbeRsDriver, path: string): Launch
  {
    Launch(Argv(d, AttachUnderReset(d.chip, path)), IntoStdout)
  }

  /** The positional reading of a command line the driver builds: the
      binary, the values after `--host` and `--token`, and the subcommand
      words. Options are read by position, not looked up by name. */
  datatype Invocation = Invocation(bin: string, host: string, token: string, sub: Subcommand)

  function ParseWords(w: seq<string>): Option<Subcommand>
  {
    if w == ["list"] then Some(List)
    else if |w| == 4 && w[0] == "download" && w[1] == "--chip" then Some(Download(w[2], w[3]))
    else if |w| == 3 && w[0] == "reset" && w[1] == "--chip" then Some(Reset(w[2]))
    else if |w| == 5 && w[0] == "attach" && w[1] == "--chip" && w[4] == "--connect-under-reset"
    then Some(AttachUnderReset(w[2], w[3]))
    else None
  }

  function ParseArgv(argv: seq<string>): Option<Invocation>
  {
    if |argv| < 5 || argv[1] != "--host" || argv[3] != "--token" then None
    else match ParseWords(argv[5..])
      case Some(sub) => Some(Invocation(argv[0], argv[2], argv[4], sub))
      case None => None
  }

  /** Every command line starts with the five base arguments: the binary,
      --host with scheme://address:port, and --token. */
  lemma CommandsShareBase(d: ProbeRsDriver, sub: Subcommand)
    ensures Argv(d, sub)[..5] ==
      [d.probeRsBin, "--host", d.wsScheme + "://" + d.svc.address + ":" + Decimal(d.svc.port), "--token", d.token]
    ensures Argv(d, sub)[5..] == Words(sub)
  {
  }

  /** Every command line the driver builds reads back as the binary, host,
      token and subcommand it was built from, whatever the chip, path or
      token hold. */
  lemma ArgvRoundTrip(d: ProbeRsDriver, sub: Subcommand)
    ensures ParseArgv(Argv(d, sub)) == Some(Invocation(d.probeRsBin, Host(d), d.token, sub))
  {
    var argv := Argv(d, sub);
    assert argv[5..] == Words(sub);
  }

  /** A driver left at its defaults talks plain websocket to the service,
      runs "probe-rs", passes an empty token, and passes the empty chip on as
      an empty `--chip` argument to every command that names a chip. */
  lemma DefaultDriverArgs(svc: NetworkService, path: string)
    ensures var d := WithDefaults(svc);
      BaseArgs(d) == ["probe-rs", "--host", "ws://" + svc.address + ":" + Decimal(svc.port), "--token", ""] &&
      FlashArgv(d, path)[6..8] == ["--chip", ""] && ResetArgv(d)[6..] == ["--chip", ""] &&
      AttachLaunch(d, path).argv[6..8] == ["--chip", ""]
  {
    assert "ws" + "://" == "ws://";
  }

  /** Flashing and attaching name the same image, in the same position,
      for the same chip; only attach connects under reset and merges stderr. */
  lemma FlashAndAttachAgree(d: ProbeRsDriver, path: string)
    ensures var flash := FlashArgv(d, path);
            var attach := AttachLaunch(d, path);
      flash[..5] == attach.argv[..5] &&
      flash[5] == "download" && attach.argv[5] == "attach" &&
      flash[7] == attach.argv[7] == d.chip && flash[8] == attach.argv[8] == path &&
      |flash| == 9 && |attach.argv| == 10 &&
      attach.argv[9] == "--connect-under-reset" && attach.stderr == IntoStdout
  {
  }

  // ---------------------------------------------------------------------------
  // Invocations

  /** How a run of the binary ended: it could not be started, or it finished
      with a return code after some whole number of seconds. */
  datatype Completion = NotFound | Finished(code: int, seconds: nat)

  datatype CommandError =
    | SpawnFailed(argv: seq<string>)
    | TimeoutExpired(argv: seq<string>, limit: nat)
    | CalledProcessError(code: int, argv: seq<string>)

  /** The deadline flash() gives the download command, in seconds. */
  const FlashTimeout: nat := 20

  /** A checked run (subprocess.run with check=True, check_call,
      check_output) with an optional deadline: it returns only when the
      command started, finished in time and returned 0; otherwise the
      exception names the command line. */
  function Checked(argv: seq<string>, run: Completion, limit: Option<nat>): (r: Outcome<CommandError>)
    ensures r.Pass? <==> run.Finished? && run.code == 0 && (limit.None? || run.seconds <= limit.value)
    ensures r.Fail? ==> r.error.argv == argv
    ensures r.Fail? && r.error.CalledProcessError? ==> run.Finished? && r.error.code == run.code && run.code != 0
    ensures r.Fail? && r.error.TimeoutExpired? ==>
      run.Finished? && limit == Some(r.error.limit) && run.seconds > r.error.limit
  {
    match run
    case NotFound => Fail(SpawnFailed(argv))
    case Finished(code, seconds) =>
      if limit.Some? && seconds > limit.value then Fail(TimeoutExpired(argv, limit.value))
      else if code != 0 then Fail(CalledProcessError(code, argv))
      else Pass
  }

  /** flash(path): download the image, within 20 seconds. */
  function Flash(d: ProbeRsDriver, path: string, run: Completion): (r: Outcome<CommandError>)
    ensures r.Pass? <==> run.Finished? && run.code == 0 && run.seconds <= FlashTimeout
    ensures r.Fail? ==> r.error.argv == FlashArgv(d, path)
  {
    Checked(FlashArgv(d, path), run, Some(FlashTimeout))
  }

  /** reset(): a hardware reset through the probe, without a deadline. */
  function ResetTarget(d: ProbeRsDriver, run: Completion): (r: Outcome<CommandError>)
    ensures r.Pass? <==> run.Finished? && run.code == 0
    ensures r.Fail? ==> r.error.argv == ResetArgv(d) && !r.error.TimeoutExpired?
  {
    Checked(ResetArgv(d), run, None)
  }

  /** list_probes(): the probe inventory (its text is not modelled). */
  function ListProbes(d: ProbeRsDriver, run: Completion): (r: Outcome<CommandError>)
    ensures r.Pass? <==> run.Finished? && run.code == 0
    ensures r.Fail? ==> r.error.argv == ListArgv(d) && !r.error.TimeoutExpired?
  {
    Checked(ListArgv(d), run, None)
  }

  /** attach_with_reset(path, timeout): start the attach command with stdout
      piped and stderr merged into it, and wrap it in a stream that starts its
      clock now. Starting fails only when the binary cannot be started. */
  method AttachWithReset(d: ProbeRsDriver, path: string, timeout: Option<int>, spawned: bool, proc: Process, now: int)
    returns (r: Result<ProcessLogStream, CommandError>)
    ensures r.Ok? <==> spawned
    ensures r.Err? ==> r.error == SpawnFailed(AttachLaunch(d, path).argv)
    ensures r.Ok? ==>
      fresh(r.value) && r.value.Valid() &&
      r.value.proc == proc.(hasStdout := true) && r.value.command == AttachLaunch(d, path) &&
      r.value.timeout == timeout && r.value.start == now && r.value.State() == Started(r.value.proc)
  {
    var launch := AttachLaunch(d, path);
    if !spawned {
      return Err(SpawnFailed(launch.argv));
    }
    var stream := new ProcessLogStream(proc.(hasStdout := true), launch, timeout, now);
    return Ok(stream);
  }
}
