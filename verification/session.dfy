/** The labgrid_session fixture (pytest/conftest.py): reserve the flatsat
    place through the labgrid coordinator, bring up the LED and probe-rs
    drivers, hand the target to the tests, then tear everything down. The
    labgrid-client runs, the environment file and the drivers' own effects
    are replaced by how each step ends; the fixture's decisions are what is
    modelled. */
module Session {
  import opened Results

  const Place: string := "flatsat"
  const MatchLed: string := "*/test-indicator-led/NetworkService/led"
  const MatchEps: string := "*/eps-probers/NetworkService/probe-eps"

  /** The place commands the fixture gives labgrid-client. */
  datatype Command = Delete | Create | AddMatch(pattern: string) | Show | Acquire | Release

  function Words(cmd: Command): seq<string>
  {
    match cmd
    case Delete => ["delete"]
    case Create => ["create"]
    case AddMatch(pattern) => ["add-match", pattern]
    case Show => ["show"]
    case Acquire => ["acquire"]
    case Release => ["release"]
  }

  /** The command line lg() runs. */
  function ClientArgv(coordinator: string, cmd: Command): seq<string>
  {
    ["labgrid-client", "--coordinator", coordinator, "-p", Place] + Words(cmd)
  }

  /** Every lg() command line names the coordinator and the flatsat place,
      and different commands give different command lines. */
  lemma ClientArgvDistinct(coordinator: string, a: Command, b: Command)
    ensures ClientArgv(coordinator, a)[..5] == ["labgrid-client", "--coordinator", coordinator, "-p", "flatsat"]
    ensures ClientArgv(coordinator, a) == ClientArgv(coordinator, b) ==> a == b
  {
    if ClientArgv(coordinator, a) == ClientArgv(coordinator, b) {
      assert ClientArgv(coordinator, a)[5..] == Words(a);
      assert ClientArgv(coordinator, b)[5..] == Words(b);
    }
  }

  /** How one labgrid-client run ended: it could not be started, or it
      exited with a return code. */
  datatype CallOutcome = NotStarted | Exited(code: int)

  datatype Role = Led | Probe

  /** The exceptions the fixture can raise. */
  datatype SessionError =
    | ClientNotStarted(cmd: Command)        // labgrid-client could not be started
    | CheckFailed(cmd: Command, code: int)  // CalledProcessError from a checked lg()
    | EnvironmentFailed                     // Environment("env.yaml") or get_target("main")
    | ActivationFailed(role: Role)          // get_driver activating the driver

  /** lg(*args, check): the exception it raises, if any. A run that cannot
      start raises whatever `check` says; a non-zero return code raises only
      when checked. */
  function Lg(cmd: Command, check: bool, o: CallOutcome): (r: Option<SessionError>)
    ensures r.None? <==> o.Exited? && (!check || o.code == 0)
    ensures r == Some(ClientNotStarted(cmd)) <==> o.NotStarted?
    ensures r.Some? && o.Exited? ==> check && r.value == CheckFailed(cmd, o.code)
  {
    match o
    case NotStarted => Some(ClientNotStarted(cmd))
    case Exited(code) => if check && code != 0 then Some(CheckFailed(cmd, code)) else None
  }

  /** What the fixture does, in order. */
  datatype Action =
    | Client(cmd: Command, check: bool)   // one lg() call
    | LoadEnvironment                     // Environment("env.yaml").get_target("main")
    | Activate(role: Role)                // get_driver, which activates the driver
    | YieldTarget                         // the tests run
    | Deactivate(role: Role, ok: bool)    // one guarded teardown step; ok is false when it raised

  /** How each step ends. `probeOff` and `ledOff` say whether the teardown
      step would succeed on a bound target. */
  datatype Steps = Steps(
    delete: CallOutcome, create: CallOutcome, addLed: CallOutcome, addEps: CallOutcome,
    show: CallOutcome, acquire: CallOutcome,
    environment: bool, ledOn: bool, probeOn: bool,
    probeOff: bool, ledOff: bool,
    release: CallOutcome)

  datatype Run = Run(trace: seq<Action>, result: Outcome<SessionError>)

  // ---------------------------------------------------------------------------
  // The fixture, step by step

  /** One lg() call appended to the trace. */
  method Call(trace: seq<Action>, cmd: Command, check: bool, o: CallOutcome)
    returns (after: seq<Action>, raised: Option<SessionError>)
    ensures after == trace + [Client(cmd, check)]
    ensures raised == Lg(cmd, check, o)
  {
    after := trace + [Client(cmd, check)];
    raised := Lg(cmd, check, o);
  }

  /** The setup calls: delete, create and the two add-match calls are not
      checked; show and acquire are. Stops at the first call that raises. */
  method Setup(s: Steps) returns (trace: seq<Action>, raised: Option<SessionError>)
    ensures Issued(trace, raised) == SetupFrom(s, 0)
  {
    trace, raised := Call([], Delete, false, s.delete);
    if raised.Some? { return; }
    assert SetupFrom(s, 0) == Issued(trace + SetupFrom(s, 1).actions, SetupFrom(s, 1).error);
    trace, raised := Call(trace, Create, false, s.create);
    if raised.Some? { return; }
    assert SetupFrom(s, 0) == Issued(trace + SetupFrom(s, 2).actions, SetupFrom(s, 2).error);
    trace, raised := Call(trace, AddMatch(MatchLed), false, s.addLed);
    if raised.Some? { return; }
    assert SetupFrom(s, 0) == Issued(trace + SetupFrom(s, 3).actions, SetupFrom(s, 3).error);
    trace, raised := Call(trace, AddMatch(MatchEps), false, s.addEps);
    if raised.Some? { return; }
    assert SetupFrom(s, 0) == Issued(trace + SetupFrom(s, 4).actions, SetupFrom(s, 4).error);
    trace, raised := ShowAndAcquire(s, trace);
  }

  /** The two checked setup calls, after the best-effort ones went through. */
  method ShowAndAcquire(s: Steps, done: seq<Action>) returns (trace: seq<Action>, raised: Option<SessionError>)
    requires SetupFrom(s, 0) == Issued(done + SetupFrom(s, 4).actions, SetupFrom(s, 4).error)
    ensures Issued(trace, raised) == SetupFrom(s, 0)
  {
    trace, raised := Call(done, Show, true, s.show);
    if raised.Some? { return; }
    assert SetupFrom(s, 0) == Issued(trace + SetupFrom(s, 5).actions, SetupFrom(s, 5).error);
    trace, raised := Call(trace, Acquire, true, s.acquire);
  }

  /** labgrid_session: setup calls, acquire, then a try whose finally
      deactivates the probe-rs driver, then the LED driver, each guarded,
      and releases the place. The tests' own failures are not thrown into
      the fixture, so a passing and a failing test take the same path. */
  method LabgridSession(s: Steps) returns (trace: seq<Action>, result: Outcome<SessionError>)
    ensures Run(trace, result) == Expected(s)
  {
    var raised: Option<SessionError>;
    trace, raised := Setup(s);
    if raised.Some? { return trace, Fail(raised.value); }
    var body, failure, targetBound := TryBlock(s);
    var teardown;
    teardown, raised := Finally(s, targetBound);
    trace := trace + body + teardown;
    // an exception raised inside finally replaces any exception in flight
    result := if raised.Some? then Fail(raised.value) else if failure.Some? then Fail(failure.value) else Pass;
  }

  /** The try block: load the environment and bind the target, then get
      (and so activate) the LED driver and the probe-rs driver, then yield
      to the tests. `targetBound` says whether `t` was assigned. */
  method TryBlock(s: Steps) returns (actions: seq<Action>, failure: Option<SessionError>, targetBound: bool)
    ensures Issued(actions, failure) == Body(s)
    ensures targetBound == s.environment
  {
    actions := [LoadEnvironment];
    failure := None;
    targetBound := false;
    if !s.environment {
      failure := Some(EnvironmentFailed);
      return;
    }
    targetBound := true;
    actions := actions + [Activate(Led)];
    if !s.ledOn {
      failure := Some(ActivationFailed(Led));
      return;
    }
    actions := actions + [Activate(Probe)];
    if !s.probeOn {
      failure := Some(ActivationFailed(Probe));
      return;
    }
    actions := actions + [YieldTarget];
  }

  /** The finally block: deactivate the probe-rs driver, then the LED driver,
      each in its own try that swallows any exception — with no bound target
      the NameError is swallowed too — and release the place unchecked. */
  method Finally(s: Steps, targetBound: bool) returns (actions: seq<Action>, raised: Option<SessionError>)
    ensures actions == [Deactivate(Probe, targetBound && s.probeOff), Deactivate(Led, targetBound && s.ledOff), Client(Release, false)]
    ensures raised == Lg(Release, false, s.release)
  {
    actions := [Deactivate(Probe, targetBound && s.probeOff)];
    actions := actions + [Deactivate(Led, targetBound && s.ledOff)];
    actions, raised := Call(actions, Release, false, s.release);
  }

  // ---------------------------------------------------------------------------
  // The fixture, described as a whole

  const SetupCommands: seq<Command> := [Delete, Create, AddMatch(MatchLed), AddMatch(MatchEps), Show, Acquire]

  /** The i-th setup call as issued: only show and acquire are checked. */
  function SetupAction(i: nat): Action
    requires i < 6
  {
    Client(SetupCommands[i], i >= 4)
  }

  /** How the i-th setup call ends. */
  function SetupOutcome(s: Steps, i: nat): CallOutcome
    requires i < 6
  {
    if i == 0 then s.delete else if i == 1 then s.create
    else if i == 2 then s.addLed else if i == 3 then s.addEps
    else if i == 4 then s.show else s.acquire
  }

  /** The exception the i-th setup call raises, if any. */
  function Raises(s: Steps, i: nat): Option<SessionError>
    requires i < 6
  {
    Lg(SetupCommands[i], i >= 4, SetupOutcome(s, i))
  }

  datatype Issued = Issued(actions: seq<Action>, error: Option<SessionError>)

  /** The setup calls from the i-th on, up to and including the first that raises. */
  function SetupFrom(s: Steps, i: nat): Issued
    requires i <= 6
    decreases 6 - i
  {
    if i == 6 then Issued([], None)
    else if Raises(s, i).Some? then Issued([SetupAction(i)], Raises(s, i))
    else
      var rest := SetupFrom(s, i + 1);
      Issued([SetupAction(i)] + rest.actions, rest.error)
  }

  /** The place was acquired: no setup call raised. */
  predicate Acquired(s: Steps)
  {
    SetupFrom(s, 0).error.None?
  }

  /** The try block: environment, LED activation, probe-rs activation, tests. */
  function Body(s: Steps): Issued
  {
    if !s.environment then Issued([LoadEnvironment], Some(EnvironmentFailed))
    else if !s.ledOn then Issued([LoadEnvironment, Activate(Led)], Some(ActivationFailed(Led)))
    else if !s.probeOn then Issued([LoadEnvironment, Activate(Led), Activate(Probe)], Some(ActivationFailed(Probe)))
    else Issued([LoadEnvironment, Activate(Led), Activate(Probe), YieldTarget], None)
  }

  /** The finally block. */
  function Teardown(s: Steps): seq<Action>
  {
    [Deactivate(Probe, s.environment && s.probeOff), Deactivate(Led, s.environment && s.ledOff), Client(Release, false)]
  }

  function Expected(s: Steps): Run
  {
    var setup := SetupFrom(s, 0);
    if setup.error.Some? then Run(setup.actions, Fail(setup.error.value))
    else
      var body := Body(s);
      var released := Lg(Release, false, s.release);
      Run(setup.actions + body.actions + Teardown(s),
          if released.Some? then Fail(released.value)
          else if body.error.Some? then Fail(body.error.value)
          else Pass)
  }

  // ---------------------------------------------------------------------------
  // What the fixture guarantees

  /** The setup calls from the i-th on: the actions are the calls' own, in
      order, and at least one call is made. */
  lemma {:induction false} SetupActions(s: Steps, i: nat)
    requires i <= 6
    ensures var r := SetupFrom(s, i);
      |r.actions| <= 6 - i && (i < 6 ==> r.actions != []) &&
      forall j :: 0 <= j < |r.actions| ==> r.actions[j] == SetupAction(i + j)
    decreases 6 - i
  {
    if i < 6 && Raises(s, i).None? {
      SetupActions(s, i + 1);
      var r := SetupFrom(s, i);
      var rest := SetupFrom(s, i + 1);
      assert forall j :: 1 <= j < |r.actions| ==> r.actions[j] == rest.actions[j - 1];
    }
  }

  /** The setup calls from the i-th on stop at the first that raises, whose
      exception is the error; there is none exactly when every call went
      through. */
  lemma {:induction false} SetupError(s: Steps, i: nat)
    requires i <= 6
    ensures var r := SetupFrom(s, i);
      (forall j :: i <= j < i + |r.actions| - 1 ==> Raises(s, j).None?) &&
      (r.error.None? <==> |r.actions| == 6 - i && forall j :: i <= j < 6 ==> Raises(s, j).None?) &&
      (r.error.Some? ==> 1 <= |r.actions| && r.error == Raises(s, i + |r.actions| - 1))
    decreases 6 - i
  {
    if i < 6 && Raises(s, i).None? {
      SetupError(s, i + 1);
    }
  }

  /** Both halves. */
  lemma SetupShape(s: Steps, i: nat)
    requires i <= 6
    ensures var r := SetupFrom(s, i);
      |r.actions| <= 6 - i && (i < 6 ==> r.actions != []) &&
      (forall j :: 0 <= j < |r.actions| ==> r.actions[j] == SetupAction(i + j)) &&
      (forall j :: i <= j < i + |r.actions| - 1 ==> Raises(s, j).None?) &&
      (r.error.None? <==> |r.actions| == 6 - i && forall j :: i <= j < 6 ==> Raises(s, j).None?) &&
      (r.error.Some? ==> r.error == Raises(s, i + |r.actions| - 1))
  {
    SetupActions(s, i);
    SetupError(s, i);
  }

  /** The place is acquired exactly when none of the six setup calls raises:
      labgrid-client starts every time, and show and acquire return 0. */
  lemma AcquiredIff(s: Steps)
    ensures Acquired(s) <==>
      s.delete.Exited? && s.create.Exited? && s.addLed.Exited? && s.addEps.Exited? &&
      s.show == Exited(0) && s.acquire == Exited(0)
  {
    SetupShape(s, 0);
    assert Raises(s, 0).None? <==> s.delete.Exited?;
    assert Raises(s, 1).None? <==> s.create.Exited?;
    assert Raises(s, 2).None? <==> s.addLed.Exited?;
    assert Raises(s, 3).None? <==> s.addEps.Exited?;
    assert Raises(s, 4).None? <==> s.show == Exited(0);
    assert Raises(s, 5).None? <==> s.acquire == Exited(0);
  }

  /** The trace opens with the setup calls in their order — delete, create,
      add-match for the LED, add-match for the probe, show, acquire — with
      only show and acquire checked. */
  lemma SetupOrder(s: Steps)
    ensures var t := Expected(s).trace;
      t != [] && forall i :: 0 <= i < |t| && i < 6 ==> t[i] == Client(SetupCommands[i], i >= 4)
  {
    SetupShape(s, 0);
  }

  /** The return codes of the unchecked setup calls change nothing: as long
      as labgrid-client starts, delete, create and add-match may fail and
      the fixture goes on to show. */
  lemma BestEffortTolerated(s: Steps)
    requires s.delete.Exited? && s.create.Exited? && s.addLed.Exited? && s.addEps.Exited?
    ensures var t := Expected(s).trace; |t| >= 5 && t[4] == Client(Show, true)
    ensures Expected(s) == Expected(s.(delete := Exited(0), create := Exited(0), addLed := Exited(0), addEps := Exited(0)))
  {
    var s' := s.(delete := Exited(0), create := Exited(0), addLed := Exited(0), addEps := Exited(0));
    assert Raises(s, 0) == Raises(s', 0) && Raises(s, 1) == Raises(s', 1);
    assert Raises(s, 2) == Raises(s', 2) && Raises(s, 3) == Raises(s', 3);
    assert Raises(s, 4) == Raises(s', 4) && Raises(s, 5) == Raises(s', 5);
    SetupAgrees(s, s', 0);
    assert SetupFrom(s, 0).actions[..4] == [SetupAction(0), SetupAction(1), SetupAction(2), SetupAction(3)] + SetupFrom(s, 4).actions[..0];
    SetupShape(s, 4);
    SetupOrder(s);
  }

  /** Setup depends only on which calls raise what. */
  lemma {:induction false} SetupAgrees(s: Steps, u: Steps, i: nat)
    requires i <= 6
    requires forall j :: i <= j < 6 ==> Raises(s, j) == Raises(u, j)
    ensures SetupFrom(s, i) == SetupFrom(u, i)
    decreases 6 - i
  {
    if i < 6 {
      SetupAgrees(s, u, i + 1);
    }
  }

  /** A setup call that raises ends the fixture with that call's exception:
      no environment, no driver, no teardown and no release. */
  lemma SetupFailureAborts(s: Steps)
    requires !Acquired(s)
    ensures var r := Expected(s);
      r.result.Fail? && 1 <= |r.trace| <= 6 &&
      r.trace[|r.trace| - 1] == Client(SetupCommands[|r.trace| - 1], |r.trace| - 1 >= 4) &&
      Some(r.result.error) == Raises(s, |r.trace| - 1) &&
      forall i :: 0 <= i < |r.trace| ==> r.trace[i].Client? && r.trace[i].cmd != Release
  {
    SetupShape(s, 0);
  }

  /** Nothing but setup calls happens before the place is acquired. */
  lemma AcquireBeforeDrivers(s: Steps)
    ensures var t := Expected(s).trace;
      forall i :: 0 <= i < |t| && !t[i].Client? ==> 6 <= i && t[5] == Client(Acquire, true)
  {
    SetupShape(s, 0);
  }

  /** The LED driver is activated before the probe-rs driver, and the tests
      run only once both are active. */
  lemma ActivationOrder(s: Steps)
    ensures ActivatesInOrder(Expected(s).trace)
  {
    TraceParts(s);
    if Acquired(s) {
      AcquiredTraceInOrder(s);
    } else {
      SetupQuiet(s);
      QuietInOrder(SetupFrom(s, 0).actions);
    }
  }

  /** Setup, the try block and the teardown, one after the other. */
  lemma AcquiredTraceInOrder(s: Steps)
    ensures ActivatesInOrder(SetupFrom(s, 0).actions + Body(s).actions + Teardown(s))
  {
    SetupQuiet(s);
    BodyInOrder(s);
    QuietThenOrdered(SetupFrom(s, 0).actions, Body(s).actions);
    assert Quiet(Teardown(s));
    OrderedThenQuiet(SetupFrom(s, 0).actions + Body(s).actions, Teardown(s));
  }

  /** With no activation at all the order holds trivially. */
  lemma QuietInOrder(t: seq<Action>)
    requires Quiet(t)
    ensures ActivatesInOrder(t)
  {
  }

  /** The trace is the setup calls and, once the place is acquired, the try
      block and the teardown. */
  lemma TraceParts(s: Steps)
    ensures Expected(s).trace ==
      if Acquired(s) then SetupFrom(s, 0).actions + Body(s).actions + Teardown(s) else SetupFrom(s, 0).actions
  {
  }

  /** Setup activates no driver. */
  lemma SetupQuiet(s: Steps)
    ensures Quiet(SetupFrom(s, 0).actions)
  {
    SetupNeverReleases(s);
    var setup := SetupFrom(s, 0).actions;
    forall i | 0 <= i < |setup|
      ensures !setup[i].Activate? && !setup[i].YieldTarget?
    {
      assert setup[i] in setup;
    }
  }

  /** The try block activates the LED driver, then the probe-rs driver, then runs the tests. */
  lemma BodyInOrder(s: Steps)
    ensures ActivatesInOrder(Body(s).actions)
  {
  }

  /** No driver is activated and the tests do not run. */
  predicate Quiet(t: seq<Action>)
  {
    forall i :: 0 <= i < |t| ==> !t[i].Activate? && !t[i].YieldTarget?
  }

  /** The probe-rs driver is activated right after the LED driver, and the
      tests run right after the probe-rs driver. */
  predicate ActivatesInOrder(t: seq<Action>)
  {
    (forall i :: 0 <= i < |t| && t[i] == Activate(Probe) ==> 0 < i && t[i - 1] == Activate(Led)) &&
    (forall i :: 0 <= i < |t| && t[i] == YieldTarget ==> 0 < i && t[i - 1] == Activate(Probe))
  }

  lemma QuietThenOrdered(a: seq<Action>, b: seq<Action>)
    requires Quiet(a) && ActivatesInOrder(b)
    ensures ActivatesInOrder(a + b)
  {
    var t := a + b;
    forall i | 0 <= i < |t| && (t[i] == Activate(Probe) || t[i] == YieldTarget)
      ensures 0 < i && t[i - 1] == (if t[i] == YieldTarget then Activate(Probe) else Activate(Led))
    {
      assert i >= |a| ==> t[i] == b[i - |a|];
    }
  }

  lemma OrderedThenQuiet(a: seq<Action>, b: seq<Action>)
    requires ActivatesInOrder(a) && Quiet(b)
    ensures ActivatesInOrder(a + b)
  {
    var t := a + b;
    forall i | 0 <= i < |t| && (t[i] == Activate(Probe) || t[i] == YieldTarget)
      ensures 0 < i && t[i - 1] == (if t[i] == YieldTarget then Activate(Probe) else Activate(Led))
    {
      assert i < |a| ==> t[i] == a[i];
    }
  }

  /** The tests run exactly when the place was acquired, the environment
      loaded and both drivers activated. */
  lemma TestsRunIff(s: Steps)
    ensures YieldTarget in Expected(s).trace <==> Acquired(s) && s.environment && s.ledOn && s.probeOn
  {
    SetupShape(s, 0);
    var t := Expected(s).trace;
    if !Acquired(s) {
      assert forall i :: 0 <= i < |t| ==> t[i].Client?;
    } else {
      assert forall a :: a in SetupFrom(s, 0).actions ==> a.Client?;
    }
  }

  /** Once the place is acquired, the fixture always ends the same way,
      whatever happened in between: deactivate the probe-rs driver, then the
      LED driver, then release the place. A deactivation step succeeds only
      when the target was bound. */
  lemma TeardownAlways(s: Steps)
    requires Acquired(s)
    ensures var t := Expected(s).trace;
      |t| >= 10 &&
      t[|t| - 3..] == [Deactivate(Probe, s.environment && s.probeOff),
                       Deactivate(Led, s.environment && s.ledOff),
                       Client(Release, false)]
  {
    SetupShape(s, 0);
    var t := Expected(s).trace;
    assert t[|t| - 3..] == Teardown(s);
  }

  /** The place is released exactly once when it was acquired, and never
      otherwise. */
  lemma ReleaseExactlyOnce(s: Steps)
    ensures multiset(Expected(s).trace)[Client(Release, false)] == if Acquired(s) then 1 else 0
  {
    var t := Expected(s).trace;
    var setup := SetupFrom(s, 0).actions;
    SetupNeverReleases(s);
    assert multiset(setup)[Client(Release, false)] == 0;
    if Acquired(s) {
      TryAndTeardownReleaseOnce(s);
      var rest := Body(s).actions + Teardown(s);
      assert t == setup + rest;
      assert multiset(t) == multiset(setup) + multiset(rest);
    } else {
      assert t == setup;
    }
  }

  /** The try block never releases; the teardown releases once. */
  lemma TryAndTeardownReleaseOnce(s: Steps)
    ensures multiset(Body(s).actions + Teardown(s))[Client(Release, false)] == 1
  {
    assert Client(Release, false) !in multiset(Body(s).actions);
    assert multiset(Teardown(s))[Client(Release, false)] == 1;
  }

  /** The setup calls never release the place. */
  lemma SetupNeverReleases(s: Steps)
    ensures forall a :: a in SetupFrom(s, 0).actions ==> a.Client? && a.cmd != Release
  {
    SetupShape(s, 0);
  }

  /** The fixture's result: it passes exactly when the place was acquired,
      the environment loaded, both drivers activated and labgrid-client
      started for the release. The release's return code is never looked at. */
  lemma ResultIff(s: Steps)
    ensures Expected(s).result.Pass? <==>
      Acquired(s) && s.environment && s.ledOn && s.probeOn && s.release.Exited?
    ensures s.release.Exited? ==> Expected(s).result == Expected(s.(release := Exited(0))).result
    ensures Acquired(s) && s.release.NotStarted? ==> Expected(s).result == Fail(ClientNotStarted(Release))
  {
    AcquiredIff(s);
    AcquiredIff(s.(release := Exited(0)));
  }

  /** A failing deactivation never changes the fixture's result or what else
      it does. */
  lemma DeactivationFailuresSwallowed(s: Steps, probeOff: bool, ledOff: bool)
    ensures Expected(s).result == Expected(s.(probeOff := probeOff, ledOff := ledOff)).result
    ensures var t := Expected(s).trace; var u := Expected(s.(probeOff := probeOff, ledOff := ledOff)).trace;
      |t| == |u| && forall i :: 0 <= i < |t| && !t[i].Deactivate? ==> t[i] == u[i]
  {
    AcquiredIff(s);
    AcquiredIff(s.(probeOff := probeOff, ledOff := ledOff));
    var u := s.(probeOff := probeOff, ledOff := ledOff);
    SetupAgrees(s, u, 0);
  }

  /** When the environment cannot be loaded the target is never bound: both
      deactivation steps fail and are skipped, the place is still released,
      and the environment's exception is what the fixture raises. */
  lemma EnvironmentFailureStillReleases(s: Steps)
    requires Acquired(s) && !s.environment && s.release.Exited?
    ensures Expected(s).result == Fail(EnvironmentFailed)
    ensures Expected(s).trace[|Expected(s).trace| - 4..] ==
      [LoadEnvironment, Deactivate(Probe, false), Deactivate(Led, false), Client(Release, false)]
  {
    SetupShape(s, 0);
    var t := Expected(s).trace;
    assert t == SetupFrom(s, 0).actions + [LoadEnvironment] + Teardown(s);
  }
}
