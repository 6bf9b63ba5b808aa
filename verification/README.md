# hil-tests: a verified model of the flatsat test harness

The repository is a small hardware-in-the-loop harness. Pytest drives the
flatsat board through a labgrid coordinator and a remote probe-rs server. This
project models the control logic of that harness in Dafny. The operating-system
process, labgrid-client, the labgrid environment and the probe-rs binary are
replaced by oracles that say how each call ends. The model then proves what the
harness decides, given those outcomes.

Four modules, one per source component, plus the shared `Results` types:

- `LogStream` (`log_stream.dfy`) covers `ProcessLogStream` and the process it
  supervises.
  - The process is a `Process` value. It holds the lines it writes, each stamped
    with the clock reading taken when `readline` returned it. It also holds its
    own exit code, the weakest signal that stops it (or none, or "already
    exited"), the signals whose sending raises, and whether closing stdout
    raises.
  - The stream is a class. Its fields are the polled return code, whether
    stdout is open, how many lines have been read, and a log of every signal,
    wait and pipe close issued to the process.
  - `close`, `terminate`, `kill` and `iter_lines` are methods. `close` and
    `iter_lines` are proved against specification functions
    (`CloseState`/`CloseOps`, and `Drain`/`Run` with `Consume`), and the
    promised properties are lemmas about those functions. `terminate` and
    `kill` are proved against closed-form postconditions that give their
    whole new state.
  - A signal that stops the process sets its return code with `StopCode`.
    SIGKILL always gives -9. A SIGINT or SIGTERM the process catches gives
    the code the process chooses; probe-rs attach handles SIGINT. Any other
    stopping signal gives minus the signal number.
  - The `iter_lines` generator is modelled as a consumer calling `next()` a
    given number of times.
- `ProbeRs` (`probe_rs_driver.dfy`) covers `ProbeRsDriver`.
  - It builds the argument vectors: the five base arguments, with the port
    rendered in decimal, then the subcommand words.
  - Each of `flash`, `reset`, `list_probes` and `attach_with_reset` turns how
    the binary ended into a return or an exception.
  - A parser for the probe-rs command line serves as the inverse of the
    builders.
- `Session` (`session.dfy`) covers the `labgrid_session` fixture. It is a method
  that appends to an action trace, given how each labgrid-client call, the
  environment and each driver step ends. It is proved equal to a declarative
  `Expected` run, and the ordering, pairing and error-routing properties are
  lemmas about that run.
- `FlashTest` (`test_flash.dfy`) covers `test_flash`. It runs flash, then
  attach under reset, then one `next()`, then the banner check by substring,
  then always `close()`. It is built on the two modules above and proved equal
  to a declarative `Expected` run.

Clocks and timeouts are whole seconds.

What the session and test models assume from Python and pytest:

- A failing test does not raise inside the fixture's `yield`. The fixture's
  path is the same whether the tests pass or fail.
- An exception raised in a `finally` block (here, labgrid-client failing to
  start for the release) replaces the one in flight.

## Behaviour followed from the code

Where a plain reading of the harness's intent and its code differ, the model
follows the code:

- `terminate()` and `kill()` send their signal outside any `try`. A signal that
  cannot be sent raises out of them, and `kill()` then skips its reap wait and
  its stdout close (`ProcessLogStream.TerminateProcess`,
  `ProcessLogStream.KillProcess`).
- After end of file, `iter_lines` waits one second for the return code. That
  wait can itself raise `TimeoutExpired` when the process closed stdout but is
  still running (`End.ReapTimedOut`).
- In `test_flash`, a stream that prints nothing gives the "no output received
  from probe-rs" assertion only when the process exited with 0. A non-zero exit
  surfaces as `CalledProcessError` from `next()`, and a process that closed its
  stdout but is still running surfaces as `TimeoutExpired`
  (`FlashTest.EmptyStream`). A process that stays silent with stdout open
  blocks `readline`, and the test hangs in `next()`.
- The deadline is tested only after `readline` returns a line, with a strict
  `>`. A silent process is never timed out by `iter_lines`
  (`LogStream.TimeoutNeedsLateLine`).
- If `Environment("env.yaml")` fails, `t` is never bound. Both deactivation
  steps in the `finally` then raise `NameError`, which their `except` swallows.
  They are recorded as failed steps, and the place is still released
  (`Session.EnvironmentFailureStillReleases`).
- `lg(..., check=False)` still raises when labgrid-client cannot be started.
  Best-effort calls ignore only the return code (`Session.Lg`).

## Model

| member | source | states |
|---|---|---|
| LogStream.ProcessLogStream.constructor | pytest/drivers/probe_rs_driver.py:15-18 | the stream keeps the process, command, timeout and start clock it was given, and starts in `Started(proc)` |
| LogStream.ProcessLogStream.SendSignal | pytest/drivers/probe_rs_driver.py:34-36 | a send is delivered unless that signal is refused; it ends the process, with the return code `StopCode` gives (the code the process chooses for a SIGINT or SIGTERM it catches, minus the signal number otherwise), exactly when delivered and honoured; the send is logged |
| LogStream.ProcessLogStream.WaitUpTo | pytest/drivers/probe_rs_driver.py:39-40 | a bounded wait succeeds exactly when the process is gone, and is logged with its limit and result |
| LogStream.ProcessLogStream.CloseStdoutPipe | pytest/drivers/probe_rs_driver.py:61-66 | closing stdout fails only on an open pipe whose close raises; the pipe stays open only then; the attempt is logged |
| LogStream.ProcessLogStream.TerminateProcess | pytest/drivers/probe_rs_driver.py:24-26 | SIGTERM is sent only when poll() reports the process running; terminate raises exactly when it sends and SIGTERM is refused; the new return code (the process's own code when it catches SIGTERM, -15 otherwise) and log are given exactly |
| LogStream.ProcessLogStream.KillProcess | pytest/drivers/probe_rs_driver.py:74-86 | SIGKILL is sent only when the process is running; unless that send raises, a 2-second wait and (when stdout exists) a stdout close follow, both swallowing errors; the whole new state is given |
| LogStream.ProcessLogStream.Close | pytest/drivers/probe_rs_driver.py:28-72 | close(grace) never raises and leaves exactly the state `CloseState` describes: escalation on a live process, stdout close, final 1-second reap |
| LogStream.ProcessLogStream.Escalate | pytest/drivers/probe_rs_driver.py:30-59 | the nested SIGINT/SIGTERM/SIGKILL stages append exactly `Escalation(proc, grace, Ladder)` and end with the return code of the first signal that stops the process |
| LogStream.ProcessLogStream.Stage | pytest/drivers/probe_rs_driver.py:33-40 | one stage sends its signal, swallowing a refusal, then waits `grace` seconds; the wait sees the process gone exactly when the signal was delivered and honoured |
| LogStream.ProcessLogStream.IterLines | pytest/drivers/probe_rs_driver.py:91-109 | the lines yielded by `demand` next() calls and the generator's end are exactly `Consume(Drain(...), demand)`, including the stdout assertion and a closed pipe; cursor and log advance accordingly |
| LogStream.ProcessLogStream.ReadLines | pytest/drivers/probe_rs_driver.py:100-109 | the readline loop yields exactly the `Run` of the unread lines up to `demand`; lines read advance the cursor, and only an end after end of file logs the 1-second wait |
| LogStream.ProcessLogStream.ReapAfterEof | pytest/drivers/probe_rs_driver.py:106-109 | after end of file, return code 0 ends normally, any other code raises CalledProcessError with it, and a process still running makes the wait raise |
| LogStream.ScanLines | pytest/drivers/probe_rs_driver.py:100-104 | the loop returns the lines `Run` yields up to `demand`, tells a deadline stop from a pause and from end of file, and reports the first unread line |
| LogStream.LadderStages | pytest/drivers/probe_rs_driver.py:30-59 | the escalation written out as its three nested stages, and the stopping signal as the first stage whose wait succeeds |
| LogStream.CloseOpsParts | pytest/drivers/probe_rs_driver.py:28-72 | close's operations are the escalation, then the pipe close, then the reap wait; the signals are the escalation's, with one more wait of one second |
| LogStream.EscalationSignals | pytest/drivers/probe_rs_driver.py:30-56 | the escalation sends a prefix of its ladder, and at least its first signal |
| LogStream.EscalationAlternates | pytest/drivers/probe_rs_driver.py:30-56 | the escalation opens with a send; every send is followed by a grace wait, and every later send comes right after a grace wait that expired |
| LogStream.EscalationWaits | pytest/drivers/probe_rs_driver.py:38-59 | only the last escalation wait can see the process gone, and it does exactly when some ladder signal stops it |
| LogStream.EscalationTime | pytest/drivers/probe_rs_driver.py:39-56 | the escalation waits at most once per signal, each time for `grace` seconds |
| LogStream.EscalationOpKinds | pytest/drivers/probe_rs_driver.py:33-56 | every escalation operation is a send or a wait of `grace` seconds |
| LogStream.StopperFound | pytest/drivers/probe_rs_driver.py:30-59 | a stopping signal is found exactly when some ladder signal reaches the process and stops it, and it is one of the ladder |
| LogStream.CloseSignalsFollowLadder | pytest/drivers/probe_rs_driver.py:30-56 | close sends signals only as a prefix of SIGINT, SIGTERM, SIGKILL, and sends none exactly when the process had already exited |
| LogStream.CloseEscalatesOnlyOnTimeout | pytest/drivers/probe_rs_driver.py:38-56 | on a running process close starts with SIGINT; any later signal follows a grace wait that timed out; every signal is followed by a grace wait |
| LogStream.CloseWaitBound | pytest/drivers/probe_rs_driver.py:39-72 | close waits at most four times and at most 3*grace+1 seconds; every wait but the final 1-second reap is a grace wait |
| LogStream.CloseClosesStdout | pytest/drivers/probe_rs_driver.py:61-66 | close attempts the stdout close exactly once when stdout exists, right before the reap, and afterwards the pipe is open only if closing it failed |
| LogStream.CloseReaps | pytest/drivers/probe_rs_driver.py:68-72 | after close the process is gone exactly when it was gone already or a ladder signal reached and stopped it; the final wait reports the same |
| LogStream.CloseReapsKillable | pytest/drivers/probe_rs_driver.py:51-59 | any process that some signal stops is reaped by close whenever SIGKILL can be sent |
| LogStream.StripNewlinesSpec | pytest/drivers/probe_rs_driver.py:104 | `StripNewlines`, the model of rstrip("\n"), gives a prefix that does not end in a newline, having dropped only newlines |
| LogStream.StripReadlineLine | pytest/drivers/probe_rs_driver.py:100-104 | on a line as readline returns it (its text does not end in a newline), rstrip removes exactly the terminating newline, and nothing from a last line without one |
| LogStream.RunCharacterised | pytest/drivers/probe_rs_driver.py:100-109 | the generator yields, in order and stripped, exactly the lines before the first late one, which raises TimeoutError; with no late line it yields every line and ends as the reap decides |
| LogStream.TimeoutNeedsLateLine | pytest/drivers/probe_rs_driver.py:100-102 | TimeoutError is raised exactly when some line is read after start + timeout; a silent process is never timed out |
| LogStream.NoDeadlineYieldsAll | pytest/drivers/probe_rs_driver.py:101-104 | without a timeout every line is yielded, stripped, and TimeoutError never occurs |
| LogStream.ExitErrorAfterAllLines | pytest/drivers/probe_rs_driver.py:106-109 | CalledProcessError comes only after every line was yielded and carries the non-zero return code; a normal end happens exactly when all lines were yielded and the code is 0 |
| ProbeRs.DefaultDriverArgs | pytest/drivers/probe_rs_driver.py:116-123 | a driver left at its defaults (empty token and chip, scheme "ws", binary "probe-rs") runs `probe-rs --host ws://<address>:<port> --token ""`, and passes `--chip ""` to flash, reset and attach |
| ProbeRs.Digit | pytest/drivers/probe_rs_driver.py:122 | a decimal digit character denotes its value |
| ProbeRs.Decimal | pytest/drivers/probe_rs_driver.py:122 | the port renders as a non-empty string of decimal digits with no leading zero (only port 0 starts with "0") |
| ProbeRs.DecimalRoundTrip | pytest/drivers/probe_rs_driver.py:122 | reading the rendered port back gives the port |
| ProbeRs.CommandsShareBase | pytest/drivers/probe_rs_driver.py:121-123 | every command line (`Argv`, and through it `ListArgv`, `FlashArgv`, `ResetArgv` and `AttachLaunch`) starts with `BaseArgs`, that is [bin, "--host", scheme://address:port, "--token", token], and continues with its subcommand words |
| ProbeRs.ArgvRoundTrip | pytest/drivers/probe_rs_driver.py:121-149 | every command line the driver builds (`ListArgv`, `FlashArgv`, `ResetArgv`, `AttachLaunch`) parses back to its binary, host, token and subcommand, whatever the chip, path or token |
| ProbeRs.FlashAndAttachAgree | pytest/drivers/probe_rs_driver.py:128-149 | flash appends download --chip chip path; attach appends attach --chip chip path --connect-under-reset and merges stderr into stdout; both name the same chip and image |
| ProbeRs.Checked | pytest/drivers/probe_rs_driver.py:131-137 | a checked run returns exactly when the command started, met its deadline and returned 0; otherwise the exception names the command line and carries the code or the deadline |
| ProbeRs.Flash | pytest/drivers/probe_rs_driver.py:128-140 | flash returns exactly when the download finished with 0 within 20 seconds; any exception names the download command line |
| ProbeRs.ResetTarget | pytest/drivers/probe_rs_driver.py:142-143 | reset returns exactly when the reset command finished with 0; there is no deadline |
| ProbeRs.ListProbes | pytest/drivers/probe_rs_driver.py:125-126 | list_probes returns exactly when the list command finished with 0; there is no deadline |
| ProbeRs.AttachWithReset | pytest/drivers/probe_rs_driver.py:145-153 | attach fails only when the command cannot start; otherwise it gives a fresh stream on the attach command, with stdout piped, the given timeout and a clock started now |
| Session.ClientArgvDistinct | pytest/conftest.py:14-20 | every lg() command line names the coordinator and the flatsat place, and different commands give different command lines |
| Session.Lg | pytest/conftest.py:14-20 | lg returns exactly when labgrid-client started and, when checked, returned 0; otherwise it raises ClientNotStarted or CalledProcessError |
| Session.Call | pytest/conftest.py:14-20 | one lg() call is appended to the trace and raises what `Lg` says |
| Session.Setup | pytest/conftest.py:24-31 | the setup calls issued and the exception raised are exactly `SetupFrom(s, 0)` |
| Session.ShowAndAcquire | pytest/conftest.py:28-31 | once the best-effort calls went through, the checked show and acquire calls complete exactly `SetupFrom(s, 0)` |
| Session.LabgridSession | pytest/conftest.py:22-52 | the fixture's trace and result are exactly `Expected(s)` |
| Session.TryBlock | pytest/conftest.py:33-39 | the try block loads the environment, activates the LED then the probe-rs driver, then yields, stopping at the first failure; `t` is bound exactly when the environment loaded |
| Session.Finally | pytest/conftest.py:40-52 | the finally block deactivates probe-rs then the LED, each succeeding only on a bound target, and releases unchecked |
| Session.SetupActions | pytest/conftest.py:24-31 | the setup calls from the i-th on are issued in their fixed order, and at least one is issued |
| Session.SetupError | pytest/conftest.py:24-31 | setup stops at the first call that raises, and that exception is the error; there is none exactly when no call raised |
| Session.SetupShape | pytest/conftest.py:24-31 | both of the above together |
| Session.AcquiredIff | pytest/conftest.py:24-31 | the place is acquired exactly when labgrid-client starts for all six calls and show and acquire return 0 |
| Session.SetupOrder | pytest/conftest.py:24-31 | the trace opens with delete, create, add-match LED, add-match EPS, show, acquire, with only show and acquire checked |
| Session.BestEffortTolerated | pytest/conftest.py:24-28 | the return codes of delete, create and the add-match calls change nothing, and the fixture goes on to show |
| Session.SetupFailureAborts | pytest/conftest.py:28-31 | a setup call that raises ends the fixture with its exception, with no driver and no release |
| Session.AcquireBeforeDrivers | pytest/conftest.py:30-37 | nothing but setup calls happens before acquire, which is the sixth action |
| Session.ActivationOrder | pytest/conftest.py:34-39 | the LED driver is activated right before the probe-rs driver, and the tests run right after both |
| Session.TestsRunIff | pytest/conftest.py:33-39 | the tests run exactly when the place was acquired, the environment loaded and both drivers activated |
| Session.TeardownAlways | pytest/conftest.py:40-52 | once acquired, the trace always ends with: deactivate probe-rs, deactivate LED, release |
| Session.ReleaseExactlyOnce | pytest/conftest.py:31-52 | the place is released exactly once when acquired and never otherwise |
| Session.SetupNeverReleases | pytest/conftest.py:24-31 | no setup call is a release |
| Session.ResultIff | pytest/conftest.py:22-52 | the fixture succeeds exactly when acquired, environment loaded, both drivers activated and the release started; the release's return code is never looked at |
| Session.DeactivationFailuresSwallowed | pytest/conftest.py:41-49 | a failing deactivation changes neither the result nor any other action |
| Session.EnvironmentFailureStillReleases | pytest/conftest.py:33-52 | when the environment fails, both deactivations fail, the place is still released, and the environment's exception is raised |
| FlashTest.EnvOr | pytest/tests/test_flash.py:7-14 | an unset or empty variable gives the fallback; a non-empty one gives its value |
| FlashTest.ContainsIff | pytest/tests/test_flash.py:33 | `Contains`, the model of `pat in s`, holds exactly when the pattern occurs at some position |
| FlashTest.ContainsAt | pytest/tests/test_flash.py:33 | where `pat in s` holds, an occurrence position exists |
| FlashTest.OccursContains | pytest/tests/test_flash.py:33 | an occurrence anywhere makes `pat in s` true |
| FlashTest.ContainsPrefix | pytest/tests/test_flash.py:33 | a text contains each of its prefixes |
| FlashTest.ContainsNeedsRoom | pytest/tests/test_flash.py:33 | a pattern longer than the text never occurs in it |
| FlashTest.TestFlash | pytest/tests/test_flash.py:4-37 | the test's trace and verdict are exactly `Expected(b)` |
| FlashTest.FirstLineThenClose | pytest/tests/test_flash.py:25-37 | one next(), the banner judgement (`Judge`) on what it gave, then close(2) on the untouched stream, whatever the judgement; afterwards readline has consumed at most one line and the stream is exactly `CloseState` of the state after that pull |
| FlashTest.FirstPullIsFirstLine | pytest/tests/test_flash.py:26-29 | the single next() reads only the first line: yields it stripped unless it came late; later lines play no part |
| FlashTest.FlashBeforeAttach | pytest/tests/test_flash.py:18-23 | flash comes right before attach and names the same chip and image; a failed flash ends the test before any attach |
| FlashTest.StreamAlwaysClosed | pytest/tests/test_flash.py:23-37 | once attach starts, the test always ends with close(), which signals at most along the ladder, waits at most 7 seconds and reaps any killable process; without a stream nothing is closed |
| FlashTest.PassIff | pytest/tests/test_flash.py:18-33 | through `Judge`, the test passes exactly when the driver exists, the flash succeeds, attach starts, and the first line arrives in time and contains the banner |
| FlashTest.EmptyStream | pytest/tests/test_flash.py:28-31 | with no output, a clean exit fails with "no output received from probe-rs", a non-zero exit with CalledProcessError, and a process that closed its stdout but is still running with the reap timeout |
| FlashTest.FirstLineDecides | pytest/tests/test_flash.py:28-33 | a first line in time passes exactly when it contains the banner, and otherwise fails quoting it; a late first line fails with TimeoutError |
| FlashTest.FlatsatBannerPasses | pytest/tests/test_flash.py:33 | firmware 1.2.3 printing its banner first passes |
| FlashTest.FlatsatWrongVersion | pytest/tests/test_flash.py:33 | a banner for 1.2.3 when 1.2.30 is expected fails, quoting the line |
| FlashTest.FlatsatLateBanner | pytest/tests/test_flash.py:23-33 | a banner arriving 31 seconds after attach fails with TimeoutError |
| FlashTest.FlatsatSilentExit | pytest/tests/test_flash.py:28-37 | a clean silent exit fails with "no output", and close sends no signal and reaps |

## Left out

- ProcessLogStream.pid and ProcessLogStream.wait (probe_rs_driver.py:20-22, 88-89): plain pass-throughs to the process, with no decision of their own.
- pytest/drivers/http_led_driver.py is not part of this model. LED activation and deactivation are steps that succeed or fail.
- The real operating-system process is left out: `Popen`, pipes, the blocking of `readline`, and signal delivery. Also left out are the unused `pty`, `select` and `os` imports. The `Process` oracle decides everything up front. A process either has exited before it is first polled, or it exits only on a signal. A process that exits by itself while a wait is under way is not modelled.
- Wall-clock floats are left out. `time.monotonic()`, `grace_s`, `timeout_s` and the 20-second flash deadline are whole seconds. How long `flash` took is a parameter.
- LogStream.Process: every modelled process reaches end of file after its last line. A live process that stays silent with stdout open blocks `readline`, and `test_flash` then hangs in `next()`; the model does not represent that hang.
- The default `timeout=10.0` of `attach_with_reset` (probe_rs_driver.py:145) is not modelled as a default: `ProbeRs.AttachWithReset` always takes the timeout explicitly, and `test_flash` passes 30.
- A `wait` that raises anything other than `TimeoutExpired` during close's escalation is not modelled. Such a wait would escape close.
- Labgrid internals are left out: `target_factory` registration, `attr`, `Environment("env.yaml")`, `get_target`, `get_driver` and the coordinator's own behaviour. Only how each step ends is modelled. The `LG_COORDINATOR` variable is the `coordinator` parameter of `Session.ClientArgv`. The `KeyError` raised at import time when it is unset is left out.
- `print` output is left out. So are the text `list_probes` returns, the captured stdout and stderr of `flash`, and the message texts of `TimeoutError` and `CalledProcessError`.
- The probe-rs binary's own behaviour is left out. Only its command lines and how each run ends are modelled.
- A generator resumed after it was left suspended is left out. Each `IterLines` call is a fresh generator that continues from the lines already read.
- How pytest reports a failing test is left out. The fixture sees the same path whether the test passes or fails.
