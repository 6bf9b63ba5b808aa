/** The supervised probe-rs process and the line stream read from it
    (ProcessLogStream in pytest/drivers/probe_rs_driver.py).

    The operating-system process is replaced by an oracle, `Process`, that
    fixes up front everything the process will do: the lines it writes (each
    with the clock reading taken when `readline` hands it over), the code it
    exits with when it ends on its own, which signal (if any) stops it, which
    signals cannot be sent to it, and whether closing its pipe fails. The
    stream keeps what it has observed and done in a `ProcState`: the return
    code `poll()` reports, whether stdout is still open, how many lines
    `readline` has consumed and the log of operations issued to the process. */
module LogStream {
  import opened Results

  datatype Signal = Interrupt | Terminate | Kill

  /** Escalation order: SIGINT, then SIGTERM, then SIGKILL. */
  function Strength(s: Signal): nat
  {
    match s
    case Interrupt => 0
    case Terminate => 1
    case Kill => 2
  }

  /** Linux signal numbers; a process killed by signal n reports return code -n. */
  function SigNum(s: Signal): int
  {
    match s
    case Interrupt => 2
    case Terminate => 15
    case Kill => 9
  }

  /** The signals `close` tries, in order. */
  const Ladder: seq<Signal> := [Interrupt, Terminate, Kill]

  /** How the process reacts to being asked to stop. */
  datatype Stop =
    | ExitsOnItsOwn             // has exited by the time anyone polls or waits for it
    | StopsOn(weakest: Signal)  // runs until it receives `weakest` or a stronger signal
    | Unstoppable               // survives every signal, SIGKILL included

  predicate Honours(stop: Stop, s: Signal)
  {
    stop.StopsOn? && Strength(stop.weakest) <= Strength(s)
  }

  /** The return code of a process that signal `s` stops. A process that
      catches SIGINT or SIGTERM (probe-rs attach handles SIGINT) shuts down
      with a code of its own choosing; one the signal kills reports minus
      the signal number. SIGKILL cannot be caught. */
  function StopCode(p: Process, s: Signal): int
  {
    if s != Kill && s in p.trapped then p.trapped[s] else -SigNum(s)
  }

  /** A line as `readline` returns it before end of file: never empty. */
  type Chunk = s: string | s != [] witness "\n"

  /** One `readline` result and the clock reading (in seconds) taken right after it. */
  datatype Line = Line(raw: Chunk, at: int)

  datatype Process = Process(
    output: seq<Line>,      // everything written to the merged stdout, in order
    exitCode: int,          // the return code when the process ends on its own
    stop: Stop,
    refused: set<Signal>,   // signals whose sending raises
    trapped: map<Signal, int>,  // signals the process catches, and the code it then exits with
    hasStdout: bool,        // the process was started with stdout piped
    closeFails: bool)       // closing the open stdout pipe raises

  /** Where a spawned command's stderr goes. */
  datatype StderrRoute = Separate | IntoStdout

  /** The command line and pipe wiring a process was started with. */
  datatype Launch = Launch(argv: seq<string>, stderr: StderrRoute)

  /** Operations issued to the process. */
  datatype Op =
    | Send(sig: Signal, delivered: bool)   // delivered is false when sending raised
    | Wait(limit: nat, exited: bool)       // exited is false when the wait timed out
    | CloseStdout(ok: bool)                // ok is false when closing raised

  /** How an `iter_lines` generator ends. */
  datatype End =
    | Exhausted           // end of file and return code 0: StopIteration
    | TimedOut            // TimeoutError
    | ExitError(code: int)  // CalledProcessError
    | ReapTimedOut        // the wait after end of file expired: subprocess.TimeoutExpired
    | NoStdout            // the generator's own assertion that stdout exists failed
    | ReadOnClosed        // readline on a closed pipe: ValueError

  /** A generator run to its end: the lines it yields and how it ends. */
  datatype Drained = Drained(lines: seq<string>, end: End)

  datatype ProcState = ProcState(status: Option<int>, stdoutOpen: bool, cursor: nat, log: seq<Op>)

  /** The state right after the process was spawned and wrapped. */
  function Started(p: Process): ProcState
  {
    ProcState(if p.stop.ExitsOnItsOwn? then Some(p.exitCode) else None, p.hasStdout, 0, [])
  }

  // ---------------------------------------------------------------------------
  // close()

  /** The first signal of `ladder` that reaches the process and stops it. */
  function Stopper(p: Process, ladder: seq<Signal>): Option<Signal>
  {
    if ladder == [] then None
    else if ladder[0] !in p.refused && Honours(p.stop, ladder[0]) then Some(ladder[0])
    else Stopper(p, ladder[1..])
  }

  /** The signal-and-wait stages run on a live process: each signal of
      `ladder` is sent, then waited on for `grace` seconds, until a wait sees
      the process gone. */
  function Escalation(p: Process, grace: nat, ladder: seq<Signal>): seq<Op>
  {
    if ladder == [] then []
    else
      var s := ladder[0];
      var stops := s !in p.refused && Honours(p.stop, s);
      [Send(s, s !in p.refused), Wait(grace, stops)] + (if stops then [] else Escalation(p, grace, ladder[1..]))
  }

  /** The return code after `close`. */
  function ClosedStatus(p: Process, st: ProcState): Option<int>
  {
    if st.status.Some? then st.status
    else match Stopper(p, Ladder)
      case Some(s) => Some(StopCode(p, s))
      case None => None
  }

  /** The operations `close(grace)` issues, from state `st`. */
  function CloseOps(p: Process, st: ProcState, grace: nat): seq<Op>
  {
    (if st.status.None? then Escalation(p, grace, Ladder) else [])
    + (if p.hasStdout then [CloseStdout(!(st.stdoutOpen && p.closeFails))] else [])
    + [Wait(1, ClosedStatus(p, st).Some?)]
  }

  function CloseState(p: Process, st: ProcState, grace: nat): ProcState
  {
    ProcState(ClosedStatus(p, st), st.stdoutOpen && p.closeFails, st.cursor, st.log + CloseOps(p, st, grace))
  }

  /** The signals sent by `ops`, in order. */
  function Signals(ops: seq<Op>): seq<Signal>
  {
    if ops == [] then [] else (if ops[0].Send? then [ops[0].sig] else []) + Signals(ops[1..])
  }

  /** The longest time `ops` can spend waiting. */
  function WaitTime(ops: seq<Op>): nat
  {
    if ops == [] then 0 else (if ops[0].Wait? then ops[0].limit else 0) + WaitTime(ops[1..])
  }

  /** The number of waits in `ops`. */
  function Waits(ops: seq<Op>): nat
  {
    if ops == [] then 0 else (if ops[0].Wait? then 1 else 0) + Waits(ops[1..])
  }

  // ---------------------------------------------------------------------------
  // iter_lines()

  /** str.rstrip("\n"): every trailing newline removed. */
  function StripNewlines(s: string): string
  {
    if |s| > 0 && s[|s| - 1] == '\n' then StripNewlines(s[..|s| - 1]) else s
  }

  /** The deadline test made after each line: strictly more than `timeout`
      seconds since the stream was created. */
  predicate Late(timeout: Option<int>, start: int, at: int)
  {
    timeout.Some? && at - start > timeout.value
  }

  /** How the generator ends once `readline` reports end of file: the
      one-second wait either sees the process gone or expires. */
  function AfterEof(status: Option<int>): End
  {
    match status
    case None => ReapTimedOut
    case Some(rc) => if rc == 0 then Exhausted else ExitError(rc)
  }

  /** The generator's loop over the lines still unread. */
  function Run(timeout: Option<int>, start: int, rest: seq<Line>, status: Option<int>): Drained
    decreases |rest|
  {
    if rest == [] then Drained([], AfterEof(status))
    else if Late(timeout, start, rest[0].at) then Drained([], TimedOut)
    else
      var tail := Run(timeout, start, rest[1..], status);
      Drained([StripNewlines(rest[0].raw)] + tail.lines, tail.end)
  }

  /** A fresh `iter_lines` generator on state `st`, pulled until it ends. */
  function Drain(p: Process, timeout: Option<int>, start: int, st: ProcState): Drained
    requires st.cursor <= |p.output|
  {
    if !p.hasStdout then Drained([], NoStdout)
    else if !st.stdoutOpen then Drained([], ReadOnClosed)
    else Run(timeout, start, p.output[st.cursor..], st.status)
  }

  /** What a consumer sees after calling next() `demand` times: the lines
      yielded, and the end if the generator ended within those calls. */
  datatype Pulls = Pulls(lines: seq<string>, end: Option<End>)

  function Consume(all: Drained, demand: nat): Pulls
  {
    if |all.lines| < demand then Pulls(all.lines, Some(all.end))
    else Pulls(all.lines[..demand], None)
  }

  /** An end reached after `readline` reported end of file. */
  predicate AtEof(e: End)
  {
    e.Exhausted? || e.ExitError? || e.ReapTimedOut?
  }

  /** The three stages of the ladder written out. */
  lemma LadderStages(p: Process, grace: nat)
    ensures var i := Interrupt !in p.refused && Honours(p.stop, Interrupt);
            var t := Terminate !in p.refused && Honours(p.stop, Terminate);
            var k := Kill !in p.refused && Honours(p.stop, Kill);
      Escalation(p, grace, Ladder) ==
        [Send(Interrupt, Interrupt !in p.refused), Wait(grace, i)] +
        (if i then [] else
          [Send(Terminate, Terminate !in p.refused), Wait(grace, t)] +
          (if t then [] else [Send(Kill, Kill !in p.refused), Wait(grace, k)])) &&
      Stopper(p, Ladder) ==
        (if i then Some(Interrupt) else if t then Some(Terminate) else if k then Some(Kill) else None)
  {
    var ladder2: seq<Signal> := [Terminate, Kill];
    var ladder3: seq<Signal> := [Kill];
    assert Ladder[0] == Interrupt && Ladder[1..] == ladder2;
    assert ladder2[0] == Terminate && ladder2[1..] == ladder3;
    assert ladder3[0] == Kill && ladder3[1..] == [];
    assert Escalation(p, grace, ladder3) == [Send(Kill, Kill !in p.refused), Wait(grace, Kill !in p.refused && Honours(p.stop, Kill))];
    assert Stopper(p, ladder3) == if Kill !in p.refused && Honours(p.stop, Kill) then Some(Kill) else None;
  }

  // ---------------------------------------------------------------------------
  // What close() guarantees

  /** The signals of two runs of operations, one after the other. */
  lemma {:induction false} SignalsAppend(a: seq<Op>, b: seq<Op>)
    ensures Signals(a + b) == Signals(a) + Signals(b)
  {
    if a == [] {
      assert a + b == b;
    } else {
      var ab := a + b;
      assert ab[0] == a[0] && ab[1..] == a[1..] + b;
      SignalsAppend(a[1..], b);
    }
  }

  /** The waiting of two runs of operations adds up. */
  lemma {:induction false} WaitsAppend(a: seq<Op>, b: seq<Op>)
    ensures WaitTime(a + b) == WaitTime(a) + WaitTime(b)
    ensures Waits(a + b) == Waits(a) + Waits(b)
  {
    if a == [] {
      assert a + b == b;
    } else {
      var ab := a + b;
      assert ab[0] == a[0] && ab[1..] == a[1..] + b;
      WaitsAppend(a[1..], b);
    }
  }

  /** The operations of close() in three parts: the escalation, the pipe close, the reap wait. */
  lemma CloseOpsParts(p: Process, st: ProcState, grace: nat)
    ensures var esc := if st.status.None? then Escalation(p, grace, Ladder) else [];
            var pipe := if p.hasStdout then [CloseStdout(!(st.stdoutOpen && p.closeFails))] else [];
      CloseOps(p, st, grace) == esc + pipe + [Wait(1, ClosedStatus(p, st).Some?)] &&
      Signals(CloseOps(p, st, grace)) == Signals(esc) &&
      WaitTime(CloseOps(p, st, grace)) == WaitTime(esc) + 1 &&
      Waits(CloseOps(p, st, grace)) == Waits(esc) + 1
  {
    var esc := if st.status.None? then Escalation(p, grace, Ladder) else [];
    var pipe := if p.hasStdout then [CloseStdout(!(st.stdoutOpen && p.closeFails))] else [];
    var last := [Wait(1, ClosedStatus(p, st).Some?)];
    SignalsAppend(esc, pipe);
    SignalsAppend(esc + pipe, last);
    WaitsAppend(esc, pipe);
    WaitsAppend(esc + pipe, last);
    assert Signals(pipe) == [] && WaitTime(pipe) == 0 && Waits(pipe) == 0 by {
      if p.hasStdout {
        assert pipe[1..] == [];
      }
    }
    assert last[1..] == [];
  }

  /** One stage: a signal, then a grace wait. */
  lemma StageOps(s: Signal, delivered: bool, grace: nat, stops: bool)
    ensures var head := [Send(s, delivered), Wait(grace, stops)];
      Signals(head) == [s] && Waits(head) == 1 && WaitTime(head) == grace
  {
    var w := Wait(grace, stops);
    var head := [Send(s, delivered), w];
    assert head[1..] == [w] && [w][1..] == [];
    assert Signals([w]) == [] + Signals([]);
    assert Waits([w]) == 1 + Waits([]);
    assert WaitTime([w]) == grace + WaitTime([]);
  }

  /** One stage of the escalation followed by the rest. */
  lemma EscalationStep(p: Process, grace: nat, ladder: seq<Signal>)
    requires ladder != []
    ensures var s := ladder[0];
            var stops := s !in p.refused && Honours(p.stop, s);
            var rest := if stops then [] else Escalation(p, grace, ladder[1..]);
      Escalation(p, grace, ladder) == [Send(s, s !in p.refused), Wait(grace, stops)] + rest &&
      Signals(Escalation(p, grace, ladder)) == [s] + Signals(rest) &&
      Waits(Escalation(p, grace, ladder)) == 1 + Waits(rest) &&
      WaitTime(Escalation(p, grace, ladder)) == grace + WaitTime(rest) &&
      Stopper(p, ladder) == (if stops then Some(s) else Stopper(p, ladder[1..]))
  {
    var s := ladder[0];
    var stops := s !in p.refused && Honours(p.stop, s);
    var head: seq<Op> := [Send(s, s !in p.refused), Wait(grace, stops)];
    var rest := if stops then [] else Escalation(p, grace, ladder[1..]);
    StageOps(s, s !in p.refused, grace, stops);
    assert Escalation(p, grace, ladder) == head + rest;
    SignalsAppend(head, rest);
    WaitsAppend(head, rest);
  }

  /** The escalation sends a prefix of its ladder, and at least the first signal. */
  lemma {:induction false} EscalationSignals(p: Process, grace: nat, ladder: seq<Signal>)
    ensures var sent := Signals(Escalation(p, grace, ladder));
      sent <= ladder && (ladder != [] ==> sent != [])
  {
    if ladder != [] {
      EscalationStep(p, grace, ladder);
      var s := ladder[0];
      if !(s !in p.refused && Honours(p.stop, s)) {
        EscalationSignals(p, grace, ladder[1..]);
        assert ladder == [s] + ladder[1..];
      }
    }
  }

  /** Every send is followed by a wait of `grace` seconds, and every send
      but a first operation comes right after a wait of `grace` seconds that
      expired. */
  predicate SendsFollowTimeouts(ops: seq<Op>, grace: nat)
  {
    (forall i :: 0 <= i < |ops| && ops[i].Send? ==> i + 1 < |ops| && ops[i + 1].Wait? && ops[i + 1].limit == grace) &&
    (forall i :: 0 < i < |ops| && ops[i].Send? ==> ops[i - 1] == Wait(grace, false))
  }

  /** Operations without a send can follow. */
  lemma SendsFollowTimeoutsAppend(a: seq<Op>, b: seq<Op>, grace: nat)
    requires SendsFollowTimeouts(a, grace)
    requires forall i :: 0 <= i < |b| ==> !b[i].Send?
    ensures SendsFollowTimeouts(a + b, grace)
  {
    var t := a + b;
    forall i | 0 <= i < |t| && t[i].Send?
      ensures i + 1 < |t| && t[i + 1].Wait? && t[i + 1].limit == grace
      ensures 0 < i ==> t[i - 1] == Wait(grace, false)
    {
      assert i < |a|;
      assert t[i] == a[i];
    }
  }

  /** The escalation opens with a send, and alternates sends with grace waits. */
  lemma {:induction false} EscalationAlternates(p: Process, grace: nat, ladder: seq<Signal>)
    ensures var ops := Escalation(p, grace, ladder);
      (ops != [] ==> ops[0].Send?) && SendsFollowTimeouts(ops, grace)
  {
    if ladder != [] {
      EscalationStep(p, grace, ladder);
      var s := ladder[0];
      if !(s !in p.refused && Honours(p.stop, s)) {
        EscalationAlternates(p, grace, ladder[1..]);
        var ops := Escalation(p, grace, ladder);
        var rest := Escalation(p, grace, ladder[1..]);
        forall i | 2 <= i < |ops|
          ensures ops[i] == rest[i - 2]
        {
        }
      }
    }
  }

  /** Only the last wait of the escalation can see the process gone, and it
      does exactly when a signal of the ladder stops the process. */
  lemma {:induction false} EscalationWaits(p: Process, grace: nat, ladder: seq<Signal>)
    ensures var ops := Escalation(p, grace, ladder);
      (ops == [] <==> ladder == []) &&
      (forall i :: 0 <= i < |ops| - 1 && ops[i].Wait? ==> !ops[i].exited) &&
      (ops != [] ==> ops[|ops| - 1].Wait? && (ops[|ops| - 1].exited <==> Stopper(p, ladder).Some?))
  {
    if ladder != [] {
      EscalationStep(p, grace, ladder);
      var s := ladder[0];
      if !(s !in p.refused && Honours(p.stop, s)) {
        EscalationWaits(p, grace, ladder[1..]);
        var ops := Escalation(p, grace, ladder);
        var rest := Escalation(p, grace, ladder[1..]);
        forall i | 2 <= i < |ops|
          ensures ops[i] == rest[i - 2]
        {
        }
      }
    }
  }

  /** One wait of `grace` seconds per signal at most. */
  lemma {:induction false} EscalationTime(p: Process, grace: nat, ladder: seq<Signal>)
    ensures var ops := Escalation(p, grace, ladder);
      Waits(ops) <= |ladder| && WaitTime(ops) == grace * Waits(ops)
  {
    if ladder != [] {
      EscalationStep(p, grace, ladder);
      var s := ladder[0];
      if !(s !in p.refused && Honours(p.stop, s)) {
        EscalationTime(p, grace, ladder[1..]);
        var rest := Escalation(p, grace, ladder[1..]);
        assert grace + grace * Waits(rest) == grace * (1 + Waits(rest));
      }
    }
  }

  /** close() sends signals only as a prefix of SIGINT, SIGTERM, SIGKILL, and
      sends none exactly when the process had already exited. */
  lemma CloseSignalsFollowLadder(p: Process, st: ProcState, grace: nat)
    ensures var sent := Signals(CloseOps(p, st, grace));
      sent <= Ladder && (sent == [] <==> st.status.Some?)
  {
    CloseOpsParts(p, st, grace);
    EscalationSignals(p, grace, Ladder);
  }

  /** A signal is only sent right after a grace wait that expired, except
      SIGINT, which opens close() on a running process; each send is followed
      by a grace wait. */
  lemma CloseEscalatesOnlyOnTimeout(p: Process, st: ProcState, grace: nat)
    ensures var ops := CloseOps(p, st, grace);
      (st.status.None? ==> ops[0] == Send(Interrupt, Interrupt !in p.refused)) &&
      (forall i :: 0 < i < |ops| && ops[i].Send? ==> ops[i - 1] == Wait(grace, false)) &&
      (forall i :: 0 <= i < |ops| && ops[i].Send? ==> i + 1 < |ops| && ops[i + 1].Wait? && ops[i + 1].limit == grace)
  {
    CloseOpsParts(p, st, grace);
    var esc := if st.status.None? then Escalation(p, grace, Ladder) else [];
    var pipe := if p.hasStdout then [CloseStdout(!(st.stdoutOpen && p.closeFails))] else [];
    var tail := pipe + [Wait(1, ClosedStatus(p, st).Some?)];
    EscalationAlternates(p, grace, Ladder);
    assert SendsFollowTimeouts(esc, grace);
    assert CloseOps(p, st, grace) == esc + tail;
    SendsFollowTimeoutsAppend(esc, tail, grace);
    if st.status.None? {
      EscalationStep(p, grace, Ladder);
    }
  }

  /** close() waits at most three times for `grace` seconds, then once for
      one second to reap the process: never longer than 3 * grace + 1. */
  lemma CloseWaitBound(p: Process, st: ProcState, grace: nat)
    ensures var ops := CloseOps(p, st, grace);
      Waits(ops) <= 4 && WaitTime(ops) <= 3 * grace + 1 &&
      ops[|ops| - 1] == Wait(1, ClosedStatus(p, st).Some?) &&
      (forall i :: 0 <= i < |ops| - 1 && ops[i].Wait? ==> ops[i].limit == grace)
  {
    CloseOpsParts(p, st, grace);
    EscalationTime(p, grace, Ladder);
    EscalationAlternates(p, grace, Ladder);
    EscalationSignals(p, grace, Ladder);
    var esc := if st.status.None? then Escalation(p, grace, Ladder) else [];
    var ops := CloseOps(p, st, grace);
    assert Waits(esc) <= 3;
    assert grace * Waits(esc) <= grace * 3;
    forall i | 0 <= i < |ops| - 1 && ops[i].Wait?
      ensures ops[i].limit == grace
    {
      assert i < |esc|;
      assert ops[i] == esc[i];
      EscalationOpKinds(p, grace, Ladder, i);
    }
  }

  /** close() always attempts to close stdout when there is one, after every
      signal and right before the reap wait, and afterwards the pipe is open
      only if it was open and closing it failed. */
  lemma CloseClosesStdout(p: Process, st: ProcState, grace: nat)
    ensures var ops := CloseOps(p, st, grace);
      (p.hasStdout ==> ops[|ops| - 2] == CloseStdout(!(st.stdoutOpen && p.closeFails))) &&
      (forall i :: 0 <= i < |ops| && ops[i].CloseStdout? ==> p.hasStdout && i == |ops| - 2) &&
      CloseState(p, st, grace).stdoutOpen == (st.stdoutOpen && p.closeFails)
  {
    CloseOpsParts(p, st, grace);
    var esc := if st.status.None? then Escalation(p, grace, Ladder) else [];
    EscalationAlternates(p, grace, Ladder);
    EscalationWaits(p, grace, Ladder);
    var ops := CloseOps(p, st, grace);
    forall i | 0 <= i < |esc|
      ensures ops[i] == esc[i] && !esc[i].CloseStdout?
    {
      if esc[i].CloseStdout? {
        EscalationOpKinds(p, grace, Ladder, i);
      }
    }
  }

  /** Every operation of the escalation is a send or a wait of `grace` seconds. */
  lemma {:induction false} EscalationOpKinds(p: Process, grace: nat, ladder: seq<Signal>, i: nat)
    requires i < |Escalation(p, grace, ladder)|
    ensures Escalation(p, grace, ladder)[i].Send? || Escalation(p, grace, ladder)[i].Wait?
    ensures Escalation(p, grace, ladder)[i].Wait? ==> Escalation(p, grace, ladder)[i].limit == grace
  {
    var ops := Escalation(p, grace, ladder);
    var stops := ladder[0] !in p.refused && Honours(p.stop, ladder[0]);
    var rest := if stops then [] else Escalation(p, grace, ladder[1..]);
    assert ops == [Send(ladder[0], ladder[0] !in p.refused), Wait(grace, stops)] + rest;
    if i >= 2 {
      assert ops[i] == rest[i - 2];
      EscalationOpKinds(p, grace, ladder[1..], i - 2);
    }
  }

  /** The first stopping signal exists exactly when some signal of the ladder
      reaches the process and stops it. */
  lemma {:induction false} StopperFound(p: Process, ladder: seq<Signal>)
    ensures Stopper(p, ladder).Some? <==> exists s :: s in ladder && s !in p.refused && Honours(p.stop, s)
    ensures Stopper(p, ladder).Some? ==> Stopper(p, ladder).value in ladder
  {
    if ladder != [] {
      StopperFound(p, ladder[1..]);
      assert forall s :: s in ladder <==> s == ladder[0] || s in ladder[1..];
    }
  }

  /** After close() the process is gone exactly when it was gone before or
      some signal of the ladder reached it and stopped it; the final wait
      reports the same. */
  lemma CloseReaps(p: Process, st: ProcState, grace: nat)
    ensures ClosedStatus(p, st).Some? <==>
      st.status.Some? || exists s :: s in Ladder && s !in p.refused && Honours(p.stop, s)
    ensures var ops := CloseOps(p, st, grace); ops[|ops| - 1] == Wait(1, ClosedStatus(p, st).Some?)
  {
    StopperFound(p, Ladder);
  }

  /** A process that ignores SIGINT and SIGTERM but honours SIGKILL, or that
      stops at any earlier signal, is reaped by close() whenever SIGKILL can be sent. */
  lemma CloseReapsKillable(p: Process, st: ProcState, grace: nat)
    requires p.stop.StopsOn? && Kill !in p.refused
    ensures ClosedStatus(p, st).Some?
  {
    CloseReaps(p, st, grace);
    assert Kill in Ladder && Honours(p.stop, Kill);
  }

  // ---------------------------------------------------------------------------
  // What iter_lines() guarantees

  /** rstrip("\n") keeps a prefix that does not end in a newline and drops
      only newlines. */
  lemma {:induction false} StripNewlinesSpec(s: string)
    ensures var r := StripNewlines(s);
      r <= s && (r != [] ==> r[|r| - 1] != '\n') && forall i :: |r| <= i < |s| ==> s[i] == '\n'
  {
    if |s| > 0 && s[|s| - 1] == '\n' {
      StripNewlinesSpec(s[..|s| - 1]);
    }
  }

  /** On a line as readline returns it, rstrip("\n") removes exactly the one
      terminating newline, or nothing on a last line without one: all that is
      needed is that the text before it does not itself end in a newline. */
  lemma StripReadlineLine(body: string)
    requires body == [] || body[|body| - 1] != '\n'
    ensures StripNewlines(body + "\n") == body
    ensures StripNewlines(body) == body
  {
    assert (body + "\n")[..|body|] == body;
  }

  /** The generator yields, in read order and stripped, exactly the lines
      before the first one read after the deadline; that line ends it with
      TimeoutError and nothing after it is read. With no late line, it yields
      every line and ends as the one-second wait after end of file decides. */
  lemma {:induction false} RunCharacterised(timeout: Option<int>, start: int, rest: seq<Line>, status: Option<int>)
    ensures var d := Run(timeout, start, rest, status);
      |d.lines| <= |rest| &&
      (forall i :: 0 <= i < |d.lines| ==>
        !Late(timeout, start, rest[i].at) && d.lines[i] == StripNewlines(rest[i].raw)) &&
      (|d.lines| < |rest| ==> Late(timeout, start, rest[|d.lines|].at) && d.end == TimedOut) &&
      (|d.lines| == |rest| ==> d.end == AfterEof(status))
  {
    if rest != [] && !Late(timeout, start, rest[0].at) {
      RunCharacterised(timeout, start, rest[1..], status);
    }
  }

  /** The generator's loop from line `c` on: that line, then the rest. */
  lemma RunUnfold(timeout: Option<int>, start: int, out: seq<Line>, c: nat, status: Option<int>)
    requires c < |out|
    ensures var next := Run(timeout, start, out[c + 1..], status);
      Run(timeout, start, out[c..], status) ==
        if Late(timeout, start, out[c].at) then Drained([], TimedOut)
        else Drained([StripNewlines(out[c].raw)] + next.lines, next.end)
  {
    assert out[c..][0] == out[c] && out[c..][1..] == out[c + 1..];
  }

  /** TimeoutError is raised exactly when some line is read after the
      deadline: a process that stays silent is never timed out. */
  lemma TimeoutNeedsLateLine(timeout: Option<int>, start: int, rest: seq<Line>, status: Option<int>)
    ensures Run(timeout, start, rest, status).end == TimedOut <==>
      exists i :: 0 <= i < |rest| && Late(timeout, start, rest[i].at)
  {
    RunCharacterised(timeout, start, rest, status);
    var d := Run(timeout, start, rest, status);
    if |d.lines| == |rest| {
      assert AfterEof(status) != TimedOut;
      assert forall i :: 0 <= i < |rest| ==> !Late(timeout, start, rest[i].at) by {
        forall i | 0 <= i < |rest|
          ensures !Late(timeout, start, rest[i].at)
        {
          assert !Late(timeout, start, rest[i].at) && d.lines[i] == StripNewlines(rest[i].raw);
        }
      }
    }
  }

  /** Without a timeout the generator yields every line, stripped, and never
      raises TimeoutError. */
  lemma NoDeadlineYieldsAll(start: int, rest: seq<Line>, status: Option<int>)
    ensures var d := Run(None, start, rest, status);
      |d.lines| == |rest| && d.end == AfterEof(status) &&
      forall i :: 0 <= i < |rest| ==> d.lines[i] == StripNewlines(rest[i].raw)
  {
    RunCharacterised(None, start, rest, status);
  }

  /** CalledProcessError comes only after every line has been yielded and
      carries the non-zero return code; return code 0 ends normally. */
  lemma ExitErrorAfterAllLines(timeout: Option<int>, start: int, rest: seq<Line>, status: Option<int>)
    ensures var d := Run(timeout, start, rest, status);
      (d.end.ExitError? ==> |d.lines| == |rest| && status == Some(d.end.code) && d.end.code != 0) &&
      (d.end == Exhausted <==> |d.lines| == |rest| && status == Some(0))
  {
    RunCharacterised(timeout, start, rest, status);
  }

  /** `lines` yielded ahead of a run of the generator. */
  function Prepend(lines: seq<string>, d: Drained): Drained
  {
    Drained(lines + d.lines, d.end)
  }

  /** One turn of the loop at line `next`: a late line ends the run with
      TimeoutError, any other line is yielded stripped. */
  lemma ScanStep(timeout: Option<int>, start: int, out: seq<Line>, from: nat, next: nat, lines: seq<string>, status: Option<int>)
    requires from <= next < |out|
    requires Run(timeout, start, out[from..], status) == Prepend(lines, Run(timeout, start, out[next..], status))
    ensures Late(timeout, start, out[next].at) ==> Run(timeout, start, out[from..], status) == Drained(lines, TimedOut)
    ensures !Late(timeout, start, out[next].at) ==>
      Run(timeout, start, out[from..], status) ==
        Prepend(lines + [StripNewlines(out[next].raw)], Run(timeout, start, out[next + 1..], status))
  {
    RunUnfold(timeout, start, out, next, status);
    var here := Run(timeout, start, out[next..], status);
    var rest := Run(timeout, start, out[next + 1..], status);
    if Late(timeout, start, out[next].at) {
      assert here == Drained([], TimedOut);
      assert lines + [] == lines;
    } else {
      var y := StripNewlines(out[next].raw);
      assert here == Drained([y] + rest.lines, rest.end);
      assert lines + ([y] + rest.lines) == (lines + [y]) + rest.lines;
    }
  }

  /** A run that has yielded `demand` lines so far is seen by `demand` next() calls as exactly those. */
  lemma ConsumePaused(lines: seq<string>, d: Drained, demand: nat)
    requires |lines| == demand
    ensures Consume(Prepend(lines, d), demand) == Pulls(lines, None)
  {
  }

  /** At end of file nothing more is yielded. */
  lemma ScanAtEof(timeout: Option<int>, start: int, out: seq<Line>, from: nat, lines: seq<string>, status: Option<int>)
    requires from <= |out|
    requires Run(timeout, start, out[from..], status) == Prepend(lines, Run(timeout, start, out[|out|..], status))
    ensures Run(timeout, start, out[from..], status) == Drained(lines, AfterEof(status))
  {
    assert out[|out|..] == [];
    assert lines + [] == lines;
  }

  /** The generator's loop over the lines from `from` on: readline, check
      the deadline, yield the stripped line; it stops after the `demand`-th
      yield, at a line read after the deadline (`late`), or at end of file.
      `next` is the position of the first line not read. */
  method ScanLines(timeout: Option<int>, start: int, out: seq<Line>, from: nat, demand: nat, status: Option<int>)
    returns (lines: seq<string>, next: nat, late: bool)
    requires from <= |out| && demand > 0
    ensures from <= next <= |out|
    ensures var whole := Run(timeout, start, out[from..], status);
      (late ==> Consume(whole, demand) == Pulls(lines, Some(TimedOut)) && next == from + |lines| + 1) &&
      (!late && |lines| == demand ==> Consume(whole, demand) == Pulls(lines, None) && next == from + demand) &&
      (!late && |lines| != demand ==>
        Consume(whole, demand) == Pulls(lines, Some(AfterEof(status))) && next == |out| == from + |lines|)
  {
    lines, next, late := [], from, false;
    assert Run(timeout, start, out[from..], status) == Prepend([], Run(timeout, start, out[from..], status));
    while next < |out|
      invariant from <= next <= |out|
      invariant next - from == |lines| < demand
      invariant Run(timeout, start, out[from..], status) == Prepend(lines, Run(timeout, start, out[next..], status))
      decreases |out| - next
    {
      ScanStep(timeout, start, out, from, next, lines, status);
      var line := out[next];
      next := next + 1;
      if Late(timeout, start, line.at) {
        late := true;
        return;
      }
      lines := lines + [StripNewlines(line.raw)];
      if |lines| == demand {
        ConsumePaused(lines, Run(timeout, start, out[next..], status), demand);
        return;
      }
    }
    ScanAtEof(timeout, start, out, from, lines, status);
  }

  class ProcessLogStream {
    const proc: Process
    const command: Launch
    const timeout: Option<int>
    const start: int
    var status: Option<int>   // what poll() reports: the return code once the process is gone
    var stdoutOpen: bool
    var cursor: nat           // lines consumed by readline
    var log: seq<Op>

    function State(): ProcState
      reads this
    {
      ProcState(status, stdoutOpen, cursor, log)
    }

    ghost predicate Valid()
      reads this
    {
      cursor <= |proc.output| &&
      (stdoutOpen ==> proc.hasStdout) &&
      (proc.stop.ExitsOnItsOwn? ==> status == Some(proc.exitCode)) &&
      (proc.stop.Unstoppable? ==> status.None?)
    }

    /** Wraps a freshly spawned process; `now` is the clock reading taken as the start. */
    constructor (proc: Process, command: Launch, timeout: Option<int>, now: int)
      ensures Valid()
      ensures this.proc == proc && this.command == command && this.timeout == timeout && start == now
      ensures State() == Started(proc)
    {
      this.proc := proc;
      this.command := command;
      this.timeout := timeout;
      start := now;
      status := if proc.stop.ExitsOnItsOwn? then Some(proc.exitCode) else None;
      stdoutOpen := proc.hasStdout;
      cursor := 0;
      log := [];
    }

    /** Sends `s` to the running process; `delivered` is false when sending raised. */
    method SendSignal(s: Signal) returns (delivered: bool)
      requires Valid() && status.None?
      modifies this`status, this`log
      ensures Valid()
      ensures delivered == (s !in proc.refused)
      ensures status == (if delivered && Honours(proc.stop, s) then Some(StopCode(proc, s)) else None)
      ensures log == old(log) + [Send(s, delivered)]
    {
      delivered := s !in proc.refused;
      if delivered && Honours(proc.stop, s) {
        status := Some(StopCode(proc, s));
      }
      log := log + [Send(s, delivered)];
    }

    /** Popen.wait with a timeout: false when the timeout expired. */
    method WaitUpTo(limit: nat) returns (exited: bool)
      modifies this`log
      ensures exited == status.Some?
      ensures log == old(log) + [Wait(limit, exited)]
    {
      exited := status.Some?;
      log := log + [Wait(limit, exited)];
    }

    /** Closes stdout; `ok` is false when closing raised. Closing a closed pipe does nothing. */
    method CloseStdoutPipe() returns (ok: bool)
      requires Valid() && proc.hasStdout
      modifies this`stdoutOpen, this`log
      ensures Valid()
      ensures ok == !(old(stdoutOpen) && proc.closeFails)
      ensures stdoutOpen == (old(stdoutOpen) && proc.closeFails)
      ensures log == old(log) + [CloseStdout(ok)]
    {
      ok := !(stdoutOpen && proc.closeFails);
      stdoutOpen := stdoutOpen && proc.closeFails;
      log := log + [CloseStdout(ok)];
    }

    /** terminate(): SIGTERM only if poll() reports the process running.
        A failed send is not caught. */
    method TerminateProcess() returns (r: Outcome<Signal>)
      requires Valid()
      modifies this`status, this`log
      ensures Valid()
      ensures r.Fail? <==> old(status).None? && Terminate in proc.refused
      ensures r.Fail? ==> r.error == Terminate
      ensures log == old(log) + (if old(status).None? then [Send(Terminate, r.Pass?)] else [])
      ensures status == (if old(status).None? && r.Pass? && Honours(proc.stop, Terminate)
                         then Some(StopCode(proc, Terminate)) else old(status))
    {
      r := Pass;
      if status.None? {
        var delivered := SendSignal(Terminate);
        if !delivered {
          r := Fail(Terminate);
        }
      }
    }

    /** kill(): SIGKILL only if poll() reports the process running, then a
        two-second reap wait and a stdout close whose errors are swallowed.
        A failed send is not caught, so it skips the reap and the close. */
    method KillProcess() returns (r: Outcome<Signal>)
      requires Valid()
      modifies this`status, this`stdoutOpen, this`log
      ensures Valid()
      ensures r.Fail? <==> old(status).None? && Kill in proc.refused
      ensures r.Fail? ==> r.error == Kill
      ensures status == (if old(status).None? && r.Pass? && Honours(proc.stop, Kill)
                         then Some(-SigNum(Kill)) else old(status))
      ensures log == old(log) + (if old(status).None? then [Send(Kill, r.Pass?)] else [])
                     + (if r.Fail? then [] else
                          [Wait(2, status.Some?)]
                          + (if proc.hasStdout then [CloseStdout(!(old(stdoutOpen) && proc.closeFails))] else []))
      ensures stdoutOpen == (old(stdoutOpen) && (r.Fail? || proc.closeFails))
    {
      r := Pass;
      if status.None? {
        var delivered := SendSignal(Kill);
        if !delivered {
          r := Fail(Kill);
          return;
        }
      }
      var _ := WaitUpTo(2);
      if proc.hasStdout {
        var _ := CloseStdoutPipe();
      }
    }

    /** close(grace): on a running process, the escalation; then a stdout
        close and a final one-second reap wait. Every failure is swallowed. */
    method Close(grace: nat)
      requires Valid()
      modifies this`status, this`stdoutOpen, this`log
      ensures Valid()
      ensures State() == CloseState(proc, old(State()), grace)
    {
      ghost var before := State();
      if status.None? {
        Escalate(grace);
      }
      assert status == ClosedStatus(proc, before);
      if proc.hasStdout {
        var _ := CloseStdoutPipe();
      }
      var _ := WaitUpTo(1);
    }

    /** The nested stages of close(): SIGINT, SIGTERM, SIGKILL, each followed
        by a grace wait and tried only when the previous wait expired. */
    method Escalate(grace: nat)
      requires Valid() && status.None?
      modifies this`status, this`log
      ensures Valid()
      ensures log == old(log) + Escalation(proc, grace, Ladder)
      ensures status == match Stopper(proc, Ladder) case Some(s) => Some(StopCode(proc, s)) case None => None
    {
      LadderStages(proc, grace);
      var exited := Stage(Interrupt, grace);
      if !exited {
        exited := Stage(Terminate, grace);
        if !exited {
          exited := Stage(Kill, grace);
        }
      }
    }

    /** One stage of the escalation: send the signal, ignoring a refusal,
        then wait up to `grace` seconds for the process to go. */
    method Stage(s: Signal, grace: nat) returns (exited: bool)
      requires Valid() && status.None?
      modifies this`status, this`log
      ensures Valid()
      ensures exited == (s !in proc.refused && Honours(proc.stop, s))
      ensures status == (if exited then Some(StopCode(proc, s)) else None)
      ensures log == old(log) + [Send(s, s !in proc.refused), Wait(grace, exited)]
    {
      var _ := SendSignal(s);
      exited := WaitUpTo(grace);
    }

    /** A fresh `iter_lines` generator on which the consumer calls next()
        `demand` times (or until the generator ends). `lines` are the lines
        yielded; `end` is how the generator ended, None when it is left
        suspended after its last yield. */
    method IterLines(demand: nat) returns (lines: seq<string>, end: Option<End>)
      requires Valid()
      modifies this`cursor, this`log
      ensures Valid()
      ensures Pulls(lines, end) == Consume(Drain(proc, timeout, start, old(State())), demand)
      ensures cursor == old(cursor) + |lines| + (if end == Some(TimedOut) then 1 else 0)
      ensures log == old(log) + (if end.Some? && AtEof(end.value) then [Wait(1, status.Some?)] else [])
    {
      if demand == 0 {
        lines, end := [], None;
      } else if !proc.hasStdout {
        lines, end := [], Some(NoStdout);
      } else if !stdoutOpen {
        lines, end := [], Some(ReadOnClosed);
      } else {
        lines, end := ReadLines(demand);
      }
    }

    /** The generator's loop: readline until end of file, checking the
        deadline after each line and pausing after the `demand`-th yield;
        at end of file, a one-second wait for the return code. */
    method ReadLines(demand: nat) returns (lines: seq<string>, end: Option<End>)
      requires Valid() && stdoutOpen && demand > 0
      modifies this`cursor, this`log
      ensures Valid()
      ensures Pulls(lines, end) == Consume(Run(timeout, start, proc.output[old(cursor)..], status), demand)
      ensures cursor == old(cursor) + |lines| + (if end == Some(TimedOut) then 1 else 0)
      ensures log == old(log) + (if end.Some? && AtEof(end.value) then [Wait(1, status.Some?)] else [])
    {
      var next, late;
      lines, next, late := ScanLines(timeout, start, proc.output, cursor, demand, status);
      cursor := next;
      if late {
        end := Some(TimedOut);
      } else if |lines| == demand {
        end := None;
      } else {
        var rc := ReapAfterEof();
        end := Some(rc);
      }
    }

    /** After end of file: wait one second for the return code, and end
        normally on 0, with CalledProcessError on any other code, or with
        the wait's TimeoutExpired. */
    method ReapAfterEof() returns (end: End)
      modifies this`log
      ensures end == AfterEof(status)
      ensures log == old(log) + [Wait(1, status.Some?)]
    {
      var exited := WaitUpTo(1);
      if !exited {
        end := ReapTimedOut;
      } else if status.value != 0 {
        end := ExitError(status.value);
      } else {
        end := Exhausted;
      }
    }
  }
}
