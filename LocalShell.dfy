/**
 * Running a command locally with a polling timeout
 * (pulsar/managers/util/cli/shell/local.py).
 *
 * The operating system is abstracted away: a spawned process is described by
 * what each successive liveness poll reports (`None` while it runs, its exit
 * code once it has exited) and by the bytes it leaves on its standard output
 * and standard error. Sleeping is not modelled; killing is recorded.
 */
module LocalShell {
  import opened Wrappers
  import Utf8

  const TimeoutErrorMessage: string := "Execution timed out"
  const TimeoutReturnCode: int := -1
  const DefaultTimeout: real := 60.0
  const DefaultTimeoutCheckInterval: real := 3.0

  /** A command: one string run through the shell, or an argument vector run directly. */
  datatype Command = ShellString(line: string) | ArgumentVector(args: seq<string>)

  /** What a read from a stream returns: raw bytes, or text already decoded. */
  datatype Stream = Bytes(data: seq<Utf8.byte>) | Text(text: string)

  /** The `Bunch(stdout, stderr, returncode)` that `execute` returns. */
  datatype ExecResult = ExecResult(stdout: string, stderr: string, returncode: int)

  /** The result returned, without running anything further, once the timeout is reached. */
  const TimeoutResult: ExecResult := ExecResult("", TimeoutErrorMessage, TimeoutReturnCode)

  /**
   * The observable behaviour of a spawned process: the answer to each
   * successive poll (a poll past the end of `polls` finds it still running)
   * and the contents of its output streams.
   */
  datatype Behaviour = Behaviour(polls: seq<Option<int>>, stdout: Stream, stderr: Stream)

  /** The answer of the `k`-th poll (counting from 0). */
  function PollOutcome(polls: seq<Option<int>>, k: nat): Option<int> {
    if k < |polls| then polls[k] else None
  }

  /** `_read_str`: bytes are decoded as UTF-8, text is returned unchanged. */
  function ReadStr(stream: Stream): (r: Result<string, Utf8.DecodeError>)
    ensures stream.Text? ==> r == Success(stream.text)
    ensures stream.Bytes? && r.Success? ==> Utf8.Encode(r.value) == stream.data
  {
    match stream
    case Text(t) => Success(t)
    case Bytes(b) =>
      if Utf8.Decode(b).Success? then Utf8.EncodeDecode(b); Utf8.Decode(b)
      else Utf8.Decode(b)
  }

  /** Bytes that are the UTF-8 encoding of a text are read back as that text. */
  lemma ReadStrRoundTrip(text: string)
    ensures ReadStr(Bytes(Utf8.Encode(text))) == Success(text)
  {
    Utf8.DecodeEncode(text);
  }

  /** Python's `int(x)` on a float: truncation toward zero. */
  function Truncate(x: real): (n: int)
    ensures 0.0 <= x ==> n as real <= x < n as real + 1.0
    ensures x < 0.0 ==> x <= n as real < x + 1.0
  {
    if 0.0 <= x then x.Floor else -((-x).Floor)
  }

  /** How many times `range(int(timeout / timeout_check_interval))` iterates. */
  function PollBound(timeout: real, interval: real): (n: nat)
    requires interval > 0.0
    ensures timeout / interval < 1.0 ==> n == 0
    ensures 1.0 <= timeout / interval ==> n as real <= timeout / interval < n as real + 1.0
  {
    var t := Truncate(timeout / interval);
    if t < 0 then 0 else t
  }

  /** The index of the first poll, among the first `bound`, that finds the process exited. */
  function FirstExit(polls: seq<Option<int>>, bound: nat): (r: Option<nat>)
    ensures r.Some? ==> r.value < bound && PollOutcome(polls, r.value).Some?
    ensures r.Some? ==> forall j :: 0 <= j < r.value ==> PollOutcome(polls, j).None?
    ensures r.None? <==> forall j :: 0 <= j < bound ==> PollOutcome(polls, j).None?
  {
    if bound == 0 then None
    else match FirstExit(polls, bound - 1)
      case Some(k) => Some(k)
      case None => if PollOutcome(polls, bound - 1).Some? then Some(bound - 1) else None
  }

  /** How many polls `execute` makes: up to and including the first exit, else all `bound`. */
  function PollsMade(polls: seq<Option<int>>, bound: nat): (n: nat)
    ensures n <= bound
  {
    match FirstExit(polls, bound)
    case Some(k) => k + 1
    case None => bound
  }

  /** What `execute` returns for a process with `behaviour` when it may poll `bound` times. */
  function ExpectedResult(behaviour: Behaviour, bound: nat): Result<ExecResult, Utf8.DecodeError> {
    match FirstExit(behaviour.polls, bound)
    case None => Success(TimeoutResult)
    case Some(k) =>
      match ReadStr(behaviour.stdout)
      case Failure(e) => Failure(e)
      case Success(out) =>
        match ReadStr(behaviour.stderr)
        case Failure(e) => Failure(e)
        case Success(err) => Success(ExecResult(out, err, PollOutcome(behaviour.polls, k).value))
  }

  /** A spawned process, as far as `execute` observes and affects it. */
  class Process {
    const shell: bool
    const behaviour: Behaviour
    var polls: nat
    var returncode: Option<int>
    var killed: bool

    /** `Popen(cmd, ..., shell=isinstance(cmd, str))`. */
    constructor Popen(cmd: Command, behaviour: Behaviour)
      ensures shell == cmd.ShellString? && this.behaviour == behaviour
      ensures polls == 0 && returncode == None && !killed
    {
      shell := cmd.ShellString?;
      this.behaviour := behaviour;
      polls := 0;
      returncode := None;
      killed := false;
    }

    /** `p.poll()`: the next answer; an exit code is also kept in `returncode`. */
    method Poll() returns (r: Option<int>)
      modifies this
      ensures r == PollOutcome(behaviour.polls, old(polls)) && polls == old(polls) + 1
      ensures returncode == (if r.Some? then r else old(returncode))
      ensures killed == old(killed)
    {
      r := PollOutcome(behaviour.polls, polls);
      polls := polls + 1;
      if r.Some? {
        returncode := r;
      }
    }

    /** `kill_pid(p.pid)`. */
    method Kill()
      modifies this
      ensures killed && polls == old(polls) && returncode == old(returncode)
    {
      killed := true;
    }
  }

  /**
   * `LocalShell.execute`: spawn the command, poll it at most
   * `int(timeout / timeout_check_interval)` times, stopping at the first poll
   * that finds it exited; if none does, kill it and return the timeout
   * sentinel, otherwise return its decoded output and exit code.
   * Besides the result, reports the shell flag it was spawned with, how many
   * polls were made and whether it was killed.
   */
  method Execute(cmd: Command, behaviour: Behaviour, timeout: real, interval: real)
    returns (r: Result<ExecResult, Utf8.DecodeError>, shell: bool, polls: nat, killed: bool)
    requires interval > 0.0
    ensures shell <==> cmd.ShellString?
    ensures r == ExpectedResult(behaviour, PollBound(timeout, interval))
    ensures polls == PollsMade(behaviour.polls, PollBound(timeout, interval))
    ensures killed <==> forall j :: 0 <= j < PollBound(timeout, interval) ==> PollOutcome(behaviour.polls, j).None?
  {
    var n := PollBound(timeout, interval);
    var p := new Process.Popen(cmd, behaviour);
    var i := 0;
    var exited := false;
    while i < n
      invariant 0 <= i <= n
      invariant p.polls == i && p.returncode == None && !p.killed && !exited
      invariant forall j :: 0 <= j < i ==> PollOutcome(behaviour.polls, j).None?
    {
      var code := p.Poll();
      if code.Some? {
        exited := true;
        break;
      }
      i := i + 1;
    }
    if !exited {
      p.Kill();
      r := Success(TimeoutResult);
    } else {
      assert FirstExit(behaviour.polls, n) == Some(i);
      var out := ReadStr(p.behaviour.stdout);
      var err := ReadStr(p.behaviour.stderr);
      r := if out.Failure? then Failure(out.error)
           else if err.Failure? then Failure(err.error)
           else Success(ExecResult(out.value, err.value, p.returncode.value));
    }
    shell, polls, killed := p.shell, p.polls, p.killed;
  }

  // ---------------------------------------------------------------------------
  // Properties of the poll loop
  // ---------------------------------------------------------------------------

  /** The loop stops at the first poll that reports an exit, and no later. */
  lemma StopsAtFirstExit(polls: seq<Option<int>>, bound: nat, k: nat)
    requires k < bound && PollOutcome(polls, k).Some?
    requires forall j :: 0 <= j < k ==> PollOutcome(polls, j).None?
    ensures FirstExit(polls, bound) == Some(k)
    ensures PollsMade(polls, bound) == k + 1
  {
    var r := FirstExit(polls, bound);
    assert r.Some?;
  }

  /** A completed run returns the decoded output and the code of the first exit poll. */
  lemma CompletedRunResult(behaviour: Behaviour, bound: nat, k: nat, out: string, err: string)
    requires k < bound && PollOutcome(behaviour.polls, k).Some?
    requires forall j :: 0 <= j < k ==> PollOutcome(behaviour.polls, j).None?
    requires ReadStr(behaviour.stdout) == Success(out) && ReadStr(behaviour.stderr) == Success(err)
    ensures ExpectedResult(behaviour, bound) == Success(ExecResult(out, err, PollOutcome(behaviour.polls, k).value))
  {
    StopsAtFirstExit(behaviour.polls, bound, k);
  }

  /** When no poll within the bound finds an exit, the result is the timeout sentinel. */
  lemma TimedOutRunResult(behaviour: Behaviour, bound: nat)
    requires forall j :: 0 <= j < bound ==> PollOutcome(behaviour.polls, j).None?
    ensures ExpectedResult(behaviour, bound) == Success(ExecResult("", "Execution timed out", -1))
    ensures PollsMade(behaviour.polls, bound) == bound
  {
  }

  /** A bound of zero means no poll at all, and the timeout sentinel. */
  lemma ZeroBoundNoPoll(behaviour: Behaviour, timeout: real, interval: real)
    requires interval > 0.0 && timeout / interval < 1.0
    ensures PollsMade(behaviour.polls, PollBound(timeout, interval)) == 0
    ensures ExpectedResult(behaviour, PollBound(timeout, interval)) == Success(TimeoutResult)
  {
  }

  /** With the default timeout (60) and interval (3) the process is polled at most 20 times. */
  lemma DefaultBound()
    ensures PollBound(DefaultTimeout, DefaultTimeoutCheckInterval) == 20
  {
    assert DefaultTimeout / DefaultTimeoutCheckInterval == 20.0;
  }

  /** `execute('echo hi')`: the shell exits with 0 at the first poll, having written "hi\n". */
  lemma EchoHiScenario()
    ensures ExpectedResult(Behaviour([Some(0)], Bytes([0x68, 0x69, 0x0A]), Bytes([])),
                           PollBound(DefaultTimeout, DefaultTimeoutCheckInterval))
            == Success(ExecResult("hi\n", "", 0))
  {
    DefaultBound();
    assert Utf8.Encode("hi\n") == [0x68, 0x69, 0x0A];
    ReadStrRoundTrip("hi\n");
    ReadStrRoundTrip("");
    StopsAtFirstExit([Some(0)], 20, 0);
  }

  /** A command still running after ten polls, with timeout 1 and interval 0.1, times out. */
  lemma SleepTimesOutScenario(behaviour: Behaviour)
    requires forall j :: 0 <= j < 10 ==> PollOutcome(behaviour.polls, j).None?
    ensures ExpectedResult(behaviour, PollBound(1.0, 0.1)) == Success(ExecResult("", "Execution timed out", -1))
  {
    assert 1.0 / 0.1 == 10.0;
    TimedOutRunResult(behaviour, 10);
  }
}
