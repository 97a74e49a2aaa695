/** `executeCommand`: one command on the target over a fresh ssh session.
    The transport is an abstract outcome: a connection error, an error
    starting the command, or the chunks the two streams delivered (in
    arrival order) and the exit code passed to `close`. */
module Runner {
  import opened Wrappers
  import opened Text
  import opened Registry

  datatype Chunk = Stdout(text: string) | Stderr(text: string)

  /** `exitCode` is `None` when `close` reports no code (a signal). */
  datatype Transport =
    | ConnectFailed(message: string)
    | ExecFailed(message: string)
    | Closed(chunks: seq<Chunk>, exitCode: Option<int>)

  datatype ExecOutput = ExecOutput(output: string, errorOutput: string, exitCode: Option<int>)

  /** The result the agent records for one executed action. */
  datatype CommandResult = CommandResult(command: string, output: string, error: string, exitCode: Option<int>)

  function StdoutOf(chunks: seq<Chunk>): seq<string> {
    if chunks == [] then []
    else
      var last := chunks[|chunks| - 1];
      StdoutOf(chunks[..|chunks| - 1]) + (if last.Stdout? then [last.text] else [])
  }

  function StderrOf(chunks: seq<Chunk>): seq<string> {
    if chunks == [] then []
    else
      var last := chunks[|chunks| - 1];
      StderrOf(chunks[..|chunks| - 1]) + (if last.Stderr? then [last.text] else [])
  }

  lemma {:induction false} StreamsAppend(a: seq<Chunk>, b: seq<Chunk>)
    ensures StdoutOf(a + b) == StdoutOf(a) + StdoutOf(b)
    ensures StderrOf(a + b) == StderrOf(a) + StderrOf(b)
    decreases |b|
  {
    if b == [] {
      assert a + b == a;
    } else {
      var n := |b| - 1;
      assert (a + b)[..|a + b| - 1] == a + b[..n];
      StreamsAppend(a, b[..n]);
    }
  }

  /** Chunks arriving in two bursts: each stream's text is the first burst's
      text followed by the second's, whatever the other stream did. */
  lemma OutputGrowsByAppending(a: seq<Chunk>, b: seq<Chunk>)
    ensures Concat(StdoutOf(a + b)) == Concat(StdoutOf(a)) + Concat(StdoutOf(b))
    ensures Concat(StderrOf(a + b)) == Concat(StderrOf(a)) + Concat(StderrOf(b))
  {
    StreamsAppend(a, b);
    ConcatAppend(StdoutOf(a), StdoutOf(b));
    ConcatAppend(StderrOf(a), StderrOf(b));
  }

  /** The outcome `executeCommand` resolves or rejects with. */
  function CommandOutcome(servers: map<string, Server>, serverName: string, t: Transport): (r: Result<ExecOutput, string>)
    ensures r.Success? <==> serverName in servers && t.Closed?
    ensures serverName !in servers ==> r == Failure("Server " + serverName + " not found")
    ensures serverName in servers && !t.Closed? ==> r == Failure("Failed to execute command: " + t.message)
    ensures r.Success? ==> r.value.exitCode == t.exitCode
  {
    if serverName !in servers then Failure("Server " + serverName + " not found")
    else
      match t
      case ConnectFailed(message) => Failure("Failed to execute command: " + message)
      case ExecFailed(message) => Failure("Failed to execute command: " + message)
      case Closed(chunks, code) => Success(ExecOutput(Concat(StdoutOf(chunks)), Concat(StderrOf(chunks)), code))
  }

  /** `output += chunk` / `errorOutput += chunk` as the chunks arrive. */
  method Accumulate(chunks: seq<Chunk>) returns (output: string, errorOutput: string)
    ensures output == Concat(StdoutOf(chunks))
    ensures errorOutput == Concat(StderrOf(chunks))
  {
    output, errorOutput := "", "";
    var i := 0;
    while i < |chunks|
      invariant 0 <= i <= |chunks|
      invariant output == Concat(StdoutOf(chunks[..i]))
      invariant errorOutput == Concat(StderrOf(chunks[..i]))
    {
      var c := chunks[i];
      ghost var outs, errs := StdoutOf(chunks[..i]), StderrOf(chunks[..i]);
      assert chunks[..i + 1][..i] == chunks[..i];
      if c.Stdout? {
        assert StdoutOf(chunks[..i + 1]) == outs + [c.text] && StderrOf(chunks[..i + 1]) == errs;
        assert (outs + [c.text])[..|outs|] == outs;
        output := output + c.text;
      } else {
        assert StderrOf(chunks[..i + 1]) == errs + [c.text] && StdoutOf(chunks[..i + 1]) == outs;
        assert (errs + [c.text])[..|errs|] == errs;
        errorOutput := errorOutput + c.text;
      }
      i := i + 1;
    }
    assert chunks[..i] == chunks;
  }

  method ExecuteCommand(servers: map<string, Server>, serverName: string, t: Transport)
    returns (r: Result<ExecOutput, string>)
    ensures r == CommandOutcome(servers, serverName, t)
    ensures r.Success? ==> t.Closed? && r.value.output == Concat(StdoutOf(t.chunks))
                           && r.value.errorOutput == Concat(StderrOf(t.chunks))
  {
    if serverName !in servers {
      return Failure("Server " + serverName + " not found");
    }
    match t
    case ConnectFailed(message) =>
      r := Failure("Failed to execute command: " + message);
    case ExecFailed(message) =>
      r := Failure("Failed to execute command: " + message);
    case Closed(chunks, code) =>
      var output, errorOutput := Accumulate(chunks);
      r := Success(ExecOutput(output, errorOutput, code));
  }
}
