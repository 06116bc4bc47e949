/** `GET /api/telemetry`: run the telemetry script with the query's four
    values, collect everything it writes to standard output, and answer with
    the parsed output when it exits with status 0. */
module TelemetryEndpoint {
  import opened Optional
  import opened Telemetry
  import opened Http

  const FailureText := "Failed to process telemetry data."

  /** The arguments `python3` is spawned with: the script name, then
      driver, track, year and session, in that order. */
  function SpawnArgs(q: Query): (args: seq<string>)
    ensures |args| == 5 && args[0] == "telemetry.py"
  {
    ["telemetry.py", q.driver, q.track, q.year, q.session]
  }

  /** How the script reads its arguments (`sys.argv[1]` to `sys.argv[4]`). */
  function ScriptQuery(argv: seq<string>): Query
    requires |argv| >= 5
  {
    Query(argv[1], argv[2], argv[3], argv[4])
  }

  /** The script receives exactly the query the server was given. */
  lemma ScriptSeesQuery(q: Query)
    ensures ScriptQuery(SpawnArgs(q)) == q
  {
  }

  /** One run of the script: the chunks it writes to standard output, in
      order, and its exit code (absent when a signal ended it, which makes
      Node report `null`). What it writes to standard error is only logged. */
  datatype ProcessRun = ProcessRun(stdout: seq<string>, exitCode: Option<int>)

  /** The chunks one after the other. */
  function Concat(chunks: seq<string>): string {
    if |chunks| == 0 then "" else Concat(chunks[..|chunks| - 1]) + chunks[|chunks| - 1]
  }

  /** Concatenation distributes over splitting the chunk list. */
  lemma {:induction false} ConcatAppend(a: seq<string>, b: seq<string>)
    ensures Concat(a + b) == Concat(a) + Concat(b)
    decreases |b|
  {
    if |b| > 0 {
      var ab := a + b;
      assert ab[..|ab| - 1] == a + b[..|b| - 1];
      ConcatAppend(a, b[..|b| - 1]);
    } else {
      assert a + b == a;
    }
  }

  /** Chunk i sits in the result right after the chunks before it and right
      before the chunks after it. */
  lemma {:induction false} ConcatChunkAt(chunks: seq<string>, i: nat)
    requires i < |chunks|
    ensures Concat(chunks) == Concat(chunks[..i]) + chunks[i] + Concat(chunks[i + 1..])
  {
    assert chunks == chunks[..i] + [chunks[i]] + chunks[i + 1..];
    ConcatAppend(chunks[..i] + [chunks[i]], chunks[i + 1..]);
    ConcatAppend(chunks[..i], [chunks[i]]);
    assert Concat([chunks[i]]) == chunks[i] by {
      assert [chunks[i]][..0] == [];
    }
  }

  /** What the `close` handler does with the collected text: status 0 sends
      the parsed JSON (a parse failure throws inside the handler, and no
      response is sent: `None`); any other code, or none, sends 500. */
  function CloseReply(exitCode: Option<int>, result: string, parse: string -> Option<Payload>): Option<Response>
  {
    if exitCode == Some(0) then
      (if parse(result).Some? then Some(Response(200, JsonPayload(parse(result).value))) else None)
    else Some(Response(500, PlainText(FailureText)))
  }

  /** The endpoint answers 200 exactly when the script exited with 0 and its
      output parsed, with the parsed value; it answers 500 exactly when the
      script did not exit with 0; and it sends nothing when the output of a
      successful run does not parse. */
  lemma CloseReplySpec(exitCode: Option<int>, result: string, parse: string -> Option<Payload>)
    ensures CloseReply(exitCode, result, parse).Some? && CloseReply(exitCode, result, parse).value.status == 200
      <==> exitCode == Some(0) && parse(result).Some?
    ensures CloseReply(exitCode, result, parse).Some? && CloseReply(exitCode, result, parse).value.status == 200
      ==> CloseReply(exitCode, result, parse).value.body == JsonPayload(parse(result).value)
    ensures CloseReply(exitCode, result, parse) == Some(Response(500, PlainText(FailureText)))
      <==> exitCode != Some(0)
    ensures CloseReply(exitCode, result, parse).None? <==> exitCode == Some(0) && parse(result).None?
  {
  }

  /** The handler. `run` stands for spawning the script with an argument
      vector and `parse` for `JSON.parse`. Returns the argument vector, the
      accumulated standard output and the reply. */
  method HandleTelemetry(q: Query, run: seq<string> -> ProcessRun, parse: string -> Option<Payload>)
    returns (args: seq<string>, result: string, reply: Option<Response>)
    ensures args == SpawnArgs(q)
    ensures result == Concat(run(args).stdout)
    ensures reply == CloseReply(run(args).exitCode, result, parse)
  {
    args := SpawnArgs(q);
    var process := run(args);
    result := "";
    var i := 0;
    while i < |process.stdout|
      invariant 0 <= i <= |process.stdout|
      invariant result == Concat(process.stdout[..i])
    {
      assert process.stdout[..i + 1][..i] == process.stdout[..i];
      result := result + process.stdout[i];
      i := i + 1;
    }
    assert process.stdout[..i] == process.stdout;
    if process.exitCode == Some(0) {
      var parsed := parse(result);
      if parsed.Some? {
        reply := Some(Response(200, JsonPayload(parsed.value)));
      } else {
        reply := None;
      }
    } else {
      reply := Some(Response(500, PlainText(FailureText)));
    }
  }

  /** A run whose script printed its `{"error": ...}` object and exited with
      0 is a success for the server: the error object is sent with 200. */
  lemma ScriptErrorIsSuccess(result: string, message: string, parse: string -> Option<Payload>)
    requires parse(result) == Some(ErrorPayload(message))
    ensures CloseReply(Some(0), result, parse) == Some(Response(200, JsonPayload(ErrorPayload(message))))
  {
  }

}
