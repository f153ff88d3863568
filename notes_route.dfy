/** The notes endpoint (app/api/notes/route.ts): the request gate of `POST`, the mapping
    of the worker's result to a response, and, inside `runPythonAgent`, the
    classification of the worker's exit and the promise that settles once, whichever of
    its callbacks fires first. The process itself is replaced by the sequence of events
    its callbacks receive. */
module NotesRoute {
  import opened Wrappers
  import opened Strings
  import opened Json
  import Schemas

  // ---------------------------------------------------------------- worker result

  /** The ways a worker exchange fails. Each carries what its message is built from;
      `ErrorText` renders the message. */
  datatype AgentError =
    | ProcessError(message: string)
    | ExitFailure(code: Option<int>, stdout: string, stderr: string)
    | InvalidJson(message: string, stdout: string)
    | SendFailure(message: string)
    | TimedOut

  /** `{ ok: true, data }` or `{ ok: false, error }`. */
  datatype AgentResult = AgentOk(data: Json) | AgentErr(error: AgentError)

  const ProcessErrorPrefix := "Agent process error: "
  const ExitCodePrefix := "Agent exited with code "
  const InvalidJsonPrefix := "Invalid JSON from agent: "
  const SendFailurePrefix := "Failed to send payload: "
  const TimeoutMessage := "Agent timed out after 60s"

  /** The safety timeout, in milliseconds. */
  const TimeoutMillis: nat := 60000

  /** The timeout message names the timer's delay in seconds. */
  lemma TimeoutMessageNamesDelay()
    ensures TimeoutMessage == "Agent timed out after " + NatToString(TimeoutMillis / 1000) + "s"
  {
    assert TimeoutMillis / 1000 == 60;
    assert NatToString(60) == "60" by {
      assert NatToString(6) == "6";
    }
  }

  /** `${code}` for the exit code Node reports; it is `null` when a signal ended the
      process. */
  function CodeText(code: Option<int>): (r: string)
    ensures r != ""
    ensures code.None? ==> r == "null"
    ensures code.Some? ==> r == IntToString(code.value)
  {
    match code
    case Some(c) => IntToString(c)
    case None => "null"
  }

  /** The `error` string of a failed exchange. A failed exit reports the diagnostic
      text, else the output text, else the exit code. No message is empty. */
  function ErrorText(e: AgentError): (r: string)
    ensures r != ""
    ensures e.ProcessError? ==> r == ProcessErrorPrefix + e.message
    ensures e.SendFailure? ==> r == SendFailurePrefix + e.message
    ensures e.InvalidJson? ==> InvalidJsonPrefix <= r
    ensures e.TimedOut? ==> r == TimeoutMessage
    ensures e.TimedOut? ==> r == "Agent timed out after " + NatToString(TimeoutMillis / 1000) + "s"
  {
    TimeoutMessageNamesDelay();
    match e
    case ProcessError(message) => ProcessErrorPrefix + message
    case ExitFailure(code, stdout, stderr) => NonEmptyOr(stderr, NonEmptyOr(stdout, ExitCodePrefix + CodeText(code)))
    case InvalidJson(message, stdout) => InvalidJsonPrefix + message + "\n" + stdout
    case SendFailure(message) => SendFailurePrefix + message
    case TimedOut => TimeoutMessage
  }

  /** A failed exit: diagnostic text first, output text second, a generic message last. */
  lemma ExitFailureText(code: Option<int>, stdout: string, stderr: string)
    ensures stderr != "" ==> ErrorText(ExitFailure(code, stdout, stderr)) == stderr
    ensures stderr == "" && stdout != "" ==> ErrorText(ExitFailure(code, stdout, stderr)) == stdout
    ensures stderr == "" && stdout == "" ==> ErrorText(ExitFailure(code, stdout, stderr)) == ExitCodePrefix + CodeText(code)
  {
  }

  /** Output that does not parse: the message names the failure and ends with the raw
      output. */
  lemma InvalidJsonText(message: string, stdout: string)
    ensures var r := ErrorText(InvalidJson(message, stdout));
            && InvalidJsonPrefix + message + "\n" <= r
            && |stdout| <= |r| && r[|r| - |stdout|..] == stdout
            && |r| == |InvalidJsonPrefix| + |message| + 1 + |stdout|
  {
    var r := ErrorText(InvalidJson(message, stdout));
    assert r == (InvalidJsonPrefix + message + "\n") + stdout;
  }

  /** The `close` handler: a non-zero exit code, or none, is a failed exit; a zero exit
      hands the output to the JSON parser. */
  function Classify(code: Option<int>, stdout: string, stderr: string, parse: Parser): (r: AgentResult)
    ensures r.AgentOk? <==> code == Some(0) && parse(stdout).Success?
    ensures r.AgentOk? ==> r.data == parse(stdout).value
    ensures code != Some(0) ==> r == AgentErr(ExitFailure(code, stdout, stderr))
    ensures code == Some(0) && parse(stdout).Failure? ==> r == AgentErr(InvalidJson(parse(stdout).error, stdout))
  {
    if code != Some(0) then
      AgentErr(ExitFailure(code, stdout, stderr))
    else
      match parse(stdout)
      case Success(v) => AgentOk(v)
      case Failure(m) => AgentErr(InvalidJson(m, stdout))
  }

  // ---------------------------------------------------------------- settle once

  /** What the callbacks of the spawned process receive. */
  datatype AgentEvent =
    | StdoutData(chunk: string)
    | StderrData(chunk: string)
    | SpawnError(message: string)
    | Close(code: Option<int>)
    | StdinWriteFailure(message: string)
    | TimerFired

  /** The events whose callback calls `resolve`. */
  predicate Settles(e: AgentEvent) {
    !e.StdoutData? && !e.StderrData?
  }

  /** `Buffer.concat(chunks).toString('utf-8')`. */
  function Concat(chunks: seq<string>): string
    decreases |chunks|
  {
    if chunks == [] then "" else Concat(chunks[..|chunks| - 1]) + chunks[|chunks| - 1]
  }

  /** The chunks the output callback has collected after the first `n` events. */
  function StdoutChunks(events: seq<AgentEvent>, n: nat): seq<string>
    requires n <= |events|
  {
    if n == 0 then []
    else StdoutChunks(events, n - 1) + if events[n - 1].StdoutData? then [events[n - 1].chunk] else []
  }

  /** The chunks the diagnostic callback has collected after the first `n` events. */
  function StderrChunks(events: seq<AgentEvent>, n: nat): seq<string>
    requires n <= |events|
  {
    if n == 0 then []
    else StderrChunks(events, n - 1) + if events[n - 1].StderrData? then [events[n - 1].chunk] else []
  }

  /** The output text collected after the first `n` events. */
  function StdoutText(events: seq<AgentEvent>, n: nat): string
    requires n <= |events|
  {
    if n == 0 then ""
    else StdoutText(events, n - 1) + if events[n - 1].StdoutData? then events[n - 1].chunk else ""
  }

  /** The diagnostic text collected after the first `n` events. */
  function StderrText(events: seq<AgentEvent>, n: nat): string
    requires n <= |events|
  {
    if n == 0 then ""
    else StderrText(events, n - 1) + if events[n - 1].StderrData? then events[n - 1].chunk else ""
  }

  /** The buffers are concatenated in order with nothing between them. */
  lemma {:induction false} ConcatIsJoin(chunks: seq<string>)
    ensures Concat(chunks) == Join("", chunks)
    decreases |chunks|
  {
    if chunks != [] {
      var init, last := chunks[..|chunks| - 1], chunks[|chunks| - 1];
      ConcatIsJoin(init);
      assert chunks == init + [last];
      if init == [] {
        assert chunks == [last];
      } else {
        JoinAppend("", init, last);
      }
    }
  }

  /** Appending one chunk appends its text. */
  lemma ConcatAppend(chunks: seq<string>, d: string)
    ensures Concat(chunks + [d]) == Concat(chunks) + d
  {
    assert (chunks + [d])[..|chunks|] == chunks;
  }

  /** Concatenating the collected chunks gives the collected text. */
  lemma {:induction false} CollectedText(events: seq<AgentEvent>, n: nat)
    requires n <= |events|
    ensures Concat(StdoutChunks(events, n)) == StdoutText(events, n)
    ensures Concat(StderrChunks(events, n)) == StderrText(events, n)
  {
    if n > 0 {
      CollectedText(events, n - 1);
      var e := events[n - 1];
      if e.StdoutData? {
        ConcatAppend(StdoutChunks(events, n - 1), e.chunk);
      } else {
        assert StdoutChunks(events, n) == StdoutChunks(events, n - 1);
        assert StdoutText(events, n) == StdoutText(events, n - 1);
      }
      if e.StderrData? {
        ConcatAppend(StderrChunks(events, n - 1), e.chunk);
      } else {
        assert StderrChunks(events, n) == StderrChunks(events, n - 1);
        assert StderrText(events, n) == StderrText(events, n - 1);
      }
    }
  }

  /** The value the callback of `e` passes to `resolve`, given the text collected so far;
      nothing for the data callbacks. */
  function Fire(e: AgentEvent, stdout: string, stderr: string, parse: Parser): (r: Option<AgentResult>)
    ensures r.Some? <==> Settles(e)
  {
    match e
    case StdoutData(_) => None
    case StderrData(_) => None
    case SpawnError(message) => Some(AgentErr(ProcessError(message)))
    case Close(code) => Some(Classify(code, stdout, stderr, parse))
    case StdinWriteFailure(message) => Some(AgentErr(SendFailure(message)))
    case TimerFired => Some(AgentErr(TimedOut))
  }

  /** The value of the promise after the first `n` events, one event after the other:
      once it holds a value, later calls of `resolve` are ignored. */
  function SettledAfter(events: seq<AgentEvent>, n: nat, parse: Parser): Option<AgentResult>
    requires n <= |events|
  {
    if n == 0 then None
    else
      var prior := SettledAfter(events, n - 1, parse);
      if prior.Some? then prior
      else Fire(events[n - 1], StdoutText(events, n - 1), StderrText(events, n - 1), parse)
  }

  /** The value of the promise once every event of the run has happened: there is one
      exactly when some callback called `resolve`. */
  function Settled(events: seq<AgentEvent>, parse: Parser): (r: Option<AgentResult>)
    ensures r.Some? <==> exists k :: 0 <= k < |events| && Settles(events[k])
  {
    SettledIffSettlingEvent(events, |events|, parse);
    SettledAfter(events, |events|, parse)
  }

  /** The reference reading, from event `i` on: collect data until the first settling
      event, which alone decides the outcome. */
  function FirstSettlement(events: seq<AgentEvent>, i: nat, stdout: string, stderr: string, parse: Parser): (r: Option<AgentResult>)
    requires i <= |events|
    ensures r.Some? <==> exists k :: i <= k < |events| && Settles(events[k])
    decreases |events| - i
  {
    if i == |events| then None
    else
      match events[i]
      case StdoutData(d) => FirstSettlement(events, i + 1, stdout + d, stderr, parse)
      case StderrData(d) => FirstSettlement(events, i + 1, stdout, stderr + d, parse)
      case _ => Fire(events[i], stdout, stderr, parse)
  }

  /** A run cut after `i` events: what follows matters only if nothing settled before
      the cut, and then its first settling event decides, with the text collected so far. */
  lemma {:induction false} SettledSplit(events: seq<AgentEvent>, i: nat, parse: Parser)
    requires i <= |events|
    ensures Settled(events, parse) ==
            if SettledAfter(events, i, parse).Some? then SettledAfter(events, i, parse)
            else FirstSettlement(events, i, StdoutText(events, i), StderrText(events, i), parse)
    decreases |events| - i
  {
    if i < |events| {
      SettledSplit(events, i + 1, parse);
      var e, out, err := events[i], StdoutText(events, i), StderrText(events, i);
      if SettledAfter(events, i, parse).None? {
        if e.StdoutData? {
          assert StdoutText(events, i + 1) == out + e.chunk;
          assert StderrText(events, i + 1) == err + "";
          assert err + "" == err;
        } else if e.StderrData? {
          assert StdoutText(events, i + 1) == out + "";
          assert out + "" == out;
          assert StderrText(events, i + 1) == err + e.chunk;
        }
      }
    }
  }

  /** The promise equals the reference reading: the first settling event wins. */
  lemma SettledIsFirstSettlement(events: seq<AgentEvent>, parse: Parser)
    ensures Settled(events, parse) == FirstSettlement(events, 0, "", "", parse)
  {
    SettledSplit(events, 0, parse);
  }

  /** Two runs that agree on their first `n` events agree on everything collected and
      settled after them. */
  lemma {:induction false} SettledAfterPrefix(a: seq<AgentEvent>, b: seq<AgentEvent>, n: nat, parse: Parser)
    requires n <= |a| && n <= |b|
    requires forall k :: 0 <= k < n ==> a[k] == b[k]
    ensures SettledAfter(a, n, parse) == SettledAfter(b, n, parse)
    ensures StdoutText(a, n) == StdoutText(b, n)
    ensures StderrText(a, n) == StderrText(b, n)
  {
    if n > 0 {
      SettledAfterPrefix(a, b, n - 1, parse);
      assert a[n - 1] == b[n - 1];
    }
  }

  /** Once settled, the outcome never changes, whatever happens next. */
  lemma SettlementIsFinal(before: seq<AgentEvent>, after: seq<AgentEvent>, parse: Parser)
    requires Settled(before, parse).Some?
    ensures Settled(before + after, parse) == Settled(before, parse)
  {
    SettledSplit(before + after, |before|, parse);
    SettledAfterPrefix(before + after, before, |before|, parse);
  }

  /** The timer is never cleared: when it fires after the process has closed, the
      outcome stays the one the close produced. */
  lemma LateTimeoutIgnored(before: seq<AgentEvent>, code: Option<int>, parse: Parser)
    requires Settled(before, parse).None?
    ensures Settled(before + [Close(code), TimerFired], parse) ==
            Some(Classify(code, StdoutText(before, |before|), StderrText(before, |before|), parse))
  {
    var events := before + [Close(code), TimerFired];
    SettledSplit(events, |before|, parse);
    SettledAfterPrefix(events, before, |before|, parse);
    assert events[|before|] == Close(code);
  }

  /** Something is settled after `n` events exactly when one of them is a settling event. */
  lemma {:induction false} SettledIffSettlingEvent(events: seq<AgentEvent>, n: nat, parse: Parser)
    requires n <= |events|
    ensures SettledAfter(events, n, parse).Some? <==> exists k :: 0 <= k < n && Settles(events[k])
  {
    if n > 0 {
      SettledIffSettlingEvent(events, n - 1, parse);
    }
  }

  /** The promise of one `runPythonAgent` call: the collected output and diagnostic
      chunks, the value it settled with, and whether the kill was sent. */
  class AgentRun {
    var chunks: seq<string>
    var errChunks: seq<string>
    var outcome: Option<AgentResult>
    var killed: bool
    const parse: Parser

    constructor (parse: Parser)
      ensures this.parse == parse
      ensures chunks == [] && errChunks == [] && outcome == None && !killed
    {
      this.parse := parse;
      chunks, errChunks, outcome, killed := [], [], None, false;
    }

    /** `resolve`: only the first call has an effect. */
    method Resolve(r: AgentResult)
      modifies this`outcome
      ensures outcome == if old(outcome).None? then Some(r) else old(outcome)
    {
      if outcome.None? {
        outcome := Some(r);
      }
    }

    method OnStdoutData(d: string)
      modifies this`chunks
      ensures chunks == old(chunks) + [d]
    {
      chunks := chunks + [d];
    }

    method OnStderrData(d: string)
      modifies this`errChunks
      ensures errChunks == old(errChunks) + [d]
    {
      errChunks := errChunks + [d];
    }

    method OnError(message: string)
      modifies this`outcome
      ensures outcome == if old(outcome).None? then Some(AgentErr(ProcessError(message))) else old(outcome)
    {
      Resolve(AgentErr(ProcessError(message)));
    }

    method OnClose(code: Option<int>)
      modifies this`outcome
      ensures outcome == if old(outcome).None? then Some(Classify(code, Concat(chunks), Concat(errChunks), parse))
                         else old(outcome)
    {
      var stdout := Concat(chunks);
      var stderr := Concat(errChunks);
      Resolve(Classify(code, stdout, stderr, parse));
    }

    method OnWriteFailure(message: string)
      modifies this`outcome
      ensures outcome == if old(outcome).None? then Some(AgentErr(SendFailure(message))) else old(outcome)
    {
      Resolve(AgentErr(SendFailure(message)));
    }

    /** The timer callback: the kill is sent whatever the state, then `resolve` is called. */
    method OnTimeout()
      modifies this`outcome, this`killed
      ensures killed
      ensures outcome == if old(outcome).None? then Some(AgentErr(TimedOut)) else old(outcome)
    {
      killed := true;
      Resolve(AgentErr(TimedOut));
    }

    /** Runs the callback that `e` triggers. */
    method Dispatch(e: AgentEvent)
      modifies this
      ensures chunks == old(chunks) + (if e.StdoutData? then [e.chunk] else [])
      ensures errChunks == old(errChunks) + (if e.StderrData? then [e.chunk] else [])
      ensures outcome == if old(outcome).Some? then old(outcome)
                         else Fire(e, Concat(old(chunks)), Concat(old(errChunks)), parse)
      ensures killed == (old(killed) || e.TimerFired?)
    {
      match e
      case StdoutData(d) => OnStdoutData(d);
      case StderrData(d) => OnStderrData(d);
      case SpawnError(message) => OnError(message);
      case Close(code) => OnClose(code);
      case StdinWriteFailure(message) => OnWriteFailure(message);
      case TimerFired => OnTimeout();
    }
  }

  /** One worker exchange driven by the events its callbacks receive: the promise's value
      afterwards is `Settled(events)`, and the kill has been sent exactly when the timer
      fired. */
  method RunAgent(events: seq<AgentEvent>, parse: Parser) returns (outcome: Option<AgentResult>, killed: bool)
    ensures outcome == Settled(events, parse)
    ensures killed <==> TimerFired in events
  {
    var run := new AgentRun(parse);
    var i := 0;
    while i < |events|
      invariant 0 <= i <= |events|
      invariant run.parse == parse
      invariant run.chunks == StdoutChunks(events, i)
      invariant run.errChunks == StderrChunks(events, i)
      invariant run.outcome == SettledAfter(events, i, parse)
      invariant run.killed <==> exists k :: 0 <= k < i && events[k].TimerFired?
    {
      CollectedText(events, i);
      run.Dispatch(events[i]);
      i := i + 1;
    }
    outcome, killed := run.outcome, run.killed;
  }

  // ---------------------------------------------------------------- POST

  /** What the route forwards to the worker, on its input channel. */
  datatype Payload = Payload(content: string, examType: string, depth: string)

  /** The environment the worker is started with. */
  datatype AgentEnv = AgentEnv(apiKey: string, baseUrl: string, modelName: string)

  const BaseUrl := "https://openrouter.ai/api/v1"
  const ModelName := "openai/gpt-oss-20b:free"
  const MinContentLength: nat := 20

  datatype ResponseBody = ErrorBody(error: string) | DataBody(data: Json)
  datatype Response = Response(status: int, body: ResponseBody)

  const TooShortMessage := "Input content is too short. Provide at least 20 characters."
  const InvalidSelectorMessage := "Invalid exam_type or depth."
  const MissingKeyMessage := "OpenRouter API key not configured."
  const AgentErrorFallback := "Agent error"
  const UnexpectedErrorFallback := "Unexpected error"

  /** The message of the `TypeError` thrown when `trim` is called on a content that is
      not a string. */
  const TrimTypeError := "content.trim is not a function"

  const ValidExam: seq<string> := ["midterm", "final", "viva"]
  const ValidDepth: seq<string> := ["short", "medium", "detailed"]

  /** `body?.content ?? ''`, ready for `trim`: a missing or `null` content is "", a
      content that is not a string makes `trim` throw. */
  function ContentText(body: Json): (r: Result<string, string>)
    ensures r.Failure? <==> Member(body, "content").Some?
                            && !Member(body, "content").value.JNull? && !Member(body, "content").value.JString?
    ensures r.Failure? ==> r.error == TrimTypeError
    ensures r.Success? && Member(body, "content").Some? && Member(body, "content").value.JString? ==>
            r.value == Member(body, "content").value.s
    ensures r.Success? && !(Member(body, "content").Some? && Member(body, "content").value.JString?) ==>
            r.value == ""
  {
    match Member(body, "content")
    case None => Success("")
    case Some(JNull) => Success("")
    case Some(JString(s)) => Success(s)
    case Some(_) => Failure(TrimTypeError)
  }

  /** `valid.includes(v)`: strict equality, so only a string can match. */
  predicate Includes(valid: seq<string>, v: Option<Json>) {
    v.Some? && v.value.JString? && v.value.s in valid
  }

  /** Strict equality: a value is among the valid ones only when it is one of those
      strings itself. */
  lemma IncludesIsStrictEquality(valid: seq<string>, v: Option<Json>)
    ensures Includes(valid, v) <==> exists k :: 0 <= k < |valid| && v == Some(JString(valid[k]))
  {
    if Includes(valid, v) {
      var k :| 0 <= k < |valid| && valid[k] == v.value.s;
      assert v == Some(JString(valid[k]));
    }
  }

  /** The answer of the `catch` block: a 500 with the exception's message, or the
      fallback text when the message is empty. */
  function ThrownResponse(message: string): (r: Response)
    ensures r.status == 500 && r.body.ErrorBody? && r.body.error != ""
    ensures message != "" ==> r.body.error == message
    ensures message == "" ==> r.body.error == UnexpectedErrorFallback
  {
    Response(500, ErrorBody(NonEmptyOr(message, UnexpectedErrorFallback)))
  }

  datatype GateOutcome = Reply(response: Response) | Forward(payload: Payload, env: AgentEnv)

  /** The checks of `POST` before the worker is started, in their order: the content,
      then the selectors, then the credential. */
  function Gate(body: Json, apiKey: Option<string>): (r: GateOutcome)
    ensures r.Forward? ==> IsTrimmed(r.payload.content) && |r.payload.content| >= MinContentLength
    ensures r.Forward? ==> r.env.apiKey != "" && r.env.baseUrl == BaseUrl && r.env.modelName == ModelName
  {
    match ContentText(body)
    case Failure(message) => Reply(ThrownResponse(message))
    case Success(raw) =>
      var content := Trim(raw);
      var examType, depth := Member(body, "exam_type"), Member(body, "depth");
      if content == "" || |content| < MinContentLength then
        Reply(Response(400, ErrorBody(TooShortMessage)))
      else if !Includes(ValidExam, examType) || !Includes(ValidDepth, depth) then
        Reply(Response(400, ErrorBody(InvalidSelectorMessage)))
      else
        var key := apiKey.GetOr("");
        if key == "" then Reply(Response(500, ErrorBody(MissingKeyMessage)))
        else Forward(Payload(content, examType.value.s, depth.value.s), AgentEnv(key, BaseUrl, ModelName))
  }

  /** The answer for the worker's result. Every failure carries a message, so the
      'Agent error' fallback is never the one sent. */
  function RespondTo(result: AgentResult): (r: Response)
    ensures r.status == 200 <==> result.AgentOk?
    ensures result.AgentOk? ==> r.body == DataBody(result.data)
    ensures result.AgentErr? ==> r.status == 500 && r.body == ErrorBody(ErrorText(result.error))
  {
    match result
    case AgentOk(data) => Response(200, DataBody(data))
    case AgentErr(error) => Response(500, ErrorBody(NonEmptyOr(ErrorText(error), AgentErrorFallback)))
  }

  /** `POST`: the body is parsed (a parse failure is thrown and caught), the gate is
      applied, and a forwarded payload is answered with what the worker returns. */
  function Post(raw: string, parseBody: Parser, apiKey: Option<string>,
                agent: (Payload, AgentEnv) -> AgentResult): (r: Response)
    ensures r.status == 200 || r.status == 400 || r.status == 500
  {
    match parseBody(raw)
    case Failure(message) => ThrownResponse(message)
    case Success(body) =>
      GateReplyStatus(body, apiKey);
      match Gate(body, apiKey)
      case Reply(response) => response
      case Forward(payload, env) => RespondTo(agent(payload, env))
  }

  /** Too-short content is refused first, whatever the selectors and the credential. */
  lemma GateTooShort(body: Json, apiKey: Option<string>)
    requires ContentText(body).Success? && |Trim(ContentText(body).value)| < MinContentLength
    ensures Gate(body, apiKey) == Reply(Response(400, ErrorBody(TooShortMessage)))
  {
  }

  /** Long enough content with a selector outside its set is refused next. */
  lemma GateInvalidSelector(body: Json, apiKey: Option<string>)
    requires ContentText(body).Success? && |Trim(ContentText(body).value)| >= MinContentLength
    requires !Includes(ValidExam, Member(body, "exam_type")) || !Includes(ValidDepth, Member(body, "depth"))
    ensures Gate(body, apiKey) == Reply(Response(400, ErrorBody(InvalidSelectorMessage)))
  {
  }

  /** The missing credential is reported exactly when both validations passed and the key
      is absent or empty. */
  lemma GateMissingKey(body: Json, apiKey: Option<string>)
    ensures Gate(body, apiKey) == Reply(Response(500, ErrorBody(MissingKeyMessage))) <==>
            && ContentText(body).Success?
            && |Trim(ContentText(body).value)| >= MinContentLength
            && Includes(ValidExam, Member(body, "exam_type"))
            && Includes(ValidDepth, Member(body, "depth"))
            && (apiKey.None? || apiKey.value == "")
  {
    assert |TooShortMessage| != |MissingKeyMessage| && |InvalidSelectorMessage| != |MissingKeyMessage|;
    if ContentText(body).Failure? {
      assert |TrimTypeError| != |MissingKeyMessage|;
    }
  }

  /** Both checks of the selectors pass. */
  predicate SelectorsValid(body: Json) {
    Includes(ValidExam, Member(body, "exam_type")) && Includes(ValidDepth, Member(body, "depth"))
  }

  /** The route's selector lists are the request schema's. */
  lemma SelectorListsAgree(body: Json)
    requires SelectorsValid(body)
    ensures Schemas.IsExamType(Member(body, "exam_type").value.s)
    ensures Schemas.IsDepth(Member(body, "depth").value.s)
  {
    assert ValidExam == Schemas.ExamTypes;
    assert ValidDepth == Schemas.DepthTypes;
  }

  /** The worker is started exactly when every check passes. */
  lemma GateForwards(body: Json, apiKey: Option<string>)
    ensures Gate(body, apiKey).Forward? <==>
            && ContentText(body).Success?
            && |Trim(ContentText(body).value)| >= MinContentLength
            && SelectorsValid(body)
            && apiKey.Some? && apiKey.value != ""
  {
  }

  /** A forwarded request carries the trimmed content, the two selectors and the key with
      the fixed endpoint and model. */
  lemma GatePayload(body: Json, apiKey: Option<string>)
    requires Gate(body, apiKey).Forward?
    ensures Gate(body, apiKey).payload ==
            Payload(Trim(ContentText(body).value), Member(body, "exam_type").value.s, Member(body, "depth").value.s)
    ensures Gate(body, apiKey).env == AgentEnv(apiKey.value, BaseUrl, ModelName)
  {
    match ContentText(body)
    case Success(raw) =>
      var content := Trim(raw);
      var examType, depth := Member(body, "exam_type"), Member(body, "depth");
      assert Includes(ValidExam, examType) && Includes(ValidDepth, depth);
      assert apiKey.GetOr("") == apiKey.value;
      assert Gate(body, apiKey) ==
             Forward(Payload(content, examType.value.s, depth.value.s), AgentEnv(apiKey.value, BaseUrl, ModelName));
  }

  /** Under the model's single character count and whitespace set, what the worker
      receives satisfies the request schema: a trimmed content of at least the minimum
      length, and selectors from the schema's sets. JavaScript and Python disagree on
      both, which is why the worker checks the length again. */
  lemma ForwardedPayloadValid(body: Json, apiKey: Option<string>)
    requires Gate(body, apiKey).Forward?
    ensures var p := Gate(body, apiKey).payload;
            && IsTrimmed(p.content)
            && Schemas.ValidInput(Schemas.InputSchema(p.content, p.examType, p.depth))
  {
    GateForwards(body, apiKey);
    GatePayload(body, apiKey);
    SelectorListsAgree(body);
  }

  /** The gate answers by itself only with 400 or 500. */
  lemma GateReplyStatus(body: Json, apiKey: Option<string>)
    ensures Gate(body, apiKey).Reply? ==>
            Gate(body, apiKey).response.status == 400 || Gate(body, apiKey).response.status == 500
  {
    match ContentText(body)
    case Failure(message) =>
      assert Gate(body, apiKey) == Reply(ThrownResponse(message));
    case Success(raw) =>
  }

  /** Every answer is 200, 400 or 500; 200 only for a forwarded request the worker
      answered, with the worker's document unchanged. */
  lemma PostStatuses(raw: string, parseBody: Parser, apiKey: Option<string>,
                     agent: (Payload, AgentEnv) -> AgentResult)
    ensures var r := Post(raw, parseBody, apiKey, agent);
            r.status == 200 || r.status == 400 || r.status == 500
    ensures var r := Post(raw, parseBody, apiKey, agent);
            r.status == 200 <==>
            && parseBody(raw).Success?
            && Gate(parseBody(raw).value, apiKey).Forward?
            && agent(Gate(parseBody(raw).value, apiKey).payload, Gate(parseBody(raw).value, apiKey).env).AgentOk?
    ensures var r := Post(raw, parseBody, apiKey, agent);
            r.status == 200 ==>
            r.body == DataBody(agent(Gate(parseBody(raw).value, apiKey).payload, Gate(parseBody(raw).value, apiKey).env).data)
  {
    match parseBody(raw)
    case Failure(message) =>
      assert Post(raw, parseBody, apiKey, agent) == ThrownResponse(message);
    case Success(body) =>
      GateReplyStatus(body, apiKey);
      match Gate(body, apiKey)
      case Reply(response) =>
        assert Post(raw, parseBody, apiKey, agent) == response;
      case Forward(payload, env) =>
        assert Post(raw, parseBody, apiKey, agent) == RespondTo(agent(payload, env));
  }

  /** A body that is not JSON, or a content that is present but neither a string nor
      `null`, is answered with 500. */
  lemma PostThrows(raw: string, parseBody: Parser, apiKey: Option<string>,
                   agent: (Payload, AgentEnv) -> AgentResult)
    requires parseBody(raw).Failure? || ContentText(parseBody(raw).value).Failure?
    ensures Post(raw, parseBody, apiKey, agent).status == 500
  {
  }
}
