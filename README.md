# AI study-notes generator: a Dafny model

The system turns pasted course material into exam-ready study notes. A single web page
collects the material, an exam type (`midterm`, `final`, `viva`) and a depth (`short`,
`medium`, `detailed`), and posts them to `POST /api/notes`. That route checks the input,
starts a Python worker, writes the request to the worker's standard input and turns the
worker's exit code and output into the HTTP answer. The worker validates the request
against a schema, asks a language model for notes at most twice, cleans Markdown fences
from the reply, validates it against the output schema and normalises every list item
into a bullet. On the page, the notes feed four derived collections: career
recommendations, skill gaps, a study roadmap and market trends. A copy button renders the
notes as Markdown.

The model has one Dafny module per concern:

- `Wrappers`: `Option`, `Result`, and the JavaScript `??` and `Math.min` helpers.
- `Strings`: trimming (`trim()`/`strip()`), substring tests, `replace(p, "")`, `join` and
  the decimal rendering of numbers.
- `Json`: the value type that parsed documents take. Parsing is a parameter everywhere.
- `Schemas` (`agent/schemas.py`): the input and output schemas and their validation.
- `Agent` (`agent/agent.py`): bullet normalisation, fence cleaning, one attempt, and the
  guarded retry loop of `main`.
- `NotesRoute` (`app/api/notes/route.ts`):
  - `AgentRun` is a class whose fields are the route's chunk buffers and its write-once
    promise state. Its event handlers update those fields.
  - Around the class, the run is a fold over the events a run receives.
  - The POST handler is a gate followed by the error mapping.
- `Insights` (`app/page.tsx`): the bullet sanitiser, the four builders, the guard on the
  memoised views, and the copy text.

The worker run is a sequence of events, each delivered to the route's callbacks:

- a stdout chunk;
- a stderr chunk;
- a spawn error;
- the close of the process with its exit code;
- a failure to write the payload;
- the 60-second timer.

The first settling event decides the outcome, and every later one is ignored. This
matches the semantics of a JavaScript promise that resolves once. `RunAgent` feeds the
events to an `AgentRun` one by one, and its outcome is proved equal to the pure settlement
function `Settled`.

## Model

| member | source | states |
|---|---|---|
| `Wrappers.Coalesce` | app/page.tsx:391 | `a ?? b` is the present value when there is one, else the default |
| `Wrappers.At` | app/page.tsx:391 | indexing past the end of an array gives `undefined` (None), inside it gives the element |
| `Wrappers.Min` | app/page.tsx:395 | `Math.min` is no larger than either argument and equals one of them |
| `Strings.Trim` | app/api/notes/route.ts:65 | the trimmed text has no whitespace at either end and is never longer than the input |
| `Strings.TrimIsSlice` | agent/agent.py:24 | the trimmed text is the contiguous slice of the input that starts where the leading whitespace ends |
| `Strings.TrimStartDropsWhitespace` | app/api/notes/route.ts:65 | what the front trim drops is all whitespace |
| `Strings.TrimEndDropsWhitespace` | app/api/notes/route.ts:65 | what the back trim drops is all whitespace |
| `Strings.TrimPadded` | agent/agent.py:24 | trimming a trimmed text padded with whitespace on both sides gives the text back |
| `Strings.TrimEmptyIff` | agent/agent.py:24-26 | a text trims to the empty string exactly when it is all whitespace |
| `Strings.NonEmptyOr` | app/api/notes/route.ts:33 | the JavaScript or-fallback on strings keeps the text unless it is empty |
| `Strings.RemoveAll` | agent/agent.py:55-57 | `replace(p, "")` never lengthens the text |
| `Strings.RemoveAllAbsent` | agent/agent.py:55-57 | a text in which the pattern does not occur comes back unchanged |
| `Strings.RemoveAllLeading` | agent/agent.py:55-57 | an occurrence at the front is deleted and the removal goes on with the rest |
| `Strings.RemoveAllKeepsText` | agent/agent.py:55-57 | text free of the pattern's first character is kept verbatim in front of what the rest becomes |
| `Strings.NatToStringRoundTrip` | app/api/notes/route.ts:33 | reading back the decimal rendering of a number gives the number |
| `Strings.NatToStringInjective` | app/page.tsx:390 | different numbers render differently, so the placeholders `Opportunity n` are distinct |
| `Strings.NatToString` | app/page.tsx:390 | `${n}` for a number is a non-empty run of decimal digits without a leading zero |
| `Strings.IntToString` | app/api/notes/route.ts:33 | `${code}` for an integer is non-empty and starts with `-` iff the number is negative |
| `Json.Member` | app/api/notes/route.ts:65-67 | `body?.key` is present iff the body is an object holding the key, and is then the value held |
| `Strings.Join` | app/page.tsx:73 | the empty array joins to ""; any other array to its first piece followed by every later piece, in order, each behind one separator |
| `Strings.JoinAppend` | app/page.tsx:73 | one more piece is appended behind exactly one more separator |
| `Strings.JoinLength` | app/page.tsx:65-73 | the length of a join is the pieces' total length plus one separator per pair of neighbours |
| `Schemas.StringMember` | agent/schemas.py:13 | a string field is read exactly when the document is an object with a string under the key |
| `Schemas.StringListMember` | agent/schemas.py:14-16 | a list field is read exactly when the key holds an array whose every element is a string, and the list read holds those strings in their order |
| `Schemas.ValidateInput` | agent/schemas.py:7-10 | validation succeeds iff content is a string of at least 20 untrimmed characters and both selectors are among the literals; the record holds the three fields |
| `Schemas.ValidateOutput` | agent/schemas.py:12-16 | validation succeeds iff the title is a string and the three lists are string arrays; the record holds exactly those values |
| `Schemas.EmptyListsAreValidOutput` | agent/schemas.py:14-16 | the lists carry no minimum length: three empty lists are valid notes |
| `Schemas.UntrimmedLengthCounts` | agent/schemas.py:8 | twenty spaces meet `min_length=20` |
| `Schemas.SelectorsAreExact` | agent/schemas.py:4 | the literals match exactly: `Final` is not an exam type |
| `Agent.Bulleted` | agent/agent.py:27-28 | an item that already starts with `- ` or `• ` is kept as it is; any other item gets exactly `- ` in front |
| `Agent.BulletedIsBullet` | agent/agent.py:27-28 | a non-empty stripped item becomes a trimmed bullet |
| `Agent.NormalizedItem` | agent/agent.py:23-29 | one item contributes at most one entry, and exactly one iff it is not blank once stripped |
| `Agent.Normalized` | agent/agent.py:21-30 | the normalised list is never longer than the input |
| `Agent.NormalizedItemFacts` | agent/agent.py:23-29 | one item yields at most one entry, exactly one when it is not blank; that entry is the bulleted stripped item; an item that already is a bullet is kept as is |
| `Agent.NormalizedLength` | agent/agent.py:21-30 | normalising never lengthens a list, and keeps its length iff no item is blank |
| `Agent.NormalizedMembership` | agent/agent.py:21-30 | an entry is in the normalised list iff it is the bulleted form of a non-blank item |
| `Agent.NormalizedAreBullets` | agent/agent.py:21-30 | every normalised entry is a non-empty trimmed text starting with `- ` or `• ` |
| `Agent.NormalizedAppend` | agent/agent.py:23-29 | normalisation works item by item: it distributes over concatenation |
| `Agent.NormalizedOfBullets` | agent/agent.py:27 | a list of bullets is left unchanged |
| `Agent.NormalizedIdempotent` | agent/agent.py:21-30 | normalising twice is normalising once |
| `Agent.NormalizeBullets` | agent/agent.py:21-30 | the loop builds exactly the normalised list of its input |
| `Agent.FenceCleaned` | agent/agent.py:54-57 | cleaning never lengthens the reply |
| `Agent.FenceRemovalComplete` | agent/agent.py:55-57 | once every triple backtick is removed, none is left |
| `Agent.TrimKeepsNoFence` | agent/agent.py:55-57 | stripping cannot create a fence |
| `Agent.FenceCleanedHasNoFence` | agent/agent.py:54-57 | a reply opening with a fence is cleaned to a stripped text with no fence left |
| `Agent.FenceCleanedHasNoJsonFence` | agent/agent.py:54-55 | a reply opening with a fence keeps no `json` fence marker |
| `Agent.FenceCleanedJsonPayload` | agent/agent.py:54-55 | a reply that is a `json`-tagged fence, a payload without backticks and a closing fence is cleaned to exactly the stripped payload |
| `Agent.FenceCleanedBarePayload` | agent/agent.py:54-57 | a reply that is a bare fence, a payload without backticks and a closing fence is cleaned to the stripped payload; when the payload opens with `json` the reply counts as tagged and the tag goes too |
| `Agent.NotJsonFenced` | agent/agent.py:54 | a bare fence around a payload that has no backticks and does not open with `json` does not open with a tagged fence |
| `Agent.UnfencedReplyUntouched` | agent/agent.py:54-57 | a reply that does not open with a fence is passed on unchanged, not even stripped |
| `Agent.CleanFences` | agent/agent.py:53-57 | the cleaning branches compute the cleaned reply |
| `Agent.AttemptResult` | agent/agent.py:51-66 | an attempt succeeds iff the model answered and the cleaned reply parses and conforms to the output schema; the title is kept, each list is the normalised list of the document, every item is a bullet; a failed call passes its error through |
| `Agent.RunOnce` | agent/agent.py:51-66 | the steps of the attempt compute the attempt's result |
| `Agent.AttemptsAreBullets` | agent/agent.py:51-66 | when every attempt is the cleaning, reading and normalising of the model's reply, every successful attempt holds only bullets |
| `Agent.Admit` | agent/agent.py:70-87 | a request is admitted iff it parses, conforms to the input schema and keeps 20 characters once stripped; each guard prints its own error text, in order; an admitted request is exactly the validated document |
| `Agent.GenerateNotes` | agent/agent.py:89-106 | at most two attempts; the first success is printed with exit code 0; when both fail the last error is printed with exit code 1; printed notes are bullet-only whenever the attempts' notes are |
| `Agent.AgentMain` | agent/agent.py:69-106 | a rejected request exits 1 with the guard's error and makes no attempt; an admitted one follows the retry loop, and prints bullet-only notes whenever the attempts yield them |
| `NotesRoute.CodeText` | app/api/notes/route.ts:33 | the exit code renders as its decimal text, and as `null` when there is none |
| `NotesRoute.ErrorText` | app/api/notes/route.ts:26-55 | every failure renders as a non-empty message: a spawn error is exactly "Agent process error: " and its message, a write failure exactly "Failed to send payload: " and its message, the timeout exactly "Agent timed out after 60s" (the timer's 60 000 ms in seconds), an unreadable reply starts with its prefix |
| `NotesRoute.TimeoutMessageNamesDelay` | app/api/notes/route.ts:53-56 | the timeout message names the timer's delay of 60 000 ms in seconds |
| `NotesRoute.ConcatIsJoin` | app/api/notes/route.ts:30-31 | `Buffer.concat` joins the chunks in their order with nothing between them |
| `NotesRoute.ExitFailureText` | app/api/notes/route.ts:32-34 | a non-zero exit reports stderr, else stdout, else `Agent exited with code n` |
| `NotesRoute.InvalidJsonText` | app/api/notes/route.ts:39-41 | an unreadable reply reports the prefix and the parser's message, a line break, and then the raw stdout at the end, with nothing in between |
| `NotesRoute.Classify` | app/api/notes/route.ts:29-42 | a closed run is ok iff it exited with 0 and its stdout parses, with the parsed document as data; a non-zero exit is an exit failure, an unparsable stdout an invalid-JSON failure |
| `NotesRoute.CollectedText` | app/api/notes/route.ts:19-23 | concatenating the collected chunks gives the text of the stdout (stderr) events so far |
| `NotesRoute.Fire` | app/api/notes/route.ts:22-56 | an event settles the run iff it is an error, a close, a failed write or the timer |
| `NotesRoute.Settled` | app/api/notes/route.ts:10-57 | the promise of a run holds a value iff some event of the run settles it |
| `NotesRoute.FirstSettlement` | app/api/notes/route.ts:10-57 | the reference reading finds a value iff a settling event follows the starting point |
| `NotesRoute.SettledSplit` | app/api/notes/route.ts:10-57 | the settlement of a run is that of its first events if they settle, else that of the rest with the output collected so far |
| `NotesRoute.SettledIsFirstSettlement` | app/api/notes/route.ts:10-57 | the outcome is decided by the first settling event, with the output gathered before it |
| `NotesRoute.SettledAfterPrefix` | app/api/notes/route.ts:10-57 | the outcome so far depends only on the events so far |
| `NotesRoute.SettlementIsFinal` | app/api/notes/route.ts:10-57 | once settled, later events change nothing: the promise resolves once |
| `NotesRoute.LateTimeoutIgnored` | app/api/notes/route.ts:29-56 | a timer firing after the close does not override the close's result |
| `NotesRoute.SettledIffSettlingEvent` | app/api/notes/route.ts:10-57 | a run has settled iff some settling event has arrived |
| `NotesRoute.AgentRun.constructor` | app/api/notes/route.ts:19-20 | a run starts with empty buffers, unresolved and not killed |
| `NotesRoute.AgentRun.Resolve` | app/api/notes/route.ts:10 | the first resolution sticks; later ones are ignored |
| `NotesRoute.AgentRun.OnStdoutData` | app/api/notes/route.ts:22 | a stdout chunk is appended to `chunks` |
| `NotesRoute.AgentRun.OnStderrData` | app/api/notes/route.ts:23 | a stderr chunk is appended to `errChunks` |
| `NotesRoute.AgentRun.OnError` | app/api/notes/route.ts:25-27 | a spawn error resolves with a process error unless already resolved |
| `NotesRoute.AgentRun.OnClose` | app/api/notes/route.ts:29-42 | a close resolves with the classification of the collected output unless already resolved |
| `NotesRoute.AgentRun.OnWriteFailure` | app/api/notes/route.ts:45-50 | a failed write resolves with a send failure unless already resolved |
| `NotesRoute.AgentRun.OnTimeout` | app/api/notes/route.ts:53-56 | the timer kills the process and resolves with the timeout unless already resolved |
| `NotesRoute.AgentRun.Dispatch` | app/api/notes/route.ts:22-56 | delivering an event updates the buffers, the outcome and the kill flag as that event's callback does |
| `NotesRoute.RunAgent` | app/api/notes/route.ts:9-58 | the outcome is the settlement of the event sequence, and the process is killed iff the timer fired |
| `NotesRoute.ContentText` | app/api/notes/route.ts:65 | `body?.content ?? ''` is the content when it is a string, "" when it is missing or `null`, and any other value makes `trim` throw its type error |
| `NotesRoute.IncludesIsStrictEquality` | app/api/notes/route.ts:73 | `includes` holds iff the value is one of the valid strings itself |
| `NotesRoute.ThrownResponse` | app/api/notes/route.ts:94-96 | an exception is answered with 500 and its message, or `Unexpected error` when the message is empty |
| `NotesRoute.Gate` | app/api/notes/route.ts:65-87 | a forwarded request carries trimmed content of at least 20 characters, a non-empty key, the fixed endpoint and the model name |
| `NotesRoute.RespondTo` | app/api/notes/route.ts:88-93 | status 200 iff the worker succeeded, with its document unchanged; otherwise 500 with the worker's message |
| `NotesRoute.GateReplyStatus` | app/api/notes/route.ts:65-85 | the checks before the worker answer only with 400 or 500 |
| `NotesRoute.GateTooShort` | app/api/notes/route.ts:65-70 | content shorter than 20 characters once trimmed gives 400 with the too-short message |
| `NotesRoute.GateInvalidSelector` | app/api/notes/route.ts:71-75 | with long enough content, an unknown exam type or depth gives 400 |
| `NotesRoute.GateMissingKey` | app/api/notes/route.ts:78-85 | 500 with the missing-key message iff both checks passed and the key is absent or empty |
| `NotesRoute.SelectorListsAgree` | app/api/notes/route.ts:71-72 | the route's selector lists are the schema's literals |
| `NotesRoute.GateForwards` | app/api/notes/route.ts:65-87 | the worker is started iff content, selectors and key all pass |
| `NotesRoute.GatePayload` | app/api/notes/route.ts:78-87 | a forwarded request carries the trimmed content, both selectors, the key, the fixed endpoint and the model name |
| `NotesRoute.ForwardedPayloadValid` | app/api/notes/route.ts:65-87 | under the model's single character count and whitespace set, what the worker receives is trimmed and satisfies the input schema |
| `NotesRoute.Post` | app/api/notes/route.ts:60-97 | every answer has status 200, 400 or 500 |
| `NotesRoute.PostStatuses` | app/api/notes/route.ts:60-97 | every answer is 200, 400 or 500; 200 iff the request was forwarded and the worker succeeded, with the worker's document as body |
| `NotesRoute.PostThrows` | app/api/notes/route.ts:62-65 | a body that is not JSON, or a content that is present but neither a string nor `null`, is answered with 500 |
| `Insights.StripLeadingMarker` | app/page.tsx:385 | text not opening with `-` or `•` is unchanged; otherwise the marker goes together with the whitespace right behind it, and nothing else |
| `Insights.Sanitize` | app/page.tsx:385 | a sanitised item has no whitespace at either end |
| `Insights.SanitizeRemovesAtMostOneMarker` | app/page.tsx:385 | only one leading `-` or `•` is removed, and only in first position; the rest is a trim |
| `Insights.SanitizeEmptyIff` | app/page.tsx:385 | an item sanitises to nothing iff what follows its optional marker is blank |
| `Insights.SanitizeMarkedLabel` | app/page.tsx:385 | a marker, spacing and trailing blanks around a label leave the label |
| `Insights.SanitizeUnmarkedLabel` | app/page.tsx:385 | text without a leading marker is only trimmed, so an indented marker stays |
| `Insights.SanitizeDashExample` | app/page.tsx:385 | "- Foo" gives "Foo" |
| `Insights.SanitizeBulletExample` | app/page.tsx:385 | "• Bar " gives "Bar" |
| `Insights.SanitizePlainExample` | app/page.tsx:385 | "Plain" is unchanged |
| `Insights.SanitizeDoubleMarkerExample` | app/page.tsx:385 | "--Foo" gives "-Foo" |
| `Insights.SanitizeIndentedMarkerExample` | app/page.tsx:385 | "  - Foo" gives "- Foo" |
| `Insights.BuildRecommendations` | app/page.tsx:387-400 | one recommendation per source entry, at most three |
| `Insights.RecommendationCount` | app/page.tsx:388-389 | one recommendation per key concept, at most three, and the important points only when there are no key concepts |
| `Insights.RecommendationLabels` | app/page.tsx:390-396 | the role is the cleaned entry or its `Opportunity n` placeholder plus ` Strategist`; the second skill is the point, else the tip, else the label at that index, sanitised, with `Structured thinking` when it is empty |
| `Insights.RecommendLabels` | app/page.tsx:390-396 | the same labels for the callback applied to one concept at one index |
| `Insights.RecommendationMatch` | app/page.tsx:392-395 | the match is `min(98, 68 + boost + 7i)` |
| `Insights.MatchScoreRange` | app/page.tsx:392-395 | below index 3 the cap of 98 is never reached and the match lies in 72..92 |
| `Insights.RecommendationScores` | app/page.tsx:392-395 | consecutive recommendations differ by exactly 7 points |
| `Insights.RecommendationScope` | app/page.tsx:397 | the future scope is the viva text exactly for a viva |
| `Insights.BuildSkillGaps` | app/page.tsx:402-409 | one gap per important point, at most three |
| `Insights.SkillGapRules` | app/page.tsx:402-409 | one gap per important point, at most three; a focus that is never empty; the Strength / Needs polish / Practice more ladder; an action from the tip at the same index, else the first tip, else the default sentence |
| `Insights.GapFields` | app/page.tsx:403-408 | the same fields for the callback applied to one point at one index |
| `Insights.EmptyActionPossible` | app/page.tsx:406 | a tip that is only a marker gives an empty action |
| `Insights.BuildRoadmap` | app/page.tsx:411-421 | one phase per exam tip, at most three |
| `Insights.RoadmapRules` | app/page.tsx:411-421 | one phase per tip, at most three, titled from the fixed table, with the week ladder and a detail that is never empty |
| `Insights.BuildTrends` | app/page.tsx:423-442 | always three trends, for North America, Europe and Asia-Pacific in that order |
| `Insights.TrendsDependOnlyOnFocus` | app/page.tsx:423-442 | only the North America highlight depends on the exam type, and it differs iff the focus phrase differs |
| `Insights.TrendFocusDistinct` | app/page.tsx:424-428 | the three exam types give three different focus phrases |
| `Insights.Views` | app/page.tsx:104-117 | without notes the three memoised collections are empty; with notes they are the built ones |
| `Insights.CopyText` | app/page.tsx:65-73 | there is a text to copy iff there are notes |
| `Insights.CopyLines` | app/page.tsx:65-73 | the copied lines are the title line, the key-concepts header and its items, the important-points header and its items, the exam-tips header and its items, in that order |
| `Insights.CopyTextShape` | app/page.tsx:65-73 | the copied text is the title line and then the three sections in order, each a line break, its header, and each of its items behind one line break; hence it opens with the title line and has the lines' total length plus one break per pair of neighbours |
| `Insights.ImportantPointsAsSource` | app/page.tsx:388 | without key concepts the important points feed the recommendations |
| `Insights.FinalExamScenario` | app/page.tsx:387-421 | a worked final-exam example: counts, the first match of 78, the first gap status and the first two milestones |

## Left out

- The React page itself is left out: rendering, form state, submit, progress percentage,
  loading flags and the clipboard API. Only the page's pure helpers and the text handed
  to the clipboard are modelled.
- Process spawning, the environment merge, pipes, `SIGKILL` and real time are not
  modelled. A run is a sequence of events in any order. The model therefore also allows
  orders the runtime rules out, such as a write failure after the close, and the timer
  is only an event (its 60 000 ms are the constant `TimeoutMillis`).
- Decoding byte chunks as UTF-8 is left out: chunks are already text, so a character
  split across two chunks is not modelled.
- `JSON.parse`, `req.json()`, `json.loads` and Pydantic's JSON reader are parameters of
  type `Parser`. Every property holds for any parser.
- Serialising is not modelled: the payload `JSON.stringify` writes to the worker
  (`Payload`) and the line `json.dumps` prints (`Printed`) stay datatypes, and their JSON
  text is not produced.
- The exception messages of these parsers, of Pydantic validation and of the
  `TypeError` that `trim` raises on non-strings are fixed texts or parser outputs, not
  the runtimes' exact wording.
- The call to the language model (`OpenRouter`, the prompts, `MODEL_NAME`, the API key
  read by `os.getenv`) is left out. `RunOnce`/`AttemptResult` take the reply or the
  call's error as input. `GenerateNotes` and `AgentMain` take the outcome of each attempt
  as a function `runOnce` of the input and the attempt number, so two attempts may
  differ.
- Logging through `loguru` is left out.
- The exit code is `Option<int>`: a process ended by a signal closes with no code,
  rendered as `null`.
- `NotesRoute.RespondTo` and `NotesRoute.ErrorText`: the worker's failure is kept
  structured as `AgentError` and rendered by `ErrorText`. The route's `result.error ||
  'Agent error'` fallback cannot apply, since every rendered message is non-empty.
- The POST handler takes the worker as a function `agent` of the payload and the
  environment, which stands for the spawn of `runPythonAgent`. `NotesRoute.RunAgent`
  models that function on an event sequence.
- `NotesRoute.ForwardedPayloadValid` holds only under the model's shared character count and
  whitespace set. The program itself forwards payloads the worker then rejects. Content of
  10 characters outside the Basic Multilingual Plane is 20 UTF-16 code units and passes the
  route's check, but it is 10 code points, so `min_length=20` (agent/schemas.py:8) rejects
  it at `model_validate` (agent/agent.py:79). Content of 20 characters that starts with
  `\x85` or `\x1c` keeps its length under JavaScript `trim()` and passes `min_length`,
  which counts the unstripped text; Python's `strip()` removes that character, so the
  worker's extra length guard at agent/agent.py:85 rejects it.
- JSON numbers are integers (`JNumber(n: int)`). Fractions and exponents are not modelled,
  since no modelled operation reads a number.
- Whitespace is a fixed set of characters shared by JavaScript and Python. Lengths count
  characters, not UTF-16 code units.
