# Fastn agent tool-calling loop

A Dafny model of the `execute` handler of the `callFastnAPI` tool in the
Fastn voice agent. The handler:

1. fetches the vendor tool catalog once and normalises it into tool
   descriptors;
2. builds a transcript of a system message and a user message;
3. asks the completion service what to do, and repeats until the service
   stops asking for tools:
   - a response with an error aborts the run;
   - a response with no `function_call` item finishes the run with the text
     of its `message` items, one string per message;
   - otherwise every call is resolved by name against the catalog and
     executed. A call/output pair is appended to the transcript for each,
     and the whole transcript is resubmitted.

   A call whose tool is unknown or fails to execute aborts the run with an
   error object.

The three network services (catalog fetch, completion endpoint, tool
execution endpoint) and `JSON.parse` / `JSON.stringify` are parameters:

- the catalog reply is a value;
- the others are function-typed fields of `Protocol.Oracles`.

The model is a pure function of them. Its trace records every interaction,
in order:

- each completion request, with the reply it got;
- each tool execution, with its parsed arguments and result.

Modules:

- `Values`: JSON values, `Option`, JavaScript truthiness.
- `Catalog`: catalog normalisation and name lookup.
- `Protocol`: output items, transcript entries, requests and
  `fetchResponsesMessage`.
- `Dispatch`: error kinds and their messages, the dispatch of one call and of
  a batch.
- `Agent`: the decision on a reply, the loop as a state machine and the
  handler.
- `Properties`: invariants of whole runs.

The handler's loop is `while (true)`. The model gives it a `fuel` bound on
the number of resubmissions. The outcome `OutOfFuel` exists only in the
model: the handler has nothing like it. `Properties.MoreFuelChangesNothing`
shows that a run that ends any other way is the same under every larger
bound.

`fetchResponsesMessage` does not catch a rejected `fetch` or an unreadable
body on a success status (`src/app/agentConfigs/fastnAgent.ts`, lines 59-72),
and neither does the loop. The handler therefore rejects rather than
resolving with an error object. The model calls this outcome `Uncaught`.

## Model

| member | source | states |
|---|---|---|
| Catalog.Normalise | src/app/agentConfigs/fastnAgent.ts:24-30 | one descriptor per vendor entry, same order; type is "function"; name, description, parameters and actionId copied verbatim |
| Catalog.NormaliseIsLossless | src/app/agentConfigs/fastnAgent.ts:24-30 | the vendor catalog can be read back from the descriptors, so nothing is lost or invented |
| Catalog.GetFastnTools | src/app/agentConfigs/fastnAgent.ts:18-30 | the fetch yields tools exactly when the reply is a success with a readable catalog, and then they are the normalised catalog |
| Catalog.FindTool | src/app/agentConfigs/fastnAgent.ts:195 | `find` by name: the index of the first descriptor with the name, none exactly when no descriptor has it |
| Catalog.ResolveActionCharacterised | src/app/agentConfigs/fastnAgent.ts:195-199 | a name resolves exactly when its first descriptor has a non-empty actionId, which is the one used; later duplicates are never consulted |
| Catalog.UnknownNameUnresolved | src/app/agentConfigs/fastnAgent.ts:195-198 | a name no descriptor carries never resolves |
| Protocol.Outgoing | src/app/agentConfigs/fastnAgent.ts:64 | every request carries the body unchanged with parallel tool calls switched off |
| Protocol.Interpret | src/app/agentConfigs/fastnAgent.ts:58-74 | a non-success status becomes the error object 'Something went wrong.'; a success status passes the body through; only a transport failure or an unreadable success body throws |
| Protocol.ServerErrorIsTruthy | src/app/agentConfigs/fastnAgent.ts:67-70 | the substituted error object always has a truthy `error`, so the loop aborts on it |
| Protocol.FunctionCalls | src/app/agentConfigs/fastnAgent.ts:169-171 | one call per `function_call` item; none exactly when the output has no such item |
| Protocol.FunctionCallsFromOutput | src/app/agentConfigs/fastnAgent.ts:171 | every dispatched call is one of the response's `function_call` items |
| Protocol.FunctionCallsAt | src/app/agentConfigs/fastnAgent.ts:171 | the i-th `function_call` item is dispatched at the position given by the number of call items before it, so batch order is response order |
| Protocol.JoinText | src/app/agentConfigs/fastnAgent.ts:179-183 | a message without `output_text` parts contributes the empty string |
| Protocol.JoinTextConcat | src/app/agentConfigs/fastnAgent.ts:180-183 | the joined text of a content list is the joined text of any prefix followed by that of the rest, so parts contribute in order |
| Protocol.JoinTextSingle | src/app/agentConfigs/fastnAgent.ts:181-182 | an `output_text` part contributes exactly its text and any other part nothing |
| Protocol.FinalText | src/app/agentConfigs/fastnAgent.ts:175-184 | one string per `message` item, none when there are no message items |
| Protocol.FinalTextAt | src/app/agentConfigs/fastnAgent.ts:175-184 | each message item's string sits at its position among the message items and is the concatenation of its `output_text` texts, a missing content reading as empty |
| Dispatch.ErrorTextInjective | src/app/agentConfigs/fastnAgent.ts:196-213 | distinct failures, including the tool name they mention, always give distinct error messages |
| Dispatch.ArgumentsText | src/app/agentConfigs/fastnAgent.ts:192 | a missing or empty arguments string is parsed as "{}"; a non-empty one is parsed as it is |
| Dispatch.DispatchOne | src/app/agentConfigs/fastnAgent.ts:190-214 | a call is executed exactly when its name resolves, with the resolved actionId and the parsed arguments; it succeeds exactly when the execution endpoint answers |
| Dispatch.DispatchBatch | src/app/agentConfigs/fastnAgent.ts:190-230 | a batch appends two paired entries per successful execution; it completes exactly when every call was executed, and can only fail with an unknown tool or an execution failure |
| Dispatch.DispatchBatchInOrder | src/app/agentConfigs/fastnAgent.ts:216-229 | the k-th execution is the k-th call's; its pair is the call entry with the original call id, name and raw arguments, then the output entry with the same call id and the serialised result |
| Dispatch.DispatchBatchAbort | src/app/agentConfigs/fastnAgent.ts:196-214 | an aborted batch stops at the first call that fails, with that call's error; an unresolved call is never executed, and nothing is appended for the failing call |
| Agent.Returned | src/app/agentConfigs/fastnAgent.ts:164-213 | the handler resolves with the answer texts or the error message of the failure, and with nothing when it rejects |
| Agent.Decide | src/app/agentConfigs/fastnAgent.ts:165-187 | a truthy error aborts; with no error, the run finishes exactly when there is no `function_call` item, and the answer is the messages' text; otherwise the calls are dispatched |
| Agent.EmptyOutputAnswersEmpty | src/app/agentConfigs/fastnAgent.ts:169-186 | a missing or empty output finishes with an empty answer, not an error |
| Agent.Submit | src/app/agentConfigs/fastnAgent.ts:162 | a request sends the current transcript with parallel tool calls off and records the reply the endpoint gave |
| Agent.Step | src/app/agentConfigs/fastnAgent.ts:164-233 | a move only appends to transcript and trace; a reply is never inspected twice; a resubmission sends the unchanged transcript and takes its reply |
| Agent.Loop | src/app/agentConfigs/fastnAgent.ts:164-234 | the fuel-bounded loop always ends (the handler's own loop need not), only appends to transcript and trace, and never ends with the catalog failure |
| Agent.CallFastnApi | src/app/agentConfigs/fastnAgent.ts:101-110 | the catalog failure is the outcome exactly when the catalog fetch fails, and then no service is called; otherwise the first request sends the initial transcript |
| Properties.TranscriptInvariant | src/app/agentConfigs/fastnAgent.ts:113-229 | the system and user messages never change; after them come call/output pairs matched by call id, one per successful execution (length 2 + 2k); every request names the model, carries the catalog, has parallel calls off and sends a prefix of the transcript |
| Properties.LoopKeepsConsistent | src/app/agentConfigs/fastnAgent.ts:216-233 | every turn of the loop keeps the transcript invariant |
| Properties.LoopKeepsEarlier | src/app/agentConfigs/fastnAgent.ts:164-233 | every turn keeps the fact that each reply before the last event asked for tool calls |
| Properties.LoopKeepsTraced | src/app/agentConfigs/fastnAgent.ts:164-187 | every turn keeps the link between the loop's phase and the last event of the trace |
| Properties.AnswerExactlyWhenNoCalls | src/app/agentConfigs/fastnAgent.ts:165-187 | a run ends at the first reply that has no function call, carries an error or throws: every earlier reply had no error and at least one call; it answers exactly when its last event is a reply without error and without calls, with that reply's message text; it fails with the completion error exactly when its last event is a reply with an error; it rejects exactly when its last request threw |
| Properties.FuelBound | src/app/agentConfigs/fastnAgent.ts:162-233 | a run makes at most fuel + 1 completion requests, exactly that many when cut off |
| Properties.MoreFuelChangesNothing | src/app/agentConfigs/fastnAgent.ts:164 | a run that is not cut off is identical under every larger fuel bound |
| Properties.CatalogFailureAborts | src/app/agentConfigs/fastnAgent.ts:102-110 | a failed catalog fetch resolves with exactly 'Failed to fetch available tools from Fastn.ai.' and calls no other service |
| Properties.NoCallsAnswersAtOnce | src/app/agentConfigs/fastnAgent.ts:162-186 | a first reply without calls ends the run after one request, with no execution and the first reply's message text |
| Properties.FirstErrorAborts | src/app/agentConfigs/fastnAgent.ts:162-167 | an error in the first reply resolves with exactly 'Something went wrong with OpenAI response.' after that one request |

## Left out

- HTTP requests, headers, credentials and URLs are not modelled. The three
  endpoints are oracles, and tool execution collapses status, transport and
  body failures into one failure.
- `JSON.parse` and `JSON.stringify` are abstract functions. The exception a
  malformed `arguments` string raises in `JSON.parse` is not modelled.
- The system prompt text and the current time it embeds are not modelled. The
  rendered prompt is the `systemPrompt` parameter.
- Transcript breadcrumbs, `console` logging and the unused conversation history
  are not modelled. The breadcrumb callback is assumed not to throw. If it threw
  after a successful execution, the handler would report
  `Failed to execute tool <name>.` for that call.
- Catalog entries that map without throwing but do not fit the model are not
  represented: an entry without a description or parameters, or with a
  non-string action id.
- A response whose `output` is present but not an array, or a message whose
  `content` is present but not an array, is not represented. The handler's
  `filter` would throw on it.
- The documentation agent, the Next.js tool and execute routes, the agent
  configuration map, the `RealtimeAgent` / `tool` wrappers and the agent
  persona definitions are not part of this model.
- A success reply whose body is a JSON primitive other than `null` is folded
  into the unreadable-body case. The handler would instead answer with an
  empty result.
- Output items whose `text` or `name` is not a string, and JSON numbers that
  are not integers, are not modelled.
- The handler's loop has no bound. The model cuts a run off with `OutOfFuel`
  after `fuel` resubmissions, and that outcome exists only in the model.
- Properties.AnswerExactlyWhenNoCalls: characterises the answer, completion
  error and rejection outcomes by the last event. For the tool failures it
  only follows from `Dispatch.DispatchBatchAbort`, stated per batch and not
  per run.
