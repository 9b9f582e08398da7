/** The dispatch of the function calls of one response: each call is resolved
    by name against the catalog fetched at the start, executed, and recorded
    in the transcript as a call entry followed by an output entry; the first
    call that cannot be resolved or executed aborts the whole operation. */
module Dispatch {
  import opened Values
  import opened Catalog
  import opened Protocol

  /** The ways the operation fails. */
  datatype AgentError =
    | FetchToolsFailed
    | CompletionFailed
    | ToolNotFound(name: string)
    | ToolExecutionFailed(name: string)

  const ToolsFailureText := "Failed to fetch available tools from Fastn.ai."
  const CompletionFailureText := "Something went wrong with OpenAI response."

  /** The `error` string handed back to the caller for each kind of failure. */
  function ErrorText(e: AgentError): string {
    match e
    case FetchToolsFailed => ToolsFailureText
    case CompletionFailed => CompletionFailureText
    case ToolNotFound(name) => "Tool " + name + " not found or missing action ID."
    case ToolExecutionFailed(name) => "Failed to execute tool " + name + "."
  }

  /** A helper for `ErrorTextInjective`: the four messages differ in their
      fixed wording, and the characters at positions 2 and 10 (inside that
      fixed wording, before any tool name) are enough to tell them apart. */
  lemma ErrorTextKind(e: AgentError)
    ensures |ErrorText(e)| > 10
    ensures ErrorText(e)[2] == (if e.ToolNotFound? then 'o' else if e.CompletionFailed? then 'm' else 'i')
    ensures !e.ToolNotFound? ==>
              ErrorText(e)[10] == (if e.FetchToolsFailed? then 'f' else if e.CompletionFailed? then 'w' else 'e')
  {
  }

  /** The caller can tell every failure apart from its message, down to the
      tool name it mentions. */
  lemma {:induction false} ErrorTextInjective(e1: AgentError, e2: AgentError)
    requires ErrorText(e1) == ErrorText(e2)
    ensures e1 == e2
  {
    var m := ErrorText(e1);
    ErrorTextKind(e1);
    ErrorTextKind(e2);
    assert m[2] == ErrorText(e2)[2] && m[10] == ErrorText(e2)[10];
    match e1 {
      case ToolNotFound(a) =>
        var b := e2.name;
        assert |a| == |b|;
        assert a == m[5..5 + |a|];
        assert b == ErrorText(e2)[5..5 + |b|];
      case ToolExecutionFailed(a) =>
        var b := e2.name;
        assert |a| == |b|;
        assert a == m[23..23 + |a|];
        assert b == ErrorText(e2)[23..23 + |b|];
      case _ =>
    }
  }

  /** The text handed to `JSON.parse` for a call's arguments
      (`toolCall.arguments || '{}'`): a missing or empty arguments string
      reads as an empty object. */
  function ArgumentsText(arguments: Option<string>): (text: string)
    ensures text != ""
    ensures TruthyString(arguments) ==> text == arguments.value
    ensures !TruthyString(arguments) ==> text == "{}"
  {
    if TruthyString(arguments) then arguments.value else "{}"
  }

  /** One interaction with an external service, as it happened: a completion
      request with the reply it got, or a tool execution with its parsed
      parameters and result (`None` when it failed). */
  datatype Event =
    | Completion(request: Request, reply: Reply)
    | Execution(actionId: string, args: Json, result: Option<Json>)

  /** What happens to one function call. */
  datatype CallOutcome =
    | Unresolved
    | ExecutionFailed(actionId: string, args: Json)
    | Executed(actionId: string, args: Json, result: Json)

  /** Resolve one call against the catalog and, when it resolves, execute it
      with its parsed arguments. */
  function DispatchOne(o: Oracles, tools: seq<ToolDescriptor>, call: FunctionCall): (c: CallOutcome)
    ensures c.Unresolved? <==> ResolveAction(tools, call.name).None?
    ensures !c.Unresolved? ==>
              && c.actionId == ResolveAction(tools, call.name).value
              && c.args == o.parse(ArgumentsText(call.arguments))
    ensures c.Executed? <==> !c.Unresolved? && o.exec(c.actionId, c.args).Some?
    ensures c.Executed? ==> Some(c.result) == o.exec(c.actionId, c.args)
  {
    var args := o.parse(ArgumentsText(call.arguments));
    match ResolveAction(tools, call.name)
    case None => Unresolved
    case Some(actionId) =>
      match o.exec(actionId, args)
      case None => ExecutionFailed(actionId, args)
      case Some(result) => Executed(actionId, args, result)
  }

  /** The execution a call outcome performed, if any. */
  function Attempts(c: CallOutcome): seq<Event> {
    match c
    case Unresolved => []
    case ExecutionFailed(actionId, args) => [Execution(actionId, args, None)]
    case Executed(actionId, args, result) => [Execution(actionId, args, Some(result))]
  }

  /** The failure a call outcome aborts with, if any. */
  function FailureOf(call: FunctionCall, c: CallOutcome): Option<AgentError> {
    match c
    case Unresolved => Some(ToolNotFound(call.name))
    case ExecutionFailed(_, _) => Some(ToolExecutionFailed(call.name))
    case Executed(_, _, _) => None
  }

  /** The two transcript entries recorded for an executed call: the call as
      the model sent it, arguments untouched, then its serialised result under
      the same call id. */
  function Transcribe(call: FunctionCall, output: string): seq<Entry> {
    [FunctionCallEntry(call.callId, call.name, call.arguments), FunctionCallOutput(call.callId, output)]
  }

  /** The `k`-th pair of a run of transcript entries. */
  function PairAt(s: seq<Entry>, k: nat): seq<Entry>
    requires 2 * k + 2 <= |s|
  {
    s[2 * k .. 2 * k + 2]
  }

  /** Pairs are counted from the front: putting one pair in front shifts them. */
  lemma PairAtShift(pair: seq<Entry>, s: seq<Entry>, k: nat)
    requires |pair| == 2 && 0 < k && 2 * k + 2 <= |pair + s|
    ensures PairAt(pair + s, k) == PairAt(s, k - 1)
  {
    var a, b := PairAt(pair + s, k), PairAt(s, k - 1);
    assert |a| == 2 == |b|;
    assert a[0] == (pair + s)[2 * k] == s[2 * k - 2] == b[0];
    assert a[1] == (pair + s)[2 * k + 1] == s[2 * k - 1] == b[1];
  }

  /** The number of executions in a trace that succeeded. */
  function Succeeded(events: seq<Event>): (n: nat)
    ensures n <= |events|
  {
    if |events| == 0 then 0
    else (if events[0].Execution? && events[0].result.Some? then 1 else 0) + Succeeded(events[1..])
  }

  /** The outcome of a batch: the failure it aborted with (if any), the
      transcript entries it appended, and the executions it performed. */
  datatype Batch = Batch(failure: Option<AgentError>, appended: seq<Entry>, attempts: seq<Event>)

  /** The `for (const toolCall of functionCalls)` loop: calls are handled in
      order until one cannot be resolved or executed. Every executed call
      appends one call/output pair, and the batch completes exactly when
      every call was executed. */
  function DispatchBatch(o: Oracles, tools: seq<ToolDescriptor>, calls: seq<FunctionCall>): (b: Batch)
    ensures Succeeded(b.attempts) <= |calls|
    ensures |b.appended| == 2 * Succeeded(b.attempts)
    ensures Paired(b.appended)
    ensures b.failure.None? <==> Succeeded(b.attempts) == |calls|
    ensures b.failure.None? ==> |b.attempts| == |calls|
    ensures b.failure.Some? ==> b.failure.value.ToolNotFound? || b.failure.value.ToolExecutionFailed?
  {
    if |calls| == 0 then Batch(None, [], [])
    else
      var c := DispatchOne(o, tools, calls[0]);
      match c
      case Unresolved => Batch(FailureOf(calls[0], c), [], [])
      case ExecutionFailed(_, _) => Batch(FailureOf(calls[0], c), [], Attempts(c))
      case Executed(_, _, result) =>
        var rest := DispatchBatch(o, tools, calls[1..]);
        var b := Batch(rest.failure, Transcribe(calls[0], o.stringify(result)) + rest.appended, Attempts(c) + rest.attempts);
        assert b.attempts[1..] == rest.attempts;
        assert b.appended[2..] == rest.appended;
        b
  }

  /** Unfolding a batch whose first call was executed. */
  lemma BatchStep(o: Oracles, tools: seq<ToolDescriptor>, calls: seq<FunctionCall>)
    requires |calls| > 0 && DispatchOne(o, tools, calls[0]).Executed?
    ensures var b := DispatchBatch(o, tools, calls);
            var c := DispatchOne(o, tools, calls[0]);
            var rest := DispatchBatch(o, tools, calls[1..]);
            && b.failure == rest.failure
            && b.attempts == Attempts(c) + rest.attempts
            && b.appended == Transcribe(calls[0], o.stringify(c.result)) + rest.appended
            && Succeeded(b.attempts) == 1 + Succeeded(rest.attempts)
  {
    var b := DispatchBatch(o, tools, calls);
    var c := DispatchOne(o, tools, calls[0]);
    assert b.attempts[1..] == DispatchBatch(o, tools, calls[1..]).attempts;
  }

  /** The batch call by call: each of the first `d` calls (`d` the number of
      successful executions) was executed in order and appended its pair,
      arguments as the model sent them and output the serialised result. */
  lemma {:induction false} DispatchBatchInOrder(o: Oracles, tools: seq<ToolDescriptor>, calls: seq<FunctionCall>, k: nat)
    requires k < Succeeded(DispatchBatch(o, tools, calls).attempts)
    ensures var b := DispatchBatch(o, tools, calls);
            var c := DispatchOne(o, tools, calls[k]);
            && c.Executed?
            && b.attempts[k] == Execution(c.actionId, c.args, Some(c.result))
            && PairAt(b.appended, k) == Transcribe(calls[k], o.stringify(c.result))
  {
    var b := DispatchBatch(o, tools, calls);
    if !DispatchOne(o, tools, calls[0]).Executed? {
      assert false;
    } else if k > 0 {
      var rest := DispatchBatch(o, tools, calls[1..]);
      BatchStep(o, tools, calls);
      DispatchBatchInOrder(o, tools, calls[1..], k - 1);
      assert calls[k] == calls[1..][k - 1];
      assert b.attempts[k] == rest.attempts[k - 1];
      PairAtShift(Transcribe(calls[0], o.stringify(DispatchOne(o, tools, calls[0]).result)), rest.appended, k);
    } else {
      BatchStep(o, tools, calls);
    }
  }

  /** The abort property of a batch, as a predicate for the induction. */
  ghost predicate StopsAtFailure(o: Oracles, tools: seq<ToolDescriptor>, calls: seq<FunctionCall>) {
    var b := DispatchBatch(o, tools, calls);
    b.failure.Some? ==>
      var d := Succeeded(b.attempts);
      && d < |calls|
      && b.failure == FailureOf(calls[d], DispatchOne(o, tools, calls[d]))
      && b.attempts == b.attempts[..d] + Attempts(DispatchOne(o, tools, calls[d]))
  }

  /** Putting an executed call in front of a batch keeps where it stops. */
  lemma StopsAtFailureStep(o: Oracles, tools: seq<ToolDescriptor>, calls: seq<FunctionCall>)
    requires |calls| > 0 && DispatchOne(o, tools, calls[0]).Executed?
    requires StopsAtFailure(o, tools, calls[1..])
    ensures StopsAtFailure(o, tools, calls)
  {
    var b := DispatchBatch(o, tools, calls);
    var rest := DispatchBatch(o, tools, calls[1..]);
    BatchStep(o, tools, calls);
    if b.failure.Some? {
      var n := Succeeded(rest.attempts);
      assert calls[n + 1] == calls[1..][n];
      ConsKeepsSplit(Attempts(DispatchOne(o, tools, calls[0])), rest.attempts, n,
                     Attempts(DispatchOne(o, tools, calls[n + 1])));
    }
  }

  /** A split of a trace into a prefix and a tail survives putting one event
      in front. */
  lemma ConsKeepsSplit(head: seq<Event>, r: seq<Event>, n: nat, tail: seq<Event>)
    requires |head| == 1 && n <= |r| && r == r[..n] + tail
    ensures head + r == (head + r)[..n + 1] + tail
  {
    assert (head + r)[..n + 1] == head + r[..n];
  }

  /** An aborted batch stops at call `d` (`d` the number of successful
      executions): the failure is the one that call determines, nothing was
      appended for it, and it was executed only if it resolved. */
  lemma {:induction false} DispatchBatchAbort(o: Oracles, tools: seq<ToolDescriptor>, calls: seq<FunctionCall>)
    ensures var b := DispatchBatch(o, tools, calls);
            b.failure.Some? ==>
              var d := Succeeded(b.attempts);
              && d < |calls|
              && b.failure == FailureOf(calls[d], DispatchOne(o, tools, calls[d]))
              && b.attempts == b.attempts[..d] + Attempts(DispatchOne(o, tools, calls[d]))
  {
    if |calls| > 0 && DispatchOne(o, tools, calls[0]).Executed? {
      DispatchBatchAbort(o, tools, calls[1..]);
      StopsAtFailureStep(o, tools, calls);
    }
    assert StopsAtFailure(o, tools, calls);
  }
}
