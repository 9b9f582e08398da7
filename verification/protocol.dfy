/** The wire shapes exchanged with the completion service: the items of a
    response's `output`, the entries of the transcript that is resubmitted in
    full on every request, the request itself, and `fetchResponsesMessage`,
    which sends a request and maps a non-success status to an error object. */
module Protocol {
  import opened Values
  import opened Catalog

  /** One element of a message item's `content`. Only `output_text` parts
      contribute to the final answer. */
  datatype ContentPart = OutputText(text: string) | OtherPart

  /** A `function_call` item: the call id, the tool name and the raw
      `arguments` string, which may be missing. */
  datatype FunctionCall = FunctionCall(callId: string, name: string, arguments: Option<string>)

  /** One element of a response's `output`: a `message` item (whose `content`
      may be missing), a `function_call` item, or an item of any other type
      (reasoning, for instance), which the agent ignores. */
  datatype OutputItem =
    | MessageItem(content: Option<seq<ContentPart>>)
    | CallItem(call: FunctionCall)
    | OtherItem

  datatype Role = System | User

  /** One entry of the transcript (`body.input`). */
  datatype Entry =
    | Message(role: Role, content: string)
    | FunctionCallEntry(callId: string, name: string, arguments: Option<string>)
    | FunctionCallOutput(callId: string, output: string)

  /** The request body the agent builds: the model, the transcript, and the
      tools. */
  datatype RequestBody = RequestBody(model: string, input: seq<Entry>, tools: seq<ToolDescriptor>)

  /** What is actually sent: the body plus the `parallel_tool_calls` flag that
      `fetchResponsesMessage` adds. */
  datatype Request = Request(body: RequestBody, parallelToolCalls: bool)

  /** A parsed completion response: an `error` property (possibly missing)
      and an `output` property (possibly missing). An `output` that is present
      but not an array, on which the handler's `filter` would throw, is not
      represented. */
  datatype CompletionBody = CompletionBody(error: Option<Json>, output: Option<seq<OutputItem>>)

  /** What the completion endpoint can come back with. `body == None` stands
      for a body that is not a JSON object (it fails to parse, or is `null`). */
  datatype HttpReply =
    | NetworkFailure
    | Http(ok: bool, body: Option<CompletionBody>)

  /** The value the agent holds as `currentResponse`: either a completion
      object, or a thrown exception that nothing in the handler catches. */
  datatype Reply = Thrown | Body(completion: CompletionBody)

  /** The error object `fetchResponsesMessage` substitutes for a non-success
      status. */
  const ServerErrorText := "Something went wrong."

  /** The collaborators that the handler reaches over the network or through
      foreign library calls, as pure functions: the completion endpoint, the
      tool execution endpoint (`None` for any failure: status, network or
      body), and `JSON.parse` / `JSON.stringify`. */
  datatype Oracles = Oracles(
    post: Request -> HttpReply,
    exec: (string, Json) -> Option<Json>,
    parse: string -> Json,
    stringify: Json -> string)

  /** The request that is actually sent for a body. */
  function Outgoing(body: RequestBody): (req: Request)
    ensures req.body == body && !req.parallelToolCalls
  {
    Request(body, false)
  }

  /** The reply `fetchResponsesMessage` hands back for what the endpoint
      answered: a non-success status becomes `{error: 'Something went
      wrong.'}` without the body being read; a network failure, or an
      unreadable body on a success status, is a thrown exception. */
  function Interpret(reply: HttpReply): (r: Reply)
    ensures reply.Http? && !reply.ok ==>
              r == Body(CompletionBody(Some(JString(ServerErrorText)), None))
    ensures reply.Http? && reply.ok && reply.body.Some? ==> r == Body(reply.body.value)
    ensures r.Thrown? <==> reply.NetworkFailure? || (reply.ok && reply.body.None?)
  {
    match reply
    case NetworkFailure => Thrown
    case Http(ok, body) =>
      if !ok then Body(CompletionBody(Some(JString(ServerErrorText)), None))
      else match body
        case None => Thrown
        case Some(b) => Body(b)
  }

  /** `fetchResponsesMessage`: send the body with parallel tool calls switched
      off, and interpret the answer. */
  function FetchResponsesMessage(post: Request -> HttpReply, body: RequestBody): Reply {
    Interpret(post(Outgoing(body)))
  }

  /** A non-success status always ends up as an error the agent sees as
      truthy. */
  lemma ServerErrorIsTruthy(reply: HttpReply)
    requires reply.Http? && !reply.ok
    ensures Interpret(reply).Body? && TruthyField(Interpret(reply).completion.error)
  {
  }

  /** The response's output items, `output ?? []`. */
  function OutputOf(b: CompletionBody): seq<OutputItem> {
    b.output.GetOr([])
  }

  /** The number of `function_call` items. */
  function CountCalls(items: seq<OutputItem>): nat {
    if |items| == 0 then 0
    else (if items[0].CallItem? then 1 else 0) + CountCalls(items[1..])
  }

  /** The number of `message` items. */
  function CountMessages(items: seq<OutputItem>): nat {
    if |items| == 0 then 0
    else (if items[0].MessageItem? then 1 else 0) + CountMessages(items[1..])
  }

  /** The `function_call` items in response order
      (`outputItems.filter(item => item.type === 'function_call')`). */
  function FunctionCalls(items: seq<OutputItem>): (calls: seq<FunctionCall>)
    ensures |calls| == CountCalls(items)
    ensures |calls| == 0 <==> forall i :: 0 <= i < |items| ==> !items[i].CallItem?
  {
    if |items| == 0 then []
    else
      var rest := FunctionCalls(items[1..]);
      assert forall i :: 1 <= i < |items| ==> items[i] == items[1..][i - 1];
      if items[0].CallItem? then [items[0].call] + rest else rest
  }

  /** Every dispatched call is one of the response's `function_call` items. */
  lemma {:induction false} FunctionCallsFromOutput(items: seq<OutputItem>, k: nat)
    requires k < |FunctionCalls(items)|
    ensures CallItem(FunctionCalls(items)[k]) in items
  {
    if items[0].CallItem? && k == 0 {
      assert items[0] == CallItem(items[0].call);
    } else {
      var j := if items[0].CallItem? then k - 1 else k;
      FunctionCallsFromOutput(items[1..], j);
      assert FunctionCalls(items)[k] == FunctionCalls(items[1..])[j];
    }
  }

  /** The concatenation of the `output_text` texts of one message's content
      (`.filter(c => c.type === 'output_text').map(c => c.text).join('')`). */
  function JoinText(parts: seq<ContentPart>): (s: string)
    ensures (forall i :: 0 <= i < |parts| ==> !parts[i].OutputText?) ==> s == ""
  {
    if |parts| == 0 then ""
    else
      (match parts[0] case OutputText(t) => t case OtherPart => "") + JoinText(parts[1..])
  }

  /** The final answer: one string per `message` item, in response order, each
      the joined `output_text` of that message (its missing `content` read as
      empty). The outer sequence is not joined. */
  function FinalText(items: seq<OutputItem>): (texts: seq<string>)
    ensures |texts| == CountMessages(items)
    ensures (forall i :: 0 <= i < |items| ==> !items[i].MessageItem?) ==> texts == []
  {
    if |items| == 0 then []
    else
      assert forall i :: 1 <= i < |items| ==> items[i] == items[1..][i - 1];
      (match items[0]
       case MessageItem(content) => [JoinText(content.GetOr([]))]
       case _ => [])
      + FinalText(items[1..])
  }

  /** Two transcript entries form a call/output pair for the same call id. */
  predicate IsPair(call: Entry, output: Entry) {
    call.FunctionCallEntry? && output.FunctionCallOutput? && call.callId == output.callId
  }

  /** A run of transcript entries made only of adjacent call/output pairs. */
  predicate Paired(s: seq<Entry>)
    decreases |s|
  {
    |s| == 0 || (|s| >= 2 && IsPair(s[0], s[1]) && Paired(s[2..]))
  }

  /** Call/output runs can be put one after the other. */
  lemma {:induction false} PairedConcat(a: seq<Entry>, b: seq<Entry>)
    requires Paired(a) && Paired(b)
    ensures Paired(a + b)
    decreases |a|
  {
    if |a| == 0 {
      assert a + b == b;
    } else {
      PairedConcat(a[2..], b);
      assert (a + b)[2..] == a[2..] + b;
      assert (a + b)[0] == a[0] && (a + b)[1] == a[1];
    }
  }

  /** Filtering the calls of a response splits over any cut of its output. */
  lemma {:induction false} FunctionCallsConcat(a: seq<OutputItem>, b: seq<OutputItem>)
    ensures FunctionCalls(a + b) == FunctionCalls(a) + FunctionCalls(b)
  {
    if |a| > 0 {
      FunctionCallsConcat(a[1..], b);
      assert (a + b)[1..] == a[1..] + b;
    } else {
      assert a + b == b;
    }
  }

  /** The final answer splits over any cut of the response's output. */
  lemma {:induction false} FinalTextConcat(a: seq<OutputItem>, b: seq<OutputItem>)
    ensures FinalText(a + b) == FinalText(a) + FinalText(b)
  {
    if |a| > 0 {
      FinalTextConcat(a[1..], b);
      assert (a + b)[1..] == a[1..] + b;
    } else {
      assert a + b == b;
    }
  }

  /** Joining a message's text splits over any cut of its content. */
  lemma {:induction false} JoinTextConcat(a: seq<ContentPart>, b: seq<ContentPart>)
    ensures JoinText(a + b) == JoinText(a) + JoinText(b)
  {
    if |a| > 0 {
      JoinTextConcat(a[1..], b);
      assert (a + b)[1..] == a[1..] + b;
    } else {
      assert a + b == b;
    }
  }

  /** A single `output_text` part contributes exactly its text, and any other
      part contributes nothing. */
  lemma JoinTextSingle(p: ContentPart)
    ensures JoinText([p]) == (if p.OutputText? then p.text else "")
  {
  }

  /** Every `message` item of a response yields one string of the answer, at
      the position given by the number of message items before it, and that
      string is its joined `output_text`. */
  lemma FinalTextAt(items: seq<OutputItem>, i: nat)
    requires i < |items| && items[i].MessageItem?
    ensures CountMessages(items[..i]) < |FinalText(items)|
    ensures FinalText(items)[CountMessages(items[..i])] == JoinText(items[i].content.GetOr([]))
  {
    var before, rest := items[..i], items[i + 1..];
    assert items == before + [items[i]] + rest;
    FinalTextConcat(before + [items[i]], rest);
    FinalTextConcat(before, [items[i]]);
  }

  /** Every `function_call` item of a response is dispatched at the position
      given by the number of call items before it. */
  lemma FunctionCallsAt(items: seq<OutputItem>, i: nat)
    requires i < |items| && items[i].CallItem?
    ensures CountCalls(items[..i]) < |FunctionCalls(items)|
    ensures FunctionCalls(items)[CountCalls(items[..i])] == items[i].call
  {
    var before, rest := items[..i], items[i + 1..];
    assert items == before + [items[i]] + rest;
    FunctionCallsConcat(before + [items[i]], rest);
    FunctionCallsConcat(before, [items[i]]);
  }
}
