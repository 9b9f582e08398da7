/** The `execute` handler of the `callFastnAPI` tool: fetch the catalog once,
    build a transcript of a system and a user message, then repeatedly ask the
    completion service what to do, either finishing with the text of its
    messages or executing the function calls it asks for and resubmitting. */
module Agent {
  import opened Values
  import opened Catalog
  import opened Protocol
  import opened Dispatch

  /** The model every request names. */
  const ModelName := "gpt-5-mini"

  /** The text put before the user's query in the user message. */
  const RequestPrefix := "User's request: "

  /** How an operation ends. `OutOfFuel` is an artefact of this model: the
      handler's loop has no bound, and the model stops after a given number
      of resubmissions. `Uncaught` is an exception nothing in the handler
      catches. */
  datatype Outcome =
    | Answer(texts: seq<string>)
    | Failure(error: AgentError)
    | Uncaught
    | OutOfFuel

  /** A whole operation: how it ended, every interaction with the external
      services in order, and the transcript (`body.input`) as it stood at the
      end. */
  datatype Run = Run(outcome: Outcome, events: seq<Event>, transcript: seq<Entry>)

  /** The object the handler resolves with. */
  datatype HandlerResult = ResultObject(result: seq<string>) | ErrorObject(error: string)

  /** What the caller receives for an outcome: nothing when the handler
      rejects (or the model ran out of fuel). */
  function Returned(outcome: Outcome): (r: Option<HandlerResult>)
    ensures r.None? <==> outcome.Uncaught? || outcome.OutOfFuel?
    ensures outcome.Answer? ==> r == Some(ResultObject(outcome.texts))
    ensures outcome.Failure? ==> r == Some(ErrorObject(ErrorText(outcome.error)))
  {
    match outcome
    case Answer(texts) => Some(ResultObject(texts))
    case Failure(e) => Some(ErrorObject(ErrorText(e)))
    case Uncaught => None
    case OutOfFuel => None
  }

  /** What one completion reply tells the loop to do. */
  datatype Decision =
    | Rejected
    | Abort
    | Finish(texts: seq<string>)
    | CallTools(calls: seq<FunctionCall>)

  /** The head of the loop body: a truthy `error` aborts, no `function_call`
      item finishes with the messages' text, otherwise the calls are
      dispatched. A thrown exception escapes. */
  function Decide(current: Reply): (s: Decision)
    ensures s.Rejected? <==> current.Thrown?
    ensures s.Abort? <==> current.Body? && TruthyField(current.completion.error)
    ensures s.Finish? <==>
              && current.Body?
              && !TruthyField(current.completion.error)
              && forall i :: 0 <= i < |OutputOf(current.completion)| ==> !OutputOf(current.completion)[i].CallItem?
    ensures s.Finish? ==> s.texts == FinalText(OutputOf(current.completion))
    ensures s.CallTools? ==> |s.calls| > 0 && s.calls == FunctionCalls(OutputOf(current.completion))
  {
    match current
    case Thrown => Rejected
    case Body(b) =>
      if TruthyField(b.error) then Abort
      else
        var items := OutputOf(b);
        var calls := FunctionCalls(items);
        if |calls| == 0 then Finish(FinalText(items)) else CallTools(calls)
  }

  /** A reply without error whose `output` is missing or empty finishes with
      an empty answer rather than an error. */
  lemma EmptyOutputAnswersEmpty(b: CompletionBody)
    requires !TruthyField(b.error) && (b.output.None? || b.output == Some([]))
    ensures Decide(Body(b)) == Finish([])
  {
  }

  /** The transcript the loop starts from: the system message, then the user
      message carrying the query. */
  function InitialTranscript(systemPrompt: string, query: string): seq<Entry> {
    [Message(System, systemPrompt), Message(User, RequestPrefix + query)]
  }

  /** The request body for a transcript. */
  function BodyFor(transcript: seq<Entry>, tools: seq<ToolDescriptor>): RequestBody {
    RequestBody(ModelName, transcript, tools)
  }

  /** Send the current transcript and record the exchange. */
  function Submit(o: Oracles, tools: seq<ToolDescriptor>, transcript: seq<Entry>): (e: Event)
    ensures e.Completion? && e.request.body.input == transcript && !e.request.parallelToolCalls
    ensures e.reply == FetchResponsesMessage(o.post, e.request.body)
  {
    var body := BodyFor(transcript, tools);
    Completion(Outgoing(body), FetchResponsesMessage(o.post, body))
  }

  /** Where the loop stands: a reply in hand to inspect, a batch executed
      and appended and waiting to be resubmitted, or the end. */
  datatype Phase = Awaiting(current: Reply) | Dispatched | Ended(outcome: Outcome)

  /** The loop's state: its phase, the transcript (`body.input`) and the
      trace of interactions so far. */
  datatype State = State(phase: Phase, transcript: seq<Entry>, events: seq<Event>)

  /** One move of the loop. Inspecting a reply either ends the run or
      dispatches its calls (ending the run if one fails); a dispatched batch
      is followed by resubmitting the whole transcript. The transcript and the
      trace only grow. */
  function Step(o: Oracles, tools: seq<ToolDescriptor>, s: State): (r: State)
    requires !s.phase.Ended?
    ensures s.transcript <= r.transcript && s.events <= r.events
    ensures s.phase.Awaiting? ==> !r.phase.Awaiting?
    ensures s.phase.Dispatched? ==>
              && r.phase.Awaiting?
              && r.transcript == s.transcript
              && r.events == s.events + [Submit(o, tools, s.transcript)]
              && r.phase.current == Submit(o, tools, s.transcript).reply
    ensures r.phase.Ended? ==> r.phase.outcome != Failure(FetchToolsFailed) && !r.phase.outcome.OutOfFuel?
  {
    match s.phase
    case Awaiting(current) =>
      (match Decide(current)
       case Rejected => s.(phase := Ended(Uncaught))
       case Abort => s.(phase := Ended(Failure(CompletionFailed)))
       case Finish(texts) => s.(phase := Ended(Answer(texts)))
       case CallTools(calls) =>
         var b := DispatchBatch(o, tools, calls);
         State(if b.failure.Some? then Ended(Failure(b.failure.value)) else Dispatched,
               s.transcript + b.appended, s.events + b.attempts))
    case Dispatched =>
      var e := Submit(o, tools, s.transcript);
      State(Awaiting(e.reply), s.transcript, s.events + [e])
  }

  /** The `while (true)` loop, allowed `fuel` more resubmissions. A run
      that would need one more is cut off with `OutOfFuel` right after its
      last batch. */
  function Loop(o: Oracles, tools: seq<ToolDescriptor>, s: State, fuel: nat): (r: State)
    ensures r.phase.Ended?
    ensures s.phase.Ended? ==> r == s
    ensures s.transcript <= r.transcript && s.events <= r.events
    ensures !s.phase.Ended? ==> r.phase.outcome != Failure(FetchToolsFailed)
    decreases fuel, if s.phase.Awaiting? then 1 else 0
  {
    if s.phase.Ended? then s
    else if s.phase.Dispatched? && fuel == 0 then s.(phase := Ended(OutOfFuel))
    else Loop(o, tools, Step(o, tools, s), if s.phase.Dispatched? then fuel - 1 else fuel)
  }

  /** The state right after the first completion request. */
  function Start(o: Oracles, tools: seq<ToolDescriptor>, systemPrompt: string, query: string): State {
    var t := InitialTranscript(systemPrompt, query);
    var e := Submit(o, tools, t);
    State(Awaiting(e.reply), t, [e])
  }

  /** The whole handler. `catalog` is what the catalog fetch came back with,
      `systemPrompt` the rendered instructions (which embed the catalog and
      the current time), and `fuel` the number of resubmissions the model
      allows. A failed catalog fetch ends the operation before any other
      service is called. */
  function CallFastnApi(query: string, systemPrompt: string, catalog: CatalogReply, o: Oracles, fuel: nat): (r: Run)
    ensures r.outcome == Failure(FetchToolsFailed) <==> GetFastnTools(catalog).None?
    ensures GetFastnTools(catalog).None? ==> r.events == [] && r.transcript == []
    ensures GetFastnTools(catalog).Some? ==>
              && |r.events| > 0
              && r.events[0] == Submit(o, GetFastnTools(catalog).value, InitialTranscript(systemPrompt, query))
              && InitialTranscript(systemPrompt, query) <= r.transcript
  {
    match GetFastnTools(catalog)
    case None => Run(Failure(FetchToolsFailed), [], [])
    case Some(tools) =>
      var s := Loop(o, tools, Start(o, tools, systemPrompt, query), fuel);
      Run(s.phase.outcome, s.events, s.transcript)
  }
}
