/** Properties of whole runs of the handler: the shape the transcript keeps,
    the requests that are sent, what ends a run, the abort paths, and how the
    fuel bound enters. */
module Properties {
  import opened Values
  import opened Catalog
  import opened Protocol
  import opened Dispatch
  import opened Agent

  /** The number of completion exchanges in a trace. */
  function Completions(events: seq<Event>): nat {
    if |events| == 0 then 0
    else (if events[0].Completion? then 1 else 0) + Completions(events[1..])
  }

  /** Both counts of a trace add up over its parts. */
  lemma {:induction false} CountsConcat(a: seq<Event>, b: seq<Event>)
    ensures Completions(a + b) == Completions(a) + Completions(b)
    ensures Succeeded(a + b) == Succeeded(a) + Succeeded(b)
  {
    if |a| == 0 {
      assert a + b == b;
    } else {
      CountsConcat(a[1..], b);
      assert (a + b)[1..] == a[1..] + b;
    }
  }

  /** A batch only executes tools; it never talks to the completion service. */
  lemma {:induction false} BatchMakesNoCompletion(o: Oracles, tools: seq<ToolDescriptor>, calls: seq<FunctionCall>)
    ensures Completions(DispatchBatch(o, tools, calls).attempts) == 0
  {
    if |calls| > 0 && DispatchOne(o, tools, calls[0]).Executed? {
      BatchStep(o, tools, calls);
      BatchMakesNoCompletion(o, tools, calls[1..]);
      CountsConcat(Attempts(DispatchOne(o, tools, calls[0])), DispatchBatch(o, tools, calls[1..]).attempts);
    }
  }

  /** A trace without completion exchanges holds only executions. */
  lemma {:induction false} CompletionFree(events: seq<Event>, k: nat)
    requires Completions(events) == 0 && k < |events|
    ensures events[k].Execution?
  {
    if k > 0 {
      CompletionFree(events[1..], k - 1);
    }
  }

  /** Every event of a batch is a tool execution. */
  lemma BatchOnlyExecutes(o: Oracles, tools: seq<ToolDescriptor>, calls: seq<FunctionCall>, k: nat)
    requires k < |DispatchBatch(o, tools, calls).attempts|
    ensures DispatchBatch(o, tools, calls).attempts[k].Execution?
  {
    BatchMakesNoCompletion(o, tools, calls);
    CompletionFree(DispatchBatch(o, tools, calls).attempts, k);
  }

  /** A completion exchange as the handler makes it: the fixed model, the
      catalog as tools, parallel tool calls off, an input that extends the
      first two entries and is a prefix of the transcript, and the reply the
      endpoint gave for exactly that request. */
  ghost predicate WellSent(o: Oracles, tools: seq<ToolDescriptor>, start: seq<Entry>, transcript: seq<Entry>, e: Event) {
    e.Completion? ==>
      && e.request == Outgoing(BodyFor(e.request.body.input, tools))
      && start <= e.request.body.input <= transcript
      && e.reply == FetchResponsesMessage(o.post, e.request.body)
  }

  /** The transcript invariant: the first two entries never change, the rest
      are call/output pairs, one pair per successful execution, and every
      request sent so far is well formed. */
  ghost predicate Consistent(o: Oracles, tools: seq<ToolDescriptor>, start: seq<Entry>, s: State) {
    && |start| == 2
    && start <= s.transcript
    && Paired(s.transcript[2..])
    && |s.transcript| == 2 + 2 * Succeeded(s.events)
    && forall i :: 0 <= i < |s.events| ==> WellSent(o, tools, start, s.transcript, s.events[i])
  }

  /** A batch keeps the transcript invariant. */
  lemma BatchKeepsConsistent(o: Oracles, tools: seq<ToolDescriptor>, start: seq<Entry>, s: State, calls: seq<FunctionCall>, p: Phase)
    requires Consistent(o, tools, start, s)
    ensures var b := DispatchBatch(o, tools, calls);
            Consistent(o, tools, start, State(p, s.transcript + b.appended, s.events + b.attempts))
  {
    var b := DispatchBatch(o, tools, calls);
    var t := s.transcript + b.appended;
    var ev := s.events + b.attempts;
    CountsConcat(s.events, b.attempts);
    assert t[2..] == s.transcript[2..] + b.appended;
    PairedConcat(s.transcript[2..], b.appended);
    forall i | 0 <= i < |ev|
      ensures WellSent(o, tools, start, t, ev[i])
    {
      if i < |s.events| {
        assert ev[i] == s.events[i];
        assert WellSent(o, tools, start, s.transcript, s.events[i]);
      } else {
        assert ev[i] == b.attempts[i - |s.events|];
        BatchOnlyExecutes(o, tools, calls, i - |s.events|);
      }
    }
  }

  /** Resubmitting the transcript keeps the transcript invariant. */
  lemma SubmitKeepsConsistent(o: Oracles, tools: seq<ToolDescriptor>, start: seq<Entry>, s: State)
    requires Consistent(o, tools, start, s)
    ensures var e := Submit(o, tools, s.transcript);
            Consistent(o, tools, start, State(Awaiting(e.reply), s.transcript, s.events + [e]))
  {
    var e := Submit(o, tools, s.transcript);
    var ev := s.events + [e];
    CountsConcat(s.events, [e]);
    assert Succeeded([e]) == 0;
    forall i | 0 <= i < |ev|
      ensures WellSent(o, tools, start, s.transcript, ev[i])
    {
      if i < |s.events| {
        assert ev[i] == s.events[i];
      }
    }
  }

  /** Every move of the loop keeps the transcript invariant. */
  lemma StepKeepsConsistent(o: Oracles, tools: seq<ToolDescriptor>, start: seq<Entry>, s: State)
    requires !s.phase.Ended? && Consistent(o, tools, start, s)
    ensures Consistent(o, tools, start, Step(o, tools, s))
  {
    match s.phase {
      case Awaiting(current) =>
        if Decide(current).CallTools? {
          BatchKeepsConsistent(o, tools, start, s, Decide(current).calls, Step(o, tools, s).phase);
        }
      case Dispatched =>
        SubmitKeepsConsistent(o, tools, start, s);
    }
  }

  /** The whole loop keeps the transcript invariant. */
  lemma {:induction false} LoopKeepsConsistent(o: Oracles, tools: seq<ToolDescriptor>, start: seq<Entry>, s: State, fuel: nat)
    requires Consistent(o, tools, start, s)
    ensures Consistent(o, tools, start, Loop(o, tools, s, fuel))
    decreases fuel, if s.phase.Awaiting? then 1 else 0
  {
    if !s.phase.Ended? && !(s.phase.Dispatched? && fuel == 0) {
      StepKeepsConsistent(o, tools, start, s);
      LoopKeepsConsistent(o, tools, start, Step(o, tools, s), if s.phase.Dispatched? then fuel - 1 else fuel);
    }
  }

  /** Whatever the services answer, the transcript of a run that got past
      the catalog fetch starts with the unchanged system and user messages
      and goes on with adjacent call/output pairs matched by call id, one
      pair per successful execution; every request sent names the model,
      carries the whole normalised catalog, switches parallel tool calls off,
      sends a prefix of the final transcript that extends the first two
      entries, and got the reply the endpoint gives for it. */
  lemma TranscriptInvariant(query: string, systemPrompt: string, catalog: CatalogReply, o: Oracles, fuel: nat)
    requires GetFastnTools(catalog).Some?
    ensures var r := CallFastnApi(query, systemPrompt, catalog, o, fuel);
            var tools := Normalise(catalog.entries.value);
            && r.transcript[..2] == InitialTranscript(systemPrompt, query)
            && Paired(r.transcript[2..])
            && |r.transcript| == 2 + 2 * Succeeded(r.events)
            && forall i :: 0 <= i < |r.events| && r.events[i].Completion? ==>
                 && r.events[i].request == Request(RequestBody(ModelName, r.events[i].request.body.input, tools), false)
                 && InitialTranscript(systemPrompt, query) <= r.events[i].request.body.input <= r.transcript
                 && r.events[i].reply == FetchResponsesMessage(o.post, r.events[i].request.body)
  {
    var tools := Normalise(catalog.entries.value);
    var t := InitialTranscript(systemPrompt, query);
    var s := Start(o, tools, systemPrompt, query);
    assert t[2..] == [];
    assert Succeeded(s.events) == 0;
    assert Consistent(o, tools, t, s);
    LoopKeepsConsistent(o, tools, t, s, fuel);
  }

  /** How an ended run relates to the last event of its trace: it answered
      exactly when that event is a completion whose reply finishes (and with
      that reply's text), it failed with the completion error exactly when
      that reply is an error, and it threw exactly when that reply did. */
  ghost predicate EndsWith(outcome: Outcome, last: Event) {
    && (outcome.Answer? <==> last.Completion? && Decide(last.reply).Finish?)
    && (outcome.Answer? ==> outcome.texts == Decide(last.reply).texts)
    && (outcome == Failure(CompletionFailed) <==> last.Completion? && Decide(last.reply).Abort?)
    && (outcome.Uncaught? <==> last.Completion? && Decide(last.reply).Rejected?)
  }

  /** The trace invariant: a reply in hand is the reply of the last
      exchange, a dispatched batch ends the trace with an execution, and an
      ended run ends as its last event says. */
  ghost predicate Traced(s: State) {
    && |s.events| > 0
    && var last := s.events[|s.events| - 1];
       && (s.phase.Awaiting? ==> last.Completion? && last.reply == s.phase.current)
       && (s.phase.Dispatched? ==> last.Execution?)
       && (s.phase.Ended? ==> EndsWith(s.phase.outcome, last))
  }

  /** Inspecting a reply keeps the trace invariant. */
  lemma AwaitingKeepsTraced(o: Oracles, tools: seq<ToolDescriptor>, s: State)
    requires s.phase.Awaiting? && Traced(s)
    ensures Traced(Step(o, tools, s))
  {
    var d := Decide(s.phase.current);
    if d.CallTools? {
      var b := DispatchBatch(o, tools, d.calls);
      var ev := s.events + b.attempts;
      if |b.attempts| == 0 {
        assert ev == s.events;
      } else {
        assert ev[|ev| - 1] == b.attempts[|b.attempts| - 1];
        BatchOnlyExecutes(o, tools, d.calls, |b.attempts| - 1);
      }
    }
  }

  /** Every move of the loop, and cutting it off, keeps the trace invariant. */
  lemma StepKeepsTraced(o: Oracles, tools: seq<ToolDescriptor>, s: State)
    requires !s.phase.Ended? && Traced(s)
    ensures Traced(Step(o, tools, s))
    ensures s.phase.Dispatched? ==> Traced(s.(phase := Ended(OutOfFuel)))
  {
    if s.phase.Awaiting? {
      AwaitingKeepsTraced(o, tools, s);
    }
  }

  /** The whole loop keeps the trace invariant. */
  lemma {:induction false} LoopKeepsTraced(o: Oracles, tools: seq<ToolDescriptor>, s: State, fuel: nat)
    requires Traced(s)
    ensures Traced(Loop(o, tools, s, fuel))
    decreases fuel, if s.phase.Awaiting? then 1 else 0
  {
    if !s.phase.Ended? {
      StepKeepsTraced(o, tools, s);
      if !(s.phase.Dispatched? && fuel == 0) {
        LoopKeepsTraced(o, tools, Step(o, tools, s), if s.phase.Dispatched? then fuel - 1 else fuel);
      }
    }
  }

  /** Every reply before the last event asked for tool calls: it neither
      threw, nor carried an error, nor lacked `function_call` items. */
  ghost predicate EarlierAskedForCalls(s: State) {
    forall i :: 0 <= i < |s.events| - 1 && s.events[i].Completion? ==> Decide(s.events[i].reply).CallTools?
  }

  /** Inspecting a reply keeps the earlier replies' invariant: the reply is
      only followed by events when it asked for calls. */
  lemma AwaitingKeepsEarlier(o: Oracles, tools: seq<ToolDescriptor>, s: State)
    requires s.phase.Awaiting? && Traced(s) && EarlierAskedForCalls(s)
    ensures EarlierAskedForCalls(Step(o, tools, s))
  {
    var d := Decide(s.phase.current);
    if d.CallTools? {
      var b := DispatchBatch(o, tools, d.calls);
      var ev := s.events + b.attempts;
      forall i | 0 <= i < |ev| - 1 && ev[i].Completion?
        ensures Decide(ev[i].reply).CallTools?
      {
        if i < |s.events| {
          assert ev[i] == s.events[i];
        } else {
          assert ev[i] == b.attempts[i - |s.events|];
          BatchOnlyExecutes(o, tools, d.calls, i - |s.events|);
        }
      }
    }
  }

  /** Every move of the loop, and cutting it off, keeps the earlier
      replies' invariant. */
  lemma StepKeepsEarlier(o: Oracles, tools: seq<ToolDescriptor>, s: State)
    requires !s.phase.Ended? && Traced(s) && EarlierAskedForCalls(s)
    ensures EarlierAskedForCalls(Step(o, tools, s))
  {
    if s.phase.Awaiting? {
      AwaitingKeepsEarlier(o, tools, s);
    } else {
      var ev := Step(o, tools, s).events;
      forall i | 0 <= i < |ev| - 1 && ev[i].Completion?
        ensures Decide(ev[i].reply).CallTools?
      {
        assert ev[i] == s.events[i];
      }
    }
  }

  /** The whole loop keeps the earlier replies' invariant. */
  lemma {:induction false} LoopKeepsEarlier(o: Oracles, tools: seq<ToolDescriptor>, s: State, fuel: nat)
    requires Traced(s) && EarlierAskedForCalls(s)
    ensures EarlierAskedForCalls(Loop(o, tools, s, fuel))
    decreases fuel, if s.phase.Awaiting? then 1 else 0
  {
    if !s.phase.Ended? && !(s.phase.Dispatched? && fuel == 0) {
      StepKeepsTraced(o, tools, s);
      StepKeepsEarlier(o, tools, s);
      LoopKeepsEarlier(o, tools, Step(o, tools, s), if s.phase.Dispatched? then fuel - 1 else fuel);
    }
  }

  /** A run ends at the FIRST reply that has no function call, carries an
      error, or throws: every earlier reply was an object without a truthy
      error and with at least one `function_call` item. The run answers
      exactly when that last reply has no function call and no error, and
      then the answer is its message text, with no tool run after it; it
      fails with the completion error exactly when that reply carries an
      error, with nothing executed or resubmitted after it; and an exception
      escapes exactly when that request threw. */
  lemma AnswerExactlyWhenNoCalls(query: string, systemPrompt: string, catalog: CatalogReply, o: Oracles, fuel: nat)
    requires GetFastnTools(catalog).Some?
    ensures var r := CallFastnApi(query, systemPrompt, catalog, o, fuel);
            && |r.events| > 0
            && (forall i :: 0 <= i < |r.events| - 1 && r.events[i].Completion? ==>
                  && r.events[i].reply.Body?
                  && !TruthyField(r.events[i].reply.completion.error)
                  && FunctionCalls(OutputOf(r.events[i].reply.completion)) != [])
            && var last := r.events[|r.events| - 1];
               && (r.outcome.Answer? <==> last.Completion? && Decide(last.reply).Finish?)
               && (r.outcome.Answer? ==> r.outcome.texts == FinalText(OutputOf(last.reply.completion)))
               && (r.outcome == Failure(CompletionFailed) <==>
                     last.Completion? && last.reply.Body? && TruthyField(last.reply.completion.error))
               && (r.outcome.Uncaught? <==> last.Completion? && last.reply.Thrown?)
  {
    var tools := Normalise(catalog.entries.value);
    var s := Start(o, tools, systemPrompt, query);
    LoopKeepsTraced(o, tools, s, fuel);
    LoopKeepsEarlier(o, tools, s, fuel);
    var r := Loop(o, tools, s, fuel);
    forall i | 0 <= i < |r.events| - 1 && r.events[i].Completion?
      ensures && r.events[i].reply.Body?
              && !TruthyField(r.events[i].reply.completion.error)
              && FunctionCalls(OutputOf(r.events[i].reply.completion)) != []
    {
      assert Decide(r.events[i].reply).CallTools?;
    }
  }

  /** From a reply in hand, the number of further completion requests is at
      most the fuel, and a run cut off for fuel used all of it. */
  lemma {:induction false} LoopFuelBound(o: Oracles, tools: seq<ToolDescriptor>, s: State, fuel: nat)
    ensures var r := Loop(o, tools, s, fuel);
            && Completions(r.events) <= Completions(s.events) + fuel
            && (!s.phase.Ended? && r.phase.outcome.OutOfFuel? ==> Completions(r.events) == Completions(s.events) + fuel)
    decreases fuel, if s.phase.Awaiting? then 1 else 0
  {
    if !s.phase.Ended? && !(s.phase.Dispatched? && fuel == 0) {
      var next := Step(o, tools, s);
      var f := if s.phase.Dispatched? then fuel - 1 else fuel;
      LoopFuelBound(o, tools, next, f);
      match s.phase {
        case Dispatched =>
          CountsConcat(s.events, [Submit(o, tools, s.transcript)]);
        case Awaiting(current) =>
          if Decide(current).CallTools? {
            var b := DispatchBatch(o, tools, Decide(current).calls);
            BatchMakesNoCompletion(o, tools, Decide(current).calls);
            CountsConcat(s.events, b.attempts);
          }
      }
    }
  }

  /** A run makes at most `fuel + 1` completion requests, and exactly that
      many when it is cut off for fuel. */
  lemma FuelBound(query: string, systemPrompt: string, catalog: CatalogReply, o: Oracles, fuel: nat)
    ensures var r := CallFastnApi(query, systemPrompt, catalog, o, fuel);
            && Completions(r.events) <= fuel + 1
            && (r.outcome.OutOfFuel? ==> Completions(r.events) == fuel + 1)
  {
    if GetFastnTools(catalog).Some? {
      var tools := GetFastnTools(catalog).value;
      var s := Start(o, tools, systemPrompt, query);
      assert Completions(s.events) == 1;
      LoopFuelBound(o, tools, s, fuel);
    }
  }

  /** More fuel changes nothing about a run that was not cut off. */
  lemma {:induction false} LoopMoreFuel(o: Oracles, tools: seq<ToolDescriptor>, s: State, fuel: nat, more: nat)
    requires fuel <= more
    requires !Loop(o, tools, s, fuel).phase.outcome.OutOfFuel?
    ensures Loop(o, tools, s, more) == Loop(o, tools, s, fuel)
    decreases fuel, if s.phase.Awaiting? then 1 else 0
  {
    if !s.phase.Ended? {
      if s.phase.Dispatched? {
        LoopMoreFuel(o, tools, Step(o, tools, s), fuel - 1, more - 1);
      } else {
        LoopMoreFuel(o, tools, Step(o, tools, s), fuel, more);
      }
    }
  }

  /** The fuel bound is only a modelling artefact: a run that ends in any
      real outcome ends the same way, with the same trace and transcript,
      under any larger bound. */
  lemma MoreFuelChangesNothing(query: string, systemPrompt: string, catalog: CatalogReply, o: Oracles, fuel: nat, more: nat)
    requires fuel <= more
    requires !CallFastnApi(query, systemPrompt, catalog, o, fuel).outcome.OutOfFuel?
    ensures CallFastnApi(query, systemPrompt, catalog, o, more) == CallFastnApi(query, systemPrompt, catalog, o, fuel)
  {
    if GetFastnTools(catalog).Some? {
      var tools := GetFastnTools(catalog).value;
      LoopMoreFuel(o, tools, Start(o, tools, systemPrompt, query), fuel, more);
    }
  }

  /** A failed catalog fetch resolves the handler with exactly the catalog
      error object, and neither the completion service nor any tool is
      called. */
  lemma CatalogFailureAborts(query: string, systemPrompt: string, catalog: CatalogReply, o: Oracles, fuel: nat)
    requires catalog.NetworkFailure? || !catalog.ok || catalog.entries.None?
    ensures var r := CallFastnApi(query, systemPrompt, catalog, o, fuel);
            && Returned(r.outcome) == Some(ErrorObject("Failed to fetch available tools from Fastn.ai."))
            && r.events == []
  {
  }

  /** A first reply without function calls ends the run at once: exactly one
      completion request, no tool executed, the transcript as first sent,
      and the reply's message text as the result. */
  lemma NoCallsAnswersAtOnce(query: string, systemPrompt: string, catalog: CatalogReply, o: Oracles, fuel: nat)
    requires GetFastnTools(catalog).Some?
    requires Decide(Start(o, GetFastnTools(catalog).value, systemPrompt, query).phase.current).Finish?
    ensures var s := Start(o, GetFastnTools(catalog).value, systemPrompt, query);
            var r := CallFastnApi(query, systemPrompt, catalog, o, fuel);
            && r.events == s.events
            && |r.events| == 1
            && r.transcript == InitialTranscript(systemPrompt, query)
            && Returned(r.outcome) == Some(ResultObject(FinalText(OutputOf(s.phase.current.completion))))
  {
  }

  /** An error in the first reply resolves the handler with exactly the
      completion error object after that single request. */
  lemma FirstErrorAborts(query: string, systemPrompt: string, catalog: CatalogReply, o: Oracles, fuel: nat)
    requires GetFastnTools(catalog).Some?
    requires var s := Start(o, GetFastnTools(catalog).value, systemPrompt, query);
             s.phase.current.Body? && TruthyField(s.phase.current.completion.error)
    ensures var r := CallFastnApi(query, systemPrompt, catalog, o, fuel);
            && |r.events| == 1
            && Returned(r.outcome) == Some(ErrorObject("Something went wrong with OpenAI response."))
  {
  }
}
