/** The recursive streaming loop `streamWithTools`: one model turn per call, tool turns
    handled and followed by a turn with one iteration less, a plain turn ending the loop. */
module Orchestrator {
  import opened Protocol
  import opened Accumulator
  import opened Tools

  const DefaultMaxIterations := 10
  const MaxIterationsError := "Maximum tool call iterations reached"

  /** What the loop cannot see inside: the model service, which answers a conversation history
      with one streamed turn, the JSON parser for tool arguments, and the tool bodies. */
  datatype Env = Env(upstream: seq<Message> -> Turn, parse: Parser, tools: Toolbox)

  /** Everything the loop changes: the conversation history, the tool-call log, the events
      written to the client and the histories sent to the model service, one per turn opened. */
  datatype State = State(
    messages: seq<Message>,
    toolCalls: seq<ToolCall>,
    events: seq<Event>,
    requests: seq<seq<Message>>)

  /** The assistant message a plain turn appends: none when its text is empty. */
  function AssistantReply(text: string): seq<Message> {
    if text != "" then [AssistantText(text)] else []
  }

  /** Opening a turn on the current history and reading its chunks. */
  function OpenTurn(env: Env, st: State): State {
    var turn := env.upstream(st.messages);
    st.(requests := st.requests + [st.messages],
        events := st.events + ContentEvents(turn.chunks, Consumed(turn)))
  }

  /** A tool turn's bookkeeping: one assistant message listing the present calls, those calls
      appended to the log, then every call before the first hole handled in order. */
  function AfterToolTurn(env: Env, st: State, slots: seq<Option<ToolCall>>): State {
    var calls := Filled(slots);
    var handled := Dispatch(env.parse, env.tools, Reached(slots));
    st.(messages := st.messages + [AssistantCalls(calls)] + handled.messages,
        toolCalls := st.toolCalls + calls,
        events := st.events + handled.events)
  }

  /** What one iteration leads to: another iteration from the new state, or the end of the
      loop with its final state and its answer or error. */
  datatype Step = Continue(state: State) | Stop(state: State, result: Result<string, string>)

  /** One iteration with iterations left: open a turn on the history, then return its text,
      pass its fault on, or do the tool-turn bookkeeping and go on (or fail on a hole). */
  function TurnStep(env: Env, st: State): Step {
    var started := OpenTurn(env, st);
    match TurnSpec(env.upstream(st.messages))
    case Faulted(e) => Stop(started, Failure(e))
    case Completed(text) => Stop(started.(messages := started.messages + AssistantReply(text)), Success(text))
    case ToolTurn(slots) =>
      var after := AfterToolTurn(env, started, slots);
      if FirstHole(slots) < |slots| then Stop(after, Failure(HoleError)) else Continue(after)
  }

  /** The bounded recursion: with `n` iterations left, fail with the iteration error when
      `n <= 0`, else take one `step` and stop there or go on with `n - 1`. The result is the
      final state and the final answer or the message of the error that ended the loop. */
  function Iterate(step: State -> Step, st: State, n: int): (State, Result<string, string>)
    decreases n
  {
    if n <= 0 then (st, Failure(MaxIterationsError))
    else
      match step(st)
      case Stop(fin, r) => (fin, r)
      case Continue(next) => Iterate(step, next, n - 1)
  }

  function StepOf(env: Env): State -> Step {
    st => TurnStep(env, st)
  }

  /** The loop from state `st` with `n` iterations left. */
  function Run(env: Env, st: State, n: int): (State, Result<string, string>) {
    Iterate(StepOf(env), st, n)
  }

  // ---------------------------------------------------------------------------------------
  // What the loop guarantees

  /** The events the loop itself writes: it never writes `done` or `[DONE]`. */
  ghost predicate LoopEvent(e: Event) {
    e.ContentEvent? || e.ToolCallEvent? || e.ErrorEvent?
  }

  /** `fin` grows `st` the way the loop does: the history, the tool-call log, the event stream
      and the request log are only appended to, every new event is a loop event, and every
      turn opened since `st` was sent a history between `st`'s and `fin`'s. */
  ghost predicate Extends(st: State, fin: State) {
    && st.messages <= fin.messages
    && st.toolCalls <= fin.toolCalls
    && st.events <= fin.events
    && st.requests <= fin.requests
    && (forall e :: e in fin.events[|st.events|..] ==> LoopEvent(e))
    && (forall i :: |st.requests| <= i < |fin.requests| ==> st.messages <= fin.requests[i] <= fin.messages)
  }

  lemma ExtendsReflexive(st: State)
    ensures Extends(st, st)
  {
    assert st.events[|st.events|..] == [];
  }

  lemma ExtendsTransitive(a: State, b: State, c: State)
    requires Extends(a, b) && Extends(b, c)
    ensures Extends(a, c)
  {
    forall e | e in c.events[|a.events|..]
      ensures LoopEvent(e)
    {
      var k :| 0 <= k < |c.events[|a.events|..]| && c.events[|a.events|..][k] == e;
      if |a.events| + k < |b.events| {
        assert e == b.events[|a.events|..][k];
      } else {
        assert e == c.events[|b.events|..][|a.events| + k - |b.events|];
      }
    }
    forall i | |a.requests| <= i < |c.requests|
      ensures a.messages <= c.requests[i] <= c.messages
    {
      if i < |b.requests| {
        assert c.requests[i] == b.requests[i];
      }
    }
  }

  /** Opening a turn logs the history it is sent and writes only content events. */
  lemma OpenTurnExtends(env: Env, st: State)
    ensures Extends(st, OpenTurn(env, st))
    ensures OpenTurn(env, st).messages == st.messages && OpenTurn(env, st).toolCalls == st.toolCalls
    ensures OpenTurn(env, st).requests == st.requests + [st.messages]
  {
    var turn := env.upstream(st.messages);
    var fin := OpenTurn(env, st);
    ContentEventsRunning(turn.chunks, Consumed(turn));
    assert fin.events[|st.events|..] == ContentEvents(turn.chunks, Consumed(turn));
  }

  /** A tool turn's bookkeeping appends to the history and the log and writes only tool-call
      and error events. */
  lemma AfterToolTurnExtends(env: Env, st: State, slots: seq<Option<ToolCall>>)
    ensures Extends(st, AfterToolTurn(env, st, slots))
    ensures AfterToolTurn(env, st, slots).requests == st.requests
  {
    var handled := Dispatch(env.parse, env.tools, Reached(slots));
    var fin := AfterToolTurn(env, st, slots);
    DispatchCorrelates(env.parse, env.tools, Reached(slots));
    assert fin.events[|st.events|..] == handled.events;
    assert fin.messages == st.messages + ([AssistantCalls(Filled(slots))] + handled.messages);
  }

  /** A tool turn without holes appends one assistant message listing every call in slot
      order, then the tool messages answering the named calls in call order, each with the
      result or error of its call and paired with the event written for it. The log grows by
      exactly those calls. */
  lemma ToolTurnShape(env: Env, st: State, slots: seq<Option<ToolCall>>)
    requires FirstHole(slots) == |slots|
    ensures var after, calls := AfterToolTurn(env, st, slots), Filled(slots);
      && after.toolCalls == st.toolCalls + calls
      && |st.messages| < |after.messages| && |st.events| <= |after.events|
      && after.messages[..|st.messages| + 1] == st.messages + [AssistantCalls(calls)]
      && AnsweredInOrder(env.parse, env.tools, calls, after.messages[|st.messages| + 1..], after.events[|st.events|..])
  {
    var calls := Filled(slots);
    ReachedAll(slots);
    var handled := Dispatch(env.parse, env.tools, calls);
    DispatchCorrelates(env.parse, env.tools, calls);
    var after := AfterToolTurn(env, st, slots);
    assert after.messages == (st.messages + [AssistantCalls(calls)]) + handled.messages;
    assert after.messages[|st.messages| + 1..] == handled.messages;
    assert after.events[|st.events|..] == handled.events;
  }

  /** One iteration opens exactly one turn and only appends, writing loop events only. */
  lemma TurnStepExtends(env: Env, st: State)
    ensures Extends(st, TurnStep(env, st).state)
    ensures |TurnStep(env, st).state.requests| == |st.requests| + 1
  {
    var started := OpenTurn(env, st);
    OpenTurnExtends(env, st);
    match TurnSpec(env.upstream(st.messages))
    case Faulted(e) =>
    case Completed(text) =>
      var fin := started.(messages := started.messages + AssistantReply(text));
      assert Extends(started, fin) by {
        assert fin.events[|started.events|..] == [];
      }
      ExtendsTransitive(st, started, fin);
    case ToolTurn(slots) =>
      AfterToolTurnExtends(env, started, slots);
      ExtendsTransitive(st, started, AfterToolTurn(env, started, slots));
  }

  /** Whatever relation every iteration establishes, and that is reflexive and transitive,
      holds between the state the loop starts from and the state it ends in. */
  lemma {:induction false} IteratePreserves(step: State -> Step, st: State, n: int, R: (State, State) -> bool)
    requires forall a :: R(a, a)
    requires forall a :: R(a, step(a).state)
    requires forall a, b, c :: R(a, b) && R(b, c) ==> R(a, c)
    ensures R(st, Iterate(step, st, n).0)
    decreases n
  {
    if n > 0 {
      match step(st)
      case Stop(fin, r) =>
      case Continue(next) =>
        IteratePreserves(step, next, n - 1, R);
    }
  }

  /** Whatever the model service answers, the loop only appends, writes no `done` event, and
      sends each turn the whole history accumulated so far. */
  lemma RunExtends(env: Env, st: State, n: int)
    ensures Extends(st, Run(env, st, n).0)
  {
    forall a ensures Extends(a, a) {
      ExtendsReflexive(a);
    }
    forall a ensures Extends(a, StepOf(env)(a).state) {
      TurnStepExtends(env, a);
    }
    forall a, b, c | Extends(a, b) && Extends(b, c) ensures Extends(a, c) {
      ExtendsTransitive(a, b, c);
    }
    IteratePreserves(StepOf(env), st, n, (a, b) => Extends(a, b));
  }

  /** A bounded iteration whose every step adds one to `count` takes at most `n` steps, and
      none when `n <= 0`. */
  lemma {:induction false} IterateCounts(step: State -> Step, st: State, n: int, count: State -> int)
    requires forall a :: count(step(a).state) == count(a) + 1
    ensures var fin := Iterate(step, st, n).0;
      && (n <= 0 ==> fin == st)
      && (n > 0 ==> count(st) < count(fin) <= count(st) + n)
    decreases n
  {
    if n > 0 {
      match step(st)
      case Stop(fin, r) =>
      case Continue(next) =>
        IterateCounts(step, next, n - 1, count);
    }
  }

  /** The iteration bound: with `n` iterations left at most `n` turns are opened, and none
      when `n <= 0`, in which case nothing changes. */
  lemma RunTurnBound(env: Env, st: State, n: int)
    ensures var fin := Run(env, st, n).0;
      && (n <= 0 ==> fin == st)
      && (n > 0 ==> |st.requests| < |fin.requests| <= |st.requests| + n)
  {
    forall a ensures |StepOf(env)(a).state.requests| == |a.requests| + 1 {
      TurnStepExtends(env, a);
    }
    IterateCounts(StepOf(env), st, n, (a: State) => |a.requests|);
  }

  /** The model service answers history `h` with a tool turn whose calls leave no hole. */
  ghost predicate CallsTools(env: Env, h: seq<Message>) {
    var answer := TurnSpec(env.upstream(h));
    answer.ToolTurn? && FirstHole(answer.slots) == |answer.slots|
  }

  /** A model service that answers every history with a tool turn. */
  ghost predicate AlwaysCallsTools(env: Env) {
    forall h: seq<Message> :: CallsTools(env, h)
  }

  /** A model service that always asks for tools exhausts the iterations: exactly `n` turns are
      opened and the loop fails with the iteration error. */
  lemma {:induction false} RunawayExhausts(env: Env, st: State, n: int)
    requires AlwaysCallsTools(env)
    ensures Run(env, st, n).1 == Failure(MaxIterationsError)
    ensures |Run(env, st, n).0.requests| == |st.requests| + (if n > 0 then n else 0)
    decreases n
  {
    if n > 0 {
      assert CallsTools(env, st.messages);
      TurnStepExtends(env, st);
      RunawayExhausts(env, TurnStep(env, st).state, n - 1);
    }
  }

  /** A model service that answers every history with one chunk asking for the weather. */
  function WeatherEveryTurn(h: seq<Message>): Turn {
    Turn([Choice([ToolCallDelta(None, "call_0", WeatherTool, "")], "", Some(ToolCallsFinish))], None)
  }

  /** Such a service keeps the loop calling tools until the default ten iterations are spent:
      ten turns are opened and the loop fails with the iteration error. */
  lemma WeatherEveryTurnExhausts(parse: Parser, tools: Toolbox, st: State)
    ensures var env := Env(WeatherEveryTurn, parse, tools);
      && Run(env, st, DefaultMaxIterations).1 == Failure(MaxIterationsError)
      && |Run(env, st, DefaultMaxIterations).0.requests| == |st.requests| + 10
  {
    var env := Env(WeatherEveryTurn, parse, tools);
    forall h: seq<Message> ensures CallsTools(env, h) {
      var cs := WeatherEveryTurn(h).chunks;
      var d := cs[0].toolCalls[0];
      assert Deltas(cs, 1) == [d];
      assert Mentions([d], 0) by { assert Slot([d][0]) == 0; }
      assert Length([d]) == 1;
      assert StopsAt(cs, 0);
      var slots := Builders([d]);
      assert slots == [Some(Merged([d], 0))];
    }
    RunawayExhausts(env, st, DefaultMaxIterations);
  }

  /** The last turn opened in `fin` completed with `text` without a tool turn: the history is
      the one sent to that turn plus the answer (when non-empty), and the event stream ends
      with that turn's content events. */
  ghost predicate AnsweredBy(env: Env, fin: State, text: string) {
    && |fin.requests| > 0
    && var h := fin.requests[|fin.requests| - 1];
       var turn := env.upstream(h);
       && TurnSpec(turn) == Completed(text)
       && fin.messages == h + AssistantReply(text)
       && EndsWith(fin.events, ContentEvents(turn.chunks, Consumed(turn)))
  }

  /** A completed turn's content events spell its text, which is the answer. */
  lemma CompletedTurnSpellsAnswer(turn: Turn)
    requires TurnSpec(turn).Completed?
    ensures StreamedText(ContentEvents(turn.chunks, Consumed(turn))) == TurnSpec(turn).text
  {
    ContentEventsSpellText(turn.chunks, |turn.chunks|);
  }

  /** The iteration that stops the loop with a success answered its last turn's text. */
  lemma TurnStepSuccess(env: Env, st: State)
    requires TurnStep(env, st).Stop? && TurnStep(env, st).result.Success?
    ensures AnsweredBy(env, TurnStep(env, st).state, TurnStep(env, st).result.value)
  {
    var turn := env.upstream(st.messages);
    var started := OpenTurn(env, st);
    var evs := ContentEvents(turn.chunks, Consumed(turn));
    assert started.events[|started.events| - |evs|..] == evs;
  }

  /** On success the answer is the text of the last turn opened, and of that turn only. */
  lemma {:induction false} RunSuccess(env: Env, st: State, n: int)
    ensures var fin, r := Run(env, st, n).0, Run(env, st, n).1;
      r.Success? ==> |fin.requests| > |st.requests| && AnsweredBy(env, fin, r.value)
    decreases n
  {
    if n > 0 {
      TurnStepExtends(env, st);
      match TurnStep(env, st)
      case Stop(fin, r) =>
        if r.Success? {
          TurnStepSuccess(env, st);
        }
      case Continue(next) =>
        RunSuccess(env, next, n - 1);
    }
  }

  /** The last turn opened in `fin` ended with the model service's fault `e`. */
  ghost predicate FaultedBy(env: Env, fin: State, e: string) {
    |fin.requests| > 0 && TurnSpec(env.upstream(fin.requests[|fin.requests| - 1])) == Faulted(e)
  }

  /** The iteration that stops the loop with a failure failed on a hole or on the fault the
      model service raised on the turn it opened. */
  lemma TurnStepFailure(env: Env, st: State)
    requires TurnStep(env, st).Stop? && TurnStep(env, st).result.Failure?
    ensures TurnStep(env, st).result.error == HoleError || FaultedBy(env, TurnStep(env, st).state, TurnStep(env, st).result.error)
  {
    OpenTurnExtends(env, st);
  }

  /** On failure the error is the iteration error, the hole error, or the fault the model
      service raised on the last turn opened. */
  lemma {:induction false} RunFailure(env: Env, st: State, n: int)
    ensures var fin, r := Run(env, st, n).0, Run(env, st, n).1;
      r.Failure? ==>
        || r.error == MaxIterationsError
        || r.error == HoleError
        || (|fin.requests| > |st.requests| && FaultedBy(env, fin, r.error))
    decreases n
  {
    if n > 0 {
      TurnStepExtends(env, st);
      match TurnStep(env, st)
      case Stop(fin, r) =>
        if r.Failure? {
          TurnStepFailure(env, st);
        }
      case Continue(next) =>
        RunFailure(env, next, n - 1);
    }
  }

  /** The inner loop of the chunk loop, `for (const toolCallDelta of delta.tool_calls)`:
      merges a chunk's fragments, in order, into the builders array. */
  method AddToolCallFragments(slots: seq<Option<ToolCall>>, fragments: seq<ToolCallDelta>, ghost before: seq<ToolCallDelta>)
    returns (r: seq<Option<ToolCall>>)
    requires slots == Builders(before)
    ensures r == Builders(before + fragments)
  {
    r := slots;
    var m := 0;
    assert before + fragments[..0] == before;
    while m < |fragments|
      invariant 0 <= m <= |fragments|
      invariant r == Builders(before + fragments[..m])
    {
      assert before + fragments[..m + 1] == (before + fragments[..m]) + [fragments[m]];
      r := AddToolCallFragment(r, fragments[m], before + fragments[..m]);
      m := m + 1;
    }
    assert fragments[..m] == fragments;
  }

  /** The per-request state of the chat handler while the loop runs. */
  class ChatSession {
    var messages: seq<Message>
    var toolCalls: seq<ToolCall>
    var events: seq<Event>
    /** The histories sent to the model service, one per turn opened (proof only). */
    ghost var requests: seq<seq<Message>>

    constructor (seed: seq<Message>)
      ensures messages == seed && toolCalls == [] && events == [] && requests == []
    {
      messages, toolCalls, events, requests := seed, [], [], [];
    }

    ghost function Snapshot(): State
      reads this
    {
      State(messages, toolCalls, events, requests)
    }

    /** Writes one event to the client. */
    method Emit(e: Event)
      modifies this`events
      ensures events == old(events) + [e]
    {
      events := events + [e];
    }

    /** The chunk loop of one turn: folds text and tool-call fragments, writes a content event
        per non-empty text delta, and stops at the first chunk that ends a tool turn. */
    method ConsumeTurn(turn: Turn) returns (end: TurnEnd)
      modifies this`events
      ensures end == TurnSpec(turn)
      ensures events == old(events) + ContentEvents(turn.chunks, Consumed(turn))
    {
      var cs := turn.chunks;
      var accumulated := "";
      var slots: seq<Option<ToolCall>> := [];
      var k := 0;
      while k < |cs|
        invariant 0 <= k <= |cs|
        invariant accumulated == Text(cs, k)
        invariant slots == Builders(Deltas(cs, k))
        invariant events == old(events) + ContentEvents(cs, k)
        invariant FirstStop(cs, k) == FirstStop(cs, 0)
      {
        var chunk := cs[k];
        ghost var before := events;
        accumulated, slots := ReadChunk(cs, k, accumulated, slots);
        assert events == before + ChunkEvents(cs, k);
        assert events == old(events) + ContentEvents(cs, k + 1);
        if chunk.Choice? && chunk.finishReason == Some(ToolCallsFinish) && |slots| > 0 {
          assert StopsAt(cs, k);
          return ToolTurn(slots);
        }
        assert !StopsAt(cs, k);
        k := k + 1;
      }
      if turn.fault.Some? {
        return Faulted(turn.fault.value);
      }
      return Completed(accumulated);
    }

    /** One pass of the chunk loop before its finish check: a chunk without a choice is
        skipped; otherwise its fragments are merged and a non-empty text delta is appended to
        the running text and written as a content event. */
    method ReadChunk(cs: seq<Chunk>, k: nat, accumulated: string, slots: seq<Option<ToolCall>>)
      returns (accumulated': string, slots': seq<Option<ToolCall>>)
      requires k < |cs|
      requires accumulated == Text(cs, k) && slots == Builders(Deltas(cs, k))
      modifies this`events
      ensures accumulated' == Text(cs, k + 1) && slots' == Builders(Deltas(cs, k + 1))
      ensures |slots'| == Length(Deltas(cs, k + 1))
      ensures events == old(events) + ChunkEvents(cs, k)
    {
      var chunk := cs[k];
      accumulated', slots' := accumulated, slots;
      if chunk.Choice? {
        slots' := AddToolCallFragments(slots, chunk.toolCalls, Deltas(cs, k));
        if chunk.content != "" {
          accumulated' := accumulated + chunk.content;
          events := events + [ContentEvent(chunk.content, accumulated')];
        }
      } else {
        assert Deltas(cs, k) + [] == Deltas(cs, k);
      }
    }

    /** The loop over a tool turn's calls (`for...of`, so a hole stops it with an error):
        each named call is parsed, run and answered; a failure of either step becomes an error
        event and an `{error}` tool message. `complete` is false when a hole was reached. */
    method DispatchToolCalls(env: Env, slots: seq<Option<ToolCall>>) returns (complete: bool)
      modifies this`messages, this`events
      ensures complete <==> FirstHole(slots) == |slots|
      ensures messages == old(messages) + Dispatch(env.parse, env.tools, Reached(slots)).messages
      ensures events == old(events) + Dispatch(env.parse, env.tools, Reached(slots)).events
    {
      var i := 0;
      ghost var reached: seq<ToolCall> := [];
      while i < |slots|
        invariant 0 <= i <= |slots|
        invariant i <= FirstHole(slots)
        invariant reached == Filled(slots[..i])
        invariant messages == old(messages) + Dispatch(env.parse, env.tools, reached).messages
        invariant events == old(events) + Dispatch(env.parse, env.tools, reached).events
      {
        FirstHoleAt(slots, i);
        if slots[i].None? {
          return false;
        }
        var call := slots[i].value;
        FilledSnoc(slots, i);
        DispatchSnoc(env.parse, env.tools, reached, call);
        HandleToolCall(env, call);
        reached := reached + [call];
        i := i + 1;
      }
      assert slots[..i] == slots;
      return true;
    }

    /** One iteration of the loop over a turn's calls: a named call is parsed (an empty buffer
        as "{}") and run; its result, or the message of the step that failed, is written as an
        event and answered by a tool message with the call's id. */
    method HandleToolCall(env: Env, call: ToolCall)
      modifies this`messages, this`events
      ensures messages == old(messages) + HandleCall(env.parse, env.tools, call).messages
      ensures events == old(events) + HandleCall(env.parse, env.tools, call).events
    {
      if call.name != "" {
        var text := if call.arguments == "" then EmptyArguments else call.arguments;
        var parsed := env.parse(text);
        var outcome: Result<Json, string> := Failure("");
        if parsed.Success? {
          outcome := ExecuteTool(env.tools, call.name, parsed.value);
        }
        if parsed.Success? && outcome.Success? {
          events := events + [ToolCallEvent(call.name, parsed.value, outcome.value)];
          messages := messages + [ToolResult(call.id, outcome.value)];
        } else {
          var message := if parsed.Failure? then parsed.error else outcome.error;
          events := events + [ErrorEvent(ToolFailedPrefix + message)];
          messages := messages + [ToolResult(call.id, ErrorPayload(message))];
        }
      }
    }

    /** A tool turn's bookkeeping: the assistant message listing the calls `map` copies (holes
        skipped), the calls `forEach` appends to the log, then the calls handled in order.
        `complete` is false when the loop over the calls reached a hole. */
    method HandleToolTurn(env: Env, slots: seq<Option<ToolCall>>) returns (complete: bool)
      modifies this`messages, this`toolCalls, this`events
      ensures complete <==> FirstHole(slots) == |slots|
      ensures Snapshot() == AfterToolTurn(env, old(Snapshot()), slots)
    {
      var calls := Filled(slots);
      messages := messages + [AssistantCalls(calls)];
      toolCalls := toolCalls + calls;
      complete := DispatchToolCalls(env, slots);
    }

    /** `streamWithTools(messages, maxIterations)`: refuses to open a turn once no iteration
        is left, else opens one, and either returns its text or handles its tool calls and
        goes on with one iteration less. */
    method StreamWithTools(env: Env, maxIterations: int) returns (r: Result<string, string>)
      modifies this
      ensures (Snapshot(), r) == Run(env, old(Snapshot()), maxIterations)
      decreases maxIterations
    {
      if maxIterations <= 0 {
        return Failure(MaxIterationsError);
      }
      ghost var start := Snapshot();
      var turn := env.upstream(messages);
      requests := requests + [messages];
      var end := ConsumeTurn(turn);
      assert Snapshot() == OpenTurn(env, start);
      match end {
        case Faulted(e) =>
          r := Failure(e);
          assert TurnStep(env, start) == Stop(Snapshot(), r);
        case Completed(text) =>
          if text != "" {
            messages := messages + [AssistantText(text)];
          }
          r := Success(text);
          assert TurnStep(env, start) == Stop(Snapshot(), r);
        case ToolTurn(slots) =>
          var complete := HandleToolTurn(env, slots);
          if !complete {
            r := Failure(HoleError);
            assert TurnStep(env, start) == Stop(Snapshot(), r);
            return;
          }
          assert TurnStep(env, start) == Continue(Snapshot());
          r := StreamWithTools(env, maxIterations - 1);
      }
    }
  }
}
