/** Tool dispatch: `executeTool`'s switch on the tool name, and how one finished turn's calls
    are handled one after another, every fault being turned into a tool message. */
module Tools {
  import opened Protocol

  const WeatherTool := "get_weather"
  const CalculateTool := "calculate"
  const UnknownToolPrefix := "Unknown tool: "
  const ToolFailedPrefix := "Tool execution failed: "
  /** What an empty argument buffer is parsed as. */
  const EmptyArguments := "{}"

  /** The two tool bodies. Their randomness and expression evaluation are not modelled: each
      is an arbitrary function of the parsed arguments that may fail with an error message. */
  datatype Toolbox = Toolbox(weather: Json -> Result<Json, string>, calculate: Json -> Result<Json, string>)

  /** JSON parsing of an argument buffer, abstract: a value, or a failure with its message. */
  type Parser = string -> Result<Json, string>

  /** Runs the named tool; an unknown name is answered with an error object, not a failure. */
  function ExecuteTool(tools: Toolbox, name: string, args: Json): (r: Result<Json, string>)
    ensures name != WeatherTool && name != CalculateTool ==> r == Success(ErrorPayload(UnknownToolPrefix + name))
    ensures r.Failure? ==> name == WeatherTool || name == CalculateTool
  {
    if name == WeatherTool then tools.weather(args)
    else if name == CalculateTool then tools.calculate(args)
    else Success(ErrorPayload(UnknownToolPrefix + name))
  }

  /** The text a call's arguments are parsed from: an empty buffer is parsed as "{}". */
  function ArgumentText(c: ToolCall): string {
    if c.arguments == "" then EmptyArguments else c.arguments
  }

  /** Parses the call's arguments and runs the tool: the parsed arguments and the result, or
      the message of whichever step failed. */
  function Invoke(parse: Parser, tools: Toolbox, c: ToolCall): (r: Result<(Json, Json), string>)
    ensures r.Success? ==>
      parse(ArgumentText(c)) == Success(r.value.0) && ExecuteTool(tools, c.name, r.value.0) == Success(r.value.1)
    ensures r.Failure? ==>
      || parse(ArgumentText(c)) == Failure(r.error)
      || (parse(ArgumentText(c)).Success? && ExecuteTool(tools, c.name, parse(ArgumentText(c)).value) == Failure(r.error))
  {
    match parse(ArgumentText(c))
    case Failure(e) => Failure(e)
    case Success(args) =>
      match ExecuteTool(tools, c.name, args)
      case Failure(e) => Failure(e)
      case Success(result) => Success((args, result))
  }

  /** A call with an empty argument buffer is run exactly as if it had sent "{}". */
  lemma EmptyArgumentsAsObject(parse: Parser, tools: Toolbox, c: ToolCall)
    requires c.arguments == ""
    ensures Invoke(parse, tools, c) == Invoke(parse, tools, c.(arguments := EmptyArguments))
  {
    assert ArgumentText(c) == ArgumentText(c.(arguments := EmptyArguments));
  }

  /** `m` and `e` are the tool message and the event answering the named call `c`. On success
      they carry the tool's result, and the event the tool's name and the parsed arguments.
      On failure the message is `{error: err}` and the event "Tool execution failed: err",
      for the same `err`. */
  ghost predicate Answers(parse: Parser, tools: Toolbox, c: ToolCall, m: Message, e: Event) {
    match Invoke(parse, tools, c)
    case Success(v) => m == ToolResult(c.id, v.1) && e == ToolCallEvent(c.name, v.0, v.1)
    case Failure(err) => m == ToolResult(c.id, ErrorPayload(err)) && e == ErrorEvent(ToolFailedPrefix + err)
  }

  /** What handling one call appends to the history and to the event stream. */
  datatype Handled = Handled(messages: seq<Message>, events: seq<Event>)

  /** One iteration of the loop over a turn's calls: a call without a name is skipped; any
      other is answered by exactly one tool message carrying its id and one event, whether
      parsing and running it succeeded or failed. */
  function HandleCall(parse: Parser, tools: Toolbox, c: ToolCall): (h: Handled)
    ensures c.name == "" ==> h == Handled([], [])
    ensures c.name != "" ==>
      && |h.messages| == 1 && h.messages[0].ToolResult? && h.messages[0].toolCallId == c.id
      && |h.events| == 1 && (h.events[0].ToolCallEvent? || h.events[0].ErrorEvent?)
      && (h.events[0].ErrorEvent? <==> Invoke(parse, tools, c).Failure?)
      && Answers(parse, tools, c, h.messages[0], h.events[0])
  {
    if c.name == "" then Handled([], [])
    else
      match Invoke(parse, tools, c)
      case Success((args, result)) =>
        Handled([ToolResult(c.id, result)], [ToolCallEvent(c.name, args, result)])
      case Failure(e) =>
        Handled([ToolResult(c.id, ErrorPayload(e))], [ErrorEvent(ToolFailedPrefix + e)])
  }

  /** Handling the calls one after another, in order. */
  function Dispatch(parse: Parser, tools: Toolbox, calls: seq<ToolCall>): Handled {
    if calls == [] then Handled([], [])
    else
      var before := Dispatch(parse, tools, calls[..|calls| - 1]);
      var last := HandleCall(parse, tools, calls[|calls| - 1]);
      Handled(before.messages + last.messages, before.events + last.events)
  }

  lemma DispatchSnoc(parse: Parser, tools: Toolbox, calls: seq<ToolCall>, c: ToolCall)
    ensures var before, last := Dispatch(parse, tools, calls), HandleCall(parse, tools, c);
      Dispatch(parse, tools, calls + [c]) == Handled(before.messages + last.messages, before.events + last.events)
  {
    assert (calls + [c])[..|calls|] == calls;
  }

  /** The calls that have a name, in order: the ones the loop answers. */
  function Named(calls: seq<ToolCall>): seq<ToolCall> {
    if calls == [] then []
    else
      var c := calls[|calls| - 1];
      Named(calls[..|calls| - 1]) + (if c.name != "" then [c] else [])
  }

  /** `ms` and `evs` answer the named calls among `calls`, one message and one event each, in
      call order: the `j`-th message carries the `j`-th named call's id and, with the `j`-th
      event, that call's result or error. */
  ghost predicate AnsweredInOrder(parse: Parser, tools: Toolbox, calls: seq<ToolCall>, ms: seq<Message>, evs: seq<Event>) {
    && |ms| == |Named(calls)| == |evs|
    && forall j :: 0 <= j < |ms| ==>
         && ms[j].ToolResult? && ms[j].toolCallId == Named(calls)[j].id
         && Answers(parse, tools, Named(calls)[j], ms[j], evs[j])
  }

  /** Tool faults never cut a turn short: every named call is answered, in call order, by one
      tool message and one event, and every event is a tool-call or error event. */
  lemma {:induction false} DispatchCorrelates(parse: Parser, tools: Toolbox, calls: seq<ToolCall>)
    ensures var h := Dispatch(parse, tools, calls);
      && AnsweredInOrder(parse, tools, calls, h.messages, h.events)
      && (forall e :: e in h.events ==> e.ToolCallEvent? || e.ErrorEvent?)
  {
    if calls != [] {
      var init, c := calls[..|calls| - 1], calls[|calls| - 1];
      DispatchCorrelates(parse, tools, init);
      var h := Dispatch(parse, tools, calls);
      var before := Dispatch(parse, tools, init);
      var last := HandleCall(parse, tools, c);
      forall j | 0 <= j < |h.messages|
        ensures && h.messages[j].ToolResult? && h.messages[j].toolCallId == Named(calls)[j].id
                && Answers(parse, tools, Named(calls)[j], h.messages[j], h.events[j])
      {
        if j < |before.messages| {
          assert h.messages[j] == before.messages[j];
          assert h.events[j] == before.events[j];
          assert Named(calls)[j] == Named(init)[j];
        } else {
          assert h.messages[j] == last.messages[0];
          assert h.events[j] == last.events[0];
          assert Named(calls)[j] == c;
        }
      }
    }
  }

  /** The calls present in a builders array, in slot order: what `map` and `forEach` visit,
      since both skip holes. */
  function Filled(slots: seq<Option<ToolCall>>): seq<ToolCall> {
    if slots == [] then []
    else
      var s := slots[|slots| - 1];
      Filled(slots[..|slots| - 1]) + (if s.Some? then [s.value] else [])
  }

  /** The first hole of a builders array, or its length when it has none: the `for...of` loop
      reaches a hole there and fails reading `.function` of `undefined`. */
  function FirstHole(slots: seq<Option<ToolCall>>): (r: nat)
    ensures r <= |slots|
  {
    if slots == [] || slots[0].None? then 0 else 1 + FirstHole(slots[1..])
  }

  lemma FilledSnoc(slots: seq<Option<ToolCall>>, i: nat)
    requires i < |slots| && slots[i].Some?
    ensures Filled(slots[..i + 1]) == Filled(slots[..i]) + [slots[i].value]
  {
    assert slots[..i + 1][..i] == slots[..i];
  }

  /** Every slot before the first hole holds a call, and the first hole is one. */
  lemma {:induction false} FirstHoleIsFirst(slots: seq<Option<ToolCall>>)
    ensures forall j :: 0 <= j < FirstHole(slots) ==> slots[j].Some?
    ensures FirstHole(slots) < |slots| ==> slots[FirstHole(slots)].None?
  {
    if slots != [] && slots[0].Some? {
      FirstHoleIsFirst(slots[1..]);
      forall j | 0 < j < FirstHole(slots) ensures slots[j].Some? {
        assert slots[j] == slots[1..][j - 1];
      }
    }
  }

  /** Scanning from the front: slot `i`, reached without a hole, is the first hole exactly when
      it is a hole. */
  lemma FirstHoleAt(slots: seq<Option<ToolCall>>, i: nat)
    requires i < |slots| && i <= FirstHole(slots)
    ensures slots[i].None? <==> FirstHole(slots) == i
  {
    FirstHoleIsFirst(slots);
  }

  /** The calls handled before the first hole. */
  function Reached(slots: seq<Option<ToolCall>>): seq<ToolCall> {
    Filled(slots[..FirstHole(slots)])
  }

  /** Without holes, the handled calls are exactly the present ones, one per slot. */
  lemma {:induction false} FilledDense(slots: seq<Option<ToolCall>>)
    requires forall j :: 0 <= j < |slots| ==> slots[j].Some?
    ensures |Filled(slots)| == |slots|
    ensures forall j :: 0 <= j < |slots| ==> Filled(slots)[j] == slots[j].value
  {
    if slots != [] {
      FilledDense(slots[..|slots| - 1]);
    }
  }

  /** Without a hole, every present call is reached. */
  lemma ReachedAll(slots: seq<Option<ToolCall>>)
    requires FirstHole(slots) == |slots|
    ensures Reached(slots) == Filled(slots)
  {
    assert slots[..FirstHole(slots)] == slots;
  }

  /** The message emitted for a hole. */
  const HoleError := "Cannot read properties of undefined (reading 'function')"
}
