/** The `/api/chat` handler around the loop, and the conversation store it writes and the
    `/api/conversation/:id` handler reads. */
module Server {
  import opened Protocol
  import opened Accumulator
  import opened Tools
  import opened Orchestrator

  const SystemDirective := "You are a helpful assistant. Always respond with structured JSON when possible."
  const MessageRequired := "Message is required"
  const ConversationNotFound := "Conversation not found"

  /** The answer to a chat request: a 400 with its error, or an event stream. */
  datatype ChatReply = BadRequest(error: string) | EventStream(events: seq<Event>)

  /** The answer to a conversation lookup: the stored record, or a 404 with its error. */
  datatype Lookup = Found(record: Record) | NotFound(error: string)

  /** The id a chat request is filed under: the client's when it sent a non-empty one,
      otherwise the freshly generated one. */
  function ConversationId(requested: Option<string>, generated: string): string {
    if requested.Some? && requested.value != "" then requested.value else generated
  }

  /** The history a chat request starts from: the system directive, then the user's message. */
  function Seed(message: string): seq<Message> {
    [System(SystemDirective), User(message)]
  }

  /** The final answer parsed as JSON, `Null` when it does not parse. */
  function ParsedAnswer(parse: Parser, answer: string): Json {
    match parse(answer)
    case Success(v) => v
    case Failure(_) => Null
  }

  /** A request carries a usable message: present and non-empty. */
  predicate HasMessage(message: Option<string>) {
    message.Some? && message.value != ""
  }

  /** The loop as a chat request runs it: from the seed history, with the default bound. */
  function Session(env: Env, message: string): (State, Result<string, string>) {
    Run(env, State(Seed(message), [], [], []), DefaultMaxIterations)
  }

  /** The record a successful request stores. */
  function RecordOf(env: Env, id: string, fin: State, answer: string, timestamp: string): Record {
    Record(id, fin.messages, fin.toolCalls, answer, ParsedAnswer(env.parse, answer), timestamp)
  }

  /** What a chat request answers and what the store holds afterwards. A missing or empty
      message is refused with a 400. Otherwise the loop runs; on success the record is filed
      under the conversation id and the stream ends with `done` and `[DONE]`; on failure the
      stream ends with one error event and the store is left as it was. */
  function ChatResponse(env: Env, message: Option<string>, requested: Option<string>, generated: string,
                        timestamp: string, store: map<string, Record>): (ChatReply, map<string, Record>)
  {
    if !HasMessage(message) then (BadRequest(MessageRequired), store)
    else
      var id := ConversationId(requested, generated);
      var fin := Session(env, message.value).0;
      match Session(env, message.value).1
      case Success(answer) =>
        var rec := RecordOf(env, id, fin, answer, timestamp);
        (EventStream(fin.events + [DoneEvent(id, rec), EndOfStream]), store[id := rec])
      case Failure(e) => (EventStream(fin.events + [ErrorEvent(e)]), store)
  }

  // ---------------------------------------------------------------------------------------
  // What a chat request guarantees

  /** The events that end a stream successfully. */
  ghost predicate Terminal(e: Event) {
    e.DoneEvent? || e.EndOfStream?
  }

  /** A request without a usable message is refused with a 400, and only such a request;
      a refused request leaves the store as it was. */
  lemma RefusedIffNoMessage(env: Env, message: Option<string>, requested: Option<string>, generated: string,
                            timestamp: string, store: map<string, Record>)
    ensures var (reply, after) := ChatResponse(env, message, requested, generated, timestamp, store);
      && (reply.BadRequest? <==> !HasMessage(message))
      && (reply.BadRequest? ==> reply.error == MessageRequired && after == store)
  {
  }

  /** Every accepted request ends in exactly one of two ways. Either the stream ends with
      `done` (carrying the conversation id and the record filed under it) then `[DONE]`,
      neither appearing earlier, and the store gains that record; or the stream ends with an
      error event, holds no `done` and no `[DONE]` anywhere, and the store is unchanged. */
  lemma OutcomeExclusive(env: Env, message: Option<string>, requested: Option<string>, generated: string,
                         timestamp: string, store: map<string, Record>)
    requires HasMessage(message)
    ensures var (reply, after) := ChatResponse(env, message, requested, generated, timestamp, store);
      var id := ConversationId(requested, generated);
      && reply.EventStream?
      && var evs := reply.events;
         |evs| > 0 &&
         if evs[|evs| - 1] == EndOfStream then
           && |evs| >= 2 && evs[|evs| - 2].DoneEvent? && evs[|evs| - 2].conversationId == id
           && after == store[id := evs[|evs| - 2].record]
           && (forall e :: e in evs[..|evs| - 2] ==> !Terminal(e))
         else
           && evs[|evs| - 1].ErrorEvent?
           && after == store
           && (forall e :: e in evs ==> !Terminal(e))
  {
    var init := State(Seed(message.value), [], [], []);
    RunExtends(env, init, DefaultMaxIterations);
    var fin := Session(env, message.value).0;
    assert fin.events[|init.events|..] == fin.events;
    var reply := ChatResponse(env, message, requested, generated, timestamp, store).0;
    match Session(env, message.value).1
    case Success(answer) =>
      assert reply.events[..|reply.events| - 2] == fin.events;
    case Failure(e) =>
      assert forall x :: x in reply.events ==> x in fin.events || x == ErrorEvent(e);
  }

  /** What a successful request files: the record under the conversation id holds the whole
      history, which starts with the seed and ends with the history sent to the last turn plus
      the answer (when non-empty); the answer is that last turn's text, spelled by its
      content events at the end of the stream before `done`; every other record is kept. */
  lemma SuccessFilesTheAnswer(env: Env, message: Option<string>, requested: Option<string>, generated: string,
                              timestamp: string, store: map<string, Record>)
    requires HasMessage(message) && Session(env, message.value).1.Success?
    ensures var after := ChatResponse(env, message, requested, generated, timestamp, store).1;
      var id, fin, answer := ConversationId(requested, generated), Session(env, message.value).0, Session(env, message.value).1.value;
      && id in after
      && after[id].id == id && after[id].finalAnswer == answer
      && after[id].messages == fin.messages && after[id].toolCalls == fin.toolCalls
      && Seed(message.value) <= after[id].messages
      && AnsweredBy(env, fin, answer)
      && (forall k :: k in store && k != id ==> k in after && after[k] == store[k])
      && var turn := env.upstream(fin.requests[|fin.requests| - 1]);
         StreamedText(ContentEvents(turn.chunks, Consumed(turn))) == answer
  {
    var init := State(Seed(message.value), [], [], []);
    RunExtends(env, init, DefaultMaxIterations);
    RunSuccess(env, init, DefaultMaxIterations);
    var fin := Session(env, message.value).0;
    CompletedTurnSpellsAnswer(env.upstream(fin.requests[|fin.requests| - 1]));
  }

  /** An accepted request that fails reports the iteration error, the hole error, or the
      model service's fault on the last turn opened. */
  lemma FailureReportsCause(env: Env, message: Option<string>, requested: Option<string>, generated: string,
                            timestamp: string, store: map<string, Record>)
    requires HasMessage(message) && Session(env, message.value).1.Failure?
    ensures var reply := ChatResponse(env, message, requested, generated, timestamp, store).0;
      var fin, e := Session(env, message.value).0, Session(env, message.value).1.error;
      && reply == EventStream(fin.events + [ErrorEvent(e)])
      && (e == MaxIterationsError || e == HoleError || FaultedBy(env, fin, e))
  {
    RunFailure(env, State(Seed(message.value), [], [], []), DefaultMaxIterations);
  }

  /** A model service that always asks for tools is cut off after exactly ten turns; the
      stream ends with the iteration error, and nothing is filed. */
  lemma RunawayNeverFiles(env: Env, message: Option<string>, requested: Option<string>, generated: string,
                          timestamp: string, store: map<string, Record>)
    requires HasMessage(message) && AlwaysCallsTools(env)
    ensures var (reply, after) := ChatResponse(env, message, requested, generated, timestamp, store);
      && |Session(env, message.value).0.requests| == DefaultMaxIterations
      && reply == EventStream(Session(env, message.value).0.events + [ErrorEvent(MaxIterationsError)])
      && after == store
  {
    RunawayExhausts(env, State(Seed(message.value), [], [], []), DefaultMaxIterations);
  }

  /** `responseStore`: the finished conversations by id. */
  class ResponseStore {
    var records: map<string, Record>

    constructor ()
      ensures records == map[]
    {
      records := map[];
    }

    /** `responseStore.set(id, record)`: files the record, replacing any earlier one. */
    method Set(id: string, rec: Record)
      modifies this
      ensures records == old(records)[id := rec]
    {
      records := records[id := rec];
    }

    /** `responseStore.get(id)`. */
    method Get(id: string) returns (r: Option<Record>)
      ensures id in records ==> r == Some(records[id])
      ensures id !in records ==> r == None
    {
      if id in records {
        r := Some(records[id]);
      } else {
        r := None;
      }
    }
  }

  /** `POST /api/chat`: validates the message, runs the loop on a fresh session, then files
      the record and writes `done` and `[DONE]`, or writes the error. */
  method PostChat(store: ResponseStore, env: Env, message: Option<string>, requested: Option<string>,
                  generated: string, timestamp: string) returns (reply: ChatReply)
    modifies store
    ensures (reply, store.records) == ChatResponse(env, message, requested, generated, timestamp, old(store.records))
  {
    if message.None? || message.value == "" {
      return BadRequest(MessageRequired);
    }
    var id := if requested.Some? && requested.value != "" then requested.value else generated;
    var session := new ChatSession(Seed(message.value));
    var r := session.StreamWithTools(env, DefaultMaxIterations);
    ghost var fin := session.Snapshot();
    assert (fin, r) == Session(env, message.value);
    match r {
      case Success(answer) =>
        var parsed := match env.parse(answer) case Success(v) => v case Failure(_) => Null;
        var rec := Record(id, session.messages, session.toolCalls, answer, parsed, timestamp);
        assert rec == RecordOf(env, id, fin, answer, timestamp);
        store.Set(id, rec);
        session.Emit(DoneEvent(id, rec));
        session.Emit(EndOfStream);
        reply := EventStream(session.events);
        assert session.events == fin.events + [DoneEvent(id, rec), EndOfStream];
      case Failure(e) =>
        session.Emit(ErrorEvent(e));
        reply := EventStream(session.events);
    }
  }

  /** `GET /api/conversation/:id`: the stored record, or a 404. */
  method GetConversation(store: ResponseStore, id: string) returns (r: Lookup)
    ensures id in store.records ==> r == Found(store.records[id])
    ensures id !in store.records ==> r == NotFound(ConversationNotFound)
  {
    var found := store.Get(id);
    if found.None? {
      return NotFound(ConversationNotFound);
    }
    return Found(found.value);
  }
}
