// The ReAct turn engine (agent_runtime/graphs/react.py): one bounded agent turn that drives an
// LLM, gates and runs tool calls, grows a message log and yields events.
//
// `Play` is the specification of a turn as a function of the proxies' behaviour; `RunReact` is the
// loop as the source writes it, proved to compute `Play`. ReactTheorems.dfy states what a turn promises.
module React {
  import opened Common

  // ----- What the outside world can say -----

  // `arguments` of a call: missing or empty, an object, text still to be parsed, or something else,
  // which `json.loads` does not take and nobody catches.
  datatype RawArgs = Absent | Object(value: Json) | Text(text: string) | Unparsable

  // One entry of `tool_calls` in an LLM reply.
  datatype RawCall = RawCall(id: Option<string>, name: Option<string>, args: RawArgs) {
    function Name(): string { name.GetOr("") }
  }

  // A call after its arguments were parsed.
  datatype Call = Call(id: Option<string>, name: string, args: Json)

  datatype Choice = Choice(content: string, calls: seq<RawCall>)

  datatype ChatReply =
    | ChatFailed(message: string)
    | ChatReply(tokensIn: int, tokensOut: int, choices: seq<Choice>)

  // A streamed reply: its chunks (each a sequence of deltas), and the exception that ended it, if any.
  datatype StreamReply = StreamReply(chunks: seq<seq<Choice>>, failure: Option<string>)

  datatype Descriptor = Descriptor(id: string, name: string, scopes: seq<string>, enabled: bool)

  datatype PolicyQuery = PolicyQuery(call: Call, toolId: string, scopes: seq<string>, args: Option<Json>)

  datatype Decision = Decision(allow: bool, reason: Option<string>)

  // `error` is None when the reply has no such key.
  datatype ToolReply = ToolReply(ok: bool, result: Json, error: Option<Json>)

  // What a proxy call came to; Raised is an exception nobody catches inside the turn.
  datatype Outcome<+T> = Returned(value: T) | Raised

  datatype Message =
    | SystemMsg(content: string)
    | HistoryMsg(role: string, content: string)
    | UserMsg(content: string)
    | AssistantMsg(content: string, calls: seq<RawCall>)
    | ToolMsg(callId: Option<string>, name: string, content: string)

  // The proxies. Each answer may depend on how many calls came before, so every adaptive or
  // stateful service is covered by some value of this type.
  datatype Proxies = Proxies(
    search: Outcome<seq<Json>>,
    listTools: Outcome<seq<Descriptor>>,
    stream: (nat, seq<Message>) -> StreamReply,
    chat: (nat, seq<Message>) -> ChatReply,
    policy: (nat, PolicyQuery) -> Outcome<Decision>,
    invoke: (nat, Call) -> Outcome<ToolReply>,
    render: seq<Json> -> string,   // the context message built from the retrieved chunks
    dumps: Json -> string,
    loads: string -> Option<Json>)

  datatype Turn = Turn(
    systemPrompt: string,
    toolIds: seq<string>,
    rag: bool,
    history: seq<Message>,
    userMessage: string,
    maxIterations: int,
    gated: bool,       // opa_url is set
    canStream: bool)   // the LLM proxy has chat_stream

  // ----- What the turn shows -----

  datatype Event =
    | Citations(hits: seq<Json>)
    | Step
    | Delta(text: string)
    | Thoughts(text: string, iteration: nat)
    | ToolCall(call: Call)
    | ToolResult(id: Option<string>, name: string, ok: bool, result: Json, error: Json, denied: bool)
    | Final(content: string, iterations: nat, tokensIn: int, tokensOut: int, citations: seq<Json>)
    | Error(message: string)

  datatype Prompt = Prompt(streamed: bool, messages: seq<Message>)

  datatype Verdict = Verdict(query: PolicyQuery, decision: Decision)

  // The local variables of a turn, with a record of every proxy call made so far.
  datatype State = State(
    messages: seq<Message>,
    events: seq<Event>,
    iterations: nat,
    totalIn: int,
    totalOut: int,
    prompts: seq<Prompt>,
    streams: seq<StreamReply>,
    chats: seq<ChatReply>,
    verdicts: seq<Verdict>,
    invoked: seq<Call>)
  {
    function Emit(e: Event): State { this.(events := events + [e]) }
    function Say(m: Message): State { this.(messages := messages + [m]) }
  }

  // Going on, ended by a `return`, or left by an uncaught exception.
  datatype Flow = Going(s: State) | Stopped(s: State) | Escaped(s: State)

  // ----- Specification -----

  function NoChoices(): string { "no choices returned" }

  function LimitHit(t: Turn): string { "hit max_iterations=" + Decimal(t.maxIterations) }

  function Prefix(w: Proxies, t: Turn, hits: seq<Json>): seq<Message> {
    (if t.systemPrompt != "" then [SystemMsg(t.systemPrompt)] else [])
    + (if hits != [] then [SystemMsg(w.render(hits))] else [])
    + t.history
    + [UserMsg(t.userMessage)]
  }

  function Wanted(t: Turn, all: seq<Descriptor>): seq<Descriptor> {
    if all == [] then []
    else
      var d := all[|all| - 1];
      Wanted(t, all[..|all| - 1]) + if d.id in t.toolIds && d.enabled then [d] else []
  }

  // The descriptor a name resolves to: the last of that name.
  function Lookup(tools: seq<Descriptor>, name: string): Option<Descriptor> {
    if tools == [] then None
    else if tools[|tools| - 1].name == name then Some(tools[|tools| - 1])
    else Lookup(tools[..|tools| - 1], name)
  }

  function Parse(w: Proxies, raw: RawCall): Call
    requires !raw.args.Unparsable?
  {
    var args := match raw.args
      case Object(v) => if v != JDict([]) then v else w.loads("{}").GetOr(JDict([]))
      case Text(s) => w.loads(if s != "" then s else "{}").GetOr(JDict([]))
      case Absent => w.loads("{}").GetOr(JDict([]));
    Call(raw.id, raw.Name(), args)
  }

  function QueryFor(tools: seq<Descriptor>, call: Call): PolicyQuery {
    var d := Lookup(tools, call.name).GetOr(Descriptor("", "", [], true));
    PolicyQuery(call, d.id, d.scopes, if call.args.JDict? then Some(call.args) else None)
  }

  function Denial(w: Proxies, call: Call, d: Decision): (Event, Message)
    requires !d.allow
  {
    var reason := match d.reason case Some(r) => JStr(r) case None => JNull;
    var shown := if d.reason.GetOr("") != "" then d.reason.value else "no rule";
    (ToolResult(call.id, call.name, false, JNull, JStr("policy denied: " + shown), true),
     ToolMsg(call.id, call.name, w.dumps(JDict([("error", JStr("policy_denied")), ("reason", reason)]))))
  }

  function Observation(w: Proxies, call: Call, r: ToolReply): (Event, Message) {
    var body := if r.ok then r.result else JDict([("error", r.error.GetOr(JStr("tool failed")))]);
    (ToolResult(call.id, call.name, r.ok, r.result, r.error.GetOr(JNull), false),
     ToolMsg(call.id, call.name, Take(w.dumps(body), 8000)))
  }

  // One tool call: parse it, announce it, ask the policy if there is one, run it if allowed.
  function DoCall(w: Proxies, t: Turn, tools: seq<Descriptor>, raw: RawCall, s: State): (f: Flow)
    ensures !f.Stopped? && f.s.iterations == s.iterations
  {
    if raw.args.Unparsable? then Escaped(s) else DoParsed(w, t, tools, Parse(w, raw), s)
  }

  function DoParsed(w: Proxies, t: Turn, tools: seq<Descriptor>, call: Call, s: State): (f: Flow)
    ensures !f.Stopped? && f.s.iterations == s.iterations
  {
    var s1 := s.Emit(ToolCall(call));
    if t.gated then
      var query := QueryFor(tools, call);
      match w.policy(|s1.verdicts|, query)
      case Raised => Escaped(s1)
      case Returned(d) =>
        var s2 := s1.(verdicts := s1.verdicts + [Verdict(query, d)]);
        if d.allow then DoInvoke(w, call, s2)
        else
          var (ev, msg) := Denial(w, call, d);
          Going(s2.Emit(ev).Say(msg))
    else
      DoInvoke(w, call, s1)
  }

  function DoInvoke(w: Proxies, call: Call, s: State): (f: Flow)
    ensures !f.Stopped? && f.s.iterations == s.iterations
  {
    var s1 := s.(invoked := s.invoked + [call]);
    match w.invoke(|s.invoked|, call)
    case Raised => Escaped(s1)
    case Returned(r) =>
      var (ev, msg) := Observation(w, call, r);
      Going(s1.Emit(ev).Say(msg))
  }

  function DoCalls(w: Proxies, t: Turn, tools: seq<Descriptor>, calls: seq<RawCall>, s: State): (f: Flow)
    ensures !f.Stopped? && f.s.iterations == s.iterations
  {
    if calls == [] then Going(s)
    else
      match DoCall(w, t, tools, calls[0], s)
      case Going(s1) => DoCalls(w, t, tools, calls[1..], s1)
      case other => other
  }

  // The delta events, the text and the tool calls of a streamed reply, delta by delta.
  function Deltas(choices: seq<Choice>): seq<Event> {
    if choices == [] then []
    else
      var c := choices[|choices| - 1];
      Deltas(choices[..|choices| - 1]) + if c.content != "" then [Delta(c.content)] else []
  }

  function JoinedText(choices: seq<Choice>): string {
    if choices == [] then "" else JoinedText(choices[..|choices| - 1]) + choices[|choices| - 1].content
  }

  function JoinedCalls(choices: seq<Choice>): seq<RawCall> {
    if choices == [] then [] else JoinedCalls(choices[..|choices| - 1]) + choices[|choices| - 1].calls
  }

  function StreamText(r: StreamReply): string { JoinedText(Concat(r.chunks)) }

  function StreamCalls(r: StreamReply): seq<RawCall> { JoinedCalls(Concat(r.chunks)) }

  // A streamed reply after which the source asks again without streaming.
  predicate FallsBack(r: StreamReply) {
    r.failure.None? && (r.chunks == [] || StreamCalls(r) != [])
  }

  predicate Streaming(t: Turn, tools: seq<Descriptor>) {
    tools == [] && t.canStream
  }

  function DoStream(w: Proxies, hits: seq<Json>, s: State): (f: Flow)
    ensures !f.Escaped? && f.s.iterations == s.iterations
  {
    var r := w.stream(|s.streams|, s.messages);
    var s1 := s.(prompts := s.prompts + [Prompt(true, s.messages)], streams := s.streams + [r],
                 events := s.events + Deltas(Concat(r.chunks)));
    if r.failure.Some? then Stopped(s1.Emit(Error(Take(r.failure.value, 500))))
    else if FallsBack(r) then Going(s1)
    else Stopped(s1.Emit(Final(StreamText(r), s.iterations, s.totalIn, s.totalOut, hits)))
  }

  function DoChat(w: Proxies, t: Turn, tools: seq<Descriptor>, hits: seq<Json>, s: State): (f: Flow)
    ensures f.s.iterations == s.iterations
  {
    var r := w.chat(|s.chats|, s.messages);
    var s1 := s.(prompts := s.prompts + [Prompt(false, s.messages)], chats := s.chats + [r]);
    match r
    case ChatFailed(message) => Stopped(s1.Emit(Error(Take(message, 500))))
    case ChatReply(tokensIn, tokensOut, choices) =>
      var s2 := s1.(totalIn := s.totalIn + tokensIn, totalOut := s.totalOut + tokensOut);
      if choices == [] then Stopped(s2.Emit(Error(NoChoices())))
      else
        var msg := choices[0];
        if msg.calls == [] then
          var s3 := if msg.content != "" then s2.Emit(Delta(msg.content)) else s2;
          Stopped(s3.Emit(Final(msg.content, s3.iterations, s3.totalIn, s3.totalOut, hits)))
        else
          var thought := Strip(msg.content);
          var s3 := if thought != "" then s2.Emit(Thoughts(thought, s2.iterations)) else s2;
          DoCalls(w, t, tools, msg.calls, s3.Say(AssistantMsg(msg.content, msg.calls)))
  }

  function DoRound(w: Proxies, t: Turn, tools: seq<Descriptor>, hits: seq<Json>, s: State): (f: Flow)
    ensures f.s.iterations == s.iterations + 1
  {
    var s1 := s.(iterations := s.iterations + 1);
    if Streaming(t, tools) then
      match DoStream(w, hits, s1)
      case Going(s2) => DoChat(w, t, tools, hits, s2)
      case other => other
    else
      DoChat(w, t, tools, hits, s1)
  }

  function DoRounds(w: Proxies, t: Turn, tools: seq<Descriptor>, hits: seq<Json>, s: State): (f: Flow)
    ensures !f.Going?
    decreases t.maxIterations - s.iterations
  {
    if s.iterations >= t.maxIterations then
      Stopped(s.Emit(Error(LimitHit(t))))
    else
      match DoRound(w, t, tools, hits, s)
      case Going(s1) => DoRounds(w, t, tools, hits, s1)
      case other => other
  }

  function Opening(hits: seq<Json>): seq<Event> {
    (if hits != [] then [Citations(hits)] else []) + [Step]
  }

  function Start(messages: seq<Message>, events: seq<Event>): State {
    State(messages, events, 0, 0, 0, [], [], [], [], [])
  }

  // The hits and tools the turn works with, when the preparation raises nothing.
  function Hits(w: Proxies, t: Turn): Outcome<seq<Json>> {
    if t.rag then w.search else Returned([])
  }

  function Tools(w: Proxies, t: Turn): Outcome<seq<Descriptor>> {
    if t.toolIds == [] then Returned([])
    else match w.listTools
      case Returned(all) => Returned(Wanted(t, all))
      case Raised => Raised
  }

  // A whole turn.
  function Play(w: Proxies, t: Turn): (f: Flow)
    ensures !f.Going?
  {
    match Hits(w, t)
    case Raised => Escaped(Start([], []))
    case Returned(hits) =>
      match Tools(w, t)
      case Raised => Escaped(Start([], Opening(hits)))
      case Returned(tools) =>
        DoRounds(w, t, tools, hits, Start(Prefix(w, t, hits), Opening(hits)))
  }

  // ----- The turn as the source runs it -----

  lemma StreamSnoc(a: seq<Choice>, c: Choice)
    ensures Deltas(a + [c]) == Deltas(a) + if c.content != "" then [Delta(c.content)] else []
    ensures JoinedText(a + [c]) == JoinedText(a) + c.content
    ensures JoinedCalls(a + [c]) == JoinedCalls(a) + c.calls
  {
    assert (a + [c])[..|a|] == a;
  }

  // The inner loop over the deltas of one chunk, after the deltas `seen`.
  method ConsumeChunk(ghost seen: seq<Choice>, chunk: seq<Choice>, events0: seq<Event>, text0: string,
                      calls0: seq<RawCall>)
    returns (events: seq<Event>, text: string, calls: seq<RawCall>)
    requires events0 == Deltas(seen) && text0 == JoinedText(seen) && calls0 == JoinedCalls(seen)
    ensures events == Deltas(seen + chunk) && text == JoinedText(seen + chunk) && calls == JoinedCalls(seen + chunk)
  {
    events, text, calls := events0, text0, calls0;
    assert seen + chunk[..0] == seen;
    for j := 0 to |chunk|
      invariant events == Deltas(seen + chunk[..j])
      invariant text == JoinedText(seen + chunk[..j])
      invariant calls == JoinedCalls(seen + chunk[..j])
    {
      var c := chunk[j];
      StreamSnoc(seen + chunk[..j], c);
      assert seen + chunk[..j + 1] == seen + chunk[..j] + [c];
      if c.calls != [] {
        calls := calls + c.calls;
      }
      if c.content != "" {
        text := text + c.content;
        events := events + [Delta(c.content)];
      }
    }
    assert seen + chunk[..|chunk|] == seen + chunk;
  }

  // The `async for` over the chunks of a streamed reply.
  method ConsumeStream(r: StreamReply) returns (events: seq<Event>, text: string, calls: seq<RawCall>, used: bool)
    ensures events == Deltas(Concat(r.chunks)) && text == StreamText(r)
    ensures calls == StreamCalls(r) && used == (r.chunks != [])
  {
    events, text, calls, used := [], "", [], false;
    for i := 0 to |r.chunks|
      invariant used == (i > 0) && events == Deltas(Concat(r.chunks[..i]))
      invariant text == JoinedText(Concat(r.chunks[..i])) && calls == JoinedCalls(Concat(r.chunks[..i]))
    {
      used := true;
      assert r.chunks[..i + 1] == r.chunks[..i] + [r.chunks[i]];
      ConcatSnoc(r.chunks[..i], r.chunks[i]);
      events, text, calls := ConsumeChunk(Concat(r.chunks[..i]), r.chunks[i], events, text, calls);
    }
    assert r.chunks[..|r.chunks|] == r.chunks;
  }

  // The `for call in tool_calls` loop; `raised` reports an exception that leaves the turn.
  method Dispatch(w: Proxies, t: Turn, tools: seq<Descriptor>, calls: seq<RawCall>, s0: State)
    returns (s: State, raised: bool)
    ensures DoCalls(w, t, tools, calls, s0) == if raised then Escaped(s) else Going(s)
  {
    s, raised := s0, false;
    for i := 0 to |calls|
      invariant !raised && DoCalls(w, t, tools, calls, s0) == DoCalls(w, t, tools, calls[i..], s)
    {
      ghost var rest := calls[i..];
      assert rest[0] == calls[i] && rest[1..] == calls[i + 1..];
      ghost var before := s;
      if calls[i].args.Unparsable? {
        return s, true;
      }
      var call := Parse(w, calls[i]);
      s := s.Emit(ToolCall(call));
      var allowed := true;
      if t.gated {
        var query := QueryFor(tools, call);
        var answer := w.policy(|s.verdicts|, query);
        if answer.Raised? {
          return s, true;
        }
        s := s.(verdicts := s.verdicts + [Verdict(query, answer.value)]);
        if !answer.value.allow {
          var (ev, msg) := Denial(w, call, answer.value);
          s := s.Emit(ev);
          s := s.Say(msg);
          allowed := false;
        }
      }
      if allowed {
        var reply := w.invoke(|s.invoked|, call);
        s := s.(invoked := s.invoked + [call]);
        if reply.Raised? {
          return s, true;
        }
        var (ev, msg) := Observation(w, call, reply.value);
        s := s.Emit(ev);
        s := s.Say(msg);
      }
      assert DoCall(w, t, tools, calls[i], before) == Going(s);
    }
    assert calls[|calls|..] == [];
  }

  // The streaming request of a round.
  method AskStreaming(w: Proxies, hits: seq<Json>, s0: State) returns (s: State, stop: bool)
    ensures DoStream(w, hits, s0) == if stop then Stopped(s) else Going(s)
  {
    var r := w.stream(|s0.streams|, s0.messages);
    s := s0.(prompts := s0.prompts + [Prompt(true, s0.messages)], streams := s0.streams + [r]);
    var deltas, text, calls, used := ConsumeStream(r);
    s := s.(events := s.events + deltas);
    if r.failure.Some? {
      return s.Emit(Error(Take(r.failure.value, 500))), true;
    }
    if used && calls == [] {
      return s.Emit(Final(text, s.iterations, s.totalIn, s.totalOut, hits)), true;
    }
    return s, false;
  }

  // The rest of a round: the plain request, then the final answer or the tool calls.
  method AskOnce(w: Proxies, t: Turn, tools: seq<Descriptor>, hits: seq<Json>, s0: State) returns (f: Flow)
    ensures f == DoChat(w, t, tools, hits, s0)
  {
    hide DoCalls, NoChoices, Strip, Take;
    var resp := w.chat(|s0.chats|, s0.messages);
    var s := s0.(prompts := s0.prompts + [Prompt(false, s0.messages)], chats := s0.chats + [resp]);
    if resp.ChatFailed? {
      return Stopped(s.Emit(Error(Take(resp.message, 500))));
    }
    s := s.(totalIn := s.totalIn + resp.tokensIn, totalOut := s.totalOut + resp.tokensOut);
    if resp.choices == [] {
      return Stopped(s.Emit(Error(NoChoices())));
    }
    var msg := resp.choices[0];
    if msg.calls == [] {
      if msg.content != "" {
        s := s.Emit(Delta(msg.content));
      }
      return Stopped(s.Emit(Final(msg.content, s.iterations, s.totalIn, s.totalOut, hits)));
    }
    var thought := Strip(msg.content);
    if thought != "" {
      s := s.Emit(Thoughts(thought, s.iterations));
    }
    s := s.Say(AssistantMsg(msg.content, msg.calls));
    var left: bool;
    s, left := Dispatch(w, t, tools, msg.calls, s);
    return if left then Escaped(s) else Going(s);
  }

  // run_react. The result's `events` are what the generator yielded.
  method RunReact(w: Proxies, t: Turn) returns (f: Flow)
    ensures f == Play(w, t)
  {
    hide DoStream, DoChat, LimitHit;
    var s := Start([], []);
    var hits: seq<Json> := [];
    if t.rag {
      if w.search.Raised? {
        return Escaped(s);
      }
      hits := w.search.value;
      if hits != [] {
        s := s.Emit(Citations(hits));
      }
    }
    s := s.Emit(Step);
    var tools: seq<Descriptor> := [];
    if t.toolIds != [] {
      if w.listTools.Raised? {
        return Escaped(s);
      }
      tools := Wanted(t, w.listTools.value);
    }
    s := s.(messages := Prefix(w, t, hits));
    assert s == Start(Prefix(w, t, hits), Opening(hits));
    ghost var start := s;
    while s.iterations < t.maxIterations
      invariant DoRounds(w, t, tools, hits, start) == DoRounds(w, t, tools, hits, s)
      decreases t.maxIterations - s.iterations
    {
      ghost var head := s;
      s := s.(iterations := s.iterations + 1);
      if tools == [] && t.canStream {
        var stop: bool;
        s, stop := AskStreaming(w, hits, s);
        if stop {
          assert DoRound(w, t, tools, hits, head) == Stopped(s);
          return Stopped(s);
        }
      }
      f := AskOnce(w, t, tools, hits, s);
      assert DoRound(w, t, tools, hits, head) == f;
      if !f.Going? {
        return f;
      }
      s := f.s;
    }
    return Stopped(s.Emit(Error(LimitHit(t))));
  }
}
