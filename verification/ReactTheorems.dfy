// What every turn of the ReAct engine promises, for all behaviours of the LLM, the tools, the
// policy service and the knowledge service.
module ReactTheorems {
  import opened Common
  import opened React

  // ----- The message log: an assistant message with calls is answered call by call -----

  // The calls still to be answered after `log`; None when some message is out of place.
  function Pending(log: seq<Message>): Option<seq<RawCall>> {
    if log == [] then Some([])
    else
      match Pending(log[..|log| - 1])
      case None => None
      case Some(open) =>
        match log[|log| - 1]
        case AssistantMsg(_, calls) => if open == [] && calls != [] then Some(calls) else None
        case ToolMsg(id, name, _) =>
          if open != [] && open[0].id == id && open[0].Name() == name then Some(open[1..]) else None
        case _ => None
  }

  // A log that is a prefix followed by complete blocks only.
  predicate Complete(prefix: seq<Message>, log: seq<Message>) {
    prefix <= log && Pending(log[|prefix|..]) == Some([])
  }

  // ----- The event grammar -----

  datatype Phase = Begin | Cited | Open | Thinking | Called(id: Option<string>, name: string) | Observed | Done | Bad

  function Next(p: Phase, e: Event): Phase {
    match e
    case Citations(_) => if p == Begin then Cited else Bad
    case Step => if p == Begin || p == Cited then Open else Bad
    case Delta(_) => if p == Open || p == Observed then Open else Bad
    case Thoughts(_, _) => if p == Open || p == Observed then Thinking else Bad
    case ToolCall(call) => if p == Open || p == Thinking || p == Observed then Called(call.id, call.name) else Bad
    case ToolResult(id, name, _, _, _, _) => if p == Called(id, name) then Observed else Bad
    case Final(_, _, _, _, _) => if p == Open || p == Observed then Done else Bad
    case Error(_) => if p == Open || p == Observed then Done else Bad
  }

  function Scan(events: seq<Event>): Phase {
    if events == [] then Begin else Next(Scan(events[..|events| - 1]), events[|events| - 1])
  }

  // ----- What a trace and the records of a turn add up to -----

  function CallsOf(events: seq<Event>): seq<Call> {
    if events == [] then []
    else
      var e := events[|events| - 1];
      CallsOf(events[..|events| - 1]) + if e.ToolCall? then [e.call] else []
  }

  // For each tool result in order, whether it reports a denial.
  function Denials(events: seq<Event>): seq<bool> {
    if events == [] then []
    else
      var e := events[|events| - 1];
      Denials(events[..|events| - 1]) + if e.ToolResult? then [e.denied] else []
  }

  function DeltaText(events: seq<Event>): string {
    if events == [] then ""
    else
      var e := events[|events| - 1];
      DeltaText(events[..|events| - 1]) + if e.Delta? then e.text else ""
  }

  function CitedHits(events: seq<Event>): seq<Json> {
    if events == [] then []
    else
      var e := events[|events| - 1];
      CitedHits(events[..|events| - 1]) + if e.Citations? then e.hits else []
  }

  function Queried(verdicts: seq<Verdict>): seq<Call> {
    if verdicts == [] then [] else Queried(verdicts[..|verdicts| - 1]) + [verdicts[|verdicts| - 1].query.call]
  }

  function Allowed(verdicts: seq<Verdict>): seq<Call> {
    if verdicts == [] then []
    else
      var v := verdicts[|verdicts| - 1];
      Allowed(verdicts[..|verdicts| - 1]) + if v.decision.allow then [v.query.call] else []
  }

  function Refusals(verdicts: seq<Verdict>): seq<bool> {
    if verdicts == [] then [] else Refusals(verdicts[..|verdicts| - 1]) + [!verdicts[|verdicts| - 1].decision.allow]
  }

  function SumIn(chats: seq<ChatReply>): int {
    if chats == [] then 0
    else
      var r := chats[|chats| - 1];
      SumIn(chats[..|chats| - 1]) + if r.ChatReply? then r.tokensIn else 0
  }

  function SumOut(chats: seq<ChatReply>): int {
    if chats == [] then 0
    else
      var r := chats[|chats| - 1];
      SumOut(chats[..|chats| - 1]) + if r.ChatReply? then r.tokensOut else 0
  }

  // A streamed reply whose text is not the answer: it failed, or asked for tools.
  predicate Drops(r: StreamReply) { r.failure.Some? || FallsBack(r) }

  // Streamed text shown to the user that is not the answer.
  function Discarded(streams: seq<StreamReply>): string {
    if streams == [] then ""
    else
      var r := streams[|streams| - 1];
      Discarded(streams[..|streams| - 1]) + if Drops(r) then StreamText(r) else ""
  }

  // The first requests of the rounds: the streaming ones if the turn streams, else the plain ones.
  function RoundsAsked(prompts: seq<Prompt>, streaming: bool): nat {
    if prompts == [] then 0
    else
      RoundsAsked(prompts[..|prompts| - 1], streaming)
      + if prompts[|prompts| - 1].streamed == streaming then 1 else 0
  }

  // ----- Invariants -----

  // Every call shown was put to the policy, and exactly the allowed ones were invoked, in order.
  predicate Gated(t: Turn, s: State) {
    if t.gated then
      Queried(s.verdicts) == CallsOf(s.events) && s.invoked == Allowed(s.verdicts)
      && Denials(s.events) == Refusals(s.verdicts)
    else
      s.verdicts == [] && s.invoked == CallsOf(s.events) && true !in Denials(s.events)
  }

  predicate PromptsComplete(prefix: seq<Message>, prompts: seq<Prompt>) {
    forall p <- prompts :: Complete(prefix, p.messages)
  }

  // What holds throughout a turn, with the calls of the current round still to be answered.
  predicate Sound(t: Turn, hits: seq<Json>, prefix: seq<Message>, s: State, open: seq<RawCall>) {
    && prefix <= s.messages && Pending(s.messages[|prefix|..]) == Some(open)
    && PromptsComplete(prefix, s.prompts)
    && Gated(t, s)
    && s.totalIn == SumIn(s.chats) && s.totalOut == SumOut(s.chats)
    && DeltaText(s.events) == Discarded(s.streams)
    && CitedHits(s.events) == hits
  }

  function Last(events: seq<Event>): Event {
    if events == [] then Step else events[|events| - 1]
  }

  predicate AtHead(p: Phase) { p == Open || p == Observed }

  // A final event tells the truth about its turn. The text shown is all that was streamed, and the answer.
  predicate Truthful(streaming: bool, hits: seq<Json>, s: State, e: Event) {
    && (e.Final? ==>
          && e.tokensIn == SumIn(s.chats) && e.tokensOut == SumOut(s.chats)
          && e.iterations == s.iterations == RoundsAsked(s.prompts, streaming)
          && e.citations == hits
          && DeltaText(s.events) == Discarded(s.streams) + e.content)
    && (e.Error? ==> DeltaText(s.events) == Discarded(s.streams))
  }

  // A turn that ended with `return`.
  predicate Ended(t: Turn, streaming: bool, hits: seq<Json>, prefix: seq<Message>, s: State) {
    && Scan(s.events) == Done
    && PromptsComplete(prefix, s.prompts)
    && Gated(t, s)
    && CitedHits(s.events) == hits
    && Truthful(streaming, hits, s, Last(s.events))
  }

  // A turn an uncaught exception cut short.
  predicate Cut(t: Turn, prefix: seq<Message>, s: State) {
    && Scan(s.events) != Done && Scan(s.events) != Bad
    && PromptsComplete(prefix, s.prompts)
    && (t.gated ==> s.invoked == Allowed(s.verdicts))
  }

  // ----- One more event, message or record -----

  lemma EventSnoc(es: seq<Event>, e: Event)
    ensures Scan(es + [e]) == Next(Scan(es), e)
    ensures CallsOf(es + [e]) == CallsOf(es) + if e.ToolCall? then [e.call] else []
    ensures Denials(es + [e]) == Denials(es) + if e.ToolResult? then [e.denied] else []
    ensures DeltaText(es + [e]) == DeltaText(es) + if e.Delta? then e.text else ""
    ensures CitedHits(es + [e]) == CitedHits(es) + if e.Citations? then e.hits else []
  {
    assert (es + [e])[..|es|] == es;
  }

  lemma MessageSnoc(prefix: seq<Message>, log: seq<Message>, m: Message)
    requires prefix <= log
    ensures prefix <= log + [m] && (log + [m])[|prefix|..] == log[|prefix|..] + [m]
    ensures Pending(log[|prefix|..] + [m])
      == match Pending(log[|prefix|..])
         case None => None
         case Some(open) =>
           match m
           case AssistantMsg(_, calls) => if open == [] && calls != [] then Some(calls) else None
           case ToolMsg(id, name, _) =>
             if open != [] && open[0].id == id && open[0].Name() == name then Some(open[1..]) else None
           case _ => None
  {
    var tail := log[|prefix|..];
    assert (tail + [m])[..|tail|] == tail;
  }

  lemma VerdictSnoc(vs: seq<Verdict>, v: Verdict)
    ensures Queried(vs + [v]) == Queried(vs) + [v.query.call]
    ensures Allowed(vs + [v]) == Allowed(vs) + if v.decision.allow then [v.query.call] else []
    ensures Refusals(vs + [v]) == Refusals(vs) + [!v.decision.allow]
  {
    assert (vs + [v])[..|vs|] == vs;
  }

  lemma RecordSnoc(s: State, p: Prompt, r: StreamReply, c: ChatReply, streaming: bool)
    ensures RoundsAsked(s.prompts + [p], streaming)
         == RoundsAsked(s.prompts, streaming) + if p.streamed == streaming then 1 else 0
    ensures Discarded(s.streams + [r]) == Discarded(s.streams) + if Drops(r) then StreamText(r) else ""
    ensures SumIn(s.chats + [c]) == SumIn(s.chats) + if c.ChatReply? then c.tokensIn else 0
    ensures SumOut(s.chats + [c]) == SumOut(s.chats) + if c.ChatReply? then c.tokensOut else 0
  {
    assert (s.prompts + [p])[..|s.prompts|] == s.prompts;
    assert (s.streams + [r])[..|s.streams|] == s.streams;
    assert (s.chats + [c])[..|s.chats|] == s.chats;
  }

  lemma {:induction false} DeltasRead(es: seq<Event>, choices: seq<Choice>)
    requires AtHead(Scan(es))
    ensures AtHead(Scan(es + Deltas(choices)))
    ensures CallsOf(es + Deltas(choices)) == CallsOf(es) && Denials(es + Deltas(choices)) == Denials(es)
    ensures DeltaText(es + Deltas(choices)) == DeltaText(es) + JoinedText(choices)
    ensures CitedHits(es + Deltas(choices)) == CitedHits(es)
  {
    hide Scan, CallsOf, Denials, DeltaText, CitedHits;
    if choices == [] {
      assert es + [] == es;
    } else {
      var c := choices[|choices| - 1];
      var before := choices[..|choices| - 1];
      DeltasRead(es, before);
      DeltasRead1(es, before, c);
      assert choices == before + [c];
    }
  }

  lemma DeltasRead1(es: seq<Event>, before: seq<Choice>, c: Choice)
    requires AtHead(Scan(es + Deltas(before)))
    ensures
      var es0 := es + Deltas(before);
      var es1 := es + Deltas(before + [c]);
      && AtHead(Scan(es1)) && CallsOf(es1) == CallsOf(es0) && Denials(es1) == Denials(es0)
      && DeltaText(es1) == DeltaText(es0) + c.content && CitedHits(es1) == CitedHits(es0)
    ensures JoinedText(before + [c]) == JoinedText(before) + c.content
  {
    StreamSnoc(before, c);
    hide Scan, CallsOf, Denials, DeltaText, CitedHits, Deltas, JoinedText;
    if c.content != "" {
      assert es + Deltas(before + [c]) == es + Deltas(before) + [Delta(c.content)];
      EventSnoc(es + Deltas(before), Delta(c.content));
    } else {
      assert Deltas(before + [c]) == Deltas(before);
    }
  }

  // ----- Every step keeps the invariant -----

  lemma ResultKeeps(t: Turn, hits: seq<Json>, prefix: seq<Message>, raw: RawCall, open: seq<RawCall>,
                    s: State, s1: State, ev: Event, msg: Message)
    requires prefix <= s.messages && Pending(s.messages[|prefix|..]) == Some([raw] + open)
    requires Scan(s.events) == Called(raw.id, raw.Name())
    requires PromptsComplete(prefix, s.prompts) && s.totalIn == SumIn(s.chats) && s.totalOut == SumOut(s.chats)
    requires DeltaText(s.events) == Discarded(s.streams) && CitedHits(s.events) == hits
    requires ev.ToolResult? && ev.id == raw.id && ev.name == raw.Name()
    requires msg.ToolMsg? && msg.callId == raw.id && msg.name == raw.Name()
    requires s1 == s.Emit(ev).Say(msg) && Gated(t, s1)
    ensures Sound(t, hits, prefix, s1, open) && Scan(s1.events) == Observed
  {
    EventSnoc(s.events, ev);
    MessageSnoc(prefix, s.messages, msg);
  }

  lemma CallKeeps(w: Proxies, t: Turn, tools: seq<Descriptor>, hits: seq<Json>, prefix: seq<Message>,
                  raw: RawCall, open: seq<RawCall>, s: State)
    requires Sound(t, hits, prefix, s, [raw] + open)
    requires AtHead(Scan(s.events)) || Scan(s.events) == Thinking
    ensures
      var f := DoCall(w, t, tools, raw, s);
      if f.Going? then Sound(t, hits, prefix, f.s, open) && Scan(f.s.events) == Observed else Cut(t, prefix, f.s)
  {
    hide Scan, CallsOf, Denials, DeltaText, CitedHits, Pending, Queried, Allowed, Refusals;
    if raw.args.Unparsable? {
      return;
    }
    var call := Parse(w, raw);
    var s1 := s.Emit(ToolCall(call));
    EventSnoc(s.events, ToolCall(call));
    var s2 := s1;
    if t.gated {
      var query := QueryFor(tools, call);
      var answer := w.policy(|s1.verdicts|, query);
      if answer.Raised? { return; }
      s2 := s1.(verdicts := s1.verdicts + [Verdict(query, answer.value)]);
      VerdictSnoc(s1.verdicts, Verdict(query, answer.value));
      if !answer.value.allow {
        var (ev, msg) := Denial(w, call, answer.value);
        EventSnoc(s2.events, ev);
        ResultKeeps(t, hits, prefix, raw, open, s2, s2.Emit(ev).Say(msg), ev, msg);
        return;
      }
    }
    var s3 := s2.(invoked := s2.invoked + [call]);
    var reply := w.invoke(|s2.invoked|, call);
    if reply.Returned? {
      var (ev, msg) := Observation(w, call, reply.value);
      EventSnoc(s3.events, ev);
      ResultKeeps(t, hits, prefix, raw, open, s3, s3.Emit(ev).Say(msg), ev, msg);
    }
  }

  lemma {:induction false} CallsKeep(w: Proxies, t: Turn, tools: seq<Descriptor>, hits: seq<Json>,
                                     prefix: seq<Message>, calls: seq<RawCall>, s: State)
    requires Sound(t, hits, prefix, s, calls)
    requires AtHead(Scan(s.events)) || (Scan(s.events) == Thinking && calls != [])
    ensures
      var f := DoCalls(w, t, tools, calls, s);
      if f.Going? then
        && Sound(t, hits, prefix, f.s, []) && AtHead(Scan(f.s.events))
        && f.s.prompts == s.prompts && f.s.streams == s.streams
      else Cut(t, prefix, f.s)
  {
    if calls != [] {
      assert calls == [calls[0]] + calls[1..];
      CallKeeps(w, t, tools, hits, prefix, calls[0], calls[1..], s);
      var f := DoCall(w, t, tools, calls[0], s);
      if f.Going? {
        CallsKeep(w, t, tools, hits, prefix, calls[1..], f.s);
      }
    }
  }

  // The last event of a turn.
  lemma FinishKeeps(t: Turn, streaming: bool, hits: seq<Json>, prefix: seq<Message>, s: State, e: Event)
    requires PromptsComplete(prefix, s.prompts) && Gated(t, s) && CitedHits(s.events) == hits && AtHead(Scan(s.events))
    requires (e.Error? || e.Final?) && Truthful(streaming, hits, s, e)
    ensures Ended(t, streaming, hits, prefix, s.Emit(e))
  {
    EventSnoc(s.events, e);
  }

  lemma ChatKeeps(w: Proxies, t: Turn, tools: seq<Descriptor>, hits: seq<Json>, prefix: seq<Message>,
                  streaming: bool, s: State)
    requires Sound(t, hits, prefix, s, []) && AtHead(Scan(s.events))
    requires RoundsAsked(s.prompts, streaming) + (if streaming then 0 else 1) == s.iterations
    ensures
      var f := DoChat(w, t, tools, hits, s);
      && (f.Going? ==> Sound(t, hits, prefix, f.s, []) && AtHead(Scan(f.s.events))
                       && RoundsAsked(f.s.prompts, streaming) == f.s.iterations)
      && (f.Stopped? ==> Ended(t, streaming, hits, prefix, f.s))
      && (f.Escaped? ==> Cut(t, prefix, f.s))
  {
    hide DoCalls, NoChoices, Scan, CallsOf, Denials, DeltaText, CitedHits, Pending, Queried, Allowed, Refusals;
    hide SumIn, SumOut, Discarded, RoundsAsked, Ended, Cut, Strip;
    var r := w.chat(|s.chats|, s.messages);
    RecordSnoc(s, Prompt(false, s.messages), StreamReply([], None), r, streaming);
    var s1 := s.(prompts := s.prompts + [Prompt(false, s.messages)], chats := s.chats + [r]);
    if r.ChatFailed? {
      FinishKeeps(t, streaming, hits, prefix, s1, Error(Take(r.message, 500)));
      return;
    }
    var s2 := s1.(totalIn := s.totalIn + r.tokensIn, totalOut := s.totalOut + r.tokensOut);
    if r.choices == [] {
      FinishKeeps(t, streaming, hits, prefix, s2, Error(NoChoices()));
      return;
    }
    var msg := r.choices[0];
    if msg.calls == [] {
      EventSnoc(s2.events, Delta(msg.content));
      var s3 := if msg.content != "" then s2.Emit(Delta(msg.content)) else s2;
      EventSnoc(s3.events, Final(msg.content, s3.iterations, s3.totalIn, s3.totalOut, hits));
      FinishKeeps(t, streaming, hits, prefix, s3, Final(msg.content, s3.iterations, s3.totalIn, s3.totalOut, hits));
    } else {
      ToolRoundKeeps(w, t, tools, hits, prefix, s2, msg);
    }
  }

  // A reply with tool calls: the optional thoughts, the assistant message, then the calls.
  lemma ToolRoundKeeps(w: Proxies, t: Turn, tools: seq<Descriptor>, hits: seq<Json>, prefix: seq<Message>, s: State,
                       msg: Choice)
    requires Sound(t, hits, prefix, s, []) && AtHead(Scan(s.events)) && msg.calls != []
    ensures
      var thought := Strip(msg.content);
      var s1 := if thought != "" then s.Emit(Thoughts(thought, s.iterations)) else s;
      var f := DoCalls(w, t, tools, msg.calls, s1.Say(AssistantMsg(msg.content, msg.calls)));
      if f.Going? then
        Sound(t, hits, prefix, f.s, []) && AtHead(Scan(f.s.events)) && f.s.prompts == s.prompts
      else Cut(t, prefix, f.s)
  {
    hide DoCalls, Scan, CallsOf, Denials, DeltaText, CitedHits, Pending, Queried, Allowed, Refusals, Strip;
    var thought := Strip(msg.content);
    EventSnoc(s.events, Thoughts(thought, s.iterations));
    var s1 := if thought != "" then s.Emit(Thoughts(thought, s.iterations)) else s;
    MessageSnoc(prefix, s1.messages, AssistantMsg(msg.content, msg.calls));
    CallsKeep(w, t, tools, hits, prefix, msg.calls, s1.Say(AssistantMsg(msg.content, msg.calls)));
  }

  lemma StreamKeeps(w: Proxies, t: Turn, hits: seq<Json>, prefix: seq<Message>, s: State)
    requires Sound(t, hits, prefix, s, []) && AtHead(Scan(s.events))
    requires RoundsAsked(s.prompts, true) + 1 == s.iterations
    ensures
      var f := DoStream(w, hits, s);
      && (f.Going? ==> Sound(t, hits, prefix, f.s, []) && AtHead(Scan(f.s.events))
                       && RoundsAsked(f.s.prompts, true) == f.s.iterations)
      && (f.Stopped? ==> Ended(t, true, hits, prefix, f.s))
  {
    hide Scan, CallsOf, Denials, DeltaText, CitedHits, Pending, Queried, Allowed, Refusals;
    hide SumIn, SumOut, Discarded, RoundsAsked, Ended, Deltas, JoinedText, JoinedCalls, Concat;
    var r := w.stream(|s.streams|, s.messages);
    RecordSnoc(s, Prompt(true, s.messages), r, ChatFailed(""), true);
    DeltasRead(s.events, Concat(r.chunks));
    var s1 := s.(prompts := s.prompts + [Prompt(true, s.messages)], streams := s.streams + [r],
                 events := s.events + Deltas(Concat(r.chunks)));
    if r.failure.Some? {
      FinishKeeps(t, true, hits, prefix, s1, Error(Take(r.failure.value, 500)));
    } else if !FallsBack(r) {
      var last := Final(StreamText(r), s.iterations, s.totalIn, s.totalOut, hits);
      EventSnoc(s1.events, last);
      FinishKeeps(t, true, hits, prefix, s1, last);
    }
  }

  lemma {:induction false} RoundsKeep(w: Proxies, t: Turn, tools: seq<Descriptor>, hits: seq<Json>,
                                      prefix: seq<Message>, s: State)
    requires Sound(t, hits, prefix, s, []) && AtHead(Scan(s.events))
    requires RoundsAsked(s.prompts, Streaming(t, tools)) == s.iterations
    ensures
      var f := DoRounds(w, t, tools, hits, s);
      && (f.Stopped? ==> Ended(t, Streaming(t, tools), hits, prefix, f.s)
                         && (Last(f.s.events).Final? ==> s.iterations < f.s.iterations <= t.maxIterations))
      && (f.Escaped? ==> Cut(t, prefix, f.s))
    decreases t.maxIterations - s.iterations
  {
    hide DoStream, DoChat, LimitHit, Scan, CallsOf, Denials, DeltaText, CitedHits, Pending, Queried, Allowed, Refusals;
    hide SumIn, SumOut, Discarded, RoundsAsked, Ended, Cut;
    if s.iterations >= t.maxIterations {
      FinishKeeps(t, Streaming(t, tools), hits, prefix, s, Error(LimitHit(t)));
    } else {
      var s1 := s.(iterations := s.iterations + 1);
      var f := Going(s1);
      if Streaming(t, tools) {
        StreamKeeps(w, t, hits, prefix, s1);
        f := DoStream(w, hits, s1);
      }
      if f.Going? {
        ChatKeeps(w, t, tools, hits, prefix, Streaming(t, tools), f.s);
        f := DoChat(w, t, tools, hits, f.s);
      }
      if f.Going? {
        RoundsKeep(w, t, tools, hits, prefix, f.s);
      }
    }
  }

  // ----- Theorems -----

  // Every turn: if it returns, its trace is in the grammar and ends it, its policy was obeyed, its
  // final event is truthful, and every LLM call saw complete blocks only; if an exception cuts it
  // short, it shows no final and no error event, and still invoked only what the policy allowed.
  lemma EveryTurn(w: Proxies, t: Turn)
    ensures
      var f := Play(w, t);
      && (f.Stopped? ==>
            && Hits(w, t).Returned? && Tools(w, t).Returned?
            && Ended(t, Streaming(t, Tools(w, t).value), Hits(w, t).value, Prefix(w, t, Hits(w, t).value), f.s)
            && (Last(f.s.events).Final? ==> 1 <= f.s.iterations <= t.maxIterations))
      && (f.Escaped? ==> Cut(t, if Hits(w, t).Returned? then Prefix(w, t, Hits(w, t).value) else [], f.s))
  {
    hide DoRounds, Wanted, Opening;
    hide Ended, Cut, Sound, Scan;
    StartIsSound(t, [], []);
    if Hits(w, t).Returned? {
      var hits := Hits(w, t).value;
      var prefix := Prefix(w, t, hits);
      StartIsSound(t, hits, prefix);
      if Tools(w, t).Returned? {
        RoundsKeep(w, t, Tools(w, t).value, hits, prefix, Start(prefix, Opening(hits)));
      }
    }
  }

  lemma OpeningScans(hits: seq<Json>)
    ensures Scan(Opening(hits)) == Open && CallsOf(Opening(hits)) == [] && Denials(Opening(hits)) == []
    ensures DeltaText(Opening(hits)) == "" && CitedHits(Opening(hits)) == hits
  {
    if hits != [] {
      EventSnoc([], Citations(hits));
      EventSnoc([] + [Citations(hits)], Step);
      assert Opening(hits) == [] + [Citations(hits)] + [Step];
    } else {
      EventSnoc([], Step);
      assert Opening(hits) == [] + [Step];
    }
  }

  lemma StartIsSound(t: Turn, hits: seq<Json>, prefix: seq<Message>)
    ensures Sound(t, hits, prefix, Start(prefix, Opening(hits)), []) && AtHead(Scan(Opening(hits)))
    ensures RoundsAsked([], true) == 0 == RoundsAsked([], false)
    ensures Cut(t, prefix, Start([], Opening(hits))) && Cut(t, [], Start([], []))
  {
    OpeningScans(hits);
    assert prefix[|prefix|..] == [];
  }

  // Arguments the turn can parse, well or badly.
  predicate Parsable(calls: seq<RawCall>) {
    forall raw <- calls :: !raw.args.Unparsable?
  }

  // No proxy raises outside the caught LLM calls, whatever it is asked, and the arguments of the calls
  // the LLM asks for are objects or text. Such turns always return.
  ghost predicate Quiet(w: Proxies) {
    && w.search.Returned? && w.listTools.Returned?
    && (forall n, q :: w.policy(n, q).Returned?)
    && (forall n, c :: w.invoke(n, c).Returned?)
    && (forall n, ms :: var r := w.chat(n, ms); r.ChatReply? && r.choices != [] ==> Parsable(r.choices[0].calls))
  }

  lemma {:induction false} QuietCallsGoOn(w: Proxies, t: Turn, tools: seq<Descriptor>, calls: seq<RawCall>, s: State)
    requires Quiet(w) && Parsable(calls)
    ensures DoCalls(w, t, tools, calls, s).Going?
  {
    if calls != [] {
      assert calls[0] in calls && forall raw <- calls[1..] :: raw in calls;
      QuietCallsGoOn(w, t, tools, calls[1..], DoCall(w, t, tools, calls[0], s).s);
    }
  }

  lemma QuietChat(w: Proxies, t: Turn, tools: seq<Descriptor>, hits: seq<Json>, s: State)
    requires Quiet(w)
    ensures !DoChat(w, t, tools, hits, s).Escaped?
  {
    hide DoCalls, NoChoices, Strip;
    var r := w.chat(|s.chats|, s.messages);
    if r.ChatReply? && r.choices != [] && r.choices[0].calls != [] {
      var msg := r.choices[0];
      var s1 := s.(prompts := s.prompts + [Prompt(false, s.messages)], chats := s.chats + [r],
                   totalIn := s.totalIn + r.tokensIn, totalOut := s.totalOut + r.tokensOut);
      var thought := Strip(msg.content);
      var s2 := if thought != "" then s1.Emit(Thoughts(thought, s1.iterations)) else s1;
      QuietCallsGoOn(w, t, tools, msg.calls, s2.Say(AssistantMsg(msg.content, msg.calls)));
    }
  }

  lemma QuietRound(w: Proxies, t: Turn, tools: seq<Descriptor>, hits: seq<Json>, s: State)
    requires Quiet(w)
    ensures !DoRound(w, t, tools, hits, s).Escaped?
  {
    hide DoStream, DoChat, Quiet;
    var s1 := s.(iterations := s.iterations + 1);
    var f := if Streaming(t, tools) then DoStream(w, hits, s1) else Going(s1);
    if f.Going? {
      QuietChat(w, t, tools, hits, f.s);
    }
  }

  lemma {:induction false} QuietRoundsStop(w: Proxies, t: Turn, tools: seq<Descriptor>, hits: seq<Json>, s: State)
    requires Quiet(w)
    ensures DoRounds(w, t, tools, hits, s).Stopped?
    decreases t.maxIterations - s.iterations
  {
    if s.iterations < t.maxIterations {
      hide DoRound, LimitHit;
      QuietRound(w, t, tools, hits, s);
      var f := DoRound(w, t, tools, hits, s);
      if f.Going? {
        QuietRoundsStop(w, t, tools, hits, f.s);
      }
    }
  }

  lemma QuietTurnEnds(w: Proxies, t: Turn)
    requires Quiet(w)
    ensures Play(w, t).Stopped? && Scan(Play(w, t).s.events) == Done
  {
    EveryTurn(w, t);
    var tools := Tools(w, t).value;
    var hits := Hits(w, t).value;
    QuietRoundsStop(w, t, tools, hits, Start(Prefix(w, t, hits), Opening(hits)));
  }

  // The final answer is what was streamed minus the text of replies that fell back on tool calls:
  // always a suffix of the deltas, and all of them exactly when nothing was dropped.
  lemma FinalIsSuffixOfDeltas(w: Proxies, t: Turn)
    requires Play(w, t).Stopped? && Last(Play(w, t).s.events).Final?
    ensures
      var s := Play(w, t).s;
      var content := Last(s.events).content;
      var shown := DeltaText(s.events);
      && |content| <= |shown| && shown[|shown| - |content|..] == content
      && (shown == content <==> Discarded(s.streams) == "")
  {
    EveryTurn(w, t);
  }

  // ----- What the two automata mean -----

  // A complete block, as the model sees it on the next request.
  datatype Block = Block(content: string, calls: seq<RawCall>, answers: seq<string>)

  function Render(b: Block): seq<Message>
    requires |b.answers| == |b.calls|
  {
    [AssistantMsg(b.content, b.calls)]
    + seq(|b.calls|, i requires 0 <= i < |b.calls| => ToolMsg(b.calls[i].id, b.calls[i].Name(), b.answers[i]))
  }

  predicate WellFormed(blocks: seq<Block>) {
    forall b <- blocks :: |b.calls| >= 1 && |b.answers| == |b.calls|
  }

  function RenderAll(blocks: seq<Block>): seq<Message>
    requires WellFormed(blocks)
  {
    if blocks == [] then [] else RenderAll(blocks[..|blocks| - 1]) + Render(blocks[|blocks| - 1])
  }

  lemma RenderSnoc(blocks: seq<Block>, b: Block)
    requires WellFormed(blocks) && |b.calls| >= 1 && |b.answers| == |b.calls|
    ensures WellFormed(blocks + [b]) && RenderAll(blocks + [b]) == RenderAll(blocks) + Render(b)
  {
    assert (blocks + [b])[..|blocks|] == blocks;
  }

  // An assistant message whose first calls are answered, with `open` left.
  predicate OpenBlock(tail: seq<Message>, open: seq<RawCall>) {
    && tail != [] && tail[0].AssistantMsg? && |tail| <= |tail[0].calls| + 1 && open == tail[0].calls[|tail| - 1..]
    && forall i :: 1 <= i < |tail| ==> tail[i].ToolMsg? && tail[i].callId == tail[0].calls[i - 1].id
                                       && tail[i].name == tail[0].calls[i - 1].Name()
  }

  function Close(tail: seq<Message>): (b: Block)
    requires OpenBlock(tail, [])
    ensures |b.answers| == |b.calls| && Render(b) == tail
  {
    var calls := tail[0].calls;
    var b := Block(tail[0].content, calls, seq(|calls|, i requires 0 <= i < |calls| => tail[i + 1].content));
    assert Render(b) == tail;
    b
  }

  lemma TailGrows(log: seq<Message>, tail: seq<Message>)
    requires log != [] && Pending(log).Some?
    requires
      var before := Pending(log[..|log| - 1]);
      && (tail == [] <==> before == Some([]))
      && (tail != [] ==> OpenBlock(tail, before.value))
    ensures OpenBlock(tail + [log[|log| - 1]], Pending(log).value)
  {}

  lemma SplitSnoc(log: seq<Message>, a: seq<Message>, b: seq<Message>)
    requires log != [] && log[..|log| - 1] == a + b
    ensures log == a + (b + [log[|log| - 1]])
  {
  }

  // A log the automaton accepts is a sequence of complete blocks, then at most one open block whose
  // first calls are answered in order.
  lemma {:induction false} LogIsBlocks(log: seq<Message>) returns (blocks: seq<Block>, tail: seq<Message>)
    requires Pending(log).Some?
    ensures WellFormed(blocks) && log == RenderAll(blocks) + tail
    ensures tail == [] <==> Pending(log) == Some([])
    ensures tail != [] ==> OpenBlock(tail, Pending(log).value)
  {
    blocks, tail := [], [];
    if log != [] {
      hide RenderAll, WellFormed;
      var m := log[|log| - 1];
      blocks, tail := LogIsBlocks(log[..|log| - 1]);
      SplitSnoc(log, RenderAll(blocks), tail);
      TailGrows(log, tail);
      hide Pending, OpenBlock;
      tail := tail + [m];
      if Pending(log) == Some([]) {
        RenderSnoc(blocks, Close(tail));
        blocks, tail := blocks + [Close(tail)], [];
      }
    }
  }

  // Every request of every turn: the prepared prefix, then complete blocks.
  lemma PromptsArePrefixAndBlocks(w: Proxies, t: Turn, p: Prompt) returns (blocks: seq<Block>)
    requires p in Play(w, t).s.prompts
    ensures Hits(w, t).Returned? && WellFormed(blocks)
    ensures p.messages == Prefix(w, t, Hits(w, t).value) + RenderAll(blocks)
  {
    hide DoRounds, Wanted, Opening, Prefix, Pending, Gated, Truthful, RenderAll, Scan, CitedHits;
    EveryTurn(w, t);
    var prefix := Prefix(w, t, Hits(w, t).value);
    var tail;
    blocks, tail := LogIsBlocks(p.messages[|prefix|..]);
  }

  lemma {:induction false} ScanPrefix(events: seq<Event>, i: nat)
    requires i < |events| && Scan(events) != Bad
    ensures Scan(events[..i]) != Bad && Scan(events[..i + 1]) != Bad
    ensures Scan(events[..i + 1]) == Next(Scan(events[..i]), events[i])
  {
    var before := events[..|events| - 1];
    if i < |before| {
      ScanPrefix(before, i);
      assert before[..i] == events[..i] && before[..i + 1] == events[..i + 1];
    } else {
      assert events[..i + 1] == events;
    }
  }

  // What the grammar says event by event: the terminal event is the last and only one, every tool
  // call is followed at once by its own result, and every result follows its own call.
  lemma GrammarMeans(events: seq<Event>, i: nat)
    requires Scan(events) == Done && i < |events|
    ensures (events[i].Final? || events[i].Error?) <==> i == |events| - 1
    ensures events[i].ToolCall? ==> i + 1 < |events| && events[i + 1].ToolResult?
                                    && events[i + 1].id == events[i].call.id
                                    && events[i + 1].name == events[i].call.name
    ensures events[i].ToolResult? ==> i > 0 && events[i - 1].ToolCall?
                                      && events[i].id == events[i - 1].call.id
                                      && events[i].name == events[i - 1].call.name
  {
    hide Scan;
    assert events[..|events|] == events;
    ScanPrefix(events, i);
    if i + 1 < |events| {
      ScanPrefix(events, i + 1);
    }
    if i > 0 {
      ScanPrefix(events, i - 1);
    } else {
      StepOnce(events, 0);
    }
  }

  // The opening happens once: citations, if any, come first, and the step event comes next.
  lemma OpeningMeans(events: seq<Event>, i: nat)
    requires Scan(events) == Done && i < |events|
    ensures events[i].Citations? ==> i == 0
    ensures events[i].Step? <==> i == if events[0].Citations? then 1 else 0
  {
    hide Scan;
    ScanPrefix(events, i);
    StepOnce(events, i);
  }

  // The phases before and after the opening are disjoint, so the opening happens once.
  lemma {:induction false} StepOnce(events: seq<Event>, i: nat)
    requires i <= |events| && Scan(events) != Bad
    ensures Scan(events[..i]) == Begin <==> i == 0
    ensures Scan(events[..i]) == Cited <==> i == 1 && events[0].Citations?
  {
    if i > 0 {
      StepOnce(events, i - 1);
      ScanPrefix(events, i - 1);
    }
  }
}
