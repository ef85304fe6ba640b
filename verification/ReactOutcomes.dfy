// What a turn says about its tool calls: the k-th result event and the k-th tool message tell, in
// order, what became of the k-th call, as the policy and the tool service answered it.
module ReactOutcomes {
  import opened Common
  import opened React
  import opened ReactTheorems

  datatype Fate = Refused(call: Call, reason: Option<string>) | Ran(call: Call, reply: ToolReply)

  // The n-th answer of the tool service.
  function ReplyOf(w: Proxies, n: nat, call: Call): ToolReply {
    match w.invoke(n, call)
    case Returned(r) => r
    case Raised => ToolReply(false, JNull, None)
  }

  // The fates of the calls a policy decided on: each allowed one takes the next answer.
  function Judged(w: Proxies, verdicts: seq<Verdict>): seq<Fate> {
    if verdicts == [] then []
    else
      var before, last := verdicts[..|verdicts| - 1], verdicts[|verdicts| - 1];
      var call := last.query.call;
      Judged(w, before)
      + [if last.decision.allow then Ran(call, ReplyOf(w, |Allowed(before)|, call))
         else Refused(call, last.decision.reason)]
  }

  function Unjudged(w: Proxies, invoked: seq<Call>): seq<Fate> {
    seq(|invoked|, i requires 0 <= i < |invoked| => Ran(invoked[i], ReplyOf(w, i, invoked[i])))
  }

  function Fates(w: Proxies, t: Turn, s: State): seq<Fate> {
    if t.gated then Judged(w, s.verdicts) else Unjudged(w, s.invoked)
  }

  // What the user is shown.
  function Shown(f: Fate): Event {
    match f
    case Refused(call, reason) =>
      var why := if reason.GetOr("") == "" then "no rule" else reason.value;
      ToolResult(call.id, call.name, false, JNull, JStr("policy denied: " + why), true)
    case Ran(call, r) =>
      ToolResult(call.id, call.name, r.ok, r.result, r.error.GetOr(JNull), false)
  }

  // What the model is told: a success as its result, a failure as its error, at most 8000 characters.
  function Told(w: Proxies, f: Fate): Message {
    match f
    case Refused(call, reason) =>
      var why := if reason.Some? then JStr(reason.value) else JNull;
      ToolMsg(call.id, call.name, w.dumps(JDict([("error", JStr("policy_denied")), ("reason", why)])))
    case Ran(call, r) =>
      var said := if r.ok then r.result else JDict([("error", r.error.GetOr(JStr("tool failed")))]);
      ToolMsg(call.id, call.name, Take(w.dumps(said), 8000))
  }

  function Results(events: seq<Event>): seq<Event> {
    if events == [] then []
    else Results(events[..|events| - 1]) + if events[|events| - 1].ToolResult? then [events[|events| - 1]] else []
  }

  function Answers(log: seq<Message>): seq<Message> {
    if log == [] then []
    else Answers(log[..|log| - 1]) + if log[|log| - 1].ToolMsg? then [log[|log| - 1]] else []
  }

  function AllShown(fates: seq<Fate>): seq<Event> {
    seq(|fates|, i requires 0 <= i < |fates| => Shown(fates[i]))
  }

  function AllTold(w: Proxies, fates: seq<Fate>): seq<Message> {
    seq(|fates|, i requires 0 <= i < |fates| => Told(w, fates[i]))
  }

  // Events, messages and records tell the same story.
  predicate Consistent(w: Proxies, t: Turn, prefix: seq<Message>, s: State) {
    && prefix <= s.messages
    && (t.gated ==> s.invoked == Allowed(s.verdicts))
    && Results(s.events) == AllShown(Fates(w, t, s))
    && Answers(s.messages[|prefix|..]) == AllTold(w, Fates(w, t, s))
  }

  // ----- Every step keeps it -----

  lemma SnocTells(w: Proxies, fates: seq<Fate>, f: Fate)
    ensures AllShown(fates + [f]) == AllShown(fates) + [Shown(f)]
    ensures AllTold(w, fates + [f]) == AllTold(w, fates) + [Told(w, f)]
  {
    hide Shown, Told;
  }

  lemma EventCounts(events: seq<Event>, e: Event)
    ensures Results(events + [e]) == Results(events) + if e.ToolResult? then [e] else []
  {
    assert (events + [e])[..|events|] == events;
  }

  lemma MessageCounts(prefix: seq<Message>, log: seq<Message>, m: Message)
    requires prefix <= log
    ensures prefix <= log + [m]
    ensures Answers((log + [m])[|prefix|..]) == Answers(log[|prefix|..]) + if m.ToolMsg? then [m] else []
  {
    assert (log + [m])[|prefix|..] == log[|prefix|..] + [m];
    assert (log[|prefix|..] + [m])[..|log| - |prefix|] == log[|prefix|..];
  }

  lemma JudgedSnoc(w: Proxies, verdicts: seq<Verdict>, v: Verdict)
    ensures
      var call := v.query.call;
      Judged(w, verdicts + [v])
        == Judged(w, verdicts)
           + [if v.decision.allow then Ran(call, ReplyOf(w, |Allowed(verdicts)|, call))
              else Refused(call, v.decision.reason)]
  {
    assert (verdicts + [v])[..|verdicts|] == verdicts;
  }

  lemma DenialTells(w: Proxies, call: Call, d: Decision)
    requires !d.allow
    ensures Denial(w, call, d) == (Shown(Refused(call, d.reason)), Told(w, Refused(call, d.reason)))
  {}

  lemma ObservationTells(w: Proxies, call: Call, r: ToolReply)
    ensures Observation(w, call, r) == (Shown(Ran(call, r)), Told(w, Ran(call, r)))
  {}

  // A result and its message, once the fate of the call is on record.
  lemma ToldTogether(w: Proxies, t: Turn, prefix: seq<Message>, s: State, s1: State, f: Fate)
    requires Consistent(w, t, prefix, s)
    requires Fates(w, t, s1) == Fates(w, t, s) + [f] && (t.gated ==> s1.invoked == Allowed(s1.verdicts))
    requires Results(s1.events) == Results(s.events) && s1.messages == s.messages
    ensures Consistent(w, t, prefix, s1.Emit(Shown(f)).Say(Told(w, f)))
  {
    assert Shown(f).ToolResult? && Told(w, f).ToolMsg?;
    hide Shown, Told, Fates, Results, Answers, AllShown, AllTold;
    SnocTells(w, Fates(w, t, s), f);
    EventCounts(s1.events, Shown(f));
    MessageCounts(prefix, s.messages, Told(w, f));
    SameFates(w, t, s1, s1.Emit(Shown(f)).Say(Told(w, f)));
  }

  lemma SameFates(w: Proxies, t: Turn, a: State, b: State)
    requires a.verdicts == b.verdicts && a.invoked == b.invoked
    ensures Fates(w, t, a) == Fates(w, t, b)
  {}

  lemma InvokeTells(w: Proxies, t: Turn, prefix: seq<Message>, s: State, s1: State, call: Call)
    requires Consistent(w, t, prefix, s) && s1.messages == s.messages && s1.invoked == s.invoked
    requires Results(s1.events) == Results(s.events)
    requires if t.gated then
               exists v: Verdict :: s1.verdicts == s.verdicts + [v] && v.query.call == call && v.decision.allow
             else s1.verdicts == s.verdicts
    ensures DoInvoke(w, call, s1).Going? ==> Consistent(w, t, prefix, DoInvoke(w, call, s1).s)
  {
    match w.invoke(|s1.invoked|, call)
    case Raised =>
    case Returned(r) =>
      var s2 := s1.(invoked := s1.invoked + [call]);
      var f := Ran(call, r);
      ObservationTells(w, call, r);
      if t.gated {
        var v :| s1.verdicts == s.verdicts + [v] && v.query.call == call && v.decision.allow;
        JudgedSnoc(w, s.verdicts, v);
        VerdictSnoc(s.verdicts, v);
      } else {
        assert Unjudged(w, s2.invoked) == Unjudged(w, s.invoked) + [f];
      }
      assert Fates(w, t, s2) == Fates(w, t, s) + [f];
      hide Consistent, Fates, Observation, Shown, Told, Results;
      ToldTogether(w, t, prefix, s, s2, f);
  }

  lemma CallTells(w: Proxies, t: Turn, tools: seq<Descriptor>, prefix: seq<Message>, raw: RawCall, s: State)
    requires Consistent(w, t, prefix, s)
    ensures DoCall(w, t, tools, raw, s).Going? ==> Consistent(w, t, prefix, DoCall(w, t, tools, raw, s).s)
  {
    if raw.args.Unparsable? {
      return;
    }
    var call := Parse(w, raw);
    var s1 := s.Emit(ToolCall(call));
    hide Parse, QueryFor, DoInvoke, Consistent, Results, Fates, Shown, Told;
    EventCounts(s.events, ToolCall(call));
    var query := QueryFor(tools, call);
    CallOfQuery(tools, call);
    if !t.gated {
      InvokeTells(w, t, prefix, s, s1, call);
    } else if w.policy(|s1.verdicts|, query).Returned? {
      var v := Verdict(query, w.policy(|s1.verdicts|, query).value);
      var s2 := s1.(verdicts := s1.verdicts + [v]);
      if v.decision.allow {
        InvokeTells(w, t, prefix, s, s2, call);
      } else {
        RefusalTells(w, t, prefix, s, s2, v);
      }
    }
  }

  lemma CallOfQuery(tools: seq<Descriptor>, call: Call)
    ensures QueryFor(tools, call).call == call
  {}

  lemma RefusalTells(w: Proxies, t: Turn, prefix: seq<Message>, s: State, s1: State, v: Verdict)
    requires Consistent(w, t, prefix, s) && t.gated && !v.decision.allow
    requires s1.messages == s.messages && s1.invoked == s.invoked && s1.verdicts == s.verdicts + [v]
    requires Results(s1.events) == Results(s.events)
    ensures
      var (ev, msg) := Denial(w, v.query.call, v.decision);
      Consistent(w, t, prefix, s1.Emit(ev).Say(msg))
  {
    JudgedSnoc(w, s.verdicts, v);
    VerdictSnoc(s.verdicts, v);
    DenialTells(w, v.query.call, v.decision);
    var f := Refused(v.query.call, v.decision.reason);
    assert Fates(w, t, s1) == Fates(w, t, s) + [f];
    assert s1.invoked == Allowed(s1.verdicts);
    hide Consistent, Fates, Denial, Shown, Told, Results;
    ToldTogether(w, t, prefix, s, s1, f);
  }

  lemma {:induction false} CallsTell(w: Proxies, t: Turn, tools: seq<Descriptor>, prefix: seq<Message>,
                                     calls: seq<RawCall>, s: State)
    requires Consistent(w, t, prefix, s)
    ensures DoCalls(w, t, tools, calls, s).Going? ==> Consistent(w, t, prefix, DoCalls(w, t, tools, calls, s).s)
  {
    if calls != [] {
      hide DoCall, Consistent;
      CallTells(w, t, tools, prefix, calls[0], s);
      var f := DoCall(w, t, tools, calls[0], s);
      if f.Going? {
        CallsTell(w, t, tools, prefix, calls[1..], f.s);
      }
    }
  }

  // An event that is not a tool result, or a message that is not a tool message.
  lemma AsideTells(w: Proxies, t: Turn, prefix: seq<Message>, s: State, e: Event, m: Message)
    requires Consistent(w, t, prefix, s) && !e.ToolResult? && !m.ToolMsg?
    ensures Consistent(w, t, prefix, s.Emit(e)) && Consistent(w, t, prefix, s.Say(m))
  {
    hide Results, Answers, AllShown, AllTold, Judged, Unjudged;
    EventCounts(s.events, e);
    MessageCounts(prefix, s.messages, m);
  }

  // The requests on record and the counters play no part.
  lemma RecordsAside(w: Proxies, t: Turn, prefix: seq<Message>, a: State, b: State)
    requires Consistent(w, t, prefix, a)
    requires b.messages == a.messages && Results(b.events) == Results(a.events)
    requires b.verdicts == a.verdicts && b.invoked == a.invoked
    ensures Consistent(w, t, prefix, b)
  {
    hide Results, Answers, AllShown, AllTold, Judged, Unjudged;
  }

  lemma ChatTells(w: Proxies, t: Turn, tools: seq<Descriptor>, hits: seq<Json>, prefix: seq<Message>, s: State)
    requires Consistent(w, t, prefix, s)
    ensures !DoChat(w, t, tools, hits, s).Escaped? ==> Consistent(w, t, prefix, DoChat(w, t, tools, hits, s).s)
  {
    hide DoCalls, Consistent, Strip, NoChoices, Results;
    var r := w.chat(|s.chats|, s.messages);
    var s1 := s.(prompts := s.prompts + [Prompt(false, s.messages)], chats := s.chats + [r]);
    RecordsAside(w, t, prefix, s, s1);
    if r.ChatFailed? {
      AsideTells(w, t, prefix, s1, Error(Take(r.message, 500)), SystemMsg(""));
    } else {
      var s2 := s1.(totalIn := s.totalIn + r.tokensIn, totalOut := s.totalOut + r.tokensOut);
      RecordsAside(w, t, prefix, s1, s2);
      if r.choices == [] {
        AsideTells(w, t, prefix, s2, Error(NoChoices()), SystemMsg(""));
      } else {
        ReplyTells(w, t, tools, hits, prefix, s2, r.choices[0]);
      }
    }
  }

  lemma ReplyTells(w: Proxies, t: Turn, tools: seq<Descriptor>, hits: seq<Json>, prefix: seq<Message>, s: State,
                   msg: Choice)
    requires Consistent(w, t, prefix, s)
    ensures
      var said := if msg.content != "" then s.Emit(Delta(msg.content)) else s;
      Consistent(w, t, prefix, said.Emit(Final(msg.content, said.iterations, said.totalIn, said.totalOut, hits)))
    ensures
      var thought := Strip(msg.content);
      var s1 := if thought != "" then s.Emit(Thoughts(thought, s.iterations)) else s;
      var f := DoCalls(w, t, tools, msg.calls, s1.Say(AssistantMsg(msg.content, msg.calls)));
      f.Going? ==> Consistent(w, t, prefix, f.s)
  {
    hide DoCalls, Consistent, Strip;
    var silent := SystemMsg("");
    AsideTells(w, t, prefix, s, Delta(msg.content), silent);
    var said := if msg.content != "" then s.Emit(Delta(msg.content)) else s;
    AsideTells(w, t, prefix, said, Final(msg.content, said.iterations, said.totalIn, said.totalOut, hits), silent);
    var thought := Strip(msg.content);
    AsideTells(w, t, prefix, s, Thoughts(thought, s.iterations), silent);
    var s1 := if thought != "" then s.Emit(Thoughts(thought, s.iterations)) else s;
    AsideTells(w, t, prefix, s1, Step, AssistantMsg(msg.content, msg.calls));
    CallsTell(w, t, tools, prefix, msg.calls, s1.Say(AssistantMsg(msg.content, msg.calls)));
  }

  lemma {:induction false} DeltasAside(events: seq<Event>, choices: seq<Choice>)
    ensures Results(events + Deltas(choices)) == Results(events)
  {
    if choices == [] {
      assert events + [] == events;
    } else {
      var before, c := choices[..|choices| - 1], choices[|choices| - 1];
      DeltasAside(events, before);
      if c.content != "" {
        EventCounts(events + Deltas(before), Delta(c.content));
        assert events + Deltas(choices) == events + Deltas(before) + [Delta(c.content)];
      } else {
        assert Deltas(choices) == Deltas(before);
      }
    }
  }

  lemma StreamTells(w: Proxies, t: Turn, hits: seq<Json>, prefix: seq<Message>, s: State)
    requires Consistent(w, t, prefix, s)
    ensures Consistent(w, t, prefix, DoStream(w, hits, s).s)
  {
    hide Consistent, Deltas, Concat, JoinedText, JoinedCalls, Results;
    var r := w.stream(|s.streams|, s.messages);
    var s1 := s.(prompts := s.prompts + [Prompt(true, s.messages)], streams := s.streams + [r],
                 events := s.events + Deltas(Concat(r.chunks)));
    DeltasAside(s.events, Concat(r.chunks));
    RecordsAside(w, t, prefix, s, s1);
    if r.failure.Some? {
      AsideTells(w, t, prefix, s1, Error(Take(r.failure.value, 500)), SystemMsg(""));
    } else {
      AsideTells(w, t, prefix, s1, Final(StreamText(r), s.iterations, s.totalIn, s.totalOut, hits), SystemMsg(""));
    }
  }

  lemma {:induction false} RoundsTell(w: Proxies, t: Turn, tools: seq<Descriptor>, hits: seq<Json>,
                                      prefix: seq<Message>, s: State)
    requires Consistent(w, t, prefix, s)
    ensures DoRounds(w, t, tools, hits, s).Stopped? ==> Consistent(w, t, prefix, DoRounds(w, t, tools, hits, s).s)
    decreases t.maxIterations - s.iterations
  {
    hide DoStream, DoChat, LimitHit, Consistent, Results;
    if s.iterations >= t.maxIterations {
      AsideTells(w, t, prefix, s, Error(LimitHit(t)), SystemMsg(""));
    } else {
      var f := Going(s.(iterations := s.iterations + 1));
      RecordsAside(w, t, prefix, s, f.s);
      if Streaming(t, tools) {
        StreamTells(w, t, hits, prefix, f.s);
        f := DoStream(w, hits, f.s);
      }
      if f.Going? {
        ChatTells(w, t, tools, hits, prefix, f.s);
        f := DoChat(w, t, tools, hits, f.s);
      }
      if f.Going? {
        RoundsTell(w, t, tools, hits, prefix, f.s);
      }
    }
  }

  // ----- The theorem -----

  // In every turn that returns, call by call and in order: the result shown is what the policy or
  // the tool service answered for that call, and so is the message the model gets.
  lemma EveryOutcomeIsTold(w: Proxies, t: Turn, k: nat)
    requires Play(w, t).Stopped? && k < |Fates(w, t, Play(w, t).s)|
    ensures
      var s := Play(w, t).s;
      var fate := Fates(w, t, s)[k];
      var prefix := Prefix(w, t, Hits(w, t).value);
      && prefix <= s.messages
      && |Results(s.events)| == |Answers(s.messages[|prefix|..])| == |Fates(w, t, s)|
      && Results(s.events)[k] == Shown(fate) && Answers(s.messages[|prefix|..])[k] == Told(w, fate)
  {
    var hits := Hits(w, t).value;
    var tools := Tools(w, t).value;
    var prefix := Prefix(w, t, hits);
    StartTells(w, t, hits, prefix);
    hide DoRounds, Prefix, Opening, Shown, Told;
    RoundsTell(w, t, tools, hits, prefix, Start(prefix, Opening(hits)));
  }

  lemma StartTells(w: Proxies, t: Turn, hits: seq<Json>, prefix: seq<Message>)
    ensures Consistent(w, t, prefix, Start(prefix, Opening(hits)))
  {
    assert prefix[|prefix|..] == [];
    EventCounts([], Citations(hits));
    EventCounts([], Step);
    EventCounts([] + [Citations(hits)], Step);
    assert Opening(hits) == if hits != [] then [] + [Citations(hits)] + [Step] else [] + [Step];
  }
}
