// What a turn asks of the outside world, and that its record of the answers is honest: what each
// request holds, which tool a policy question names, how the arguments of a call were read, which
// replies the calls and messages stem from, and which reply ended the turn.
module ReactRecords {
  import opened Common
  import opened React
  import opened ReactTheorems

  // ----- The conversation in every request -----

  // Every request of every turn opens with the system prompt and the retrieved context, as far as
  // they are there, then the whole history, then the user's message.
  lemma RequestsCarryTheConversation(w: Proxies, t: Turn, p: Prompt)
    requires p in Play(w, t).s.prompts
    ensures
      var hits := if t.rag && w.search.Returned? then w.search.value else [];
      var prompted := if t.systemPrompt != "" then 1 else 0;
      var k := prompted + if hits != [] then 1 else 0;
      var n := |t.history|;
      && |p.messages| > k + n
      && (t.systemPrompt != "" ==> p.messages[0] == SystemMsg(t.systemPrompt))
      && (hits != [] ==> p.messages[prompted] == SystemMsg(w.render(hits)))
      && p.messages[k..k + n] == t.history
      && p.messages[k + n] == UserMsg(t.userMessage)
  {
    RequestsOpenWithPrefix(w, t, p);
    hide Play, Prefix;
    PrefixCarries(w, t, Hits(w, t).value, p.messages);
  }

  lemma PrefixCarries(w: Proxies, t: Turn, hits: seq<Json>, messages: seq<Message>)
    requires Prefix(w, t, hits) <= messages
    ensures
      var prompted := if t.systemPrompt != "" then 1 else 0;
      var k := prompted + if hits != [] then 1 else 0;
      var n := |t.history|;
      && |messages| > k + n
      && (t.systemPrompt != "" ==> messages[0] == SystemMsg(t.systemPrompt))
      && (hits != [] ==> messages[prompted] == SystemMsg(w.render(hits)))
      && messages[k..k + n] == t.history
      && messages[k + n] == UserMsg(t.userMessage)
  {
    var opening := if t.systemPrompt != "" then [SystemMsg(t.systemPrompt)] else [];
    var context := if hits != [] then [SystemMsg(w.render(hits))] else [];
    PartsOf(opening, context, t.history, UserMsg(t.userMessage), messages);
  }

  lemma RequestsOpenWithPrefix(w: Proxies, t: Turn, p: Prompt)
    requires p in Play(w, t).s.prompts
    ensures Hits(w, t).Returned? && Prefix(w, t, Hits(w, t).value) <= p.messages
  {
    EveryTurn(w, t);
    hide DoRounds, Wanted, Opening, Pending, Gated, Truthful, Scan, CitedHits, Prefix;
  }

  lemma PartsOf<T>(a: seq<T>, b: seq<T>, c: seq<T>, d: T, all: seq<T>)
    requires a + b + c + [d] <= all
    ensures |all| > |a| + |b| + |c|
    ensures forall i :: 0 <= i < |a| ==> all[i] == a[i]
    ensures forall i :: 0 <= i < |b| ==> all[|a| + i] == b[i]
    ensures all[|a| + |b|..|a| + |b| + |c|] == c && all[|a| + |b| + |c|] == d
  {
    var front := a + b + c + [d];
    assert all[..|front|] == front;
    assert forall i :: 0 <= i < |front| ==> all[i] == front[i];
  }

  // ----- The tools a turn may use, and the one a call names -----

  // Each listed tool is kept exactly when the agent names it and it is enabled, in the listed order.
  lemma WantedOneByOne(t: Turn, all: seq<Descriptor>, d: Descriptor)
    ensures Wanted(t, []) == []
    ensures Wanted(t, all + [d]) == Wanted(t, all) + if d.enabled && d.id in t.toolIds then [d] else []
  {
    assert (all + [d])[..|all|] == all;
  }

  predicate Usable(t: Turn, d: Descriptor, name: string) {
    d.name == name && d.enabled && d.id in t.toolIds
  }

  predicate LastUsable(t: Turn, all: seq<Descriptor>, name: string, j: int) {
    0 <= j < |all| && Usable(t, all[j], name) && forall i :: j < i < |all| ==> !Usable(t, all[i], name)
  }

  // A name stands for the last usable tool of that name, and for none if there is none.
  lemma {:induction false} LookupMeans(t: Turn, all: seq<Descriptor>, name: string)
    ensures
      match Lookup(Wanted(t, all), name)
      case Some(d) => exists j :: LastUsable(t, all, name, j) && all[j] == d
      case None => forall d <- all :: !Usable(t, d, name)
  {
    if all != [] {
      var before, d := all[..|all| - 1], all[|all| - 1];
      LookupMeans(t, before, name);
      LookupSnoc(Wanted(t, before), d, name);
      if Usable(t, d, name) {
        assert LastUsable(t, all, name, |all| - 1);
      } else {
        assert Wanted(t, before) + [] == Wanted(t, before);
        assert Lookup(Wanted(t, all), name) == Lookup(Wanted(t, before), name);
        assert forall u <- all :: u in before || u == d;
        hide Wanted, Lookup;
        forall j | LastUsable(t, before, name, j) ensures LastUsable(t, all, name, j) {}
      }
    }
  }

  lemma LookupSnoc(tools: seq<Descriptor>, d: Descriptor, name: string)
    ensures Lookup(tools + [d], name) == if d.name == name then Some(d) else Lookup(tools, name)
  {
    assert (tools + [d])[..|tools|] == tools;
  }

  // A question put to the policy names the tool its call resolves to, and the arguments if they are
  // an object.
  predicate AsksAbout(t: Turn, all: seq<Descriptor>, q: PolicyQuery) {
    && (forall j :: 0 <= j < |all| && LastUsable(t, all, q.call.name, j) ==>
          q.toolId == all[j].id && q.scopes == all[j].scopes)
    && ((forall d <- all :: !Usable(t, d, q.call.name)) ==> q.toolId == "" && q.scopes == [])
    && q.args == if q.call.args.JDict? then Some(q.call.args) else None
  }

  lemma QueryAsksAbout(t: Turn, all: seq<Descriptor>, call: Call)
    ensures AsksAbout(t, all, QueryFor(Wanted(t, all), call)) && QueryFor(Wanted(t, all), call).call == call
  {
    LookupMeans(t, all, call.name);
  }

  // How the arguments of a call are read: an object as it is, text as the value it denotes, and as an
  // empty object where it denotes none or nothing was given.
  predicate Reads(w: Proxies, raw: RawCall, call: Call) {
    && call.id == raw.id
    && call.name == (if raw.name.Some? then raw.name.value else "")
    && !raw.args.Unparsable?
    && (raw.args.Object? && raw.args.value != JDict([]) ==> call.args == raw.args.value)
    && (raw.args.Text? && raw.args.text != "" ==>
          if w.loads(raw.args.text).Some? then Some(call.args) == w.loads(raw.args.text) else call.args == JDict([]))
    && (w.loads("{}") == Some(JDict([])) && raw.args in {Absent, Text(""), Object(JDict([]))} ==>
          call.args == JDict([]))
  }

  lemma ParseReads(w: Proxies, raw: RawCall)
    requires !raw.args.Unparsable?
    ensures Reads(w, raw, Parse(w, raw))
  {}

  // ----- What a streamed reply amounts to -----

  // Delta by delta: one event for each piece with text, the text run together, and all the calls.
  lemma StreamReads(chunks: seq<seq<Choice>>, c: Choice)
    ensures Deltas([]) == [] && Deltas([c]) == if c.content == "" then [] else [Delta(c.content)]
    ensures StreamText(StreamReply([], None)) == "" && StreamCalls(StreamReply([], None)) == []
    ensures
      var r := StreamReply(chunks + [[c]], None);
      && StreamText(r) == StreamText(StreamReply(chunks, None)) + c.content
      && StreamCalls(r) == StreamCalls(StreamReply(chunks, None)) + c.calls
  {
    assert [c][..0] == [];
    ConcatSnoc(chunks, [c]);
    StreamSnoc(Concat(chunks), c);
  }

  lemma {:induction false} DeltasAppend(a: seq<Choice>, b: seq<Choice>)
    ensures Deltas(a + b) == Deltas(a) + Deltas(b)
    ensures JoinedText(a + b) == JoinedText(a) + JoinedText(b)
    ensures JoinedCalls(a + b) == JoinedCalls(a) + JoinedCalls(b)
  {
    if b == [] {
      assert a + b == a;
    } else {
      DeltasAppend(a, b[..|b| - 1]);
      DeltasAppend1(a, b[..|b| - 1], b[|b| - 1]);
      assert b == b[..|b| - 1] + [b[|b| - 1]];
    }
  }

  lemma DeltasAppend1(a: seq<Choice>, b: seq<Choice>, c: Choice)
    requires Deltas(a + b) == Deltas(a) + Deltas(b) && JoinedText(a + b) == JoinedText(a) + JoinedText(b)
    requires JoinedCalls(a + b) == JoinedCalls(a) + JoinedCalls(b)
    ensures Deltas(a + (b + [c])) == Deltas(a) + Deltas(b + [c])
    ensures JoinedText(a + (b + [c])) == JoinedText(a) + JoinedText(b + [c])
    ensures JoinedCalls(a + (b + [c])) == JoinedCalls(a) + JoinedCalls(b + [c])
  {
    hide Deltas, JoinedText, JoinedCalls;
    StreamSnoc(a + b, c);
    StreamSnoc(b, c);
    assert a + b + [c] == a + (b + [c]);
  }

  // How the chunks divide the deltas plays no part.
  lemma {:induction false} ChunkingPlaysNoPart(a: seq<seq<Choice>>, b: seq<seq<Choice>>)
    ensures
      var ra, rb, r := StreamReply(a, None), StreamReply(b, None), StreamReply(a + b, None);
      StreamText(r) == StreamText(ra) + StreamText(rb) && StreamCalls(r) == StreamCalls(ra) + StreamCalls(rb)
  {
    ConcatAppend(a, b);
    DeltasAppend(Concat(a), Concat(b));
  }

  lemma {:induction false} ConcatAppend<T>(a: seq<seq<T>>, b: seq<seq<T>>)
    ensures Concat(a + b) == Concat(a) + Concat(b)
  {
    if b == [] {
      assert a + b == a;
    } else {
      var before, last := b[..|b| - 1], b[|b| - 1];
      ConcatAppend(a, before);
      ConcatAppend1(a, before, last);
      assert b == before + [last];
    }
  }

  lemma ConcatAppend1<T>(a: seq<seq<T>>, b: seq<seq<T>>, c: seq<T>)
    requires Concat(a + b) == Concat(a) + Concat(b)
    ensures Concat(a + (b + [c])) == Concat(a) + Concat(b + [c])
  {
    hide Concat;
    ConcatSnoc(a + b, c);
    ConcatSnoc(b, c);
    assert a + b + [c] == a + (b + [c]);
  }

  lemma {:induction false} SomeCalls(choices: seq<Choice>)
    ensures JoinedCalls(choices) == [] <==> forall c <- choices :: c.calls == []
  {
    if choices != [] {
      var before, c := choices[..|choices| - 1], choices[|choices| - 1];
      SomeCalls(before);
      assert choices == before + [c];
    }
  }

  // A streamed reply gives way to a plain request when nothing came, or a delta asked for tools.
  lemma FallsBackMeans(r: StreamReply)
    ensures FallsBack(r) <==> r.failure.None? && (r.chunks == [] || exists c <- Concat(r.chunks) :: c.calls != [])
  {
    SomeCalls(Concat(r.chunks));
  }

  // ----- The records -----

  // The requests of one kind, in order.
  function Asked(prompts: seq<Prompt>, streamed: bool): seq<seq<Message>> {
    if prompts == [] then []
    else
      var p := prompts[|prompts| - 1];
      Asked(prompts[..|prompts| - 1], streamed) + if p.streamed == streamed then [p.messages] else []
  }

  predicate AsksForCalls(r: ChatReply) {
    r.ChatReply? && r.choices != [] && r.choices[0].calls != []
  }

  // What the replies with calls leave behind: their messages, their calls, and what they say besides.
  function Requests(chats: seq<ChatReply>): seq<Message> {
    if chats == [] then []
    else
      var r := chats[|chats| - 1];
      Requests(chats[..|chats| - 1])
      + if AsksForCalls(r) then [AssistantMsg(r.choices[0].content, r.choices[0].calls)] else []
  }

  function Requested(chats: seq<ChatReply>): seq<RawCall> {
    if chats == [] then []
    else
      var r := chats[|chats| - 1];
      Requested(chats[..|chats| - 1]) + if AsksForCalls(r) then r.choices[0].calls else []
  }

  function Narrated(chats: seq<ChatReply>): seq<Event> {
    if chats == [] then []
    else
      var r := chats[|chats| - 1];
      Narrated(chats[..|chats| - 1])
      + if AsksForCalls(r) && Strip(r.choices[0].content) != ""
        then [Thoughts(Strip(r.choices[0].content), |chats|)] else []
  }

  function Replies(log: seq<Message>): seq<Message> {
    if log == [] then []
    else
      var m := log[|log| - 1];
      Replies(log[..|log| - 1]) + if m.AssistantMsg? then [m] else []
  }

  function ThoughtsOf(events: seq<Event>): seq<Event> {
    if events == [] then []
    else
      var e := events[|events| - 1];
      ThoughtsOf(events[..|events| - 1]) + if e.Thoughts? then [e] else []
  }

  // The i-th answer of a kind is what the LLM gives on the i-th request of that kind, and the totals
  // are those of the answers.
  predicate Answered(w: Proxies, s: State) {
    && s.totalIn == SumIn(s.chats) && s.totalOut == SumOut(s.chats)
    && |Asked(s.prompts, true)| == |s.streams| && |Asked(s.prompts, false)| == |s.chats|
    && (forall i :: 0 <= i < |s.streams| ==> s.streams[i] == w.stream(i, Asked(s.prompts, true)[i]))
    && (forall i :: 0 <= i < |s.chats| ==> s.chats[i] == w.chat(i, Asked(s.prompts, false)[i]))
  }

  predicate Ruled(w: Proxies, t: Turn, all: seq<Descriptor>, verdicts: seq<Verdict>) {
    forall i :: 0 <= i < |verdicts| ==>
      && w.policy(i, verdicts[i].query) == Returned(verdicts[i].decision)
      && AsksAbout(t, all, verdicts[i].query)
  }

  predicate Served(w: Proxies, invoked: seq<Call>) {
    forall i :: 0 <= i < |invoked| ==> w.invoke(i, invoked[i]).Returned?
  }

  // The calls shown are those of the replies, in order; `open` are the ones to come.
  predicate Shows(w: Proxies, asked: seq<RawCall>, shown: seq<Call>, open: seq<RawCall>) {
    && |asked| == |shown| + |open|
    && asked[|shown|..] == open
    && forall i :: 0 <= i < |shown| ==> Reads(w, asked[i], shown[i])
  }

  // The messages and events of the turn stem from the replies.
  predicate Follows(w: Proxies, prefix: seq<Message>, s: State, open: seq<RawCall>) {
    && prefix <= s.messages
    && Replies(s.messages[|prefix|..]) == Requests(s.chats)
    && ThoughtsOf(s.events) == Narrated(s.chats)
    && Shows(w, Requested(s.chats), CallsOf(s.events), open)
  }

  // Each request is the log as it then stood: it holds what the replies before it left, and no more.
  predicate StoodAt(prefix: seq<Message>, log: seq<Message>, chats: seq<ChatReply>, i: nat, request: seq<Message>) {
    && prefix <= request <= log && i <= |chats|
    && Replies(request[|prefix|..]) == Requests(chats[..i])
  }

  predicate AsItStood(prefix: seq<Message>, log: seq<Message>, chats: seq<ChatReply>, asked: seq<seq<Message>>) {
    forall i :: 0 <= i < |asked| ==> StoodAt(prefix, log, chats, i, asked[i])
  }

  predicate Remembers(prefix: seq<Message>, s: State) {
    && AsItStood(prefix, s.messages, s.chats, Asked(s.prompts, true))
    && AsItStood(prefix, s.messages, s.chats, Asked(s.prompts, false))
  }

  predicate Honest(w: Proxies, t: Turn, all: seq<Descriptor>, prefix: seq<Message>, s: State, open: seq<RawCall>) {
    && Answered(w, s) && Remembers(prefix, s)
    && Ruled(w, t, all, s.verdicts) && Served(w, s.invoked)
    && Follows(w, prefix, s, open)
  }

  predicate AllAsk(chats: seq<ChatReply>) {
    forall r <- chats :: AsksForCalls(r)
  }

  predicate AllFallBack(streams: seq<StreamReply>) {
    forall r <- streams :: FallsBack(r)
  }

  // Between two rounds: every reply so far asked for calls, and every stream gave way to a plain request.
  predicate Paced(streaming: bool, s: State) {
    && |s.chats| == s.iterations && |s.streams| == (if streaming then s.iterations else 0)
    && AllAsk(s.chats) && AllFallBack(s.streams)
  }

  // The last reply, or the lack of another, decides how a turn ends.
  predicate ClosedBy(t: Turn, streaming: bool, hits: seq<Json>, s: State) {
    var e := Last(s.events);
    var n, m := |s.chats|, |s.streams|;
    if m > n then
      var r := s.streams[m - 1];
      && streaming && m == n + 1 == s.iterations <= t.maxIterations
      && AllAsk(s.chats) && AllFallBack(s.streams[..m - 1])
      && (match r.failure
          case Some(text) => e == Error(Take(text, 500))
          case None => r.chunks != [] && StreamCalls(r) == []
                       && e == Final(StreamText(r), m, SumIn(s.chats), SumOut(s.chats), hits))
    else if n > 0 && !AsksForCalls(s.chats[n - 1]) then
      && n == s.iterations <= t.maxIterations && m == (if streaming then n else 0)
      && AllAsk(s.chats[..n - 1]) && AllFallBack(s.streams)
      && (match s.chats[n - 1]
          case ChatFailed(text) => e == Error(Take(text, 500))
          case ChatReply(_, _, choices) =>
            if choices == [] then e == Error("no choices returned")
            else e == Final(choices[0].content, n, SumIn(s.chats), SumOut(s.chats), hits))
    else
      && Paced(streaming, s) && n == (if t.maxIterations > 0 then t.maxIterations else 0)
      && e == Error("hit max_iterations=" + Decimal(t.maxIterations))
  }

  // What cut a turn short: the next call had arguments nobody parses, or the policy or the tool service
  // raised on the call just shown.
  ghost predicate CutBy(w: Proxies, t: Turn, all: seq<Descriptor>, s: State) {
    var shown := CallsOf(s.events);
    || (|shown| < |Requested(s.chats)| && Requested(s.chats)[|shown|].args.Unparsable?)
    || (shown != [] && t.gated && exists q: PolicyQuery ::
          q.call == shown[|shown| - 1] && AsksAbout(t, all, q) && w.policy(|s.verdicts|, q).Raised?)
    || (shown != [] && s.invoked != [] && s.invoked[|s.invoked| - 1] == shown[|shown| - 1]
        && w.invoke(|s.invoked| - 1, shown[|shown| - 1]).Raised?)
  }

  // ----- One more event, message or record -----

  lemma AskedSnoc(prompts: seq<Prompt>, p: Prompt, streamed: bool)
    ensures Asked(prompts + [p], streamed)
         == if p.streamed == streamed then Asked(prompts, streamed) + [p.messages] else Asked(prompts, streamed)
  {
    assert (prompts + [p])[..|prompts|] == prompts;
  }

  lemma ChatSnoc(chats: seq<ChatReply>, r: ChatReply)
    ensures
      var more := chats + [r];
      if AsksForCalls(r) then
        var thought := Strip(r.choices[0].content);
        && Requests(more) == Requests(chats) + [AssistantMsg(r.choices[0].content, r.choices[0].calls)]
        && Requested(more) == Requested(chats) + r.choices[0].calls
        && Narrated(more) == if thought == "" then Narrated(chats) else Narrated(chats) + [Thoughts(thought, |more|)]
      else
        Requests(more) == Requests(chats) && Requested(more) == Requested(chats) && Narrated(more) == Narrated(chats)
  {
    assert (chats + [r])[..|chats|] == chats;
  }

  lemma ThoughtSnoc(events: seq<Event>, e: Event)
    ensures ThoughtsOf(events + [e]) == if e.Thoughts? then ThoughtsOf(events) + [e] else ThoughtsOf(events)
    ensures CallsOf(events + [e]) == if e.ToolCall? then CallsOf(events) + [e.call] else CallsOf(events)
  {
    assert (events + [e])[..|events|] == events;
  }

  lemma ReplySnoc(prefix: seq<Message>, log: seq<Message>, m: Message)
    requires prefix <= log
    ensures prefix <= log + [m]
    ensures
      var tail := log[|prefix|..];
      Replies((log + [m])[|prefix|..]) == if m.AssistantMsg? then Replies(tail) + [m] else Replies(tail)
  {
    assert (log + [m])[|prefix|..] == log[|prefix|..] + [m];
    assert (log[|prefix|..] + [m])[..|log| - |prefix|] == log[|prefix|..];
  }

  // A longer log still holds the earlier requests.
  lemma LogGrows(prefix: seq<Message>, log: seq<Message>, m: Message, chats: seq<ChatReply>, asked: seq<seq<Message>>)
    requires AsItStood(prefix, log, chats, asked)
    ensures AsItStood(prefix, log + [m], chats, asked)
  {
    forall i | 0 <= i < |asked| ensures StoodAt(prefix, log + [m], chats, i, asked[i]) {
      assert StoodAt(prefix, log, chats, i, asked[i]);
    }
  }

  lemma ChatsGrow(prefix: seq<Message>, log: seq<Message>, chats: seq<ChatReply>, r: ChatReply,
                  asked: seq<seq<Message>>)
    requires AsItStood(prefix, log, chats, asked)
    ensures AsItStood(prefix, log, chats + [r], asked)
  {
    hide Replies, Requests;
    forall i | 0 <= i < |asked| ensures StoodAt(prefix, log, chats + [r], i, asked[i]) {
      assert StoodAt(prefix, log, chats, i, asked[i]);
      assert (chats + [r])[..i] == chats[..i];
    }
  }

  // The log itself as the next request, when every reply so far belongs to an earlier one.
  lemma RequestStands(prefix: seq<Message>, log: seq<Message>, chats: seq<ChatReply>, asked: seq<seq<Message>>)
    requires AsItStood(prefix, log, chats, asked) && |asked| == |chats|
    requires prefix <= log && Replies(log[|prefix|..]) == Requests(chats)
    ensures AsItStood(prefix, log, chats, asked + [log])
  {
    StandsNow(prefix, log, chats);
    hide StoodAt;
    forall i | 0 <= i < |asked + [log]| ensures StoodAt(prefix, log, chats, i, (asked + [log])[i]) {
      if i < |asked| {
        assert (asked + [log])[i] == asked[i];
      } else {
        assert (asked + [log])[i] == log;
      }
    }
  }

  lemma StandsNow(prefix: seq<Message>, log: seq<Message>, chats: seq<ChatReply>)
    requires prefix <= log && Replies(log[|prefix|..]) == Requests(chats)
    ensures StoodAt(prefix, log, chats, |chats|, log)
  {
    hide Replies, Requests;
    assert chats[..|chats|] == chats;
  }

  // ----- Every step keeps the records honest -----

  // An event, a tool message or an answer of the policy or the tool service.
  lemma AsideIsHonest(w: Proxies, t: Turn, all: seq<Descriptor>, prefix: seq<Message>, s: State, s1: State,
                      open: seq<RawCall>)
    requires Honest(w, t, all, prefix, s, open)
    requires s1 == s.(events := s1.events, messages := s1.messages, verdicts := s1.verdicts, invoked := s1.invoked)
    requires s1.messages == s.messages || exists m: Message :: !m.AssistantMsg? && s1.messages == s.messages + [m]
    requires CallsOf(s1.events) == CallsOf(s.events) && ThoughtsOf(s1.events) == ThoughtsOf(s.events)
    requires Ruled(w, t, all, s1.verdicts) && Served(w, s1.invoked)
    ensures Honest(w, t, all, prefix, s1, open)
  {
    hide Replies, Requests, Requested, Ruled, Served, AsItStood, Shows, Asked, CallsOf, ThoughtsOf, Narrated;
    TotalsAside(w, s, s1);
    hide Answered;
    if s1.messages != s.messages {
      var m: Message :| !m.AssistantMsg? && s1.messages == s.messages + [m];
      LogGrows(prefix, s.messages, m, s.chats, Asked(s.prompts, true));
      LogGrows(prefix, s.messages, m, s.chats, Asked(s.prompts, false));
      ReplySnoc(prefix, s.messages, m);
    }
  }

  // A call is announced with the arguments the reply gave it.
  lemma AnnouncedIsHonest(w: Proxies, t: Turn, all: seq<Descriptor>, prefix: seq<Message>, s: State, raw: RawCall,
                          open: seq<RawCall>)
    requires Honest(w, t, all, prefix, s, [raw] + open) && !raw.args.Unparsable?
    ensures Honest(w, t, all, prefix, s.Emit(ToolCall(Parse(w, raw))), open)
    ensures CallsOf(s.Emit(ToolCall(Parse(w, raw))).events) == CallsOf(s.events) + [Parse(w, raw)]
  {
    hide Replies, Requests, Requested, Ruled, Served, AsItStood, Asked, CallsOf, ThoughtsOf, Narrated, SumIn, SumOut;
    ParseReads(w, raw);
    hide Reads, Parse;
    ThoughtSnoc(s.events, ToolCall(Parse(w, raw)));
    ShowsNext(w, Requested(s.chats), CallsOf(s.events), raw, open, Parse(w, raw));
  }

  lemma ShowsNext(w: Proxies, asked: seq<RawCall>, shown: seq<Call>, raw: RawCall, open: seq<RawCall>, call: Call)
    requires Shows(w, asked, shown, [raw] + open) && Reads(w, raw, call)
    ensures Shows(w, asked, shown + [call], open)
  {
    hide Reads;
    assert asked[|shown|..][0] == raw;
    assert asked[|shown| + 1..] == asked[|shown|..][1..] == open;
  }

  // The result and the message that close a call.
  lemma ClosingIsHonest(w: Proxies, t: Turn, all: seq<Descriptor>, prefix: seq<Message>, s: State, s1: State,
                        open: seq<RawCall>, ev: Event, msg: Message)
    requires Honest(w, t, all, prefix, s, open) && ev.ToolResult? && msg.ToolMsg?
    requires s1 == s.(verdicts := s1.verdicts, invoked := s1.invoked)
    requires Ruled(w, t, all, s1.verdicts) && Served(w, s1.invoked)
    ensures Honest(w, t, all, prefix, s1.Emit(ev).Say(msg), open)
  {
    hide Honest, Ruled, Served, CallsOf, ThoughtsOf;
    ThoughtSnoc(s.events, ev);
    AsideIsHonest(w, t, all, prefix, s, s1.Emit(ev).Say(msg), open);
  }

  lemma CallIsHonest(w: Proxies, t: Turn, all: seq<Descriptor>, prefix: seq<Message>, raw: RawCall,
                     open: seq<RawCall>, s: State)
    requires Honest(w, t, all, prefix, s, [raw] + open)
    ensures
      var f := DoCall(w, t, Wanted(t, all), raw, s);
      if f.Going? then Honest(w, t, all, prefix, f.s, open) && SameRequests(s, f.s) else CutBy(w, t, all, f.s)
  {
    if raw.args.Unparsable? {
      assert Requested(s.chats)[|CallsOf(s.events)|..][0] == raw;
      return;
    }
    hide Wanted, QueryFor, Parse, AsksAbout, CallsOf, Requested, LastUsable, Honest, DoInvoke;
    var call := Parse(w, raw);
    var s1 := s.Emit(ToolCall(call));
    AnnouncedIsHonest(w, t, all, prefix, s, raw, open);
    ServicesAreHonest(w, t, all, prefix, s1, open);
    if t.gated {
      var query := QueryFor(Wanted(t, all), call);
      QueryAsksAbout(t, all, call);
      var answer := w.policy(|s1.verdicts|, query);
      if answer.Returned? {
        var s2 := s1.(verdicts := s1.verdicts + [Verdict(query, answer.value)]);
        if answer.value.allow {
          InvokeIsHonest(w, t, all, prefix, s1, s2, open, call);
        } else {
          var (ev, msg) := Denial(w, call, answer.value);
          ClosingIsHonest(w, t, all, prefix, s1, s2, open, ev, msg);
        }
      }
    } else {
      InvokeIsHonest(w, t, all, prefix, s1, s1, open, call);
    }
  }

  lemma ServicesAreHonest(w: Proxies, t: Turn, all: seq<Descriptor>, prefix: seq<Message>, s: State,
                          open: seq<RawCall>)
    requires Honest(w, t, all, prefix, s, open)
    ensures Ruled(w, t, all, s.verdicts) && Served(w, s.invoked)
  {}

  lemma InvokeIsHonest(w: Proxies, t: Turn, all: seq<Descriptor>, prefix: seq<Message>, s: State, s1: State,
                       open: seq<RawCall>, call: Call)
    requires Honest(w, t, all, prefix, s, open) && s1 == s.(verdicts := s1.verdicts)
    requires Ruled(w, t, all, s1.verdicts)
    requires CallsOf(s.events) != [] && CallsOf(s.events)[|CallsOf(s.events)| - 1] == call
    ensures
      var f := DoInvoke(w, call, s1);
      if f.Going? then Honest(w, t, all, prefix, f.s, open) && SameRequests(s, f.s) else CutBy(w, t, all, f.s)
  {
    hide Honest, Ruled, CutBy, CallsOf;
    if w.invoke(|s1.invoked|, call).Returned? {
      InvokeGoesOn(w, t, all, prefix, s, s1, open, call);
    } else {
      InvokeCuts(w, t, all, s1, call);
    }
  }

  lemma InvokeGoesOn(w: Proxies, t: Turn, all: seq<Descriptor>, prefix: seq<Message>, s: State, s1: State,
                     open: seq<RawCall>, call: Call)
    requires Honest(w, t, all, prefix, s, open) && s1 == s.(verdicts := s1.verdicts)
    requires Ruled(w, t, all, s1.verdicts) && w.invoke(|s1.invoked|, call).Returned?
    ensures
      var f := DoInvoke(w, call, s1);
      f.Going? && Honest(w, t, all, prefix, f.s, open) && SameRequests(s, f.s)
  {
    ServicesAreHonest(w, t, all, prefix, s, open);
    hide Honest, Ruled, Served, Observation;
    var reply := w.invoke(|s1.invoked|, call);
    var s2 := s1.(invoked := s1.invoked + [call]);
    var (ev, msg) := Observation(w, call, reply.value);
    ObservationKind(w, call, reply.value);
    ServedSnoc(w, s1.invoked, call);
    ClosingIsHonest(w, t, all, prefix, s, s2, open, ev, msg);
  }

  lemma InvokeCuts(w: Proxies, t: Turn, all: seq<Descriptor>, s: State, call: Call)
    requires CallsOf(s.events) != [] && CallsOf(s.events)[|CallsOf(s.events)| - 1] == call
    requires w.invoke(|s.invoked|, call).Raised?
    ensures DoInvoke(w, call, s).Escaped? && CutBy(w, t, all, DoInvoke(w, call, s).s)
  {
    hide CallsOf, Requested, AsksAbout;
  }

  lemma ServedSnoc(w: Proxies, invoked: seq<Call>, call: Call)
    requires Served(w, invoked) && w.invoke(|invoked|, call).Returned?
    ensures Served(w, invoked + [call])
  {}

  lemma ObservationKind(w: Proxies, call: Call, r: ToolReply)
    ensures Observation(w, call, r).0.ToolResult? && Observation(w, call, r).1.ToolMsg?
  {}

  predicate SameRequests(a: State, b: State) {
    a.prompts == b.prompts && a.streams == b.streams && a.chats == b.chats && a.iterations == b.iterations
  }

  lemma {:induction false} CallsAreHonest(w: Proxies, t: Turn, all: seq<Descriptor>, prefix: seq<Message>,
                                          calls: seq<RawCall>, s: State)
    requires Honest(w, t, all, prefix, s, calls)
    ensures
      var f := DoCalls(w, t, Wanted(t, all), calls, s);
      if f.Going? then Honest(w, t, all, prefix, f.s, []) && SameRequests(s, f.s) else CutBy(w, t, all, f.s)
  {
    if calls != [] {
      hide DoCall, Honest, CutBy, Wanted;
      assert calls == [calls[0]] + calls[1..];
      CallIsHonest(w, t, all, prefix, calls[0], calls[1..], s);
      var f := DoCall(w, t, Wanted(t, all), calls[0], s);
      if f.Going? {
        CallsAreHonest(w, t, all, prefix, calls[1..], f.s);
      }
    }
  }

  // A plain request and its reply, on record. The calls of the reply are still to come.
  lemma ReplyIsHonest(w: Proxies, t: Turn, all: seq<Descriptor>, prefix: seq<Message>, s: State, s1: State)
    requires Honest(w, t, all, prefix, s, []) && Recorded(w, s, s1)
    ensures Answered(w, s1) && Remembers(prefix, s1) && Ruled(w, t, all, s1.verdicts) && Served(w, s1.invoked)
    ensures !AsksForCalls(w.chat(|s.chats|, s.messages)) ==> Honest(w, t, all, prefix, s1, [])
  {
    assert |Asked(s.prompts, false)| == |s.chats|;
    hide Answered, Remembers, Replies, Requests, Requested, Ruled, Served, CallsOf, ThoughtsOf, Narrated, Shows, Asked;
    ReplyIsAnswered(w, s, s1);
    ReplyIsRemembered(w, prefix, s, s1);
    ChatSnoc(s.chats, w.chat(|s.chats|, s.messages));
  }

  predicate Recorded(w: Proxies, s: State, s1: State) {
    var r := w.chat(|s.chats|, s.messages);
    s1 == s.(prompts := s.prompts + [Prompt(false, s.messages)], chats := s.chats + [r],
             totalIn := s.totalIn + (if r.ChatReply? then r.tokensIn else 0),
             totalOut := s.totalOut + (if r.ChatReply? then r.tokensOut else 0))
  }

  lemma ReplyIsAnswered(w: Proxies, s: State, s1: State)
    requires Answered(w, s) && Recorded(w, s, s1)
    ensures Answered(w, s1)
  {
    hide Asked, SumIn, SumOut;
    AskedSnoc(s.prompts, Prompt(false, s.messages), true);
    AskedSnoc(s.prompts, Prompt(false, s.messages), false);
    TotalsSnoc(s, w.chat(|s.chats|, s.messages));
  }

  lemma TotalsSnoc(s: State, r: ChatReply)
    ensures SumIn(s.chats + [r]) == SumIn(s.chats) + if r.ChatReply? then r.tokensIn else 0
    ensures SumOut(s.chats + [r]) == SumOut(s.chats) + if r.ChatReply? then r.tokensOut else 0
  {
    RecordSnoc(s, Prompt(false, []), StreamReply([], None), r, true);
  }

  lemma ReplyIsRemembered(w: Proxies, prefix: seq<Message>, s: State, s1: State)
    requires Remembers(prefix, s) && Recorded(w, s, s1) && |Asked(s.prompts, false)| == |s.chats|
    requires prefix <= s.messages && Replies(s.messages[|prefix|..]) == Requests(s.chats)
    ensures Remembers(prefix, s1)
  {
    hide Asked, AsItStood, Replies, Requests;
    var r := w.chat(|s.chats|, s.messages);
    AskedSnoc(s.prompts, Prompt(false, s.messages), true);
    AskedSnoc(s.prompts, Prompt(false, s.messages), false);
    RequestStands(prefix, s.messages, s.chats, Asked(s.prompts, false));
    ChatsGrow(prefix, s.messages, s.chats, r, Asked(s1.prompts, false));
    ChatsGrow(prefix, s.messages, s.chats, r, Asked(s.prompts, true));
  }

  // What a reply with calls adds before its first call.
  lemma AskingIsHonest(w: Proxies, t: Turn, all: seq<Descriptor>, prefix: seq<Message>, s: State, s1: State)
    requires Honest(w, t, all, prefix, s, []) && Recorded(w, s, s1) && |s.chats| + 1 == s.iterations
    requires AsksForCalls(w.chat(|s.chats|, s.messages))
    ensures
      var msg := w.chat(|s.chats|, s.messages).choices[0];
      Honest(w, t, all, prefix, Asking(s1, msg), msg.calls)
  {
    ReplyIsHonest(w, t, all, prefix, s, s1);
    hide Answered, AsItStood, Replies, Requests, Requested, Ruled, Served, Asked, CallsOf, ThoughtsOf, Narrated, Strip;
    hide SumIn, SumOut, Shows;
    var r := w.chat(|s.chats|, s.messages);
    var msg := r.choices[0];
    var said := AssistantMsg(msg.content, msg.calls);
    var s2 := if Strip(msg.content) != "" then s1.Emit(Thoughts(Strip(msg.content), s1.iterations)) else s1;
    RepliesFollow(w, prefix, s, s2, r);
    LogGrows(prefix, s.messages, said, s1.chats, Asked(s1.prompts, true));
    LogGrows(prefix, s.messages, said, s1.chats, Asked(s1.prompts, false));
    TotalsAside(w, s1, s2.Say(said));
  }

  lemma TotalsAside(w: Proxies, s: State, s1: State)
    requires Answered(w, s)
    requires s1 == s.(events := s1.events, messages := s1.messages, verdicts := s1.verdicts, invoked := s1.invoked)
    ensures Answered(w, s1)
  {}

  lemma RepliesFollow(w: Proxies, prefix: seq<Message>, s: State, s1: State, r: ChatReply)
    requires Follows(w, prefix, s, []) && AsksForCalls(r) && s1.chats == s.chats + [r] && s1.messages == s.messages
    requires
      var thought := Strip(r.choices[0].content);
      s1.events == if thought != "" then s.events + [Thoughts(thought, |s.chats| + 1)] else s.events
    ensures Follows(w, prefix, s1.Say(AssistantMsg(r.choices[0].content, r.choices[0].calls)), r.choices[0].calls)
  {
    hide Replies, Requests, Requested, CallsOf, ThoughtsOf, Narrated, Strip, Shows;
    var msg := r.choices[0];
    ChatSnoc(s.chats, r);
    ReplySnoc(prefix, s.messages, AssistantMsg(msg.content, msg.calls));
    ThoughtSnoc(s.events, Thoughts(Strip(msg.content), |s.chats| + 1));
    ShowsMore(w, Requested(s.chats), CallsOf(s.events), msg.calls);
  }

  lemma ShowsMore(w: Proxies, asked: seq<RawCall>, shown: seq<Call>, open: seq<RawCall>)
    requires Shows(w, asked, shown, [])
    ensures Shows(w, asked + open, shown, open)
  {
    hide Reads;
  }

  // An event that ends the turn.
  lemma LastIsHonest(w: Proxies, t: Turn, all: seq<Descriptor>, prefix: seq<Message>, s: State, e: Event)
    requires Honest(w, t, all, prefix, s, []) && !e.ToolCall? && !e.Thoughts?
    ensures Honest(w, t, all, prefix, s.Emit(e), []) && Last(s.Emit(e).events) == e
  {
    ThoughtSnoc(s.events, e);
    assert Ruled(w, t, all, s.verdicts) && Served(w, s.invoked);
    hide Honest, Ruled, Served, CallsOf, ThoughtsOf;
    AsideIsHonest(w, t, all, prefix, s, s.Emit(e), []);
  }

  // In the middle of a round, before its plain request.
  predicate Midway(t: Turn, streaming: bool, s: State) {
    && |s.chats| + 1 == s.iterations <= t.maxIterations && |s.streams| == (if streaming then s.iterations else 0)
    && AllAsk(s.chats) && AllFallBack(s.streams)
  }

  // The states a plain request leads to, from the one with its reply on record.
  function Asking(s1: State, msg: Choice): State {
    var thought := Strip(msg.content);
    var s2 := if thought != "" then s1.Emit(Thoughts(thought, s1.iterations)) else s1;
    s2.Say(AssistantMsg(msg.content, msg.calls))
  }

  function Finished(s1: State, r: ChatReply, hits: seq<Json>): State {
    if r.ChatFailed? then s1.Emit(Error(Take(r.message, 500)))
    else if r.choices == [] then s1.Emit(Error(NoChoices()))
    else
      var content := r.choices[0].content;
      var s2 := if content != "" then s1.Emit(Delta(content)) else s1;
      s2.Emit(Final(content, s2.iterations, s2.totalIn, s2.totalOut, hits))
  }

  lemma ChatLeadsTo(w: Proxies, t: Turn, tools: seq<Descriptor>, hits: seq<Json>, s: State, s1: State)
    requires Recorded(w, s, s1)
    ensures
      var r := w.chat(|s.chats|, s.messages);
      DoChat(w, t, tools, hits, s)
        == if AsksForCalls(r) then DoCalls(w, t, tools, r.choices[0].calls, Asking(s1, r.choices[0]))
           else Stopped(Finished(s1, r, hits))
  {
    hide DoCalls, Strip, NoChoices, Take;
  }

  lemma ChatIsHonest(w: Proxies, t: Turn, all: seq<Descriptor>, hits: seq<Json>, prefix: seq<Message>,
                     streaming: bool, s: State)
    requires Honest(w, t, all, prefix, s, []) && Midway(t, streaming, s)
    ensures
      var f := DoChat(w, t, Wanted(t, all), hits, s);
      && (f.Going? ==> Honest(w, t, all, prefix, f.s, []) && Paced(streaming, f.s) && f.s.iterations <= t.maxIterations)
      && (f.Stopped? ==> Honest(w, t, all, prefix, f.s, []) && ClosedBy(t, streaming, hits, f.s))
      && (f.Escaped? ==> CutBy(w, t, all, f.s))
  {
    hide DoCalls, DoChat, Wanted, Honest, CutBy, FallsBack, ClosedBy, Finished, Strip;
    var r := w.chat(|s.chats|, s.messages);
    var s1 := s.(prompts := s.prompts + [Prompt(false, s.messages)], chats := s.chats + [r],
                 totalIn := s.totalIn + (if r.ChatReply? then r.tokensIn else 0),
                 totalOut := s.totalOut + (if r.ChatReply? then r.tokensOut else 0));
    ChatLeadsTo(w, t, Wanted(t, all), hits, s, s1);
    if AsksForCalls(r) {
      AskingIsHonest(w, t, all, prefix, s, s1);
      CallsAreHonest(w, t, all, prefix, r.choices[0].calls, Asking(s1, r.choices[0]));
    } else {
      FinishIsHonest(w, t, all, hits, prefix, streaming, s, s1);
    }
  }

  // A reply without calls ends the turn.
  lemma FinishIsHonest(w: Proxies, t: Turn, all: seq<Descriptor>, hits: seq<Json>, prefix: seq<Message>,
                       streaming: bool, s: State, s1: State)
    requires Honest(w, t, all, prefix, s, []) && Midway(t, streaming, s) && Recorded(w, s, s1)
    requires !AsksForCalls(w.chat(|s.chats|, s.messages))
    ensures
      var s2 := Finished(s1, w.chat(|s.chats|, s.messages), hits);
      Honest(w, t, all, prefix, s2, []) && ClosedBy(t, streaming, hits, s2)
  {
    var r := w.chat(|s.chats|, s.messages);
    ReplyIsHonest(w, t, all, prefix, s, s1);
    hide Honest, Remembers, SumIn, SumOut, Asked, Ruled, Served, ClosedBy, NoChoices, Take;
    FinishedIsHonest(w, t, all, hits, prefix, s1, r);
    assert s1.totalIn == SumIn(s1.chats) && s1.totalOut == SumOut(s1.chats);
    hide Answered;
    ReplyCloses(w, t, streaming, hits, s, s1, Finished(s1, r, hits));
  }

  lemma FinishedIsHonest(w: Proxies, t: Turn, all: seq<Descriptor>, hits: seq<Json>, prefix: seq<Message>, s: State,
                         r: ChatReply)
    requires Honest(w, t, all, prefix, s, []) && !AsksForCalls(r)
    ensures Honest(w, t, all, prefix, Finished(s, r, hits), [])
  {
    hide Honest, NoChoices, Take;
    if r.ChatFailed? {
      LastIsHonest(w, t, all, prefix, s, Error(Take(r.message, 500)));
    } else if r.choices == [] {
      LastIsHonest(w, t, all, prefix, s, Error(NoChoices()));
    } else {
      var content := r.choices[0].content;
      LastIsHonest(w, t, all, prefix, s, Delta(content));
      var s1 := if content != "" then s.Emit(Delta(content)) else s;
      LastIsHonest(w, t, all, prefix, s1, Final(content, s1.iterations, s1.totalIn, s1.totalOut, hits));
    }
  }

  lemma ReplyCloses(w: Proxies, t: Turn, streaming: bool, hits: seq<Json>, s: State, s1: State, s2: State)
    requires Midway(t, streaming, s) && Recorded(w, s, s1)
    requires s1.totalIn == SumIn(s1.chats) && s1.totalOut == SumOut(s1.chats)
    requires s2 == s1.(events := s2.events) && s2.events != []
    requires
      var r := w.chat(|s.chats|, s.messages);
      && !AsksForCalls(r)
      && s2.events[|s2.events| - 1] ==
         match r
         case ChatFailed(text) => Error(Take(text, 500))
         case ChatReply(_, _, choices) =>
           if choices == [] then Error(NoChoices()) else
             Final(choices[0].content, s1.iterations, s1.totalIn, s1.totalOut, hits)
    ensures ClosedBy(t, streaming, hits, s2)
  {
    hide SumIn, SumOut, FallsBack, StreamText, StreamCalls;
    assert s1.chats[..|s.chats|] == s.chats;
  }

  lemma {:induction false} DeltasAreSilent(events: seq<Event>, choices: seq<Choice>)
    ensures CallsOf(events + Deltas(choices)) == CallsOf(events)
    ensures ThoughtsOf(events + Deltas(choices)) == ThoughtsOf(events)
  {
    if choices == [] {
      assert events + [] == events;
    } else {
      var before, c := choices[..|choices| - 1], choices[|choices| - 1];
      DeltasAreSilent(events, before);
      hide CallsOf, ThoughtsOf, Deltas;
      StreamSnoc(before, c);
      assert choices == before + [c];
      DeltaIsSilent(events + Deltas(before), c);
      assert c.content != "" ==> events + Deltas(choices) == events + Deltas(before) + [Delta(c.content)];
      assert c.content == "" ==> Deltas(choices) == Deltas(before);
    }
  }

  lemma DeltaIsSilent(events: seq<Event>, c: Choice)
    ensures CallsOf(events + [Delta(c.content)]) == CallsOf(events)
    ensures ThoughtsOf(events + [Delta(c.content)]) == ThoughtsOf(events)
  {
    hide CallsOf, ThoughtsOf;
    ThoughtSnoc(events, Delta(c.content));
  }

  // A streamed request and its reply, on record.
  lemma StreamedIsHonest(w: Proxies, t: Turn, all: seq<Descriptor>, prefix: seq<Message>, s: State, s1: State)
    requires Honest(w, t, all, prefix, s, []) && |s.streams| == |s.chats|
    requires
      var r := w.stream(|s.streams|, s.messages);
      s1 == s.(prompts := s.prompts + [Prompt(true, s.messages)], streams := s.streams + [r],
               events := s.events + Deltas(Concat(r.chunks)))
    ensures Honest(w, t, all, prefix, s1, [])
  {
    hide Answered, Remembers, Follows, Ruled, Served, Deltas, Concat;
    StreamIsAnswered(w, s, s1);
    StreamIsRemembered(w, t, all, prefix, s, s1);
    StreamFollows(w, prefix, s, s1, Concat(w.stream(|s.streams|, s.messages).chunks));
  }

  lemma StreamIsRemembered(w: Proxies, t: Turn, all: seq<Descriptor>, prefix: seq<Message>, s: State, s1: State)
    requires Honest(w, t, all, prefix, s, []) && |s.streams| == |s.chats|
    requires s1 == s.(prompts := s.prompts + [Prompt(true, s.messages)], streams := s1.streams, events := s1.events)
    ensures Remembers(prefix, s1)
  {
    hide Replies, Requests, AsItStood, Asked, Shows, Ruled, Served, SumIn, SumOut;
    AskedSnoc(s.prompts, Prompt(true, s.messages), true);
    AskedSnoc(s.prompts, Prompt(true, s.messages), false);
    RequestStands(prefix, s.messages, s.chats, Asked(s.prompts, true));
  }

  lemma StreamFollows(w: Proxies, prefix: seq<Message>, s: State, s1: State, choices: seq<Choice>)
    requires Follows(w, prefix, s, [])
    requires s1 == s.(prompts := s1.prompts, streams := s1.streams, events := s.events + Deltas(choices))
    ensures Follows(w, prefix, s1, [])
  {
    hide Replies, Requests, Requested, CallsOf, ThoughtsOf, Narrated, Shows, Deltas;
    DeltasAreSilent(s.events, choices);
  }

  lemma StreamIsAnswered(w: Proxies, s: State, s1: State)
    requires Answered(w, s)
    requires s1 == s.(prompts := s.prompts + [Prompt(true, s.messages)], events := s1.events,
                      streams := s.streams + [w.stream(|s.streams|, s.messages)])
    ensures Answered(w, s1)
  {
    hide Asked, SumIn, SumOut;
    AskedSnoc(s.prompts, Prompt(true, s.messages), true);
    AskedSnoc(s.prompts, Prompt(true, s.messages), false);
  }

  lemma StreamIsHonest(w: Proxies, t: Turn, all: seq<Descriptor>, hits: seq<Json>, prefix: seq<Message>, s: State)
    requires Honest(w, t, all, prefix, s, [])
    requires |s.chats| + 1 == s.iterations <= t.maxIterations && |s.streams| == |s.chats|
    requires AllAsk(s.chats) && AllFallBack(s.streams)
    ensures
      var f := DoStream(w, hits, s);
      && Honest(w, t, all, prefix, f.s, [])
      && (if f.Going? then Midway(t, true, f.s) else ClosedBy(t, true, hits, f.s))
  {
    assert s.totalIn == SumIn(s.chats) && s.totalOut == SumOut(s.chats);
    var r := w.stream(|s.streams|, s.messages);
    var s1 := s.(prompts := s.prompts + [Prompt(true, s.messages)], streams := s.streams + [r],
                 events := s.events + Deltas(Concat(r.chunks)));
    StreamedIsHonest(w, t, all, prefix, s, s1);
    hide Honest, Deltas, Concat, StreamText, StreamCalls, AsksForCalls, SumIn, SumOut, Take, ClosedBy;
    assert s1.streams[..|s.streams|] == s.streams;
    if r.failure.Some? {
      var e := Error(Take(r.failure.value, 500));
      LastIsHonest(w, t, all, prefix, s1, e);
      StreamCloses(t, hits, s1, e);
    } else if !FallsBack(r) {
      var e := Final(StreamText(r), s.iterations, s.totalIn, s.totalOut, hits);
      LastIsHonest(w, t, all, prefix, s1, e);
      StreamCloses(t, hits, s1, e);
    }
  }

  // A streamed reply that failed, or did not give way, ends the turn.
  lemma StreamCloses(t: Turn, hits: seq<Json>, s: State, e: Event)
    requires |s.streams| == |s.chats| + 1 == s.iterations <= t.maxIterations
    requires AllAsk(s.chats) && AllFallBack(s.streams[..|s.chats|])
    requires
      var r := s.streams[|s.chats|];
      match r.failure
      case Some(text) => e == Error(Take(text, 500))
      case None =>
        !FallsBack(r) && e == Final(StreamText(r), s.iterations, SumIn(s.chats), SumOut(s.chats), hits)
    ensures ClosedBy(t, true, hits, s.Emit(e))
  {
    hide StreamText, StreamCalls, AsksForCalls, SumIn, SumOut, Take;
  }

  lemma {:induction false} RoundsAreHonest(w: Proxies, t: Turn, all: seq<Descriptor>, hits: seq<Json>,
                                           prefix: seq<Message>, s: State)
    requires Honest(w, t, all, prefix, s, []) && Paced(Streaming(t, Wanted(t, all)), s)
    requires s.iterations <= (if t.maxIterations > 0 then t.maxIterations else 0)
    ensures
      var f := DoRounds(w, t, Wanted(t, all), hits, s);
      && (f.Stopped? ==> Honest(w, t, all, prefix, f.s, []) && ClosedBy(t, Streaming(t, Wanted(t, all)), hits, f.s))
      && (f.Escaped? ==> CutBy(w, t, all, f.s))
    decreases t.maxIterations - s.iterations
  {
    hide DoStream, DoChat, Wanted, Honest, CutBy, AsksForCalls, FallsBack;
    var streaming := Streaming(t, Wanted(t, all));
    if s.iterations >= t.maxIterations {
      LastIsHonest(w, t, all, prefix, s, Error(LimitHit(t)));
    } else {
      hide LimitHit, ClosedBy;
      var f := Going(s.(iterations := s.iterations + 1));
      NewRoundIsHonest(w, t, all, prefix, s, f.s);
      if streaming {
        StreamIsHonest(w, t, all, hits, prefix, f.s);
        f := DoStream(w, hits, f.s);
      }
      if f.Going? {
        ChatIsHonest(w, t, all, hits, prefix, streaming, f.s);
        f := DoChat(w, t, Wanted(t, all), hits, f.s);
      }
      if f.Going? {
        RoundsAreHonest(w, t, all, hits, prefix, f.s);
      }
    }
  }

  lemma NewRoundIsHonest(w: Proxies, t: Turn, all: seq<Descriptor>, prefix: seq<Message>, s: State, s1: State)
    requires Honest(w, t, all, prefix, s, []) && s1 == s.(iterations := s.iterations + 1)
    ensures Honest(w, t, all, prefix, s1, [])
  {}

  // ----- The theorem -----

  // What the tool service lists, if it is asked and answers.
  function Listing(w: Proxies, t: Turn): seq<Descriptor> {
    if t.toolIds != [] && w.listTools.Returned? then w.listTools.value else []
  }

  predicate NoneUsable(t: Turn, all: seq<Descriptor>) {
    forall d <- all :: !d.enabled || d.id !in t.toolIds
  }

  lemma {:induction false} NoneIsWanted(t: Turn, all: seq<Descriptor>)
    ensures Wanted(t, all) == [] <==> NoneUsable(t, all)
  {
    if all != [] {
      var before, d := all[..|all| - 1], all[|all| - 1];
      NoneIsWanted(t, before);
      assert forall u <- all :: u in before || u == d;
    }
  }

  // In every turn that returns, each answer on record is the one the service gave to the request on
  // record, each request is the log as it then stood, messages, calls and thoughts stem from the replies
  // in order, and the last reply, or the limit, decides the last event. A turn is streamed exactly when
  // it has no usable tool and the LLM can stream.
  lemma EveryRecordIsHonest(w: Proxies, t: Turn)
    requires Play(w, t).Stopped?
    ensures
      var s := Play(w, t).s;
      var all := Listing(w, t);
      var hits := if t.rag && w.search.Returned? then w.search.value else [];
      && Honest(w, t, all, Prefix(w, t, hits), s, [])
      && ClosedBy(t, NoneUsable(t, all) && t.canStream, hits, s)
  {
    TurnIsHonest(w, t);
  }

  // A turn escapes only when the search or the listing raised, or the call it was at could not be
  // parsed, put to the policy or run.
  lemma EveryEscapeHasACause(w: Proxies, t: Turn)
    requires Play(w, t).Escaped?
    ensures (t.rag && w.search.Raised?) || (t.toolIds != [] && w.listTools.Raised?)
            || CutBy(w, t, Listing(w, t), Play(w, t).s)
  {
    if Hits(w, t).Returned? && Tools(w, t).Returned? {
      TurnIsHonest(w, t);
    }
  }

  lemma TurnIsHonest(w: Proxies, t: Turn)
    requires Hits(w, t).Returned? && Tools(w, t).Returned?
    ensures
      var f := Play(w, t);
      var all := Listing(w, t);
      var hits := Hits(w, t).value;
      && (f.Stopped? ==> Honest(w, t, all, Prefix(w, t, hits), f.s, [])
                         && ClosedBy(t, NoneUsable(t, all) && t.canStream, hits, f.s))
      && (f.Escaped? ==> CutBy(w, t, all, f.s))
  {
    hide DoRounds, Prefix, Opening, Wanted, ClosedBy, Honest, CutBy;
    var all := Listing(w, t);
    var hits := Hits(w, t).value;
    NoneIsWanted(t, all);
    NothingListed(w, t);
    StartIsHonest(w, t, all, hits, Prefix(w, t, hits));
    RoundsAreHonest(w, t, all, hits, Prefix(w, t, hits), Start(Prefix(w, t, hits), Opening(hits)));
  }

  lemma NothingListed(w: Proxies, t: Turn)
    requires Tools(w, t).Returned?
    ensures Tools(w, t).value == Wanted(t, Listing(w, t))
  {}

  lemma StartIsHonest(w: Proxies, t: Turn, all: seq<Descriptor>, hits: seq<Json>, prefix: seq<Message>)
    ensures Honest(w, t, all, prefix, Start(prefix, Opening(hits)), [])
    ensures Paced(true, Start(prefix, Opening(hits))) && Paced(false, Start(prefix, Opening(hits)))
  {
    OpeningIsSilent(hits);
    hide Opening, CallsOf, ThoughtsOf;
    assert prefix[|prefix|..] == [];
  }

  lemma OpeningIsSilent(hits: seq<Json>)
    ensures CallsOf(Opening(hits)) == [] && ThoughtsOf(Opening(hits)) == []
  {
    ThoughtSnoc([], Citations(hits));
    ThoughtSnoc([], Step);
    ThoughtSnoc([] + [Citations(hits)], Step);
    assert Opening(hits) == if hits != [] then [] + [Citations(hits)] + [Step] else [] + [Step];
  }
}
