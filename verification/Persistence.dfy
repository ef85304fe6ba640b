// How a turn's events are folded into a result (agent_runtime/runner.py) and saved: once by
// `/run`, from the folded result, and once by `/run/stream`, by replaying the events
// (agent_runtime/routes.py).
module Persistence {
  import opened Common
  import opened React
  import opened ReactTheorems
  import opened ReactOutcomes

  datatype RunResult = RunResult(
    finalMessage: string,
    toolCalls: seq<Call>,
    toolResults: seq<Event>,
    citations: seq<Json>,
    iterations: nat,
    tokensIn: int,
    tokensOut: int,
    error: Option<string>)

  // The `tool_call` column: the whole call on an assistant row, a reference to it on a tool row.
  datatype ToolRef = NoTool | Whole(call: Call) | Ref(id: Option<string>, name: string)

  // A message row; a content of None is JNull. The `meta` column is not modelled.
  datatype Row = Row(
    role: string, content: Json, toolCall: ToolRef, citations: seq<Json>, tokensIn: int, tokensOut: int)

  // The rows added to the database and the assistant texts appended to short-term memory.
  datatype Saved = Saved(rows: seq<Row>, memory: seq<string>)

  // ----- The fold -----

  function Absorb(r: RunResult, e: Event): RunResult {
    match e
    case ToolCall(call) => r.(toolCalls := r.toolCalls + [call])
    case ToolResult(_, _, _, _, _, _) => r.(toolResults := r.toolResults + [e])
    case Citations(hits) => r.(citations := hits)
    case Final(content, iterations, tokensIn, tokensOut, citations) =>
      r.(finalMessage := content, iterations := iterations, tokensIn := tokensIn, tokensOut := tokensOut,
         citations := if citations != [] then citations else r.citations)
    case Error(message) => r.(error := Some(message))
    case _ => r
  }

  function Fold(events: seq<Event>): RunResult {
    if events == [] then RunResult("", [], [], [], 0, 0, 0, None)
    else Absorb(Fold(events[..|events| - 1]), events[|events| - 1])
  }

  // The `async for` of run_agent.
  method CollectResult(events: seq<Event>) returns (r: RunResult)
    ensures r == Fold(events)
  {
    var finalText, iterations: nat, tokensIn, tokensOut := "", 0, 0, 0;
    var citations: seq<Json>, calls: seq<Call>, results: seq<Event> := [], [], [];
    var error: Option<string> := None;
    for i := 0 to |events|
      invariant RunResult(finalText, calls, results, citations, iterations, tokensIn, tokensOut, error)
        == Fold(events[..i])
    {
      assert events[..i + 1][..i] == events[..i];
      match events[i] {
        case ToolCall(call) => calls := calls + [call];
        case ToolResult(_, _, _, _, _, _) => results := results + [events[i]];
        case Citations(hits) => citations := hits;
        case Final(c, n, ti, to, cs) =>
          finalText, iterations, tokensIn, tokensOut := c, n, ti, to;
          if cs != [] {
            citations := cs;
          }
        case Error(message) => error := Some(message);
        case _ =>
      }
    }
    assert events[..|events|] == events;
    r := RunResult(finalText, calls, results, citations, iterations, tokensIn, tokensOut, error);
  }

  // ----- Saving -----

  function CallRow(call: Call): Row { Row("assistant", JNull, Whole(call), [], 0, 0) }

  function ResultRow(dumps: Json -> string, e: Event): Row
    requires e.ToolResult?
  {
    Row("tool", if e.ok then JStr(Take(dumps(e.result), 8000)) else e.error, Ref(e.id, e.name), [], 0, 0)
  }

  function ToolRows(dumps: Json -> string, events: seq<Event>): seq<Row> {
    if events == [] then []
    else
      var e := events[|events| - 1];
      ToolRows(dumps, events[..|events| - 1])
      + if e.ToolCall? then [CallRow(e.call)] else if e.ToolResult? then [ResultRow(dumps, e)] else []
  }

  function AnswerRow(content: string, citations: seq<Json>, tokensIn: int, tokensOut: int): Row {
    Row("assistant", JStr(content), NoTool, citations, tokensIn, tokensOut)
  }

  // What `/run` saves after the user message.
  function RunSaves(dumps: Json -> string, events: seq<Event>): Saved {
    var r := Fold(events);
    Saved(ToolRows(dumps, events)
          + (if r.finalMessage != "" || r.error.GetOr("") != "" then
               [AnswerRow(r.finalMessage, r.citations, r.tokensIn, r.tokensOut)]
             else []),
          if r.finalMessage != "" then [r.finalMessage] else [])
  }

  // What `/run/stream` saves after the user message.
  function StreamSaves(dumps: Json -> string, events: seq<Event>): Saved {
    if events == [] then Saved([], [])
    else
      var before := StreamSaves(dumps, events[..|events| - 1]);
      match events[|events| - 1]
      case ToolCall(call) => before.(rows := before.rows + [CallRow(call)])
      case ToolResult(_, _, _, _, _, _) => before.(rows := before.rows + [ResultRow(dumps, events[|events| - 1])])
      case Final(content, _, tokensIn, tokensOut, citations) =>
        Saved(before.rows + [AnswerRow(content, citations, tokensIn, tokensOut)],
              before.memory + if content != "" then [content] else [])
      case Error(_) => before.(rows := before.rows + [AnswerRow("", [], 0, 0)])
      case _ => before
  }

  method SaveRun(dumps: Json -> string, result: RunResult, events: seq<Event>)
      returns (rows: seq<Row>, memory: seq<string>)
    requires result == Fold(events)
    ensures Saved(rows, memory) == RunSaves(dumps, events)
  {
    rows, memory := [], [];
    for i := 0 to |events|
      invariant rows == ToolRows(dumps, events[..i])
    {
      assert events[..i + 1][..i] == events[..i];
      var e := events[i];
      if e.ToolCall? {
        rows := rows + [CallRow(e.call)];
      } else if e.ToolResult? {
        rows := rows + [ResultRow(dumps, e)];
      }
    }
    assert events[..|events|] == events;
    if result.finalMessage != "" || result.error.GetOr("") != "" {
      rows := rows + [AnswerRow(result.finalMessage, result.citations, result.tokensIn, result.tokensOut)];
      if result.finalMessage != "" {
        memory := memory + [result.finalMessage];
      }
    }
  }

  method SaveStream(dumps: Json -> string, events: seq<Event>) returns (rows: seq<Row>, memory: seq<string>)
    ensures Saved(rows, memory) == StreamSaves(dumps, events)
  {
    rows, memory := [], [];
    for i := 0 to |events|
      invariant Saved(rows, memory) == StreamSaves(dumps, events[..i])
    {
      assert events[..i + 1][..i] == events[..i];
      match events[i] {
        case ToolCall(call) => rows := rows + [CallRow(call)];
        case ToolResult(_, _, _, _, _, _) => rows := rows + [ResultRow(dumps, events[i])];
        case Final(content, _, tokensIn, tokensOut, citations) =>
          rows := rows + [AnswerRow(content, citations, tokensIn, tokensOut)];
          if content != "" {
            memory := memory + [content];
          }
        case Error(_) => rows := rows + [AnswerRow("", [], 0, 0)];
        case _ =>
      }
    }
    assert events[..|events|] == events;
  }

  // ----- The two ways of saving compared -----

  // Before the terminal event the two have saved the same and the fold holds no answer yet.
  lemma {:induction false} BeforeTheEnd(dumps: Json -> string, events: seq<Event>)
    requires Scan(events) != Bad && Scan(events) != Done
    ensures StreamSaves(dumps, events) == Saved(ToolRows(dumps, events), [])
    ensures
      var r := Fold(events);
      && r.finalMessage == "" && r.error == None && r.iterations == 0 && r.tokensIn == 0 == r.tokensOut
      && r.citations == CitedHits(events)
  {
    if events != [] {
      var before := events[..|events| - 1];
      BeforeTheEnd(dumps, before);
      StepOnce(before, |before|);
      assert before[..|before|] == before;
    }
  }

  // When the last event is saved alike.
  predicate SavedAlike(last: Event, hits: seq<Json>) {
    match last
    case Final(content, _, _, _, _) => content != ""
    case Error(message) => message != "" && hits == []
    case _ => false
  }

  // For every trace in the grammar whose final event repeats the cited hits, the two ways save the
  // same rows and the same memory exactly when the answer is not empty or, for a failed turn, when
  // the error text is not empty and nothing was cited.
  lemma SavesAgree(dumps: Json -> string, events: seq<Event>)
    requires Scan(events) == Done
    requires Last(events).Final? ==> Last(events).citations == CitedHits(events)
    ensures RunSaves(dumps, events) == StreamSaves(dumps, events) <==> SavedAlike(Last(events), CitedHits(events))
  {
    var before, last := events[..|events| - 1], Last(events);
    EndSaves(dumps, events);
    hide Fold, ToolRows, StreamSaves, RunSaves, Scan, CitedHits;
    var tools := ToolRows(dumps, before);
    match last
    case Final(content, _, tokensIn, tokensOut, citations) =>
      assert tools + [] != tools + [AnswerRow(content, citations, tokensIn, tokensOut)];
    case Error(_) =>
      RowsDiffer(tools, AnswerRow("", CitedHits(events), 0, 0), AnswerRow("", [], 0, 0));
    case _ =>
  }

  lemma RowsDiffer(rows: seq<Row>, a: Row, b: Row)
    ensures rows + [a] == rows + [b] <==> a == b
    ensures rows + [] != rows + [b]
  {
    if a != b {
      assert (rows + [a])[|rows|] != (rows + [b])[|rows|];
    }
  }

  // What the two ways make of the last event.
  lemma EndSaves(dumps: Json -> string, events: seq<Event>)
    requires Scan(events) == Done
    requires Last(events).Final? ==> Last(events).citations == CitedHits(events)
    ensures
      var tools := ToolRows(dumps, events[..|events| - 1]);
      var run, stream := RunSaves(dumps, events), StreamSaves(dumps, events);
      match Last(events)
      case Final(content, _, tokensIn, tokensOut, citations) =>
        var answer := AnswerRow(content, citations, tokensIn, tokensOut);
        && run == Saved(tools + (if content != "" then [answer] else []), if content != "" then [content] else [])
        && stream == Saved(tools + [answer], if content != "" then [content] else [])
      case Error(message) =>
        && run == Saved(tools + (if message != "" then [AnswerRow("", CitedHits(events), 0, 0)] else []), [])
        && stream == Saved(tools + [AnswerRow("", [], 0, 0)], [])
      case _ => false
  {
    var before := events[..|events| - 1];
    EndEvent(events);
    FoldEnd(dumps, events);
    BeforeTheEnd(dumps, before);
    StreamEnd(dumps, events);
    RunEnd(dumps, events, CitedHits(events));
    hide ToolRows, Scan, CitedHits, Fold, StreamSaves, RunSaves, AnswerRow;
  }

  lemma RunEnd(dumps: Json -> string, events: seq<Event>, hits: seq<Json>)
    requires events != []
    requires
      var r := Fold(events[..|events| - 1]);
      r.finalMessage == "" && r.error == None && r.tokensIn == 0 == r.tokensOut && r.citations == hits
    requires Last(events).Final? ==> Last(events).citations == hits
    ensures
      var tools := ToolRows(dumps, events[..|events| - 1]);
      var run := RunSaves(dumps, events);
      match Last(events)
      case Final(content, _, tokensIn, tokensOut, citations) =>
        var answer := AnswerRow(content, citations, tokensIn, tokensOut);
        run == Saved(tools + (if content != "" then [answer] else []), if content != "" then [content] else [])
      case Error(message) =>
        run == Saved(tools + (if message != "" then [AnswerRow("", hits, 0, 0)] else []), [])
      case _ => true
  {
    FoldEnd(dumps, events);
    hide ToolRows, Fold, AnswerRow;
  }

  lemma StreamEnd(dumps: Json -> string, events: seq<Event>)
    requires events != [] && StreamSaves(dumps, events[..|events| - 1]).memory == []
    ensures
      var before := StreamSaves(dumps, events[..|events| - 1]);
      match Last(events)
      case Final(content, _, tokensIn, tokensOut, citations) =>
        StreamSaves(dumps, events) == Saved(before.rows + [AnswerRow(content, citations, tokensIn, tokensOut)],
                                            if content != "" then [content] else [])
      case Error(_) => StreamSaves(dumps, events) == Saved(before.rows + [AnswerRow("", [], 0, 0)], [])
      case _ => true
  {
    hide AnswerRow;
  }

  lemma EndEvent(events: seq<Event>)
    requires Scan(events) == Done
    ensures
      var before := events[..|events| - 1];
      && (Last(events).Final? || Last(events).Error?)
      && Scan(before) != Bad && Scan(before) != Done && CitedHits(events) == CitedHits(before)
  {
    var before := events[..|events| - 1];
    assert before + [Last(events)] == events;
    EventSnoc(before, Last(events));
    hide Scan, CitedHits;
  }

  lemma FoldEnd(dumps: Json -> string, events: seq<Event>)
    requires events != []
    ensures Fold(events) == Absorb(Fold(events[..|events| - 1]), Last(events))
    ensures Last(events).Final? || Last(events).Error? ==>
              ToolRows(dumps, events) == ToolRows(dumps, events[..|events| - 1])
  {
    hide Absorb;
  }

  // The same for every turn the engine can play.
  lemma TurnSavesAgree(w: Proxies, t: Turn)
    requires Play(w, t).Stopped?
    ensures
      var events := Play(w, t).s.events;
      RunSaves(w.dumps, events) == StreamSaves(w.dumps, events) <==> SavedAlike(Last(events), Hits(w, t).value)
  {
    hide DoRounds, Wanted, Opening, Prefix, Scan, CitedHits, Gated, RunSaves, StreamSaves;
    EveryTurn(w, t);
    SavesAgree(w.dumps, Play(w, t).s.events);
  }

  // Two traces that are saved differently: an empty answer, and an error after citations.
  lemma SavesCanDiffer(dumps: Json -> string, hit: Json)
    ensures
      var empty := Opening([]) + [Final("", 1, 0, 0, [])];
      Scan(empty) == Done && RunSaves(dumps, empty) != StreamSaves(dumps, empty)
    ensures
      var failed := Opening([hit]) + [Error("x")];
      Scan(failed) == Done && RunSaves(dumps, failed) != StreamSaves(dumps, failed)
  {
    hide RunSaves, StreamSaves, Scan, Opening;
    ShortTurn(dumps, [], Final("", 1, 0, 0, []));
    ShortTurn(dumps, [hit], Error("x"));
  }

  lemma ShortTurn(dumps: Json -> string, hits: seq<Json>, last: Event)
    requires last.Error? || (last.Final? && last.citations == hits)
    ensures
      var events := Opening(hits) + [last];
      Scan(events) == Done && (RunSaves(dumps, events) == StreamSaves(dumps, events) <==> SavedAlike(last, hits))
  {
    ShortScan(hits, last);
    hide *;
    SavesAgree(dumps, Opening(hits) + [last]);
  }

  lemma ShortScan(hits: seq<Json>, last: Event)
    requires last.Error? || last.Final?
    ensures
      var events := Opening(hits) + [last];
      Scan(events) == Done && CitedHits(events) == hits && Last(events) == last
  {
    OpeningScans(hits);
    EventSnoc(Opening(hits), last);
    hide Scan, Opening, CitedHits;
    assert hits + [] == hits;
  }

  // A search that finds `hits` and an LLM that always gives one reply, without streaming.
  function Answering(w: Proxies, hits: seq<Json>, reply: ChatReply): Proxies {
    w.(search := Returned(hits), chat := (n, messages) => reply)
  }

  function Asking(rag: bool): Turn {
    Turn("", [], rag, [], "hello", 1, false, false)
  }

  lemma PlayedOnce(w: Proxies, hits: seq<Json>, reply: ChatReply)
    requires reply.ChatFailed? || (reply.choices == [Choice("", [])] && reply.tokensIn == 0 == reply.tokensOut)
    ensures
      var f := Play(Answering(w, hits, reply), Asking(true));
      f.Stopped? && Hits(Answering(w, hits, reply), Asking(true)) == Returned(hits)
      && f.s.events == Opening(hits)
         + [if reply.ChatFailed? then Error(Take(reply.message, 500)) else Final("", 1, 0, 0, hits)]
  {
    var w1, t := Answering(w, hits, reply), Asking(true);
    assert w1.search == Returned(hits) && forall n, messages :: w1.chat(n, messages) == reply;
    hide Opening, Prefix, Answering, LimitHit, NoChoices, Take, Strip, DoCalls;
    var start := Start(Prefix(w1, t, hits), Opening(hits));
    var s1 := start.(iterations := 1);
    assert DoRounds(w1, t, [], hits, start) == DoChat(w1, t, [], hits, s1);
  }

  // Turns the two routes save differently, played by any proxies but for these answers: an empty final
  // answer, and an LLM that fails after citations.
  lemma PlayedTurnsDiffer(w: Proxies, hit: Json)
    ensures
      var empty := Play(Answering(w, [], ChatReply(0, 0, [Choice("", [])])), Asking(true));
      empty.Stopped? && RunSaves(w.dumps, empty.s.events) != StreamSaves(w.dumps, empty.s.events)
    ensures
      var failed := Play(Answering(w, [hit], ChatFailed("x")), Asking(true));
      failed.Stopped? && RunSaves(w.dumps, failed.s.events) != StreamSaves(w.dumps, failed.s.events)
  {
    hide Play, RunSaves, StreamSaves, Opening;
    PlayedOnce(w, [], ChatReply(0, 0, [Choice("", [])]));
    TurnSavesAgree(Answering(w, [], ChatReply(0, 0, [Choice("", [])])), Asking(true));
    PlayedOnce(w, [hit], ChatFailed("x"));
    TurnSavesAgree(Answering(w, [hit], ChatFailed("x")), Asking(true));
  }

  // ----- The result's lists pair up -----

  lemma {:induction false} ResultsPair(events: seq<Event>)
    requires Scan(events) != Bad
    ensures
      var r := Fold(events);
      && |r.toolCalls| == |r.toolResults| + (if Scan(events).Called? then 1 else 0)
      && (Scan(events).Called? ==>
            var c := r.toolCalls[|r.toolCalls| - 1];
            c.id == Scan(events).id && c.name == Scan(events).name)
      && forall i :: 0 <= i < |r.toolResults| ==>
           && r.toolResults[i].ToolResult? && r.toolResults[i].id == r.toolCalls[i].id
           && r.toolResults[i].name == r.toolCalls[i].name
  {
    if events != [] {
      ResultsPair(events[..|events| - 1]);
    }
  }

  // The result of run_agent for every turn that returns: paired lists, and on success the totals,
  // the round count and the citations of the turn itself.
  lemma TurnResult(w: Proxies, t: Turn)
    requires Play(w, t).Stopped?
    ensures
      var s := Play(w, t).s;
      var r := Fold(s.events);
      && |r.toolCalls| == |r.toolResults|
      && (forall i :: 0 <= i < |r.toolResults| ==>
            r.toolResults[i].ToolResult? && r.toolResults[i].id == r.toolCalls[i].id)
      && (Last(s.events).Final? ==>
            && r.error == None && r.tokensIn == SumIn(s.chats) && r.tokensOut == SumOut(s.chats)
            && r.iterations == s.iterations && r.citations == Hits(w, t).value
            && r.finalMessage == Last(s.events).content)
      && (Last(s.events).Error? ==>
            && r.finalMessage == "" && r.error == Some(Last(s.events).message)
            && r.iterations == 0 && r.tokensIn == 0 == r.tokensOut && r.citations == Hits(w, t).value)
  {
    hide DoRounds, Wanted, Opening, Prefix, Gated;
    EveryTurn(w, t);
    var events := Play(w, t).s.events;
    ResultsPair(events);
    BeforeTheEnd(w.dumps, events[..|events| - 1]);
  }

  // Of any trace: the last final event that cites something gives the citations, and an event of another
  // kind changes nothing but its own part.
  lemma FoldOneByOne(events: seq<Event>, e: Event)
    ensures
      var before, r := Fold(events), Fold(events + [e]);
      match e
      case Final(content, iterations, tokensIn, tokensOut, citations) =>
        && r == before.(finalMessage := content, iterations := iterations, tokensIn := tokensIn,
                        tokensOut := tokensOut, citations := r.citations)
        && (citations != [] ==> r.citations == citations) && (citations == [] ==> r.citations == before.citations)
      case Citations(hits) => r == before.(citations := hits)
      case Error(message) => r == before.(error := Some(message))
      case _ => r == before.(toolCalls := r.toolCalls, toolResults := r.toolResults)
  {
    assert (events + [e])[..|events|] == events;
  }

  // ----- What the saved rows hold -----

  // The calls and the answers of the result are those of the trace, in order.
  lemma {:induction false} FoldedCalls(events: seq<Event>)
    ensures Fold(events).toolCalls == CallsOf(events) && Fold(events).toolResults == Results(events)
  {
    if events != [] {
      FoldedCalls(events[..|events| - 1]);
    }
  }

  // The rows of the k-th call: the call itself, then its answer cut to 8000 characters, or its error.
  predicate RowsOfCall(dumps: Json -> string, call: Call, answer: Event, saved: Row, answered: Row) {
    && answer.ToolResult? && answer.id == call.id && answer.name == call.name
    && saved == Row("assistant", JNull, Whole(call), [], 0, 0)
    && answered.role == "tool" && answered.toolCall == Ref(call.id, call.name)
    && answered.citations == [] && answered.tokensIn == 0 == answered.tokensOut
    && answered.content == (if answer.ok then JStr(Take(dumps(answer.result), 8000)) else answer.error)
  }

  // Two rows for each answered call, and one for a call still to be answered.
  predicate Paired(dumps: Json -> string, phase: Phase, calls: seq<Call>, answers: seq<Event>, rows: seq<Row>) {
    && |calls| == |answers| + (if phase.Called? then 1 else 0) && |rows| == |calls| + |answers|
    && (phase.Called? ==>
          && calls[|answers|].id == phase.id && calls[|answers|].name == phase.name
          && rows[2 * |answers|] == Row("assistant", JNull, Whole(calls[|answers|]), [], 0, 0))
    && forall k :: 0 <= k < |answers| ==> RowsOfCall(dumps, calls[k], answers[k], rows[2 * k], rows[2 * k + 1])
  }

  lemma {:induction false} ToolRowsAt(dumps: Json -> string, events: seq<Event>)
    requires Scan(events) != Bad
    ensures Paired(dumps, Scan(events), CallsOf(events), Results(events), ToolRows(dumps, events))
  {
    hide Paired;
    if events == [] {
      NoRows(dumps);
    } else {
      var before, e := events[..|events| - 1], events[|events| - 1];
      assert before + [e] == events;
      ScanPrefix(events, |before|);
      hide Scan, CallsOf, Results, ToolRows;
      ToolRowsAt(dumps, before);
      MoreRows(dumps, before, e);
    }
  }

  lemma MoreRows(dumps: Json -> string, before: seq<Event>, e: Event)
    requires Paired(dumps, Scan(before), CallsOf(before), Results(before), ToolRows(dumps, before))
    requires Scan(before + [e]) != Bad
    ensures
      var events := before + [e];
      Paired(dumps, Scan(events), CallsOf(events), Results(events), ToolRows(dumps, events))
  {
    EventSnoc(before, e);
    EventCounts(before, e);
    ToolRowsSnoc(dumps, before, e);
    hide Paired, Scan, CallsOf, Results, ToolRows, CallRow, ResultRow;
    assert Results(before) + [] == Results(before) && CallsOf(before) + [] == CallsOf(before);
    ToolRowsNext(dumps, Scan(before), CallsOf(before), Results(before), ToolRows(dumps, before), e);
  }

  lemma NoRows(dumps: Json -> string)
    ensures Paired(dumps, Scan([]), CallsOf([]), Results([]), ToolRows(dumps, []))
  {}

  lemma ToolRowsNext(dumps: Json -> string, phase: Phase, calls: seq<Call>, answers: seq<Event>, rows: seq<Row>,
                     e: Event)
    requires Paired(dumps, phase, calls, answers, rows) && Next(phase, e) != Bad
    ensures e.ToolCall? ==> Paired(dumps, Next(phase, e), calls + [e.call], answers, rows + [CallRow(e.call)])
    ensures e.ToolResult? ==> Paired(dumps, Next(phase, e), calls, answers + [e], rows + [ResultRow(dumps, e)])
    ensures !e.ToolCall? && !e.ToolResult? ==> Paired(dumps, Next(phase, e), calls, answers, rows)
  {
    if e.ToolResult? {
      hide Take;
      assert RowsOfCall(dumps, calls[|answers|], e, rows[2 * |answers|], ResultRow(dumps, e));
    }
    hide RowsOfCall;
  }

  lemma ToolRowsSnoc(dumps: Json -> string, before: seq<Event>, e: Event)
    ensures ToolRows(dumps, before + [e])
         == if e.ToolCall? then ToolRows(dumps, before) + [CallRow(e.call)]
            else if e.ToolResult? then ToolRows(dumps, before) + [ResultRow(dumps, e)]
            else ToolRows(dumps, before)
  {
    hide CallRow, ResultRow;
    assert (before + [e])[..|before|] == before;
  }

  // Every turn that returns, saved by either route: two rows for each of its calls, in order, the call
  // and what became of it; then the row of the answer with the hits and the totals of the turn, which
  // `/run` leaves out when the answer is empty; or, for an error, an empty row.
  lemma SavedRowsMean(w: Proxies, t: Turn)
    requires Play(w, t).Stopped?
    ensures
      var s := Play(w, t).s;
      var run, stream := RunSaves(w.dumps, s.events), StreamSaves(w.dumps, s.events);
      var calls, answers, last := CallsOf(s.events), Results(s.events), Last(s.events);
      var n := 2 * |calls|;
      && |answers| == |calls| && |run.rows| >= n && |stream.rows| == n + 1 && run.rows[..n] == stream.rows[..n]
      && (forall k :: 0 <= k < |calls| ==>
            RowsOfCall(w.dumps, calls[k], answers[k], run.rows[2 * k], run.rows[2 * k + 1]))
      && (last.Final? ==>
            var answer :=
              Row("assistant", JStr(last.content), NoTool, Hits(w, t).value, SumIn(s.chats), SumOut(s.chats));
            && stream.rows[n] == answer && run.rows[n..] == (if last.content != "" then [answer] else [])
            && run.memory == stream.memory == (if last.content != "" then [last.content] else []))
      && (last.Error? ==>
            && stream.rows[n] == Row("assistant", JStr(""), NoTool, [], 0, 0)
            && run.rows[n..]
               == (if last.message != "" then [Row("assistant", JStr(""), NoTool, Hits(w, t).value, 0, 0)] else [])
            && run.memory == stream.memory == [])
  {
    var events := Play(w, t).s.events;
    EveryTurn(w, t);
    hide Play, Wanted, Opening, Prefix, Gated, RowsOfCall, RunSaves, StreamSaves, Scan, PromptsComplete;
    hide CitedHits, CallsOf, Results, ToolRows, SumIn, SumOut, DeltaText, Discarded, RoundsAsked;
    EndSaves(w.dumps, events);
    EndRows(w.dumps, events);
    var before := events[..|events| - 1];
    ToolRowsAt(w.dumps, before);
  }

  // The last event is neither a call nor an answer to one.
  lemma EndRows(dumps: Json -> string, events: seq<Event>)
    requires Scan(events) == Done
    ensures
      var before := events[..|events| - 1];
      && Scan(before) != Bad && !Scan(before).Called?
      && CallsOf(before) == CallsOf(events) && Results(before) == Results(events)
  {
    var before := events[..|events| - 1];
    assert before + [Last(events)] == events;
    EventSnoc(before, Last(events));
    EventCounts(before, Last(events));
    hide Scan, CallsOf, Results;
  }
}
