// What becomes of everything a client sends over the run/cancel protocol: each message gets its run,
// each run can end, each stop and each failure is told, and each reply of the gateway itself has its
// cause. All theorems hold for all interleavings.
module ChatRuns {
  import opened Common
  import opened ChatSocket
  import Sse

  // ----- Every message gets its run -----

  // What a step takes from the client: a message with text, while the reader receives.
  function Taken(s: Socket, step: Step): seq<string> {
    if s.reader == Receiving && step.Client? && step.message.UserMessage? && Strip(step.message.content) != "" then
      [Strip(step.message.content)]
    else []
  }

  function AllTaken(parse: string -> Option<Json>, steps: seq<Step>): seq<string> {
    if steps == [] then []
    else
      var before := steps[..|steps| - 1];
      AllTaken(parse, before) + Taken(Exec(parse, before), steps[|steps| - 1])
  }

  // The message that waits for the live run to finish.
  function Held(reader: Reader): seq<string> {
    if reader.Joining? && reader.next.Some? then [reader.next.value] else []
  }

  function Texts(tasks: seq<Task>): seq<string> {
    seq(|tasks|, i requires 0 <= i < |tasks| => tasks[i].text)
  }

  lemma WakingKeepsTexts(parse: string -> Option<Json>, s: Socket, run: nat, input: Input)
    requires run < |s.tasks|
    ensures
      var s1 := WakeTask(parse, s, run, input);
      s1.reader == s.reader && |s1.tasks| == |s.tasks| && Texts(s1.tasks) == Texts(s.tasks)
  {
    hide Sse.DataPrefix, Sse.DoneMark, Take;
  }

  lemma StartAddsText(s: Socket, text: string)
    ensures Texts(StartRun(s, text).tasks) == Texts(s.tasks) + [text]
  {}

  lemma StopKeepsTexts(s: Socket, reader: Reader, flag: bool)
    requires Live(s)
    ensures Texts(StopLast(s, reader, flag).tasks) == Texts(s.tasks)
  {}

  lemma ReceiveTakes(parse: string -> Option<Json>, s: Socket, m: ClientMessage)
    requires s.reader == Receiving
    ensures
      var s1 := Receive(s, m);
      Texts(s1.tasks) + Held(s1.reader) == Texts(s.tasks) + Taken(s, Client(m))
  {
    hide Strip, Texts;
    if Live(s) && m.Cancel? {
      StopKeepsTexts(s, Joining(None), true);
    } else if m.UserMessage? && Strip(m.content) != "" {
      if Live(s) {
        StopKeepsTexts(s, Joining(Some(Strip(m.content))), true);
      } else {
        StartAddsText(s, Strip(m.content));
      }
    }
  }

  lemma ReaderTakes(parse: string -> Option<Json>, s: Socket)
    ensures
      var s1 := WakeReader(s);
      Texts(s1.tasks) + Held(s1.reader) == Texts(s.tasks) + Held(s.reader)
  {
    if s.reader.Joining? && s.reader.next.Some? && !Live(s) {
      StartAddsText(if s.tasks != [] then Emit(s, CancelHandled(|s.tasks| - 1)) else s, s.reader.next.value);
    }
    hide Texts, StartRun;
  }

  lemma StepTakes(parse: string -> Option<Json>, s: Socket, step: Step)
    ensures
      var s1 := Apply(parse, s, step);
      Texts(s1.tasks) + Held(s1.reader) == Texts(s.tasks) + Held(s.reader) + Taken(s, step)
  {
    hide Strip, WakeTask, Texts, Receive, WakeReader, Live;
    match step
    case TaskWakes(run, input) =>
      if run < |s.tasks| {
        WakingKeepsTexts(parse, s, run, input);
      }
    case Client(m) =>
      if s.reader == Receiving {
        ReceiveTakes(parse, s, m);
      }
    case ReaderWakes =>
      ReaderTakes(parse, s);
    case ReplyRaises(disconnect) =>
      if s.reader == Replying && disconnect && Live(s) {
        StopKeepsTexts(s, Gone, s.flag);
      }
  }

  // The runs started so far, and the message that waits, are the messages taken from the client, in
  // order: none is dropped, doubled or passed over.
  lemma {:induction false} EveryMessageGetsItsRun(parse: string -> Option<Json>, steps: seq<Step>)
    ensures
      var s := Exec(parse, steps);
      Texts(s.tasks) + Held(s.reader) == AllTaken(parse, steps)
  {
    if steps != [] {
      hide Texts, Held, Taken, Apply;
      EveryMessageGetsItsRun(parse, steps[..|steps| - 1]);
      StepTakes(parse, Exec(parse, steps[..|steps| - 1]), steps[|steps| - 1]);
    }
  }

  // ----- Every run can end, and then the reader goes on -----

  // The inputs that end a run wherever it is suspended; those that do not apply change nothing.
  function WayOut(r: nat): seq<Step> {
    [TaskWakes(r, Begin), TaskWakes(r, Sent), TaskWakes(r, EndOfStream), TaskWakes(r, Closed), TaskWakes(r, Sent)]
  }

  predicate AllFinished(tasks: seq<Task>) {
    forall i :: 0 <= i < |tasks| ==> tasks[i].at == Finished
  }

  // How far a task is after n of them.
  predicate OnTheWay(n: nat, t: Task) {
    match n
    case 0 => t.cancelled ==> t.at != Finished
    case 1 => !t.cancelled && t.at != Fresh
    case 2 => !t.cancelled && t.at in {Waiting, Closing, ClosingDone, Unwinding, Finished}
    case 3 => !t.cancelled && t.at in {Closing, ClosingDone, Unwinding, Finished}
    case 4 => !t.cancelled && t.at in {SendingLate, Finished}
    case _ => !t.cancelled && t.at == Finished
  }

  lemma OneOnTheWay(parse: string -> Option<Json>, s: Socket, r: nat, n: nat)
    requires r < |s.tasks| && n < 5 && OnTheWay(n, s.tasks[r])
    ensures
      var s1 := Apply(parse, s, WayOut(r)[n]);
      r < |s1.tasks| && OnTheWay(n + 1, s1.tasks[r]) && s1.reader == s.reader && Texts(s1.tasks) == Texts(s.tasks)
  {
    WakingKeepsTexts(parse, s, r, WayOut(r)[n].input);
    hide Texts, ReadLine, Fail, Take;
  }

  lemma {:induction false} SomeOnTheWay(parse: string -> Option<Json>, steps: seq<Step>, r: nat, n: nat)
    requires r < |Exec(parse, steps).tasks| && n <= |WayOut(r)|
    ensures
      var s, s1 := Exec(parse, steps), Exec(parse, steps + WayOut(r)[..n]);
      r < |s1.tasks| && OnTheWay(n, s1.tasks[r]) && s1.reader == s.reader && Texts(s1.tasks) == Texts(s.tasks)
  {
    if n == 0 {
      assert steps + WayOut(r)[..0] == steps;
      AlwaysInv(parse, steps);
      assert TaskOk(parse, Exec(parse, steps), r);
    } else {
      hide OnTheWay, Texts, Apply, Exec, WayOut;
      assert |WayOut(r)| == 5 by { FiveSteps(r); }
      SomeOnTheWay(parse, steps, r, n - 1);
      OneOnTheWay(parse, Exec(parse, steps + WayOut(r)[..n - 1]), r, n - 1);
      ExecSnoc(parse, steps + WayOut(r)[..n - 1], WayOut(r)[n - 1]);
      OneStepOn(steps, WayOut(r), n);
    }
  }

  lemma FiveSteps(r: nat)
    ensures |WayOut(r)| == 5
  {}

  lemma OneStepOn(a: seq<Step>, b: seq<Step>, n: nat)
    requires 0 < n <= |b|
    ensures a + b[..n] == a + b[..n - 1] + [b[n - 1]]
  {}

  // Whatever happened, five inputs end the newest run, and with it all; a reader that waits for it then
  // receives again, and the message it held has its run.
  lemma EveryRunCanEnd(parse: string -> Option<Json>, steps: seq<Step>)
    requires Exec(parse, steps).tasks != []
    ensures
      var s := Exec(parse, steps);
      var onward := steps + WayOut(|s.tasks| - 1);
      var s1, s2 := Exec(parse, onward), Exec(parse, onward + [ReaderWakes]);
      && AllFinished(s1.tasks)
      && (s.reader.Joining? ==> s2.reader == Receiving && Texts(s2.tasks) == Texts(s.tasks) + Held(s.reader))
  {
    var s := Exec(parse, steps);
    var onward := steps + WayOut(|s.tasks| - 1);
    AllEnd(parse, steps);
    var s1 := Exec(parse, onward);
    ExecSnoc(parse, onward, ReaderWakes);
    hide Exec, Texts, WayOut;
    if s.reader.Joining? {
      ReaderTakes(parse, s1);
      ReaderGoesOn(s1);
    }
  }

  lemma AllEnd(parse: string -> Option<Json>, steps: seq<Step>)
    requires Exec(parse, steps).tasks != []
    ensures
      var s := Exec(parse, steps);
      var s1 := Exec(parse, steps + WayOut(|s.tasks| - 1));
      && AllFinished(s1.tasks) && s1.reader == s.reader && Texts(s1.tasks) == Texts(s.tasks)
  {
    var r := |Exec(parse, steps).tasks| - 1;
    hide Exec, WayOut, Texts;
    Arrives(parse, steps, r);
    SameLength(Exec(parse, steps).tasks, Exec(parse, steps + WayOut(r)).tasks);
    WithTheNewest(parse, steps + WayOut(r));
  }

  lemma WithTheNewest(parse: string -> Option<Json>, steps: seq<Step>)
    requires Exec(parse, steps).tasks != []
    requires Exec(parse, steps).tasks[|Exec(parse, steps).tasks| - 1].at == Finished
    ensures AllFinished(Exec(parse, steps).tasks)
  {
    AlwaysInv(parse, steps);
    hide Exec;
  }

  lemma Arrives(parse: string -> Option<Json>, steps: seq<Step>, r: nat)
    requires r < |Exec(parse, steps).tasks|
    ensures
      var s, s1 := Exec(parse, steps), Exec(parse, steps + WayOut(r));
      && s1.reader == s.reader && Texts(s1.tasks) == Texts(s.tasks)
      && r < |s1.tasks| && s1.tasks[r].at == Finished
  {
    FiveSteps(r);
    hide Exec, WayOut, Texts;
    assert WayOut(r)[..5] == WayOut(r);
    SomeOnTheWay(parse, steps, r, 5);
  }

  lemma SameLength(a: seq<Task>, b: seq<Task>)
    requires Texts(a) == Texts(b)
    ensures |a| == |b|
  {
    assert |Texts(a)| == |Texts(b)|;
  }

  lemma ReaderGoesOn(s: Socket)
    requires s.reader.Joining? && !Live(s)
    ensures WakeReader(s).reader == Receiving && Held(WakeReader(s).reader) == []
  {}

  // ----- What a run reads, what stops it, and what it says of that -----

  // A line reaches the run.
  predicate Delivers(s: Socket, step: Step, r: nat) {
    r < |s.tasks| && s.tasks[r].at == Waiting && !s.tasks[r].cancelled && Wakes(step, r) && step.input.Line?
  }

  // The client, or a reply that finds it gone, stops the run while it goes on.
  predicate StopsRun(s: Socket, step: Step, r: nat) {
    r + 1 == |s.tasks| && s.tasks[r].at != Finished && Stopping(s.reader, step)
  }

  // An exception other than CancelledError reaches the stream of the run.
  predicate Hits(s: Socket, step: Step, r: nat) {
    && r < |s.tasks| && (InStream(s.tasks[r].at) || s.tasks[r].at == Unwinding) && !s.tasks[r].cancelled
    && Wakes(step, r) && step.input.Raises?
  }

  function Delivered(parse: string -> Option<Json>, steps: seq<Step>, r: nat): seq<string> {
    if steps == [] then []
    else
      var before, last := steps[..|steps| - 1], steps[|steps| - 1];
      if Delivers(Exec(parse, before), last, r) then Delivered(parse, before, r) + [last.input.line]
      else Delivered(parse, before, r)
  }

  predicate WasStopped(parse: string -> Option<Json>, steps: seq<Step>, r: nat) {
    steps != []
    && (var before := steps[..|steps| - 1];
        StopsRun(Exec(parse, before), steps[|steps| - 1], r) || WasStopped(parse, before, r))
  }

  function Raised(parse: string -> Option<Json>, steps: seq<Step>, r: nat): seq<string> {
    if steps == [] then []
    else
      var before, last := steps[..|steps| - 1], steps[|steps| - 1];
      if Hits(Exec(parse, before), last, r) then Raised(parse, before, r) + [Take(last.input.message, 300)]
      else Raised(parse, before, r)
  }

  // The messages of the error frames of a run.
  function Failures(log: seq<Entry>, r: nat): seq<string> {
    if log == [] then []
    else
      var e := log[|log| - 1];
      if e.FromRun? && e.run == r && e.body.Failed? then Failures(log[..|log| - 1], r) + [e.body.message]
      else Failures(log[..|log| - 1], r)
  }

  predicate Marked(t: Task) { t.cancelled || t.hit.Some? }

  lemma WakeTasks(parse: string -> Option<Json>, s: Socket, step: Step, r: nat)
    requires step.TaskWakes? && r < |s.tasks|
    requires s.tasks[r].cancelled ==> s.tasks[r].at != Finished
    requires s.tasks[r].at == Waiting && !s.tasks[r].cancelled ==> !s.flag
    ensures
      var s1 := Apply(parse, s, step);
      && |s1.tasks| == |s.tasks|
      && s1.tasks[r].lines == (if Delivers(s, step, r) then s.tasks[r].lines + [step.input.line] else s.tasks[r].lines)
      && (Marked(s1.tasks[r]) <==> Marked(s.tasks[r]))
  {
    hide Sse.DataPrefix, Sse.DoneMark, Take;
    if step.run < |s.tasks| && step.run != r {
      hide ReadLine;
      WakingAddsNoTask(parse, s, step.run, step.input);
      OtherTaskStays(parse, s, step.run, step.input, r);
    }
  }

  // A task that never began has read nothing.
  predicate Unread(t: Task) {
    t.at == Fresh || t.hit == Some(Fresh) ==> t.lines == []
  }

  lemma WakeUnread(parse: string -> Option<Json>, s: Socket, step: Step, r: nat)
    requires step.TaskWakes? && r < |s.tasks| && Unread(s.tasks[r])
    requires s.tasks[r].at == Waiting ==> s.tasks[r].hit.None?
    ensures r < |Apply(parse, s, step).tasks| && Unread(Apply(parse, s, step).tasks[r])
  {
    hide Sse.DataPrefix, Sse.DoneMark, Take;
    if step.run < |s.tasks| && step.run != r {
      hide ReadLine;
      OtherTaskStays(parse, s, step.run, step.input, r);
    }
  }

  lemma OtherTaskStays(parse: string -> Option<Json>, s: Socket, run: nat, input: Input, r: nat)
    requires run < |s.tasks| && r < |s.tasks| && r != run
    ensures |WakeTask(parse, s, run, input).tasks| == |s.tasks|
    ensures WakeTask(parse, s, run, input).tasks[r] == s.tasks[r]
  {
    hide WakeTask, Notices;
    OtherTaskUntouched(parse, s, run, input, r);
    WakingAddsNoTask(parse, s, run, input);
  }

  lemma WakeLogs(parse: string -> Option<Json>, s: Socket, step: Step, r: nat)
    requires Inv(parse, s) && step.TaskWakes?
    ensures
      var log := Apply(parse, s, step).log;
      if Hits(s, step, r) then log == s.log + [FromRun(r, Failed(Take(step.input.message, 300)))]
      else log == s.log || (|log| == |s.log| + 1 && log == s.log + [log[|s.log|]]
                            && var e := log[|s.log|]; e.FromRun? && (e.run == r ==> !e.body.Failed?))
  {
    if step.run < |s.tasks| {
      NeverPolled(parse, s, step.run);
    }
    hide Inv, Sse.DataPrefix, Sse.DoneMark, Take;
  }

  lemma ReaderTaskMarks(parse: string -> Option<Json>, s: Socket, step: Step, r: nat)
    requires Inv(parse, s) && !step.TaskWakes?
    ensures
      var s1 := Apply(parse, s, step);
      && |s.tasks| <= |s1.tasks|
      && (r < |s.tasks| ==> && s1.tasks[r].lines == s.tasks[r].lines && (Unread(s.tasks[r]) ==> Unread(s1.tasks[r]))
                            && (Marked(s1.tasks[r]) <==> Marked(s.tasks[r]) || StopsRun(s, step, r)))
      && (|s.tasks| <= r < |s1.tasks| ==> s1.tasks[r].lines == [] && !Marked(s1.tasks[r]) && Unread(s1.tasks[r]))
  {
    hide Apply, Inv, Stopping;
    ReaderTaskList(parse, s, step);
  }

  lemma FailureSnoc(log: seq<Entry>, e: Entry, r: nat)
    ensures Failures(log + [e], r)
         == if e.FromRun? && e.run == r && e.body.Failed? then Failures(log, r) + [e.body.message] else Failures(log, r)
  {
    assert (log + [e])[..|log|] == log;
  }

  // What a run has read, whether it was stopped, and its error frames, against its history.
  predicate Accounted(parse: string -> Option<Json>, steps: seq<Step>, r: nat) {
    var s := Exec(parse, steps);
    && Failures(s.log, r) == Raised(parse, steps, r)
    && (if r < |s.tasks| then
          && s.tasks[r].lines == Delivered(parse, steps, r) && Unread(s.tasks[r])
          && (Marked(s.tasks[r]) <==> WasStopped(parse, steps, r))
        else
          Delivered(parse, steps, r) == [] && !WasStopped(parse, steps, r))
  }

  // What any step makes of the task of a run.
  predicate TaskChange(s: Socket, s1: Socket, step: Step, r: nat) {
    && |s.tasks| <= |s1.tasks|
    && (r < |s.tasks| ==>
          var t, t1 := s.tasks[r], s1.tasks[r];
          && t1.lines == (if Delivers(s, step, r) then t.lines + [step.input.line] else t.lines)
          && (Marked(t1) <==> Marked(t) || StopsRun(s, step, r)) && (Unread(t) ==> Unread(t1)))
    && (|s.tasks| <= r < |s1.tasks| ==> s1.tasks[r].lines == [] && !Marked(s1.tasks[r]) && Unread(s1.tasks[r]))
  }

  lemma StepChanges(parse: string -> Option<Json>, s: Socket, step: Step, r: nat)
    requires Inv(parse, s)
    ensures TaskChange(s, Apply(parse, s, step), step, r)
  {
    hide Marked, Unread;
    if step.TaskWakes? {
      if r < |s.tasks| {
        TaskFacts(parse, s, r);
        hide Inv;
        WakeTasks(parse, s, step, r);
        if Unread(s.tasks[r]) {
          WakeUnread(parse, s, step, r);
        }
      } else if step.run < |s.tasks| {
        hide Inv;
        WakingAddsNoTask(parse, s, step.run, step.input);
      }
      hide Inv, WakeTask;
    } else {
      ReaderTaskMarks(parse, s, step, r);
      hide Inv, Apply, Stopping;
    }
  }

  lemma TaskFacts(parse: string -> Option<Json>, s: Socket, r: nat)
    requires Inv(parse, s) && r < |s.tasks|
    ensures
      var t := s.tasks[r];
      && (t.cancelled ==> t.at != Finished)
      && (t.at == Waiting ==> t.hit.None? && (!t.cancelled ==> !s.flag))
  {
    assert TaskOk(parse, s, r);
  }

  lemma HistorySnoc(parse: string -> Option<Json>, before: seq<Step>, last: Step, r: nat)
    ensures
      var s, steps := Exec(parse, before), before + [last];
      && Exec(parse, steps) == Apply(parse, s, last)
      && Delivered(parse, steps, r)
         == (if Delivers(s, last, r) then Delivered(parse, before, r) + [last.input.line]
             else Delivered(parse, before, r))
      && (WasStopped(parse, steps, r) <==> StopsRun(s, last, r) || WasStopped(parse, before, r))
      && Raised(parse, steps, r)
         == (if Hits(s, last, r) then Raised(parse, before, r) + [Take(last.input.message, 300)]
             else Raised(parse, before, r))
  {
    assert (before + [last])[..|before|] == before;
    ExecSnoc(parse, before, last);
    hide Exec;
  }

  lemma AccountStep(parse: string -> Option<Json>, before: seq<Step>, last: Step, r: nat)
    requires Accounted(parse, before, r) && Inv(parse, Exec(parse, before))
    ensures Accounted(parse, before + [last], r)
  {
    var s := Exec(parse, before);
    HistorySnoc(parse, before, last, r);
    FailuresAfter(parse, s, last, r);
    StepChanges(parse, s, last, r);
    hide Exec, Apply, Inv, Failures, Delivered, WasStopped, Raised, Marked, Stopping, Unread, InStream;
  }

  lemma NothingToAccount(parse: string -> Option<Json>, r: nat)
    ensures Accounted(parse, [], r)
  {}

  lemma FailuresAfter(parse: string -> Option<Json>, s: Socket, step: Step, r: nat)
    requires Inv(parse, s)
    ensures
      var s1 := Apply(parse, s, step);
      Failures(s1.log, r)
        == if Hits(s, step, r) then Failures(s.log, r) + [Take(step.input.message, 300)] else Failures(s.log, r)
  {
    hide Inv, Take, Failures, Apply, InStream;
    var log := Apply(parse, s, step).log;
    if step.TaskWakes? {
      WakeLogs(parse, s, step, r);
      if Hits(s, step, r) {
        FailureSnoc(s.log, FromRun(r, Failed(Take(step.input.message, 300))), r);
      }
    } else {
      ReaderLog(parse, s, step);
      NotAWake(s, step, r);
    }
    if log != s.log {
      FailureSnoc(s.log, log[|s.log|], r);
    }
  }

  lemma NotAWake(s: Socket, step: Step, r: nat)
    requires !step.TaskWakes?
    ensures !Hits(s, step, r)
  {}

  lemma {:induction false} EveryRunIsAccounted(parse: string -> Option<Json>, steps: seq<Step>, r: nat)
    ensures Accounted(parse, steps, r)
  {
    hide Accounted, Inv, Exec;
    if steps == [] {
      NothingToAccount(parse, r);
    } else {
      var before := steps[..|steps| - 1];
      EveryRunIsAccounted(parse, before, r);
      AlwaysInv(parse, before);
      AccountStep(parse, before, steps[|steps| - 1], r);
      assert before + [steps[|steps| - 1]] == steps;
    }
  }

  // A finished run has told of what ended it. One that was never stopped sends no cancelled frame; one
  // that was stopped ends with a cancelled or an error frame, unless it was struck before it began, in
  // which case it sends nothing at all. Its error frames are those of the exceptions that reached it.
  lemma FinishedRunsSaySo(parse: string -> Option<Json>, steps: seq<Step>, r: nat)
    requires r < |Exec(parse, steps).tasks| && Exec(parse, steps).tasks[r].at == Finished
    ensures
      var s := Exec(parse, steps);
      var frames := Frames(s.log, r);
      && Failures(s.log, r) == Raised(parse, steps, r)
      && (!WasStopped(parse, steps, r) ==> Cancelled !in frames)
      && (WasStopped(parse, steps, r) ==>
            if s.tasks[r].hit == Some(Fresh) then frames == []
            else frames != [] && (var last := frames[|frames| - 1]; last == Cancelled || last.Failed?))
  {
    var s := Exec(parse, steps);
    hide Exec, Frames, Notices, Forwarded, Delivered, WasStopped, Raised, Failures, NoticesFit, Inv, AllUpstream;
    hide Sse.Decode;
    AlwaysInv(parse, steps);
    FinishedFacts(parse, s, r);
    EveryRunIsAccounted(parse, steps, r);
    AlwaysEventsFirst(parse, steps, r);
    NothingDecoded(parse);
    EndTold(s.tasks[r], Notices(s.log, r), Forwarded(s.log, r));
  }

  lemma FinishedFacts(parse: string -> Option<Json>, s: Socket, r: nat)
    requires Inv(parse, s) && r < |s.tasks| && s.tasks[r].at == Finished
    ensures NoticesFit(s.tasks[r], Notices(s.log, r)) && !s.tasks[r].cancelled
    ensures Forwarded(s.log, r) == Sse.Decode(parse, s.tasks[r].lines).events
  {
    assert TaskOk(parse, s, r);
    hide NoticesFit, Notices, Forwarded, Sse.Decode;
  }

  lemma NothingDecoded(parse: string -> Option<Json>)
    ensures Sse.Decode(parse, []).events == []
  {}

  lemma EndTold(t: Task, notices: seq<Body>, events: seq<Json>)
    requires NoticesFit(t, notices) && t.at == Finished && (t.hit == Some(Fresh) ==> events == [])
    ensures
      var frames := AllUpstream(events) + notices;
      && (t.hit == None ==> Cancelled !in frames)
      && (t.hit == Some(Fresh) ==> frames == [])
      && (t.hit.Some? && t.hit != Some(Fresh) ==>
            frames != [] && (var last := frames[|frames| - 1]; last == Cancelled || last.Failed?))
  {
    FinishedNotices(t, notices);
    hide NoticesFit;
    LastFrame(events, notices);
  }

  lemma FinishedNotices(t: Task, notices: seq<Body>)
    requires NoticesFit(t, notices) && t.at == Finished
    ensures t.hit == None ==> Cancelled !in notices
    ensures t.hit == Some(Fresh) ==> notices == []
    ensures t.hit.Some? && t.hit != Some(Fresh) ==>
              notices != [] && (var last := notices[|notices| - 1]; last == Cancelled || last.Failed?)
  {}

  lemma LastFrame(events: seq<Json>, notices: seq<Body>)
    ensures Cancelled in AllUpstream(events) + notices <==> Cancelled in notices
    ensures events == [] && notices == [] ==> AllUpstream(events) + notices == []
    ensures notices != [] ==> (AllUpstream(events) + notices)[|events| + |notices| - 1] == notices[|notices| - 1]
  {
    assert forall b <- AllUpstream(events) :: b.Upstream?;
  }

  // ----- What the reader itself adds to the log -----

  function Own(log: seq<Entry>): seq<Entry> {
    if log == [] then []
    else
      var e := log[|log| - 1];
      if e.FromRun? then Own(log[..|log| - 1]) else Own(log[..|log| - 1]) + [e]
  }

  // A pong for each ping, a word that there was nothing to cancel, and the end of each cancel, which is
  // when the run has finished that the reader waited for.
  function Owed(s: Socket, step: Step): seq<Entry> {
    if s.reader == Receiving && step == Client(Ping) then [Pong]
    else if s.reader == Receiving && step == Client(Cancel) && !Live(s) then [NoActiveRun]
    else if s.reader.Joining? && step == ReaderWakes && s.tasks != [] && !Live(s) then [CancelHandled(|s.tasks| - 1)]
    else []
  }

  function AllOwed(parse: string -> Option<Json>, steps: seq<Step>): seq<Entry> {
    if steps == [] then []
    else
      var before := steps[..|steps| - 1];
      AllOwed(parse, before) + Owed(Exec(parse, before), steps[|steps| - 1])
  }

  lemma OwnSnoc(log: seq<Entry>, e: Entry)
    ensures Own(log + [e]) == if e.FromRun? then Own(log) else Own(log) + [e]
  {
    assert (log + [e])[..|log|] == log;
  }

  lemma StepOwes(parse: string -> Option<Json>, s: Socket, step: Step)
    requires Inv(parse, s)
    ensures Own(Apply(parse, s, step).log) == Own(s.log) + Owed(s, step)
  {
    hide Inv, Own, Apply, Live;
    if step.TaskWakes? {
      WakeOwes(parse, s, step);
      assert Own(s.log) + [] == Own(s.log);
    } else {
      hide Owed;
      ReaderOwes(parse, s, step);
      if Owed(s, step) != [] {
        OwnSnoc(s.log, Owed(s, step)[0]);
        assert Owed(s, step) == [Owed(s, step)[0]];
      } else {
        assert s.log + [] == s.log && Own(s.log) + [] == Own(s.log);
      }
    }
  }

  lemma WakeOwes(parse: string -> Option<Json>, s: Socket, step: Step)
    requires Inv(parse, s) && step.TaskWakes?
    ensures Own(Apply(parse, s, step).log) == Own(s.log) && Owed(s, step) == []
  {
    hide Inv, Own, Apply;
    WakeLogs(parse, s, step, |s.tasks|);
    var log := Apply(parse, s, step).log;
    if log != s.log {
      OwnSnoc(s.log, log[|s.log|]);
    }
  }

  lemma ReaderOwes(parse: string -> Option<Json>, s: Socket, step: Step)
    requires !step.TaskWakes?
    ensures Apply(parse, s, step).log == s.log + Owed(s, step) && |Owed(s, step)| <= 1
    ensures forall e <- Owed(s, step) :: !e.FromRun?
  {
    hide Strip, WakeTask;
  }

  lemma {:induction false} EveryReplyHasItsCause(parse: string -> Option<Json>, steps: seq<Step>)
    ensures Own(Exec(parse, steps).log) == AllOwed(parse, steps)
  {
    if steps != [] {
      hide Own, Owed, Apply, Inv;
      var before := steps[..|steps| - 1];
      EveryReplyHasItsCause(parse, before);
      AlwaysInv(parse, before);
      StepOwes(parse, Exec(parse, before), steps[|steps| - 1]);
    }
  }
}
