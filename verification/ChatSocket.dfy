// The WebSocket run/cancel protocol of the gateway (api_gateway/routes/chat.py): a reader that
// starts, cancels and awaits stream tasks, and the stream tasks themselves, interleaved.
//
// A step is what happens between two suspension points. Every `send_json` may suspend after its
// frame is handed over, and may raise; so may closing the upstream, which every way out of the stream
// waits for. A cancelled task gets CancelledError at its next step, wherever it is suspended.
module ChatSocket {
  import opened Common
  import Sse

  // ----- State -----

  // What a run puts on the socket: events from upstream, and the gateway's own notices.
  datatype Body = Upstream(event: Json) | Done | Cancelled | Failed(message: string)

  // The log of a connection: frames handed over, and the moments the reader had finished handling a cancel.
  datatype Entry = FromRun(run: nat, body: Body) | CancelHandled(run: nat) | Pong | NoActiveRun

  // Where a stream task is suspended: before its first step, waiting for upstream, in one of its
  // sends, closing the upstream, or finished. Polled is the send after the cancel flag was seen, Late
  // the one in the CancelledError handler. ClosingDone is closing after the done frame, Closing after
  // the stream just ended, Unwinding after CancelledError.
  datatype Point =
    | Fresh | Waiting | SendingEvent | SendingDone | SendingPolled | ClosingDone | Closing | Unwinding
    | SendingError | SendingLate | Finished

  // `text` is the user message the run answers, `lines` are the upstream lines read, and `hit` is where
  // CancelledError was delivered.
  datatype Task = Task(text: string, at: Point, cancelled: bool, hit: Option<Point>, lines: seq<string>)

  datatype Reader = Receiving | Joining(next: Option<string>) | Replying | Gone

  // `flag` is the current cancel_event; run numbers index `tasks`.
  datatype Socket = Socket(reader: Reader, flag: bool, tasks: seq<Task>, log: seq<Entry>)

  // BadContent is a user message whose content is not text, which nobody catches.
  datatype ClientMessage = UserMessage(content: string) | BadContent | Cancel | Ping | Other | Disconnect

  datatype Input = Begin | Line(line: string) | EndOfStream | Raises(message: string) | Sent | Closed

  // ReplyRaises is a reply of the reader itself that fails, because the client is gone or otherwise.
  datatype Step =
    | Client(message: ClientMessage)
    | ReaderWakes
    | ReplyRaises(disconnect: bool)
    | TaskWakes(run: nat, input: Input)

  function Initial(): Socket { Socket(Receiving, false, [], []) }

  // ----- Steps; one that is not enabled changes nothing -----

  predicate Live(s: Socket) {
    s.tasks != [] && s.tasks[|s.tasks| - 1].at != Finished
  }

  function Emit(s: Socket, e: Entry): Socket { s.(log := s.log + [e]) }

  function StartRun(s: Socket, text: string): Socket {
    s.(reader := Receiving, flag := false, tasks := s.tasks + [Task(text, Fresh, false, None, [])])
  }

  // Cancels the live task.
  function StopLast(s: Socket, reader: Reader, flag: bool): Socket
    requires Live(s)
  {
    var last := |s.tasks| - 1;
    s.(reader := reader, flag := flag, tasks := s.tasks[last := s.tasks[last].(cancelled := true)])
  }

  function Interrupt(s: Socket, next: Option<string>): Socket
    requires Live(s)
  {
    StopLast(s, Joining(next), true)
  }

  // The end of the reader. Only a disconnect that surfaces in a reply is handled.
  function HangUp(s: Socket, disconnect: bool): Socket {
    if disconnect && Live(s) then StopLast(s, Gone, s.flag) else s.(reader := Gone)
  }

  function Receive(s: Socket, m: ClientMessage): Socket {
    match m
    case UserMessage(content) =>
      if Strip(content) == "" then s
      else if Live(s) then Interrupt(s, Some(Strip(content)))
      else StartRun(s, Strip(content))
    case Cancel => if Live(s) then Interrupt(s, None) else Emit(s, NoActiveRun).(reader := Replying)
    case Ping => Emit(s, Pong).(reader := Replying)
    case Other => s
    case BadContent => s.(reader := Gone)
    case Disconnect => s.(reader := Gone)
  }

  function WakeReader(s: Socket): Socket {
    match s.reader
    case Joining(next) =>
      if Live(s) then s
      else
        var s1 := if s.tasks != [] then Emit(s, CancelHandled(|s.tasks| - 1)) else s;
        if next.Some? then StartRun(s1, next.value) else s1.(reader := Receiving)
    case Replying => s.(reader := Receiving)
    case _ => s
  }

  // CancelledError where the stream task is suspended.
  function Throw(s: Socket, run: nat): Socket
    requires run < |s.tasks|
  {
    var t := s.tasks[run].(cancelled := false);
    match t.at
    case Fresh => s.(tasks := s.tasks[run := t.(at := Finished, hit := Some(t.at))])
    case SendingError => s.(tasks := s.tasks[run := t.(at := Finished, hit := Some(t.at))])
    case SendingLate => s.(tasks := s.tasks[run := t.(at := Finished, hit := Some(t.at))])
    case Finished => s
    case _ => s.(tasks := s.tasks[run := t.(at := Unwinding, hit := Some(t.at))])
  }

  // The handlers at the end of the stream: of any exception but CancelledError, and of that one.
  function Fail(s: Socket, run: nat, message: string): Socket
    requires run < |s.tasks|
  {
    Emit(s.(tasks := s.tasks[run := s.tasks[run].(at := SendingError)]), FromRun(run, Failed(Take(message, 300))))
  }

  function Acknowledge(s: Socket, run: nat): Socket
    requires run < |s.tasks|
  {
    Emit(s.(tasks := s.tasks[run := s.tasks[run].(at := SendingLate)]), FromRun(run, Cancelled))
  }

  function ReadLine(parse: string -> Option<Json>, s: Socket, run: nat, line: string): Socket
    requires run < |s.tasks|
  {
    var t := s.tasks[run];
    if s.flag then
      Emit(s.(tasks := s.tasks[run := t.(at := SendingPolled)]), FromRun(run, Cancelled))
    else
      var t1 := t.(lines := t.lines + [line]);
      if !(Sse.DataPrefix() <= line) then s.(tasks := s.tasks[run := t1])
      else
        var data := line[|Sse.DataPrefix()|..];
        if data == Sse.DoneMark() then
          Emit(s.(tasks := s.tasks[run := t1.(at := SendingDone)]), FromRun(run, Done))
        else match parse(data)
          case None => s.(tasks := s.tasks[run := t1])
          case Some(e) => Emit(s.(tasks := s.tasks[run := t1.(at := SendingEvent)]), FromRun(run, Upstream(e)))
  }

  function WakeTask(parse: string -> Option<Json>, s: Socket, run: nat, input: Input): Socket
    requires run < |s.tasks|
  {
    var t := s.tasks[run];
    if t.cancelled then Throw(s, run)
    else
      match (t.at, input)
      case (Fresh, Begin) => s.(tasks := s.tasks[run := t.(at := Waiting)])
      case (Waiting, Line(line)) => ReadLine(parse, s, run, line)
      case (Waiting, EndOfStream) => s.(tasks := s.tasks[run := t.(at := Closing)])
      case (SendingEvent, Sent) => s.(tasks := s.tasks[run := t.(at := Waiting)])
      case (SendingDone, Sent) => s.(tasks := s.tasks[run := t.(at := ClosingDone)])
      case (SendingPolled, Sent) => s.(tasks := s.tasks[run := t.(at := Closing)])
      case (ClosingDone, Closed) => s.(tasks := s.tasks[run := t.(at := Finished)])
      case (Closing, Closed) => s.(tasks := s.tasks[run := t.(at := Finished)])
      case (Unwinding, Closed) => Acknowledge(s, run)
      case (SendingError, Sent) => s.(tasks := s.tasks[run := t.(at := Finished)])
      case (SendingError, Raises(_)) => s.(tasks := s.tasks[run := t.(at := Finished)])
      case (SendingLate, Sent) => s.(tasks := s.tasks[run := t.(at := Finished)])
      case (SendingLate, Raises(_)) => s.(tasks := s.tasks[run := t.(at := Finished)])
      case (Fresh, _) => s
      case (Finished, _) => s
      case (_, Raises(m)) => Fail(s, run, m)
      case _ => s
  }

  function Apply(parse: string -> Option<Json>, s: Socket, step: Step): Socket {
    match step
    case Client(m) => if s.reader == Receiving then Receive(s, m) else s
    case ReaderWakes => WakeReader(s)
    case ReplyRaises(disconnect) => if s.reader == Replying then HangUp(s, disconnect) else s
    case TaskWakes(run, input) => if run < |s.tasks| then WakeTask(parse, s, run, input) else s
  }

  function Exec(parse: string -> Option<Json>, steps: seq<Step>): Socket {
    if steps == [] then Initial()
    else Apply(parse, Exec(parse, steps[..|steps| - 1]), steps[|steps| - 1])
  }

  // ----- What the log says of a run -----

  // The gateway's own frames of a run.
  function Notices(log: seq<Entry>, run: nat): seq<Body> {
    if log == [] then []
    else
      var e := log[|log| - 1];
      Notices(log[..|log| - 1], run) + if e.FromRun? && e.run == run && !e.body.Upstream? then [e.body] else []
  }

  // The upstream events of a run that were forwarded.
  function Forwarded(log: seq<Entry>, run: nat): seq<Json> {
    if log == [] then []
    else
      var e := log[|log| - 1];
      Forwarded(log[..|log| - 1], run) + if e.FromRun? && e.run == run && e.body.Upstream? then [e.body.event] else []
  }

  // Entries come in run order, and nothing of a run follows its handled cancel.
  predicate InRunOrder(log: seq<Entry>) {
    forall i, j :: 0 <= i < j < |log| && log[j].FromRun? ==>
      && (log[i].FromRun? ==> log[i].run <= log[j].run)
      && (log[i].CancelHandled? ==> log[i].run < log[j].run)
  }

  // ----- The invariant -----

  // Where the stream's own handlers see CancelledError.
  predicate InStream(at: Point) {
    at == Waiting || at == SendingEvent || AfterDone(at) || at == Closing
  }

  // The done frame is handed over, and the stream not left yet.
  predicate AfterDone(at: Point) {
    at == SendingDone || at == ClosingDone
  }

  function Said(at: Point): seq<Body> {
    if AfterDone(at) then [Done] else []
  }

  predicate EndsFailed(notices: seq<Body>) {
    || (|notices| == 1 && notices[0].Failed?)
    || (|notices| == 2 && notices[0] == Done && notices[1].Failed?)
  }

  // The notices a run has sent, given where its task is and where it was hit.
  predicate NoticesFit(t: Task, notices: seq<Body>) {
    match t.at
    case SendingPolled => false
    case Unwinding => t.hit.Some? && InStream(t.hit.value) && notices == Said(t.hit.value)
    case SendingLate => t.hit.Some? && InStream(t.hit.value) && notices == Said(t.hit.value) + [Cancelled]
    case SendingError => EndsFailed(notices) && (t.hit.Some? ==> HitFits(t.hit.value, notices) && InStream(t.hit.value))
    case Finished =>
      if t.hit.Some? then HitFits(t.hit.value, notices)
      else notices == [] || notices == [Done] || EndsFailed(notices)
    case _ => notices == Said(t.at) && t.hit == None
  }

  predicate HitFits(hit: Point, notices: seq<Body>) {
    if hit == Fresh then notices == []
    else if hit == SendingError then EndsFailed(notices)
    else
      && InStream(hit) && |notices| == |Said(hit)| + 1 && Said(hit) <= notices
      && (notices[|Said(hit)|] == Cancelled || notices[|Said(hit)|].Failed?)
  }

  // A reader that starts no run and stops none: it waits for the live task, or is gone.
  predicate Waits(reader: Reader) {
    reader.Joining? || reader == Gone
  }

  // A task against the reader, the flag, and what it sent: its notices, and the events it forwarded.
  predicate Fits(parse: string -> Option<Json>, reader: Reader, flag: bool, t: Task, notices: seq<Body>,
                 events: seq<Json>)
  {
    && NoticesFit(t, notices)
    && (t.cancelled ==> Waits(reader) && t.hit == None && t.at != Finished)
    && (t.hit.Some? && t.at != Finished ==> Waits(reader))
    && (flag && t.at != Finished ==> t.cancelled || t.hit.Some?)
    && events == Sse.Decode(parse, t.lines).events
    && (Sse.Decode(parse, t.lines).done <==> notices != [] && notices[0] == Done)
  }

  predicate TaskOk(parse: string -> Option<Json>, s: Socket, run: nat)
    requires run < |s.tasks|
  {
    Fits(parse, s.reader, s.flag, s.tasks[run], Notices(s.log, run), Forwarded(s.log, run))
  }

  ghost predicate Inv(parse: string -> Option<Json>, s: Socket) {
    && (forall r :: 0 <= r < |s.tasks| - 1 ==> s.tasks[r].at == Finished)
    && (forall r :: 0 <= r < |s.tasks| ==> TaskOk(parse, s, r))
    && (forall e <- s.log :: (e.FromRun? || e.CancelHandled?) ==> e.run < |s.tasks|)
    && (forall e <- s.log :: e.CancelHandled? ==> s.tasks[e.run].at == Finished)
    && (forall r :: r >= |s.tasks| ==> Notices(s.log, r) == [] && Forwarded(s.log, r) == [])
    && InRunOrder(s.log)
  }

  // ----- Every step keeps it -----

  lemma LogSnoc(log: seq<Entry>, e: Entry, run: nat)
    ensures Notices(log + [e], run)
         == if e.FromRun? && e.run == run && !e.body.Upstream? then Notices(log, run) + [e.body] else Notices(log, run)
    ensures Forwarded(log + [e], run)
         == if e.FromRun? && e.run == run && e.body.Upstream? then Forwarded(log, run) + [e.body.event]
            else Forwarded(log, run)
  {
    assert (log + [e])[..|log|] == log;
  }

  lemma {:induction false} DecodeSnoc(parse: string -> Option<Json>, lines: seq<string>, line: string)
    requires !Sse.Decode(parse, lines).done
    ensures Sse.Decode(parse, lines + [line]).events
         == Sse.Decode(parse, lines).events + Sse.Decode(parse, [line]).events
    ensures Sse.Decode(parse, lines + [line]).done == Sse.Decode(parse, [line]).done
  {
    if lines == [] {
      assert lines + [line] == [line];
    } else {
      hide Sse.DataPrefix, Sse.DoneMark;
      DecodeSnoc(parse, lines[1..], line);
      assert (lines + [line])[1..] == lines[1..] + [line];
    }
  }

  lemma DecodeOne(parse: string -> Option<Json>, line: string)
    ensures
      var d := Sse.Decode(parse, [line]);
      if !(Sse.DataPrefix() <= line) then d == Sse.Decoded([], false)
      else
        var data := line[|Sse.DataPrefix()|..];
        if data == Sse.DoneMark() then d == Sse.Decoded([], true)
        else match parse(data)
          case None => d == Sse.Decoded([], false)
          case Some(e) => d == Sse.Decoded([e], false)
  {
    hide Sse.DataPrefix, Sse.DoneMark;
    assert [line][1..] == [];
  }

  // The running task moves on, perhaps sending a frame.
  function Moved(s: Socket, run: nat, t: Task, frame: Option<Body>): Socket
    requires run < |s.tasks|
  {
    var s1 := s.(tasks := s.tasks[run := t]);
    if frame.Some? then Emit(s1, FromRun(run, frame.value)) else s1
  }

  function Noticed(notices: seq<Body>, frame: Option<Body>): seq<Body> {
    if frame.None? || frame.value.Upstream? then notices else notices + [frame.value]
  }

  function Passed(events: seq<Json>, frame: Option<Body>): seq<Json> {
    if frame.None? || !frame.value.Upstream? then events else events + [frame.value.event]
  }

  lemma TaskMoves(parse: string -> Option<Json>, s: Socket, run: nat, t: Task, frame: Option<Body>)
    requires Inv(parse, s) && run < |s.tasks| && s.tasks[run].at != Finished
    requires Fits(parse, s.reader, s.flag, t, Noticed(Notices(s.log, run), frame), Passed(Forwarded(s.log, run), frame))
    ensures Inv(parse, Moved(s, run, t, frame))
  {
    hide Fits, Notices, Forwarded;
    var s1 := Moved(s, run, t, frame);
    assert run == |s.tasks| - 1;
    if frame.Some? {
      forall r: nat {
        LogSnoc(s.log, FromRun(run, frame.value), r);
      }
    }
    forall r | 0 <= r < |s1.tasks| ensures TaskOk(parse, s1, r) {
      assert r != run ==> TaskOk(parse, s, r);
    }
  }

  // What a line decodes to, and what the stream task does about it.
  predicate Reaction(d: Sse.Decoded, at: Point, frame: Option<Body>) {
    match frame
    case None => d == Sse.Decoded([], false) && at == Waiting
    case Some(Done) => d == Sse.Decoded([], true) && at == SendingDone
    case Some(Upstream(e)) => d == Sse.Decoded([e], false) && at == SendingEvent
    case _ => false
  }

  lemma LineFits(parse: string -> Option<Json>, reader: Reader, t: Task, line: string, at: Point, frame: Option<Body>,
                 notices: seq<Body>, events: seq<Json>)
    requires Fits(parse, reader, false, t, notices, events) && t.at == Waiting && !t.cancelled
    requires Reaction(Sse.Decode(parse, [line]), at, frame)
    ensures Fits(parse, reader, false, t.(lines := t.lines + [line], at := at),
                 Noticed(notices, frame), Passed(events, frame))
  {
    hide Sse.Decode;
    DecodeSnoc(parse, t.lines, line);
    assert notices == [] && [] + [Done] == [Done] && events + [] == events;
  }

  lemma LineRead(parse: string -> Option<Json>, s: Socket, run: nat, line: string, at: Point, frame: Option<Body>)
    requires Inv(parse, s) && run < |s.tasks| && s.tasks[run].at == Waiting && !s.tasks[run].cancelled
    requires Reaction(Sse.Decode(parse, [line]), at, frame)
    ensures Inv(parse, Moved(s, run, s.tasks[run].(lines := s.tasks[run].lines + [line], at := at), frame))
  {
    assert TaskOk(parse, s, run) && !s.flag;
    hide Inv, Sse.Decode, Notices, Forwarded, Moved, Fits, Reaction, Noticed, Passed;
    LineFits(parse, s.reader, s.tasks[run], line, at, frame, Notices(s.log, run), Forwarded(s.log, run));
    TaskMoves(parse, s, run, s.tasks[run].(lines := s.tasks[run].lines + [line], at := at), frame);
  }

  lemma ReadLineKeeps(parse: string -> Option<Json>, s: Socket, run: nat, line: string)
    requires Inv(parse, s) && run < |s.tasks| && s.tasks[run].at == Waiting && !s.tasks[run].cancelled
    ensures Inv(parse, ReadLine(parse, s, run, line)) && !s.flag
  {
    assert TaskOk(parse, s, run);
    assert !s.flag;
    hide Sse.DataPrefix, Sse.DoneMark, Sse.Decode, Inv, TaskOk;
    DecodeOne(parse, line);
    if !(Sse.DataPrefix() <= line) {
      LineRead(parse, s, run, line, Waiting, None);
    } else {
      var data := line[|Sse.DataPrefix()|..];
      if data == Sse.DoneMark() {
        LineRead(parse, s, run, line, SendingDone, Some(Done));
      } else {
        match parse(data)
        case None => LineRead(parse, s, run, line, Waiting, None);
        case Some(e) => LineRead(parse, s, run, line, SendingEvent, Some(Upstream(e)));
      }
    }
  }

  function Struck(t: Task): Task {
    t.(at := if t.at == Fresh || t.at == SendingError then Finished else Unwinding,
       cancelled := false, hit := Some(t.at))
  }

  lemma StruckFits(t: Task, notices: seq<Body>)
    requires NoticesFit(t, notices) && t.hit == None && t.at != Finished
    ensures NoticesFit(Struck(t), notices)
  {
  }

  lemma ThrowKeeps(parse: string -> Option<Json>, s: Socket, run: nat)
    requires Inv(parse, s) && run < |s.tasks| && s.tasks[run].cancelled
    ensures Inv(parse, Throw(s, run))
  {
    assert TaskOk(parse, s, run);
    var t := s.tasks[run];
    assert t.at != SendingLate && t.at != Unwinding && t.at != Finished;
    StruckFits(t, Notices(s.log, run));
    assert Throw(s, run) == Moved(s, run, Struck(t), None);
    hide Inv, Sse.Decode, Notices, Forwarded, NoticesFit, Moved, Throw;
    TaskMoves(parse, s, run, Struck(t), None);
  }

  // A step of a task that sends nothing new.
  predicate Quiet(from: Point, to: Point) {
    match to
    case Waiting => from == Fresh || from == SendingEvent
    case Closing => from == Waiting || from == SendingPolled
    case ClosingDone => from == SendingDone
    case Finished => from == ClosingDone || from == Closing || from == SendingError || from == SendingLate
    case _ => false
  }

  lemma QuietMove(parse: string -> Option<Json>, s: Socket, run: nat, at: Point)
    requires Inv(parse, s) && run < |s.tasks| && !s.tasks[run].cancelled && Quiet(s.tasks[run].at, at)
    ensures Inv(parse, s.(tasks := s.tasks[run := s.tasks[run].(at := at)]))
  {
    assert TaskOk(parse, s, run);
    QuietFits(s.tasks[run], Notices(s.log, run), at);
    hide Inv, Sse.Decode, Notices, Forwarded, NoticesFit;
    TaskMoves(parse, s, run, s.tasks[run].(at := at), None);
  }

  lemma QuietFits(t: Task, notices: seq<Body>, at: Point)
    requires NoticesFit(t, notices) && Quiet(t.at, at)
    ensures NoticesFit(t.(at := at), notices)
  {
  }

  lemma FailureFits(t: Task, notices: seq<Body>, message: string)
    requires NoticesFit(t, notices) && (InStream(t.at) || t.at == Unwinding)
    ensures NoticesFit(t.(at := SendingError), notices + [Failed(message)])
  {
    assert [] + [Failed(message)] == [Failed(message)];
  }

  lemma FailureKeeps(parse: string -> Option<Json>, s: Socket, run: nat, message: string)
    requires Inv(parse, s) && run < |s.tasks| && !s.tasks[run].cancelled
    requires InStream(s.tasks[run].at) || s.tasks[run].at == Unwinding
    ensures Inv(parse, Fail(s, run, message))
  {
    assert TaskOk(parse, s, run);
    FailureFits(s.tasks[run], Notices(s.log, run), Take(message, 300));
    hide Inv, Sse.Decode, Notices, Forwarded, NoticesFit;
    TaskMoves(parse, s, run, s.tasks[run].(at := SendingError), Some(Failed(Take(message, 300))));
  }

  lemma AcknowledgeFits(t: Task, notices: seq<Body>)
    requires NoticesFit(t, notices) && t.at == Unwinding
    ensures NoticesFit(t.(at := SendingLate), notices + [Cancelled])
    ensures (notices + [Cancelled])[0] == Done <==> notices != [] && notices[0] == Done
  {
  }

  lemma AcknowledgeKeeps(parse: string -> Option<Json>, s: Socket, run: nat)
    requires Inv(parse, s) && run < |s.tasks| && !s.tasks[run].cancelled && s.tasks[run].at == Unwinding
    ensures Inv(parse, Acknowledge(s, run))
  {
    assert TaskOk(parse, s, run);
    AcknowledgeFits(s.tasks[run], Notices(s.log, run));
    hide Inv, Sse.Decode, Notices, Forwarded, NoticesFit;
    TaskMoves(parse, s, run, s.tasks[run].(at := SendingLate), Some(Cancelled));
  }

  lemma TaskKeeps(parse: string -> Option<Json>, s: Socket, run: nat, input: Input)
    requires Inv(parse, s) && run < |s.tasks|
    ensures Inv(parse, WakeTask(parse, s, run, input))
  {
    var t := s.tasks[run];
    NeverPolled(parse, s, run);
    hide Inv, ReadLine, Throw, Fail, Acknowledge;
    if t.cancelled {
      ThrowKeeps(parse, s, run);
    } else if input.Raises? && (InStream(t.at) || t.at == Unwinding) {
      FailureKeeps(parse, s, run, input.message);
    } else {
      match (t.at, input)
      case (Fresh, Begin) => QuietMove(parse, s, run, Waiting);
      case (Waiting, Line(line)) => ReadLineKeeps(parse, s, run, line);
      case (Waiting, EndOfStream) => QuietMove(parse, s, run, Closing);
      case (SendingEvent, Sent) => QuietMove(parse, s, run, Waiting);
      case (SendingDone, Sent) => QuietMove(parse, s, run, ClosingDone);
      case (ClosingDone, Closed) => QuietMove(parse, s, run, Finished);
      case (Closing, Closed) => QuietMove(parse, s, run, Finished);
      case (Unwinding, Closed) => AcknowledgeKeeps(parse, s, run);
      case (SendingError, Sent) => QuietMove(parse, s, run, Finished);
      case (SendingError, Raises(_)) => QuietMove(parse, s, run, Finished);
      case (SendingLate, Sent) => QuietMove(parse, s, run, Finished);
      case (SendingLate, Raises(_)) => QuietMove(parse, s, run, Finished);
      case _ =>
    }
  }

  lemma NeverPolled(parse: string -> Option<Json>, s: Socket, run: nat)
    requires Inv(parse, s) && run < |s.tasks|
    ensures s.tasks[run].at != SendingPolled
  {
    assert TaskOk(parse, s, run);
  }

  // An entry that is not a frame of a run.
  lemma EntryKeeps(parse: string -> Option<Json>, s: Socket, e: Entry)
    requires Inv(parse, s) && !e.FromRun?
    requires e.CancelHandled? ==> e.run < |s.tasks| && s.tasks[e.run].at == Finished
    ensures Inv(parse, Emit(s, e))
  {
    hide NoticesFit, Notices, Forwarded;
    forall r: nat {
      LogSnoc(s.log, e, r);
    }
    forall r | 0 <= r < |s.tasks| ensures TaskOk(parse, Emit(s, e), r) {
      assert TaskOk(parse, s, r);
    }
  }

  lemma StartKeeps(parse: string -> Option<Json>, s: Socket, text: string)
    requires Inv(parse, s) && !Live(s)
    ensures Inv(parse, StartRun(s, text))
  {
    hide Notices, Forwarded;
    var s1 := StartRun(s, text);
    forall r | 0 <= r < |s1.tasks| ensures TaskOk(parse, s1, r) {
      if r < |s.tasks| {
        assert TaskOk(parse, s, r);
      }
    }
  }

  // The reader's own state, away from any live task.
  lemma ReaderKeeps(parse: string -> Option<Json>, s: Socket, reader: Reader)
    requires Inv(parse, s) && (Waits(s.reader) ==> !Live(s))
    ensures Inv(parse, s.(reader := reader))
  {
    hide NoticesFit, Notices, Forwarded;
    forall r | 0 <= r < |s.tasks| ensures TaskOk(parse, s.(reader := reader), r) {
      assert TaskOk(parse, s, r);
    }
  }

  lemma StopKeeps(parse: string -> Option<Json>, s: Socket, reader: Reader, flag: bool)
    requires Inv(parse, s) && Live(s) && !Waits(s.reader) && Waits(reader)
    ensures Inv(parse, StopLast(s, reader, flag))
  {
    hide Notices, Forwarded, Sse.Decode;
    var s1 := StopLast(s, reader, flag);
    forall r | 0 <= r < |s1.tasks| ensures TaskOk(parse, s1, r) {
      assert TaskOk(parse, s, r);
    }
  }

  lemma StepKeeps(parse: string -> Option<Json>, s: Socket, step: Step)
    requires Inv(parse, s)
    ensures Inv(parse, Apply(parse, s, step))
  {
    hide Inv, WakeTask, Strip, StartRun, StopLast;
    match step
    case TaskWakes(run, input) =>
      if run < |s.tasks| {
        TaskKeeps(parse, s, run, input);
      }
    case Client(m) =>
      if s.reader == Receiving {
        ClientKeeps(parse, s, m);
      }
    case ReaderWakes =>
      if s.reader.Joining? && !Live(s) {
        var s1 := s;
        if s.tasks != [] {
          EntryKeeps(parse, s, CancelHandled(|s.tasks| - 1));
          s1 := Emit(s, CancelHandled(|s.tasks| - 1));
        }
        if s.reader.next.Some? {
          StartKeeps(parse, s1, s.reader.next.value);
        } else {
          ReaderKeeps(parse, s1, Receiving);
        }
      } else if s.reader == Replying {
        ReaderKeeps(parse, s, Receiving);
      }
    case ReplyRaises(disconnect) =>
      if s.reader == Replying {
        if disconnect && Live(s) {
          StopKeeps(parse, s, Gone, s.flag);
        } else {
          ReaderKeeps(parse, s, Gone);
        }
      }
  }

  lemma ClientKeeps(parse: string -> Option<Json>, s: Socket, m: ClientMessage)
    requires Inv(parse, s) && s.reader == Receiving
    ensures Inv(parse, Receive(s, m))
  {
    hide Inv, Strip, StartRun, StopLast;
    match m
    case UserMessage(content) =>
      if Strip(content) != "" {
        if Live(s) {
          StopKeeps(parse, s, Joining(Some(Strip(content))), true);
        } else {
          StartKeeps(parse, s, Strip(content));
        }
      }
    case Cancel =>
      if Live(s) {
        StopKeeps(parse, s, Joining(None), true);
      } else {
        EntryKeeps(parse, s, NoActiveRun);
        ReaderKeeps(parse, Emit(s, NoActiveRun), Replying);
      }
    case Ping =>
      EntryKeeps(parse, s, Pong);
      ReaderKeeps(parse, Emit(s, Pong), Replying);
    case Other =>
    case BadContent => ReaderKeeps(parse, s, Gone);
    case Disconnect => ReaderKeeps(parse, s, Gone);
  }

  // The invariant holds after any steps, in any order.
  lemma {:induction false} AlwaysInv(parse: string -> Option<Json>, steps: seq<Step>)
    ensures Inv(parse, Exec(parse, steps))
  {
    if steps != [] {
      hide Apply;
      AlwaysInv(parse, steps[..|steps| - 1]);
      StepKeeps(parse, Exec(parse, steps[..|steps| - 1]), steps[|steps| - 1]);
    }
  }

  // ----- Theorems over all interleavings -----

  // At most one stream task is live, and it is the newest.
  lemma OneLiveTask(parse: string -> Option<Json>, steps: seq<Step>, r: nat)
    requires var s := Exec(parse, steps); r < |s.tasks| && s.tasks[r].at != Finished
    ensures r == |Exec(parse, steps).tasks| - 1
  {
    AlwaysInv(parse, steps);
  }

  // Output isolation: no frame of an older run follows one of a newer run, and no frame of a run
  // follows its handled cancel.
  lemma OutputIsIsolated(parse: string -> Option<Json>, steps: seq<Step>, i: nat, j: nat)
    requires i < j < |Exec(parse, steps).log| && Exec(parse, steps).log[j].FromRun?
    ensures
      var log := Exec(parse, steps).log;
      && (log[i].FromRun? ==> log[i].run <= log[j].run)
      && (log[i].CancelHandled? ==> log[i].run < log[j].run)
  {
    AlwaysInv(parse, steps);
  }

  // ----- How many frames of its own the gateway sends for a run -----

  predicate Stops(m: ClientMessage) {
    m.Cancel? || (m.UserMessage? && Strip(m.content) != "")
  }

  predicate Wakes(step: Step, r: nat) {
    step.TaskWakes? && step.run == r
  }

  // The stream is left with or without an exception.
  predicate Leaves(step: Step, r: nat) {
    Wakes(step, r) && (step.input.Closed? || step.input.Raises?)
  }

  // The client stops the live run, or a reply finds the client gone.
  predicate Stopping(reader: Reader, step: Step) {
    || (reader == Receiving && step.Client? && Stops(step.message))
    || (reader == Replying && step == ReplyRaises(true))
  }

  predicate StopsNow(s: Socket, step: Step, r: nat) {
    r < |s.tasks| && AfterDone(s.tasks[r].at) && Stopping(s.reader, step)
  }

  predicate FailsNow(s: Socket, step: Step, r: nat) {
    && r < |s.tasks| && AfterDone(s.tasks[r].at) && !s.tasks[r].cancelled
    && Wakes(step, r) && step.input.Raises?
  }

  // At step i run r is stopped, by the client or by a reply that finds it gone, while its done frame is
  // handed over and its upstream open.
  predicate StoppedAfterDone(parse: string -> Option<Json>, steps: seq<Step>, r: nat, i: nat) {
    i < |steps| && StopsNow(Exec(parse, steps[..i]), steps[i], r)
  }

  // At step i an exception hits run r at that point: from the send, or from closing the upstream.
  predicate FailedAfterDone(parse: string -> Option<Json>, steps: seq<Step>, r: nat, i: nat) {
    i < |steps| && FailsNow(Exec(parse, steps[..i]), steps[i], r)
  }

  // What a step makes of a stopped run that is still to wake (0), has woken (1), or has left (2).
  function Onward(progress: nat, step: Step, r: nat): nat {
    if progress == 0 && Wakes(step, r) then 1
    else if progress == 1 && Leaves(step, r) then 2
    else progress
  }

  function Progress(steps: seq<Step>, r: nat, i: nat): (p: nat)
    ensures p <= 2
  {
    if |steps| <= i + 1 then 0
    else Onward(Progress(steps[..|steps| - 1], r, i), steps[|steps| - 1], r)
  }

  ghost predicate Stopped(parse: string -> Option<Json>, steps: seq<Step>, r: nat, progress: nat) {
    exists i :: StoppedAfterDone(parse, steps, r, i) && Progress(steps, r, i) == progress
  }

  ghost predicate FailedEver(parse: string -> Option<Json>, steps: seq<Step>, r: nat) {
    exists i :: FailedAfterDone(parse, steps, r, i)
  }

  lemma OneStepMore(parse: string -> Option<Json>, steps: seq<Step>, last: Step, r: nat, i: nat)
    ensures
      var s, now := Exec(parse, steps), steps + [last];
      && (StoppedAfterDone(parse, now, r, i)
          <==> StoppedAfterDone(parse, steps, r, i) || (i == |steps| && StopsNow(s, last, r)))
      && (FailedAfterDone(parse, now, r, i)
          <==> FailedAfterDone(parse, steps, r, i) || (i == |steps| && FailsNow(s, last, r)))
      && Progress(now, r, i) == if i < |steps| then Onward(Progress(steps, r, i), last, r) else 0
  {
    hide StopsNow, FailsNow, Exec, Onward;
    var now := steps + [last];
    assert now[..|steps|] == steps;
    if i < |steps| {
      assert now[..i] == steps[..i];
    }
  }

  lemma StoppedMeans(parse: string -> Option<Json>, steps: seq<Step>, last: Step, r: nat, progress: nat)
    ensures Stopped(parse, steps + [last], r, progress)
       <==> || (progress == 0 && StopsNow(Exec(parse, steps), last, r))
            || exists before: nat :: Stopped(parse, steps, r, before) && Onward(before, last, r) == progress
  {
    hide StoppedAfterDone, FailedAfterDone, Progress, Exec, StopsNow, FailsNow, Onward;
    var now := steps + [last];
    if Stopped(parse, now, r, progress) {
      var i: nat :| StoppedAfterDone(parse, now, r, i) && Progress(now, r, i) == progress;
      OneStepMore(parse, steps, last, r, i);
      StoppedWithin(parse, steps, r, i);
      if StoppedAfterDone(parse, steps, r, i) {
        assert Stopped(parse, steps, r, Progress(steps, r, i));
      }
    }
    if progress == 0 && StopsNow(Exec(parse, steps), last, r) {
      OneStepMore(parse, steps, last, r, |steps|);
    }
    if before: nat :| Stopped(parse, steps, r, before) && Onward(before, last, r) == progress {
      var i: nat :| StoppedAfterDone(parse, steps, r, i) && Progress(steps, r, i) == before;
      OneStepMore(parse, steps, last, r, i);
      StoppedWithin(parse, steps, r, i);
    }
  }

  lemma StoppedWithin(parse: string -> Option<Json>, steps: seq<Step>, r: nat, i: nat)
    ensures StoppedAfterDone(parse, steps, r, i) ==> i < |steps|
  {
  }

  lemma FailedMeans(parse: string -> Option<Json>, steps: seq<Step>, last: Step, r: nat)
    ensures FailedEver(parse, steps + [last], r)
       <==> FailedEver(parse, steps, r) || FailsNow(Exec(parse, steps), last, r)
  {
    hide FailedAfterDone, StoppedAfterDone, Progress, Exec, FailsNow, StopsNow, Onward;
    if i: nat :| FailedAfterDone(parse, steps + [last], r, i) {
      OneStepMore(parse, steps, last, r, i);
    }
    if i: nat :| FailedAfterDone(parse, steps, r, i) {
      OneStepMore(parse, steps, last, r, i);
    }
    OneStepMore(parse, steps, last, r, |steps|);
  }

  lemma StoppedSnoc(parse: string -> Option<Json>, steps: seq<Step>, last: Step, r: nat)
    ensures
      var s, now := Exec(parse, steps), steps + [last];
      && (Stopped(parse, now, r, 0) <==> StopsNow(s, last, r) || (Stopped(parse, steps, r, 0) && !Wakes(last, r)))
      && (Stopped(parse, now, r, 1)
          <==> (Stopped(parse, steps, r, 0) && Wakes(last, r)) || (Stopped(parse, steps, r, 1) && !Leaves(last, r)))
      && (Stopped(parse, now, r, 2)
          <==> Stopped(parse, steps, r, 2) || (Stopped(parse, steps, r, 1) && Leaves(last, r)))
  {
    forall before: nat | Stopped(parse, steps, r, before) ensures before <= 2 {
      var i: nat :| Progress(steps, r, i) == before;
    }
    hide Stopped, StopsNow, Exec, Wakes, Leaves;
    StoppedMeans(parse, steps, last, r, 0);
    StoppedMeans(parse, steps, last, r, 1);
    StoppedMeans(parse, steps, last, r, 2);
    assert Onward(2, last, r) == 2;
    assert Onward(1, last, r) == if Leaves(last, r) then 2 else 1;
    assert Onward(0, last, r) == if Wakes(last, r) then 1 else 0;
  }

  // Being stopped, struck, and heard of twice, as a task and its notices show it.
  predicate ShowsStopped(t: Task) { t.cancelled && AfterDone(t.at) }

  predicate ShowsStruck(t: Task) { t.at == Unwinding && t.hit.Some? && AfterDone(t.hit.value) }

  predicate Untouched(s: Socket, s1: Socket, r: nat)
    requires r < |s.tasks|
  {
    r < |s1.tasks| && s1.tasks[r] == s.tasks[r] && Notices(s1.log, r) == Notices(s.log, r)
  }

  lemma EntryUntouched(log: seq<Entry>, e: Entry, r: nat)
    requires !(e.FromRun? && e.run == r && !e.body.Upstream?)
    ensures Notices(log + [e], r) == Notices(log, r)
  {
    LogSnoc(log, e, r);
  }

  lemma OtherTaskUntouched(parse: string -> Option<Json>, s: Socket, run: nat, input: Input, r: nat)
    requires run < |s.tasks| && r < |s.tasks| && r != run
    ensures Untouched(s, WakeTask(parse, s, run, input), r)
  {
    hide Notices, Sse.DataPrefix, Sse.DoneMark;
    forall e: Entry | e.FromRun? && e.run == run ensures Notices(s.log + [e], r) == Notices(s.log, r) {
      EntryUntouched(s.log, e, r);
    }
  }

  // What a step of a run does to what it shows, n and n1 being the numbers of its notices.
  predicate Changes(t: Task, t1: Task, n: nat, n1: nat, input: Input) {
    var leaves := input.Closed? || input.Raises?;
    && !ShowsStopped(t1)
    && (ShowsStruck(t1) <==> ShowsStopped(t) || (ShowsStruck(t) && !leaves))
    && (n1 == 2 <==> n == 2 || (ShowsStruck(t) && leaves) || (AfterDone(t.at) && !t.cancelled && input.Raises?))
  }

  predicate ShowsStep(s: Socket, s1: Socket, input: Input, r: nat)
    requires r < |s.tasks|
  {
    r < |s1.tasks| && Changes(s.tasks[r], s1.tasks[r], |Notices(s.log, r)|, |Notices(s1.log, r)|, input)
  }

  lemma MovedShows(s: Socket, r: nat, t1: Task, frame: Option<Body>, input: Input)
    requires r < |s.tasks|
    requires
      var notices := Notices(s.log, r);
      Changes(s.tasks[r], t1, |notices|, |Noticed(notices, frame)|, input)
    ensures ShowsStep(s, Moved(s, r, t1, frame), input, r)
  {
    hide Changes, Notices;
    if frame.Some? {
      LogSnoc(s.log, FromRun(r, frame.value), r);
    }
  }

  // In the stream a run has said nothing yet, or only done.
  lemma SaidBefore(t: Task, notices: seq<Body>)
    requires NoticesFit(t, notices) && (InStream(t.at) || t.at == Unwinding)
    ensures |notices| == if AfterDone(t.at) || ShowsStruck(t) then 1 else 0
  {
  }

  lemma StruckChanges(t: Task, n: nat, input: Input)
    requires t.cancelled && t.at != Finished && t.at != SendingLate && t.at != Unwinding
    ensures Changes(t, Struck(t), n, n, input)
  {
  }

  lemma ThrowShows(parse: string -> Option<Json>, s: Socket, r: nat, input: Input)
    requires Inv(parse, s) && r < |s.tasks| && s.tasks[r].cancelled
    ensures ShowsStep(s, WakeTask(parse, s, r, input), input, r)
  {
    assert TaskOk(parse, s, r);
    var t := s.tasks[r];
    assert t.at != Finished && t.at != SendingLate && t.at != Unwinding;
    assert WakeTask(parse, s, r, input) == Moved(s, r, Struck(t), None);
    hide Inv, Notices, WakeTask, TaskOk, Changes, Struck, Moved, ShowsStep;
    StruckChanges(t, |Notices(s.log, r)|, input);
    MovedShows(s, r, Struck(t), None, input);
  }

  // The task goes on to send one more notice.
  lemma OneMore(t: Task, at: Point, n: nat, input: Input)
    requires n == (if AfterDone(t.at) || ShowsStruck(t) then 1 else 0) && !t.cancelled
    requires (at == SendingError && input.Raises?) || (at == SendingLate && input.Closed? && t.at == Unwinding)
    ensures Changes(t, t.(at := at), n, n + 1, input)
  {
  }

  lemma FailShows(parse: string -> Option<Json>, s: Socket, r: nat, input: Input)
    requires Inv(parse, s) && r < |s.tasks| && !s.tasks[r].cancelled && input.Raises?
    requires InStream(s.tasks[r].at) || s.tasks[r].at == Unwinding
    ensures ShowsStep(s, WakeTask(parse, s, r, input), input, r)
  {
    assert TaskOk(parse, s, r);
    SaidBefore(s.tasks[r], Notices(s.log, r));
    var frame := Some(Failed(Take(input.message, 300)));
    var t1 := s.tasks[r].(at := SendingError);
    assert WakeTask(parse, s, r, input) == Moved(s, r, t1, frame);
    hide Inv, Notices, WakeTask, Take, NoticesFit, TaskOk, Changes, InStream, Moved, ShowsStep;
    OneMore(s.tasks[r], SendingError, |Notices(s.log, r)|, input);
    MovedShows(s, r, t1, frame, input);
  }

  lemma ReadShows(parse: string -> Option<Json>, s: Socket, r: nat, line: string)
    requires Inv(parse, s) && r < |s.tasks| && !s.tasks[r].cancelled && s.tasks[r].at == Waiting
    ensures ShowsStep(s, WakeTask(parse, s, r, Line(line)), Line(line), r)
  {
    assert TaskOk(parse, s, r);
    var t := s.tasks[r];
    assert Notices(s.log, r) == [] && WakeTask(parse, s, r, Line(line)) == ReadLine(parse, s, r, line);
    assert !s.flag;
    hide Inv, WakeTask, Notices, NoticesFit, TaskOk, ShowsStep, Sse.DataPrefix, Sse.DoneMark;
    var t1, frame := ReadMoves(parse, s, r, line);
    MovedShows(s, r, t1, frame, Line(line));
  }

  lemma ReadMoves(parse: string -> Option<Json>, s: Socket, r: nat, line: string)
    returns (t1: Task, frame: Option<Body>)
    requires r < |s.tasks| && !s.flag && !s.tasks[r].cancelled && s.tasks[r].at == Waiting
    ensures ReadLine(parse, s, r, line) == Moved(s, r, t1, frame)
    ensures !t1.cancelled && t1.at != Unwinding
  {
    hide Sse.DataPrefix, Sse.DoneMark;
    t1, frame := s.tasks[r].(lines := s.tasks[r].lines + [line]), None;
    if Sse.DataPrefix() <= line {
      var data := line[|Sse.DataPrefix()|..];
      if data == Sse.DoneMark() {
        t1, frame := t1.(at := SendingDone), Some(Done);
      } else if parse(data).Some? {
        t1, frame := t1.(at := SendingEvent), Some(Upstream(parse(data).value));
      }
    }
  }

  lemma AcknowledgeShows(parse: string -> Option<Json>, s: Socket, r: nat)
    requires Inv(parse, s) && r < |s.tasks| && !s.tasks[r].cancelled && s.tasks[r].at == Unwinding
    ensures ShowsStep(s, WakeTask(parse, s, r, Closed), Closed, r)
  {
    assert TaskOk(parse, s, r);
    SaidBefore(s.tasks[r], Notices(s.log, r));
    var t1 := s.tasks[r].(at := SendingLate);
    assert WakeTask(parse, s, r, Closed) == Moved(s, r, t1, Some(Cancelled));
    hide Inv, Notices, WakeTask, NoticesFit, TaskOk, Changes, Moved, ShowsStep;
    OneMore(s.tasks[r], SendingLate, |Notices(s.log, r)|, Closed);
    MovedShows(s, r, t1, Some(Cancelled), Closed);
  }

  lemma RestShows(parse: string -> Option<Json>, s: Socket, r: nat, input: Input)
    requires r < |s.tasks| && !s.tasks[r].cancelled
    requires !(s.tasks[r].at == Waiting && input.Line?) && !(s.tasks[r].at == Unwinding && input.Closed?)
    requires input.Raises? ==> !InStream(s.tasks[r].at) && s.tasks[r].at != Unwinding
    requires s.tasks[r].at != SendingPolled
    ensures ShowsStep(s, WakeTask(parse, s, r, input), input, r)
  {
    assert WakeTask(parse, s, r, input).log == s.log;
    hide Notices;
  }

  lemma OwnStep(parse: string -> Option<Json>, s: Socket, r: nat, input: Input)
    requires Inv(parse, s) && r < |s.tasks|
    ensures ShowsStep(s, WakeTask(parse, s, r, input), input, r)
  {
    var t := s.tasks[r];
    hide Inv, WakeTask, ShowsStep;
    if t.cancelled {
      ThrowShows(parse, s, r, input);
    } else if input.Raises? && (InStream(t.at) || t.at == Unwinding) {
      FailShows(parse, s, r, input);
    } else if t.at == Waiting && input.Line? {
      ReadShows(parse, s, r, input.line);
    } else if t.at == Unwinding && input.Closed? {
      AcknowledgeShows(parse, s, r);
    } else {
      NeverPolled(parse, s, r);
      RestShows(parse, s, r, input);
    }
  }

  // Steps of the client and the reader send nothing for a run; the client may stop it.
  lemma ReaderStep(parse: string -> Option<Json>, s: Socket, step: Step, r: nat)
    requires Inv(parse, s) && r < |s.tasks| && !step.TaskWakes?
    ensures
      var s1 := Apply(parse, s, step);
      && r < |s1.tasks| && Notices(s1.log, r) == Notices(s.log, r)
      && (ShowsStopped(s1.tasks[r]) <==> ShowsStopped(s.tasks[r]) || StopsNow(s, step, r))
      && (ShowsStruck(s1.tasks[r]) <==> ShowsStruck(s.tasks[r]))
  {
    assert TaskOk(parse, s, r);
    hide Inv, TaskOk, Notices, Apply, StopsNow, ShowsStopped, ShowsStruck;
    ReaderLog(parse, s, step);
    var s1 := Apply(parse, s, step);
    if s1.log != s.log {
      EntryUntouched(s.log, s1.log[|s.log|], r);
    }
    ReaderTasks(parse, s, step, r);
  }

  lemma ReaderTasks(parse: string -> Option<Json>, s: Socket, step: Step, r: nat)
    requires Inv(parse, s) && r < |s.tasks| && !step.TaskWakes?
    ensures
      var s1 := Apply(parse, s, step);
      && r < |s1.tasks|
      && (ShowsStopped(s1.tasks[r]) <==> ShowsStopped(s.tasks[r]) || StopsNow(s, step, r))
      && (ShowsStruck(s1.tasks[r]) <==> ShowsStruck(s.tasks[r]))
  {
    assert TaskOk(parse, s, r);
    assert AfterDone(s.tasks[r].at) ==> r == |s.tasks| - 1;
    assert s.tasks[r].cancelled ==> Waits(s.reader);
    assert AfterDone(s.tasks[r].at) ==> Live(s);
    hide Inv, TaskOk, Apply, Stops, AfterDone, Live;
    ReaderTaskList(parse, s, step);
  }

  // They leave the list of tasks, add a task to it, or stop the live one.
  lemma ReaderTaskList(parse: string -> Option<Json>, s: Socket, step: Step)
    requires !step.TaskWakes?
    ensures
      var tasks, last := Apply(parse, s, step).tasks, |s.tasks| - 1;
      if Live(s) && Stopping(s.reader, step) then
        tasks == s.tasks[last := s.tasks[last].(cancelled := true)]
      else
        tasks == s.tasks
        || (|tasks| == last + 2 && tasks == s.tasks + [Task(tasks[last + 1].text, Fresh, false, None, [])])
  {
    hide Strip, WakeTask;
  }

  // What they add to the log is no frame of a run.
  lemma ReaderLog(parse: string -> Option<Json>, s: Socket, step: Step)
    requires !step.TaskWakes?
    ensures
      var log := Apply(parse, s, step).log;
      log == s.log || (|log| == |s.log| + 1 && log == s.log + [log[|s.log|]] && !log[|s.log|].FromRun?)
  {
    hide Strip, WakeTask;
  }

  lemma WakingAddsNoTask(parse: string -> Option<Json>, s: Socket, run: nat, input: Input)
    requires run < |s.tasks|
    ensures |WakeTask(parse, s, run, input).tasks| == |s.tasks|
  {
    hide Sse.DataPrefix, Sse.DoneMark;
  }

  lemma NewTask(parse: string -> Option<Json>, s: Socket, step: Step, r: nat)
    requires Inv(parse, s) && |s.tasks| <= r < |Apply(parse, s, step).tasks|
    ensures
      var s1 := Apply(parse, s, step);
      !s1.tasks[r].cancelled && s1.tasks[r].at == Fresh && Notices(s1.log, r) == []
  {
    assert Notices(s.log, r) == [];
    hide Inv, Notices;
    if step.TaskWakes? {
      hide WakeTask;
      if step.run < |s.tasks| {
        WakingAddsNoTask(parse, s, step.run, step.input);
      }
    } else {
      ReaderLog(parse, s, step);
      NewTaskIsFresh(parse, s, step, r);
      hide Apply;
      var s1 := Apply(parse, s, step);
      if s1.log != s.log {
        EntryUntouched(s.log, s1.log[|s.log|], r);
      }
    }
  }

  lemma NewTaskIsFresh(parse: string -> Option<Json>, s: Socket, step: Step, r: nat)
    requires !step.TaskWakes? && |s.tasks| <= r < |Apply(parse, s, step).tasks|
    ensures var t := Apply(parse, s, step).tasks[r]; t.at == Fresh && !t.cancelled
  {
    hide Apply;
    ReaderTaskList(parse, s, step);
  }

  // How the history of a run shows in its task and its notices.
  ghost predicate HistoryShows(parse: string -> Option<Json>, steps: seq<Step>, r: nat) {
    var s := Exec(parse, steps);
    if r < |s.tasks| then
      && (Stopped(parse, steps, r, 0) <==> ShowsStopped(s.tasks[r]))
      && (Stopped(parse, steps, r, 1) <==> ShowsStruck(s.tasks[r]))
      && (Stopped(parse, steps, r, 2) || FailedEver(parse, steps, r) <==> |Notices(s.log, r)| == 2)
    else
      && !Stopped(parse, steps, r, 0) && !Stopped(parse, steps, r, 1) && !Stopped(parse, steps, r, 2)
      && !FailedEver(parse, steps, r)
  }

  lemma HistoryStep(parse: string -> Option<Json>, steps: seq<Step>, last: Step, r: nat)
    requires HistoryShows(parse, steps, r) && Inv(parse, Exec(parse, steps))
    ensures HistoryShows(parse, steps + [last], r)
  {
    var s := Exec(parse, steps);
    ExecSnoc(parse, steps, last);
    StoppedSnoc(parse, steps, last, r);
    FailedMeans(parse, steps, last, r);
    hide Stopped, FailedEver, Exec, Inv, Notices, ShowsStopped, ShowsStruck, Apply, StopsNow, FailsNow;
    if r < |s.tasks| {
      TaskAfter(parse, s, last, r);
    } else {
      NotYet(s, last, r);
      if r < |Apply(parse, s, last).tasks| {
        NewTask(parse, s, last, r);
        NewShowsNothing(Apply(parse, s, last).tasks[r]);
      }
    }
  }

  lemma NotYet(s: Socket, step: Step, r: nat)
    requires r >= |s.tasks|
    ensures !StopsNow(s, step, r) && !FailsNow(s, step, r)
  {
  }

  lemma NewShowsNothing(t: Task)
    requires !t.cancelled && t.at == Fresh
    ensures !ShowsStopped(t) && !ShowsStruck(t)
  {
  }

  // What any step makes of what a task shows.
  lemma TaskAfter(parse: string -> Option<Json>, s: Socket, step: Step, r: nat)
    requires Inv(parse, s) && r < |s.tasks|
    ensures
      var s1 := Apply(parse, s, step);
      && r < |s1.tasks|
      && (ShowsStopped(s1.tasks[r]) <==> StopsNow(s, step, r) || (ShowsStopped(s.tasks[r]) && !Wakes(step, r)))
      && (ShowsStruck(s1.tasks[r])
          <==> (ShowsStopped(s.tasks[r]) && Wakes(step, r)) || (ShowsStruck(s.tasks[r]) && !Leaves(step, r)))
      && (|Notices(s1.log, r)| == 2
          <==> |Notices(s.log, r)| == 2 || (ShowsStruck(s.tasks[r]) && Leaves(step, r)) || FailsNow(s, step, r))
  {
    if Wakes(step, r) {
      OwnStep(parse, s, r, step.input);
      assert Apply(parse, s, step) == WakeTask(parse, s, r, step.input);
      hide Apply, WakeTask, Inv, Notices, ShowsStopped, ShowsStruck;
    } else if step.TaskWakes? {
      assert Apply(parse, s, step) == if step.run < |s.tasks| then WakeTask(parse, s, step.run, step.input) else s;
      hide Apply, WakeTask, Inv, Notices, ShowsStopped, ShowsStruck;
      if step.run < |s.tasks| {
        OtherTaskUntouched(parse, s, step.run, step.input, r);
      }
    } else {
      hide Apply, Inv, Notices, ShowsStopped, ShowsStruck, StopsNow;
      ReaderStep(parse, s, step, r);
    }
  }

  lemma {:induction false} AlwaysShows(parse: string -> Option<Json>, steps: seq<Step>, r: nat)
    ensures HistoryShows(parse, steps, r)
  {
    hide HistoryShows, Inv, Exec;
    if steps == [] {
      NothingYet(parse, r);
    } else {
      var before := steps[..|steps| - 1];
      AlwaysInv(parse, before);
      AlwaysShows(parse, before, r);
      HistoryStep(parse, before, steps[|steps| - 1], r);
      assert before + [steps[|steps| - 1]] == steps;
    }
  }

  lemma NothingYet(parse: string -> Option<Json>, r: nat)
    ensures HistoryShows(parse, [], r)
  {
  }

  lemma {:induction false} ProgressMeans(steps: seq<Step>, r: nat, i: nat)
    ensures Progress(steps, r, i) >= 1 <==> exists j :: i < j < |steps| && Wakes(steps[j], r)
    ensures Progress(steps, r, i) == 2
       <==> exists j: nat, k: nat :: i < j < k < |steps| && Wakes(steps[j], r) && Leaves(steps[k], r)
  {
    if |steps| > i + 1 {
      hide Wakes, Leaves;
      var before, last := steps[..|steps| - 1], steps[|steps| - 1];
      ProgressMeans(before, r, i);
      assert forall j :: 0 <= j < |before| ==> before[j] == steps[j];
      assert Leaves(last, r) ==> Wakes(last, r) by {
        LeavingIsWaking(last, r);
      }
    }
  }

  lemma LeavingIsWaking(step: Step, r: nat)
    ensures Leaves(step, r) ==> Wakes(step, r)
  {
  }

  // The done frame comes first and then, before the upstream is closed, either an exception hits the run,
  // or it is stopped, by the client or by a reply that finds the client gone, and it wakes and leaves the
  // stream.
  ghost predicate HeardTwice(parse: string -> Option<Json>, steps: seq<Step>, r: nat) {
    || (exists i: nat :: FailedAfterDone(parse, steps, r, i))
    || (exists i: nat, j: nat, k: nat :: StoppedAfterDone(parse, steps, r, i) && i < j < k < |steps|
                                         && Wakes(steps[j], r) && Leaves(steps[k], r))
  }

  // A run sends at most two frames of the gateway's own, and two in that case only.
  lemma NoticesOfARun(parse: string -> Option<Json>, steps: seq<Step>, r: nat)
    requires r < |Exec(parse, steps).tasks|
    ensures
      var notices := Notices(Exec(parse, steps).log, r);
      && |notices| <= 2
      && (|notices| == 2 ==> notices[0] == Done && (notices[1] == Cancelled || notices[1].Failed?))
      && (|notices| == 2 <==> HeardTwice(parse, steps, r))
  {
    AlwaysInv(parse, steps);
    AlwaysShows(parse, steps, r);
    TwoAtMost(parse, Exec(parse, steps), r);
    hide StoppedAfterDone, FailedAfterDone, Exec, Notices, Wakes, Leaves, Inv, Stopped;
    StoppedTwice(parse, steps, r);
  }

  lemma StoppedTwice(parse: string -> Option<Json>, steps: seq<Step>, r: nat)
    ensures Stopped(parse, steps, r, 2)
       <==> exists i: nat, j: nat, k: nat :: StoppedAfterDone(parse, steps, r, i) && i < j < k < |steps|
                                             && Wakes(steps[j], r) && Leaves(steps[k], r)
  {
    hide StoppedAfterDone, Progress, Exec, Wakes, Leaves;
    if Stopped(parse, steps, r, 2) {
      var i: nat :| StoppedAfterDone(parse, steps, r, i) && Progress(steps, r, i) == 2;
      ProgressMeans(steps, r, i);
    }
    if i: nat, j: nat, k: nat :| StoppedAfterDone(parse, steps, r, i) && i < j < k < |steps|
                                 && Wakes(steps[j], r) && Leaves(steps[k], r) {
      ProgressMeans(steps, r, i);
    }
  }

  lemma TwoAtMost(parse: string -> Option<Json>, s: Socket, r: nat)
    requires Inv(parse, s) && r < |s.tasks|
    ensures
      var notices := Notices(s.log, r);
      && |notices| <= 2
      && (|notices| == 2 ==> notices[0] == Done && (notices[1] == Cancelled || notices[1].Failed?))
  {
    assert TaskOk(parse, s, r);
    hide Notices, Forwarded, Sse.Decode;
  }

  function DoneRead(content: string): seq<Step> {
    [Client(UserMessage(content)), TaskWakes(0, Begin), TaskWakes(0, Line(Sse.DataPrefix() + Sse.DoneMark()))]
  }

  lemma DoneReadMeans(parse: string -> Option<Json>, content: string)
    requires Strip(content) != ""
    ensures
      var t := Task(Strip(content), SendingDone, false, None, [Sse.DataPrefix() + Sse.DoneMark()]);
      Exec(parse, DoneRead(content)) == Socket(Receiving, false, [t], [FromRun(0, Done)])
  {
    hide Strip, Sse.DataPrefix, Sse.DoneMark;
    var steps := DoneRead(content);
    var line := Sse.DataPrefix() + Sse.DoneMark();
    var t := Task(Strip(content), Waiting, false, None, []);
    assert steps[..2][..1] == steps[..1] && steps[..1][..0] == [];
    assert Exec(parse, steps[..1]) == Socket(Receiving, false, [t.(at := Fresh)], []);
    assert Exec(parse, steps[..2]) == Socket(Receiving, false, [t], []);
    assert line[|Sse.DataPrefix()|..] == Sse.DoneMark() && [] + [line] == [line];
  }

  lemma ExecSnoc(parse: string -> Option<Json>, steps: seq<Step>, last: Step)
    ensures Exec(parse, steps + [last]) == Apply(parse, Exec(parse, steps), last)
  {
    assert (steps + [last])[..|steps|] == steps;
  }

  // Both exceptions happen: a cancel that arrives while the done frame goes out, and an upstream whose
  // closing raises after it went out.
  lemma DoneThenAnother(parse: string -> Option<Json>, content: string, message: string)
    requires Strip(content) != ""
    ensures
      var stopped := DoneRead(content) + [Client(Cancel)] + [TaskWakes(0, Sent)] + [TaskWakes(0, Closed)];
      Exec(parse, stopped).log == [FromRun(0, Done), FromRun(0, Cancelled)]
    ensures
      var failed := DoneRead(content) + [TaskWakes(0, Sent)] + [TaskWakes(0, Raises(message))];
      Exec(parse, failed).log == [FromRun(0, Done), FromRun(0, Failed(Take(message, 300)))]
  {
    DoneReadMeans(parse, content);
    var steps := DoneRead(content);
    hide DoneRead, Strip, Sse.DataPrefix, Sse.DoneMark, Take;
    ExecSnoc(parse, steps, Client(Cancel));
    ExecSnoc(parse, steps + [Client(Cancel)], TaskWakes(0, Sent));
    ExecSnoc(parse, steps + [Client(Cancel)] + [TaskWakes(0, Sent)], TaskWakes(0, Closed));
    ExecSnoc(parse, steps, TaskWakes(0, Sent));
    ExecSnoc(parse, steps + [TaskWakes(0, Sent)], TaskWakes(0, Raises(message)));
    hide Exec;
  }

  // And so does the third: a reply that finds the client gone while the done frame goes out.
  lemma DoneThenHangUp(parse: string -> Option<Json>, content: string)
    requires Strip(content) != ""
    ensures
      var replied := DoneRead(content) + [Client(Ping)] + [ReplyRaises(true)];
      var steps := replied + [TaskWakes(0, Sent)] + [TaskWakes(0, Closed)];
      Exec(parse, steps).log == [FromRun(0, Done), Pong, FromRun(0, Cancelled)]
  {
    DoneReadMeans(parse, content);
    var steps := DoneRead(content);
    hide DoneRead, Strip, Sse.DataPrefix, Sse.DoneMark;
    ExecSnoc(parse, steps, Client(Ping));
    ExecSnoc(parse, steps + [Client(Ping)], ReplyRaises(true));
    ExecSnoc(parse, steps + [Client(Ping)] + [ReplyRaises(true)], TaskWakes(0, Sent));
    ExecSnoc(parse, steps + [Client(Ping)] + [ReplyRaises(true)] + [TaskWakes(0, Sent)], TaskWakes(0, Closed));
    hide Exec;
  }

  // The cancel flag the stream polls between lines is never seen set: CancelledError comes first.
  lemma FlagIsNeverSeen(parse: string -> Option<Json>, steps: seq<Step>, r: nat)
    requires
      var s := Exec(parse, steps);
      r < |s.tasks| && s.tasks[r].at == Waiting && !s.tasks[r].cancelled
    ensures !Exec(parse, steps).flag
  {
    AlwaysInv(parse, steps);
    assert TaskOk(parse, Exec(parse, steps), r);
  }

  // What a run forwarded is what its upstream lines decode to, in order, up to the last line read.
  lemma ForwardsWhatItReads(parse: string -> Option<Json>, steps: seq<Step>, r: nat)
    requires r < |Exec(parse, steps).tasks|
    ensures
      var s := Exec(parse, steps);
      Forwarded(s.log, r) == Sse.Decode(parse, s.tasks[r].lines).events
  {
    AlwaysInv(parse, steps);
    assert TaskOk(parse, Exec(parse, steps), r);
  }

  // ----- A whole stream, from the runtime to the client -----

  // All frames of a run, in order.
  function Frames(log: seq<Entry>, run: nat): seq<Body> {
    if log == [] then []
    else
      var e := log[|log| - 1];
      Frames(log[..|log| - 1], run) + if e.FromRun? && e.run == run then [e.body] else []
  }

  function AllUpstream(events: seq<Json>): seq<Body> {
    seq(|events|, i requires 0 <= i < |events| => Upstream(events[i]))
  }

  // Events first, then the gateway's own frames.
  predicate EventsFirst(log: seq<Entry>, r: nat) {
    Frames(log, r) == AllUpstream(Forwarded(log, r)) + Notices(log, r)
  }

  lemma FramesSnoc(log: seq<Entry>, e: Entry, r: nat)
    requires EventsFirst(log, r)
    requires e.FromRun? && e.run == r && e.body.Upstream? ==> Notices(log, r) == []
    ensures EventsFirst(log + [e], r)
  {
    assert (log + [e])[..|log|] == log;
    LogSnoc(log, e, r);
    var events := Forwarded(log, r);
    if e.FromRun? && e.run == r {
      hide Frames, Forwarded, Notices;
      if e.body.Upstream? {
        assert AllUpstream(events + [e.body.event]) == AllUpstream(events) + [e.body];
        assert AllUpstream(events) + [] + [e.body] == AllUpstream(events) + [e.body] + [];
      } else {
        assert AllUpstream(events) + Notices(log, r) + [e.body] == AllUpstream(events) + (Notices(log, r) + [e.body]);
      }
    }
  }

  // A step adds at most one entry, and an event only for a task that waits for upstream.
  lemma StepLog(parse: string -> Option<Json>, s: Socket, step: Step)
    ensures
      var log := Apply(parse, s, step).log;
      || log == s.log
      || (|log| == |s.log| + 1 && log[..|s.log|] == s.log
          && var e := log[|s.log|];
             e.FromRun? && e.body.Upstream? ==> e.run < |s.tasks| && s.tasks[e.run].at == Waiting)
  {
    if step.TaskWakes? {
      hide Sse.DataPrefix, Sse.DoneMark;
    } else {
      ReaderLog(parse, s, step);
      hide Apply;
    }
  }

  lemma {:induction false} AlwaysEventsFirst(parse: string -> Option<Json>, steps: seq<Step>, r: nat)
    ensures EventsFirst(Exec(parse, steps).log, r)
  {
    hide EventsFirst, Exec;
    if steps == [] {
      NoFrames(parse, r);
    } else {
      var before, last := steps[..|steps| - 1], steps[|steps| - 1];
      AlwaysEventsFirst(parse, before, r);
      AlwaysInv(parse, before);
      ExecSnoc(parse, before, last);
      assert before + [last] == steps;
      StepEventsFirst(parse, Exec(parse, before), last, r);
    }
  }

  lemma NoFrames(parse: string -> Option<Json>, r: nat)
    ensures EventsFirst(Exec(parse, []).log, r)
  {
    assert AllUpstream([]) == [];
  }

  lemma StepEventsFirst(parse: string -> Option<Json>, s: Socket, step: Step, r: nat)
    requires EventsFirst(s.log, r) && Inv(parse, s)
    ensures EventsFirst(Apply(parse, s, step).log, r)
  {
    hide Apply, EventsFirst, Inv, Notices;
    StepLog(parse, s, step);
    var log := Apply(parse, s, step).log;
    if log != s.log {
      var e := log[|s.log|];
      if e.FromRun? && e.run == r && e.body.Upstream? {
        WaitingIsSilent(parse, s, r);
      }
      FramesSnoc(s.log, e, r);
      assert log == s.log + [e];
    }
  }

  lemma WaitingIsSilent(parse: string -> Option<Json>, s: Socket, r: nat)
    requires Inv(parse, s) && r < |s.tasks| && s.tasks[r].at == Waiting
    ensures Notices(s.log, r) == []
  {
    assert TaskOk(parse, s, r);
  }

  // Once the end mark is met, later lines are not decoded.
  lemma {:induction false} DecodeStops(parse: string -> Option<Json>, lines: seq<string>, more: seq<string>)
    requires lines <= more && Sse.Decode(parse, lines).done
    ensures Sse.Decode(parse, more) == Sse.Decode(parse, lines)
  {
    if lines != [] {
      hide Sse.DataPrefix, Sse.DoneMark;
      assert more[0] == lines[0] && lines[1..] <= more[1..];
      if Sse.Decode(parse, lines[1..]).done {
        DecodeStops(parse, lines[1..], more[1..]);
      }
    }
  }

  // From the runtime to the client: a run that read a printed and relayed stream up to its end mark has
  // sent exactly the events, in order, then done, and nothing else unless it was stopped or failed after
  // that.
  lemma EventsReachTheClient(parse: string -> Option<Json>, dumps: Json -> string, events: seq<Json>,
                             steps: seq<Step>, r: nat)
    requires r < |Exec(parse, steps).tasks|
    requires forall e <- events :: parse(dumps(e)) == Some(e) && Sse.OneLine(dumps(e)) && dumps(e) != Sse.DoneMark()
    requires
      var lines := Exec(parse, steps).tasks[r].lines;
      && lines <= Sse.SplitLines(Sse.Relayed(Sse.Printed(Sse.Dumped(dumps, events))), "")
      && Sse.Decode(parse, lines).done
    ensures
      var frames := Frames(Exec(parse, steps).log, r);
      && AllUpstream(events) + [Done] <= frames
      && (frames == AllUpstream(events) + [Done] <==> !HeardTwice(parse, steps, r))
  {
    var s := Exec(parse, steps);
    Sse.EventsComeBack(parse, dumps, events);
    DecodeStops(parse, s.tasks[r].lines, Sse.SplitLines(Sse.Relayed(Sse.Printed(Sse.Dumped(dumps, events))), ""));
    AlwaysInv(parse, steps);
    assert TaskOk(parse, s, r);
    AlwaysEventsFirst(parse, steps, r);
    NoticesOfARun(parse, steps, r);
    var notices := Notices(s.log, r);
    hide Exec, Notices, Forwarded, Frames, Sse.Decode, AllUpstream, Inv, HeardTwice;
    assert notices[0] == Done && Frames(s.log, r) == AllUpstream(events) + notices;
    assert [Done] <= notices;
  }

  // Nobody is left to cancel or replace the newest of n tasks, which was cancelled or not.
  predicate Orphaned(s: Socket, n: nat, cancelled: bool) {
    && s.reader == Gone && 0 < n == |s.tasks|
    && (s.tasks[n - 1].cancelled || s.tasks[n - 1].hit.Some? <==> cancelled)
  }

  lemma OrphanStays(parse: string -> Option<Json>, s: Socket, n: nat, cancelled: bool, step: Step)
    requires Orphaned(s, n, cancelled)
    ensures Orphaned(Apply(parse, s, step), n, cancelled)
  {
    hide Sse.DataPrefix, Sse.DoneMark;
  }

  // The reader ends: the client disconnects while the reader waits for a message, a message makes it
  // raise, or a reply raises.
  predicate Departs(s: Socket, step: Step) {
    || (s.reader == Receiving && (step == Client(Disconnect) || step == Client(BadContent)))
    || (s.reader == Replying && step.ReplyRaises?)
  }

  // A run that is live when the reader ends is never replaced, and is cancelled exactly when the end is
  // a disconnect that surfaces in a reply, whatever happens afterwards. In particular, a client that
  // leaves while the reader waits for a message leaves its run going.
  lemma {:induction false} LeavingCancelsIff(parse: string -> Option<Json>, before: seq<Step>, step: Step,
                                             after: seq<Step>)
    requires Departs(Exec(parse, before), step) && Live(Exec(parse, before))
    ensures
      var s1 := Exec(parse, before + [step] + after);
      && s1.reader == Gone && 0 < |s1.tasks| == |Exec(parse, before).tasks|
      && var t := s1.tasks[|s1.tasks| - 1];
         (t.cancelled || t.hit.Some? <==> step == ReplyRaises(true))
  {
    hide Inv, Apply, Departs;
    var steps := before + [step];
    var s0 := Exec(parse, before);
    if after == [] {
      assert steps + [] == steps && steps[..|steps| - 1] == before;
      LeavingNow(parse, before, step);
    } else {
      var init := after[..|after| - 1];
      LeavingCancelsIff(parse, before, step, init);
      assert (steps + after)[..|steps + after| - 1] == steps + init;
      OrphanStays(parse, Exec(parse, steps + init), |s0.tasks|, step == ReplyRaises(true), after[|after| - 1]);
    }
  }

  lemma LeavingNow(parse: string -> Option<Json>, before: seq<Step>, step: Step)
    requires Departs(Exec(parse, before), step) && Live(Exec(parse, before))
    ensures Orphaned(Apply(parse, Exec(parse, before), step), |Exec(parse, before).tasks|, step == ReplyRaises(true))
  {
    var s := Exec(parse, before);
    AlwaysInv(parse, before);
    hide Exec, Notices, Forwarded, Sse.Decode;
    assert TaskOk(parse, s, |s.tasks| - 1);
  }
}
