// The server-sent-events chain: the agent runtime prints events (agent_runtime/routes.py), the
// gateway relays them line by line (api_gateway/routes/agents.py), and the SDK
// (sdk/python/agenticos/client.py) or the chat socket (api_gateway/routes/chat.py) decodes them.
module Sse {
  import opened Common

  function DataPrefix(): (s: string)
    ensures |s| == 6
  {
    "data: "
  }

  function DoneMark(): string { "[DONE]" }

  // ----- Lines of a text, as the HTTP client splits them -----

  predicate IsBreak(c: char) {
    var n := c as int;
    10 <= n <= 13 || 28 <= n <= 30 || n == 0x85 || n == 0x2028 || n == 0x2029
  }

  predicate OneLine(s: string) {
    forall i :: 0 <= i < |s| ==> !IsBreak(s[i])
  }

  // `open` is the line being read; a carriage return and a newline together are one break.
  function SplitLines(text: string, open: string): seq<string>
    decreases |text|
  {
    if text == "" then
      if open != "" then [open] else []
    else if !IsBreak(text[0]) then SplitLines(text[1..], open + text[..1])
    else if |text| >= 2 && text[0] == '\r' && text[1] == '\n' then [open] + SplitLines(text[2..], "")
    else [open] + SplitLines(text[1..], "")
  }

  // ----- Printing, relaying, decoding -----

  // Each line followed by a blank one.
  function Framed(lines: seq<string>): string {
    if lines == [] then "" else lines[0] + "\n\n" + Framed(lines[1..])
  }

  function DataLines(payloads: seq<string>): seq<string> {
    seq(|payloads|, i requires 0 <= i < |payloads| => DataPrefix() + payloads[i])
  }

  // What `/run/stream` sends for its events.
  function Printed(payloads: seq<string>): string {
    Framed(DataLines(payloads) + [DataPrefix() + DoneMark()])
  }

  lemma {:induction false} FramedAppend(a: seq<string>, b: seq<string>)
    ensures Framed(a + b) == Framed(a) + Framed(b)
  {
    if a == [] {
      assert a + b == b;
    } else {
      FramedAppend(a[1..], b);
      assert (a + b)[1..] == a[1..] + b;
    }
  }

  // The generator of `/run/stream`: one frame per event, then the end mark.
  method PrintEvents(payloads: seq<string>) returns (out: string)
    ensures out == Printed(payloads)
  {
    hide DataPrefix, DoneMark;
    out := "";
    for i := 0 to |payloads|
      invariant out == Framed(DataLines(payloads[..i]))
    {
      assert DataLines(payloads[..i + 1]) == DataLines(payloads[..i]) + [DataPrefix() + payloads[i]];
      FramedAppend(DataLines(payloads[..i]), [DataPrefix() + payloads[i]]);
      out := out + (DataPrefix() + payloads[i] + "\n\n");
    }
    assert payloads[..|payloads|] == payloads;
    FramedAppend(DataLines(payloads), [DataPrefix() + DoneMark()]);
    out := out + (DataPrefix() + DoneMark() + "\n\n");
  }

  function NonEmpty(lines: seq<string>): seq<string> {
    if lines == [] then [] else (if lines[0] != "" then [lines[0]] else []) + NonEmpty(lines[1..])
  }

  function Relayed(text: string): string {
    Framed(NonEmpty(SplitLines(text, "")))
  }

  method Relay(lines: seq<string>) returns (out: string)
    ensures out == Framed(NonEmpty(lines))
  {
    out := "";
    for i := 0 to |lines|
      invariant out + Framed(NonEmpty(lines[i..])) == Framed(NonEmpty(lines))
    {
      var line := lines[i];
      ghost var rest := NonEmpty(lines[i + 1..]);
      assert lines[i..][0] == line && lines[i..][1..] == lines[i + 1..];
      if line != "" {
        assert NonEmpty(lines[i..]) == [line] + rest && ([line] + rest)[1..] == rest;
        assert out + (line + "\n\n" + Framed(rest)) == out + (line + "\n\n") + Framed(rest);
        out := out + (line + "\n\n");
      } else {
        assert NonEmpty(lines[i..]) == rest;
      }
    }
    assert lines[|lines|..] == [];
  }

  // The events decoded from lines, and whether the end mark was met.
  datatype Decoded = Decoded(events: seq<Json>, done: bool)

  function Decode(parse: string -> Option<Json>, lines: seq<string>): Decoded {
    if lines == [] then Decoded([], false)
    else if !(DataPrefix() <= lines[0]) then Decode(parse, lines[1..])
    else
      var data := lines[0][|DataPrefix()|..];
      if data == DoneMark() then Decoded([], true)
      else
        var rest := Decode(parse, lines[1..]);
        match parse(data)
        case None => rest
        case Some(e) => Decoded([e] + rest.events, rest.done)
  }

  method DecodeLines(parse: string -> Option<Json>, lines: seq<string>) returns (d: Decoded)
    ensures d == Decode(parse, lines)
  {
    hide DataPrefix, DoneMark;
    var events: seq<Json> := [];
    for i := 0 to |lines|
      invariant Decode(parse, lines)
        == Decoded(events + Decode(parse, lines[i..]).events, Decode(parse, lines[i..]).done)
    {
      assert lines[i..][0] == lines[i] && lines[i..][1..] == lines[i + 1..];
      if DataPrefix() <= lines[i] {
        var raw := lines[i][|DataPrefix()|..];
        if raw == DoneMark() {
          return Decoded(events, true);
        }
        var event := parse(raw);
        if event.Some? {
          ghost var rest := Decode(parse, lines[i + 1..]).events;
          assert events + ([event.value] + rest) == events + [event.value] + rest;
          events := events + [event.value];
        }
      }
    }
    assert lines[|lines|..] == [];
    return Decoded(events, false);
  }

  // ----- Lines of a framed text -----

  lemma {:induction false} ReadLine(line: string, rest: string, open: string)
    requires OneLine(line)
    ensures SplitLines(line + "\n" + rest, open) == [open + line] + SplitLines(rest, "")
  {
    var text := line + "\n" + rest;
    if line == "" {
      assert text == "\n" + rest && text[1..] == rest && open + line == open;
    } else {
      ReadLine(line[1..], rest, open + line[..1]);
      assert text[1..] == line[1..] + "\n" + rest && text[..1] == line[..1];
      assert open + line[..1] + line[1..] == open + line;
    }
  }

  predicate Tidy(lines: seq<string>) {
    forall l <- lines :: l != "" && OneLine(l)
  }

  // A framed text reads as its lines with a blank line after each.
  function Spaced(lines: seq<string>): seq<string> {
    if lines == [] then [] else [lines[0], ""] + Spaced(lines[1..])
  }

  lemma {:induction false} FramedReadsSpaced(lines: seq<string>)
    requires Tidy(lines)
    ensures SplitLines(Framed(lines), "") == Spaced(lines)
  {
    if lines != [] {
      var rest := Framed(lines[1..]);
      FramedReadsSpaced(lines[1..]);
      ReadLine("", rest, "");
      ReadLine(lines[0], "\n" + rest, "");
      assert Framed(lines) == lines[0] + "\n" + ("\n" + rest) && "" + "\n" + rest == "\n" + rest;
      assert "" + lines[0] == lines[0] && "" + "" == "";
      assert [lines[0]] + ([""] + Spaced(lines[1..])) == [lines[0], ""] + Spaced(lines[1..]);
    }
  }

  lemma {:induction false} SpacedNonEmpty(lines: seq<string>)
    requires Tidy(lines)
    ensures NonEmpty(Spaced(lines)) == lines
  {
    if lines != [] {
      var s := Spaced(lines);
      SpacedNonEmpty(lines[1..]);
      assert s[1..][1..] == Spaced(lines[1..]) && s[1..][0] == "";
      assert NonEmpty(s[1..]) == lines[1..];
      assert s[0] == lines[0] && lines[0] in lines && [lines[0]] + lines[1..] == lines;
    }
  }

  lemma {:induction false} LinesAreTidy(text: string, open: string)
    requires OneLine(open)
    ensures Tidy(NonEmpty(SplitLines(text, open)))
    decreases |text|
  {
    if text == "" {
    } else if !IsBreak(text[0]) {
      LinesAreTidy(text[1..], open + text[..1]);
    } else {
      var rest := if |text| >= 2 && text[0] == '\r' && text[1] == '\n' then text[2..] else text[1..];
      LinesAreTidy(rest, "");
      assert SplitLines(text, open)[1..] == SplitLines(rest, "");
    }
  }

  lemma {:induction false} SpacedDecodes(parse: string -> Option<Json>, lines: seq<string>)
    ensures Decode(parse, Spaced(lines)) == Decode(parse, lines)
  {
    if lines != [] {
      hide DoneMark;
      var s := Spaced(lines);
      SpacedDecodes(parse, lines[1..]);
      assert s[1..][1..] == Spaced(lines[1..]) && s[1..][0] == "";
    }
  }

  // ----- Theorems -----

  // Relaying a text twice gives what relaying it once gives, whatever the text.
  lemma RelayIsIdempotent(text: string)
    ensures Relayed(Relayed(text)) == Relayed(text)
  {
    var lines := NonEmpty(SplitLines(text, ""));
    LinesAreTidy(text, "");
    FramedReadsSpaced(lines);
    SpacedNonEmpty(lines);
  }

  lemma {:induction false} BlankLinesAreSkipped(parse: string -> Option<Json>, lines: seq<string>)
    ensures Decode(parse, NonEmpty(lines)) == Decode(parse, lines)
  {
    if lines != [] {
      hide DoneMark;
      BlankLinesAreSkipped(parse, lines[1..]);
      var rest := NonEmpty(lines[1..]);
      assert lines[0] != "" ==> NonEmpty(lines)[0] == lines[0] && NonEmpty(lines)[1..] == rest;
      assert lines[0] == "" ==> NonEmpty(lines) == [] + rest == rest;
    }
  }

  // Relaying keeps the lines with text, and with them what any text decodes to.
  lemma RelayKeepsLines(parse: string -> Option<Json>, text: string)
    ensures NonEmpty(SplitLines(Relayed(text), "")) == NonEmpty(SplitLines(text, ""))
    ensures Decode(parse, SplitLines(Relayed(text), "")) == Decode(parse, SplitLines(text, ""))
  {
    hide Decode, SplitLines, NonEmpty, Framed;
    var lines := NonEmpty(SplitLines(text, ""));
    LinesAreTidy(text, "");
    FramedReadsSpaced(lines);
    SpacedNonEmpty(lines);
    BlankLinesAreSkipped(parse, SplitLines(text, ""));
    BlankLinesAreSkipped(parse, SplitLines(Relayed(text), ""));
  }

  // A text is split at its first break, a carriage return with a newline after it being one; without a
  // break it is one line, if it is not empty.
  lemma {:induction false} SplitsAtBreaks(line: string, end: string, rest: string, open: string)
    requires OneLine(line)
    requires end == "\r\n" || (|end| == 1 && IsBreak(end[0]) && !(end == "\r" && rest != "" && rest[0] == '\n'))
    ensures SplitLines(line + end + rest, open) == [open + line] + SplitLines(rest, "")
    ensures SplitLines(line, open) == if open + line == "" then [] else [open + line]
  {
    var text := line + end + rest;
    if line == "" {
      assert text == end + rest && open + line == open;
      assert end == "\r\n" ==> IsBreak(text[0]) && text[2..] == rest;
      assert |end| == 1 ==> text[1..] == rest;
    } else {
      SplitsAtBreaks(line[1..], end, rest, open + line[..1]);
      assert text[1..] == line[1..] + end + rest && text[..1] == line[..1];
      assert open + line[..1] + line[1..] == open + line;
    }
  }

  // The characters that end a line, as `str.splitlines` has them.
  lemma BreaksAreThese(c: char)
    ensures IsBreak(c)
       <==> || c in {'\n', '\U{B}', '\U{C}', '\r', '\U{1C}', '\U{1D}', '\U{1E}'}
            || c in {'\U{85}', '\U{2028}', '\U{2029}'}
  {}

  // The stream on the wire: each payload after `data: ` with a blank line behind it, then the end mark.
  lemma WireFormat(payloads: seq<string>)
    ensures Printed(payloads)
         == if payloads == [] then "data: [DONE]\n\n" else "data: " + payloads[0] + "\n\n" + Printed(payloads[1..])
  {
    var last := [DataPrefix() + DoneMark()];
    if payloads == [] {
      assert DataLines(payloads) + last == last && last[1..] == [];
      assert Framed(last[1..]) == "" && Framed(last) == last[0] + "\n\n" + "";
      assert "data: " + "[DONE]" + "\n\n" + "" == "data: [DONE]\n\n";
    } else {
      hide DoneMark;
      assert DataLines(payloads) == [DataPrefix() + payloads[0]] + DataLines(payloads[1..]);
      assert (DataLines(payloads) + last)[1..] == DataLines(payloads[1..]) + last;
    }
  }

  // The payloads a stream may carry: single lines other than the end mark.
  predicate Sendable(payloads: seq<string>) {
    forall p <- payloads :: OneLine(p) && p != DoneMark()
  }

  lemma PrintedIsTidy(payloads: seq<string>)
    requires Sendable(payloads)
    ensures Tidy(DataLines(payloads) + [DataPrefix() + DoneMark()])
  {
    var lines := DataLines(payloads) + [DataPrefix() + DoneMark()];
    assert OneLine(DataPrefix()) && OneLine(DoneMark());
    hide DataPrefix, DoneMark;
    forall l | l in lines ensures l != "" && OneLine(l) {
      var i :| 0 <= i < |lines| && lines[i] == l;
      if i < |payloads| {
        assert payloads[i] in payloads && l == DataPrefix() + payloads[i];
      }
    }
  }

  function Parsed(parse: string -> Option<Json>, payloads: seq<string>): seq<Json> {
    if payloads == [] then []
    else (match parse(payloads[0]) case Some(e) => [e] case None => []) + Parsed(parse, payloads[1..])
  }

  lemma {:induction false} DataLinesDecode(parse: string -> Option<Json>, payloads: seq<string>)
    requires Sendable(payloads)
    ensures Decode(parse, DataLines(payloads) + [DataPrefix() + DoneMark()]) == Decoded(Parsed(parse, payloads), true)
  {
    hide DataPrefix, DoneMark;
    var last := DataPrefix() + DoneMark();
    var lines := DataLines(payloads) + [last];
    if payloads == [] {
      assert lines == [last] && last[|DataPrefix()|..] == DoneMark();
    } else {
      DataLinesDecode(parse, payloads[1..]);
      assert lines[0] == DataPrefix() + payloads[0] && lines[0][|DataPrefix()|..] == payloads[0];
      assert lines[1..] == DataLines(payloads[1..]) + [last];
      assert payloads[0] in payloads;
    }
  }

  // The gateway's relay leaves a printed stream as it is, and decoding it, relayed or not, gives the
  // payloads that parse, in order, and then the end mark.
  lemma StreamRoundTrip(parse: string -> Option<Json>, payloads: seq<string>)
    requires Sendable(payloads)
    ensures Relayed(Printed(payloads)) == Printed(payloads)
    ensures Decode(parse, SplitLines(Printed(payloads), "")) == Decoded(Parsed(parse, payloads), true)
    ensures Decode(parse, SplitLines(Relayed(Printed(payloads)), "")) == Decoded(Parsed(parse, payloads), true)
  {
    hide DataPrefix, DoneMark, Framed, SplitLines, Spaced, NonEmpty, Decode;
    var lines := DataLines(payloads) + [DataPrefix() + DoneMark()];
    PrintedIsTidy(payloads);
    FramedReadsSpaced(lines);
    SpacedNonEmpty(lines);
    SpacedDecodes(parse, lines);
    DataLinesDecode(parse, payloads);
  }

  // With a serialiser the parser undoes, the events themselves come back.
  lemma {:induction false} ParsedUndoesDumps(parse: string -> Option<Json>, dumps: Json -> string, events: seq<Json>)
    requires forall e <- events :: parse(dumps(e)) == Some(e)
    ensures Parsed(parse, seq(|events|, i requires 0 <= i < |events| => dumps(events[i]))) == events
  {
    if events != [] {
      ParsedUndoesDumps(parse, dumps, events[1..]);
      var texts := seq(|events|, i requires 0 <= i < |events| => dumps(events[i]));
      assert texts[1..] == seq(|events[1..]|, i requires 0 <= i < |events[1..]| => dumps(events[1..][i]));
      assert events[0] in events;
    }
  }

  function Dumped(dumps: Json -> string, events: seq<Json>): (payloads: seq<string>)
    ensures |payloads| == |events| && forall i :: 0 <= i < |events| ==> payloads[i] == dumps(events[i])
  {
    seq(|events|, i requires 0 <= i < |events| => dumps(events[i]))
  }

  // Events that the serialiser writes on one line, and never as the end mark, come back from printing,
  // relaying and decoding: the same events in the same order, and then the end.
  lemma EventsComeBack(parse: string -> Option<Json>, dumps: Json -> string, events: seq<Json>)
    requires forall e <- events :: parse(dumps(e)) == Some(e) && OneLine(dumps(e)) && dumps(e) != DoneMark()
    ensures
      var printed := Printed(Dumped(dumps, events));
      && Decode(parse, SplitLines(printed, "")) == Decoded(events, true)
      && Decode(parse, SplitLines(Relayed(printed), "")) == Decoded(events, true)
  {
    hide DoneMark, OneLine, Printed, Relayed, Decode, SplitLines, Parsed;
    var payloads := Dumped(dumps, events);
    forall p | p in payloads ensures OneLine(p) && p != DoneMark() {
      var i :| 0 <= i < |payloads| && payloads[i] == p;
      assert events[i] in events;
    }
    StreamRoundTrip(parse, payloads);
    ParsedUndoesDumps(parse, dumps, events);
  }
}
