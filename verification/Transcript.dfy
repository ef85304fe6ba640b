// The transcript a session summary is made from (worker/jobs/summarize_session.py).
module Transcript {
  import opened Common

  datatype Message = Message(role: string, content: string)

  // `upper` is str.upper.
  function LineOf(upper: string -> string, m: Message): (line: string)
    ensures line != ""
  {
    upper(m.role) + ": " + Strip(m.content)
  }

  // One line for each message with content.
  function Lines(upper: string -> string, messages: seq<Message>): seq<string> {
    if messages == [] then []
    else
      var last := messages[|messages| - 1];
      Lines(upper, messages[..|messages| - 1]) + if last.content == "" then [] else [LineOf(upper, last)]
  }

  function Newline(): (s: string)
    ensures |s| == 1
  {
    "\n"
  }

  // "\n".join(lines)
  function Join(lines: seq<string>): string {
    if lines == [] then ""
    else if |lines| == 1 then lines[0]
    else Join(lines[..|lines| - 1]) + Newline() + lines[|lines| - 1]
  }

  // The join of some lines, ready for another.
  function Head(lines: seq<string>): (h: string)
    ensures |h| == if lines == [] then 0 else |Join(lines)| + 1
  {
    if lines == [] then "" else Join(lines) + Newline()
  }

  lemma JoinSnoc(lines: seq<string>, line: string)
    ensures Join(lines + [line]) == Head(lines) + line
  {
    assert (lines + [line])[..|lines|] == lines;
  }

  // The join of the first lines is a prefix, and every line makes it longer.
  lemma {:induction false} JoinGrows(lines: seq<string>, j: nat)
    requires 1 <= j < |lines|
    ensures Join(lines[..j]) <= Join(lines) && |Join(lines[..j])| < |Join(lines)|
  {
    var init := lines[..|lines| - 1];
    if j < |init| {
      JoinGrows(init, j);
      assert init[..j] == lines[..j];
    } else {
      assert lines[..j] == init;
    }
  }

  lemma JoinPrefix(lines: seq<string>, j: nat)
    requires 1 <= j <= |lines|
    ensures Join(lines[..j]) <= Join(lines) && |Join(lines[..j])| <= |Join(lines)|
  {
    if j < |lines| {
      JoinGrows(lines, j);
    } else {
      assert lines[..j] == lines;
    }
  }

  // The lines so far fill the limit exactly, and there are more.
  predicate LineEndsAt(lines: seq<string>, limit: int) {
    exists j :: 1 <= j < |lines| && |Join(lines[..j])| == limit
  }

  // The whole join if it fits; else its first `limit` characters, and one more exactly when a line
  // ends at the limit, because the newline is counted ahead of the line it introduces.
  predicate IsCut(whole: string, lines: seq<string>, limit: int, r: string) {
    if |whole| <= limit then r == whole
    else if limit < 0 then r == ""
    else r <= whole && |r| == if LineEndsAt(lines, limit) then limit + 1 else limit
  }

  lemma CutText(head: string, line: string, whole: string, limit: int)
    requires head + line <= whole && |head| + |line| > limit && (head == "" || |head| <= limit + 1)
    ensures
      var r := head + Take(line, if limit - |head| < 0 then 0 else limit - |head|);
      r <= whole && |r| == if limit < |head| then |head| else limit
  {
    var cut := Take(line, if limit - |head| < 0 then 0 else limit - |head|);
    assert head + cut <= head + line;
  }

  lemma NextLine(lines: seq<string>, k: nat)
    requires k < |lines|
    ensures Join(lines[..k + 1]) == Head(lines[..k]) + lines[k]
    ensures Head(lines[..k]) + lines[k] <= Join(lines)
  {
    hide Join, Head;
    assert lines[..k + 1] == lines[..k] + [lines[k]];
    JoinSnoc(lines[..k], lines[k]);
    assert Join(lines[..k + 1]) == Head(lines[..k]) + lines[k];
    JoinPrefix(lines, k + 1);
  }

  // Cutting at the line that does not fit, after lines that do.
  lemma CutsHere(lines: seq<string>, k: nat, limit: int)
    requires k < |lines|
    requires k > 0 ==> |Join(lines[..k])| <= limit
    requires |Head(lines[..k])| + |lines[k]| > limit
    ensures
      var used := |Head(lines[..k])|;
      var cut := Take(lines[k], if limit - used < 0 then 0 else limit - used);
      IsCut(Join(lines), lines, limit, Join(lines[..k] + [cut]))
  {
    var done := lines[..k];
    var head := Head(done);
    var cut := Take(lines[k], if limit - |head| < 0 then 0 else limit - |head|);
    hide Join, LineEndsAt, Head, IsCut, Take;
    NextLine(lines, k);
    JoinSnoc(done, cut);
    EndsOnlyHere(lines, k, limit);
    CutText(head, lines[k], Join(lines), limit);
    CutIsRight(Join(lines), lines, limit, head + cut, |head|);
  }

  lemma CutIsRight(whole: string, lines: seq<string>, limit: int, r: string, used: nat)
    requires r <= whole && |whole| > limit && |r| == if limit < used then used else limit
    requires used == 0 || used <= limit + 1
    requires LineEndsAt(lines, limit) <==> used > 0 && used == limit + 1
    ensures IsCut(whole, lines, limit, r)
  {
    hide LineEndsAt;
  }

  lemma EndsOnlyHere(lines: seq<string>, k: nat, limit: int)
    requires k < |lines|
    requires k > 0 ==> |Join(lines[..k])| <= limit
    requires |Join(lines[..k + 1])| > limit
    ensures LineEndsAt(lines, limit) <==> k > 0 && |Join(lines[..k])| == limit
  {
    if LineEndsAt(lines, limit) {
      var j :| 1 <= j < |lines| && |Join(lines[..j])| == limit;
      if j < k {
        assert lines[..k][..j] == lines[..j];
        JoinGrows(lines[..k], j);
      } else if j > k + 1 {
        assert lines[..j][..k + 1] == lines[..k + 1];
        JoinGrows(lines[..j], k + 1);
      }
    }
  }

  lemma LinesSnoc(upper: string -> string, messages: seq<Message>, k: nat)
    requires k < |messages|
    ensures Lines(upper, messages[..k + 1])
         == Lines(upper, messages[..k]) + if messages[k].content == "" then [] else [LineOf(upper, messages[k])]
  {
    assert messages[..k + 1][..k] == messages[..k];
  }

  lemma {:induction false} LinesGrow(upper: string -> string, messages: seq<Message>, k: nat)
    requires k <= |messages|
    ensures Lines(upper, messages[..k]) <= Lines(upper, messages)
    ensures forall l <- Lines(upper, messages) :: l != ""
  {
    hide LineOf;
    if k < |messages| {
      var n := |messages| - 1;
      LinesGrow(upper, messages[..n], k);
      LinesSnoc(upper, messages, n);
      assert messages[..n][..k] == messages[..k] && messages[..n + 1] == messages;
      hide Lines;
      var last := if messages[n].content == "" then [] else [LineOf(upper, messages[n])];
      ExtendedPrefix(Lines(upper, messages[..k]), Lines(upper, messages[..n]), last);
    } else {
      assert messages[..k] == messages;
      if messages != [] {
        LinesGrow(upper, messages[..k - 1], k - 1);
        LinesSnoc(upper, messages, k - 1);
        hide Lines;
      }
    }
  }

  lemma ExtendedPrefix(a: seq<string>, b: seq<string>, more: seq<string>)
    requires a <= b
    ensures a <= b + more
  {}

  lemma NoLines(upper: string -> string)
    ensures Lines(upper, []) == []
  {}

  method GatherTranscript(upper: string -> string, messages: seq<Message>, limit: int) returns (r: string)
    ensures IsCut(Join(Lines(upper, messages)), Lines(upper, messages), limit, r)
  {
    hide Join, Head, IsCut, LineOf, Lines;
    NoLines(upper);
    var parts: seq<string> := [];
    var used := 0;
    assert messages[..0] == [];
    for i := 0 to |messages|
      invariant parts == Lines(upper, messages[..i])
      invariant used == |Head(parts)|
      invariant parts != [] ==> |Join(parts)| <= limit
    {
      var m := messages[i];
      LinesSnoc(upper, messages, i);
      if m.content == "" {
        continue;
      }
      var line := LineOf(upper, m);
      JoinSnoc(parts, line);
      if used + |line| > limit {
        ghost var lines := Lines(upper, messages);
        LinesGrow(upper, messages, i + 1);
        assert lines[..|parts|] == parts && lines[|parts|] == line && lines[..|parts| + 1] == parts + [line];
        CutsHere(lines, |parts|, limit);
        line := Take(line, if limit - used < 0 then 0 else limit - used);
        parts := parts + [line];
        return Join(parts);
      }
      parts := parts + [line];
      used := used + |line| + 1;
    }
    assert messages[..|messages|] == messages;
    Fits(parts, limit);
    r := Join(parts);
  }

  lemma Fits(lines: seq<string>, limit: int)
    requires lines != [] ==> |Join(lines)| <= limit
    ensures IsCut(Join(lines), lines, limit, Join(lines))
  {}

  // What the limit promises: a prefix of the whole, never more than one character over.
  lemma CutMeans(lines: seq<string>, limit: nat, r: string)
    requires IsCut(Join(lines), lines, limit, r)
    ensures r <= Join(lines) && |r| <= limit + 1
    ensures |r| > limit ==> exists j :: 1 <= j < |lines| && r == Join(lines[..j]) + Newline()
  {
    hide Join, Newline;
    if |r| > limit {
      var j :| 1 <= j < |lines| && |Join(lines[..j])| == limit;
      hide LineEndsAt, IsCut;
      NewlineFollows(lines, j);
      SamePrefix(r, Join(lines[..j]) + Newline(), Join(lines));
    }
  }

  lemma NewlineFollows(lines: seq<string>, j: nat)
    requires 1 <= j < |lines|
    ensures Join(lines[..j]) + Newline() <= Join(lines)
  {
    assert Head(lines[..j]) == Join(lines[..j]) + Newline();
    hide Join, Newline, Head;
    NextLine(lines, j);
    ShorterPrefix(Head(lines[..j]), lines[j], Join(lines));
  }

  lemma ShorterPrefix(a: string, b: string, whole: string)
    requires a + b <= whole
    ensures a <= whole
  {
    assert a <= a + b;
  }

  lemma SamePrefix(a: string, b: string, whole: string)
    requires a <= whole && b <= whole && |a| == |b|
    ensures a == b
  {}

  // It does go over: for any two messages with content, at the length of the first line.
  lemma LimitIsExceeded(upper: string -> string, first: Message, second: Message, r: string)
    requires first.content != "" && second.content != ""
    requires
      var lines := Lines(upper, [first, second]);
      IsCut(Join(lines), lines, |LineOf(upper, first)|, r)
    ensures |r| == |LineOf(upper, first)| + 1
  {
    var messages := [first, second];
    var a, b := LineOf(upper, first), LineOf(upper, second);
    LinesSnoc(upper, messages, 0);
    LinesSnoc(upper, messages, 1);
    assert messages[..0] == [] && messages[..2] == messages;
    assert [] + [a] == [a] && [a] + [b] == [a, b];
    assert Lines(upper, messages) == [a, b];
    hide Lines, LineOf;
    JoinSnoc([a], b);
    assert [a, b][..1] == [a] && Join([a]) == a;
    assert LineEndsAt([a, b], |a|);
  }

  // The whole transcript, message by message: the role in capitals, a colon, a blank and the stripped
  // content, each such line on a line of its own; messages without content are passed over.
  lemma MessageByMessage(upper: string -> string, before: seq<Message>, m: Message)
    ensures Join(Lines(upper, [])) == ""
    ensures
      var text := Join(Lines(upper, before));
      var line := upper(m.role) + ": " + Strip(m.content);
      Join(Lines(upper, before + [m]))
        == if m.content == "" then text
           else if forall earlier <- before :: earlier.content == "" then line
           else text + "\n" + line
  {
    LineAdded(upper, before, m);
    NoLineYet(upper, before);
    LineText(upper, m);
    NewlineText();
    NoLines(upper);
    JoinSnoc(Lines(upper, before), LineOf(upper, m));
    hide Lines, LineOf, Strip, Join, Newline;
    assert "" + LineOf(upper, m) == LineOf(upper, m);
  }

  lemma LineAdded(upper: string -> string, before: seq<Message>, m: Message)
    ensures Lines(upper, before + [m])
         == if m.content == "" then Lines(upper, before) else Lines(upper, before) + [LineOf(upper, m)]
  {
    hide LineOf;
    assert (before + [m])[..|before|] == before;
  }

  lemma LineText(upper: string -> string, m: Message)
    ensures LineOf(upper, m) == upper(m.role) + ": " + Strip(m.content)
  {}

  lemma NewlineText()
    ensures Newline() == "\n" && Join([]) == ""
  {}

  lemma {:induction false} NoLineYet(upper: string -> string, messages: seq<Message>)
    ensures Lines(upper, messages) == [] <==> forall m <- messages :: m.content == ""
  {
    if messages != [] {
      var before, last := messages[..|messages| - 1], messages[|messages| - 1];
      NoLineYet(upper, before);
      assert messages == before + [last];
    }
  }
}
