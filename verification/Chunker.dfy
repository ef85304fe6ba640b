// The token-window chunker (knowledge_svc/chunker.py): paragraphs are packed greedily into windows
// that carry an overlap, and windows that are still too long are split with a stride.
//
// The tokenizer's encode and decode are arbitrary functions.
module Chunker {
  import opened Common

  datatype Tokenizer = Tokenizer(encode: string -> seq<nat>, decode: seq<nat> -> string)

  datatype Meta = Meta(base: map<string, string>, page: Option<nat>)

  datatype Chunk = Chunk(ord: nat, text: string, tokenCount: nat, meta: Option<Meta>)

  datatype Refusal = ChunkSizeNotPositive | OverlapOutOfRange

  datatype Result = Chunks(chunks: seq<Chunk>) | ValueError(reason: Refusal)

  // ----- Paragraphs -----

  // text.split("\n\n"), with `open` the part being read.
  function SplitBlank(text: string, open: string): seq<string> {
    if text == "" then [open]
    else if |text| >= 2 && text[0] == '\n' && text[1] == '\n' then [open] + SplitBlank(text[2..], "")
    else SplitBlank(text[1..], open + text[..1])
  }

  function NonBlank(parts: seq<string>): seq<string> {
    if parts == [] then []
    else
      var p := Strip(parts[0]);
      (if p != "" then [p] else []) + NonBlank(parts[1..])
  }

  function Paragraphs(text: string): seq<string> {
    var found := NonBlank(SplitBlank(text, ""));
    if found != [] then found else [Strip(text)]
  }

  function Encoded(tok: Tokenizer, paragraphs: seq<string>): seq<seq<nat>> {
    seq(|paragraphs|, i requires 0 <= i < |paragraphs| => tok.encode(paragraphs[i] + "\n\n"))
  }

  // The characters of a text that are not white space.
  function Visible(s: string): string {
    if s == "" then "" else Shown(s[0]) + Visible(s[1..])
  }

  function Shown(c: char): string {
    if IsSpace(c) then "" else [c]
  }

  function VisibleAll(parts: seq<string>): string {
    if parts == [] then "" else Visible(parts[0]) + VisibleAll(parts[1..])
  }

  lemma VisibleFirst(s: string)
    requires s != ""
    ensures Visible(s) == Shown(s[0]) + Visible(s[1..])
  {
  }

  lemma FirstOfAppend(a: string, b: string)
    requires a != ""
    ensures a + b != "" && (a + b)[0] == a[0] && (a + b)[1..] == a[1..] + b
  {
  }

  lemma AppendAgain(a: string, b: string, c: string)
    ensures a + b + c == a + (b + c)
  {
  }

  lemma NothingVisible(s: string)
    ensures "" + s == s && Visible("") + Visible(s) == Visible(s)
  {
  }

  lemma {:induction false} VisibleAppend(a: string, b: string)
    ensures Visible(a + b) == Visible(a) + Visible(b)
  {
    hide Shown, Visible;
    if a == "" {
      NothingVisible(b);
    } else {
      VisibleAppend(a[1..], b);
      VisibleFirst(a);
      VisibleFirst(a + b);
      FirstOfAppend(a, b);
      AppendAgain(Shown(a[0]), Visible(a[1..]), Visible(b));
    }
  }

  lemma {:induction false} LStripKeepsVisible(s: string)
    ensures Visible(LStrip(s)) == Visible(s)
  {
    if s != "" && IsSpace(s[0]) {
      LStripKeepsVisible(s[1..]);
    }
  }

  lemma {:induction false} RStripKeepsVisible(s: string)
    ensures Visible(RStrip(s)) == Visible(s)
  {
    if s != "" && IsSpace(s[|s| - 1]) {
      RStripKeepsVisible(s[..|s| - 1]);
      VisibleAppend(s[..|s| - 1], s[|s| - 1..]);
      assert s == s[..|s| - 1] + s[|s| - 1..];
    }
  }

  lemma StripKeepsVisible(s: string)
    ensures Visible(Strip(s)) == Visible(s)
    ensures Strip(s) != "" ==> Visible(s) != ""
  {
    var left := LStrip(s);
    LStripKeepsVisible(s);
    RStripKeepsVisible(left);
    assert Strip(s) == RStrip(left) && Strip(s) <= left;
    if Strip(s) != "" {
      assert left[0] == Strip(s)[0] && !IsSpace(left[0]);
      VisibleStart(left);
    }
    hide Visible, Strip, LStrip, RStrip, IsSpace;
  }

  lemma VisibleStart(s: string)
    requires s != "" && !IsSpace(s[0])
    ensures Visible(s) != ""
  {
  }

  lemma VisibleCons(first: string, rest: seq<string>)
    ensures VisibleAll([first] + rest) == Visible(first) + VisibleAll(rest)
  {
    assert ([first] + rest)[1..] == rest;
  }

  lemma {:induction false} SplitKeepsVisible(text: string, open: string)
    ensures VisibleAll(SplitBlank(text, open)) == Visible(open) + Visible(text)
    decreases |text|
  {
    if text == "" {
      VisibleCons(open, []);
    } else if |text| >= 2 && text[0] == '\n' && text[1] == '\n' {
      SplitKeepsVisible(text[2..], "");
      assert SplitBlank(text, open) == [open] + SplitBlank(text[2..], "");
      hide SplitBlank;
      VisibleCons(open, SplitBlank(text[2..], ""));
      BlankLineIsInvisible(text);
      assert Visible("") == "";
    } else {
      SplitKeepsVisible(text[1..], open + text[..1]);
      OneMore(open, text);
    }
  }

  lemma BlankLineIsInvisible(text: string)
    requires |text| >= 2 && text[0] == '\n' && text[1] == '\n'
    ensures Visible(text) == Visible(text[2..])
  {
    assert text[1..][1..] == text[2..];
  }

  lemma OneMore(open: string, text: string)
    requires text != ""
    ensures Visible(open + text[..1]) + Visible(text[1..]) == Visible(open) + Visible(text)
  {
    hide Visible;
    VisibleAppend(open, text[..1]);
    VisibleAppend(text[..1], text[1..]);
    assert text == text[..1] + text[1..];
  }

  lemma {:induction false} NonBlankKeepsVisible(parts: seq<string>)
    ensures VisibleAll(NonBlank(parts)) == VisibleAll(parts)
  {
    if parts != [] {
      var p, rest := Strip(parts[0]), NonBlank(parts[1..]);
      NonBlankKeepsVisible(parts[1..]);
      StripKeepsVisible(parts[0]);
      assert VisibleAll(parts) == Visible(p) + VisibleAll(parts[1..]);
      hide Strip, VisibleAll;
      if p != "" {
        VisibleCons(p, rest);
      } else {
        assert NonBlank(parts) == rest;
      }
    }
  }

  // Splitting into paragraphs drops white space only, and the fallback to the whole stripped text
  // is never needed.
  lemma ParagraphsKeepText(text: string)
    requires Strip(text) != ""
    ensures VisibleAll(Paragraphs(text)) == Visible(text)
    ensures Paragraphs(text) == NonBlank(SplitBlank(text, ""))
  {
    SplitKeepsVisible(text, "");
    NonBlankKeepsVisible(SplitBlank(text, ""));
    StripKeepsVisible(text);
  }

  // Two newlines in a row.
  predicate HasBlankLine(s: string) {
    exists i :: 0 <= i < |s| - 1 && s[i] == '\n' && s[i + 1] == '\n'
  }

  // "\n\n".join(parts)
  function Glued(parts: seq<string>): string {
    if parts == [] then ""
    else if |parts| == 1 then parts[0]
    else parts[0] + "\n\n" + Glued(parts[1..])
  }

  predicate CutAtFirstBlankLines(parts: seq<string>) {
    && (forall k :: 0 <= k < |parts| - 1 ==> !HasBlankLine(parts[k] + "\n"))
    && (parts != [] ==> !HasBlankLine(parts[|parts| - 1]))
  }

  lemma PartBefore(first: string, rest: seq<string>)
    requires rest != [] && CutAtFirstBlankLines(rest) && !HasBlankLine(first + "\n")
    ensures CutAtFirstBlankLines([first] + rest) && Glued([first] + rest) == first + "\n\n" + Glued(rest)
  {
    var parts := [first] + rest;
    assert parts[1..] == rest;
    forall k | 0 <= k < |parts| - 1 ensures !HasBlankLine(parts[k] + "\n") {
      assert k > 0 ==> parts[k] == rest[k - 1];
    }
  }

  // The text is cut at its first blank line, then at the first of what is left, and so on: the parts
  // glued together again are the text, and no part holds a blank line or runs into the one after it.
  lemma {:induction false} SplitsAtBlankLines(text: string, open: string)
    requires !HasBlankLine(open)
    requires open != "" && open[|open| - 1] == '\n' && text != "" ==> text[0] != '\n'
    ensures Glued(SplitBlank(text, open)) == open + text
    ensures CutAtFirstBlankLines(SplitBlank(text, open)) && SplitBlank(text, open) != []
    decreases |text|
  {
    if text == "" {
      assert open + text == open;
    } else if |text| >= 2 && text[0] == '\n' && text[1] == '\n' {
      SplitsAtBlankLines(text[2..], "");
      PartBefore(open, SplitBlank(text[2..], ""));
      assert open + text == open + "\n\n" + ("" + text[2..]);
    } else {
      var more := open + text[..1];
      assert forall i :: 0 <= i < |more| - 1 ==> more[i] == open[i];
      SplitsAtBlankLines(text[1..], more);
      assert more + text[1..] == open + text;
    }
  }

  // Blank parts are dropped, the others stripped, in order; and what is encoded of each ends in a
  // blank line.
  lemma {:induction false} PartsOneByOne(tok: Tokenizer, parts: seq<string>, part: string)
    ensures NonBlank(parts + [part]) == NonBlank(parts) + if Strip(part) == "" then [] else [Strip(part)]
    ensures Encoded(tok, parts + [part]) == Encoded(tok, parts) + [tok.encode(part + "\n\n")]
    ensures NonBlank([]) == []
  {
    hide Strip;
    if parts == [] {
      assert [part][1..] == [];
    } else {
      PartsOneByOne(tok, parts[1..], part);
      assert (parts + [part])[1..] == parts[1..] + [part];
    }
  }

  // ----- Packing -----

  // The tokens carried from a full window into the next one.
  function Carry(window: seq<nat>, overlap: nat): (r: seq<nat>)
    ensures |r| <= overlap
  {
    if overlap > 0 && |window| > overlap then window[|window| - overlap..] else []
  }

  // The windows still to come, with `current` the one being filled.
  function Pack(paras: seq<seq<nat>>, current: seq<nat>, size: nat, overlap: nat): seq<seq<nat>> {
    if paras == [] then
      if current != [] then [current] else []
    else if current == [] then
      Pack(paras[1..], paras[0], size, overlap)
    else if |current| + |paras[0]| <= size then
      Pack(paras[1..], current + paras[0], size, overlap)
    else
      [current] + Pack(paras[1..], Carry(current, overlap) + paras[0], size, overlap)
  }

  method PackWindows(paras: seq<seq<nat>>, size: nat, overlap: nat) returns (windows: seq<seq<nat>>)
    ensures windows == Pack(paras, [], size, overlap)
  {
    windows := [];
    var current: seq<nat> := [];
    for i := 0 to |paras|
      invariant windows + Pack(paras[i..], current, size, overlap) == Pack(paras, [], size, overlap)
    {
      var toks := paras[i];
      assert paras[i..][0] == toks && paras[i..][1..] == paras[i + 1..];
      if current == [] {
        current := toks;
        continue;
      }
      if |current| + |toks| <= size {
        current := current + toks;
      } else {
        ghost var rest := Pack(paras[i + 1..], Carry(current, overlap) + toks, size, overlap);
        assert windows + ([current] + rest) == windows + [current] + rest;
        windows := windows + [current];
        if overlap != 0 && |current| > overlap {
          var tail := current[|current| - overlap..];
          current := tail + toks;
        } else {
          assert Carry(current, overlap) + toks == toks;
          current := toks;
        }
      }
    }
    assert paras[|paras|..] == [];
    if current != [] {
      windows := windows + [current];
    }
  }

  // What the windows add: each one without the tokens carried from the window before it.
  function Fresh(windows: seq<seq<nat>>, before: seq<nat>, overlap: nat): seq<nat> {
    if windows == [] then []
    else
      (if |Carry(before, overlap)| <= |windows[0]| then windows[0][|Carry(before, overlap)|..] else [])
      + Fresh(windows[1..], windows[0], overlap)
  }

  function Flatten(paras: seq<seq<nat>>): seq<nat> {
    if paras == [] then [] else paras[0] + Flatten(paras[1..])
  }

  // A window of these paragraphs, one after the other, behind what the window before carried over. It
  // is longer than `size` only when just the last of them adds anything.
  predicate Fills(window: seq<nat>, carried: seq<nat>, paras: seq<seq<nat>>, size: nat) {
    && window != [] && paras != [] && window == carried + Flatten(paras)
    && (|window| > size ==> Flatten(paras[..|paras| - 1]) == [])
  }

  // Window after window takes the next paragraphs, in order and without a gap, and is left only because
  // the paragraph right after them does not fit.
  ghost predicate Greedy(windows: seq<seq<nat>>, before: seq<nat>, paras: seq<seq<nat>>, size: nat, overlap: nat) {
    if windows == [] then Flatten(paras) == []
    else
      exists k: nat ::
        && 1 <= k <= |paras| && Fills(windows[0], Carry(before, overlap), paras[..k], size)
        && (k < |paras| ==> |windows[0]| + |paras[k]| > size)
        && Greedy(windows[1..], windows[0], paras[k..], size, overlap)
  }

  lemma {:induction false} FlattenSnoc(paras: seq<seq<nat>>, last: seq<nat>)
    ensures Flatten(paras + [last]) == Flatten(paras) + last
  {
    if paras == [] {
      assert [last][1..] == [] && last + [] == [] + last;
    } else {
      FlattenSnoc(paras[1..], last);
      assert (paras + [last])[1..] == paras[1..] + [last];
    }
  }

  // Nothing is lost and nothing is repeated but the carried tokens.
  lemma {:induction false} PackIsLossless(paras: seq<seq<nat>>, current: seq<nat>, before: seq<nat>, size: nat,
                                          overlap: nat)
    requires Carry(before, overlap) <= current
    ensures Fresh(Pack(paras, current, size, overlap), before, overlap)
         == current[|Carry(before, overlap)|..] + Flatten(paras)
  {
    var k := |Carry(before, overlap)|;
    if paras == [] {
      assert current != [] ==> [current][1..] == [];
    } else if current == [] {
      PackIsLossless(paras[1..], paras[0], before, size, overlap);
    } else if |current| + |paras[0]| <= size {
      PackIsLossless(paras[1..], current + paras[0], before, size, overlap);
      assert (current + paras[0])[k..] == current[k..] + paras[0];
    } else {
      var next := Carry(current, overlap) + paras[0];
      PackIsLossless(paras[1..], next, current, size, overlap);
      assert next[|Carry(current, overlap)|..] == paras[0];
      var rest := Pack(paras[1..], next, size, overlap);
      assert ([current] + rest)[1..] == rest;
    }
  }

  // `done` are the paragraphs in `current` already.
  predicate Filling(done: seq<seq<nat>>, current: seq<nat>, before: seq<nat>, size: nat, overlap: nat) {
    && current == Carry(before, overlap) + Flatten(done)
    && (done == [] ==> current == [])
    && (|current| > size ==> done != [] && Flatten(done[..|done| - 1]) == [])
  }

  lemma FillingSnoc(done: seq<seq<nat>>, current: seq<nat>, para: seq<nat>, before: seq<nat>, size: nat, overlap: nat)
    requires Filling(done, current, before, size, overlap)
    requires current == [] || |current| + |para| <= size
    ensures Filling(done + [para], current + para, before, size, overlap)
  {
    FlattenSnoc(done, para);
    hide Flatten, Carry;
    assert (done + [para])[..|done|] == done;
    assert Carry(before, overlap) + (Flatten(done) + para) == Carry(before, overlap) + Flatten(done) + para;
  }

  lemma FillingAnew(window: seq<nat>, para: seq<nat>, size: nat, overlap: nat)
    ensures Filling([para], Carry(window, overlap) + para, window, size, overlap)
  {
    assert [para][1..] == [] && [para][..0] == [] && para + [] == para;
  }

  lemma PackNext(paras: seq<seq<nat>>, current: seq<nat>, size: nat, overlap: nat)
    requires paras != []
    ensures
      var para, rest := paras[0], paras[1..];
      Pack(paras, current, size, overlap)
      == if current == [] || |current| + |para| <= size then Pack(rest, current + para, size, overlap)
         else [current] + Pack(rest, Carry(current, overlap) + para, size, overlap)
  {
    hide Carry;
    assert current == [] ==> current + paras[0] == paras[0];
  }

  lemma MoveOne(done: seq<seq<nat>>, paras: seq<seq<nat>>)
    requires paras != []
    ensures done + [paras[0]] + paras[1..] == done + paras && [paras[0]] + paras[1..] == paras
  {
  }

  lemma {:induction false} PackIsGreedy(done: seq<seq<nat>>, paras: seq<seq<nat>>, current: seq<nat>, before: seq<nat>,
                                        size: nat, overlap: nat)
    requires Filling(done, current, before, size, overlap)
    ensures Greedy(Pack(paras, current, size, overlap), before, done + paras, size, overlap)
    decreases |paras|
  {
    if paras == [] {
      assert done + paras == done;
      hide Greedy, Filling;
      LastWindow(done, current, before, size, overlap);
    } else {
      var para, rest := paras[0], paras[1..];
      PackNext(paras, current, size, overlap);
      MoveOne(done, paras);
      hide Greedy, Filling, Pack, Carry;
      if current == [] || |current| + |para| <= size {
        FillingSnoc(done, current, para, before, size, overlap);
        PackIsGreedy(done + [para], rest, current + para, before, size, overlap);
      } else {
        var next := Carry(current, overlap) + para;
        FillingAnew(current, para, size, overlap);
        PackIsGreedy([para], rest, next, current, size, overlap);
        WindowClosed(done, paras, current, before, Pack(rest, next, size, overlap), size, overlap);
      }
    }
  }

  lemma LastWindow(done: seq<seq<nat>>, current: seq<nat>, before: seq<nat>, size: nat, overlap: nat)
    requires Filling(done, current, before, size, overlap)
    ensures Greedy(if current != [] then [current] else [], before, done, size, overlap)
  {
    if current != [] {
      assert done[..|done|] == done && done[|done|..] == [] && [current][1..] == [];
      assert Fills(current, Carry(before, overlap), done[..|done|], size);
    }
  }

  lemma WindowClosed(done: seq<seq<nat>>, paras: seq<seq<nat>>, current: seq<nat>, before: seq<nat>,
                     rest: seq<seq<nat>>, size: nat, overlap: nat)
    requires Filling(done, current, before, size, overlap) && current != []
    requires paras != [] && |current| + |paras[0]| > size
    requires Greedy(rest, current, paras, size, overlap)
    ensures Greedy([current] + rest, before, done + paras, size, overlap)
  {
    var all, windows := done + paras, [current] + rest;
    assert all[..|done|] == done && all[|done|..] == paras && all[|done|] == paras[0];
    assert windows[0] == current && windows[1..] == rest;
    assert Fills(windows[0], Carry(before, overlap), all[..|done|], size);
  }

  lemma GreedyHead(windows: seq<seq<nat>>, before: seq<nat>, paras: seq<seq<nat>>, size: nat, overlap: nat)
      returns (k: nat)
    requires Greedy(windows, before, paras, size, overlap) && windows != []
    ensures k <= |paras| && windows[0] == Carry(before, overlap) + Flatten(paras[0..k])
    ensures Greedy(windows[1..], windows[0], paras[k..], size, overlap)
  {
    hide Carry, Flatten;
    k :|
      && 1 <= k <= |paras| && Fills(windows[0], Carry(before, overlap), paras[..k], size)
      && Greedy(windows[1..], windows[0], paras[k..], size, overlap);
    assert paras[0..k] == paras[..k];
  }

  lemma SliceOfRest(paras: seq<seq<nat>>, k: nat, lo: nat, hi: nat)
    requires k <= |paras| && lo <= hi <= |paras| - k
    ensures paras[k..][lo..hi] == paras[lo + k..hi + k]
  {
  }

  // Window i is what the window before it carried over, and then some of the paragraphs.
  lemma {:induction false} GreedyAt(windows: seq<seq<nat>>, before: seq<nat>, paras: seq<seq<nat>>, size: nat,
                                    overlap: nat, i: nat)
      returns (lo: nat, hi: nat)
    requires Greedy(windows, before, paras, size, overlap) && i < |windows|
    ensures lo <= hi <= |paras|
    ensures windows[i] == Carry(if i == 0 then before else windows[i - 1], overlap) + Flatten(paras[lo..hi])
  {
    hide Carry, Flatten, Greedy;
    var k := GreedyHead(windows, before, paras, size, overlap);
    if i == 0 {
      lo, hi := 0, k;
    } else {
      lo, hi := GreedyAt(windows[1..], windows[0], paras[k..], size, overlap, i - 1);
      SliceOfRest(paras, k, lo, hi);
      lo, hi := lo + k, hi + k;
    }
  }

  // A window opens with the last `overlap` tokens of the one before, if that one is longer; otherwise
  // it is whole paragraphs only.
  ghost predicate OpensWithOverlap(a: seq<nat>, b: seq<nat>, paras: seq<seq<nat>>, overlap: nat) {
    if 0 < overlap < |a| then |b| >= overlap && b[..overlap] == a[|a| - overlap..]
    else exists lo, hi :: 0 <= lo <= hi <= |paras| && b == Flatten(paras[lo..hi])
  }

  lemma WindowsOverlap(windows: seq<seq<nat>>, paras: seq<seq<nat>>, size: nat, overlap: nat, i: nat)
    requires Greedy(windows, [], paras, size, overlap) && i + 1 < |windows|
    ensures OpensWithOverlap(windows[i], windows[i + 1], paras, overlap)
  {
    hide Greedy, Flatten, Carry;
    var lo, hi := GreedyAt(windows, [], paras, size, overlap, i + 1);
    CarriedOpens(windows[i], windows[i + 1], Flatten(paras[lo..hi]), overlap);
  }

  lemma CarriedOpens(a: seq<nat>, b: seq<nat>, more: seq<nat>, overlap: nat)
    requires b == Carry(a, overlap) + more
    ensures if 0 < overlap < |a| then |b| >= overlap && b[..overlap] == a[|a| - overlap..] else b == more
  {
    assert [] + more == more;
  }

  // ----- Hard split -----

  function Min(a: nat, b: nat): nat { if a <= b then a else b }

  function Stride(size: nat, overlap: nat): (s: nat)
    ensures s >= 1
  {
    if size > overlap then size - overlap else 1
  }

  // The pieces of `w` from position i on.
  function Pieces(w: seq<nat>, i: nat, size: nat, overlap: nat): seq<seq<nat>>
    decreases |w| - i
  {
    if i >= |w| then []
    else [w[i..Min(i + size, |w|)]] + Pieces(w, i + Stride(size, overlap), size, overlap)
  }

  function SplitWindow(w: seq<nat>, size: nat, overlap: nat): seq<seq<nat>> {
    if |w| <= size then [w] else Pieces(w, 0, size, overlap)
  }

  function Groups(windows: seq<seq<nat>>, size: nat, overlap: nat): seq<seq<seq<nat>>> {
    seq(|windows|, i requires 0 <= i < |windows| => SplitWindow(windows[i], size, overlap))
  }

  method HardSplit(windows: seq<seq<nat>>, size: nat, overlap: nat) returns (final: seq<seq<nat>>)
    ensures final == Concat(Groups(windows, size, overlap))
  {
    final := [];
    for k := 0 to |windows|
      invariant final == Concat(Groups(windows[..k], size, overlap))
    {
      var w := windows[k];
      ghost var done := final;
      assert Groups(windows[..k + 1], size, overlap)
        == Groups(windows[..k], size, overlap) + [SplitWindow(w, size, overlap)];
      ConcatSnoc(Groups(windows[..k], size, overlap), SplitWindow(w, size, overlap));
      if |w| <= size {
        final := final + [w];
        continue;
      }
      var i := 0;
      while i < |w|
        invariant final + Pieces(w, i, size, overlap) == done + Pieces(w, 0, size, overlap)
        decreases |w| - i
      {
        ghost var rest := Pieces(w, i + Stride(size, overlap), size, overlap);
        var piece := w[i..Min(i + size, |w|)];
        assert final + ([piece] + rest) == final + [piece] + rest;
        final := final + [piece];
        i := i + Stride(size, overlap);
      }
    }
    assert windows[..|windows|] == windows;
  }

  // Putting the pieces of a window together again: the first piece, then every later piece without
  // its first `overlap` tokens, or without anything if it has no more than those.
  function Later(pieces: seq<seq<nat>>, overlap: nat): seq<nat> {
    if pieces == [] then [] else pieces[0][Min(overlap, |pieces[0]|)..] + Later(pieces[1..], overlap)
  }

  function Rejoin(pieces: seq<seq<nat>>, overlap: nat): seq<nat> {
    if pieces == [] then [] else pieces[0] + Later(pieces[1..], overlap)
  }

  lemma {:induction false} LaterPieces(w: seq<nat>, i: nat, size: nat, overlap: nat)
    requires overlap < size
    ensures Later(Pieces(w, i, size, overlap), overlap) == w[Min(i + overlap, |w|)..]
    decreases |w| - i
  {
    if i < |w| {
      var next := i + size - overlap;
      var piece, rest := w[i..Min(i + size, |w|)], Pieces(w, next, size, overlap);
      var from, to := Min(i + overlap, |w|), Min(i + size, |w|);
      assert Pieces(w, i, size, overlap) == [piece] + rest;
      assert i + Min(overlap, |piece|) == from && Min(next + overlap, |w|) == to;
      hide Pieces, Later, Min;
      LaterPieces(w, next, size, overlap);
      LaterCons(piece, rest, overlap);
      SliceAgain(w, i, to, Min(overlap, |piece|));
      JoinSlices(w, from, to);
    }
  }

  lemma SliceAgain(w: seq<nat>, i: nat, j: nat, k: nat)
    requires i + k <= j <= |w|
    ensures w[i..j][k..] == w[i + k..j]
  {
  }

  lemma JoinSlices(w: seq<nat>, i: nat, j: nat)
    requires i <= j <= |w|
    ensures w[i..j] + w[j..] == w[i..]
  {
  }

  lemma LaterCons(piece: seq<nat>, rest: seq<seq<nat>>, overlap: nat)
    ensures Later([piece] + rest, overlap) == piece[Min(overlap, |piece|)..] + Later(rest, overlap)
  {
    assert ([piece] + rest)[1..] == rest;
  }

  lemma SplitRejoins(w: seq<nat>, size: nat, overlap: nat)
    requires overlap < size
    ensures Rejoin(SplitWindow(w, size, overlap), overlap) == w
  {
    if |w| > size {
      var rest := Pieces(w, size - overlap, size, overlap);
      LaterPieces(w, size - overlap, size, overlap);
      assert Pieces(w, 0, size, overlap) == [w[..size]] + rest;
      hide Pieces, Later, Rejoin;
      RejoinCons(w[..size], rest, overlap);
      assert w == w[..size] + w[size..];
    } else {
      RejoinCons(w, [], overlap);
    }
  }

  lemma RejoinCons(first: seq<nat>, rest: seq<seq<nat>>, overlap: nat)
    ensures Rejoin([first] + rest, overlap) == first + Later(rest, overlap)
  {
    assert ([first] + rest)[1..] == rest;
  }

  // Where piece j starts, j strides in.
  function StartOf(i: nat, stride: nat, j: nat): nat
    decreases j
  {
    if j == 0 then i else StartOf(i + stride, stride, j - 1)
  }

  lemma {:induction false} StartMeans(i: nat, stride: nat, j: nat)
    ensures StartOf(i, stride, j) == i + j * stride
    decreases j
  {
    if j > 0 {
      StartMeans(i + stride, stride, j - 1);
      assert j * stride == (j - 1) * stride + stride;
    }
  }

  // Piece j is as long as fits.
  lemma {:induction false} PieceAt(w: seq<nat>, i: nat, size: nat, overlap: nat, j: nat)
    requires overlap < size && j < |Pieces(w, i, size, overlap)|
    ensures
      var start := StartOf(i, size - overlap, j);
      start < |w| && Pieces(w, i, size, overlap)[j] == w[start..Min(start + size, |w|)]
    decreases j
  {
    var next := i + (size - overlap);
    assert Pieces(w, i, size, overlap) == [w[i..Min(i + size, |w|)]] + Pieces(w, next, size, overlap);
    hide Pieces, Min;
    if j > 0 {
      PieceAt(w, next, size, overlap, j - 1);
    }
  }

  // A window that fits is one piece, itself; a longer one is cut from its start.
  lemma WindowPieces(w: seq<nat>, size: nat, overlap: nat)
    ensures SplitWindow(w, size, overlap) == if |w| <= size then [w] else Pieces(w, 0, size, overlap)
  {
  }

  // A window of n tokens from position i on gives k pieces with (k-1)*stride < n - i <= k*stride.
  lemma {:induction false} PieceCount(w: seq<nat>, i: nat, size: nat, overlap: nat)
    requires overlap < size && i <= |w|
    ensures var k := |Pieces(w, i, size, overlap)|;
      (k - 1) * (size - overlap) < |w| - i <= k * (size - overlap)
    decreases |w| - i
  {
    var s := size - overlap;
    if i < |w| {
      var rest := Pieces(w, i + s, size, overlap);
      if i + s <= |w| {
        PieceCount(w, i + s, size, overlap);
      } else {
        assert rest == [];
      }
      assert |Pieces(w, i, size, overlap)| == |rest| + 1;
      assert (|rest| + 1) * s == |rest| * s + s && (|rest| - 1) * s == |rest| * s - s;
    }
  }

  lemma PieceSizes(w: seq<nat>, i: nat, size: nat, overlap: nat)
    requires overlap < size
    ensures forall p <- Pieces(w, i, size, overlap) :: 1 <= |p| <= size
  {
    var pieces := Pieces(w, i, size, overlap);
    hide Pieces, StartOf;
    forall j | 0 <= j < |pieces| ensures 1 <= |pieces[j]| <= size {
      PieceAt(w, i, size, overlap, j);
    }
  }

  // An oversized window gives exactly ceil(n / (chunk_size - overlap)) pieces.
  lemma PieceCountIsCeiling(w: seq<nat>, size: nat, overlap: nat)
    requires overlap < size < |w|
    ensures |SplitWindow(w, size, overlap)| == (|w| + size - overlap - 1) / (size - overlap)
  {
    PieceCount(w, 0, size, overlap);
    var k, s, x := |SplitWindow(w, size, overlap)|, size - overlap, |w| + size - overlap - 1;
    assert k * s == (k - 1) * s + s;
    Quotient(x, s, k, x - k * s);
  }

  lemma Quotient(x: int, s: int, k: int, r: int)
    requires s > 0 && x == k * s + r && 0 <= r < s
    ensures x / s == k
  {
    if x / s > k {
      TimesMonotone(k + 1, x / s, s);
    } else if x / s < k {
      TimesMonotone(x / s + 1, k, s);
    }
  }

  lemma {:induction false} TimesMonotone(a: int, b: int, s: int)
    requires a <= b && s > 0
    ensures a * s <= b * s
    decreases b - a
  {
    if a < b {
      TimesMonotone(a, b - 1, s);
      assert b * s == (b - 1) * s + s;
    }
  }

  // ----- End to end -----

  // The token windows of a text, before and after the hard split.
  function Windows(tok: Tokenizer, text: string, size: nat, overlap: nat): seq<seq<nat>> {
    Pack(Encoded(tok, Paragraphs(text)), [], size, overlap)
  }

  function Final(tok: Tokenizer, text: string, size: nat, overlap: nat): seq<seq<nat>> {
    Concat(Groups(Windows(tok, text, size, overlap), size, overlap))
  }

  function RejoinAll(groups: seq<seq<seq<nat>>>, overlap: nat): seq<seq<nat>> {
    seq(|groups|, i requires 0 <= i < |groups| => Rejoin(groups[i], overlap))
  }

  // The final pieces, cut into the groups that came from one window each, give back every token of
  // every paragraph: rejoin each group, then drop what each window carried over.
  lemma ChunkingIsLossless(tok: Tokenizer, text: string, size: nat, overlap: nat)
    requires overlap < size
    ensures
      var groups := Groups(Windows(tok, text, size, overlap), size, overlap);
      && Final(tok, text, size, overlap) == Concat(groups)
      && Fresh(RejoinAll(groups, overlap), [], overlap) == Flatten(Encoded(tok, Paragraphs(text)))
    ensures Greedy(Windows(tok, text, size, overlap), [], Encoded(tok, Paragraphs(text)), size, overlap)
    ensures
      var windows := Windows(tok, text, size, overlap);
      forall i :: 0 <= i < |windows| - 1 ==>
        OpensWithOverlap(windows[i], windows[i + 1], Encoded(tok, Paragraphs(text)), overlap)
  {
    var windows := Windows(tok, text, size, overlap);
    assert Final(tok, text, size, overlap) == Concat(Groups(windows, size, overlap));
    assert windows == Pack(Encoded(tok, Paragraphs(text)), [], size, overlap);
    hide *;
    GroupsRejoin(windows, size, overlap);
    PacksFromNothing(Encoded(tok, Paragraphs(text)), size, overlap);
    forall i | 0 <= i < |windows| - 1
      ensures OpensWithOverlap(windows[i], windows[i + 1], Encoded(tok, Paragraphs(text)), overlap)
    {
      WindowsOverlap(windows, Encoded(tok, Paragraphs(text)), size, overlap, i);
    }
  }

  lemma PacksFromNothing(paras: seq<seq<nat>>, size: nat, overlap: nat)
    ensures Fresh(Pack(paras, [], size, overlap), [], overlap) == Flatten(paras)
    ensures Greedy(Pack(paras, [], size, overlap), [], paras, size, overlap)
  {
    var none: seq<nat> := [];
    assert Carry(none, overlap) == none && none[|none|..] + Flatten(paras) == Flatten(paras);
    assert Filling([], none, none, size, overlap) && [] + paras == paras;
    hide Pack, Greedy, Fresh, Flatten, Carry, Filling;
    PackIsLossless(paras, none, none, size, overlap);
    PackIsGreedy([], paras, none, none, size, overlap);
  }

  lemma GroupsRejoin(windows: seq<seq<nat>>, size: nat, overlap: nat)
    requires overlap < size
    ensures RejoinAll(Groups(windows, size, overlap), overlap) == windows
  {
    hide Rejoin, SplitWindow;
    forall i | 0 <= i < |windows| ensures Rejoin(SplitWindow(windows[i], size, overlap), overlap) == windows[i] {
      SplitRejoins(windows[i], size, overlap);
    }
  }

  lemma {:induction false} ConcatMembers<T>(parts: seq<seq<T>>, x: T) returns (i: nat)
    requires x in Concat(parts)
    ensures i < |parts| && x in parts[i]
  {
    if x in parts[|parts| - 1] {
      i := |parts| - 1;
    } else {
      i := ConcatMembers(parts[..|parts| - 1], x);
    }
  }

  lemma {:induction false} WindowsNonEmpty(windows: seq<seq<nat>>, before: seq<nat>, paras: seq<seq<nat>>, size: nat,
                                           overlap: nat)
    requires Greedy(windows, before, paras, size, overlap)
    ensures [] !in windows
  {
    if windows != [] {
      var k: nat :|
        && 1 <= k <= |paras| && Fills(windows[0], Carry(before, overlap), paras[..k], size)
        && Greedy(windows[1..], windows[0], paras[k..], size, overlap);
      WindowsNonEmpty(windows[1..], windows[0], paras[k..], size, overlap);
      assert windows == [windows[0]] + windows[1..];
    }
  }

  // Every final piece holds between 1 and chunk_size tokens.
  lemma PiecesFit(tok: Tokenizer, text: string, size: nat, overlap: nat, piece: seq<nat>)
    requires overlap < size && piece in Final(tok, text, size, overlap)
    ensures 1 <= |piece| <= size
  {
    hide Pack, Pieces;
    var windows := Windows(tok, text, size, overlap);
    var i := ConcatMembers(Groups(windows, size, overlap), piece);
    ChunkingIsLossless(tok, text, size, overlap);
    WindowsNonEmpty(windows, [], Encoded(tok, Paragraphs(text)), size, overlap);
    if |windows[i]| > size {
      PieceSizes(windows[i], 0, size, overlap);
    }
  }

  // ----- Chunks -----

  // The chunks of the pieces; a piece that decodes to blank text gives none, and leaves a gap in `ord`.
  function ChunksOf(tok: Tokenizer, pieces: seq<seq<nat>>, meta: Option<Meta>): seq<Chunk> {
    if pieces == [] then []
    else
      var last := |pieces| - 1;
      var text := Strip(tok.decode(pieces[last]));
      ChunksOf(tok, pieces[..last], meta) + if text != "" then [Chunk(last, text, |pieces[last]|, meta)] else []
  }

  function MetaFor(m: Meta): Option<Meta> {
    if m == Meta(map[], None) then None else Some(m)
  }

  function ChunkText(tok: Tokenizer, text: string, size: int, overlap: int, m: Meta): Result {
    if Strip(text) == "" then Chunks([])
    else if size <= 0 then ValueError(ChunkSizeNotPositive)
    else if overlap < 0 || overlap >= size then ValueError(OverlapOutOfRange)
    else Chunks(ChunksOf(tok, Final(tok, text, size, overlap), MetaFor(m)))
  }

  method EmitChunks(tok: Tokenizer, final: seq<seq<nat>>, meta: Option<Meta>) returns (chunks: seq<Chunk>)
    ensures chunks == ChunksOf(tok, final, meta)
  {
    hide Strip;
    chunks := [];
    for idx := 0 to |final|
      invariant chunks == ChunksOf(tok, final[..idx], meta)
    {
      assert final[..idx + 1][..idx] == final[..idx];
      var text := Strip(tok.decode(final[idx]));
      if text == "" {
        continue;
      }
      chunks := chunks + [Chunk(idx, text, |final[idx]|, meta)];
    }
    assert final[..|final|] == final;
  }

  method ChunkTextLoop(tok: Tokenizer, text: string, size: int, overlap: int, m: Meta) returns (r: Result)
    ensures r == ChunkText(tok, text, size, overlap, m)
  {
    if Strip(text) == "" {
      return Chunks([]);
    }
    if size <= 0 {
      return ValueError(ChunkSizeNotPositive);
    }
    if overlap < 0 || overlap >= size {
      return ValueError(OverlapOutOfRange);
    }
    var windows := PackWindows(Encoded(tok, Paragraphs(text)), size, overlap);
    var final := HardSplit(windows, size, overlap);
    var chunks := EmitChunks(tok, final, MetaFor(m));
    return Chunks(chunks);
  }

  // A blank text has no chunks whatever the sizes; otherwise a size that is not positive is refused,
  // and then an overlap that is not below it; and chunks come of the final pieces, with the metadata
  // given, if any.
  lemma ChunkTextMeans(tok: Tokenizer, text: string, size: int, overlap: int, m: Meta)
    ensures
      var r := ChunkText(tok, text, size, overlap, m);
      && (Strip(text) == "" ==> r == Chunks([]))
      && (Strip(text) != "" && size <= 0 ==> r == ValueError(ChunkSizeNotPositive))
      && (Strip(text) != "" && size > 0 && !(0 <= overlap < size) ==> r == ValueError(OverlapOutOfRange))
      && (Strip(text) != "" && size > 0 && 0 <= overlap < size ==>
            var meta := if m.base == map[] && m.page == None then None else Some(m);
            r == Chunks(ChunksOf(tok, Final(tok, text, size, overlap), meta)))
  {
    hide Strip, ChunksOf, Final;
  }

  predicate IsPiece(tok: Tokenizer, pieces: seq<seq<nat>>, meta: Option<Meta>, c: Chunk) {
    c.ord < |pieces| && c == Chunk(c.ord, Strip(tok.decode(pieces[c.ord])), |pieces[c.ord]|, meta) && c.text != ""
  }

  // Each chunk is a piece under its own number.
  lemma {:induction false} ChunkIsPiece(tok: Tokenizer, pieces: seq<seq<nat>>, meta: Option<Meta>, i: nat)
    requires i < |ChunksOf(tok, pieces, meta)|
    ensures IsPiece(tok, pieces, meta, ChunksOf(tok, pieces, meta)[i])
  {
    hide Strip;
    var before := pieces[..|pieces| - 1];
    if i < |ChunksOf(tok, before, meta)| {
      ChunkIsPiece(tok, before, meta, i);
      assert ChunksOf(tok, pieces, meta)[i] == ChunksOf(tok, before, meta)[i];
    }
  }

  // The numbers rise.
  lemma {:induction false} OrdsRise(tok: Tokenizer, pieces: seq<seq<nat>>, meta: Option<Meta>, i: nat, j: nat)
    requires i < j < |ChunksOf(tok, pieces, meta)|
    ensures ChunksOf(tok, pieces, meta)[i].ord < ChunksOf(tok, pieces, meta)[j].ord
  {
    hide Strip;
    var before := pieces[..|pieces| - 1];
    ChunkIsPiece(tok, before, meta, i);
    if j < |ChunksOf(tok, before, meta)| {
      OrdsRise(tok, before, meta, i, j);
    }
  }

  // Each piece with text has its chunk.
  lemma {:induction false} PiecesHaveChunks(tok: Tokenizer, pieces: seq<seq<nat>>, meta: Option<Meta>, i: nat)
    requires i < |pieces| && Strip(tok.decode(pieces[i])) != ""
    ensures Chunk(i, Strip(tok.decode(pieces[i])), |pieces[i]|, meta) in ChunksOf(tok, pieces, meta)
  {
    if i < |pieces| - 1 {
      PiecesHaveChunks(tok, pieces[..|pieces| - 1], meta, i);
    }
  }

  // chunk_pages before renumbering: the chunks of the pages one after the other, each stamped with
  // its page number counted from 1.
  function PageChunks(tok: Tokenizer, pages: seq<string>, size: int, overlap: int, base: map<string, string>): Result {
    if pages == [] then Chunks([])
    else
      var last := |pages| - 1;
      match PageChunks(tok, pages[..last], size, overlap, base)
      case ValueError(m) => ValueError(m)
      case Chunks(cs) =>
        match ChunkText(tok, pages[last], size, overlap, Meta(base, Some(last + 1)))
        case ValueError(m) => ValueError(m)
        case Chunks(more) => Chunks(cs + more)
  }

  predicate Numbered(out: seq<Chunk>, cs: seq<Chunk>) {
    |out| == |cs| && forall i :: 0 <= i < |cs| ==> out[i] == cs[i].(ord := i)
  }

  // The inner loop of chunk_pages.
  method Renumber(out0: seq<Chunk>, more: seq<Chunk>, ghost cs: seq<Chunk>) returns (out: seq<Chunk>)
    requires Numbered(out0, cs)
    ensures Numbered(out, cs + more)
  {
    out := out0;
    var counter := |out|;
    for k := 0 to |more|
      invariant counter == |out| && Numbered(out, cs + more[..k])
    {
      out := out + [more[k].(ord := counter)];
      counter := counter + 1;
    }
    assert more[..|more|] == more;
  }

  method ChunkPages(tok: Tokenizer, pages: seq<string>, size: int, overlap: int, base: map<string, string>)
      returns (r: Result)
    ensures
      match PageChunks(tok, pages, size, overlap, base)
      case ValueError(reason) => r == ValueError(reason)
      case Chunks(cs) =>
        r.Chunks? && |r.chunks| == |cs| && forall k :: 0 <= k < |cs| ==> r.chunks[k] == cs[k].(ord := k)
  {
    var out: seq<Chunk> := [];
    ghost var cs: seq<Chunk> := [];
    hide Numbered, Strip, ChunksOf, Final;
    assert Numbered(out, cs) by { NumberedNil(); }
    for idx := 0 to |pages|
      invariant PageChunks(tok, pages[..idx], size, overlap, base) == Chunks(cs)
      invariant Numbered(out, cs)
    {
      assert pages[..idx + 1][..idx] == pages[..idx];
      if Strip(pages[idx]) == "" {
        assert cs + [] == cs;
        continue;
      }
      var page := ChunkTextLoop(tok, pages[idx], size, overlap, Meta(base, Some(idx + 1)));
      if page.ValueError? {
        ErrorsSpread(tok, pages, idx + 1, size, overlap, base, page.reason);
        return page;
      }
      out := Renumber(out, page.chunks, cs);
      cs := cs + page.chunks;
    }
    assert pages[..|pages|] == pages;
    NumberedMeans(out, cs);
    return Chunks(out);
  }

  lemma NumberedMeans(out: seq<Chunk>, cs: seq<Chunk>)
    requires Numbered(out, cs)
    ensures |out| == |cs| && forall k :: 0 <= k < |cs| ==> out[k] == cs[k].(ord := k)
  {
  }

  lemma NumberedNil()
    ensures Numbered([], [])
  {
  }

  lemma {:induction false} ErrorsSpread(tok: Tokenizer, pages: seq<string>, k: nat, size: int, overlap: int,
                                        base: map<string, string>, reason: Refusal)
    requires k <= |pages| && PageChunks(tok, pages[..k], size, overlap, base) == ValueError(reason)
    ensures PageChunks(tok, pages, size, overlap, base) == ValueError(reason)
  {
    if k < |pages| {
      assert pages[..|pages| - 1][..k] == pages[..k];
      ErrorsSpread(tok, pages[..|pages| - 1], k, size, overlap, base, reason);
    } else {
      assert pages[..k] == pages;
    }
  }

  function PageOf(c: Chunk): nat {
    if c.meta.Some? then c.meta.value.page.GetOr(0) else 0
  }

  // Page numbers run from 1 to the number of pages and never go back.
  lemma {:induction false} PagesRise(tok: Tokenizer, pages: seq<string>, size: int, overlap: int,
                                     base: map<string, string>, i: nat, j: nat)
    requires PageChunks(tok, pages, size, overlap, base).Chunks?
    requires i <= j < |PageChunks(tok, pages, size, overlap, base).chunks|
    ensures var cs := PageChunks(tok, pages, size, overlap, base).chunks;
      1 <= PageOf(cs[i]) <= PageOf(cs[j]) <= |pages|
  {
    hide ChunkText;
    var last := |pages| - 1;
    var before := PageChunks(tok, pages[..last], size, overlap, base).chunks;
    var more := ChunkText(tok, pages[last], size, overlap, Meta(base, Some(last + 1))).chunks;
    if i < |before| {
      PagesRise(tok, pages[..last], size, overlap, base, i, if j < |before| then j else i);
    } else {
      StampedPage(tok, pages[last], size, overlap, Meta(base, Some(last + 1)), i - |before|);
    }
    if j >= |before| {
      StampedPage(tok, pages[last], size, overlap, Meta(base, Some(last + 1)), j - |before|);
    }
  }

  lemma StampedPage(tok: Tokenizer, text: string, size: int, overlap: int, m: Meta, i: nat)
    requires ChunkText(tok, text, size, overlap, m).Chunks? && i < |ChunkText(tok, text, size, overlap, m).chunks|
    requires m.page.Some?
    ensures PageOf(ChunkText(tok, text, size, overlap, m).chunks[i]) == m.page.value
  {
    hide Strip, Final, ChunksOf;
    ChunkIsPiece(tok, Final(tok, text, size, overlap), MetaFor(m), i);
  }

  // The chunks of one page, in order.
  function OnPage(chunks: seq<Chunk>, page: nat): seq<Chunk> {
    if chunks == [] then []
    else
      var last := chunks[|chunks| - 1];
      OnPage(chunks[..|chunks| - 1], page) + if PageOf(last) == page then [last] else []
  }

  lemma {:induction false} OnPageAppend(a: seq<Chunk>, b: seq<Chunk>, page: nat)
    ensures OnPage(a + b, page) == OnPage(a, page) + OnPage(b, page)
  {
    if b == [] {
      assert a + b == a;
    } else {
      assert (a + b)[..|a + b| - 1] == a + b[..|b| - 1];
      OnPageAppend(a, b[..|b| - 1], page);
    }
  }

  lemma {:induction false} OnPageAllOrNone(chunks: seq<Chunk>, own: nat, page: nat)
    requires forall c <- chunks :: PageOf(c) == own
    ensures OnPage(chunks, page) == if page == own then chunks else []
  {
    if chunks != [] {
      OnPageAllOrNone(chunks[..|chunks| - 1], own, page);
      assert chunks == chunks[..|chunks| - 1] + [chunks[|chunks| - 1]];
    }
  }

  lemma LastPage(tok: Tokenizer, pages: seq<string>, size: int, overlap: int, base: map<string, string>)
    requires PageChunks(tok, pages, size, overlap, base).Chunks? && pages != []
    ensures
      var n := |pages|;
      var before := PageChunks(tok, pages[..n - 1], size, overlap, base);
      var more := ChunkText(tok, pages[n - 1], size, overlap, Meta(base, Some(n)));
      && before.Chunks? && more.Chunks?
      && PageChunks(tok, pages, size, overlap, base).chunks == before.chunks + more.chunks
      && (forall c <- more.chunks :: PageOf(c) == n) && (forall c <- before.chunks :: PageOf(c) < n)
  {
    hide ChunkText, PageOf;
    var n := |pages|;
    var before := PageChunks(tok, pages[..n - 1], size, overlap, base).chunks;
    var more := ChunkText(tok, pages[n - 1], size, overlap, Meta(base, Some(n))).chunks;
    forall c | c in more ensures PageOf(c) == n {
      var i :| 0 <= i < |more| && more[i] == c;
      StampedPage(tok, pages[n - 1], size, overlap, Meta(base, Some(n)), i);
    }
    forall c | c in before ensures PageOf(c) < n {
      var i :| 0 <= i < |before| && before[i] == c;
      PagesRise(tok, pages[..n - 1], size, overlap, base, i, i);
    }
  }

  // The chunks stamped with page number p are exactly the chunks of that page, in order.
  lemma {:induction false} PageByPage(tok: Tokenizer, pages: seq<string>, size: int, overlap: int,
                                      base: map<string, string>, k: nat)
    requires PageChunks(tok, pages, size, overlap, base).Chunks? && k < |pages|
    ensures ChunkText(tok, pages[k], size, overlap, Meta(base, Some(k + 1)))
         == Chunks(OnPage(PageChunks(tok, pages, size, overlap, base).chunks, k + 1))
  {
    hide ChunkText, PageChunks, PageOf, OnPage;
    var n := |pages|;
    LastPage(tok, pages, size, overlap, base);
    var before := PageChunks(tok, pages[..n - 1], size, overlap, base).chunks;
    var more := ChunkText(tok, pages[n - 1], size, overlap, Meta(base, Some(n))).chunks;
    OnPageAppend(before, more, k + 1);
    OnPageAllOrNone(more, n, k + 1);
    if k < n - 1 {
      PageByPage(tok, pages[..n - 1], size, overlap, base, k);
      NothingAdded(OnPage(before, k + 1));
    } else {
      NoneOnPage(before, n);
    }
  }

  lemma NothingAdded(chunks: seq<Chunk>)
    ensures chunks + [] == chunks
  {
  }

  lemma {:induction false} NoneOnPage(chunks: seq<Chunk>, page: nat)
    requires forall c <- chunks :: PageOf(c) != page
    ensures OnPage(chunks, page) == []
  {
    if chunks != [] {
      NoneOnPage(chunks[..|chunks| - 1], page);
    }
  }
}
