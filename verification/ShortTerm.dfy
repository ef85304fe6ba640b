// Short-term memory (memory_svc/short_term.py): a Redis list per session, trimmed at every append.
module ShortTerm {
  import opened Common

  // ----- Redis lists -----

  function Clamp(n: int, low: int, high: int): int
    requires low <= high
  {
    if n < low then low else if n > high then high else n
  }

  // The items LRANGE gives, and LTRIM keeps: negative positions count from the end.
  function Range<T>(list: seq<T>, start: int, stop: int): (r: seq<T>)
    ensures |r| <= |list|
  {
    var n := |list|;
    var from := if start < 0 then (if n + start < 0 then 0 else n + start) else start;
    var to := if stop < 0 then n + stop else stop;
    if from > to || from >= n then [] else list[from..Clamp(to, 0, n - 1) + 1]
  }

  // ----- The store -----

  datatype Item = Item(role: string, content: string, at: real)

  type Key = (string, string)   // workspace, session

  // An appended item with the cap it came with.
  datatype Pushed = Pushed(text: string, cap: int)

  // What a list holds after some appends.
  function Buffer(pushed: seq<Pushed>): seq<string> {
    if pushed == [] then []
    else
      var last := pushed[|pushed| - 1];
      Range(Buffer(pushed[..|pushed| - 1]) + [last.text], -last.cap, -1)
  }

  lemma BufferSnoc(pushed: seq<Pushed>, last: Pushed)
    ensures Buffer(pushed + [last]) == Range(Buffer(pushed) + [last.text], -last.cap, -1)
  {
    hide Range;
    assert (pushed + [last])[..|pushed|] == pushed;
  }

  // The items that still decode.
  function Decoded(loads: string -> Option<Item>, texts: seq<string>): seq<Item> {
    if texts == [] then []
    else
      var last := loads(texts[|texts| - 1]);
      Decoded(loads, texts[..|texts| - 1]) + if last.Some? then [last.value] else []
  }

  // One by one, and those that do not decode are passed over.
  lemma DecodedOneByOne(loads: string -> Option<Item>, texts: seq<string>, text: string)
    ensures Decoded(loads, []) == []
    ensures Decoded(loads, texts + [text])
         == if loads(text).None? then Decoded(loads, texts) else Decoded(loads, texts) + [loads(text).value]
  {
    assert (texts + [text])[..|texts|] == texts;
  }

  // A key without a list has an empty one.
  function At<T>(lists: map<Key, seq<T>>, key: Key): seq<T> {
    if key in lists then lists[key] else []
  }

  function Pushing(history: map<Key, seq<Pushed>>, key: Key, p: Pushed): map<Key, seq<Pushed>> {
    history[key := At(history, key) + [p]]
  }

  // RPUSH and LTRIM.
  function Trimming(lists: map<Key, seq<string>>, key: Key, p: Pushed): map<Key, seq<string>> {
    lists[key := Range(At(lists, key) + [p.text], -p.cap, -1)]
  }

  // An append comes last in the history of its own list, and leaves every other history alone.
  lemma PushingAppends(history: map<Key, seq<Pushed>>, key: Key, p: Pushed, other: Key)
    ensures other !in history ==> At(history, other) == []
    ensures At(Pushing(history, key, p), other) == if other == key then At(history, key) + [p] else At(history, other)
  {}

  // Every list holds what its appends make of it.
  ghost predicate Matches(lists: map<Key, seq<string>>, history: map<Key, seq<Pushed>>) {
    forall key :: At(lists, key) == Buffer(At(history, key))
  }

  lemma PushMatches(lists: map<Key, seq<string>>, history: map<Key, seq<Pushed>>, key: Key, p: Pushed)
    requires Matches(lists, history)
    ensures Matches(Trimming(lists, key, p), Pushing(history, key, p))
  {
    BufferSnoc(At(history, key), p);
    hide Buffer, Range;
    var lists1, history1 := Trimming(lists, key, p), Pushing(history, key, p);
    forall k ensures At(lists1, k) == Buffer(At(history1, k)) {
      if k != key {
        assert At(lists, k) == At(lists1, k) && At(history, k) == At(history1, k);
      }
    }
  }

  lemma ClearMatches(lists: map<Key, seq<string>>, history: map<Key, seq<Pushed>>, key: Key)
    requires Matches(lists, history)
    ensures Matches(lists - {key}, history - {key})
  {
    var lists1, history1 := lists - {key}, history - {key};
    forall k ensures At(lists1, k) == Buffer(At(history1, k)) {
      if k != key {
        assert At(lists, k) == At(lists1, k) && At(history, k) == At(history1, k);
      }
    }
  }

  class ShortTermStore {
    const connected: bool
    const dumps: Item -> string
    const loads: string -> Option<Item>
    var lists: map<Key, seq<string>>
    // The appends to each list since it was last cleared.
    ghost var history: map<Key, seq<Pushed>>

    ghost predicate Valid()
      reads this
    {
      Matches(lists, history)
    }

    constructor (connected: bool, dumps: Item -> string, loads: string -> Option<Item>)
      ensures Valid() && this.connected == connected && this.dumps == dumps && this.loads == loads && history == map[]
    {
      this.connected := connected;
      this.dumps := dumps;
      this.loads := loads;
      lists, history := map[], map[];
    }

    // `works` is whether the Redis pipeline goes through; a failure is swallowed.
    method Append(key: Key, item: Item, cap: int, works: bool) returns (n: int)
      requires Valid()
      modifies this
      ensures Valid()
      ensures
        var written := connected && works;
        && history == (if written then Pushing(old(history), key, Pushed(dumps(item), cap)) else old(history))
        && n == if written then |At(lists, key)| else 0
    {
      if !connected || !works {
        return 0;
      }
      var p := Pushed(dumps(item), cap);
      PushMatches(lists, history, key, p);
      hide Matches, Range, At, Trimming, Pushing;
      lists := Trimming(lists, key, p);
      history := Pushing(history, key, p);
      n := |At(lists, key)|;
    }

    method Get(key: Key, limit: int, works: bool) returns (items: seq<Item>)
      ensures items == if connected && works then Decoded(loads, Range(At(lists, key), -limit, -1)) else []
    {
      if !connected || !works {
        return [];
      }
      var raw := Range(At(lists, key), -limit, -1);
      items := [];
      for i := 0 to |raw|
        invariant items == Decoded(loads, raw[..i])
      {
        assert raw[..i + 1][..i] == raw[..i];
        var item := loads(raw[i]);
        if item.Some? {
          items := items + [item.value];
        }
      }
      assert raw[..|raw|] == raw;
    }

    method Clear(key: Key, works: bool)
      requires Valid()
      modifies this
      ensures Valid()
      ensures history == if connected && works then old(history) - {key} else old(history)
    {
      if connected && works {
        hide Matches;
        ClearMatches(lists, history, key);
        lists := lists - {key};
        history := history - {key};
      }
    }
  }

  // ----- What a list holds -----

  function Texts(pushed: seq<Pushed>): seq<string> {
    seq(|pushed|, i requires 0 <= i < |pushed| => pushed[i].text)
  }

  function Suffix<T>(s: seq<T>, n: nat): (r: seq<T>)
    ensures |r| == if n <= |s| then n else |s|
  {
    if n <= |s| then s[|s| - n..] else s
  }

  lemma TextsSnoc(pushed: seq<Pushed>, last: Pushed)
    ensures Texts(pushed + [last]) == Texts(pushed) + [last.text]
  {}

  // The range from -k to the end: the last k items, all of them for k = 0, and everything but the
  // first -k for a negative k.
  lemma RangeMeans<T>(list: seq<T>, k: int)
    ensures Range(list, -k, -1) ==
      if k > 0 then Suffix(list, k) else if -k <= |list| then list[-k..] else []
  {}

  // A range meant for the last k items holds no more than k exactly when k is positive, or the list is
  // too short to tell.
  lemma LimitIsKept<T>(list: seq<T>, k: int)
    ensures |Range(list, -k, -1)| <= (if k > 0 then k else 0) <==> k > 0 || |list| <= -k
  {
    RangeMeans(list, k);
  }

  predicate Capped(pushed: seq<Pushed>) {
    forall p <- pushed :: p.cap >= 1
  }

  // The length is the least of the number of appends and, for each append, its cap and the number of
  // appends after it.
  predicate IsLength(pushed: seq<Pushed>, n: int) {
    && n <= |pushed|
    && (forall j :: 0 <= j < |pushed| ==> n <= pushed[j].cap + (|pushed| - 1 - j))
    && (n == |pushed| || exists j :: 0 <= j < |pushed| && n == pushed[j].cap + (|pushed| - 1 - j))
  }

  lemma SuffixStep<T>(all: seq<T>, before: seq<T>, item: T, cap: int)
    requires before == Suffix(all, |before|) && cap >= 1
    ensures
      var r := Range(before + [item], -cap, -1);
      && |r| == (if |before| + 1 <= cap then |before| + 1 else cap)
      && r == Suffix(all + [item], |r|)
  {
    RangeMeans(before + [item], cap);
    assert before + [item] == Suffix(all + [item], |before| + 1);
    hide Range;
  }

  // With positive caps a list is the end of everything appended, of exactly that length.
  lemma {:induction false} BufferIsSuffix(pushed: seq<Pushed>)
    requires Capped(pushed)
    ensures IsLength(pushed, |Buffer(pushed)|) && Buffer(pushed) == Suffix(Texts(pushed), |Buffer(pushed)|)
  {
    if pushed != [] {
      var init, last := pushed[..|pushed| - 1], pushed[|pushed| - 1];
      BufferIsSuffix(init);
      assert last in pushed && init + [last] == pushed;
      hide Buffer, Texts, IsLength, Suffix;
      PushIsSuffix(init, last);
    }
  }

  lemma PushIsSuffix(init: seq<Pushed>, last: Pushed)
    requires last.cap >= 1
    requires IsLength(init, |Buffer(init)|) && Buffer(init) == Suffix(Texts(init), |Buffer(init)|)
    ensures
      var pushed := init + [last];
      IsLength(pushed, |Buffer(pushed)|) && Buffer(pushed) == Suffix(Texts(pushed), |Buffer(pushed)|)
  {
    hide Buffer, Range, Texts, IsLength, Suffix;
    BufferSnoc(init, last);
    TextsSnoc(init, last);
    SuffixStep(Texts(init), Buffer(init), last.text, last.cap);
    LengthGrows(init, last, |Buffer(init)|);
  }

  lemma LengthGrows(init: seq<Pushed>, last: Pushed, n: int)
    requires IsLength(init, n) && last.cap >= 1
    ensures IsLength(init + [last], if n + 1 <= last.cap then n + 1 else last.cap)
  {
    var pushed := init + [last];
    if n + 1 <= last.cap {
      if n < |init| {
        var j :| 0 <= j < |init| && n == init[j].cap + (|init| - 1 - j);
        assert pushed[j] == init[j];
      }
    } else {
      assert pushed[|init|] == last;
    }
  }

  lemma LengthIsOne(pushed: seq<Pushed>, m: int, n: int)
    requires IsLength(pushed, m) && IsLength(pushed, n)
    ensures m == n
  {}

  // With one cap for all, the list is the last `cap` items.
  lemma OneCap(pushed: seq<Pushed>, cap: nat)
    requires cap >= 1 && forall p <- pushed :: p.cap == cap
    ensures Buffer(pushed) == Suffix(Texts(pushed), cap)
  {
    BufferIsSuffix(pushed);
    LengthIsOne(pushed, |Buffer(pushed)|, if cap <= |pushed| then cap else |pushed|);
  }

  // Reading with a positive limit gives the last items appended, as many as the list and the limit allow.
  lemma ReadIsLastItems(pushed: seq<Pushed>, limit: int)
    requires Capped(pushed) && limit >= 1
    ensures
      var kept := |Buffer(pushed)|;
      Range(Buffer(pushed), -limit, -1) == Suffix(Texts(pushed), if limit <= kept then limit else kept)
  {
    BufferIsSuffix(pushed);
    RangeMeans(Buffer(pushed), limit);
  }

  // A cap of 0 trims nothing: the position -0 is the head of the list.
  lemma {:induction false} ZeroCapKeepsAll(pushed: seq<Pushed>)
    requires forall p <- pushed :: p.cap == 0
    ensures Buffer(pushed) == Texts(pushed)
  {
    if pushed != [] {
      var init, last := pushed[..|pushed| - 1], pushed[|pushed| - 1];
      ZeroCapKeepsAll(init);
      assert last in pushed;
      RangeMeans(Buffer(init) + [last.text], 0);
      assert Texts(pushed) == Texts(init) + [last.text];
    }
  }

  lemma {:induction false} DecodedUndoesDumps(dumps: Item -> string, loads: string -> Option<Item>, items: seq<Item>)
    requires forall i <- items :: loads(dumps(i)) == Some(i)
    ensures Decoded(loads, seq(|items|, i requires 0 <= i < |items| => dumps(items[i]))) == items
  {
    if items != [] {
      var n := |items| - 1;
      DecodedUndoesDumps(dumps, loads, items[..n]);
      var texts := seq(|items|, i requires 0 <= i < |items| => dumps(items[i]));
      assert texts[..n] == seq(|items[..n]|, i requires 0 <= i < |items[..n]| => dumps(items[..n][i]));
      assert items[n] in items && items == items[..n] + [items[n]];
    }
  }

  function Dumped(dumps: Item -> string, items: seq<Item>, caps: seq<int>): (pushed: seq<Pushed>)
    requires |caps| == |items|
    ensures |pushed| == |items|
    ensures forall i :: 0 <= i < |items| ==> pushed[i] == Pushed(dumps(items[i]), caps[i])
  {
    seq(|items|, i requires 0 <= i < |items| => Pushed(dumps(items[i]), caps[i]))
  }

  // After any appends with positive caps, a read with a positive limit gives the last items appended,
  // as many as the list and the limit allow, in order.
  lemma LastItemsComeBack(dumps: Item -> string, loads: string -> Option<Item>, items: seq<Item>, caps: seq<int>,
                          limit: int)
    requires |caps| == |items| && (forall cap <- caps :: cap >= 1) && limit >= 1
    requires forall i <- items :: loads(dumps(i)) == Some(i)
    ensures
      var list := Buffer(Dumped(dumps, items, caps));
      Decoded(loads, Range(list, -limit, -1)) == Suffix(items, if limit <= |list| then limit else |list|)
  {
    var pushed := Dumped(dumps, items, caps);
    forall p | p in pushed ensures p.cap >= 1 {
      var i :| 0 <= i < |pushed| && pushed[i] == p;
      assert caps[i] in caps;
    }
    ReadIsLastItems(pushed, limit);
    BufferIsSuffix(pushed);
    var kept := Suffix(items, if limit <= |Buffer(pushed)| then limit else |Buffer(pushed)|);
    LengthWithin(pushed, |Buffer(pushed)|);
    hide Buffer, Range, Texts, Dumped, Suffix, Decoded, IsLength, Capped;
    DecodedUndoesDumps(dumps, loads, kept);
    EndsAlike(dumps, items, caps, |kept|);
  }

  lemma LengthWithin(pushed: seq<Pushed>, n: int)
    requires IsLength(pushed, n)
    ensures n <= |pushed|
  {
  }

  // The last texts are the texts of the last items.
  lemma EndsAlike(dumps: Item -> string, items: seq<Item>, caps: seq<int>, k: nat)
    requires |caps| == |items| && k <= |items|
    ensures
      var kept := Suffix(items, k);
      Suffix(Texts(Dumped(dumps, items, caps)), k) == seq(|kept|, i requires 0 <= i < |kept| => dumps(kept[i]))
  {
    var texts := Texts(Dumped(dumps, items, caps));
    assert forall i :: 0 <= i < |items| ==> texts[i] == dumps(items[i]);
  }
}
