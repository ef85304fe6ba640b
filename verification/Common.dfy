// Types and text helpers shared by the models of several services.
module Common {

  datatype Option<+T> = None | Some(value: T) {
    function GetOr(default: T): T {
      match this
      case Some(v) => v
      case None => default
    }
  }

  // A decoded JSON value. A Python dict keeps insertion order, hence the sequence of entries.
  datatype Json =
    | JNull
    | JBool(flag: bool)
    | JNum(n: real)
    | JStr(text: string)
    | JList(items: seq<Json>)
    | JDict(entries: seq<(string, Json)>)

  // What `str.strip` removes: the characters Python counts as whitespace.
  predicate IsSpace(c: char) {
    var n := c as int;
    9 <= n <= 13 || 28 <= n <= 32 || n == 0x85 || n == 0xA0 || n == 0x1680 || 0x2000 <= n <= 0x200A
    || n == 0x2028 || n == 0x2029 || n == 0x202F || n == 0x205F || n == 0x3000
  }

  // The white space of Unicode, as `str.isspace` has it.
  lemma SpacesAreThese(c: char)
    ensures IsSpace(c)
       <==> || c in {' ', '\t', '\n', '\U{B}', '\U{C}', '\r', '\U{1C}', '\U{1D}', '\U{1E}', '\U{1F}'}
            || c in {'\U{85}', '\U{A0}', '\U{1680}', '\U{2028}', '\U{2029}', '\U{202F}', '\U{205F}', '\U{3000}'}
            || '\U{2000}' <= c <= '\U{200A}'
  {}

  function LStrip(s: string): (r: string)
    ensures |r| <= |s| && r == s[|s| - |r|..]
    ensures r != "" ==> !IsSpace(r[0])
  {
    if s != "" && IsSpace(s[0]) then LStrip(s[1..]) else s
  }

  function RStrip(s: string): (r: string)
    ensures r <= s
    ensures r != "" ==> !IsSpace(r[|r| - 1])
  {
    if s != "" && IsSpace(s[|s| - 1]) then RStrip(s[..|s| - 1]) else s
  }

  function Strip(s: string): string {
    RStrip(LStrip(s))
  }

  predicate Blank(s: string) {
    forall i :: 0 <= i < |s| ==> IsSpace(s[i])
  }

  // Stripping takes the white space off both ends, and nothing else.
  lemma StripMeans(s: string) returns (before: string, after: string)
    ensures s == before + Strip(s) + after && Blank(before) && Blank(after)
    ensures Strip(s) != "" ==> !IsSpace(Strip(s)[0]) && !IsSpace(Strip(s)[|Strip(s)| - 1])
  {
    hide IsSpace;
    var right := LStrip(s);
    before, after := s[..|s| - |right|], right[|Strip(s)|..];
    LStripTakes(s);
    RStripTakes(right);
    hide LStrip, RStrip, Strip, Blank;
    ThreeParts(s, right, Strip(s));
  }

  lemma ThreeParts(s: string, right: string, middle: string)
    requires |right| <= |s| && right == s[|s| - |right|..] && middle <= right
    ensures s == s[..|s| - |right|] + middle + right[|middle|..]
  {
    var left, rest := s[..|s| - |right|], right[|middle|..];
    assert middle + rest == right;
    assert left + right == s;
    assert left + (middle + rest) == left + middle + rest;
  }

  lemma {:induction false} LStripTakes(s: string)
    ensures Blank(s[..|s| - |LStrip(s)|])
  {
    hide IsSpace;
    if s != "" && IsSpace(s[0]) {
      LStripTakes(s[1..]);
      var n := |s| - |LStrip(s)|;
      forall i | 0 <= i < n ensures IsSpace(s[..n][i]) {
        assert i > 0 ==> s[..n][i] == s[1..][..n - 1][i - 1];
      }
    }
  }

  lemma {:induction false} RStripTakes(s: string)
    ensures Blank(s[|RStrip(s)|..])
  {
    hide IsSpace;
    if s != "" && IsSpace(s[|s| - 1]) {
      var init := s[..|s| - 1];
      RStripTakes(init);
      var n := |RStrip(s)|;
      forall i | 0 <= i < |s| - n ensures IsSpace(s[n..][i]) {
        assert i < |init| - n ==> s[n..][i] == init[n..][i];
      }
    }
  }

  // Python's s[:n] for n >= 0.
  function Take<T>(s: seq<T>, n: nat): (r: seq<T>)
    ensures r <= s && |r| == if n <= |s| then n else |s|
  {
    if n <= |s| then s[..n] else s
  }

  function Concat<T>(parts: seq<seq<T>>): seq<T> {
    if parts == [] then [] else Concat(parts[..|parts| - 1]) + parts[|parts| - 1]
  }

  lemma ConcatSnoc<T>(parts: seq<seq<T>>, last: seq<T>)
    ensures Concat(parts + [last]) == Concat(parts) + last
  {
    assert (parts + [last])[..|parts|] == parts;
  }

  // str(n)
  function Decimal(n: int): (s: string)
    ensures s != ""
    decreases n < 0, if n < 0 then -n else n
  {
    if n < 0 then "-" + Decimal(-n)
    else if n < 10 then [('0' as int + n) as char]
    else Decimal(n / 10) + [('0' as int + n % 10) as char]
  }

  // The number some decimal digits show.
  function Shown(s: string): int {
    if s == "" then 0 else 10 * Shown(s[..|s| - 1]) + (s[|s| - 1] as int - '0' as int)
  }

  lemma {:induction false} DecimalShows(n: nat)
    ensures Shown(Decimal(n)) == n && forall c <- Decimal(n) :: '0' <= c <= '9'
  {
    if n >= 10 {
      DecimalShows(n / 10);
      assert Decimal(n)[..|Decimal(n)| - 1] == Decimal(n / 10);
    }
  }
}
