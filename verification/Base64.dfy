// The base64url text of an envelope (RFC 4648, section 5): encoded with padding that is stripped,
// decoded by the lenient decoder of the Python runtime after padding to a multiple of four.
module Base64 {
  import opened Common

  type Byte = n: nat | n < 256

  type Sextet = n: nat | n < 64

  // ----- Encoding -----

  predicate IsAscii(s: string) {
    forall i :: 0 <= i < |s| ==> s[i] as int < 128
  }

  function Digit(v: Sextet): (c: char)
    ensures c as int < 128
  {
    if v < 26 then ('A' as int + v) as char
    else if v < 52 then ('a' as int + v - 26) as char
    else if v < 62 then ('0' as int + v - 52) as char
    else if v == 62 then '-'
    else '_'
  }

  // Three bytes as four sextets, and back.
  function First(x: Byte): Sextet { x / 4 }
  function Second(x: Byte, y: Byte): Sextet { x % 4 * 16 + y / 16 }
  function Third(y: Byte, z: Byte): Sextet { y % 16 * 4 + z / 64 }
  function Fourth(z: Byte): Sextet { z % 64 }

  function Join1(left: Sextet, v: Sextet): Byte { (left * 4 + v / 16) % 256 }
  function Join2(left: Sextet, v: Sextet): Byte { (left * 16 + v / 4) % 256 }
  function Join3(left: Sextet, v: Sextet): Byte { (left * 64 + v) % 256 }

  // Up to three bytes as four characters, with padding for the missing ones.
  function Group(b: seq<Byte>): (s: string)
    requires 1 <= |b| <= 3
    ensures |s| == 4 && IsAscii(s)
  {
    var y := if |b| > 1 then b[1] else 0;
    var z := if |b| > 2 then b[2] else 0;
    [Digit(First(b[0])), Digit(Second(b[0], y)),
     if |b| > 1 then Digit(Third(y, z)) else '=', if |b| > 2 then Digit(Fourth(z)) else '=']
  }

  // With padding.
  function Encode(b: seq<Byte>): (s: string)
    ensures IsAscii(s)
  {
    if |b| == 0 then ""
    else if |b| <= 3 then Group(b)
    else Group(b[..3]) + Encode(b[3..])
  }

  // str.rstrip("=")
  function StripPads(s: string): (r: string)
    ensures r <= s
  {
    if s != "" && s[|s| - 1] == '=' then StripPads(s[..|s| - 1]) else s
  }

  // "=" * (-n % 4)
  function Pads(n: nat): string {
    seq((4 - n % 4) % 4, _ => '=')
  }

  // ----- Decoding -----

  // The decoder takes both alphabets and skips every other character.
  function Value(c: char): Option<Sextet> {
    if 'A' <= c <= 'Z' then Some(c as int - 'A' as int)
    else if 'a' <= c <= 'z' then Some(c as int - 'a' as int + 26)
    else if '0' <= c <= '9' then Some(c as int - '0' as int + 52)
    else if c == '-' || c == '+' then Some(62)
    else if c == '_' || c == '/' then Some(63)
    else None
  }

  // `quad` is the place in the current group of four, `left` the bits carried over, `pads` the
  // padding seen since the last digit; `done` is set when the padding completes the group.
  datatype Decoder = Decoder(quad: nat, left: Sextet, pads: nat, out: seq<Byte>, done: bool)

  function Feed(d: Decoder, c: char): Decoder {
    if d.done then d
    else if c == '=' then
      if d.quad < 2 then d
      else if d.quad + d.pads + 1 >= 4 then d.(done := true)
      else d.(pads := d.pads + 1)
    else match Value(c)
      case None => d
      case Some(v) =>
        if d.quad == 0 then Decoder(1, v, 0, d.out, false)
        else if d.quad == 1 then Decoder(2, v % 16, 0, d.out + [Join1(d.left, v)], false)
        else if d.quad == 2 then Decoder(3, v % 4, 0, d.out + [Join2(d.left, v)], false)
        else Decoder(0, 0, 0, d.out + [Join3(d.left, v)], false)
  }

  function FeedAll(d: Decoder, s: string): Decoder
    decreases |s|
  {
    if s == "" then d else FeedAll(Feed(d, s[0]), s[1..])
  }

  function Start(out: seq<Byte>): Decoder { Decoder(0, 0, 0, out, false) }

  // None is the decoder's complaint about an incomplete group.
  function Decode(s: string): Option<seq<Byte>> {
    var d := FeedAll(Start([]), s);
    if d.done || d.quad == 0 then Some(d.out) else None
  }

  // ----- Round trip -----

  lemma DigitValue(v: Sextet)
    ensures Value(Digit(v)) == Some(v) && Digit(v) != '='
  {}

  lemma {:induction false} FeedAppend(d: Decoder, a: string, b: string)
    ensures FeedAll(d, a + b) == FeedAll(FeedAll(d, a), b)
    decreases |a|
  {
    if a == "" {
      assert a + b == b;
    } else {
      hide Feed;
      FeedAppend(Feed(d, a[0]), a[1..], b);
      assert (a + b)[1..] == a[1..] + b;
    }
  }

  lemma FeedTwo(d: Decoder, s: string)
    requires |s| == 2
    ensures FeedAll(d, s) == Feed(Feed(d, s[0]), s[1])
  {
    hide Feed;
    assert s[1..][1..] == "" && FeedAll(Feed(d, s[0]), s[1..]) == FeedAll(Feed(Feed(d, s[0]), s[1]), "");
  }

  lemma FeedFour(d: Decoder, s: string)
    requires |s| == 4
    ensures FeedAll(d, s) == Feed(Feed(Feed(Feed(d, s[0]), s[1]), s[2]), s[3])
  {
    FeedAppend(d, s[..2], s[2..]);
    assert s == s[..2] + s[2..];
    FeedTwo(d, s[..2]);
    FeedTwo(FeedAll(d, s[..2]), s[2..]);
  }

  lemma FeedDigit(d: Decoder, v: Sextet)
    requires !d.done && d.quad < 4
    ensures Feed(d, Digit(v)) ==
      if d.quad == 0 then Decoder(1, v, 0, d.out, false)
      else if d.quad == 1 then Decoder(2, v % 16, 0, d.out + [Join1(d.left, v)], false)
      else if d.quad == 2 then Decoder(3, v % 4, 0, d.out + [Join2(d.left, v)], false)
      else Decoder(0, 0, 0, d.out + [Join3(d.left, v)], false)
  {
    DigitValue(v);
    hide Value, Digit;
  }

  // Splitting three bytes into four sextets loses nothing.
  lemma Regroup(x: Byte, y: Byte, z: Byte)
    ensures Join1(First(x), Second(x, y)) == x
    ensures Join2(Second(x, y) % 16, Third(y, z)) == y
    ensures Join3(Third(y, z) % 4, Fourth(z)) == z
  {
    hide *;
    FirstByte(x, y);
    SecondByte(x, y, z);
    ThirdByte(y, z);
  }

  lemma FirstByte(x: Byte, y: Byte)
    ensures Join1(First(x), Second(x, y)) == x
  {
    Split16(x % 4, y / 16);
  }

  lemma SecondByte(x: Byte, y: Byte, z: Byte)
    ensures Join2(Second(x, y) % 16, Third(y, z)) == y
  {
    Split16(x % 4, y / 16);
    Split4(y % 16, z / 64);
  }

  lemma ThirdByte(y: Byte, z: Byte)
    ensures Join3(Third(y, z) % 4, Fourth(z)) == z
  {
    Split4(y % 16, z / 64);
  }

  lemma Split16(hi: nat, lo: nat)
    requires lo < 16
    ensures (hi * 16 + lo) / 16 == hi && (hi * 16 + lo) % 16 == lo
  {}

  lemma Split4(hi: nat, lo: nat)
    requires lo < 4
    ensures (hi * 4 + lo) / 4 == hi && (hi * 4 + lo) % 4 == lo
  {}

  // The state after two, three and four digits.
  lemma TwoDigits(out: seq<Byte>, a: Sextet, b: Sextet)
    ensures Feed(Feed(Start(out), Digit(a)), Digit(b)) == Decoder(2, b % 16, 0, out + [Join1(a, b)], false)
  {
    hide Digit, Feed;
    FeedDigit(Start(out), a);
    FeedDigit(Feed(Start(out), Digit(a)), b);
  }

  lemma FourDigits(out: seq<Byte>, a: Sextet, b: Sextet, c: Sextet, d: Sextet)
    ensures
      var d3 := Feed(Feed(Feed(Start(out), Digit(a)), Digit(b)), Digit(c));
      && d3 == Decoder(3, c % 4, 0, out + [Join1(a, b)] + [Join2(b % 16, c)], false)
      && Feed(d3, Digit(d))
         == Start(out + [Join1(a, b)] + [Join2(b % 16, c)] + [Join3(c % 4, d)])
  {
    hide Digit, Feed;
    TwoDigits(out, a, b);
    var d2 := Feed(Feed(Start(out), Digit(a)), Digit(b));
    FeedDigit(d2, c);
    FeedDigit(Feed(d2, Digit(c)), d);
  }

  lemma PadsFinish(left: Sextet, out: seq<Byte>)
    ensures var d := Feed(Feed(Decoder(2, left, 0, out, false), '='), '='); d.done && d.out == out
    ensures var d := Feed(Decoder(3, left, 0, out, false), '='); d.done && d.out == out
  {}

  // A group gives back its bytes; a padded one ends the text.
  lemma FullGroupFeeds(out: seq<Byte>, b: seq<Byte>)
    requires |b| == 3
    ensures FeedAll(Start(out), Group(b)) == Start(out + b)
  {
    var x, y, z := b[0], b[1], b[2];
    FeedFour(Start(out), Group(b));
    Regroup(x, y, z);
    assert out + [x] + [y] + [z] == out + b;
    hide Digit, Feed, FeedAll, Start, First, Second, Third, Fourth, Join1, Join2, Join3;
    FourDigits(out, First(x), Second(x, y), Third(y, z), Fourth(z));
  }

  lemma LongGroupFeeds(out: seq<Byte>, b: seq<Byte>)
    requires |b| == 2
    ensures var d := FeedAll(Start(out), Group(b)); d.done && d.out == out + b
  {
    var x, y := b[0], b[1];
    FeedFour(Start(out), Group(b));
    Regroup(x, y, 0);
    assert out + [x] + [y] == out + b;
    hide Digit, Feed, FeedAll, Start, First, Second, Third, Fourth, Join1, Join2, Join3;
    FourDigits(out, First(x), Second(x, y), Third(y, 0), Fourth(0));
    PadsFinish(Third(y, 0) % 4, out + [x] + [y]);
  }

  lemma ShortGroupFeeds(out: seq<Byte>, b: seq<Byte>)
    requires |b| == 1
    ensures var d := FeedAll(Start(out), Group(b)); d.done && d.out == out + b
  {
    var x := b[0];
    FeedFour(Start(out), Group(b));
    Regroup(x, 0, 0);
    assert out + [x] == out + b;
    hide Digit, Feed, FeedAll, Start, First, Second, Third, Fourth, Join1, Join2, Join3;
    TwoDigits(out, First(x), Second(x, 0));
    PadsFinish(Second(x, 0) % 16, out + [x]);
  }

  lemma {:induction false} EncodeFeeds(out: seq<Byte>, b: seq<Byte>)
    ensures var d := FeedAll(Start(out), Encode(b)); d.out == out + b && (d.done || d.quad == 0)
    decreases |b|
  {
    hide Group, Feed;
    if |b| == 1 {
      ShortGroupFeeds(out, b);
    } else if |b| == 2 {
      LongGroupFeeds(out, b);
    } else if |b| == 3 {
      FullGroupFeeds(out, b);
    } else if |b| > 3 {
      FullGroupFeeds(out, b[..3]);
      FeedAppend(Start(out), Group(b[..3]), Encode(b[3..]));
      EncodeFeeds(out + b[..3], b[3..]);
      assert out + b[..3] + b[3..] == out + b;
    }
  }

  // Encoded text is whole groups: padding stripped and restored by length is the same text.
  lemma GroupPads(b: seq<Byte>)
    requires 1 <= |b| <= 3
    ensures var s := StripPads(Group(b)); s + Pads(|s|) == Group(b)
    ensures |b| == 3 ==> Group(b)[3] != '='
  {
    hide Digit, First, Second, Third, Fourth;
    var y := if |b| > 1 then b[1] else 0;
    var z := if |b| > 2 then b[2] else 0;
    DigitValue(Second(b[0], y));
    DigitValue(Third(y, z));
    DigitValue(Fourth(z));
    var g := Group(b);
    assert |b| < 3 ==> StripPads(g) == StripPads(g[..3]);
    assert |b| < 2 ==> StripPads(g[..3]) == StripPads(g[..3][..2]);
  }

  lemma GroupFirst(group: string, rest: string)
    requires |group| == 4
    ensures group + rest + Pads(|group + rest|) == group + (rest + Pads(|rest|))
  {}

  lemma {:induction false} PadsComeBack(b: seq<Byte>)
    ensures var s := StripPads(Encode(b)); s + Pads(|s|) == Encode(b)
    decreases |b|
  {
    if 0 < |b| <= 3 {
      GroupPads(b);
    } else if |b| > 3 {
      hide Group, StripPads, Pads;
      var group := Group(b[..3]);
      GroupPads(b[..3]);
      PadsComeBack(b[3..]);
      StripAfter(group, Encode(b[3..]));
      GroupFirst(group, StripPads(Encode(b[3..])));
    }
  }

  lemma {:induction false} StripAfter(a: string, s: string)
    requires a != "" && a[|a| - 1] != '='
    ensures StripPads(a + s) == a + StripPads(s)
  {
    if s == "" {
      assert a + s == a;
    } else if s[|s| - 1] == '=' {
      StripAfter(a, s[..|s| - 1]);
      assert (a + s)[..|a + s| - 1] == a + s[..|s| - 1];
    }
  }

  lemma RoundTrip(b: seq<Byte>)
    ensures var s := StripPads(Encode(b)); Decode(s + Pads(|s|)) == Some(b)
  {
    PadsComeBack(b);
    EncodeFeeds([], b);
    assert [] + b == b;
  }

  // Digits alone never end the text, and leave the decoder as far into a group as they are many.
  lemma {:induction false} DigitsFillGroups(d: Decoder, s: string)
    requires !d.done && d.quad < 4 && d.pads == 0
    requires forall i :: 0 <= i < |s| ==> Value(s[i]).Some? && s[i] != '='
    ensures var e := FeedAll(d, s); !e.done && e.quad == (d.quad + |s|) % 4 && e.pads == 0
    decreases |s|
  {
    if s != "" {
      OneMoreDigit(d, s[0]);
      hide Feed, Value;
      var rest := s[1..];
      DigitsFillGroups(Feed(d, s[0]), rest);
      RoundTheGroup(d.quad, |rest|);
    } else {
      RoundTheGroup(d.quad, 0);
    }
  }

  lemma RoundTheGroup(quad: nat, n: nat)
    requires quad < 4
    ensures ((if quad == 3 then 0 else quad + 1) + n) % 4 == (quad + (n + 1)) % 4
    ensures quad % 4 == quad
  {}

  lemma OneMoreDigit(d: Decoder, c: char)
    requires !d.done && d.quad < 4 && d.pads == 0 && Value(c).Some? && c != '='
    ensures var e := Feed(d, c); !e.done && e.quad == (if d.quad == 3 then 0 else d.quad + 1) && e.pads == 0
  {
    hide Value;
  }

  // Text of digits, padded by its length, decodes unless just one digit is left over for its last group.
  lemma DecodesUnlessOneIsLeft(s: string)
    requires forall i :: 0 <= i < |s| ==> Value(s[i]).Some? && s[i] != '='
    ensures Decode(s + Pads(|s|)).None? <==> |s| % 4 == 1
  {
    DigitsFillGroups(Start([]), s);
    var d := FeedAll(Start([]), s);
    FeedAppend(Start([]), s, Pads(|s|));
    hide Value;
    PadsComplete(d, Pads(|s|));
  }

  lemma PadsComplete(d: Decoder, pads: string)
    requires !d.done && d.quad < 4 && d.pads == 0
    requires |pads| == (4 - d.quad) % 4 && forall i :: 0 <= i < |pads| ==> pads[i] == '='
    ensures var e := FeedAll(d, pads); !e.done && e.quad != 0 <==> d.quad == 1
  {
    hide Value;
    if |pads| == 1 {
      assert pads[1..] == "";
    } else if |pads| == 2 {
      FeedTwo(d, pads);
    } else if |pads| == 3 {
      FeedTwo(d, pads[..2]);
      FeedAppend(d, pads[..2], pads[2..]);
      assert pads == pads[..2] + pads[2..] && pads[2..][1..] == "";
    }
  }

  // ----- The alphabet and the bits, in the standard's terms -----

  function Upper(): string { "ABCDEFGHIJKLMNOPQRSTUVWXYZ" }

  function Lower(): string { "abcdefghijklmnopqrstuvwxyz" }

  function Figures(): string { "0123456789" }

  // Table 2 of RFC 4648: the digit of a value is the character at its place. The decoder also takes
  // table 1, which has '+' and '/' for the last two, and nothing else.
  function Alphabet(): string { Upper() + Lower() + Figures() + "-_" }

  lemma UpperAt(v: nat)
    requires v < 26
    ensures |Upper()| == 26 && Upper()[v] as int == 'A' as int + v
  {}

  lemma LowerAt(v: nat)
    requires v < 26
    ensures |Lower()| == 26 && Lower()[v] as int == 'a' as int + v
  {}

  lemma FigureAt(v: nat)
    requires v < 10
    ensures |Figures()| == 10 && Figures()[v] as int == '0' as int + v
  {}

  lemma DigitsAreTheAlphabet(v: Sextet)
    ensures |Alphabet()| == 64 && Digit(v) == Alphabet()[v] && Value(Alphabet()[v]) == Some(v)
  {
    UpperAt(if v < 26 then v else 0);
    LowerAt(if 26 <= v < 52 then v - 26 else 0);
    FigureAt(if 52 <= v < 62 then v - 52 else 0);
    DigitValue(v);
    hide Upper, Lower, Figures, Value;
    PlaceInAlphabet(v);
  }

  lemma PlaceInAlphabet(v: Sextet)
    requires |Upper()| == 26 && |Lower()| == 26 && |Figures()| == 10
    ensures |Alphabet()| == 64
    ensures Alphabet()[v] == if v < 26 then Upper()[v]
                             else if v < 52 then Lower()[v - 26]
                             else if v < 62 then Figures()[v - 52]
                             else if v == 62 then '-' else '_'
  {
    hide Upper, Lower, Figures;
  }

  lemma DecoderTakesBothAlphabets(c: char)
    ensures
      match Value(c)
      case Some(v) => c == Digit(v) || (c == '+' && v == 62) || (c == '/' && v == 63)
      case None => c != '+' && c != '/' && forall v: Sextet :: Digit(v) != c
  {
    forall v: Sextet ensures Value(c).None? ==> Digit(v) != c {
      DigitValue(v);
    }
  }

  // What a character counts for: nothing if it is no digit.
  function Worth(c: char): int { Value(c).GetOr(0) }

  // The number three bytes make is the number their four digits make, most significant first; a
  // missing byte counts as zero and leaves a pad for a digit.
  lemma GroupsKeepTheNumber(b: seq<Byte>)
    requires 1 <= |b| <= 3
    ensures
      var s := Group(b);
      var x: int, y: int, z: int := b[0], if |b| > 1 then b[1] else 0, if |b| > 2 then b[2] else 0;
      && 65536 * x + 256 * y + z == 262144 * Worth(s[0]) + 4096 * Worth(s[1]) + 64 * Worth(s[2]) + Worth(s[3])
      && s[0] != '=' && s[1] != '=' && (s[2] == '=' <==> |b| < 2) && (s[3] == '=' <==> |b| < 3)
  {
    var x, y, z := b[0], if |b| > 1 then b[1] else 0, if |b| > 2 then b[2] else 0;
    hide *;
    GroupWorths(b, x, y, z);
    SextetsKeepTheNumber(x, y, z);
  }

  lemma GroupWorths(b: seq<Byte>, x: Byte, y: Byte, z: Byte)
    requires 1 <= |b| <= 3 && b[0] == x && y == (if |b| > 1 then b[1] else 0) && z == if |b| > 2 then b[2] else 0
    ensures
      var s := Group(b);
      && Worth(s[0]) == First(x) && Worth(s[1]) == Second(x, y)
      && Worth(s[2]) == Third(y, z) && Worth(s[3]) == Fourth(z)
      && s[0] != '=' && s[1] != '=' && (s[2] == '=' <==> |b| < 2) && (s[3] == '=' <==> |b| < 3)
  {
    hide Digit, Worth, Group, First, Second;
    GroupDigits(b, x, y, z);
    DigitIsWorth(First(x));
    DigitIsWorth(Second(x, y));
    DigitIsWorth(Third(y, z));
    DigitIsWorth(Fourth(z));
  }

  lemma GroupDigits(b: seq<Byte>, x: Byte, y: Byte, z: Byte)
    requires 1 <= |b| <= 3 && b[0] == x && y == (if |b| > 1 then b[1] else 0) && z == if |b| > 2 then b[2] else 0
    ensures
      var s := Group(b);
      && s[0] == Digit(First(x)) && s[1] == Digit(Second(x, y))
      && s[2] == (if |b| > 1 then Digit(Third(y, z)) else '=') && s[3] == if |b| > 2 then Digit(Fourth(z)) else '='
  {
    hide Digit, First, Second, Third, Fourth;
  }

  lemma DigitIsWorth(v: Sextet)
    ensures Worth(Digit(v)) == v && Digit(v) != '=' && Worth('=') == 0
  {
    DigitValue(v);
  }

  lemma SextetsKeepTheNumber(x: Byte, y: Byte, z: Byte)
    ensures var a: int, b: int, c: int := x, y, z;
            65536 * a + 256 * b + c == 262144 * First(x) + 4096 * Second(x, y) + 64 * Third(y, z) + Fourth(z)
  {
    assert x == 4 * (x / 4) + x % 4 && y == 16 * (y / 16) + y % 16 && z == 64 * (z / 64) + z % 64;
  }

  // Longer text is encoded three bytes at a time.
  lemma EncodeByGroups(b: seq<Byte>, rest: seq<Byte>)
    requires |b| == 3
    ensures Encode(b + rest) == Encode(b) + Encode(rest) && Encode(b) == Group(b)
  {
    assert (b + rest)[..3] == b && (b + rest)[3..] == rest;
    assert rest == [] ==> b + rest == b;
  }
}
