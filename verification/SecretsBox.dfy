// Secrets at rest (shared/secrets_box.py): versioned envelopes around sealed text, and the walk that
// encrypts the sensitive string fields of a JSON value and decrypts every enveloped one.
module SecretsBox {
  import opened Common
  import opened Base64

  type Bytes = seq<Byte>

  // The cipher, UTF-8 and case folding. `seal` and `open` take the key material, from which the
  // source derives the key.
  datatype Box = Box(
    seal: (string, Bytes, Bytes) -> Bytes,           // material, plaintext, nonce
    open: (string, Bytes, Bytes) -> Option<Bytes>,   // material, ciphertext, nonce
    utf8: string -> Option<Bytes>,
    text: Bytes -> Option<string>,
    lower: string -> string)

  const NONCE_SIZE: nat := 24

  // Opening undoes sealing, decoding undoes encoding, and ASCII text can be encoded.
  ghost predicate Lawful(box: Box) {
    && (forall m, p, n :: |n| == NONCE_SIZE ==> box.open(m, box.seal(m, p, n), n) == Some(p))
    && (forall s :: box.utf8(s).Some? ==> box.text(box.utf8(s).value) == Some(s))
    && (forall s :: IsAscii(s) ==> box.utf8(s).Some?)
  }

  // ----- Envelopes -----

  function Version(): (v: string)
    ensures |v| == 2 && v[0] != ':' && v[1] != ':'
  {
    "v1"
  }

  function Mark(): (m: string)
    ensures |m| == 3 && m == Version() + [':']
  {
    Version() + [':']
  }

  function Encrypt(box: Box, material: string, nonce: Bytes, plain: string): Option<string> {
    if material == "" || box.utf8(plain).None? then None
    else
      var blob := nonce + box.seal(material, box.utf8(plain).value, nonce);
      Some(Mark() + StripPads(Encode(blob)))
  }

  // What comes before and after the first colon.
  function Partition(s: string): (string, string) {
    if s == "" then ("", "")
    else if s[0] == ':' then ("", s[1..])
    else
      var (a, b) := Partition(s[1..]);
      (s[..1] + a, b)
  }

  function Decrypt(box: Box, material: string, envelope: string): Option<string> {
    var (version, payload) := Partition(envelope);
    if version != Version() || box.utf8(payload).None? then None
    else match Decode(payload + Pads(|payload|))
      case None => None
      case Some(blob) =>
        if material == "" then None
        else
          var nonce := Take(blob, NONCE_SIZE);
          match box.open(material, blob[|nonce|..], nonce)
          case None => None
          case Some(plain) => box.text(plain)
  }

  predicate LooksEncrypted(s: string) { Mark() <= s }

  lemma PartitionMark(payload: string)
    ensures Partition(Mark() + payload) == (Version(), payload)
  {
    hide Version;
    var s := Mark() + payload;
    assert s[1..][1..][1..] == payload && s[1..][1..][0] == ':';
    assert Partition(s[1..][1..]) == ("", payload);
    assert Partition(s[1..]) == (s[1..][..1] + "", payload);
    assert s[..1] + (s[1..][..1] + "") == Version();
  }

  // An envelope opens to its text under the same key material, for any nonce.
  lemma EnvelopeRoundTrip(box: Box, material: string, nonce: Bytes, plain: string)
    requires Lawful(box) && |nonce| == NONCE_SIZE
    ensures
      match Encrypt(box, material, nonce, plain)
      case Some(envelope) => LooksEncrypted(envelope) && Decrypt(box, material, envelope) == Some(plain)
      case None => material == "" || box.utf8(plain).None?
  {
    hide Mark, Version, Partition, Encode, StripPads, Decode, Pads;
    if Encrypt(box, material, nonce, plain).Some? {
      var sealed := box.seal(material, box.utf8(plain).value, nonce);
      var payload := StripPads(Encode(nonce + sealed));
      PartitionMark(payload);
      RoundTrip(nonce + sealed);
      assert IsAscii(payload) && Take(nonce + sealed, NONCE_SIZE) == nonce;
      assert (nonce + sealed)[NONCE_SIZE..] == sealed;
    }
  }

  // What an envelope is: a version mark, then the nonce and the sealed text in base64url.
  lemma EnvelopeHolds(box: Box, material: string, nonce: Bytes, plain: string)
    requires Encrypt(box, material, nonce, plain).Some?
    ensures
      var envelope := Encrypt(box, material, nonce, plain).value;
      && |envelope| >= 3 && envelope[..3] == "v1:" && box.utf8(plain).Some? && material != ""
      && var payload := envelope[3..];
         Decode(payload + Pads(|payload|)) == Some(nonce + box.seal(material, box.utf8(plain).value, nonce))
  {
    hide Encode, StripPads, Decode, Pads;
    RoundTrip(nonce + box.seal(material, box.utf8(plain).value, nonce));
  }

  // A text counts as an envelope when it begins with the mark, and nothing opens but one of this version.
  lemma OnlyThisVersionOpens(box: Box, material: string, s: string)
    ensures LooksEncrypted(s) <==> |s| >= 3 && s[..3] == "v1:"
    ensures Decrypt(box, material, s).Some? ==> material != "" && (LooksEncrypted(s) || s == "v1")
  {
    hide Decode, Pads;
    var (version, payload) := Partition(s);
    PartitionMeans(s);
  }

  // Before the first colon, and after it.
  lemma {:induction false} PartitionMeans(s: string)
    ensures
      var (a, b) := Partition(s);
      && ':' !in a
      && (if ':' in s then s == a + [':'] + b else s == a && b == "")
  {
    if s != "" && s[0] != ':' {
      PartitionMeans(s[1..]);
      var (a, b) := Partition(s[1..]);
      assert s == s[..1] + s[1..];
      assert ':' in s <==> ':' in s[1..];
      assert ':' in s ==> s[..1] + (a + [':'] + b) == s[..1] + a + [':'] + b;
    }
  }

  // ----- Which fields are protected -----

  predicate Contains(s: string, part: string) {
    exists i :: 0 <= i <= |s| - |part| && s[i..][..|part|] == part
  }

  function Underscored(s: string): string {
    seq(|s|, i requires 0 <= i < |s| => if s[i] == '-' || s[i] == ' ' then '_' else s[i])
  }

  function SensitiveTokens(): seq<string> {
    ["secret", "password", "token", "api_key", "apikey", "private_key", "bearer", "authorization", "client_secret"]
  }

  predicate IsSensitive(box: Box, key: string) {
    exists part <- SensitiveTokens() :: Contains(Underscored(box.lower(key)), part)
  }

  // A sensitive word is found wherever it stands in the folded name, with dashes or spaces for its
  // underscores.
  lemma SpelledAnyway(box: Box, key: string, before: string, word: string, after: string)
    requires box.lower(key) == before + word + after && Underscored(word) in SensitiveTokens()
    ensures IsSensitive(box, key)
  {
    hide SensitiveTokens;
    var s := Underscored(box.lower(key));
    assert s[|before|..][..|word|] == Underscored(word);
    assert Contains(s, Underscored(word));
  }

  ghost predicate Has(s: string, part: string) {
    exists before, after :: s == before + part + after
  }

  lemma ContainsMeans(s: string, part: string)
    ensures Contains(s, part) <==> Has(s, part)
  {
    if Contains(s, part) {
      var i :| 0 <= i <= |s| - |part| && s[i..][..|part|] == part;
      assert s == s[..i] + part + s[i + |part|..];
    }
    if before, after :| s == before + part + after {
      assert s[|before|..][..|part|] == part;
    }
  }

  // A name is sensitive exactly when one of nine words is in it, after folding its case and turning
  // its dashes and spaces into underscores.
  lemma SensitiveNames(box: Box, key: string, folded: string)
    requires |folded| == |box.lower(key)|
    requires forall i :: 0 <= i < |folded| ==>
               folded[i] == if box.lower(key)[i] == '-' || box.lower(key)[i] == ' ' then '_' else box.lower(key)[i]
    ensures IsSensitive(box, key)
       <==> || Has(folded, "secret") || Has(folded, "password") || Has(folded, "token")
            || Has(folded, "api_key") || Has(folded, "apikey") || Has(folded, "private_key")
            || Has(folded, "bearer") || Has(folded, "authorization") || Has(folded, "client_secret")
  {
    assert folded == Underscored(box.lower(key));
    NineWords(folded);
    hide Contains, Has, Underscored, SensitiveTokens;
  }

  lemma NineWords(s: string)
    ensures (exists part <- SensitiveTokens() :: Contains(s, part))
       <==> || Has(s, "secret") || Has(s, "password") || Has(s, "token")
            || Has(s, "api_key") || Has(s, "apikey") || Has(s, "private_key")
            || Has(s, "bearer") || Has(s, "authorization") || Has(s, "client_secret")
  {
    hide Contains, Has;
    forall part ensures Contains(s, part) <==> Has(s, part) {
      ContainsMeans(s, part);
    }
    var words := SensitiveTokens();
    assert (exists part <- words :: Contains(s, part)) <==> exists i :: 0 <= i < |words| && Contains(s, words[i]);
  }

  // A field whose value gets encrypted.
  predicate Protects(box: Box, key: string, v: Json) {
    IsSensitive(box, key) && v.JStr? && v.text != "" && !LooksEncrypted(v.text)
  }

  // ----- The walk -----

  // What encryption may turn a value into: the same shape, an envelope for each protected field.
  ghost predicate Encrypts(box: Box, material: string, t: Json, e: Json)
    decreases t, 0
  {
    match t
    case JDict(entries) =>
      && e.JDict? && |e.entries| == |entries|
      && forall i :: 0 <= i < |entries| ==>
           e.entries[i].0 == entries[i].0 && FieldEncrypts(box, material, entries[i].0, entries[i].1, e.entries[i].1)
    case JList(items) =>
      e.JList? && |e.items| == |items| && forall i :: 0 <= i < |items| ==> Encrypts(box, material, items[i], e.items[i])
    case _ => e == t
  }

  ghost predicate FieldEncrypts(box: Box, material: string, key: string, v: Json, w: Json)
    decreases v, 1
  {
    if Protects(box, key, v) then w.JStr? && IsEnvelope(box, material, v.text, w.text)
    else Encrypts(box, material, v, w)
  }

  ghost predicate IsEnvelope(box: Box, material: string, plain: string, envelope: string) {
    exists nonce: Bytes :: |nonce| == NONCE_SIZE && Encrypt(box, material, nonce, plain) == Some(envelope)
  }

  // Whether encryption raises nothing: each protected text needs a key and an encoding.
  predicate CanEncrypt(box: Box, material: string, t: Json)
    decreases t, 0
  {
    match t
    case JDict(entries) => forall i :: 0 <= i < |entries| ==> FieldCanEncrypt(box, material, entries[i].0, entries[i].1)
    case JList(items) => forall i :: 0 <= i < |items| ==> CanEncrypt(box, material, items[i])
    case _ => true
  }

  predicate FieldCanEncrypt(box: Box, material: string, key: string, v: Json)
    decreases v, 1
  {
    if Protects(box, key, v) then material != "" && box.utf8(v.text).Some? else CanEncrypt(box, material, v)
  }

  // `rnd` is the source of nonces, of which n0 have been used.
  method EncryptSensitiveFields(box: Box, material: string, rnd: nat -> Bytes, n0: nat, payload: Json)
    returns (r: Option<Json>, n: nat)
    requires forall i :: |rnd(i)| == NONCE_SIZE
    ensures n0 <= n
    ensures r.Some? <==> CanEncrypt(box, material, payload)
    ensures r.Some? ==> Encrypts(box, material, payload, r.value)
    decreases payload
  {
    hide Encrypt, LooksEncrypted, IsSensitive;
    n := n0;
    match payload
    case JDict(entries) =>
      var out: seq<(string, Json)> := [];
      for k := 0 to |entries|
        invariant n0 <= n && |out| == k
        invariant forall i :: 0 <= i < k ==> FieldCanEncrypt(box, material, entries[i].0, entries[i].1)
        invariant forall i :: 0 <= i < k ==>
          out[i].0 == entries[i].0 && FieldEncrypts(box, material, entries[i].0, entries[i].1, out[i].1)
      {
        var (key, v) := entries[k];
        if Protects(box, key, v) {
          EncryptFails(box, material, rnd(n), v.text);
          var envelope := Encrypt(box, material, rnd(n), v.text);
          n := n + 1;
          if envelope == None {
            assert !FieldCanEncrypt(box, material, entries[k].0, entries[k].1);
            return None, n;
          }
          assert IsEnvelope(box, material, v.text, envelope.value);
          out := out + [(key, JStr(envelope.value))];
        } else {
          var w;
          w, n := EncryptSensitiveFields(box, material, rnd, n, v);
          if w == None {
            assert !FieldCanEncrypt(box, material, entries[k].0, entries[k].1);
            return None, n;
          }
          out := out + [(key, w.value)];
        }
      }
      r := Some(JDict(out));
    case JList(items) =>
      var out: seq<Json> := [];
      for k := 0 to |items|
        invariant n0 <= n && |out| == k
        invariant forall i :: 0 <= i < k ==>
          CanEncrypt(box, material, items[i]) && Encrypts(box, material, items[i], out[i])
      {
        var w;
        w, n := EncryptSensitiveFields(box, material, rnd, n, items[k]);
        if w == None {
          assert !CanEncrypt(box, material, items[k]);
          return None, n;
        }
        out := out + [w.value];
      }
      r := Some(JList(out));
    case _ =>
      r := Some(payload);
  }

  lemma EncryptFails(box: Box, material: string, nonce: Bytes, plain: string)
    ensures Encrypt(box, material, nonce, plain).Some? <==> material != "" && box.utf8(plain).Some?
  {}

  function DecryptTree(box: Box, material: string, e: Json): Json
    decreases e, 0
  {
    match e
    case JDict(entries) =>
      JDict(seq(|entries|, i requires 0 <= i < |entries| => (entries[i].0, DecryptField(box, material, entries[i].1))))
    case JList(items) => JList(seq(|items|, i requires 0 <= i < |items| => DecryptTree(box, material, items[i])))
    case _ => e
  }

  function DecryptField(box: Box, material: string, v: Json): Json
    decreases v, 1
  {
    if v.JStr? && LooksEncrypted(v.text) then JStr(Decrypt(box, material, v.text).GetOr(v.text))
    else DecryptTree(box, material, v)
  }

  method DecryptSensitiveFields(box: Box, material: string, payload: Json) returns (r: Json)
    ensures r == DecryptTree(box, material, payload)
    decreases payload
  {
    hide Decrypt, LooksEncrypted;
    match payload
    case JDict(entries) =>
      var out: seq<(string, Json)> := [];
      for k := 0 to |entries|
        invariant |out| == k
        invariant forall i :: 0 <= i < k ==> out[i] == (entries[i].0, DecryptField(box, material, entries[i].1))
      {
        var (key, v) := entries[k];
        var w := v;
        if v.JStr? && LooksEncrypted(v.text) {
          var plain := Decrypt(box, material, v.text);
          if plain.Some? {
            w := JStr(plain.value);
          }
        } else {
          w := DecryptSensitiveFields(box, material, v);
        }
        out := out + [(key, w)];
      }
      r := JDict(out);
    case JList(items) =>
      var out: seq<Json> := [];
      for k := 0 to |items|
        invariant |out| == k
        invariant forall i :: 0 <= i < k ==> out[i] == DecryptTree(box, material, items[i])
      {
        var w := DecryptSensitiveFields(box, material, items[k]);
        out := out + [w];
      }
      r := JList(out);
    case _ =>
      r := payload;
  }

  // ----- Theorems -----

  // No string field of a dict is already an envelope that opens (to anything but itself).
  predicate NoneOpens(box: Box, material: string, t: Json) {
    match t
    case JDict(entries) =>
      forall i :: 0 <= i < |entries| ==>
        FieldStays(box, material, entries[i].1) && NoneOpens(box, material, entries[i].1)
    case JList(items) => forall i :: 0 <= i < |items| ==> NoneOpens(box, material, items[i])
    case _ => true
  }

  lemma KindIsKept(box: Box, material: string, v: Json, w: Json)
    requires Encrypts(box, material, v, w)
    ensures v.JStr? <==> w.JStr?
    ensures v.JStr? ==> w == v
  {}

  predicate FieldStays(box: Box, material: string, v: Json) {
    v.JStr? && LooksEncrypted(v.text) ==> Decrypt(box, material, v.text).GetOr(v.text) == v.text
  }

  // Decrypting what encryption made of t gives t back exactly when no field of t already opens.
  lemma {:induction false} TreeRoundTrip(box: Box, material: string, t: Json, e: Json)
    requires Lawful(box) && Encrypts(box, material, t, e)
    ensures DecryptTree(box, material, e) == t <==> NoneOpens(box, material, t)
    decreases t, 0
  {
    hide FieldStays, FieldEncrypts, DecryptField, Lawful;
    match t
    case JDict(entries) =>
      var d := DecryptTree(box, material, e);
      forall i | 0 <= i < |entries|
        ensures d.entries[i] == entries[i]
          <==> FieldStays(box, material, entries[i].1) && NoneOpens(box, material, entries[i].1)
      {
        FieldRoundTrip(box, material, entries[i].0, entries[i].1, e.entries[i].1);
      }
      assert d == t <==> forall i :: 0 <= i < |entries| ==> d.entries[i] == entries[i];
    case JList(items) =>
      var d := DecryptTree(box, material, e);
      forall i | 0 <= i < |items| ensures d.items[i] == items[i] <==> NoneOpens(box, material, items[i]) {
        TreeRoundTrip(box, material, items[i], e.items[i]);
      }
      assert d == t <==> forall i :: 0 <= i < |items| ==> d.items[i] == items[i];
    case _ =>
  }

  lemma {:induction false} FieldRoundTrip(box: Box, material: string, key: string, v: Json, w: Json)
    requires Lawful(box) && FieldEncrypts(box, material, key, v, w)
    ensures DecryptField(box, material, w) == v <==> FieldStays(box, material, v) && NoneOpens(box, material, v)
    decreases v, 1
  {
    hide Encrypt, Decrypt, LooksEncrypted, IsSensitive, Lawful;
    if Protects(box, key, v) {
      var nonce: Bytes :| |nonce| == NONCE_SIZE && Encrypt(box, material, nonce, v.text) == Some(w.text);
      EnvelopeRoundTrip(box, material, nonce, v.text);
    } else {
      KindIsKept(box, material, v, w);
      if !v.JStr? {
        TreeRoundTrip(box, material, v, w);
      }
    }
  }

  // Every non-empty string under a sensitive name is in an envelope.
  predicate NothingInClear(box: Box, t: Json) {
    match t
    case JDict(entries) =>
      forall i :: 0 <= i < |entries| ==>
        && (IsSensitive(box, entries[i].0) && entries[i].1.JStr? && entries[i].1.text != "" ==>
              LooksEncrypted(entries[i].1.text))
        && NothingInClear(box, entries[i].1)
    case JList(items) => forall i :: 0 <= i < |items| ==> NothingInClear(box, items[i])
    case _ => true
  }

  lemma {:induction false} NothingStaysInClear(box: Box, material: string, t: Json, e: Json)
    requires Lawful(box) && Encrypts(box, material, t, e)
    ensures NothingInClear(box, e)
    decreases t
  {
    hide Encrypt, Decrypt, LooksEncrypted, IsSensitive, Lawful;
    match t
    case JDict(entries) =>
      forall i | 0 <= i < |entries|
        ensures !Protects(box, e.entries[i].0, e.entries[i].1) && NothingInClear(box, e.entries[i].1)
      {
        var (key, v) := entries[i];
        if Protects(box, key, v) {
          var nonce: Bytes :| |nonce| == NONCE_SIZE
            && Encrypt(box, material, nonce, v.text) == Some(e.entries[i].1.text);
          EnvelopeRoundTrip(box, material, nonce, v.text);
        } else {
          NothingStaysInClear(box, material, v, e.entries[i].1);
        }
      }
    case JList(items) =>
      forall i | 0 <= i < |items| ensures NothingInClear(box, e.items[i]) {
        NothingStaysInClear(box, material, items[i], e.items[i]);
      }
    case _ =>
  }

  // A value with nothing in clear encrypts to itself only, and its encryption cannot fail.
  lemma {:induction false} SealedIsFixed(box: Box, material: string, e: Json, e2: Json)
    requires NothingInClear(box, e)
    ensures CanEncrypt(box, material, e)
    ensures Encrypts(box, material, e, e2) <==> e2 == e
    decreases e
  {
    hide Encrypt, LooksEncrypted, IsSensitive;
    match e
    case JDict(entries) =>
      var like := e2.JDict? && |e2.entries| == |entries|;
      forall i | 0 <= i < |entries|
        ensures FieldCanEncrypt(box, material, entries[i].0, entries[i].1)
        ensures like ==> (FieldEncrypts(box, material, entries[i].0, entries[i].1, e2.entries[i].1)
                          <==> e2.entries[i].1 == entries[i].1)
      {
        SealedIsFixed(box, material, entries[i].1, if like then e2.entries[i].1 else e);
      }
      assert like && Encrypts(box, material, e, e2) ==> e2.entries == entries;
    case JList(items) =>
      var like := e2.JList? && |e2.items| == |items|;
      forall i | 0 <= i < |items|
        ensures CanEncrypt(box, material, items[i])
        ensures like ==> (Encrypts(box, material, items[i], e2.items[i]) <==> e2.items[i] == items[i])
      {
        SealedIsFixed(box, material, items[i], if like then e2.items[i] else e);
      }
      assert like && Encrypts(box, material, e, e2) ==> e2.items == items;
    case _ =>
  }

  // Encryption is idempotent: encrypting again changes nothing, whatever the nonces, and cannot fail.
  lemma EncryptionIsIdempotent(box: Box, material: string, t: Json, e: Json, e2: Json)
    requires Lawful(box) && Encrypts(box, material, t, e)
    ensures CanEncrypt(box, material, e)
    ensures Encrypts(box, material, e, e2) <==> e2 == e
  {
    NothingStaysInClear(box, material, t, e);
    SealedIsFixed(box, material, e, e2);
  }

  // Encryption changes texts only: names, order, nesting and every other value stay.
  function Shape(t: Json): Json {
    match t
    case JStr(_) => JStr("")
    case JDict(entries) => JDict(seq(|entries|, i requires 0 <= i < |entries| => (entries[i].0, Shape(entries[i].1))))
    case JList(items) => JList(seq(|items|, i requires 0 <= i < |items| => Shape(items[i])))
    case _ => t
  }

  lemma {:induction false} ShapeIsKept(box: Box, material: string, t: Json, e: Json)
    requires Encrypts(box, material, t, e)
    ensures Shape(e) == Shape(t)
    decreases t
  {
    hide Encrypt, LooksEncrypted, IsSensitive;
    match t
    case JDict(entries) =>
      forall i | 0 <= i < |entries| ensures Shape(e.entries[i].1) == Shape(entries[i].1) {
        if !Protects(box, entries[i].0, entries[i].1) {
          ShapeIsKept(box, material, entries[i].1, e.entries[i].1);
        }
      }
    case JList(items) =>
      forall i | 0 <= i < |items| ensures Shape(e.items[i]) == Shape(items[i]) {
        ShapeIsKept(box, material, items[i], e.items[i]);
      }
    case _ =>
  }

  // Encryption leaves alone every string of a list, and every dict string that is empty, already in an
  // envelope, or under a name that is not sensitive.
  predicate OnlySecretsChange(box: Box, t: Json, e: Json) {
    match t
    case JDict(entries) =>
      && e.JDict? && |e.entries| == |entries|
      && forall i :: 0 <= i < |entries| ==>
           var (key, v) := entries[i];
           && e.entries[i].0 == key && OnlySecretsChange(box, v, e.entries[i].1)
           && (e.entries[i].1 != v && v.JStr? ==> IsSensitive(box, key) && v.text != "" && !LooksEncrypted(v.text))
    case JList(items) =>
      && e.JList? && |e.items| == |items|
      && forall i :: 0 <= i < |items| ==>
           OnlySecretsChange(box, items[i], e.items[i]) && (items[i].JStr? ==> e.items[i] == items[i])
    case JStr(_) => e.JStr?
    case _ => e == t
  }

  lemma {:induction false} OthersAreKept(box: Box, material: string, t: Json, e: Json)
    requires Encrypts(box, material, t, e)
    ensures OnlySecretsChange(box, t, e)
    decreases t
  {
    hide Encrypt, LooksEncrypted, IsSensitive;
    match t
    case JDict(entries) =>
      forall i | 0 <= i < |entries|
        ensures
          var (key, v) := entries[i];
          && OnlySecretsChange(box, v, e.entries[i].1)
          && (e.entries[i].1 != v && v.JStr? ==> IsSensitive(box, key) && v.text != "" && !LooksEncrypted(v.text))
      {
        if !Protects(box, entries[i].0, entries[i].1) {
          OthersAreKept(box, material, entries[i].1, e.entries[i].1);
        }
      }
    case JList(items) =>
      forall i | 0 <= i < |items| ensures OnlySecretsChange(box, items[i], e.items[i]) {
        OthersAreKept(box, material, items[i], e.items[i]);
      }
    case _ =>
  }
}
