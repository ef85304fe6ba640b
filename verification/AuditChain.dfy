// The audit-log hash chain: how a row is hashed and a list of rows verified
// (agenticos_shared/audit_chain.py), and how the gateway appends rows (api_gateway/audit_bus.py).
//
// SHA-256, json.dumps, str(UUID) and isoformat are functions given by a `Codec`; what a theorem
// needs of them is stated where it is needed.
module AuditChain {
  import opened Common

  datatype Field =
    | Id | TenantId | WorkspaceId | ActorId | ActorEmail | Action | ResourceType | ResourceId
    | RequestId | Ip | UserAgent | Decision | Reason | Payload | CreatedAt
    | Unhashed(column: nat)

  const HASHED_FIELDS: seq<Field> :=
    [Id, TenantId, WorkspaceId, ActorId, ActorEmail, Action, ResourceType, ResourceId,
     RequestId, Ip, UserAgent, Decision, Reason, Payload, CreatedAt]

  // A column value. A datetime is its wall-clock time and its UTC offset, if it carries one; a number
  // is the text it prints as; a dict keeps its entries in the order they were added.
  datatype Value =
    | Null
    | Bool(flag: bool)
    | Number(printed: string)
    | Text(text: string)
    | Uuid(id: nat)
    | DateTime(wall: int, offset: Option<int>)
    | Dict(entries: seq<(string, Value)>)
    | List(items: seq<Value>)

  // What a coerced value prints as. Keys are sorted when a dict is printed, so only the value under
  // each key matters, not the order of the entries.
  datatype Canon =
    | CNull
    | CBool(flag: bool)
    | CNumber(printed: string)
    | CText(text: string)
    | CList(items: seq<Canon>)
    | CDict(entries: map<string, Canon>)

  datatype Row = Row(
    id: nat,
    createdAt: int,
    columns: map<Field, Value>,
    prevHash: Option<string>,
    eventHash: Option<string>)

  datatype Codec = Codec(
    uuid: nat -> string,
    iso: int -> string,
    dumps: map<Field, Canon> -> string,
    sha: string -> string)

  function Genesis(): (s: string)
    ensures |s| == 64 && forall i :: 0 <= i < 64 ==> s[i] == '0'
  {
    seq(64, _ => '0')
  }

  // ----- Hashing a row -----

  function Names(entries: seq<(string, Value)>): set<string> {
    set e <- entries :: e.0
  }

  // Where a name stands; an entry added later under the same name replaces the one before.
  function Place(entries: seq<(string, Value)>, name: string): (i: nat)
    requires name in Names(entries)
    ensures i < |entries| && entries[i].0 == name && forall j :: i < j < |entries| ==> entries[j].0 != name
  {
    if entries[|entries| - 1].0 == name then |entries| - 1
    else
      assert entries == entries[..|entries| - 1] + [entries[|entries| - 1]];
      Place(entries[..|entries| - 1], name)
  }

  function Coerce(c: Codec, v: Value): Canon {
    match v
    case Null => CNull
    case Bool(flag) => CBool(flag)
    case Number(printed) => CNumber(printed)
    case Text(text) => CText(text)
    case Uuid(id) => CText(c.uuid(id))
    case DateTime(wall, offset) => CText(c.iso(wall - offset.GetOr(0)))
    case Dict(entries) => CDict(map name <- Names(entries) :: Coerce(c, entries[Place(entries, name)].1))
    case List(items) => CList(seq(|items|, i requires 0 <= i < |items| => Coerce(c, items[i])))
  }

  function Get(row: Row, f: Field): Value {
    if f == Id then Uuid(row.id)
    else if f == CreatedAt then DateTime(row.createdAt, Some(0))
    else if f in row.columns then row.columns[f]
    else Null
  }

  function Canonical(c: Codec, row: Row): map<Field, Canon> {
    map f | f in HASHED_FIELDS :: Coerce(c, Get(row, f))
  }

  // Values that name the same thing: a datetime without an offset is the UTC time it shows, and a
  // dict is what it holds under each name, in whatever order.
  predicate Alike(a: Value, b: Value) {
    match (a, b)
    case (DateTime(w, o), DateTime(x, p)) => w - o.GetOr(0) == x - p.GetOr(0)
    case (Dict(m), Dict(n)) =>
      && Names(m) == Names(n)
      && forall name <- Names(m) :: Alike(m[Place(m, name)].1, n[Place(n, name)].1)
    case (List(m), List(n)) => |m| == |n| && forall i :: 0 <= i < |m| ==> Alike(m[i], n[i])
    case _ => a == b
  }

  lemma {:induction false} AlikeCoercesAlike(c: Codec, a: Value, b: Value)
    requires Alike(a, b)
    ensures Coerce(c, a) == Coerce(c, b)
  {
    match (a, b)
    case (Dict(m), Dict(n)) =>
      hide Names, Place, Alike;
      forall name | name in Names(m) && name in Names(n) && Alike(m[Place(m, name)].1, n[Place(n, name)].1)
        ensures Coerce(c, m[Place(m, name)].1) == Coerce(c, n[Place(n, name)].1)
      {
        AlikeCoercesAlike(c, m[Place(m, name)].1, n[Place(n, name)].1);
      }
    case (List(m), List(n)) =>
      forall i | 0 <= i < |m| ensures Coerce(c, m[i]) == Coerce(c, n[i]) {
        AlikeCoercesAlike(c, m[i], n[i]);
      }
    case _ =>
  }

  // Two orders of the same entries are alike.
  lemma ReorderedIsAlike(m: seq<(string, Value)>, n: seq<(string, Value)>)
    requires multiset(m) == multiset(n)
    requires forall i, j :: 0 <= i < j < |m| ==> m[i].0 != m[j].0
    requires forall i, j :: 0 <= i < j < |n| ==> n[i].0 != n[j].0
    ensures Alike(Dict(m), Dict(n))
  {
    forall e ensures e in m <==> e in n {
      assert e in multiset(m) <==> e in multiset(n);
    }
    forall name | name in Names(m) ensures m[Place(m, name)] == n[Place(n, name)] {
      var e := m[Place(m, name)];
      assert e in n;
      var j :| 0 <= j < |n| && n[j] == e;
      assert j == Place(n, name);
    }
    forall name | name in Names(m) ensures Alike(m[Place(m, name)].1, n[Place(n, name)].1) {
      AlikeItself(m[Place(m, name)].1);
    }
  }

  lemma {:induction false} AlikeItself(v: Value)
    ensures Alike(v, v)
  {
    match v
    case Dict(entries) =>
      forall name | name in Names(entries)
        ensures Alike(entries[Place(entries, name)].1, entries[Place(entries, name)].1)
      {
        AlikeItself(entries[Place(entries, name)].1);
      }
    case List(items) =>
      forall i | 0 <= i < |items| ensures Alike(items[i], items[i]) {
        AlikeItself(items[i]);
      }
    case _ =>
  }

  // Rows whose hashed columns name the same things hash the same, whatever their other columns,
  // however their datetimes are tagged and in whatever order their dicts are.
  lemma AlikeRowsHashAlike(c: Codec, prev: string, a: Row, b: Row)
    requires forall f <- HASHED_FIELDS :: Alike(Get(a, f), Get(b, f))
    ensures EventHash(c, prev, a) == EventHash(c, prev, b)
  {
    forall f | f in HASHED_FIELDS ensures Coerce(c, Get(a, f)) == Coerce(c, Get(b, f)) {
      AlikeCoercesAlike(c, Get(a, f), Get(b, f));
    }
    assert Canonical(c, a) == Canonical(c, b);
  }

  // A column as the row holds it; one that is not set is Null.
  function Column(row: Row, f: Field): Value {
    if f in row.columns then row.columns[f] else Null
  }

  lemma NamedFields(f: Field)
    ensures f in HASHED_FIELDS <==> !f.Unhashed?
  {
    var fields := HASHED_FIELDS;
    assert fields[0] == Id && fields[1] == TenantId && fields[2] == WorkspaceId && fields[3] == ActorId;
    assert fields[4] == ActorEmail && fields[5] == Action && fields[6] == ResourceType && fields[7] == ResourceId;
    assert fields[8] == RequestId && fields[9] == Ip && fields[10] == UserAgent && fields[11] == Decision;
    assert fields[12] == Reason && fields[13] == Payload && fields[14] == CreatedAt;
  }

  // Every named column is hashed, under its name; the others are not.
  lemma NamedColumnsAreHashed(c: Codec, row: Row, f: Field)
    ensures f in Canonical(c, row) <==> !f.Unhashed?
    ensures f == Id ==> Canonical(c, row)[f] == CText(c.uuid(row.id))
    ensures f == CreatedAt ==> Canonical(c, row)[f] == CText(c.iso(row.createdAt))
    ensures !f.Unhashed? && f != Id && f != CreatedAt ==> Canonical(c, row)[f] == Coerce(c, Column(row, f))
  {
    NamedFields(f);
    assert Coerce(c, Uuid(row.id)) == CText(c.uuid(row.id));
    assert Coerce(c, DateTime(row.createdAt, Some(0))) == CText(c.iso(row.createdAt));
    hide Coerce;
  }

  // Texts, uuids and datetimes hash as the text they print as.
  function PrintedText(c: Codec, v: Value): Option<string> {
    match v
    case Text(text) => Some(text)
    case Uuid(id) => Some(c.uuid(id))
    case DateTime(wall, None) => Some(c.iso(wall))
    case DateTime(wall, Some(offset)) => Some(c.iso(wall - offset))
    case _ => None
  }

  // Values that read the same: the same texts, flags and numbers, in the same lists and under the same
  // names.
  predicate ReadsAlike(c: Codec, a: Value, b: Value) {
    match (a, b)
    case (Dict(m), Dict(n)) =>
      && Names(m) == Names(n)
      && forall name <- Names(m) :: ReadsAlike(c, m[Place(m, name)].1, n[Place(n, name)].1)
    case (List(m), List(n)) => |m| == |n| && forall i :: 0 <= i < |m| ==> ReadsAlike(c, m[i], n[i])
    case _ =>
      if PrintedText(c, a).Some? then PrintedText(c, b) == PrintedText(c, a) else PrintedText(c, b) == None && a == b
  }

  // Coercion keeps exactly what a value reads as.
  lemma {:induction false} CoercionReads(c: Codec, a: Value, b: Value)
    ensures Coerce(c, a) == Coerce(c, b) <==> ReadsAlike(c, a, b)
  {
    match (a, b)
    case (Dict(m), Dict(n)) =>
      forall name | name in Names(m) && name in Names(n)
        ensures Coerce(c, m[Place(m, name)].1) == Coerce(c, n[Place(n, name)].1)
           <==> ReadsAlike(c, m[Place(m, name)].1, n[Place(n, name)].1)
      {
        CoercionReads(c, m[Place(m, name)].1, n[Place(n, name)].1);
      }
      DictsAgree(c, m, n);
    case (List(m), List(n)) =>
      var x, y := Coerce(c, a).items, Coerce(c, b).items;
      forall i | 0 <= i < |m| && i < |n| ensures x[i] == y[i] <==> ReadsAlike(c, m[i], n[i]) {
        CoercionReads(c, m[i], n[i]);
      }
      assert x == y <==> |m| == |n| && forall i :: 0 <= i < |m| ==> x[i] == y[i];
    case _ =>
  }

  lemma DictsAgree(c: Codec, m: seq<(string, Value)>, n: seq<(string, Value)>)
    ensures Coerce(c, Dict(m)) == Coerce(c, Dict(n))
       <==> && Names(m) == Names(n)
            && forall name <- Names(m) :: Coerce(c, m[Place(m, name)].1) == Coerce(c, n[Place(n, name)].1)
  {
    var x, y := Coerce(c, Dict(m)).entries, Coerce(c, Dict(n)).entries;
    assert x.Keys == Names(m) && y.Keys == Names(n);
    hide Names, Place;
    if x == y {
      forall name | name in Names(m) ensures Coerce(c, m[Place(m, name)].1) == Coerce(c, n[Place(n, name)].1) {
        assert x[name] == y[name];
      }
    }
  }

  // Rows that read alike in every named column.
  ghost predicate RowsReadAlike(c: Codec, a: Row, b: Row) {
    && c.uuid(a.id) == c.uuid(b.id) && c.iso(a.createdAt) == c.iso(b.createdAt)
    && forall f: Field :: !f.Unhashed? && f != Id && f != CreatedAt ==> ReadsAlike(c, Column(a, f), Column(b, f))
  }

  lemma CanonicalReads(c: Codec, a: Row, b: Row)
    ensures Canonical(c, a) == Canonical(c, b) <==> RowsReadAlike(c, a, b)
  {
    hide Coerce, Canonical, ReadsAlike, Column;
    forall f: Field
      ensures f in Canonical(c, a) <==> !f.Unhashed?
      ensures f in Canonical(c, b) <==> !f.Unhashed?
      ensures f == Id ==> (Canonical(c, a)[f] == Canonical(c, b)[f] <==> c.uuid(a.id) == c.uuid(b.id))
      ensures f == CreatedAt ==>
                (Canonical(c, a)[f] == Canonical(c, b)[f] <==> c.iso(a.createdAt) == c.iso(b.createdAt))
      ensures !f.Unhashed? && f != Id && f != CreatedAt ==>
                (Canonical(c, a)[f] == Canonical(c, b)[f] <==> ReadsAlike(c, Column(a, f), Column(b, f)))
    {
      NamedColumnsAreHashed(c, a, f);
      NamedColumnsAreHashed(c, b, f);
      CoercionReads(c, Column(a, f), Column(b, f));
    }
    var x, y := Canonical(c, a), Canonical(c, b);
    assert x.Keys == y.Keys;
    if x == y {
      assert Id in x && CreatedAt in x;
      forall f: Field | !f.Unhashed? && f != Id && f != CreatedAt ensures ReadsAlike(c, Column(a, f), Column(b, f)) {
        assert x[f] == y[f];
      }
    }
    if RowsReadAlike(c, a, b) {
      forall f | f in x ensures x[f] == y[f] {
      }
    }
  }

  method CanonicalPayload(c: Codec, row: Row) returns (out: map<Field, Canon>)
    ensures out == Canonical(c, row)
  {
    out := map[];
    for i := 0 to |HASHED_FIELDS|
      invariant forall f :: f in out <==> f in HASHED_FIELDS[..i]
      invariant forall f :: f in out ==> out[f] == Coerce(c, Get(row, f))
    {
      out := out[HASHED_FIELDS[i] := Coerce(c, Get(row, HASHED_FIELDS[i]))];
    }
  }

  function HashInput(c: Codec, prev: string, row: Row): string {
    prev + c.dumps(Canonical(c, row))
  }

  function EventHash(c: Codec, prev: string, row: Row): string {
    c.sha(HashInput(c, prev, row))
  }

  // ----- Verifying a list of rows -----

  datatype Fault =
    | PrevMismatch(id: string, expected: string, got: string)
    | HashMismatch(id: string, expected: string, got: string)

  datatype Report = Report(ok: bool, checked: nat, okCount: nat, brokenCount: nat, broken: seq<Fault>)

  // The hash a row should link to: that of the nearest hashed row before it, else genesis.
  function Link(rows: seq<Row>): string {
    if rows == [] then Genesis()
    else
      match rows[|rows| - 1].eventHash
      case Some(h) => h
      case None => Link(rows[..|rows| - 1])
  }

  // What is wrong with a row that should link to `prev`; nothing is said of rows without a hash.
  function Check(c: Codec, prev: string, row: Row): Option<Fault> {
    if row.eventHash.None? then None
    else if row.prevHash.Some? && row.prevHash.value != prev then
      Some(PrevMismatch(c.uuid(row.id), prev, row.prevHash.value))
    else if row.eventHash.value != EventHash(c, prev, row) then
      Some(HashMismatch(c.uuid(row.id), EventHash(c, prev, row), row.eventHash.value))
    else None
  }

  function Faults(c: Codec, rows: seq<Row>): seq<Fault> {
    if rows == [] then []
    else
      var before := rows[..|rows| - 1];
      Faults(c, before)
      + match Check(c, Link(before), rows[|rows| - 1])
        case Some(fault) => [fault]
        case None => []
  }

  function Hashed(rows: seq<Row>): seq<Row> {
    if rows == [] then []
    else
      var r := rows[|rows| - 1];
      Hashed(rows[..|rows| - 1]) + if r.eventHash.Some? then [r] else []
  }

  method VerifyChain(c: Codec, rows: seq<Row>) returns (report: Report)
    ensures report.broken == Faults(c, rows)
    ensures report.okCount + report.brokenCount == report.checked == |Hashed(rows)|
    ensures report.brokenCount == |report.broken| && (report.ok <==> report.broken == [])
  {
    var prev, okCount: nat, broken := Genesis(), 0, [];
    for i := 0 to |rows|
      invariant prev == Link(rows[..i]) && broken == Faults(c, rows[..i])
      invariant okCount + |broken| == |Hashed(rows[..i])|
    {
      assert rows[..i + 1][..i] == rows[..i];
      var row := rows[i];
      if row.eventHash.None? {
        continue;
      }
      var expected := EventHash(c, prev, row);
      if row.prevHash != None && row.prevHash != Some(prev) {
        broken := broken + [PrevMismatch(c.uuid(row.id), prev, row.prevHash.value)];
      } else if row.eventHash.value != expected {
        broken := broken + [HashMismatch(c.uuid(row.id), expected, row.eventHash.value)];
      } else {
        okCount := okCount + 1;
      }
      prev := row.eventHash.value;
    }
    assert rows[..|rows|] == rows;
    report := Report(broken == [], okCount + |broken|, okCount, |broken|, broken);
  }

  // ----- What the report means -----

  lemma RowSnoc(c: Codec, rows: seq<Row>, r: Row)
    ensures Faults(c, rows + [r])
      == match Check(c, Link(rows), r)
         case Some(fault) => Faults(c, rows) + [fault]
         case None => Faults(c, rows)
    ensures Link(rows + [r]) == r.eventHash.GetOr(Link(rows))
    ensures Hashed(rows + [r]) == if r.eventHash.Some? then Hashed(rows) + [r] else Hashed(rows)
  {
    assert (rows + [r])[..|rows|] == rows;
  }

  // A report without faults says, row by row, that every hashed row links to and matches.
  lemma {:induction false} CleanMeans(c: Codec, rows: seq<Row>)
    ensures Faults(c, rows) == [] <==> forall i :: 0 <= i < |rows| ==> Check(c, Link(rows[..i]), rows[i]) == None
  {
    if rows != [] {
      hide Check, Link;
      var before := rows[..|rows| - 1];
      CleanMeans(c, before);
      forall i | 0 <= i < |before| ensures before[..i] == rows[..i] && before[i] == rows[i] {}
      hide Faults;
      forall i | 0 <= i < |before|
        ensures Check(c, Link(before[..i]), before[i]) == None <==> Check(c, Link(rows[..i]), rows[i]) == None {}
    }
  }

  // Reading only the first k rows reports the faults found up to there, and no others.
  lemma {:induction false} PrefixReport(c: Codec, rows: seq<Row>, k: nat)
    requires k <= |rows|
    ensures Faults(c, rows[..k]) <= Faults(c, rows)
  {
    if k < |rows| {
      var before := rows[..|rows| - 1];
      PrefixReport(c, before, k);
      assert before[..k] == rows[..k];
    } else {
      assert rows[..k] == rows;
    }
  }

  // Rows written before the chain existed change nothing, wherever they stand.
  lemma {:induction false} UnhashedRowsChangeNothing(c: Codec, rows: seq<Row>)
    ensures Faults(c, rows) == Faults(c, Hashed(rows)) && Link(rows) == Link(Hashed(rows))
  {
    if rows != [] {
      var before := rows[..|rows| - 1];
      UnhashedRowsChangeNothing(c, before);
      assert rows == before + [rows[|rows| - 1]];
      RowSnoc(c, before, rows[|rows| - 1]);
      RowSnoc(c, Hashed(before), rows[|rows| - 1]);
    }
  }

  // Rewriting one row of a clean list without touching its hash columns is reported as exactly that
  // row, with the hash now expected of it, unless the new content hashes to the old value.
  lemma {:induction false} TamperingIsLocalised(c: Codec, rows: seq<Row>, i: nat, forged: Row)
    requires i < |rows| && Faults(c, rows) == []
    requires rows[i].eventHash.Some? && forged.eventHash == rows[i].eventHash && forged.prevHash == rows[i].prevHash
    ensures
      var expected := EventHash(c, Link(rows[..i]), forged);
      Faults(c, rows[i := forged])
        == if expected == rows[i].eventHash.value then []
           else [HashMismatch(c.uuid(forged.id), expected, rows[i].eventHash.value)]
    ensures Link(rows[i := forged]) == Link(rows)
  {
    hide Faults, Link, Canonical, HashInput;
    var before, last := rows[..|rows| - 1], rows[|rows| - 1];
    assert rows == before + [last];
    RowSnoc(c, before, last);
    if i < |before| {
      TamperingIsLocalised(c, before, i, forged);
      assert rows[i := forged] == before[i := forged] + [last];
      RowSnoc(c, before[i := forged], last);
      assert before[..i] == rows[..i];
    } else {
      assert rows[i := forged] == before + [forged];
      RowSnoc(c, before, forged);
    }
  }

  // Changing what any named column of a clean row reads as, and not its hash columns, is found: if the
  // digest tells the two contents apart, exactly that row is reported.
  lemma ColumnTamperingIsFound(c: Codec, rows: seq<Row>, i: nat, forged: Row)
    requires i < |rows| && Faults(c, rows) == []
    requires rows[i].eventHash.Some? && forged.eventHash == rows[i].eventHash && forged.prevHash == rows[i].prevHash
    requires !RowsReadAlike(c, rows[i], forged)
    requires
      var link := Link(rows[..i]);
      Canonical(c, rows[i]) != Canonical(c, forged) ==> EventHash(c, link, rows[i]) != EventHash(c, link, forged)
    ensures
      var expected := EventHash(c, Link(rows[..i]), forged);
      Faults(c, rows[i := forged]) == [HashMismatch(c.uuid(forged.id), expected, rows[i].eventHash.value)]
  {
    hide Faults, Link, Canonical, HashInput, RowsReadAlike;
    CanonicalReads(c, rows[i], forged);
    CleanMeans(c, rows);
    assert Check(c, Link(rows[..i]), rows[i]) == None;
    TamperingIsLocalised(c, rows, i, forged);
  }

  // Pointing a row of a clean list at anything but the hash before it is reported as exactly that.
  lemma {:induction false} RelinkingIsLocalised(c: Codec, rows: seq<Row>, i: nat, prev: string)
    requires i < |rows| && Faults(c, rows) == [] && rows[i].eventHash.Some? && prev != Link(rows[..i])
    ensures Faults(c, rows[i := rows[i].(prevHash := Some(prev))])
         == [PrevMismatch(c.uuid(rows[i].id), Link(rows[..i]), prev)]
    ensures Link(rows[i := rows[i].(prevHash := Some(prev))]) == Link(rows)
  {
    hide Faults, Link, Canonical, HashInput;
    var before, last := rows[..|rows| - 1], rows[|rows| - 1];
    var forged := rows[i].(prevHash := Some(prev));
    assert rows == before + [last];
    RowSnoc(c, before, last);
    if i < |before| {
      assert before[..i] == rows[..i];
      RelinkingIsLocalised(c, before, i, prev);
      assert rows[i := forged] == before[i := forged] + [last];
      RowSnoc(c, before[i := forged], last);
    } else {
      assert rows[i := forged] == before + [forged];
      RowSnoc(c, before, forged);
    }
  }

  // The hash right before position i: that of the nearest hashed row, or 64 zeroes.
  ghost predicate HashBefore(rows: seq<Row>, i: nat, h: string)
    requires i <= |rows|
  {
    || (exists j :: 0 <= j < i && rows[j].eventHash == Some(h) && forall k :: j < k < i ==> rows[k].eventHash == None)
    || (h == seq(64, _ => '0') && forall k :: 0 <= k < i ==> rows[k].eventHash == None)
  }

  lemma {:induction false} LinkIsHashBefore(rows: seq<Row>, i: nat)
    requires i <= |rows|
    ensures HashBefore(rows, i, Link(rows[..i]))
  {
    if i > 0 {
      LinkIsHashBefore(rows, i - 1);
      assert rows[..i][..i - 1] == rows[..i - 1];
    }
  }

  lemma HashBeforeIsUnique(rows: seq<Row>, i: nat, g: string, h: string)
    requires i <= |rows| && HashBefore(rows, i, g) && HashBefore(rows, i, h)
    ensures g == h
  {
  }

  // What a clean list is, row by row: each hashed row names the hash before it, or none, and holds the
  // digest of that hash followed by its printed contents.
  lemma CleanRowByRow(c: Codec, rows: seq<Row>)
    ensures Faults(c, rows) == [] <==>
      forall i, h :: 0 <= i < |rows| && rows[i].eventHash.Some? && HashBefore(rows, i, h) ==>
        && (rows[i].prevHash == None || rows[i].prevHash == Some(h))
        && rows[i].eventHash == Some(c.sha(h + c.dumps(Canonical(c, rows[i]))))
  {
    CleanMeans(c, rows);
    hide Faults, Link, Canonical, HashBefore;
    forall i, h | 0 <= i < |rows| && HashBefore(rows, i, h) ensures h == Link(rows[..i]) {
      LinkIsHashBefore(rows, i);
      HashBeforeIsUnique(rows, i, h, Link(rows[..i]));
    }
    forall i | 0 <= i < |rows| ensures HashBefore(rows, i, Link(rows[..i])) {
      LinkIsHashBefore(rows, i);
    }
  }

  // ----- Tamper evidence -----

  // What the hash must do for these theorems, on the inputs in question: digests are 64 characters
  // long, two of the inputs have the same digest only when they are the same, and no digest is genesis.
  ghost predicate Collisionless(c: Codec, inputs: set<string>) {
    && (forall x :: |c.sha(x)| == 64)
    && (forall x, y :: x in inputs && y in inputs && c.sha(x) == c.sha(y) ==> x == y)
    && (forall x :: x in inputs ==> c.sha(x) != Genesis())
  }

  // Rows of the two lists that print the same hold the same.
  ghost predicate PrintsTellApart(c: Codec, a: seq<Row>, b: seq<Row>) {
    forall r, s :: r in a && s in b && c.dumps(Canonical(c, r)) == c.dumps(Canonical(c, s)) ==>
      Canonical(c, r) == Canonical(c, s)
  }

  // The inputs the verifier hashes along a list.
  function Inputs(c: Codec, rows: seq<Row>): set<string> {
    if rows == [] then {}
    else
      var before := rows[..|rows| - 1];
      Inputs(c, before) + {HashInput(c, Link(before), rows[|rows| - 1])}
  }

  lemma SplitInput(p: string, x: string, q: string, y: string)
    requires |p| == |q| && p + x == q + y
    ensures p == q && x == y
  {
    assert (p + x)[..|p|] == p && (q + y)[..|q|] == q;
    assert (p + x)[|p|..] == x && (q + y)[|q|..] == y;
  }

  lemma {:induction false} HashedLength(rows: seq<Row>)
    ensures |Hashed(rows)| <= |rows| && (|Hashed(rows)| == |rows| ==> Hashed(rows) == rows)
  {
    if rows != [] {
      HashedLength(rows[..|rows| - 1]);
      assert rows == rows[..|rows| - 1] + [rows[|rows| - 1]];
    }
  }

  // A list of hashed rows that verifies.
  predicate Sealed(c: Codec, rows: seq<Row>) {
    Hashed(rows) == rows && Faults(c, rows) == []
  }

  lemma SealedSnoc(c: Codec, rows: seq<Row>)
    requires Sealed(c, rows) && rows != []
    ensures
      var before, r := rows[..|rows| - 1], rows[|rows| - 1];
      && Sealed(c, before) && r.eventHash == Some(Link(rows))
      && Link(rows) == c.sha(HashInput(c, Link(before), r))
      && Inputs(c, rows) == Inputs(c, before) + {HashInput(c, Link(before), r)}
  {
    HashedLength(rows);
    HashedLength(rows[..|rows| - 1]);
  }

  lemma LinkIsDigest(c: Codec, rows: seq<Row>)
    requires (forall x :: |c.sha(x)| == 64) && Sealed(c, rows)
    ensures |Link(rows)| == 64
  {
    if rows != [] {
      SealedSnoc(c, rows);
    }
  }

  lemma LastRowsAgree(c: Codec, a: seq<Row>, b: seq<Row>)
    requires a != [] && b != [] && Sealed(c, a) && Sealed(c, b) && Link(a) == Link(b)
    requires Collisionless(c, Inputs(c, a) + Inputs(c, b)) && PrintsTellApart(c, a, b)
    ensures
      var a0, b0 := a[..|a| - 1], b[..|b| - 1];
      && Sealed(c, a0) && Sealed(c, b0) && Link(a0) == Link(b0)
      && Collisionless(c, Inputs(c, a0) + Inputs(c, b0)) && PrintsTellApart(c, a0, b0)
      && Canonical(c, a[|a| - 1]) == Canonical(c, b[|b| - 1]) && a[|a| - 1].eventHash == b[|b| - 1].eventHash
  {
    hide Canonical, Hashed, Faults, Link, Inputs;
    var a0, b0 := a[..|a| - 1], b[..|b| - 1];
    var ra, rb := a[|a| - 1], b[|b| - 1];
    SealedSnoc(c, a);
    SealedSnoc(c, b);
    LinkIsDigest(c, a0);
    LinkIsDigest(c, b0);
    assert HashInput(c, Link(a0), ra) == HashInput(c, Link(b0), rb);
    SplitInput(Link(a0), c.dumps(Canonical(c, ra)), Link(b0), c.dumps(Canonical(c, rb)));
  }

  // Two clean lists of hashed rows that end in the same hash are equally long and agree, row by row,
  // on every hashed field, as far as its printed form goes.
  lemma {:induction false} LastHashPinsTheLog(c: Codec, a: seq<Row>, b: seq<Row>)
    requires Sealed(c, a) && Sealed(c, b) && Link(a) == Link(b)
    requires Collisionless(c, Inputs(c, a) + Inputs(c, b)) && PrintsTellApart(c, a, b)
    ensures |a| == |b|
    ensures forall i :: 0 <= i < |a| ==> Canonical(c, a[i]) == Canonical(c, b[i]) && a[i].eventHash == b[i].eventHash
  {
    if a != [] && b != [] {
      hide Canonical, Sealed, Link, Inputs, Collisionless, PrintsTellApart;
      LastRowsAgree(c, a, b);
      LastHashPinsTheLog(c, a[..|a| - 1], b[..|b| - 1]);
    } else if a != [] {
      SealedSnoc(c, a);
    } else if b != [] {
      SealedSnoc(c, b);
    }
  }

  // So they read alike, column by column.
  lemma LastHashPinsEveryColumn(c: Codec, a: seq<Row>, b: seq<Row>, i: nat)
    requires Sealed(c, a) && Sealed(c, b) && Link(a) == Link(b)
    requires Collisionless(c, Inputs(c, a) + Inputs(c, b)) && PrintsTellApart(c, a, b)
    requires i < |a|
    ensures |a| == |b| && RowsReadAlike(c, a[i], b[i])
  {
    hide Canonical, Sealed, Link, Inputs, Collisionless, PrintsTellApart, RowsReadAlike;
    LastHashPinsTheLog(c, a, b);
    CanonicalReads(c, a[i], b[i]);
  }

  // ----- Appending rows -----

  datatype Event = Event(id: nat, createdAt: int, columns: map<Field, Value>)

  // ORDER BY created_at, id
  predicate Before(a: Row, b: Row) {
    a.createdAt < b.createdAt || (a.createdAt == b.createdAt && a.id < b.id)
  }

  // The last hashed row in that order.
  function Latest(rows: seq<Row>): Option<Row> {
    if rows == [] then None
    else
      var r := rows[|rows| - 1];
      var best := Latest(rows[..|rows| - 1]);
      if r.eventHash.None? || (best.Some? && Before(r, best.value)) then best else Some(r)
  }

  function Chained(c: Codec, prev: string, e: Event): Row {
    var row := Row(e.id, e.createdAt, e.columns, Some(prev), None);
    row.(eventHash := Some(EventHash(c, prev, row)))
  }

  // `last_hash or GENESIS_HASH`
  function PrevFor(rows: seq<Row>): string {
    match Latest(rows)
    case Some(r) => if r.eventHash.GetOr("") != "" then r.eventHash.value else Genesis()
    case None => Genesis()
  }

  // The table after one more event. An id already taken violates the primary key, and the failed
  // insert is swallowed.
  function Emitted(c: Codec, rows: seq<Row>, e: Event): seq<Row> {
    if exists r <- rows :: r.id == e.id then rows else rows + [Chained(c, PrevFor(rows), e)]
  }

  function EmittedAll(c: Codec, rows: seq<Row>, events: seq<Event>): seq<Row> {
    if events == [] then rows
    else Emitted(c, EmittedAll(c, rows, events[..|events| - 1]), events[|events| - 1])
  }

  function Insert(sorted: seq<Row>, r: Row): seq<Row> {
    if sorted == [] || Before(sorted[|sorted| - 1], r) then sorted + [r]
    else Insert(sorted[..|sorted| - 1], r) + [sorted[|sorted| - 1]]
  }

  // The rows as the verify route reads them.
  function Ordered(rows: seq<Row>): seq<Row> {
    if rows == [] then [] else Insert(Ordered(rows[..|rows| - 1]), rows[|rows| - 1])
  }

  // The audit_event table, its rows in insertion order.
  class AuditLog {
    var rows: seq<Row>

    constructor (legacy: seq<Row>)
      ensures rows == legacy
    {
      rows := legacy;
    }

    // GatewayAuditEmitter.emit, the database write.
    method Emit(c: Codec, e: Event)
      modifies this
      ensures rows == Emitted(c, old(rows), e)
    {
      var prev := Genesis();
      var latest := Latest(rows);
      if latest.Some? && latest.value.eventHash.GetOr("") != "" {
        prev := latest.value.eventHash.value;
      }
      if exists r <- rows :: r.id == e.id {
        return;
      }
      var row := Row(e.id, e.createdAt, e.columns, Some(prev), None);
      rows := rows + [row.(eventHash := Some(EventHash(c, prev, row)))];
    }

    // The verify route: the first `limit` rows in order.
    method Verify(c: Codec, limit: nat) returns (report: Report)
      ensures report.broken == Faults(c, Take(Ordered(rows), limit)) <= Faults(c, Ordered(rows))
      ensures report.ok <==> report.broken == []
    {
      var view := Take(Ordered(rows), limit);
      report := VerifyChain(c, view);
      PrefixReport(c, Ordered(rows), |view|);
    }
  }
}
