// When a log written by sequential emits verifies: exactly when the events were emitted in
// (created_at, id) order.
module AuditEmission {
  import opened Common
  import opened AuditChain

  // ----- Assumptions -----

  // No id occurs twice among the rows already there and the events to come.
  ghost predicate FreshIds(legacy: seq<Row>, events: seq<Event>) {
    && (forall i, j :: 0 <= i < j < |events| ==> events[i].id != events[j].id)
    && (forall i, j :: 0 <= i < j < |legacy| ==> legacy[i].id != legacy[j].id)
    && (forall i, j :: 0 <= i < |legacy| && 0 <= j < |events| ==> legacy[i].id != events[j].id)
  }

  // What was hashed when these rows were emitted.
  function EmitInputs(c: Codec, rows: seq<Row>): set<string> {
    set r <- rows :: HashInput(c, r.prevHash.GetOr(""), r)
  }

  // Rows that print the same have the same id.
  ghost predicate PrintsTellIds(c: Codec, rows: seq<Row>) {
    forall r, s :: r in rows && s in rows && c.dumps(Canonical(c, r)) == c.dumps(Canonical(c, s)) ==> r.id == s.id
  }

  predicate Earlier(a: Event, b: Event) {
    a.createdAt < b.createdAt || (a.createdAt == b.createdAt && a.id < b.id)
  }

  predicate InOrder(events: seq<Event>) {
    forall i :: 0 < i < |events| ==> Earlier(events[i - 1], events[i])
  }

  // ----- The rows a run of emits adds -----

  // Row i of an emitted log is chained to the latest of the rows before it.
  ghost predicate Shape(c: Codec, rows: seq<Row>, events: seq<Event>) {
    |rows| == |events| && forall i :: 0 <= i < |rows| ==> rows[i] == Chained(c, PrevFor(rows[..i]), events[i])
  }

  lemma LatestIgnoresUnhashed(legacy: seq<Row>, rows: seq<Row>)
    requires Hashed(legacy) == []
    ensures Latest(legacy + rows) == Latest(rows)
    decreases |legacy| + |rows|
  {
    if rows != [] {
      LatestIgnoresUnhashed(legacy, rows[..|rows| - 1]);
      assert (legacy + rows)[..|legacy + rows| - 1] == legacy + rows[..|rows| - 1];
    } else if legacy != [] {
      LatestIgnoresUnhashed(legacy[..|legacy| - 1], []);
      assert legacy + [] == legacy && legacy[..|legacy| - 1] + [] == legacy[..|legacy| - 1];
    }
  }

  lemma ShapeSnoc(c: Codec, rows: seq<Row>, events: seq<Event>, e: Event)
    requires Shape(c, rows, events)
    ensures Shape(c, rows + [Chained(c, PrevFor(rows), e)], events + [e])
  {
    hide Chained, PrevFor;
    var all := rows + [Chained(c, PrevFor(rows), e)];
    assert forall i :: 0 <= i <= |rows| ==> all[..i] == rows[..i];
    assert rows[..|rows|] == rows;
  }

  lemma EmitAdds(c: Codec, rows: seq<Row>, e: Event)
    requires forall r <- rows :: r.id != e.id
    ensures Emitted(c, rows, e) == rows + [Chained(c, PrevFor(rows), e)]
  {
  }

  lemma IdNotTaken(c: Codec, legacy: seq<Row>, rows: seq<Row>, events: seq<Event>, e: Event)
    requires FreshIds(legacy, events + [e]) && Shape(c, rows, events)
    ensures (forall r <- rows :: r.id != e.id) && (forall r <- legacy + rows :: r.id != e.id)
  {
    var all := events + [e];
    assert all[|events|] == e && forall i :: 0 <= i < |events| ==> all[i] == events[i];
  }

  lemma EmitStep(c: Codec, legacy: seq<Row>, rows: seq<Row>, events: seq<Event>, e: Event)
    requires Hashed(legacy) == [] && FreshIds(legacy, events + [e]) && Shape(c, rows, events)
    ensures Emitted(c, legacy + rows, e) == legacy + Emitted(c, rows, e)
    ensures Shape(c, Emitted(c, rows, e), events + [e])
  {
    hide Emitted, Chained, Shape, FreshIds, Hashed, Latest;
    IdNotTaken(c, legacy, rows, events, e);
    EmitAdds(c, rows, e);
    EmitAdds(c, legacy + rows, e);
    LatestIgnoresUnhashed(legacy, rows);
    ShapeSnoc(c, rows, events, e);
  }

  // With fresh ids every emit adds a row, and the rows do not depend on the unhashed ones.
  lemma {:induction false} EmitsAppend(c: Codec, legacy: seq<Row>, events: seq<Event>)
    requires Hashed(legacy) == [] && FreshIds(legacy, events)
    ensures EmittedAll(c, legacy, events) == legacy + EmittedAll(c, [], events)
    ensures Shape(c, EmittedAll(c, [], events), events)
  {
    if events != [] {
      var before, e := events[..|events| - 1], events[|events| - 1];
      assert FreshIds(legacy, before);
      hide Emitted, Shape, FreshIds, Hashed;
      assert events == before + [e];
      EmitsAppend(c, legacy, before);
      EmitStep(c, legacy, EmittedAll(c, [], before), before, e);
    }
  }

  // The hash columns of an emitted row do not depend on what they end up holding.
  lemma ChainedHash(c: Codec, prev: string, e: Event)
    ensures Chained(c, prev, e).eventHash == Some(c.sha(HashInput(c, prev, Chained(c, prev, e))))
  {
    var row := Row(e.id, e.createdAt, e.columns, Some(prev), None);
    assert Canonical(c, row) == Canonical(c, Chained(c, prev, e));
  }

  // The latest hashed row is in the table, and no hashed row comes after it.
  lemma {:induction false} LatestMeans(rows: seq<Row>)
    ensures match Latest(rows)
            case Some(r) => r in rows && r.eventHash.Some? && forall x <- rows :: x.eventHash.Some? ==> !Before(r, x)
            case None => forall x <- rows :: x.eventHash == None
  {
    if rows != [] {
      LatestMeans(rows[..|rows| - 1]);
      assert rows == rows[..|rows| - 1] + [rows[|rows| - 1]];
    }
  }

  // What an emit adds: the event's columns under its id, linked to the latest hashed row, or to 64
  // zeroes, and the digest of that link followed by its printed contents.
  lemma EmitMeans(c: Codec, rows: seq<Row>, e: Event)
    requires forall r <- rows :: r.id != e.id
    ensures
      var row := Emitted(c, rows, e)[|rows|];
      && Emitted(c, rows, e) == rows + [row]
      && row.id == e.id && row.createdAt == e.createdAt && row.columns == e.columns
      && row.prevHash.Some? && row.eventHash == Some(c.sha(row.prevHash.value + c.dumps(Canonical(c, row))))
      && match Latest(rows)
         case Some(r) => r.eventHash != Some("") ==> row.prevHash == r.eventHash
         case None => row.prevHash == Some(seq(64, _ => '0'))
  {
    EmitAdds(c, rows, e);
    ChainedHash(c, PrevFor(rows), e);
    LatestMeans(rows);
    assert Genesis() == seq(64, _ => '0');
    hide Canonical, Latest, Genesis;
  }

  lemma LatestIsHashed(rows: seq<Row>)
    ensures Latest(rows).Some? ==> Latest(rows).value in rows && Latest(rows).value.eventHash.Some?
  {
  }

  // Every emitted row links with 64 characters and carries the digest of its own input.
  lemma {:induction false} EmittedRow(c: Codec, rows: seq<Row>, events: seq<Event>, i: nat)
    requires Shape(c, rows, events) && i < |rows| && forall x :: |c.sha(x)| == 64
    ensures rows[i].prevHash == Some(PrevFor(rows[..i])) && |PrevFor(rows[..i])| == 64
    ensures rows[i].eventHash == Some(c.sha(HashInput(c, PrevFor(rows[..i]), rows[i])))
    ensures rows[i].id == events[i].id && rows[i].createdAt == events[i].createdAt
  {
    ChainedHash(c, PrevFor(rows[..i]), events[i]);
    LatestIsHashed(rows[..i]);
    var latest := Latest(rows[..i]);
    if latest.Some? {
      var j :| 0 <= j < i && rows[..i][j] == latest.value;
      ChainedHash(c, PrevFor(rows[..j]), events[j]);
    }
  }

  // Two emitted rows with the same digest are the same row, and none has the genesis digest.
  lemma DigestsDiffer(c: Codec, rows: seq<Row>, events: seq<Event>, i: nat, j: nat)
    requires Shape(c, rows, events) && FreshIds([], events) && i < |rows| && j < |rows|
    requires Collisionless(c, EmitInputs(c, rows)) && PrintsTellIds(c, rows)
    ensures rows[i].eventHash == rows[j].eventHash ==> i == j
    ensures rows[i].eventHash != Some(Genesis())
  {
    EmittedRow(c, rows, events, i);
    EmittedRow(c, rows, events, j);
    hide Shape, Canonical, PrevFor;
    assert HashInput(c, rows[i].prevHash.GetOr(""), rows[i]) in EmitInputs(c, rows);
    assert HashInput(c, rows[j].prevHash.GetOr(""), rows[j]) in EmitInputs(c, rows);
    if rows[i].eventHash == rows[j].eventHash {
      var x, y := c.dumps(Canonical(c, rows[i])), c.dumps(Canonical(c, rows[j]));
      SplitInput(PrevFor(rows[..i]), x, PrevFor(rows[..j]), y);
    }
  }

  // ----- Reading in order -----

  ghost predicate Sorted(rows: seq<Row>) {
    forall i, j :: 0 <= i < j < |rows| ==> Before(rows[i], rows[j])
  }

  ghost predicate DistinctIds(rows: seq<Row>) {
    forall i, j :: 0 <= i < j < |rows| ==> rows[i].id != rows[j].id
  }

  lemma {:induction false} InsertKeeps(sorted: seq<Row>, r: Row)
    ensures multiset(Insert(sorted, r)) == multiset(sorted) + multiset{r}
  {
    if sorted != [] && !Before(sorted[|sorted| - 1], r) {
      InsertKeeps(sorted[..|sorted| - 1], r);
      assert sorted == sorted[..|sorted| - 1] + [sorted[|sorted| - 1]];
    }
  }

  lemma {:induction false} InsertSorts(sorted: seq<Row>, r: Row)
    requires Sorted(sorted) && forall i :: 0 <= i < |sorted| ==> sorted[i].id != r.id
    ensures Sorted(Insert(sorted, r)) && multiset(Insert(sorted, r)) == multiset(sorted) + multiset{r}
  {
    InsertKeeps(sorted, r);
    if sorted != [] && !Before(sorted[|sorted| - 1], r) {
      var before, last := sorted[..|sorted| - 1], sorted[|sorted| - 1];
      InsertSorts(before, r);
      SortedSnoc(Insert(before, r), before, r, last);
    }
  }

  lemma SortedSnoc(rows: seq<Row>, before: seq<Row>, r: Row, last: Row)
    requires Sorted(rows) && multiset(rows) == multiset(before) + multiset{r}
    requires Before(r, last) && forall i :: 0 <= i < |before| ==> Before(before[i], last)
    ensures Sorted(rows + [last])
  {
    forall i | 0 <= i < |rows| ensures Before(rows[i], last) {
      assert rows[i] in multiset(rows);
    }
  }

  lemma {:induction false} InsertHashed(sorted: seq<Row>, r: Row)
    requires Sorted(sorted)
    ensures Hashed(Insert(sorted, r)) == if r.eventHash.Some? then Insert(Hashed(sorted), r) else Hashed(sorted)
  {
    if sorted == [] || Before(sorted[|sorted| - 1], r) {
      HashedSnoc(sorted, r);
      HashedMembers(sorted);
      forall x | x in Hashed(sorted) ensures Before(x, r) {
        assert x == sorted[|sorted| - 1] || Before(x, sorted[|sorted| - 1]);
      }
    } else {
      var before, last := sorted[..|sorted| - 1], sorted[|sorted| - 1];
      assert sorted == before + [last];
      InsertHashed(before, r);
      HashedSnoc(before, last);
      HashedSnoc(Insert(before, r), last);
      assert (Hashed(before) + [last])[..|Hashed(before)|] == Hashed(before);
    }
  }

  lemma HashedSnoc(rows: seq<Row>, r: Row)
    ensures Hashed(rows + [r]) == if r.eventHash.Some? then Hashed(rows) + [r] else Hashed(rows)
  {
    assert (rows + [r])[..|rows|] == rows;
  }

  lemma HashedMembers(rows: seq<Row>)
    ensures forall x <- Hashed(rows) :: x in rows
  {
  }

  lemma {:induction false} OrderedSorts(rows: seq<Row>)
    requires DistinctIds(rows)
    ensures Sorted(Ordered(rows)) && multiset(Ordered(rows)) == multiset(rows)
  {
    if rows != [] {
      hide Insert, Sorted;
      var before, last := rows[..|rows| - 1], rows[|rows| - 1];
      assert rows == before + [last];
      OrderedSorts(before);
      forall i | 0 <= i < |Ordered(before)| ensures Ordered(before)[i].id != last.id {
        assert Ordered(before)[i] in multiset(before);
      }
      InsertSorts(Ordered(before), last);
    } else {
      assert Ordered(rows) == [];
    }
  }

  lemma {:induction false} OrderedHashed(rows: seq<Row>)
    requires DistinctIds(rows)
    ensures Hashed(Ordered(rows)) == Ordered(Hashed(rows))
  {
    if rows != [] {
      hide Insert, Sorted;
      var before, last := rows[..|rows| - 1], rows[|rows| - 1];
      assert rows == before + [last];
      OrderedHashed(before);
      OrderedSorts(before);
      InsertHashed(Ordered(before), last);
      HashedSnoc(before, last);
      assert (Hashed(before) + [last])[..|Hashed(before)|] == Hashed(before);
    }
  }

  // ----- The theorem -----

  lemma {:induction false} InOrderIsSorted(c: Codec, rows: seq<Row>, events: seq<Event>, i: nat, j: nat)
    requires Shape(c, rows, events) && InOrder(events) && i < j < |rows|
    ensures Before(rows[i], rows[j])
    decreases j - i
  {
    assert Earlier(events[j - 1], events[j]);
    if i < j - 1 {
      InOrderIsSorted(c, rows, events, i, j - 1);
    }
  }

  lemma {:induction false} AllHashed(legacy: seq<Row>, rows: seq<Row>)
    requires Hashed(legacy) == [] && forall r <- rows :: r.eventHash.Some?
    ensures Hashed(legacy + rows) == rows
  {
    if rows != [] {
      hide Hashed;
      var before, last := rows[..|rows| - 1], rows[|rows| - 1];
      assert rows == before + [last] && last in rows;
      AllHashed(legacy, before);
      assert legacy + rows == legacy + before + [last];
      HashedSnoc(legacy + before, last);
    } else {
      assert legacy + rows == legacy;
    }
  }

  // A sorted list of hashed rows is read back as it is, and its last row is the latest.
  lemma {:induction false} SortedIsOrdered(rows: seq<Row>)
    requires Sorted(rows) && forall r <- rows :: r.eventHash.Some?
    ensures Ordered(rows) == rows
    ensures rows != [] ==> Latest(rows) == Some(rows[|rows| - 1])
  {
    if rows != [] {
      var before := rows[..|rows| - 1];
      SortedIsOrdered(before);
      hide Ordered, Latest;
      assert rows == before + [rows[|rows| - 1]];
      LastIsLatest(before, rows[|rows| - 1]);
    }
  }

  lemma LastIsLatest(rows: seq<Row>, r: Row)
    requires Ordered(rows) == rows
    requires rows != [] ==> Latest(rows) == Some(rows[|rows| - 1]) && Before(rows[|rows| - 1], r)
    requires r.eventHash.Some?
    ensures Ordered(rows + [r]) == rows + [r] && Latest(rows + [r]) == Some(r)
  {
    assert (rows + [r])[..|rows|] == rows;
  }

  // Emitted in order, the rows link up: no fault.
  lemma {:induction false} InOrderIsClean(c: Codec, rows: seq<Row>, events: seq<Event>)
    requires Shape(c, rows, events) && InOrder(events) && forall x :: |c.sha(x)| == 64
    ensures Sorted(rows) && (forall r <- rows :: r.eventHash.Some?) && Faults(c, rows) == []
  {
    forall i, j | 0 <= i < j < |rows| ensures Before(rows[i], rows[j]) {
      InOrderIsSorted(c, rows, events, i, j);
    }
    forall i | 0 <= i < |rows| ensures rows[i].eventHash.Some? {
      EmittedRow(c, rows, events, i);
    }
    forall i | 0 <= i < |rows| ensures Check(c, Link(rows[..i]), rows[i]) == None {
      EmittedRow(c, rows, events, i);
      SortedIsOrdered(rows[..i]);
      if i > 0 {
        EmittedRow(c, rows, events, i - 1);
      }
    }
    CleanMeans(c, rows);
  }

  lemma ShapePrefix(c: Codec, rows: seq<Row>, events: seq<Event>, k: nat)
    requires Shape(c, rows, events) && k <= |rows|
    ensures Shape(c, rows[..k], events[..k])
  {
    assert forall i :: 0 <= i < k ==> rows[..k][..i] == rows[..i];
  }

  lemma LatestSoFar(c: Codec, rows: seq<Row>, events: seq<Event>, k: nat)
    requires Shape(c, rows, events) && (forall x :: |c.sha(x)| == 64) && 0 < k <= |rows| && InOrder(events[..k])
    ensures Latest(rows[..k]) == Some(rows[k - 1])
  {
    assert |events| == |rows|;
    hide Shape, PrevFor, Latest, Faults, Ordered;
    ShapePrefix(c, rows, events, k);
    InOrderIsClean(c, rows[..k], events[..k]);
    SortedIsOrdered(rows[..k]);
  }

  // As long as events come in order, the next row links to the row emitted just before.
  lemma LinksToPrevious(c: Codec, rows: seq<Row>, events: seq<Event>, k: nat)
    requires Shape(c, rows, events) && (forall x :: |c.sha(x)| == 64) && 0 < k < |rows| && InOrder(events[..k])
    ensures rows[k].eventHash.Some? && rows[k - 1].eventHash.Some? && rows[k].prevHash == rows[k - 1].eventHash
  {
    hide Shape, Chained, Canonical, Ordered, Latest, HashInput;
    LatestSoFar(c, rows, events, k);
    EmittedRow(c, rows, events, k);
    EmittedRow(c, rows, events, k - 1);
  }

  // The first event emitted out of order leaves a row that does not link to the row read before it.
  lemma DisorderIsFound(c: Codec, rows: seq<Row>, events: seq<Event>, k: nat)
    requires Shape(c, rows, events) && FreshIds([], events)
    requires Collisionless(c, EmitInputs(c, rows)) && PrintsTellIds(c, rows)
    requires 0 < k < |events| && InOrder(events[..k]) && !Earlier(events[k - 1], events[k])
    ensures Faults(c, Ordered(rows)) != []
  {
    hide Chained, Canonical, Ordered, Faults, PrevFor;
    LinksToPrevious(c, rows, events, k);
    EmittedRow(c, rows, events, k);
    EmittedRow(c, rows, events, k - 1);
    IdsOfRows(c, rows, events);
    OrderedSorts(rows);
    var view := Ordered(rows);
    assert rows[k] in multiset(rows);
    var p :| 0 <= p < |view| && view[p] == rows[k];
    NotLinkedTo(c, rows, events, k - 1, view, p);
    assert Check(c, Link(view[..p]), view[p]) != None;
    CleanMeans(c, view);
  }

  // Where the row read just before position p is not row k, position p does not link to row k.
  lemma NotLinkedTo(c: Codec, rows: seq<Row>, events: seq<Event>, k: nat, view: seq<Row>, p: nat)
    requires Shape(c, rows, events) && FreshIds([], events)
    requires Collisionless(c, EmitInputs(c, rows)) && PrintsTellIds(c, rows)
    requires k < |rows| && p < |view| && Sorted(view) && multiset(view) == multiset(rows) && !Before(rows[k], view[p])
    ensures Some(Link(view[..p])) != rows[k].eventHash
  {
    hide Shape, FreshIds, Collisionless, EmitInputs, PrintsTellIds;
    if p > 0 {
      assert view[p - 1] in multiset(rows);
      var j :| 0 <= j < |rows| && rows[j] == view[p - 1];
      Digests64(c, EmitInputs(c, rows));
      EmittedRow(c, rows, events, j);
      DigestsDiffer(c, rows, events, j, k);
      assert Link(view[..p]) == rows[j].eventHash.value;
    } else {
      DigestsDiffer(c, rows, events, k, k);
    }
  }

  lemma Digests64(c: Codec, inputs: set<string>)
    requires Collisionless(c, inputs)
    ensures forall x :: |c.sha(x)| == 64
  {
  }

  lemma IdsOfRows(c: Codec, rows: seq<Row>, events: seq<Event>)
    requires Shape(c, rows, events) && FreshIds([], events)
    ensures DistinctIds(rows)
  {
  }

  lemma {:induction false} FirstDisorder(events: seq<Event>) returns (k: nat)
    requires !InOrder(events)
    ensures 0 < k < |events| && InOrder(events[..k]) && !Earlier(events[k - 1], events[k])
  {
    var before := events[..|events| - 1];
    if InOrder(before) {
      k := |events| - 1;
    } else {
      k := FirstDisorder(before);
      assert before[..k] == events[..k];
    }
  }

  // A log that starts with any unhashed rows and then takes `events`, one emit after the other,
  // verifies without a fault exactly when the events came in strictly increasing (created_at, id)
  // order.
  lemma VerifiesIffInOrder(c: Codec, legacy: seq<Row>, events: seq<Event>)
    requires Hashed(legacy) == [] && FreshIds(legacy, events)
    requires Collisionless(c, EmitInputs(c, EmittedAll(c, [], events)))
    requires PrintsTellIds(c, EmittedAll(c, [], events))
    ensures Faults(c, Ordered(EmittedAll(c, legacy, events))) == [] <==> InOrder(events)
  {
    hide Shape, Ordered, Faults, EmittedAll, Collisionless, EmitInputs, PrintsTellIds;
    var rows := EmittedAll(c, [], events);
    EmitsAppend(c, legacy, events);
    Digests64(c, EmitInputs(c, rows));
    LegacyDropsOut(c, legacy, rows, events);
    if InOrder(events) {
      InOrderIsClean(c, rows, events);
      SortedIsOrdered(rows);
    } else {
      var k := FirstDisorder(events);
      DisorderIsFound(c, rows, events, k);
    }
  }

  lemma LegacyDropsOut(c: Codec, legacy: seq<Row>, rows: seq<Row>, events: seq<Event>)
    requires Hashed(legacy) == [] && FreshIds(legacy, events) && Shape(c, rows, events) && forall x :: |c.sha(x)| == 64
    ensures Faults(c, Ordered(legacy + rows)) == Faults(c, Ordered(rows))
  {
    TableIds(c, legacy, rows, events);
    hide Shape, Ordered, Faults, FreshIds;
    OrderedHashed(legacy + rows);
    forall r | r in rows ensures r.eventHash.Some? {
      var i :| 0 <= i < |rows| && rows[i] == r;
      EmittedRow(c, rows, events, i);
    }
    AllHashed(legacy, rows);
    UnhashedRowsChangeNothing(c, Ordered(legacy + rows));
  }

  lemma TableIds(c: Codec, legacy: seq<Row>, rows: seq<Row>, events: seq<Event>)
    requires Shape(c, rows, events) && FreshIds(legacy, events)
    ensures DistinctIds(legacy + rows)
  {
  }

  // ----- The assumptions can hold -----

  function IdText(n: nat): string { [(n % 0xD800) as char] }

  function PrintedId(m: map<Field, Canon>): string {
    if Id in m && m[Id].CText? then m[Id].text else ""
  }

  function LastCharacter(x: string): (digest: string)
    ensures |digest| == 64
    ensures x != "" ==> digest[0] == x[|x| - 1]
  {
    seq(64, _ => if x == "" then '1' else x[|x| - 1])
  }

  // A codec that prints a row as its id, one character, and digests a text to its last character.
  function IdCodec(): Codec {
    Codec(IdText, _ => "", PrintedId, LastCharacter)
  }

  lemma IdPrinted(c: Codec, row: Row)
    requires c == IdCodec() && 49 <= row.id < 0xD800
    ensures c.dumps(Canonical(c, row)) == [row.id as char]
  {
    assert c.dumps(Canonical(c, row)) == PrintedId(Canonical(c, row));
    assert HASHED_FIELDS[0] == Id && Get(row, Id) == Uuid(row.id);
    assert Coerce(c, Uuid(row.id)) == CText(IdText(row.id));
    hide Coerce, Get;
    assert Id in Canonical(c, row) && Canonical(c, row)[Id] == CText(IdText(row.id));
  }

  // A row printed as its id, and digested to it after whatever link.
  ghost predicate ShowsId(c: Codec, row: Row) {
    && 49 <= row.id < 0xD800
    && c.dumps(Canonical(c, row)) == [row.id as char]
    && forall prev :: |c.sha(HashInput(c, prev, row))| == 64 && c.sha(HashInput(c, prev, row))[0] == row.id as char
  }

  lemma IdShown(c: Codec, row: Row)
    requires c == IdCodec() && 49 <= row.id < 0xD800
    ensures ShowsId(c, row)
  {
    IdPrinted(c, row);
    hide Canonical, PrintedId;
    forall prev
      ensures |c.sha(HashInput(c, prev, row))| == 64 && c.sha(HashInput(c, prev, row))[0] == row.id as char
    {
      var x := HashInput(c, prev, row);
      assert x[|x| - 1] == row.id as char && c.sha(x) == LastCharacter(x);
    }
  }

  lemma ShownIdsSuffice(c: Codec, rows: seq<Row>)
    requires forall x :: |c.sha(x)| == 64
    requires forall r <- rows :: ShowsId(c, r)
    requires forall r, s :: r in rows && s in rows && r.id == s.id ==> r == s
    ensures Collisionless(c, EmitInputs(c, rows)) && PrintsTellIds(c, rows)
  {
    hide HashInput, Canonical;
    forall r, s | r in rows && s in rows && c.dumps(Canonical(c, r)) == c.dumps(Canonical(c, s)) ensures r.id == s.id {
      assert ShowsId(c, r) && ShowsId(c, s);
      assert [r.id as char][0] == [s.id as char][0];
    }
    forall x, y | x in EmitInputs(c, rows) && y in EmitInputs(c, rows)
      ensures c.sha(x) != Genesis() && (c.sha(x) == c.sha(y) ==> x == y)
    {
      var r :| r in rows && x == HashInput(c, r.prevHash.GetOr(""), r);
      var s :| s in rows && y == HashInput(c, s.prevHash.GetOr(""), s);
      assert ShowsId(c, r) && ShowsId(c, s) && Genesis()[0] == '0';
    }
  }

  // For every list of events with ids in some range there is a codec for which the theorem applies,
  // whatever the events hold and in whatever order they come.
  lemma AssumptionsCanHold(c: Codec, events: seq<Event>)
    requires c == IdCodec() && FreshIds([], events) && forall e <- events :: 49 <= e.id < 0xD800
    ensures
      var rows := EmittedAll(c, [], events);
      Collisionless(c, EmitInputs(c, rows)) && PrintsTellIds(c, rows)
  {
    EmitsAppend(c, [], events);
    var rows := EmittedAll(c, [], events);
    assert forall x :: |c.sha(x)| == 64;
    hide EmittedAll, Shape, IdCodec, FreshIds, ShowsId;
    forall r, s | r in rows && s in rows ensures ShowsId(c, r) && (r.id == s.id ==> r == s) {
      SameIdSameRow(c, rows, events, r, s);
      IdShown(c, r);
    }
    ShownIdsSuffice(c, rows);
  }

  // Where something first stands in a list.
  function IndexOf<T(==)>(list: seq<T>, x: T): (i: nat)
    ensures i <= |list| && (x in list ==> i < |list| && list[i] == x)
  {
    if list == [] || list[0] == x then 0 else 1 + IndexOf(list[1..], x)
  }

  function NumberText(i: nat): (digest: string)
    ensures |digest| == 64 && (i < 50_000 ==> digest[0] as int == 49 + i)
  {
    seq(64, _ => (if i < 50_000 then 49 + i else 48) as char)
  }

  // A codec that prints the listed contents as their numbers, and one that digests the listed texts so.
  function Printing(c: Codec, contents: seq<map<Field, Canon>>): Codec {
    c.(dumps := (m: map<Field, Canon>) => NumberText(IndexOf(contents, m)))
  }

  function Digesting(c: Codec, texts: seq<string>): Codec {
    c.(sha := (x: string) => NumberText(IndexOf(texts, x)))
  }

  function Contents(c: Codec, rows: seq<Row>): seq<map<Field, Canon>> {
    seq(|rows|, i requires 0 <= i < |rows| => Canonical(c, rows[i]))
  }

  function InputList(c: Codec, rows: seq<Row>): seq<string> {
    seq(|rows|, i requires 0 <= i < |rows| => HashInput(c, Link(rows[..i]), rows[i]))
  }

  lemma {:induction false} CoerceAlone(c: Codec, d: Codec, v: Value)
    requires c.uuid == d.uuid && c.iso == d.iso
    ensures Coerce(c, v) == Coerce(d, v)
  {
    match v
    case Dict(entries) =>
      forall name | name in Names(entries)
        ensures Coerce(c, entries[Place(entries, name)].1) == Coerce(d, entries[Place(entries, name)].1)
      {
        CoerceAlone(c, d, entries[Place(entries, name)].1);
      }
    case List(items) =>
      forall i | 0 <= i < |items| ensures Coerce(c, items[i]) == Coerce(d, items[i]) {
        CoerceAlone(c, d, items[i]);
      }
    case _ =>
  }

  // What a row holds does not depend on how it is printed and digested.
  lemma CanonicalAlone(c: Codec, d: Codec, row: Row)
    requires c.uuid == d.uuid && c.iso == d.iso
    ensures Canonical(c, row) == Canonical(d, row)
  {
    forall f | f in HASHED_FIELDS ensures Coerce(c, Get(row, f)) == Coerce(d, Get(row, f)) {
      CoerceAlone(c, d, Get(row, f));
    }
  }

  lemma {:induction false} InputsListed(c: Codec, rows: seq<Row>, x: string)
    requires x in Inputs(c, rows)
    ensures x in InputList(c, rows)
  {
    hide HashInput, Link;
    var before := rows[..|rows| - 1];
    if x in Inputs(c, before) {
      InputsListed(c, before, x);
      var i :| 0 <= i < |before| && InputList(c, before)[i] == x;
      assert before[..i] == rows[..i] && InputList(c, rows)[i] == x;
    } else {
      assert InputList(c, rows)[|rows| - 1] == x;
    }
  }

  // Whatever the two lists hold, and however they differ, there is a codec that meets what tamper
  // evidence asks for on them.
  lemma TamperAssumptionsCanHold(c: Codec, a: seq<Row>, b: seq<Row>) returns (d: Codec)
    requires |a| + |b| <= 50_000
    ensures d.uuid == c.uuid && d.iso == c.iso
    ensures Collisionless(d, Inputs(d, a) + Inputs(d, b)) && PrintsTellApart(d, a, b)
  {
    var contents := Contents(c, a) + Contents(c, b);
    var p := Printing(c, contents);
    var texts := InputList(p, a) + InputList(p, b);
    d := Digesting(p, texts);
    InputsStay(p, texts, a);
    InputsStay(p, texts, b);
    PrintedApart(c, d, contents, a, b);
    DigestedApart(d, texts, a, b);
  }

  lemma NumbersDiffer<T>(list: seq<T>, x: T, y: T)
    requires |list| <= 50_000 && x in list && y in list
    ensures NumberText(IndexOf(list, x)) == NumberText(IndexOf(list, y)) ==> x == y
    ensures NumberText(IndexOf(list, x)) != Genesis()
  {
    assert Genesis()[0] == '0';
  }

  lemma PrintedApart(c: Codec, d: Codec, contents: seq<map<Field, Canon>>, a: seq<Row>, b: seq<Row>)
    requires d.uuid == c.uuid && d.iso == c.iso
    requires contents == Contents(c, a) + Contents(c, b) && |contents| <= 50_000
    requires forall m :: d.dumps(m) == NumberText(IndexOf(contents, m))
    ensures PrintsTellApart(d, a, b)
  {
    hide Canonical, Contents, NumberText, IndexOf;
    forall r, s | r in a && s in b && d.dumps(Canonical(d, r)) == d.dumps(Canonical(d, s))
      ensures Canonical(d, r) == Canonical(d, s)
    {
      CanonicalAlone(d, c, r);
      CanonicalAlone(d, c, s);
      ContentsListed(c, a, b, r);
      ContentsListed(c, a, b, s);
      NumbersDiffer(contents, Canonical(d, r), Canonical(d, s));
    }
  }

  lemma DigestedApart(d: Codec, texts: seq<string>, a: seq<Row>, b: seq<Row>)
    requires texts == InputList(d, a) + InputList(d, b) && |texts| <= 50_000
    requires forall x :: d.sha(x) == NumberText(IndexOf(texts, x))
    ensures Collisionless(d, Inputs(d, a) + Inputs(d, b))
  {
    hide Canonical, Inputs, InputList, NumberText, IndexOf;
    forall x, y | x in Inputs(d, a) + Inputs(d, b) && y in Inputs(d, a) + Inputs(d, b)
      ensures d.sha(x) != Genesis() && (d.sha(x) == d.sha(y) ==> x == y)
    {
      InputsListed(d, if x in Inputs(d, a) then a else b, x);
      InputsListed(d, if y in Inputs(d, a) then a else b, y);
      NumbersDiffer(texts, x, y);
    }
  }

  lemma ContentsListed(c: Codec, a: seq<Row>, b: seq<Row>, r: Row)
    requires r in a || r in b
    ensures Canonical(c, r) in Contents(c, a) + Contents(c, b)
  {
    hide Canonical;
    var rows := if r in a then a else b;
    var i :| 0 <= i < |rows| && rows[i] == r;
    assert Contents(c, rows)[i] in Contents(c, rows);
  }

  lemma InputsStay(c: Codec, texts: seq<string>, rows: seq<Row>)
    ensures InputList(Digesting(c, texts), rows) == InputList(c, rows)
  {
    var d := Digesting(c, texts);
    forall i | 0 <= i < |rows|
      ensures HashInput(d, Link(rows[..i]), rows[i]) == HashInput(c, Link(rows[..i]), rows[i])
    {
      CanonicalAlone(d, c, rows[i]);
    }
  }

  lemma SameIdSameRow(c: Codec, rows: seq<Row>, events: seq<Event>, r: Row, s: Row)
    requires Shape(c, rows, events) && FreshIds([], events) && r in rows && s in rows
    ensures r.id == s.id ==> r == s
    ensures exists e <- events :: e.id == r.id
  {
    var i :| 0 <= i < |rows| && rows[i] == r;
    var j :| 0 <= j < |rows| && rows[j] == s;
    assert rows[i] == Chained(c, PrevFor(rows[..i]), events[i]) && rows[j] == Chained(c, PrevFor(rows[..j]), events[j]);
    hide PrevFor, EventHash, Shape;
    assert events[i].id == r.id && events[j].id == s.id;
  }
}
