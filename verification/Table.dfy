/**
 * The subscription table as the client keeps it: destination to list of
 * entries, changed in place, against the flat registry the state machine uses.
 */
module Table {
  import opened Options
  import opened Lane
  import opened Entry
  import opened Types
  import opened Registry

  datatype Row = Row(id: SubId, sub: Sub)

  type ByDest = map<Dest, seq<Row>>

  /** The registered entries of the flat registry. */
  function Live(r: Reg): map<SubId, Sub> {
    map id | id in r.subs && r.subs[id].registered :: r.subs[id]
  }

  predicate Listed(rows: seq<Row>, id: SubId) {
    exists i | 0 <= i < |rows| :: rows[i].id == id
  }

  /** One destination's list: its own entries, each once. */
  predicate RowsGood(rows: seq<Row>, dest: Dest, live: map<SubId, Sub>) {
    && (forall i | 0 <= i < |rows| ::
          rows[i].id in live && live[rows[i].id] == rows[i].sub && rows[i].sub.dest == dest)
    && (forall i, j | 0 <= i < j < |rows| :: rows[i].id != rows[j].id)
  }

  /** The table files exactly the entries of `live`, under their destinations, with no empty list. */
  ghost predicate Files(table: ByDest, live: map<SubId, Sub>) {
    && (forall d | d in table :: table[d] != [] && RowsGood(table[d], d, live))
    && (forall id | id in live :: live[id].dest in table && Listed(table[live[id].dest], id))
  }

  // ---------------------------------------------------------------- one list

  /** The list without its first entry with this id. */
  function Struck(rows: seq<Row>, id: SubId): seq<Row> {
    if rows == [] then [] else if rows[0].id == id then rows[1..] else [rows[0]] + Struck(rows[1..], id)
  }

  /** Whether the delivery closure runs on this entry. */
  predicate Hit(row: Row, m: Message) {
    if m.sub.Some? then row.id == m.sub.value else m.dest.Some? && row.sub.dest == m.dest.value
  }

  /** `retain_mut` with the delivery closure. */
  function Kept(rows: seq<Row>, m: Message): seq<Row> {
    if rows == [] then []
    else
      var after := if Hit(rows[0], m) then AfterOffer(rows[0].sub, m) else rows[0].sub;
      (if after.registered then [Row(rows[0].id, after)] else []) + Kept(rows[1..], m)
  }

  /** What is left registered after a delivery pass. */
  function Served(live: map<SubId, Sub>, m: Message): map<SubId, Sub> {
    map id | id in live && (Hit(Row(id, live[id]), m) ==> AfterOffer(live[id], m).registered) ::
      if Hit(Row(id, live[id]), m) then AfterOffer(live[id], m) else live[id]
  }

  /** The delivery closure leaves something parked for this entry. */
  predicate Wakes(row: Row, m: Message) {
    Hit(row, m) && AfterOffer(row.sub, m).registered && AfterOffer(row.sub, m).lane.queue != []
  }

  /** The delivery closure fails this entry at its limit. */
  predicate Fails(row: Row, m: Message) {
    Hit(row, m) && Offered(row.sub.lane, m).1 == Overflowed
  }

  /** The entries under the destinations served so far that a delivery pass adds to the wake list. */
  function WokenBy(live: map<SubId, Sub>, m: Message, parked: seq<SubId>, done: set<Dest>): set<SubId> {
    set id | id in live && live[id].dest in done && id !in parked && Wakes(Row(id, live[id]), m)
  }

  function FailedBy(live: map<SubId, Sub>, m: Message, done: set<Dest>): set<SubId> {
    set id | id in live && live[id].dest in done && Fails(Row(id, live[id]), m)
  }

  function WokenIn(rows: seq<Row>, m: Message, parked: seq<SubId>): set<SubId> {
    set row | row in rows && row.id !in parked && Wakes(row, m) :: row.id
  }

  function FailedIn(rows: seq<Row>, m: Message): set<SubId> {
    set row | row in rows && Fails(row, m) :: row.id
  }

  /** `after` is `before` with exactly `ids` appended, each once. */
  predicate Adds(before: seq<SubId>, after: seq<SubId>, ids: set<SubId>) {
    before <= after && Lists(after[|before|..], ids)
  }

  lemma AddsOne(before: seq<SubId>, after: seq<SubId>, ids: set<SubId>, id: SubId)
    requires Adds(before, after, ids) && id !in ids
    ensures Adds(before, after + [id], ids + {id})
  {
    var old_, new_ := after[|before|..], (after + [id])[|before|..];
    assert new_ == old_ + [id];
    assert forall k | k in old_ :: k in new_;
    assert new_[|old_|] == id;
  }

  lemma AddsMore(a: seq<SubId>, b: seq<SubId>, c: seq<SubId>, first: set<SubId>, second: set<SubId>)
    requires Adds(a, b, first) && Adds(b, c, second) && first !! second
    ensures Adds(a, c, first + second)
  {
    var front, back, all := b[|a|..], c[|b|..], c[|a|..];
    assert all == front + back;
    assert forall k | k in front :: k in all;
    assert forall k | k in back :: k in all;
    forall i, j | 0 <= i < j < |all|
      ensures all[i] != all[j]
    {
      if i < |front| <= j {
        assert all[i] in first && back[j - |front|] in second;
      }
    }
  }

  /** One list more: what its entries add is what the entries filed under its destination do. */
  lemma GatherStep(rows: seq<Row>, dest: Dest, live: map<SubId, Sub>, m: Message,
                   parked: seq<SubId>, wake: seq<SubId>, done: set<Dest>)
    requires RowsGood(rows, dest, live) && forall id | id in live && live[id].dest == dest :: Listed(rows, id)
    requires dest !in done && Adds(parked, wake, WokenBy(live, m, parked, done))
    ensures WokenBy(live, m, parked, done + {dest}) == WokenBy(live, m, parked, done) + WokenIn(rows, m, wake)
    ensures WokenBy(live, m, parked, done) !! WokenIn(rows, m, wake)
    ensures FailedBy(live, m, done + {dest}) == FailedBy(live, m, done) + FailedIn(rows, m)
    ensures FailedBy(live, m, done) !! FailedIn(rows, m)
  {
    hide Wakes, Fails;
    forall row | row in rows
      ensures row.id in live && live[row.id] == row.sub && row.sub.dest == dest
    {
    }
    forall id | id in live && live[id].dest == dest
      ensures Row(id, live[id]) in rows
    {
      var i :| 0 <= i < |rows| && rows[i].id == id;
      assert rows[i] == Row(id, live[id]);
    }
    InWake(parked, wake, WokenBy(live, m, parked, done));
  }

  lemma InWake(parked: seq<SubId>, wake: seq<SubId>, ids: set<SubId>)
    requires Adds(parked, wake, ids)
    ensures forall id :: id in wake <==> id in parked || id in ids
  {
    assert wake == parked + wake[|parked|..];
  }

  lemma {:induction false} StruckRows(rows: seq<Row>, dest: Dest, live: map<SubId, Sub>, id: SubId)
    requires RowsGood(rows, dest, live)
    ensures RowsGood(Struck(rows, id), dest, live - {id})
    ensures forall k: SubId :: Listed(Struck(rows, id), k) <==> Listed(rows, k) && k != id
  {
    if rows != [] {
      var rest := rows[1..];
      assert RowsGood(rest, dest, live);
      StruckRows(rest, dest, live, id);
      assert forall k: SubId :: Listed(rows, k) <==> rows[0].id == k || Listed(rest, k) by { ListedCons(rows); }
      if rows[0].id != id {
        var n := Struck(rows, id);
        assert n[1..] == Struck(rest, id);
        ListedCons(n);
        assert !Listed(rest, rows[0].id);
      } else {
        assert !Listed(rest, id);
      }
    }
  }

  lemma ListedCons(rows: seq<Row>)
    requires rows != []
    ensures forall k: SubId :: Listed(rows, k) <==> rows[0].id == k || Listed(rows[1..], k)
  {
    forall k: SubId
      ensures Listed(rows, k) <==> rows[0].id == k || Listed(rows[1..], k)
    {
      if Listed(rows[1..], k) {
        var i :| 0 <= i < |rows[1..]| && rows[1..][i].id == k;
        assert rows[i + 1].id == k;
      }
      if Listed(rows, k) && rows[0].id != k {
        var i :| 0 <= i < |rows| && rows[i].id == k;
        assert rows[1..][i - 1].id == k;
      }
    }
  }

  predicate AllRegistered(live: map<SubId, Sub>) {
    forall id | id in live :: live[id].registered
  }

  lemma OfferKeepsDest(sub: Sub, m: Message)
    ensures AfterOffer(sub, m).dest == sub.dest
  {
    hide Offered;
  }

  /** What the first entry of a good list tells about the rest, and about its own place. */
  lemma FirstRow(rows: seq<Row>, dest: Dest, live: map<SubId, Sub>)
    requires RowsGood(rows, dest, live) && rows != []
    ensures RowsGood(rows[1..], dest, live) && !Listed(rows[1..], rows[0].id)
    ensures rows[0].id in live && live[rows[0].id] == rows[0].sub && rows[0].sub.dest == dest
  {
    assert forall i | 0 <= i < |rows[1..]| :: rows[1..][i] == rows[i + 1];
  }

  lemma ServedRow(live: map<SubId, Sub>, m: Message, row: Row)
    requires row.id in live && live[row.id] == row.sub && row.sub.registered
    ensures var after := if Hit(row, m) then AfterOffer(row.sub, m) else row.sub;
            && (row.id in Served(live, m) <==> after.registered)
            && (after.registered ==> Served(live, m)[row.id] == after)
            && after.dest == row.sub.dest
  {
    OfferKeepsDest(row.sub, m);
    hide AfterOffer, Hit;
  }

  lemma {:induction false} KeptRows(rows: seq<Row>, dest: Dest, live: map<SubId, Sub>, m: Message)
    requires RowsGood(rows, dest, live) && AllRegistered(live)
    ensures RowsGood(Kept(rows, m), dest, Served(live, m))
    ensures forall k: SubId :: Listed(Kept(rows, m), k) <==> Listed(rows, k) && k in Served(live, m)
  {
    if rows == [] {
    } else {
      hide AfterOffer, Hit, Served, RowsGood, Listed;
      FirstRow(rows, dest, live);
      var rest := rows[1..];
      KeptRows(rest, dest, live, m);
      ListedCons(rows);
      ServedRow(live, m, rows[0]);
      var n := Kept(rows, m);
      if rows[0].id in Served(live, m) {
        assert n[1..] == Kept(rest, m);
        ListedCons(n);
        KeptPrefix(n, rest, dest, live, m);
      } else {
        assert n == Kept(rest, m);
      }
    }
  }

  lemma KeptPrefix(n: seq<Row>, rest: seq<Row>, dest: Dest, live: map<SubId, Sub>, m: Message)
    requires n != [] && RowsGood(n[1..], dest, Served(live, m)) && !Listed(n[1..], n[0].id)
    requires n[0].id in Served(live, m) && Served(live, m)[n[0].id] == n[0].sub && n[0].sub.dest == dest
    ensures RowsGood(n, dest, Served(live, m))
  {
    hide Served;
    var tail := n[1..];
    assert forall i | 0 < i < |n| :: n[i] == tail[i - 1];
    forall i, j | 0 <= i < j < |n|
      ensures n[i].id != n[j].id
    {
      assert n[j] == tail[j - 1];
    }
  }

  // ---------------------------------------------------------------- the whole table

  /** The lists of `done` struck, empty ones dropped. */
  function StruckAll(table: ByDest, done: set<Dest>, id: SubId): ByDest {
    map d | d in table && (d in done ==> Struck(table[d], id) != []) ::
      if d in done then Struck(table[d], id) else table[d]
  }

  function KeptAll(table: ByDest, done: set<Dest>, m: Message): ByDest {
    map d | d in table && (d in done ==> Kept(table[d], m) != []) ::
      if d in done then Kept(table[d], m) else table[d]
  }

  /** One list more. */
  lemma StruckStep(table: ByDest, done: set<Dest>, dest: Dest, id: SubId)
    requires dest in table && dest !in done
    ensures var before := StruckAll(table, done, id);
            var rows := Struck(table[dest], id);
            && dest in before && before[dest] == table[dest]
            && StruckAll(table, done + {dest}, id) == if rows == [] then before - {dest} else before[dest := rows]
  {
    hide Struck;
  }

  lemma KeptStep(table: ByDest, done: set<Dest>, dest: Dest, m: Message)
    requires dest in table && dest !in done
    ensures var before := KeptAll(table, done, m);
            var rows := Kept(table[dest], m);
            && dest in before && before[dest] == table[dest]
            && KeptAll(table, done + {dest}, m) == if rows == [] then before - {dest} else before[dest := rows]
  {
    hide Kept;
  }

  lemma NoneDone(table: ByDest, id: SubId, m: Message)
    ensures StruckAll(table, {}, id) == table && KeptAll(table, {}, m) == table
    ensures m.dest.Some? && m.dest.value !in table ==> KeptAll(table, {m.dest.value}, m) == table
  {
    hide Kept, Struck;
  }

  lemma ListedNonempty(rows: seq<Row>, id: SubId)
    requires Listed(rows, id)
    ensures rows != []
  {
  }

  /** Striking an id from every list files all the other entries and no empty list. */
  lemma StruckFiles(table: ByDest, live: map<SubId, Sub>, id: SubId)
    requires Files(table, live)
    ensures Files(StruckAll(table, table.Keys, id), live - {id})
  {
    var n := StruckAll(table, table.Keys, id);
    forall d | d in n
      ensures RowsGood(n[d], d, live - {id})
    {
      StruckRows(table[d], d, live, id);
    }
    forall k | k in live - {id}
      ensures live[k].dest in n && Listed(n[live[k].dest], k)
    {
      StruckRows(table[live[k].dest], live[k].dest, live, id);
      ListedNonempty(Struck(table[live[k].dest], id), k);
    }
    hide Struck, RowsGood, Listed;
  }

  /** So does the delivery pass, over all lists or, routed by destination, over the one it is for. */
  lemma KeptFiles(table: ByDest, live: map<SubId, Sub>, done: set<Dest>, m: Message)
    requires Files(table, live) && AllRegistered(live)
    requires done == table.Keys || (m.sub.None? && m.dest.Some? && done == {m.dest.value})
    ensures Files(KeptAll(table, done, m), Served(live, m)) && AllRegistered(Served(live, m))
  {
    var n := KeptAll(table, done, m);
    forall d | d in n
      ensures RowsGood(n[d], d, Served(live, m))
    {
      if d in done {
        KeptRows(table[d], d, live, m);
      } else {
        Unrouted(table[d], d, live, m);
      }
    }
    forall k | k in Served(live, m)
      ensures Served(live, m)[k].dest in n && Listed(n[Served(live, m)[k].dest], k)
    {
      OfferKeepsDest(live[k], m);
      var d := live[k].dest;
      KeptRows(table[d], d, live, m);
      ListedNonempty(Kept(table[d], m), k);
    }
    hide Kept, RowsGood, Listed, AfterOffer;
  }

  /** A list the message is not routed to is served as it is. */
  lemma Unrouted(rows: seq<Row>, dest: Dest, live: map<SubId, Sub>, m: Message)
    requires RowsGood(rows, dest, live) && m.sub.None? && m.dest.Some? && m.dest.value != dest
    ensures RowsGood(rows, dest, Served(live, m))
  {
    hide AfterOffer;
    forall i | 0 <= i < |rows|
      ensures rows[i].id in Served(live, m) && Served(live, m)[rows[i].id] == rows[i].sub
    {
      assert !Hit(rows[i], m);
      assert live[rows[i].id] == rows[i].sub;
    }
  }

  // ---------------------------------------------------------------- in place

  /** The entry that was there, if any, and the list without it. */
  method Strike(rows: seq<Row>, id: SubId) returns (gone: Option<Row>, left: seq<Row>)
    ensures gone.Some? <==> Listed(rows, id)
    ensures gone.Some? ==> gone.value in rows && gone.value.id == id
    ensures left == Struck(rows, id)
  {
    var pos := 0;
    while pos < |rows| && rows[pos].id != id
      invariant pos <= |rows|
      invariant forall i | 0 <= i < pos :: rows[i].id != id
      invariant Struck(rows, id) == rows[..pos] + Struck(rows[pos..], id)
    {
      assert rows[..pos + 1] == rows[..pos] + [rows[pos]];
      assert rows[pos..][1..] == rows[pos + 1..];
      pos := pos + 1;
    }
    if pos == |rows| {
      return None, rows;
    }
    return Some(rows[pos]), rows[..pos] + rows[pos + 1..];
  }

  /** What is left of the pass from an entry on, and the entries before it. */
  lemma PassFrom(rows: seq<Row>, i: nat, m: Message)
    requires i <= |rows| && forall a, b | 0 <= a < b < |rows| :: rows[a].id != rows[b].id
    ensures i == 0 ==> rows[..i] == [] && rows[i..] == rows
    ensures i == |rows| ==> Kept(rows[i..], m) == [] && rows[..i] == rows
    ensures i < |rows| ==>
              && Kept(rows[i..], m) == KeptOf(rows[i], m) + Kept(rows[i + 1..], m)
              && rows[..i + 1] == rows[..i] + [rows[i]]
              && forall other | other in rows[..i] :: other.id != rows[i].id
  {
    if i < |rows| {
      assert rows[i..][1..] == rows[i + 1..];
    }
  }

  /** What the closure keeps of one entry. */
  function KeptOf(row: Row, m: Message): seq<Row> {
    var after := if Hit(row, m) then AfterOffer(row.sub, m) else row.sub;
    if after.registered then [Row(row.id, after)] else []
  }

  /** One list's `retain_mut`, with what its closure pushes on the wake list and the overflow list. */
  method Retain(rows: seq<Row>, m: Message, parked: seq<SubId>, failed: seq<SubId>)
    returns (kept: seq<Row>, wake: seq<SubId>, over: seq<SubId>)
    requires forall i, j | 0 <= i < j < |rows| :: rows[i].id != rows[j].id
    ensures kept == Kept(rows, m)
    ensures Adds(parked, wake, WokenIn(rows, m, parked))
    ensures Adds(failed, over, FailedIn(rows, m))
  {
    hide AfterOffer, Offered, Hit, Adds, WokenIn, FailedIn, Kept;
    kept, wake, over := [], parked, failed;
    NothingAdded(parked, m);
    NothingAdded(failed, m);
    PassFrom(rows, 0, m);
    var i := 0;
    while i < |rows|
      invariant i <= |rows|
      invariant Kept(rows, m) == kept + Kept(rows[i..], m)
      invariant Adds(parked, wake, WokenIn(rows[..i], m, parked))
      invariant Adds(failed, over, FailedIn(rows[..i], m))
    {
      var row := rows[i];
      var after := if Hit(row, m) then AfterOffer(row.sub, m) else row.sub;
      PassFrom(rows, i, m);
      GatherRow(rows[..i], row, rows[..i + 1], m, parked, wake, failed, over);
      if Fails(row, m) {
        over := over + [row.id];
      }
      if after.registered {
        if Hit(row, m) && after.lane.queue != [] && row.id !in wake {
          wake := wake + [row.id];
        }
        kept := kept + [Row(row.id, after)];
      }
      i := i + 1;
    }
    PassFrom(rows, i, m);
  }

  /** The destinations the entries are filed under. */
  function Dests(live: map<SubId, Sub>): set<Dest> {
    set id | id in live :: live[id].dest
  }

  /** A list holds exactly the entries for its destination. */
  lemma FiledHere(table: ByDest, live: map<SubId, Sub>, dest: Dest)
    requires Files(table, live) && dest in table
    ensures RowsGood(table[dest], dest, live)
    ensures forall row | row in table[dest] :: row.id in live && live[row.id] == row.sub && row.sub.dest == dest
    ensures forall id :: Listed(table[dest], id) <==> id in live && live[id].dest == dest
  {
    hide Listed;
    forall id | Listed(table[dest], id)
      ensures id in live && live[id].dest == dest
    {
      ListedRow(table[dest], id);
    }
  }

  lemma ListedRow(rows: seq<Row>, id: SubId)
    requires Listed(rows, id)
    ensures exists i | 0 <= i < |rows| :: rows[i].id == id
  {
  }

  lemma FiledAll(table: ByDest, live: map<SubId, Sub>)
    requires Files(table, live)
    ensures Dests(live) <= table.Keys
  {
    hide RowsGood, Listed;
  }

  lemma NobodyThere(live: map<SubId, Sub>, m: Message, parked: seq<SubId>)
    requires m.dest.Some? && m.dest.value !in Dests(live)
    ensures WokenBy(live, m, parked, {m.dest.value}) == WokenBy(live, m, parked, {})
    ensures FailedBy(live, m, {m.dest.value}) == FailedBy(live, m, {})
  {
    hide Wakes, Fails;
  }

  /** The lists a pass goes through hold all the entries it can reach. */
  lemma EveryoneServed(live: map<SubId, Sub>, m: Message, parked: seq<SubId>, done: set<Dest>)
    requires Dests(live) <= done || (m.sub.None? && m.dest.Some? && done == {m.dest.value})
    ensures WokenBy(live, m, parked, done) == WokenBy(live, m, parked, Dests(live))
    ensures FailedBy(live, m, done) == FailedBy(live, m, Dests(live))
  {
    hide AfterOffer, Offered;
  }

  lemma AddsToNothing(xs: seq<SubId>, ids: set<SubId>)
    requires Adds([], xs, ids)
    ensures Lists(xs, ids)
  {
    hide Lists;
    assert xs[0..] == xs;
  }

  lemma NothingAdded(parked: seq<SubId>, m: Message)
    ensures Adds(parked, parked, WokenIn([], m, parked)) && Adds(parked, parked, FailedIn([], m))
    ensures forall live: map<SubId, Sub> :: Adds(parked, parked, WokenBy(live, m, parked, {}))
    ensures forall live: map<SubId, Sub> :: Adds(parked, parked, FailedBy(live, m, {}))
  {
    hide Wakes, Fails;
  }

  /** One row more. */
  lemma GatherRow(rows: seq<Row>, row: Row, more: seq<Row>, m: Message,
                  parked: seq<SubId>, wake: seq<SubId>, failed: seq<SubId>, over: seq<SubId>)
    requires more == rows + [row] && forall other | other in rows :: other.id != row.id
    requires Adds(parked, wake, WokenIn(rows, m, parked)) && Adds(failed, over, FailedIn(rows, m))
    ensures Adds(parked, if Wakes(row, m) && row.id !in wake then wake + [row.id] else wake, WokenIn(more, m, parked))
    ensures Adds(failed, if Fails(row, m) then over + [row.id] else over, FailedIn(more, m))
  {
    hide Wakes, Fails;
    InWake(parked, wake, WokenIn(rows, m, parked));
    assert forall other :: other in more <==> other in rows || other == row;
    assert row.id !in WokenIn(rows, m, parked) && row.id !in FailedIn(rows, m);
    if Wakes(row, m) && row.id !in wake {
      AddsOne(parked, wake, WokenIn(rows, m, parked), row.id);
      assert WokenIn(more, m, parked) == WokenIn(rows, m, parked) + {row.id};
    } else {
      assert WokenIn(more, m, parked) == WokenIn(rows, m, parked);
    }
    if Fails(row, m) {
      AddsOne(failed, over, FailedIn(rows, m), row.id);
      assert FailedIn(more, m) == FailedIn(rows, m) + {row.id};
    } else {
      assert FailedIn(more, m) == FailedIn(rows, m);
    }
  }

  class Subscriptions {
    var byDest: ByDest
    /** The same entries by id. */
    ghost var live: map<SubId, Sub>

    ghost predicate Valid()
      reads this
    {
      Files(byDest, live) && AllRegistered(live)
    }

    constructor ()
      ensures Valid() && live == map[]
    {
      byDest := map[];
      live := map[];
    }

    /** One more entry at the end of its destination's list, which is made if there is none. */
    method Insert(id: SubId, sub: Sub)
      requires Valid() && id !in live && sub.registered
      modifies this
      ensures Valid() && live == old(live)[id := sub]
    {
      var rows := if sub.dest in byDest then byDest[sub.dest] else [];
      ghost var before := byDest;
      byDest := byDest[sub.dest := rows + [Row(id, sub)]];
      live := live[id := sub];
      InsertFiles(before, old(live), id, sub);
    }

    /**
     * The registry section of `unsubscribe`: every list is searched, empty
     * ones are dropped. The entry that goes had its end recorded first.
     */
    method Unsubscribe(id: SubId) returns (gone: Option<Sub>)
      requires Valid()
      modifies this
      ensures Valid() && live == old(live) - {id}
      ensures gone == if id in old(live) then Some(RemovedFor(old(live)[id], Unsubscribed)) else None
    {
      hide StruckAll, Struck, Listed, Files, RowsGood;
      ghost var before := byDest;
      ghost var done: set<Dest> := {};
      NoneDone(before, id, Message(None, None, None, None, 0, 0, 0));
      gone := None;
      var left := byDest.Keys;
      while left != {}
        invariant left <= before.Keys && done == before.Keys - left
        invariant byDest == StruckAll(before, done, id)
        invariant gone == if id in live && live[id].dest in done then Some(RemovedFor(live[id], Unsubscribed)) else None
        modifies this`byDest
        decreases left
      {
        var dest :| dest in left;
        StruckStep(before, done, dest, id);
        FiledHere(before, live, dest);
        var here, rows := Strike(byDest[dest], id);
        if here.Some? {
          gone := Some(RemovedFor(here.value.sub, Unsubscribed));
        }
        byDest := if rows == [] then byDest - {dest} else byDest[dest := rows];
        left := left - {dest};
        done := done + {dest};
      }
      assert done == before.Keys;
      StruckFiles(before, live, id);
      FiledAll(before, live);
      live := live - {id};
    }

    /** The delivery pass over the registry, the wake list and the list of those failed at their limit. */
    method Deliver(m: Message, parked: seq<SubId>) returns (wake: seq<SubId>, failed: seq<SubId>)
      requires Valid() && (m.sub.Some? || m.dest.Some?)
      modifies this
      ensures Valid() && live == Served(old(live), m)
      ensures Adds(parked, wake, WokenBy(old(live), m, parked, Dests(old(live))))
      ensures Lists(failed, FailedBy(old(live), m, Dests(old(live))))
    {
      hide KeptAll, Kept, Files, Served, AfterOffer, Offered, Adds, Lists, RowsGood, Listed, WokenBy, FailedBy;
      hide WokenIn, FailedIn;
      ghost var before := byDest;
      ghost var done: set<Dest> := {};
      NoneDone(before, 0, m);
      wake, failed := parked, [];
      NothingAdded(parked, m);
      NothingAdded(failed, m);
      FiledAll(before, live);
      if m.sub.Some? {
        var left := byDest.Keys;
        while left != {}
          invariant left <= before.Keys && done == before.Keys - left
          invariant byDest == KeptAll(before, done, m)
          invariant Adds(parked, wake, WokenBy(live, m, parked, done)) && Adds([], failed, FailedBy(live, m, done))
          modifies this`byDest
          decreases left
        {
          var dest :| dest in left;
          wake, failed := DeliverTo(dest, m, parked, wake, failed, before, done);
          left := left - {dest};
          done := done + {dest};
        }
        assert done == before.Keys;
      } else {
        if m.dest.value in byDest {
          wake, failed := DeliverTo(m.dest.value, m, parked, wake, failed, before, done);
        } else {
          NobodyThere(live, m, parked);
        }
        done := done + {m.dest.value};
        assert done == {m.dest.value};
      }
      KeptFiles(before, live, done, m);
      EveryoneServed(live, m, parked, done);
      AddsToNothing(failed, FailedBy(live, m, done));
      live := Served(live, m);
    }

    /** One list's turn. */
    method DeliverTo(dest: Dest, m: Message, parked: seq<SubId>, wake: seq<SubId>, failed: seq<SubId>,
                     ghost before: ByDest, ghost done: set<Dest>)
      returns (woken: seq<SubId>, over: seq<SubId>)
      requires Files(before, live) && dest in before && dest !in done && byDest == KeptAll(before, done, m)
      requires Adds(parked, wake, WokenBy(live, m, parked, done)) && Adds([], failed, FailedBy(live, m, done))
      modifies this`byDest
      ensures byDest == KeptAll(before, done + {dest}, m)
      ensures Adds(parked, woken, WokenBy(live, m, parked, done + {dest}))
      ensures Adds([], over, FailedBy(live, m, done + {dest}))
    {
      hide KeptAll, Kept, Files, Adds, Listed, WokenBy, FailedBy, WokenIn, FailedIn;
      KeptStep(before, done, dest, m);
      FiledHere(before, live, dest);
      GatherStep(byDest[dest], dest, live, m, parked, wake, done);
      ghost var rows := byDest[dest];
      var kept;
      kept, woken, over := Retain(byDest[dest], m, wake, failed);
      AddsMore(parked, wake, woken, WokenBy(live, m, parked, done), WokenIn(rows, m, wake));
      AddsMore([], failed, over, FailedBy(live, m, done), FailedIn(rows, m));
      byDest := if kept == [] then byDest - {dest} else byDest[dest := kept];
    }

    /** The search `acknowledge` makes for a subscription's ack mode. */
    method ModeOf(id: SubId) returns (mode: Option<AckMode>)
      requires Valid()
      ensures mode == if id in live then Some(live[id].mode) else None
    {
      var row := FindRow(id);
      return if row.Some? then Some(row.value.sub.mode) else None;
    }

    method FindRow(id: SubId) returns (row: Option<Row>)
      requires Valid()
      ensures row == if id in live then Some(Row(id, live[id])) else None
    {
      var left := byDest.Keys;
      while left != {}
        invariant left <= byDest.Keys
        invariant forall d | d in byDest.Keys - left :: !Listed(byDest[d], id)
        decreases left
      {
        var dest :| dest in left;
        left := left - {dest};
        assert RowsGood(byDest[dest], dest, live);
        var i := 0;
        while i < |byDest[dest]|
          invariant i <= |byDest[dest]|
          invariant forall j | 0 <= j < i :: byDest[dest][j].id != id
        {
          if byDest[dest][i].id == id {
            return Some(byDest[dest][i]);
          }
          i := i + 1;
        }
      }
      return None;
    }

    /** Who acknowledges at a destination: the ids a MESSAGE routed by it is recorded for. */
    method AckIds(dest: Dest) returns (ids: seq<SubId>)
      requires Valid()
      ensures Lists(ids, set id | id in live && live[id].dest == dest && live[id].mode != Auto)
    {
      ids := [];
      if dest !in byDest {
        return;
      }
      var rows := byDest[dest];
      assert RowsGood(rows, dest, live);
      var i := 0;
      while i < |rows|
        invariant i <= |rows|
        invariant forall a | 0 <= a < |ids| :: ids[a] in live && live[ids[a]].dest == dest && live[ids[a]].mode != Auto
        invariant forall a | 0 <= a < |ids| :: exists j | 0 <= j < i :: rows[j].id == ids[a]
        invariant forall j | 0 <= j < i && rows[j].sub.mode != Auto :: rows[j].id in ids
        invariant Distinct(ids)
      {
        if rows[i].sub.mode != Auto {
          ids := ids + [rows[i].id];
        }
        i := i + 1;
      }
    }

    /** `prune_parked` on a wake list. */
    method PruneParked(parked: seq<SubId>) returns (kept: seq<SubId>)
      requires Valid()
      ensures kept == Pruned(parked, live)
    {
      hide Files;
      kept := [];
      var i := 0;
      while i < |parked|
        invariant i <= |parked|
        invariant Pruned(parked, live) == kept + Pruned(parked[i..], live)
      {
        var row := FindRow(parked[i]);
        assert parked[i..][1..] == parked[i + 1..];
        if row.Some? && row.value.sub.lane.queue != [] {
          kept := kept + [parked[i]];
        }
        i := i + 1;
      }
    }
  }

  lemma InsertFiles(table: ByDest, live: map<SubId, Sub>, id: SubId, sub: Sub)
    requires Files(table, live) && id !in live
    ensures var rows := if sub.dest in table then table[sub.dest] else [];
            Files(table[sub.dest := rows + [Row(id, sub)]], live[id := sub])
  {
    var rows := if sub.dest in table then table[sub.dest] else [];
    var n, more := rows + [Row(id, sub)], live[id := sub];
    InsertRow(rows, sub.dest, live, id, sub);
    forall d | d in table && d != sub.dest
      ensures RowsGood(table[d], d, more)
    {
      RowsStay(table[d], d, live, id, sub);
    }
    hide RowsGood, Listed;
  }

  lemma InsertRow(rows: seq<Row>, dest: Dest, live: map<SubId, Sub>, id: SubId, sub: Sub)
    requires RowsGood(rows, dest, live) && id !in live && sub.dest == dest
    ensures RowsGood(rows + [Row(id, sub)], dest, live[id := sub])
    ensures forall k | k == id || Listed(rows, k) :: Listed(rows + [Row(id, sub)], k)
  {
    var n := rows + [Row(id, sub)];
    assert n[|rows|] == Row(id, sub);
    forall k | Listed(rows, k)
      ensures Listed(n, k)
    {
      var i :| 0 <= i < |rows| && rows[i].id == k;
      assert n[i].id == k;
    }
  }

  lemma RowsStay(rows: seq<Row>, dest: Dest, live: map<SubId, Sub>, id: SubId, sub: Sub)
    requires RowsGood(rows, dest, live) && id !in live
    ensures RowsGood(rows, dest, live[id := sub])
  {
  }

  // ---------------------------------------------------------------- the flat registry, section by section

  /**
   * The table's sections are the flat registry's, on the entries that are
   * registered; the lists the delivery pass makes are ones its step may take.
   */
  lemma TableRefinesRegistry(r: Reg, id: SubId, m: Message, woken: seq<SubId>,
                             dest: Dest, mode: AckMode, limit: nat, capacity: nat)
    ensures Live(DoRegister(r, dest, mode, limit, capacity))
         == Live(r)[r.nextId := Sub(dest, mode, NewLane(limit, capacity), true, Running, [], [])]
    ensures id in Live(r) <==> Registered(r, id)
    ensures Live(DoUnregister(r, id)) == Live(r) - {id}
    ensures id in Live(r) ==> DoUnregister(r, id).subs[id] == RemovedFor(Live(r)[id], Unsubscribed)
    ensures m.sub.Some? || m.dest.Some? ==>
              && Live(DoDeliver(r, m, woken)) == Served(Live(r), m)
              && Woken(r, m) == WokenBy(Live(r), m, r.parked, Dests(Live(r)))
              && Overrun(r, m) == FailedBy(Live(r), m, Dests(Live(r)))
    ensures m.sub.None? && m.dest.Some? ==>
              AckTargets(r, m) == set k | k in Live(r) && Live(r)[k].dest == m.dest.value && Live(r)[k].mode != Auto
    ensures Pruned(r.parked, Live(r)) == Pruned(r.parked, r.subs)
  {
    hide AfterOffer, Offered, Woken, Overrun, WokenBy, FailedBy, Pruned, Served, DoDeliver, Dests, Target, AckTargets;
    hide DoUnregister, RemovedFor, DoRegister, NewLane;
    RegisterRefines(r, dest, mode, limit, capacity);
    UnregisterRefines(r, id);
    PruneRefines(r, r.parked);
    if m.sub.Some? || m.dest.Some? {
      DeliveryRefines(r, m, woken);
      AckTargetsRefine(r, m);
    }
  }

  lemma UnregisterRefines(r: Reg, id: SubId)
    ensures id in Live(r) <==> Registered(r, id)
    ensures Live(DoUnregister(r, id)) == Live(r) - {id}
    ensures id in Live(r) ==> DoUnregister(r, id).subs[id] == RemovedFor(Live(r)[id], Unsubscribed)
  {
    hide EndedBy;
  }

  lemma AckTargetsRefine(r: Reg, m: Message)
    ensures m.sub.None? && m.dest.Some? ==>
              AckTargets(r, m) == set k | k in Live(r) && Live(r)[k].dest == m.dest.value && Live(r)[k].mode != Auto
  {
  }

  lemma DeliveryRefines(r: Reg, m: Message, woken: seq<SubId>)
    requires m.sub.Some? || m.dest.Some?
    ensures Live(DoDeliver(r, m, woken)) == Served(Live(r), m)
    ensures Woken(r, m) == WokenBy(Live(r), m, r.parked, Dests(Live(r)))
    ensures Overrun(r, m) == FailedBy(Live(r), m, Dests(Live(r)))
  {
    hide AfterOffer, Offered;
    assert forall k | k in r.subs && r.subs[k].registered :: Target(r, m, k) == Hit(Row(k, r.subs[k]), m);
    assert forall k | k in Live(r) :: Live(r)[k].dest in Dests(Live(r));
  }

  /** A new entry is live under the next id, empty, with its own limit and capacity. */
  lemma RegisterRefines(r: Reg, dest: Dest, mode: AckMode, limit: nat, capacity: nat)
    ensures Live(DoRegister(r, dest, mode, limit, capacity))
         == Live(r)[r.nextId := Sub(dest, mode, NewLane(limit, capacity), true, Running, [], [])]
  {
  }

  lemma {:induction false} PruneRefines(r: Reg, parked: seq<SubId>)
    ensures Pruned(parked, Live(r)) == Pruned(parked, r.subs)
  {
    if parked != [] {
      PruneRefines(r, parked[1..]);
    }
  }
}
