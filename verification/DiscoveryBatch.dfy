/** Loading the tiers of all matched events in one pass instead of one query per event. */
module DiscoveryBatch {

  datatype TierRow = TierRow(id: string, event: string, name: string, price: int, capacity: int, sold: int)
  datatype TierView = TierView(id: string, name: string, price: int, capacity: int, sold: int, remaining: int)

  class Event {
    const id: string
    var tiers: seq<TierView>

    constructor (id: string)
      ensures this.id == id && tiers == []
    {
      this.id := id;
      tiers := [];
    }
  }

  function View(r: TierRow): TierView {
    TierView(r.id, r.name, r.price, r.capacity, r.sold, r.capacity - r.sold)
  }

  /** The table's tiers of one event, in the table's price order: what one query per event returns. */
  function ListTiers(rows: seq<TierRow>, event: string): seq<TierView> {
    if |rows| == 0 then []
    else
      var n := |rows| - 1;
      ListTiers(rows[..n], event) + (if rows[n].event == event then [View(rows[n])] else [])
  }

  // ---------------------------------------------------------------- what is listed

  /** `views` shows, in the table's order, exactly the rows of the event: view `j` the row at `at[j]`. */
  ghost predicate Shows(table: seq<TierRow>, event: string, views: seq<TierView>, at: seq<nat>) {
    && |at| == |views|
    && (forall i, j :: 0 <= i < j < |at| ==> at[i] < at[j])
    && (forall k: nat :: k in at <==> k < |table| && table[k].event == event)
    && (forall j :: 0 <= j < |at| ==> at[j] < |table| && ShowsRow(views[j], table[at[j]]))
  }

  predicate ShowsRow(v: TierView, r: TierRow) {
    && v.id == r.id && v.name == r.name && v.price == r.price && v.capacity == r.capacity && v.sold == r.sold
    && v.remaining + v.sold == v.capacity
  }

  /** The positions of the event's rows. */
  function Places(rows: seq<TierRow>, event: string): (at: seq<nat>)
    ensures forall j :: 0 <= j < |at| ==> at[j] < |rows|
  {
    if |rows| == 0 then []
    else
      var n := |rows| - 1;
      Places(rows[..n], event) + (if rows[n].event == event then [n] else [])
  }

  /** The list shows exactly the rows of the event. */
  lemma {:induction false} ListShows(rows: seq<TierRow>, event: string)
    ensures Shows(rows, event, ListTiers(rows, event), Places(rows, event))
  {
    if |rows| > 0 {
      var n := |rows| - 1;
      ListShows(rows[..n], event);
      var before, at := Places(rows[..n], event), Places(rows, event);
      forall k: nat ensures k in at <==> k < |rows| && rows[k].event == event {
        assert k in at <==> k in before || (k == n && rows[n].event == event);
      }
    }
  }

  /** Onto its old tiers the event got views of exactly its own rows. */
  ghost predicate Gained(before: seq<TierView>, after: seq<TierView>, table: seq<TierRow>, event: string) {
    before <= after && exists at :: Shows(table, event, after[|before|..], at)
  }

  lemma {:induction false} ListedIsGained(before: seq<TierView>, table: seq<TierRow>, event: string)
    ensures Gained(before, before + ListTiers(table, event), table, event)
  {
    ListShows(table, event);
    assert (before + ListTiers(table, event))[|before|..] == ListTiers(table, event);
  }

  // ---------------------------------------------------------------- the batch

  /** The rows of any of the events, in the same order: what the batch query returns. */
  function AnyOf(rows: seq<TierRow>, ids: seq<string>): seq<TierRow> {
    if |rows| == 0 then []
    else
      var n := |rows| - 1;
      AnyOf(rows[..n], ids) + (if rows[n].event in ids then [rows[n]] else [])
  }

  lemma {:induction false} ListPush(rows: seq<TierRow>, r: TierRow, event: string)
    ensures ListTiers(rows + [r], event) == ListTiers(rows, event) + (if r.event == event then [View(r)] else [])
  {
    assert (rows + [r])[..|rows|] == rows;
  }

  /** Restricting the query to the asked events loses nothing of any of them, and gives the others nothing. */
  lemma {:induction false} BatchKeepsEach(rows: seq<TierRow>, ids: seq<string>, event: string)
    ensures ListTiers(AnyOf(rows, ids), event) == if event in ids then ListTiers(rows, event) else []
  {
    if |rows| > 0 {
      var n := |rows| - 1;
      BatchKeepsEach(rows[..n], ids, event);
      if rows[n].event in ids {
        ListPush(AnyOf(rows[..n], ids), rows[n], event);
      } else {
        assert AnyOf(rows[..n], ids) + [] == AnyOf(rows[..n], ids);
      }
    }
  }

  /** Along the tiers listed from a price-ordered table, prices never fall. */
  lemma {:induction false} ListInPriceOrder(rows: seq<TierRow>, event: string)
    requires forall i, j :: 0 <= i < j < |rows| ==> rows[i].price <= rows[j].price
    ensures forall i, j :: 0 <= i < j < |ListTiers(rows, event)| ==>
              ListTiers(rows, event)[i].price <= ListTiers(rows, event)[j].price
    ensures |rows| > 0 ==> forall i :: 0 <= i < |ListTiers(rows, event)| ==>
              ListTiers(rows, event)[i].price <= rows[|rows| - 1].price
  {
    if |rows| > 0 {
      ListInPriceOrder(rows[..|rows| - 1], event);
    }
  }

  function IdsOf(events: seq<Event>): (ids: seq<string>)
    ensures |ids| == |events|
    ensures forall i :: 0 <= i < |events| ==> ids[i] == events[i].id
  {
    if |events| == 0 then [] else IdsOf(events[..|events| - 1]) + [events[|events| - 1].id]
  }

  /** The index of events by id, and the ids in order. */
  method IndexById(events: seq<Event>) returns (byId: map<string, Event>, ids: seq<string>)
    requires forall i, j :: 0 <= i < j < |events| ==> events[i].id != events[j].id
    ensures ids == IdsOf(events)
    ensures Indexes(byId, events)
  {
    byId, ids := map[], [];
    for n := 0 to |events|
      invariant ids == IdsOf(events[..n])
      invariant Indexes(byId, events[..n])
    {
      IndexesPush(byId, events[..n], events[n]);
      IdsPush(events, n);
      byId := byId[events[n].id := events[n]];
      ids := ids + [events[n].id];
    }
    assert events[..|events|] == events;
  }

  lemma {:induction false} IdsPush(events: seq<Event>, n: nat)
    requires n < |events|
    ensures events[..n + 1] == events[..n] + [events[n]]
    ensures IdsOf(events[..n + 1]) == IdsOf(events[..n]) + [events[n].id]
  {
    assert events[..n + 1][..n] == events[..n];
  }

  ghost predicate Indexes(byId: map<string, Event>, events: seq<Event>) {
    && (forall i :: 0 <= i < |events| ==> events[i].id in byId && byId[events[i].id] == events[i])
    && (forall id :: id in byId ==> byId[id] in events && byId[id].id == id)
  }

  lemma {:induction false} IndexesPush(byId: map<string, Event>, events: seq<Event>, e: Event)
    requires Indexes(byId, events) && forall i :: 0 <= i < |events| ==> events[i].id != e.id
    ensures Indexes(byId[e.id := e], events + [e])
  {
    var more := events + [e];
    assert more[|events|] == e;
    forall id | id in byId[e.id := e] && id != e.id ensures byId[id] in more {
      var i :| 0 <= i < |events| && events[i] == byId[id];
      assert more[i] == byId[id];
    }
  }

  /** The pass over the batch rows: each row is appended to its event, found through the index. */
  method Distribute(events: seq<Event>, byId: map<string, Event>, rows: seq<TierRow>)
    requires Indexes(byId, events)
    modifies set e | e in events
    ensures forall e :: e in events ==> e.tiers == old(e.tiers) + ListTiers(rows, e.id)
    ensures forall e :: e in events ==> Gained(old(e.tiers), e.tiers, rows, e.id)
  {
    for k := 0 to |rows|
      invariant forall e :: e in events ==> e.tiers == old(e.tiers) + ListTiers(rows[..k], e.id)
    {
      var r := rows[k];
      ghost var before := rows[..k];
      assert rows[..k + 1] == before + [r];
      forall e | e in events
        ensures ListTiers(rows[..k + 1], e.id) == ListTiers(before, e.id) + (if r.event == e.id then [View(r)] else [])
      {
        ListPush(before, r, e.id);
      }
      if r.event in byId {
        var found := byId[r.event];
        found.tiers := found.tiers + [View(r)];
      }
    }
    assert rows[..|rows|] == rows;
    forall e | e in events ensures Gained(old(e.tiers), e.tiers, rows, e.id) {
      ListedIsGained(old(e.tiers), rows, e.id);
    }
  }

  /** Every event gets exactly its own tiers in price order, as if queried alone. `table` is the tier
      table in the order the database sorts it, ties included. */
  method AttachTiers(events: seq<Event>, table: seq<TierRow>)
    requires forall i, j :: 0 <= i < j < |events| ==> events[i].id != events[j].id
    modifies set e | e in events
    ensures forall e :: e in events ==> e.tiers == old(e.tiers) + ListTiers(table, e.id)
    ensures forall e :: e in events ==> Gained(old(e.tiers), e.tiers, table, e.id)
  {
    if |events| == 0 {
      return;
    }
    var byId, ids := IndexById(events);
    var rows := AnyOf(table, ids);
    forall e | e in events ensures ListTiers(rows, e.id) == ListTiers(table, e.id) {
      var i :| 0 <= i < |events| && events[i] == e;
      assert ids[i] == e.id;
      BatchKeepsEach(table, ids, e.id);
    }
    Distribute(events, byId, rows);
    forall e | e in events ensures Gained(old(e.tiers), e.tiers, table, e.id) {
      ListedIsGained(old(e.tiers), table, e.id);
    }
  }
}
