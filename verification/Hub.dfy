/** The hub's own objects: clients grouped by event, and the aggregator that feeds them. */
module Hub {
  import opened Dashboard

  class Subscriber {
    const event: string
    var queue: seq<Snapshot>
    var closed: bool

    constructor (event: string)
      ensures this.event == event && queue == [] && !closed
    {
      this.event := event;
      queue, closed := [], false;
    }
  }

  class Registry {
    var clients: map<string, set<Subscriber>>

    function Watching(event: string): set<Subscriber>
      reads this
    {
      if event in clients then clients[event] else {}
    }

    /** Clients are filed under their event, no group is empty, and no registered channel is closed. */
    ghost predicate Valid()
      reads this, set e, c | e in clients && c in clients[e] :: c
    {
      forall e :: e in clients ==> clients[e] != {} && forall c :: c in clients[e] ==> c.event == e && !c.closed
    }

    constructor ()
      ensures Valid() && clients == map[]
    {
      clients := map[];
    }

    method Register(c: Subscriber)
      requires Valid() && !c.closed
      modifies this
      ensures Valid()
      ensures forall e :: Watching(e) == old(Watching(e)) + (if e == c.event then {c} else {})
    {
      clients := clients[c.event := Watching(c.event) + {c}];
    }

    /** Removes the client before its channel is closed, so no later broadcast can reach it. */
    method Unregister(c: Subscriber)
      requires Valid() && !c.closed
      modifies this, c
      ensures Valid() && c.closed && c.queue == old(c.queue)
      ensures forall e :: Watching(e) == old(Watching(e)) - {c}
    {
      if c.event in clients {
        var rest := clients[c.event] - {c};
        clients := if rest == {} then clients - {c.event} else clients[c.event := rest];
      }
      c.closed := true;
    }

    /** Offers the message to every client of the event, in any order, and to nobody else. */
    method Broadcast(event: string, m: Snapshot)
      requires Valid()
      modifies Watching(event)
      ensures Valid()
      ensures forall c :: c in Watching(event) ==> c.queue == Offer(old(c.queue), m)
    {
      var left := Watching(event);
      while left != {}
        invariant left <= Watching(event)
        invariant Valid()
        invariant forall c :: c in Watching(event) - left ==> c.queue == Offer(old(c.queue), m)
        invariant forall c :: c in left ==> c.queue == old(c.queue)
        decreases left
      {
        var c :| c in left;
        assert !c.closed;
        if |c.queue| < QUEUE {
          c.queue := c.queue + [m];
        }
        left := left - {c};
      }
    }
  }

  /** The consumer's handler: counters first, then the broadcast of what they became. */
  class Aggregator {
    var revenue: map<string, int>
    var sold: map<string, int>
    const hub: Registry

    constructor (hub: Registry)
      ensures this.hub == hub && revenue == map[] && sold == map[]
    {
      this.hub := hub;
      revenue, sold := map[], map[];
    }

    /** Bumps the two totals of the sale's event, each as often as its increment is applied, and offers
        what the two replies said to the event's watchers: 0 for a reply that did not come. */
    method OnPurchase(sale: Sale, revenueReply: Reply, soldReply: Reply)
      requires hub.Valid()
      modifies this, hub.Watching(sale.event)
      ensures hub.Valid()
      ensures forall e :: Counter(revenue, e) ==
                old(Counter(revenue, e)) + (if e == sale.event then Applied(revenueReply) * sale.amount else 0)
      ensures forall e :: Counter(sold, e) ==
                old(Counter(sold, e)) + (if e == sale.event then Applied(soldReply) * sale.quantity else 0)
      ensures forall c :: c in hub.Watching(sale.event) ==>
                c.queue == Offer(old(c.queue), Snapshot(sale.event, Answer(revenueReply, Counter(revenue, sale.event)),
                                                        Answer(soldReply, Counter(sold, sale.event))))
    {
      var total, count := 0, 0;
      if Applied(revenueReply) > 0 {
        revenue := revenue[sale.event := Counter(revenue, sale.event) + Applied(revenueReply) * sale.amount];
        total := Answer(revenueReply, revenue[sale.event]);
      }
      if Applied(soldReply) > 0 {
        sold := sold[sale.event := Counter(sold, sale.event) + Applied(soldReply) * sale.quantity];
        count := Answer(soldReply, sold[sale.event]);
      }
      hub.Broadcast(sale.event, Snapshot(sale.event, total, count));
    }
  }
}
