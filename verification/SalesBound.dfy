/** Analytics never claims more than was sold: the two systems joined by the publication log. */
module SalesBound {
  import opened Sums
  import opened Tables
  import opened Webhook
  import opened Guarantees
  import opened Analytics

  ghost function SoldQuantity(event: nat): Purchase -> int {
    (p: Purchase) => if p.event == event && p.status == Completed then p.quantity else 0
  }

  ghost function SoldAmount(event: nat): Purchase -> int {
    (p: Purchase) => if p.event == event && p.status == Completed then p.amount else 0
  }

  /** The weight of the purchase at a position of the table. */
  ghost function AtRow(ps: seq<Purchase>, w: Purchase -> int): nat -> int {
    (i: nat) => if i < |ps| then w(ps[i]) else 0
  }

  ghost predicate Distinct(picked: seq<nat>) {
    forall i, j :: 0 <= i < j < |picked| ==> picked[i] != picked[j]
  }

  lemma {:induction false} SumSame(picked: seq<nat>, v: nat -> int, w: nat -> int)
    requires forall i :: 0 <= i < |picked| ==> v(picked[i]) == w(picked[i])
    ensures Sum(picked, v) == Sum(picked, w)
  {
    SumLeq(picked, v, w);
    SumLeq(picked, w, v);
  }

  /** The positions other than number `i`, where the last row stands, lie before that row. */
  lemma {:induction false} OthersBefore(picked: seq<nat>, i: nat, n: nat)
    requires Distinct(picked) && i < |picked| && picked[i] == n
    requires forall k :: 0 <= k < |picked| ==> picked[k] <= n
    ensures var rest := picked[..i] + picked[i + 1..];
            Distinct(rest) && forall k :: 0 <= k < |rest| ==> rest[k] < n
  {
    var rest := picked[..i] + picked[i + 1..];
    forall k | 0 <= k < |rest| ensures rest[k] == picked[if k < i then k else k + 1] {
    }
  }

  /** With the last row taken out, the rest are rows of the shorter table. */
  lemma {:induction false} TakeLast(ps: seq<Purchase>, picked: seq<nat>, i: nat, w: Purchase -> int)
    requires |ps| > 0 && Distinct(picked) && forall k :: 0 <= k < |picked| ==> picked[k] < |ps|
    requires i < |picked| && picked[i] == |ps| - 1
    ensures var n: nat, rest: seq<nat> := |ps| - 1, picked[..i] + picked[i + 1..];
            && Distinct(rest) && (forall k :: 0 <= k < |rest| ==> rest[k] < n)
            && Sum(picked, AtRow(ps, w)) == w(ps[n]) + Sum(rest, AtRow(ps[..n], w))
  {
    var n: nat, rest: seq<nat> := |ps| - 1, picked[..i] + picked[i + 1..];
    OthersBefore(picked, i, n);
    SumTakeOut(picked, i, AtRow(ps, w));
    SumSame(rest, AtRow(ps, w), AtRow(ps[..n], w));
  }

  /** Distinct rows weigh no more together than the whole table. */
  lemma {:induction false} PickedAtMostAll(ps: seq<Purchase>, picked: seq<nat>, w: Purchase -> int)
    requires Distinct(picked) && forall i :: 0 <= i < |picked| ==> picked[i] < |ps|
    requires forall i :: 0 <= i < |ps| ==> w(ps[i]) >= 0
    ensures Sum(picked, AtRow(ps, w)) <= Sum(ps, w)
    decreases |ps|
  {
    if |picked| == 0 {
      SumNonNegative(ps, w);
    } else if |ps| > 0 {
      var n := |ps| - 1;
      if n in picked {
        var i :| 0 <= i < |picked| && picked[i] == n;
        TakeLast(ps, picked, i, w);
        PickedAtMostAll(ps[..n], picked[..i] + picked[i + 1..], w);
      } else {
        forall k | 0 <= k < |picked| ensures picked[k] < n {
          assert picked[k] in picked;
        }
        PickedAtMostAll(ps[..n], picked, w);
        SumSame(picked, AtRow(ps, w), AtRow(ps[..n], w));
      }
    }
  }

  /** The event published for a purchase; `name` writes an event's id, `clock` dates the publication. */
  ghost function Sent(ps: seq<Purchase>, published: seq<nat>, name: nat -> string, clock: nat -> int): seq<Event> {
    seq(|published|, i requires 0 <= i < |published| =>
      var p := if published[i] < |ps| then ps[published[i]] else NO_ROW;
      Event(name(p.event), p.amount, p.quantity, clock(i)))
  }

  lemma {:induction false} SentTotals(ps: seq<Purchase>, published: seq<nat>, name: nat -> string,
                                      clock: nat -> int, event: nat)
    requires forall i :: 0 <= i < |published| ==> published[i] < |ps| && ps[published[i]].status == Completed
    requires forall e, f :: name(e) == name(f) ==> e == f
    ensures Sum(Sent(ps, published, name, clock), Analytics.Quantity(name(event))) ==
              Sum(published, AtRow(ps, SoldQuantity(event)))
    ensures Sum(Sent(ps, published, name, clock), Analytics.Amount(name(event))) ==
              Sum(published, AtRow(ps, SoldAmount(event)))
  {
    if |published| > 0 {
      var n := |published| - 1;
      SentTotals(ps, published[..n], name, clock, event);
      assert Sent(ps, published, name, clock)[..n] == Sent(ps, published[..n], name, clock);
    }
  }

  /** In every reachable state of the payment system, whatever part of the published events the
      analytics server has applied and in whatever order, its tickets and revenue for an event never
      exceed those of the event's completed purchases. */
  lemma {:induction false} AnalyticsBounded(run: seq<Webhook.State>, labels: seq<Webhook.Label>, i: nat,
                                            applied: seq<Event>, name: nat -> string, clock: nat -> int, event: nat)
    requires Webhook.IsRun(run, labels) && i < |run|
    requires forall e, f :: name(e) == name(f) ==> e == f
    requires multiset(applied) <= multiset(Sent(run[i].db.purchases, run[i].published, name, clock))
    requires name(event) in Fold(applied)
    ensures Fold(applied)[name(event)].sold <= Sum(run[i].db.purchases, SoldQuantity(event))
    ensures Fold(applied)[name(event)].revenue <= Sum(run[i].db.purchases, SoldAmount(event))
  {
    PublishedOnce(run, labels, i);
    Guarantees.Reachable(run, labels, i);
    TotalsBounded(run[i].db, run[i].published, applied, name, clock, event);
    FoldMeans(applied, name(event));
  }

  lemma {:induction false} SentArePositive(db: Db, published: seq<nat>, name: nat -> string, clock: nat -> int)
    requires RowsOk(db) && forall k :: 0 <= k < |published| ==> published[k] < |db.purchases|
    ensures forall e: Event :: e in multiset(Sent(db.purchases, published, name, clock)) ==>
              e.quantity >= 0 && e.amount >= 0
  {
    var sent := Sent(db.purchases, published, name, clock);
    forall e: Event | e in multiset(sent) ensures e.quantity >= 0 && e.amount >= 0 {
      assert e in sent;
      var k :| 0 <= k < |sent| && sent[k] == e;
      assert PurchaseOk(db.tiers, db.purchases[published[k]]);
    }
  }

  lemma {:induction false} RowsBound(db: Db, published: seq<nat>, event: nat)
    requires RowsOk(db) && Distinct(published) && forall k :: 0 <= k < |published| ==> published[k] < |db.purchases|
    ensures Sum(published, AtRow(db.purchases, SoldQuantity(event))) <= Sum(db.purchases, SoldQuantity(event))
    ensures Sum(published, AtRow(db.purchases, SoldAmount(event))) <= Sum(db.purchases, SoldAmount(event))
  {
    forall k | 0 <= k < |db.purchases|
      ensures SoldQuantity(event)(db.purchases[k]) >= 0 && SoldAmount(event)(db.purchases[k]) >= 0
    {
      assert PurchaseOk(db.tiers, db.purchases[k]);
    }
    PickedAtMostAll(db.purchases, published, SoldQuantity(event));
    PickedAtMostAll(db.purchases, published, SoldAmount(event));
  }

  lemma {:induction false} TotalsBounded(db: Db, published: seq<nat>, applied: seq<Event>, name: nat -> string,
                                         clock: nat -> int, event: nat)
    requires RowsOk(db) && Distinct(published)
    requires forall k :: 0 <= k < |published| ==>
               published[k] < |db.purchases| && db.purchases[published[k]].status == Completed
    requires forall e, f :: name(e) == name(f) ==> e == f
    requires multiset(applied) <= multiset(Sent(db.purchases, published, name, clock))
    ensures Sum(applied, Analytics.Quantity(name(event))) <= Sum(db.purchases, SoldQuantity(event))
    ensures Sum(applied, Analytics.Amount(name(event))) <= Sum(db.purchases, SoldAmount(event))
  {
    SentArePositive(db, published, name, clock);
    SumSub(applied, Sent(db.purchases, published, name, clock), Analytics.Quantity(name(event)));
    SumSub(applied, Sent(db.purchases, published, name, clock), Analytics.Amount(name(event)));
    SentTotals(db.purchases, published, name, clock, event);
    RowsBound(db, published, event);
  }
}
