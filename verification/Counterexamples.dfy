/**
 * Runs of the payment system that break what its comments claim: one tier of one seat, one purchase.
 */
module Counterexamples {
  import opened Options
  import opened Sums
  import opened Tables
  import opened Webhook
  import ExpiringKeys
  import Claims

  const SEAT := Tier(0, 100, 1, 0)
  const ORDER := Purchase("pi", 0, 0, 0, 100, 1, Pending)
  const SHOP := Db([SEAT], [ORDER], [])
  const QUIET := State(SHOP, map[], map[], [], [], [], map[], [], 10)
  const TICKET := Ticket("t", 0, 0, 0, 0, Valid, None)

  lemma {:induction false} ShopIsConsistent()
    ensures DbInv(SHOP)
  {
    SumPush([], ORDER, SoldTo(0));
    assert [] + [ORDER] == [ORDER];
    assert Sum(SHOP.purchases, SoldTo(0)) == 0 && Sum(SHOP.tickets, OfTier(0)) == 0;
  }

  // ---------------------------------------------------------------- one sale, step by step

  const NEW := Delivery("pi", Claim, 0, NO_ROW, NO_TIER, [], None, None)

  /** The only delivery after `n` of its steps, up to its commit. */
  function Sale(n: nat): Delivery {
    if n <= 2 then NEW.(pc := if n == 0 then Claim else if n == 1 then Begin else LockPurchase)
    else
      var w := NEW.(pc := LockTier, row := ORDER);
      if n == 3 then w
      else if n == 4 then w.(pc := Mint, tier := SEAT)
      else if n == 5 then w.(pc := Bump, tier := SEAT, minted := [TICKET])
      else if n == 6 then w.(pc := MarkCompleted, tier := SEAT, minted := [TICKET], tierWrite := Some(SEAT.(sold := 1)))
      else w.(pc := CommitMint, tier := SEAT, minted := [TICKET], tierWrite := Some(SEAT.(sold := 1)),
              rowWrite := Some(ORDER.(status := Completed)))
  }

  /** State `s` with the sale under way. */
  function During(s: State, n: nat): State {
    s.(deliveries := [Sale(n)], rowLocks := if n >= 3 then map[0 := 0] else map[],
       tierLocks := if n >= 4 then map[0 := 0] else map[])
  }

  lemma {:induction false} SaleStep(s: State, n: nat)
    requires s.db == SHOP && n < 7
    ensures CanDeliver(During(s, n), 0, Good, "t") && DeliverStep(During(s, n), 0, Good, "t") == During(s, n + 1)
  {
    assert SHOP.purchases[..0] == [];
    var s', d := DeliverStep(During(s, n), 0, Good, "t"), During(s, n + 1);
    assert s'.deliveries[0] == Sale(n + 1);
    assert s'.rowLocks == d.rowLocks && s'.tierLocks == d.tierLocks;
  }

  /** The sale up to its commit, from step `n` on. */
  lemma {:induction false} SellUpTo(run: seq<State>, labels: seq<Label>, s: State, n: nat)
    returns (run': seq<State>, labels': seq<Label>)
    requires IsRun(run, labels) && n <= 7 && s.db == SHOP && run[|labels|] == During(s, n)
    ensures IsRun(run', labels') && run'[|labels'|] == During(s, 7)
    decreases 7 - n
  {
    run', labels' := run, labels;
    if n < 7 {
      SaleStep(s, n);
      run', labels' := Extend(run, labels, Deliver(0, Good, "t"));
      run', labels' := SellUpTo(run', labels', s, n + 1);
    }
  }

  const SOLD := Db([SEAT.(sold := 1)], [ORDER.(status := Completed)], [TICKET])

  /** State `s` after the commit, the delivery with `pc` next. */
  function Sold(s: State, pc: Pc): State {
    s.(db := SOLD, deliveries := [Left(Sale(7), pc)], rowLocks := map[], tierLocks := map[])
  }

  lemma {:induction false} CommitStep(s: State)
    requires s.db == SHOP
    ensures CanDeliver(During(s, 7), 0, Good, "") && DeliverStep(During(s, 7), 0, Good, "") == Sold(s, Invalidate)
  {
    var s' := DeliverStep(During(s, 7), 0, Good, "");
    assert s'.db.tiers == SOLD.tiers && s'.db.purchases == SOLD.purchases && s'.db.tickets == SOLD.tickets;
    assert s'.rowLocks == map[] && s'.tierLocks == map[];
  }

  lemma {:induction false} SellAndCommit(run: seq<State>, labels: seq<Label>, s: State)
    returns (run': seq<State>, labels': seq<Label>)
    requires IsRun(run, labels) && run[|labels|] == s
    requires s.db == SHOP && s.deliveries == [] && s.rowLocks == map[] && s.tierLocks == map[]
    ensures IsRun(run', labels') && run'[|labels'|] == Sold(s, Invalidate)
  {
    run', labels' := Extend(run, labels, Arrive("pi"));
    assert run'[|labels'|] == During(s, 0);
    run', labels' := SellUpTo(run', labels', s, 0);
    CommitStep(s);
    run', labels' := Extend(run', labels', Deliver(0, Good, ""));
  }

  // ---------------------------------------------------------------- what goes wrong

  lemma {:induction false} Begun() returns (run: seq<State>, labels: seq<Label>)
    ensures IsRun(run, labels) && run[|labels|] == QUIET
  {
    ShopIsConsistent();
    run, labels := [QUIET], [];
  }

  const LOOKING := QUIET.(readers := [Reader(0, Fill(1))])

  /** A reader that has read the count and not cached it yet. */
  lemma {:induction false} ReadFirst() returns (run: seq<State>, labels: seq<Label>)
    ensures IsRun(run, labels) && run[|labels|] == LOOKING
  {
    run, labels := Begun();
    run, labels := Extend(run, labels, Look(0));
    run, labels := Extend(run, labels, Read(0, Good));
    run, labels := Extend(run, labels, Read(0, Good));
  }

  /** Stale inventory is served: the reader caches its count after the sale's Del, the next one is told
      from the cache that a seat is left. */
  lemma {:induction false} StaleIsServed() returns (run: seq<State>, labels: seq<Label>)
    ensures IsRun(run, labels)
    ensures var s := run[|labels|];
            && |s.db.tiers| == 1 && Remaining(s.db.tiers[0]) == 0
            && |s.readers| == 2 && s.readers[1].pc == Served(1, true)
            && |s.deliveries| == 1 && s.deliveries[0].pc == MarkDone(Created(1))
  {
    run, labels := ReadFirst();
    run, labels := SellAndCommit(run, labels, LOOKING);
    run, labels := Extend(run, labels, Deliver(0, Good, ""));
    assert run[|labels|] == Sold(LOOKING, MarkDone(Created(1)));
    run, labels := ServeStale(run, labels, run[|labels|]);
  }

  lemma {:induction false} ServeStale(run: seq<State>, labels: seq<Label>, s: State)
    returns (run': seq<State>, labels': seq<Label>)
    requires IsRun(run, labels) && run[|labels|] == s && s.readers == [Reader(0, Fill(1))]
    ensures IsRun(run', labels')
    ensures run'[|labels'|] ==
            s.(cache := s.cache[0 := 1], readers := [Reader(0, Served(1, false)), Reader(0, Served(1, true))])
  {
    run', labels' := Extend(run, labels, Read(0, Good));
    run', labels' := Extend(run', labels', Look(0));
    run', labels' := Extend(run', labels', Read(1, Good));
  }

  /** A purchase ends up completed without tokens: the process dies between commit and issue. No later
      delivery will issue them, by `Guarantees.NoLaterIssue`. */
  lemma {:induction false} CompletedWithoutToken() returns (run: seq<State>, labels: seq<Label>)
    ensures IsRun(run, labels)
    ensures var s := run[|labels|];
            && s.db.purchases == [ORDER.(status := Completed)] && s.db.tickets == [TICKET] && TICKET.token == None
            && |s.deliveries| == 1 && s.deliveries[0].pc == Crashed
  {
    run, labels := Begun();
    run, labels := SellAndCommit(run, labels, QUIET);
    run, labels := Extend(run, labels, Deliver(0, Good, ""));
    assert run[|labels|] == Sold(QUIET, MarkDone(Created(1)));
    run, labels := DieAtIssue(run, labels);
  }

  lemma {:induction false} DieAtIssue(run: seq<State>, labels: seq<Label>)
    returns (run': seq<State>, labels': seq<Label>)
    requires IsRun(run, labels) && run[|labels|] == Sold(QUIET, MarkDone(Created(1)))
    ensures IsRun(run', labels') && run'[|labels'|].db == SOLD
    ensures |run'[|labels'|].deliveries| == 1 && run'[|labels'|].deliveries[0].pc == Crashed
  {
    run', labels' := Extend(run, labels, Deliver(0, Good, ""));
    assert run'[|labels'|] == Sold(QUIET, Issue);
    run', labels' := Extend(run', labels', Deliver(0, Died, ""));
  }

  // ---------------------------------------------------------------- a false "already done"

  lemma {:induction false} ExtendClaims(run: seq<Claims.State>, labels: seq<Claims.Label>, l: Claims.Label)
    returns (run': seq<Claims.State>, labels': seq<Claims.Label>)
    requires Claims.IsRun(run, labels) && Claims.Enabled(run[|labels|], l)
    ensures Claims.IsRun(run', labels') && |labels'| == |labels| + 1
    ensures run'[|labels'|] == Claims.Next(run[|labels|], l)
  {
    run', labels' := run + [Claims.Next(run[|labels|], l)], labels + [l];
    forall i | 0 <= i < |labels'| ensures Claims.StepAt(run', labels', i) {
      if i < |labels| {
        assert Claims.StepAt(run, labels, i);
      }
    }
  }

  const TWO := Claims.State(QUIET.(deliveries := [NEW, NEW]), [], [], {}, {}, 0)
  const CLAIMED := TWO.(calls := [ExpiringKeys.Acquire("pi", 0)], who := [0],
                        sys := QUIET.(deliveries := [NEW.(pc := Begin), NEW]))
  const ORPHANED := CLAIMED.(sys := QUIET.(deliveries := [NEW.(pc := Crashed), NEW]))

  lemma {:induction false} TwoArrive() returns (run: seq<Claims.State>, labels: seq<Claims.Label>)
    ensures Claims.IsRun(run, labels) && run[|labels|] == TWO
  {
    ShopIsConsistent();
    run, labels := [Claims.State(QUIET, [], [], {}, {}, 0)], [];
    run, labels := ExtendClaims(run, labels, Claims.Act(Arrive("pi")));
    run, labels := ExtendClaims(run, labels, Claims.Act(Arrive("pi")));
  }

  lemma {:induction false} FirstClaims()
    ensures Claims.Enabled(TWO, Claims.Act(Deliver(0, Good, "")))
    ensures Claims.Next(TWO, Claims.Act(Deliver(0, Good, ""))) == CLAIMED
  {
  }

  lemma {:induction false} FirstDies()
    ensures Claims.Enabled(CLAIMED, Claims.Act(Deliver(0, Died, "")))
    ensures Claims.Next(CLAIMED, Claims.Act(Deliver(0, Died, ""))) == ORPHANED
  {
    var s' := Claims.Next(CLAIMED, Claims.Act(Deliver(0, Died, "")));
    assert s'.sys.rowLocks == map[] && s'.sys.tierLocks == map[];
  }

  lemma {:induction false} SecondIsTaken()
    ensures Claims.Enabled(ORPHANED, Claims.Act(Deliver(1, Taken, "")))
    ensures Claims.Next(ORPHANED, Claims.Act(Deliver(1, Taken, ""))).sys ==
            QUIET.(deliveries := [NEW.(pc := Crashed), NEW.(pc := Finished(ClaimTaken))])
  {
    assert ORPHANED.calls[..0] == [];
    assert ExpiringKeys.Live(Claims.KeysOf(ORPHANED), "pi", 0);
  }

  /** "Already done" is answered for a purchase nobody processed: the second delivery finds the claim of
      a delivery that died, and ends while the purchase is pending and without tickets. */
  lemma {:induction false} TakenWhilePending() returns (run: seq<Claims.State>, labels: seq<Claims.Label>)
    ensures Claims.IsRun(run, labels)
    ensures var s := run[|labels|].sys;
            && s.db == SHOP && |s.deliveries| == 2
            && s.deliveries[0].pc == Crashed && s.deliveries[1].pc == Finished(ClaimTaken)
  {
    run, labels := TwoArrive();
    FirstClaims();
    run, labels := ExtendClaims(run, labels, Claims.Act(Deliver(0, Good, "")));
    FirstDies();
    run, labels := ExtendClaims(run, labels, Claims.Act(Deliver(0, Died, "")));
    SecondIsTaken();
    run, labels := ExtendClaims(run, labels, Claims.Act(Deliver(1, Taken, "")));
  }

  /** A claim is granted twice: nobody released it, its time to live is over. */
  lemma {:induction false} GrantedTwice() returns (run: seq<Claims.State>, labels: seq<Claims.Label>)
    ensures Claims.IsRun(run, labels)
    ensures run[|labels|].sys == QUIET.(deliveries := [NEW.(pc := Begin), NEW.(pc := Begin)])
    ensures run[|labels|].calls == [ExpiringKeys.Acquire("pi", 0), ExpiringKeys.Acquire("pi", ExpiringKeys.CLAIM_TTL)]
  {
    run, labels := TwoArrive();
    FirstClaims();
    run, labels := ExtendClaims(run, labels, Claims.Act(Deliver(0, Good, "")));
    run, labels := ExtendClaims(run, labels, Claims.Tick(ExpiringKeys.CLAIM_TTL));
    SecondClaims();
    run, labels := ExtendClaims(run, labels, Claims.Act(Deliver(1, Good, "")));
  }

  const LATER := CLAIMED.(now := ExpiringKeys.CLAIM_TTL)

  lemma {:induction false} SecondClaims()
    ensures Claims.Enabled(LATER, Claims.Act(Deliver(1, Good, "")))
    ensures var s' := Claims.Next(LATER, Claims.Act(Deliver(1, Good, "")));
            && s'.sys == QUIET.(deliveries := [NEW.(pc := Begin), NEW.(pc := Begin)])
            && s'.calls == [ExpiringKeys.Acquire("pi", 0), ExpiringKeys.Acquire("pi", ExpiringKeys.CLAIM_TTL)]
  {
    assert LATER.calls[..0] == [];
    assert !ExpiringKeys.Live(Claims.KeysOf(LATER), "pi", LATER.now);
  }

  const ALONE := Claims.State(QUIET.(deliveries := [NEW]), [], [], {}, {}, 0)
  const ASKED := ALONE.(calls := [ExpiringKeys.Acquire("pi", 0)], who := [0], resent := {0})

  lemma {:induction false} AskedAgain()
    ensures Claims.Enabled(ALONE, Claims.Resend(0)) && Claims.Next(ALONE, Claims.Resend(0)) == ASKED
    ensures Claims.Enabled(ASKED, Claims.Act(Deliver(0, Taken, "")))
    ensures Claims.Next(ASKED, Claims.Act(Deliver(0, Taken, ""))).sys ==
              QUIET.(deliveries := [NEW.(pc := Finished(ClaimTaken))])
  {
    assert ASKED.calls[..0] == [];
    assert ExpiringKeys.Live(Claims.KeysOf(ASKED), "pi", 0);
  }

  /** One delivery alone is told "already done" by its own claim: the reply to the claim was lost and the
      client of the store asked again. */
  lemma {:induction false} TakenByItself() returns (run: seq<Claims.State>, labels: seq<Claims.Label>)
    ensures Claims.IsRun(run, labels)
    ensures run[|labels|].sys == QUIET.(deliveries := [NEW.(pc := Finished(ClaimTaken))])
  {
    ShopIsConsistent();
    run, labels := [Claims.State(QUIET, [], [], {}, {}, 0)], [];
    run, labels := ExtendClaims(run, labels, Claims.Act(Arrive("pi")));
    AskedAgain();
    run, labels := ExtendClaims(run, labels, Claims.Resend(0));
    run, labels := ExtendClaims(run, labels, Claims.Act(Deliver(0, Taken, "")));
  }

  // ---------------------------------------------------------------- a cap passed

  /** A checkout of 6 by buyer 1, before and after its tier is read. */
  const ASK := Checkout(1, 0, 6, ReadTier, 0, 0, "")
  const SEEN := ASK.(pc := ReadHeld, price := 100)

  function Asks(a: Checkout, b: Checkout): State {
    QUIET.(checkouts := [a, b])
  }

  function Paying(intent: string): Checkout {
    SEEN.(pc := Insert, intent := intent)
  }

  lemma {:induction false} TwoAsk() returns (run: seq<State>, labels: seq<Label>)
    ensures IsRun(run, labels) && run[|labels|] == Asks(SEEN, SEEN)
  {
    run, labels := Begun();
    run, labels := Extend(run, labels, Shop(1, 0, 6));
    run, labels := Extend(run, labels, Shop(1, 0, 6));
    assert run[|labels|] == Asks(ASK, ASK);
    run, labels := Extend(run, labels, Buy(0, Good, ""));
    assert run[|labels|] == Asks(SEEN, ASK);
    run, labels := Extend(run, labels, Buy(1, Good, ""));
  }

  lemma {:induction false} NobodyHolds()
    ensures Held(SHOP, 1, 0) == 0
  {
    SumPush([], ORDER, HeldBy(1, 0));
    assert [] + [ORDER] == [ORDER];
  }

  lemma {:induction false} TwoPass() returns (run: seq<State>, labels: seq<Label>)
    ensures IsRun(run, labels) && run[|labels|] == Asks(Paying("a"), Paying("b"))
  {
    NobodyHolds();
    run, labels := TwoAsk();
    run, labels := Extend(run, labels, Buy(0, Good, ""));
    run, labels := Extend(run, labels, Buy(1, Good, ""));
    assert run[|labels|] == Asks(SEEN.(pc := CreateIntent), SEEN.(pc := CreateIntent));
    run, labels := Extend(run, labels, Buy(0, Good, "a"));
    run, labels := Extend(run, labels, Buy(1, Good, "b"));
  }

  lemma {:induction false} BothInsert()
    ensures CanBuy(Asks(Paying("a"), Paying("b")), 0, Good)
    ensures var s := BuyStep(Asks(Paying("a"), Paying("b")), 0, Good, "");
            && CanBuy(s, 1, Good)
            && BuyStep(s, 1, Good, "").db.purchases == [ORDER, NewRow(Paying("a")), NewRow(Paying("b"))]
  {
    assert [ORDER][..0] == [];
    assert [ORDER, NewRow(Paying("a"))][..1] == [ORDER];
  }

  /** Two checkouts pass the check before either inserts: the buyer holds 12 of 10. */
  lemma {:induction false} CapPassed() returns (run: seq<State>, labels: seq<Label>)
    ensures IsRun(run, labels) && run[|labels|].cap == 10 && Held(run[|labels|].db, 1, 0) == 12
  {
    run, labels := TwoPass();
    BothInsert();
    run, labels := Extend(run, labels, Buy(0, Good, ""));
    run, labels := Extend(run, labels, Buy(1, Good, ""));
    NobodyHolds();
    SumPush([ORDER], NewRow(Paying("a")), HeldBy(1, 0));
    SumPush([ORDER, NewRow(Paying("a"))], NewRow(Paying("b")), HeldBy(1, 0));
    assert [ORDER] + [NewRow(Paying("a"))] == [ORDER, NewRow(Paying("a"))];
    assert [ORDER, NewRow(Paying("a"))] + [NewRow(Paying("b"))] == run[|labels|].db.purchases;
  }
}
