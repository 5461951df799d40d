/** How far the cached and served inventory may lag behind the tables. */
module InventoryCache {
  import opened Tables
  import opened Webhook
  import opened Protocol
  import opened Guarantees

  // ---------------------------------------------------------------- the lag is one of time only

  /** `n` was what remained of tier `t` at some state of the run up to `i`. */
  ghost predicate WasRemaining(run: seq<State>, i: nat, t: nat, n: int) {
    exists j :: 0 <= j <= i && j < |run| && t < |run[j].db.tiers| && Remaining(run[j].db.tiers[t]) == n
  }

  /** Every value in the cache or on its way through a reader is a past truth. */
  ghost predicate PastTruths(run: seq<State>, i: nat)
    requires i < |run|
  {
    && (forall t :: t in run[i].cache ==> WasRemaining(run, i, t, run[i].cache[t]))
    && (forall r :: 0 <= r < |run[i].readers| ==>
          var q := run[i].readers[r];
          (q.pc.Fill? || q.pc.Served? ==> WasRemaining(run, i, q.tier, q.pc.remaining)))
  }

  lemma {:induction false} TruthsStay(run: seq<State>, i: nat, t: nat, n: int)
    requires WasRemaining(run, i, t, n)
    ensures WasRemaining(run, i + 1, t, n)
  {
    var j :| 0 <= j <= i && j < |run| && t < |run[j].db.tiers| && Remaining(run[j].db.tiers[t]) == n;
    assert 0 <= j <= i + 1;
  }

  /** A step leaves cached values alone, drops them, or moves a reader's value in. */
  lemma {:induction false} CacheComesFrom(s: State, l: Label)
    requires Enabled(s, l)
    ensures var s' := Next(s, l);
            && (forall t :: t in s'.cache ==>
                  (t in s.cache && s'.cache[t] == s.cache[t]) ||
                  ((l.Read? || l.Refill?) && l.r < |s.readers| && s.readers[l.r] == Reader(t, Fill(s'.cache[t]))))
            && |s.readers| <= |s'.readers|
            && (forall r :: |s.readers| <= r < |s'.readers| ==> s'.readers[r].pc.Get?)
            && (forall r :: 0 <= r < |s.readers| && !(l.Read? && l.r == r) ==> s'.readers[r] == s.readers[r])
  {
  }

  /** A reader's value comes from the cache, from the table, or from the same reader. */
  lemma {:induction false} ReaderComesFrom(s: State, r: nat, reply: Reply)
    requires CanRead(s, r, reply)
    ensures var q, q' := s.readers[r], ReadStep(s, r, reply).readers[r];
            && q'.tier == q.tier
            && (q'.pc.Fill? ==> q.tier < |s.db.tiers| && q'.pc.remaining == Remaining(s.db.tiers[q.tier]))
            && (q'.pc.Served? ==>
                  (q.tier in s.cache && q'.pc.remaining == s.cache[q.tier]) || q.pc == Fill(q'.pc.remaining))
  {
  }

  lemma {:induction false} StepKeepsTruths(run: seq<State>, labels: seq<Label>, i: nat)
    requires |run| == |labels| + 1 && i < |labels| && StepAt(run, labels, i) && PastTruths(run, i)
    ensures PastTruths(run, i + 1)
  {
    var s, s', l := run[i], run[i + 1], labels[i];
    CacheComesFrom(s, l);
    forall t | t in s'.cache ensures WasRemaining(run, i + 1, t, s'.cache[t]) {
      TruthsStay(run, i, t, s'.cache[t]);
    }
    forall r | 0 <= r < |s'.readers| && (s'.readers[r].pc.Fill? || s'.readers[r].pc.Served?)
      ensures WasRemaining(run, i + 1, s'.readers[r].tier, s'.readers[r].pc.remaining)
    {
      if l.Read? && l.r == r {
        ReaderComesFrom(s, r, l.reply);
      }
      var q' := s'.readers[r];
      if l.Read? && l.r == r && q'.pc.Fill? {
        assert 0 <= i <= i + 1 && Remaining(run[i].db.tiers[q'.tier]) == q'.pc.remaining;
      } else {
        TruthsStay(run, i, q'.tier, q'.pc.remaining);
      }
    }
  }

  lemma {:induction false} TruthsInRun(run: seq<State>, labels: seq<Label>, i: nat)
    requires IsRun(run, labels) && i < |run|
    ensures PastTruths(run, i)
  {
    if i > 0 {
      TruthsInRun(run, labels, i - 1);
      assert StepAt(run, labels, i - 1);
      StepKeepsTruths(run, labels, i - 1);
    }
  }

  lemma {:induction false} PastIsNotBelow(run: seq<State>, labels: seq<Label>, i: nat, t: nat, n: int)
    requires IsRun(run, labels) && i < |run| && WasRemaining(run, i, t, n)
    ensures t < |run[i].db.tiers| && Remaining(run[i].db.tiers[t]) <= n
  {
    var j :| 0 <= j <= i && j < |run| && t < |run[j].db.tiers| && Remaining(run[j].db.tiers[t]) == n;
    RunMovesForward(run, labels, j, i);
    assert TierEvolves(run[j].db.tiers[t], run[i].db.tiers[t]);
  }

  /** Whatever races happen: a cached or served count was the true count of some earlier committed
      state, and never understates what is left. */
  lemma {:induction false} MonotoneLag(run: seq<State>, labels: seq<Label>, i: nat)
    requires IsRun(run, labels) && i < |run|
    ensures forall t :: t in run[i].cache ==>
              && WasRemaining(run, i, t, run[i].cache[t])
              && t < |run[i].db.tiers| && Remaining(run[i].db.tiers[t]) <= run[i].cache[t]
    ensures forall r :: 0 <= r < |run[i].readers| && run[i].readers[r].pc.Served? ==>
              var q := run[i].readers[r];
              && WasRemaining(run, i, q.tier, q.pc.remaining)
              && q.tier < |run[i].db.tiers| && Remaining(run[i].db.tiers[q.tier]) <= q.pc.remaining
  {
    TruthsInRun(run, labels, i);
    forall t | t in run[i].cache
      ensures t < |run[i].db.tiers| && Remaining(run[i].db.tiers[t]) <= run[i].cache[t]
    {
      PastIsNotBelow(run, labels, i, t, run[i].cache[t]);
    }
    forall r | 0 <= r < |run[i].readers| && run[i].readers[r].pc.Served?
      ensures run[i].readers[r].tier < |run[i].db.tiers|
      ensures Remaining(run[i].db.tiers[run[i].readers[r].tier]) <= run[i].readers[r].pc.remaining
    {
      PastIsNotBelow(run, labels, i, run[i].readers[r].tier, run[i].readers[r].pc.remaining);
    }
  }

  // ---------------------------------------------------------------- when the cache is exact

  ghost predicate AwaitsDel(s: State, t: nat) {
    exists d :: 0 <= d < |s.deliveries| && s.deliveries[d].pc.Invalidate? && s.deliveries[d].row.tier == t
  }

  /** No fill of a tier straddles a commit of that tier, and every minting commit is followed by a
      Del that works: its reply is not lost before it and neither fails nor dies on it. */
  ghost predicate Orderly(s: State, l: Label) {
    l.Deliver? && l.d < |s.deliveries| ==>
      var w := s.deliveries[l.d];
      && (w.pc.CommitMint? ==> !l.reply.LostAck?)
      && (w.pc.CommitMint? && l.reply.Good? ==>
            forall r :: 0 <= r < |s.readers| && s.readers[r].pc.Fill? ==> s.readers[r].tier != w.row.tier)
      && (w.pc.Invalidate? ==> !l.reply.Bad? && !l.reply.Died?)
  }

  ghost predicate ExactOrAwaiting(s: State) {
    && (forall t :: t in s.cache ==>
          t < |s.db.tiers| && (s.cache[t] == Remaining(s.db.tiers[t]) || AwaitsDel(s, t)))
    && (forall r :: 0 <= r < |s.readers| && s.readers[r].pc.Fill? ==>
          var q := s.readers[r];
          q.tier < |s.db.tiers| && q.pc.remaining == Remaining(s.db.tiers[q.tier]))
  }

  /** A committed change of a tier is announced: the delivery that made it awaits its Del. */
  lemma {:induction false} DeliverTiers(s: State, d: nat, reply: Reply, id: string, t: nat)
    requires DeliveriesOk(s) && d < |s.deliveries| && t < |s.db.tiers| && Orderly(s, Deliver(d, reply, id))
    requires reply.Taken? ==> s.deliveries[d].pc.Claim?
    ensures var s' := DeliverStep(s, d, reply, id);
            && |s'.db.tiers| == |s.db.tiers|
            && (s'.db.tiers[t] == s.db.tiers[t] ||
                (AwaitsDel(s', t) && s.deliveries[d].pc.CommitMint? && reply.Good? && s.deliveries[d].row.tier == t))
  {
    var w := s.deliveries[d];
    assert DeliveryOk(s.db, s.rowLocks, s.tierLocks, d, w);
    var s' := DeliverStep(s, d, reply, id);
    if s'.db.tiers[t] != s.db.tiers[t] {
      assert s'.deliveries[d].pc.Invalidate? && s'.deliveries[d].row.tier == t;
    }
  }

  lemma {:induction false} StillAwaits(s: State, d: nat, reply: Reply, id: string, t: nat)
    requires d < |s.deliveries| && Orderly(s, Deliver(d, reply, id)) && AwaitsDel(s, t)
    ensures var s' := DeliverStep(s, d, reply, id); AwaitsDel(s', t) || t !in s'.cache
  {
    var e :| 0 <= e < |s.deliveries| && s.deliveries[e].pc.Invalidate? && s.deliveries[e].row.tier == t;
    var s' := DeliverStep(s, d, reply, id);
    if e != d {
      assert s'.deliveries[e] == s.deliveries[e];
    }
  }

  lemma {:induction false} DeliverKeepsExact(s: State, d: nat, reply: Reply, id: string)
    requires DeliveriesOk(s) && d < |s.deliveries| && ExactOrAwaiting(s) && Orderly(s, Deliver(d, reply, id))
    requires reply.Taken? ==> s.deliveries[d].pc.Claim?
    ensures ExactOrAwaiting(DeliverStep(s, d, reply, id))
  {
    var s' := DeliverStep(s, d, reply, id);
    forall t | t in s'.cache
      ensures t < |s'.db.tiers| && (s'.cache[t] == Remaining(s'.db.tiers[t]) || AwaitsDel(s', t))
    {
      assert t in s.cache && s.cache[t] == s'.cache[t];
      DeliverTiers(s, d, reply, id, t);
      if AwaitsDel(s, t) {
        StillAwaits(s, d, reply, id, t);
      }
    }
    forall r | 0 <= r < |s'.readers| && s'.readers[r].pc.Fill?
      ensures s'.readers[r].tier < |s'.db.tiers| &&
              s'.readers[r].pc.remaining == Remaining(s'.db.tiers[s'.readers[r].tier])
    {
      DeliverTiers(s, d, reply, id, s.readers[r].tier);
    }
  }

  lemma {:induction false} OthersKeepTiers(s: State, l: Label)
    requires Enabled(s, l) && !l.Deliver?
    ensures var s' := Next(s, l);
            && |s.db.tiers| <= |s'.db.tiers| && (forall t :: 0 <= t < |s.db.tiers| ==> s'.db.tiers[t] == s.db.tiers[t])
            && |s.deliveries| <= |s'.deliveries|
            && (forall d :: 0 <= d < |s.deliveries| ==> s'.deliveries[d] == s.deliveries[d])
  {
  }

  lemma {:induction false} OthersKeepExact(s: State, l: Label)
    requires Enabled(s, l) && !l.Deliver? && ExactOrAwaiting(s)
    ensures ExactOrAwaiting(Next(s, l))
  {
    var s' := Next(s, l);
    OthersKeepTiers(s, l);
    CacheComesFrom(s, l);
    if l.Read? {
      ReaderComesFrom(s, l.r, l.reply);
    }
    forall t | AwaitsDel(s, t) ensures AwaitsDel(s', t) {
      var d :| 0 <= d < |s.deliveries| && s.deliveries[d].pc.Invalidate? && s.deliveries[d].row.tier == t;
      assert s'.deliveries[d] == s.deliveries[d];
    }
  }

  /** In an orderly run a cached count is exact whenever no committed sale of its tier awaits its Del. */
  lemma {:induction false} ExactWhenSettled(run: seq<State>, labels: seq<Label>, i: nat)
    requires IsRun(run, labels) && i < |run|
    requires forall k :: 0 <= k < i ==> Orderly(run[k], labels[k])
    ensures ExactOrAwaiting(run[i])
    ensures forall t :: t in run[i].cache && !AwaitsDel(run[i], t) ==>
              t < |run[i].db.tiers| && run[i].cache[t] == Remaining(run[i].db.tiers[t])
  {
    if i > 0 {
      ExactWhenSettled(run, labels, i - 1);
      assert StepAt(run, labels, i - 1);
      var s, l := run[i - 1], labels[i - 1];
      if l.Deliver? {
        Reachable(run, labels, i - 1);
        DeliverKeepsExact(s, l.d, l.reply, l.id);
      } else {
        OthersKeepExact(s, l);
      }
    }
  }

  // ---------------------------------------------------------------- exactly when a cached count can be wrong

  /** The cached count of tier `t`, if any, is right. */
  ghost predicate Exact(s: State, t: nat) {
    t in s.cache ==> t < |s.db.tiers| && s.cache[t] == Remaining(s.db.tiers[t])
  }

  ghost predicate Filling(s: State, r: nat, t: nat) {
    r < |s.readers| && s.readers[r].pc.Fill? && s.readers[r].tier == t
  }

  /** The cached count is right and so is every count a reader is about to cache. */
  ghost predicate Fresh(s: State, t: nat) {
    && Exact(s, t)
    && forall r: nat :: Filling(s, r, t) ==> t < |s.db.tiers| && s.readers[r].pc.remaining == Remaining(s.db.tiers[t])
  }

  /** A step that leaves tier `t` as it is: anything but a committed sale of it. */
  ghost predicate NoSale(s: State, l: Label, t: nat) {
    && Enabled(s, l) && t < |s.db.tiers|
    && t < |Next(s, l).db.tiers| && Next(s, l).db.tiers[t] == s.db.tiers[t]
  }

  ghost predicate NoSales(s: State, labels: seq<Label>, t: nat)
    decreases |labels|
  {
    |labels| > 0 ==> NoSale(s, labels[0], t) && NoSales(Next(s, labels[0]), labels[1..], t)
  }

  ghost function After(s: State, labels: seq<Label>, t: nat): State
    requires NoSales(s, labels, t)
    decreases |labels|
  {
    if |labels| == 0 then s else After(Next(s, labels[0]), labels[1..], t)
  }

  lemma {:induction false} StepKeepsFresh(s: State, l: Label, t: nat)
    requires NoSale(s, l, t) && Fresh(s, t)
    ensures Fresh(Next(s, l), t)
  {
    CacheComesFrom(s, l);
    if l.Read? {
      ReaderComesFrom(s, l.r, l.reply);
    }
    var s' := Next(s, l);
    forall r: nat | Filling(s', r, t) ensures s'.readers[r].pc.remaining == Remaining(s'.db.tiers[t]) {
      if !(l.Read? && l.r == r) {
        assert Filling(s, r, t);
      }
    }
    if t in s'.cache && (l.Read? || l.Refill?) && s.readers[l.r].pc.Fill? && s.readers[l.r].tier == t {
      assert Filling(s, l.r, t);
    }
  }

  lemma {:induction false} StaysFresh(s: State, labels: seq<Label>, t: nat)
    requires NoSales(s, labels, t) && Fresh(s, t)
    ensures Fresh(After(s, labels, t), t)
    decreases |labels|
  {
    if |labels| > 0 {
      StepKeepsFresh(s, labels[0], t);
      StaysFresh(Next(s, labels[0]), labels[1..], t);
    }
  }

  /** Whatever readers, deliveries and everybody else do next, as long as no sale of the tier is
      committed, its cached count stays right: exactly when it is right and no reader holds a wrong one. */
  lemma {:induction false} ExactForGoodIff(s: State, t: nat)
    requires t < |s.db.tiers|
    ensures (forall labels :: NoSales(s, labels, t) ==> Exact(After(s, labels, t), t)) <==> Fresh(s, t)
  {
    if Fresh(s, t) {
      forall labels | NoSales(s, labels, t) ensures Exact(After(s, labels, t), t) {
        StaysFresh(s, labels, t);
      }
    } else if !Exact(s, t) {
      var none: seq<Label> := [];
      assert NoSales(s, none, t) && After(s, none, t) == s;
      assert !Exact(After(s, none, t), t);
    } else {
      var r: nat :| Filling(s, r, t) && s.readers[r].pc.remaining != Remaining(s.db.tiers[t]);
      FillSpoils(s, r, t);
    }
  }

  lemma {:induction false} FillSpoils(s: State, r: nat, t: nat)
    requires t < |s.db.tiers| && Filling(s, r, t) && s.readers[r].pc.remaining != Remaining(s.db.tiers[t])
    ensures NoSales(s, [Read(r, Good)], t) && !Exact(After(s, [Read(r, Good)], t), t)
  {
    var l := Read(r, Good);
    assert Next(s, l) == ReadStep(s, r, Good);
    assert [l][1..] == [] && NoSales(Next(s, l), [], t);
    assert After(s, [l], t) == After(Next(s, l), [], t) == Next(s, l);
  }

  /** A committed mint lowers what remains of its tier by its quantity, and its Del comes next. */
  lemma {:induction false} MintLowersRemaining(s: State, d: nat)
    requires DbInv(s.db) && DeliveriesOk(s) && d < |s.deliveries| && s.deliveries[d].pc.CommitMint?
    ensures var w, s' := s.deliveries[d], DeliverStep(s, d, Good, "");
            && w.row.tier < |s.db.tiers| == |s'.db.tiers| && w.row.quantity > 0
            && Remaining(s'.db.tiers[w.row.tier]) == Remaining(s.db.tiers[w.row.tier]) - w.row.quantity
            && s'.deliveries[d] == Left(w, Invalidate) && s'.readers == s.readers && s'.cache == s.cache
  {
    var w := s.deliveries[d];
    assert DeliveryOk(s.db, s.rowLocks, s.tierLocks, d, w);
    assert PurchaseOk(s.db.tiers, s.db.purchases[w.p]);
  }

  lemma {:induction false} DelChangesCacheOnly(s: State, d: nat, reply: Reply)
    requires d < |s.deliveries| && s.deliveries[d].pc.Invalidate? && !reply.Taken?
    ensures CanDeliver(s, d, reply, "")
    ensures var s' := DeliverStep(s, d, reply, "");
            && s'.db == s.db && s'.readers == s.readers
            && s'.cache == if reply.Bad? || reply.Died? then s.cache else s.cache - {s.deliveries[d].row.tier}
  {
  }

  /** No cached count and no count on its way is below the true one; `MonotoneLag` keeps it so. */
  ghost predicate NotBelow(s: State, t: nat)
    requires t < |s.db.tiers|
  {
    && (t in s.cache ==> s.cache[t] >= Remaining(s.db.tiers[t]))
    && forall r: nat :: Filling(s, r, t) ==> s.readers[r].pc.remaining >= Remaining(s.db.tiers[t])
  }

  /** After a committed sale and its Del, which gets the given reply, the tier's cached count can be
      trusted until the next sale exactly when no reader was filling it at the commit and the Del
      worked or had nothing to delete. */
  lemma {:induction false} SaleIsSeenIff(s: State, d: nat, reply: Reply)
    requires DbInv(s.db) && DeliveriesOk(s) && d < |s.deliveries| && s.deliveries[d].pc.CommitMint? && !reply.Taken?
    requires s.deliveries[d].row.tier < |s.db.tiers| && NotBelow(s, s.deliveries[d].row.tier)
    ensures CanDeliver(s, d, Good, "") && CanDeliver(DeliverStep(s, d, Good, ""), d, reply, "")
    ensures var t, s' := s.deliveries[d].row.tier, DeliverStep(DeliverStep(s, d, Good, ""), d, reply, "");
            (forall labels :: NoSales(s', labels, t) ==> Exact(After(s', labels, t), t)) <==>
              (forall r: nat :: !Filling(s, r, t)) && (reply.Good? || reply.LostAck? || t !in s.cache)
  {
    var t, s' := s.deliveries[d].row.tier, DeliverStep(DeliverStep(s, d, Good, ""), d, reply, "");
    MintLowersRemaining(s, d);
    DelChangesCacheOnly(DeliverStep(s, d, Good, ""), d, reply);
    ExactForGoodIff(s', t);
    SaleMakesStale(s, s', t);
  }

  /** A Del, whatever happened since the commit it follows, makes the tier's cached count one to trust
      until the next sale exactly when no reader holds a wrong count and the Del worked or was not needed. */
  lemma {:induction false} DelSufficesIff(s: State, d: nat, reply: Reply)
    requires d < |s.deliveries| && s.deliveries[d].pc.Invalidate? && !reply.Taken?
    requires s.deliveries[d].row.tier < |s.db.tiers|
    ensures CanDeliver(s, d, reply, "")
    ensures var t, s' := s.deliveries[d].row.tier, DeliverStep(s, d, reply, "");
            (forall labels :: NoSales(s', labels, t) ==> Exact(After(s', labels, t), t)) <==>
              && (forall r: nat :: Filling(s, r, t) ==> s.readers[r].pc.remaining == Remaining(s.db.tiers[t]))
              && (reply.Good? || reply.LostAck? || Exact(s, t))
  {
    var t, s' := s.deliveries[d].row.tier, DeliverStep(s, d, reply, "");
    DelChangesCacheOnly(s, d, reply);
    ExactForGoodIff(s', t);
    forall r: nat ensures Filling(s', r, t) == Filling(s, r, t) {
    }
  }

  lemma {:induction false} SaleMakesStale(s: State, s': State, t: nat)
    requires t < |s.db.tiers| && t < |s'.db.tiers| && NotBelow(s, t) && s'.readers == s.readers
    requires Remaining(s'.db.tiers[t]) < Remaining(s.db.tiers[t])
    requires t in s'.cache ==> t in s.cache && s'.cache[t] == s.cache[t]
    ensures Fresh(s', t) <==> t !in s'.cache && forall r: nat :: !Filling(s, r, t)
  {
    forall r: nat ensures Filling(s', r, t) == Filling(s, r, t) {
    }
  }

  /** In every reachable state the premise of `SaleIsSeenIff` holds. */
  lemma {:induction false} NeverBelow(run: seq<State>, labels: seq<Label>, i: nat, t: nat)
    requires IsRun(run, labels) && i < |run| && t < |run[i].db.tiers|
    ensures NotBelow(run[i], t)
  {
    TruthsInRun(run, labels, i);
    if t in run[i].cache {
      PastIsNotBelow(run, labels, i, t, run[i].cache[t]);
    }
    forall r: nat | Filling(run[i], r, t) ensures run[i].readers[r].pc.remaining >= Remaining(run[i].db.tiers[t]) {
      PastIsNotBelow(run, labels, i, t, run[i].readers[r].pc.remaining);
    }
  }

  /** A fill that straddles a commit of its tier leaves, even after a Del that works, a count that is
      too high by exactly the quantity sold in between, for as long as the entry lives. */
  lemma {:induction false} StraddlingFillIsStale(s: State, d: nat, r: nat)
    requires DbInv(s.db) && DeliveriesOk(s) && d < |s.deliveries| && s.deliveries[d].pc.CommitMint?
    requires r < |s.readers| && s.readers[r].tier == s.deliveries[d].row.tier
    requires s.readers[r].tier < |s.db.tiers| && s.readers[r].pc == Fill(Remaining(s.db.tiers[s.readers[r].tier]))
    ensures CanDeliver(s, d, Good, "") && CanDeliver(DeliverStep(s, d, Good, ""), d, Good, "")
    ensures var t, s' := s.readers[r].tier, DeliverStep(DeliverStep(s, d, Good, ""), d, Good, "");
            && CanRead(s', r, Good)
            && var end := ReadStep(s', r, Good);
            && t in end.cache && t < |end.db.tiers| && end.readers[r].pc == Served(end.cache[t], false)
            && end.cache[t] == Remaining(end.db.tiers[t]) + s.deliveries[d].row.quantity > Remaining(end.db.tiers[t])
  {
    MintLowersRemaining(s, d);
    DelChangesCacheOnly(DeliverStep(s, d, Good, ""), d, Good);
  }

  // ---------------------------------------------------------------- where every cached count comes from

  /** At step `k` reader `r` reads the count of tier `t` from the table. */
  ghost predicate SelectedAt(run: seq<State>, labels: seq<Label>, k: nat, r: nat, t: nat) {
    && k < |run| && k < |labels| && labels[k] == Read(r, Good)
    && r < |run[k].readers| && run[k].readers[r] == Reader(t, Select) && t < |run[k].db.tiers|
  }

  /** At step `k` reader `r` puts its count of tier `t` into the cache. */
  ghost predicate FilledAt(run: seq<State>, labels: seq<Label>, k: nat, r: nat, t: nat) {
    && k < |run| && k < |labels| && (labels[k].Read? || labels[k].Refill?) && labels[k].r == r
    && Filling(run[k], r, t)
  }

  /** At step `k` a sale of tier `t` is committed, whether or not the caller learns of it. */
  ghost predicate SoldAt(run: seq<State>, labels: seq<Label>, k: nat, t: nat) {
    k < |run| && k < |labels| && Sells(run[k], labels[k], t)
  }

  ghost predicate Sells(s: State, l: Label, t: nat) {
    && l.Deliver? && l.d < |s.deliveries| && s.deliveries[l.d].pc.CommitMint?
    && s.deliveries[l.d].row.tier == t && (l.reply.Good? || l.reply.LostAck?)
  }

  /** `sold` rises at the committed sales of the tier and at no other step. */
  lemma {:induction false} SoldRisesIff(s: State, l: Label, t: nat)
    requires Inv(s) && Enabled(s, l) && t < |s.db.tiers|
    ensures t < |Next(s, l).db.tiers|
    ensures if Sells(s, l, t) then Next(s, l).db.tiers[t].sold > s.db.tiers[t].sold
            else Next(s, l).db.tiers[t] == s.db.tiers[t]
  {
    if l.Deliver? {
      DeliverySells(s, l.d, l.reply, l.id, t);
    } else {
      OthersKeepTiers(s, l);
    }
  }

  lemma {:induction false} DeliverySells(s: State, d: nat, reply: Reply, id: string, t: nat)
    requires RowsOk(s.db) && DeliveriesOk(s) && d < |s.deliveries| && t < |s.db.tiers|
    requires reply.Taken? ==> s.deliveries[d].pc.Claim?
    ensures t < |DeliverStep(s, d, reply, id).db.tiers|
    ensures if Sells(s, Deliver(d, reply, id), t)
            then DeliverStep(s, d, reply, id).db.tiers[t].sold > s.db.tiers[t].sold
            else DeliverStep(s, d, reply, id).db.tiers[t] == s.db.tiers[t]
  {
    var w := s.deliveries[d];
    assert DeliveryOk(s.db, s.rowLocks, s.tierLocks, d, w);
    if w.pc.CommitMint? {
      assert PurchaseOk(s.db.tiers, s.db.purchases[w.p]);
    }
  }

  lemma {:induction false} SoldAtStep(run: seq<State>, labels: seq<Label>, k: nat, t: nat)
    requires IsRun(run, labels) && k < |labels| && t < |run[k].db.tiers|
    ensures t < |run[k + 1].db.tiers|
    ensures run[k + 1].db.tiers[t] == run[k].db.tiers[t].(sold := run[k + 1].db.tiers[t].sold)
    ensures if SoldAt(run, labels, k, t) then run[k + 1].db.tiers[t].sold > run[k].db.tiers[t].sold
            else run[k + 1].db.tiers[t] == run[k].db.tiers[t]
  {
    Reachable(run, labels, k);
    assert StepAt(run, labels, k);
    SoldRisesIff(run[k], labels[k], t);
    RunStepForward(run, labels, k);
    assert TierEvolves(run[k].db.tiers[t], run[k + 1].db.tiers[t]);
  }

  /** Between two states of a run `sold` is the same exactly when no sale of the tier was committed. */
  lemma {:induction false} SameSoldIff(run: seq<State>, labels: seq<Label>, j: nat, i: nat, t: nat)
    requires IsRun(run, labels) && j <= i < |run| && t < |run[j].db.tiers|
    ensures t < |run[i].db.tiers| && run[j].db.tiers[t].sold <= run[i].db.tiers[t].sold
    ensures run[i].db.tiers[t] == run[j].db.tiers[t].(sold := run[i].db.tiers[t].sold)
    ensures run[j].db.tiers[t].sold == run[i].db.tiers[t].sold <==>
              forall k :: j <= k < i ==> !SoldAt(run, labels, k, t)
    decreases i
  {
    if j < i {
      SameSoldIff(run, labels, j, i - 1, t);
      SoldAtStep(run, labels, i - 1, t);
    }
  }

  /** What a reader is about to cache it read from the table at an earlier step. */
  lemma {:induction false} ReaderSelected(run: seq<State>, labels: seq<Label>, i: nat, r: nat, t: nat) returns (j: nat)
    requires IsRun(run, labels) && i < |run| && Filling(run[i], r, t)
    ensures j < i && SelectedAt(run, labels, j, r, t) && run[i].readers[r].pc.remaining == Remaining(run[j].db.tiers[t])
  {
    assert i > 0;
    assert StepAt(run, labels, i - 1);
    var s, l := run[i - 1], labels[i - 1];
    CacheComesFrom(s, l);
    if l.Read? && l.r == r {
      j := i - 1;
    } else {
      j := ReaderSelected(run, labels, i - 1, r, t);
    }
  }

  /** The step that cached the count there is now. */
  lemma {:induction false} LastFill(run: seq<State>, labels: seq<Label>, i: nat, t: nat) returns (m: nat, r: nat)
    requires IsRun(run, labels) && i < |run| && t in run[i].cache
    ensures m < i && FilledAt(run, labels, m, r, t) && run[m].readers[r].pc.remaining == run[i].cache[t]
    ensures forall k :: m < k <= i ==> t in run[k].cache && run[k].cache[t] == run[i].cache[t]
  {
    assert i > 0;
    assert StepAt(run, labels, i - 1);
    var s, l := run[i - 1], labels[i - 1];
    CacheComesFrom(s, l);
    if (l.Read? || l.Refill?) && l.r < |s.readers| && s.readers[l.r] == Reader(t, Fill(run[i].cache[t])) {
      m, r := i - 1, l.r;
    } else {
      m, r := LastFill(run, labels, i - 1, t);
    }
  }

  /** Every cached count in every run: some reader `r` read it at step `j` and cached it at step `m`,
      where it has stayed; it is too high by exactly what was sold since step `j`; and it is right
      exactly when no sale of the tier was committed since then. */
  lemma {:induction false} CountIsFrom(run: seq<State>, labels: seq<Label>, i: nat, t: nat)
    returns (j: nat, m: nat, r: nat)
    requires IsRun(run, labels) && i < |run| && t in run[i].cache
    ensures j < m < i && SelectedAt(run, labels, j, r, t) && FilledAt(run, labels, m, r, t)
    ensures forall k :: m < k <= i ==> t in run[k].cache && run[k].cache[t] == run[i].cache[t]
    ensures t < |run[i].db.tiers|
    ensures run[i].cache[t] == Remaining(run[i].db.tiers[t]) + run[i].db.tiers[t].sold - run[j].db.tiers[t].sold
    ensures Exact(run[i], t) <==> forall k :: j <= k < i ==> !SoldAt(run, labels, k, t)
  {
    m, r := LastFill(run, labels, i, t);
    j := ReaderSelected(run, labels, m, r, t);
    SameSoldIff(run, labels, j, i, t);
    NeverOversold(run, labels, i, t);
    NeverOversold(run, labels, j, t);
  }
}
