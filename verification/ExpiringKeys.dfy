/** Redis keys with a time to live, and the claim store the webhook keeps in them. */
module ExpiringKeys {

  datatype Entry = Entry(value: string, expires: int)

  type Keys = map<string, Entry>

  predicate Live(keys: Keys, k: string, now: int) {
    k in keys && now < keys[k].expires
  }

  /** SETNX with a time to live: writes only when the key is absent or expired. */
  function SetNX(keys: Keys, k: string, v: string, now: int, ttl: int): Keys {
    if Live(keys, k, now) then keys else keys[k := Entry(v, now + ttl)]
  }

  // ---------------------------------------------------------------- the claim store

  datatype Call =
    | Acquire(intent: string, now: int) | MarkDone(intent: string, now: int) | Release(intent: string, now: int)

  function After(keys: Keys, c: Call, ttl: int): Keys {
    match c
    case Acquire(k, now) => SetNX(keys, k, "processing", now, ttl)
    case MarkDone(k, now) => keys[k := Entry("done", now + ttl)]
    case Release(k, _) => keys - {k}
  }

  function AfterAll(keys: Keys, cs: seq<Call>, ttl: int): Keys {
    if |cs| == 0 then keys else After(AfterAll(keys, cs[..|cs| - 1], ttl), cs[|cs| - 1], ttl)
  }

  predicate Granted(keys: Keys, c: Call) {
    c.Acquire? && !Live(keys, c.intent, c.now)
  }

  ghost predicate Timely(cs: seq<Call>) {
    forall i, j :: 0 <= i < j < |cs| ==> cs[i].now <= cs[j].now
  }

  /** From a granted claim on, and until it is released, the key stays in place for at least the time to live. */
  lemma {:induction false} ClaimStays(keys: Keys, cs: seq<Call>, ttl: int, i: nat, j: nat)
    requires Timely(cs) && i < j <= |cs| && ttl >= 0
    requires Granted(AfterAll(keys, cs[..i], ttl), cs[i])
    requires forall m :: i < m < j && cs[m].Release? ==> cs[m].intent != cs[i].intent
    ensures var after := AfterAll(keys, cs[..j], ttl);
            cs[i].intent in after && after[cs[i].intent].expires >= cs[i].now + ttl
    decreases j
  {
    assert cs[..j][..j - 1] == cs[..j - 1];
    if j > i + 1 {
      ClaimStays(keys, cs, ttl, i, j - 1);
    }
  }

  /** A claim is exclusive: nobody else gets it before it is released or its time to live is over. */
  lemma {:induction false} ClaimIsExclusive(keys: Keys, cs: seq<Call>, ttl: int, i: nat, j: nat)
    requires Timely(cs) && i < j < |cs| && ttl >= 0
    requires Granted(AfterAll(keys, cs[..i], ttl), cs[i])
    requires Granted(AfterAll(keys, cs[..j], ttl), cs[j]) && cs[j].intent == cs[i].intent
    requires forall m :: i < m < j && cs[m].Release? ==> cs[m].intent != cs[i].intent
    ensures cs[j].now >= cs[i].now + ttl
  {
    ClaimStays(keys, cs, ttl, i, j);
  }

  // ---------------------------------------------------------------- exactly when a claim is live

  /** The call writes the key: a granted acquire, or marking it done. */
  predicate Writes(keys: Keys, c: Call) {
    Granted(keys, c) || c.MarkDone?
  }

  /** Call `i` wrote the key of `intent` less than a time to live ago, and no release came after it. */
  ghost predicate Covers(cs: seq<Call>, ttl: int, i: nat, intent: string, now: int) {
    && i < |cs| && cs[i].intent == intent && Writes(AfterAll(map[], cs[..i], ttl), cs[i])
    && now < cs[i].now + ttl
    && forall m :: i < m < |cs| && cs[m].Release? ==> cs[m].intent != intent
  }

  ghost predicate Covered(cs: seq<Call>, ttl: int, intent: string, now: int) {
    exists i :: Covers(cs, ttl, i, intent, now)
  }

  /** The key as the last call left it: a write covers it from here on, a release uncovers it. */
  lemma {:induction false} CoveredPush(cs: seq<Call>, c: Call, ttl: int, intent: string, now: int)
    ensures Covered(cs + [c], ttl, intent, now) <==>
              if c.intent != intent then Covered(cs, ttl, intent, now)
              else if c.Release? then false
              else Covered(cs, ttl, intent, now) || (Writes(AfterAll(map[], cs, ttl), c) && now < c.now + ttl)
  {
    var all, n := cs + [c], |cs|;
    assert all[..n] == cs;
    forall i: nat | i < n
      ensures Covers(all, ttl, i, intent, now) <==>
                Covers(cs, ttl, i, intent, now) && !(c.Release? && c.intent == intent)
    {
      assert all[..i] == cs[..i];
      if Covers(all, ttl, i, intent, now) {
        assert forall m :: i < m < n ==> all[m] == cs[m];
        assert all[n] == c;
      }
    }
    if c.intent == intent && Writes(AfterAll(map[], cs, ttl), c) && now < c.now + ttl {
      assert Covers(all, ttl, n, intent, now);
    }
    if Covered(cs, ttl, intent, now) && !(c.Release? && c.intent == intent) {
      var i :| Covers(cs, ttl, i, intent, now);
      assert Covers(all, ttl, i, intent, now);
    }
  }

  /** From an empty store on, a key is live exactly when some write of it is younger than the time to
      live and was not released since, whatever else was called in between. */
  lemma {:induction false} LiveIff(cs: seq<Call>, ttl: int, intent: string, now: int)
    requires Timely(cs) && forall i :: 0 <= i < |cs| ==> cs[i].now <= now
    ensures Live(AfterAll(map[], cs, ttl), intent, now) <==> Covered(cs, ttl, intent, now)
  {
    if |cs| > 0 {
      var n := |cs| - 1;
      assert cs == cs[..n] + [cs[n]];
      LiveIff(cs[..n], ttl, intent, now);
      CoveredPush(cs[..n], cs[n], ttl, intent, now);
    }
  }

  /** An acquire is granted exactly when no earlier write of its intent is younger than the time to
      live and unreleased: "true to exactly one caller" holds for that long and no longer. */
  lemma {:induction false} ClaimRunsOut(cs: seq<Call>, ttl: int, j: nat)
    requires Timely(cs) && j < |cs| && cs[j].Acquire?
    ensures Granted(AfterAll(map[], cs[..j], ttl), cs[j]) <==> !Covered(cs[..j], ttl, cs[j].intent, cs[j].now)
  {
    LiveIff(cs[..j], ttl, cs[j].intent, cs[j].now);
  }

  const CLAIM_TTL: int := 24 * 60 * 60 * 1000

  /** The claims on Stripe payment intents. */
  class IdempotencyStore {
    var keys: Keys

    constructor ()
      ensures keys == map[]
    {
      keys := map[];
    }

    /** Grants the claim exactly when no live key stands, and then sets one for 24 hours. */
    method TryAcquire(intent: string, now: int) returns (ok: bool)
      modifies this
      ensures ok <==> !(intent in old(keys) && now < old(keys)[intent].expires)
      ensures keys == if ok then old(keys)[intent := Entry("processing", now + 86_400_000)] else old(keys)
      ensures ok == Granted(old(keys), Acquire(intent, now))
      ensures keys == After(old(keys), Acquire(intent, now), CLAIM_TTL)
    {
      ok := !Live(keys, intent, now);
      if ok {
        keys := keys[intent := Entry("processing", now + CLAIM_TTL)];
      }
    }

    method SetDone(intent: string, now: int)
      modifies this
      ensures keys == old(keys)[intent := Entry("done", now + 86_400_000)]
      ensures keys == After(old(keys), MarkDone(intent, now), CLAIM_TTL)
    {
      keys := keys[intent := Entry("done", now + CLAIM_TTL)];
    }

    method Drop(intent: string, now: int)
      modifies this
      ensures keys == old(keys) - {intent}
      ensures keys == After(old(keys), Release(intent, now), CLAIM_TTL)
    {
      keys := keys - {intent};
    }
  }
}
