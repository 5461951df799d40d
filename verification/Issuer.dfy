/** Assigning tokens to the tickets of a purchase: select those without one, then store one by one. */
module Issuer {
  import opened Options
  import opened Sums
  import opened Tables
  import opened Token

  /** `UPDATE tickets SET qr_token = token WHERE id = id`. */
  function Stored(ts: seq<Ticket>, id: string, token: string): (r: seq<Ticket>)
    ensures |r| == |ts|
  {
    seq(|ts|, k requires 0 <= k < |ts| => if ts[k].id == id then ts[k].(token := Some(token)) else ts[k])
  }

  /** Every stored token is the ticket's own. */
  ghost predicate OwnTokens(ts: seq<Ticket>, signer: Signer) {
    forall k :: 0 <= k < |ts| ==> ts[k].token == None || ts[k].token == Some(signer.Token(ts[k].id))
  }

  /** `b` is `a` with some more tickets of purchase `p` holding their own token. */
  ghost predicate IssuedSome(a: seq<Ticket>, b: seq<Ticket>, p: nat, signer: Signer) {
    && |a| == |b|
    && forall k :: 0 <= k < |a| ==>
         || b[k] == a[k]
         || (a[k].purchase == p && a[k].token == None && b[k] == a[k].(token := Some(signer.Token(a[k].id))))
  }

  /** A ticket of purchase `p` with this id has no token. */
  ghost predicate LacksToken(ts: seq<Ticket>, p: nat, id: string) {
    exists k :: 0 <= k < |ts| && ts[k].id == id && ts[k].purchase == p && ts[k].token == None
  }

  /** No two tickets share a token. */
  lemma {:induction false} TokensDistinct(ts: seq<Ticket>, signer: Signer, i: nat, j: nat)
    requires OwnTokens(ts, signer) && UniqueIds(ts) && signer.Proper()
    requires i < j < |ts| && ts[i].token.Some? && ts[j].token.Some?
    ensures ts[i].token != ts[j].token
  {
    if ts[i].token == ts[j].token {
      signer.TokenInjective(ts[i].id, ts[j].id);
    }
  }

  /** The tickets of purchase `p` without a token, counted one by one. */
  function Lacking(p: nat): Ticket -> int {
    (k: Ticket) => if k.purchase == p && k.token == None then 1 else 0
  }

  /** Storing a token where it is missing leaves one ticket less without, and the others as they were. */
  lemma {:induction false} StoreOne(ts: seq<Ticket>, p: nat, id: string, token: string)
    requires UniqueIds(ts) && LacksToken(ts, p, id)
    ensures Sum(Stored(ts, id, token), Lacking(p)) == Sum(ts, Lacking(p)) - 1
    ensures forall other :: other != id && LacksToken(ts, p, other) ==> LacksToken(Stored(ts, id, token), p, other)
  {
    var k :| 0 <= k < |ts| && ts[k].id == id && ts[k].purchase == p && ts[k].token == None;
    assert Stored(ts, id, token) == ts[k := ts[k].(token := Some(token))];
    SumUpdate(ts, k, ts[k].(token := Some(token)), Lacking(p));
    forall other | other != id && LacksToken(ts, p, other) ensures LacksToken(Stored(ts, id, token), p, other) {
      var j :| 0 <= j < |ts| && ts[j].id == other && ts[j].purchase == p && ts[j].token == None;
      assert Stored(ts, id, token)[j] == ts[j];
    }
  }

  /** The first `i` of the selected ids are stored: each filled a gap, and the rest are still missing. */
  ghost predicate Partway(was: seq<Ticket>, ts: seq<Ticket>, p: nat, signer: Signer, ids: seq<string>, i: nat) {
    && i <= |ids| && IssuedSome(was, ts, p, signer) && Sum(ts, Lacking(p)) == |ids| - i
    && (forall k :: 0 <= k < |ts| && was[k].id in ids[..i] ==> ts[k].token.Some?)
    && (forall j :: i <= j < |ids| ==> LacksToken(ts, p, ids[j]))
  }

  lemma {:induction false} PartwayOn(was: seq<Ticket>, ts: seq<Ticket>, p: nat, signer: Signer, ids: seq<string>,
                                     i: nat)
    requires UniqueIds(was) && i < |ids| && Partway(was, ts, p, signer, ids, i)
    requires forall j, k :: 0 <= j < k < |ids| ==> ids[j] != ids[k]
    ensures Partway(was, Stored(ts, ids[i], signer.Token(ids[i])), p, signer, ids, i + 1)
  {
    assert forall k :: 0 <= k < |ts| ==> ts[k].id == was[k].id;
    StoreOne(ts, p, ids[i], signer.Token(ids[i]));
    StoredIsIssued(was, ts, p, signer, ids[i]);
    assert ids[..i + 1] == ids[..i] + [ids[i]];
  }

  lemma {:induction false} StoredIsIssued(was: seq<Ticket>, ts: seq<Ticket>, p: nat, signer: Signer, id: string)
    requires UniqueIds(was) && IssuedSome(was, ts, p, signer) && LacksToken(ts, p, id)
    ensures IssuedSome(was, Stored(ts, id, signer.Token(id)), p, signer)
  {
    var k :| 0 <= k < |ts| && ts[k].id == id && ts[k].purchase == p && ts[k].token == None;
    forall j | 0 <= j < |ts| && ts[j].id == id ensures j == k {
      assert was[j].id == was[k].id;
    }
  }

  class TicketIssuer {
    var tickets: seq<Ticket>
    const signer: Signer

    constructor (signer: Signer, rows: seq<Ticket>)
      ensures tickets == rows && this.signer == signer
    {
      this.signer := signer;
      tickets := rows;
    }

    /** The ids of the purchase's tickets that have no token, each once. */
    method Select(p: nat) returns (ids: seq<string>)
      requires UniqueIds(tickets)
      ensures |ids| == Sum(tickets, Lacking(p)) && forall i, j :: 0 <= i < j < |ids| ==> ids[i] != ids[j]
      ensures |ids| <= |tickets|
      ensures forall k :: 0 <= k < |tickets| && tickets[k].purchase == p && tickets[k].token == None ==>
                tickets[k].id in ids
      ensures forall i :: 0 <= i < |ids| ==> LacksToken(tickets, p, ids[i])
    {
      ids := [];
      var k := 0;
      while k < |tickets|
        invariant |ids| <= k <= |tickets|
        invariant |ids| == Sum(tickets[..k], Lacking(p))
        invariant forall i, j :: 0 <= i < j < |ids| ==> ids[i] != ids[j]
        invariant forall i :: 0 <= i < |ids| ==> exists m :: 0 <= m < k && tickets[m].id == ids[i]
        invariant forall m :: 0 <= m < k && tickets[m].purchase == p && tickets[m].token == None ==>
                  tickets[m].id in ids
        invariant forall i :: 0 <= i < |ids| ==> LacksToken(tickets, p, ids[i])
      {
        assert tickets[..k + 1] == tickets[..k] + [tickets[k]];
        SumPush(tickets[..k], tickets[k], Lacking(p));
        if tickets[k].purchase == p && tickets[k].token == None {
          ids := ids + [tickets[k].id];
        }
        k := k + 1;
      }
      assert tickets[..k] == tickets;
    }

    /** Safe to call again after any failure: a call that gets through leaves no ticket of the
        purchase without its token, a call cut short after `trips` statements leaves a part of that. It gets
        through exactly when there are statements enough, one to select and one for each missing token, and
        every store that does get through fills one gap. */
    method IssueForPurchase(p: nat, trips: nat) returns (ok: bool)
      requires UniqueIds(tickets) && OwnTokens(tickets, signer)
      modifies this`tickets
      ensures IssuedSome(old(tickets), tickets, p, signer)
      ensures OwnTokens(tickets, signer)
      ensures ok ==> forall k :: 0 <= k < |tickets| && tickets[k].purchase == p ==> tickets[k].token.Some?
      ensures trips > |old(tickets)| ==> ok
      ensures ok <==> trips > Sum(old(tickets), Lacking(p))
      ensures Sum(tickets, Lacking(p)) ==
              if ok then 0 else Sum(old(tickets), Lacking(p)) - (if trips == 0 then 0 else trips - 1)
    {
      ghost var was := tickets;
      SumNonNegative(was, Lacking(p));
      if trips == 0 {
        return false;
      }
      var ids := Select(p);
      var i := 0;
      while i < |ids|
        invariant i <= |ids| && (i > 0 ==> trips > i) && Partway(was, tickets, p, signer, ids, i)
      {
        if trips <= i + 1 {
          return false;
        }
        PartwayOn(was, tickets, p, signer, ids, i);
        tickets := Stored(tickets, ids[i], signer.Token(ids[i]));
        i := i + 1;
      }
      assert ids[..i] == ids;
      ok := true;
    }
  }
}
