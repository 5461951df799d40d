/** Signed ticket tokens: the id, a dot, the signature text. */
module Token {
  import opened Options

  /** Index of the last '.', or -1. */
  function LastDot(t: string): (i: int)
    ensures -1 <= i < |t|
    ensures i >= 0 ==> t[i] == '.'
    ensures forall k :: i < k < |t| ==> t[k] != '.'
  {
    LastDotBefore(t, |t|)
  }

  /** Index of the last '.' before position `n`, or -1. */
  function LastDotBefore(t: string, n: nat): (i: int)
    requires n <= |t|
    ensures -1 <= i < n
    ensures i >= 0 ==> t[i] == '.'
    ensures forall k :: i < k < n ==> t[k] != '.'
  {
    if n == 0 then -1 else if t[n - 1] == '.' then n - 1 else LastDotBefore(t, n - 1)
  }

  /** `sign` stands for the keyed hash and its text encoding. */
  datatype Signer = Signer(sign: string -> string) {

    function Token(id: string): string {
      id + "." + sign(id)
    }

    function Verify(token: string): Option<string> {
      var i := LastDot(token);
      if i <= 0 || i == |token| - 1 then None
      else if token[i + 1..] == sign(token[..i]) then Some(token[..i])
      else None
    }

    /** Signature texts are non-empty and free of '.', as the alphabet of section 5 of RFC 4648 guarantees. */
    ghost predicate Proper() {
      forall id :: sign(id) != "" && '.' !in sign(id)
    }

    lemma {:induction false} LastDotOfToken(id: string)
      requires '.' !in sign(id)
      ensures LastDot(Token(id)) == |id|
    {
      var t := Token(id);
      assert t[|id|] == '.';
      forall k | |id| < k < |t| ensures t[k] != '.' {
        assert t[k] == sign(id)[k - |id| - 1];
      }
    }

    /** Decoding is exact: a token is accepted for an id just when it is that id's own token. */
    lemma {:induction false} VerifyExact(token: string, id: string)
      requires Proper()
      ensures Verify(token) == Some(id) <==> id != "" && token == Token(id)
    {
      LastDotOfToken(id);
      if token == Token(id) && id != "" {
        assert token[..|id|] == id && token[|id| + 1..] == sign(id);
      }
      var i := LastDot(token);
      if Verify(token) == Some(id) {
        assert token == token[..i] + [token[i]] + token[i + 1..];
      }
    }

    /** Whatever is accepted for an id is its token, also when signature texts are not proper. */
    lemma {:induction false} AcceptedIsToken(token: string, id: string)
      requires Verify(token) == Some(id)
      ensures token == Token(id)
    {
      var i := LastDot(token);
      assert token == token[..i] + [token[i]] + token[i + 1..];
    }

    lemma {:induction false} TokenInjective(a: string, b: string)
      requires Proper() && Token(a) == Token(b)
      ensures a == b
    {
      LastDotOfToken(a);
      LastDotOfToken(b);
      assert Token(a)[..|a|] == a && Token(b)[..|b|] == b;
    }

    /** The round trip holds for an id exactly when its signature text is non-empty and dot-free. */
    lemma {:induction false} RoundTripNeeds(id: string)
      requires id != ""
      ensures Verify(Token(id)) == Some(id) <==> sign(id) != "" && '.' !in sign(id)
    {
      var t := Token(id);
      var i := LastDot(t);
      assert t[|id|] == '.';
      if '.' !in sign(id) {
        LastDotOfToken(id);
        assert t[..|id|] == id && t[|id| + 1..] == sign(id);
      } else {
        var k :| 0 <= k < |sign(id)| && sign(id)[k] == '.';
        assert t[|id| + 1 + k] == '.';
        assert i > |id|;
        if Verify(t) == Some(id) {
          assert |t[..i]| == i;
        }
      }
    }
  }
}
