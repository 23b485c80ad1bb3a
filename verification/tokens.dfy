/** The single-slot access-token cache (index.ts, lines 9-39). The clock
    and the outcome of the client-credentials grant are parameters: the
    grant is consulted only when the cached token is missing or about to
    expire. */
module Tokens {
  import opened Wrappers

  datatype CachedToken = CachedToken(accessToken: string, expiresAt: int)

  /** What the token endpoint answers, if it is asked. */
  datatype GrantResponse =
    | GrantOk(accessToken: string, expiresIn: Option<int>)
    | GrantFailed(status: int, text: string)

  /** The error thrown when the grant fails: status 500, TOKEN_ERROR, the
      endpoint's text as detail. */
  datatype TokenError = TokenError(detail: string)

  /** One call of `getAccessToken`: the clock before the grant, the grant's
      outcome, and the clock read again after it (line 36). */
  datatype Call = Call(now: int, grant: GrantResponse, nowAfterGrant: int)

  datatype Outcome = Outcome(result: Result<string, TokenError>, cache: Option<CachedToken>, granted: bool)

  const SafetyMargin := 30
  const DefaultLifetime := 1500

  /** The cached token may be reused at time `now`. */
  predicate Fresh(cache: Option<CachedToken>, now: int) {
    cache.Some? && cache.value.expiresAt - SafetyMargin > now
  }

  /** `expires_in || 1500`. */
  function Lifetime(expiresIn: Option<int>): (s: int)
    ensures expiresIn.None? || expiresIn.value == 0 ==> s == DefaultLifetime
    ensures expiresIn.Some? && expiresIn.value != 0 ==> s == expiresIn.value
  {
    if expiresIn.Some? && expiresIn.value != 0 then expiresIn.value else DefaultLifetime
  }

  /** What one call returns and leaves in the cache. */
  function Step(cache: Option<CachedToken>, c: Call): (o: Outcome)
    // a grant is asked for exactly when the cached token is not fresh
    ensures o.granted <==> !Fresh(cache, c.now)
    // a fresh token is returned as it is, and the cache stays
    ensures !o.granted ==> o.result == Ok(cache.value.accessToken) && o.cache == cache
    // a failed grant throws before the cache is written
    ensures o.granted && c.grant.GrantFailed? ==>
              o.result == Err(TokenError(c.grant.text)) && o.cache == cache
    // a successful grant is stored with its lifetime counted from the second clock reading
    ensures o.granted && c.grant.GrantOk? ==>
              o.result == Ok(c.grant.accessToken) &&
              o.cache == Some(CachedToken(c.grant.accessToken, c.nowAfterGrant + Lifetime(c.grant.expiresIn)))
  {
    if Fresh(cache, c.now) then Outcome(Ok(cache.value.accessToken), cache, false)
    else match c.grant
      case GrantFailed(_, text) => Outcome(Err(TokenError(text)), cache, true)
      case GrantOk(token, expiresIn) =>
        var stored := CachedToken(token, c.nowAfterGrant + Lifetime(expiresIn));
        Outcome(Ok(stored.accessToken), Some(stored), true)
  }

  datatype Run = Run(cache: Option<CachedToken>, grants: nat, results: seq<Result<string, TokenError>>)

  /** The cache entry a successful grant leaves. */
  function Stored(c: Call): CachedToken
    requires c.grant.GrantOk?
  {
    CachedToken(c.grant.accessToken, c.nowAfterGrant + Lifetime(c.grant.expiresIn))
  }

  /** Calls made one after another, each seeing the cache the previous left.
      A call fails only when its own grant was asked for and failed, and
      every call that asked for no grant returned a token. */
  function Replay(cache: Option<CachedToken>, calls: seq<Call>): (r: Run)
    ensures |r.results| == |calls|
    ensures r.grants <= |calls|
    ensures forall i :: 0 <= i < |calls| && r.results[i].Err? ==>
              calls[i].grant.GrantFailed? && r.results[i] == Err(TokenError(calls[i].grant.text))
    ensures r.grants == 0 ==> forall i :: 0 <= i < |calls| ==> r.results[i].Ok?
    decreases |calls|
  {
    if calls == [] then Run(cache, 0, [])
    else
      var o := Step(cache, calls[0]);
      var rest := Replay(o.cache, calls[1..]);
      Run(rest.cache, rest.grants + (if o.granted then 1 else 0), [o.result] + rest.results)
  }

  /** While every call comes more than 30 seconds before the cached token
      expires, no grant is made, every call returns that token and the
      cache never changes. */
  lemma {:induction false} ReuseWithinWindow(tok: CachedToken, calls: seq<Call>)
    requires forall i :: 0 <= i < |calls| ==> calls[i].now < tok.expiresAt - SafetyMargin
    ensures Replay(Some(tok), calls).grants == 0
    ensures Replay(Some(tok), calls).cache == Some(tok)
    ensures forall i :: 0 <= i < |calls| ==> Replay(Some(tok), calls).results[i] == Ok(tok.accessToken)
    decreases |calls|
  {
    if calls != [] {
      ReuseWithinWindow(tok, calls[1..]);
    }
  }

  /** A call on a stale cache makes exactly one grant; once it succeeds,
      the later calls inside the new token's window reuse it. */
  lemma RefreshThenReuse(cache: Option<CachedToken>, first: Call, later: seq<Call>)
    requires !Fresh(cache, first.now) && first.grant.GrantOk?
    requires forall i :: 0 <= i < |later| ==>
               later[i].now < first.nowAfterGrant + Lifetime(first.grant.expiresIn) - SafetyMargin
    ensures Replay(cache, [first] + later).grants == 1
    ensures forall i :: 0 <= i <= |later| ==>
              Replay(cache, [first] + later).results[i] == Ok(first.grant.accessToken)
    ensures Replay(cache, [first] + later).cache ==
              Some(CachedToken(first.grant.accessToken, first.nowAfterGrant + Lifetime(first.grant.expiresIn)))
  {
    var tok := CachedToken(first.grant.accessToken, first.nowAfterGrant + Lifetime(first.grant.expiresIn));
    var calls := [first] + later;
    assert calls[0] == first && calls[1..] == later;
    var o := Step(cache, first);
    assert o == Outcome(Ok(tok.accessToken), Some(tok), true);
    ReuseWithinWindow(tok, later);
    var rest := Replay(Some(tok), later);
    assert Replay(cache, calls) == Run(rest.cache, rest.grants + 1, [o.result] + rest.results);
  }

  /** Running one more call after a run is one more `Step`. */
  lemma {:induction false} ReplayAppend(cache: Option<CachedToken>, calls: seq<Call>, c: Call)
    ensures Replay(cache, calls + [c]).cache == Step(Replay(cache, calls).cache, c).cache
    decreases |calls|
  {
    if calls == [] {
      assert [c][1..] == [];
    } else {
      var o := Step(cache, calls[0]);
      assert (calls + [c])[0] == calls[0];
      assert (calls + [c])[1..] == calls[1..] + [c];
      ReplayAppend(o.cache, calls[1..], c);
    }
  }

  /** The cache as call `i` of a run finds it. */
  function Before(cache: Option<CachedToken>, calls: seq<Call>, i: nat): Option<CachedToken>
    requires i <= |calls|
  {
    Replay(cache, calls[..i]).cache
  }

  /** Call `i` of a run writes the cache: it asked for a grant and the grant
      succeeded (line 34). */
  predicate Writes(cache: Option<CachedToken>, calls: seq<Call>, i: nat)
    requires i < |calls|
  {
    Step(Before(cache, calls, i), calls[i]).granted && calls[i].grant.GrantOk?
  }

  lemma BeforeNext(cache: Option<CachedToken>, calls: seq<Call>, k: nat)
    requires k < |calls|
    ensures Before(cache, calls, k + 1) == Step(Before(cache, calls, k), calls[k]).cache
  {
    assert calls[..k + 1] == calls[..k] + [calls[k]];
    ReplayAppend(cache, calls[..k], calls[k]);
  }

  /** A call that does not write leaves the cache as it found it. */
  lemma {:induction false} NoWriteKeepsCache(cache: Option<CachedToken>, calls: seq<Call>, k: nat)
    requires k <= |calls|
    requires forall j :: 0 <= j < k ==> !Writes(cache, calls, j)
    ensures Before(cache, calls, k) == cache
    decreases k
  {
    if k == 0 {
      assert calls[..0] == [];
    } else {
      NoWriteKeepsCache(cache, calls, k - 1);
      BeforeNext(cache, calls, k - 1);
      assert !Writes(cache, calls, k - 1);
    }
  }

  /** Once call `i` writes, the cache holds its token until a later call
      writes. */
  lemma {:induction false} WrittenUntilNextWrite(cache: Option<CachedToken>, calls: seq<Call>, i: nat, k: nat)
    requires i < k <= |calls| && Writes(cache, calls, i)
    requires forall j :: i < j < k ==> !Writes(cache, calls, j)
    ensures Before(cache, calls, k) == Some(Stored(calls[i]))
    decreases k
  {
    BeforeNext(cache, calls, k - 1);
    if k - 1 > i {
      WrittenUntilNextWrite(cache, calls, i, k - 1);
      assert !Writes(cache, calls, k - 1);
    } else {
      assert Step(Before(cache, calls, i), calls[i]).cache == Some(Stored(calls[i]));
    }
  }

  /** Last writer wins: after a run in which no call writes, the cache is as
      it was; after a run whose last write is call `i`, it holds the token
      call `i` stored. */
  lemma LastWriterWins(cache: Option<CachedToken>, calls: seq<Call>, i: nat)
    ensures (forall j :: 0 <= j < |calls| ==> !Writes(cache, calls, j)) ==>
              Replay(cache, calls).cache == cache
    ensures i < |calls| && Writes(cache, calls, i) &&
            (forall j :: i < j < |calls| ==> !Writes(cache, calls, j)) ==>
              Replay(cache, calls).cache == Some(Stored(calls[i]))
  {
    assert calls[..|calls|] == calls;
    if forall j :: 0 <= j < |calls| ==> !Writes(cache, calls, j) {
      NoWriteKeepsCache(cache, calls, |calls|);
    }
    if i < |calls| && Writes(cache, calls, i) && (forall j :: i < j < |calls| ==> !Writes(cache, calls, j)) {
      WrittenUntilNextWrite(cache, calls, i, |calls|);
    }
  }

  /** The module-level `cachedToken`. */
  class TokenCache {
    var cached: Option<CachedToken>

    /** The process starts with nothing cached (line 9). */
    constructor ()
      ensures cached == None
    {
      cached := None;
    }

    /** `getAccessToken`: reuse the cached token while it is fresh,
        otherwise run the grant and keep its token if it succeeded. */
    method GetAccessToken(now: int, grant: GrantResponse, nowAfterGrant: int)
      returns (r: Result<string, TokenError>, granted: bool)
      modifies this
      ensures Step(old(cached), Call(now, grant, nowAfterGrant)) == Outcome(r, cached, granted)
      ensures !granted ==> r == Ok(old(cached).value.accessToken) && cached == old(cached)
      ensures r.Err? ==> cached == old(cached)
    {
      if cached.Some? && cached.value.expiresAt - SafetyMargin > now {
        return Ok(cached.value.accessToken), false;
      }
      granted := true;
      match grant
      case GrantFailed(_, text) =>
        r := Err(TokenError(text));
        return;
      case GrantOk(token, expiresIn) =>
        cached := Some(CachedToken(token, nowAfterGrant + Lifetime(expiresIn)));
        r := Ok(cached.value.accessToken);
    }
  }
}
