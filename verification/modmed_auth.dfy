/**
 * The OAuth token cache for the ModMed FHIR upstream (src/lib/modmedAuth.ts).
 *
 * Four module-level variables hold the credential: the access token, the
 * refresh token, the access token's expiry (epoch milliseconds) and the
 * single in-flight grant.  Tokens are obtained with the password grant or the
 * refresh_token grant of RFC 6749 (sections 4.3 and 6).
 *
 * Promises are modelled sequentially.  Every grant started gets the next
 * number (`grantsStarted`), which stands for the identity of its promise.
 * Starting a grant puts the cache in a `Pending` slot and returns `Started`;
 * any caller that arrives while a grant is pending gets `Joined` with that
 * grant's number (it holds the very same promise).  `SettleStep` is the
 * moment the awaited POST returns, successfully or not: the outcome is
 * recorded under the grant's number, as a settled promise keeps its value,
 * and the `finally` block empties the slot.  Time (`Date.now()`) is the
 * parameter `now`.
 *
 * The pure step functions below specify the state machine; the class
 * `TokenManager` holds the four variables and is proved against them.
 */
module ModmedAuth {
  import opened Wrappers

  /** Default safety margin of `willExpireSoon`, in seconds. */
  const ExpiryBufferSeconds := 60

  /** Lifetime assumed when a grant response has no `expires_in`, in seconds. */
  const DefaultExpiresInSeconds := 1500

  datatype GrantKind = PasswordGrant | RefreshTokenGrant

  /** `ongoingPromise`: no grant in flight, or the one grant (by its number) being awaited. */
  datatype Slot = Idle | Pending(kind: GrantKind, grant: nat)

  /**
   * The four module-level variables, with the promises handed out so far:
   * how many grants were started, and the outcome of each settled one.
   */
  datatype Credential = Credential(
    accessToken: Option<string>,
    refreshToken: Option<string>,
    expiresAt: Option<int>,
    slot: Slot,
    grantsStarted: nat,
    outcomes: map<nat, Settlement>)

  /** The state at module load: everything `null`, no promise handed out. */
  const Initial := Credential(None, None, None, Idle, 0, map[])

  /**
   * What the token endpoint answered: a 2xx body with its three optional
   * fields, or a rejected POST (non-2xx status, network error, timeout).
   */
  datatype GrantResponse =
    | Granted(accessToken: Option<string>, refreshToken: Option<string>, expiresIn: Option<int>)
    | GrantFailed

  /** What one call of `fetchAccessToken`/`refreshAccessToken`/`getAccessToken` gives its caller. */
  datatype Call =
    | Cached(token: string)                  // the cached token, no grant involved
    | Started(kind: GrantKind, grant: nat)   // this call started grant number `grant`
    | Joined(kind: GrantKind, grant: nat)    // grant number `grant` was already pending: the caller holds its promise

  /** How the awaited grant settles: its promise resolves to `accessToken as string`, or rejects. */
  datatype Settlement = Resolved(token: Option<string>) | Rejected

  datatype Step = Step(next: Credential, call: Call)

  datatype Outcome = Outcome(next: Credential, settlement: Settlement)

  /** JavaScript truthiness of a string that may be `null`: `""` is falsy. */
  predicate Truthy(s: Option<string>) {
    s.Some? && s.value != ""
  }

  /** JavaScript truthiness of a number that may be `null`: `0` is falsy. */
  predicate TruthyTime(t: Option<int>) {
    t.Some? && t.value != 0
  }

  /** The token fields agree; only the in-flight slot may differ. */
  predicate SameTokens(a: Credential, b: Credential) {
    a.accessToken == b.accessToken && a.refreshToken == b.refreshToken && a.expiresAt == b.expiresAt
  }

  /** `willExpireSoon(bufferSeconds)` at time `now`. */
  function WillExpireSoon(c: Credential, now: int, bufferSeconds: int): (r: bool)
    ensures !Truthy(c.accessToken) || !TruthyTime(c.expiresAt) ==> r
    ensures Truthy(c.accessToken) && TruthyTime(c.expiresAt) ==>
              (r <==> now >= c.expiresAt.value - bufferSeconds * 1000)
  {
    if !Truthy(c.accessToken) || !TruthyTime(c.expiresAt) then true
    else now >= c.expiresAt.value - bufferSeconds * 1000
  }

  /** Once a token is about to expire it stays so as time goes on. */
  lemma ExpirySoonIsMonotone(c: Credential, now: int, later: int, bufferSeconds: int)
    requires now <= later
    requires WillExpireSoon(c, now, bufferSeconds)
    ensures WillExpireSoon(c, later, bufferSeconds)
  {
  }

  /** `fetchAccessToken()`: join the pending grant, or start a password grant. */
  function FetchStep(c: Credential): (s: Step)
    ensures SameTokens(s.next, c) && s.next.outcomes == c.outcomes
    ensures !s.call.Cached? && s.next.slot == Pending(s.call.kind, s.call.grant)
    ensures s.call.Started? <==> c.slot.Idle?
    ensures s.call.Started? ==>
              && s.call == Started(PasswordGrant, c.grantsStarted)
              && s.next.grantsStarted == c.grantsStarted + 1
    ensures c.slot.Pending? ==> s.next == c
  {
    if c.slot.Pending? then Step(c, Joined(c.slot.kind, c.slot.grant))
    else Start(c, PasswordGrant)
  }

  /** A new grant of `kind`: it takes the next number and fills the slot. */
  function Start(c: Credential, kind: GrantKind): (s: Step)
    ensures s.call == Started(kind, c.grantsStarted)
    ensures s.next == c.(slot := Pending(kind, c.grantsStarted), grantsStarted := c.grantsStarted + 1)
  {
    Step(c.(slot := Pending(kind, c.grantsStarted), grantsStarted := c.grantsStarted + 1), Started(kind, c.grantsStarted))
  }

  /**
   * `refreshAccessToken()`: without a (truthy) refresh token it is
   * `fetchAccessToken()`; that test comes before the pending test.
   */
  function RefreshStep(c: Credential): (s: Step)
    ensures !Truthy(c.refreshToken) ==> s == FetchStep(c)
    ensures SameTokens(s.next, c) && s.next.outcomes == c.outcomes
    ensures !s.call.Cached? && s.next.slot == Pending(s.call.kind, s.call.grant)
    ensures s.call.Started? <==> c.slot.Idle?
    ensures s.call.Started? ==>
              && s.call.grant == c.grantsStarted && s.next.grantsStarted == c.grantsStarted + 1
              && (s.call.kind == RefreshTokenGrant <==> Truthy(c.refreshToken))
    ensures c.slot.Pending? ==> s.next == c
  {
    if !Truthy(c.refreshToken) then FetchStep(c)
    else if c.slot.Pending? then Step(c, Joined(c.slot.kind, c.slot.grant))
    else Start(c, RefreshTokenGrant)
  }

  /**
   * `getAccessToken()`: the cached token when it exists and is not about to
   * expire, otherwise `fetchAccessToken()` -- never the refresh grant.
   */
  function GetStep(c: Credential, now: int): (s: Step)
    ensures s.call.Cached? <==> Truthy(c.accessToken) && !WillExpireSoon(c, now, ExpiryBufferSeconds)
    ensures s.call.Cached? ==> s.next == c && Some(s.call.token) == c.accessToken
    ensures s.call.Cached? ==> now < c.expiresAt.value - ExpiryBufferSeconds * 1000
    ensures !s.call.Cached? ==> s == FetchStep(c)
    ensures !(s.call.Started? && s.call.kind == RefreshTokenGrant)
  {
    if !Truthy(c.accessToken) || WillExpireSoon(c, now, ExpiryBufferSeconds) then FetchStep(c)
    else Step(c, Cached(c.accessToken.value))
  }

  /** `Number(res.data?.expires_in ?? 1500)`. */
  function ExpiresInSeconds(r: GrantResponse): int
    requires r.Granted?
  {
    r.expiresIn.GetOr(DefaultExpiresInSeconds)
  }

  /**
   * The awaited POST of the pending grant returns at time `now` with
   * `response`.  A password grant overwrites both tokens (absent fields
   * become `null`); a refresh keeps the old value of an absent field.  A
   * rejected POST skips the assignments.  Either way the outcome is kept as
   * the value of the grant's promise and the slot is emptied.
   */
  function SettleStep(c: Credential, now: int, response: GrantResponse): (o: Outcome)
    requires c.slot.Pending?
    ensures o.next.slot == Idle
    ensures o.next.grantsStarted == c.grantsStarted
    ensures o.next.outcomes == c.outcomes[c.slot.grant := o.settlement]
    ensures response.GrantFailed? ==> SameTokens(o.next, c) && o.settlement == Rejected
    ensures response.Granted? && c.slot.kind == PasswordGrant ==>
              o.next.accessToken == response.accessToken && o.next.refreshToken == response.refreshToken
    ensures response.Granted? && c.slot.kind == RefreshTokenGrant ==>
              && o.next.accessToken == (if response.accessToken.Some? then response.accessToken else c.accessToken)
              && o.next.refreshToken == (if response.refreshToken.Some? then response.refreshToken else c.refreshToken)
    ensures response.Granted? ==>
              && o.next.expiresAt == Some(now + ExpiresInSeconds(response) * 1000)
              && o.settlement == Resolved(o.next.accessToken)
  {
    match response
    case GrantFailed =>
      Outcome(c.(slot := Idle, outcomes := c.outcomes[c.slot.grant := Rejected]), Rejected)
    case Granted(access, refresh, _) =>
      var expiresAt := Some(now + ExpiresInSeconds(response) * 1000);
      var accessToken := if c.slot.kind == PasswordGrant then access else access.OrElse(c.accessToken);
      var refreshToken := if c.slot.kind == PasswordGrant then refresh else refresh.OrElse(c.refreshToken);
      var settlement := Resolved(accessToken);
      var next := Credential(accessToken, refreshToken, expiresAt, Idle, c.grantsStarted,
                             c.outcomes[c.slot.grant := settlement]);
      Outcome(next, settlement)
  }

  /** The call's grant is the one in flight. */
  predicate AwaitsPending(c: Credential, call: Call) {
    !call.Cached? && c.slot.Pending? && c.slot.grant == call.grant
  }

  /** A call can be awaited: it holds a token, the grant in flight, or a grant that has settled. */
  predicate Awaitable(c: Credential, call: Call) {
    call.Cached? || AwaitsPending(c, call) || call.grant in c.outcomes
  }

  /**
   * `await` on what a call returned: a cached token is there at once; the
   * grant in flight settles now with `response`; a grant that has already
   * settled gives its recorded outcome again and changes nothing.
   */
  function AwaitStep(c: Credential, call: Call, now: int, response: GrantResponse): (o: Outcome)
    requires Awaitable(c, call)
    ensures call.Cached? ==> o == Outcome(c, Resolved(Some(call.token)))
    ensures AwaitsPending(c, call) ==> o == SettleStep(c, now, response)
    ensures !call.Cached? && !AwaitsPending(c, call) ==> o == Outcome(c, c.outcomes[call.grant])
  {
    if call.Cached? then Outcome(c, Resolved(Some(call.token)))
    else if AwaitsPending(c, call) then SettleStep(c, now, response)
    else Outcome(c, c.outcomes[call.grant])
  }

  /**
   * A promise settles once: after the grant a call holds has settled, every
   * later `await` of that call gives the same outcome, whatever the network
   * would answer now, and changes nothing.
   */
  lemma SettledOnce(c: Credential, call: Call, now: int, response: GrantResponse, later: int, laterResponse: GrantResponse)
    requires AwaitsPending(c, call)
    ensures var o := SettleStep(c, now, response);
            AwaitStep(o.next, call, later, laterResponse) == Outcome(o.next, o.settlement)
  {
  }

  /**
   * The credential invariant: a pending refresh grant was started with a
   * truthy refresh token; any token held came with an expiry; the grant in
   * flight and every settled grant were numbered when started, and the one
   * in flight has not settled.
   */
  predicate Valid(c: Credential) {
    && (c.slot.Pending? && c.slot.kind == RefreshTokenGrant ==> Truthy(c.refreshToken))
    && ((c.accessToken.Some? || c.refreshToken.Some?) ==> c.expiresAt.Some?)
    && (c.slot.Pending? ==> c.slot.grant < c.grantsStarted && c.slot.grant !in c.outcomes)
    && (forall g :: g in c.outcomes ==> g < c.grantsStarted)
  }

  /** Every operation keeps the credential invariant. */
  lemma ValidIsPreserved(c: Credential, now: int, response: GrantResponse, call: Call)
    requires Valid(c)
    ensures Valid(Initial)
    ensures Valid(FetchStep(c).next) && Valid(RefreshStep(c).next) && Valid(GetStep(c, now).next)
    ensures c.slot.Pending? ==> Valid(SettleStep(c, now, response).next)
    ensures Awaitable(c, call) ==> Valid(AwaitStep(c, call, now, response).next)
  {
  }

  /**
   * A successful refresh whose answer carries a usable access token and a
   * lifetime longer than the safety margin is served from the cache by the
   * next `getAccessToken()` at the same instant: no second grant.
   */
  lemma FreshRefreshIsCached(c: Credential, now: int, response: GrantResponse)
    requires c.slot.Pending?
    requires response.Granted? && Truthy(response.accessToken)
    requires ExpiresInSeconds(response) > ExpiryBufferSeconds
    requires now + ExpiresInSeconds(response) * 1000 != 0
    ensures var o := SettleStep(c, now, response);
            GetStep(o.next, now) == Step(o.next, Cached(response.accessToken.value))
  {
  }

  // ---------------------------------------------------------------------
  // Single flight: calls that arrive before the pending grant settles.
  // ---------------------------------------------------------------------

  datatype Request = GetRequest | FetchRequest | RefreshRequest

  /** One entry point called at time `now`. */
  function Issue(c: Credential, now: int, r: Request): Step {
    match r
    case GetRequest => GetStep(c, now)
    case FetchRequest => FetchStep(c)
    case RefreshRequest => RefreshStep(c)
  }

  datatype Batch = Batch(next: Credential, calls: seq<Call>)

  /** Calls issued one after the other at `now`, with no grant settling in between. */
  function IssueAll(c: Credential, now: int, rs: seq<Request>): (b: Batch)
    ensures |b.calls| == |rs|
    decreases |rs|
  {
    if rs == [] then Batch(c, [])
    else
      var s := Issue(c, now, rs[0]);
      var rest := IssueAll(s.next, now, rs[1..]);
      Batch(rest.next, [s.call] + rest.calls)
  }

  /** How many of the calls started a grant (one network request each). */
  function CountStarted(calls: seq<Call>): nat {
    if calls == [] then 0 else (if calls[0].Started? then 1 else 0) + CountStarted(calls[1..])
  }

  /**
   * Single flight: however the entry points are interleaved before the
   * pending grant settles, at most one grant is started (none if one was
   * already pending) and it takes the next number, no token field changes,
   * no settled promise changes, and every caller that did not get a cached
   * token holds the one grant left pending.
   */
  lemma {:induction false} SingleFlight(c: Credential, now: int, rs: seq<Request>)
    ensures var b := IssueAll(c, now, rs);
            && SameTokens(b.next, c) && b.next.outcomes == c.outcomes
            && CountStarted(b.calls) <= 1
            && b.next.grantsStarted == c.grantsStarted + CountStarted(b.calls)
            && (c.slot.Pending? ==> CountStarted(b.calls) == 0 && b.next == c)
            && (forall i :: 0 <= i < |b.calls| && !b.calls[i].Cached? ==>
                  b.next.slot == Pending(b.calls[i].kind, b.calls[i].grant))
    decreases |rs|
  {
    if rs != [] {
      var s := Issue(c, now, rs[0]);
      SingleFlight(s.next, now, rs[1..]);
      var rest := IssueAll(s.next, now, rs[1..]);
      var b := IssueAll(c, now, rs);
      assert b.calls == [s.call] + rest.calls;
      if s.next.slot.Pending? {
        assert CountStarted(rest.calls) == 0;
        assert rest.next == s.next;
      }
      forall i | 0 <= i < |b.calls| && !b.calls[i].Cached?
        ensures b.next.slot == Pending(b.calls[i].kind, b.calls[i].grant)
      {
        if i > 0 {
          assert b.calls[i] == rest.calls[i - 1];
        }
      }
    }
  }

  /**
   * One grant, one outcome for everybody: after a batch of calls, whichever
   * caller awaits first settles the pending grant, and every caller that did
   * not get a cached token, awaiting first or later, gets that same
   * settlement.
   */
  lemma AllCallersShareTheOutcome(c: Credential, now: int, rs: seq<Request>, t: int, r: GrantResponse,
                                  later: int, laterResponse: GrantResponse)
    requires IssueAll(c, now, rs).next.slot.Pending?
    ensures var b := IssueAll(c, now, rs);
            var o := SettleStep(b.next, t, r);
            forall i :: 0 <= i < |b.calls| && !b.calls[i].Cached? ==>
              && AwaitsPending(b.next, b.calls[i])
              && AwaitStep(b.next, b.calls[i], t, r) == o
              && AwaitStep(o.next, b.calls[i], later, laterResponse) == Outcome(o.next, o.settlement)
  {
    SingleFlight(c, now, rs);
  }

  /** `n` concurrent `getAccessToken()` calls at `now`. */
  function Gets(n: nat): (rs: seq<Request>)
    ensures |rs| == n && forall i :: 0 <= i < n ==> rs[i] == GetRequest
  {
    seq(n, _ => GetRequest)
  }

  /**
   * A token storm: when no grant is pending and the cache cannot serve,
   * `n >= 1` concurrent `getAccessToken()` calls issue exactly one password
   * grant; the first caller starts it, all others join that same grant, and
   * each of them gets the one settlement of its POST.
   */
  lemma {:induction false} TokenStorm(c: Credential, now: int, n: nat, t: int, r: GrantResponse)
    requires c.slot.Idle? && n >= 1
    requires !Truthy(c.accessToken) || WillExpireSoon(c, now, ExpiryBufferSeconds)
    ensures var b := IssueAll(c, now, Gets(n));
            var g := c.grantsStarted;
            && b.next == c.(slot := Pending(PasswordGrant, g), grantsStarted := g + 1)
            && b.calls[0] == Started(PasswordGrant, g)
            && (forall i :: 1 <= i < n ==> b.calls[i] == Joined(PasswordGrant, g))
            && CountStarted(b.calls) == 1
            && (forall i :: 0 <= i < n ==> AwaitStep(b.next, b.calls[i], t, r) == SettleStep(b.next, t, r))
  {
    var p := c.(slot := Pending(PasswordGrant, c.grantsStarted), grantsStarted := c.grantsStarted + 1);
    JoinersOnly(p, now, n - 1);
    assert Gets(n)[1..] == Gets(n - 1);
    SingleFlight(c, now, Gets(n));
  }

  /** Helper of `TokenStorm`: with a password grant pending, every further get joins it. */
  lemma {:induction false} JoinersOnly(p: Credential, now: int, n: nat)
    requires p.slot.Pending? && p.slot.kind == PasswordGrant
    requires !Truthy(p.accessToken) || WillExpireSoon(p, now, ExpiryBufferSeconds)
    ensures var b := IssueAll(p, now, Gets(n));
            b.next == p && forall i :: 0 <= i < n ==> b.calls[i] == Joined(PasswordGrant, p.slot.grant)
  {
    if n > 0 {
      assert Gets(n)[0] == GetRequest && Gets(n)[1..] == Gets(n - 1);
      JoinersOnly(p, now, n - 1);
      var b := IssueAll(p, now, Gets(n));
      var rest := IssueAll(p, now, Gets(n - 1));
      assert b.calls == [Joined(PasswordGrant, p.slot.grant)] + rest.calls;
    }
  }

  // ---------------------------------------------------------------------
  // The module-level variables as an object.
  // ---------------------------------------------------------------------

  /**
   * The four module-level variables, and the promises handed out so far
   * (`grantsStarted`, `outcomes`), which give each `ongoingPromise` its
   * identity.  `Valid(State())` is the object's invariant.
   */
  class TokenManager {
    var accessToken: Option<string>
    var refreshToken: Option<string>
    var accessTokenExpiresAt: Option<int>
    var ongoing: Slot
    var grantsStarted: nat
    var outcomes: map<nat, Settlement>

    function State(): Credential
      reads this
    {
      Credential(accessToken, refreshToken, accessTokenExpiresAt, ongoing, grantsStarted, outcomes)
    }

    constructor ()
      ensures State() == Initial && Valid(State())
    {
      accessToken, refreshToken, accessTokenExpiresAt, ongoing := None, None, None, Idle;
      grantsStarted, outcomes := 0, map[];
    }

    method FetchAccessToken() returns (call: Call)
      requires Valid(State())
      modifies this
      ensures Step(State(), call) == FetchStep(old(State()))
      ensures Valid(State())
    {
      if ongoing.Pending? {
        return Joined(ongoing.kind, ongoing.grant);
      }
      ongoing := Pending(PasswordGrant, grantsStarted);
      call := Started(PasswordGrant, grantsStarted);
      grantsStarted := grantsStarted + 1;
    }

    method RefreshAccessToken() returns (call: Call)
      requires Valid(State())
      modifies this
      ensures Step(State(), call) == RefreshStep(old(State()))
      ensures Valid(State())
    {
      if !Truthy(refreshToken) {
        call := FetchAccessToken();
        return;
      }
      if ongoing.Pending? {
        return Joined(ongoing.kind, ongoing.grant);
      }
      ongoing := Pending(RefreshTokenGrant, grantsStarted);
      call := Started(RefreshTokenGrant, grantsStarted);
      grantsStarted := grantsStarted + 1;
    }

    method GetAccessToken(now: int) returns (call: Call)
      requires Valid(State())
      modifies this
      ensures Step(State(), call) == GetStep(old(State()), now)
      ensures Valid(State())
    {
      if !Truthy(accessToken) || WillExpireSoon(State(), now, ExpiryBufferSeconds) {
        call := FetchAccessToken();
        return;
      }
      call := Cached(accessToken.value);
    }

    /** The awaited POST returns: assignments on success, the promise settles, then the `finally` block. */
    method Settle(now: int, response: GrantResponse) returns (settlement: Settlement)
      requires Valid(State()) && ongoing.Pending?
      modifies this
      ensures Outcome(State(), settlement) == SettleStep(old(State()), now, response)
      ensures Valid(State())
    {
      ValidIsPreserved(State(), now, response, Cached(""));
      if response.Granted? {
        if ongoing.kind == PasswordGrant {
          accessToken := response.accessToken;
          refreshToken := response.refreshToken;
        } else {
          accessToken := response.accessToken.OrElse(accessToken);
          refreshToken := response.refreshToken.OrElse(refreshToken);
        }
        accessTokenExpiresAt := Some(now + ExpiresInSeconds(response) * 1000);
        settlement := Resolved(accessToken);
      } else {
        settlement := Rejected;
      }
      outcomes := outcomes[ongoing.grant := settlement];
      ongoing := Idle;
    }

    /**
     * `await` on what a call returned: the cached token, the settlement of
     * the grant in flight, or the value its promise already settled with.
     */
    method Await(call: Call, now: int, response: GrantResponse) returns (settlement: Settlement)
      requires Valid(State()) && Awaitable(State(), call)
      modifies this
      ensures Outcome(State(), settlement) == AwaitStep(old(State()), call, now, response)
      ensures Valid(State())
    {
      if call.Cached? {
        settlement := Resolved(Some(call.token));
      } else if ongoing.Pending? && ongoing.grant == call.grant {
        settlement := Settle(now, response);
      } else {
        settlement := outcomes[call.grant];
      }
    }
  }
}
