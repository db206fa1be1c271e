/** The frontend's backend-token cache (react_frontend/src/utils/backendAuth.js):
    a guest JWT kept in two `localStorage` keys, `mitrasetu_backend_token` and
    `mitrasetu_backend_token_expiry`, the latter holding `String(ms)` of the
    moment the cached token stops being used.

    The clock is a parameter (milliseconds since the epoch), and the guest
    login request `POST ${API_BASE}/auth/guest` is a parameter holding what
    `fetch` and `response.json()` produced. */
module BackendAuth {
  import opened Wrappers
  import opened Strings

  /** 50 minutes in milliseconds: tokens are kept for less than their 1 hour
      lifetime. */
  const CacheMillis := 50 * 60 * 1000

  const StatusPrefix := "Failed to get backend token: "
  const NoToken := "No token in backend response"

  /** The parsed body of the guest login reply; `token` is `None` when the
      field is missing. A `token` that is not a string is outside the model
      (the code would cache and return a truthy one). */
  datatype GuestJson = GuestJson(token: Option<string>)

  /** What the guest login request produced: a rejected `fetch` (its error's
      message), or a status and a body that did or did not parse. */
  datatype GuestReply =
    | NetworkFailure(errorMessage: string)
    | Replied(status: int, body: Result<GuestJson, string>)

  /** `response.ok`. */
  predicate Ok(status: int) {
    200 <= status <= 299
  }

  /** The cache test of `getBackendToken`: the cached token is used when both keys hold a non-empty string
      and the clock is strictly before the expiry read with `parseInt(_, 10)`
      (a `NaN` expiry compares false). */
  predicate Fresh(token: Option<string>, expiry: Option<string>, now: int) {
    && Truthy(token) && Truthy(expiry)
    && ParseInt(expiry.value).Some? && now < ParseInt(expiry.value).value
  }

  /** The token the guest login request yields, or the message of the error
      thrown on the way: a rejected `fetch`, a non-ok status, a body that
      `response.json()` cannot parse, or a body without a token. */
  function GuestToken(reply: GuestReply): (r: Result<string, string>)
    ensures r.Success? <==> reply.Replied? && Ok(reply.status) && reply.body.Success? && Truthy(reply.body.value.token)
    ensures r.Success? ==> r.value != [] && Some(r.value) == reply.body.value.token
    ensures reply.NetworkFailure? ==> r == Failure(reply.errorMessage)
    ensures reply.Replied? && !Ok(reply.status) ==> r == Failure(StatusPrefix + DecimalString(reply.status))
    ensures reply.Replied? && Ok(reply.status) && reply.body.Failure? ==> r == Failure(reply.body.error)
    ensures reply.Replied? && Ok(reply.status) && reply.body.Success? && !Truthy(reply.body.value.token)
      ==> r == Failure(NoToken)
  {
    match reply
    case NetworkFailure(e) => Failure(e)
    case Replied(status, body) =>
      if !Ok(status) then Failure(StatusPrefix + DecimalString(status))
      else match body
        case Failure(e) => Failure(e)
        case Success(json) => if Truthy(json.token) then Success(json.token.value) else Failure(NoToken)
  }

  /** What `getBackendToken` answers when called at `checkedAt` with the keys
      holding `token` and `expiry`: the cached token, or the guest login's
      outcome. */
  function TokenOutcome(token: Option<string>, expiry: Option<string>, checkedAt: int, reply: GuestReply)
    : (r: Result<string, string>)
    ensures r.Success? ==> r.value != []
    ensures Fresh(token, expiry, checkedAt) ==> r == Success(token.value)
    ensures !Fresh(token, expiry, checkedAt) ==> r == GuestToken(reply)
  {
    if Fresh(token, expiry, checkedAt) then Success(token.value) else GuestToken(reply)
  }

  /** A token stored at time `t` is used exactly while the clock is before
      `t` plus 50 minutes: the stored expiry reads back as that number. */
  lemma RefreshedCacheWindow(token: string, t: int, now: int)
    requires token != []
    ensures Fresh(Some(token), Some(DecimalString(t + CacheMillis)), now) <==> now < t + CacheMillis
  {
    ParseIntOfDecimal(t + CacheMillis);
  }

  /** At the stored deadline itself the token is no longer used, and a stored
      token is reused at any earlier moment. */
  lemma ExpiresAtDeadline(token: string, t: int)
    requires token != []
    ensures !Fresh(Some(token), Some(DecimalString(t + CacheMillis)), t + CacheMillis)
    ensures Fresh(Some(token), Some(DecimalString(t + CacheMillis)), t + CacheMillis - 1)
  {
    RefreshedCacheWindow(token, t, t + CacheMillis);
    RefreshedCacheWindow(token, t, t + CacheMillis - 1);
  }

  /** The two storage keys. */
  class TokenCache {
    var token: Option<string>
    var expiry: Option<string>

    /** The keys as found in storage. */
    constructor(token: Option<string>, expiry: Option<string>)
      ensures this.token == token && this.expiry == expiry
    {
      this.token := token;
      this.expiry := expiry;
    }

    /** Whether a call at `now` is answered from the cache. */
    predicate Hit(now: int)
      reads this
    {
      Fresh(token, expiry, now)
    }

    /** `getBackendToken`. `checkedAt` is the clock when the cache is tested
        and `storedAt` the clock when the new expiry is computed, after the
        reply arrived; `fetched` says whether the guest login request went
        out. A cache hit answers with the cached
        token and changes nothing; otherwise there is exactly one request,
        whose token, when there is one, is stored with its expiry, and whose
        failure leaves the keys as they were. The answer is never empty. */
    method GetBackendToken(checkedAt: int, storedAt: int, reply: GuestReply)
      returns (result: Result<string, string>, fetched: bool)
      modifies this
      ensures result == TokenOutcome(old(token), old(expiry), checkedAt, reply)
      ensures fetched == !old(Hit(checkedAt))
      ensures old(Hit(checkedAt)) ==> unchanged(this)
      ensures !old(Hit(checkedAt)) && result.Success?
        ==> token == Some(result.value) && expiry == Some(DecimalString(storedAt + CacheMillis))
      ensures result.Failure? ==> unchanged(this)
    {
      if Truthy(token) && Truthy(expiry) {
        var deadline := ParseInt(expiry.value);
        if deadline.Some? && checkedAt < deadline.value {
          return Success(token.value), false;
        }
      }
      fetched := true;
      if reply.NetworkFailure? {
        return Failure(reply.errorMessage), fetched;
      }
      if !Ok(reply.status) {
        return Failure(StatusPrefix + DecimalString(reply.status)), fetched;
      }
      if reply.body.Failure? {
        return Failure(reply.body.error), fetched;
      }
      var newToken := reply.body.value.token;
      if !Truthy(newToken) {
        return Failure(NoToken), fetched;
      }
      token := newToken;
      expiry := Some(DecimalString(storedAt + CacheMillis));
      result := Success(newToken.value);
    }

    /** `clearBackendToken`: both keys are removed, so the next call fetches. */
    method Clear()
      modifies this
      ensures token == None && expiry == None
      ensures forall now :: !Hit(now)
    {
      token := None;
      expiry := None;
    }
  }
}
