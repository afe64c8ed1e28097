/** The SoundCloud token manager and catalog client.

    An access token is kept in a key-value store as one record under a fixed
    key. `getAccessToken` serves the stored record while it is unexpired;
    otherwise it tries a refresh grant (section 6 of RFC 6749) when the record
    holds a refresh token, and falls back to a client-credentials grant
    (section 4.4 of RFC 6749). Every issued record expires 60 seconds before
    the provider says it does, and the store entry lives just as long.

    The store is a map in the `TokenManager` object; the clock is the
    parameter `now` (milliseconds); the upstream answers and the outcome of
    each store operation are parameters too. `trace` records every call made
    to the store and to the upstream, in order. */
module SoundCloud {
  import opened Common
  import opened JsString
  import opened JsNumber
  import opened UrlSearchParams
  import opened Catalog

  /** The one store key the token lives under. */
  const TOKEN_KEY := "soundcloud_token"

  /** Seconds cut from the lifetime the provider grants. */
  const SAFETY_SECONDS := 60

  /** The body of an ok answer from the token endpoint. An absent
      `refresh_token` is the empty string. */
  datatype TokenGrant = TokenGrant(accessToken: string, refreshToken: string, expiresIn: int, scope: string)

  /** The stored record: the whole grant plus its expiry instant (ms). */
  datatype TokenRecord = TokenRecord(accessToken: string, refreshToken: string, expiresIn: int, expiresAt: int, scope: string)

  /** What an upstream request yields: an ok answer with its body, a non-ok
      status with its text, or a rejected `fetch`. */
  datatype Response<T> = Ok(body: T) | NotOk(status: int, statusText: string, text: string) | Thrown(message: string)

  /** The outcome of one store operation. */
  datatype StoreOp = Done | Fails(message: string)

  /** One call to the store or to the upstream. */
  datatype Effect =
    | StoreGet(key: string)
    | StoreSet(key: string, record: TokenRecord, ttl: int)
    | RefreshCall(refreshToken: string)
    | ClientCredsCall
    | SearchCall(authorization: string, params: seq<Pair>)
    | StreamCall(path: string, authorization: string)

  datatype Error =
    | AuthFailure
    | RefreshRejected(status: int, statusText: string)
    | GrantRejected(status: int, statusText: string, body: string)
    | StoreFailure(message: string)
    | Transport(message: string)
    | SearchFailed(status: int, statusText: string)
    | StreamFailed(status: int, statusText: string)

  /** The message of the `Error` each failure throws. */
  function Message(e: Error): string {
    match e
    case AuthFailure => "Failed to get SoundCloud access token"
    case RefreshRejected(s, t) => "Failed to refresh token: " + IntToString(s) + " " + t
    case GrantRejected(s, t, b) => "Failed to get token: " + IntToString(s) + " " + t + " - " + b
    case StoreFailure(m) => m
    case Transport(m) => m
    case SearchFailed(s, t) => "SoundCloud API error: " + IntToString(s) + " " + t
    case StreamFailed(s, t) => "Failed to get stream: " + IntToString(s) + " " + t
  }

  // ---------------------------------------------------------------------------
  // Issuing a record
  // ---------------------------------------------------------------------------

  /** The lifetime, in seconds, the store entry is given. */
  function StoreTtl(g: TokenGrant): int {
    g.expiresIn - SAFETY_SECONDS
  }

  /** The grant a record was made from. */
  function GrantOf(r: TokenRecord): TokenGrant {
    TokenGrant(r.accessToken, r.refreshToken, r.expiresIn, r.scope)
  }

  /** The record stored for a grant received at `now`: the whole grant, and
      an expiry that falls exactly when the store entry's TTL runs out. */
  function Issue(g: TokenGrant, now: int): (r: TokenRecord)
    ensures GrantOf(r) == g
    ensures r.expiresAt == now + 1000 * StoreTtl(g)
    ensures g.expiresIn > SAFETY_SECONDS ==> r.expiresAt > now && StoreTtl(g) > 0
  {
    TokenRecord(g.accessToken, g.refreshToken, g.expiresIn, now + g.expiresIn * 1000 - 60000, g.scope)
  }

  // ---------------------------------------------------------------------------
  // The specification of one run of getAccessToken
  // ---------------------------------------------------------------------------

  /** The environment of one `getAccessToken` run: how the store read goes,
      and what each credential request and the write after it yield. */
  datatype TokenEnv = TokenEnv(
    read: StoreOp,
    refreshResponse: Response<TokenGrant>,
    refreshWrite: StoreOp,
    grantResponse: Response<TokenGrant>,
    grantWrite: StoreOp
  )

  /** Every ok grant outlives the safety buffer. */
  predicate Sane(env: TokenEnv) {
    && (env.refreshResponse.Ok? ==> env.refreshResponse.body.expiresIn > SAFETY_SECONDS)
    && (env.grantResponse.Ok? ==> env.grantResponse.body.expiresIn > SAFETY_SECONDS)
  }

  function Stored(store: map<string, TokenRecord>): Option<TokenRecord> {
    if TOKEN_KEY in store then Some(store[TOKEN_KEY]) else None
  }

  /** The store after a run that wrote `written`, if anything. */
  function Written(store: map<string, TokenRecord>, written: Option<TokenRecord>): map<string, TokenRecord> {
    if written.Some? then store[TOKEN_KEY := written.value] else store
  }

  /** How often `e` occurs in a trace. */
  function Occurrences(es: seq<Effect>, e: Effect): nat {
    if es == [] then 0 else Occurrences(es[..|es| - 1], e) + (if es[|es| - 1] == e then 1 else 0)
  }

  lemma {:induction false} OccurrencesAppend(a: seq<Effect>, b: seq<Effect>, e: Effect)
    ensures Occurrences(a + b, e) == Occurrences(a, e) + Occurrences(b, e)
    decreases |b|
  {
    if b == [] {
      assert a + b == a;
    } else {
      assert (a + b)[..|a + b| - 1] == a + b[..|b| - 1];
      OccurrencesAppend(a, b[..|b| - 1], e);
    }
  }

  lemma {:induction false} OccurrencesNone(es: seq<Effect>, e: Effect)
    requires e !in es
    ensures Occurrences(es, e) == 0
    decreases |es|
  {
    if es != [] {
      OccurrencesNone(es[..|es| - 1], e);
    }
  }

  /** One credential request and what it leaves behind. */
  datatype GrantRun = GrantRun(effects: seq<Effect>, written: Option<TokenRecord>, result: Result<TokenRecord, Error>)

  /** The error a non-ok answer to `call` turns into. */
  function Rejection(call: Effect, status: int, statusText: string, text: string): Error {
    if call.RefreshCall? then RefreshRejected(status, statusText) else GrantRejected(status, statusText, text)
  }

  /** `refreshToken` (when `call` is a RefreshCall) or `getNewToken`: the
      request, then, on an ok answer only, the issued record written under
      TOKEN_KEY with the TTL; the record is returned only when the write
      succeeds. */
  function GrantRequest(call: Effect, now: int, response: Response<TokenGrant>, write: StoreOp): (run: GrantRun)
    requires call.RefreshCall? || call.ClientCredsCall?
    ensures run.effects == [call] + if response.Ok?
                                    then [StoreSet(TOKEN_KEY, Issue(response.body, now), StoreTtl(response.body))]
                                    else []
    ensures run.result.Success? <==> response.Ok? && write.Done?
    ensures run.result.Success? ==> run.result.value == Issue(response.body, now)
    ensures run.written == if run.result.Success? then Some(run.result.value) else None
  {
    match response
    case Ok(g) =>
      var token := Issue(g, now);
      var effects := [call, StoreSet(TOKEN_KEY, token, StoreTtl(g))];
      if write.Done? then GrantRun(effects, Some(token), Success(token))
      else GrantRun(effects, None, Failure(StoreFailure(write.message)))
    case NotOk(s, t, b) => GrantRun([call], None, Failure(Rejection(call, s, t, b)))
    case Thrown(m) => GrantRun([call], None, Failure(Transport(m)))
  }

  /** One run of `getAccessToken` and what it leaves behind. */
  datatype TokenRun = TokenRun(effects: seq<Effect>, written: Option<TokenRecord>, result: Result<string, Error>)

  /** Whether the stored record is served without a credential request. */
  predicate Fresh(store: map<string, TokenRecord>, now: int) {
    TOKEN_KEY in store && store[TOKEN_KEY].expiresAt > now
  }

  /** Whether a refresh grant is attempted: the record is expired but holds
      a refresh token. */
  predicate Refreshable(store: map<string, TokenRecord>, now: int) {
    TOKEN_KEY in store && !Fresh(store, now) && store[TOKEN_KEY].refreshToken != ""
  }

  /** Whether the refresh grant, when attempted, yields a stored record. */
  predicate RefreshSucceeds(env: TokenEnv) {
    env.refreshResponse.Ok? && env.refreshWrite.Done?
  }

  /** `getAccessToken`: read the record; serve it if unexpired; else try a
      refresh (any failure of it is swallowed); else a client-credentials
      grant. A failed read and a failed client-credentials grant both become
      the one generic error. */
  function AccessTokenRun(store: map<string, TokenRecord>, now: int, env: TokenEnv): (run: TokenRun)
    ensures |run.effects| >= 1 && run.effects[0] == StoreGet(TOKEN_KEY)
  {
    var get := [StoreGet(TOKEN_KEY)];
    if env.read.Fails? then TokenRun(get, None, Failure(AuthFailure))
    else if Fresh(store, now) then TokenRun(get, None, Success(store[TOKEN_KEY].accessToken))
    else
      var refresh :=
        if Refreshable(store, now)
        then Some(GrantRequest(RefreshCall(store[TOKEN_KEY].refreshToken), now, env.refreshResponse, env.refreshWrite))
        else None;
      if refresh.Some? && refresh.value.result.Success? then
        TokenRun(get + refresh.value.effects, refresh.value.written, Success(refresh.value.result.value.accessToken))
      else
        var tried := if refresh.Some? then refresh.value.effects else [];
        var issued := GrantRequest(ClientCredsCall, now, env.grantResponse, env.grantWrite);
        TokenRun(get + tried + issued.effects, issued.written,
                 if issued.result.Success? then Success(issued.result.value.accessToken) else Failure(AuthFailure))
  }

  // ---------------------------------------------------------------------------
  // Properties of getAccessToken
  // ---------------------------------------------------------------------------

  /** An unexpired stored record is served as it is: one store read, no
      credential request, no write. */
  lemma FastPath(store: map<string, TokenRecord>, now: int, env: TokenEnv)
    requires env.read.Done? && Fresh(store, now)
    ensures AccessTokenRun(store, now, env) == TokenRun([StoreGet(TOKEN_KEY)], None, Success(store[TOKEN_KEY].accessToken))
  {
  }

  /** An expired record with a refresh token is refreshed before anything
      else is asked for; a refresh that succeeds is served and no
      client-credentials grant is made. */
  lemma {:induction false} RefreshFirst(store: map<string, TokenRecord>, now: int, env: TokenEnv)
    requires env.read.Done? && Refreshable(store, now)
    ensures var run := AccessTokenRun(store, now, env);
            |run.effects| >= 2 && run.effects[1] == RefreshCall(store[TOKEN_KEY].refreshToken)
    ensures var run := AccessTokenRun(store, now, env);
            RefreshSucceeds(env) ==>
              && run.result == Success(env.refreshResponse.body.accessToken)
              && run.written == Some(Issue(env.refreshResponse.body, now))
              && Occurrences(run.effects, ClientCredsCall) == 0
  {
    var run := AccessTokenRun(store, now, env);
    var g := GrantRequest(RefreshCall(store[TOKEN_KEY].refreshToken), now, env.refreshResponse, env.refreshWrite);
    if RefreshSucceeds(env) {
      assert run.effects == [StoreGet(TOKEN_KEY)] + g.effects;
      OccurrencesNone(run.effects, ClientCredsCall);
    }
  }

  /** Whether a run of `getAccessToken` reaches the client-credentials
      grant: the read succeeded, the record was not served and no refresh
      succeeded. */
  predicate ReachesClientCredentials(store: map<string, TokenRecord>, now: int, env: TokenEnv) {
    env.read.Done? && !Fresh(store, now) && !(Refreshable(store, now) && RefreshSucceeds(env))
  }

  /** The trace up to the client-credentials request. */
  lemma {:induction false} CredentialPrefix(store: map<string, TokenRecord>, now: int, env: TokenEnv)
    requires ReachesClientCredentials(store, now, env)
    ensures var run := AccessTokenRun(store, now, env);
            var before := if Refreshable(store, now) then 1 + |GrantRequest(RefreshCall(store[TOKEN_KEY].refreshToken), now, env.refreshResponse, env.refreshWrite).effects| else 1;
            && before < |run.effects| && run.effects[before] == ClientCredsCall
            && Occurrences(run.effects[..before], ClientCredsCall) == 0
            && Occurrences(run.effects[before + 1..], ClientCredsCall) == 0
  {
    var run := AccessTokenRun(store, now, env);
    var get := [StoreGet(TOKEN_KEY)];
    var tried := if Refreshable(store, now)
                 then GrantRequest(RefreshCall(store[TOKEN_KEY].refreshToken), now, env.refreshResponse, env.refreshWrite).effects
                 else [];
    var issued := GrantRequest(ClientCredsCall, now, env.grantResponse, env.grantWrite);
    assert run.effects == get + tried + issued.effects;
    var before := |get + tried|;
    assert run.effects[..before] == get + tried;
    assert run.effects[before + 1..] == issued.effects[1..];
    OccurrencesAppend(get, tried, ClientCredsCall);
    if Refreshable(store, now) {
      OccurrencesAppend([tried[0]], tried[1..], ClientCredsCall);
      assert tried == [tried[0]] + tried[1..];
      assert Occurrences(tried[1..], ClientCredsCall) == 0 by {
        if |tried| == 2 {
          assert tried[1..] == [tried[1]];
        } else {
          assert tried[1..] == [];
        }
      }
    }
    if |issued.effects| == 2 {
      assert issued.effects[1..] == [issued.effects[1]];
    } else {
      assert issued.effects[1..] == [];
    }
  }

  /** A run reaches at most one client-credentials grant, and exactly one
      when the read succeeded and neither the stored record nor a refresh
      served the token: a failed refresh, whether rejected, unreachable or
      unable to write its record, falls through to exactly one. */
  lemma ClientCredentialsAtMostOnce(store: map<string, TokenRecord>, now: int, env: TokenEnv)
    ensures Occurrences(AccessTokenRun(store, now, env).effects, ClientCredsCall)
            == if ReachesClientCredentials(store, now, env) then 1 else 0
  {
    var run := AccessTokenRun(store, now, env);
    if ReachesClientCredentials(store, now, env) {
      CredentialPrefix(store, now, env);
      var before := if Refreshable(store, now) then 1 + |GrantRequest(RefreshCall(store[TOKEN_KEY].refreshToken), now, env.refreshResponse, env.refreshWrite).effects| else 1;
      assert run.effects == run.effects[..before] + [ClientCredsCall] + run.effects[before + 1..];
      OccurrencesAppend(run.effects[..before] + [ClientCredsCall], run.effects[before + 1..], ClientCredsCall);
      OccurrencesAppend(run.effects[..before], [ClientCredsCall], ClientCredsCall);
    } else if env.read.Fails? || Fresh(store, now) {
    } else {
      RefreshFirst(store, now, env);
    }
  }

  /** The store is written only with a record issued from an ok answer
      whose write succeeded. */
  lemma WrittenRecord(store: map<string, TokenRecord>, now: int, env: TokenEnv)
    ensures var run := AccessTokenRun(store, now, env);
            run.written.Some? ==>
              || (RefreshSucceeds(env) && run.written.value == Issue(env.refreshResponse.body, now))
              || (env.grantResponse.Ok? && env.grantWrite.Done? && run.written.value == Issue(env.grantResponse.body, now))
  {
  }

  /** Every write a run attempts goes under TOKEN_KEY, with a record whose
      expiry falls when the entry's TTL runs out, and a positive TTL when the
      grants are sane. */
  lemma StoreDiscipline(store: map<string, TokenRecord>, now: int, env: TokenEnv)
    ensures var run := AccessTokenRun(store, now, env);
            forall e | e in run.effects && e.StoreSet? ::
              e.key == TOKEN_KEY && e.record.expiresAt == now + 1000 * e.ttl && (Sane(env) ==> e.ttl > 0)
  {
  }

  /** A failed run writes nothing and fails with the one generic error; a
      token is returned only from the unexpired stored record or from the
      record just written. */
  lemma Outcome(store: map<string, TokenRecord>, now: int, env: TokenEnv)
    ensures var run := AccessTokenRun(store, now, env);
            run.result.Failure? ==> run.result.error == AuthFailure && run.written.None?
    ensures var run := AccessTokenRun(store, now, env);
            run.result.Success? ==>
              if run.written.Some? then run.result.value == run.written.value.accessToken
              else env.read.Done? && Fresh(store, now) && run.result.value == store[TOKEN_KEY].accessToken
  {
  }

  /** A record written at `now` is served from the store, with no credential
      request, by any later run that reads it before it expires; with sane
      grants that moment is strictly after `now`. */
  lemma IssuedTokenServed(store: map<string, TokenRecord>, now: int, env: TokenEnv, later: int, next: TokenEnv)
    requires AccessTokenRun(store, now, env).written.Some?
    requires later < AccessTokenRun(store, now, env).written.value.expiresAt
    requires next.read.Done?
    ensures var run := AccessTokenRun(store, now, env);
            AccessTokenRun(Written(store, run.written), later, next) == TokenRun([StoreGet(TOKEN_KEY)], None, run.result)
    ensures Sane(env) ==> AccessTokenRun(store, now, env).written.value.expiresAt > now
  {
    Outcome(store, now, env);
  }

  // ---------------------------------------------------------------------------
  // Search
  // ---------------------------------------------------------------------------

  /** The body of an ok search answer. */
  datatype SearchBody = SearchBody(collection: Option<seq<Track>>, nextHref: Option<string>)

  /** What `searchTracks` returns. */
  datatype SearchPage = SearchPage(tracks: seq<Track>, nextHref: Option<string>)

  /** The query of the search request, in this order. */
  function SearchQuery(query: string, limit: int, offset: Num): seq<Pair> {
    [("q", query), ("limit", IntToString(limit)), ("offset", ToString(offset)),
     ("access", "playable"), ("linked_partitioning", "true")]
  }

  /** The search request carries exactly the five parameters, once each:
      the query, the limit and offset in decimal (`NaN` for a NaN offset),
      `access=playable` and `linked_partitioning=true`. */
  lemma SearchQueryShape(query: string, limit: int, offset: Num)
    ensures var ps := SearchQuery(query, limit, offset);
            forall name :: Count(ps, name) == if name in {"q", "limit", "offset", "access", "linked_partitioning"} then 1 else 0
    ensures var ps := SearchQuery(query, limit, offset);
            && GetFirst(ps, "q") == Some(query)
            && GetFirst(ps, "limit") == Some(IntToString(limit))
            && GetFirst(ps, "offset") == Some(ToString(offset))
            && GetFirst(ps, "access") == Some("playable")
            && GetFirst(ps, "linked_partitioning") == Some("true")
  {
    var ps := SearchQuery(query, limit, offset);
    assert DistinctNames(ps);
    DistinctLookup(ps, 0);
    DistinctLookup(ps, 1);
    DistinctLookup(ps, 2);
    DistinctLookup(ps, 3);
    DistinctLookup(ps, 4);
    forall name | name !in {"q", "limit", "offset", "access", "linked_partitioning"}
      ensures Count(ps, name) == 0
    {
      CountZero(ps, name);
    }
  }

  /** The result of the search request: the upstream tracks in their order
      (none when the collection is absent) and `next_href` as it came; a
      non-ok answer fails with its status. */
  function SearchOutcome(response: Response<SearchBody>): (r: Result<SearchPage, Error>)
    ensures r.Success? <==> response.Ok?
    ensures response.NotOk? ==> r == Failure(SearchFailed(response.status, response.statusText))
    ensures r.Success? ==> r.value.nextHref == response.body.nextHref
    ensures r.Success? ==> r.value.tracks == if response.body.collection.Some? then response.body.collection.value else []
  {
    match response
    case Ok(body) => Success(SearchPage(if body.collection.Some? then body.collection.value else [], body.nextHref))
    case NotOk(s, t, _) => Failure(SearchFailed(s, t))
    case Thrown(m) => Failure(Transport(m))
  }

  /** The authorization header for a token. */
  function OAuth(token: string): string {
    "OAuth " + token
  }

  // ---------------------------------------------------------------------------
  // The client object
  // ---------------------------------------------------------------------------

  class TokenManager {
    /** The key-value store. */
    var store: map<string, TokenRecord>
    /** Every call made to the store and the upstream, oldest first. */
    var trace: seq<Effect>

    constructor (initial: map<string, TokenRecord>)
      ensures store == initial && trace == []
    {
      store := initial;
      trace := [];
    }

    /** `refreshToken(value)`. */
    method RefreshToken(value: string, now: int, response: Response<TokenGrant>, write: StoreOp)
      returns (r: Result<TokenRecord, Error>)
      requires response.Ok? ==> response.body.expiresIn > SAFETY_SECONDS
      modifies this
      ensures var run := GrantRequest(RefreshCall(value), now, response, write);
              r == run.result && trace == old(trace) + run.effects && store == Written(old(store), run.written)
    {
      trace := trace + [RefreshCall(value)];
      match response {
        case NotOk(status, statusText, _) =>
          r := Failure(RefreshRejected(status, statusText));
        case Thrown(message) =>
          r := Failure(Transport(message));
        case Ok(grant) =>
          var token := Issue(grant, now);
          trace := trace + [StoreSet(TOKEN_KEY, token, StoreTtl(grant))];
          if write.Fails? {
            r := Failure(StoreFailure(write.message));
          } else {
            store := store[TOKEN_KEY := token];
            r := Success(token);
          }
      }
    }

    /** `getNewToken()`: the client-credentials grant. */
    method GetNewToken(now: int, response: Response<TokenGrant>, write: StoreOp)
      returns (r: Result<TokenRecord, Error>)
      requires response.Ok? ==> response.body.expiresIn > SAFETY_SECONDS
      modifies this
      ensures var run := GrantRequest(ClientCredsCall, now, response, write);
              r == run.result && trace == old(trace) + run.effects && store == Written(old(store), run.written)
    {
      trace := trace + [ClientCredsCall];
      match response {
        case NotOk(status, statusText, text) =>
          r := Failure(GrantRejected(status, statusText, text));
        case Thrown(message) =>
          r := Failure(Transport(message));
        case Ok(grant) =>
          var token := Issue(grant, now);
          trace := trace + [StoreSet(TOKEN_KEY, token, StoreTtl(grant))];
          if write.Fails? {
            r := Failure(StoreFailure(write.message));
          } else {
            store := store[TOKEN_KEY := token];
            r := Success(token);
          }
      }
    }

    /** `getAccessToken()`. */
    method GetAccessToken(now: int, env: TokenEnv) returns (r: Result<string, Error>)
      requires Sane(env)
      modifies this
      ensures var run := AccessTokenRun(old(store), now, env);
              r == run.result && trace == old(trace) + run.effects && store == Written(old(store), run.written)
    {
      ghost var run := AccessTokenRun(store, now, env);
      trace := trace + [StoreGet(TOKEN_KEY)];
      if env.read.Fails? {
        return Failure(AuthFailure);
      }
      if TOKEN_KEY in store && store[TOKEN_KEY].expiresAt > now {
        return Success(store[TOKEN_KEY].accessToken);
      }
      if TOKEN_KEY in store && store[TOKEN_KEY].refreshToken != "" {
        var refreshed := RefreshToken(store[TOKEN_KEY].refreshToken, now, env.refreshResponse, env.refreshWrite);
        if refreshed.Success? {
          return Success(refreshed.value.accessToken);
        }
      }
      assert !(Refreshable(old(store), now) && RefreshSucceeds(env));
      var issued := GetNewToken(now, env.grantResponse, env.grantWrite);
      if issued.Failure? {
        return Failure(AuthFailure);
      }
      return Success(issued.value.accessToken);
    }

    /** `searchTracks(query, limit, offset)`: a token first (its failure
        propagates), then one search request with that token. */
    method SearchTracks(now: int, env: TokenEnv, response: Response<SearchBody>,
                        query: string, limit: int := 25, offset: Num := Int(0))
      returns (r: Result<SearchPage, Error>)
      requires Sane(env)
      modifies this
      ensures var run := AccessTokenRun(old(store), now, env);
              && store == Written(old(store), run.written)
              && (run.result.Failure? ==> r == Failure(run.result.error) && trace == old(trace) + run.effects)
              && (run.result.Success? ==>
                    && r == SearchOutcome(response)
                    && trace == old(trace) + run.effects + [SearchCall(OAuth(run.result.value), SearchQuery(query, limit, offset))])
    {
      var token := GetAccessToken(now, env);
      if token.Failure? {
        return Failure(token.error);
      }
      trace := trace + [SearchCall(OAuth(token.value), SearchQuery(query, limit, offset))];
      r := SearchOutcome(response);
    }
  }
}
