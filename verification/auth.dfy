/**
 * The processor's session cache: the module-level access token, refresh token
 * and issue time, and the decision to log in, refresh or keep them.
 * Time is an integer clock in seconds, read once per call.
 */
module Auth {
  import opened Wrappers
  import opened Supabase

  /** Tokens older than this many seconds are refreshed (45 minutes). */
  const TOKEN_LIFETIME: int := 60 * 45

  /** The three cached values the decision depends on. */
  datatype Tokens = Tokens(access: Option<string>, refresh: Option<string>, issuedAt: Option<int>)

  /** What one authentication does. */
  datatype Action = LogIn | Refresh | Keep

  /** Both tokens present implies an issue time (they are only ever set together). */
  predicate Consistent(s: Tokens)
  {
    s.access.Some? && s.refresh.Some? ==> s.issuedAt.Some?
  }

  /** The branch `authenticate_processor` takes at time `now`. */
  function Decide(s: Tokens, now: int): (a: Action)
    requires Consistent(s)
    ensures a == LogIn <==> s.access.None? || s.refresh.None?
    ensures a == Refresh <==> s.access.Some? && s.refresh.Some? && now - s.issuedAt.value > TOKEN_LIFETIME
  {
    if s.access.None? || s.refresh.None? then LogIn
    else if now - s.issuedAt.value > TOKEN_LIFETIME then Refresh
    else Keep
  }

  /** The cache after one authentication at `now`, the service answering with `answer`. */
  function Next(s: Tokens, now: int, answer: Session): (r: Tokens)
    requires Consistent(s)
    ensures Consistent(r)
    ensures r.access.Some? && r.refresh.Some? && r.issuedAt.Some?
    ensures Decide(s, now) == Keep <==> r == s
    ensures Decide(s, now) != Keep ==>
              r == Tokens(Some(answer.accessToken), Some(answer.refreshToken), Some(now))
  {
    match Decide(s, now)
    case Keep => s
    case _ => Tokens(Some(answer.accessToken), Some(answer.refreshToken), Some(now))
  }

  /** The requests one authentication sends; the refresh goes through a client opened with the old access token. */
  function Requests(s: Tokens, now: int): (r: seq<Call>)
    requires Consistent(s)
    ensures Decide(s, now) == Keep <==> r == []
    ensures Decide(s, now) == LogIn ==> r == [Login]
    ensures Decide(s, now) == Refresh ==> r == [RefreshSession(s.access, s.refresh.value)]
  {
    match Decide(s, now)
    case LogIn => [Login]
    case Refresh => [RefreshSession(s.access, s.refresh.value)]
    case Keep => []
  }

  /** A second authentication at the same instant changes nothing and sends nothing. */
  lemma AuthenticateIsIdempotent(s: Tokens, now: int, first: Session, second: Session)
    requires Consistent(s)
    ensures Decide(Next(s, now, first), now) == Keep
    ensures Next(Next(s, now, first), now, second) == Next(s, now, first)
    ensures Requests(Next(s, now, first), now) == []
  {
    if Decide(s, now) != Keep {
      assert Next(s, now, first).issuedAt == Some(now);
    }
  }

  /** Cached tokens are kept for every instant up to and including TOKEN_LIFETIME seconds after issue. */
  lemma KeptWithinLifetime(s: Tokens, now: int, answer: Session)
    requires s.access.Some? && s.refresh.Some? && s.issuedAt.Some?
    requires now <= s.issuedAt.value + TOKEN_LIFETIME
    ensures Decide(s, now) == Keep && Next(s, now, answer) == s && Requests(s, now) == []
  {
  }

  /** One second past the lifetime the tokens are refreshed with the cached refresh token. */
  lemma RefreshedAfterLifetime(s: Tokens, answer: Session)
    requires s.access.Some? && s.refresh.Some? && s.issuedAt.Some?
    ensures Decide(s, s.issuedAt.value + TOKEN_LIFETIME + 1) == Refresh
    ensures Requests(s, s.issuedAt.value + TOKEN_LIFETIME + 1) == [RefreshSession(s.access, s.refresh.value)]
  {
  }

  /** The module globals of `processor/auth.py` (and, without the user id, of `processor/handler.py`). */
  class TokenCache {
    var accessToken: Option<string>
    var refreshToken: Option<string>
    var issuedAt: Option<int>
    /** Read by `get_user_id`; `authenticate_processor` only binds a local of the same name. */
    var userId: Option<string>

    function State(): Tokens
      reads this
    {
      Tokens(accessToken, refreshToken, issuedAt)
    }

    ghost predicate Valid()
      reads this
    {
      Consistent(State())
    }

    /** Module import: every global starts as None. */
    constructor ()
      ensures Valid()
      ensures State() == Tokens(None, None, None) && userId == None
    {
      accessToken, refreshToken, issuedAt, userId := None, None, None, None;
    }

    /** `authenticate_processor()` at clock reading `now`. */
    method Authenticate(now: int, answer: Session, client: Client) returns (action: Action)
      requires Valid()
      modifies this, client
      ensures Valid()
      ensures action == Decide(old(State()), now)
      ensures State() == Next(old(State()), now, answer)
      ensures userId == old(userId)
      ensures client.calls == old(client.calls) + Requests(old(State()), now)
      ensures client.metadata == old(client.metadata) && client.logs == old(client.logs)
    {
      if accessToken.None? || refreshToken.None? {
        var auth := client.LogIn(answer);
        accessToken := Some(auth.accessToken);
        refreshToken := Some(auth.refreshToken);
        issuedAt := Some(now);
        // `__USER_ID = auth.user.id` binds a local name: the global is left alone.
        var localUserId := auth.userId;
        action := LogIn;
      } else if now - issuedAt.value > TOKEN_LIFETIME {
        var auth := client.Refresh(accessToken, refreshToken.value, answer);
        accessToken := Some(auth.accessToken);
        refreshToken := Some(auth.refreshToken);
        issuedAt := Some(now);
        var localUserId := auth.userId;
        action := Refresh;
      } else {
        action := Keep;
      }
    }

    /**
     * `supabase_client()`: authenticate, then open a client with the
     * access token as it is after the authentication.
     */
    method SupabaseClient(now: int, answer: Session, client: Client) returns (token: Option<string>)
      requires Valid()
      modifies this, client
      ensures Valid()
      ensures token == accessToken && token.Some?
      ensures token == Next(old(State()), now, answer).access
      ensures State() == Next(old(State()), now, answer)
      ensures userId == old(userId)
      ensures client.calls == old(client.calls) + Requests(old(State()), now)
      ensures client.metadata == old(client.metadata) && client.logs == old(client.logs)
    {
      var _ := Authenticate(now, answer, client);
      token := accessToken;
    }

    /** `get_user_id()`: authenticate when no id is cached, then return the cached id. */
    method GetUserId(now: int, answer: Session, client: Client) returns (id: Option<string>)
      requires Valid()
      modifies this, client
      ensures Valid()
      ensures id == old(userId) && userId == old(userId)
      ensures old(userId).None? ==> State() == Next(old(State()), now, answer)
      ensures old(userId).None? ==> client.calls == old(client.calls) + Requests(old(State()), now)
      ensures old(userId).Some? ==> State() == old(State()) && client.calls == old(client.calls)
      ensures client.metadata == old(client.metadata) && client.logs == old(client.logs)
    {
      if userId.None? {
        var _ := Authenticate(now, answer, client);
      }
      id := userId;
    }
  }

  /**
   * As written, a process never learns its user id: starting from import,
   * `get_user_id` logs in and still answers None.
   */
  method FreshUserId(now: int, answer: Session, client: Client) returns (id: Option<string>)
    modifies client
    ensures id == None
    ensures client.calls == old(client.calls) + [Login]
  {
    var cache := new TokenCache();
    id := cache.GetUserId(now, answer, client);
  }
}
