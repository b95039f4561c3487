/** The session and cart state of the API gateway (main.go): session
    token generation, the credential scan and session issuance of the
    login endpoint, the authorization gate of the auth-status endpoint,
    and the per-user cart store. HTTP plumbing is reduced to the outcome
    each handler answers with. */
module Gateway {
  import opened Wrappers
  import opened MockDb

  // ---------------------------------------------------------------
  // Outcomes
  // ---------------------------------------------------------------

  /** The error answers of the handlers. */
  datatype Status = BadRequest | Unauthorized | MethodNotAllowed

  /** The HTTP status code written for each error answer: distinct
      client-error codes, 400, 401 and 405. */
  function Code(s: Status): (code: int)
    ensures 400 <= code < 500
    ensures code == 400 <==> s.BadRequest?
    ensures code == 401 <==> s.Unauthorized?
    ensures code == 405 <==> s.MethodNotAllowed?
  {
    match s
    case BadRequest => 400
    case Unauthorized => 401
    case MethodNotAllowed => 405
  }

  datatype Result<+T> = Ok(value: T) | Err(status: Status)

  /** The public part of a registry record: `{userid, username}`. */
  datatype Identity = Identity(userId: string, username: string)

  /** What a successful login hands back: the cookie value and the identity. */
  datatype Session = Session(token: string, identity: Identity)

  /** The login request body `{username, password}`. */
  datatype Credentials = Credentials(username: string, password: string)

  /** The cart endpoint answers a GET with the stored entries and a
      POST or PUT with a confirmation. */
  datatype CartReply<+E> = Contents(entries: seq<E>) | Updated

  const MethodGet: string := "GET"
  const MethodPost: string := "POST"
  const MethodPut: string := "PUT"

  function IdentityOf(u: User): Identity
  {
    Identity(u.userId, u.username)
  }

  // ---------------------------------------------------------------
  // Session token generator
  // ---------------------------------------------------------------

  /** The 62-symbol alphabet tokens are drawn from. */
  const Letters: string := "abcdefghijklmnopqrstuvwxyzABCDEFGHIJKLMNOPQRSTUVWXYZ0123456789"

  const TokenLength: nat := 32

  /** A well-formed session token: 32 characters of the alphabet. */
  ghost predicate IsSessionId(s: string)
  {
    |s| == TokenLength && forall i :: 0 <= i < |s| ==> s[i] in Letters
  }

  /** The values `rand.Intn(len(letters))` returns, one per position. */
  ghost predicate ValidDraws(draws: seq<nat>)
  {
    |draws| == TokenLength && forall i :: 0 <= i < |draws| ==> draws[i] < |Letters|
  }

  /** Fills a 32-byte buffer position by position with letters picked by
      the random draws. */
  method GenerateSessionId(draws: seq<nat>) returns (id: string)
    requires ValidDraws(draws)
    ensures IsSessionId(id)
    ensures forall i :: 0 <= i < |id| ==> id[i] == Letters[draws[i]]
  {
    var b := new char[TokenLength];
    for i := 0 to TokenLength
      invariant forall j :: 0 <= j < i ==> b[j] == Letters[draws[j]]
    {
      b[i] := Letters[draws[i]];
    }
    id := b[..];
  }

  // ---------------------------------------------------------------
  // Credential verifier
  // ---------------------------------------------------------------

  /** Both fields equal, case-sensitively. */
  predicate Matches(u: User, username: string, password: string)
  {
    u.username == username && u.password == password
  }

  /** The first registry record, in registry order, whose username and
      password both match; None when no record does. */
  function FirstMatch(users: seq<User>, username: string, password: string): (r: Option<User>)
    ensures r.None? <==> forall i :: 0 <= i < |users| ==> !Matches(users[i], username, password)
    ensures r.Some? ==> exists k :: 0 <= k < |users| && users[k] == r.value
                          && Matches(users[k], username, password)
                          && forall j :: 0 <= j < k ==> !Matches(users[j], username, password)
  {
    if users == [] then None
    else if Matches(users[0], username, password) then Some(users[0])
    else
      var r := FirstMatch(users[1..], username, password);
      assert r.Some? ==> exists k :: 0 <= k < |users| && users[k] == r.value
                           && Matches(users[k], username, password)
                           && forall j :: 0 <= j < k ==> !Matches(users[j], username, password) by {
        if r.Some? {
          var k :| 0 <= k < |users[1..]| && users[1..][k] == r.value
                   && Matches(users[1..][k], username, password)
                   && forall j :: 0 <= j < k ==> !Matches(users[1..][j], username, password);
          assert users[k + 1] == r.value;
          forall j | 0 <= j < k + 1 ensures !Matches(users[j], username, password) {
            if j > 0 { assert users[j] == users[1..][j - 1]; }
          }
        }
      }
      assert (forall i :: 0 <= i < |users| ==> !Matches(users[i], username, password)) ==> r.None? by {
        if forall i :: 0 <= i < |users| ==> !Matches(users[i], username, password) {
          forall i | 0 <= i < |users[1..]| ensures !Matches(users[1..][i], username, password) {
            assert users[1..][i] == users[i + 1];
          }
        }
      }
      r
  }

  /** The first registry record with this user ID, None when there is none. */
  function FindUserById(users: seq<User>, userId: string): (r: Option<User>)
    ensures r.None? <==> forall i :: 0 <= i < |users| ==> users[i].userId != userId
    ensures r.Some? ==> exists k :: 0 <= k < |users| && users[k] == r.value
                          && r.value.userId == userId
                          && forall j :: 0 <= j < k ==> users[j].userId != userId
  {
    if users == [] then None
    else if users[0].userId == userId then Some(users[0])
    else
      var r := FindUserById(users[1..], userId);
      assert r.Some? ==> exists k :: 0 <= k < |users| && users[k] == r.value
                           && r.value.userId == userId
                           && forall j :: 0 <= j < k ==> users[j].userId != userId by {
        if r.Some? {
          var k :| 0 <= k < |users[1..]| && users[1..][k] == r.value
                   && r.value.userId == userId
                   && forall j :: 0 <= j < k ==> users[1..][j].userId != userId;
          assert users[k + 1] == r.value;
          forall j | 0 <= j < k + 1 ensures users[j].userId != userId {
            if j > 0 { assert users[j] == users[1..][j - 1]; }
          }
        }
      }
      assert (forall i :: 0 <= i < |users| ==> users[i].userId != userId) ==> r.None? by {
        if forall i :: 0 <= i < |users| ==> users[i].userId != userId {
          forall i | 0 <= i < |users[1..]| ensures users[1..][i].userId != userId {
            assert users[1..][i] == users[i + 1];
          }
        }
      }
      r
  }

  /** With distinct user IDs, looking up a record's own ID finds that record. */
  lemma {:induction false} FindUserByOwnId(users: seq<User>, k: nat)
    requires DistinctUserIds(users)
    requires k < |users|
    ensures FindUserById(users, users[k].userId) == Some(users[k])
  {
    if k > 0 {
      assert users[0].userId != users[k].userId;
      var tail := users[1..];
      assert DistinctUserIds(tail) by {
        forall i, j | 0 <= i < j < |tail| ensures tail[i].userId != tail[j].userId {
          assert tail[i] == users[i + 1] && tail[j] == users[j + 1];
        }
      }
      FindUserByOwnId(tail, k - 1);
    }
  }

  /** The registry's own example: "avner" with password "2004" is the
      first record, user ID "1". */
  lemma AvnerLogin()
    ensures FirstMatch(MockUsers, "avner", "2004") == Some(User("1", "avner", "2004"))
    ensures forall p :: p != "2004" ==> FirstMatch(MockUsers, "avner", p).None?
  {
  }

  // ---------------------------------------------------------------
  // Authorization gate
  // ---------------------------------------------------------------

  /** Every session names a user ID of the registry. */
  ghost predicate SessionsRegistered(sessions: map<string, string>)
  {
    forall t :: t in sessions ==> exists i :: 0 <= i < |MockUsers| && MockUsers[i].userId == sessions[t]
  }

  /** The auth-status decision: from the cookie to the session table to
      the registry; every failure is Unauthorized. Reads, never writes. */
  function AuthStatus(sessions: map<string, string>, cookie: Option<string>): (r: Result<Identity>)
    ensures r.Ok? <==> cookie.Some? && cookie.value in sessions
                       && exists i :: 0 <= i < |MockUsers| && MockUsers[i].userId == sessions[cookie.value]
    ensures r.Ok? ==> r.value.userId == sessions[cookie.value]
                      && exists u :: u in MockUsers && IdentityOf(u) == r.value
    ensures r.Err? ==> r.status == Unauthorized
  {
    match cookie
    case None => Err(Unauthorized)
    case Some(token) =>
      if token !in sessions then Err(Unauthorized)
      else
        match FindUserById(MockUsers, sessions[token])
        case None => Err(Unauthorized)
        case Some(u) => Ok(IdentityOf(u))
  }

  /** While every session names a registered user, a presented token is
      accepted exactly when it is in the session table. */
  lemma RegisteredTokenResolves(sessions: map<string, string>, token: string)
    requires SessionsRegistered(sessions)
    ensures AuthStatus(sessions, Some(token)).Ok? <==> token in sessions
  {
  }

  /** Issuing `token` for a registry record makes the gate resolve that
      token to the record's own identity, whatever the table held before. */
  lemma StatusAfterIssue(sessions: map<string, string>, token: string, k: nat)
    requires k < |MockUsers|
    ensures AuthStatus(sessions[token := MockUsers[k].userId], Some(token)) == Ok(IdentityOf(MockUsers[k]))
  {
    MockUserIdsDistinct();
    FindUserByOwnId(MockUsers, k);
  }

  // ---------------------------------------------------------------
  // Cart store
  // ---------------------------------------------------------------

  /** The cart a GET answers with: the stored list, or empty for a user
      without one. */
  function CartOf<E>(carts: map<string, seq<E>>, userId: string): seq<E>
  {
    if userId in carts then carts[userId] else []
  }

  // ---------------------------------------------------------------
  // The gateway's shared state
  // ---------------------------------------------------------------

  /** The process-wide session table (token -> user ID) and cart table
      (user ID -> entries), with the handlers that use them. */
  class Server<E> {
    var sessions: map<string, string>
    var carts: map<string, seq<E>>

    /** Every issued session names a registered user. */
    ghost predicate Valid()
      reads this
    {
      SessionsRegistered(sessions)
    }

    /** Process start: no sessions, the given initial carts. */
    constructor (initialCarts: map<string, seq<E>>)
      ensures Valid()
      ensures sessions == map[] && carts == initialCarts
    {
      sessions := map[];
      carts := initialCarts;
    }

    /** The login endpoint. Only POST is served; a malformed body (None)
        is refused; otherwise the registry is scanned in order and the
        first record matching both fields gets a fresh token. */
    method Login(httpMethod: string, body: Option<Credentials>, draws: seq<nat>) returns (r: Result<Session>)
      requires Valid()
      requires ValidDraws(draws)
      modifies this
      ensures Valid()
      ensures carts == old(carts)
      ensures httpMethod != MethodPost ==> r == Err(MethodNotAllowed) && sessions == old(sessions)
      ensures httpMethod == MethodPost && body.None? ==> r == Err(BadRequest) && sessions == old(sessions)
      ensures httpMethod == MethodPost && body.Some? ==>
                var m := FirstMatch(MockUsers, body.value.username, body.value.password);
                && (m.None? ==> r == Err(Unauthorized) && sessions == old(sessions))
                && (m.Some? ==> && r.Ok?
                                && r.value.identity == IdentityOf(m.value)
                                && IsSessionId(r.value.token)
                                && sessions == old(sessions)[r.value.token := m.value.userId])
      ensures r.Ok? ==> AuthStatus(sessions, Some(r.value.token)) == Ok(r.value.identity)
    {
      if httpMethod != MethodPost {
        return Err(MethodNotAllowed);
      }
      if body.None? {
        return Err(BadRequest);
      }
      var username, password := body.value.username, body.value.password;
      var i := 0;
      while i < |MockUsers|
        invariant 0 <= i <= |MockUsers|
        invariant FirstMatch(MockUsers[i..], username, password) == FirstMatch(MockUsers, username, password)
        invariant sessions == old(sessions) && carts == old(carts)
      {
        var user := MockUsers[i];
        if user.username == username && user.password == password {
          var sessionId := GenerateSessionId(draws);
          sessions := sessions[sessionId := user.userId];
          StatusAfterIssue(old(sessions), sessionId, i);
          return Ok(Session(sessionId, IdentityOf(user)));
        }
        assert MockUsers[i..][1..] == MockUsers[i + 1..];
        i := i + 1;
      }
      return Err(Unauthorized);
    }

    /** The cart endpoint. A missing `userid` is refused first; GET reads
        the cart, POST and PUT replace it wholesale (a malformed body is
        refused), any other method is refused. Refusals change nothing. */
    method Cart(userId: string, httpMethod: string, body: Option<seq<E>>) returns (r: Result<CartReply<E>>)
      requires Valid()
      modifies this
      ensures Valid()
      ensures sessions == old(sessions)
      ensures userId == "" ==> r == Err(BadRequest) && carts == old(carts)
      ensures userId != "" && httpMethod == MethodGet ==>
                r == Ok(Contents(CartOf(old(carts), userId))) && carts == old(carts)
      ensures userId != "" && (httpMethod == MethodPost || httpMethod == MethodPut) ==>
                if body.None? then r == Err(BadRequest) && carts == old(carts)
                else r == Ok(Updated) && carts == old(carts)[userId := body.value]
      ensures userId != "" && httpMethod !in {MethodGet, MethodPost, MethodPut} ==>
                r == Err(MethodNotAllowed) && carts == old(carts)
    {
      if userId == "" {
        return Err(BadRequest);
      }
      if httpMethod == MethodGet {
        r := Ok(Contents(CartOf(carts, userId)));
      } else if httpMethod == MethodPost || httpMethod == MethodPut {
        if body.None? {
          return Err(BadRequest);
        }
        carts := carts[userId := body.value];
        r := Ok(Updated);
      } else {
        r := Err(MethodNotAllowed);
      }
    }
  }

  /** The process as it starts: no sessions, and the mock carts as the
      cart table. */
  method Start() returns (s: Server<CartEntry>)
    ensures fresh(s) && s.Valid()
    ensures s.sessions == map[] && s.carts == MockCarts
  {
    s := new Server(MockCarts);
  }

  // ---------------------------------------------------------------
  // Scenarios over the handlers
  // ---------------------------------------------------------------

  /** Login followed by auth status with the issued cookie answers the
      identity the login answered. */
  method LoginThenStatus<E>(g: Server<E>, creds: Credentials, draws: seq<nat>)
    returns (login: Result<Session>, status: Result<Identity>)
    requires g.Valid()
    requires ValidDraws(draws)
    modifies g
    ensures g.Valid() && g.carts == old(g.carts)
    ensures login.Ok? ==> g.sessions == old(g.sessions)[login.value.token := login.value.identity.userId]
    ensures login.Err? ==> login == Err(Unauthorized) && g.sessions == old(g.sessions)
    ensures login.Ok? <==> FirstMatch(MockUsers, creds.username, creds.password).Some?
    ensures login.Ok? ==> status == Ok(login.value.identity)
    ensures login.Ok? ==> && login.value.identity == IdentityOf(FirstMatch(MockUsers, creds.username, creds.password).value)
                          && IsSessionId(login.value.token)
  {
    login := g.Login(MethodPost, Some(creds), draws);
    if login.Ok? {
      status := AuthStatus(g.sessions, Some(login.value.token));
    } else {
      status := Err(Unauthorized);
    }
  }

  /** A POST of a list followed by a GET answers exactly that list, and
      no other user's cart moves. */
  method ReplaceThenGet<E>(g: Server<E>, userId: string, entries: seq<E>)
    returns (get: Result<CartReply<E>>)
    requires g.Valid()
    requires userId != ""
    modifies g
    ensures g.Valid()
    ensures g.sessions == old(g.sessions) && g.carts == old(g.carts)[userId := entries]
    ensures get == Ok(Contents(entries))
    ensures forall u :: u != userId ==> CartOf(g.carts, u) == CartOf(old(g.carts), u)
  {
    var post := g.Cart(userId, MethodPost, Some(entries));
    get := g.Cart(userId, MethodGet, None);
  }
}
