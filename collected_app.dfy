/**
 * The other browser script of the repository (staticfiles/posts/app.js).
 * Unlike the one served with the application, it reads the user from the
 * token's payload, clears the tokens when the check fails, signs in right
 * after registering and fetches the posts without a token.
 */
module CollectedApp {
  import opened Outcomes
  import opened Browser

  const FetchFailed := "Не удалось получить посты"
  const BadCredentials := "Неверные учетные данные"
  const LoginAfterRegisterFailed := "Ошибка входа после регистрации"
  /** What a browser reports when `forEach` is called on an object that is not an array. */
  const NotAList := "posts.forEach is not a function"

  /** The claims of an access token this script reads; a missing `is_superuser` is `None`. */
  datatype TokenPayload = TokenPayload(userId: nat, username: string, isSuperuser: Option<bool>)

  /** The user `getUserFromToken` returns. */
  datatype User = User(id: nat, username: string, isSuperuser: bool)

  /**
   * `getUserFromToken`: nothing without a truthy token; otherwise the
   * decoded payload's user, or nothing when it cannot be decoded. Decoding
   * the token (`atob` and `JSON.parse` of its middle part) is not part of
   * this model: `decoded` is its outcome for the stored token.
   */
  function GetUserFromToken(s: Storage, decoded: Option<TokenPayload>): (u: Option<User>)
    ensures u.Some? <==> HasToken(s) && decoded.Some?
    ensures u.Some? ==> u.value.id == decoded.value.userId && u.value.username == decoded.value.username
    ensures u.Some? ==> (u.value.isSuperuser <==> decoded.value.isSuperuser == Some(true))
  {
    if !HasToken(s) then None
    else match decoded
      case None => None
      case Some(p) => Some(User(p.userId, p.username, p.isSuperuser == Some(true)))
  }

  datatype PageState = PageState(
    storage: Storage,
    ui: Visibility,
    usernameDisplay: string,
    container: Container,
    alerts: seq<string>,
    sent: seq<Request>)

  /** The posts request of this script: never authorised. */
  const PostsRequest := Request("GET", PostsUrl, None, NoBody)

  /**
   * `fetchPosts`: one unauthorised GET. A bare array is rendered. A
   * paginated object empties the container and then fails in `forEach`.
   * An error status is alerted.
   */
  function Fetched(st: PageState, reply: Reply<PostsPayload, ()>): (r: PageState)
    ensures r.sent == st.sent + [PostsRequest]
    ensures r.storage == st.storage && r.ui == st.ui && r.usernameDisplay == st.usernameDisplay
    ensures reply.Ok? && reply.body.Bare? ==> r.container == PostList(reply.body.items) && r.alerts == st.alerts
    ensures reply.Ok? && reply.body.Page? ==> r.container == PostList([]) && r.alerts == st.alerts + [NotAList]
    ensures reply.NotOk? ==> r.container == st.container && r.alerts == st.alerts + [FetchFailed]
    ensures reply.Throws? ==> r.container == st.container && r.alerts == st.alerts + [reply.message]
  {
    var st1 := st.(sent := st.sent + [PostsRequest]);
    match reply
    case Ok(Bare(items)) => st1.(container := PostList(items))
    case Ok(Page(_)) => st1.(container := PostList([]), alerts := st.alerts + [NotAList])
    case NotOk(_) => st1.(alerts := st.alerts + [FetchFailed])
    case Throws(m) => st1.(alerts := st.alerts + [m])
  }

  /** The flags of a signed-out page: only the auth forms' box and the auth buttons are shown. */
  const SignedOutUI := Visibility(false, true, true, true, true, false)

  const TokenKeys := {AccessTokenKey, RefreshTokenKey}

  /**
   * `updateUI`: signed in exactly when the check passes and the token's
   * user can be read. Signed in, the user's name is shown and the posts are
   * fetched. Otherwise both tokens are removed and the page shows the auth
   * buttons only.
   */
  function Refreshed(st: PageState, authReply: Reply<(), ()>, decoded: Option<TokenPayload>,
                     postsReply: Reply<PostsPayload, ()>): (r: PageState)
    ensures var c := CheckAuth(st.storage, authReply);
      var user := GetUserFromToken(st.storage, decoded);
      if c.authenticated && user.Some? then
        && r.storage == st.storage
        && r.ui == st.ui.(authForms := true, newPostForm := false, userInfo := false)
        && r.usernameDisplay == user.value.username
        && r.sent == st.sent + ProbeLog(c) + [PostsRequest]
      else
        && r.storage == Without(st.storage, TokenKeys)
        && r.ui == SignedOutUI
        && r.sent == st.sent + ProbeLog(c)
        && r.alerts == st.alerts && r.container == st.container
  {
    var c := CheckAuth(st.storage, authReply);
    var user := GetUserFromToken(st.storage, decoded);
    var st1 := st.(sent := st.sent + ProbeLog(c));
    if c.authenticated && user.Some? then
      Fetched(st1.(ui := st.ui.(authForms := true, newPostForm := false, userInfo := false),
                   usernameDisplay := user.value.username), postsReply)
    else
      st1.(storage := Without(st.storage, TokenKeys), ui := SignedOutUI)
  }

  /**
   * After a refresh the page and the storage agree: the user info is shown
   * exactly when a token is stored. A stale or unreadable token does not
   * survive a refresh.
   */
  lemma RefreshAgreesWithStorage(st: PageState, authReply: Reply<(), ()>, decoded: Option<TokenPayload>,
                                 postsReply: Reply<PostsPayload, ()>)
    ensures var r := Refreshed(st, authReply, decoded, postsReply);
      !r.ui.userInfo <==> HasToken(r.storage)
  {
    var c := CheckAuth(st.storage, authReply);
    if !(c.authenticated && GetUserFromToken(st.storage, decoded).Some?) {
      RemovedTokenFailsCheck(st.storage, TokenKeys, authReply);
    }
  }

  /** A second refresh of a page the first left signed out changes nothing and sends nothing. */
  lemma SignedOutIsStable(st: PageState, a1: Reply<(), ()>, d1: Option<TokenPayload>, p1: Reply<PostsPayload, ()>,
                          a2: Reply<(), ()>, d2: Option<TokenPayload>, p2: Reply<PostsPayload, ()>)
    requires Refreshed(st, a1, d1, p1).ui.userInfo
    ensures Refreshed(Refreshed(st, a1, d1, p1), a2, d2, p2) == Refreshed(st, a1, d1, p1)
  {
    var r := Refreshed(st, a1, d1, p1);
    RefreshAgreesWithStorage(st, a1, d1, p1);
    assert Without(r.storage, TokenKeys) == r.storage;
  }

  /**
   * `handleLogout`: the two tokens are removed; the stored user name, and
   * everything else, stays. The page reload that follows is not modelled.
   */
  function LoggedOut(st: PageState): (r: PageState)
    ensures r.storage == Without(st.storage, TokenKeys)
    ensures UsernameKey in st.storage ==> UsernameKey in r.storage && r.storage[UsernameKey] == st.storage[UsernameKey]
    ensures forall reply :: CheckAuth(r.storage, reply) == AuthCheck(false, None)
    ensures r.ui == st.ui && r.sent == st.sent && r.alerts == st.alerts
  {
    forall reply: Reply<(), ()> ensures CheckAuth(Without(st.storage, TokenKeys), reply) == AuthCheck(false, None) {
      RemovedTokenFailsCheck(st.storage, TokenKeys, reply);
    }
    st.(storage := Without(st.storage, TokenKeys))
  }

  /**
   * `handleLogin`: one token request; both tokens are written only on an ok
   * reply, and then the page is refreshed. The user name is not stored.
   */
  function LoggedIn(st: PageState, username: string, password: string, reply: Reply<Tokens, ()>,
                    authReply: Reply<(), ()>, decoded: Option<TokenPayload>, postsReply: Reply<PostsPayload, ()>): (r: PageState)
    ensures |r.sent| > |st.sent| && r.sent[..|st.sent| + 1] == st.sent + [TokenRequest(username, password)]
    ensures reply.Ok? ==> r == Refreshed(st.(storage := WithTokens(st.storage, reply.body),
                                             sent := st.sent + [TokenRequest(username, password)]), authReply, decoded, postsReply)
    ensures reply.NotOk? ==> r == st.(sent := st.sent + [TokenRequest(username, password)], alerts := st.alerts + [BadCredentials])
    ensures reply.Throws? ==> r == st.(sent := st.sent + [TokenRequest(username, password)], alerts := st.alerts + [reply.message])
  {
    var st1 := st.(sent := st.sent + [TokenRequest(username, password)]);
    match reply
    case Ok(t) =>
      var r := Refreshed(st1.(storage := WithTokens(st.storage, t)), authReply, decoded, postsReply);
      assert r.sent[..|st.sent| + 1] == st1.sent;
      r
    case NotOk(_) => st1.(alerts := st.alerts + [BadCredentials])
    case Throws(m) => st1.(alerts := st.alerts + [m])
  }

  /** A failed login writes no token: the storage is exactly as before. */
  lemma FailedLoginStoresNothing(st: PageState, username: string, password: string, reply: Reply<Tokens, ()>,
                                 authReply: Reply<(), ()>, decoded: Option<TokenPayload>, postsReply: Reply<PostsPayload, ()>)
    requires !reply.Ok?
    ensures LoggedIn(st, username, password, reply, authReply, decoded, postsReply).storage == st.storage
  {
  }

  /**
   * `handleRegister`: the registration request, and only after an ok reply
   * a token request with the same user name and password; its tokens are
   * stored and the page refreshed as after a login, but a failed sign-in
   * says so in its own words.
   */
  function Registered(st: PageState, username: string, email: string, password: string,
                      reply: Reply<(), ErrorData>, loginReply: Reply<Tokens, ()>,
                      authReply: Reply<(), ()>, decoded: Option<TokenPayload>, postsReply: Reply<PostsPayload, ()>): (r: PageState)
    ensures |r.sent| > |st.sent| && r.sent[|st.sent|] == RegisterRequest(username, email, password)
    ensures reply.NotOk? ==> r == st.(sent := st.sent + [RegisterRequest(username, email, password)],
                                      alerts := st.alerts + [ErrorMessage(reply.error)])
    ensures reply.Throws? ==> r == st.(sent := st.sent + [RegisterRequest(username, email, password)],
                                       alerts := st.alerts + [reply.message])
    ensures reply.Ok? ==> |r.sent| > |st.sent| + 1 && r.sent[|st.sent| + 1] == TokenRequest(username, password)
    ensures reply.Ok? && loginReply.NotOk? ==> r.storage == st.storage && r.alerts == st.alerts + [LoginAfterRegisterFailed]
  {
    var st1 := st.(sent := st.sent + [RegisterRequest(username, email, password)]);
    match reply
    case NotOk(data) => st1.(alerts := st.alerts + [ErrorMessage(data)])
    case Throws(m) => st1.(alerts := st.alerts + [m])
    case Ok(_) =>
      var st2 := st1.(sent := st1.sent + [TokenRequest(username, password)]);
      match loginReply
      case Ok(t) =>
        var r := Refreshed(st2.(storage := WithTokens(st.storage, t)), authReply, decoded, postsReply);
        assert r.sent[|st.sent|] == r.sent[..|st2.sent|][|st.sent|];
        r
      case NotOk(_) => st2.(alerts := st.alerts + [LoginAfterRegisterFailed])
      case Throws(m) => st2.(alerts := st.alerts + [m])
  }

  /** A refused registration writes no token and sends no token request. */
  lemma FailedRegisterStoresNothing(st: PageState, username: string, email: string, password: string,
                                    reply: Reply<(), ErrorData>, loginReply: Reply<Tokens, ()>,
                                    authReply: Reply<(), ()>, decoded: Option<TokenPayload>, postsReply: Reply<PostsPayload, ()>)
    requires !reply.Ok?
    ensures var r := Registered(st, username, email, password, reply, loginReply, authReply, decoded, postsReply);
      r.storage == st.storage && r.sent == st.sent + [RegisterRequest(username, email, password)]
  {
  }

  /**
   * A successful registration whose sign-in succeeds ends exactly as a login
   * with the same user name and password would, after the registration
   * request.
   */
  lemma RegisterThenSignIn(st: PageState, username: string, email: string, password: string, t: Tokens,
                           authReply: Reply<(), ()>, decoded: Option<TokenPayload>, postsReply: Reply<PostsPayload, ()>)
    ensures Registered(st, username, email, password, Reply.Ok(()), Reply.Ok(t), authReply, decoded, postsReply)
      == LoggedIn(st.(sent := st.sent + [RegisterRequest(username, email, password)]), username, password, Reply.Ok(t),
                  authReply, decoded, postsReply)
  {
  }

  class Page {
    var storage: Storage
    var ui: Visibility
    var usernameDisplay: string
    var container: Container
    var alerts: seq<string>
    var sent: seq<Request>

    function State(): PageState
      reads this
    {
      PageState(storage, ui, usernameDisplay, container, alerts, sent)
    }

    constructor (saved: Storage, shown: Visibility)
      ensures State() == PageState(saved, shown, "", Initial, [], [])
    {
      storage, ui, usernameDisplay, container, alerts, sent := saved, shown, "", Initial, [], [];
    }

    method FetchPosts(reply: Reply<PostsPayload, ()>)
      modifies this
      ensures State() == Fetched(old(State()), reply)
    {
      sent := sent + [PostsRequest];
      match reply {
        case Ok(data) =>
          container := PostList([]);
          match data {
            case Bare(items) => container := PostList(items);
            case Page(_) => alerts := alerts + [NotAList];
          }
        case NotOk(_) => alerts := alerts + [FetchFailed];
        case Throws(m) => alerts := alerts + [m];
      }
    }

    /** `updateUI`, which `init` also runs once on load. */
    method UpdateUI(authReply: Reply<(), ()>, decoded: Option<TokenPayload>, postsReply: Reply<PostsPayload, ()>)
      modifies this
      ensures State() == Refreshed(old(State()), authReply, decoded, postsReply)
    {
      var check := CheckAuth(storage, authReply);
      sent := sent + ProbeLog(check);
      var user := GetUserFromToken(storage, decoded);
      if check.authenticated && user.Some? {
        ui := ui.(authForms := true);
        ui := ui.(newPostForm := false);
        ui := ui.(userInfo := false);
        usernameDisplay := user.value.username;
        FetchPosts(postsReply);
      } else {
        storage := storage - {AccessTokenKey};
        storage := storage - {RefreshTokenKey};
        assert storage == Without(old(storage), TokenKeys);
        ui := ui.(authForms := false, newPostForm := true, userInfo := true);
        ui := ui.(loginForm := true, registerForm := true, authButtons := false);
      }
    }

    method HandleLogout()
      modifies this
      ensures State() == LoggedOut(old(State()))
    {
      storage := storage - {AccessTokenKey};
      storage := storage - {RefreshTokenKey};
      assert storage == Without(old(storage), TokenKeys);
    }

    method HandleLogin(username: string, password: string, reply: Reply<Tokens, ()>,
                       authReply: Reply<(), ()>, decoded: Option<TokenPayload>, postsReply: Reply<PostsPayload, ()>)
      modifies this
      ensures State() == LoggedIn(old(State()), username, password, reply, authReply, decoded, postsReply)
    {
      sent := sent + [TokenRequest(username, password)];
      match reply {
        case Ok(t) =>
          storage := storage[AccessTokenKey := Stored(t.access)];
          storage := storage[RefreshTokenKey := Stored(t.refresh)];
          UpdateUI(authReply, decoded, postsReply);
        case NotOk(_) => alerts := alerts + [BadCredentials];
        case Throws(m) => alerts := alerts + [m];
      }
    }

    method HandleRegister(username: string, email: string, password: string,
                          reply: Reply<(), ErrorData>, loginReply: Reply<Tokens, ()>,
                          authReply: Reply<(), ()>, decoded: Option<TokenPayload>, postsReply: Reply<PostsPayload, ()>)
      modifies this
      ensures State() == Registered(old(State()), username, email, password, reply, loginReply, authReply, decoded, postsReply)
    {
      sent := sent + [RegisterRequest(username, email, password)];
      match reply {
        case NotOk(data) =>
          alerts := alerts + [ErrorMessage(data)];
          return;
        case Throws(m) =>
          alerts := alerts + [m];
          return;
        case Ok(_) =>
      }
      sent := sent + [TokenRequest(username, password)];
      match loginReply {
        case Ok(t) =>
          storage := storage[AccessTokenKey := Stored(t.access)];
          storage := storage[RefreshTokenKey := Stored(t.refresh)];
          UpdateUI(authReply, decoded, postsReply);
        case NotOk(_) => alerts := alerts + [LoginAfterRegisterFailed];
        case Throws(m) => alerts := alerts + [m];
      }
    }
  }
}
