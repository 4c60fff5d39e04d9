/**
 * The browser script served with the posts application
 * (posts/static/posts/app.js): one page whose state is the browser's
 * `localStorage`, the hidden flags of its forms, the text shown in its
 * elements, the alerts it raised and the requests it sent. Every handler is
 * a method of `Page`, proved to produce the state a pure function of the
 * old state and the network replies describes; the properties are proved
 * about those functions.
 */
module PostsApp {
  import opened Outcomes
  import opened Text
  import opened Browser

  const MaxImages: nat := 10

  const LoadFailed := "Ошибка загрузки постов"
  const LoginFailed := "Ошибка авторизации"
  const RegisterDone := "Регистрация успешна! Войдите в систему."
  const EnterPostText := "Введите текст поста"
  const TooManyImages := "Не более 10 изображений"
  const AuthRequired := "Требуется авторизация"
  const CreateFailed := "Ошибка создания поста"
  const EnterComment := "Введите комментарий"
  const CommentFailed := "Ошибка комментария"

  /** Everything the page's handlers read or change. */
  datatype PageState = PageState(
    storage: Storage,
    ui: Visibility,
    usernameDisplay: string,
    container: Container,
    /** The new-post form: its text field and how many files are chosen. */
    postText: string,
    postImages: nat,
    alerts: seq<string>,
    sent: seq<Request>)

  /** The `Authorization` header `fetchPosts` sends: only when a token is stored. */
  function FetchAuthorization(s: Storage): (h: Option<string>)
    ensures h.Some? <==> HasToken(s)
    ensures h.Some? ==> h.value == Bearer(s[AccessTokenKey])
  {
    if HasToken(s) then Some(Bearer(s[AccessTokenKey])) else None
  }

  /** `data.results || data`: the list of a paginated reply, else the reply itself. */
  function Listed(data: PostsPayload): seq<PostCard>
  {
    match data
    case Page(results) => results
    case Bare(items) => items
  }

  /**
   * A paginated reply always renders its `results`, even an empty one (an
   * empty array is truthy), and a bare array renders as it is.
   */
  lemma ListedPrefersResults(results: seq<PostCard>, items: seq<PostCard>)
    ensures Listed(Page(results)) == results
    ensures Listed(Bare(items)) == items
    ensures Listed(Page([])) == []
  {
  }

  /** `fetchPosts`: one GET of the posts, then the list rendered or an alert. */
  function Fetched(st: PageState, reply: Reply<PostsPayload, ()>): (r: PageState)
    ensures r.sent == st.sent + [Request("GET", PostsUrl, FetchAuthorization(st.storage), NoBody)]
    ensures r.sent[|st.sent|].authorization.Some? <==> HasToken(st.storage)
    ensures r.storage == st.storage && r.ui == st.ui && r.usernameDisplay == st.usernameDisplay
    ensures r.postText == st.postText && r.postImages == st.postImages
    ensures reply.Ok? ==> r.container == PostList(Listed(reply.body)) && r.alerts == st.alerts
    ensures reply.NotOk? ==> r.container == st.container && r.alerts == st.alerts + [LoadFailed]
    ensures reply.Throws? ==> r.container == st.container && r.alerts == st.alerts + [reply.message]
  {
    var st' := st.(sent := st.sent + [Request("GET", PostsUrl, FetchAuthorization(st.storage), NoBody)]);
    match reply
    case Ok(data) => st'.(container := PostList(Listed(data)))
    case NotOk(_) => st'.(alerts := st.alerts + [LoadFailed])
    case Throws(m) => st'.(alerts := st.alerts + [m])
  }

  /**
   * `updateUI`: the auth forms are hidden exactly when `checkAuth` says the
   * user is signed in, the new-post form and the user info exactly when it
   * says not. Signed in, the stored name (when truthy) is shown and the
   * posts are fetched; signed out, the container holds the sign-in prompt
   * and nothing more is requested. Storage is never written.
   */
  function Refreshed(st: PageState, authReply: Reply<(), ()>, postsReply: Reply<PostsPayload, ()>): (r: PageState)
    ensures var auth := CheckAuth(st.storage, authReply).authenticated;
      && r.ui.authForms == auth && r.ui.newPostForm == !auth && r.ui.userInfo == !auth
      && r.ui.loginForm == st.ui.loginForm && r.ui.registerForm == st.ui.registerForm
      && r.ui.authButtons == st.ui.authButtons
    ensures r.storage == st.storage
    ensures var c := CheckAuth(st.storage, authReply);
      !c.authenticated ==> r.container == SignInPrompt && r.sent == st.sent + ProbeLog(c) && r.alerts == st.alerts
    ensures var c := CheckAuth(st.storage, authReply);
      c.authenticated ==> r.sent == st.sent + ProbeLog(c) + [Request("GET", PostsUrl, Some(Bearer(st.storage[AccessTokenKey])), NoBody)]
    ensures Truthy(GetItem(st.storage, UsernameKey)) && CheckAuth(st.storage, authReply).authenticated ==>
      r.usernameDisplay == st.storage[UsernameKey]
  {
    var c := CheckAuth(st.storage, authReply);
    var st1 := st.(sent := st.sent + ProbeLog(c),
                   ui := st.ui.(authForms := c.authenticated, newPostForm := !c.authenticated, userInfo := !c.authenticated));
    if c.authenticated then
      var name := GetItem(st.storage, UsernameKey);
      var st2 := if Truthy(name) then st1.(usernameDisplay := name.value) else st1;
      Fetched(st2, postsReply)
    else
      st1.(container := SignInPrompt)
  }

  /**
   * `handleLogin`: one token request. On an ok reply the two tokens and the
   * typed user name are stored, then the page is refreshed; otherwise
   * nothing is stored and the failure is alerted.
   */
  function LoggedIn(st: PageState, username: string, password: string, reply: Reply<Tokens, ()>,
                    authReply: Reply<(), ()>, postsReply: Reply<PostsPayload, ()>): (r: PageState)
    ensures |r.sent| > |st.sent| && r.sent[..|st.sent| + 1] == st.sent + [TokenRequest(username, password)]
    ensures reply.Ok? ==> r.storage == WithTokens(st.storage, reply.body)[UsernameKey := username]
    ensures reply.NotOk? ==> r == st.(sent := st.sent + [TokenRequest(username, password)], alerts := st.alerts + [LoginFailed])
    ensures reply.Throws? ==> r == st.(sent := st.sent + [TokenRequest(username, password)], alerts := st.alerts + [reply.message])
  {
    var st1 := st.(sent := st.sent + [TokenRequest(username, password)]);
    match reply
    case Ok(t) =>
      var st2 := st1.(storage := WithTokens(st.storage, t)[UsernameKey := username]);
      var r := Refreshed(st2, authReply, postsReply);
      assert r.sent[..|st.sent| + 1] == st1.sent;
      r
    case NotOk(_) => st1.(alerts := st.alerts + [LoginFailed])
    case Throws(m) => st1.(alerts := st.alerts + [m])
  }

  const SessionKeys := {AccessTokenKey, RefreshTokenKey, UsernameKey}

  /**
   * `handleLogout`: the three session keys are removed and the page is
   * refreshed, which then sends nothing: the replies do not matter.
   */
  function LoggedOut(st: PageState, authReply: Reply<(), ()>, postsReply: Reply<PostsPayload, ()>): (r: PageState)
    ensures r.storage == Without(st.storage, SessionKeys)
    ensures !HasToken(r.storage)
    ensures r.sent == st.sent && r.alerts == st.alerts
    ensures r.container == SignInPrompt
    ensures !r.ui.authForms && r.ui.newPostForm && r.ui.userInfo
  {
    RemovedTokenFailsCheck(st.storage, SessionKeys, authReply);
    Refreshed(st.(storage := Without(st.storage, SessionKeys)), authReply, postsReply)
  }

  /** Logging out never depends on the network. */
  lemma LogoutIgnoresReplies(st: PageState, a1: Reply<(), ()>, p1: Reply<PostsPayload, ()>, a2: Reply<(), ()>, p2: Reply<PostsPayload, ()>)
    ensures LoggedOut(st, a1, p1) == LoggedOut(st, a2, p2)
  {
    RemovedTokenFailsCheck(st.storage, SessionKeys, a1);
    RemovedTokenFailsCheck(st.storage, SessionKeys, a2);
  }

  /**
   * A login followed by a logout leaves storage as it was before the login,
   * minus the session keys: nothing the login wrote survives.
   */
  lemma LoginThenLogout(st: PageState, username: string, password: string, t: Tokens,
                        a1: Reply<(), ()>, p1: Reply<PostsPayload, ()>, a2: Reply<(), ()>, p2: Reply<PostsPayload, ()>)
    ensures var after := LoggedOut(LoggedIn(st, username, password, Reply.Ok(t), a1, p1), a2, p2);
      after.storage == Without(st.storage, SessionKeys) && CheckAuth(after.storage, a2) == AuthCheck(false, None)
  {
    var mid := LoggedIn(st, username, password, Reply.Ok(t), a1, p1);
    var after := LoggedOut(mid, a2, p2);
    assert after.storage == Without(st.storage, SessionKeys);
    RemovedTokenFailsCheck(mid.storage, SessionKeys, a2);
  }

  /**
   * `handleRegister`: one registration request. Success is announced and
   * the login form shown in place of the register form; a rejection alerts
   * the values of the error object joined by ", ". Storage is never written.
   */
  function Registered(st: PageState, username: string, email: string, password: string,
                      reply: Reply<(), ErrorData>): (r: PageState)
    ensures r.storage == st.storage && r.container == st.container
    ensures r.sent == st.sent + [RegisterRequest(username, email, password)]
    ensures reply.Ok? ==> r.alerts == st.alerts + [RegisterDone] && !r.ui.loginForm && r.ui.registerForm
    ensures reply.NotOk? ==> r.alerts == st.alerts + [ErrorMessage(reply.error)] && r.ui == st.ui
    ensures reply.Throws? ==> r.alerts == st.alerts + [reply.message] && r.ui == st.ui
  {
    var st1 := st.(sent := st.sent + [RegisterRequest(username, email, password)]);
    match reply
    case Ok(_) => st1.(alerts := st.alerts + [RegisterDone], ui := st.ui.(loginForm := false, registerForm := true))
    case NotOk(data) => st1.(alerts := st.alerts + [ErrorMessage(data)])
    case Throws(m) => st1.(alerts := st.alerts + [m])
  }

  /** Why `handleNewPost` refuses to send, if it does: the checks in order. */
  function NewPostCheck(st: PageState): (r: Option<string>)
    ensures r.None? <==> Strip(EcmaScript, st.postText) != [] && st.postImages <= MaxImages && HasToken(st.storage)
    ensures Strip(EcmaScript, st.postText) == [] ==> r == Some(EnterPostText)
  {
    if Strip(EcmaScript, st.postText) == [] then Some(EnterPostText)
    else if st.postImages > MaxImages then Some(TooManyImages)
    else if !HasToken(st.storage) then Some(AuthRequired)
    else None
  }

  /** The multipart POST of the new-post form: the trimmed text and every chosen file. */
  function PostRequest(st: PageState): Request
    requires HasToken(st.storage)
  {
    Request("POST", PostsUrl, Some(Bearer(st.storage[AccessTokenKey])), PostForm(Strip(EcmaScript, st.postText), st.postImages))
  }

  /**
   * `handleNewPost`: when the checks pass, one multipart POST carrying the
   * trimmed text and every chosen file; on success the form is cleared and
   * the posts fetched again. When a check fails nothing is sent.
   */
  function Posted(st: PageState, reply: Reply<(), ()>, postsReply: Reply<PostsPayload, ()>): (r: PageState)
    ensures NewPostCheck(st).Some? ==> r == st.(alerts := st.alerts + [NewPostCheck(st).value])
    ensures NewPostCheck(st).None? ==>
      |r.sent| > |st.sent| && r.sent[..|st.sent| + 1] == st.sent + [PostRequest(st)]
    ensures NewPostCheck(st).None? && reply.Ok? ==> r.postText == "" && r.postImages == 0
    ensures !reply.Ok? ==> r.postText == st.postText && r.postImages == st.postImages
    ensures r.storage == st.storage
  {
    match NewPostCheck(st)
    case Some(why) => st.(alerts := st.alerts + [why])
    case None =>
      var st1 := st.(sent := st.sent + [PostRequest(st)]);
      match reply
      case Ok(_) =>
        var r := Fetched(st1.(postText := "", postImages := 0), postsReply);
        assert r.sent[..|st.sent| + 1] == st1.sent;
        r
      case NotOk(_) => st1.(alerts := st.alerts + [CreateFailed])
      case Throws(m) => st1.(alerts := st.alerts + [m])
  }

  /** A post request never carries text that starts or ends with white space, and never more than ten files. */
  lemma PostRequestIsClean(st: PageState, reply: Reply<(), ()>, postsReply: Reply<PostsPayload, ()>)
    requires |Posted(st, reply, postsReply).sent| > |st.sent|
    ensures var req := Posted(st, reply, postsReply).sent[|st.sent|];
      req.body.PostForm? && req.body.text != [] && req.body.imageCount <= MaxImages
      && !IsEcmaSpace(req.body.text[0]) && !IsEcmaSpace(req.body.text[|req.body.text| - 1])
  {
    var r := Posted(st, reply, postsReply);
    assert r.sent[|st.sent|] == r.sent[..|st.sent| + 1][|st.sent|];
  }

  function CommentRequest(storage: Storage, postId: string, text: string): Request
  {
    Request("POST", PostsUrl + postId + "/comments/", Some(Bearer(Interpolated(GetItem(storage, AccessTokenKey)))), CommentBody(text))
  }

  /**
   * `handleComment`: a comment that is white space only is refused before
   * any request; otherwise the text is sent as typed, untrimmed, with
   * whatever token is stored ("Bearer null" when there is none).
   */
  function Commented(st: PageState, postId: string, text: string, reply: Reply<(), ()>, postsReply: Reply<PostsPayload, ()>): (r: PageState)
    ensures Strip(EcmaScript, text) == [] ==> r == st.(alerts := st.alerts + [EnterComment])
    ensures Strip(EcmaScript, text) != [] ==>
      |r.sent| > |st.sent| && r.sent[..|st.sent| + 1] == st.sent + [CommentRequest(st.storage, postId, text)]
    ensures Strip(EcmaScript, text) != [] ==>
      r.sent[|st.sent|].body == CommentBody(text) &&
      r.sent[|st.sent|].authorization == Some(Bearer(if HasToken(st.storage) then st.storage[AccessTokenKey] else Interpolated(GetItem(st.storage, AccessTokenKey))))
    ensures r.storage == st.storage && r.ui == st.ui
  {
    if Strip(EcmaScript, text) == [] then st.(alerts := st.alerts + [EnterComment])
    else
      var st1 := st.(sent := st.sent + [CommentRequest(st.storage, postId, text)]);
      match reply
      case Ok(_) =>
        var r := Fetched(st1, postsReply);
        assert r.sent[..|st.sent| + 1] == st1.sent;
        r
      case NotOk(_) => st1.(alerts := st.alerts + [CommentFailed])
      case Throws(m) => st1.(alerts := st.alerts + [m])
  }

  /** Without a stored token a comment that is not blank still goes out, with the header "Bearer null". */
  lemma CommentWithoutToken(st: PageState, postId: string, text: string, reply: Reply<(), ()>, postsReply: Reply<PostsPayload, ()>)
    requires AccessTokenKey !in st.storage && Strip(EcmaScript, text) != []
    ensures var r := Commented(st, postId, text, reply, postsReply);
      |r.sent| > |st.sent| && r.sent[|st.sent|].authorization == Some("Bearer null")
  {
    assert Bearer("null") == "Bearer null";
  }

  /** The page and the elements its handlers touch. */
  class Page {
    var storage: Storage
    var ui: Visibility
    var usernameDisplay: string
    var container: Container
    var postText: string
    var postImages: nat
    var alerts: seq<string>
    var sent: seq<Request>

    function State(): PageState
      reads this
    {
      PageState(storage, ui, usernameDisplay, container, postText, postImages, alerts, sent)
    }

    /** A freshly loaded page over what the browser had stored. */
    constructor (saved: Storage, shown: Visibility)
      ensures State() == PageState(saved, shown, "", Initial, "", 0, [], [])
    {
      storage, ui, usernameDisplay, container := saved, shown, "", Initial;
      postText, postImages, alerts, sent := "", 0, [], [];
    }

    method FetchPosts(reply: Reply<PostsPayload, ()>)
      modifies this
      ensures State() == Fetched(old(State()), reply)
    {
      sent := sent + [Request("GET", PostsUrl, FetchAuthorization(storage), NoBody)];
      match reply {
        case Ok(data) => container := PostList(Listed(data));
        case NotOk(_) => alerts := alerts + [LoadFailed];
        case Throws(m) => alerts := alerts + [m];
      }
    }

    /** `updateUI`, which `init` also runs once on load. */
    method UpdateUI(authReply: Reply<(), ()>, postsReply: Reply<PostsPayload, ()>)
      modifies this
      ensures State() == Refreshed(old(State()), authReply, postsReply)
    {
      ghost var st := State();
      var check := CheckAuth(storage, authReply);
      sent := sent + ProbeLog(check);
      var isAuth := check.authenticated;
      ui := ui.(authForms := isAuth, newPostForm := !isAuth, userInfo := !isAuth);
      if isAuth {
        var name := GetItem(storage, UsernameKey);
        if Truthy(name) {
          usernameDisplay := name.value;
        }
        assert State() == (var st1 := st.(sent := st.sent + ProbeLog(check), ui := st.ui.(authForms := true, newPostForm := false, userInfo := false));
                           if Truthy(name) then st1.(usernameDisplay := name.value) else st1);
        FetchPosts(postsReply);
      } else {
        container := SignInPrompt;
      }
    }

    method HandleLogin(username: string, password: string, reply: Reply<Tokens, ()>,
                       authReply: Reply<(), ()>, postsReply: Reply<PostsPayload, ()>)
      modifies this
      ensures State() == LoggedIn(old(State()), username, password, reply, authReply, postsReply)
    {
      sent := sent + [TokenRequest(username, password)];
      match reply {
        case Ok(t) =>
          storage := storage[AccessTokenKey := Stored(t.access)];
          storage := storage[RefreshTokenKey := Stored(t.refresh)];
          storage := storage[UsernameKey := username];
          UpdateUI(authReply, postsReply);
        case NotOk(_) => alerts := alerts + [LoginFailed];
        case Throws(m) => alerts := alerts + [m];
      }
    }

    method HandleLogout(authReply: Reply<(), ()>, postsReply: Reply<PostsPayload, ()>)
      modifies this
      ensures State() == LoggedOut(old(State()), authReply, postsReply)
    {
      storage := storage - {AccessTokenKey};
      storage := storage - {RefreshTokenKey};
      storage := storage - {UsernameKey};
      assert storage == Without(old(storage), SessionKeys);
      UpdateUI(authReply, postsReply);
    }

    method HandleRegister(username: string, email: string, password: string, reply: Reply<(), ErrorData>)
      modifies this
      ensures State() == Registered(old(State()), username, email, password, reply)
    {
      sent := sent + [RegisterRequest(username, email, password)];
      match reply {
        case Ok(_) =>
          alerts := alerts + [RegisterDone];
          ui := ui.(loginForm := false);
          ui := ui.(registerForm := true);
        case NotOk(data) => alerts := alerts + [ErrorMessage(data)];
        case Throws(m) => alerts := alerts + [m];
      }
    }

    method HandleNewPost(reply: Reply<(), ()>, postsReply: Reply<PostsPayload, ()>)
      modifies this
      ensures State() == Posted(old(State()), reply, postsReply)
    {
      var text := Strip(EcmaScript, postText);
      if text == [] {
        alerts := alerts + [EnterPostText];
        return;
      }
      if postImages > MaxImages {
        alerts := alerts + [TooManyImages];
        return;
      }
      var token := GetItem(storage, AccessTokenKey);
      if !Truthy(token) {
        alerts := alerts + [AuthRequired];
        return;
      }
      sent := sent + [Request("POST", PostsUrl, Some(Bearer(token.value)), PostForm(text, postImages))];
      match reply {
        case Ok(_) =>
          postText := "";
          postImages := 0;
          FetchPosts(postsReply);
        case NotOk(_) => alerts := alerts + [CreateFailed];
        case Throws(m) => alerts := alerts + [m];
      }
    }

    method HandleComment(postId: string, text: string, reply: Reply<(), ()>, postsReply: Reply<PostsPayload, ()>)
      modifies this
      ensures State() == Commented(old(State()), postId, text, reply, postsReply)
    {
      if Strip(EcmaScript, text) == [] {
        alerts := alerts + [EnterComment];
        return;
      }
      sent := sent + [CommentRequest(storage, postId, text)];
      match reply {
        case Ok(_) => FetchPosts(postsReply);
        case NotOk(_) => alerts := alerts + [CommentFailed];
        case Throws(m) => alerts := alerts + [m];
      }
    }
  }
}
