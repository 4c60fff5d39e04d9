/**
 * What the two browser scripts share: `localStorage` as a map, the requests
 * they send, the network replies they receive (given as inputs), the
 * `checkAuth` probe, the flattening of error replies and the like label.
 */
module Browser {
  import opened Outcomes
  import opened Text
  import Serializers

  const ApiBase := "http://127.0.0.1:8000/api"
  const PostsUrl := ApiBase + "/posts/"
  const TokenUrl := ApiBase + "/token/"
  const RegisterUrl := ApiBase + "/register/"

  const AccessTokenKey := "access_token"
  const RefreshTokenKey := "refresh_token"
  const UsernameKey := "username"

  /** `localStorage`: string keys to string values. */
  type Storage = map<string, string>

  /** `localStorage.getItem`: `null` for a missing key. */
  function GetItem(s: Storage, key: string): Option<string>
  {
    if key in s then Some(s[key]) else None
  }

  /** JavaScript truthiness of a stored value: present and not the empty string. */
  predicate Truthy(v: Option<string>)
  {
    v.Some? && v.value != ""
  }

  /** The scripts' `if (!token)` test, negated. */
  predicate HasToken(s: Storage)
  {
    Truthy(GetItem(s, AccessTokenKey))
  }

  function Bearer(token: string): string
  {
    "Bearer " + token
  }

  /** A value interpolated into a template string: a missing item reads as "null". */
  function Interpolated(v: Option<string>): string
  {
    if v.Some? then v.value else "null"
  }

  /** `localStorage.setItem(key, v)`: an `undefined` value is stored as the text "undefined". */
  function Stored(v: Option<string>): string
  {
    if v.Some? then v.value else "undefined"
  }

  /** The body a script sends. */
  datatype Payload =
    | NoBody
    | Credentials(username: string, password: string)
    | SignUp(username: string, email: string, password: string)
    | CommentBody(text: string)
    | PostForm(text: string, imageCount: nat)

  /** A request as the server sees it: method, URL, `Authorization` header and body. */
  datatype Request = Request(verb: string, url: string, authorization: Option<string>, body: Payload)

  /** The token request of a login form: the credentials, without a header. */
  function TokenRequest(username: string, password: string): Request
  {
    Request("POST", TokenUrl, None, Credentials(username, password))
  }

  /** The request of a registration form: the three fields, without a header. */
  function RegisterRequest(username: string, email: string, password: string): Request
  {
    Request("POST", RegisterUrl, None, SignUp(username, email, password))
  }

  /**
   * A network reply, given to the model as an input: `Ok` when
   * `response.ok` and the JSON body was read, `NotOk` for an error status
   * with its JSON body, `Throws` when `fetch` (or reading the body) raised.
   */
  datatype Reply<+T, +E> = Ok(body: T) | NotOk(error: E) | Throws(message: string)

  /** The body of a successful token request; a missing field reads as `undefined`. */
  datatype Tokens = Tokens(access: Option<string>, refresh: Option<string>)

  /** A value of a JSON error object: a string (`detail`) or a list of messages (a field). */
  datatype JsonValue = JStr(s: string) | JList(items: seq<string>)

  /** A JSON error object, as `Object.values` lists it. */
  type ErrorData = seq<(string, JsonValue)>

  /** One post of the list the server returns. */
  datatype PostCard = PostCard(id: nat, author: string, text: string, likesCount: int)

  /** The posts list reply: paginated (`{results: [...]}`) or a bare array. */
  datatype PostsPayload = Page(results: seq<PostCard>) | Bare(items: seq<PostCard>)

  /** What the posts container shows. */
  datatype Container = Initial | SignInPrompt | PostList(posts: seq<PostCard>)

  /** The `hidden` class of each toggled element. */
  datatype Visibility = Visibility(
    authForms: bool, newPostForm: bool, userInfo: bool,
    loginForm: bool, registerForm: bool, authButtons: bool)

  /** The result of `checkAuth` and the probe request it sent, if any. */
  datatype AuthCheck = AuthCheck(authenticated: bool, probe: Option<Request>)

  /**
   * `checkAuth`: with no truthy `access_token` it answers false and sends
   * nothing; otherwise it sends an authorised GET of the posts and answers
   * `response.ok`, with a thrown request read as false.
   */
  function CheckAuth(s: Storage, reply: Reply<(), ()>): (r: AuthCheck)
    ensures r.probe.None? <==> !HasToken(s)
    ensures r.probe.Some? ==> r.probe.value == Request("GET", PostsUrl, Some(Bearer(s[AccessTokenKey])), NoBody)
    ensures r.authenticated ==> r.probe.Some? && reply.Ok?
    ensures r.probe.Some? && reply.Ok? ==> r.authenticated
  {
    if !HasToken(s) then AuthCheck(false, None)
    else
      var probe := Request("GET", PostsUrl, Some(Bearer(s[AccessTokenKey])), NoBody);
      match reply
      case Ok(_) => AuthCheck(true, Some(probe))
      case NotOk(_) => AuthCheck(false, Some(probe))
      case Throws(_) => AuthCheck(false, Some(probe))
  }

  /** Without a token the answer does not depend on the network at all. */
  lemma NoTokenNoNetwork(s: Storage, r1: Reply<(), ()>, r2: Reply<(), ()>)
    requires !HasToken(s)
    ensures CheckAuth(s, r1) == CheckAuth(s, r2) == AuthCheck(false, None)
  {
  }

  /** The probes the scripts log for one check: none on the fast path. */
  function ProbeLog(c: AuthCheck): seq<Request>
  {
    if c.probe.Some? then [c.probe.value] else []
  }

  /** The storage after logging out: the given keys are gone and nothing else changed. */
  function Without(s: Storage, keys: set<string>): (r: Storage)
    ensures forall k :: k in r <==> k in s && k !in keys
    ensures forall k :: k in r ==> r[k] == s[k]
  {
    s - keys
  }

  /** Once the access token is removed, `checkAuth` is false and sends nothing, whatever else is stored. */
  lemma RemovedTokenFailsCheck(s: Storage, keys: set<string>, reply: Reply<(), ()>)
    requires AccessTokenKey in keys
    ensures CheckAuth(Without(s, keys), reply) == AuthCheck(false, None)
  {
  }

  /** The storage after a successful token request writes both tokens. */
  function WithTokens(s: Storage, t: Tokens): (r: Storage)
    ensures r.Keys == s.Keys + {AccessTokenKey, RefreshTokenKey}
    ensures r[AccessTokenKey] == Stored(t.access) && r[RefreshTokenKey] == Stored(t.refresh)
    ensures forall k :: k in s && k != AccessTokenKey && k != RefreshTokenKey ==> r[k] == s[k]
  {
    s[AccessTokenKey := Stored(t.access)][RefreshTokenKey := Stored(t.refresh)]
  }

  /**
   * A token reply always leaves a truthy access token, even one without an
   * `access` field (stored as "undefined"), so the next `checkAuth` asks the
   * server rather than failing fast.
   */
  lemma TokensAlwaysProbe(s: Storage, t: Tokens, reply: Reply<(), ()>)
    requires t.access.None? || t.access.value != ""
    ensures HasToken(WithTokens(s, t))
    ensures CheckAuth(WithTokens(s, t), reply).probe.Some?
  {
  }

  /** `String(value)`: a list of messages prints with commas and no spaces. */
  function ValueText(v: JsonValue): string
  {
    match v
    case JStr(s) => s
    case JList(items) => Join(items, ",")
  }

  function ValuesText(data: ErrorData): (r: seq<string>)
    ensures |r| == |data|
    ensures forall i :: 0 <= i < |data| ==> r[i] == ValueText(data[i].1)
  {
    if data == [] then [] else [ValueText(data[0].1)] + ValuesText(data[1..])
  }

  /** `Object.values(errorData).join(', ')`: every field's messages, fields in order. */
  function ErrorMessage(data: ErrorData): (r: string)
    ensures |data| == 1 ==> r == ValueText(data[0].1)
  {
    Join(ValuesText(data), ", ")
  }

  /** The message of an error object with more fields is the old message, a comma and space, then the new field's text. */
  lemma ErrorMessageAppend(data: ErrorData, field: (string, JsonValue))
    requires data != []
    ensures ErrorMessage(data + [field]) == ErrorMessage(data) + ", " + ValueText(field.1)
  {
    assert ValuesText(data + [field]) == ValuesText(data) + [ValueText(field.1)];
    JoinAppend(ValuesText(data), [ValueText(field.1)], ", ");
  }

  /**
   * The register scenario against this server: a malformed email and a short
   * password give the server's two messages, email first, as one line.
   */
  lemma RegisterErrorScenario()
    ensures ErrorMessage([(Serializers.EmailField, JList([Serializers.EmailMalformed])),
                          (Serializers.PasswordField, JList([Serializers.PasswordTooShort]))])
      == Serializers.EmailMalformed + ", " + Serializers.PasswordTooShort
  {
    ErrorMessageAppend([(Serializers.EmailField, JList([Serializers.EmailMalformed]))],
                       (Serializers.PasswordField, JList([Serializers.PasswordTooShort])));
  }

  /** The word after a like count: singular only for exactly one. */
  function LikeLabel(count: int): (r: string)
    ensures r == "лайк" <==> count == 1
  {
    if count == 1 then "лайк" else "лайков"
  }
}
