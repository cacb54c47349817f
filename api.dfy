/**
 * The client's service layer: the bearer-token helpers over the two storage
 * backends, token validation against `GET /me`, and the four REST calls, each
 * wrapping any transport or parse failure into one "Network error".
 *
 * The network is an oracle: a `Server<T>` maps the request the client sends to
 * what comes back — a delivered response (its `ok` flag and its body, when the
 * body parses as JSON) or a transport failure.
 */
module Api {
  import opened Wrappers
  import opened Text
  import opened KeyValue

  const ApiBaseUrl := "https://api.freeapi.app/api/v1/users"
  const TokenKey := "auth_token"

  datatype Verb = Get | Post

  datatype LoginRequest = LoginRequest(email: string, password: string)
  datatype RegisterRequest = RegisterRequest(username: string, email: string, password: string)

  /** The JSON body a request carries. */
  datatype Body = NoBody | LoginJson(login: LoginRequest) | RegisterJson(register: RegisterRequest)

  datatype HttpRequest = HttpRequest(verb: Verb, url: string, headers: seq<(string, string)>, body: Body)

  /** What a request yields: a response (status ok or not, body parsed or not) or a transport failure. */
  datatype Reply<T> = Delivered(ok: bool, json: Option<T>) | TransportFailure

  /** The remote side, as a function of the request it receives. */
  type Server<T> = HttpRequest -> Reply<T>

  datatype AuthData = AuthData(accessToken: string, refreshToken: string)
  datatype AuthResponse = AuthResponse(success: bool, message: string, data: Option<AuthData>)

  /** `new Error("Network error")`, the only error the REST calls throw. */
  datatype ApiError = NetworkError

  // ---------------------------------------------------------------------------
  // Token storage

  /** `storeToken`: writes the general store; a backend failure is swallowed. */
  method StoreToken(general: Store<string>, token: string, available: bool)
    modifies general
    ensures general.entries == Written(old(general.entries), TokenKey, token, available)
  {
    var _ := general.SetItem(TokenKey, token, available);
  }

  /** `getToken`: reads the general store; absent entry and backend failure both give null. */
  method GetToken(general: Store<string>, available: bool) returns (token: Option<string>)
    ensures token.Some? <==> available && TokenKey in general.entries
    ensures token.Some? ==> token.value == general.entries[TokenKey]
  {
    var r := general.GetItem(TokenKey, available);
    match r
    case Success(stored) => token := stored;
    case Failure(_) => token := None;
  }

  /** `removeToken`: deletes from the SECURE store; a backend failure is swallowed. */
  method RemoveToken(secure: Store<string>, available: bool)
    modifies secure
    ensures secure.entries == Erased(old(secure.entries), TokenKey, available)
  {
    var _ := secure.DeleteItem(TokenKey, available);
  }

  /** The probe `validateToken` sends for a token. */
  function MeCall(token: string): (q: HttpRequest)
    ensures q.verb == Get && q.url == "https://api.freeapi.app/api/v1/users/me"
    ensures q.headers == [("Authorization", "Bearer " + token)] && q.body == NoBody
  {
    HttpRequest(Get, ApiBaseUrl + "/me", [("Authorization", "Bearer " + token)], NoBody)
  }

  /**
   * `validateToken`: re-reads the token from the general store; without a
   * non-empty token it answers false and sends nothing (`sent` is None);
   * otherwise it probes `/me` and answers whether the response came back ok.
   */
  method ValidateToken<T>(general: Store<string>, available: bool, server: Server<T>)
    returns (valid: bool, sent: Option<HttpRequest>)
    ensures sent.None? <==> !available || TokenKey !in general.entries || general.entries[TokenKey] == ""
    ensures sent.Some? ==> sent.value == MeCall(general.entries[TokenKey])
    ensures valid <==> sent.Some? && server(sent.value).Delivered? && server(sent.value).ok
  {
    var token := GetToken(general, available);
    if token.None? || token.value == "" {
      return false, None;
    }
    var request := MeCall(token.value);
    var reply := server(request);
    valid := reply.Delivered? && reply.ok;
    sent := Some(request);
  }

  // ---------------------------------------------------------------------------
  // REST calls

  /** The try/catch shared by the REST calls: the parsed body, whatever the status, or NetworkError. */
  function Envelope<T>(reply: Reply<T>): (r: Result<T, ApiError>)
    ensures r.Success? <==> reply.Delivered? && reply.json.Some?
    ensures r.Success? ==> r.value == reply.json.value
  {
    match reply
    case Delivered(_, json) => if json.Some? then Success(json.value) else Failure(NetworkError)
    case TransportFailure => Failure(NetworkError)
  }

  /** A non-2xx response is passed on exactly like a 2xx one. */
  lemma EnvelopeIgnoresStatus<T>(json: Option<T>)
    ensures Envelope(Delivered(true, json)) == Envelope(Delivered(false, json))
  {
  }

  const JsonContentType := ("Content-Type", "application/json")

  function LoginCall(data: LoginRequest): (q: HttpRequest)
    ensures q.verb == Post && q.url == "https://api.freeapi.app/api/v1/users/login"
    ensures q.headers == [("Content-Type", "application/json")] && q.body == LoginJson(data)
  {
    HttpRequest(Post, ApiBaseUrl + "/login", [JsonContentType], LoginJson(data))
  }

  /** `login`: one POST; the parsed envelope is returned unchanged, every failure is NetworkError. */
  function Login(data: LoginRequest, server: Server<AuthResponse>): (r: Result<AuthResponse, ApiError>)
    ensures var reply := server(LoginCall(data));
      && (r.Success? <==> reply.Delivered? && reply.json.Some?)
      && (r.Success? ==> r.value == reply.json.value)
  {
    Envelope(server(LoginCall(data)))
  }

  function RegisterCall(data: RegisterRequest): (q: HttpRequest)
    ensures q.verb == Post && q.url == "https://api.freeapi.app/api/v1/users/register"
    ensures q.headers == [("Content-Type", "application/json")] && q.body == RegisterJson(data)
  {
    HttpRequest(Post, ApiBaseUrl + "/register", [JsonContentType], RegisterJson(data))
  }

  /** `register`: same shape as login. */
  function Register(data: RegisterRequest, server: Server<AuthResponse>): (r: Result<AuthResponse, ApiError>)
    ensures var reply := server(RegisterCall(data));
      && (r.Success? <==> reply.Delivered? && reply.json.Some?)
      && (r.Success? ==> r.value == reply.json.value)
  {
    Envelope(server(RegisterCall(data)))
  }

  /** The API root shared by the users endpoints and the public feeds. */
  const ApiVersionRoot := "https://api.freeapi.app/api/v1"

  /** Where the public feeds live. */
  const PublicFeedsUrl := ApiVersionRoot + "/public/"

  /** The base URL holds "/users" only as its last segment, right after the API root. */
  lemma UsersIsLastSegment()
    ensures ApiBaseUrl == ApiVersionRoot + "/users" && |ApiVersionRoot| == 30
    ensures OccursAt(ApiBaseUrl, "/users", 30)
    ensures forall j :: 0 <= j < 30 ==> !OccursAt(ApiBaseUrl, "/users", j)
  {
    var s := ApiBaseUrl;
    assert s == ApiVersionRoot + "/users";
    assert 'u' !in ApiVersionRoot;
    forall j | 0 <= j < 30 ensures !OccursAt(s, "/users", j) {
      assert s[j + 1] == if j + 1 < 30 then ApiVersionRoot[j + 1] else '/';
      assert s[j..j + 6][1] == s[j + 1];
    }
  }

  /**
   * The public feeds live beside `/users`: the base URL with its first "/users"
   * replaced, which swaps its last segment.
   */
  function PublicFeedUrl(feed: string): (r: string)
    ensures r == PublicFeedsUrl + feed
  {
    UsersIsLastSegment();
    ReplaceSuffix(ApiVersionRoot, "/users", "/public/" + feed);
    Replace(ApiBaseUrl, "/users", "/public/" + feed)
  }

  /** The unauthenticated GET of a public feed. */
  function PublicFeedCall(feed: string): (q: HttpRequest)
    ensures q.verb == Get && q.url == PublicFeedsUrl + feed
    ensures q.headers == [] && q.body == NoBody
  {
    HttpRequest(Get, PublicFeedUrl(feed), [], NoBody)
  }

  /** `fetchRandomUsers`: one GET of the public feed, wrapped like login. */
  function FetchRandomUsers<T>(server: Server<T>): (r: Result<T, ApiError>)
    ensures var reply := server(PublicFeedCall("randomusers"));
      && (r.Success? <==> reply.Delivered? && reply.json.Some?)
      && (r.Success? ==> r.value == reply.json.value)
  {
    Envelope(server(PublicFeedCall("randomusers")))
  }

  /** `fetchRandomProducts`: one GET of the public feed, wrapped like login. */
  function FetchRandomProducts<T>(server: Server<T>): (r: Result<T, ApiError>)
    ensures var reply := server(PublicFeedCall("randomproducts"));
      && (r.Success? <==> reply.Delivered? && reply.json.Some?)
      && (r.Success? ==> r.value == reply.json.value)
  {
    Envelope(server(PublicFeedCall("randomproducts")))
  }

  // ---------------------------------------------------------------------------
  // The backend mismatch

  /**
   * Storing, then removing, then reading the token gives the stored token back:
   * removal and reads address different backends.
   */
  method TokenSurvivesRemoval(general: Store<string>, secure: Store<string>, token: string, removeAvailable: bool)
    returns (read: Option<string>)
    requires general != secure
    modifies general, secure
    ensures read == Some(token)
  {
    StoreToken(general, token, true);
    RemoveToken(secure, removeAvailable);
    read := GetToken(general, true);
  }
}
