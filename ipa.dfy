/**
 * The session and transport logic of the FreeIPA client: the Client's own
 * state (session id, sticky sessions, whether a Kerberos client is set), the
 * JSON-RPC call and its outcome ordering, the password login and the handling
 * of the server's session cookie. The HTTP exchange is an input: the request
 * the client would send is returned, and the reply it receives is a parameter.
 */
module Ipa {

  import opened Wrappers
  import opened Text
  import opened Json
  import opened Errors

  const ClientVersion: string := "2.237"
  const DefaultKerbConf: string := "/etc/krb5.conf"
  const SessionCookieName: string := "ipa_session="
  const BearerPrefix: string := "MagBearerToken"

  // ---------------------------------------------------------------------------
  // What travels over HTTP.
  // ---------------------------------------------------------------------------

  /** The "result" member of a successful reply; `data` is its inner "result", kept undecoded. */
  datatype RpcResult = RpcResult(summary: string, value: Json, data: Raw)

  /** A JSON-RPC reply envelope as encoding/json decodes it. */
  datatype Response = Response(error: Option<IpaError>, id: int, principal: string, version: string, result: Option<RpcResult>)

  /** The body of an HTTP reply: unreadable, not a valid envelope, or a decoded envelope. */
  datatype Body = Unreadable(reason: string) | Undecodable(reason: string) | Decoded(envelope: Response)

  /**
   * An HTTP reply: its status, the first Set-Cookie header ("" when absent),
   * the X-IPA-Rejection-Reason and X-IPA-Pwchange-Result headers, and the body.
   */
  datatype HttpResponse = HttpResponse(status: int, setCookie: string, rejectionReason: string,
                                       passwordChangeResult: string, body: Body)

  /** What the HTTP client's Do gives back. */
  datatype Reply = NetworkFailure(reason: string) | Delivered(response: HttpResponse)

  /** How a JSON-RPC request authenticates. */
  datatype Auth = NoAuth | SessionCookie(cookie: string) | Spnego

  /** The JSON-RPC payload {"id": id, "method": name, "params": [params, options]}. */
  datatype Payload = Payload(id: int, name: string, params: seq<string>, options: map<string, Json>)

  datatype RpcRequest = RpcRequest(url: string, referer: string, auth: Auth, payload: Payload)

  /** A form POST (the password login and password change endpoints). */
  datatype FormRequest = FormRequest(url: string, referer: string, form: map<string, string>)

  /** The options map of an rpc call; the call writes "version" into the caller's map. */
  class Options {
    var entries: map<string, Json>

    constructor (entries: map<string, Json>)
      ensures this.entries == entries
    {
      this.entries := entries;
    }
  }

  // ---------------------------------------------------------------------------
  // The session cookie.
  // ---------------------------------------------------------------------------

  /**
   * The cookie matches `^ipa_session=([^;]+);` with v as the captured group:
   * it starts with "ipa_session=", then v, which is non-empty and has no ';',
   * then a ';'.
   */
  predicate MatchesSessionPattern(cookie: string, v: string) {
    |v| > 0 && (forall i :: 0 <= i < |v| ==> v[i] != ';') && HasPrefix(cookie, SessionCookieName + v + ";")
  }

  /** The captured group of `^ipa_session=([^;]+);`, if the cookie matches. */
  function ExtractSession(cookie: string): (r: Option<string>)
    ensures r.Some? ==> MatchesSessionPattern(cookie, r.value)
  {
    if !HasPrefix(cookie, SessionCookieName) then None
    else
      var rest := cookie[|SessionCookieName|..];
      match IndexOf(rest, ';')
      case None => None
      case Some(k) =>
        if k == 0 then None
        else
          assert cookie[..|SessionCookieName| + k + 1] == SessionCookieName + rest[..k] + ";";
          Some(rest[..k])
  }

  /** The regular expression captures exactly the values the pattern describes (so at most one). */
  lemma ExtractSessionMeaning(cookie: string, v: string)
    ensures ExtractSession(cookie) == Some(v) <==> MatchesSessionPattern(cookie, v)
  {
    if MatchesSessionPattern(cookie, v) {
      var n := |SessionCookieName|;
      assert cookie[..n] == SessionCookieName by {
        assert (SessionCookieName + v + ";")[..n] == SessionCookieName;
      }
      var rest := cookie[n..];
      assert rest[..|v| + 1] == v + ";" by {
        assert cookie[..n + |v| + 1] == SessionCookieName + v + ";";
      }
      assert rest[|v|] == ';';
      forall j | 0 <= j < |v| ensures rest[j] != ';' {
        assert rest[j] == v[j];
      }
      assert IndexOf(rest, ';') == Some(|v|);
      assert rest[..|v|] == v;
    }
  }

  /** A captured value is taken as a session id when it has length 32 or is a bearer token. */
  predicate Acceptable(v: string) {
    |v| == 32 || HasPrefix(v, BearerPrefix)
  }

  /** What a Set-Cookie header does to the session. */
  datatype CookieEffect = Keep | Adopt(id: string) | Reject

  /** setSessionID's decision for a sticky flag and a Set-Cookie header. */
  function CookieEffectOf(sticky: bool, cookie: string): (e: CookieEffect)
    ensures e == Keep <==> !sticky || cookie == ""
    ensures e.Adopt? ==> MatchesSessionPattern(cookie, e.id) && Acceptable(e.id) && e.id != ""
  {
    if !sticky || |cookie| == 0 then Keep
    else
      var captured := match ExtractSession(cookie) case Some(v) => v case None => "";
      if Acceptable(captured) then Adopt(captured) else Reject
  }

  /** A session is adopted exactly when the header is read and matches with an acceptable value. */
  lemma CookieAdoptMeaning(sticky: bool, cookie: string, v: string)
    ensures CookieEffectOf(sticky, cookie) == Adopt(v) <==> sticky && MatchesSessionPattern(cookie, v) && Acceptable(v)
  {
    ExtractSessionMeaning(cookie, v);
  }

  /** A read, non-empty header is refused exactly when no value it matches with is acceptable. */
  lemma CookieRejectMeaning(sticky: bool, cookie: string)
    ensures CookieEffectOf(sticky, cookie) == Reject <==>
      sticky && cookie != "" && forall v :: MatchesSessionPattern(cookie, v) ==> !Acceptable(v)
  {
    if CookieEffectOf(sticky, cookie) == Reject {
      forall v | MatchesSessionPattern(cookie, v) ensures !Acceptable(v) {
        ExtractSessionMeaning(cookie, v);
      }
    }
    if sticky && cookie != "" && CookieEffectOf(sticky, cookie).Adopt? {
      var v := CookieEffectOf(sticky, cookie).id;
      assert MatchesSessionPattern(cookie, v) && Acceptable(v);
    }
  }

  // ---------------------------------------------------------------------------
  // Building a JSON-RPC request.
  // ---------------------------------------------------------------------------

  /** The options after rpc writes the protocol version into them. */
  function WithVersion(m: map<string, Json>): (r: map<string, Json>)
    ensures "version" in r && r["version"] == JString(ClientVersion)
    ensures forall k :: k in m && k != "version" ==> k in r && r[k] == m[k]
    ensures forall k :: k in r ==> k == "version" || k in m
  {
    m["version" := JString(ClientVersion)]
  }

  /** The endpoint: the session endpoint once a session id is set. */
  function RpcUrl(host: string, sessionID: string): (url: string)
    ensures HasPrefix(url, "https://" + host + "/ipa/")
    ensures url[|host| + 13..] == (if sessionID != "" then "session/json" else "json")
  {
    var base := "https://" + host + "/ipa/";
    assert |base| == |host| + 13;
    if |sessionID| > 0 then base + "session/json" else base + "json"
  }

  /** The session cookie when a session id is set, otherwise SPNEGO if a Kerberos client is set. */
  function RpcAuth(sessionID: string, hasKerberos: bool): (a: Auth)
    ensures a.SessionCookie? <==> sessionID != ""
    ensures a.SessionCookie? ==> a.cookie == SessionCookieName + sessionID
    ensures a == Spnego <==> sessionID == "" && hasKerberos
    ensures a == NoAuth <==> sessionID == "" && !hasKerberos
  {
    if |sessionID| > 0 then SessionCookie(SessionCookieName + sessionID)
    else if hasKerberos then Spnego
    else NoAuth
  }

  function RequestFor(host: string, sessionID: string, hasKerberos: bool, payload: Payload): RpcRequest {
    RpcRequest(RpcUrl(host, sessionID), "https://" + host + "/ipa/xml", RpcAuth(sessionID, hasKerberos), payload)
  }

  /**
   * Once a call adopts a session id, the next request uses the session
   * endpoint and sends exactly that id back, whatever the Kerberos state.
   */
  lemma AdoptedSessionIsSent(cookie: string, v: string, host: string, hasKerberos: bool, payload: Payload)
    requires CookieEffectOf(true, cookie) == Adopt(v)
    ensures RequestFor(host, v, hasKerberos, payload).auth == SessionCookie("ipa_session=" + v)
    ensures RequestFor(host, v, hasKerberos, payload).url == "https://" + host + "/ipa/session/json"
  {
  }

  // ---------------------------------------------------------------------------
  // Classifying a reply.
  // ---------------------------------------------------------------------------

  /** The result of a call and the session id it adopts, if any. */
  datatype Exchange<T> = Exchange(result: Result<T, Error>, session: Option<string>)

  /** The reply arrived with status 200 and a Set-Cookie header that is not refused. */
  predicate PassesCookie(reply: Reply, sticky: bool) {
    reply.Delivered? && reply.response.status == 200 && CookieEffectOf(sticky, reply.response.setCookie) != Reject
  }

  /** The session id a Set-Cookie header makes the client adopt, if any. */
  function Adopted(effect: CookieEffect): Option<string> {
    match effect
    case Adopt(id) => Some(id)
    case _ => None
  }

  /**
   * The outcome of rpc: transport failure, then a non-200 status, then the
   * cookie, then the body, then the server's error envelope, and only then
   * the response. Only a 200 reply can change the session.
   */
  function RpcOutcome(reply: Reply, sticky: bool): (x: Exchange<Response>)
    ensures reply.NetworkFailure? ==> x == Exchange(Err(Transport(reply.reason)), None)
    ensures reply.Delivered? && reply.response.status != 200 ==>
              x == Exchange(Err(RpcHttpStatus(reply.response.status)), None)
    ensures (reply.Delivered? && reply.response.status == 200 && !PassesCookie(reply, sticky)) ==>
              x == Exchange(Err(InvalidSetCookie), None)
    ensures x.session.Some? <==>
              (PassesCookie(reply, sticky) && CookieEffectOf(sticky, reply.response.setCookie).Adopt?)
    ensures x.session.Some? ==> CookieEffectOf(sticky, reply.response.setCookie) == Adopt(x.session.value)
    ensures x.result.Ok? <==>
              (PassesCookie(reply, sticky) && reply.response.body.Decoded? && reply.response.body.envelope.error.None?)
    ensures x.result.Ok? ==> x.result.value == reply.response.body.envelope
    ensures (PassesCookie(reply, sticky) && reply.response.body.Decoded? && reply.response.body.envelope.error.Some?) ==>
              x.result == Err(Server(reply.response.body.envelope.error.value))
  {
    match reply
    case NetworkFailure(reason) => Exchange(Err(Transport(reason)), None)
    case Delivered(res) =>
      if res.status != 200 then Exchange(Err(RpcHttpStatus(res.status)), None)
      else
        var effect := CookieEffectOf(sticky, res.setCookie);
        if effect == Reject then Exchange(Err(InvalidSetCookie), None)
        else
          match res.body
          case Unreadable(reason) => Exchange(Err(Transport(reason)), Adopted(effect))
          case Undecodable(reason) => Exchange(Err(JsonSyntax(reason)), Adopted(effect))
          case Decoded(envelope) =>
            if envelope.error.Some? then Exchange(Err(Server(envelope.error.value)), Adopted(effect))
            else Exchange(Ok(envelope), Adopted(effect))
  }

  /** RemoteLogin's reading of a delivered reply, before the cookie: None means go on to the cookie. */
  function LoginFailure(status: int, reason: string): (r: Option<Error>)
    ensures r.None? <==> status == 200
    ensures r == Some(ExpiredPassword) <==> status == 401 && reason == "password-expired"
    ensures r == Some(InvalidPassword) <==> status == 401 && reason == "invalid-password"
    ensures r == Some(Unauthorized) <==> status == 401 && reason != "password-expired" && reason != "invalid-password"
    ensures r.Some? && status != 401 ==> r.value == LoginHttpStatus(status)
  {
    if status == 401 && reason == "password-expired" then Some(ExpiredPassword)
    else if status == 401 && reason == "invalid-password" then Some(InvalidPassword)
    else if status == 401 then Some(Unauthorized)
    else if status != 200 then Some(LoginHttpStatus(status))
    else None
  }

  /** The outcome of RemoteLogin; only a 200 reply reaches the cookie. */
  function LoginOutcome(reply: Reply, sticky: bool): (x: Exchange<()>)
    ensures x.session.Some? <==>
              (PassesCookie(reply, sticky) && CookieEffectOf(sticky, reply.response.setCookie).Adopt?)
    ensures x.session.Some? ==> reply.response.status == 200 &&
                                CookieEffectOf(sticky, reply.response.setCookie) == Adopt(x.session.value)
    ensures x.result.Ok? <==> PassesCookie(reply, sticky)
    ensures reply.Delivered? && reply.response.status != 200 ==>
              x.result == Err(LoginFailure(reply.response.status, reply.response.rejectionReason).value)
    ensures reply.NetworkFailure? ==> x == Exchange(Err(Transport(reply.reason)), None)
    ensures reply.Delivered? && reply.response.status == 200 &&
              CookieEffectOf(sticky, reply.response.setCookie).Reject? ==>
              x.result == Err(InvalidSetCookie)
  {
    match reply
    case NetworkFailure(reason) => Exchange(Err(Transport(reason)), None)
    case Delivered(res) =>
      match LoginFailure(res.status, res.rejectionReason)
      case Some(e) => Exchange(Err(e), None)
      case None =>
        match CookieEffectOf(sticky, res.setCookie)
        case Reject => Exchange(Err(InvalidSetCookie), None)
        case Keep => Exchange(Ok(()), None)
        case Adopt(id) => Exchange(Ok(()), Some(id))
  }

  /**
   * res.Result.Data: the undecoded inner result of a response. A reply whose
   * "result" is missing or null makes Go dereference a nil pointer.
   */
  function DataOf(res: Response): (r: Result<Raw, Error>)
    ensures r.Ok? <==> res.result.Some?
    ensures r.Ok? ==> r.value == res.result.value.data
    ensures r.Err? ==> r.error == NilDereference("Response.Result")
  {
    match res.result
    case None => Err(NilDereference("Response.Result"))
    case Some(result) => Ok(result.data)
  }

  // ---------------------------------------------------------------------------
  // The client.
  // ---------------------------------------------------------------------------

  class Client {
    const host: string
    const realm: string
    var sessionID: string
    var sticky: bool
    var hasKerberos: bool

    /** NewClient: sticky sessions on, no session, no Kerberos client. */
    constructor (host: string, realm: string)
      ensures this.host == host && this.realm == realm
      ensures sessionID == "" && sticky && !hasKerberos
    {
      this.host := host;
      this.realm := realm;
      sessionID := "";
      sticky := true;
      hasKerberos := false;
    }

    /** NewDefaultClientWithSession, with the host and realm given. */
    constructor WithSession(host: string, realm: string, sessionID: string)
      ensures this.host == host && this.realm == realm
      ensures this.sessionID == sessionID && sticky && !hasKerberos
    {
      this.host := host;
      this.realm := realm;
      this.sessionID := sessionID;
      sticky := true;
      hasKerberos := false;
    }

    method ClearSession()
      modifies this`sessionID
      ensures sessionID == ""
    {
      sessionID := "";
    }

    method StickySession(enable: bool)
      modifies this`sticky
      ensures sticky == enable
    {
      sticky := enable;
    }

    /** setSessionID: adopt, keep, or refuse the session named by a Set-Cookie header. */
    method SetSessionID(cookie: string) returns (err: Option<Error>)
      modifies this`sessionID
      ensures var e := CookieEffectOf(sticky, cookie);
        sessionID == (if e.Adopt? then e.id else old(sessionID)) &&
        err == (if e == Reject then Some(InvalidSetCookie) else None)
    {
      if !sticky {
        return None;
      }
      if |cookie| == 0 {
        return None;
      }
      var ipaSession := "";
      var matches := ExtractSession(cookie);
      if matches.Some? {
        ipaSession := matches.value;
      }
      if |ipaSession| == 32 || HasPrefix(ipaSession, BearerPrefix) {
        sessionID := ipaSession;
      } else {
        return Some(InvalidSetCookie);
      }
      return None;
    }

    /**
     * rpc: write the version into the options (a fresh map when there are none),
     * build the request from the session state, then classify the reply.
     */
    method Rpc(name: string, params: seq<string>, options: Options?, reply: Reply)
      returns (sent: RpcRequest, r: Result<Response, Error>)
      modifies this`sessionID, options
      ensures options != null ==> options.entries == WithVersion(old(options.entries))
      ensures sent == RequestFor(host, old(sessionID), hasKerberos,
                                 Payload(0, name, params, WithVersion(if options == null then map[] else old(options.entries))))
      ensures var x := RpcOutcome(reply, sticky);
        r == x.result && sessionID == (if x.session.Some? then x.session.value else old(sessionID))
    {
      var opts := if options == null then map[] else options.entries;
      opts := opts["version" := JString(ClientVersion)];
      if options != null {
        options.entries := opts;
      }
      var payload := Payload(0, name, params, opts);
      var url := "https://" + host + "/ipa/json";
      if |sessionID| > 0 {
        url := "https://" + host + "/ipa/session/json";
      }
      var auth := NoAuth;
      if |sessionID| > 0 {
        auth := SessionCookie(SessionCookieName + sessionID);
      } else if hasKerberos {
        auth := Spnego;
      }
      sent := RpcRequest(url, "https://" + host + "/ipa/xml", auth, payload);
      r := ReadReply(reply);
    }

    /** The second half of rpc: status, then cookie, then body, then the error envelope. */
    method ReadReply(reply: Reply) returns (r: Result<Response, Error>)
      modifies this`sessionID
      ensures var x := RpcOutcome(reply, sticky);
        r == x.result && sessionID == (if x.session.Some? then x.session.value else old(sessionID))
    {
      if reply.NetworkFailure? {
        return Err(Transport(reply.reason));
      }
      var res := reply.response;
      if res.status != 200 {
        return Err(RpcHttpStatus(res.status));
      }
      var err := SetSessionID(res.setCookie);
      if err.Some? {
        return Err(err.value);
      }
      match res.body
      case Unreadable(reason) => r := Err(Transport(reason));
      case Undecodable(reason) => r := Err(JsonSyntax(reason));
      case Decoded(envelope) =>
        if envelope.error.Some? {
          r := Err(Server(envelope.error.value));
        } else {
          r := Ok(envelope);
        }
    }

    method Ping(reply: Reply) returns (sent: RpcRequest, r: Result<Response, Error>)
      modifies this`sessionID
      ensures sent == RequestFor(host, old(sessionID), hasKerberos, Payload(0, "ping", [], WithVersion(map[])))
      ensures var x := RpcOutcome(reply, sticky);
        r == x.result && sessionID == (if x.session.Some? then x.session.value else old(sessionID))
    {
      sent, r := Rpc("ping", [], null, reply);
    }

    /** RemoteLogin: post the credentials, classify the reply, and on 200 read the cookie. */
    method RemoteLogin(uid: string, passwd: string, reply: Reply)
      returns (sent: FormRequest, err: Option<Error>)
      modifies this`sessionID
      ensures sent == FormRequest("https://" + host + "/ipa/session/login_password", "https://" + host + "/ipa",
                                  map["user" := uid, "password" := passwd])
      ensures var x := LoginOutcome(reply, sticky);
        err == (if x.result.Err? then Some(x.result.error) else None) &&
        sessionID == (if x.session.Some? then x.session.value else old(sessionID))
    {
      sent := FormRequest("https://" + host + "/ipa/session/login_password", "https://" + host + "/ipa",
                          map["user" := uid, "password" := passwd]);
      if reply.NetworkFailure? {
        return sent, Some(Transport(reply.reason));
      }
      var res := reply.response;
      if res.status == 401 && res.rejectionReason == "password-expired" {
        return sent, Some(ExpiredPassword);
      }
      if res.status == 401 && res.rejectionReason == "invalid-password" {
        return sent, Some(InvalidPassword);
      }
      if res.status == 401 {
        return sent, Some(Unauthorized);
      }
      if res.status != 200 {
        return sent, Some(LoginHttpStatus(res.status));
      }
      err := SetSessionID(res.setCookie);
    }

    /**
     * Login, LoginWithKeytab and LoginFromCCache once gokrb5 has answered:
     * a successful login sets the Kerberos client, a failure changes nothing.
     */
    method KerberosLogin(outcome: Option<Error>) returns (err: Option<Error>)
      modifies this`hasKerberos
      ensures err == outcome
      ensures hasKerberos == (old(hasKerberos) || outcome.None?)
    {
      if outcome.Some? {
        return outcome;
      }
      hasKerberos := true;
      return None;
    }
  }
}
