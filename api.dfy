/** The HTTP client (`ApiService`): the session token it holds and persists,
    the bearer header it attaches, and the envelope every call is folded into.
    The transport itself is an input: what axios reported for the call. */
module Api {
  import opened Common
  import opened Entities

  /** The storage key under which the session token is persisted. */
  const AuthTokenKey := "auth_token"
  const AuthorizationHeader := "Authorization"
  const DefaultFailureMessage := "Request failed"

  /** What the transport reported for one call: a 2xx response with its body
      (None for a JSON `null` body), or a failure with the `message` of the
      server's error body, if any, and the transport error's own message. */
  datatype Transport<T> = Ok(body: Option<T>) | Err(serverMessage: Option<string>, errorMessage: Option<string>)

  /** The uniform result of every call: `{success, data}` or `{success: false, message}`. */
  datatype Envelope<T> = Envelope(success: bool, data: Option<T>, message: Option<string>)

  /** Body of the `/login` and `/register` responses. */
  datatype AuthBody = AuthBody(token: Option<string>, user: Option<User>, message: Option<string>)

  /** Body of the `/user` response. */
  datatype SessionBody = SessionBody(user: Option<User>)

  /** Body of the configuration save responses; the client reads none of it. */
  datatype SaveBody = SaveBody(message: Option<string>)

  /** `request`: never fails; a transport success becomes `success` with the
      body as data, a failure becomes a non-empty message, preferring the
      server's message, then the error's, then "Request failed". */
  function Request<T>(t: Transport<T>): (e: Envelope<T>)
    ensures e.success <==> t.Ok?
    ensures t.Ok? ==> e.data == t.body && e.message == None
    ensures !e.success ==> e.data == None && e.message.Some? && e.message.value != ""
    ensures t.Err? && Truthy(t.serverMessage) ==> e.message == t.serverMessage
    ensures t.Err? && !Truthy(t.serverMessage) && Truthy(t.errorMessage) ==> e.message == t.errorMessage
    ensures t.Err? && !Truthy(t.serverMessage) && !Truthy(t.errorMessage) ==> e.message == Some(DefaultFailureMessage)
  {
    match t
    case Ok(body) => Envelope(true, body, None)
    case Err(server, err) =>
      Envelope(false, None, Some(OrElse(server, OrElse(err, DefaultFailureMessage))))
  }

  /** The token a login or register response carries, if it is truthy. */
  function TokenIn(res: Envelope<AuthBody>): Option<string>
  {
    if res.data.Some? && Truthy(res.data.value.token) then res.data.value.token else None
  }

  /** `register` stores a token only when `success` holds and the data has one;
      `login` checks the data alone. Because failures never carry data, the two
      guards agree on every transport outcome. */
  lemma RegisterAndLoginGuardsAgree(t: Transport<AuthBody>)
    ensures (Request(t).success && TokenIn(Request(t)).Some?) <==> TokenIn(Request(t)).Some?
    ensures TokenIn(Request(t)).Some? <==> t.Ok? && t.body.Some? && Truthy(t.body.value.token)
  {
  }

  class ApiService {
    /** The session token; None stands for null. */
    var token: Option<string>
    /** The browser's local storage. */
    var storage: map<string, string>

    /** The in-memory token mirrors the persisted entry. */
    ghost predicate Synced()
      reads this
    {
      token == (if AuthTokenKey in storage then Some(storage[AuthTokenKey]) else None)
    }

    /** `isAuthenticated`: the token is truthy. */
    predicate IsAuthenticated()
      reads this
      ensures IsAuthenticated() ==> token.Some? && |token.value| > 0
      ensures token.None? || token == Some("") ==> !IsAuthenticated()
    {
      Truthy(token)
    }

    /** The constructor seeds the token from storage when running in a browser. */
    constructor (inBrowser: bool, storage0: map<string, string>)
      ensures storage == storage0
      ensures token == (if inBrowser && AuthTokenKey in storage0 then Some(storage0[AuthTokenKey]) else None)
      ensures inBrowser ==> Synced()
    {
      storage := storage0;
      token := if inBrowser && AuthTokenKey in storage0 then Some(storage0[AuthTokenKey]) else None;
    }

    /** The request interceptor: adds `Authorization: Bearer <token>` exactly
        when the token is truthy and leaves every other header alone. */
    function Intercept(headers: map<string, string>): (r: map<string, string>)
      reads this
      ensures AuthorizationHeader in r <==> AuthorizationHeader in headers || IsAuthenticated()
      ensures IsAuthenticated() ==> r[AuthorizationHeader] == "Bearer " + token.value
      ensures forall k :: k in headers && (k != AuthorizationHeader || !IsAuthenticated()) ==> k in r && r[k] == headers[k]
      ensures forall k :: k in r ==> k in headers || k == AuthorizationHeader
    {
      if Truthy(token) then headers[AuthorizationHeader := "Bearer " + token.value] else headers
    }

    /** `register`: returns the envelope unchanged; adopts and persists the
        token only on success with a truthy token. */
    method Register(t: Transport<AuthBody>) returns (res: Envelope<AuthBody>)
      modifies this
      ensures res == Request(t)
      ensures res.success && TokenIn(res).Some? ==>
        token == TokenIn(res) && storage == old(storage)[AuthTokenKey := TokenIn(res).value]
      ensures !(res.success && TokenIn(res).Some?) ==> token == old(token) && storage == old(storage)
      ensures old(Synced()) ==> Synced()
    {
      res := Request(t);
      if res.success && res.data.Some? && Truthy(res.data.value.token) {
        token := res.data.value.token;
        storage := storage[AuthTokenKey := token.value];
      }
    }

    /** `login`: returns the envelope unchanged; adopts and persists the token
        whenever the data carries a truthy one. */
    method Login(t: Transport<AuthBody>) returns (res: Envelope<AuthBody>)
      modifies this
      ensures res == Request(t)
      ensures TokenIn(res).Some? ==> token == TokenIn(res) && storage == old(storage)[AuthTokenKey := TokenIn(res).value]
      ensures TokenIn(res).None? ==> token == old(token) && storage == old(storage)
      ensures token != old(token) ==> res.success
      ensures old(Synced()) ==> Synced()
    {
      res := Request(t);
      if res.data.Some? && Truthy(res.data.value.token) {
        token := res.data.value.token;
        storage := storage[AuthTokenKey := token.value];
      }
    }

    /** `logout`: forgets the token in memory and in storage. */
    method Logout()
      modifies this
      ensures token == None && storage == old(storage) - {AuthTokenKey}
      ensures AuthTokenKey !in storage && !IsAuthenticated() && Synced()
      ensures Intercept(map[]) == map[]
    {
      token := None;
      storage := storage - {AuthTokenKey};
    }
  }
}
