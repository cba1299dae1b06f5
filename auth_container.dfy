/** The sign-in / sign-up switch and the two handlers that classify the
    gateway's answer into success (with the user handed to `onAuthSuccess`),
    a toast, and a rethrown error. */
module AuthContainer {
  import opened Common
  import opened Entities
  import opened Api

  datatype AuthMode = LoginMode | RegisterMode

  const LoginFailed := "Login failed"
  const RegistrationFailed := "Registration failed"
  const AccountCreated := "Account created successfully!"
  /** The word whose presence in the login message selects a success toast. */
  const LoginWord := "Login"

  /** How a handler settles: the user passed to `onAuthSuccess` if it was
      invoked, the toast raised, and whether the handler rethrew. */
  datatype AuthResult = AuthResult(signedIn: Option<User>, toast: Notice, rethrown: bool)

  /** The user carried by a successful response, if any (`response.success &&
      response.data?.user`). */
  function UserIn(res: Envelope<AuthBody>): Option<User>
  {
    if res.success && res.data.Some? then res.data.value.user else None
  }

  /** `handleLogin` after the call returned. On success `onAuthSuccess` runs
      first; the message is then inspected, and a missing message makes
      `message.includes` throw, so the handler ends in its error path. */
  function HandledLogin(res: Envelope<AuthBody>): AuthResult
  {
    match UserIn(res)
    case Some(u) =>
      (match res.data.value.message
       case Some(m) => AuthResult(Some(u), Toast(if Includes(m, LoginWord) then Success else Warning, m), false)
       case None => AuthResult(Some(u), RuntimeErrorToast(""), true))
    case None =>
      var text := OrElse(res.message, LoginFailed);
      AuthResult(None, Toast(Error, text), true)
  }

  /** `handleRegister` after the call returned. */
  function HandledRegister(res: Envelope<AuthBody>): AuthResult
  {
    match UserIn(res)
    case Some(u) => AuthResult(Some(u), Toast(Success, OrElse(res.data.value.message, AccountCreated)), false)
    case None => AuthResult(None, Toast(Error, OrElse(res.message, RegistrationFailed)), true)
  }

  /** Login, stated on the transport outcome: it succeeds iff the call
      returned a body with a user; the toast is a success iff the message
      contains "Login"; otherwise it fails with the gateway's message, or
      "Login failed" when the call succeeded without a user. */
  lemma LoginOutcomes(t: Transport<AuthBody>)
    ensures var r := HandledLogin(Request(t));
      && (r.signedIn.Some? <==> t.Ok? && t.body.Some? && t.body.value.user.Some?)
      && (r.signedIn.Some? ==> r.signedIn == t.body.value.user)
      && (r.signedIn.Some? && t.body.value.message.Some? ==>
            (&& !r.rethrown && r.toast.Toast? && r.toast.text == t.body.value.message.value
             && (r.toast.severity == Success <==> exists i :: OccursAt(t.body.value.message.value, LoginWord, i))
             && (r.toast.severity != Success ==> r.toast.severity == Warning)))
      && (r.signedIn.Some? && t.body.value.message.None? ==> r.rethrown && r.toast.RuntimeErrorToast?)
      && (t.Err? ==> r.rethrown && r.toast == Toast(Error, Request(t).message.value))
      && (t.Ok? && r.signedIn.None? ==> r.rethrown && r.toast == Toast(Error, LoginFailed))
  {
    if t.Ok? && t.body.Some? && t.body.value.user.Some? && t.body.value.message.Some? {
      IncludesIffOccurs(t.body.value.message.value, LoginWord);
    }
  }

  /** Registration, stated on the transport outcome: it succeeds iff the call
      returned a body with a user, announcing the server's message or
      "Account created successfully!"; otherwise it fails with the gateway's
      message, or "Registration failed" when the call succeeded without a user. */
  lemma RegisterOutcomes(t: Transport<AuthBody>)
    ensures var r := HandledRegister(Request(t));
      && (r.signedIn.Some? <==> t.Ok? && t.body.Some? && t.body.value.user.Some?)
      && (r.signedIn.Some? ==> r.signedIn == t.body.value.user && !r.rethrown)
      && (r.signedIn.Some? ==>
            r.toast == Toast(Success, if Truthy(t.body.value.message) then t.body.value.message.value else AccountCreated))
      && (t.Err? ==> r.rethrown && r.toast == Toast(Error, Request(t).message.value))
      && (t.Ok? && r.signedIn.None? ==> r.rethrown && r.toast == Toast(Error, RegistrationFailed))
  {
  }

  class Container {
    var authMode: AuthMode
    var isLoading: bool

    constructor ()
      ensures authMode == LoginMode && !isLoading
    {
      authMode := LoginMode;
      isLoading := false;
    }

    method SwitchToLogin()
      modifies this
      ensures authMode == LoginMode && isLoading == old(isLoading)
    {
      authMode := LoginMode;
    }

    method SwitchToRegister()
      modifies this
      ensures authMode == RegisterMode && isLoading == old(isLoading)
    {
      authMode := RegisterMode;
    }

    /** `handleLogin`: calls `login` on the client (which may adopt a token)
        and classifies the answer; the loading flag ends false. */
    method HandleLogin(api: ApiService, t: Transport<AuthBody>) returns (r: AuthResult)
      modifies this, api
      ensures r == HandledLogin(Request(t))
      ensures TokenIn(Request(t)).Some? ==>
        api.token == TokenIn(Request(t)) && api.storage == old(api.storage)[AuthTokenKey := TokenIn(Request(t)).value]
      ensures TokenIn(Request(t)).None? ==> api.token == old(api.token) && api.storage == old(api.storage)
      ensures old(api.Synced()) ==> api.Synced()
      ensures !isLoading && authMode == old(authMode)
    {
      isLoading := true;
      var res := api.Login(t);
      r := HandledLogin(res);
      isLoading := false;
    }

    /** `handleRegister`: calls `register` on the client and classifies the
        answer; the loading flag ends false. */
    method HandleRegister(api: ApiService, t: Transport<AuthBody>) returns (r: AuthResult)
      modifies this, api
      ensures r == HandledRegister(Request(t))
      ensures TokenIn(Request(t)).Some? ==>
        api.token == TokenIn(Request(t)) && api.storage == old(api.storage)[AuthTokenKey := TokenIn(Request(t)).value]
      ensures TokenIn(Request(t)).None? ==> api.token == old(api.token) && api.storage == old(api.storage)
      ensures old(api.Synced()) ==> api.Synced()
      ensures !isLoading && authMode == old(authMode)
    {
      isLoading := true;
      var res := api.Register(t);
      r := HandledRegister(res);
      isLoading := false;
    }
  }
}
