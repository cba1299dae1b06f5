/** The application shell: session state (signed-in flag, user, stored
    configs), the session probe, sign-in and sign-out, and the configuration
    save handler. */
module App {
  import opened Common
  import opened Entities
  import opened Api
  import opened ConfigurationForms
  import Header

  const FreshdeskUpdated := "Freshdesk configuration updated!"
  const HubspotUpdated := "HubSpot configuration updated!"
  const UpdateFailed := "Configuration update failed"
  const LoggedOut := "Logged out successfully"
  /** The probe message that suppresses the warning toast. */
  const ProbeSuccessMessage := "success"

  /** The Freshdesk save is issued iff the tab is Freshdesk and both of its fields are non-empty. */
  predicate IssuesFreshdeskSave(c: Configs, tab: Tab)
  {
    c.freshdeskApiKey != "" && c.freshdeskDomain != "" && tab == Freshdesk
  }

  /** The HubSpot save is issued iff the tab is HubSpot and the token is non-empty. */
  predicate IssuesHubspotSave(c: Configs, tab: Tab)
  {
    c.hubspotToken != "" && tab == Hubspot
  }

  /** One submission issues at most one save call. */
  lemma AtMostOneSave(c: Configs, tab: Tab)
    ensures !(IssuesFreshdeskSave(c, tab) && IssuesHubspotSave(c, tab))
  {
  }

  // ----- the text of a failed save -----

  /** As written, a failed save throws `Error(response.error)`. The envelope
      never has an `error` field, so the error's message is always "". */
  function ThrownSaveMessageAsWritten<T>(res: Envelope<T>): string
  {
    ""
  }

  /** As written, the toast shows `error.message || "Configuration update failed"`. */
  function SaveFailureToastAsWritten<T>(res: Envelope<T>): string
  {
    var m := ThrownSaveMessageAsWritten(res);
    if m != "" then m else UpdateFailed
  }

  /** The server's explanation never reaches the user as written: a rejection
      that carries "Invalid API key" is shown as "Configuration update failed". */
  lemma SaveFailureToastAsWrittenDropsServerMessage()
    ensures var res := Request<SaveBody>(Err(Some("Invalid API key"), None));
      && res.message == Some("Invalid API key")
      && SaveFailureToastAsWritten(res) == UpdateFailed
      && SaveFailureToastAsWritten(res) != res.message.value
  {
  }

  /** Corrected: the thrown error carries the gateway's message. */
  function SaveFailureMessage<T>(res: Envelope<T>): string
  {
    OrElse(res.message, UpdateFailed)
  }

  /** For every failed save the corrected text is the gateway's message, so a
      server-supplied message is what the user sees. */
  lemma SaveFailureMessageIsServerMessage<T>(t: Transport<T>)
    requires t.Err?
    ensures SaveFailureMessage(Request(t)) == Request(t).message.value
    ensures Truthy(t.serverMessage) ==> SaveFailureMessage(Request(t)) == t.serverMessage.value
  {
  }

  /** How `handleConfigUpdate` settles: stored configs replaced with the
      success toasts raised, or the error rethrown with its toast. */
  datatype ConfigUpdateResult = Updated(toasts: seq<Notice>) | Rejected(message: string, toast: Notice)

  class AppState {
    var isLoggedIn: bool
    var user: Option<User>
    var apiConfigs: Configs
    var isLoading: bool
    /** The shared HTTP client. */
    const api: ApiService

    constructor (api0: ApiService)
      ensures api == api0
      ensures !isLoggedIn && user == None && apiConfigs == EmptyConfigs && !isLoading
    {
      api := api0;
      isLoggedIn := false;
      user := None;
      apiConfigs := EmptyConfigs;
      isLoading := false;
    }

    /** `handleAuthSuccess`: adopt the user and mark the session signed in. */
    method HandleAuthSuccess(u: User)
      modifies this
      ensures user == Some(u) && isLoggedIn
      ensures apiConfigs == old(apiConfigs) && isLoading == old(isLoading)
      ensures Header.ShowsUserBlock(isLoggedIn, user)
    {
      user := Some(u);
      isLoggedIn := true;
    }

    /** `handleLogout`: the client forgets its token, the user and configs are
        cleared, and an info toast is raised. */
    method HandleLogout() returns (toast: Notice)
      modifies this, api
      ensures user == None && !isLoggedIn && apiConfigs == EmptyConfigs
      ensures toast == Toast(Info, LoggedOut)
      ensures api.token == None && api.storage == old(api.storage) - {AuthTokenKey}
      ensures !api.IsAuthenticated()
      ensures !Header.ShowsUserBlock(isLoggedIn, user)
      ensures isLoading == old(isLoading)
    {
      api.Logout();
      user := None;
      isLoggedIn := false;
      apiConfigs := EmptyConfigs;
      toast := Toast(Info, LoggedOut);
    }

    /** How the session probe leaves the state: a successful probe that
        carries a user restores the session and adopts the user's configs; any
        other answer changes nothing. A warning toast is raised unless the
        message is "success", and the loading flag ends false. */
    twostate predicate ProbeSettled(t: Transport<SessionBody>, new toast: Option<Notice>)
      reads this
    {
      var res := Request(t);
      var restored := res.success && res.data.Some? && res.data.value.user.Some?;
      && (restored ==> isLoggedIn && user == res.data.value.user && apiConfigs == res.data.value.user.value.configs)
      && (!restored ==> isLoggedIn == old(isLoggedIn) && user == old(user) && apiConfigs == old(apiConfigs))
      && (toast.Some? <==> res.message != Some(ProbeSuccessMessage))
      && (toast.Some? ==> toast.value == Toast(Warning, OrElse(res.message, "")))
      && !isLoading
    }

    /** `checkAuthStatus`: a successful probe that carries a user restores the
        session and adopts the user's configs; any other answer changes
        nothing. A warning toast is raised unless the message is "success",
        which an answer from the gateway carries only as a server's failure
        message, so a successful probe also raises an (empty) warning. */
    method CheckAuthStatus(t: Transport<SessionBody>) returns (toast: Option<Notice>)
      modifies this
      ensures ProbeSettled(t, toast)
      ensures t.Ok? ==> toast == Some(Toast(Warning, ""))
    {
      isLoading := true;
      var res := Request(t);
      if res.success && res.data.Some? && res.data.value.user.Some? {
        isLoggedIn := true;
        user := res.data.value.user;
        apiConfigs := res.data.value.user.value.configs;
      }
      if res.message != Some(ProbeSuccessMessage) {
        toast := Some(Toast(Warning, OrElse(res.message, "")));
      } else {
        toast := None;
      }
      isLoading := false;
    }

    /** The effect on `isLoggedIn`: the probe runs only once signed in, so a
        freshly started application never probes. */
    method LoggedInEffect(t: Transport<SessionBody>) returns (toast: Option<Notice>)
      modifies this
      ensures !old(isLoggedIn) ==> toast == None && isLoggedIn == old(isLoggedIn)
      ensures !old(isLoggedIn) ==> user == old(user) && apiConfigs == old(apiConfigs) && isLoading == old(isLoading)
      ensures old(isLoggedIn) ==> ProbeSettled(t, toast) && isLoggedIn
      ensures old(isLoggedIn) && t.Ok? ==> toast == Some(Toast(Warning, ""))
    {
      toast := None;
      if isLoggedIn {
        toast := CheckAuthStatus(t);
      }
    }

    /** `handleConfigUpdate`: issues at most one save call for the tab; a
        failed save is rethrown, as written with an empty message and the
        generic toast, and leaves the stored configs alone; otherwise, even when no call was issued, the stored configs
        become the submitted ones. */
    method HandleConfigUpdate(configs: Configs, tab: Tab, freshdeskReply: Transport<SaveBody>, hubspotReply: Transport<SaveBody>)
      returns (r: ConfigUpdateResult)
      modifies this
      ensures var fres := Request(freshdeskReply); var hres := Request(hubspotReply);
        && (IssuesFreshdeskSave(configs, tab) && !fres.success ==>
              r == Rejected(ThrownSaveMessageAsWritten(fres), Toast(Error, SaveFailureToastAsWritten(fres))))
        && (IssuesHubspotSave(configs, tab) && !hres.success ==>
              r == Rejected(ThrownSaveMessageAsWritten(hres), Toast(Error, SaveFailureToastAsWritten(hres))))
        && (r.Rejected? ==> r == Rejected("", Toast(Error, UpdateFailed)) && apiConfigs == old(apiConfigs))
        && (r.Updated? ==> apiConfigs == configs)
        && (r.Updated? <==> !(IssuesFreshdeskSave(configs, tab) && !fres.success) && !(IssuesHubspotSave(configs, tab) && !hres.success))
        && (r.Updated? ==>
              (r.toasts ==
                 (if IssuesFreshdeskSave(configs, tab) then [Toast(Success, FreshdeskUpdated)] else [])
                 + (if IssuesHubspotSave(configs, tab) then [Toast(Success, HubspotUpdated)] else [])))
      ensures isLoggedIn == old(isLoggedIn) && user == old(user) && isLoading == old(isLoading)
    {
      var toasts: seq<Notice> := [];
      if IssuesFreshdeskSave(configs, tab) {
        var res := Request(freshdeskReply);
        if !res.success {
          return Rejected(ThrownSaveMessageAsWritten(res), Toast(Error, SaveFailureToastAsWritten(res)));
        }
        toasts := toasts + [Toast(Success, FreshdeskUpdated)];
      }
      if IssuesHubspotSave(configs, tab) {
        var res := Request(hubspotReply);
        if !res.success {
          return Rejected(ThrownSaveMessageAsWritten(res), Toast(Error, SaveFailureToastAsWritten(res)));
        }
        toasts := toasts + [Toast(Success, HubspotUpdated)];
      }
      apiConfigs := configs;
      r := Updated(toasts);
    }
  }
}
