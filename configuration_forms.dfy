/** The credentials form: per-tab validation into a field-to-message map, the
    submit gate in front of `onConfigUpdate`, field edits, and the rule that
    disables the HubSpot tab. */
module ConfigurationForms {
  import opened Common
  import opened Entities

  datatype Tab = Freshdesk | Hubspot
  datatype Field = FreshdeskDomain | FreshdeskApiKey | HubspotToken

  const DomainRequired := "Domain name is required"
  const DomainInvalid := "Please enter a valid Freshdesk domain (e.g., your-domain)"
  const ApiKeyRequired := "API key is required"
  const ApiKeyTooShort := "API key seems too short"
  const TokenRequired := "Access token is required"
  const TokenTooShort := "Access token seems too short"
  const MinApiKeyLength := 10
  const MinTokenLength := 20

  predicate IsDomainChar(c: char)
  {
    'a' <= c <= 'z' || 'A' <= c <= 'Z' || '0' <= c <= '9' || c == '-'
  }

  /** What `/^[a-zA-Z0-9-]+/` matches: some non-empty prefix made only of
      domain characters (the pattern has no end anchor). */
  ghost predicate DomainPatternMatches(s: string)
  {
    exists k :: DomainRun(s, k)
  }

  /** The first `k` characters (at least one) are domain characters. */
  ghost predicate DomainRun(s: string, k: int)
  {
    1 <= k <= |s| && forall i :: 0 <= i < k ==> IsDomainChar(s[i])
  }

  /** The test as the model runs it: the first character alone decides. */
  predicate DomainPatternTest(s: string)
  {
    |s| > 0 && IsDomainChar(s[0])
  }

  lemma DomainTestIsPattern(s: string)
    ensures DomainPatternTest(s) <==> DomainPatternMatches(s)
  {
    if DomainPatternTest(s) {
      assert DomainRun(s, 1);
    }
    if DomainPatternMatches(s) {
      var k :| DomainRun(s, k);
      assert IsDomainChar(s[0]);
    }
  }

  function DomainError(domain: string): Option<string>
  {
    if Trim(domain) == "" then Some(DomainRequired)
    else if !DomainPatternTest(domain) then Some(DomainInvalid)
    else None
  }

  function ApiKeyError(key: string): Option<string>
  {
    if Trim(key) == "" then Some(ApiKeyRequired)
    else if |key| < MinApiKeyLength then Some(ApiKeyTooShort)
    else None
  }

  function TokenError(token: string): Option<string>
  {
    if Trim(token) == "" then Some(TokenRequired)
    else if |token| < MinTokenLength then Some(TokenTooShort)
    else None
  }

  /** `validateForm`: the error map for the active tab. */
  function Validate(data: Configs, tab: Tab): (errors: map<Field, string>)
    ensures tab == Freshdesk ==> HubspotToken !in errors
    ensures tab == Hubspot ==> FreshdeskDomain !in errors && FreshdeskApiKey !in errors
  {
    match tab
    case Freshdesk =>
      Put(Put(map[], FreshdeskDomain, DomainError(data.freshdeskDomain)), FreshdeskApiKey, ApiKeyError(data.freshdeskApiKey))
    case Hubspot =>
      Put(map[], HubspotToken, TokenError(data.hubspotToken))
  }

  /** The domain message on the Freshdesk tab, stated with white space and the
      regular expression's own meaning. */
  lemma DomainMessages(data: Configs)
    ensures var d := data.freshdeskDomain; var errors := Validate(data, Freshdesk);
      && (IsBlank(d) ==> FreshdeskDomain in errors && errors[FreshdeskDomain] == DomainRequired)
      && (!IsBlank(d) && !DomainPatternMatches(d) ==> FreshdeskDomain in errors && errors[FreshdeskDomain] == DomainInvalid)
      && (!IsBlank(d) && DomainPatternMatches(d) ==> FreshdeskDomain !in errors)
  {
    TrimEmptyIffBlank(data.freshdeskDomain);
    DomainTestIsPattern(data.freshdeskDomain);
  }

  /** The API-key message on the Freshdesk tab: blank is required; otherwise
      the untrimmed length must reach 10. */
  lemma ApiKeyMessages(data: Configs)
    ensures var k := data.freshdeskApiKey; var errors := Validate(data, Freshdesk);
      && (IsBlank(k) ==> FreshdeskApiKey in errors && errors[FreshdeskApiKey] == ApiKeyRequired)
      && (!IsBlank(k) && |k| < 10 ==> FreshdeskApiKey in errors && errors[FreshdeskApiKey] == ApiKeyTooShort)
      && (!IsBlank(k) && |k| >= 10 ==> FreshdeskApiKey !in errors)
  {
    TrimEmptyIffBlank(data.freshdeskApiKey);
  }

  /** The token message on the HubSpot tab: blank is required; otherwise the
      untrimmed length must reach 20. */
  lemma TokenMessages(data: Configs)
    ensures var t := data.hubspotToken; var errors := Validate(data, Hubspot);
      && (IsBlank(t) ==> HubspotToken in errors && errors[HubspotToken] == TokenRequired)
      && (!IsBlank(t) && |t| < 20 ==> HubspotToken in errors && errors[HubspotToken] == TokenTooShort)
      && (!IsBlank(t) && |t| >= 20 ==> HubspotToken !in errors)
  {
    TrimEmptyIffBlank(data.hubspotToken);
  }

  /** The form is accepted exactly when every field of the active tab passes. */
  ghost predicate Acceptable(data: Configs, tab: Tab)
  {
    match tab
    case Freshdesk =>
      && !IsBlank(data.freshdeskDomain) && DomainPatternMatches(data.freshdeskDomain)
      && !IsBlank(data.freshdeskApiKey) && |data.freshdeskApiKey| >= MinApiKeyLength
    case Hubspot =>
      !IsBlank(data.hubspotToken) && |data.hubspotToken| >= MinTokenLength
  }

  lemma ValidatePassesIff(data: Configs, tab: Tab)
    ensures Validate(data, tab) == map[] <==> Acceptable(data, tab)
  {
    if tab == Freshdesk {
      DomainMessages(data);
      ApiKeyMessages(data);
    } else {
      TokenMessages(data);
    }
  }

  /** The form data with one field replaced (`{...prev, [name]: value}`). */
  function SetField(c: Configs, f: Field, value: string): Configs
  {
    match f
    case FreshdeskDomain => c.(freshdeskDomain := value)
    case FreshdeskApiKey => c.(freshdeskApiKey := value)
    case HubspotToken => c.(hubspotToken := value)
  }

  function GetField(c: Configs, f: Field): string
  {
    match f
    case FreshdeskDomain => c.freshdeskDomain
    case FreshdeskApiKey => c.freshdeskApiKey
    case HubspotToken => c.hubspotToken
  }

  /** Setting a field changes that field and no other. */
  lemma SetFieldOnlyThatField(c: Configs, f: Field, value: string, g: Field)
    ensures GetField(SetField(c, f, value), g) == if f == g then value else GetField(c, g)
  {
  }

  /** The HubSpot tab button is disabled when Freshdesk is not configured and
      no HubSpot token is stored (both read from the stored configs). */
  predicate HubspotTabDisabled(configs: Configs)
  {
    !IsConfigured(configs) && configs.hubspotToken == ""
  }

  class FormState {
    /** The stored configs passed in by the application. */
    var configs: Configs
    var formData: Configs
    var errors: map<Field, string>
    var isLoading: bool
    var activeTab: Tab

    constructor (configs0: Configs)
      ensures configs == configs0 && formData == configs0
      ensures errors == map[] && !isLoading && activeTab == Freshdesk
    {
      configs := configs0;
      formData := configs0;
      errors := map[];
      isLoading := false;
      activeTab := Freshdesk;
    }

    /** The effect on new configs: the form is reset to them. */
    method ReceiveConfigs(c: Configs)
      modifies this
      ensures configs == c && formData == c
      ensures errors == old(errors) && isLoading == old(isLoading) && activeTab == old(activeTab)
    {
      configs := c;
      formData := c;
    }

    /** A click on a tab button; a click on the disabled HubSpot button does nothing. */
    method SelectTab(tab: Tab)
      modifies this
      ensures activeTab == if tab == Hubspot && HubspotTabDisabled(configs) then old(activeTab) else tab
      ensures configs == old(configs) && formData == old(formData) && errors == old(errors) && isLoading == old(isLoading)
    {
      if !(tab == Hubspot && HubspotTabDisabled(configs)) {
        activeTab := tab;
      }
    }

    /** `validateForm`: records the error map and reports whether it is empty. */
    method ValidateForm() returns (ok: bool)
      modifies this
      ensures errors == Validate(formData, activeTab)
      ensures ok <==> Acceptable(formData, activeTab)
      ensures configs == old(configs) && formData == old(formData) && activeTab == old(activeTab) && isLoading == old(isLoading)
    {
      errors := Validate(formData, activeTab);
      ValidatePassesIff(formData, activeTab);
      ok := errors == map[];
    }

    /** `handleSubmit`: `onConfigUpdate(formData, activeTab)` is invoked, and
        returned here, only when validation passes; whatever the callback
        does, the loading flag ends false. */
    method HandleSubmit() returns (update: Option<(Configs, Tab)>)
      modifies this
      ensures errors == Validate(formData, activeTab)
      ensures update.Some? <==> Acceptable(formData, activeTab)
      ensures update.Some? ==> update.value == (formData, activeTab)
      ensures isLoading == (old(isLoading) && update.None?)
      ensures configs == old(configs) && formData == old(formData) && activeTab == old(activeTab)
    {
      var ok := ValidateForm();
      if !ok {
        return None;
      }
      isLoading := true;
      update := Some((formData, activeTab));
      isLoading := false;
    }

    /** `handleChange`: replaces the named field and clears only its error. */
    method HandleChange(f: Field, value: string)
      modifies this
      ensures formData == SetField(old(formData), f, value)
      ensures errors == old(errors) - {f}
      ensures configs == old(configs) && activeTab == old(activeTab) && isLoading == old(isLoading)
    {
      formData := SetField(formData, f, value);
      if f in errors {
        errors := errors - {f};
      }
    }
  }
}
