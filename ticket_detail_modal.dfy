/** The ticket detail dialog: the status, priority and source labels, the
    requester and conversation-author display rules, the HubSpot lookup and
    its three-way panel, and the sequential detail load. */
module TicketDetailModal {
  import opened Common
  import opened Entities
  import opened Api
  import Dashboard

  const UnknownLabel := "Unknown"
  const NoContactFound := "No HubSpot contact found for this email"
  const ContactLoadFailed := "Failed to load HubSpot contact data"
  /** The text before the engine's message in the notification of a failed load. */
  const DetailsLoadFailedPrefix := "Failed to load ticket details: "
  const NameNotProvided := "Not provided"
  const AgentLabel := "Support Agent"
  const CustomerLabel := "Customer"

  /** A pill: its text and its CSS classes. */
  datatype Pill = Pill(caption: string, color: string)

  // ----- labels -----

  /** `getStatusInfo`: a strict switch on the status code. */
  function StatusInfo(status: Scalar): Pill
  {
    match status
    case Num(2) => Pill("Open", "bg-white text-gray-800")
    case Num(3) => Pill("Pending", "bg-yellow-100 text-yellow-800")
    case Num(4) => Pill("Resolved", "bg-green-100 text-green-800")
    case Num(5) => Pill("Closed", GreyColor)
    case Num(6) => Pill("Waiting on Customer", GreyColor)
    case _ => Pill(UnknownLabel, GreyColor)
  }

  /** `getPriorityInfo`: a strict switch on the priority code. */
  function PriorityInfo(priority: Scalar): Pill
  {
    match priority
    case Num(1) => Pill("Low", "bg-green-100 text-green-800")
    case Num(2) => Pill("Medium", "bg-yellow-100 text-yellow-800")
    case Num(3) => Pill("High", "bg-red-100 text-red-800")
    case Num(4) => Pill("Urgent", "bg-red-200 text-red-900")
    case _ => Pill(UnknownLabel, GreyColor)
  }

  /** `getSourceInfo`. */
  function SourceLabel(source: int): string
  {
    match source
    case 1 => "Email"
    case 2 => "Portal"
    case 3 => "Phone"
    case 7 => "Chat"
    case 9 => "Feedback Widget"
    case 10 => "Outbound Email"
    case _ => UnknownLabel
  }

  /** The inverse reading of a source label. */
  function SourceCode(caption: string): Option<int>
  {
    match caption
    case "Email" => Some(1)
    case "Portal" => Some(2)
    case "Phone" => Some(3)
    case "Chat" => Some(7)
    case "Feedback Widget" => Some(9)
    case "Outbound Email" => Some(10)
    case _ => None
  }

  /** The six known source codes have six distinct labels, each read back to
      its code; every other code is "Unknown", which reads back to nothing. */
  lemma SourceLabelRoundTrip(source: int)
    ensures SourceLabel(source) == UnknownLabel <==> source !in {1, 2, 3, 7, 9, 10}
    ensures source in {1, 2, 3, 7, 9, 10} ==> SourceCode(SourceLabel(source)) == Some(source)
    ensures source !in {1, 2, 3, 7, 9, 10} ==> SourceCode(SourceLabel(source)) == None
  {
  }

  /** The status labels 2 to 6 are distinct and known; everything else,
      including a string "2", is "Unknown" in grey. */
  lemma StatusInfoCases(status: Scalar)
    ensures StatusInfo(status).caption == UnknownLabel <==> status !in {Num(2), Num(3), Num(4), Num(5), Num(6)}
    ensures StatusInfo(status).caption == UnknownLabel ==> StatusInfo(status).color == GreyColor
    ensures StatusInfo(Str("2")).caption == UnknownLabel
  {
  }

  /** The priority labels 1 to 4 are distinct and known; everything else is
      "Unknown" in grey. */
  lemma PriorityInfoCases(priority: Scalar)
    ensures PriorityInfo(priority).caption == UnknownLabel <==> priority !in {Num(1), Num(2), Num(3), Num(4)}
    ensures PriorityInfo(priority).caption == UnknownLabel ==> PriorityInfo(priority).color == GreyColor
    ensures priority in {Num(1), Num(2), Num(3), Num(4)} ==> Dashboard.PriorityText(priority) == Text(PriorityInfo(priority).caption)
  {
  }

  /** The dialog and the dashboard colour a status the same way except for
      Open, which is black text on white in the list and grey text on white
      here; they agree on the label of every numeric code from 2 to 6. */
  lemma StatusAgreesWithDashboard(status: Scalar)
    ensures StatusInfo(status).color != Dashboard.StatusColor(status) <==> status == Num(2)
    ensures status in {Num(2), Num(3), Num(4), Num(5), Num(6)} ==> Dashboard.StatusText(status) == Text(StatusInfo(status).caption)
  {
  }

  /** The source row: absent for a missing source; a 0 source renders the
      number itself (`{ticket.source && …}`); otherwise the label. */
  function SourceShown(source: Option<int>): Option<Shown>
  {
    match source
    case None => None
    case Some(0) => Some(Raw(Num(0)))
    case Some(s) => Some(Text(SourceLabel(s)))
  }

  lemma SourceShownCases(source: Option<int>)
    ensures SourceShown(source).None? <==> source.None?
    ensures TruthyNum(source) ==> SourceShown(source) == Some(Text(SourceLabel(source.value)))
    ensures SourceShown(source).Some? && SourceShown(source).value.Raw? <==> source == Some(0)
  {
  }

  // ----- requester and conversations -----

  /** The requester shown in the dialog: `requester_email || requester_id`;
      a missing id renders nothing. Unlike the list there is no "Unknown". */
  function RequesterShown(t: Ticket): Shown
  {
    if Truthy(t.requesterEmail) then Text(t.requesterEmail.value)
    else if t.requesterId.Some? then Raw(Num(t.requesterId.value))
    else Text("")
  }

  /** The dialog prefers the e-mail and the list prefers the name: the two
      show the same thing only when they fall back alike. */
  lemma RequesterShownCases(t: Ticket)
    ensures RequesterShown(t) == Text("") <==> !Truthy(t.requesterEmail) && t.requesterId.None?
    ensures Truthy(t.requesterEmail) ==> RequesterShown(t) == Text(t.requesterEmail.value)
    ensures !Truthy(t.requesterEmail) && !Truthy(t.requesterName) && TruthyNum(t.requesterId) ==>
      RequesterShown(t) == Dashboard.RequesterShown(t)
  {
  }

  /** How one message of the thread is attributed. */
  datatype Author = Author(role: string, badge: string, badgeColor: string)

  function ConversationAuthor(c: Conversation): Author
  {
    if TruthyNum(c.userId) then Author(AgentLabel, "A", "bg-blue-100 text-blue-800")
    else Author(CustomerLabel, "C", GreyColor)
  }

  /** A message is the agent's exactly when it carries a non-zero user id;
      the badge follows the role: "A" for the agent, "C" for the customer. */
  lemma ConversationAuthorCases(c: Conversation)
    ensures ConversationAuthor(c).role == AgentLabel <==> c.userId.Some? && c.userId.value != 0
    ensures ConversationAuthor(c).role == CustomerLabel <==> !TruthyNum(c.userId)
    ensures ConversationAuthor(c).badge == (if TruthyNum(c.userId) then "A" else "C")
  {
  }

  // ----- the HubSpot lookup -----

  /** What a lookup leaves behind: a contact, or an error text. */
  datatype CrmOutcome = Found(contact: HubSpotContact) | NotFound(message: string)

  /** `loadHubSpotContact` classifying the awaited call (or its throw). */
  function ClassifyLookup(call: Call<Envelope<HubSpotContact>>): CrmOutcome
  {
    match call
    case Threw => NotFound(ContactLoadFailed)
    case Returned(res) =>
      if res.success && res.data.Some? then Found(res.data.value)
      else NotFound(OrElse(res.message, NoContactFound))
  }

  /** The lookup classified on the transport outcome. The gateway never
      throws, so the catch text appears only if a server sends it. A contact
      is found exactly when a body came back; a failed call shows the
      gateway's message, and a successful call with no body the not-found
      text. */
  lemma LookupThroughGateway(t: Transport<HubSpotContact>)
    ensures var o := ClassifyLookup(Returned(Request(t)));
      && (o.Found? <==> t.Ok? && t.body.Some?)
      && (o.Found? ==> o.contact == t.body.value)
      && (t.Ok? && t.body.None? ==> o == NotFound(NoContactFound))
      && (t.Err? ==> o == NotFound(Request(t).message.value))
      && (t.Err? && Truthy(t.serverMessage) ==> o == NotFound(t.serverMessage.value))
      && (t.Ok? ==> o != NotFound(ContactLoadFailed))
  {
  }

  /** The HubSpot part of the details tab, one of four shapes. */
  datatype CrmPanel = LoadingPanel | ContactCard(contact: HubSpotContact) | ErrorNote(message: string) | NoPanel

  /** `isLoadingContact ? … : hubspotContact ? … : contactError ? … : null`. */
  function Panel(isLoadingContact: bool, contact: Option<HubSpotContact>, error: Option<string>): CrmPanel
  {
    if isLoadingContact then LoadingPanel
    else if contact.Some? then ContactCard(contact.value)
    else if Truthy(error) then ErrorNote(error.value)
    else NoPanel
  }

  /** The error note appears only when nothing is loading and no contact is
      held, so a contact left over from an earlier lookup hides a later error. */
  lemma PanelPrecedence(isLoadingContact: bool, contact: Option<HubSpotContact>, error: Option<string>)
    ensures Panel(isLoadingContact, contact, error).ErrorNote? <==> !isLoadingContact && contact.None? && Truthy(error)
    ensures Panel(isLoadingContact, contact, error).ContactCard? <==> !isLoadingContact && contact.Some?
    ensures Panel(isLoadingContact, contact, error) == NoPanel <==> !isLoadingContact && contact.None? && !Truthy(error)
  {
  }

  /** The contact card's name: trimmed when present, else "Not provided". */
  function ContactNameShown(c: HubSpotContact): string
  {
    if c.name != "" then Trim(c.name) else NameNotProvided
  }

  lemma ContactNameShownCases(c: HubSpotContact)
    ensures c.name == "" ==> ContactNameShown(c) == NameNotProvided
    ensures c.name != "" ==> (ContactNameShown(c) == "" <==> IsBlank(c.name))
  {
    TrimEmptyIffBlank(c.name);
  }

  // ----- the detail load -----

  /** After the ticket fetch succeeds, reading the contact's fields throws when
      the contact call brought no data: a null ticket body (its
      `requester_id` is read), or any failed or empty contact call. */
  predicate ThrowsAfterTicket(ticket: Envelope<Ticket>, contact: Envelope<Contact>)
  {
    ticket.success && (ticket.data.None? || contact.data.None?)
  }

  /** The HubSpot lookup runs when the contact call returned an e-mail. */
  predicate LooksUpCrm(ticket: Envelope<Ticket>, contact: Envelope<Contact>)
  {
    ticket.success && ticket.data.Some? && contact.data.Some? && Truthy(contact.data.value.email)
  }

  /** Stated on the transport outcomes: the exception path is reached exactly
      when the ticket call succeeded and either it had no body or the contact
      call failed or had none, so a failed contact lookup always ends in the
      error notification. The lookup and the exception path exclude each other. */
  lemma DetailPaths(tr: Transport<Ticket>, cr: Transport<Contact>)
    ensures ThrowsAfterTicket(Request(tr), Request(cr)) <==> tr.Ok? && (tr.body.None? || cr.Err? || cr.body.None?)
    ensures LooksUpCrm(Request(tr), Request(cr)) <==>
      tr.Ok? && tr.body.Some? && cr.Ok? && cr.body.Some? && Truthy(cr.body.value.email)
    ensures !(ThrowsAfterTicket(Request(tr), Request(cr)) && LooksUpCrm(Request(tr), Request(cr)))
  {
  }

  class ModalState {
    /** The props: the dialog stays mounted while the dashboard passes it a
        new ticket id or open flag, so the state below carries over. */
    var ticketId: Option<string>
    var isOpen: bool
    var ticket: Option<Ticket>
    var conversations: seq<Conversation>
    var isLoading: bool
    var hubspotContact: Option<HubSpotContact>
    var isLoadingContact: bool
    var contactError: Option<string>

    constructor (ticketId0: Option<string>, isOpen0: bool)
      ensures ticketId == ticketId0 && isOpen == isOpen0
      ensures ticket == None && conversations == [] && !isLoading
      ensures hubspotContact == None && !isLoadingContact && contactError == None
    {
      ticketId := ticketId0;
      isOpen := isOpen0;
      ticket := None;
      conversations := [];
      isLoading := false;
      hubspotContact := None;
      isLoadingContact := false;
      contactError := None;
    }

    /** `loadHubSpotContact`: a found contact replaces the held one and clears
        the error; otherwise the error text is set and the held contact stays.
        The loading flag ends false either way. */
    method LoadHubSpotContact(email: string, call: Call<Envelope<HubSpotContact>>)
      modifies this
      ensures ClassifyLookup(call).Found? ==> hubspotContact == Some(ClassifyLookup(call).contact) && contactError == None
      ensures ClassifyLookup(call).NotFound? ==>
        hubspotContact == old(hubspotContact) && contactError == Some(ClassifyLookup(call).message)
      ensures !isLoadingContact
      ensures Panel(isLoadingContact, hubspotContact, contactError) ==
        if hubspotContact.Some? then ContactCard(hubspotContact.value) else ErrorNote(contactError.value)
      ensures ticket == old(ticket) && conversations == old(conversations) && isLoading == old(isLoading)
      ensures ticketId == old(ticketId) && isOpen == old(isOpen)
    {
      isLoadingContact := true;
      contactError := None;
      match ClassifyLookup(call) {
        case Found(c) =>
          hubspotContact := Some(c);
        case NotFound(m) =>
          contactError := Some(m);
      }
      isLoadingContact := false;
    }

    /** The state a load leaves when it runs: the ticket is replaced by the
        fetched one with the requester merged in; a ticket or contact without
        data aborts with the runtime-error toast before the conversations are
        fetched; a requester e-mail starts the HubSpot lookup; a successful
        conversations fetch replaces the list; the loading flag ends false. */
    twostate predicate DetailsLoaded(tr: Transport<Ticket>, cr: Transport<Contact>, hr: Transport<HubSpotContact>,
                                     vr: Transport<seq<Conversation>>, new notice: Option<Notice>)
      reads this
    {
      var tres := Request(tr); var cres := Request(cr);
      && !isLoading
      && notice == (if ThrowsAfterTicket(tres, cres) then Some(RuntimeErrorToast(DetailsLoadFailedPrefix)) else None)
      && (!tres.success ==> ticket == old(ticket))
      && (tres.success ==>
            ticket == (if tres.data.Some? && cres.success && cres.data.Some?
                       then Some(WithRequester(tres.data.value, cres.data.value))
                       else tres.data))
      && (!ThrowsAfterTicket(tres, cres) && vr.Ok? ==>
            conversations == (if vr.body.Some? then vr.body.value else []))
      && (ThrowsAfterTicket(tres, cres) || vr.Err? ==> conversations == old(conversations))
      && (LooksUpCrm(tres, cres) ==>
            var o := ClassifyLookup(Returned(Request(hr)));
            && !isLoadingContact
            && (o.Found? ==> hubspotContact == Some(o.contact) && contactError == None)
            && (o.NotFound? ==> hubspotContact == old(hubspotContact) && contactError == Some(o.message)))
      && (!LooksUpCrm(tres, cres) ==>
            hubspotContact == old(hubspotContact) && contactError == old(contactError)
            && isLoadingContact == old(isLoadingContact))
    }

    /** Nothing the dialog shows has changed and no notification was raised. */
    twostate predicate Untouched(new notice: Option<Notice>)
      reads this
    {
      && notice == None
      && ticket == old(ticket) && conversations == old(conversations) && isLoading == old(isLoading)
      && hubspotContact == old(hubspotContact) && contactError == old(contactError)
      && isLoadingContact == old(isLoadingContact)
    }

    /** `loadTicketDetails`: without an id nothing happens; otherwise fetch the
        ticket, merge in its requester, look the requester up in HubSpot, then
        fetch the conversations. Returns the notification raised, if any. */
    method LoadTicketDetails(tr: Transport<Ticket>, cr: Transport<Contact>, hr: Transport<HubSpotContact>, vr: Transport<seq<Conversation>>)
      returns (notice: Option<Notice>)
      modifies this
      ensures ticketId == old(ticketId) && isOpen == old(isOpen)
      ensures !Truthy(ticketId) ==> Untouched(notice)
      ensures Truthy(ticketId) ==> DetailsLoaded(tr, cr, hr, vr, notice)
    {
      notice := None;
      if !Truthy(ticketId) {
        return;
      }
      isLoading := true;
      var tres := Request(tr);
      if tres.success {
        ticket := tres.data;
        var cres := Request(cr);
        if tres.data.None? || cres.data.None? {
          notice := Some(RuntimeErrorToast(DetailsLoadFailedPrefix));
          isLoading := false;
          return;
        }
        if cres.success {
          ticket := Some(WithRequester(tres.data.value, cres.data.value));
        }
        if Truthy(cres.data.value.email) {
          LoadHubSpotContact(cres.data.value.email.value, Returned(Request(hr)));
        }
      }
      var vres := Request(vr);
      if vres.success {
        conversations := if vres.data.Some? then vres.data.value else [];
      }
      isLoading := false;
    }

    /** A re-render with new props: the id and the open flag change and the
        dialog's own state is kept, the HubSpot contact of the previous ticket
        included. */
    method SetProps(ticketId0: Option<string>, isOpen0: bool)
      modifies this
      ensures ticketId == ticketId0 && isOpen == isOpen0
      ensures Untouched(None)
    {
      ticketId := ticketId0;
      isOpen := isOpen0;
    }

    /** The effect on `isOpen` and `ticketId`: the details load only when the
        dialog is open and an id is set. */
    method OpenEffect(tr: Transport<Ticket>, cr: Transport<Contact>, hr: Transport<HubSpotContact>, vr: Transport<seq<Conversation>>)
      returns (notice: Option<Notice>)
      modifies this
      ensures ticketId == old(ticketId) && isOpen == old(isOpen)
      ensures !(isOpen && Truthy(ticketId)) ==> Untouched(notice)
      ensures isOpen && Truthy(ticketId) ==> DetailsLoaded(tr, cr, hr, vr, notice)
    {
      notice := None;
      if isOpen && Truthy(ticketId) {
        notice := LoadTicketDetails(tr, cr, hr, vr);
      }
    }
  }
}
