/** The dashboard: when data loads, how the ticket list is published and how
    each ticket is enriched with its requester, the colour and label rules
    for status and priority, the open-ticket count, the requester shown, and
    the ticket modal's open/close state. */
module Dashboard {
  import opened Common
  import opened Entities
  import opened Api

  const StatusOpenColor := "bg-white text-black"
  const StatusPendingColor := "bg-yellow-100 text-yellow-800"
  const StatusResolvedColor := "bg-green-100 text-green-800"
  const PriorityUrgentColor := "bg-red-100 text-red-900"
  const PriorityHighColor := "bg-red-100 text-red-500"
  const PriorityMediumColor := "bg-yellow-100 text-yellow-800"
  const PriorityLowColor := "bg-green-100 text-green-800"
  const UnknownRequester := "Unknown"

  // ----- status and priority presentation -----

  /** `getStatusColor`: a strict switch on the numeric status. */
  function StatusColor(status: Scalar): string
  {
    match status
    case Num(2) => StatusOpenColor
    case Num(3) => StatusPendingColor
    case Num(4) => StatusResolvedColor
    case _ => GreyColor
  }

  /** Only the numbers 2, 3 and 4 get a colour of their own; each gets a
      different one, and everything else is grey. */
  lemma StatusColorCases(status: Scalar)
    ensures StatusColor(status) != GreyColor <==> status in {Num(2), Num(3), Num(4)}
    ensures StatusColor(status) == StatusOpenColor <==> status == Num(2)
    ensures StatusColor(status) == StatusPendingColor <==> status == Num(3)
    ensures StatusColor(status) == StatusResolvedColor <==> status == Num(4)
  {
  }

  /** The key `getPriorityColor` switches on: `priority?.toString().toLowerCase()`. */
  function PriorityKey(priority: Scalar): Option<string>
  {
    match priority
    case Num(n) => Some(IntToString(n))
    case Str(s) => Some(ToLower(s))
    case Null => None
  }

  /** `getPriorityColor`. */
  function PriorityColor(priority: Scalar): string
  {
    match PriorityKey(priority)
    case Some("4") => PriorityUrgentColor
    case Some("3") => PriorityHighColor
    case Some("medium") => PriorityMediumColor
    case Some("2") => PriorityMediumColor
    case Some("low") => PriorityLowColor
    case Some("1") => PriorityLowColor
    case _ => GreyColor
  }

  /** For a numeric priority the colour follows the number: 4 red-900, 3
      red-500, 2 yellow, 1 green, anything else grey. */
  lemma PriorityColorOfNumber(n: int)
    ensures PriorityColor(Num(n)) ==
      if n == 4 then PriorityUrgentColor
      else if n == 3 then PriorityHighColor
      else if n == 2 then PriorityMediumColor
      else if n == 1 then PriorityLowColor
      else GreyColor
  {
    SingleDigitText(n, 4);
    SingleDigitText(n, 3);
    SingleDigitText(n, 2);
    SingleDigitText(n, 1);
    assert [DigitChar(4)] == "4" && [DigitChar(3)] == "3" && [DigitChar(2)] == "2" && [DigitChar(1)] == "1";
    var t := IntToString(n);
    assert t != "medium" && t != "low" by { assert IsDigit(t[|t| - 1]); }
  }

  /** For a textual priority the words "medium" and "low" are matched without
      regard to ASCII case and the digits "1" to "4" exactly; every other text,
      like a missing priority, is grey. */
  lemma PriorityColorOfString(s: string)
    ensures PriorityColor(Str(s)) == PriorityUrgentColor <==> s == "4"
    ensures PriorityColor(Str(s)) == PriorityHighColor <==> s == "3"
    ensures PriorityColor(Str(s)) == PriorityMediumColor <==> ToLower(s) == "medium" || s == "2"
    ensures PriorityColor(Str(s)) == PriorityLowColor <==> ToLower(s) == "low" || s == "1"
    ensures PriorityColor(Str(s)) == GreyColor <==>
      s != "1" && s != "2" && s != "3" && s != "4" && ToLower(s) != "medium" && ToLower(s) != "low"
    ensures PriorityColor(Str("Medium")) == PriorityMediumColor && PriorityColor(Str("LOW")) == PriorityLowColor
    ensures PriorityColor(Null) == GreyColor
  {
    ToLowerSingleDigit(s, '1');
    ToLowerSingleDigit(s, '2');
    ToLowerSingleDigit(s, '3');
    ToLowerSingleDigit(s, '4');
    assert ToLower("Medium") == "medium";
    assert ToLower("LOW") == "low";
  }

  /** The status pill text: strict matches for 2 to 5, a loose `== 6`, and
      otherwise the raw value. */
  function StatusText(status: Scalar): Shown
  {
    if status == Num(2) then Text("Open")
    else if status == Num(3) then Text("Pending")
    else if status == Num(4) then Text("Resolved")
    else if status == Num(5) then Text("Closed")
    else if LooselyEquals(status, 6) then Text("Waiting on Customer")
    else Raw(status)
  }

  /** The priority pill text: strict matches for 1 to 4, otherwise the raw value. */
  function PriorityText(priority: Scalar): Shown
  {
    if priority == Num(1) then Text("Low")
    else if priority == Num(2) then Text("Medium")
    else if priority == Num(3) then Text("High")
    else if priority == Num(4) then Text("Urgent")
    else Raw(priority)
  }

  /** A status is shown raw exactly when it is none of the known codes; the
      string "6" counts as 6 but the string "2" does not count as 2. */
  lemma StatusTextRaw(status: Scalar)
    ensures StatusText(status).Raw? <==>
      status !in {Num(2), Num(3), Num(4), Num(5)} && !LooselyEquals(status, 6)
    ensures StatusText(status).Raw? ==> StatusText(status).value == status
    ensures StatusText(Str("6")) == Text("Waiting on Customer")
    ensures StatusText(Str("2")) == Raw(Str("2"))
  {
    assert Trim("6") == "6";
    assert DigitsValue("6") == 6 by { assert "6"[..0] == ""; }
    assert Trim("2") == "2";
    assert DigitsValue("2") == 2 by { assert "2"[..0] == ""; }
  }

  /** The priority colour and the priority text agree on numbers: a numeric
      priority has a colour of its own exactly when it has a label. The words
      "medium" and "low" are coloured but shown raw. */
  lemma PriorityColorMatchesText(p: Scalar)
    ensures p.Num? ==> (PriorityColor(p) != GreyColor <==> PriorityText(p).Text?)
    ensures PriorityColor(Str("medium")) == PriorityMediumColor && PriorityText(Str("medium")).Raw?
  {
    if p.Num? {
      PriorityColorOfNumber(p.n);
    }
    assert ToLower("medium") == "medium";
  }

  // ----- the ticket list -----

  predicate IsOpen(t: Ticket)
  {
    t.status == Num(2) || t.status == Str("Open")
  }

  /** `tickets.filter((t) => t.status === 2 || t.status === "Open").length`. */
  function OpenCount(tickets: seq<Ticket>): (n: nat)
    ensures n <= |tickets|
  {
    if tickets == [] then 0 else (if IsOpen(tickets[0]) then 1 else 0) + OpenCount(tickets[1..])
  }

  lemma {:induction false} OpenCountAppend(a: seq<Ticket>, b: seq<Ticket>)
    ensures OpenCount(a + b) == OpenCount(a) + OpenCount(b)
    decreases |a|
  {
    if a != [] {
      assert (a + b)[1..] == a[1..] + b;
      OpenCountAppend(a[1..], b);
    } else {
      assert a + b == b;
    }
  }

  /** The count is the whole list exactly when every ticket is open, and zero
      exactly when none is. */
  lemma {:induction false} OpenCountExtremes(tickets: seq<Ticket>)
    ensures OpenCount(tickets) == |tickets| <==> forall i :: 0 <= i < |tickets| ==> IsOpen(tickets[i])
    ensures OpenCount(tickets) == 0 <==> forall i :: 0 <= i < |tickets| ==> !IsOpen(tickets[i])
    decreases |tickets|
  {
    if tickets != [] {
      OpenCountExtremes(tickets[1..]);
      assert forall i :: 1 <= i < |tickets| ==> tickets[i] == tickets[1..][i - 1];
    }
  }

  /** The requester shown in a row: `requester_name || requester_id || "Unknown"`. */
  function RequesterShown(t: Ticket): Shown
  {
    if Truthy(t.requesterName) then Text(t.requesterName.value)
    else if TruthyNum(t.requesterId) then Raw(Num(t.requesterId.value))
    else Text(UnknownRequester)
  }

  /** The shown requester is never blank: a name, a non-zero id, or "Unknown". */
  lemma RequesterNeverBlank(t: Ticket)
    ensures RequesterShown(t) != Text("")
    ensures RequesterShown(t).Raw? ==> RequesterShown(t).value.Num? && RequesterShown(t).value.n != 0
    ensures !Truthy(t.requesterName) && !TruthyNum(t.requesterId) ==> RequesterShown(t) == Text(UnknownRequester)
  {
  }

  /** The per-ticket enrichment step: a successful contact response writes the
      contact's e-mail and name (null when falsy); any other response leaves
      the ticket alone; a thrown lookup clears both and empties `conversations`. */
  function Enrich(t: Ticket, call: Call<Envelope<Contact>>): (r: Ticket)
    ensures r.id == t.id && r.subject == t.subject && r.status == t.status
    ensures r.priority == t.priority && r.source == t.source && r.requesterId == t.requesterId
    ensures call.Threw? ==> r.requesterEmail == None && r.requesterName == None && r.conversations == Some([])
  {
    match call
    case Threw => t.(requesterEmail := None, requesterName := None, conversations := Some([]))
    case Returned(res) =>
      if res.success then WithRequester(t, if res.data.Some? then res.data.value else Contact(None, None))
      else t
  }

  /** Enrichment through the gateway, stated on the transport outcome: the
      catch branch is never taken (the gateway never throws); a returned
      contact sets both fields, never to an empty string; a failed lookup
      changes nothing. Applying the same answer twice changes nothing more. */
  lemma EnrichThroughGateway(t: Ticket, reply: Transport<Contact>)
    ensures var r := Enrich(t, Returned(Request(reply)));
      && r.conversations == t.conversations
      && (reply.Err? ==> r == t)
      && (reply.Ok? && reply.body.Some? ==>
            r.requesterEmail == OrNull(reply.body.value.email) && r.requesterName == OrNull(reply.body.value.name))
      && (reply.Ok? && reply.body.None? ==> r.requesterEmail == None && r.requesterName == None)
      && (reply.Ok? ==> r.requesterEmail != Some("") && r.requesterName != Some(""))
      && Enrich(r, Returned(Request(reply))) == r
  {
  }

  /** After a successful lookup of a contact with a name, the row shows that name. */
  lemma EnrichedRowShowsContactName(t: Ticket, c: Contact)
    requires Truthy(c.name)
    ensures RequesterShown(Enrich(t, Returned(Request(Ok(Some(c)))))) == Text(c.name.value)
  {
  }

  class DashboardState {
    var configs: Configs
    var tickets: seq<Ticket>
    var webhookLogs: seq<WebhookLog>
    var isLoading: bool
    var selectedTicketId: Option<string>
    var isTicketModalOpen: bool

    constructor (configs0: Configs)
      ensures configs == configs0 && tickets == [] && webhookLogs == []
      ensures !isLoading && selectedTicketId == None && !isTicketModalOpen
    {
      configs := configs0;
      tickets := [];
      webhookLogs := [];
      isLoading := false;
      selectedTicketId := None;
      isTicketModalOpen := false;
    }

    /** `loadTickets`: a successful fetch publishes its list (or [] for a
        null body) at once, before any enrichment; a failed fetch leaves the
        list as it was and raises nothing. */
    method LoadTickets(reply: Transport<seq<Ticket>>)
      modifies this
      ensures reply.Ok? ==> tickets == (if reply.body.Some? then reply.body.value else [])
      ensures reply.Err? ==> tickets == old(tickets)
      ensures configs == old(configs) && webhookLogs == old(webhookLogs) && isLoading == old(isLoading)
      ensures selectedTicketId == old(selectedTicketId) && isTicketModalOpen == old(isTicketModalOpen)
    {
      var res := Request(reply);
      if res.success {
        tickets := if res.data.Some? then res.data.value else [];
      }
    }

    /** The completion of one ticket's fire-and-forget enrichment: it updates
        that ticket of the published list in place and nothing else. */
    method EnrichmentSettled(i: nat, call: Call<Envelope<Contact>>)
      requires i < |tickets|
      modifies this
      ensures tickets == old(tickets)[i := Enrich(old(tickets)[i], call)]
      ensures OpenCount(tickets) == OpenCount(old(tickets))
      ensures configs == old(configs) && webhookLogs == old(webhookLogs) && isLoading == old(isLoading)
      ensures selectedTicketId == old(selectedTicketId) && isTicketModalOpen == old(isTicketModalOpen)
    {
      var before := tickets;
      tickets := tickets[i := Enrich(tickets[i], call)];
      assert before == before[..i] + [before[i]] + before[i + 1..];
      assert tickets == before[..i] + [tickets[i]] + before[i + 1..];
      OpenCountAppend(before[..i] + [before[i]], before[i + 1..]);
      OpenCountAppend(before[..i], [before[i]]);
      OpenCountAppend(before[..i] + [tickets[i]], before[i + 1..]);
      OpenCountAppend(before[..i], [tickets[i]]);
    }

    /** `loadWebhookLogs`: a successful fetch replaces the logs (or [] for a
        null body); a failed one leaves them alone. */
    method LoadWebhookLogs(reply: Transport<seq<WebhookLog>>)
      modifies this
      ensures reply.Ok? ==> webhookLogs == (if reply.body.Some? then reply.body.value else [])
      ensures reply.Err? ==> webhookLogs == old(webhookLogs)
      ensures configs == old(configs) && tickets == old(tickets) && isLoading == old(isLoading)
      ensures selectedTicketId == old(selectedTicketId) && isTicketModalOpen == old(isTicketModalOpen)
    {
      var res := Request(reply);
      if res.success {
        webhookLogs := if res.data.Some? then res.data.value else [];
      }
    }

    /** The configuration effect: tickets and webhook logs load only when
        Freshdesk is configured; the loading flag ends false after a load. */
    method ConfiguredEffect(ticketsReply: Transport<seq<Ticket>>, logsReply: Transport<seq<WebhookLog>>)
      modifies this
      ensures !IsConfigured(configs) ==> tickets == old(tickets) && webhookLogs == old(webhookLogs) && isLoading == old(isLoading)
      ensures IsConfigured(configs) && ticketsReply.Ok? ==>
        tickets == (if ticketsReply.body.Some? then ticketsReply.body.value else [])
      ensures IsConfigured(configs) && logsReply.Ok? ==>
        webhookLogs == (if logsReply.body.Some? then logsReply.body.value else [])
      ensures ticketsReply.Err? ==> tickets == old(tickets)
      ensures logsReply.Err? ==> webhookLogs == old(webhookLogs)
      ensures IsConfigured(configs) ==> !isLoading
      ensures configs == old(configs)
      ensures selectedTicketId == old(selectedTicketId) && isTicketModalOpen == old(isTicketModalOpen)
    {
      if IsConfigured(configs) {
        isLoading := true;
        LoadTickets(ticketsReply);
        LoadWebhookLogs(logsReply);
        isLoading := false;
      }
    }

    /** `handleTicketClick`: select the ticket and open the modal. */
    method HandleTicketClick(ticketId: string)
      modifies this
      ensures selectedTicketId == Some(ticketId) && isTicketModalOpen
      ensures configs == old(configs) && tickets == old(tickets) && webhookLogs == old(webhookLogs) && isLoading == old(isLoading)
    {
      selectedTicketId := Some(ticketId);
      isTicketModalOpen := true;
    }

    /** `handleCloseTicketModal`: close the modal and clear the selection. */
    method HandleCloseTicketModal()
      modifies this
      ensures selectedTicketId == None && !isTicketModalOpen
      ensures configs == old(configs) && tickets == old(tickets) && webhookLogs == old(webhookLogs) && isLoading == old(isLoading)
    {
      isTicketModalOpen := false;
      selectedTicketId := None;
    }
  }
}
