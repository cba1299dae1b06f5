/** The records the portal exchanges with its backend. Only the fields that
    some decision rule reads or writes are kept. */
module Entities {
  import opened Common

  /** The three integration credentials; "" means unset. */
  datatype Configs = Configs(freshdeskApiKey: string, freshdeskDomain: string, hubspotToken: string)

  const EmptyConfigs := Configs("", "", "")

  /** Freshdesk counts as configured when both of its fields are non-empty
      (`configs.freshdeskApiKey && configs.freshdeskDomain`). */
  predicate IsConfigured(c: Configs)
    ensures IsConfigured(c) ==> c != EmptyConfigs
    ensures c.freshdeskApiKey == "" || c.freshdeskDomain == "" ==> !IsConfigured(c)
  {
    c.freshdeskApiKey != "" && c.freshdeskDomain != ""
  }

  /** The signed-in user. The object the session probe returns also carries the
      three credential fields, which the application adopts as its configs. */
  datatype User = User(name: string, email: string, configs: Configs)

  /** One message of a ticket thread; a falsy `userId` marks the customer. */
  datatype Conversation = Conversation(id: int, userId: Option<int>, fromEmail: Option<string>, bodyText: string)

  /** A Freshdesk ticket. `requesterName`, `requesterEmail` and `conversations`
      are not sent by Freshdesk; the client adds them during enrichment. */
  datatype Ticket = Ticket(
    id: int,
    subject: string,
    status: Scalar,
    priority: Scalar,
    source: Option<int>,
    requesterId: Option<int>,
    requesterName: Option<string>,
    requesterEmail: Option<string>,
    conversations: Option<seq<Conversation>>)

  /** A Freshdesk contact (the requester of a ticket). */
  datatype Contact = Contact(name: Option<string>, email: Option<string>)

  /** The ticket with the contact's name and e-mail written over the requester
      fields, each null when falsy (`contact.name || null`). */
  function WithRequester(t: Ticket, c: Contact): (r: Ticket)
    ensures r.requesterName == OrNull(c.name) && r.requesterEmail == OrNull(c.email)
    ensures r.(requesterName := t.requesterName, requesterEmail := t.requesterEmail) == t
  {
    t.(requesterName := OrNull(c.name), requesterEmail := OrNull(c.email))
  }

  /** A HubSpot contact found by e-mail address. */
  datatype HubSpotContact = HubSpotContact(id: int, email: string, name: string)

  datatype WebhookLog = WebhookLog(id: string, timestamp: string, kind: string, source: string)
}
