/**
 * The backend's outreach agent (backend/agents/outreach_agent.py): a supplier is
 * phoned when asked to and it has a phone, emailed when it has an email, and
 * approached on social media otherwise; every simulated contact ends positively.
 */
module OutreachAgent {
  import opened Wrappers

  /** The contact details `handle_supplier_contact` reads. */
  datatype Contact = Contact(name: string, email: Option<string>, phone: Option<string>)

  /** Python truthiness of an optional text: present and not empty. */
  predicate Truthy(o: Option<string>) {
    o.Some? && o.value != ""
  }

  datatype Channel = Phone | Email | SocialMedia

  /**
   * The dispatch: phone exactly when asked to and a phone is given; otherwise email
   * exactly when an email is given; social media for the rest.
   */
  function ChannelFor(supplier: Contact, hasPhone: bool): (c: Channel)
    ensures c == Phone <==> hasPhone && Truthy(supplier.phone)
    ensures c == Email <==> !(hasPhone && Truthy(supplier.phone)) && Truthy(supplier.email)
    ensures c == SocialMedia <==> !(hasPhone && Truthy(supplier.phone)) && !Truthy(supplier.email)
  {
    if hasPhone && Truthy(supplier.phone) then Phone
    else if Truthy(supplier.email) then Email
    else SocialMedia
  }

  /** `_simulate_email_response`: the notes one is drawn from; a response always comes. */
  const EmailResponses: seq<string> := [
    "Supplier responded positively and is interested in the opportunity",
    "Supplier responded with questions about requirements and pricing",
    "Supplier expressed interest and requested more information",
    "Supplier responded and is available for further discussion"
  ]

  /** `_simulate_call_outcome`: the (outcome, notes) pairs one is drawn from. */
  const CallOutcomes: seq<(string, string)> := [
    ("answered_interested", "Supplier answered and expressed strong interest in the opportunity"),
    ("answered_interested", "Supplier answered, interested and ready to proceed")
  ]

  /** What a contact reports (the generated email, script and strategy texts are left out). */
  datatype ContactResult =
    | EmailContact(contactedAt: string, responseReceived: bool, responseNotes: string)
    | PhoneContact(contactedAt: string, callOutcome: string, notes: string)
    | SocialMediaContact(contactedAt: string, automatedRemindersScheduled: bool)

  /**
   * `handle_supplier_contact` with the clock reading `now` and the indexes of the
   * canned email response and call outcome drawn: the result's kind follows the channel; an email is always
   * answered, a call always ends "answered_interested", and social media always
   * schedules reminders.
   */
  function HandleSupplierContact(supplier: Contact, hasPhone: bool, now: string,
                                 responseDraw: nat, callDraw: nat): (r: ContactResult)
    requires responseDraw < |EmailResponses| && callDraw < |CallOutcomes|
    ensures r.PhoneContact? <==> ChannelFor(supplier, hasPhone) == Phone
    ensures r.EmailContact? <==> ChannelFor(supplier, hasPhone) == Email
    ensures r.SocialMediaContact? <==> ChannelFor(supplier, hasPhone) == SocialMedia
    ensures r.contactedAt == now
    ensures r.EmailContact? ==> r.responseReceived && r.responseNotes in EmailResponses
    ensures r.PhoneContact? ==> r.callOutcome == "answered_interested"
    ensures r.SocialMediaContact? ==> r.automatedRemindersScheduled
  {
    match ChannelFor(supplier, hasPhone)
    case Phone => PhoneContact(now, CallOutcomes[callDraw].0, CallOutcomes[callDraw].1)
    case Email => EmailContact(now, true, EmailResponses[responseDraw])
    case SocialMedia => SocialMediaContact(now, true)
  }

  /** What `manage_sampling_followups` reports (the letter itself is left out). */
  datatype Followup = Followup(followupSent: bool, inquiries: map<string, string>, sentAt: string)

  /** `manage_sampling_followups`: always sent, asking about quantity, address and price. */
  function ManageSamplingFollowups(supplier: Contact, now: string): (f: Followup)
    ensures f.followupSent
    ensures f.inquiries.Keys == {"quantity", "address", "price"}
    ensures f.sentAt == now
  {
    Followup(true, map[
      "quantity" := "Requested detailed quantity information and delivery schedule",
      "address" := "Requested delivery address details and logistics requirements",
      "price" := "Requested comprehensive pricing information including volume discounts"], now)
  }
}
