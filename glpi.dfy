/**
 * The records the migration reads and writes, the events it causes, and the
 * environment that stands for both ticketing-system APIs.
 */
module Glpi {
  import opened Wrappers
  import opened Links

  /** A scalar field value as it appears in the APIs' JSON. */
  datatype JsonValue = Null | Bool(b: bool) | Num(n: int) | Str(s: string)

  /**
   * A source ticket. The fields the migration decides on are typed; the other
   * projected fields travel in `attrs` under their API names. `requester` is the
   * transient `_users_id_requester` the migration sets. A user id of 0 also
   * stands for a missing one.
   */
  datatype Ticket = Ticket(
    id: int,
    status: int,
    users_id_recipient: int,
    users_id_lastupdater: int,
    requester: Option<int>,
    links: seq<Link>,
    attrs: map<string, JsonValue>)

  /** The destination's ticket-creation envelope (`{input: {...}}`). */
  datatype TicketPayload = TicketPayload(
    id: int,
    status: int,
    users_id_recipient: int,
    users_id_lastupdater: int,
    fields: map<string, JsonValue>,
    links: seq<Link>)

  /** The projected ticket fields other than the typed ones, by their API names. */
  const PassThroughFields: set<string> := {
    "entities_id", "name", "date", "closedate", "solvedate", "takeintoaccountdate",
    "date_mod", "requesttypes_id", "content", "urgency", "impact", "priority",
    "itilcategories_id", "type", "global_validation", "slas_id_ttr", "slas_id_tto",
    "slalevels_id_ttr", "time_to_resolve", "time_to_own", "begin_waiting_date",
    "sla_waiting_duration", "ola_waiting_duration", "olas_id_tto", "olas_id_ttr",
    "olalevels_id_ttr", "ola_ttr_begin_date", "internal_time_to_resolve",
    "internal_time_to_own", "waiting_duration", "close_delay_stat", "solve_delay_stat",
    "takeintoaccount_delay_stat", "actiontime", "is_deleted", "locations_id",
    "validation_percent", "date_creation"}

  /** A ticket participant (`Ticket_User`), with the e-mail attached during enrichment. */
  datatype TicketUser = TicketUser(users_id: int, kind: int, use_notification: int, email: Option<string>)

  /** The participant-creation envelope: every field stringified. */
  datatype TicketUserPayload = TicketUserPayload(
    tickets_id: string, users_id: string, kind: string, use_notification: string)

  /** A follow-up (`ITILFollowup`); `requesttypes_id` 0 also stands for a missing one. */
  datatype Followup = Followup(
    date: string, users_id: int, items_id: int, is_private: int,
    requesttypes_id: int, content: string, links: seq<Link>)

  /** The follow-up-creation envelope. */
  datatype FollowupPayload = FollowupPayload(
    date: string, users_id: int, tickets_id: string, is_private: int,
    requesttypes_id: int, content: string)

  /** One effect of the run: a request to either API, or an entry in the error log. */
  datatype Event =
    | GetTicketPage(rangeStart: int, rangeEnd: int)          // GET Ticket?range=start-end
    | GetUserEmail(userId: int)                              // GET User/{id}/UserEmail
    | GetTicketUsers(ticketId: int)                          // GET Ticket/{id}/Ticket_User
    | GetFollowups(ticketId: int)                            // GET Ticket/{id}/ITILFollowup
    | PostTicket(ticket: TicketPayload)                      // POST Ticket
    | PostTicketUser(ticketId: int, user: TicketUserPayload) // POST Ticket/{id}/Ticket_User
    | PostFollowup(ticketId: int, followup: FollowupPayload) // POST Ticket/{id}/TicketFollowup
    | WriteFailed(ticketId: int)                             // logError for a failed ticket write

  /** A write to the destination system. */
  predicate IsWrite(e: Event)
  {
    e.PostTicket? || e.PostTicketUser? || e.PostFollowup?
  }

  predicate NoWrites(trace: seq<Event>)
  {
    forall i :: 0 <= i < |trace| ==> !IsWrite(trace[i])
  }

  /**
   * What the two APIs answer. A request whose key is missing throws. `userEmails`
   * holds the e-mail records a user-email request returns (possibly none).
   * A POST throws exactly when it is in `failingWrites`.
   */
  datatype Env = Env(
    sourceSessionOk: bool,
    destSessionOk: bool,
    pages: map<(int, int), seq<Ticket>>,
    userEmails: map<int, seq<string>>,
    ticketUsers: map<int, seq<TicketUser>>,
    followups: map<int, seq<Followup>>,
    failingWrites: set<Event>)

  /** `response.data[0]?.email`: the first e-mail record, if there is one. */
  function FirstEmail(records: seq<string>): Option<string>
  {
    if |records| > 0 then Some(records[0]) else None
  }
}
