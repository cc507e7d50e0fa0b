/** The pipeline orchestrator `transferTickets`: sessions, the page loop, the status filter, the per-ticket remapping. */
module Transfer {
  import opened Wrappers
  import opened Configuration
  import opened Identity
  import opened Glpi
  import opened Transform
  import opened Enrich
  import opened Writer
  import opened Decimal

  /** The statuses the ticket filter lets through (`[0,1,2,3,4,5].includes(ticket.status)`). */
  const AllowedStatuses: set<int> := {0, 1, 2, 3, 4, 5}

  /** `Aborted`: an exception left the loops and was caught by the outermost handler, ending the run. */
  datatype Outcome = Completed | Aborted

  /** The effects of a stretch of the run and how it ended. */
  datatype Step = Step(trace: seq<Event>, outcome: Outcome)

  function Prepend(prefix: seq<Event>, s: Step): Step
  {
    Step(prefix + s.trace, s.outcome)
  }

  /** The inclusive range of page `i`: `i*batchSize .. (i+1)*batchSize - 1`. */
  function PageRange(batchSize: int, i: int): (r: (int, int))
    ensures r.1 - r.0 == batchSize - 1
    ensures batchSize > 0 && i >= 0 ==> r.0 >= 0
  {
    (i * batchSize, (i + 1) * batchSize - 1)
  }

  /** The resolved id of a user's first e-mail record (`getUserId(data[0]?.email)`). */
  function ResolvedUserId(cfg: Config, env: Env, userId: int): int
    requires userId in env.userEmails
  {
    GetUserId(cfg, FirstEmail(env.userEmails[userId]))
  }

  /** The ticket as written once admitted: requester and recipient both the recipient's new id, updater remapped. */
  function Remapped(t: Ticket, recipientId: int, updaterId: int): Ticket
  {
    t.(requester := Some(recipientId), users_id_recipient := recipientId, users_id_lastupdater := updaterId)
  }

  /** One pass of the ticket loop body. */
  function ProcessTicket(cfg: Config, env: Env, t: Ticket): (r: Step)
    ensures r.trace == [] <==> t.status !in AllowedStatuses || t.users_id_recipient == 0
    ensures r.outcome == Aborted ==> t.status in AllowedStatuses && t.users_id_recipient != 0
  {
    if t.status !in AllowedStatuses then Step([], Completed)
    else if t.users_id_recipient == 0 then Step([], Completed)
    else
      var recipient := t.users_id_recipient;
      var recipientFetch := [GetUserEmail(recipient)];
      if recipient !in env.userEmails then Step(recipientFetch, Aborted)
      else if t.users_id_lastupdater == 0 then Step(recipientFetch, Completed)
      else
        var updater := t.users_id_lastupdater;
        var fetches := recipientFetch + [GetUserEmail(updater)];
        if updater !in env.userEmails then Step(fetches, Aborted)
        else
          var ticket := Remapped(t, ResolvedUserId(cfg, env, recipient), ResolvedUserId(cfg, env, updater));
          var fetched := TicketDetails(cfg, env, t.id);
          if fetched.details.None? then Step(fetches + fetched.trace, Aborted)
          else
            var details := fetched.details.value;
            Step(fetches + fetched.trace + AddTicket(cfg, env, ticket, details.ticketUsers, details.followups), Completed)
  }

  /** The ticket loop over one page, left early when a ticket aborts the run. */
  function ProcessTickets(cfg: Config, env: Env, tickets: seq<Ticket>): (r: Step)
    decreases |tickets|
    ensures r.outcome == Completed <==>
      forall i :: 0 <= i < |tickets| ==> ProcessTicket(cfg, env, tickets[i]).outcome == Completed
  {
    if tickets == [] then Step([], Completed)
    else
      var first := ProcessTicket(cfg, env, tickets[0]);
      if first.outcome == Aborted then first
      else Prepend(first.trace, ProcessTickets(cfg, env, tickets[1..]))
  }

  /** The page loop from page `i` on: at most `batchSize` pages, ending after the first short page. */
  function Pages(cfg: Config, env: Env, i: nat): (r: Step)
    decreases if i < cfg.batchSize then cfg.batchSize - i else 0
    ensures i < cfg.batchSize ==>
      |r.trace| > 0 && r.trace[0] == GetTicketPage(PageRange(cfg.batchSize, i).0, PageRange(cfg.batchSize, i).1)
  {
    if i >= cfg.batchSize then Step([], Completed)
    else
      var range := PageRange(cfg.batchSize, i);
      var request := [GetTicketPage(range.0, range.1)];
      if range !in env.pages then Step(request, Aborted)
      else
        var tickets := env.pages[range];
        var page := ProcessTickets(cfg, env, tickets);
        if page.outcome == Aborted then Step(request + page.trace, Aborted)
        else if |tickets| < cfg.batchSize then Step(request + page.trace, Completed)
        else Prepend(request + page.trace, Pages(cfg, env, i + 1))
  }

  /** The whole run: both sessions, then the page loop. */
  function TransferRun(cfg: Config, env: Env): (r: Step)
    ensures r.outcome == Completed || r.trace != [] ==> env.sourceSessionOk && env.destSessionOk
    ensures r.trace != [] ==> r.trace[0] == GetTicketPage(0, cfg.batchSize - 1)
  {
    if !env.sourceSessionOk || !env.destSessionOk then Step([], Aborted)
    else Pages(cfg, env, 0)
  }

  /**
   * The body of the ticket loop: the status filter, the recipient and updater
   * checks and remapping, then enrichment and the writes.
   */
  method MigrateTicket(cfg: Config, env: Env, t: Ticket) returns (events: seq<Event>, outcome: Outcome)
    ensures Step(events, outcome) == ProcessTicket(cfg, env, t)
  {
    events := [];
    if t.status !in AllowedStatuses {
      return events, Completed;
    }
    var oldRecipient := t.users_id_recipient;
    if oldRecipient == 0 {
      // skipped with a warning
      return events, Completed;
    }
    events := [GetUserEmail(oldRecipient)];
    if oldRecipient !in env.userEmails {
      // the request throws; only the outermost handler catches it
      return events, Aborted;
    }
    var newUserId := GetUserId(cfg, FirstEmail(env.userEmails[oldRecipient]));
    var ticket := t;
    ticket := ticket.(requester := Some(newUserId));
    ticket := ticket.(users_id_recipient := newUserId);
    var oldUpdater := ticket.users_id_lastupdater;
    if oldUpdater == 0 {
      // skipped with a warning
      return events, Completed;
    }
    events := events + [GetUserEmail(oldUpdater)];
    if oldUpdater !in env.userEmails {
      return events, Aborted;
    }
    var newUpdaterId := GetUserId(cfg, FirstEmail(env.userEmails[oldUpdater]));
    ticket := ticket.(users_id_lastupdater := newUpdaterId);
    var detailEvents, details := FetchTicketDetails(cfg, env, ticket.id);
    assert ticket.id == t.id;
    events := events + detailEvents;
    if details.None? {
      return events, Aborted;
    }
    assert ticket == Remapped(t, ResolvedUserId(cfg, env, oldRecipient), ResolvedUserId(cfg, env, oldUpdater));
    var writeEvents := AddTicketToNewGLPI(cfg, env, ticket, details.value.ticketUsers, details.value.followups);
    events := events + writeEvents;
    outcome := Completed;
  }


  /** The ticket loop over one page (`for (let ticket of tickets)`). */
  method MigrateTickets(cfg: Config, env: Env, tickets: seq<Ticket>) returns (pageTrace: seq<Event>, outcome: Outcome)
    ensures Step(pageTrace, outcome) == ProcessTickets(cfg, env, tickets)
  {
    pageTrace := [];
    for j := 0 to |tickets|
      invariant ProcessTickets(cfg, env, tickets) == Prepend(pageTrace, ProcessTickets(cfg, env, tickets[j..]))
    {
      ProcessTicketsStep(cfg, env, tickets, j);
      var events, ticketOutcome := MigrateTicket(cfg, env, tickets[j]);
      PrependPrepend(pageTrace, events, ProcessTickets(cfg, env, tickets[j + 1..]));
      pageTrace := pageTrace + events;
      if ticketOutcome == Aborted {
        return pageTrace, Aborted;
      }
    }
    assert tickets[|tickets|..] == [];
    outcome := Completed;
  }

  lemma ProcessTicketsStep(cfg: Config, env: Env, tickets: seq<Ticket>, j: nat)
    requires j < |tickets|
    ensures var first := ProcessTicket(cfg, env, tickets[j]);
      ProcessTickets(cfg, env, tickets[j..]) ==
        if first.outcome == Aborted then first
        else Prepend(first.trace, ProcessTickets(cfg, env, tickets[j + 1..]))
  {
    assert tickets[j..][0] == tickets[j] && tickets[j..][1..] == tickets[j + 1..];
  }

  lemma PrependPrepend(first: seq<Event>, second: seq<Event>, s: Step)
    ensures Prepend(first, Prepend(second, s)) == Prepend(first + second, s)
  {
    assert first + (second + s.trace) == (first + second) + s.trace;
  }

  /** `transferTickets`: opens both sessions, then pages through the source tickets. */
  method TransferTickets(cfg: Config, env: Env) returns (trace: seq<Event>, outcome: Outcome)
    ensures Step(trace, outcome) == TransferRun(cfg, env)
  {
    trace := [];
    if !env.sourceSessionOk || !env.destSessionOk {
      return trace, Aborted;
    }
    var i: nat := 0;
    while i < cfg.batchSize
      invariant Pages(cfg, env, 0) == Prepend(trace, Pages(cfg, env, i))
      decreases cfg.batchSize - i
    {
      var range := PageRange(cfg.batchSize, i);
      var request := [GetTicketPage(range.0, range.1)];
      if range !in env.pages {
        return trace + request, Aborted;
      }
      var tickets := env.pages[range];
      var pageTrace, pageOutcome := MigrateTickets(cfg, env, tickets);
      PagesStep(cfg, env, i);
      PrependPrepend(trace, request + pageTrace, Pages(cfg, env, i + 1));
      trace := trace + (request + pageTrace);
      if pageOutcome == Aborted {
        return trace, Aborted;
      }
      if |tickets| < cfg.batchSize {
        // the short page was the last one
        break;
      }
      i := i + 1;
    }
    assert trace + [] == trace;
    outcome := Completed;
  }

  /** One pass of the page loop, with the ticket loop left folded. */
  lemma PagesStep(cfg: Config, env: Env, i: nat)
    requires i < cfg.batchSize && PageRange(cfg.batchSize, i) in env.pages
    ensures var range := PageRange(cfg.batchSize, i);
      var request := [GetTicketPage(range.0, range.1)];
      var tickets := env.pages[range];
      var page := ProcessTickets(cfg, env, tickets);
      Pages(cfg, env, i) ==
        if page.outcome == Aborted then Step(request + page.trace, Aborted)
        else if |tickets| < cfg.batchSize then Step(request + page.trace, Completed)
        else Prepend(request + page.trace, Pages(cfg, env, i + 1))
  {
  }

  /** A ticket the loop body takes all the way to the writer: allowed status, both ids set, every fetch answered. */
  predicate Admitted(env: Env, t: Ticket)
  {
    && t.status in AllowedStatuses
    && t.users_id_recipient != 0 && t.users_id_recipient in env.userEmails
    && t.users_id_lastupdater != 0 && t.users_id_lastupdater in env.userEmails
    && t.id in env.ticketUsers
  }

  /** A ticket outside the status filter, or without a recipient id, causes no request and no write. */
  lemma SkippedTicketCausesNothing(cfg: Config, env: Env, t: Ticket)
    requires t.status !in AllowedStatuses || t.users_id_recipient == 0
    ensures ProcessTicket(cfg, env, t) == Step([], Completed)
  {
  }

  /** A ticket without a last-updater id is skipped after its recipient's e-mail request: nothing is written. */
  lemma MissingUpdaterWritesNothing(cfg: Config, env: Env, t: Ticket)
    requires t.status in AllowedStatuses && t.users_id_recipient != 0 && t.users_id_recipient in env.userEmails
    requires t.users_id_lastupdater == 0
    ensures ProcessTicket(cfg, env, t) == Step([GetUserEmail(t.users_id_recipient)], Completed)
  {
  }

  /**
   * A pass whose two user lookups succeed: the two e-mail requests and the
   * enrichment's requests, then the ticket's writes when enrichment returned.
   */
  lemma ProcessTicketLookedUp(cfg: Config, env: Env, t: Ticket)
    requires t.status in AllowedStatuses
    requires t.users_id_recipient != 0 && t.users_id_recipient in env.userEmails
    requires t.users_id_lastupdater != 0 && t.users_id_lastupdater in env.userEmails
    ensures var fetched := TicketDetails(cfg, env, t.id);
      var sourceReads := [GetUserEmail(t.users_id_recipient), GetUserEmail(t.users_id_lastupdater)] + fetched.trace;
      var ticket := Remapped(t, ResolvedUserId(cfg, env, t.users_id_recipient), ResolvedUserId(cfg, env, t.users_id_lastupdater));
      ProcessTicket(cfg, env, t) ==
        if fetched.details.None? then Step(sourceReads, Aborted)
        else Step(sourceReads + AddTicket(cfg, env, ticket, fetched.details.value.ticketUsers, fetched.details.value.followups), Completed)
  {
    assert [GetUserEmail(t.users_id_recipient)] + [GetUserEmail(t.users_id_lastupdater)]
        == [GetUserEmail(t.users_id_recipient), GetUserEmail(t.users_id_lastupdater)];
  }

  /** Every event of one pass of the loop body is a user-e-mail request, an enrichment read, a write or an error entry. */
  lemma {:induction false} TicketEvents(cfg: Config, env: Env, t: Ticket)
    ensures var trace := ProcessTicket(cfg, env, t).trace;
      forall k :: 0 <= k < |trace| ==>
        IsDetailRead(trace[k]) || IsWrite(trace[k]) || trace[k] == WriteFailed(t.id)
  {
    if t.status in AllowedStatuses && t.users_id_recipient != 0 && t.users_id_recipient in env.userEmails
       && t.users_id_lastupdater != 0 && t.users_id_lastupdater in env.userEmails {
      var fetches := [GetUserEmail(t.users_id_recipient), GetUserEmail(t.users_id_lastupdater)];
      var fetched := TicketDetails(cfg, env, t.id);
      DetailsFetchOnlyReads(cfg, env, t.id);
      var sourceReads := fetches + fetched.trace;
      assert forall k :: 0 <= k < |sourceReads| ==> IsDetailRead(sourceReads[k]);
      if fetched.details.Some? {
        var ticket := Remapped(t, ResolvedUserId(cfg, env, t.users_id_recipient), ResolvedUserId(cfg, env, t.users_id_lastupdater));
        var details := fetched.details.value;
        var writes := AddTicket(cfg, env, ticket, details.ticketUsers, details.followups);
        AddTicketOnlyWrites(cfg, env, ticket, details.ticketUsers, details.followups);
        ProcessTicketLookedUp(cfg, env, t);
        var trace := sourceReads + writes;
        forall k | 0 <= k < |trace|
          ensures IsDetailRead(trace[k]) || IsWrite(trace[k]) || trace[k] == WriteFailed(t.id)
        {
          if k < |sourceReads| {
            assert trace[k] == sourceReads[k];
          } else {
            assert trace[k] == writes[k - |sourceReads|];
          }
        }
      }
    }
  }

  /** A ticket that is not admitted writes nothing; so does one whose pass aborts the run. */
  lemma {:induction false} WritesOnlyForAdmittedTickets(cfg: Config, env: Env, t: Ticket)
    ensures var r := ProcessTicket(cfg, env, t);
      && (!Admitted(env, t) ==> NoWrites(r.trace))
      && (r.outcome == Aborted ==> NoWrites(r.trace))
  {
    if t.status in AllowedStatuses && t.users_id_recipient != 0 && t.users_id_recipient in env.userEmails
       && t.users_id_lastupdater != 0 && t.users_id_lastupdater in env.userEmails {
      var fetches := [GetUserEmail(t.users_id_recipient), GetUserEmail(t.users_id_lastupdater)];
      var fetched := TicketDetails(cfg, env, t.id);
      DetailsFetchOnlyReads(cfg, env, t.id);
      var sourceReads := fetches + fetched.trace;
      assert forall k :: 0 <= k < |sourceReads| ==> IsDetailRead(sourceReads[k]);
    }
  }

  /**
   * An admitted ticket completes, and its creation request is the first write,
   * issued right after the two e-mail requests and the enrichment's requests.
   * The request carries the recipient's resolved id as recipient and the
   * updater's resolved id as last updater. The ticket handed to the writer
   * (`Remapped`) also has the recipient's resolved id as requester.
   */
  lemma {:induction false} AdmittedTicketIsWritten(cfg: Config, env: Env, t: Ticket)
    requires Admitted(env, t)
    ensures var recipientId := GetUserId(cfg, FirstEmail(env.userEmails[t.users_id_recipient]));
      var updaterId := GetUserId(cfg, FirstEmail(env.userEmails[t.users_id_lastupdater]));
      var ticket := Remapped(t, recipientId, updaterId);
      var p := TransformToNewFormat(cfg, ticket);
      var r := ProcessTicket(cfg, env, t);
      && r.outcome == Completed
      && ticket.requester == Some(recipientId)
      && p.users_id_recipient == recipientId && p.users_id_lastupdater == updaterId
      && p.id == t.id && p.status == t.status
      && PostTicket(p) in r.trace
      && |r.trace| > 2 + |TicketDetails(cfg, env, t.id).trace|
      && r.trace[2 + |TicketDetails(cfg, env, t.id).trace|] == PostTicket(p)
  {
    var ticket := Remapped(t, ResolvedUserId(cfg, env, t.users_id_recipient), ResolvedUserId(cfg, env, t.users_id_lastupdater));
    var fetched := TicketDetails(cfg, env, t.id);
    var details := fetched.details.value;
    var writes := AddTicket(cfg, env, ticket, details.ticketUsers, details.followups);
    AddTicketOnlyWrites(cfg, env, ticket, details.ticketUsers, details.followups);
    var sourceReads := [GetUserEmail(t.users_id_recipient), GetUserEmail(t.users_id_lastupdater)] + fetched.trace;
    ProcessTicketLookedUp(cfg, env, t);
    assert (sourceReads + writes)[|sourceReads|] == writes[0];
  }

  /** The ticket-page requests of a trace, in order. */
  function PageRequests(trace: seq<Event>): seq<Event>
  {
    if trace == [] then [] else PageRequestOf(trace[0]) + PageRequests(trace[1..])
  }

  function PageRequestOf(e: Event): seq<Event>
  {
    if e.GetTicketPage? then [e] else []
  }

  lemma {:induction false} PageRequestsAppend(a: seq<Event>, b: seq<Event>)
    ensures PageRequests(a + b) == PageRequests(a) + PageRequests(b)
    decreases |a|
  {
    if a == [] {
      assert a + b == b;
    } else {
      var head := PageRequestOf(a[0]);
      assert (a + b)[0] == a[0] && (a + b)[1..] == a[1..] + b;
      assert PageRequests(a + b) == head + PageRequests(a[1..] + b);
      PageRequestsAppend(a[1..], b);
      assert head + (PageRequests(a[1..]) + PageRequests(b)) == (head + PageRequests(a[1..])) + PageRequests(b);
    }
  }

  /** The ticket loop of one page requests no page. */
  lemma {:induction false} TicketLoopRequestsNoPage(cfg: Config, env: Env, tickets: seq<Ticket>)
    ensures PageRequests(ProcessTickets(cfg, env, tickets).trace) == []
    decreases |tickets|
  {
    if tickets != [] {
      var first := ProcessTicket(cfg, env, tickets[0]);
      TicketEvents(cfg, env, tickets[0]);
      NoPageRequest(first.trace);
      if first.outcome != Aborted {
        TicketLoopRequestsNoPage(cfg, env, tickets[1..]);
        PageRequestsAppend(first.trace, ProcessTickets(cfg, env, tickets[1..]).trace);
      }
    }
  }

  lemma {:induction false} NoPageRequest(trace: seq<Event>)
    requires forall k :: 0 <= k < |trace| ==> !trace[k].GetTicketPage?
    ensures PageRequests(trace) == []
    decreases |trace|
  {
    if trace != [] {
      NoPageRequest(trace[1..]);
    }
  }

  /** `requests` are the requests for pages `i`, `i + 1`, ... in that order, each with its inclusive range. */
  predicate RequestsFrom(batchSize: int, i: int, requests: seq<Event>)
  {
    forall k :: 0 <= k < |requests| ==>
      requests[k] == GetTicketPage(PageRange(batchSize, i + k).0, PageRange(batchSize, i + k).1)
  }

  lemma RequestsFromCons(batchSize: int, i: int, later: seq<Event>)
    requires RequestsFrom(batchSize, i + 1, later)
    ensures RequestsFrom(batchSize, i, [GetTicketPage(PageRange(batchSize, i).0, PageRange(batchSize, i).1)] + later)
  {
    var requests := [GetTicketPage(PageRange(batchSize, i).0, PageRange(batchSize, i).1)] + later;
    forall k | 1 <= k < |requests|
      ensures requests[k] == GetTicketPage(PageRange(batchSize, i + k).0, PageRange(batchSize, i + k).1)
    {
      assert requests[k] == later[k - 1];
      assert i + 1 + (k - 1) == i + k;
    }
  }

  /** Page `i`'s request followed by its ticket loop holds exactly that one page request. */
  lemma PageThenTickets(cfg: Config, env: Env, i: nat)
    requires PageRange(cfg.batchSize, i) in env.pages
    ensures var range := PageRange(cfg.batchSize, i);
      var request := [GetTicketPage(range.0, range.1)];
      PageRequests(request + ProcessTickets(cfg, env, env.pages[range]).trace) == request
  {
    var range := PageRange(cfg.batchSize, i);
    var request := [GetTicketPage(range.0, range.1)];
    assert PageRequests(request) == request;
    TicketLoopRequestsNoPage(cfg, env, env.pages[range]);
    PageRequestsAppend(request, ProcessTickets(cfg, env, env.pages[range]).trace);
  }

  /** The page loop goes on past page `i`: the page was read, no ticket aborted the run, and the page was full. */
  predicate PagingContinues(cfg: Config, env: Env, i: nat)
  {
    var range := PageRange(cfg.batchSize, i);
    && range in env.pages
    && ProcessTickets(cfg, env, env.pages[range]).outcome != Aborted
    && |env.pages[range]| >= cfg.batchSize
  }

  /** Page `i` contributes its own request, then whatever the later pages request if paging goes on. */
  lemma PageRequestsStep(cfg: Config, env: Env, i: nat)
    requires i < cfg.batchSize
    ensures var range := PageRange(cfg.batchSize, i);
      PageRequests(Pages(cfg, env, i).trace) ==
        [GetTicketPage(range.0, range.1)]
        + (if PagingContinues(cfg, env, i) then PageRequests(Pages(cfg, env, i + 1).trace) else [])
  {
    var range := PageRange(cfg.batchSize, i);
    var request := [GetTicketPage(range.0, range.1)];
    if range !in env.pages {
      assert PageRequests(request) == request;
    } else {
      PagesStep(cfg, env, i);
      PageThenTickets(cfg, env, i);
      if PagingContinues(cfg, env, i) {
        var page := ProcessTickets(cfg, env, env.pages[range]);
        PageRequestsAppend(request + page.trace, Pages(cfg, env, i + 1).trace);
      }
    }
  }

  /**
   * From page `i` on, the `k`-th page requested is page `i + k`, with its
   * inclusive range; at most `batchSize - i` pages are requested, and at least
   * one while `i < batchSize`.
   */
  lemma {:induction false} PagesRequestRangesInOrder(cfg: Config, env: Env, i: nat)
    ensures var requests := PageRequests(Pages(cfg, env, i).trace);
      && |requests| <= (if i < cfg.batchSize then cfg.batchSize - i else 0)
      && (i < cfg.batchSize ==> |requests| >= 1)
      && RequestsFrom(cfg.batchSize, i, requests)
    decreases if i < cfg.batchSize then cfg.batchSize - i else 0
  {
    if i < cfg.batchSize {
      PageRequestsStep(cfg, env, i);
      if PagingContinues(cfg, env, i) {
        PagesRequestRangesInOrder(cfg, env, i + 1);
        RequestsFromCons(cfg.batchSize, i, PageRequests(Pages(cfg, env, i + 1).trace));
      } else {
        RequestsFromCons(cfg.batchSize, i, []);
      }
    } else {
      assert Pages(cfg, env, i) == Step([], Completed);
    }
  }

  /** A page shorter than `batchSize` is the last one requested. */
  lemma ShortPageEndsPaging(cfg: Config, env: Env, i: nat)
    requires i < cfg.batchSize
    requires PageRange(cfg.batchSize, i) in env.pages && |env.pages[PageRange(cfg.batchSize, i)]| < cfg.batchSize
    ensures PageRequests(Pages(cfg, env, i).trace) ==
      [GetTicketPage(PageRange(cfg.batchSize, i).0, PageRange(cfg.batchSize, i).1)]
  {
    PagesStep(cfg, env, i);
    PageThenTickets(cfg, env, i);
  }

  /** With fewer than `batchSize` tickets in the source, exactly one page is requested: `0 .. batchSize - 1`. */
  lemma FewerThanBatchTicketsFetchOnePage(cfg: Config, env: Env)
    requires env.sourceSessionOk && env.destSessionOk && cfg.batchSize > 0
    requires (0, cfg.batchSize - 1) in env.pages && |env.pages[(0, cfg.batchSize - 1)]| < cfg.batchSize
    ensures PageRequests(TransferRun(cfg, env).trace) == [GetTicketPage(0, cfg.batchSize - 1)]
  {
    ShortPageEndsPaging(cfg, env, 0);
  }

  /** A failed session request ends the run before any request for tickets and any write. */
  lemma AuthFailureWritesNothing(cfg: Config, env: Env)
    requires !env.sourceSessionOk || !env.destSessionOk
    ensures TransferRun(cfg, env) == Step([], Aborted)
  {
  }

  /** Whether a ticket's pass aborts the run does not depend on which writes fail. */
  lemma TicketOutcomeIgnoresWriteFailures(cfg: Config, env: Env, t: Ticket, failing: set<Event>)
    ensures ProcessTicket(cfg, env.(failingWrites := failing), t).outcome == ProcessTicket(cfg, env, t).outcome
  {
    DetailsIgnoreWriteFailures(cfg, env, t.id, failing);
  }

  lemma {:induction false} TicketLoopOutcomeIgnoresWriteFailures(cfg: Config, env: Env, tickets: seq<Ticket>, failing: set<Event>)
    ensures ProcessTickets(cfg, env.(failingWrites := failing), tickets).outcome == ProcessTickets(cfg, env, tickets).outcome
    decreases |tickets|
  {
    if tickets != [] {
      TicketOutcomeIgnoresWriteFailures(cfg, env, tickets[0], failing);
      TicketLoopOutcomeIgnoresWriteFailures(cfg, env, tickets[1..], failing);
    }
  }

  lemma {:induction false} PagesOutcomeIgnoresWriteFailures(cfg: Config, env: Env, i: nat, failing: set<Event>)
    ensures Pages(cfg, env.(failingWrites := failing), i).outcome == Pages(cfg, env, i).outcome
    decreases if i < cfg.batchSize then cfg.batchSize - i else 0
  {
    if i < cfg.batchSize {
      var range := PageRange(cfg.batchSize, i);
      if range in env.pages {
        TicketLoopOutcomeIgnoresWriteFailures(cfg, env, env.pages[range], failing);
        PagesOutcomeIgnoresWriteFailures(cfg, env, i + 1, failing);
      }
    }
  }

  /** A failed write is caught with its ticket: which writes fail never decides whether the run aborts. */
  lemma WriteFailureStaysWithTicket(cfg: Config, env: Env, failing: set<Event>)
    ensures TransferRun(cfg, env.(failingWrites := failing)).outcome == TransferRun(cfg, env).outcome
  {
    PagesOutcomeIgnoresWriteFailures(cfg, env, 0, failing);
  }

  /**
   * The worked example: ticket 10 in status 2 whose recipient and last updater
   * are both user 5, with the address `a@x.com` that the mapping sends to 42,
   * is written with 42 in both fields.
   */
  lemma ExampleTicketIsRemapped(cfg: Config, env: Env, t: Ticket)
    requires t.id == 10 && t.status == 2 && t.users_id_recipient == 5 && t.users_id_lastupdater == 5
    requires 5 in env.userEmails && env.userEmails[5] == ["a@x.com"]
    requires cfg.usersMapping == [UserMapping("a@x.com", 42)]
    requires 10 in env.ticketUsers
    ensures var p := TransformToNewFormat(cfg, Remapped(t, 42, 42));
      && p.users_id_recipient == 42 && p.users_id_lastupdater == 42
      && PostTicket(p) in ProcessTicket(cfg, env, t).trace
  {
    FirstMatchWins(cfg, "a@x.com", 0);
    AdmittedTicketIsWritten(cfg, env, t);
  }

  /**
   * The worked example: the e-mail request for participant user 7 fails, so the
   * participant carries the default e-mail and is still written, with the id that
   * address resolves to.
   */
  lemma ExampleFailedParticipantUsesDefault(cfg: Config, env: Env, t: Ticket, u: TicketUser)
    requires u.users_id == 7 && 7 !in env.userEmails
    ensures var enriched := EnrichTicketUser(cfg, env, u);
      && enriched.email == Some(cfg.defaultUserEmail)
      && ParseInt(TicketUserData(cfg, t, enriched).users_id) == Some(GetUserId(cfg, Some(cfg.defaultUserEmail)))
  {
  }

  /**
   * The worked example: the follow-up request of an admitted ticket fails, so the
   * writer still creates the bare ticket, with no participant and no follow-up.
   */
  lemma ExampleFollowupFailureWritesBareTicket(cfg: Config, env: Env, t: Ticket)
    requires Admitted(env, t) && t.id !in env.followups
    ensures var ticket := Remapped(t, ResolvedUserId(cfg, env, t.users_id_recipient), ResolvedUserId(cfg, env, t.users_id_lastupdater));
      var write := PostTicket(TransformToNewFormat(cfg, ticket));
      var r := ProcessTicket(cfg, env, t);
      && r.outcome == Completed
      && r.trace == [GetUserEmail(t.users_id_recipient), GetUserEmail(t.users_id_lastupdater)]
                    + TicketDetails(cfg, env, t.id).trace
                    + (if write in env.failingWrites then [write, WriteFailed(t.id)] else [write])
  {
    var ticket := Remapped(t, ResolvedUserId(cfg, env, t.users_id_recipient), ResolvedUserId(cfg, env, t.users_id_lastupdater));
    FollowupListFailureDiscards(cfg, env, t.id);
    var write := PostTicket(TransformToNewFormat(cfg, ticket));
    var plan := WritePlan(cfg, ticket, [], []);
    assert plan == [write];
    assert plan[1..] == [];
    assert RunWrites(env.failingWrites, plan[1..], ticket.id) == [];
    assert AddTicket(cfg, env, ticket, [], []) == (if write in env.failingWrites then [write, WriteFailed(t.id)] else [write]);
  }
}
