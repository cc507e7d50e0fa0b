/** The sub-resource enricher `fetchTicketDetails`: participants and follow-ups of one ticket. */
module Enrich {
  import opened Wrappers
  import opened Configuration
  import opened Identity
  import opened Links
  import opened Glpi

  /** The participants and follow-ups handed on to the writer. */
  datatype Details = Details(ticketUsers: seq<TicketUser>, followups: seq<Followup>)

  /** The requests made, and the details, or `None` when a request threw out of the function. */
  datatype Fetched = Fetched(trace: seq<Event>, details: Option<Details>)

  /**
   * One participant after enrichment: a participant without a user id is left
   * alone; otherwise it gets its first e-mail record, or the default e-mail when
   * the request throws or returns no record (`data[0].email` then throws too).
   */
  function EnrichTicketUser(cfg: Config, env: Env, u: TicketUser): (r: TicketUser)
    ensures r.users_id == u.users_id && r.kind == u.kind && r.use_notification == u.use_notification
    ensures u.users_id != 0 ==> r.email.Some?
  {
    if u.users_id == 0 then u
    else if u.users_id in env.userEmails && |env.userEmails[u.users_id]| > 0 then
      u.(email := Some(env.userEmails[u.users_id][0]))
    else u.(email := Some(cfg.defaultUserEmail))
  }

  /**
   * One follow-up after enrichment: with an author id whose first e-mail record
   * can be fetched, the author becomes the destination id of that e-mail and the
   * links are rewritten; otherwise the follow-up is left as it was.
   */
  function EnrichFollowup(cfg: Config, env: Env, f: Followup): (r: Followup)
    ensures r.(users_id := f.users_id, links := f.links) == f
    ensures |r.links| == |f.links|
    ensures f.users_id == 0 ==> r == f
  {
    if f.users_id != 0 && f.users_id in env.userEmails && |env.userEmails[f.users_id]| > 0 then
      f.(users_id := GetUserId(cfg, FirstEmail(env.userEmails[f.users_id])),
         links := RewriteLinks(f.links, cfg.oldBaseUrl, cfg.newBaseUrl))
    else f
  }

  function EnrichTicketUsers(cfg: Config, env: Env, users: seq<TicketUser>): seq<TicketUser>
  {
    seq(|users|, k requires 0 <= k < |users| => EnrichTicketUser(cfg, env, users[k]))
  }

  function EnrichFollowups(cfg: Config, env: Env, followups: seq<Followup>): seq<Followup>
  {
    seq(|followups|, k requires 0 <= k < |followups| => EnrichFollowup(cfg, env, followups[k]))
  }

  /** The e-mail requests the participant loop makes: one per participant with a user id, in order. */
  function UserEmailFetches(users: seq<TicketUser>): (r: seq<Event>)
    ensures |r| <= |users|
    ensures forall i :: 0 <= i < |r| ==> r[i].GetUserEmail? && r[i].userId != 0
  {
    if users == [] then []
    else
      var u := users[|users| - 1];
      UserEmailFetches(users[..|users| - 1]) + (if u.users_id == 0 then [] else [GetUserEmail(u.users_id)])
  }

  /** The e-mail requests the follow-up loop makes: one per follow-up with an author id, in order. */
  function FollowupEmailFetches(followups: seq<Followup>): (r: seq<Event>)
    ensures |r| <= |followups|
    ensures forall i :: 0 <= i < |r| ==> r[i].GetUserEmail? && r[i].userId != 0
  {
    if followups == [] then []
    else
      var f := followups[|followups| - 1];
      FollowupEmailFetches(followups[..|followups| - 1]) + (if f.users_id == 0 then [] else [GetUserEmail(f.users_id)])
  }

  /** What `fetchTicketDetails(ticketId)` requests and returns. */
  function TicketDetails(cfg: Config, env: Env, ticketId: int): Fetched
  {
    if ticketId !in env.ticketUsers then Fetched([GetTicketUsers(ticketId)], None)
    else
      var users := env.ticketUsers[ticketId];
      var trace := [GetTicketUsers(ticketId)] + UserEmailFetches(users) + [GetFollowups(ticketId)];
      if ticketId !in env.followups then Fetched(trace, Some(Details([], [])))
      else
        var followups := env.followups[ticketId];
        Fetched(trace + FollowupEmailFetches(followups),
                Some(Details(EnrichTicketUsers(cfg, env, users), EnrichFollowups(cfg, env, followups))))
  }

  /** The participant loop: attaches each participant's e-mail in place, in list order. */
  method AttachEmails(cfg: Config, env: Env, fetched: seq<TicketUser>) returns (fetches: seq<Event>, enriched: seq<TicketUser>)
    ensures fetches == UserEmailFetches(fetched)
    ensures enriched == EnrichTicketUsers(cfg, env, fetched)
  {
    var users := new TicketUser[|fetched|](k requires 0 <= k < |fetched| => fetched[k]);
    fetches := [];
    for i := 0 to users.Length
      invariant forall k :: 0 <= k < i ==> users[k] == EnrichTicketUser(cfg, env, fetched[k])
      invariant forall k :: i <= k < users.Length ==> users[k] == fetched[k]
      invariant fetches == UserEmailFetches(fetched[..i])
    {
      assert fetched[..i + 1][..i] == fetched[..i];
      var userId := users[i].users_id;
      if userId == 0 {
        continue;
      }
      fetches := fetches + [GetUserEmail(userId)];
      if userId in env.userEmails && |env.userEmails[userId]| > 0 {
        users[i] := users[i].(email := Some(env.userEmails[userId][0]));
      } else {
        // the request threw, or `data[0].email` did: fall back to the default e-mail
        users[i] := users[i].(email := Some(cfg.defaultUserEmail));
      }
    }
    assert fetched[..users.Length] == fetched;
    enriched := users[..];
  }

  /** The follow-up loop: remaps each follow-up's author and links in place, in list order. */
  method RemapFollowups(cfg: Config, env: Env, fetched: seq<Followup>) returns (fetches: seq<Event>, enriched: seq<Followup>)
    ensures fetches == FollowupEmailFetches(fetched)
    ensures enriched == EnrichFollowups(cfg, env, fetched)
  {
    var followups := new Followup[|fetched|](k requires 0 <= k < |fetched| => fetched[k]);
    fetches := [];
    for i := 0 to followups.Length
      invariant forall k :: 0 <= k < i ==> followups[k] == EnrichFollowup(cfg, env, fetched[k])
      invariant forall k :: i <= k < followups.Length ==> followups[k] == fetched[k]
      invariant fetches == FollowupEmailFetches(fetched[..i])
    {
      assert fetched[..i + 1][..i] == fetched[..i];
      var f := followups[i];
      if f.users_id == 0 {
        continue;
      }
      fetches := fetches + [GetUserEmail(f.users_id)];
      if f.users_id in env.userEmails && |env.userEmails[f.users_id]| > 0 {
        var newUserId := GetUserId(cfg, FirstEmail(env.userEmails[f.users_id]));
        followups[i] := f.(users_id := newUserId, links := RewriteLinks(f.links, cfg.oldBaseUrl, cfg.newBaseUrl));
      }
      // otherwise the error is logged and the follow-up keeps its source author id
    }
    assert fetched[..followups.Length] == fetched;
    enriched := followups[..];
  }

  /** `fetchTicketDetails`: the participant list, then the follow-up list, each enriched. */
  method FetchTicketDetails(cfg: Config, env: Env, ticketId: int) returns (trace: seq<Event>, details: Option<Details>)
    ensures Fetched(trace, details) == TicketDetails(cfg, env, ticketId)
  {
    trace := [GetTicketUsers(ticketId)];
    if ticketId !in env.ticketUsers {
      // nothing in this function catches the failed participant request
      return trace, None;
    }
    var userFetches, users := AttachEmails(cfg, env, env.ticketUsers[ticketId]);
    trace := trace + userFetches + [GetFollowups(ticketId)];
    if ticketId !in env.followups {
      // the failed follow-up request drops the participants gathered so far
      return trace, Some(Details([], []));
    }
    var followupFetches, followups := RemapFollowups(cfg, env, env.followups[ticketId]);
    trace := trace + followupFetches;
    details := Some(Details(users, followups));
  }

  /** A request the enricher makes: a sub-collection of the ticket or a user's e-mail records. */
  predicate IsDetailRead(e: Event)
  {
    e.GetTicketUsers? || e.GetFollowups? || e.GetUserEmail?
  }

  /** Enrichment only reads from the source: it never requests a ticket page and never writes. */
  lemma DetailsFetchOnlyReads(cfg: Config, env: Env, ticketId: int)
    ensures var trace := TicketDetails(cfg, env, ticketId).trace;
      forall k :: 0 <= k < |trace| ==> IsDetailRead(trace[k])
  {
    if ticketId in env.ticketUsers {
      var users := env.ticketUsers[ticketId];
      var prefix := [GetTicketUsers(ticketId)] + UserEmailFetches(users) + [GetFollowups(ticketId)];
      assert forall k :: 0 <= k < |prefix| ==> IsDetailRead(prefix[k]);
      if ticketId in env.followups {
        var all := prefix + FollowupEmailFetches(env.followups[ticketId]);
        assert forall k :: 0 <= k < |all| ==> IsDetailRead(all[k]);
      }
    }
  }

  /** A participant without a user id keeps the record as fetched: no e-mail is attached. */
  lemma ParticipantWithoutIdIsUntouched(cfg: Config, env: Env, u: TicketUser)
    requires u.users_id == 0
    ensures EnrichTicketUser(cfg, env, u) == u
  {
  }

  /**
   * A participant with a user id always ends up with an e-mail: its first record
   * when the request succeeds with one, the default e-mail otherwise. Nothing
   * else about it changes.
   */
  lemma ParticipantGetsAnEmail(cfg: Config, env: Env, u: TicketUser)
    requires u.users_id != 0
    ensures var r := EnrichTicketUser(cfg, env, u);
      && r.users_id == u.users_id && r.kind == u.kind && r.use_notification == u.use_notification
      && r.email.Some?
      && (u.users_id in env.userEmails && |env.userEmails[u.users_id]| > 0 ==>
            r.email.value == env.userEmails[u.users_id][0])
      && (u.users_id !in env.userEmails || |env.userEmails[u.users_id]| == 0 ==>
            r.email.value == cfg.defaultUserEmail)
  {
  }

  /**
   * A follow-up whose author cannot be resolved (no author id, a failed request,
   * or no e-mail record) keeps its source-system author id and its links.
   */
  lemma UnresolvedAuthorKeepsSourceId(cfg: Config, env: Env, f: Followup)
    requires f.users_id == 0 || f.users_id !in env.userEmails || |env.userEmails[f.users_id]| == 0
    ensures EnrichFollowup(cfg, env, f) == f
  {
  }

  /** A resolved author is replaced by the destination id of its first e-mail; its links are rewritten. */
  lemma ResolvedAuthorIsRemapped(cfg: Config, env: Env, f: Followup)
    requires f.users_id != 0 && f.users_id in env.userEmails && |env.userEmails[f.users_id]| > 0
    ensures var r := EnrichFollowup(cfg, env, f);
      && r.users_id == GetUserId(cfg, Some(env.userEmails[f.users_id][0]))
      && |r.links| == |f.links|
      && (forall i :: 0 <= i < |f.links| ==>
            r.links[i] == Link(f.links[i].rel, Replace(f.links[i].href, cfg.oldBaseUrl, cfg.newBaseUrl)))
      && r.(users_id := f.users_id, links := f.links) == f
  {
  }

  /** A failed participant request is not caught here: the enricher returns nothing. */
  lemma TicketUsersFetchFailureAborts(cfg: Config, env: Env, ticketId: int)
    requires ticketId !in env.ticketUsers
    ensures TicketDetails(cfg, env, ticketId) == Fetched([GetTicketUsers(ticketId)], None)
  {
  }

  /**
   * A failed follow-up request yields two empty lists: the participants already
   * enriched (and their e-mail requests, which were made) are discarded.
   */
  lemma FollowupListFailureDiscards(cfg: Config, env: Env, ticketId: int)
    requires ticketId in env.ticketUsers && ticketId !in env.followups
    ensures var r := TicketDetails(cfg, env, ticketId);
      && r.details == Some(Details([], []))
      && r.trace == [GetTicketUsers(ticketId)] + UserEmailFetches(env.ticketUsers[ticketId]) + [GetFollowups(ticketId)]
  {
  }

  /** When both lists are fetched, every participant and every follow-up is enriched on its own, in order. */
  lemma DetailsEnrichEachItem(cfg: Config, env: Env, ticketId: int)
    requires ticketId in env.ticketUsers && ticketId in env.followups
    ensures var r := TicketDetails(cfg, env, ticketId);
      var users := env.ticketUsers[ticketId];
      var followups := env.followups[ticketId];
      && r.details.Some?
      && |r.details.value.ticketUsers| == |users|
      && (forall i :: 0 <= i < |users| ==> r.details.value.ticketUsers[i] == EnrichTicketUser(cfg, env, users[i]))
      && |r.details.value.followups| == |followups|
      && (forall j :: 0 <= j < |followups| ==> r.details.value.followups[j] == EnrichFollowup(cfg, env, followups[j]))
  {
  }

  /** Enrichment reads the source only: which destination writes fail makes no difference to it. */
  lemma DetailsIgnoreWriteFailures(cfg: Config, env: Env, ticketId: int, failing: set<Event>)
    ensures TicketDetails(cfg, env.(failingWrites := failing), ticketId) == TicketDetails(cfg, env, ticketId)
  {
    var other := env.(failingWrites := failing);
    if ticketId in env.ticketUsers {
      var users := env.ticketUsers[ticketId];
      assert EnrichTicketUsers(cfg, other, users) == EnrichTicketUsers(cfg, env, users);
      if ticketId in env.followups {
        var followups := env.followups[ticketId];
        assert EnrichFollowups(cfg, other, followups) == EnrichFollowups(cfg, env, followups);
      }
    }
  }
}
