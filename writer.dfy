/** The destination writer `addTicketToNewGLPI`: ticket, then participants, then follow-ups. */
module Writer {
  import opened Wrappers
  import opened Configuration
  import opened Decimal
  import opened Identity
  import opened Glpi
  import opened Transform

  /** The request type a follow-up is written with when its own is missing (`requesttypes_id || 6`). */
  const DefaultRequestTypeId: int := 6

  /** The participant envelope: the ticket id, the resolved user id, the role and the flag, stringified. */
  function TicketUserData(cfg: Config, t: Ticket, u: TicketUser): (r: TicketUserPayload)
    ensures ParseInt(r.tickets_id) == Some(t.id)
    ensures ParseInt(r.users_id) == Some(GetUserId(cfg, u.email))
    ensures ParseInt(r.kind) == Some(u.kind)
    ensures ParseInt(r.use_notification) == Some(u.use_notification)
  {
    IntToStringRoundTrip(t.id);
    IntToStringRoundTrip(GetUserId(cfg, u.email));
    IntToStringRoundTrip(u.kind);
    IntToStringRoundTrip(u.use_notification);
    TicketUserPayload(IntToString(t.id), IntToString(GetUserId(cfg, u.email)),
                      IntToString(u.kind), IntToString(u.use_notification))
  }

  /** The follow-up envelope: the parent item id stringified, the request type defaulted. */
  function FollowupData(f: Followup): (r: FollowupPayload)
    ensures ParseInt(r.tickets_id) == Some(f.items_id)
    ensures r.requesttypes_id != 0
    ensures f.requesttypes_id != 0 ==> r.requesttypes_id == f.requesttypes_id
    ensures f.requesttypes_id == 0 ==> r.requesttypes_id == DefaultRequestTypeId
    ensures r.date == f.date && r.users_id == f.users_id && r.is_private == f.is_private && r.content == f.content
  {
    IntToStringRoundTrip(f.items_id);
    FollowupPayload(f.date, f.users_id, IntToString(f.items_id), f.is_private,
                    if f.requesttypes_id != 0 then f.requesttypes_id else DefaultRequestTypeId,
                    f.content)
  }

  function TicketUserWrites(cfg: Config, t: Ticket, users: seq<TicketUser>): seq<Event>
  {
    seq(|users|, i requires 0 <= i < |users| => PostTicketUser(t.id, TicketUserData(cfg, t, users[i])))
  }

  function FollowupWrites(t: Ticket, followups: seq<Followup>): seq<Event>
  {
    seq(|followups|, i requires 0 <= i < |followups| => PostFollowup(t.id, FollowupData(followups[i])))
  }

  /** The writes for one ticket, in the order they are issued when none fails. */
  function WritePlan(cfg: Config, t: Ticket, users: seq<TicketUser>, followups: seq<Followup>): (plan: seq<Event>)
    ensures |plan| == 1 + |users| + |followups|
    ensures plan[0] == PostTicket(TransformToNewFormat(cfg, t))
    ensures forall i :: 0 <= i < |users| ==> plan[1 + i] == PostTicketUser(t.id, TicketUserData(cfg, t, users[i]))
    ensures forall j :: 0 <= j < |followups| ==>
      plan[1 + |users| + j] == PostFollowup(t.id, FollowupData(followups[j]))
  {
    [PostTicket(TransformToNewFormat(cfg, t))] + TicketUserWrites(cfg, t, users) + FollowupWrites(t, followups)
  }

  /**
   * Issuing the writes of `plan` in order under one try/catch: the first write
   * that throws is the last one issued, and one error is logged for the ticket.
   */
  function RunWrites(failing: set<Event>, plan: seq<Event>, ticketId: int): (r: seq<Event>)
    ensures |r| <= |plan| + 1
    ensures plan != [] ==> |r| > 0 && r[0] == plan[0]
  {
    if plan == [] then []
    else if plan[0] in failing then [plan[0], WriteFailed(ticketId)]
    else [plan[0]] + RunWrites(failing, plan[1..], ticketId)
  }

  /** What `addTicketToNewGLPI` does for one ticket and its enriched sub-records. */
  function AddTicket(cfg: Config, env: Env, t: Ticket, users: seq<TicketUser>, followups: seq<Followup>): (r: seq<Event>)
    ensures 0 < |r| <= 2 + |users| + |followups|
    ensures r[0] == PostTicket(TransformToNewFormat(cfg, t))
  {
    RunWrites(env.failingWrites, WritePlan(cfg, t, users, followups), t.id)
  }

  /** No write of `writes` throws. */
  predicate AllSucceed(failing: set<Event>, writes: seq<Event>)
  {
    forall k :: 0 <= k < |writes| ==> writes[k] !in failing
  }

  lemma PrefixExtends(failing: set<Event>, writes: seq<Event>, i: nat)
    requires i < |writes|
    ensures writes[..i + 1] == writes[..i] + [writes[i]]
    ensures AllSucceed(failing, writes[..i + 1]) <==> AllSucceed(failing, writes[..i]) && writes[i] !in failing
  {
  }

  /** A failing write after successful ones ends the list: it is issued, the error is logged, and not all succeed. */
  lemma FailingWriteEnds(failing: set<Event>, writes: seq<Event>, ticketId: int, i: nat)
    requires i < |writes| && AllSucceed(failing, writes[..i]) && writes[i] in failing
    ensures RunWrites(failing, writes, ticketId) == writes[..i] + [writes[i], WriteFailed(ticketId)]
    ensures !AllSucceed(failing, writes)
  {
    assert forall j :: 0 <= j < i ==> writes[..i][j] == writes[j];
    RunWritesStopsAtFirstFailure(failing, writes, ticketId, i);
    assert writes[..i + 1] == writes[..i] + [writes[i]];
  }

  /** Every write of a list succeeding: the whole list is issued and nothing is logged. */
  lemma AllWritesIssued(failing: set<Event>, writes: seq<Event>, ticketId: int)
    requires AllSucceed(failing, writes[..|writes|])
    ensures RunWrites(failing, writes, ticketId) == writes && AllSucceed(failing, writes)
  {
    assert writes[..|writes|] == writes;
    RunWritesAllSucceed(failing, writes, ticketId);
  }

  /** The participant loop of `addTicketToNewGLPI`: one POST per participant, in list order, until one throws. */
  method PostTicketUsers(cfg: Config, env: Env, t: Ticket, users: seq<TicketUser>) returns (events: seq<Event>, ok: bool)
    ensures events == RunWrites(env.failingWrites, TicketUserWrites(cfg, t, users), t.id)
    ensures ok == AllSucceed(env.failingWrites, TicketUserWrites(cfg, t, users))
  {
    ghost var writes := TicketUserWrites(cfg, t, users);
    events := [];
    for i := 0 to |users|
      invariant events == writes[..i] && AllSucceed(env.failingWrites, writes[..i])
    {
      var userWrite := PostTicketUser(t.id, TicketUserData(cfg, t, users[i]));
      assert userWrite == writes[i];
      PrefixExtends(env.failingWrites, writes, i);
      if userWrite in env.failingWrites {
        FailingWriteEnds(env.failingWrites, writes, t.id, i);
        return events + [userWrite, WriteFailed(t.id)], false;
      }
      events := events + [userWrite];
    }
    AllWritesIssued(env.failingWrites, writes, t.id);
    ok := true;
  }

  /** The follow-up loop of `addTicketToNewGLPI`: one POST per follow-up, in list order, until one throws. */
  method PostFollowups(env: Env, t: Ticket, followups: seq<Followup>) returns (events: seq<Event>, ok: bool)
    ensures events == RunWrites(env.failingWrites, FollowupWrites(t, followups), t.id)
    ensures ok == AllSucceed(env.failingWrites, FollowupWrites(t, followups))
  {
    ghost var writes := FollowupWrites(t, followups);
    events := [];
    for j := 0 to |followups|
      invariant events == writes[..j] && AllSucceed(env.failingWrites, writes[..j])
    {
      var followupWrite := PostFollowup(t.id, FollowupData(followups[j]));
      assert followupWrite == writes[j];
      PrefixExtends(env.failingWrites, writes, j);
      if followupWrite in env.failingWrites {
        FailingWriteEnds(env.failingWrites, writes, t.id, j);
        return events + [followupWrite, WriteFailed(t.id)], false;
      }
      events := events + [followupWrite];
    }
    AllWritesIssued(env.failingWrites, writes, t.id);
    ok := true;
  }

  /**
   * `addTicketToNewGLPI`: posts the ticket, then its participants, then its
   * follow-ups; the single try/catch turns the first throw into one error entry
   * and ends this ticket only.
   */
  method AddTicketToNewGLPI(cfg: Config, env: Env, t: Ticket, users: seq<TicketUser>, followups: seq<Followup>)
    returns (events: seq<Event>)
    ensures events == AddTicket(cfg, env, t, users, followups)
  {
    AddTicketStages(cfg, env, t, users, followups);
    var ticketWrite := PostTicket(TransformToNewFormat(cfg, t));
    if ticketWrite in env.failingWrites {
      return [ticketWrite, WriteFailed(t.id)];
    }
    var userEvents, usersOk := PostTicketUsers(cfg, env, t, users);
    if !usersOk {
      return [ticketWrite] + userEvents;
    }
    RunWritesAllSucceed(env.failingWrites, TicketUserWrites(cfg, t, users), t.id);
    var followupEvents, _ := PostFollowups(env, t, followups);
    events := [ticketWrite] + userEvents + followupEvents;
  }

  /** The three stages under the one try/catch: the ticket, then the participants, then the follow-ups. */
  lemma AddTicketStages(cfg: Config, env: Env, t: Ticket, users: seq<TicketUser>, followups: seq<Followup>)
    ensures var ticketWrite := PostTicket(TransformToNewFormat(cfg, t));
      var userWrites := TicketUserWrites(cfg, t, users);
      AddTicket(cfg, env, t, users, followups) ==
        if ticketWrite in env.failingWrites then [ticketWrite, WriteFailed(t.id)]
        else if !AllSucceed(env.failingWrites, userWrites) then [ticketWrite] + RunWrites(env.failingWrites, userWrites, t.id)
        else [ticketWrite] + userWrites + RunWrites(env.failingWrites, FollowupWrites(t, followups), t.id)
  {
    var ticketWrite := PostTicket(TransformToNewFormat(cfg, t));
    var userWrites := TicketUserWrites(cfg, t, users);
    var followupWrites := FollowupWrites(t, followups);
    var plan := WritePlan(cfg, t, users, followups);
    assert plan == [ticketWrite] + (userWrites + followupWrites);
    RunWritesFirst(env.failingWrites, ticketWrite, userWrites + followupWrites, t.id);
    RunWritesAppend(env.failingWrites, userWrites, followupWrites, t.id);
  }

  /** The first write of a list decides whether anything after it is issued. */
  lemma RunWritesFirst(failing: set<Event>, first: Event, rest: seq<Event>, ticketId: int)
    ensures RunWrites(failing, [first] + rest, ticketId) ==
      if first in failing then [first, WriteFailed(ticketId)] else [first] + RunWrites(failing, rest, ticketId)
  {
    assert ([first] + rest)[0] == first && ([first] + rest)[1..] == rest;
  }

  /** Issuing two lists of writes: the second is reached only when every write of the first succeeds. */
  lemma {:induction false} RunWritesAppend(failing: set<Event>, first: seq<Event>, second: seq<Event>, ticketId: int)
    ensures RunWrites(failing, first + second, ticketId) ==
      if AllSucceed(failing, first) then first + RunWrites(failing, second, ticketId)
      else RunWrites(failing, first, ticketId)
    decreases |first|
  {
    if first == [] {
      assert first + second == second;
    } else {
      assert (first + second)[1..] == first[1..] + second;
      RunWritesAppend(failing, first[1..], second, ticketId);
      assert AllSucceed(failing, first) <==> first[0] !in failing && AllSucceed(failing, first[1..]);
    }
  }

  /** When no write throws, every planned write is issued, in order, and nothing is logged. */
  lemma {:induction false} RunWritesAllSucceed(failing: set<Event>, plan: seq<Event>, ticketId: int)
    requires forall k :: 0 <= k < |plan| ==> plan[k] !in failing
    ensures RunWrites(failing, plan, ticketId) == plan
    decreases |plan|
  {
    if plan != [] {
      RunWritesAllSucceed(failing, plan[1..], ticketId);
    }
  }

  /** The first write that throws is the last one issued, followed by one error entry for the ticket. */
  lemma {:induction false} RunWritesStopsAtFirstFailure(failing: set<Event>, plan: seq<Event>, ticketId: int, k: nat)
    requires k < |plan| && plan[k] in failing
    requires forall j :: 0 <= j < k ==> plan[j] !in failing
    ensures RunWrites(failing, plan, ticketId) == plan[..k + 1] + [WriteFailed(ticketId)]
    decreases k
  {
    if k > 0 {
      RunWritesStopsAtFirstFailure(failing, plan[1..], ticketId, k - 1);
      assert plan[..k + 1] == [plan[0]] + plan[1..][..k];
    }
  }

  /** What is written for a ticket is always a prefix of its plan, possibly followed by one error entry. */
  lemma {:induction false} RunWritesIsPlanPrefix(failing: set<Event>, plan: seq<Event>, ticketId: int)
    ensures var r := RunWrites(failing, plan, ticketId);
      || (r == plan && forall k :: 0 <= k < |plan| ==> plan[k] !in failing)
      || (|r| >= 2 && r[..|r| - 1] <= plan && r[|r| - 2] in failing && r[|r| - 1] == WriteFailed(ticketId))
    decreases |plan|
  {
    if plan != [] && plan[0] !in failing {
      RunWritesIsPlanPrefix(failing, plan[1..], ticketId);
      var rest := RunWrites(failing, plan[1..], ticketId);
      var r := [plan[0]] + rest;
      if |rest| >= 2 && rest[..|rest| - 1] <= plan[1..] {
        assert r[..|r| - 1] == [plan[0]] + rest[..|rest| - 1];
      }
    }
  }

  /** A participant left without an e-mail is written with the default user id. */
  lemma ParticipantWithoutEmailGetsDefault(cfg: Config, t: Ticket, u: TicketUser)
    requires u.email.None?
    ensures ParseInt(TicketUserData(cfg, t, u).users_id) == Some(cfg.defaultUserId)
  {
    IntToStringRoundTrip(cfg.defaultUserId);
  }

  /** Every event issued is a planned write or the ticket's error entry. */
  lemma {:induction false} RunWritesFromPlan(failing: set<Event>, plan: seq<Event>, ticketId: int)
    ensures forall k :: 0 <= k < |RunWrites(failing, plan, ticketId)| ==>
      RunWrites(failing, plan, ticketId)[k] in plan || RunWrites(failing, plan, ticketId)[k] == WriteFailed(ticketId)
    decreases |plan|
  {
    if plan != [] && plan[0] !in failing {
      RunWritesFromPlan(failing, plan[1..], ticketId);
      var rest := RunWrites(failing, plan[1..], ticketId);
      assert plan == [plan[0]] + plan[1..];
      forall k | 1 <= k < 1 + |rest|
        ensures ([plan[0]] + rest)[k] in plan || ([plan[0]] + rest)[k] == WriteFailed(ticketId)
      {
        assert ([plan[0]] + rest)[k] == rest[k - 1];
        assert rest[k - 1] in plan[1..] || rest[k - 1] == WriteFailed(ticketId);
      }
    }
  }

  /** Each entry of the write plan is a write to the destination. */
  lemma PlanEntryIsWrite(cfg: Config, t: Ticket, users: seq<TicketUser>, followups: seq<Followup>, k: int)
    requires 0 <= k < |WritePlan(cfg, t, users, followups)|
    ensures IsWrite(WritePlan(cfg, t, users, followups)[k])
  {
    var plan := WritePlan(cfg, t, users, followups);
    if 1 <= k < 1 + |users| {
      assert plan[1 + (k - 1)] == PostTicketUser(t.id, TicketUserData(cfg, t, users[k - 1]));
    } else if 1 + |users| <= k {
      assert plan[1 + |users| + (k - 1 - |users|)] == PostFollowup(t.id, FollowupData(followups[k - 1 - |users|]));
    }
  }

  /** `addTicketToNewGLPI` only writes to the destination and logs; it reads nothing from the source. */
  lemma AddTicketOnlyWrites(cfg: Config, env: Env, t: Ticket, users: seq<TicketUser>, followups: seq<Followup>)
    ensures var r := AddTicket(cfg, env, t, users, followups);
      forall k :: 0 <= k < |r| ==> IsWrite(r[k]) || r[k] == WriteFailed(t.id)
  {
    var plan := WritePlan(cfg, t, users, followups);
    var r := RunWrites(env.failingWrites, plan, t.id);
    RunWritesFromPlan(env.failingWrites, plan, t.id);
    forall k | 0 <= k < |r|
      ensures IsWrite(r[k]) || r[k] == WriteFailed(t.id)
    {
      if r[k] != WriteFailed(t.id) {
        assert r[k] in plan;
        var j :| 0 <= j < |plan| && plan[j] == r[k];
        PlanEntryIsWrite(cfg, t, users, followups, j);
      }
    }
  }
}
