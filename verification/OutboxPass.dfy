/** What one uninterrupted sync pass leaves behind, for any sequence of replies. */
module OutboxPass {
  import opened Collections
  import opened OutboxPage
  import opened OutboxWorld
  import opened OutboxInvariant

  /** The reply to one reservation post, and whether the refresh after a conflict succeeded. */
  datatype Turn = Turn(reply: RequestReply, refreshed: bool)

  function DriveLeads(p: Page, replies: seq<LeadReply>): Page
    decreases |replies|
  {
    if !p.pass.PostingLead? || replies == [] then p else DriveLeads(PassStored(LeadReplied(p, replies[0])), replies[1..])
  }

  /** The reply, the write that follows it and, after a conflict, the refresh and its write. */
  function TakeTurn(p: Page, t: Turn): Page {
    PassStored(ConflictRefreshed(PassStored(RequestReplied(p, t.reply)), t.refreshed))
  }

  function DriveRequests(p: Page, turns: seq<Turn>): Page
    decreases |turns|
  {
    if !p.pass.PostingRequest? || turns == [] then p else DriveRequests(TakeTurn(p, turns[0]), turns[1..])
  }

  // ---------------------------------------------------------------- the closed form

  /** The ids acknowledged before the first 401, oldest first. */
  function AckedLeads(ids: seq<Id>, replies: seq<LeadReply>): seq<Id> {
    if ids == [] || replies == [] || replies[0].LeadUnauthorized? then []
    else (if replies[0].LeadAccepted? then [ids[0]] else []) + AckedLeads(ids[1..], replies[1..])
  }

  function AckedRequests(ids: seq<Id>, turns: seq<Turn>): seq<Id> {
    if ids == [] || turns == [] || turns[0].reply.RequestUnauthorized? then []
    else (if turns[0].reply.RequestAccepted? then [ids[0]] else []) + AckedRequests(ids[1..], turns[1..])
  }

  function LeadIds(leads: seq<Lead>, refs: seq<nat>): (ids: seq<Id>)
    ensures |ids| == |refs|
  {
    Map(refs, (r: nat) => if r < |leads| then leads[r].submissionId else 0)
  }

  function RequestIds(requests: seq<Request>, refs: seq<nat>): (ids: seq<Id>)
    ensures |ids| == |refs|
  {
    Map(refs, (r: nat) => if r < |requests| then requests[r].submissionId else 0)
  }

  function LeadsOutside(leads: seq<Lead>, queue: seq<nat>, ids: seq<Id>): seq<nat> {
    Filter(queue, (r: nat) => !(r < |leads| && leads[r].submissionId in ids))
  }

  function RequestsOutside(requests: seq<Request>, queue: seq<nat>, ids: seq<Id>): seq<nat> {
    Filter(queue, (r: nat) => !(r < |requests| && requests[r].submissionId in ids))
  }

  function Newest(receipts: seq<Id>): seq<Id> {
    if |receipts| <= RECEIPT_LIMIT then receipts else receipts[..RECEIPT_LIMIT]
  }

  /** The receipt list after acknowledging `acked` (oldest first): at most 20 receipts, newest first. */
  function ReceiptsAfter(receipts: seq<Id>, acked: seq<Id>): seq<Id> {
    if acked == [] then receipts else Newest(NewestFirst(acked) + receipts)
  }

  function NewestFirst(acked: seq<Id>): seq<Id> {
    if acked == [] then [] else NewestFirst(acked[1..]) + [acked[0]]
  }

  // ---------------------------------------------------------------- lemmas about the closed form

  lemma ReceiptsCompose(id: Id, acked: seq<Id>, before: seq<Id>)
    ensures ReceiptsAfter(NewestReceipts(before, id), acked) == ReceiptsAfter(before, [id] + acked)
  {
    assert ([id] + acked)[1..] == acked;
    assert NewestFirst([id] + acked) + before == NewestFirst(acked) + ([id] + before);
    var front := NewestFirst(acked);
    assert acked == [] ==> front + ([id] + before) == [id] + before;
    if |[id] + before| > RECEIPT_LIMIT {
      assert (front + ([id] + before)[..RECEIPT_LIMIT]) == (front + ([id] + before))[..|front| + RECEIPT_LIMIT];
    }
  }

  lemma LeadsOutsideCompose(leads: seq<Lead>, leads': seq<Lead>, queue: seq<nat>, id: Id, ids: seq<Id>)
    requires |leads'| == |leads| && LeadsEvolve(leads, leads')
    ensures LeadsOutside(leads', LeadsExcept(leads, queue, id), ids) == LeadsOutside(leads, queue, [id] + ids)
  {
    FilterTwice(queue, (r: nat) => !IsLead(leads, r, id), (r: nat) => !(r < |leads'| && leads'[r].submissionId in ids),
                (r: nat) => !(r < |leads| && leads[r].submissionId in [id] + ids));
  }

  lemma RequestsOutsideCompose(requests: seq<Request>, requests': seq<Request>, queue: seq<nat>, id: Id, ids: seq<Id>)
    requires |requests'| == |requests| && RequestsEvolve(requests, requests')
    ensures RequestsOutside(requests', RequestsExcept(requests, queue, id), ids) == RequestsOutside(requests, queue, [id] + ids)
  {
    FilterTwice(queue, (r: nat) => !IsRequest(requests, r, id), (r: nat) => !(r < |requests'| && requests'[r].submissionId in ids),
                (r: nat) => !(r < |requests| && requests[r].submissionId in [id] + ids));
  }

  lemma LeadsOutsideAgree(leads: seq<Lead>, leads': seq<Lead>, queue: seq<nat>, ids: seq<Id>)
    requires |leads'| == |leads| && LeadsEvolve(leads, leads')
    ensures LeadsOutside(leads', queue, ids) == LeadsOutside(leads, queue, ids)
  {
    FilterAgrees(queue, (r: nat) => !(r < |leads'| && leads'[r].submissionId in ids),
                 (r: nat) => !(r < |leads| && leads[r].submissionId in ids));
  }

  lemma RequestsOutsideAgree(requests: seq<Request>, requests': seq<Request>, queue: seq<nat>, ids: seq<Id>)
    requires |requests'| == |requests| && RequestsEvolve(requests, requests')
    ensures RequestsOutside(requests', queue, ids) == RequestsOutside(requests, queue, ids)
  {
    FilterAgrees(queue, (r: nat) => !(r < |requests'| && requests'[r].submissionId in ids),
                 (r: nat) => !(r < |requests| && requests[r].submissionId in ids));
  }

  lemma OutsideNothing(leads: seq<Lead>, requests: seq<Request>, queue: seq<nat>)
    ensures LeadsOutside(leads, queue, []) == queue && RequestsOutside(requests, queue, []) == queue
  {
    FilterAll(queue, (r: nat) => !(r < |leads| && leads[r].submissionId in []));
    FilterAll(queue, (r: nat) => !(r < |requests| && requests[r].submissionId in []));
  }

  predicate Within(items: seq<nat>, size: nat) {
    forall i :: 0 <= i < |items| ==> items[i] < size
  }

  lemma WithinMeans(items: seq<nat>, size: nat)
    ensures Within(items, size) <==> forall r :: r in items ==> r < size
    ensures Within(items, size) && items != [] ==> items[0] < size && Within(items[1..], size)
  {
    assert forall i :: 0 <= i < |items| ==> items[i] in items;
  }

  // ---------------------------------------------------------------- what the lead loop leaves

  /** The first `i` replies let the loop reach its `i`-th lead. */
  predicate ReachesLead(replies: seq<LeadReply>, i: nat)
    requires i <= |replies|
  {
    forall j :: 0 <= j < i ==> !replies[j].LeadUnauthorized?
  }

  /** One lead of the loop: untouched unless posted, and then marked by its reply; who it is never changes. */
  predicate LeadSettled(before: Lead, posted: bool, reply: LeadReply, after: Lead) {
    if !posted then after == before
    else
      && after.submissionId == before.submissionId && after.contact == before.contact && after.attempts == before.attempts + 1
      && (reply.LeadUnauthorized? ==> after.status == Waiting)
      && (reply.LeadFailed? ==> after.status == Failed)
      && (reply.LeadAccepted? ==> after.status == Syncing)
  }

  ghost predicate LeadsSettled(leads: seq<Lead>, items: seq<nat>, replies: seq<LeadReply>, leads': seq<Lead>)
    requires |items| == |replies|
  {
    && |leads'| == |leads| && (forall r | 0 <= r < |leads| && r !in items :: leads'[r] == leads[r])
    && forall i | 0 <= i < |items| && items[i] < |leads| ::
         LeadSettled(leads[items[i]], ReachesLead(replies, i), replies[i], leads'[items[i]])
  }

  /** The queue keeps, in order, exactly the unacknowledged leads; the receipts are the newest 20, newest first. */
  ghost predicate Answers(p: Page, acked: seq<Id>, p': Page) {
    && p'.outbox == LeadsOutside(p.leads, p.outbox, acked)
    && p'.syncReceipts == ReceiptsAfter(p.syncReceipts, acked)
    && p'.reservationOutbox == p.reservationOutbox
    && p'.reservationReceipts == p.reservationReceipts
  }

  /** The `i`-th reply of the loop accepts the lead of the queued request `r`. */
  predicate AcceptsLeadOf(p: Page, items: seq<nat>, replies: seq<LeadReply>, i: nat, r: nat)
    requires |items| == |replies| && r < |p.requests|
  {
    && r in p.reservationOutbox && i < |items| && items[i] < |p.leads| && ReachesLead(replies, i) && replies[i].LeadAccepted?
    && p.leads[items[i]].submissionId == p.requests[r].leadSubmissionId
  }

  /** The queued requests of an accepted lead get the ids of the reply and wait again; no other request changes. */
  ghost predicate LinksGiven(p: Page, items: seq<nat>, replies: seq<LeadReply>, requests': seq<Request>)
    requires |items| == |replies|
  {
    && |requests'| == |p.requests|
    && forall r | 0 <= r < |p.requests| ::
         || (requests'[r] == p.requests[r] && forall i: nat :: !AcceptsLeadOf(p, items, replies, i, r))
         || exists i: nat :: AcceptsLeadOf(p, items, replies, i, r)
                        && requests'[r] == p.requests[r].(link := Some(replies[i].link), status := Waiting)
  }

  /** The objects that references name. */
  function Named<T>(heap: seq<T>, items: seq<nat>): (objects: seq<T>)
    requires Within(items, |heap|)
    ensures |objects| == |items| && forall i :: 0 <= i < |items| ==> objects[i] == heap[items[i]]
  {
    seq(|items|, i requires 0 <= i < |items| => heap[items[i]])
  }

  lemma NamedRest<T>(heap: seq<T>, items: seq<nat>, heap': seq<T>)
    requires Within(items, |heap|) && items != [] && Distinct(items) && |heap'| == |heap|
    requires forall r | 0 <= r < |heap| && r != items[0] :: heap'[r] == heap[r]
    ensures Within(items[1..], |heap'|) && Named(heap', items[1..]) == Named(heap, items)[1..]
  {
  }

  /** The posts of the loop, in order, as they go out; a 401 is the last. */
  function LeadPosts(leads: seq<Lead>, replies: seq<LeadReply>): seq<Message>
    requires |leads| == |replies|
  {
    if leads == [] then []
    else
      [LeadPost(leads[0].(status := Syncing, attempts := leads[0].attempts + 1))]
      + (if replies[0].LeadUnauthorized? then [] else LeadPosts(leads[1..], replies[1..]))
  }

  /** The lead loop from `p` over `items` is through, and `p'` is about to begin with the requests. */
  ghost predicate LeadLoopDone(p: Page, items: seq<nat>, replies: seq<LeadReply>, p': Page)
    requires |items| == |replies| && Within(items, |p.leads|)
  {
    && CoreOk(p')
    && Answers(p, AckedLeads(LeadIds(p.leads, items), replies), p')
    && LeadsSettled(p.leads, items, replies, p'.leads)
    && LinksGiven(p, items, replies, p'.requests)
    && p'.sent == p.sent + LeadPosts(Named(p.leads, items), replies)
  }

  // ---------------------------------------------------------------- one lead

  /** The page once the first lead has been posted and its reply recorded. */
  function LeadAnswered(p: Page, todo: seq<nat>, reply: LeadReply): Page
    requires todo != [] && todo[0] < |p.leads|
  {
    var posted := NextLead(p, todo);
    match reply
    case LeadAccepted(link) => AcknowledgeLead(posted, p.leads[todo[0]].submissionId, link)
    case LeadUnauthorized => SetLeadStatus(posted, todo[0], Waiting)
    case LeadFailed => SetLeadStatus(posted, todo[0], Failed)
  }

  function Acked(lead: Lead, reply: LeadReply): seq<Id> {
    if reply.LeadAccepted? then [lead.submissionId] else []
  }

  /** Then the loop is at its next lead, or past the loop after a 401. */
  lemma LeadAnsweredGoesOn(p: Page, todo: seq<nat>, reply: LeadReply)
    requires todo != [] && todo[0] < |p.leads|
    ensures PassStored(LeadReplied(NextLead(p, todo), reply))
         == if reply.LeadUnauthorized? then BeginRequests(LeadAnswered(p, todo, reply))
            else NextLead(LeadAnswered(p, todo, reply), todo[1..])
  {
    hide NewestReceipts, LinkRequests, LeadsExcept, BeginRequests;
    if reply.LeadUnauthorized? {
      BeginRequestsIsStored(LeadAnswered(p, todo, reply));
    } else {
      StoredAfterReply(p, todo, reply);
      NextIgnoresPass(LeadAnswered(p, todo, reply), StoringLead(todo[1..]), todo[1..]);
    }
  }

  lemma BeginRequestsIsStored(p: Page)
    ensures PassStored(BeginRequests(p)) == BeginRequests(p)
  {
    hide Eligible;
  }

  lemma StoredAfterReply(p: Page, todo: seq<nat>, reply: LeadReply)
    requires todo != [] && todo[0] < |p.leads| && !reply.LeadUnauthorized?
    ensures PassStored(LeadReplied(NextLead(p, todo), reply))
         == NextLead(LeadAnswered(p, todo, reply).(pass := StoringLead(todo[1..])), todo[1..])
  {
    hide NewestReceipts, LinkRequests, LeadsExcept;
    var posted := NextLead(p, todo);
    assert posted.leads[todo[0]].submissionId == p.leads[todo[0]].submissionId;
    assert posted.pass == PostingLead(todo[0], todo[1..]);
    assert LeadReplied(posted, reply) == LeadAnswered(p, todo, reply).(pass := StoringLead(todo[1..]));
    hide NextLead;
  }

  lemma LeadAnsweredOk(p: Page, todo: seq<nat>, reply: LeadReply)
    requires CoreOk(p) && todo != [] && todo[0] < |p.leads| && Within(todo, |p.leads|)
    ensures CoreOk(LeadAnswered(p, todo, reply))
  {
    NextLeadOk(p, todo);
    var posted := NextLead(p, todo);
    match reply
    case LeadAccepted(link) => AcknowledgingLeadOk(posted, p.leads[todo[0]].submissionId, link);
    case LeadUnauthorized => SetLeadStatusOk(posted, todo[0], Waiting);
    case LeadFailed => SetLeadStatusOk(posted, todo[0], Failed);
  }

  /** What posting the first lead and recording its reply does to the objects and to the messages. */
  ghost predicate FirstLeadMarked(p: Page, item: nat, reply: LeadReply, p0: Page)
    requires item < |p.leads|
  {
    && |p0.leads| == |p.leads| && LeadSettled(p.leads[item], true, reply, p0.leads[item])
    && (forall r | 0 <= r < |p.leads| && r != item :: p0.leads[r] == p.leads[r])
    && p0.reservationOutbox == p.reservationOutbox && |p0.requests| == |p.requests|
    && (forall r | 0 <= r < |p.requests| ::
          p0.requests[r] == if reply.LeadAccepted? && r in p.reservationOutbox
                               && p.requests[r].leadSubmissionId == p.leads[item].submissionId
                            then p.requests[r].(link := Some(reply.link), status := Waiting) else p.requests[r])
    && p0.sent == p.sent + [LeadPost(p.leads[item].(status := Syncing, attempts := p.leads[item].attempts + 1))]
  }

  lemma LeadAnsweredMarks(p: Page, todo: seq<nat>, reply: LeadReply)
    requires todo != [] && todo[0] < |p.leads|
    ensures FirstLeadMarked(p, todo[0], reply, LeadAnswered(p, todo, reply))
  {
    hide NewestReceipts, LeadsExcept;
  }

  lemma LeadAnsweredAnswers(p: Page, todo: seq<nat>, reply: LeadReply)
    requires todo != [] && todo[0] < |p.leads|
    ensures Answers(p, Acked(p.leads[todo[0]], reply), LeadAnswered(p, todo, reply))
  {
    hide LinkRequests;
    var p0, id, leads := LeadAnswered(p, todo, reply), p.leads[todo[0]].submissionId, NextLead(p, todo).leads;
    OutsideNothing(p.leads, p.requests, p.outbox);
    if reply.LeadAccepted? {
      LeadsOutsideCompose(leads, leads, p.outbox, id, []);
      OutsideNothing(leads, p.requests, LeadsExcept(leads, p.outbox, id));
      LeadsOutsideAgree(p.leads, leads, p.outbox, [id]);
      ReceiptsCompose(id, [], p.syncReceipts);
      assert [id] + [] == [id];
    }
  }

  // ---------------------------------------------------------------- composing the loop

  lemma AnswersCompose(p: Page, a: seq<Id>, p1: Page, b: seq<Id>, p2: Page)
    requires |a| <= 1 && LeadsEvolve(p.leads, p1.leads) && |p.leads| == |p1.leads|
    requires Answers(p, a, p1) && Answers(p1, b, p2)
    ensures Answers(p, a + b, p2)
  {
    if a == [] {
      OutsideNothing(p.leads, p.requests, p.outbox);
      LeadsOutsideAgree(p.leads, p1.leads, p.outbox, b);
      assert a + b == b;
    } else {
      assert a == [a[0]] + [] && a + b == [a[0]] + b;
      LeadsOutsideCompose(p.leads, p.leads, p.outbox, a[0], []);
      OutsideNothing(p.leads, p.requests, LeadsExcept(p.leads, p.outbox, a[0]));
      LeadsOutsideCompose(p.leads, p1.leads, p.outbox, a[0], b);
      assert ReceiptsAfter(p.syncReceipts, a) == NewestReceipts(p.syncReceipts, a[0]) by {
        ReceiptsCompose(a[0], [], p.syncReceipts);
      }
      ReceiptsCompose(a[0], b, p.syncReceipts);
    }
  }

  lemma LaterReach(replies: seq<LeadReply>, i: nat)
    requires 0 < i <= |replies|
    ensures ReachesLead(replies, i) <==> !replies[0].LeadUnauthorized? && ReachesLead(replies[1..], i - 1)
  {
    assert forall j :: 0 <= j < i - 1 ==> replies[1..][j] == replies[j + 1];
    if ReachesLead(replies[1..], i - 1) && !replies[0].LeadUnauthorized? {
      forall j | 0 <= j < i
        ensures !replies[j].LeadUnauthorized?
      {
        assert j > 0 ==> replies[1..][j - 1] == replies[j];
      }
    }
  }

  lemma LeadsSettledFirst(leads: seq<Lead>, items: seq<nat>, replies: seq<LeadReply>, leads0: seq<Lead>)
    requires |items| == |replies| && items != [] && Distinct(items) && items[0] < |leads| == |leads0|
    requires replies[0].LeadUnauthorized? && LeadSettled(leads[items[0]], true, replies[0], leads0[items[0]])
    requires forall r | 0 <= r < |leads| && r != items[0] :: leads0[r] == leads[r]
    ensures LeadsSettled(leads, items, replies, leads0)
  {
    forall i | 0 < i < |items|
      ensures !ReachesLead(replies, i) && items[i] != items[0]
    {
      LaterReach(replies, i);
    }
  }

  lemma LeadsSettledThen(leads: seq<Lead>, items: seq<nat>, replies: seq<LeadReply>, leads0: seq<Lead>, leads': seq<Lead>)
    requires |items| == |replies| && items != [] && Distinct(items) && items[0] < |leads| == |leads0|
    requires !replies[0].LeadUnauthorized? && LeadSettled(leads[items[0]], true, replies[0], leads0[items[0]])
    requires forall r | 0 <= r < |leads| && r != items[0] :: leads0[r] == leads[r]
    requires LeadsSettled(leads0, items[1..], replies[1..], leads')
    ensures LeadsSettled(leads, items, replies, leads')
  {
    hide LeadSettled;
    assert items[0] !in items[1..];
    forall i | 0 <= i < |items| && items[i] < |leads|
      ensures LeadSettled(leads[items[i]], ReachesLead(replies, i), replies[i], leads'[items[i]])
    {
      if i > 0 {
        LaterReach(replies, i);
        assert items[1..][i - 1] == items[i] && replies[1..][i - 1] == replies[i] && items[i] != items[0];
      }
    }
    forall r | 0 <= r < |leads| && r !in items
      ensures leads'[r] == leads[r]
    {
      assert items[0] in items && forall x :: x in items[1..] ==> x in items;
    }
  }

  lemma LaterAccepts(p: Page, items: seq<nat>, replies: seq<LeadReply>, p0: Page, i: nat, r: nat)
    requires |items| == |replies| && items != [] && 0 < i && r < |p.requests| && !replies[0].LeadUnauthorized?
    requires |p0.requests| == |p.requests| && p0.reservationOutbox == p.reservationOutbox && |p0.leads| == |p.leads|
    requires p0.requests[r].leadSubmissionId == p.requests[r].leadSubmissionId && LeadsEvolve(p.leads, p0.leads)
    ensures AcceptsLeadOf(p, items, replies, i, r) <==> AcceptsLeadOf(p0, items[1..], replies[1..], i - 1, r)
  {
    if i < |items| {
      LaterReach(replies, i);
    }
  }

  lemma LinksGivenThen(p: Page, items: seq<nat>, replies: seq<LeadReply>, p0: Page, requests': seq<Request>)
    requires |items| == |replies| && items != [] && items[0] < |p.leads| && !replies[0].LeadUnauthorized?
    requires FirstLeadMarked(p, items[0], replies[0], p0) && LeadsEvolve(p.leads, p0.leads)
    requires LinksGiven(p0, items[1..], replies[1..], requests')
    ensures LinksGiven(p, items, replies, requests')
  {
    forall r | 0 <= r < |p.requests|
      ensures || (requests'[r] == p.requests[r] && forall i: nat :: !AcceptsLeadOf(p, items, replies, i, r))
              || exists i: nat :: AcceptsLeadOf(p, items, replies, i, r)
                             && requests'[r] == p.requests[r].(link := Some(replies[i].link), status := Waiting)
    {
      forall i: nat | i > 0
        ensures AcceptsLeadOf(p, items, replies, i, r) <==> AcceptsLeadOf(p0, items[1..], replies[1..], i - 1, r)
      {
        LaterAccepts(p, items, replies, p0, i, r);
      }
      if later: nat :|
          AcceptsLeadOf(p0, items[1..], replies[1..], later, r)
          && requests'[r] == p0.requests[r].(link := Some(replies[1..][later].link), status := Waiting) {
        assert AcceptsLeadOf(p, items, replies, later + 1, r) && replies[1..][later] == replies[later + 1];
      } else {
        FirstAccepts(p, items, replies, r);
        assert requests'[r] == p0.requests[r];
        forall i: nat | i > 0
          ensures !AcceptsLeadOf(p, items, replies, i, r)
        {
          assert !AcceptsLeadOf(p0, items[1..], replies[1..], i - 1, r);
        }
      }
    }
  }

  lemma FirstAccepts(p: Page, items: seq<nat>, replies: seq<LeadReply>, r: nat)
    requires |items| == |replies| && items != [] && items[0] < |p.leads| && r < |p.requests|
    ensures AcceptsLeadOf(p, items, replies, 0, r)
       <==> replies[0].LeadAccepted? && r in p.reservationOutbox && p.requests[r].leadSubmissionId == p.leads[items[0]].submissionId
  {
  }

  lemma NothingLinked(p: Page, items: seq<nat>, replies: seq<LeadReply>)
    requires |items| == |replies| && (items == [] || replies[0].LeadUnauthorized?)
    ensures LinksGiven(p, items, replies, p.requests)
  {
    forall r, i | 0 <= r < |p.requests| && 0 < i < |items|
      ensures !AcceptsLeadOf(p, items, replies, i, r)
    {
      LaterReach(replies, i);
    }
  }

  lemma AckedFirst(leads: seq<Lead>, items: seq<nat>, replies: seq<LeadReply>, leads0: seq<Lead>)
    requires |items| == |replies| && items != [] && items[0] < |leads| && !replies[0].LeadUnauthorized?
    requires |leads0| == |leads| && LeadsEvolve(leads, leads0)
    ensures AckedLeads(LeadIds(leads, items), replies)
         == Acked(leads[items[0]], replies[0]) + AckedLeads(LeadIds(leads0, items[1..]), replies[1..])
  {
    assert LeadIds(leads, items)[1..] == LeadIds(leads0, items[1..]);
  }

  lemma FirstLeadEvolves(p: Page, item: nat, reply: LeadReply, p0: Page)
    requires item < |p.leads| && FirstLeadMarked(p, item, reply, p0)
    ensures LeadsEvolve(p.leads, p0.leads)
  {
  }

  lemma NoLeadsLeft(p: Page)
    requires CoreOk(p)
    ensures LeadLoopDone(p, [], [], p)
  {
    OutsideNothing(p.leads, p.requests, p.outbox);
    NothingLinked(p, [], []);
  }

  lemma {:induction false} UnauthorizedLead(p: Page, items: seq<nat>, replies: seq<LeadReply>)
    requires CoreOk(p) && |items| == |replies| && items != [] && Distinct(items) && Within(items, |p.leads|)
    requires items[0] < |p.leads| && replies[0].LeadUnauthorized?
    ensures LeadLoopDone(p, items, replies, LeadAnswered(p, items, replies[0]))
  {
    hide CoreOk, LeadAnswered, LeadLoopDone, FirstLeadMarked, Answers;
    LeadAnsweredOk(p, items, replies[0]);
    LeadAnsweredMarks(p, items, replies[0]);
    LeadAnsweredAnswers(p, items, replies[0]);
    LastLead(p, items, replies, LeadAnswered(p, items, replies[0]));
  }

  lemma {:induction false} LastLead(p: Page, items: seq<nat>, replies: seq<LeadReply>, p0: Page)
    requires |items| == |replies| && items != [] && Distinct(items) && Within(items, |p.leads|)
    requires FirstLeadMarked(p, items[0], replies[0], p0) && replies[0].LeadUnauthorized? && Answers(p, [], p0) && CoreOk(p0)
    ensures LeadLoopDone(p, items, replies, p0)
  {
    NothingChangesRequests(p, items[0], replies[0], p0);
    hide CoreOk, LeadSettled, LeadsSettled, LinksGiven, ReachesLead, Distinct;
    LeadsSettledFirst(p.leads, items, replies, p0.leads);
    NothingLinked(p, items, replies);
    assert AckedLeads(LeadIds(p.leads, items), replies) == [];
  }

  lemma NothingChangesRequests(p: Page, item: nat, reply: LeadReply, p0: Page)
    requires item < |p.leads| && FirstLeadMarked(p, item, reply, p0) && reply.LeadUnauthorized?
    ensures p0.requests == p.requests
  {
  }

  lemma {:induction false} EarlierPosts(p: Page, items: seq<nat>, replies: seq<LeadReply>, p0: Page)
    requires |items| == |replies| && items != [] && Distinct(items) && Within(items, |p.leads|)
    requires items[0] < |p.leads| && FirstLeadMarked(p, items[0], replies[0], p0) && !replies[0].LeadUnauthorized?
    requires Within(items[1..], |p0.leads|)
    ensures p0.sent + LeadPosts(Named(p0.leads, items[1..]), replies[1..]) == p.sent + LeadPosts(Named(p.leads, items), replies)
  {
    NamedRest(p.leads, items, p0.leads);
    var m := LeadPost(p.leads[items[0]].(status := Syncing, attempts := p.leads[items[0]].attempts + 1));
    assert p0.sent == p.sent + [m];
    PostsFollow(p.sent, m, LeadPosts(Named(p0.leads, items[1..]), replies[1..]));
  }

  lemma PostsFollow(sent: seq<Message>, m: Message, rest: seq<Message>)
    ensures (sent + [m]) + rest == sent + ([m] + rest)
  {
  }

  lemma EarlierAnswers(p: Page, items: seq<nat>, replies: seq<LeadReply>, p0: Page, p': Page)
    requires |items| == |replies| && items != [] && items[0] < |p.leads| && !replies[0].LeadUnauthorized?
    requires |p0.leads| == |p.leads| && LeadsEvolve(p.leads, p0.leads)
    requires Answers(p, Acked(p.leads[items[0]], replies[0]), p0)
    requires Answers(p0, AckedLeads(LeadIds(p0.leads, items[1..]), replies[1..]), p')
    ensures Answers(p, AckedLeads(LeadIds(p.leads, items), replies), p')
  {
    AckedFirst(p.leads, items, replies, p0.leads);
    AnswersCompose(p, Acked(p.leads[items[0]], replies[0]), p0, AckedLeads(LeadIds(p0.leads, items[1..]), replies[1..]), p');
  }

  lemma EarlierLead(p: Page, items: seq<nat>, replies: seq<LeadReply>, p0: Page, p': Page)
    requires |items| == |replies| && items != [] && Distinct(items) && Within(items, |p.leads|)
    requires items[0] < |p.leads| && FirstLeadMarked(p, items[0], replies[0], p0) && !replies[0].LeadUnauthorized?
    requires Answers(p, Acked(p.leads[items[0]], replies[0]), p0)
    requires Within(items[1..], |p0.leads|) && LeadLoopDone(p0, items[1..], replies[1..], p')
    ensures LeadLoopDone(p, items, replies, p')
  {
    FirstLeadEvolves(p, items[0], replies[0], p0);
    hide Answers, LeadsSettled, LinksGiven, LeadsEvolve, ReachesLead, LeadPosts, LeadSettled, CoreOk, Distinct;
    EarlierAnswers(p, items, replies, p0, p');
    EarlierPosts(p, items, replies, p0);
    LinksGivenThen(p, items, replies, p0, p'.requests);
    LeadsSettledThen(p.leads, items, replies, p0.leads, p'.leads);
  }

  /** The lead loop, for any replies: it ends at the head of the request loop. */
  lemma {:induction false} LeadLoopOutcome(p: Page, items: seq<nat>, replies: seq<LeadReply>) returns (p': Page)
    requires CoreOk(p) && |items| == |replies| && Distinct(items) && Within(items, |p.leads|)
    ensures LeadLoopDone(p, items, replies, p') && DriveLeads(NextLead(p, items), replies) == BeginRequests(p')
    decreases |items|
  {
    hide CoreOk, LeadAnswered, LeadLoopDone, BeginRequests, LeadReplied, PassStored;
    if items == [] {
      NoLeadsLeft(p);
      p' := p;
    } else {
      assert items[0] in items;
      var p0 := LeadAnswered(p, items, replies[0]);
      LeadAnsweredGoesOn(p, items, replies[0]);
      if replies[0].LeadUnauthorized? {
        UnauthorizedLead(p, items, replies);
        p' := p0;
        LoopOver(p0, replies[1..]);
      } else {
        LeadAnsweredOk(p, items, replies[0]);
        LeadAnsweredMarks(p, items, replies[0]);
        LeadAnsweredAnswers(p, items, replies[0]);
        assert forall r :: r in items[1..] ==> r in items;
        p' := LeadLoopOutcome(p0, items[1..], replies[1..]);
        EarlierLead(p, items, replies, p0, p');
      }
    }
  }

  lemma LoopOver(p: Page, replies: seq<LeadReply>)
    ensures DriveLeads(BeginRequests(p), replies) == BeginRequests(p)
  {
  }

  // ---------------------------------------------------------------- what the request loop leaves

  predicate ReachesRequest(turns: seq<Turn>, i: nat)
    requires i <= |turns|
  {
    forall j :: 0 <= j < i ==> !turns[j].reply.RequestUnauthorized?
  }

  /** One request of the loop: untouched unless posted, and then marked by its reply. */
  predicate RequestSettled(before: Request, posted: bool, reply: RequestReply, after: Request) {
    if !posted then after == before
    else
      && after.submissionId == before.submissionId && after.leadSubmissionId == before.leadSubmissionId
      && after.choice == before.choice && after.link == before.link && after.attempts == before.attempts + 1
      && (reply.RequestUnauthorized? ==> after.status == Waiting)
      && (reply.RequestConflict? ==> after.status == Conflict)
      && (reply.RequestFailed? ==> after.status == Failed)
      && (reply.RequestAccepted? ==> after.status == Syncing)
  }

  ghost predicate RequestsSettled(requests: seq<Request>, items: seq<nat>, turns: seq<Turn>, requests': seq<Request>)
    requires |items| == |turns|
  {
    && |requests'| == |requests| && (forall r | 0 <= r < |requests| && r !in items :: requests'[r] == requests[r])
    && forall i | 0 <= i < |items| && items[i] < |requests| ::
         RequestSettled(requests[items[i]], ReachesRequest(turns, i), turns[i].reply, requests'[items[i]])
  }

  /** The queue keeps, in order, exactly the unconfirmed requests. */
  ghost predicate Confirms(p: Page, acked: seq<Id>, p': Page) {
    && p'.reservationOutbox == RequestsOutside(p.requests, p.reservationOutbox, acked)
    && p'.reservationReceipts == ReceiptsAfter(p.reservationReceipts, acked)
    && p'.outbox == p.outbox && p'.leads == p.leads && p'.syncReceipts == p.syncReceipts
  }

  function RequestPosts(requests: seq<Request>, turns: seq<Turn>): seq<Message>
    requires |requests| == |turns|
  {
    if requests == [] then []
    else
      [RequestPost(requests[0].(status := Syncing, attempts := requests[0].attempts + 1))]
      + (if turns[0].reply.RequestUnauthorized? then [] else RequestPosts(requests[1..], turns[1..]))
  }

  /** The request loop from `p` over `items` is through, and with it the pass. */
  ghost predicate RequestLoopDone(p: Page, items: seq<nat>, turns: seq<Turn>, p': Page)
    requires |items| == |turns| && Within(items, |p.requests|)
  {
    && p'.pass.Idle? && PageOk(p')
    && Confirms(p, AckedRequests(RequestIds(p.requests, items), turns), p')
    && RequestsSettled(p.requests, items, turns, p'.requests)
    && p'.sent == p.sent + RequestPosts(Named(p.requests, items), turns)
  }

  /** The requests that the loop has copied are linked, different, and queued until they are confirmed. */
  ghost predicate Copied(p: Page, items: seq<nat>) {
    && Within(items, |p.requests|) && RequestsLinked(p.requests, items) && Distinct(items)
    && forall r :: r in items ==> r in p.reservationOutbox
  }

  // ---------------------------------------------------------------- one request

  /** The page once the first request has been posted and its reply recorded. */
  function RequestAnswered(p: Page, todo: seq<nat>, reply: RequestReply): Page
    requires todo != [] && todo[0] < |p.requests|
  {
    var posted := NextRequest(p, todo);
    match reply
    case RequestAccepted => AcknowledgeRequest(posted, p.requests[todo[0]].submissionId)
    case RequestUnauthorized => SetRequestStatus(posted, todo[0], Waiting)
    case RequestConflict => SetRequestStatus(posted, todo[0], Conflict)
    case RequestFailed => SetRequestStatus(posted, todo[0], Failed)
  }

  function Confirmed(q: Request, reply: RequestReply): seq<Id> {
    if reply.RequestAccepted? then [q.submissionId] else []
  }

  lemma CopiedFirst(p: Page, todo: seq<nat>)
    requires Copied(p, todo) && todo != []
    ensures todo[0] in todo && todo[0] < |p.requests| && todo[0] in p.reservationOutbox && todo[0] !in todo[1..]
    ensures RequestsLinked(p.requests, todo[1..]) && Distinct(todo[1..]) && [todo[0]] + todo[1..] == todo
  {
    assert forall r :: r in todo[1..] ==> r in todo;
  }

  lemma PostingIs(p: Page, todo: seq<nat>)
    requires CoreOk(p) && Copied(p, todo) && todo != []
    ensures var posted := NextRequest(p, todo);
            && todo[0] < |p.requests| && PageOk(posted) && posted.pass == PostingRequest(todo[0], todo[1..])
            && posted.reservationOutbox == p.reservationOutbox && todo[0] in p.reservationOutbox
            && posted.requests[todo[0]].submissionId == p.requests[todo[0]].submissionId
  {
    CopiedFirst(p, todo);
    NextRequestOk(p, todo);
  }

  /** A refresh that succeeds after a 409 puts the request, which is still queued, in conflict again. */
  lemma ConflictIsHeldAgain(p: Page, item: nat, rest: seq<nat>)
    requires PageOk(p) && p.pass == PostingRequest(item, rest) && item in p.reservationOutbox && item < |p.requests|
    ensures var p1 := PassStored(RequestReplied(p, RequestConflict));
            && p1 == SetRequestStatus(p, item, Conflict).(pass := RefreshingConflict(item, rest))
            && ConflictRefreshed(p1, true) == p1.(pass := StoringRequest(rest))
  {
    var p1 := PassStored(RequestReplied(p, RequestConflict));
    var id := p.requests[item].submissionId;
    var at := FindRequest(p1.requests, p1.reservationOutbox, id);
    assert IsRequest(p1.requests, item, id);
    assert p1.reservationOutbox[at.value] in p1.reservationOutbox;
    assert p1.reservationOutbox[at.value] == item;
    assert SetRequestStatus(p1, item, Conflict) == p1;
  }

  /** A pass at its next request, or over, takes no notice of a refresh or a write. */
  lemma NothingPending(p: Page, refreshed: bool)
    requires p.pass.Idle? || p.pass.PostingRequest?
    ensures PassStored(ConflictRefreshed(p, refreshed)) == p
  {
  }

  lemma PlainTurn(p: Page, todo: seq<nat>, t: Turn)
    requires todo != [] && todo[0] < |p.requests| && !t.reply.RequestConflict?
    ensures var p0 := RequestAnswered(p, todo, t.reply);
            TakeTurn(NextRequest(p, todo), t)
            == if t.reply.RequestUnauthorized? then p0.(pass := Idle) else NextRequest(p0, todo[1..])
  {
    hide AcknowledgeRequest;
    var posted, p0 := NextRequest(p, todo), RequestAnswered(p, todo, t.reply);
    NextIgnoresPass(p0, StoringRequest(todo[1..]), todo[1..]);
    NothingPending(PassStored(RequestReplied(posted, t.reply)), t.refreshed);
  }

  lemma ConflictTurn(p: Page, todo: seq<nat>, refreshed: bool)
    requires CoreOk(p) && Copied(p, todo) && todo != []
    ensures todo[0] < |p.requests|
    ensures TakeTurn(NextRequest(p, todo), Turn(RequestConflict, refreshed))
         == NextRequest(RequestAnswered(p, todo, RequestConflict), todo[1..])
  {
    PostingIs(p, todo);
    var posted, p0 := NextRequest(p, todo), RequestAnswered(p, todo, RequestConflict);
    ConflictIsHeldAgain(posted, todo[0], todo[1..]);
    NextIgnoresPass(p0, RefreshingConflict(todo[0], todo[1..]), todo[1..]);
    NextIgnoresPass(p0, StoringRequest(todo[1..]), todo[1..]);
  }

  /** Then the loop is at its next request, or over after a 401. */
  lemma RequestAnsweredGoesOn(p: Page, todo: seq<nat>, t: Turn)
    requires CoreOk(p) && Copied(p, todo) && todo != []
    ensures todo[0] < |p.requests|
    ensures var p0 := RequestAnswered(p, todo, t.reply);
            TakeTurn(NextRequest(p, todo), t)
            == if t.reply.RequestUnauthorized? then p0.(pass := Idle) else NextRequest(p0, todo[1..])
  {
    CopiedFirst(p, todo);
    if t.reply.RequestConflict? {
      ConflictTurn(p, todo, t.refreshed);
    } else {
      PlainTurn(p, todo, t);
    }
  }

  lemma RequestAnsweredOk(p: Page, todo: seq<nat>, reply: RequestReply)
    requires CoreOk(p) && Copied(p, todo) && todo != []
    ensures todo[0] < |p.requests| && CoreOk(RequestAnswered(p, todo, reply))
  {
    PostingIs(p, todo);
    var posted := NextRequest(p, todo);
    match reply
    case RequestAccepted => AcknowledgingRequestOk(posted, p.requests[todo[0]].submissionId);
    case RequestUnauthorized => SetRequestStatusOk(posted, todo[0], Waiting);
    case RequestConflict => SetRequestStatusOk(posted, todo[0], Conflict);
    case RequestFailed => SetRequestStatusOk(posted, todo[0], Failed);
  }

  ghost predicate FirstRequestMarked(p: Page, item: nat, reply: RequestReply, p0: Page)
    requires item < |p.requests|
  {
    && |p0.requests| == |p.requests| && RequestSettled(p.requests[item], true, reply, p0.requests[item])
    && (forall r | 0 <= r < |p.requests| && r != item :: p0.requests[r] == p.requests[r])
    && p0.sent == p.sent + [RequestPost(p.requests[item].(status := Syncing, attempts := p.requests[item].attempts + 1))]
  }

  lemma RequestAnsweredMarks(p: Page, todo: seq<nat>, reply: RequestReply)
    requires todo != [] && todo[0] < |p.requests|
    ensures FirstRequestMarked(p, todo[0], reply, RequestAnswered(p, todo, reply))
  {
    hide NewestReceipts, RequestsExcept;
  }

  lemma RequestAnsweredConfirms(p: Page, todo: seq<nat>, reply: RequestReply)
    requires todo != [] && todo[0] < |p.requests|
    ensures Confirms(p, Confirmed(p.requests[todo[0]], reply), RequestAnswered(p, todo, reply))
  {
    var id, requests := p.requests[todo[0]].submissionId, NextRequest(p, todo).requests;
    OutsideNothing(p.leads, p.requests, p.reservationOutbox);
    if reply.RequestAccepted? {
      RequestsOutsideCompose(requests, requests, p.reservationOutbox, id, []);
      OutsideNothing(p.leads, requests, RequestsExcept(requests, p.reservationOutbox, id));
      RequestsOutsideAgree(p.requests, requests, p.reservationOutbox, [id]);
      ReceiptsCompose(id, [], p.reservationReceipts);
      assert [id] + [] == [id];
    }
  }

  /** The requests still to post stay copied. */
  lemma RequestAnsweredCopied(p: Page, todo: seq<nat>, reply: RequestReply)
    requires CoreOk(p) && Copied(p, todo) && todo != [] && todo[0] < |p.requests|
    ensures Copied(RequestAnswered(p, todo, reply), todo[1..])
  {
    CopiedFirst(p, todo);
    RequestAnsweredMarks(p, todo, reply);
    var p0 := RequestAnswered(p, todo, reply);
    forall r | r in todo[1..]
      ensures r < |p0.requests| && p0.requests[r].link.Some? && r in p0.reservationOutbox
    {
      assert r in todo && r != todo[0];
      assert p.requests[r].submissionId != p.requests[todo[0]].submissionId;
    }
  }

  // ---------------------------------------------------------------- composing the loop

  lemma ConfirmsCompose(p: Page, a: seq<Id>, p1: Page, b: seq<Id>, p2: Page)
    requires |a| <= 1 && RequestsEvolve(p.requests, p1.requests) && |p.requests| == |p1.requests|
    requires Confirms(p, a, p1) && Confirms(p1, b, p2)
    ensures Confirms(p, a + b, p2)
  {
    if a == [] {
      OutsideNothing(p.leads, p.requests, p.reservationOutbox);
      RequestsOutsideAgree(p.requests, p1.requests, p.reservationOutbox, b);
      assert a + b == b;
    } else {
      assert a == [a[0]] + [] && a + b == [a[0]] + b;
      RequestsOutsideCompose(p.requests, p.requests, p.reservationOutbox, a[0], []);
      OutsideNothing(p.leads, p.requests, RequestsExcept(p.requests, p.reservationOutbox, a[0]));
      RequestsOutsideCompose(p.requests, p1.requests, p.reservationOutbox, a[0], b);
      assert ReceiptsAfter(p.reservationReceipts, a) == NewestReceipts(p.reservationReceipts, a[0]) by {
        ReceiptsCompose(a[0], [], p.reservationReceipts);
      }
      ReceiptsCompose(a[0], b, p.reservationReceipts);
    }
  }

  lemma LaterTurn(turns: seq<Turn>, i: nat)
    requires 0 < i <= |turns|
    ensures ReachesRequest(turns, i) <==> !turns[0].reply.RequestUnauthorized? && ReachesRequest(turns[1..], i - 1)
  {
    assert forall j :: 0 <= j < i - 1 ==> turns[1..][j] == turns[j + 1];
    if ReachesRequest(turns[1..], i - 1) && !turns[0].reply.RequestUnauthorized? {
      forall j | 0 <= j < i
        ensures !turns[j].reply.RequestUnauthorized?
      {
        assert j > 0 ==> turns[1..][j - 1] == turns[j];
      }
    }
  }

  lemma RequestsSettledFirst(requests: seq<Request>, items: seq<nat>, turns: seq<Turn>, requests0: seq<Request>)
    requires |items| == |turns| && items != [] && Distinct(items) && items[0] < |requests| == |requests0|
    requires turns[0].reply.RequestUnauthorized? && RequestSettled(requests[items[0]], true, turns[0].reply, requests0[items[0]])
    requires forall r | 0 <= r < |requests| && r != items[0] :: requests0[r] == requests[r]
    ensures RequestsSettled(requests, items, turns, requests0)
  {
    forall i | 0 < i < |items|
      ensures !ReachesRequest(turns, i) && items[i] != items[0]
    {
      LaterTurn(turns, i);
    }
  }

  lemma RequestsSettledThen(requests: seq<Request>, items: seq<nat>, turns: seq<Turn>, requests0: seq<Request>, requests': seq<Request>)
    requires |items| == |turns| && items != [] && Distinct(items) && items[0] < |requests| == |requests0|
    requires !turns[0].reply.RequestUnauthorized? && RequestSettled(requests[items[0]], true, turns[0].reply, requests0[items[0]])
    requires forall r | 0 <= r < |requests| && r != items[0] :: requests0[r] == requests[r]
    requires RequestsSettled(requests0, items[1..], turns[1..], requests')
    ensures RequestsSettled(requests, items, turns, requests')
  {
    hide RequestSettled;
    assert items[0] !in items[1..];
    forall i | 0 <= i < |items| && items[i] < |requests|
      ensures RequestSettled(requests[items[i]], ReachesRequest(turns, i), turns[i].reply, requests'[items[i]])
    {
      if i > 0 {
        LaterTurn(turns, i);
        assert items[1..][i - 1] == items[i] && turns[1..][i - 1] == turns[i] && items[i] != items[0];
      }
    }
    forall r | 0 <= r < |requests| && r !in items
      ensures requests'[r] == requests[r]
    {
      assert items[0] in items && forall x :: x in items[1..] ==> x in items;
    }
  }

  lemma ConfirmedFirst(requests: seq<Request>, items: seq<nat>, turns: seq<Turn>, requests0: seq<Request>)
    requires |items| == |turns| && items != [] && items[0] < |requests| && !turns[0].reply.RequestUnauthorized?
    requires |requests0| == |requests| && RequestsEvolve(requests, requests0)
    ensures AckedRequests(RequestIds(requests, items), turns)
         == Confirmed(requests[items[0]], turns[0].reply) + AckedRequests(RequestIds(requests0, items[1..]), turns[1..])
  {
    assert RequestIds(requests, items)[1..] == RequestIds(requests0, items[1..]);
  }

  lemma FirstRequestEvolves(p: Page, item: nat, reply: RequestReply, p0: Page)
    requires item < |p.requests| && FirstRequestMarked(p, item, reply, p0)
    ensures RequestsEvolve(p.requests, p0.requests)
  {
  }

  lemma {:induction false} EarlierRequestPosts(p: Page, items: seq<nat>, turns: seq<Turn>, p0: Page)
    requires |items| == |turns| && items != [] && Distinct(items) && Within(items, |p.requests|)
    requires items[0] < |p.requests| && FirstRequestMarked(p, items[0], turns[0].reply, p0)
    requires !turns[0].reply.RequestUnauthorized? && Within(items[1..], |p0.requests|)
    ensures p0.sent + RequestPosts(Named(p0.requests, items[1..]), turns[1..]) == p.sent + RequestPosts(Named(p.requests, items), turns)
  {
    NamedRest(p.requests, items, p0.requests);
    var m := RequestPost(p.requests[items[0]].(status := Syncing, attempts := p.requests[items[0]].attempts + 1));
    assert p0.sent == p.sent + [m];
    PostsFollow(p.sent, m, RequestPosts(Named(p0.requests, items[1..]), turns[1..]));
  }

  lemma EarlierConfirms(p: Page, items: seq<nat>, turns: seq<Turn>, p0: Page, p': Page)
    requires |items| == |turns| && items != [] && items[0] < |p.requests| && !turns[0].reply.RequestUnauthorized?
    requires |p0.requests| == |p.requests| && RequestsEvolve(p.requests, p0.requests)
    requires Confirms(p, Confirmed(p.requests[items[0]], turns[0].reply), p0)
    requires Confirms(p0, AckedRequests(RequestIds(p0.requests, items[1..]), turns[1..]), p')
    ensures Confirms(p, AckedRequests(RequestIds(p.requests, items), turns), p')
  {
    ConfirmedFirst(p.requests, items, turns, p0.requests);
    ConfirmsCompose(p, Confirmed(p.requests[items[0]], turns[0].reply), p0,
                    AckedRequests(RequestIds(p0.requests, items[1..]), turns[1..]), p');
  }

  lemma NoRequestsLeft(p: Page)
    requires CoreOk(p)
    ensures RequestLoopDone(p, [], [], NextRequest(p, []))
  {
    NextRequestOk(p, []);
    OutsideNothing(p.leads, p.requests, p.reservationOutbox);
  }

  lemma StopsOk(p: Page)
    requires CoreOk(p)
    ensures PageOk(p.(pass := Idle))
  {
    WaitingOk(p, Idle);
  }

  lemma {:induction false} UnauthorizedRequest(p: Page, items: seq<nat>, turns: seq<Turn>)
    requires CoreOk(p) && Copied(p, items) && |items| == |turns| && items != [] && items[0] < |p.requests|
    requires turns[0].reply.RequestUnauthorized?
    ensures RequestLoopDone(p, items, turns, RequestAnswered(p, items, turns[0].reply).(pass := Idle))
  {
    CopiedFirst(p, items);
    hide CoreOk, RequestAnswered, RequestsLinked, RequestLoopDone, FirstRequestMarked, Confirms, PageOk;
    RequestAnsweredOk(p, items, turns[0].reply);
    StopsOk(RequestAnswered(p, items, turns[0].reply));
    RequestAnsweredMarks(p, items, turns[0].reply);
    RequestAnsweredConfirms(p, items, turns[0].reply);
    LastRequest(p, items, turns, RequestAnswered(p, items, turns[0].reply));
  }

  lemma {:induction false} LastRequest(p: Page, items: seq<nat>, turns: seq<Turn>, p0: Page)
    requires |items| == |turns| && items != [] && Distinct(items) && Within(items, |p.requests|)
    requires FirstRequestMarked(p, items[0], turns[0].reply, p0) && turns[0].reply.RequestUnauthorized?
    requires Confirms(p, [], p0) && PageOk(p0.(pass := Idle))
    ensures RequestLoopDone(p, items, turns, p0.(pass := Idle))
  {
    hide PageOk, RequestSettled, RequestsSettled, ReachesRequest, Distinct;
    RequestsSettledFirst(p.requests, items, turns, p0.requests);
    assert AckedRequests(RequestIds(p.requests, items), turns) == [];
  }

  lemma EarlierRequest(p: Page, items: seq<nat>, turns: seq<Turn>, p0: Page, p': Page)
    requires |items| == |turns| && items != [] && Distinct(items) && Within(items, |p.requests|)
    requires items[0] < |p.requests| && FirstRequestMarked(p, items[0], turns[0].reply, p0)
    requires !turns[0].reply.RequestUnauthorized? && Confirms(p, Confirmed(p.requests[items[0]], turns[0].reply), p0)
    requires Within(items[1..], |p0.requests|) && RequestLoopDone(p0, items[1..], turns[1..], p')
    ensures RequestLoopDone(p, items, turns, p')
  {
    FirstRequestEvolves(p, items[0], turns[0].reply, p0);
    hide PageOk, Confirms, RequestSettled, RequestsSettled, RequestsEvolve, ReachesRequest, RequestPosts, Distinct;
    EarlierConfirms(p, items, turns, p0, p');
    EarlierRequestPosts(p, items, turns, p0);
    RequestsSettledThen(p.requests, items, turns, p0.requests, p'.requests);
  }

  /** The request loop, for any replies, whatever comes of the refreshes after a 409. */
  lemma {:induction false} RequestLoopOutcome(p: Page, items: seq<nat>, turns: seq<Turn>)
    requires CoreOk(p) && Copied(p, items) && |items| == |turns|
    ensures RequestLoopDone(p, items, turns, DriveRequests(NextRequest(p, items), turns))
    decreases |items|
  {
    hide CoreOk, RequestAnswered, RequestLoopDone, TakeTurn;
    if items == [] {
      NoRequestsLeft(p);
    } else {
      CopiedFirst(p, items);
      var p0 := RequestAnswered(p, items, turns[0].reply);
      RequestAnsweredGoesOn(p, items, turns[0]);
      if turns[0].reply.RequestUnauthorized? {
        UnauthorizedRequest(p, items, turns);
        assert DriveRequests(p0.(pass := Idle), turns[1..]) == p0.(pass := Idle);
      } else {
        RequestAnsweredOk(p, items, turns[0].reply);
        RequestAnsweredCopied(p, items, turns[0].reply);
        RequestAnsweredMarks(p, items, turns[0].reply);
        RequestAnsweredConfirms(p, items, turns[0].reply);
        RequestLoopOutcome(p0, items[1..], turns[1..]);
        EarlierRequest(p, items, turns, p0, DriveRequests(NextRequest(p0, items[1..]), turns[1..]));
      }
    }
  }

  // ---------------------------------------------------------------- the whole pass

  lemma LeadTurnOrphansNothing(p: Page, reply: LeadReply)
    requires PageOk(p) && NoOrphans(p)
    ensures var p' := PassStored(LeadReplied(p, reply)); PageOk(p') && NoOrphans(p')
  {
    hide PageOk, NoOrphans, LeadReplied, PassStored;
    LeadRepliedOk(p, reply);
    PassStepOrphansNothing(p, RepliesToLead(reply));
    PassStoredOk(LeadReplied(p, reply));
    PassStepOrphansNothing(LeadReplied(p, reply), ResumesPass);
  }

  lemma PassStepOrphansNothing(p: Page, e: Event)
    requires PageOk(p) && NoOrphans(p) && !e.EndsDownload?
    ensures NoOrphans(PageStep(p, e))
  {
    hide NoOrphans, PageStep;
    PageStepOrphansNothing(p, e);
  }

  lemma RequestTurnOrphansNothing(p: Page, t: Turn)
    requires PageOk(p) && NoOrphans(p)
    ensures PageOk(TakeTurn(p, t)) && NoOrphans(TakeTurn(p, t))
  {
    hide PageOk, NoOrphans, RequestReplied, ConflictRefreshed, PassStored;
    RequestRepliedOk(p, t.reply);
    PassStepOrphansNothing(p, RepliesToRequest(t.reply));
    var p1 := RequestReplied(p, t.reply);
    PassStoredOk(p1);
    PassStepOrphansNothing(p1, ResumesPass);
    ConflictRefreshedOk(PassStored(p1), t.refreshed);
    PassStepOrphansNothing(PassStored(p1), RefreshesConflict(t.refreshed));
    var p2 := ConflictRefreshed(PassStored(p1), t.refreshed);
    PassStoredOk(p2);
    PassStepOrphansNothing(p2, ResumesPass);
  }

  lemma {:induction false} DrivingLeadsOrphansNothing(p: Page, replies: seq<LeadReply>)
    requires PageOk(p) && NoOrphans(p)
    ensures PageOk(DriveLeads(p, replies)) && NoOrphans(DriveLeads(p, replies))
    decreases |replies|
  {
    hide PageOk, NoOrphans, LeadReplied, PassStored;
    if p.pass.PostingLead? && replies != [] {
      LeadTurnOrphansNothing(p, replies[0]);
      DrivingLeadsOrphansNothing(PassStored(LeadReplied(p, replies[0])), replies[1..]);
    }
  }

  lemma {:induction false} DrivingRequestsOrphansNothing(p: Page, turns: seq<Turn>)
    requires PageOk(p) && NoOrphans(p)
    ensures PageOk(DriveRequests(p, turns)) && NoOrphans(DriveRequests(p, turns))
    decreases |turns|
  {
    hide PageOk, NoOrphans, TakeTurn;
    if p.pass.PostingRequest? && turns != [] {
      RequestTurnOrphansNothing(p, turns[0]);
      DrivingRequestsOrphansNothing(TakeTurn(p, turns[0]), turns[1..]);
    }
  }

  lemma PassOrphansNothing(p: Page, replies: seq<LeadReply>, turns: seq<Turn>)
    requires PageOk(p) && NoOrphans(p)
    ensures var mid := DriveLeads(BeginPass(p), replies); NoOrphans(mid) && NoOrphans(DriveRequests(mid, turns))
  {
    hide PageOk, NoOrphans, BeginPass;
    PassStepOk(p, BeginsPass);
    PassStepOrphansNothing(p, BeginsPass);
    DrivingLeadsOrphansNothing(BeginPass(p), replies);
    DrivingRequestsOrphansNothing(DriveLeads(BeginPass(p), replies), turns);
  }

  lemma EligibleIsCopied(p: Page)
    requires CoreOk(p)
    ensures Copied(p, Eligible(p.requests, p.reservationOutbox))
  {
    FilterKeepsDistinct(p.reservationOutbox, (r: nat) => IsEligible(p.requests, r));
    WithinMeans(Eligible(p.requests, p.reservationOutbox), |p.requests|);
  }

  /** The requests that a pass posts once its leads are through: the queued ones that are linked and not in conflict. */
  function Posted(p: Page, replies: seq<LeadReply>): seq<nat> {
    var pass := DriveLeads(BeginPass(p), replies).pass;
    if pass.PostingRequest? then [pass.item] + pass.rest else []
  }

  /**
   Outcome of one uninterrupted pass, for any replies to the leads and then to the requests: first the lead loop, over
   the queue as it was, leaving `mid`; then the request loop, over what is linked and not in conflict in `mid`.
   */
  lemma PassOutcome(p: Page, replies: seq<LeadReply>, turns: seq<Turn>) returns (mid: Page)
    requires PageOk(p) && p.pass.Idle? && HasWork(p) && |replies| == |p.outbox| && |turns| == |Posted(p, replies)|
    ensures Within(p.outbox, |p.leads|) && LeadLoopDone(p, p.outbox, replies, mid) && Copied(mid, Posted(p, replies))
    ensures forall r :: r in Posted(p, replies) <==>
                          && r in p.reservationOutbox && r < |mid.requests|
                          && mid.requests[r].link.Some? && mid.requests[r].status != Conflict
    ensures var end := DriveRequests(DriveLeads(BeginPass(p), replies), turns);
            RequestLoopDone(mid, Posted(p, replies), turns, end) && (NoOrphans(p) ==> NoOrphans(end))
  {
    hide CoreOk, PageOk, NoOrphans, HasWork, BeginPass, DriveLeads, DriveRequests, RequestLoopDone, Posted, Copied;
    mid := LeadPhase(p, replies);
    RequestPhase(p, replies, mid, turns);
    if NoOrphans(p) {
      PassOrphansNothing(p, replies, turns);
    }
  }

  lemma LeadPhase(p: Page, replies: seq<LeadReply>) returns (mid: Page)
    requires PageOk(p) && p.pass.Idle? && HasWork(p) && |replies| == |p.outbox|
    ensures Within(p.outbox, |p.leads|) && LeadLoopDone(p, p.outbox, replies, mid)
    ensures DriveLeads(BeginPass(p), replies) == BeginRequests(mid)
  {
    assert BeginPass(p) == NextLead(p, p.outbox);
    WithinMeans(p.outbox, |p.leads|);
    hide LeadLoopDone, NextLead, BeginPass, BeginRequests, HasWork;
    mid := LeadLoopOutcome(p, p.outbox, replies);
  }

  lemma BeginsWith(p: Page, todo: seq<nat>)
    requires CoreOk(p) && Copied(p, todo) && todo == Eligible(p.requests, p.reservationOutbox)
    ensures BeginRequests(p) == NextRequest(p, todo)
    ensures var pass := BeginRequests(p).pass; todo == if pass.PostingRequest? then [pass.item] + pass.rest else []
  {
    if todo != [] {
      CopiedFirst(p, todo);
    }
  }

  lemma PostedIs(p: Page, replies: seq<LeadReply>, mid: Page)
    requires CoreOk(mid) && DriveLeads(BeginPass(p), replies) == BeginRequests(mid)
    ensures Posted(p, replies) == Eligible(mid.requests, mid.reservationOutbox) && Copied(mid, Posted(p, replies))
    ensures BeginRequests(mid) == NextRequest(mid, Posted(p, replies))
  {
    hide CoreOk, BeginPass, DriveLeads, BeginRequests, Eligible, NextRequest, Copied;
    EligibleIsCopied(mid);
    BeginsWith(mid, Eligible(mid.requests, mid.reservationOutbox));
  }

  lemma RequestPhase(p: Page, replies: seq<LeadReply>, mid: Page, turns: seq<Turn>)
    requires CoreOk(mid) && DriveLeads(BeginPass(p), replies) == BeginRequests(mid) && |turns| == |Posted(p, replies)|
    ensures Copied(mid, Posted(p, replies))
    ensures forall r :: r in Posted(p, replies) <==>
                          && r in mid.reservationOutbox && r < |mid.requests|
                          && mid.requests[r].link.Some? && mid.requests[r].status != Conflict
    ensures RequestLoopDone(mid, Posted(p, replies), turns, DriveRequests(DriveLeads(BeginPass(p), replies), turns))
  {
    PostedIs(p, replies, mid);
    hide CoreOk, BeginPass, DriveLeads, BeginRequests, NextRequest, RequestLoopDone, Posted;
    RequestLoopOutcome(mid, Posted(p, replies), turns);
  }

  /**
   A request that was queued is in conflict at the end of a pass if and only if it was answered 409 in it, or was in
   conflict before and its lead was not accepted in it.
   */
  lemma ConflictAfterPassIff(p: Page, replies: seq<LeadReply>, turns: seq<Turn>, r: nat)
    requires PageOk(p) && p.pass.Idle? && HasWork(p) && |replies| == |p.outbox| && |turns| == |Posted(p, replies)|
    requires r in p.reservationOutbox
    ensures var end, items := DriveRequests(DriveLeads(BeginPass(p), replies), turns), Posted(p, replies);
            && r < |p.requests| && r < |end.requests|
            && (end.requests[r].status.Conflict?
                <==> || (exists i :: 0 <= i < |items| && items[i] == r && ReachesRequest(turns, i) && turns[i].reply.RequestConflict?)
                     || (p.requests[r].status.Conflict? && forall i: nat :: !AcceptsLeadOf(p, p.outbox, replies, i, r)))
  {
    hide HasWork, BeginPass, DriveLeads, DriveRequests, Posted, LeadLoopDone, RequestLoopDone, Copied, LinkedOrWaiting;
    var mid := PassOutcome(p, replies, turns);
    ConflictFromMid(p, replies, mid, Posted(p, replies), turns, DriveRequests(DriveLeads(BeginPass(p), replies), turns), r);
  }

  lemma {:induction false} ConflictFromMid(p: Page, replies: seq<LeadReply>, mid: Page, items: seq<nat>, turns: seq<Turn>, end: Page, r: nat)
    requires PageOk(p) && |replies| == |p.outbox| && |turns| == |items| && r in p.reservationOutbox
    requires Within(p.outbox, |p.leads|) && LeadLoopDone(p, p.outbox, replies, mid)
    requires Copied(mid, items) && RequestLoopDone(mid, items, turns, end)
    requires r in items <==> r < |mid.requests| && mid.requests[r].link.Some? && mid.requests[r].status != Conflict
    ensures r < |p.requests| && r < |end.requests|
    ensures end.requests[r].status.Conflict?
       <==> || (exists i :: 0 <= i < |items| && items[i] == r && ReachesRequest(turns, i) && turns[i].reply.RequestConflict?)
            || (p.requests[r].status.Conflict? && forall i: nat :: !AcceptsLeadOf(p, p.outbox, replies, i, r))
  {
    assert r < |p.requests| == |mid.requests|;
    assert LinksGiven(p, p.outbox, replies, mid.requests) && RequestsSettled(mid.requests, items, turns, end.requests);
    hide PageOk, LeadLoopDone, RequestLoopDone, Answers, Confirms, ReachesLead, ReachesRequest, Within;
    if r in items {
      var i :| 0 <= i < |items| && items[i] == r;
      assert forall j :: 0 <= j < |items| && items[j] == r ==> j == i;
    }
  }

  lemma {:induction false} AllAcked(ids: seq<Id>, replies: seq<LeadReply>)
    requires |ids| == |replies| && forall reply :: reply in replies ==> reply.LeadAccepted?
    ensures AckedLeads(ids, replies) == ids
  {
    if ids != [] {
      assert replies[0] in replies;
      AllAcked(ids[1..], replies[1..]);
    }
  }

  lemma {:induction false} AckedContains(ids: seq<Id>, turns: seq<Turn>, i: nat)
    requires |ids| == |turns| && i < |ids| && turns[i].reply.RequestAccepted? && ReachesRequest(turns, i)
    ensures ids[i] in AckedRequests(ids, turns)
  {
    if i > 0 {
      assert forall j :: 0 <= j < i - 1 ==> turns[1..][j] == turns[j + 1];
      AckedContains(ids[1..], turns[1..], i - 1);
    }
  }

  /** If every lead is accepted and every request accepted or answered 409, only conflicts remain. */
  lemma OnlyConflictsRemain(p: Page, replies: seq<LeadReply>, turns: seq<Turn>)
    requires PageOk(p) && NoOrphans(p) && p.pass.Idle? && HasWork(p)
    requires |replies| == |p.outbox| && |turns| == |Posted(p, replies)|
    requires forall reply :: reply in replies ==> reply.LeadAccepted?
    requires forall t :: t in turns ==> t.reply.RequestAccepted? || t.reply.RequestConflict?
    ensures var end := DriveRequests(DriveLeads(BeginPass(p), replies), turns);
            end.outbox == [] && PageOk(end) && NoOrphans(end) && forall r :: r in end.reservationOutbox ==> end.requests[r].status.Conflict?
  {
    hide DriveLeads, DriveRequests, BeginPass, Posted, HasWork;
    var mid := PassOutcome(p, replies, turns);
    var end, items := DriveRequests(DriveLeads(BeginPass(p), replies), turns), Posted(p, replies);
    AllAcked(LeadIds(p.leads, p.outbox), replies);
    NoLeadsOutside(p.leads, p.outbox);
    assert mid.outbox == [];
    PassOrphansNothing(p, replies, turns);
    forall r | r in end.reservationOutbox
      ensures r < |end.requests| && end.requests[r].status.Conflict?
    {
      RemainingIsHeld(p, replies, mid, items, turns, end, r);
    }
  }

  lemma {:induction false} RemainingIsHeld(p: Page, replies: seq<LeadReply>, mid: Page, items: seq<nat>, turns: seq<Turn>, end: Page, r: nat)
    requires CoreOk(mid) && mid.outbox == [] && NoOrphans(end) && PageOk(end)
    requires Copied(mid, items) && |items| == |turns| && RequestLoopDone(mid, items, turns, end)
    requires forall t :: t in turns ==> t.reply.RequestAccepted? || t.reply.RequestConflict?
    requires forall t :: t in items <==> t in mid.reservationOutbox && t < |mid.requests| && IsEligible(mid.requests, t)
    requires r in end.reservationOutbox
    ensures r < |end.requests| && end.requests[r].status.Conflict?
  {
    assert forall i :: 0 <= i < |turns| ==> turns[i] in turns;
    assert r in mid.reservationOutbox && LinkedOrWaiting(end, r) && end.outbox == [];
    assert !LeadQueued(end, end.requests[r].leadSubmissionId);
    hide PageOk, CoreOk, NoOrphans, LinkedOrWaiting, Within;
    if r in items {
      var i :| 0 <= i < |items| && items[i] == r;
      assert ReachesRequest(turns, i);
      if turns[i].reply.RequestAccepted? {
        AckedContains(RequestIds(mid.requests, items), turns, i);
      }
    }
  }

  lemma NoLeadsOutside(leads: seq<Lead>, queue: seq<nat>)
    requires forall r :: r in queue ==> r < |leads|
    ensures LeadsOutside(leads, queue, LeadIds(leads, queue)) == []
  {
    var ids := LeadIds(leads, queue);
    forall r | r in queue
      ensures leads[r].submissionId in ids
    {
      var i :| 0 <= i < |queue| && queue[i] == r;
      assert ids[i] == leads[r].submissionId;
    }
    FilterNone(queue, (r: nat) => !(r < |leads| && leads[r].submissionId in ids));
  }
}
