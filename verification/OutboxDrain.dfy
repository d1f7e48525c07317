/** The queues can always be emptied: one pass, answered as the server may answer, delivers everything not on hold. */
module OutboxDrain {
  import opened Collections
  import opened OutboxPage
  import opened OutboxWorld
  import opened OutboxInvariant
  import opened OutboxTheorems
  import opened OutboxPass
  import opened OutboxRearm

  predicate AllUnprompted(es: seq<Event>) {
    forall e :: e in es ==> Unprompted(e)
  }

  lemma {:induction false} RunAfter(s: State, es: seq<Event>, more: seq<Event>)
    ensures Run(s, es + more) == Run(Run(s, es), more)
    decreases |es|
  {
    if es == [] {
      assert es + more == more;
    } else {
      assert (es + more)[0] == es[0] && (es + more)[1..] == es[1..] + more;
      RunAfter(Step(s, es[0]), es[1..], more);
    }
  }

  lemma RunTwo(s: State, e: Event, f: Event)
    ensures Run(s, [e, f]) == Step(Step(s, e), f)
  {
    assert [e, f][1..] == [f] && [f][1..] == [];
    assert Run(Step(s, e), [f]) == Run(Step(Step(s, e), f), []);
  }

  lemma RunOne(s: State, e: Event)
    ensures Run(s, [e]) == Step(s, e)
  {
    assert [e][1..] == [];
  }

  // ---------------------------------------------------------------- the leads

  /** The server has the leads, and every link of the replies. */
  ghost predicate LeadsHeld(log: seq<Record>, leads: seq<Lead>, items: seq<nat>, replies: seq<LeadReply>) {
    && |items| == |replies|
    && forall i | 0 <= i < |items| && items[i] < |leads| ::
         && replies[i].LeadAccepted? && LeadRecord(leads[items[i]].submissionId, replies[i].link) in log
  }

  /** The first lead is delivered, if need be, and accepted; the loop is then at the next one. */
  lemma FirstServed(s: State, p: Page, todo: seq<nat>) returns (es: seq<Event>, reply: LeadReply)
    requires CoreOk(p) && todo != [] && todo[0] < |p.leads| && s.page == NextLead(p, todo)
    ensures AllUnprompted(es) && reply.LeadAccepted? && s.log <= Run(s, es).log
    ensures Run(s, es).page == NextLead(LeadAnswered(p, todo, reply), todo[1..])
    ensures LeadRecord(p.leads[todo[0]].submissionId, reply.link) in Run(s, es).log
  {
    var served, link := Answerable(s, p, todo);
    reply := LeadAccepted(link);
    var s1 := Run(s, served);
    ServingGrowsLog(s, served);
    var e := RepliesToLead(reply);
    RunTwo(s1, e, ResumesPass);
    AcceptedSteps(s1, link);
    LeadAnsweredGoesOn(p, todo, reply);
    RepliesKeepLog(s1, e);
    RepliesKeepLog(Step(s1, e), ResumesPass);
    assert Step(Step(s1, e), ResumesPass).page == PassStored(LeadReplied(s1.page, reply)) by {
      AcceptingThenStoring(s1, reply);
    }
    RunAfter(s, served, [e, ResumesPass]);
    es := served + [e, ResumesPass];
  }

  lemma ServingGrowsLog(s: State, served: seq<Event>)
    requires served == [] || (|served| == 1 && served[0].Delivers?)
    ensures s.log <= Run(s, served).log && AllUnprompted(served)
  {
    if served != [] {
      assert served == [served[0]];
      RunOne(s, served[0]);
    }
  }

  lemma RepliesKeepLog(s: State, e: Event)
    requires e.RepliesToLead? || e.RepliesToRequest? || e.ResumesPass? || e.BeginsPass?
    ensures Step(s, e).log == s.log
  {
    hide PageStep, SnapshotAfter;
  }

  lemma AcceptingThenStoring(s: State, reply: LeadReply)
    requires ReplyPossible(s, RepliesToLead(reply))
    ensures Step(Step(s, RepliesToLead(reply)), ResumesPass).page == PassStored(LeadReplied(s.page, reply))
  {
    hide LeadReplied, PassStored;
  }

  lemma {:induction false} LeadsServed(s: State, p: Page, todo: seq<nat>)
    returns (es: seq<Event>, replies: seq<LeadReply>, mid: Page)
    requires CoreOk(p) && Distinct(todo) && Within(todo, |p.leads|) && s.page == NextLead(p, todo)
    ensures AllUnprompted(es) && s.log <= Run(s, es).log && Run(s, es).page == BeginRequests(mid)
    ensures |replies| == |todo| && LeadLoopDone(p, todo, replies, mid) && LeadsHeld(Run(s, es).log, p.leads, todo, replies)
    decreases |todo|
  {
    hide LeadAnswered, LeadLoopDone, BeginRequests, NextLead, CoreOk, LeadsHeld;
    if todo == [] {
      es, replies, mid := [], [], p;
      NoLeadsLeft(p);
      NoLeadsNext(s, p);
    } else {
      var first, reply := FirstServed(s, p, todo);
      var s1, p0 := Run(s, first), LeadAnswered(p, todo, reply);
      LeadAnsweredOk(p, todo, reply);
      LeadAnsweredMarks(p, todo, reply);
      LeadAnsweredAnswers(p, todo, reply);
      assert |p0.leads| == |p.leads| by {
        FirstLeadSize(p, todo[0], reply, p0);
      }
      var rest, later: seq<LeadReply>;
      rest, later, mid := LeadsServed(s1, p0, todo[1..]);
      replies := [reply] + later;
      assert replies[1..] == later;
      EarlierLead(p, todo, replies, p0, mid);
      RunAfter(s, first, rest);
      es := first + rest;
      EarlierHeld(Run(s1, rest).log, s1.log, p, todo, replies, p0);
    }
  }

  lemma NoLeadsNext(s: State, p: Page)
    requires s.page == NextLead(p, [])
    ensures s.page == BeginRequests(p) && LeadsHeld(s.log, p.leads, [], [])
  {
  }

  lemma FirstLeadSize(p: Page, item: nat, reply: LeadReply, p0: Page)
    requires item < |p.leads| && FirstLeadMarked(p, item, reply, p0)
    ensures |p0.leads| == |p.leads|
  {
  }

  lemma EarlierHeld(log: seq<Record>, earlier: seq<Record>, p: Page, todo: seq<nat>, replies: seq<LeadReply>, p0: Page)
    requires earlier <= log && |todo| == |replies| && todo != [] && todo[0] < |p.leads| && replies[0].LeadAccepted?
    requires LeadRecord(p.leads[todo[0]].submissionId, replies[0].link) in earlier
    requires FirstLeadMarked(p, todo[0], replies[0], p0) && LeadsHeld(log, p0.leads, todo[1..], replies[1..])
    ensures LeadsHeld(log, p.leads, todo, replies)
  {
    FirstLeadEvolves(p, todo[0], replies[0], p0);
    assert forall r :: r in earlier ==> r in log;
    forall i | 0 <= i < |todo| && todo[i] < |p.leads|
      ensures replies[i].LeadAccepted? && LeadRecord(p.leads[todo[i]].submissionId, replies[i].link) in log
    {
      if i > 0 {
        assert todo[1..][i - 1] == todo[i] && replies[1..][i - 1] == replies[i];
      }
    }
  }

  // ---------------------------------------------------------------- the requests

  lemma AcceptedRequestGoesOn(s: State, p: Page, todo: seq<nat>)
    requires todo != [] && todo[0] < |p.requests| && s.page == NextRequest(p, todo)
    requires HasReservation(s.log, p.requests[todo[0]].submissionId)
    ensures Step(Step(s, RepliesToRequest(RequestAccepted)), ResumesPass).page
         == NextRequest(RequestAnswered(p, todo, RequestAccepted), todo[1..])
  {
    hide AcknowledgeRequest;
    NextIgnoresPass(RequestAnswered(p, todo, RequestAccepted), StoringRequest(todo[1..]), todo[1..]);
  }

  lemma RequestDelivered(s: State, p: Page, todo: seq<nat>)
    requires todo != [] && todo[0] < |p.requests| && s.page == NextRequest(p, todo)
    requires p.requests[todo[0]].link.Some? && KnowsLink(s.log, p.requests[todo[0]].link.value)
    ensures var s1 := Step(s, Delivers(|p.sent|, Link(0, 0), true));
            s1.page == s.page && s.log <= s1.log && HasReservation(s1.log, p.requests[todo[0]].submissionId)
  {
    var q := p.requests[todo[0]];
    var s1 := Step(s, Delivers(|p.sent|, Link(0, 0), true));
    assert s.page.sent[|p.sent|] == RequestPost(s.page.requests[todo[0]]);
    if !HasReservation(s.log, q.submissionId) {
      assert s1.log[|s.log|] == ReservationRecord(q.submissionId, q.leadSubmissionId, q.link.value);
    }
  }

  lemma FirstRequestServed(s: State, p: Page, todo: seq<nat>) returns (es: seq<Event>)
    requires todo != [] && todo[0] < |p.requests| && s.page == NextRequest(p, todo)
    requires p.requests[todo[0]].link.Some? && KnowsLink(s.log, p.requests[todo[0]].link.value)
    ensures AllUnprompted(es) && s.log <= Run(s, es).log
    ensures Run(s, es).page == NextRequest(RequestAnswered(p, todo, RequestAccepted), todo[1..])
    ensures HasReservation(Run(s, es).log, p.requests[todo[0]].submissionId)
  {
    var deliver, accept := Delivers(|p.sent|, Link(0, 0), true), RepliesToRequest(RequestAccepted);
    RequestDelivered(s, p, todo);
    var s1 := Step(s, deliver);
    RunOne(s, deliver);
    RunTwo(s1, accept, ResumesPass);
    AcceptedRequestGoesOn(s1, p, todo);
    RepliesKeepLog(s1, accept);
    RepliesKeepLog(Step(s1, accept), ResumesPass);
    RunAfter(s, [deliver], [accept, ResumesPass]);
    es := [deliver] + [accept, ResumesPass];
  }

  ghost predicate LinksKnown(log: seq<Record>, requests: seq<Request>, items: seq<nat>) {
    forall r :: r in items && r < |requests| && requests[r].link.Some? ==> KnowsLink(log, requests[r].link.value)
  }

  ghost predicate RequestsHeld(log: seq<Record>, requests: seq<Request>, items: seq<nat>) {
    forall r :: r in items && r < |requests| ==> HasReservation(log, requests[r].submissionId)
  }

  lemma HeldGrows(log: seq<Record>, more: seq<Record>, requests: seq<Request>, items: seq<nat>, id: Id)
    requires log <= more
    ensures LinksKnown(log, requests, items) ==> LinksKnown(more, requests, items)
    ensures HasReservation(log, id) ==> HasReservation(more, id)
    ensures HasLead(log, id) ==> HasLead(more, id)
  {
    if k :| 0 <= k < |log| && log[k].ReservationRecord? && log[k].submissionId == id {
      assert more[k] == log[k];
    }
    if k :| 0 <= k < |log| && log[k].LeadRecord? && log[k].submissionId == id {
      assert more[k] == log[k];
    }
    forall link | KnowsLink(log, link)
      ensures KnowsLink(more, link)
    {
      var k :| 0 <= k < |log| && log[k].LeadRecord? && log[k].link == link;
      assert more[k] == log[k];
    }
  }

  lemma {:induction false} RequestsServed(s: State, p: Page, todo: seq<nat>) returns (es: seq<Event>, turns: seq<Turn>)
    requires CoreOk(p) && Copied(p, todo) && s.page == NextRequest(p, todo) && LinksKnown(s.log, p.requests, todo)
    ensures AllUnprompted(es) && s.log <= Run(s, es).log && |turns| == |todo|
    ensures forall i :: 0 <= i < |turns| ==> turns[i].reply.RequestAccepted?
    ensures RequestLoopDone(p, todo, turns, Run(s, es).page) && RequestsHeld(Run(s, es).log, p.requests, todo)
    decreases |todo|
  {
    hide RequestAnswered, RequestLoopDone, NextRequest, CoreOk;
    if todo == [] {
      es, turns := [], [];
      NoRequestsLeft(p);
    } else {
      CopiedFirst(p, todo);
      var first := FirstRequestServed(s, p, todo);
      var s1, p0 := Run(s, first), RequestAnswered(p, todo, RequestAccepted);
      RequestAnsweredOk(p, todo, RequestAccepted);
      RequestAnsweredCopied(p, todo, RequestAccepted);
      RequestAnsweredMarks(p, todo, RequestAccepted);
      RequestAnsweredConfirms(p, todo, RequestAccepted);
      HeldGrows(s.log, s1.log, p.requests, todo, 0);
      RestKnown(s1.log, p, todo, p0);
      var rest, later := RequestsServed(s1, p0, todo[1..]);
      turns := [Turn(RequestAccepted, false)] + later;
      assert turns[1..] == later;
      EarlierRequest(p, todo, turns, p0, Run(s1, rest).page);
      RunAfter(s, first, rest);
      es := first + rest;
      HeldGrows(s1.log, Run(s1, rest).log, p.requests, todo, p.requests[todo[0]].submissionId);
      AllHeld(Run(s1, rest).log, p, todo, p0);
    }
  }

  lemma RestKnown(log: seq<Record>, p: Page, todo: seq<nat>, p0: Page)
    requires todo != [] && todo[0] < |p.requests| && FirstRequestMarked(p, todo[0], RequestAccepted, p0)
    requires LinksKnown(log, p.requests, todo)
    ensures LinksKnown(log, p0.requests, todo[1..])
  {
    assert forall r :: r in todo[1..] ==> r in todo;
  }

  lemma AllHeld(log: seq<Record>, p: Page, todo: seq<nat>, p0: Page)
    requires todo != [] && todo[0] < |p.requests| && FirstRequestMarked(p, todo[0], RequestAccepted, p0)
    requires HasReservation(log, p.requests[todo[0]].submissionId) && RequestsHeld(log, p0.requests, todo[1..])
    ensures RequestsHeld(log, p.requests, todo)
  {
    forall r | r in todo && r < |p.requests|
      ensures HasReservation(log, p.requests[r].submissionId)
    {
      if r != todo[0] {
        var i :| 0 <= i < |todo| && todo[i] == r;
        assert todo[1..][i - 1] == r;
      }
    }
  }

  // ---------------------------------------------------------------- the whole pass

  /** In conflict, with no lead queued that could re-arm it. */
  predicate OnHold(p: Page, r: nat) {
    r < |p.requests| && p.requests[r].status.Conflict? && !LeadQueued(p, p.requests[r].leadSubmissionId)
  }

  /** Everything that was queued in `p` and not on hold has been accepted and is no longer queued in `end`. */
  ghost predicate Drained(p: Page, end: Page, log: seq<Record>) {
    && end.pass.Idle? && end.outbox == []
    && (forall r :: r in end.reservationOutbox ==> r in p.reservationOutbox && OnHold(p, r))
    && (forall id :: LeadQueued(p, id) ==> HasLead(log, id))
    && (forall r :: r in p.reservationOutbox && r < |p.requests| && !OnHold(p, r) ==> HasReservation(log, p.requests[r].submissionId))
  }

  lemma AllReached(replies: seq<LeadReply>, i: nat)
    requires i < |replies| && forall j :: 0 <= j < |replies| ==> replies[j].LeadAccepted?
    ensures ReachesLead(replies, i)
  {
  }

  lemma LeadsAllAccepted(log: seq<Record>, p: Page, replies: seq<LeadReply>)
    requires CoreOk(p) && LeadsHeld(log, p.leads, p.outbox, replies)
    ensures |replies| == |p.outbox| && (forall j :: 0 <= j < |replies| ==> replies[j].LeadAccepted?)
    ensures forall id :: LeadQueued(p, id) ==> HasLead(log, id)
  {
    WithinMeans(p.outbox, |p.leads|);
    hide CoreOk;
    forall id | LeadQueued(p, id)
      ensures HasLead(log, id)
    {
      var r :| r in p.outbox && IsLead(p.leads, r, id);
      var i :| 0 <= i < |p.outbox| && p.outbox[i] == r;
      assert LeadRecord(id, replies[i].link) in log;
      var k :| 0 <= k < |log| && log[k] == LeadRecord(id, replies[i].link);
    }
  }

  /** Once all leads are accepted, a queued request is linked and may be posted, unless it is on hold. */
  lemma LinkedUnlessHeld(log: seq<Record>, p: Page, replies: seq<LeadReply>, requests: seq<Request>, r: nat)
    requires CoreOk(p) && NoOrphans(p) && LeadsHeld(log, p.leads, p.outbox, replies)
    requires |replies| == |p.outbox| && LinksGiven(p, p.outbox, replies, requests)
    requires r in p.reservationOutbox && r < |p.requests| && !OnHold(p, r)
    ensures r < |requests| && IsEligible(requests, r)
  {
    LeadsAllAccepted(log, p, replies);
    if LeadQueued(p, p.requests[r].leadSubmissionId) {
      var t :| t in p.outbox && IsLead(p.leads, t, p.requests[r].leadSubmissionId);
      var i :| 0 <= i < |p.outbox| && p.outbox[i] == t;
      AllReached(replies, i);
      assert AcceptsLeadOf(p, p.outbox, replies, i, r);
    } else {
      assert LinkedOrWaiting(p, r);
    }
  }

  lemma LinksAreKnown(s: State, log: seq<Record>, replies: seq<LeadReply>, requests: seq<Request>, items: seq<nat>)
    requires Inv(s) && s.log <= log && LeadsHeld(log, s.page.leads, s.page.outbox, replies)
    requires |replies| == |s.page.outbox| && LinksGiven(s.page, s.page.outbox, replies, requests)
    ensures LinksKnown(log, requests, items)
  {
    var p := s.page;
    forall r | r in items && r < |requests| && requests[r].link.Some?
      ensures KnowsLink(log, requests[r].link.value)
    {
      if requests[r] == p.requests[r] {
        assert p.requests[r] in p.requests && Truthful(s.log, p.requests[r]);
        var k :| 0 <= k < |s.log| && s.log[k] == LeadRecord(p.requests[r].leadSubmissionId, p.requests[r].link.value);
        assert log[k] == s.log[k];
      } else {
        var i: nat :| AcceptsLeadOf(p, p.outbox, replies, i, r)
                      && requests[r] == p.requests[r].(link := Some(replies[i].link), status := Waiting);
        var k :| 0 <= k < |log| && log[k] == LeadRecord(p.leads[p.outbox[i]].submissionId, replies[i].link);
      }
    }
  }

  lemma AllConfirmed(mid: Page, todo: seq<nat>, turns: seq<Turn>, end: Page, r: nat)
    requires Copied(mid, todo) && |turns| == |todo| && (forall i :: 0 <= i < |turns| ==> turns[i].reply.RequestAccepted?)
    requires Confirms(mid, AckedRequests(RequestIds(mid.requests, todo), turns), end) && r in todo
    ensures r !in end.reservationOutbox
  {
    var i :| 0 <= i < |todo| && todo[i] == r;
    assert ReachesRequest(turns, i);
    AckedContains(RequestIds(mid.requests, todo), turns, i);
  }

  lemma NothingToDo(s: State)
    requires Inv(s) && s.page.pass.Idle? && !HasWork(s.page)
    ensures Drained(s.page, s.page, s.log)
  {
  }

  lemma PassDrains(s: State, replies: seq<LeadReply>, mid: Page, turns: seq<Turn>, end: Page, log: seq<Record>)
    requires Inv(s) && |replies| == |s.page.outbox| && Within(s.page.outbox, |s.page.leads|)
    requires LeadLoopDone(s.page, s.page.outbox, replies, mid) && LeadsHeld(log, s.page.leads, s.page.outbox, replies)
    requires var todo := Eligible(mid.requests, mid.reservationOutbox);
             && Copied(mid, todo) && |turns| == |todo| && (forall i :: 0 <= i < |turns| ==> turns[i].reply.RequestAccepted?)
             && RequestLoopDone(mid, todo, turns, end) && RequestsHeld(log, mid.requests, todo)
    ensures Drained(s.page, end, log)
  {
    var p, todo := s.page, Eligible(mid.requests, mid.reservationOutbox);
    LeadsAllAccepted(log, p, replies);
    assert forall reply :: reply in replies ==> reply.LeadAccepted?;
    AllAcked(LeadIds(p.leads, p.outbox), replies);
    NoLeadsOutside(p.leads, p.outbox);
    forall r | r in p.reservationOutbox && r < |p.requests| && !OnHold(p, r)
      ensures r in todo
    {
      LinkedUnlessHeld(log, p, replies, mid.requests, r);
    }
    forall r | r in end.reservationOutbox
      ensures r in p.reservationOutbox && OnHold(p, r)
    {
      if r in todo {
        AllConfirmed(mid, todo, turns, end, r);
      }
    }
  }

  /**
   From any state between passes in which no request is without its lead, one pass without the user, for which the
   server accepts what it is sent, empties the queues: every lead that was queued, and every request that was not on
   hold, is accepted by the server and leaves its queue; what stays is on hold.
   */
  lemma QueuesCanBeDrained(s: State) returns (es: seq<Event>)
    requires Inv(s) && s.page.pass.Idle?
    ensures AllUnprompted(es) && Drained(s.page, Run(s, es).page, Run(s, es).log)
  {
    var p := s.page;
    if !HasWork(p) {
      es := [];
      NothingToDo(s);
    } else {
      var s1 := Step(s, BeginsPass);
      RepliesKeepLog(s, BeginsPass);
      BeginsAtFirstLead(s);
      WithinMeans(p.outbox, |p.leads|);
      assert CoreOk(p);
      hide Inv, CoreOk, LeadLoopDone, LeadsHeld, Drained, HasWork, NextLead, Step, Run, Distinct;
      var leads, replies, mid := LeadsServed(s1, p, p.outbox);
      var requests := RequestsDrain(s, Run(s1, leads), replies, mid);
      RunAfter(s1, leads, requests);
      RunAfter(s, [BeginsPass], leads + requests);
      RunOne(s, BeginsPass);
      es := [BeginsPass] + (leads + requests);
    }
  }

  lemma BeginsAtFirstLead(s: State)
    requires s.page.pass.Idle? && HasWork(s.page)
    ensures Step(s, BeginsPass).page == NextLead(s.page, s.page.outbox)
  {
    hide NextLead, HasWork;
  }

  /** Once the leads are through, the requests are served as well. */
  lemma RequestsDrain(s: State, s2: State, replies: seq<LeadReply>, mid: Page) returns (es: seq<Event>)
    requires Inv(s) && |replies| == |s.page.outbox| && Within(s.page.outbox, |s.page.leads|) && s.log <= s2.log
    requires LeadLoopDone(s.page, s.page.outbox, replies, mid) && LeadsHeld(s2.log, s.page.leads, s.page.outbox, replies)
    requires s2.page == BeginRequests(mid)
    ensures AllUnprompted(es) && Drained(s.page, Run(s2, es).page, Run(s2, es).log)
  {
    var todo := Eligible(mid.requests, mid.reservationOutbox);
    EligibleIsCopied(mid);
    BeginsWith(mid, todo);
    LinksAreKnown(s, s2.log, replies, mid.requests, todo);
    hide Inv, NextRequest, BeginRequests, LeadLoopDone, LeadsHeld, LinksKnown, Eligible, CoreOk, RequestLoopDone, Copied, Drained, Run;
    var turns;
    es, turns := RequestsServed(s2, mid, todo);
    LeadsStayHeld(s2.log, Run(s2, es).log, s.page.leads, s.page.outbox, replies);
    PassDrains(s, replies, mid, turns, Run(s2, es).page, Run(s2, es).log);
  }

  lemma LeadsStayHeld(log: seq<Record>, more: seq<Record>, leads: seq<Lead>, items: seq<nat>, replies: seq<LeadReply>)
    requires log <= more && LeadsHeld(log, leads, items, replies)
    ensures LeadsHeld(more, leads, items, replies)
  {
    assert forall r :: r in log ==> r in more;
  }
}
