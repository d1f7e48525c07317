/** Every event keeps the invariant of the offline workspace, hence so does every run. */
module OutboxInvariant {
  import opened Collections
  import opened OutboxPage
  import opened OutboxWorld

  // ---------------------------------------------------------------- queue lemmas

  ghost predicate LeadsEvolve(leads: seq<Lead>, leads': seq<Lead>) {
    |leads| <= |leads'| && forall r :: 0 <= r < |leads| ==> leads'[r].submissionId == leads[r].submissionId
  }

  ghost predicate RequestsEvolve(requests: seq<Request>, requests': seq<Request>) {
    |requests| <= |requests'| && forall r :: 0 <= r < |requests| ==>
      && requests'[r].submissionId == requests[r].submissionId
      && requests'[r].leadSubmissionId == requests[r].leadSubmissionId
      && (requests[r].link.Some? ==> requests'[r].link.Some?)
  }

  /** Changing queue objects in place, without changing who they are, keeps the queues well formed. */
  lemma InPlaceKeepsQueues(p: Page, p': Page)
    requires QueuesOk(p)
    requires p'.outbox == p.outbox && p'.reservationOutbox == p.reservationOutbox
    requires LeadsEvolve(p.leads, p'.leads) && RequestsEvolve(p.requests, p'.requests)
    ensures QueuesOk(p')
  {
  }

  /** Dropping references from the queues keeps them well formed. */
  lemma ShrinkingKeepsQueues(p: Page, p': Page)
    requires QueuesOk(p)
    requires p'.leads == p.leads && RequestsEvolve(p.requests, p'.requests)
    requires Distinct(p'.outbox) && forall r :: r in p'.outbox ==> r in p.outbox
    requires Distinct(p'.reservationOutbox) && forall r :: r in p'.reservationOutbox ==> r in p.reservationOutbox
    ensures QueuesOk(p')
  {
  }

  lemma LeadsExceptIs(leads: seq<Lead>, queue: seq<nat>, id: Id)
    requires Distinct(queue)
    ensures Distinct(LeadsExcept(leads, queue, id))
    ensures forall r :: r in LeadsExcept(leads, queue, id) <==> r in queue && !IsLead(leads, r, id)
  {
    FilterKeepsDistinct(queue, (r: nat) => !IsLead(leads, r, id));
  }

  lemma RequestsExceptIs(requests: seq<Request>, queue: seq<nat>, id: Id)
    requires Distinct(queue)
    ensures Distinct(RequestsExcept(requests, queue, id))
    ensures forall r :: r in RequestsExcept(requests, queue, id) <==> r in queue && !IsRequest(requests, r, id)
  {
    FilterKeepsDistinct(queue, (r: nat) => !IsRequest(requests, r, id));
  }

  lemma RequestsExceptOfIs(requests: seq<Request>, queue: seq<nat>, leadId: Id)
    requires Distinct(queue)
    ensures Distinct(RequestsExceptOf(requests, queue, leadId))
    ensures forall r :: r in RequestsExceptOf(requests, queue, leadId) <==> r in queue && !IsRequestOf(requests, r, leadId)
  {
    FilterKeepsDistinct(queue, (r: nat) => !IsRequestOf(requests, r, leadId));
  }

  /** Dropping a request leaves every other request as it was. */
  lemma DroppingRequestKeepsQueues(p: Page, id: Id)
    requires QueuesOk(p)
    ensures QueuesOk(ReplaceReservations(p, RequestsExcept(p.requests, p.reservationOutbox, id)))
  {
    RequestsExceptIs(p.requests, p.reservationOutbox, id);
    ShrinkingKeepsQueues(p, ReplaceReservations(p, RequestsExcept(p.requests, p.reservationOutbox, id)));
  }

  lemma RemovingLeadKeepsQueues(p: Page, id: Id)
    requires QueuesOk(p)
    ensures QueuesOk(RemoveLead(p, id))
  {
    LeadsExceptIs(p.leads, p.outbox, id);
    RequestsExceptOfIs(p.requests, p.reservationOutbox, id);
    ShrinkingKeepsQueues(p, RemoveLead(p, id));
  }

  lemma AcknowledgingLeadKeepsQueues(p: Page, id: Id, link: Link)
    requires QueuesOk(p)
    ensures QueuesOk(AcknowledgeLead(p, id, link))
  {
    LeadsExceptIs(p.leads, p.outbox, id);
    ShrinkingKeepsQueues(p, AcknowledgeLead(p, id, link));
  }

  lemma QueueingLeadKeepsQueues(p: Page, id: Id, contact: Contact)
    requires QueuesOk(p)
    ensures QueuesOk(QueueLead(p, id, contact))
    ensures LeadQueued(QueueLead(p, id, contact), id)
    ensures forall x :: LeadQueued(p, x) ==> LeadQueued(QueueLead(p, id, contact), x)
  {
    var p' := QueueLead(p, id, contact);
    var added := |p.leads|;
    var at := FindLead(p.leads, p.outbox, id);
    var k := if at.Some? then at.value else |p.outbox|;
    assert p'.outbox[k] == added;
    assert added in p'.outbox && IsLead(p'.leads, added, id);
    forall r | r in p.outbox
      ensures r in p'.outbox || IsLead(p.leads, r, id)
    {
      var i :| 0 <= i < |p.outbox| && p.outbox[i] == r;
      assert i != k ==> p'.outbox[i] == r;
    }
    forall x | LeadQueued(p, x)
      ensures LeadQueued(p', x)
    {
      var t :| t in p.outbox && IsLead(p.leads, t, x);
      if x != id {
        assert t in p'.outbox && IsLead(p'.leads, t, x);
      }
    }
    forall r | r in p'.outbox
      ensures r == added || (r in p.outbox && !IsLead(p.leads, r, id))
    {
      var i :| 0 <= i < |p'.outbox| && p'.outbox[i] == r;
      if i != k {
        assert p.outbox[i] == r && r in p.outbox;
        assert at.Some? ==> p.outbox[k] in p.outbox;
      }
    }
    assert Distinct(p'.outbox) by {
      forall i, j | 0 <= i < j < |p'.outbox|
        ensures p'.outbox[i] != p'.outbox[j]
      {
        assert i != k ==> p'.outbox[i] == p.outbox[i] && p.outbox[i] in p.outbox;
        assert j != k ==> p'.outbox[j] == p.outbox[j] && p.outbox[j] in p.outbox;
      }
    }
  }

  lemma QueueingReservationKeepsQueues(p: Page, leadId: Id, c: Option<Choice>)
    requires QueuesOk(p) && IdsOk(p)
    ensures QueuesOk(QueueReservation(p, leadId, c))
  {
    var at := FindRequestOf(p.requests, p.reservationOutbox, leadId);
    var p' := QueueReservation(p, leadId, c);
    if at.Some? {
      assert p.reservationOutbox[at.value] in p.reservationOutbox;
      if c.Some? {
        InPlaceKeepsQueues(p, p');
      } else {
        DroppingRequestKeepsQueues(p, p.requests[p.reservationOutbox[at.value]].submissionId);
      }
    } else if c.Some? {
      AppendingRequestKeepsQueues(p, leadId, c.value);
    }
  }

  lemma AppendingRequestKeepsQueues(p: Page, leadId: Id, c: Choice)
    requires QueuesOk(p) && IdsOk(p)
    requires FindRequestOf(p.requests, p.reservationOutbox, leadId).None?
    ensures QueuesOk(QueueReservation(p, leadId, Some(c)))
  {
    var p' := QueueReservation(p, leadId, Some(c));
    var added := |p.requests|;
    forall r | r in p'.reservationOutbox
      ensures r == added || (r in p.reservationOutbox && p'.requests[r] == p.requests[r]
                              && p.requests[r].leadSubmissionId != leadId && p.requests[r].submissionId < p.nextId)
    {
      if r != added {
        assert r in p.reservationOutbox && !IsRequestOf(p.requests, r, leadId);
        assert p.requests[r] in p.requests;
      }
    }
    forall i, j | 0 <= i < j < |p'.reservationOutbox|
      ensures p'.reservationOutbox[i] != p'.reservationOutbox[j]
    {
      assert p'.reservationOutbox[i] == p.reservationOutbox[i] && p.reservationOutbox[i] in p.reservationOutbox;
    }
  }

  // ---------------------------------------------------------------- ids and the pass

  ghost predicate CoreOk(p: Page) {
    QueuesOk(p) && IdsOk(p)
  }

  lemma DrawingIdOk(p: Page)
    requires CoreOk(p)
    ensures CoreOk(p.(nextId := p.nextId + 1))
  {
    InPlaceKeepsQueues(p, p.(nextId := p.nextId + 1));
  }

  lemma QueueingLeadOk(p: Page, id: Id, contact: Contact)
    requires CoreOk(p) && id < p.nextId
    ensures CoreOk(QueueLead(p, id, contact))
  {
    QueueingLeadKeepsQueues(p, id, contact);
  }

  lemma QueueingReservationOk(p: Page, leadId: Id, c: Option<Choice>)
    requires CoreOk(p) && leadId < p.nextId
    ensures CoreOk(QueueReservation(p, leadId, c)) && p.nextId <= QueueReservation(p, leadId, c).nextId
  {
    QueueingReservationKeepsQueues(p, leadId, c);
    QueueingReservationKeepsIds(p, leadId, c);
  }

  lemma FormOk(p: Page, id: Id, f: LeadForm)
    requires CoreOk(p) && id < p.nextId
    ensures var p' := QueueReservation(QueueLead(p, id, f.contact), id, FormChoice(f)); CoreOk(p') && p.nextId <= p'.nextId
  {
    hide CoreOk, QueueReservation, FormChoice;
    QueueingLeadOk(p, id, f.contact);
    QueueingReservationOk(QueueLead(p, id, f.contact), id, FormChoice(f));
  }

  lemma EditedIsDrawn(p: Page)
    requires CoreOk(p)
    ensures p.editingSubmission.Some? ==> p.editingSubmission.value < p.nextId
  {
  }

  lemma SavingLeadOk(p: Page, f: LeadForm)
    requires CoreOk(p)
    ensures CoreOk(SaveLead(p, f)) && p.nextId <= SaveLead(p, f).nextId
  {
    hide CoreOk, QueueLead, QueueReservation, FormChoice, AcceptableLead;
    EditedIsDrawn(p);
    if AcceptableLead(f) {
      if p.editingSubmission.Some? {
        FormOk(p, SavedId(p), f);
      } else {
        DrawingIdOk(p);
        FormOk(p.(nextId := p.nextId + 1), SavedId(p), f);
      }
    }
  }

  lemma QueueingReservationKeepsIds(p: Page, leadId: Id, c: Option<Choice>)
    requires IdsOk(p) && leadId < p.nextId
    ensures IdsOk(QueueReservation(p, leadId, c)) && p.nextId <= QueueReservation(p, leadId, c).nextId
  {
    var p' := QueueReservation(p, leadId, c);
    var at := FindRequestOf(p.requests, p.reservationOutbox, leadId);
    if c.Some? && at.Some? && p.reservationOutbox[at.value] < |p.requests| {
      var r := p.reservationOutbox[at.value];
      assert p.requests[r] in p.requests;
      forall q | q in p'.requests
        ensures q.submissionId < p'.nextId && q.leadSubmissionId < p'.nextId
      {
        var i :| 0 <= i < |p'.requests| && p'.requests[i] == q;
        assert p.requests[i] in p.requests;
      }
    }
  }

  /** Heaps that evolve in place keep the ids drawn. */
  lemma InPlaceKeepsIds(p: Page, p': Page)
    requires IdsOk(p) && |p'.leads| == |p.leads| && |p'.requests| == |p.requests|
    requires LeadsEvolve(p.leads, p'.leads) && RequestsEvolve(p.requests, p'.requests)
    requires p'.nextId == p.nextId && p'.editingSubmission == p.editingSubmission
    ensures IdsOk(p')
  {
    forall l | l in p'.leads
      ensures l.submissionId < p'.nextId
    {
      var i :| 0 <= i < |p'.leads| && p'.leads[i] == l;
      assert p.leads[i] in p.leads;
    }
    forall q | q in p'.requests
      ensures q.submissionId < p'.nextId && q.leadSubmissionId < p'.nextId
    {
      var i :| 0 <= i < |p'.requests| && p'.requests[i] == q;
      assert p.requests[i] in p.requests;
    }
  }

  /** Going on overwrites where the pass was. */
  lemma NextIgnoresPass(p: Page, pass: Pass, rest: seq<nat>)
    ensures NextRequest(p.(pass := pass), rest) == NextRequest(p, rest)
    ensures BeginRequests(p.(pass := pass)) == BeginRequests(p)
    ensures NextLead(p.(pass := pass), rest) == NextLead(p, rest)
  {
  }

  lemma NextRequestOk(p: Page, rest: seq<nat>)
    requires CoreOk(p) && RequestsLinked(p.requests, rest) && Distinct(rest)
    ensures PageOk(NextRequest(p, rest))
  {
    var p' := NextRequest(p, rest);
    if rest != [] {
      assert rest[0] in rest;
      assert rest == [rest[0]] + rest[1..];
    }
    InPlaceKeepsQueues(p, p');
    InPlaceKeepsIds(p, p');
  }

  lemma BeginRequestsOk(p: Page)
    requires CoreOk(p)
    ensures PageOk(BeginRequests(p))
  {
    FilterKeepsDistinct(p.reservationOutbox, (r: nat) => IsEligible(p.requests, r));
    NextRequestOk(p, Eligible(p.requests, p.reservationOutbox));
  }

  lemma NextLeadOk(p: Page, rest: seq<nat>)
    requires CoreOk(p) && forall t :: t in rest ==> t < |p.leads|
    ensures PageOk(NextLead(p, rest))
  {
    if rest == [] {
      BeginRequestsOk(p);
    } else {
      assert rest[0] in rest;
      assert forall t :: t in rest[1..] ==> t in rest;
      var p' := NextLead(p, rest);
      InPlaceKeepsQueues(p, p');
      InPlaceKeepsIds(p, p');
    }
  }

  lemma AcknowledgingLeadOk(p: Page, id: Id, link: Link)
    requires CoreOk(p)
    ensures CoreOk(AcknowledgeLead(p, id, link)) && |AcknowledgeLead(p, id, link).leads| == |p.leads|
  {
    AcknowledgingLeadKeepsQueues(p, id, link);
    InPlaceKeepsIds(p, AcknowledgeLead(p, id, link));
  }

  lemma SetLeadStatusOk(p: Page, r: nat, status: Status)
    requires CoreOk(p)
    ensures CoreOk(SetLeadStatus(p, r, status)) && LeadsEvolve(p.leads, SetLeadStatus(p, r, status).leads)
  {
    InPlaceKeepsQueues(p, SetLeadStatus(p, r, status));
    InPlaceKeepsIds(p, SetLeadStatus(p, r, status));
  }

  /** The pass may come to wait anywhere, if what it has still to do is sound. */
  lemma WaitingOk(p: Page, pass: Pass)
    requires CoreOk(p) && PassOk(p.(pass := pass))
    ensures PageOk(p.(pass := pass))
  {
    InPlaceKeepsQueues(p, p.(pass := pass));
    InPlaceKeepsIds(p, p.(pass := pass));
  }

  lemma LeadRepliedOk(p: Page, reply: LeadReply)
    requires PageOk(p)
    ensures PageOk(LeadReplied(p, reply))
  {
    if p.pass.PostingLead? {
      var r, rest := p.pass.item, p.pass.rest;
      match reply
      case LeadAccepted(link) =>
        AcknowledgingLeadOk(p, p.leads[r].submissionId, link);
        WaitingOk(AcknowledgeLead(p, p.leads[r].submissionId, link), StoringLead(rest));
      case LeadUnauthorized =>
        SetLeadStatusOk(p, r, Waiting);
        BeginRequestsOk(SetLeadStatus(p, r, Waiting));
      case LeadFailed =>
        SetLeadStatusOk(p, r, Failed);
        WaitingOk(SetLeadStatus(p, r, Failed), StoringLead(rest));
    }
  }

  lemma SetRequestStatusOk(p: Page, r: nat, status: Status)
    requires CoreOk(p)
    ensures CoreOk(SetRequestStatus(p, r, status))
    ensures RequestsEvolve(p.requests, SetRequestStatus(p, r, status).requests)
  {
    InPlaceKeepsQueues(p, SetRequestStatus(p, r, status));
    InPlaceKeepsIds(p, SetRequestStatus(p, r, status));
  }

  lemma AcknowledgingRequestOk(p: Page, id: Id)
    requires CoreOk(p)
    ensures CoreOk(AcknowledgeRequest(p, id)) && AcknowledgeRequest(p, id).requests == p.requests
  {
    DroppingRequestKeepsQueues(p, id);
    InPlaceKeepsQueues(ReplaceReservations(p, RequestsExcept(p.requests, p.reservationOutbox, id)), AcknowledgeRequest(p, id));
  }

  lemma RestLinked(requests: seq<Request>, r: nat, rest: seq<nat>)
    requires RequestsLinked(requests, [r] + rest) && Distinct([r] + rest)
    ensures r < |requests| && requests[r].link.Some? && RequestsLinked(requests, rest) && Distinct(rest) && r !in rest
  {
    var all := [r] + rest;
    assert all[0] == r && r in all && rest == all[1..];
    assert forall t :: t in rest ==> t in all;
    forall t | t in rest
      ensures t != r
    {
      var k :| 0 <= k < |rest| && rest[k] == t;
      assert all[k + 1] == t;
    }
  }

  lemma RequestRepliedOk(p: Page, reply: RequestReply)
    requires PageOk(p)
    ensures PageOk(RequestReplied(p, reply))
  {
    if p.pass.PostingRequest? {
      var r, rest := p.pass.item, p.pass.rest;
      RestLinked(p.requests, r, rest);
      match reply
      case RequestAccepted =>
        AcknowledgingRequestOk(p, p.requests[r].submissionId);
        WaitingOk(AcknowledgeRequest(p, p.requests[r].submissionId), StoringRequest(rest));
      case RequestUnauthorized =>
        SetRequestStatusOk(p, r, Waiting);
        WaitingOk(SetRequestStatus(p, r, Waiting), Idle);
      case RequestConflict =>
        SetRequestStatusOk(p, r, Conflict);
        WaitingOk(SetRequestStatus(p, r, Conflict), StoringConflict(r, rest));
      case RequestFailed =>
        SetRequestStatusOk(p, r, Failed);
        WaitingOk(SetRequestStatus(p, r, Failed), StoringRequest(rest));
    }
  }

  lemma ConflictRefreshedOk(p: Page, refreshed: bool)
    requires PageOk(p)
    ensures PageOk(ConflictRefreshed(p, refreshed))
  {
    if p.pass.RefreshingConflict? {
      var r, rest := p.pass.item, p.pass.rest;
      RestLinked(p.requests, r, rest);
      var at := FindRequest(p.requests, p.reservationOutbox, p.requests[r].submissionId);
      if refreshed && at.Some? {
        SetRequestStatusOk(p, p.reservationOutbox[at.value], Conflict);
        WaitingOk(SetRequestStatus(p, p.reservationOutbox[at.value], Conflict), StoringRequest(rest));
      } else {
        NextRequestOk(p, rest);
      }
    }
  }

  lemma PassStoredOk(p: Page)
    requires PageOk(p)
    ensures PageOk(PassStored(p))
  {
    match p.pass
    case StoringLead(rest) => NextLeadOk(p, rest);
    case StoringConflict(r, rest) => WaitingOk(p, RefreshingConflict(r, rest));
    case StoringRequest(rest) => NextRequestOk(p, rest);
    case _ =>
  }

  /** Steps that touch neither the pass nor the objects it refers to, other than in place. */
  lemma PassSurvives(p: Page, p': Page)
    requires PassOk(p) && p'.pass == p.pass
    requires LeadsEvolve(p.leads, p'.leads) && RequestsEvolve(p.requests, p'.requests)
    ensures PassOk(p')
  {
    forall refs | RequestsLinked(p.requests, refs)
      ensures RequestsLinked(p'.requests, refs)
    {
    }
  }

  lemma SavesReservationOk(p: Page, c: Choice)
    requires PageOk(p)
    ensures PageOk(SaveReservation(p, c))
  {
    var p' := SaveReservation(p, c);
    InPlaceKeepsQueues(p, p');
    InPlaceKeepsIds(p, p');
    PassSurvives(p, p');
  }

  lemma SavingLeadEvolves(p: Page, f: LeadForm)
    requires QueuesOk(p)
    ensures LeadsEvolve(p.leads, SaveLead(p, f).leads) && RequestsEvolve(p.requests, SaveLead(p, f).requests)
    ensures SaveLead(p, f).pass == p.pass
  {
  }

  lemma SavesLeadOk(p: Page, f: LeadForm)
    requires PageOk(p)
    ensures PageOk(SaveLead(p, f))
  {
    SavingLeadOk(p, f);
    SavingLeadEvolves(p, f);
    PassSurvives(p, SaveLead(p, f));
  }

  lemma RemovalsOk(p: Page, id: Id)
    requires PageOk(p)
    ensures PageOk(RemoveLead(p, id)) && PageOk(RemoveReservation(p, id))
  {
    RemovingLeadKeepsQueues(p, id);
    DroppingRequestKeepsQueues(p, id);
  }

  /** Steps that change only what is being edited, or the download, keep everything. */
  lemma SameQueuesOk(p: Page, p': Page)
    requires PageOk(p)
    requires p'.leads == p.leads && p'.requests == p.requests && p'.pass == p.pass && p'.nextId == p.nextId
    requires p'.outbox == p.outbox && p'.reservationOutbox == p.reservationOutbox
    requires p'.editingSubmission.None? || p'.editingSubmission.value < p.nextId
    ensures PageOk(p')
  {
    InPlaceKeepsQueues(p, p');
    PassSurvives(p, p');
  }

  lemma EditsLeadOk(p: Page, id: Id)
    requires PageOk(p)
    ensures PageOk(EditLead(p, id))
  {
    var at := FindLead(p.leads, p.outbox, id);
    if at.Some? {
      assert IsLead(p.leads, p.outbox[at.value], id);
      assert p.leads[p.outbox[at.value]] in p.leads;
    }
    SameQueuesOk(p, EditLead(p, id));
  }

  lemma PassStepOk(p: Page, e: Event)
    requires PageOk(p)
    requires e.BeginsPass? || e.RepliesToLead? || e.RepliesToRequest? || e.RefreshesConflict? || e.ResumesPass?
    ensures PageOk(PageStep(p, e))
  {
    assert InBounds(p);
    hide QueuesOk, IdsOk, PassOk, NextLead, LeadReplied, RequestReplied, ConflictRefreshed, PassStored, HasWork;
    match e
    case BeginsPass => if p.pass.Idle? && HasWork(p) { NextLeadOk(p, p.outbox); }
    case RepliesToLead(reply) => LeadRepliedOk(p, reply);
    case RepliesToRequest(reply) => RequestRepliedOk(p, reply);
    case RefreshesConflict(refreshed) => ConflictRefreshedOk(p, refreshed);
    case ResumesPass => PassStoredOk(p);
  }

  lemma OtherStepOk(p: Page, e: Event)
    requires PageOk(p) && !e.EndsDownload?
    requires !e.SavesLead? && !e.RemovesLead? && !e.SavesReservation? && !e.RemovesReservation? && !e.EditsLead?
    requires !e.BeginsPass? && !e.RepliesToLead? && !e.RepliesToRequest? && !e.RefreshesConflict? && !e.ResumesPass?
    ensures PageOk(PageStep(p, e))
  {
    assert p.editingSubmission.Some? ==> p.editingSubmission.value < p.nextId;
    hide PageOk, FindRequest;
    SameQueuesOk(p, PageStep(p, e));
  }

  lemma EndingDownloadOk(p: Page)
    requires PageOk(p) && QueuesOk(EndDownload(p))
    ensures PageOk(EndDownload(p))
  {
  }

  lemma PageStepOk(p: Page, e: Event)
    requires PageOk(p) && QueuesOk(EndDownload(p))
    ensures PageOk(PageStep(p, e))
  {
    hide PageOk, QueuesOk, SaveLead, RemoveLead, SaveReservation, RemoveReservation, EditLead, EndDownload;
    match e
    case SavesLead(f) => SavesLeadOk(p, f);
    case RemovesLead(id) => RemovalsOk(p, id);
    case SavesReservation(c) => SavesReservationOk(p, c);
    case RemovesReservation(id) => RemovalsOk(p, id);
    case EditsLead(id) => EditsLeadOk(p, id);
    case BeginsPass => PassStepOk(p, e);
    case RepliesToLead(_) => PassStepOk(p, e);
    case RepliesToRequest(_) => PassStepOk(p, e);
    case RefreshesConflict(_) => PassStepOk(p, e);
    case ResumesPass => PassStepOk(p, e);
    case EndsDownload => EndingDownloadOk(p);
    case _ => OtherStepOk(p, e);
  }

  // ---------------------------------------------------------------- the arrays a download captured

  /** Objects keep who they are; a captured array stays, and one the page gives up is captured if the download uses it. */
  ghost predicate Captures(p: Page, e: Event, p': Page) {
    && LeadsEvolve(p.leads, p'.leads) && RequestsEvolve(p.requests, p'.requests)
    && match p.download
       case None => p'.download.None? || p'.download == Some(Download(None, None))
       case Some(d) =>
         p'.download == Some(Download(CapturedAfter(d.outbox, p.outbox, ReplacesOutbox(p, e)),
                                      CapturedAfter(d.reservationOutbox, p.reservationOutbox, ReplacesReservations(p, e))))
  }

  function CapturedAfter(part: Option<seq<nat>>, used: seq<nat>, replaced: bool): Option<seq<nat>> {
    if part.Some? || !replaced then part else Some(used)
  }

  lemma ShapesEvolve(leads: seq<Lead>, leads': seq<Lead>, queue: seq<nat>)
    requires LeadShape(leads, queue) && LeadsEvolve(leads, leads')
    ensures LeadShape(leads', queue)
  {
  }

  lemma RequestShapesEvolve(requests: seq<Request>, requests': seq<Request>, queue: seq<nat>)
    requires RequestShape(requests, queue) && RequestsEvolve(requests, requests')
    ensures RequestShape(requests', queue)
  {
  }

  lemma EndingShape(p: Page, e: Event, p': Page)
    requires QueuesOk(p) && QueuesOk(EndDownload(p)) && QueuesOk(p') && Captures(p, e, p')
    ensures QueuesOk(EndDownload(p'))
  {
    hide LeadShape, RequestShape, LeadsEvolve, RequestsEvolve, ReplacesOutbox, ReplacesReservations;
    ShapesEvolve(p.leads, p'.leads, EndDownload(p).outbox);
    RequestShapesEvolve(p.requests, p'.requests, EndDownload(p).reservationOutbox);
  }

  lemma SavingLeadCaptures(p: Page, f: LeadForm)
    ensures Captures(p, SavesLead(f), SaveLead(p, f))
  {
    hide RequestsExcept;
  }

  lemma RemovalCaptures(p: Page, id: Id)
    ensures Captures(p, RemovesLead(id), RemoveLead(p, id)) && Captures(p, RemovesReservation(id), RemoveReservation(p, id))
  {
    hide LeadsExcept, RequestsExcept, RequestsExceptOf;
  }

  lemma SavingReservationCaptures(p: Page, c: Choice)
    ensures Captures(p, SavesReservation(c), SaveReservation(p, c))
  {
    hide AcceptableChoice;
  }

  /** Going on to the next lead or request touches no array. */
  ghost predicate KeepsArrays(p: Page, p': Page) {
    && LeadsEvolve(p.leads, p'.leads) && RequestsEvolve(p.requests, p'.requests)
    && p'.outbox == p.outbox && p'.reservationOutbox == p.reservationOutbox && p'.download == p.download
  }

  lemma NextKeepsArrays(p: Page, rest: seq<nat>)
    ensures KeepsArrays(p, NextRequest(p, rest)) && KeepsArrays(p, BeginRequests(p)) && KeepsArrays(p, NextLead(p, rest))
  {
    hide Eligible;
  }

  lemma LeadReplyCaptures(p: Page, reply: LeadReply)
    ensures Captures(p, RepliesToLead(reply), LeadReplied(p, reply))
  {
    hide LeadsExcept, NewestReceipts, BeginRequests;
    if p.pass.PostingLead? && p.pass.item < |p.leads| {
      NextKeepsArrays(SetLeadStatus(p, p.pass.item, Waiting), []);
    }
  }

  lemma RequestReplyCaptures(p: Page, reply: RequestReply)
    ensures Captures(p, RepliesToRequest(reply), RequestReplied(p, reply))
  {
    hide RequestsExcept, NewestReceipts;
  }

  lemma RefreshKeepsArrays(p: Page, refreshed: bool)
    ensures KeepsArrays(p, ConflictRefreshed(p, refreshed))
  {
    hide NextRequest;
    if p.pass.RefreshingConflict? {
      NextKeepsArrays(p, p.pass.rest);
    }
  }

  lemma PassStoredKeepsArrays(p: Page)
    ensures KeepsArrays(p, PassStored(p)) && KeepsArrays(p, BeginPass(p))
  {
    hide NextLead, NextRequest, HasWork;
    match p.pass
    case StoringLead(rest) => NextKeepsArrays(p, rest);
    case StoringRequest(rest) => NextKeepsArrays(p, rest);
    case _ => NextKeepsArrays(p, p.outbox);
  }

  lemma OtherStepCaptures(p: Page, e: Event)
    requires !e.SavesLead? && !e.RemovesLead? && !e.RemovesReservation? && !e.SavesReservation? && !e.EndsDownload?
    requires !e.BeginsPass? && !e.RepliesToLead? && !e.RepliesToRequest? && !e.RefreshesConflict? && !e.ResumesPass?
    ensures Captures(p, e, PageStep(p, e))
  {
    hide FindLead, FindRequest;
  }

  lemma PageStepCaptures(p: Page, e: Event)
    requires !e.EndsDownload?
    ensures Captures(p, e, PageStep(p, e))
  {
    hide SaveLead, RemoveLead, SaveReservation, RemoveReservation, LeadReplied, RequestReplied;
    hide ConflictRefreshed, PassStored, BeginPass, LeadsEvolve, RequestsEvolve, FindRequestOf, AcceptableLead;
    match e
    case SavesLead(f) => SavingLeadCaptures(p, f);
    case RemovesLead(id) => RemovalCaptures(p, id);
    case RemovesReservation(id) => RemovalCaptures(p, id);
    case SavesReservation(c) => SavingReservationCaptures(p, c);
    case BeginsPass => PassStoredKeepsArrays(p);
    case ResumesPass => PassStoredKeepsArrays(p);
    case RepliesToLead(reply) => LeadReplyCaptures(p, reply);
    case RepliesToRequest(reply) => RequestReplyCaptures(p, reply);
    case RefreshesConflict(refreshed) => RefreshKeepsArrays(p, refreshed);
    case _ => OtherStepCaptures(p, e);
  }

  lemma PageStepKeepsCaptures(p: Page, e: Event)
    requires PageOk(p) && QueuesOk(EndDownload(p))
    ensures QueuesOk(EndDownload(PageStep(p, e)))
  {
    PageStepOk(p, e);
    if !e.EndsDownload? {
      PageStepCaptures(p, e);
      hide QueuesOk, PageStep, Captures;
      EndingShape(p, e, PageStep(p, e));
    }
  }

  // ---------------------------------------------------------------- the arrays of former snapshots

  /** The references of a former snapshot's array after a step: those it had, or the page's own before and after. */
  lemma OutboxAfter(p: Page, e: Event, p': Page, h: Holder)
    requires Captures(p, e, p')
    ensures var h' := if ReplacesOutbox(p, e) then Replaced(h, p.outbox, p.download.Some? && p.download.value.outbox.None?) else h;
            var refs := Refs(h', p'.outbox, EndDownload(p').outbox);
            var before := Refs(h, p.outbox, EndDownload(p).outbox);
            refs == before || (before == p.outbox && refs == p'.outbox)
  {
  }

  lemma ReservationsAfter(p: Page, e: Event, p': Page, h: Holder)
    requires Captures(p, e, p')
    ensures var captured := p.download.Some? && p.download.value.reservationOutbox.None?;
            var h' := if ReplacesReservations(p, e) then Replaced(h, p.reservationOutbox, captured) else h;
            var refs := Refs(h', p'.reservationOutbox, EndDownload(p').reservationOutbox);
            var before := Refs(h, p.reservationOutbox, EndDownload(p).reservationOutbox);
            refs == before || (before == p.reservationOutbox && refs == p'.reservationOutbox)
  {
  }

  /** The end of a download changes which snapshot is present, and the contents of none. */
  lemma EndingKeepsSnapshots(p: Page, n: Snapshot)
    ensures var after := SnapshotPage(EndDownload(p), SnapshotAfter(p, EndsDownload, n));
            && after.outbox == SnapshotPage(p, n).outbox && after.reservationOutbox == SnapshotPage(p, n).reservationOutbox
            && after.leads == p.leads && after.requests == p.requests
  {
  }

  /** Each queue of `after` has the references that `before` had, or both have those of the page. */
  ghost predicate Follows(p: Page, p': Page, before: Page, after: Page) {
    && after.leads == p'.leads && after.requests == p'.requests
    && (after.outbox == before.outbox || (before.outbox == p.outbox && after.outbox == p'.outbox))
    && (after.reservationOutbox == before.reservationOutbox
        || (before.reservationOutbox == p.reservationOutbox && after.reservationOutbox == p'.reservationOutbox))
  }

  lemma SnapshotFollows(p: Page, e: Event, n: Snapshot)
    requires !e.EndsDownload?
    ensures Follows(p, PageStep(p, e), SnapshotPage(p, n), SnapshotPage(PageStep(p, e), SnapshotAfter(p, e, n)))
  {
    PageStepCaptures(p, e);
    hide PageStep, Replaced, EndDownload, LeadsEvolve, RequestsEvolve, ReplacesOutbox, ReplacesReservations, Refs;
    if n.Former? {
      OutboxAfter(p, e, PageStep(p, e), n.outbox);
      ReservationsAfter(p, e, PageStep(p, e), n.reservationOutbox);
    }
  }

  lemma CapturedFollows(p: Page, e: Event)
    requires !e.EndsDownload?
    ensures Follows(p, PageStep(p, e), EndDownload(p), EndDownload(PageStep(p, e)))
  {
    PageStepCaptures(p, e);
    hide PageStep, LeadsEvolve, RequestsEvolve, ReplacesOutbox, ReplacesReservations;
  }

  lemma SnapshotStaysOk(p: Page, e: Event, n: Snapshot)
    requires QueuesOk(SnapshotPage(p, n)) && QueuesOk(PageStep(p, e))
    ensures QueuesOk(SnapshotPage(PageStep(p, e), SnapshotAfter(p, e, n)))
  {
    var before := SnapshotPage(p, n);
    assert before.leads == p.leads && before.requests == p.requests;
    hide EndDownload, SnapshotPage, SnapshotAfter, LeadShape, RequestShape, LeadsEvolve, RequestsEvolve;
    if e.EndsDownload? {
      EndingKeepsSnapshots(p, n);
    } else {
      hide PageStep;
      PageStepCaptures(p, e);
      SnapshotFollows(p, e, n);
      ShapesEvolve(p.leads, PageStep(p, e).leads, before.outbox);
      RequestShapesEvolve(p.requests, PageStep(p, e).requests, before.reservationOutbox);
    }
  }

  // ---------------------------------------------------------------- requests and their leads

  /** No request is added, no lead leaves the queue and no link is lost: then no request is orphaned. */
  lemma NothingOrphaned(p: Page, p': Page)
    requires NoOrphans(p) && QueuesOk(p) && RequestsEvolve(p.requests, p'.requests)
    requires forall r :: r in p'.reservationOutbox ==> r in p.reservationOutbox
    requires forall l :: LeadQueued(p, l) ==> LeadQueued(p', l)
    ensures NoOrphans(p')
  {
    forall r | r in p'.reservationOutbox && r < |p'.requests|
      ensures LinkedOrWaiting(p', r)
    {
      assert LinkedOrWaiting(p, r);
    }
  }

  lemma InPlaceKeepsLeads(p: Page, p': Page)
    requires p'.outbox == p.outbox && LeadsEvolve(p.leads, p'.leads)
    ensures forall l :: LeadQueued(p, l) ==> LeadQueued(p', l)
  {
    forall l | LeadQueued(p, l)
      ensures LeadQueued(p', l)
    {
      var t :| t in p.outbox && IsLead(p.leads, t, l);
      assert IsLead(p'.leads, t, l);
    }
  }

  lemma ArraysKeptOrphanNothing(p: Page, p': Page)
    requires NoOrphans(p) && QueuesOk(p) && KeepsArrays(p, p')
    ensures NoOrphans(p')
  {
    InPlaceKeepsLeads(p, p');
    NothingOrphaned(p, p');
  }

  lemma RemovalsOrphanNothing(p: Page, id: Id)
    requires NoOrphans(p) && QueuesOk(p)
    ensures NoOrphans(RemoveLead(p, id)) && NoOrphans(RemoveReservation(p, id))
  {
    LeadsExceptIs(p.leads, p.outbox, id);
    RequestsExceptIs(p.requests, p.reservationOutbox, id);
    RequestsExceptOfIs(p.requests, p.reservationOutbox, id);
    NothingOrphaned(p, RemoveReservation(p, id));
    var p' := RemoveLead(p, id);
    forall r | r in p'.reservationOutbox && r < |p'.requests|
      ensures LinkedOrWaiting(p', r)
    {
      assert LinkedOrWaiting(p, r);
      if p.requests[r].link.None? {
        var t :| t in p.outbox && IsLead(p.leads, t, p.requests[r].leadSubmissionId);
        assert t in p'.outbox && IsLead(p'.leads, t, p.requests[r].leadSubmissionId);
      }
    }
  }

  lemma AcknowledgingLeadOrphansNothing(p: Page, id: Id, link: Link)
    requires NoOrphans(p) && QueuesOk(p)
    ensures NoOrphans(AcknowledgeLead(p, id, link))
  {
    LeadsExceptIs(p.leads, p.outbox, id);
    var p' := AcknowledgeLead(p, id, link);
    forall r | r in p'.reservationOutbox && r < |p'.requests|
      ensures LinkedOrWaiting(p', r)
    {
      if p.requests[r].leadSubmissionId != id && p.requests[r].link.None? {
        assert LinkedOrWaiting(p, r);
        var t :| t in p.outbox && IsLead(p.leads, t, p.requests[r].leadSubmissionId);
        assert t in p'.outbox && IsLead(p'.leads, t, p'.requests[r].leadSubmissionId);
      }
    }
  }

  lemma QueueingReservationOrphansNothing(p: Page, leadId: Id, c: Option<Choice>)
    requires NoOrphans(p) && QueuesOk(p) && LeadQueued(p, leadId)
    ensures NoOrphans(QueueReservation(p, leadId, c))
  {
    var p' := QueueReservation(p, leadId, c);
    forall r | r in p'.reservationOutbox && r < |p'.requests|
      ensures LinkedOrWaiting(p', r)
    {
      if r < |p.requests| {
        assert r in p.reservationOutbox && LinkedOrWaiting(p, r);
        InPlaceKeepsLeads(p, p');
      } else {
        assert p'.requests[r].leadSubmissionId == leadId;
      }
    }
  }

  lemma FormOrphansNothing(p: Page, id: Id, f: LeadForm)
    requires NoOrphans(p) && QueuesOk(p)
    ensures NoOrphans(QueueReservation(QueueLead(p, id, f.contact), id, FormChoice(f)))
  {
    QueueingLeadKeepsQueues(p, id, f.contact);
    NothingOrphaned(p, QueueLead(p, id, f.contact));
    hide QueueLead, QueueReservation, FormChoice, NoOrphans, QueuesOk, LeadQueued;
    QueueingReservationOrphansNothing(QueueLead(p, id, f.contact), id, FormChoice(f));
  }

  lemma SavingLeadOrphansNothing(p: Page, f: LeadForm)
    requires NoOrphans(p) && QueuesOk(p)
    ensures NoOrphans(SaveLead(p, f))
  {
    var drawn := p.(nextId := p.nextId + 1);
    assert KeepsArrays(p, drawn);
    ArraysKeptOrphanNothing(p, drawn);
    InPlaceKeepsQueues(p, drawn);
    hide QueueLead, QueueReservation, FormChoice, AcceptableLead, NoOrphans, QueuesOk;
    FormOrphansNothing(p, SavedId(p), f);
    FormOrphansNothing(drawn, SavedId(p), f);
  }

  lemma LeadReplyOrphansNothing(p: Page, reply: LeadReply)
    requires NoOrphans(p) && QueuesOk(p)
    ensures NoOrphans(LeadReplied(p, reply))
  {
    if p.pass.PostingLead? && p.pass.item < |p.leads| {
      match reply
      case LeadAccepted(link) =>
        AcknowledgingLeadOrphansNothing(p, p.leads[p.pass.item].submissionId, link);
        PassChangeOrphansNothing(AcknowledgeLead(p, p.leads[p.pass.item].submissionId, link), StoringLead(p.pass.rest));
      case LeadUnauthorized =>
        NextKeepsArrays(SetLeadStatus(p, p.pass.item, Waiting), []);
        ArraysKeptOrphanNothing(p, LeadReplied(p, reply));
      case LeadFailed => ArraysKeptOrphanNothing(p, LeadReplied(p, reply));
    }
  }

  lemma PassChangeOrphansNothing(p: Page, pass: Pass)
    requires NoOrphans(p)
    ensures NoOrphans(p.(pass := pass))
  {
    var p' := p.(pass := pass);
    forall r | r in p'.reservationOutbox && r < |p'.requests|
      ensures LinkedOrWaiting(p', r)
    {
      assert LinkedOrWaiting(p, r);
    }
  }

  lemma RequestReplyOrphansNothing(p: Page, reply: RequestReply)
    requires NoOrphans(p) && QueuesOk(p)
    ensures NoOrphans(RequestReplied(p, reply))
  {
    if p.pass.PostingRequest? && p.pass.item < |p.requests| {
      var p' := RequestReplied(p, reply);
      RequestsExceptIs(p.requests, p.reservationOutbox, p.requests[p.pass.item].submissionId);
      InPlaceKeepsLeads(p, p');
      NothingOrphaned(p, p');
    }
  }

  lemma SavingReservationOrphansNothing(p: Page, c: Choice)
    requires NoOrphans(p) && QueuesOk(p)
    ensures NoOrphans(SaveReservation(p, c))
  {
    ArraysKeptOrphanNothing(p, SaveReservation(p, c));
  }

  lemma OtherStepOrphansNothing(p: Page, e: Event)
    requires NoOrphans(p) && QueuesOk(p) && !e.EndsDownload? && !e.BeginsDownload?
    requires !e.SavesLead? && !e.RemovesLead? && !e.SavesReservation? && !e.RemovesReservation?
    requires !e.BeginsPass? && !e.RepliesToLead? && !e.RepliesToRequest? && !e.RefreshesConflict? && !e.ResumesPass?
    ensures NoOrphans(PageStep(p, e))
  {
    hide FindLead, FindRequest, NoOrphans, QueuesOk;
    ArraysKeptOrphanNothing(p, PageStep(p, e));
  }

  /** Only the end of a download can leave a request on the page without its lead. */
  lemma PageStepOrphansNothing(p: Page, e: Event)
    requires NoOrphans(p) && QueuesOk(p) && !e.EndsDownload?
    ensures NoOrphans(PageStep(p, e))
  {
    hide QueuesOk, NoOrphans, SaveLead, RemoveLead, SaveReservation, RemoveReservation, LeadReplied, RequestReplied;
    hide ConflictRefreshed, PassStored, BeginPass, KeepsArrays;
    match e
    case SavesLead(f) => SavingLeadOrphansNothing(p, f);
    case RemovesLead(id) => RemovalsOrphanNothing(p, id);
    case RemovesReservation(id) => RemovalsOrphanNothing(p, id);
    case SavesReservation(c) => SavingReservationOrphansNothing(p, c);
    case RepliesToLead(reply) => LeadReplyOrphansNothing(p, reply);
    case RepliesToRequest(reply) => RequestReplyOrphansNothing(p, reply);
    case BeginsPass =>
      PassStoredKeepsArrays(p);
      ArraysKeptOrphanNothing(p, BeginPass(p));
    case ResumesPass =>
      PassStoredKeepsArrays(p);
      ArraysKeptOrphanNothing(p, PassStored(p));
    case RefreshesConflict(refreshed) =>
      RefreshKeepsArrays(p, refreshed);
      ArraysKeptOrphanNothing(p, ConflictRefreshed(p, refreshed));
    case BeginsDownload => BeginningOrphansNothing(p);
    case _ => OtherStepOrphansNothing(p, e);
  }

  lemma BeginningOrphansNothing(p: Page)
    requires NoOrphans(p) && QueuesOk(p)
    ensures NoOrphans(BeginDownload(p))
  {
    InPlaceKeepsLeads(p, BeginDownload(p));
    NothingOrphaned(p, BeginDownload(p));
  }
}
