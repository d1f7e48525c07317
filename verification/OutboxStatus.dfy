/** What a status means: each has its cause, and a conflict is there only after the server's 409. */
module OutboxStatus {
  import opened Collections
  import opened OutboxPage
  import opened OutboxWorld
  import opened OutboxInvariant
  import opened OutboxTheorems

  // ---------------------------------------------------------------- one step

  /** The reply is to the post of request object `r`. */
  predicate Answers(p: Page, e: Event, reply: RequestReply, r: nat) {
    e == RepliesToRequest(reply) && p.pass.PostingRequest? && p.pass.item == r && r < |p.requests|
  }

  /** The lead of request `q` has just been accepted, and `q` has the ids of the reply. */
  predicate LinkedBy(p: Page, e: Event, q: Request) {
    && e.RepliesToLead? && e.leadReply.LeadAccepted? && q.link == Some(e.leadReply.link)
    && p.pass.PostingLead? && p.pass.item < |p.leads| && p.leads[p.pass.item].submissionId == q.leadSubmissionId
  }

  /** The refresh after a conflict of the same request has succeeded. */
  predicate HeldAgainBy(p: Page, e: Event, q: Request) {
    && e == RefreshesConflict(true) && p.pass.RefreshingConflict?
    && IsRequest(p.requests, p.pass.item, q.submissionId)
  }

  /** Why request object `r`, which is `q` after the event, may have got the status that it has. */
  predicate Cause(p: Page, e: Event, p': Page, r: nat, q: Request) {
    match q.status
    case Syncing => p'.sent == p.sent + [RequestPost(q)]
    case Conflict => Answers(p, e, RequestConflict, r) || HeldAgainBy(p, e, q)
    case Failed => Answers(p, e, RequestFailed, r)
    case Waiting =>
      || Answers(p, e, RequestUnauthorized, r) || LinkedBy(p, e, q)
      || (e.SavesReservation? && p.editingReservation == Some(q.submissionId) && RequestQueued(p, q.submissionId))
    case WaitingForLead =>
      e.SavesLead? && AcceptableLead(e.form) && e.form.reservation.Some? && q.leadSubmissionId == SavedId(p)
  }

  predicate Unchanged(p: Page, p': Page, r: nat)
    requires r < |p'.requests|
  {
    r < |p.requests| && p'.requests[r].status == p.requests[r].status
  }

  lemma NextKeepsSize(p: Page, rest: seq<nat>)
    ensures |NextLead(p, rest).requests| == |NextRequest(p, rest).requests| == |BeginRequests(p).requests| == |p.requests|
  {
    hide Eligible;
  }

  lemma NextCause(p: Page, rest: seq<nat>, r: nat, p': Page)
    requires r < |p.requests| && p' in [NextLead(p, rest), NextRequest(p, rest), BeginRequests(p)]
    ensures |p'.requests| == |p.requests|
    ensures Unchanged(p, p', r) || (p'.requests[r].status.Syncing? && p'.sent == p.sent + [RequestPost(p'.requests[r])])
  {
    hide Eligible;
  }

  lemma LeadReplyCause(p: Page, reply: LeadReply, r: nat)
    requires r < |LeadReplied(p, reply).requests|
    ensures var p' := LeadReplied(p, reply); Unchanged(p, p', r) || Cause(p, RepliesToLead(reply), p', r, p'.requests[r])
  {
    hide BeginRequests, NewestReceipts, LeadsExcept;
    if p.pass.PostingLead? && p.pass.item < |p.leads| && reply.LeadUnauthorized? {
      var waiting := SetLeadStatus(p, p.pass.item, Waiting);
      NextKeepsSize(waiting, []);
      NextCause(waiting, [], r, BeginRequests(waiting));
    }
  }

  lemma RequestReplyCause(p: Page, reply: RequestReply, r: nat)
    requires r < |RequestReplied(p, reply).requests|
    ensures var p' := RequestReplied(p, reply); Unchanged(p, p', r) || Cause(p, RepliesToRequest(reply), p', r, p'.requests[r])
  {
  }

  lemma RefreshCause(p: Page, refreshed: bool, r: nat)
    requires r < |ConflictRefreshed(p, refreshed).requests|
    ensures var p' := ConflictRefreshed(p, refreshed); Unchanged(p, p', r) || Cause(p, RefreshesConflict(refreshed), p', r, p'.requests[r])
  {
    hide NextRequest;
    if p.pass.RefreshingConflict? && p.pass.item < |p.requests| {
      NextKeepsSize(p, p.pass.rest);
      NextCause(p, p.pass.rest, r, NextRequest(p, p.pass.rest));
    }
  }

  lemma GoingOnCause(p: Page, e: Event, r: nat)
    requires (e.BeginsPass? || e.ResumesPass?) && r < |PageStep(p, e).requests|
    ensures var p' := PageStep(p, e); Unchanged(p, p', r) || Cause(p, e, p', r, p'.requests[r])
  {
    hide NextLead, NextRequest, HasWork;
    NextKeepsSize(p, p.outbox);
    if e.BeginsPass? {
      NextCause(p, p.outbox, r, NextLead(p, p.outbox));
    } else {
      match p.pass
      case StoringLead(rest) =>
        NextKeepsSize(p, rest);
        NextCause(p, rest, r, NextLead(p, rest));
      case StoringRequest(rest) =>
        NextKeepsSize(p, rest);
        NextCause(p, rest, r, NextRequest(p, rest));
      case _ =>
    }
  }

  lemma SavingLeadCause(p: Page, f: LeadForm, r: nat)
    requires r < |SaveLead(p, f).requests|
    ensures var p' := SaveLead(p, f); Unchanged(p, p', r) || Cause(p, SavesLead(f), p', r, p'.requests[r])
  {
    hide AcceptableLead, RequestsExcept;
  }

  lemma SavingReservationCause(p: Page, c: Choice, r: nat)
    requires r < |SaveReservation(p, c).requests|
    ensures var p' := SaveReservation(p, c); Unchanged(p, p', r) || Cause(p, SavesReservation(c), p', r, p'.requests[r])
  {
    hide AcceptableChoice;
  }

  /** Whatever happens on the page, a request object keeps its status or gets one for the reason that the status states. */
  lemma StatusHasCause(p: Page, e: Event, r: nat)
    requires r < |PageStep(p, e).requests|
    ensures var p' := PageStep(p, e); Unchanged(p, p', r) || Cause(p, e, p', r, p'.requests[r])
  {
    hide Cause, SaveLead, SaveReservation, RemoveLead, LeadReplied, RequestReplied, ConflictRefreshed, PassStored, BeginPass;
    match e
    case SavesLead(f) => SavingLeadCause(p, f, r);
    case SavesReservation(c) => SavingReservationCause(p, c, r);
    case RepliesToLead(reply) => LeadReplyCause(p, reply, r);
    case RepliesToRequest(reply) => RequestReplyCause(p, reply, r);
    case RefreshesConflict(refreshed) => RefreshCause(p, refreshed, r);
    case BeginsPass => GoingOnCause(p, e, r);
    case ResumesPass => GoingOnCause(p, e, r);
    case _ => QuietEventKeepsRequests(p, e);
  }

  lemma QuietEventKeepsRequests(p: Page, e: Event)
    requires !e.SavesLead? && !e.SavesReservation? && !e.RepliesToLead? && !e.RepliesToRequest?
    requires !e.RefreshesConflict? && !e.BeginsPass? && !e.ResumesPass?
    ensures PageStep(p, e).requests == p.requests
  {
    hide FindLead, FindRequest;
  }

  // ---------------------------------------------------------------- conflicts over runs

  predicate InConflict(requests: seq<Request>, x: Id) {
    exists q :: q in requests && q.submissionId == x && q.status.Conflict?
  }

  /** In memory, whether queued or not, in the record or in a write still to land, `x` is in conflict. */
  ghost predicate ConflictAnywhere(s: State, x: Id) {
    || InConflict(s.page.requests, x) || InConflict(s.disk.reservationOutbox, x)
    || exists w :: w in s.writes && InConflict(w.reservationOutbox, x)
  }

  /** The pass is dealing with a 409 for `x`. */
  predicate Refreshing(p: Page, x: Id) {
    (p.pass.StoringConflict? || p.pass.RefreshingConflict?) && IsRequest(p.requests, p.pass.item, x)
  }

  /** The server answers 409 to a post of `x`. */
  predicate Refuses(s: State, e: Event, x: Id) {
    && e == RepliesToRequest(RequestConflict) && s.page.pass.PostingRequest?
    && IsRequest(s.page.requests, s.page.pass.item, x)
  }

  predicate RefusedIn(s: State, es: seq<Event>, x: Id)
    decreases |es|
  {
    es != [] && (Refuses(s, es[0], x) || RefusedIn(Step(s, es[0]), es[1..], x))
  }

  lemma PageStepConflicts(s: State, e: Event, x: Id)
    requires QueuesOk(s.page) && InConflict(PageStep(s.page, e).requests, x)
    ensures InConflict(s.page.requests, x) || Refreshing(s.page, x) || Refuses(s, e, x)
  {
    hide PageStep, QueuesOk, Refuses, Refreshing, ReplacesReservations;
    var after := PageStep(s.page, e).requests;
    var q :| q in after && q.submissionId == x && q.status.Conflict?;
    var r :| 0 <= r < |after| && after[r] == q;
    ObjectInConflict(s, e, r);
  }

  lemma ObjectInConflict(s: State, e: Event, r: nat)
    requires r < |PageStep(s.page, e).requests| && PageStep(s.page, e).requests[r].status.Conflict?
    ensures var x := PageStep(s.page, e).requests[r].submissionId;
            InConflict(s.page.requests, x) || Refreshing(s.page, x) || Refuses(s, e, x)
  {
    hide PageStep;
    StatusHasCause(s.page, e, r);
    ObjectsStay(s.page, e);
    if Unchanged(s.page, PageStep(s.page, e), r) {
      assert s.page.requests[r] in s.page.requests;
    }
  }

  lemma ObjectsStay(p: Page, e: Event)
    ensures RequestsEvolve(p.requests, PageStep(p, e).requests)
  {
    hide PageStep;
    if e.EndsDownload? {
      EndingKeepsRequests(p);
    } else {
      PageStepCaptures(p, e);
    }
  }

  lemma EndingKeepsRequests(p: Page)
    ensures PageStep(p, EndsDownload).requests == p.requests
  {
  }

  predicate ByConflict(pass: Pass) {
    pass.StoringConflict? || pass.RefreshingConflict?
  }

  lemma GoingOnLeavesConflict(p: Page, rest: seq<nat>)
    ensures !ByConflict(NextLead(p, rest).pass) && !ByConflict(NextRequest(p, rest).pass) && !ByConflict(BeginRequests(p).pass)
  {
    hide Eligible;
  }

  lemma ReplyReachesConflict(p: Page, e: Event)
    requires (e.RepliesToLead? || e.RepliesToRequest? || e.RefreshesConflict?) && ByConflict(PageStep(p, e).pass)
    ensures || (ByConflict(p.pass) && PageStep(p, e).pass.item == p.pass.item)
            || (e == RepliesToRequest(RequestConflict) && p.pass.PostingRequest? && PageStep(p, e).pass.item == p.pass.item)
  {
    hide BeginRequests, NextRequest, FindRequest;
    if p.pass.PostingLead? {
      GoingOnLeavesConflict(SetLeadStatus(p, p.pass.item, Waiting), []);
    } else if p.pass.RefreshingConflict? {
      GoingOnLeavesConflict(p, p.pass.rest);
    }
  }

  lemma PassMoves(p: Page, e: Event)
    requires ByConflict(PageStep(p, e).pass)
    ensures || (ByConflict(p.pass) && PageStep(p, e).pass.item == p.pass.item)
            || (e == RepliesToRequest(RequestConflict) && p.pass.PostingRequest? && PageStep(p, e).pass.item == p.pass.item)
  {
    hide NextLead, NextRequest, LeadReplied, RequestReplied, ConflictRefreshed, HasWork;
    match e
    case BeginsPass => GoingOnLeavesConflict(p, p.outbox);
    case ResumesPass =>
      match p.pass {
        case StoringLead(rest) => GoingOnLeavesConflict(p, rest);
        case StoringRequest(rest) => GoingOnLeavesConflict(p, rest);
        case _ =>
      }
    case RepliesToLead(_) => ReplyReachesConflict(p, e);
    case RepliesToRequest(_) => ReplyReachesConflict(p, e);
    case RefreshesConflict(_) => ReplyReachesConflict(p, e);
    case SavesLead(f) => SavingKeepsPass(p, f);
    case _ =>
  }

  lemma SavingKeepsPass(p: Page, f: LeadForm)
    ensures SaveLead(p, f).pass == p.pass
  {
    hide AcceptableLead, RequestsExcept;
  }

  lemma PassComesFrom409(s: State, e: Event, x: Id)
    requires PageOk(s.page) && Refreshing(PageStep(s.page, e), x)
    ensures Refreshing(s.page, x) || Refuses(s, e, x)
  {
    ObjectsStay(s.page, e);
    PassMoves(s.page, e);
    PassItemExists(s.page);
    hide PageStep, PageOk;
  }

  lemma PassItemExists(p: Page)
    requires PageOk(p) && (p.pass.PostingRequest? || ByConflict(p.pass))
    ensures p.pass.item < |p.requests|
  {
    RestLinked(p.requests, p.pass.item, p.pass.rest);
  }

  /** In conflict somewhere, or about to be because of a 409 already received. */
  ghost predicate Tainted(s: State, x: Id) {
    ConflictAnywhere(s, x) || Refreshing(s.page, x)
  }

  lemma SavedConflict(p: Page, x: Id)
    requires InBounds(p) && InConflict(Save(p).reservationOutbox, x)
    ensures InConflict(p.requests, x)
  {
    var s := Save(p);
    var q :| q in s.reservationOutbox && q.submissionId == x && q.status.Conflict?;
    var i :| 0 <= i < |s.reservationOutbox| && s.reservationOutbox[i] == q;
    assert p.reservationOutbox[i] in p.reservationOutbox && p.requests[p.reservationOutbox[i]] in p.requests;
  }

  lemma WriteTaints(s: State, e: Event, x: Id)
    requires Coherent(s) && (e.Serialises? || e.StoresDownload? || e.StoresPrepared?) && Tainted(Step(s, e), x)
    ensures Tainted(s, x)
  {
    WriteSaves(s, e);
    if IsWrite(s, e) {
      assert Written(s, e).requests == s.page.requests;
      hide Coherent, Written, Step, InConflict;
      if InConflict(Save(Written(s, e)).reservationOutbox, x) {
        SavedConflict(Written(s, e), x);
      }
    }
  }

  lemma StepTaints(s: State, e: Event, x: Id)
    requires Coherent(s) && Tainted(Step(s, e), x)
    ensures Tainted(s, x) || Refuses(s, e, x)
  {
    assert PageOk(s.page) && QueuesOk(s.page);
    hide Coherent, PageOk, QueuesOk, PageStep, SnapshotAfter, WriteStep, Refuses, Refreshing, InConflict;
    if IsPageEvent(e) {
      PageEventTaints(s, e, x);
    } else if e.Serialises? || e.StoresDownload? || e.StoresPrepared? {
      WriteTaints(s, e, x);
    } else if e.Lands? {
      if e.write < |s.writes| {
        assert s.writes[e.write] in s.writes;
        assert forall w :: w in Step(s, e).writes ==> w in s.writes;
      }
    } else if e.Reloads? {
      assert Step(s, e).page.requests == s.disk.reservationOutbox && !Refreshing(Step(s, e).page, x) by {
        ReloadedIdle(s.page, s.disk, x);
      }
    }
  }

  lemma ReloadedIdle(p: Page, saved: Saved, x: Id)
    ensures Reload(p, saved).requests == saved.reservationOutbox && !Refreshing(Reload(p, saved), x)
  {
  }

  lemma PageEventTaints(s: State, e: Event, x: Id)
    requires PageOk(s.page) && QueuesOk(s.page) && IsPageEvent(e) && Tainted(Step(s, e), x)
    ensures Tainted(s, x) || Refuses(s, e, x)
  {
    hide PageOk, QueuesOk, PageStep, SnapshotAfter, Refuses, InConflict;
    if ReplyPossible(s, e) {
      if InConflict(PageStep(s.page, e).requests, x) {
        PageStepConflicts(s, e, x);
      }
      if Refreshing(PageStep(s.page, e), x) {
        PassComesFrom409(s, e, x);
      }
    }
  }

  lemma {:induction false} RunTaints(s: State, es: seq<Event>, x: Id)
    requires Coherent(s) && Tainted(Run(s, es), x)
    ensures Tainted(s, x) || RefusedIn(s, es, x)
    decreases |es|
  {
    if es != [] {
      StepIsCoherent(s, es[0]);
      RunTaints(Step(s, es[0]), es[1..], x);
      if Tainted(Step(s, es[0]), x) {
        StepTaints(s, es[0], x);
      }
    }
  }

  /**
   Over every run from a fresh device, reloads, downloads and writes in any order included: a request is in conflict,
   in memory, in the record or in a write, only if the server answered 409 to a post of that very request. No other
   answer, and nothing that the user does, takes a request out of the passes to come.
   */
  lemma ConflictComesFrom409(es: seq<Event>, x: Id)
    requires ConflictAnywhere(Run(START, es), x)
    ensures RefusedIn(START, es, x)
  {
    InitialOk();
    RunTaints(START, es, x);
  }

  // ---------------------------------------------------------------- the answers

  /**
   What an answer does at whatever moment it comes: a request accepted leaves the queue; any other answer marks the
   request posted, which keeps its place in the queue; 401 ends the pass; no other request and no lead changes.
   */
  lemma AnswerMarks(p: Page, reply: RequestReply)
    requires PageOk(p) && p.pass.PostingRequest?
    ensures var r, p' := p.pass.item, RequestReplied(p, reply);
            && r < |p.requests| == |p'.requests| && p'.leads == p.leads && p'.outbox == p.outbox && p'.sent == p.sent
            && (forall t | 0 <= t < |p.requests| && t != r :: p'.requests[t] == p.requests[t])
            && (reply.RequestAccepted? ==> !RequestQueued(p', p.requests[r].submissionId))
            && (!reply.RequestAccepted? ==> p'.reservationOutbox == p.reservationOutbox)
            && (reply.RequestUnauthorized? ==> p'.requests[r].status == Waiting && p'.pass.Idle?)
            && (reply.RequestConflict? ==> p'.requests[r].status == Conflict && !p'.pass.Idle?)
            && (reply.RequestFailed? ==> p'.requests[r].status == Failed && p'.pass == StoringRequest(p.pass.rest))
  {
    RestLinked(p.requests, p.pass.item, p.pass.rest);
  }

  lemma NextKeepsLeads(p: Page)
    ensures BeginRequests(p).leads == p.leads && BeginRequests(p).outbox == p.outbox && !BeginRequests(p).pass.PostingLead?
  {
    hide Eligible;
  }

  /**
   What an answer to a lead does at whatever moment it comes: accepted, the lead leaves the queue and exactly its queued
   requests get the ids of the answer and wait; a 401 goes on to the requests; no other lead changes.
   */
  lemma LeadAnswerMarks(p: Page, reply: LeadReply)
    requires PageOk(p) && p.pass.PostingLead?
    ensures var r, p' := p.pass.item, LeadReplied(p, reply);
            && r < |p.leads| == |p'.leads| && (forall t | 0 <= t < |p.leads| && t != r :: p'.leads[t] == p.leads[t])
            && (!reply.LeadAccepted? ==> p'.outbox == p.outbox)
            && (reply.LeadUnauthorized? ==> p'.leads[r].status == Waiting && !p'.pass.PostingLead? && !p'.pass.StoringLead?)
            && (reply.LeadFailed? ==> p'.leads[r].status == Failed && p'.requests == p.requests && p'.pass == StoringLead(p.pass.rest))
            && (reply.LeadAccepted? ==>
                  && !LeadQueued(p', p.leads[r].submissionId) && |p'.requests| == |p.requests| && p'.pass == StoringLead(p.pass.rest)
                  && forall q | 0 <= q < |p.requests| ::
                       p'.requests[q] == if q in p.reservationOutbox && p.requests[q].leadSubmissionId == p.leads[r].submissionId
                                         then p.requests[q].(link := Some(reply.link), status := Waiting) else p.requests[q])
  {
    hide BeginRequests, NewestReceipts;
    NextKeepsLeads(SetLeadStatus(p, p.pass.item, Waiting));
    BeginsNotStoring(SetLeadStatus(p, p.pass.item, Waiting));
  }

  lemma BeginsNotStoring(p: Page)
    ensures !BeginRequests(p).pass.StoringLead?
  {
    hide Eligible;
  }
}
