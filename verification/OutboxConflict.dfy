/**
 A reservation request in conflict is held: no pass posts it again until the user re-arms it. The
 hold is exact for requests whose lead has left the queue; a lead that is still queued re-arms its
 request when the server acknowledges it.
 */
module OutboxConflict {
  import opened Collections
  import opened OutboxPage
  import opened OutboxWorld
  import opened OutboxInvariant
  import opened OutboxTheorems

  predicate PostsOf(sent: seq<Message>, from: nat, x: Id) {
    exists k :: from <= k < |sent| && sent[k].RequestPost? && sent[k].request.submissionId == x
  }

  /** The user re-arms `x`: by editing the reservation, or by saving the form of its lead. */
  predicate Rearms(p: Page, e: Event, x: Id) {
    match e
    case SavesReservation(_) => p.editingReservation == Some(x)
    case SavesLead(f) =>
      AcceptableLead(f) && exists r :: r in p.reservationOutbox && IsRequest(p.requests, r, x) && IsRequestOf(p.requests, r, SavedId(p))
    case _ => false
  }

  predicate RearmedIn(s: State, es: seq<Event>, x: Id)
    decreases |es|
  {
    es != [] && (Rearms(s.page, es[0], x) || RearmedIn(Step(s, es[0]), es[1..], x))
  }

  /** The requests the pass has still to post. */
  function PassRequests(pass: Pass): seq<nat> {
    match pass
    case PostingRequest(_, rest) => rest
    case StoringConflict(_, rest) => rest
    case RefreshingConflict(_, rest) => rest
    case StoringRequest(rest) => rest
    case _ => []
  }

  /** The leads whose acknowledgement the pass may still receive. */
  function PassLeads(pass: Pass): seq<nat> {
    match pass
    case PostingLead(r, rest) => [r] + rest
    case StoringLead(rest) => rest
    case _ => []
  }

  predicate PassPostsLead(p: Page, leadId: Id) {
    exists r :: r in PassLeads(p.pass) && IsLead(p.leads, r, leadId)
  }

  /** A queued object that the running pass will not touch and that no lead can re-arm. */
  ghost predicate Held(p: Page, r: nat)
    requires r < |p.requests|
  {
    var lead := p.requests[r].leadSubmissionId;
    && p.requests[r].status.Conflict?
    && !LeadQueued(p, lead)
    && !PassPostsLead(p, lead)
    && !(p.pass.PostingRequest? && p.pass.item == r)
  }

  ghost predicate Quiet(p: Page, x: Id) {
    && x < p.nextId
    && forall r :: IsRequest(p.requests, r, x) ==>
         r !in PassRequests(p.pass) && (r in p.reservationOutbox ==> Held(p, r))
  }

  /** In conflict, and no lead queued beside it can re-arm it. */
  predicate HeldInQueue(p: Page, r: nat)
    requires r < |p.requests|
  {
    p.requests[r].status.Conflict? && !LeadQueued(p, p.requests[r].leadSubmissionId)
  }

  ghost predicate QueuesHold(p: Page, x: Id) {
    forall r :: r in p.reservationOutbox && IsRequest(p.requests, r, x) ==> HeldInQueue(p, r)
  }

  /**
   A download or a write in preparation stores arrays in which `x` is not held, or the end of a download brings such
   arrays back.
   */
  ghost predicate Revives(s: State, e: Event, x: Id) {
    || (e.EndsDownload? && !Quiet(EndDownload(s.page), x))
    || (!e.Serialises? && IsWrite(s, e) && !QueuesHold(Written(s, e), x))
  }

  ghost predicate RevivedIn(s: State, es: seq<Event>, x: Id)
    decreases |es|
  {
    es != [] && (Revives(s, es[0], x) || RevivedIn(Step(s, es[0]), es[1..], x))
  }

  ghost predicate SavedQuiet(s: Saved, x: Id) {
    forall q :: q in s.reservationOutbox && q.submissionId == x ==>
      q.status.Conflict? && forall l :: l in s.outbox ==> l.submissionId != q.leadSubmissionId
  }

  ghost predicate QuietEverywhere(s: State, x: Id) {
    Quiet(s.page, x) && SavedQuiet(s.disk, x) && forall w :: w in s.writes ==> SavedQuiet(w, x)
  }

  // ---------------------------------------------------------------- one step

  lemma NextRequestQuiet(p: Page, rest: seq<nat>, x: Id)
    requires Quiet(p, x) && RequestsLinked(p.requests, rest)
    requires forall r :: r in rest ==> !IsRequest(p.requests, r, x)
    ensures Quiet(NextRequest(p, rest), x)
    ensures PostsOf(NextRequest(p, rest).sent, |p.sent|, x) == false
  {
    if rest != [] {
      assert rest[0] in rest;
      assert forall r :: r in rest[1..] ==> r in rest;
    }
  }

  lemma BeginRequestsQuiet(p: Page, x: Id)
    requires Quiet(p, x)
    ensures Quiet(BeginRequests(p), x)
    ensures PostsOf(BeginRequests(p).sent, |p.sent|, x) == false
  {
    NextRequestQuiet(p, Eligible(p.requests, p.reservationOutbox), x);
  }

  lemma NextLeadQuiet(p: Page, rest: seq<nat>, x: Id)
    requires Quiet(p, x) && PageOk(p)
    requires forall r, t :: r in p.reservationOutbox && IsRequest(p.requests, r, x) && t in rest ==>
               !IsLead(p.leads, t, p.requests[r].leadSubmissionId)
    ensures Quiet(NextLead(p, rest), x)
    ensures PostsOf(NextLead(p, rest).sent, |p.sent|, x) == false
  {
    if rest == [] || rest[0] >= |p.leads| {
      BeginRequestsQuiet(p, x);
    } else {
      assert rest[0] in rest && forall t :: t in rest[1..] ==> t in rest;
    }
  }

  ghost predicate QuietStep(p: Page, p': Page, x: Id) {
    Quiet(p', x) && |p.sent| <= |p'.sent| && !PostsOf(p'.sent, |p.sent|, x)
  }

  lemma LeadReplyQuiet(p: Page, reply: LeadReply, x: Id)
    requires PageOk(p) && Quiet(p, x)
    ensures QuietStep(p, LeadReplied(p, reply), x)
  {
    if p.pass.PostingLead? {
      var r, rest := p.pass.item, p.pass.rest;
      match reply
      case LeadAccepted(link) => AcknowledgingQuiet(p, p.leads[r].submissionId, link, x);
      case LeadUnauthorized =>
        SettingLeadQuiet(p, r, Waiting, Idle, x);
        BeginRequestsQuiet(SetLeadStatus(p, r, Waiting).(pass := Idle), x);
        assert LeadReplied(p, reply) == BeginRequests(SetLeadStatus(p, r, Waiting).(pass := Idle));
      case LeadFailed => SettingLeadQuiet(p, r, Failed, StoringLead(rest), x);
    }
  }

  /** Marking a lead, with the pass coming to wait where it has no more leads to post than before. */
  lemma SettingLeadQuiet(p: Page, r: nat, status: Status, pass: Pass, x: Id)
    requires PageOk(p) && Quiet(p, x) && p.pass.PostingLead?
    requires pass == Idle || pass == StoringLead(p.pass.rest)
    ensures Quiet(SetLeadStatus(p, r, status).(pass := pass), x)
  {
    var p' := SetLeadStatus(p, r, status).(pass := pass);
    assert forall t :: t in PassLeads(pass) ==> t in PassLeads(p.pass);
    FewerLeadsQuiet(p, p', x);
  }

  /** A page with the same requests, no more queued leads and no more leads to post stays quiet. */
  lemma FewerLeadsQuiet(p: Page, p': Page, x: Id)
    requires Quiet(p, x) && p'.requests == p.requests && p'.nextId == p.nextId
    requires p'.reservationOutbox == p.reservationOutbox && LeadsEvolve(p.leads, p'.leads) && |p'.leads| == |p.leads|
    requires forall t :: t in p'.outbox ==> t in p.outbox
    requires forall t :: t in PassLeads(p'.pass) ==> t in PassLeads(p.pass)
    requires PassRequests(p'.pass) == [] && !p'.pass.PostingRequest?
    ensures Quiet(p', x)
  {
    forall l | LeadQueued(p', l)
      ensures LeadQueued(p, l)
    {
      var t :| t in p'.outbox && IsLead(p'.leads, t, l);
      assert IsLead(p.leads, t, l);
    }
    forall l | PassPostsLead(p', l)
      ensures PassPostsLead(p, l)
    {
      var t :| t in PassLeads(p'.pass) && IsLead(p'.leads, t, l);
      assert IsLead(p.leads, t, l);
    }
  }

  lemma AcknowledgingQuiet(p: Page, id: Id, link: Link, x: Id)
    requires PageOk(p) && Quiet(p, x) && p.pass.PostingLead? && id == p.leads[p.pass.item].submissionId
    ensures Quiet(AcknowledgeLead(p, id, link).(pass := StoringLead(p.pass.rest)), x)
  {
    var p' := AcknowledgeLead(p, id, link).(pass := StoringLead(p.pass.rest));
    assert p.pass.item in PassLeads(p.pass) && IsLead(p.leads, p.pass.item, id);
    assert PassPostsLead(p, id);
    FewerLeadsQuiet(p, p'.(requests := p.requests), x);
    forall r: nat | IsRequest(p'.requests, r, x)
      ensures r !in PassRequests(p'.pass) && (r in p'.reservationOutbox ==> Held(p', r))
    {
      assert IsRequest(p.requests, r, x);
      if r in p.reservationOutbox {
        assert Held(p, r) && p'.requests[r] == p.requests[r];
        assert Held(p'.(requests := p.requests), r);
      }
    }
  }

  lemma SettingRequestQuiet(p: Page, r: nat, status: Status, pass: Pass, x: Id)
    requires PageOk(p) && Quiet(p, x)
    requires r < |p.requests| && p.requests[r].submissionId == x && r in p.reservationOutbox ==> status.Conflict?
    requires PassLeads(pass) == [] && !pass.PostingRequest?
    requires forall t :: t in PassRequests(pass) ==> t in PassRequests(p.pass)
    ensures Quiet(SetRequestStatus(p, r, status).(pass := pass), x)
  {
    var p' := SetRequestStatus(p, r, status).(pass := pass);
    forall t: nat | IsRequest(p'.requests, t, x)
      ensures t !in PassRequests(p'.pass) && (t in p'.reservationOutbox ==> Held(p', t))
    {
      assert IsRequest(p.requests, t, x);
      assert forall l :: LeadQueued(p', l) ==> LeadQueued(p, l);
      assert forall l :: !PassPostsLead(p', l);
    }
  }

  lemma RequestReplyQuiet(p: Page, reply: RequestReply, x: Id)
    requires PageOk(p) && Quiet(p, x)
    ensures QuietStep(p, RequestReplied(p, reply), x)
  {
    if p.pass.PostingRequest? {
      var r, rest := p.pass.item, p.pass.rest;
      RestLinked(p.requests, r, rest);
      match reply
      case RequestAccepted => AcknowledgingRequestQuiet(p, p.requests[r].submissionId, rest, x);
      case RequestUnauthorized => SettingRequestQuiet(p, r, Waiting, Idle, x);
      case RequestConflict => SettingRequestQuiet(p, r, Conflict, StoringConflict(r, rest), x);
      case RequestFailed => SettingRequestQuiet(p, r, Failed, StoringRequest(rest), x);
    }
  }

  lemma AcknowledgingRequestQuiet(p: Page, id: Id, rest: seq<nat>, x: Id)
    requires PageOk(p) && Quiet(p, x) && p.pass.PostingRequest? && rest == p.pass.rest
    ensures Quiet(AcknowledgeRequest(p, id).(pass := StoringRequest(rest)), x)
  {
    var p' := AcknowledgeRequest(p, id).(pass := StoringRequest(rest));
    assert forall l :: LeadQueued(p', l) ==> LeadQueued(p, l);
    assert forall l :: !PassPostsLead(p', l);
  }

  lemma RefreshQuiet(p: Page, refreshed: bool, x: Id)
    requires PageOk(p) && Quiet(p, x)
    ensures QuietStep(p, ConflictRefreshed(p, refreshed), x)
  {
    if p.pass.RefreshingConflict? {
      var r, rest := p.pass.item, p.pass.rest;
      RestLinked(p.requests, r, rest);
      var at := FindRequest(p.requests, p.reservationOutbox, p.requests[r].submissionId);
      if refreshed && at.Some? {
        SettingRequestQuiet(p, p.reservationOutbox[at.value], Conflict, StoringRequest(rest), x);
      } else {
        NextRequestQuiet(p, rest, x);
      }
    }
  }

  lemma StoredQuiet(p: Page, x: Id)
    requires PageOk(p) && Quiet(p, x)
    ensures QuietStep(p, PassStored(p), x)
  {
    match p.pass
    case StoringLead(rest) => NextLeadQuiet(p, rest, x);
    case StoringRequest(rest) => NextRequestQuiet(p, rest, x);
    case StoringConflict(r, rest) =>
      assert forall l :: LeadQueued(PassStored(p), l) ==> LeadQueued(p, l);
      assert forall l :: !PassPostsLead(PassStored(p), l);
    case _ =>
  }

  lemma RemovalQuiet(p: Page, id: Id, x: Id)
    requires PageOk(p) && Quiet(p, x)
    ensures QuietStep(p, RemoveLead(p, id), x) && QuietStep(p, RemoveReservation(p, id), x)
  {
    assert forall l :: LeadQueued(RemoveLead(p, id), l) ==> LeadQueued(p, l);
    assert forall l :: LeadQueued(RemoveReservation(p, id), l) ==> LeadQueued(p, l);
  }

  lemma SavingReservationQuiet(p: Page, c: Choice, x: Id)
    requires PageOk(p) && Quiet(p, x) && p.editingReservation != Some(x)
    ensures QuietStep(p, SaveReservation(p, c), x)
  {
    var p' := SaveReservation(p, c);
    assert forall l :: LeadQueued(p', l) ==> LeadQueued(p, l);
    forall t: nat | IsRequest(p'.requests, t, x)
      ensures t !in PassRequests(p'.pass) && (t in p'.reservationOutbox ==> Held(p', t))
    {
      assert IsRequest(p.requests, t, x);
    }
  }

  lemma DrawingIdQuiet(p: Page, x: Id)
    requires PageOk(p) && Quiet(p, x)
    ensures PageOk(p.(nextId := p.nextId + 1)) && Quiet(p.(nextId := p.nextId + 1), x)
  {
    DrawingIdOk(p);
    assert forall l :: LeadQueued(p.(nextId := p.nextId + 1), l) ==> LeadQueued(p, l);
  }

  lemma FormQuiet(p: Page, id: Id, f: LeadForm, x: Id)
    requires PageOk(p) && Quiet(p, x) && id < p.nextId
    requires forall r :: r in p.reservationOutbox && IsRequest(p.requests, r, x) ==> !IsRequestOf(p.requests, r, id)
    ensures QuietStep(p, QueueReservation(QueueLead(p, id, f.contact), id, FormChoice(f)), x)
  {
    QueueingLeadQuiet(p, id, f.contact, x);
    QueueingLeadOk(p, id, f.contact);
    QueueingReservationQuiet(QueueLead(p, id, f.contact), id, FormChoice(f), x);
  }

  lemma SavingLeadQuiet(p: Page, f: LeadForm, x: Id)
    requires PageOk(p) && Quiet(p, x) && !Rearms(p, SavesLead(f), x)
    ensures QuietStep(p, SaveLead(p, f), x)
  {
    hide QueueLead, QueueReservation, FormChoice, AcceptableLead;
    if AcceptableLead(f) {
      if p.editingSubmission.Some? {
        FormQuiet(p, SavedId(p), f, x);
      } else {
        DrawingIdQuiet(p, x);
        FormQuiet(p.(nextId := p.nextId + 1), SavedId(p), f, x);
      }
    }
  }

  lemma QueueingLeadQuiet(p: Page, id: Id, contact: Contact, x: Id)
    requires PageOk(p) && Quiet(p, x)
    requires forall r :: r in p.reservationOutbox && IsRequest(p.requests, r, x) ==> !IsRequestOf(p.requests, r, id)
    ensures Quiet(QueueLead(p, id, contact), x)
  {
    var p' := QueueLead(p, id, contact);
    forall l | LeadQueued(p', l) && l != id
      ensures LeadQueued(p, l)
    {
      var t :| t in p'.outbox && IsLead(p'.leads, t, l);
      assert t in p.outbox && IsLead(p.leads, t, l);
    }
    forall l | PassPostsLead(p', l)
      ensures PassPostsLead(p, l)
    {
      var t :| t in PassLeads(p'.pass) && IsLead(p'.leads, t, l);
      assert t < |p.leads|;
    }
  }

  lemma QueueingReservationQuiet(p: Page, leadId: Id, c: Option<Choice>, x: Id)
    requires CoreOk(p) && Quiet(p, x)
    requires forall r :: r in p.reservationOutbox && IsRequest(p.requests, r, x) ==> !IsRequestOf(p.requests, r, leadId)
    ensures Quiet(QueueReservation(p, leadId, c), x)
  {
    var p' := QueueReservation(p, leadId, c);
    assert forall l :: LeadQueued(p', l) ==> LeadQueued(p, l);
    var at := FindRequestOf(p.requests, p.reservationOutbox, leadId);
    if at.Some? {
      assert p.reservationOutbox[at.value] in p.reservationOutbox;
    }
    forall t: nat | IsRequest(p'.requests, t, x)
      ensures t !in PassRequests(p'.pass) && (t in p'.reservationOutbox ==> Held(p', t))
    {
      assert IsRequest(p.requests, t, x);
    }
  }

  lemma OtherStepQuiet(p: Page, e: Event, x: Id)
    requires PageOk(p) && Quiet(p, x)
    requires e.FinishesLeadForm? || e.EditsLead? || e.EditsReservation? || e.CancelsReservationEdit? || e.BeginsDownload?
             || !IsPageEvent(e)
    ensures QuietStep(p, PageStep(p, e), x)
  {
    assert forall l :: LeadQueued(PageStep(p, e), l) ==> LeadQueued(p, l);
    assert forall l :: PassPostsLead(PageStep(p, e), l) ==> PassPostsLead(p, l);
  }

  lemma BeginningQuiet(p: Page, x: Id)
    requires PageOk(p) && Quiet(p, x)
    ensures QuietStep(p, BeginPass(p), x)
  {
    if p.pass.Idle? && HasWork(p) {
      NextLeadQuiet(p, p.outbox, x);
    }
  }

  lemma PageStepQuiet(p: Page, e: Event, x: Id)
    requires PageOk(p) && Quiet(p, x) && !Rearms(p, e, x) && (e.EndsDownload? ==> Quiet(EndDownload(p), x))
    ensures QuietStep(p, PageStep(p, e), x)
  {
    hide SaveLead, SaveReservation, RemoveLead, RemoveReservation, LeadReplied, RequestReplied, ConflictRefreshed, PassStored;
    hide BeginPass;
    match e
    case SavesLead(f) => SavingLeadQuiet(p, f, x);
    case SavesReservation(c) => SavingReservationQuiet(p, c, x);
    case RemovesLead(id) => RemovalQuiet(p, id, x);
    case RemovesReservation(id) => RemovalQuiet(p, id, x);
    case BeginsPass => BeginningQuiet(p, x);
    case RepliesToLead(reply) => LeadReplyQuiet(p, reply, x);
    case RepliesToRequest(reply) => RequestReplyQuiet(p, reply, x);
    case RefreshesConflict(refreshed) => RefreshQuiet(p, refreshed, x);
    case ResumesPass => StoredQuiet(p, x);
    case EndsDownload =>
    case _ => OtherStepQuiet(p, e, x);
  }

  // ---------------------------------------------------------------- runs

  lemma SavingQuietIff(p: Page, x: Id)
    requires InBounds(p)
    ensures SavedQuiet(Save(p), x) <==> QueuesHold(p, x)
  {
    var s := Save(p);
    if SavedQuiet(s, x) {
      forall r | r in p.reservationOutbox && IsRequest(p.requests, r, x)
        ensures HeldInQueue(p, r)
      {
        var i :| 0 <= i < |p.reservationOutbox| && p.reservationOutbox[i] == r;
        assert s.reservationOutbox[i] in s.reservationOutbox;
        forall t | t in p.outbox
          ensures !IsLead(p.leads, t, p.requests[r].leadSubmissionId)
        {
          var j :| 0 <= j < |p.outbox| && p.outbox[j] == t;
          assert s.outbox[j] in s.outbox;
        }
      }
    } else {
      var q :| q in s.reservationOutbox && q.submissionId == x
               && !(q.status.Conflict? && forall l :: l in s.outbox ==> l.submissionId != q.leadSubmissionId);
      var i :| 0 <= i < |s.reservationOutbox| && s.reservationOutbox[i] == q;
      assert p.reservationOutbox[i] in p.reservationOutbox && IsRequest(p.requests, p.reservationOutbox[i], x);
      if l :| l in s.outbox && l.submissionId == q.leadSubmissionId {
        var j :| 0 <= j < |s.outbox| && s.outbox[j] == l;
        assert p.outbox[j] in p.outbox && IsLead(p.leads, p.outbox[j], l.submissionId);
      }
    }
  }

  lemma ReloadingQuiet(p: Page, s: Saved, x: Id)
    requires SavedQuiet(s, x) && x < p.nextId
    ensures Quiet(Reload(p, s), x)
  {
    var p' := Reload(p, s);
    forall r: nat | IsRequest(p'.requests, r, x)
      ensures r !in PassRequests(p'.pass) && (r in p'.reservationOutbox ==> Held(p', r))
    {
      assert s.reservationOutbox[r] in s.reservationOutbox;
      forall t | t in p'.outbox && t < |p'.leads|
        ensures p'.leads[t].submissionId != p'.requests[r].leadSubmissionId
      {
        assert s.outbox[t] in s.outbox;
      }
    }
  }

  /** A write keeps the hold in every record exactly when the queues that it takes have the request on hold. */
  lemma WriteKeepsHoldIff(s: State, e: Event, x: Id)
    requires Coherent(s) && QuietEverywhere(s, x) && IsWrite(s, e)
    ensures QuietEverywhere(Step(s, e), x) <==> QueuesHold(Written(s, e), x)
  {
    WriteSaves(s, e);
    SavingQuietIff(Written(s, e), x);
    hide Coherent, Quiet, SavedQuiet, QueuesHold, Step, Written;
    var after := Step(s, e).writes;
    assert after[|s.writes|] in after;
    assert forall w :: w in after <==> w in s.writes || w == Save(Written(s, e));
  }

  /**
   A write, or the end of a download, keeps the hold on the page and in every record exactly when it neither stores nor
   brings back queues in which the request is not held.
   */
  lemma HoldStaysIff(s: State, e: Event, x: Id)
    requires Coherent(s) && QuietEverywhere(s, x) && (IsWrite(s, e) || e.EndsDownload?)
    ensures QuietEverywhere(Step(s, e), x) <==> !Revives(s, e, x)
  {
    if IsWrite(s, e) {
      WriteKeepsHoldIff(s, e, x);
    }
  }

  lemma WriteQuiet(s: State, e: Event, x: Id)
    requires Coherent(s) && (e.Serialises? || e.StoresDownload? || e.StoresPrepared?) && !Revives(s, e, x)
    ensures Step(s, e).page == s.page
    ensures QuietEverywhere(s, x) ==> QuietEverywhere(Step(s, e), x)
  {
    if IsWrite(s, e) && QuietEverywhere(s, x) {
      HoldStaysIff(s, e, x);
    }
  }

  lemma PageEventQuiet(s: State, e: Event, x: Id)
    requires Coherent(s) && Quiet(s.page, x) && !Rearms(s.page, e, x) && !Revives(s, e, x) && IsPageEvent(e)
    ensures QuietStep(s.page, Step(s, e).page, x)
    ensures Step(s, e).disk == s.disk && Step(s, e).writes == s.writes
  {
    assert PageOk(s.page);
    hide Coherent, PageOk, Quiet, PageStep;
    if ReplyPossible(s, e) {
      PageStepQuiet(s.page, e, x);
    }
  }

  lemma StepQuiet(s: State, e: Event, x: Id)
    requires Coherent(s) && Quiet(s.page, x) && !Rearms(s.page, e, x) && !Revives(s, e, x)
    requires e.Reloads? ==> SavedQuiet(s.disk, x)
    ensures QuietStep(s.page, Step(s, e).page, x)
    ensures QuietEverywhere(s, x) ==> QuietEverywhere(Step(s, e), x)
  {
    assert x < s.page.nextId;
    hide Coherent, Quiet, Revives, PageEventStep, WriteStep, SavedQuiet, Rearms;
    if IsPageEvent(e) {
      PageEventQuiet(s, e, x);
    } else if e.Reloads? {
      ReloadingQuiet(s.page, s.disk, x);
    } else if e.Lands? {
      if e.write < |s.writes| {
        assert s.writes[e.write] in s.writes;
      }
    } else if !e.Delivers? && !e.PreparesWrite? {
      WriteQuiet(s, e, x);
    }
  }

  /**
   Conflict hold. A quiet request is not posted by any run in which neither the user re-arms it nor a download or a
   write in preparation stores it, or brings it back, unheld; a run with reloads needs the conflict to have reached the
   stored record and every pending write.
   */
  lemma {:induction false} ConflictHold(s: State, es: seq<Event>, x: Id)
    requires Coherent(s) && Quiet(s.page, x) && !RearmedIn(s, es, x) && !RevivedIn(s, es, x)
    requires Reloads in es ==> QuietEverywhere(s, x)
    ensures Quiet(Run(s, es).page, x)
    ensures |s.page.sent| <= |Run(s, es).page.sent| && !PostsOf(Run(s, es).page.sent, |s.page.sent|, x)
    decreases |es|
  {
    if es != [] {
      var s' := Step(s, es[0]);
      StepIsCoherent(s, es[0]);
      StepQuiet(s, es[0], x);
      SentOnlyGrows(s, es[0]);
      ConflictHold(s', es[1..], x);
      SentPrefix(s', es[1..]);
      var end := Run(s', es[1..]).page.sent;
      forall k | |s.page.sent| <= k < |end| && end[k].RequestPost?
        ensures end[k].request.submissionId != x
      {
        if k < |s'.page.sent| {
          assert end[k] == s'.page.sent[k];
        }
      }
    }
  }

  lemma PassOnlySends(p: Page, lead: LeadReply, refreshed: bool)
    ensures p.sent <= BeginPass(p).sent && p.sent <= LeadReplied(p, lead).sent
    ensures p.sent <= ConflictRefreshed(p, refreshed).sent && p.sent <= PassStored(p).sent
  {
  }

  lemma UserSendsNothing(p: Page, e: Event)
    requires !e.BeginsPass? && !e.RepliesToLead? && !e.RefreshesConflict? && !e.ResumesPass?
    ensures PageStep(p, e).sent == p.sent
  {
  }

  lemma PageStepSends(p: Page, e: Event)
    ensures p.sent <= PageStep(p, e).sent
  {
    hide BeginPass, LeadReplied, ConflictRefreshed, PassStored;
    match e
    case BeginsPass => PassOnlySends(p, LeadFailed, false);
    case RepliesToLead(reply) => PassOnlySends(p, reply, false);
    case RefreshesConflict(refreshed) => PassOnlySends(p, LeadFailed, refreshed);
    case ResumesPass => PassOnlySends(p, LeadFailed, false);
    case _ => UserSendsNothing(p, e);
  }

  lemma SentOnlyGrows(s: State, e: Event)
    ensures s.page.sent <= Step(s, e).page.sent
  {
    PageStepSends(s.page, e);
    hide PageStep, SnapshotAfter, IsWrite, Written;
  }

  lemma {:induction false} SentPrefix(s: State, es: seq<Event>)
    ensures s.page.sent <= Run(s, es).page.sent
    decreases |es|
  {
    if es != [] {
      SentOnlyGrows(s, es[0]);
      SentPrefix(Step(s, es[0]), es[1..]);
    }
  }

  /** A 409 makes the request quiet at once, unless its lead is still queued. */
  lemma ConflictReplyQuiets(s: State, x: Id)
    requires Coherent(s) && s.page.pass.PostingRequest? && s.page.pass.item < |s.page.requests|
    requires s.page.requests[s.page.pass.item].submissionId == x
    requires !LeadQueued(s.page, s.page.requests[s.page.pass.item].leadSubmissionId)
    ensures Quiet(Step(s, RepliesToRequest(RequestConflict)).page, x)
  {
    var p := s.page;
    var r, rest := p.pass.item, p.pass.rest;
    var p' := Step(s, RepliesToRequest(RequestConflict)).page;
    assert p.requests[r] in p.requests;
    forall t: nat | IsRequest(p'.requests, t, x)
      ensures t !in PassRequests(p'.pass) && (t in p'.reservationOutbox ==> Held(p', t))
    {
      RestLinked(p.requests, r, rest);
      assert t == r;
    }
  }

  /**
   After a 409 and a refresh that succeeded, the request of that id is in conflict wherever it is queued, whatever
   the user did to it meanwhile; no other request changes and nothing is posted before the write.
   */
  lemma RefreshHolds(p: Page, id: Id)
    requires PageOk(p) && p.pass.RefreshingConflict? && IsRequest(p.requests, p.pass.item, id)
    requires RequestQueued(p, id)
    ensures var p' := ConflictRefreshed(p, true);
            && p'.sent == p.sent && p'.pass == StoringRequest(p.pass.rest)
            && p'.outbox == p.outbox && p'.reservationOutbox == p.reservationOutbox && |p'.requests| == |p.requests|
            && (forall r | 0 <= r < |p.requests| && p.requests[r].submissionId == id :: p'.requests[r].status.Conflict?)
            && (forall r | 0 <= r < |p.requests| && p.requests[r].submissionId != id :: p'.requests[r] == p.requests[r])
  {
    var r :| r in p.reservationOutbox && IsRequest(p.requests, r, id);
    var at := FindRequest(p.requests, p.reservationOutbox, id);
    assert p.reservationOutbox[at.value] in p.reservationOutbox && p.reservationOutbox[at.value] == r;
  }
}
