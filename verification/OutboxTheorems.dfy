/** Theorems about every run of the offline workspace. */
module OutboxTheorems {
  import opened Collections
  import opened OutboxPage
  import opened OutboxWorld
  import opened OutboxInvariant

  // ---------------------------------------------------------------- links are truthful

  ghost predicate TruthfulPage(log: seq<Record>, p: Page) {
    && (forall q :: q in p.requests ==> Truthful(log, q))
    && (forall q :: RequestPost(q) in p.sent ==> q.link.Some? && Truthful(log, q))
  }

  /** In-place changes that leave links alone, and at most one truthful post, keep the page truthful. */
  lemma SameLinksTruthful(log: seq<Record>, p: Page, p': Page)
    requires TruthfulPage(log, p)
    requires p'.sent == p.sent
    requires forall i :: 0 <= i < |p'.requests| ==>
               p'.requests[i].link.None?
               || (i < |p.requests| && p'.requests[i].link == p.requests[i].link
                   && p'.requests[i].leadSubmissionId == p.requests[i].leadSubmissionId)
    ensures TruthfulPage(log, p')
  {
    forall q | q in p'.requests
      ensures Truthful(log, q)
    {
      var i :| 0 <= i < |p'.requests| && p'.requests[i] == q;
      if q.link.Some? {
        assert p.requests[i] in p.requests;
      }
    }
  }

  lemma NextRequestTruthful(log: seq<Record>, p: Page, rest: seq<nat>)
    requires TruthfulPage(log, p) && RequestsLinked(p.requests, rest)
    ensures TruthfulPage(log, NextRequest(p, rest))
  {
    if rest != [] {
      var r := rest[0];
      assert r in rest && p.requests[r] in p.requests;
      var p' := NextRequest(p, rest);
      SameLinksTruthful(log, p, p'.(sent := p.sent));
      assert Truthful(log, p'.requests[r]);
    }
  }

  lemma BeginRequestsTruthful(log: seq<Record>, p: Page)
    requires TruthfulPage(log, p)
    ensures TruthfulPage(log, BeginRequests(p))
  {
    NextRequestTruthful(log, p, Eligible(p.requests, p.reservationOutbox));
  }

  lemma NextLeadTruthful(log: seq<Record>, p: Page, rest: seq<nat>)
    requires TruthfulPage(log, p)
    ensures TruthfulPage(log, NextLead(p, rest))
  {
    if rest == [] || rest[0] >= |p.leads| {
      BeginRequestsTruthful(log, p);
    }
  }

  lemma AcknowledgingLeadTruthful(log: seq<Record>, p: Page, id: Id, link: Link)
    requires TruthfulPage(log, p) && LeadRecord(id, link) in log
    ensures TruthfulPage(log, AcknowledgeLead(p, id, link))
  {
    var p' := AcknowledgeLead(p, id, link);
    forall q | q in p'.requests
      ensures Truthful(log, q)
    {
      var i :| 0 <= i < |p'.requests| && p'.requests[i] == q;
      assert p.requests[i] in p.requests;
    }
  }

  lemma LeadReplyTruthful(s: State, reply: LeadReply)
    requires Coherent(s) && ReplyPossible(s, RepliesToLead(reply))
    ensures TruthfulPage(s.log, LeadReplied(s.page, reply))
  {
    var p := s.page;
    if p.pass.PostingLead? {
      match reply
      case LeadAccepted(link) => AcknowledgingLeadTruthful(s.log, p, p.leads[p.pass.item].submissionId, link);
      case LeadUnauthorized => BeginRequestsTruthful(s.log, SetLeadStatus(p, p.pass.item, Waiting));
      case LeadFailed =>
    }
  }

  lemma ConflictRefreshTruthful(log: seq<Record>, p: Page, refreshed: bool)
    requires TruthfulPage(log, p) && PageOk(p)
    ensures TruthfulPage(log, ConflictRefreshed(p, refreshed))
  {
    if p.pass.RefreshingConflict? {
      var r, rest := p.pass.item, p.pass.rest;
      RestLinked(p.requests, r, rest);
      var at := FindRequest(p.requests, p.reservationOutbox, p.requests[r].submissionId);
      if refreshed && at.Some? {
        SameLinksTruthful(log, p, ConflictRefreshed(p, refreshed));
      } else {
        NextRequestTruthful(log, p, rest);
      }
    }
  }

  lemma StoredTruthful(log: seq<Record>, p: Page)
    requires TruthfulPage(log, p) && PageOk(p)
    ensures TruthfulPage(log, PassStored(p))
  {
    match p.pass
    case StoringLead(rest) => NextLeadTruthful(log, p, rest);
    case StoringRequest(rest) => NextRequestTruthful(log, p, rest);
    case _ => SameLinksTruthful(log, p, PassStored(p));
  }

  lemma SavingLeadTruthful(log: seq<Record>, p: Page, f: LeadForm)
    requires TruthfulPage(log, p)
    ensures TruthfulPage(log, SaveLead(p, f))
  {
    hide TruthfulPage, RequestsExcept, AcceptableLead, FormChoice;
    SameLinksTruthful(log, p, SaveLead(p, f));
  }

  lemma SavingRequestTruthful(log: seq<Record>, p: Page, c: Choice)
    requires TruthfulPage(log, p)
    ensures TruthfulPage(log, SaveReservation(p, c))
  {
    hide TruthfulPage, AcceptableChoice;
    SameLinksTruthful(log, p, SaveReservation(p, c));
  }

  lemma QuietStepTruthful(log: seq<Record>, p: Page, e: Event)
    requires TruthfulPage(log, p) && !e.SavesLead? && !e.SavesReservation?
    requires !e.BeginsPass? && !e.RepliesToLead? && !e.RepliesToRequest? && !e.RefreshesConflict? && !e.ResumesPass?
    ensures TruthfulPage(log, PageStep(p, e))
  {
    hide TruthfulPage, FindLead, FindRequest, LeadsExcept, RequestsExcept, RequestsExceptOf;
    SameLinksTruthful(log, p, PageStep(p, e));
  }

  lemma RequestReplyTruthful(log: seq<Record>, p: Page, reply: RequestReply)
    requires TruthfulPage(log, p)
    ensures TruthfulPage(log, RequestReplied(p, reply))
  {
    hide TruthfulPage, RequestsExcept, NewestReceipts;
    SameLinksTruthful(log, p, RequestReplied(p, reply));
  }

  lemma PageStepTruthful(s: State, e: Event)
    requires Coherent(s) && ReplyPossible(s, e)
    ensures TruthfulPage(s.log, PageStep(s.page, e))
  {
    assert TruthfulPage(s.log, s.page) && PageOk(s.page);
    hide Coherent, TruthfulPage, PageOk, SaveLead, SaveReservation, NextLead, LeadReplied, RequestReplied, ConflictRefreshed;
    hide PassStored, RemoveLead, RemoveReservation, EditLead, EditReservation, HasWork;
    match e
    case SavesLead(f) => SavingLeadTruthful(s.log, s.page, f);
    case SavesReservation(c) => SavingRequestTruthful(s.log, s.page, c);
    case BeginsPass => NextLeadTruthful(s.log, s.page, s.page.outbox);
    case RepliesToLead(reply) => LeadReplyTruthful(s, reply);
    case RepliesToRequest(reply) => RequestReplyTruthful(s.log, s.page, reply);
    case RefreshesConflict(refreshed) => ConflictRefreshTruthful(s.log, s.page, refreshed);
    case ResumesPass => StoredTruthful(s.log, s.page);
    case _ => QuietStepTruthful(s.log, s.page, e);
  }

  // ---------------------------------------------------------------- records, reload and the server

  lemma SavingIsOk(p: Page, log: seq<Record>)
    requires CoreOk(p) && InBounds(p) && TruthfulPage(log, p)
    ensures SavedOk(Save(p), p.nextId)
    ensures forall q :: q in Save(p).reservationOutbox ==> Truthful(log, q)
  {
    forall i | 0 <= i < |p.outbox|
      ensures p.outbox[i] in p.outbox && p.outbox[i] < |p.leads| && p.leads[p.outbox[i]] in p.leads
    {
      assert p.outbox[i] in p.outbox;
    }
    forall i | 0 <= i < |p.reservationOutbox|
      ensures p.reservationOutbox[i] in p.reservationOutbox && p.reservationOutbox[i] < |p.requests|
      ensures p.requests[p.reservationOutbox[i]] in p.requests
    {
      assert p.reservationOutbox[i] in p.reservationOutbox;
    }
  }

  /** A record has a request without its lead exactly when the queues it was taken from have one. */
  lemma SavingOrphansIff(p: Page)
    requires InBounds(p)
    ensures NoOrphansSaved(Save(p)) <==> NoOrphans(p)
  {
    var s := Save(p);
    assert forall i :: 0 <= i < |p.reservationOutbox| ==> p.reservationOutbox[i] in p.reservationOutbox;
    forall i | 0 <= i < |p.reservationOutbox|
      ensures LinkedOrWaiting(p, p.reservationOutbox[i])
         <==> || s.reservationOutbox[i].link.Some?
              || exists l :: l in s.outbox && l.submissionId == s.reservationOutbox[i].leadSubmissionId
    {
      SavedLeadsAre(p, s.reservationOutbox[i].leadSubmissionId);
    }
    if NoOrphans(p) {
      forall q | q in s.reservationOutbox
        ensures q.link.Some? || exists l :: l in s.outbox && l.submissionId == q.leadSubmissionId
      {
        var i :| 0 <= i < |s.reservationOutbox| && s.reservationOutbox[i] == q;
        assert p.reservationOutbox[i] in p.reservationOutbox;
      }
    } else {
      var r :| r in p.reservationOutbox && !LinkedOrWaiting(p, r);
      var i :| 0 <= i < |p.reservationOutbox| && p.reservationOutbox[i] == r;
      assert s.reservationOutbox[i] in s.reservationOutbox;
    }
  }

  lemma SavedLeadsAre(p: Page, id: Id)
    requires InBounds(p)
    ensures LeadQueued(p, id) <==> exists l :: l in Save(p).outbox && l.submissionId == id
  {
    var s := Save(p);
    if LeadQueued(p, id) {
      var t :| t in p.outbox && IsLead(p.leads, t, id);
      var j :| 0 <= j < |p.outbox| && p.outbox[j] == t;
      assert s.outbox[j] in s.outbox;
    }
    if l :| l in s.outbox && l.submissionId == id {
      var j :| 0 <= j < |s.outbox| && s.outbox[j] == l;
      assert p.outbox[j] in p.outbox && IsLead(p.leads, p.outbox[j], id);
    }
  }

  lemma ReloadingIsOk(p: Page, s: Saved)
    requires SavedOk(s, p.nextId)
    ensures PageOk(Reload(p, s))
  {
  }

  lemma ReloadingOrphansNothing(p: Page, s: Saved)
    requires NoOrphansSaved(s)
    ensures NoOrphans(Reload(p, s))
  {
    var p' := Reload(p, s);
    forall r | r in p'.reservationOutbox
      ensures LinkedOrWaiting(p', r)
    {
      var q := p'.requests[r];
      assert q in s.reservationOutbox;
      if q.link.None? {
        var l :| l in s.outbox && l.submissionId == q.leadSubmissionId;
        var j :| 0 <= j < |s.outbox| && s.outbox[j] == l;
        assert p'.outbox[j] == j;
        assert j in p'.outbox && IsLead(p'.leads, j, q.leadSubmissionId);
      }
    }
  }

  lemma DeliveringIsOk(log: seq<Record>, m: Message, link: Link, available: bool)
    requires AtMostOnce(log) && LeadIdsDistinct(log) && Causal(log)
    requires m.RequestPost? ==> m.request.link.Some? && Truthful(log, m.request)
    ensures var log' := Deliver(log, m, link, available);
            AtMostOnce(log') && LeadIdsDistinct(log') && Causal(log') && log <= log'
  {
    var log' := Deliver(log, m, link, available);
    forall j | 0 <= j < |log'| && log'[j].ReservationRecord?
      ensures exists i :: 0 <= i < j && log'[i] == LeadRecord(log'[j].leadSubmissionId, log'[j].link)
    {
      if j < |log| {
        var i :| 0 <= i < j && log[i] == LeadRecord(log[j].leadSubmissionId, log[j].link);
        assert log'[i] == log[i];
      } else {
        var i :| 0 <= i < |log| && log[i] == LeadRecord(m.request.leadSubmissionId, m.request.link.value);
        assert log'[i] == log[i];
      }
    }
  }

  lemma NextIdGrows(p: Page, e: Event)
    ensures p.nextId <= PageStep(p, e).nextId
  {
  }

  lemma InitialOk()
    ensures Inv(START)
  {
  }

  predicate IsPageEvent(e: Event) {
    && !e.Serialises? && !e.StoresDownload? && !e.PreparesWrite? && !e.StoresPrepared?
    && !e.Lands? && !e.Delivers? && !e.Reloads?
  }

  // ---------------------------------------------------------------- every run

  lemma NewPageIsCoherent(s: State, s': State)
    requires Coherent(s) && s' == s.(page := s'.page, preparing := s'.preparing)
    requires PageOk(s'.page) && QueuesOk(EndDownload(s'.page)) && TruthfulPage(s.log, s'.page)
    requires s.page.nextId <= s'.page.nextId
    requires forall k :: 0 <= k < |s'.preparing| ==> QueuesOk(SnapshotPage(s'.page, s'.preparing[k]))
    ensures Coherent(s')
  {
    hide QueuesOk, PageOk, SnapshotPage;
  }

  lemma PageEventIsCoherent(s: State, e: Event)
    requires Coherent(s) && IsPageEvent(e) && ReplyPossible(s, e)
    ensures Coherent(PageEventStep(s, e))
  {
    PageStepOk(s.page, e);
    PageStepKeepsCaptures(s.page, e);
    PageStepTruthful(s, e);
    NextIdGrows(s.page, e);
    assert QueuesOk(PageStep(s.page, e));
    hide QueuesOk, PageStep, SnapshotPage, SnapshotAfter, PageOk, TruthfulPage;
    forall k | 0 <= k < |s.preparing|
      ensures QueuesOk(SnapshotPage(PageStep(s.page, e), SnapshotAfter(s.page, e, s.preparing[k])))
    {
      SnapshotStaysOk(s.page, e, s.preparing[k]);
    }
    NewPageIsCoherent(s, PageEventStep(s, e));
  }

  lemma DeliveryIsCoherent(s: State, k: nat, link: Link, available: bool)
    requires Coherent(s) && k < |s.page.sent|
    ensures var log' := Deliver(s.log, s.page.sent[k], link, available);
            Coherent(s.(log := log')) && s.log <= log'
  {
    assert s.page.sent[k] in s.page.sent;
    DeliveringIsOk(s.log, s.page.sent[k], link, available);
    var log' := Deliver(s.log, s.page.sent[k], link, available);
    assert forall r :: r in s.log ==> r in log';
    forall w, q | w in s.writes && q in w.reservationOutbox
      ensures Truthful(log', q)
    {
      assert Truthful(s.log, q);
    }
  }

  lemma WrittenIsOk(s: State, e: Event)
    requires Coherent(s) && IsWrite(s, e)
    ensures CoreOk(Written(s, e)) && InBounds(Written(s, e)) && TruthfulPage(s.log, Written(s, e))
    ensures Written(s, e).nextId == s.page.nextId
  {
  }

  /** A write adds the record of the queues it takes, and is no longer in preparation. */
  lemma WriteSaves(s: State, e: Event)
    requires Coherent(s) && (e.Serialises? || e.StoresDownload? || e.StoresPrepared?)
    ensures if !IsWrite(s, e) then Step(s, e) == s
            else && InBounds(Written(s, e))
                 && Step(s, e) == s.(writes := s.writes + [Save(Written(s, e))], preparing := Step(s, e).preparing)
                 && forall n :: n in Step(s, e).preparing ==> n in s.preparing
  {
    if IsWrite(s, e) {
      WrittenIsOk(s, e);
    }
  }

  lemma NewWriteIsCoherent(s: State, p: Page, preparing: seq<Snapshot>)
    requires Coherent(s) && CoreOk(p) && TruthfulPage(s.log, p) && p.nextId == s.page.nextId && InBounds(p)
    requires forall n :: n in preparing ==> n in s.preparing
    ensures Coherent(s.(writes := s.writes + [Save(p)], preparing := preparing))
  {
    SavingIsOk(p, s.log);
    var s' := s.(writes := s.writes + [Save(p)], preparing := preparing);
    assert forall w :: w in s'.writes ==> w in s.writes || w == Save(p);
    forall k | 0 <= k < |preparing|
      ensures QueuesOk(SnapshotPage(s.page, preparing[k]))
    {
      assert preparing[k] in preparing;
    }
  }

  lemma WriteIsCoherent(s: State, e: Event)
    requires Coherent(s) && (e.Serialises? || e.StoresDownload? || e.StoresPrepared?)
    ensures Coherent(Step(s, e)) && Step(s, e).log == s.log
  {
    WriteSaves(s, e);
    if IsWrite(s, e) {
      WrittenIsOk(s, e);
      hide Coherent, CoreOk, TruthfulPage, Written, Step, IsWrite;
      NewWriteIsCoherent(s, Written(s, e), Step(s, e).preparing);
    }
  }

  lemma PreparingIsCoherent(s: State)
    requires Coherent(s)
    ensures Coherent(Step(s, PreparesWrite))
  {
    hide QueuesOk;
  }

  lemma LandingIsCoherent(s: State, k: nat)
    requires Coherent(s)
    ensures Coherent(Step(s, Lands(k))) && Step(s, Lands(k)).log == s.log
  {
    if k < |s.writes| {
      assert s.writes[k] in s.writes;
      assert forall w :: w in Step(s, Lands(k)).writes ==> w in s.writes;
    }
  }

  lemma ReloadIsCoherent(s: State)
    requires Coherent(s)
    ensures Coherent(Step(s, Reloads)) && Step(s, Reloads).log == s.log
  {
    ReloadingIsOk(s.page, s.disk);
  }

  /** Every event keeps the state coherent. */
  lemma StepIsCoherent(s: State, e: Event)
    requires Coherent(s)
    ensures Coherent(Step(s, e)) && s.log <= Step(s, e).log
  {
    hide Coherent, WriteStep, PageEventStep;
    if IsPageEvent(e) {
      if ReplyPossible(s, e) {
        PageEventIsCoherent(s, e);
        PageEventKeepsLog(s, e);
      }
    } else {
      match e
      case Delivers(k, link, available) =>
        if k < |s.page.sent| {
          DeliveryIsCoherent(s, k, link, available);
        }
      case Reloads => ReloadIsCoherent(s);
      case Lands(k) => LandingIsCoherent(s, k);
      case PreparesWrite => PreparingIsCoherent(s);
      case _ => WriteIsCoherent(s, e);
    }
  }

  lemma PageEventKeepsLog(s: State, e: Event)
    ensures PageEventStep(s, e).log == s.log
  {
  }

  /**
   Over every run, whatever the environment does: in memory, in every pending write and in the stored record, ids are
   distinct and a lead has at most one request; links are what the server answered; the server holds each submission
   at most once and every reservation carries the ids its own lead was given strictly earlier.
   */
  lemma {:induction false} RunIsCoherent(s: State, es: seq<Event>)
    requires Coherent(s)
    ensures Coherent(Run(s, es)) && s.log <= Run(s, es).log
    decreases |es|
  {
    if es != [] {
      StepIsCoherent(s, es[0]);
      RunIsCoherent(Step(s, es[0]), es[1..]);
    }
  }

  // ---------------------------------------------------------------- requests and their leads

  lemma PageEventKeepsInvIff(s: State, e: Event)
    requires Inv(s) && IsPageEvent(e) && ReplyPossible(s, e)
    ensures NoOrphans(PageStep(s.page, e)) <==> Orderly(s, e)
  {
    if !e.EndsDownload? {
      PageStepOrphansNothing(s.page, e);
    }
  }

  lemma WriteKeepsInvIff(s: State, e: Event)
    requires Inv(s) && (e.Serialises? || e.StoresDownload? || e.StoresPrepared?)
    ensures Inv(Step(s, e)) <==> Orderly(s, e)
  {
    WriteIsCoherent(s, e);
    WriteSaves(s, e);
    if IsWrite(s, e) {
      SavingOrphansIff(Written(s, e));
      hide Coherent, NoOrphans, NoOrphansSaved, Written, Step;
      var after := Step(s, e).writes;
      assert after[|after| - 1] in after;
      assert forall w :: w in after ==> w in s.writes || w == Save(Written(s, e));
    }
  }

  /** An event keeps every request linked or beside its lead exactly when it is orderly. */
  lemma OrderlyIff(s: State, e: Event)
    requires Inv(s)
    ensures Inv(Step(s, e)) <==> Orderly(s, e)
  {
    hide Coherent, NoOrphans, NoOrphansSaved, WriteStep, PageStep, EndDownload, Written, SnapshotAfter;
    StepIsCoherent(s, e);
    if IsPageEvent(e) {
      if ReplyPossible(s, e) {
        PageEventKeepsInvIff(s, e);
      }
    } else if e.Reloads? {
      ReloadingOrphansNothing(s.page, s.disk);
    } else if e.Lands? {
      if e.write < |s.writes| {
        assert s.writes[e.write] in s.writes;
      }
    } else if !e.Delivers? && !e.PreparesWrite? {
      WriteKeepsInvIff(s, e);
    }
  }

  /** Over every orderly run, moreover, no request is without its lead, in memory, in a write or in the record. */
  lemma {:induction false} RunKeepsInv(s: State, es: seq<Event>)
    requires Inv(s) && OrderlyRun(s, es)
    ensures Inv(Run(s, es)) && s.log <= Run(s, es).log
    decreases |es|
  {
    if es != [] {
      OrderlyIff(s, es[0]);
      StepIsCoherent(s, es[0]);
      RunKeepsInv(Step(s, es[0]), es[1..]);
    }
  }

  /** The invariant holds at every moment of the run. */
  ghost predicate InvThroughout(s: State, es: seq<Event>)
    decreases |es|
  {
    Inv(s) && (es != [] ==> InvThroughout(Step(s, es[0]), es[1..]))
  }

  /** Over every run at all, the events that are not orderly are the only ones that break the invariant. */
  lemma {:induction false} InvThroughoutIff(s: State, es: seq<Event>)
    requires Inv(s)
    ensures InvThroughout(s, es) <==> OrderlyRun(s, es)
    decreases |es|
  {
    if es != [] {
      OrderlyIff(s, es[0]);
      if Orderly(s, es[0]) {
        InvThroughoutIff(Step(s, es[0]), es[1..]);
      }
    }
  }

  // ---------------------------------------------------------------- undisturbed downloads

  /** No array was replaced since the snapshot or the download that is stored or restored held the page's own. */
  predicate Undisturbed(s: State, e: Event) {
    && ((e.StoresDownload? || e.EndsDownload?) && s.page.download.Some? ==>
          s.page.download.value == Download(None, None))
    && (e.StoresPrepared? && e.write < |s.preparing| ==> s.preparing[e.write] in [Present, Former(InUse, InUse)])
  }

  predicate UndisturbedRun(s: State, es: seq<Event>)
    decreases |es|
  {
    es == [] || (Undisturbed(s, es[0]) && UndisturbedRun(Step(s, es[0]), es[1..]))
  }

  lemma UndisturbedIsOrderly(s: State, e: Event)
    requires Inv(s) && Undisturbed(s, e)
    ensures Orderly(s, e)
  {
    var p, own := s.page, s.page.(download := None);
    assert NoOrphans(own) by {
      forall r | r in own.reservationOutbox && r < |own.requests|
        ensures LinkedOrWaiting(own, r)
      {
        assert LinkedOrWaiting(p, r);
      }
    }
    assert e.EndsDownload? || e.StoresDownload? ==> EndDownload(p) == own;
    assert e.StoresPrepared? && IsWrite(s, e) ==> Written(s, e) in [p, own];
  }

  /** As long as nothing is replaced under a download or a write in preparation, the invariant holds throughout. */
  lemma {:induction false} UndisturbedRunKeepsInv(s: State, es: seq<Event>)
    requires Inv(s) && UndisturbedRun(s, es)
    ensures InvThroughout(s, es)
    decreases |es|
  {
    if es != [] {
      UndisturbedIsOrderly(s, es[0]);
      OrderlyIff(s, es[0]);
      UndisturbedRunKeepsInv(Step(s, es[0]), es[1..]);
    }
  }
}
