/** No queued lead or reservation request is lost, whatever the network and the reloads do. */
module OutboxDelivery {
  import opened Collections
  import opened OutboxPage
  import opened OutboxWorld
  import opened OutboxInvariant
  import opened OutboxTheorems

  predicate Accepted(log: seq<Record>, x: Id) {
    HasLead(log, x) || HasReservation(log, x)
  }

  predicate SavedHas(s: Saved, x: Id) {
    (exists l :: l in s.outbox && l.submissionId == x) || (exists q :: q in s.reservationOutbox && q.submissionId == x)
  }

  predicate DropsRequestsOf(p: Page, leadId: Id, x: Id) {
    exists r :: r in p.reservationOutbox && IsRequestOf(p.requests, r, leadId) && IsRequest(p.requests, r, x)
  }

  /** The user takes `x` out of the queue: by removing it, or by clearing a lead's reservation request. */
  predicate UserRemoves(p: Page, e: Event, x: Id) {
    match e
    case RemovesLead(id) => x == id || DropsRequestsOf(p, id, x)
    case RemovesReservation(id) => x == id
    case SavesLead(f) => AcceptableLead(f) && f.reservation.None? && DropsRequestsOf(p, SavedId(p), x)
    case _ => false
  }

  predicate RemovedIn(s: State, es: seq<Event>, x: Id)
    decreases |es|
  {
    es != [] && (UserRemoves(s.page, es[0], x) || RemovedIn(Step(s, es[0]), es[1..], x))
  }

  // ---------------------------------------------------------------- one page step

  /** `x` stays in the queue that it is in. */
  predicate Keeps(p: Page, p': Page, x: Id) {
    (LeadQueued(p, x) ==> LeadQueued(p', x)) && (RequestQueued(p, x) ==> RequestQueued(p', x))
  }

  /** Queues that lose no reference to `x`, over heaps that evolve, keep it. */
  lemma KeepingReferences(p: Page, p': Page, x: Id)
    requires LeadsEvolve(p.leads, p'.leads) && RequestsEvolve(p.requests, p'.requests)
    requires forall r :: r in p.outbox && IsLead(p.leads, r, x) ==> r in p'.outbox
    requires forall r :: r in p.reservationOutbox && IsRequest(p.requests, r, x) ==> r in p'.reservationOutbox
    ensures Keeps(p, p', x)
  {
    if LeadQueued(p, x) {
      var r :| r in p.outbox && IsLead(p.leads, r, x);
      assert r in p'.outbox && IsLead(p'.leads, r, x);
    }
    if RequestQueued(p, x) {
      var r :| r in p.reservationOutbox && IsRequest(p.requests, r, x);
      assert r in p'.reservationOutbox && IsRequest(p'.requests, r, x);
    }
  }

  lemma KeepingArrays(p: Page, p': Page, x: Id)
    requires KeepsArrays(p, p')
    ensures Keeps(p, p', x)
  {
    KeepingReferences(p, p', x);
  }

  lemma DroppingRequestKeepsOthers(p: Page, id: Id, x: Id)
    requires x != id
    ensures Keeps(p, ReplaceReservations(p, RequestsExcept(p.requests, p.reservationOutbox, id)), x)
  {
    KeepingReferences(p, ReplaceReservations(p, RequestsExcept(p.requests, p.reservationOutbox, id)), x);
  }

  lemma RemovingLeadKeepsOthers(p: Page, id: Id, x: Id)
    requires !UserRemoves(p, RemovesLead(id), x)
    ensures Keeps(p, RemoveLead(p, id), x)
  {
    KeepingReferences(p, RemoveLead(p, id), x);
  }

  lemma QueueingLeadKeepsOthers(p: Page, id: Id, contact: Contact, x: Id)
    requires QueuesOk(p)
    ensures Keeps(p, QueueLead(p, id, contact), x)
  {
    QueueingLeadKeepsQueues(p, id, contact);
    var p' := QueueLead(p, id, contact);
    if RequestQueued(p, x) {
      var r :| r in p.reservationOutbox && IsRequest(p.requests, r, x);
      assert r in p'.reservationOutbox && IsRequest(p'.requests, r, x);
    }
  }

  lemma QueueingReservationKeepsOthers(p: Page, leadId: Id, c: Option<Choice>, x: Id)
    requires QueuesOk(p)
    requires c.None? ==> !DropsRequestsOf(p, leadId, x)
    ensures Keeps(p, QueueReservation(p, leadId, c), x)
  {
    var at := FindRequestOf(p.requests, p.reservationOutbox, leadId);
    if c.Some? {
      KeepingReferences(p, QueueReservation(p, leadId, c), x);
    } else if at.Some? {
      var r := p.reservationOutbox[at.value];
      assert r in p.reservationOutbox && IsRequestOf(p.requests, r, leadId);
      assert IsRequest(p.requests, r, x) <==> p.requests[r].submissionId == x;
      DroppingRequestKeepsOthers(p, p.requests[r].submissionId, x);
    }
  }

  lemma FormKeepsOthers(p: Page, id: Id, f: LeadForm, x: Id)
    requires QueuesOk(p) && (f.reservation.None? ==> !DropsRequestsOf(p, id, x))
    ensures Keeps(p, QueueReservation(QueueLead(p, id, f.contact), id, FormChoice(f)), x)
  {
    hide QueuesOk, LeadQueued, RequestQueued, QueueReservation;
    QueueingLeadKeepsOthers(p, id, f.contact, x);
    QueueingLeadKeepsQueues(p, id, f.contact);
    QueueingReservationKeepsOthers(QueueLead(p, id, f.contact), id, FormChoice(f), x);
  }

  lemma DrawingKeeps(p: Page, x: Id)
    requires QueuesOk(p)
    ensures QueuesOk(p.(nextId := p.nextId + 1)) && Keeps(p, p.(nextId := p.nextId + 1), x)
  {
    InPlaceKeepsQueues(p, p.(nextId := p.nextId + 1));
    KeepingReferences(p, p.(nextId := p.nextId + 1), x);
  }

  lemma SavingLeadKeepsOthers(p: Page, f: LeadForm, x: Id)
    requires QueuesOk(p) && !UserRemoves(p, SavesLead(f), x)
    ensures Keeps(p, SaveLead(p, f), x)
  {
    hide QueuesOk, LeadQueued, RequestQueued, QueueLead, QueueReservation, FormChoice;
    if AcceptableLead(f) {
      if p.editingSubmission.Some? {
        FormKeepsOthers(p, SavedId(p), f, x);
      } else {
        DrawingKeeps(p, x);
        FormKeepsOthers(p.(nextId := p.nextId + 1), SavedId(p), f, x);
      }
    }
  }

  lemma LeadReplyKeeps(s: State, reply: LeadReply, x: Id)
    requires ReplyPossible(s, RepliesToLead(reply))
    ensures Accepted(s.log, x) || Keeps(s.page, LeadReplied(s.page, reply), x)
  {
    var p := s.page;
    if p.pass.PostingLead? && p.pass.item < |p.leads| {
      match reply
      case LeadAccepted(link) =>
        if x != p.leads[p.pass.item].submissionId {
          KeepingReferences(p, LeadReplied(p, reply), x);
        }
      case LeadUnauthorized =>
        NextKeepsArrays(SetLeadStatus(p, p.pass.item, Waiting), []);
        KeepingArrays(p, LeadReplied(p, reply), x);
      case LeadFailed => KeepingReferences(p, LeadReplied(p, reply), x);
    }
  }

  lemma RequestReplyKeeps(s: State, reply: RequestReply, x: Id)
    requires ReplyPossible(s, RepliesToRequest(reply))
    ensures Accepted(s.log, x) || Keeps(s.page, RequestReplied(s.page, reply), x)
  {
    var p := s.page;
    if p.pass.PostingRequest? && p.pass.item < |p.requests| && !Accepted(s.log, x) {
      KeepingReferences(p, RequestReplied(p, reply), x);
    }
  }

  lemma OtherStepKeeps(p: Page, e: Event, x: Id)
    requires !e.RemovesLead? && !e.RemovesReservation? && !e.SavesLead? && !e.RepliesToLead? && !e.RepliesToRequest?
    requires !e.BeginsPass? && !e.ResumesPass? && !e.RefreshesConflict? && !e.EndsDownload?
    ensures Keeps(p, PageStep(p, e), x)
  {
    hide Keeps, FindLead;
    KeepingReferences(p, PageStep(p, e), x);
  }

  /** Except for the end of a download, only the user or the server's acceptance takes an id out of its queue. */
  lemma PageStepKeeps(s: State, e: Event, x: Id)
    requires QueuesOk(s.page) && ReplyPossible(s, e) && !e.EndsDownload? && !UserRemoves(s.page, e, x)
    ensures Accepted(s.log, x) || Keeps(s.page, PageStep(s.page, e), x)
  {
    var p := s.page;
    hide QueuesOk, Keeps, SaveLead, RemoveLead, LeadReplied, RequestReplied, BeginPass, PassStored, ConflictRefreshed;
    hide KeepsArrays, Accepted, ReplyPossible;
    match e
    case RemovesLead(id) => RemovingLeadKeepsOthers(p, id, x);
    case RemovesReservation(id) => DroppingRequestKeepsOthers(p, id, x);
    case SavesLead(f) => SavingLeadKeepsOthers(p, f, x);
    case RepliesToLead(reply) => LeadReplyKeeps(s, reply, x);
    case RepliesToRequest(reply) => RequestReplyKeeps(s, reply, x);
    case BeginsPass =>
      PassStoredKeepsArrays(p);
      KeepingArrays(p, BeginPass(p), x);
    case ResumesPass =>
      PassStoredKeepsArrays(p);
      KeepingArrays(p, PassStored(p), x);
    case RefreshesConflict(refreshed) =>
      RefreshKeepsArrays(p, refreshed);
      KeepingArrays(p, ConflictRefreshed(p, refreshed), x);
    case _ => OtherStepKeeps(p, e, x);
  }

  /** What follows the page keeps what the page keeps. */
  lemma FollowingKeeps(p: Page, p': Page, before: Page, after: Page, x: Id)
    requires Keeps(p, p', x) && Follows(p, p', before, after) && before.leads == p.leads && before.requests == p.requests
    requires LeadsEvolve(p.leads, p'.leads) && RequestsEvolve(p.requests, p'.requests)
    ensures Keeps(before, after, x)
  {
    if LeadQueued(before, x) && after.outbox == before.outbox {
      var r :| r in before.outbox && IsLead(before.leads, r, x);
      assert r in after.outbox && IsLead(after.leads, r, x);
    }
    if RequestQueued(before, x) && after.reservationOutbox == before.reservationOutbox {
      var r :| r in before.reservationOutbox && IsRequest(before.requests, r, x);
      assert r in after.reservationOutbox && IsRequest(after.requests, r, x);
    }
  }

  // ---------------------------------------------------------------- records

  lemma SavedIsQueued(p: Page, x: Id)
    requires InBounds(p)
    ensures SavedHas(Save(p), x) <==> Queued(p, x)
  {
    var s := Save(p);
    if LeadQueued(p, x) {
      var r :| r in p.outbox && IsLead(p.leads, r, x);
      var i :| 0 <= i < |p.outbox| && p.outbox[i] == r;
      assert s.outbox[i] in s.outbox;
    } else if RequestQueued(p, x) {
      var r :| r in p.reservationOutbox && IsRequest(p.requests, r, x);
      var i :| 0 <= i < |p.reservationOutbox| && p.reservationOutbox[i] == r;
      assert s.reservationOutbox[i] in s.reservationOutbox;
    }
    if l :| l in s.outbox && l.submissionId == x {
      var i :| 0 <= i < |s.outbox| && s.outbox[i] == l;
      assert p.outbox[i] in p.outbox && IsLead(p.leads, p.outbox[i], x);
    }
    if q :| q in s.reservationOutbox && q.submissionId == x {
      var i :| 0 <= i < |s.reservationOutbox| && s.reservationOutbox[i] == q;
      assert p.reservationOutbox[i] in p.reservationOutbox && IsRequest(p.requests, p.reservationOutbox[i], x);
    }
  }

  lemma ReloadedIsQueued(p: Page, s: Saved, x: Id)
    requires SavedHas(s, x)
    ensures Queued(Reload(p, s), x)
  {
    var p' := Reload(p, s);
    if l :| l in s.outbox && l.submissionId == x {
      var i :| 0 <= i < |s.outbox| && s.outbox[i] == l;
      assert p'.outbox[i] == i;
      assert i in p'.outbox && IsLead(p'.leads, i, x);
    } else {
      var q :| q in s.reservationOutbox && q.submissionId == x;
      var i :| 0 <= i < |s.reservationOutbox| && s.reservationOutbox[i] == q;
      assert p'.reservationOutbox[i] == i;
      assert i in p'.reservationOutbox && IsRequest(p'.requests, i, x);
    }
  }

  // ---------------------------------------------------------------- safety

  /** In the queues that the pending download and each write in preparation can still store or restore. */
  predicate InReach(s: State, x: Id) {
    Queued(EndDownload(s.page), x) && forall k :: 0 <= k < |s.preparing| ==> Queued(SnapshotPage(s.page, s.preparing[k]), x)
  }

  /** On the page, and in whatever is or can still be written or restored. */
  predicate Tracked(s: State, x: Id) {
    Queued(s.page, x) && InReach(s, x) && forall w :: w in s.writes ==> SavedHas(w, x)
  }

  /** Accepted, or beyond the reach of any write, download or reload. */
  predicate Safe(s: State, x: Id) {
    Accepted(s.log, x) || (Tracked(s, x) && SavedHas(s.disk, x))
  }

  lemma AcceptedStays(s: State, e: Event, x: Id)
    requires Coherent(s) && Accepted(s.log, x)
    ensures Accepted(Step(s, e).log, x)
  {
    StepIsCoherent(s, e);
    var k :| 0 <= k < |s.log| && s.log[k].submissionId == x;
    assert Step(s, e).log[k] == s.log[k];
  }

  lemma EndingKeepsReach(s: State, x: Id)
    requires InReach(s, x)
    ensures var s' := PageEventStep(s, EndsDownload); Queued(s'.page, x) && InReach(s', x)
  {
    var s' := PageEventStep(s, EndsDownload);
    assert EndDownload(s'.page).outbox == s'.page.outbox && EndDownload(s'.page).reservationOutbox == s'.page.reservationOutbox;
    forall k | 0 <= k < |s'.preparing|
      ensures Queued(SnapshotPage(s'.page, s'.preparing[k]), x)
    {
      EndingKeepsSnapshots(s.page, s.preparing[k]);
    }
  }

  lemma SnapshotHeap(p: Page, n: Snapshot)
    ensures SnapshotPage(p, n).leads == p.leads && SnapshotPage(p, n).requests == p.requests
    ensures EndDownload(p).leads == p.leads && EndDownload(p).requests == p.requests
  {
  }

  lemma PageStepKeepsReach(s: State, e: Event, x: Id)
    requires QueuesOk(s.page) && ReplyPossible(s, e) && !e.EndsDownload? && !UserRemoves(s.page, e, x)
    requires Queued(s.page, x) && InReach(s, x) && !Accepted(s.log, x)
    ensures Queued(PageEventStep(s, e).page, x) && InReach(PageEventStep(s, e), x)
  {
    var p, p' := s.page, PageStep(s.page, e);
    PageStepKeeps(s, e, x);
    PageStepCaptures(p, e);
    CapturedFollows(p, e);
    SnapshotHeap(p, Present);
    hide PageStep, EndDownload, SnapshotPage, SnapshotAfter, Follows, LeadQueued, RequestQueued, QueuesOk, Accepted;
    hide LeadsEvolve, RequestsEvolve, ReplacesOutbox, ReplacesReservations, UserRemoves, ReplyPossible;
    FollowingKeeps(p, p', EndDownload(p), EndDownload(p'), x);
    forall k | 0 <= k < |s.preparing|
      ensures Queued(SnapshotPage(p', SnapshotAfter(p, e, s.preparing[k])), x)
    {
      SnapshotFollows(p, e, s.preparing[k]);
      SnapshotHeap(p, s.preparing[k]);
      FollowingKeeps(p, p', SnapshotPage(p, s.preparing[k]), SnapshotPage(p', SnapshotAfter(p, e, s.preparing[k])), x);
    }
  }

  lemma PageEventKeepsReach(s: State, e: Event, x: Id)
    requires Coherent(s) && IsPageEvent(e) && !UserRemoves(s.page, e, x)
    requires Queued(s.page, x) && InReach(s, x) && !Accepted(s.log, x)
    ensures Queued(Step(s, e).page, x) && InReach(Step(s, e), x)
    ensures Step(s, e).writes == s.writes && Step(s, e).disk == s.disk
  {
    if ReplyPossible(s, e) {
      assert QueuesOk(s.page);
      hide Coherent, InReach, Queued, Accepted, QueuesOk, PageStep, SnapshotAfter;
      if e.EndsDownload? {
        EndingKeepsReach(s, x);
      } else {
        PageStepKeepsReach(s, e, x);
      }
    }
  }

  /** A write takes queues that hold the id, and leaves the rest as it was. */
  lemma WriteHas(s: State, e: Event, x: Id)
    requires Coherent(s) && Queued(s.page, x) && InReach(s, x) && (e.Serialises? || e.StoresDownload? || e.StoresPrepared?)
    ensures var s' := Step(s, e);
            && s'.page == s.page && s'.disk == s.disk && InReach(s', x)
            && |s.writes| <= |s'.writes| <= |s.writes| + 1 && s'.writes[..|s.writes|] == s.writes
            && (|s'.writes| > |s.writes| ==> SavedHas(s'.writes[|s.writes|], x))
            && (e.Serialises? ==> |s'.writes| > |s.writes|)
  {
    WriteSaves(s, e);
    if IsWrite(s, e) {
      SavedIsQueued(Written(s, e), x);
      WrittenHas(s, e, x);
    }
    FewerInReach(s, Step(s, e), x);
  }

  lemma WrittenHas(s: State, e: Event, x: Id)
    requires IsWrite(s, e) && Queued(s.page, x) && InReach(s, x)
    ensures Queued(Written(s, e), x)
  {
    hide Queued;
  }

  lemma FewerInReach(s: State, s': State, x: Id)
    requires InReach(s, x) && s'.page == s.page && forall n :: n in s'.preparing ==> n in s.preparing
    ensures InReach(s', x)
  {
    hide Queued, EndDownload, SnapshotPage;
    forall k | 0 <= k < |s'.preparing|
      ensures Queued(SnapshotPage(s'.page, s'.preparing[k]), x)
    {
      assert s'.preparing[k] in s'.preparing;
      var j :| 0 <= j < |s.preparing| && s.preparing[j] == s'.preparing[k];
    }
  }

  lemma WriteKeepsTracked(s: State, e: Event, x: Id)
    requires Coherent(s) && Tracked(s, x) && (e.Serialises? || e.StoresDownload? || e.StoresPrepared?)
    ensures Tracked(Step(s, e), x) && Step(s, e).disk == s.disk
  {
    WriteHas(s, e, x);
    hide Step, InReach, SavedHas, Queued;
    var writes := Step(s, e).writes;
    forall w | w in writes
      ensures SavedHas(w, x)
    {
      var i :| 0 <= i < |writes| && writes[i] == w;
      assert i < |s.writes| ==> writes[..|s.writes|][i] == w && w in s.writes;
    }
  }

  lemma PreparingKeepsReach(s: State, x: Id)
    requires Queued(s.page, x) && InReach(s, x)
    ensures InReach(Step(s, PreparesWrite), x)
  {
    hide Queued;
  }

  lemma LandingKeepsTracked(s: State, k: nat, x: Id)
    requires Tracked(s, x) && k < |s.writes|
    ensures Tracked(Step(s, Lands(k)), x) && SavedHas(Step(s, Lands(k)).disk, x)
  {
    hide Queued, EndDownload, SnapshotPage;
    assert s.writes[k] in s.writes;
    assert forall w :: w in Step(s, Lands(k)).writes ==> w in s.writes;
  }

  lemma ReloadIsTracked(s: State, x: Id)
    requires SavedHas(s.disk, x)
    ensures Tracked(Step(s, Reloads), x)
  {
    ReloadedIsQueued(s.page, s.disk, x);
  }

  lemma PageEventKeepsSafe(s: State, e: Event, x: Id)
    requires Coherent(s) && IsPageEvent(e) && Safe(s, x) && !Accepted(s.log, x) && !UserRemoves(s.page, e, x)
    ensures Safe(Step(s, e), x)
  {
    hide Coherent, Queued, InReach, Accepted;
    PageEventKeepsReach(s, e, x);
  }

  lemma StepKeepsSafe(s: State, e: Event, x: Id)
    requires Coherent(s) && Safe(s, x) && !UserRemoves(s.page, e, x)
    ensures Safe(Step(s, e), x)
  {
    hide Coherent, Tracked, SavedHas, WriteStep, PageEventStep, UserRemoves;
    if Accepted(s.log, x) {
      AcceptedStays(s, e, x);
    } else if IsPageEvent(e) {
      PageEventKeepsSafe(s, e, x);
    } else {
      OtherEventKeepsSafe(s, e, x);
    }
  }

  lemma OtherEventKeepsSafe(s: State, e: Event, x: Id)
    requires Coherent(s) && !IsPageEvent(e) && Safe(s, x) && !Accepted(s.log, x)
    ensures Safe(Step(s, e), x)
  {
    hide Coherent, Queued, SavedHas, WriteStep, Accepted, EndDownload, SnapshotPage;
    match e
    case Reloads => ReloadIsTracked(s, x);
    case Lands(k) =>
      if k < |s.writes| {
        LandingKeepsTracked(s, k, x);
      }
    case PreparesWrite => PreparingKeepsReach(s, x);
    case Delivers(_, _, _) =>
    case _ => WriteKeepsTracked(s, e, x);
  }

  /**
   No loss. Once an id is safe it stays safe over every run in which the user does not remove it: crashes, lost, late
   and repeated messages, writes landing in any order, downloads and refreshes, retries and edits included.
   */
  lemma {:induction false} NoLoss(s: State, es: seq<Event>, x: Id)
    requires Coherent(s) && Safe(s, x) && !RemovedIn(s, es, x)
    ensures Safe(Run(s, es), x)
    decreases |es|
  {
    if es != [] {
      StepKeepsSafe(s, es[0], x);
      StepIsCoherent(s, es[0]);
      NoLoss(Step(s, es[0]), es[1..], x);
    }
  }

  // ---------------------------------------------------------------- exactness

  /** Unless the run removes `x`, it ends with `x` accepted or still queued. */
  ghost predicate KeptBy(s: State, es: seq<Event>, x: Id) {
    !RemovedIn(s, es, x) ==> Accepted(Run(s, es).log, x) || Queued(Run(s, es).page, x)
  }

  lemma {:induction false} NothingRemoved(s: State, es: seq<Event>, x: Id)
    requires forall e :: e in es ==> !e.RemovesLead? && !e.RemovesReservation? && !e.SavesLead?
    ensures !RemovedIn(s, es, x)
    decreases |es|
  {
    if es != [] {
      assert es[0] in es && forall e :: e in es[1..] ==> e in es;
      NothingRemoved(Step(s, es[0]), es[1..], x);
    }
  }

  lemma QueuedWasSaved(p: Page, s: Saved, x: Id)
    ensures Queued(Reload(p, s), x) ==> SavedHas(s, x)
  {
    var p' := Reload(p, s);
    if LeadQueued(p', x) {
      var r :| r in p'.outbox && IsLead(p'.leads, r, x);
      assert s.outbox[r] in s.outbox;
    } else if RequestQueued(p', x) {
      var r :| r in p'.reservationOutbox && IsRequest(p'.requests, r, x);
      assert s.reservationOutbox[r] in s.reservationOutbox;
    }
  }

  lemma RunCons(s: State, e: Event, es: seq<Event>)
    ensures Run(s, [e] + es) == Run(Step(s, e), es)
  {
    assert ([e] + es)[1..] == es;
  }

  lemma ReloadShowsDisk(s: State, x: Id)
    requires KeptBy(s, [Reloads], x) && !Accepted(s.log, x)
    ensures SavedHas(s.disk, x)
  {
    NothingRemoved(s, [Reloads], x);
    RunCons(s, Reloads, []);
    assert [Reloads] + [] == [Reloads];
    QueuedWasSaved(s.page, s.disk, x);
  }

  lemma LandingShowsWrite(s: State, k: nat, x: Id)
    requires KeptBy(s, [Lands(k)] + [Reloads], x) && !Accepted(s.log, x) && k < |s.writes|
    ensures SavedHas(s.writes[k], x)
  {
    NothingRemoved(s, [Lands(k)] + [Reloads], x);
    RunCons(s, Lands(k), [Reloads]);
    NothingRemoved(Step(s, Lands(k)), [Reloads], x);
    hide Queued, SavedHas, Accepted;
    ReloadShowsDisk(Step(s, Lands(k)), x);
  }

  lemma EndShowsCaptured(s: State, x: Id)
    requires KeptBy(s, [EndsDownload], x) && !Accepted(s.log, x)
    ensures Queued(EndDownload(s.page), x)
  {
    NothingRemoved(s, [EndsDownload], x);
    RunCons(s, EndsDownload, []);
    assert [EndsDownload] + [] == [EndsDownload];
  }

  lemma StoringShowsSnapshot(s: State, k: nat, x: Id)
    requires Coherent(s) && k < |s.preparing| && !Accepted(s.log, x)
    requires KeptBy(s, [StoresPrepared(k)] + ([Lands(|s.writes|)] + [Reloads]), x)
    ensures Queued(SnapshotPage(s.page, s.preparing[k]), x)
  {
    var e, rest := StoresPrepared(k), [Lands(|s.writes|)] + [Reloads];
    NothingRemoved(s, [e] + rest, x);
    RunCons(s, e, rest);
    NothingRemoved(Step(s, e), rest, x);
    WriteSaves(s, e);
    SavedIsQueued(Written(s, e), x);
    hide Queued, SavedHas, Accepted, Coherent, WriteStep, SnapshotPage;
    LandingShowsWrite(Step(s, e), |s.writes|, x);
  }

  /**
   Exactness of no loss: every run without its removal keeps an id if and only if the id is safe. So an id is at risk
   exactly while the record, a write still to land or in preparation, or a download's captured arrays lack it.
   */
  lemma SafeIffNeverLost(s: State, x: Id)
    requires Coherent(s)
    ensures Safe(s, x) <==> forall es :: KeptBy(s, es, x)
  {
    if Safe(s, x) {
      forall es
        ensures KeptBy(s, es, x)
      {
        if !RemovedIn(s, es, x) {
          NoLoss(s, es, x);
        }
      }
    } else if forall es :: KeptBy(s, es, x) {
      if !Accepted(s.log, x) {
        NeverLostIsTracked(s, x);
      }
    }
  }

  lemma NeverLostIsTracked(s: State, x: Id)
    requires Coherent(s) && !Accepted(s.log, x) && forall es :: KeptBy(s, es, x)
    ensures Tracked(s, x) && SavedHas(s.disk, x)
  {
    assert KeptBy(s, [], x);
    hide Coherent, KeptBy, Accepted, Queued, SavedHas, SnapshotPage, EndDownload;
    ReloadShowsDisk(s, x);
    EndShowsCaptured(s, x);
    forall w | w in s.writes
      ensures SavedHas(w, x)
    {
      var k :| 0 <= k < |s.writes| && s.writes[k] == w;
      LandingShowsWrite(s, k, x);
    }
    forall k | 0 <= k < |s.preparing|
      ensures Queued(SnapshotPage(s.page, s.preparing[k]), x)
    {
      StoringShowsSnapshot(s, k, x);
    }
    assert Queued(s.page, x) by {
      EmptyRunShowsPage(s, x);
    }
  }

  lemma EmptyRunShowsPage(s: State, x: Id)
    requires KeptBy(s, [], x) && !Accepted(s.log, x)
    ensures Queued(s.page, x)
  {
  }

  // ---------------------------------------------------------------- becoming safe

  /** Accepted, or tracked but for the `k` oldest writes. */
  predicate TrackedFrom(s: State, x: Id, k: nat) {
    Accepted(s.log, x)
    || (Queued(s.page, x) && InReach(s, x) && forall i :: k <= i < |s.writes| ==> SavedHas(s.writes[i], x))
  }

  predicate InOrder(es: seq<Event>) {
    forall e :: e in es ==> (e.Lands? ==> e.write == 0) && !e.Reloads?
  }

  function AfterLanding(s: State, e: Event, k: nat): int {
    if e.Lands? && e.write < |s.writes| then k - 1 else k
  }

  lemma WriteKeepsTrackedFrom(s: State, e: Event, x: Id, k: nat)
    requires Coherent(s) && TrackedFrom(s, x, k) && !Accepted(s.log, x)
    requires e.Serialises? || e.StoresDownload? || e.StoresPrepared?
    ensures TrackedFrom(Step(s, e), x, k)
  {
    WriteHas(s, e, x);
    hide Coherent, Step, InReach, SavedHas, Queued, Accepted;
    var writes := Step(s, e).writes;
    forall i | k <= i < |writes|
      ensures SavedHas(writes[i], x)
    {
      assert i < |s.writes| ==> writes[..|s.writes|][i] == s.writes[i];
    }
  }

  lemma OtherEventKeepsTracked(s: State, e: Event, x: Id, k: nat)
    requires Coherent(s) && !IsPageEvent(e) && TrackedFrom(s, x, k) && !Accepted(s.log, x) && InOrder([e])
    ensures AfterLanding(s, e, k) < 0 ==> Safe(Step(s, e), x)
    ensures AfterLanding(s, e, k) >= 0 ==> TrackedFrom(Step(s, e), x, AfterLanding(s, e, k))
  {
    assert e in [e];
    hide Coherent, Queued, SavedHas, WriteStep, Accepted, EndDownload, SnapshotPage;
    match e
    case PreparesWrite => PreparingKeepsReach(s, x);
    case Delivers(_, _, _) =>
    case Lands(_) =>
    case _ => WriteKeepsTrackedFrom(s, e, x, k);
  }

  lemma StepKeepsTracked(s: State, e: Event, x: Id, k: nat)
    requires Coherent(s) && TrackedFrom(s, x, k) && InOrder([e]) && !UserRemoves(s.page, e, x)
    ensures AfterLanding(s, e, k) < 0 ==> Safe(Step(s, e), x)
    ensures AfterLanding(s, e, k) >= 0 ==> TrackedFrom(Step(s, e), x, AfterLanding(s, e, k))
  {
    hide Coherent, Queued, InReach, WriteStep, PageEventStep, UserRemoves;
    if Accepted(s.log, x) {
      AcceptedStays(s, e, x);
    } else if IsPageEvent(e) {
      PageEventKeepsReach(s, e, x);
    } else {
      OtherEventKeepsTracked(s, e, x, k);
    }
  }

  function Landings(s: State, es: seq<Event>): nat
    decreases |es|
  {
    if es == [] then 0
    else (if es[0].Lands? && es[0].write < |s.writes| then 1 else 0) + Landings(Step(s, es[0]), es[1..])
  }

  lemma {:induction false} TrackedBecomesSafe(s: State, es: seq<Event>, x: Id, k: nat)
    requires Coherent(s) && TrackedFrom(s, x, k) && !RemovedIn(s, es, x)
    requires InOrder(es) && Landings(s, es) > k
    ensures Safe(Run(s, es), x)
    decreases |es|
  {
    hide Coherent, TrackedFrom, Safe, Step;
    var e, s' := es[0], Step(s, es[0]);
    assert e in es && forall f :: f in es[1..] ==> f in es;
    StepIsCoherent(s, e);
    StepKeepsTracked(s, e, x, k);
    if AfterLanding(s, e, k) < 0 {
      NoLoss(s', es[1..], x);
    } else {
      TrackedBecomesSafe(s', es[1..], x, AfterLanding(s, e, k));
    }
  }

  /**
   While writes land in order and nothing is reloaded, a queued id that the pending download and the writes in
   preparation hold is safe as soon as a write serialised now has landed.
   */
  lemma PersistedIsSafe(s: State, es: seq<Event>, x: Id)
    requires Coherent(s) && Queued(s.page, x) && InReach(s, x) && InOrder(es) && !RemovedIn(s, [Serialises] + es, x)
    requires Landings(Step(s, Serialises), es) > |s.writes|
    ensures Safe(Run(s, [Serialises] + es), x)
  {
    var run := [Serialises] + es;
    assert run[0] == Serialises && run[1..] == es;
    StepIsCoherent(s, Serialises);
    WriteHas(s, Serialises, x);
    hide Coherent, Queued, InReach, SavedHas, Step, Safe;
    TrackedBecomesSafe(Step(s, Serialises), es, x, |s.writes|);
  }

  // ---------------------------------------------------------------- one write or restored array

  /** Accepted, or on the page, in the record and in every write still to land. */
  predicate Recorded(s: State, x: Id) {
    Accepted(s.log, x) || (Queued(s.page, x) && SavedHas(s.disk, x) && forall w :: w in s.writes ==> SavedHas(w, x))
  }

  /** The queues that the event stores, or restores, lack an id that the server does not have. */
  predicate LeavesOut(s: State, e: Event, x: Id) {
    && !Accepted(s.log, x)
    && ((e.EndsDownload? && !Queued(EndDownload(s.page), x)) || (IsWrite(s, e) && !Queued(Written(s, e), x)))
  }

  /** A write, or the end of a download, keeps an id recorded if and only if its queues do not leave it out. */
  lemma RecordedStaysIff(s: State, e: Event, x: Id)
    requires Coherent(s) && Recorded(s, x) && (IsWrite(s, e) || e.EndsDownload?)
    ensures Recorded(Step(s, e), x) <==> !LeavesOut(s, e, x)
  {
    if IsWrite(s, e) {
      WriteSaves(s, e);
      WritingShows(s, e, x);
    }
  }

  lemma WritingShows(s: State, e: Event, x: Id)
    requires IsWrite(s, e) && InBounds(Written(s, e)) && Step(s, e).writes == s.writes + [Save(Written(s, e))]
    ensures (forall w :: w in Step(s, e).writes ==> SavedHas(w, x))
       <==> (forall w :: w in s.writes ==> SavedHas(w, x)) && Queued(Written(s, e), x)
  {
    SavedIsQueued(Written(s, e), x);
    hide Step, Queued, SavedHas, Written;
    var after := Step(s, e).writes;
    assert after[|s.writes|] in after;
    assert forall w :: w in after <==> w in s.writes || w == Save(Written(s, e));
  }
}
