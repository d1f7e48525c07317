/**
 The page together with what surrounds it: the encrypted record on the device, writes that have been
 serialised but have not landed, every message ever posted, and the server's log. A run is any
 sequence of events: user actions, replies, message deliveries (late, repeated or never), writes,
 downloads and reloads interleave freely.
 */
module OutboxWorld {
  import opened Collections
  import opened OutboxPage

  /** Accepted records, in the order in which the server accepted them. */
  datatype Record =
    | LeadRecord(submissionId: Id, link: Link)
    | ReservationRecord(submissionId: Id, leadSubmissionId: Id, link: Link)

  /** An array of a former snapshot: the page still uses it, the pending download captured it, or nobody else has it. */
  datatype Holder = InUse | ByDownload | Apart(refs: seq<nat>)

  /** The snapshot object that a write in preparation was given. */
  datatype Snapshot = Present | Former(outbox: Holder, reservationOutbox: Holder)

  datatype State = State(page: Page, disk: Saved, writes: seq<Saved>, log: seq<Record>, preparing: seq<Snapshot>)

  datatype Event =
    | SavesLead(form: LeadForm)
    | FinishesLeadForm
    | EditsLead(id: Id)
    | RemovesLead(id: Id)
    | EditsReservation(id: Id)
    | SavesReservation(choice: Choice)
    | CancelsReservationEdit
    | RemovesReservation(id: Id)
    | BeginsPass
    | RepliesToLead(leadReply: LeadReply)
    | RepliesToRequest(requestReply: RequestReply)
    | RefreshesConflict(refreshed: bool)
    | ResumesPass                                  // a write awaited by the pass is over
    | BeginsDownload
    | StoresDownload                               // the download's own write takes the arrays it captured
    | EndsDownload
    | Serialises                                   // a write of the present snapshot takes its queues as they are now
    | PreparesWrite                                // a write is given the present snapshot
    | StoresPrepared(write: nat)                   // that write takes the queues of its snapshot, present or former
    | Lands(write: nat)                            // that write becomes the stored record
    | Delivers(message: nat, link: Link, available: bool)
    | Reloads

  const EMPTY_SAVED := Saved([], [], [], [])

  /** A freshly prepared device. */
  const START: State :=
    State(Page([], [], [], [], [], [], Idle, None, None, None, 0, []), EMPTY_SAVED, [], [], [])

  predicate HasLead(log: seq<Record>, id: Id) {
    exists k :: 0 <= k < |log| && log[k].LeadRecord? && log[k].submissionId == id
  }

  predicate HasReservation(log: seq<Record>, id: Id) {
    exists k :: 0 <= k < |log| && log[k].ReservationRecord? && log[k].submissionId == id
  }

  predicate KnowsLink(log: seq<Record>, link: Link) {
    exists k :: 0 <= k < |log| && log[k].LeadRecord? && log[k].link == link
  }

  predicate LeadIdUnused(log: seq<Record>, leadId: nat) {
    forall k :: 0 <= k < |log| && log[k].LeadRecord? ==> log[k].link.leadId != leadId
  }

  /** The server handles one message. A submission it already holds adds nothing. */
  function Deliver(log: seq<Record>, m: Message, link: Link, available: bool): seq<Record> {
    match m
    case LeadPost(lead) =>
      if HasLead(log, lead.submissionId) || !LeadIdUnused(log, link.leadId) then log
      else log + [LeadRecord(lead.submissionId, link)]
    case RequestPost(q) =>
      if HasReservation(log, q.submissionId) || q.link.None? || !KnowsLink(log, q.link.value) || !available then log
      else log + [ReservationRecord(q.submissionId, q.leadSubmissionId, q.link.value)]
  }

  /** An accepting reply can only report what the server holds; any other reply may come at any time. */
  predicate ReplyPossible(s: State, e: Event) {
    match e
    case RepliesToLead(LeadAccepted(link)) =>
      s.page.pass.PostingLead? && s.page.pass.item < |s.page.leads|
      && LeadRecord(s.page.leads[s.page.pass.item].submissionId, link) in s.log
    case RepliesToRequest(RequestAccepted) =>
      s.page.pass.PostingRequest? && s.page.pass.item < |s.page.requests|
      && HasReservation(s.log, s.page.requests[s.page.pass.item].submissionId)
    case _ => true
  }

  function PageStep(p: Page, e: Event): Page {
    match e
    case SavesLead(f) => SaveLead(p, f)
    case FinishesLeadForm => FinishLeadForm(p)
    case EditsLead(id) => EditLead(p, id)
    case RemovesLead(id) => RemoveLead(p, id)
    case EditsReservation(id) => EditReservation(p, id)
    case SavesReservation(c) => SaveReservation(p, c)
    case CancelsReservationEdit => CancelReservationEdit(p)
    case RemovesReservation(id) => RemoveReservation(p, id)
    case BeginsPass => BeginPass(p)
    case RepliesToLead(reply) => LeadReplied(p, reply)
    case RepliesToRequest(reply) => RequestReplied(p, reply)
    case RefreshesConflict(refreshed) => ConflictRefreshed(p, refreshed)
    case ResumesPass => PassStored(p)
    case BeginsDownload => BeginDownload(p)
    case EndsDownload => EndDownload(p)
    case _ => p
  }

  // ---------------------------------------------------------------- writes in preparation

  /** The events that put another array in the place of the page's outbox. */
  predicate ReplacesOutbox(p: Page, e: Event) {
    match e
    case RemovesLead(_) => true
    case RepliesToLead(LeadAccepted(_)) => p.pass.PostingLead? && p.pass.item < |p.leads|
    case _ => false
  }

  predicate ReplacesReservations(p: Page, e: Event) {
    match e
    case RemovesLead(_) => true
    case RemovesReservation(_) => true
    case RepliesToRequest(RequestAccepted) => p.pass.PostingRequest? && p.pass.item < |p.requests|
    case SavesLead(f) =>
      var at := FindRequestOf(p.requests, p.reservationOutbox, SavedId(p));
      AcceptableLead(f) && f.reservation.None? && at.Some? && p.reservationOutbox[at.value] < |p.requests|
    case _ => false
  }

  /** Where an array is once the page has `used` no longer; `captured` says that a download holds it too. */
  function Replaced(h: Holder, used: seq<nat>, captured: bool): Holder {
    if !h.InUse? then h else if captured then ByDownload else Apart(used)
  }

  /** Where an array is once the captured array is the page's. */
  function Restored(h: Holder, used: seq<nat>): Holder {
    match h
    case InUse => Apart(used)
    case ByDownload => InUse
    case Apart(_) => h
  }

  /** The end of a download leaves the present snapshot behind; other events may replace its arrays. */
  function SnapshotAfter(p: Page, e: Event, n: Snapshot): Snapshot {
    if e.EndsDownload? && p.download.Some? then
      var d := p.download.value;
      var (a, b) := if n.Former? then (n.outbox, n.reservationOutbox) else (InUse, InUse);
      Former(if d.outbox.Some? then Restored(a, p.outbox) else a,
             if d.reservationOutbox.Some? then Restored(b, p.reservationOutbox) else b)
    else if n.Present? then n
    else
      Former(if ReplacesOutbox(p, e) then
               Replaced(n.outbox, p.outbox, p.download.Some? && p.download.value.outbox.None?)
             else n.outbox,
             if ReplacesReservations(p, e) then
               Replaced(n.reservationOutbox, p.reservationOutbox, p.download.Some? && p.download.value.reservationOutbox.None?)
             else n.reservationOutbox)
  }

  function Refs(h: Holder, used: seq<nat>, captured: seq<nat>): seq<nat> {
    match h
    case InUse => used
    case ByDownload => captured
    case Apart(refs) => refs
  }

  /** The page with the queues of a snapshot. */
  function SnapshotPage(p: Page, n: Snapshot): Page {
    match n
    case Present => p
    case Former(a, b) =>
      p.(outbox := Refs(a, p.outbox, EndDownload(p).outbox),
         reservationOutbox := Refs(b, p.reservationOutbox, EndDownload(p).reservationOutbox),
         download := None)
  }

  // ---------------------------------------------------------------- steps

  predicate IsWrite(s: State, e: Event) {
    e.Serialises? || (e.StoresDownload? && s.page.download.Some?) || (e.StoresPrepared? && e.write < |s.preparing|)
  }

  /** The queues that a write takes. */
  function Written(s: State, e: Event): Page
    requires IsWrite(s, e)
  {
    match e
    case StoresDownload => EndDownload(s.page)
    case StoresPrepared(k) => SnapshotPage(s.page, s.preparing[k])
    case _ => s.page
  }

  function WriteStep(s: State, e: Event): State {
    if !IsWrite(s, e) || !InBounds(Written(s, e)) then s
    else
      s.(writes := s.writes + [Save(Written(s, e))],
         preparing := if e.StoresPrepared? then s.preparing[..e.write] + s.preparing[e.write + 1..] else s.preparing)
  }

  function PageEventStep(s: State, e: Event): State {
    s.(page := PageStep(s.page, e),
       preparing := seq(|s.preparing|, i requires 0 <= i < |s.preparing| => SnapshotAfter(s.page, e, s.preparing[i])))
  }

  function Step(s: State, e: Event): State {
    match e
    case Serialises => WriteStep(s, e)
    case StoresDownload => WriteStep(s, e)
    case StoresPrepared(_) => WriteStep(s, e)
    case PreparesWrite => s.(preparing := s.preparing + [Present])
    case Lands(k) => if k < |s.writes| then s.(disk := s.writes[k], writes := s.writes[..k] + s.writes[k + 1..]) else s
    case Delivers(k, link, available) =>
      if k < |s.page.sent| then s.(log := Deliver(s.log, s.page.sent[k], link, available)) else s
    case Reloads => s.(page := Reload(s.page, s.disk), writes := [], preparing := [])
    case _ => if ReplyPossible(s, e) then PageEventStep(s, e) else s
  }

  function Run(s: State, es: seq<Event>): State
    decreases |es|
  {
    if es == [] then s else Run(Step(s, es[0]), es[1..])
  }

  /**
   What keeping every request beside its lead asks of the environment: the queues that a write takes, and those that the
   end of a download restores, leave no request without its lead. `OrderlyIff` shows that the condition is exact,
   and `DownloadOrphansRequest` that it can fail.
   */
  predicate Orderly(s: State, e: Event) {
    (e.EndsDownload? ==> NoOrphans(EndDownload(s.page))) && (IsWrite(s, e) ==> NoOrphans(Written(s, e)))
  }

  predicate OrderlyRun(s: State, es: seq<Event>)
    decreases |es|
  {
    es == [] || (Orderly(s, es[0]) && OrderlyRun(Step(s, es[0]), es[1..]))
  }

  // ---------------------------------------------------------------- the invariant

  /** The page's references are sound and its queues are well formed. */
  ghost predicate PageOk(p: Page) {
    QueuesOk(p) && PassOk(p) && IdsOk(p)
  }

  /** Distinct lead ids, distinct request ids, and at most one request a lead. */
  ghost predicate QueuesOk(p: Page) {
    LeadShape(p.leads, p.outbox) && RequestShape(p.requests, p.reservationOutbox)
  }

  ghost predicate LeadShape(leads: seq<Lead>, queue: seq<nat>) {
    && (forall r :: r in queue ==> r < |leads|) && Distinct(queue)
    && (forall r, t | r in queue && t in queue && r != t :: leads[r].submissionId != leads[t].submissionId)
  }

  ghost predicate RequestShape(requests: seq<Request>, queue: seq<nat>) {
    && (forall r :: r in queue ==> r < |requests|) && Distinct(queue)
    && (forall r, t | r in queue && t in queue && r != t ::
          && requests[r].submissionId != requests[t].submissionId
          && requests[r].leadSubmissionId != requests[t].leadSubmissionId)
  }

  /** Every queued request is linked, or its lead is queued too. */
  predicate NoOrphans(p: Page) {
    forall r :: r in p.reservationOutbox && r < |p.requests| ==> LinkedOrWaiting(p, r)
  }

  /** A queued request has the server's ids, or its lead is still queued. */
  predicate LinkedOrWaiting(p: Page, r: nat)
    requires r < |p.requests|
  {
    p.requests[r].link.Some? || LeadQueued(p, p.requests[r].leadSubmissionId)
  }

  ghost predicate PassOk(p: Page) {
    match p.pass
    case Idle => true
    case PostingLead(r, rest) => r < |p.leads| && forall t :: t in rest ==> t < |p.leads|
    case StoringLead(rest) => forall t :: t in rest ==> t < |p.leads|
    case PostingRequest(r, rest) => RequestsLinked(p.requests, [r] + rest) && Distinct([r] + rest)
    case StoringConflict(r, rest) => RequestsLinked(p.requests, [r] + rest) && Distinct([r] + rest)
    case RefreshingConflict(r, rest) => RequestsLinked(p.requests, [r] + rest) && Distinct([r] + rest)
    case StoringRequest(rest) => RequestsLinked(p.requests, rest) && Distinct(rest)
  }

  ghost predicate RequestsLinked(requests: seq<Request>, refs: seq<nat>) {
    forall t :: t in refs ==> t < |requests| && requests[t].link.Some?
  }

  /** Every id the page holds has already been drawn, and no two request objects share one. */
  ghost predicate IdsOk(p: Page) {
    && (forall i, j | 0 <= i < j < |p.requests| :: p.requests[i].submissionId != p.requests[j].submissionId)
    && (forall l :: l in p.leads ==> l.submissionId < p.nextId)
    && (forall q :: q in p.requests ==> q.submissionId < p.nextId && q.leadSubmissionId < p.nextId)
    && (p.editingSubmission.Some? ==> p.editingSubmission.value < p.nextId)
  }

  /** A record is well formed: the queue invariant, on plain values. */
  ghost predicate SavedOk(s: Saved, nextId: Id) {
    && (forall i, j :: 0 <= i < j < |s.outbox| ==> s.outbox[i].submissionId != s.outbox[j].submissionId)
    && (forall i, j :: 0 <= i < j < |s.reservationOutbox| ==>
          s.reservationOutbox[i].submissionId != s.reservationOutbox[j].submissionId
          && s.reservationOutbox[i].leadSubmissionId != s.reservationOutbox[j].leadSubmissionId)
    && (forall l :: l in s.outbox ==> l.submissionId < nextId)
    && (forall q :: q in s.reservationOutbox ==> q.submissionId < nextId && q.leadSubmissionId < nextId)
  }

  predicate NoOrphansSaved(s: Saved) {
    forall q :: q in s.reservationOutbox ==> q.link.Some? || exists l :: l in s.outbox && l.submissionId == q.leadSubmissionId
  }

  /** A link is only ever what the server answered for the request's own lead. */
  ghost predicate Truthful(log: seq<Record>, q: Request) {
    q.link.Some? ==> LeadRecord(q.leadSubmissionId, q.link.value) in log
  }

  ghost predicate LinksTruthful(s: State) {
    && (forall q :: q in s.page.requests ==> Truthful(s.log, q))
    && (forall q :: q in s.disk.reservationOutbox ==> Truthful(s.log, q))
    && (forall w, q :: w in s.writes && q in w.reservationOutbox ==> Truthful(s.log, q))
    && (forall q :: RequestPost(q) in s.page.sent ==> q.link.Some? && Truthful(s.log, q))
  }

  ghost predicate AtMostOnce(log: seq<Record>) {
    forall i, j :: 0 <= i < j < |log| && log[i].submissionId == log[j].submissionId ==>
                     log[i].LeadRecord? != log[j].LeadRecord?
  }

  ghost predicate LeadIdsDistinct(log: seq<Record>) {
    forall i, j :: 0 <= i < j < |log| && log[i].LeadRecord? && log[j].LeadRecord? ==>
                     log[i].link.leadId != log[j].link.leadId
  }

  /** Every accepted reservation carries the ids its own lead was given, strictly earlier. */
  ghost predicate Causal(log: seq<Record>) {
    forall j :: 0 <= j < |log| && log[j].ReservationRecord? ==>
                  exists i :: 0 <= i < j && log[i] == LeadRecord(log[j].leadSubmissionId, log[j].link)
  }

  /** What every run keeps, whatever the environment does. */
  ghost predicate Coherent(s: State) {
    && PageOk(s.page) && QueuesOk(EndDownload(s.page))
    && (forall k :: 0 <= k < |s.preparing| ==> QueuesOk(SnapshotPage(s.page, s.preparing[k])))
    && SavedOk(s.disk, s.page.nextId)
    && (forall w :: w in s.writes ==> SavedOk(w, s.page.nextId))
    && LinksTruthful(s)
    && AtMostOnce(s.log) && LeadIdsDistinct(s.log) && Causal(s.log)
  }

  /** And no request without its lead, in memory, in the stored record or in a write still to land. */
  ghost predicate Inv(s: State) {
    Coherent(s) && NoOrphans(s.page) && NoOrphansSaved(s.disk) && forall w :: w in s.writes ==> NoOrphansSaved(w)
  }
}
