/**
 The offline workspace page: the queues it holds in memory and what each user action and each step
 of a sync pass does to them. A queue is an array of references to queue objects; the objects
 themselves live in `leads` and `requests`, because a sync pass keeps references to objects that a
 user action may meanwhile have detached from the queue.
 */
module OutboxPage {
  import opened Collections

  type Id = nat

  datatype Status = Waiting | WaitingForLead | Syncing | Failed | Conflict

  /** What the server returned for an accepted lead. */
  datatype Link = Link(leadId: nat, customerId: nat)

  datatype Contact = Contact(firstName: string, lastName: string, phone: string, consentToContact: bool,
                             expectedMoveIn: string)

  datatype Lead = Lead(submissionId: Id, contact: Contact, status: Status, attempts: nat)

  /** The unit a reservation request asks for. `quotedRate` is None when the field is not a finite number. */
  datatype Choice = Choice(unitId: string, quotedRate: Option<real>, paymentMethod: string, intendedMoveIn: string)

  datatype Request = Request(submissionId: Id, leadSubmissionId: Id, choice: Choice, status: Status,
                             attempts: nat, link: Option<Link>)

  datatype LeadForm = LeadForm(contact: Contact, reservation: Option<Choice>)

  datatype Message = LeadPost(lead: Lead) | RequestPost(request: Request)

  /**
   Where `syncQueue` is waiting: for a reply, for a write of its own after a reply, or for the refresh after
   a conflict. `rest` is what its current loop has still to do.
   */
  datatype Pass =
    | Idle
    | PostingLead(item: nat, rest: seq<nat>)
    | StoringLead(rest: seq<nat>)
    | PostingRequest(item: nat, rest: seq<nat>)
    | StoringConflict(item: nat, rest: seq<nat>)
    | RefreshingConflict(item: nat, rest: seq<nat>)
    | StoringRequest(rest: seq<nat>)

  /** The arrays a download took by reference. None: the page still uses that very array. */
  datatype Download = Download(outbox: Option<seq<nat>>, reservationOutbox: Option<seq<nat>>)

  datatype Page = Page(
    leads: seq<Lead>,
    requests: seq<Request>,
    outbox: seq<nat>,
    reservationOutbox: seq<nat>,
    syncReceipts: seq<Id>,
    reservationReceipts: seq<Id>,
    pass: Pass,
    editingSubmission: Option<Id>,
    editingReservation: Option<Id>,
    download: Option<Download>,
    nextId: Id,
    sent: seq<Message>)

  /** What one encrypted record holds: plain values, no references. */
  datatype Saved = Saved(outbox: seq<Lead>, reservationOutbox: seq<Request>,
                         syncReceipts: seq<Id>, reservationReceipts: seq<Id>)

  datatype LeadReply = LeadAccepted(link: Link) | LeadUnauthorized | LeadFailed
  datatype RequestReply = RequestAccepted | RequestUnauthorized | RequestConflict | RequestFailed

  const RECEIPT_LIMIT: nat := 20

  // ---------------------------------------------------------------- queue vocabulary

  predicate IsLead(leads: seq<Lead>, r: nat, id: Id) {
    r < |leads| && leads[r].submissionId == id
  }

  predicate IsRequest(requests: seq<Request>, r: nat, id: Id) {
    r < |requests| && requests[r].submissionId == id
  }

  predicate IsRequestOf(requests: seq<Request>, r: nat, leadId: Id) {
    r < |requests| && requests[r].leadSubmissionId == leadId
  }

  predicate IsEligible(requests: seq<Request>, r: nat) {
    r < |requests| && requests[r].link.Some? && !requests[r].status.Conflict?
  }

  function LeadsExcept(leads: seq<Lead>, queue: seq<nat>, id: Id): seq<nat> {
    Filter(queue, (r: nat) => !IsLead(leads, r, id))
  }

  function RequestsExcept(requests: seq<Request>, queue: seq<nat>, id: Id): seq<nat> {
    Filter(queue, (r: nat) => !IsRequest(requests, r, id))
  }

  function RequestsExceptOf(requests: seq<Request>, queue: seq<nat>, leadId: Id): seq<nat> {
    Filter(queue, (r: nat) => !IsRequestOf(requests, r, leadId))
  }

  function Eligible(requests: seq<Request>, queue: seq<nat>): seq<nat> {
    Filter(queue, (r: nat) => IsEligible(requests, r))
  }

  function FindLead(leads: seq<Lead>, queue: seq<nat>, id: Id): Option<nat> {
    FindIndex(queue, (r: nat) => IsLead(leads, r, id))
  }

  function FindRequest(requests: seq<Request>, queue: seq<nat>, id: Id): Option<nat> {
    FindIndex(queue, (r: nat) => IsRequest(requests, r, id))
  }

  function FindRequestOf(requests: seq<Request>, queue: seq<nat>, leadId: Id): Option<nat> {
    FindIndex(queue, (r: nat) => IsRequestOf(requests, r, leadId))
  }

  predicate LeadQueued(p: Page, id: Id) {
    exists r :: r in p.outbox && IsLead(p.leads, r, id)
  }

  predicate RequestQueued(p: Page, id: Id) {
    exists r :: r in p.reservationOutbox && IsRequest(p.requests, r, id)
  }

  predicate Queued(p: Page, id: Id) {
    LeadQueued(p, id) || RequestQueued(p, id)
  }

  // ---------------------------------------------------------------- array replacement

  /** `snapshot.outbox = ...`: a pending download keeps the array it captured. */
  function ReplaceOutbox(p: Page, queue: seq<nat>): Page {
    var kept := match p.download
                case Some(d) => Some(if d.outbox.None? then d.(outbox := Some(p.outbox)) else d)
                case None => None;
    p.(outbox := queue, download := kept)
  }

  function ReplaceReservations(p: Page, queue: seq<nat>): Page {
    var kept := match p.download
                case Some(d) => Some(if d.reservationOutbox.None? then d.(reservationOutbox := Some(p.reservationOutbox)) else d)
                case None => None;
    p.(reservationOutbox := queue, download := kept)
  }

  // ---------------------------------------------------------------- user actions

  predicate AcceptableLead(f: LeadForm) {
    f.contact.firstName != "" && f.contact.lastName != "" && |f.contact.phone| >= 7 && f.contact.consentToContact
    && (f.reservation.Some? ==> AcceptableChoice(f.reservation.value) && f.reservation.value.paymentMethod != "")
  }

  predicate AcceptableChoice(c: Choice) {
    c.unitId != "" && c.quotedRate.Some? && c.quotedRate.value > 0.0
  }

  /** The lead half of `saveQueuedLead`: a new object takes the old one's place, or is appended. */
  function QueueLead(p: Page, id: Id, contact: Contact): Page {
    var r := |p.leads|;
    var at := FindLead(p.leads, p.outbox, id);
    p.(leads := p.leads + [Lead(id, contact, Waiting, 0)],
       outbox := if at.Some? then p.outbox[at.value := r] else p.outbox + [r])
  }

  /** The reservation half of `saveQueuedLead`. */
  function QueueReservation(p: Page, leadId: Id, reservation: Option<Choice>): Page {
    var at := FindRequestOf(p.requests, p.reservationOutbox, leadId);
    match (reservation, at)
    case (Some(c), Some(i)) =>
      var r := p.reservationOutbox[i];
      if r < |p.requests| then p.(requests := p.requests[r := p.requests[r].(choice := c, status := WaitingForLead)]) else p
    case (Some(c), None) =>
      p.(requests := p.requests + [Request(p.nextId, leadId, c, WaitingForLead, 0, None)],
         reservationOutbox := p.reservationOutbox + [|p.requests|],
         nextId := p.nextId + 1)
    case (None, Some(i)) =>
      var r := p.reservationOutbox[i];
      if r < |p.requests| then
        ReplaceReservations(p, RequestsExcept(p.requests, p.reservationOutbox, p.requests[r].submissionId))
      else p
    case (None, None) => p
  }

  function SavedId(p: Page): Id {
    if p.editingSubmission.Some? then p.editingSubmission.value else p.nextId
  }

  /** `move-in` of the request is the lead's expected move-in date. */
  function FormChoice(f: LeadForm): Option<Choice> {
    match f.reservation
    case None => None
    case Some(c) => Some(c.(intendedMoveIn := f.contact.expectedMoveIn))
  }

  function SaveLead(p: Page, f: LeadForm): Page {
    if !AcceptableLead(f) then p
    else
      var id := SavedId(p);
      var named := if p.editingSubmission.Some? then p else p.(nextId := p.nextId + 1);
      QueueReservation(QueueLead(named, id, f.contact), id, FormChoice(f))
  }

  /** The form is reset once the write of a saved lead has finished. */
  function FinishLeadForm(p: Page): Page {
    p.(editingSubmission := None)
  }

  function EditLead(p: Page, id: Id): Page {
    if FindLead(p.leads, p.outbox, id).Some? then p.(editingSubmission := Some(id)) else p
  }

  function RemoveLead(p: Page, id: Id): Page {
    ReplaceReservations(ReplaceOutbox(p, LeadsExcept(p.leads, p.outbox, id)),
                        RequestsExceptOf(p.requests, p.reservationOutbox, id))
  }

  function EditReservation(p: Page, id: Id): Page {
    if FindRequest(p.requests, p.reservationOutbox, id).Some? then p.(editingReservation := Some(id)) else p
  }

  function SaveReservation(p: Page, c: Choice): Page {
    if p.editingReservation.None? || !AcceptableChoice(c) then p
    else
      match FindRequest(p.requests, p.reservationOutbox, p.editingReservation.value)
      case None => p
      case Some(i) =>
        var r := p.reservationOutbox[i];
        if r >= |p.requests| then p
        else
          var chosen := p.requests[r].choice.(unitId := c.unitId, quotedRate := c.quotedRate, intendedMoveIn := c.intendedMoveIn);
          p.(requests := p.requests[r := p.requests[r].(choice := chosen, status := Waiting)], editingReservation := None)
  }

  function CancelReservationEdit(p: Page): Page {
    p.(editingReservation := None)
  }

  function RemoveReservation(p: Page, id: Id): Page {
    ReplaceReservations(p, RequestsExcept(p.requests, p.reservationOutbox, id))
  }

  // ---------------------------------------------------------------- the sync pass

  predicate HasWork(p: Page) {
    p.outbox != [] || exists r :: r in p.reservationOutbox && r < |p.requests| && !p.requests[r].status.Conflict?
  }

  function BeginPass(p: Page): Page {
    if p.pass.Idle? && HasWork(p) then NextLead(p, p.outbox) else p
  }

  /** The head of the lead loop: mark the next copied lead and post it, or go on to the requests. */
  function NextLead(p: Page, rest: seq<nat>): Page {
    if rest == [] || rest[0] >= |p.leads| then BeginRequests(p)
    else
      var r := rest[0];
      var item := p.leads[r].(status := Syncing, attempts := p.leads[r].attempts + 1);
      p.(leads := p.leads[r := item], sent := p.sent + [LeadPost(item)], pass := PostingLead(r, rest[1..]))
  }

  function BeginRequests(p: Page): Page {
    NextRequest(p, Eligible(p.requests, p.reservationOutbox))
  }

  function NextRequest(p: Page, rest: seq<nat>): Page {
    if rest == [] || rest[0] >= |p.requests| then p.(pass := Idle)
    else
      var r := rest[0];
      var item := p.requests[r].(status := Syncing, attempts := p.requests[r].attempts + 1);
      p.(requests := p.requests[r := item], sent := p.sent + [RequestPost(item)], pass := PostingRequest(r, rest[1..]))
  }

  function SetLeadStatus(p: Page, r: nat, status: Status): Page {
    if r < |p.leads| then p.(leads := p.leads[r := p.leads[r].(status := status)]) else p
  }

  function SetRequestStatus(p: Page, r: nat, status: Status): Page {
    if r < |p.requests| then p.(requests := p.requests[r := p.requests[r].(status := status)]) else p
  }

  function Linked(q: Request, link: Link): Request {
    q.(link := Some(link), status := Waiting)
  }

  /** Every queued request of the accepted lead receives the server's ids. */
  function LinkRequests(requests: seq<Request>, queue: seq<nat>, leadId: Id, link: Link): (linked: seq<Request>)
    ensures |linked| == |requests|
  {
    seq(|requests|, r requires 0 <= r < |requests| =>
          if r in queue && requests[r].leadSubmissionId == leadId then Linked(requests[r], link) else requests[r])
  }

  function NewestReceipts(receipts: seq<Id>, id: Id): seq<Id> {
    var all := [id] + receipts;
    if |all| <= RECEIPT_LIMIT then all else all[..RECEIPT_LIMIT]
  }

  function AcknowledgeLead(p: Page, id: Id, link: Link): Page {
    ReplaceOutbox(p, LeadsExcept(p.leads, p.outbox, id))
    .(syncReceipts := NewestReceipts(p.syncReceipts, id),
      requests := LinkRequests(p.requests, p.reservationOutbox, id, link))
  }

  /** What the reply to a lead does before the pass stores it; a 401 goes straight on to the requests. */
  function LeadReplied(p: Page, reply: LeadReply): Page {
    if !p.pass.PostingLead? || p.pass.item >= |p.leads| then p
    else
      var r, rest := p.pass.item, p.pass.rest;
      match reply
      case LeadAccepted(link) => AcknowledgeLead(p, p.leads[r].submissionId, link).(pass := StoringLead(rest))
      case LeadUnauthorized => BeginRequests(SetLeadStatus(p, r, Waiting))
      case LeadFailed => SetLeadStatus(p, r, Failed).(pass := StoringLead(rest))
  }

  function AcknowledgeRequest(p: Page, id: Id): Page {
    ReplaceReservations(p, RequestsExcept(p.requests, p.reservationOutbox, id))
    .(reservationReceipts := NewestReceipts(p.reservationReceipts, id))
  }

  /** What the reply to a request does before the pass stores it; a 401 ends the pass. */
  function RequestReplied(p: Page, reply: RequestReply): Page {
    if !p.pass.PostingRequest? || p.pass.item >= |p.requests| then p
    else
      var r, rest := p.pass.item, p.pass.rest;
      match reply
      case RequestAccepted => AcknowledgeRequest(p, p.requests[r].submissionId).(pass := StoringRequest(rest))
      case RequestUnauthorized => SetRequestStatus(p, r, Waiting).(pass := Idle)
      case RequestConflict => SetRequestStatus(p, r, Conflict).(pass := StoringConflict(r, rest))
      case RequestFailed => SetRequestStatus(p, r, Failed).(pass := StoringRequest(rest))
  }

  /** After a stored conflict the pass refreshes the snapshot; the queued request, if any, is held again and stored. */
  function ConflictRefreshed(p: Page, refreshed: bool): Page {
    if !p.pass.RefreshingConflict? || p.pass.item >= |p.requests| then p
    else
      var id, rest := p.requests[p.pass.item].submissionId, p.pass.rest;
      var at := FindRequest(p.requests, p.reservationOutbox, id);
      if refreshed && at.Some? then
        SetRequestStatus(p, p.reservationOutbox[at.value], Conflict).(pass := StoringRequest(rest))
      else NextRequest(p, rest)
  }

  /** A write that the pass awaited is over, and the pass goes on from where it was. */
  function PassStored(p: Page): Page {
    match p.pass
    case StoringLead(rest) => NextLead(p, rest)
    case StoringConflict(r, rest) => p.(pass := RefreshingConflict(r, rest))
    case StoringRequest(rest) => NextRequest(p, rest)
    case _ => p
  }

  // ---------------------------------------------------------------- download, storage and reload

  function BeginDownload(p: Page): Page {
    if p.download.None? then p.(download := Some(Download(None, None))) else p
  }

  /** `snapshot = payload.data`: the captured arrays become the page's queues. */
  function EndDownload(p: Page): Page {
    match p.download
    case None => p
    case Some(d) =>
      p.(outbox := if d.outbox.Some? then d.outbox.value else p.outbox,
         reservationOutbox := if d.reservationOutbox.Some? then d.reservationOutbox.value else p.reservationOutbox,
         download := None)
  }

  predicate InBounds(p: Page) {
    (forall r :: r in p.outbox ==> r < |p.leads|) && (forall r :: r in p.reservationOutbox ==> r < |p.requests|)
  }

  function Save(p: Page): Saved
    requires InBounds(p)
  {
    Saved(seq(|p.outbox|, i requires 0 <= i < |p.outbox| =>
            assert p.outbox[i] in p.outbox; p.leads[p.outbox[i]]),
          seq(|p.reservationOutbox|, i requires 0 <= i < |p.reservationOutbox| =>
            assert p.reservationOutbox[i] in p.reservationOutbox; p.requests[p.reservationOutbox[i]]),
          p.syncReceipts, p.reservationReceipts)
  }

  function Upto(n: nat): (refs: seq<nat>)
    ensures |refs| == n && forall i :: 0 <= i < n ==> refs[i] == i
  {
    seq(n, i requires 0 <= i < n => i)
  }

  /** A reload followed by `unlock`: everything on the page is rebuilt from the stored record. */
  function Reload(p: Page, s: Saved): Page {
    Page(s.outbox, s.reservationOutbox, Upto(|s.outbox|), Upto(|s.reservationOutbox|),
         s.syncReceipts, s.reservationReceipts, Idle, None, None, None, p.nextId, p.sent)
  }
}
