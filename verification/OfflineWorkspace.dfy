/**
 The page script itself. Queue items are objects that are mutated in place and may be held at once by a queue, by an
 array a download captured and by a running pass; queues are arrays that are pushed to in place or replaced. Ghost
 fields number the objects, and every handler is proved to take the step of the model on the numbered page.
 */
module OfflineWorkspace {
  import opened Collections
  import opened OutboxPage
  import opened OutboxWorld
  import opened OutboxPass
  import opened OutboxEdits

  class LeadItem {
    const submissionId: Id
    const contact: Contact
    var status: Status
    var attempts: nat

    constructor (lead: Lead)
      ensures Value() == lead
    {
      submissionId, contact, status, attempts := lead.submissionId, lead.contact, lead.status, lead.attempts;
    }

    function Value(): Lead
      reads this
    {
      Lead(submissionId, contact, status, attempts)
    }

    method Mark(status: Status, attempts: nat)
      modifies this
      ensures Value() == old(Value()).(status := status, attempts := attempts)
    {
      this.status, this.attempts := status, attempts;
    }
  }

  class RequestItem {
    const submissionId: Id
    const leadSubmissionId: Id
    var choice: Choice
    var status: Status
    var attempts: nat
    var link: Option<Link>

    constructor (request: Request)
      ensures Value() == request
    {
      submissionId, leadSubmissionId, choice := request.submissionId, request.leadSubmissionId, request.choice;
      status, attempts, link := request.status, request.attempts, request.link;
    }

    function Value(): Request
      reads this
    {
      Request(submissionId, leadSubmissionId, choice, status, attempts, link)
    }

    method Mark(choice: Choice, status: Status, attempts: nat, link: Option<Link>)
      modifies this
      ensures Value() == old(Value()).(choice := choice, status := status, attempts := attempts, link := link)
    {
      this.choice, this.status, this.attempts, this.link := choice, status, attempts, link;
    }
  }

  /** An array of items: a push changes it for everyone who holds it. */
  class Queue<T> {
    var items: seq<T>
    ghost var refs: seq<nat>

    constructor (items: seq<T>, ghost refs: seq<nat>)
      ensures this.items == items && this.refs == refs
    {
      this.items, this.refs := items, refs;
    }
  }

  /** The arrays that `payload.data` took from the snapshot. */
  datatype Payload = Payload(outbox: Queue<LeadItem>, reservationOutbox: Queue<RequestItem>)

  /** Where `syncQueue` is, with the items its loop variables hold. */
  datatype Progress =
    | Resting
    | AwaitsLead(lead: LeadItem, leads: seq<LeadItem>)
    | StoresLead(leads: seq<LeadItem>)
    | AwaitsRequest(request: RequestItem, requests: seq<RequestItem>)
    | StoresConflict(request: RequestItem, requests: seq<RequestItem>)
    | AwaitsRefresh(request: RequestItem, requests: seq<RequestItem>)
    | StoresRequest(requests: seq<RequestItem>)

  ghost predicate Points<T>(heap: seq<T>, items: seq<T>, refs: seq<nat>) {
    |items| == |refs| && forall i :: 0 <= i < |refs| ==> refs[i] < |heap| && heap[refs[i]] == items[i]
  }

  ghost predicate AllDifferent<T>(heap: seq<T>) {
    forall i, j :: 0 <= i < j < |heap| ==> heap[i] != heap[j]
  }

  ghost function LeadsOf(heap: seq<LeadItem>): (leads: seq<Lead>)
    reads heap
    ensures |leads| == |heap| && forall i :: 0 <= i < |heap| ==> leads[i] == heap[i].Value()
  {
    seq(|heap|, i requires 0 <= i < |heap| reads heap => heap[i].Value())
  }

  ghost function RequestsOf(heap: seq<RequestItem>): (requests: seq<Request>)
    reads heap
    ensures |requests| == |heap| && forall i :: 0 <= i < |heap| ==> requests[i] == heap[i].Value()
  {
    seq(|heap|, i requires 0 <= i < |heap| reads heap => heap[i].Value())
  }

  /** The items a pass holds are the objects that the model's pass refers to. */
  ghost predicate Follows(leads: seq<LeadItem>, requests: seq<RequestItem>, progress: Progress, pass: Pass) {
    match (progress, pass)
    case (Resting, Idle) => true
    case (AwaitsLead(item, items), PostingLead(r, rest)) => Points(leads, [item] + items, [r] + rest)
    case (StoresLead(items), StoringLead(rest)) => Points(leads, items, rest)
    case (AwaitsRequest(item, items), PostingRequest(r, rest)) => Points(requests, [item] + items, [r] + rest)
    case (StoresConflict(item, items), StoringConflict(r, rest)) => Points(requests, [item] + items, [r] + rest)
    case (AwaitsRefresh(item, items), RefreshingConflict(r, rest)) => Points(requests, [item] + items, [r] + rest)
    case (StoresRequest(items), StoringRequest(rest)) => Points(requests, items, rest)
    case _ => false
  }

  /** New objects leave every reference to the others as it was. */
  lemma FollowsStill(leads: seq<LeadItem>, requests: seq<RequestItem>, more: seq<LeadItem>, others: seq<RequestItem>,
                     progress: Progress, pass: Pass)
    requires Follows(leads, requests, progress, pass)
    ensures Follows(leads + more, requests + others, progress, pass)
  {
  }

  lemma RestPoints<T>(heap: seq<T>, item: T, items: seq<T>, r: nat, rest: seq<nat>)
    requires Points(heap, [item] + items, [r] + rest)
    ensures r < |heap| && heap[r] == item && Points(heap, items, rest)
  {
    var all, refs := [item] + items, [r] + rest;
    assert all[0] == item && refs[0] == r && items == all[1..] && rest == refs[1..];
  }

  lemma UptoPoints<T>(heap: seq<T>)
    ensures Points(heap, heap, Upto(|heap|))
  {
  }

  lemma LeadsOfAppend(heap: seq<LeadItem>, item: LeadItem)
    ensures LeadsOf(heap + [item]) == LeadsOf(heap) + [item.Value()]
  {
  }

  lemma RequestsOfAppend(heap: seq<RequestItem>, item: RequestItem)
    ensures RequestsOf(heap + [item]) == RequestsOf(heap) + [item.Value()]
  {
  }

  lemma StillDifferent<T>(heap: seq<T>, item: T)
    requires AllDifferent(heap) && item !in heap
    ensures AllDifferent(heap + [item])
  {
  }

  class Workspace {
    var outbox: Queue<LeadItem>
    var reservationOutbox: Queue<RequestItem>
    var syncReceipts: seq<Id>
    var reservationReceipts: seq<Id>
    var progress: Progress
    var editingSubmissionId: Option<Id>
    var editingReservationId: Option<Id>
    var payload: Option<Payload>
    var nextId: Id
    ghost var sent: seq<Message>
    ghost var leadHeap: seq<LeadItem>
    ghost var requestHeap: seq<RequestItem>
    ghost var pass: Pass
    ghost var page: Page
    ghost var Repr: set<object>

    ghost function Queues(): set<object>
      reads this`outbox, this`reservationOutbox, this`payload
    {
      {outbox, reservationOutbox}
      + (if payload.Some? then {payload.value.outbox, payload.value.reservationOutbox} else {})
    }

    /** The objects are numbered soundly, and `page` is what the model makes of them. */
    ghost predicate Valid()
      reads this, Repr
    {
      && this in Repr && Queues() <= Repr && (forall x :: x in leadHeap ==> x in Repr) && (forall x :: x in requestHeap ==> x in Repr)
      && Sound() && page == View()
    }

    ghost predicate Sound()
      reads this`outbox, this`reservationOutbox, this`payload, this`progress, this`leadHeap, this`requestHeap, this`pass
      reads Queues()
    {
      SoundOver(leadHeap, requestHeap)
    }

    ghost predicate SoundOver(leads: seq<LeadItem>, requests: seq<RequestItem>)
      reads this`outbox, this`reservationOutbox, this`payload, this`progress, this`pass, Queues()
    {
      AllDifferent(leads) && AllDifferent(requests) && QueuesOver(leads, requests) && Follows(leads, requests, progress, pass)
    }

    /** Every array in use holds the objects that its references name. */
    ghost predicate QueuesOver(leads: seq<LeadItem>, requests: seq<RequestItem>)
      reads this`outbox, this`reservationOutbox, this`payload, Queues()
    {
      && Points(leads, outbox.items, outbox.refs)
      && Points(requests, reservationOutbox.items, reservationOutbox.refs)
      && (payload.Some? ==>
            && Points(leads, payload.value.outbox.items, payload.value.outbox.refs)
            && Points(requests, payload.value.reservationOutbox.items, payload.value.reservationOutbox.refs))
    }

    lemma SoundGrows(leads: seq<LeadItem>, requests: seq<RequestItem>, more: seq<LeadItem>, others: seq<RequestItem>)
      requires SoundOver(leads, requests) && AllDifferent(leads + more) && AllDifferent(requests + others)
      ensures SoundOver(leads + more, requests + others)
    {
      FollowsStill(leads, requests, more, others, progress, pass);
    }

    /** A captured array counts as captured only once the page has another in its place. */
    ghost function DownloadView(): Option<Download>
      reads this`outbox, this`reservationOutbox, this`payload, Queues()
    {
      match payload
      case None => None
      case Some(held) =>
        Some(Download(if held.outbox == outbox then None else Some(held.outbox.refs),
                      if held.reservationOutbox == reservationOutbox then None else Some(held.reservationOutbox.refs)))
    }

    ghost function View(): Page
      reads this, Queues(), leadHeap, requestHeap
    {
      Page(LeadsOf(leadHeap), RequestsOf(requestHeap), outbox.refs, reservationOutbox.refs, syncReceipts,
           reservationReceipts, pass, editingSubmissionId, editingReservationId, DownloadView(), nextId, sent)
    }

    /** The queues as plain values, read from the objects in them. */
    ghost function Stored(): Saved
      reads this, Queues(), outbox.items, reservationOutbox.items
    {
      Saved(LeadsOf(outbox.items), RequestsOf(reservationOutbox.items), syncReceipts, reservationReceipts)
    }

    constructor ()
      ensures Valid() && fresh(Repr)
      ensures page == Page([], [], [], [], [], [], Idle, None, None, None, 0, [])
    {
      outbox := new Queue([], []);
      reservationOutbox := new Queue([], []);
      syncReceipts, reservationReceipts, progress := [], [], Resting;
      editingSubmissionId, editingReservationId, payload := None, None, None;
      nextId, sent, leadHeap, requestHeap, pass := 0, [], [], [], Idle;
      page := Page([], [], [], [], [], [], Idle, None, None, None, 0, []);
      Repr := {this, outbox, reservationOutbox};
    }

    /** The record is what the model would save. */
    lemma StoredIsSaved()
      requires Valid()
      ensures InBounds(page) && Save(page) == Stored()
    {
    }

    lemma LeadValue(item: LeadItem, r: nat)
      requires Valid() && r < |leadHeap| && leadHeap[r] == item
      ensures r < |page.leads| && page.leads[r] == item.Value()
    {
    }

    lemma RequestValue(item: RequestItem, r: nat)
      requires Valid() && r < |requestHeap| && requestHeap[r] == item
      ensures r < |page.requests| && page.requests[r] == item.Value()
    {
    }

    lemma QueueLengths()
      requires Valid()
      ensures page.outbox == outbox.refs && |outbox.refs| == |outbox.items| && |page.leads| == |leadHeap|
      ensures page.reservationOutbox == reservationOutbox.refs && |reservationOutbox.refs| == |reservationOutbox.items|
    {
    }

    lemma QueueMatches()
      requires Valid()
      ensures page.outbox == outbox.refs && Points(leadHeap, outbox.items, outbox.refs) && page.leads == LeadsOf(leadHeap)
      ensures page.reservationOutbox == reservationOutbox.refs && page.requests == RequestsOf(requestHeap)
      ensures Points(requestHeap, reservationOutbox.items, reservationOutbox.refs)
    {
    }

    lemma QueuedRequest(i: nat)
      requires Valid() && i < |reservationOutbox.items|
      ensures i < |reservationOutbox.refs| && reservationOutbox.refs[i] < |requestHeap|
      ensures requestHeap[reservationOutbox.refs[i]] == reservationOutbox.items[i]
      ensures |page.requests| == |requestHeap|
      ensures page.requests[reservationOutbox.refs[i]] == reservationOutbox.items[i].Value()
    {
    }

    lemma HeapsDiffer()
      requires Sound()
      ensures AllDifferent(leadHeap) && AllDifferent(requestHeap)
    {
    }

    // ---------------------------------------------------------------- objects

    method MarkLead(item: LeadItem, ghost r: nat, status: Status, attempts: nat)
      requires Valid() && r < |leadHeap| && leadHeap[r] == item
      modifies item, this`page
      ensures Valid()
      ensures page == old(page).(leads := old(page).leads[r := old(page).leads[r].(status := status, attempts := attempts)])
    {
      HeapsDiffer();
      hide Workspace.Sound, Workspace.DownloadView, RequestsOf;
      item.Mark(status, attempts);
      page := page.(leads := page.leads[r := page.leads[r].(status := status, attempts := attempts)]);
    }

    method Assign(item: RequestItem, ghost r: nat, choice: Choice, status: Status, attempts: nat, link: Option<Link>)
      requires Valid() && r < |requestHeap| && requestHeap[r] == item
      modifies item, this`page
      ensures Valid()
      ensures page == old(page).(requests := old(page).requests[r :=
                        old(page).requests[r].(choice := choice, status := status, attempts := attempts, link := link)])
    {
      HeapsDiffer();
      hide Workspace.Sound, Workspace.DownloadView, LeadsOf;
      item.Mark(choice, status, attempts, link);
      page := page.(requests := page.requests[r :=
                      page.requests[r].(choice := choice, status := status, attempts := attempts, link := link)]);
    }

    method SetStatus(item: RequestItem, ghost r: nat, status: Status)
      requires Valid() && r < |requestHeap| && requestHeap[r] == item
      modifies item, this`page
      ensures Valid() && page == SetRequestStatus(old(page), r, status)
    {
      RequestValue(item, r);
      hide Workspace.Sound, Workspace.View;
      Assign(item, r, item.choice, status, item.attempts, item.link);
    }

    method NewLead(lead: Lead) returns (item: LeadItem)
      requires Valid()
      modifies this`leadHeap, this`page, this`Repr
      ensures Valid() && fresh(Repr - old(Repr)) && old(Repr) <= Repr
      ensures fresh(item) && leadHeap == old(leadHeap) + [item]
      ensures page == old(page).(leads := old(page).leads + [lead])
    {
      hide Workspace.SoundOver, LeadsOf, RequestsOf, AllDifferent;
      item := new LeadItem(lead);
      LeadsOfAppend(leadHeap, item);
      HeapsDiffer();
      StillDifferent(leadHeap, item);
      assert requestHeap + [] == requestHeap;
      SoundGrows(leadHeap, requestHeap, [item], []);
      leadHeap, Repr := leadHeap + [item], Repr + {item};
      page := page.(leads := page.leads + [lead]);
    }

    method NewRequest(request: Request) returns (item: RequestItem)
      requires Valid()
      modifies this`requestHeap, this`page, this`Repr
      ensures Valid() && fresh(Repr - old(Repr)) && old(Repr) <= Repr
      ensures fresh(item) && requestHeap == old(requestHeap) + [item]
      ensures page == old(page).(requests := old(page).requests + [request])
    {
      hide Workspace.SoundOver, LeadsOf, RequestsOf, AllDifferent;
      item := new RequestItem(request);
      RequestsOfAppend(requestHeap, item);
      HeapsDiffer();
      StillDifferent(requestHeap, item);
      assert leadHeap + [] == leadHeap;
      SoundGrows(leadHeap, requestHeap, [], [item]);
      requestHeap, Repr := requestHeap + [item], Repr + {item};
      page := page.(requests := page.requests + [request]);
    }

    // ---------------------------------------------------------------- queues

    method FindQueuedLead(id: Id) returns (at: Option<nat>)
      requires Valid()
      ensures at == FindLead(page.leads, page.outbox, id)
    {
      var i := 0;
      while i < |outbox.items| && outbox.items[i].submissionId != id
        invariant i <= |outbox.items|
        invariant forall j :: 0 <= j < i ==> outbox.items[j].submissionId != id
      {
        i := i + 1;
      }
      QueuedLeadAt(id, i);
      at := if i < |outbox.items| then Some(i) else None;
    }

    lemma QueuedLeadAt(id: Id, i: nat)
      requires Valid() && i <= |outbox.items|
      requires forall j :: 0 <= j < i ==> outbox.items[j].submissionId != id
      requires i < |outbox.items| ==> outbox.items[i].submissionId == id
      ensures FindLead(page.leads, page.outbox, id) == if i < |outbox.items| then Some(i) else None
    {
      var leads := page.leads;
      FindIndexIs(outbox.refs, (r: nat) => IsLead(leads, r, id), i);
    }

    method FindQueuedRequest(id: Id) returns (at: Option<nat>)
      requires Valid()
      ensures at == FindRequest(page.requests, page.reservationOutbox, id)
    {
      var i := 0;
      while i < |reservationOutbox.items| && reservationOutbox.items[i].submissionId != id
        invariant i <= |reservationOutbox.items|
        invariant forall j :: 0 <= j < i ==> reservationOutbox.items[j].submissionId != id
      {
        i := i + 1;
      }
      ghost var requests := page.requests;
      FindIndexIs(reservationOutbox.refs, (r: nat) => IsRequest(requests, r, id), i);
      at := if i < |reservationOutbox.items| then Some(i) else None;
    }

    method FindRequestOfLead(leadId: Id) returns (at: Option<nat>)
      requires Valid()
      ensures at == FindRequestOf(page.requests, page.reservationOutbox, leadId)
    {
      var i := 0;
      while i < |reservationOutbox.items| && reservationOutbox.items[i].leadSubmissionId != leadId
        invariant i <= |reservationOutbox.items|
        invariant forall j :: 0 <= j < i ==> reservationOutbox.items[j].leadSubmissionId != leadId
      {
        i := i + 1;
      }
      ghost var requests := page.requests;
      FindIndexIs(reservationOutbox.refs, (r: nat) => IsRequestOf(requests, r, leadId), i);
      at := if i < |reservationOutbox.items| then Some(i) else None;
    }

    /** `snapshot.outbox = ...`: a new array; a download keeps the old one. */
    method ReplaceLeads(items: seq<LeadItem>, ghost refs: seq<nat>)
      requires Valid() && Points(leadHeap, items, refs)
      modifies this`outbox, this`page, this`Repr
      ensures Valid() && fresh(Repr - old(Repr)) && old(Repr) <= Repr && page == ReplaceOutbox(old(page), refs)
    {
      hide LeadsOf, RequestsOf, AllDifferent, Follows, Points;
      var queue := new Queue(items, refs);
      page, Repr, outbox := ReplaceOutbox(page, refs), Repr + {queue}, queue;
    }

    method ReplaceRequests(items: seq<RequestItem>, ghost refs: seq<nat>)
      requires Valid() && Points(requestHeap, items, refs)
      modifies this`reservationOutbox, this`page, this`Repr
      ensures Valid() && fresh(Repr - old(Repr)) && old(Repr) <= Repr && page == ReplaceReservations(old(page), refs)
    {
      hide LeadsOf, RequestsOf, AllDifferent, Follows, Points;
      var queue := new Queue(items, refs);
      page, Repr, reservationOutbox := ReplaceReservations(page, refs), Repr + {queue}, queue;
    }

    method KeepLeadsExcept(id: Id)
      requires Valid()
      modifies this`outbox, this`page, this`Repr
      ensures Valid() && fresh(Repr - old(Repr)) && old(Repr) <= Repr
      ensures page == ReplaceOutbox(old(page), LeadsExcept(old(page).leads, old(page).outbox, id))
    {
      QueueMatches();
      hide Workspace.Sound, Workspace.View, ReplaceOutbox;
      var kept, refs := LeadsWithout(outbox.items, id, outbox.refs, leadHeap);
      ReplaceLeads(kept, refs);
    }

    method KeepRequestsExcept(id: Id)
      requires Valid()
      modifies this`reservationOutbox, this`page, this`Repr
      ensures Valid() && fresh(Repr - old(Repr)) && old(Repr) <= Repr
      ensures page == ReplaceReservations(old(page), RequestsExcept(old(page).requests, old(page).reservationOutbox, id))
    {
      QueueMatches();
      hide Workspace.Sound, Workspace.View, ReplaceReservations;
      var kept, refs := RequestsWithout(reservationOutbox.items, id, reservationOutbox.refs, requestHeap);
      ReplaceRequests(kept, refs);
    }

    method KeepRequestsNotOf(leadId: Id)
      requires Valid()
      modifies this`reservationOutbox, this`page, this`Repr
      ensures Valid() && fresh(Repr - old(Repr)) && old(Repr) <= Repr
      ensures page == ReplaceReservations(old(page), RequestsExceptOf(old(page).requests, old(page).reservationOutbox, leadId))
    {
      QueueMatches();
      hide Workspace.Sound, Workspace.View, ReplaceReservations;
      var kept, refs := RequestsNotOf(reservationOutbox.items, leadId, reservationOutbox.refs, requestHeap);
      ReplaceRequests(kept, refs);
    }

    method PushLead(item: LeadItem, ghost r: nat)
      requires Valid() && r < |leadHeap| && leadHeap[r] == item
      modifies outbox, this`page
      ensures Valid() && page == old(page).(outbox := old(page).outbox + [r])
    {
      outbox.items, outbox.refs := outbox.items + [item], outbox.refs + [r];
      page := page.(outbox := page.outbox + [r]);
    }

    method SetLeadAt(k: nat, item: LeadItem, ghost r: nat)
      requires Valid() && r < |leadHeap| && leadHeap[r] == item && k < |outbox.items|
      modifies outbox, this`page
      ensures Valid() && page == old(page).(outbox := old(page).outbox[k := r])
    {
      outbox.items, outbox.refs := outbox.items[k := item], outbox.refs[k := r];
      page := page.(outbox := page.outbox[k := r]);
    }

    method PushRequest(item: RequestItem, ghost r: nat)
      requires Valid() && r < |requestHeap| && requestHeap[r] == item
      modifies reservationOutbox, this`page
      ensures Valid() && page == old(page).(reservationOutbox := old(page).reservationOutbox + [r])
    {
      reservationOutbox.items, reservationOutbox.refs := reservationOutbox.items + [item], reservationOutbox.refs + [r];
      page := page.(reservationOutbox := page.reservationOutbox + [r]);
    }

    // ---------------------------------------------------------------- the user's actions

    method SaveQueuedLead(f: LeadForm)
      requires Valid()
      modifies Repr
      ensures Valid() && fresh(Repr - old(Repr)) && page == SaveLead(old(page), f)
    {
      hide Workspace.Sound, Workspace.View, QueueLead, QueueReservation, FormChoice, AcceptableLead;
      if !AcceptableLead(f) {
        return;
      }
      var id := TakeId();
      StoreForm(id, f);
    }

    method TakeId() returns (id: Id)
      requires Valid()
      modifies this`nextId, this`page
      ensures Valid() && id == SavedId(old(page))
      ensures page == if old(page).editingSubmission.Some? then old(page) else old(page).(nextId := old(page).nextId + 1)
    {
      id := nextId;
      if editingSubmissionId.Some? {
        id := editingSubmissionId.value;
      } else {
        DrawId();
      }
    }

    method StoreForm(id: Id, f: LeadForm)
      requires Valid()
      modifies Repr
      ensures Valid() && fresh(Repr - old(Repr))
      ensures page == QueueReservation(QueueLead(old(page), id, f.contact), id, FormChoice(f))
    {
      QueueForm(id, f.contact);
      SaveReservationOf(id, FormChoice(f));
    }

    method DrawId()
      requires Valid()
      modifies this`nextId, this`page
      ensures Valid() && page == old(page).(nextId := old(page).nextId + 1)
    {
      nextId := nextId + 1;
      page := page.(nextId := nextId);
    }

    method QueueForm(id: Id, contact: Contact)
      requires Valid()
      modifies Repr
      ensures Valid() && fresh(Repr - old(Repr)) && page == QueueLead(old(page), id, contact)
    {
      hide Workspace.Sound, Workspace.View, AllDifferent, Points, LeadsOf, RequestsOf;
      var at := FindQueuedLead(id);
      QueueLengths();
      var item := NewLead(Lead(id, contact, Waiting, 0));
      if at.Some? {
        SetLeadAt(at.value, item, |leadHeap| - 1);
      } else {
        PushLead(item, |leadHeap| - 1);
      }
    }

    method SaveReservationOf(leadId: Id, reservation: Option<Choice>)
      requires Valid()
      modifies Repr
      ensures Valid() && fresh(Repr - old(Repr)) && page == QueueReservation(old(page), leadId, reservation)
    {
      var at := FindRequestOfLead(leadId);
      if at.None? {
        if reservation.Some? {
          QueueRequest(leadId, reservation.value);
        }
        return;
      }
      var item := reservationOutbox.items[at.value];
      if reservation.Some? {
        Assign(item, reservationOutbox.refs[at.value], reservation.value, WaitingForLead, item.attempts, item.link);
      } else {
        KeepRequestsExcept(item.submissionId);
      }
    }

    method QueueRequest(leadId: Id, choice: Choice)
      requires Valid()
      modifies Repr
      ensures Valid() && fresh(Repr - old(Repr))
      ensures page == old(page).(requests := old(page).requests + [Request(old(page).nextId, leadId, choice, WaitingForLead, 0, None)],
                                 reservationOutbox := old(page).reservationOutbox + [|old(page).requests|],
                                 nextId := old(page).nextId + 1)
    {
      var item := NewRequest(Request(nextId, leadId, choice, WaitingForLead, 0, None));
      PushRequest(item, |requestHeap| - 1);
      DrawId();
    }

    method EditQueuedLead(id: Id)
      requires Valid()
      modifies this`editingSubmissionId, this`editingReservationId, this`page
      ensures Valid() && page == EditLead(old(page), id)
    {
      var at := FindQueuedLead(id);
      if at.Some? {
        EditNow(Some(id), editingReservationId);
      }
    }

    method EditQueuedReservation(id: Id)
      requires Valid()
      modifies this`editingSubmissionId, this`editingReservationId, this`page
      ensures Valid() && page == EditReservation(old(page), id)
    {
      var at := FindQueuedRequest(id);
      if at.Some? {
        EditNow(editingSubmissionId, Some(id));
      }
    }

    method EditNow(lead: Option<Id>, reservation: Option<Id>)
      requires Valid()
      modifies this`editingSubmissionId, this`editingReservationId, this`page
      ensures Valid() && page == old(page).(editingSubmission := lead, editingReservation := reservation)
    {
      editingSubmissionId, editingReservationId := lead, reservation;
      page := page.(editingSubmission := lead, editingReservation := reservation);
    }

    /** Both arrays are replaced, and as values exactly the lead and its request are gone. */
    method RemoveQueuedLead(id: Id)
      requires Valid()
      modifies Repr
      ensures Valid() && fresh(Repr - old(Repr)) && page == RemoveLead(old(page), id)
      ensures Stored() == old(Stored()).(outbox := WithoutLead(old(Stored()).outbox, id),
                                         reservationOutbox := WithoutRequestsOf(old(Stored()).reservationOutbox, id))
    {
      StoredIsSaved();
      RemoveLeadOnValues(page, id);
      DropLeadAndRequest(id);
      StoredIsSaved();
    }

    method DropLeadAndRequest(id: Id)
      requires Valid()
      modifies Repr
      ensures Valid() && fresh(Repr - old(Repr)) && page == RemoveLead(old(page), id)
    {
      KeepLeadsExcept(id);
      KeepRequestsNotOf(id);
    }

    method RemoveQueuedReservation(id: Id)
      requires Valid()
      modifies Repr
      ensures Valid() && fresh(Repr - old(Repr)) && page == RemoveReservation(old(page), id)
      ensures Stored() == old(Stored()).(reservationOutbox := WithoutRequest(old(Stored()).reservationOutbox, id))
    {
      StoredIsSaved();
      RemoveReservationOnValues(page, id);
      KeepRequestsExcept(id);
      StoredIsSaved();
    }

    /** The queued object itself changes, wherever else it is held; as a value list, one entry does. */
    method SaveReservationEdit(c: Choice)
      requires Valid()
      modifies Repr
      ensures Valid() && Repr == old(Repr) && page == SaveReservation(old(page), c)
      ensures PageOk(old(page)) && old(editingReservationId).Some? && AcceptableChoice(c) ==>
                Stored() == old(Stored()).(reservationOutbox :=
                              ChooseIn(old(Stored()).reservationOutbox, old(editingReservationId).value, c))
    {
      StoredIsSaved();
      ghost var before := page;
      ChooseUnit(c);
      StoredIsSaved();
      if PageOk(before) && before.editingReservation.Some? && AcceptableChoice(c) {
        SaveReservationOnValues(before, c);
      }
    }

    method ChooseUnit(c: Choice)
      requires Valid()
      modifies Repr
      ensures Valid() && Repr == old(Repr) && page == SaveReservation(old(page), c)
    {
      if editingReservationId.None? || !AcceptableChoice(c) {
        return;
      }
      var at := FindQueuedRequest(editingReservationId.value);
      if at.None? {
        return;
      }
      var item := reservationOutbox.items[at.value];
      var chosen := item.choice.(unitId := c.unitId, quotedRate := c.quotedRate, intendedMoveIn := c.intendedMoveIn);
      Assign(item, reservationOutbox.refs[at.value], chosen, Waiting, item.attempts, item.link);
      EditNow(editingSubmissionId, None);
    }

    // ---------------------------------------------------------------- syncQueue

    /** The pass comes to wait, having sent what it has. */
    method Await(next: Progress, ghost wait: Pass, ghost messages: seq<Message>)
      requires Valid() && Follows(leadHeap, requestHeap, next, wait)
      modifies this`progress, this`pass, this`sent, this`page
      ensures Valid() && page == old(page).(pass := wait, sent := messages)
    {
      hide LeadsOf, RequestsOf, AllDifferent, Follows, Workspace.QueuesOver, Workspace.DownloadView;
      page := page.(pass := wait, sent := messages);
      progress, pass, sent := next, wait, messages;
    }

    method PostLead(items: seq<LeadItem>, ghost refs: seq<nat>)
      requires Valid() && Points(leadHeap, items, refs)
      modifies Repr
      ensures Valid() && Repr == old(Repr) && page == NextLead(old(page), refs)
    {
      hide Workspace.Sound, Workspace.View;
      if items == [] {
        BeginRequestLoop();
      } else {
        LeadValue(items[0], refs[0]);
        MarkLead(items[0], refs[0], Syncing, items[0].attempts + 1);
        assert [items[0]] + items[1..] == items && [refs[0]] + refs[1..] == refs;
        Await(AwaitsLead(items[0], items[1..]), PostingLead(refs[0], refs[1..]), page.sent + [LeadPost(page.leads[refs[0]])]);
      }
    }

    method BeginRequestLoop()
      requires Valid()
      modifies Repr
      ensures Valid() && Repr == old(Repr) && page == BeginRequests(old(page))
    {
      var items, refs := EligibleRequests(reservationOutbox.items, reservationOutbox.refs, requestHeap);
      PostRequest(items, refs);
    }

    method PostRequest(items: seq<RequestItem>, ghost refs: seq<nat>)
      requires Valid() && Points(requestHeap, items, refs)
      modifies Repr
      ensures Valid() && Repr == old(Repr) && page == NextRequest(old(page), refs)
    {
      hide Workspace.Sound, Workspace.View;
      if items == [] {
        Await(Resting, Idle, page.sent);
      } else {
        var item := items[0];
        RequestValue(item, refs[0]);
        Assign(item, refs[0], item.choice, Syncing, item.attempts + 1, item.link);
        assert [items[0]] + items[1..] == items && [refs[0]] + refs[1..] == refs;
        Await(AwaitsRequest(item, items[1..]), PostingRequest(refs[0], refs[1..]), page.sent + [RequestPost(page.requests[refs[0]])]);
      }
    }

    method AddSyncReceipt(id: Id)
      requires Valid()
      modifies this`syncReceipts, this`page
      ensures Valid() && page == old(page).(syncReceipts := NewestReceipts(old(page).syncReceipts, id))
    {
      syncReceipts := [id] + syncReceipts;
      if |syncReceipts| > RECEIPT_LIMIT {
        syncReceipts := syncReceipts[..RECEIPT_LIMIT];
      }
      page := page.(syncReceipts := syncReceipts);
    }

    method AddReservationReceipt(id: Id)
      requires Valid()
      modifies this`reservationReceipts, this`page
      ensures Valid() && page == old(page).(reservationReceipts := NewestReceipts(old(page).reservationReceipts, id))
    {
      reservationReceipts := [id] + reservationReceipts;
      if |reservationReceipts| > RECEIPT_LIMIT {
        reservationReceipts := reservationReceipts[..RECEIPT_LIMIT];
      }
      page := page.(reservationReceipts := reservationReceipts);
    }

    /** The loop over the queued requests of an accepted lead; it changes the objects, not the array. */
    method LinkQueuedRequests(leadId: Id, link: Link)
      requires Valid()
      modifies requestHeap, this`page
      ensures Valid()
      ensures page == old(page).(requests := LinkRequests(old(page).requests, old(page).reservationOutbox, leadId, link))
    {
      hide Workspace.Sound, Workspace.View;
      var i := 0;
      ghost var refs, before := reservationOutbox.refs, page;
      QueueLengths();
      while i < |reservationOutbox.items|
        invariant i <= |refs| == |reservationOutbox.items| && refs == reservationOutbox.refs && Valid()
        invariant page == before.(requests := page.requests) && |page.requests| == |before.requests|
        invariant forall r :: 0 <= r < |before.requests| ==>
                    page.requests[r] == if r in refs[..i] && before.requests[r].leadSubmissionId == leadId
                                        then Linked(before.requests[r], link) else before.requests[r]
      {
        var item := reservationOutbox.items[i];
        QueuedRequest(i);
        assert refs[..i + 1] == refs[..i] + [refs[i]];
        if item.leadSubmissionId == leadId {
          Assign(item, refs[i], item.choice, Waiting, item.attempts, Some(link));
        }
        i := i + 1;
      }
      assert refs[..i] == refs;
      assert page.requests == LinkRequests(before.requests, refs, leadId, link);
    }

    /** The item that the pass holds is the one its model refers to. */
    lemma LeadAwaited(item: LeadItem, items: seq<LeadItem>)
      requires Valid() && progress == AwaitsLead(item, items)
      ensures page.pass == pass && pass.PostingLead? && pass.item < |page.leads|
      ensures pass.item < |leadHeap| && leadHeap[pass.item] == item && page.leads[pass.item] == item.Value()
      ensures Points(leadHeap, items, pass.rest)
    {
      RestPoints(leadHeap, item, items, pass.item, pass.rest);
    }

    lemma RequestAwaited(item: RequestItem, items: seq<RequestItem>)
      requires Valid() && (progress == AwaitsRequest(item, items) || progress == AwaitsRefresh(item, items))
      ensures page.pass == pass && pass.item < |page.requests|
      ensures if progress.AwaitsRequest? then pass.PostingRequest? else pass.RefreshingConflict?
      ensures pass.item < |requestHeap| && requestHeap[pass.item] == item && page.requests[pass.item] == item.Value()
      ensures Points(requestHeap, [item] + items, [pass.item] + pass.rest) && Points(requestHeap, items, pass.rest)
    {
      RestPoints(requestHeap, item, items, pass.item, pass.rest);
    }

    /** `syncQueue` when a reply to a lead has come, up to its next `await`. */
    method OnLeadReply(reply: LeadReply)
      requires Valid() && progress.AwaitsLead?
      modifies Repr
      ensures Valid() && fresh(Repr - old(Repr)) && page == LeadReplied(old(page), reply)
    {
      hide Workspace.Sound, Workspace.View;
      var item, items := progress.lead, progress.leads;
      LeadAwaited(item, items);
      ghost var r, rest := pass.item, pass.rest;
      match reply
      case LeadAccepted(link) =>
        AcceptLead(item.submissionId, link);
        Await(StoresLead(items), StoringLead(rest), page.sent);
      case LeadUnauthorized =>
        MarkLead(item, r, Waiting, item.attempts);
        BeginRequestLoop();
      case LeadFailed =>
        MarkLead(item, r, Failed, item.attempts);
        Await(StoresLead(items), StoringLead(rest), page.sent);
    }

    method AcceptLead(id: Id, link: Link)
      requires Valid()
      modifies requestHeap, this`outbox, this`syncReceipts, this`page, this`Repr
      ensures Valid() && fresh(Repr - old(Repr)) && page == AcknowledgeLead(old(page), id, link)
    {
      KeepLeadsExcept(id);
      AddSyncReceipt(id);
      LinkQueuedRequests(id, link);
    }

    /** `syncQueue` when a reply to a request has come, up to its next `await`. */
    method OnRequestReply(reply: RequestReply)
      requires Valid() && progress.AwaitsRequest?
      modifies Repr
      ensures Valid() && fresh(Repr - old(Repr)) && page == RequestReplied(old(page), reply)
    {
      hide Workspace.Sound, Workspace.View;
      var item, items := progress.request, progress.requests;
      RequestAwaited(item, items);
      hide AcknowledgeRequest, SetRequestStatus;
      ghost var r, rest := pass.item, pass.rest;
      match reply
      case RequestAccepted =>
        AcceptRequest(item.submissionId);
        Await(StoresRequest(items), StoringRequest(rest), page.sent);
      case RequestUnauthorized => SettleAs(item, r, Waiting, Resting, Idle);
      case RequestConflict => SettleAs(item, r, Conflict, StoresConflict(item, items), StoringConflict(r, rest));
      case RequestFailed => SettleAs(item, r, Failed, StoresRequest(items), StoringRequest(rest));
    }

    method SettleAs(item: RequestItem, ghost r: nat, status: Status, next: Progress, ghost wait: Pass)
      requires Valid() && r < |requestHeap| && requestHeap[r] == item && Follows(leadHeap, requestHeap, next, wait)
      modifies item, this`progress, this`pass, this`sent, this`page
      ensures Valid() && page == SetRequestStatus(old(page), r, status).(pass := wait)
    {
      hide Workspace.Sound, Workspace.View, Follows, SetRequestStatus;
      SetStatus(item, r, status);
      Await(next, wait, page.sent);
    }

    method AcceptRequest(id: Id)
      requires Valid()
      modifies this`reservationOutbox, this`reservationReceipts, this`page, this`Repr
      ensures Valid() && fresh(Repr - old(Repr)) && page == AcknowledgeRequest(old(page), id)
    {
      KeepRequestsExcept(id);
      AddReservationReceipt(id);
    }

    /** `syncQueue` when a write of its own is over. */
    method OnStored()
      requires Valid()
      modifies Repr
      ensures Valid() && Repr == old(Repr) && page == PassStored(old(page))
    {
      match progress
      case StoresLead(items) => PostLead(items, pass.rest);
      case StoresConflict(item, items) => Await(AwaitsRefresh(item, items), RefreshingConflict(pass.item, pass.rest), page.sent);
      case StoresRequest(items) => PostRequest(items, pass.rest);
      case _ =>
    }

    method HoldAgain(at: nat)
      requires Valid() && at < |page.reservationOutbox|
      modifies requestHeap, this`page
      ensures Valid() && page == SetRequestStatus(old(page), old(page).reservationOutbox[at], Conflict)
    {
      var current := reservationOutbox.items[at];
      SetStatus(current, reservationOutbox.refs[at], Conflict);
    }

    /** `syncQueue` when the refresh after a conflict is over: the item now queued under that id is held, if any. */
    method OnConflictRefreshed(refreshed: bool)
      requires Valid() && progress.AwaitsRefresh?
      modifies Repr
      ensures Valid() && Repr == old(Repr) && page == ConflictRefreshed(old(page), refreshed)
    {
      hide Workspace.Sound, Workspace.View;
      var item, items := progress.request, progress.requests;
      RequestAwaited(item, items);
      ghost var r, rest := pass.item, pass.rest;
      var at := FindQueuedRequest(item.submissionId);
      if refreshed && at.Some? {
        HoldAgain(at.value);
        Await(StoresRequest(items), StoringRequest(rest), page.sent);
      } else {
        PostRequest(items, rest);
      }
    }

    method StartPass()
      requires Valid()
      modifies Repr
      ensures Valid() && Repr == old(Repr) && page == BeginPass(old(page))
    {
      var hasWork := |outbox.items| > 0 || exists q :: q in reservationOutbox.items && !q.status.Conflict?;
      WorkToDo(hasWork);
      if progress.Resting? && hasWork {
        PostLead(outbox.items, outbox.refs);
      }
    }

    lemma WorkToDo(hasWork: bool)
      requires Valid()
      requires hasWork == (|outbox.items| > 0 || exists q :: q in reservationOutbox.items && !q.status.Conflict?)
      ensures hasWork == HasWork(page)
    {
      if q :| q in reservationOutbox.items && !q.status.Conflict? {
        var i :| 0 <= i < |reservationOutbox.items| && reservationOutbox.items[i] == q;
        assert reservationOutbox.refs[i] in page.reservationOutbox;
      }
      if r :| r in page.reservationOutbox && r < |page.requests| && !page.requests[r].status.Conflict? {
        var i :| 0 <= i < |reservationOutbox.refs| && reservationOutbox.refs[i] == r;
        assert reservationOutbox.items[i] in reservationOutbox.items;
      }
    }

    method LeadTurn(reply: LeadReply)
      requires Valid() && progress.AwaitsLead?
      modifies Repr
      ensures Valid() && fresh(Repr - old(Repr)) && page == PassStored(LeadReplied(old(page), reply))
    {
      OnLeadReply(reply);
      OnStored();
    }

    method RequestTurn(t: Turn)
      requires Valid() && progress.AwaitsRequest?
      modifies Repr
      ensures Valid() && fresh(Repr - old(Repr)) && page == TakeTurn(old(page), t)
    {
      OnRequestReply(t.reply);
      OnStored();
      if progress.AwaitsRefresh? {
        OnConflictRefreshed(t.refreshed);
      }
      OnStored();
    }

    method LeadLoop(replies: seq<LeadReply>)
      requires Valid()
      modifies Repr
      ensures Valid() && fresh(Repr - old(Repr)) && page == DriveLeads(old(page), replies)
    {
      var i := 0;
      while i < |replies| && progress.AwaitsLead?
        invariant i <= |replies| && Valid() && fresh(Repr - old(Repr))
        invariant DriveLeads(page, replies[i..]) == DriveLeads(old(page), replies)
        decreases |replies| - i
      {
        LeadTurn(replies[i]);
        i := i + 1;
      }
    }

    method RequestLoop(turns: seq<Turn>)
      requires Valid()
      modifies Repr
      ensures Valid() && fresh(Repr - old(Repr)) && page == DriveRequests(old(page), turns)
    {
      var i := 0;
      while i < |turns| && progress.AwaitsRequest?
        invariant i <= |turns| && Valid() && fresh(Repr - old(Repr))
        invariant DriveRequests(page, turns[i..]) == DriveRequests(old(page), turns)
        decreases |turns| - i
      {
        RequestTurn(turns[i]);
        i := i + 1;
      }
    }

    /** A whole pass without interruption: the lead loop, then the request loop. */
    method SyncQueue(replies: seq<LeadReply>, turns: seq<Turn>)
      requires Valid()
      modifies Repr
      ensures Valid() && fresh(Repr - old(Repr))
      ensures page == DriveRequests(DriveLeads(BeginPass(old(page)), replies), turns)
    {
      StartPass();
      LeadLoop(replies);
      RequestLoop(turns);
    }

    // ---------------------------------------------------------------- download and unlock

    /** `payload.data.outbox = snapshot.outbox` and the like: the same arrays, not copies. */
    method CaptureForDownload()
      requires Valid()
      modifies this`payload, this`page
      ensures Valid() && page == BeginDownload(old(page))
    {
      if payload.None? {
        payload := Some(Payload(outbox, reservationOutbox));
        page := BeginDownload(page);
      }
    }

    /** What the download encrypts is read from the arrays it holds, whatever the page holds by then. */
    lemma DownloadStores()
      requires Valid() && payload.Some?
      ensures InBounds(EndDownload(page))
      ensures Save(EndDownload(page)).outbox == LeadsOf(payload.value.outbox.items)
      ensures Save(EndDownload(page)).reservationOutbox == RequestsOf(payload.value.reservationOutbox.items)
    {
    }

    /** `snapshot = payload.data`. */
    method AdoptDownload()
      requires Valid()
      modifies this`outbox, this`reservationOutbox, this`payload, this`page
      ensures Valid() && page == EndDownload(old(page))
      ensures old(payload).Some? ==>
                Stored().outbox == old(LeadsOf(payload.value.outbox.items))
                && Stored().reservationOutbox == old(RequestsOf(payload.value.reservationOutbox.items))
    {
      hide Workspace.Sound, Workspace.View, Workspace.Stored, LeadsOf, RequestsOf, EndDownload;
      if payload.Some? {
        DownloadStores();
        UseCaptured();
        StoredIsSaved();
      } else {
        NothingCaptured();
      }
    }

    lemma NothingCaptured()
      requires Valid() && payload.None?
      ensures EndDownload(page) == page
    {
    }

    lemma CapturedQueues()
      requires Valid() && payload.Some?
      ensures EndDownload(page) == page.(outbox := payload.value.outbox.refs,
                                         reservationOutbox := payload.value.reservationOutbox.refs, download := None)
    {
      hide LeadsOf, RequestsOf;
    }

    method UseCaptured()
      requires Valid() && payload.Some?
      modifies this`outbox, this`reservationOutbox, this`payload, this`page
      ensures Valid() && page == EndDownload(old(page))
    {
      CapturedQueues();
      hide LeadsOf, RequestsOf, AllDifferent, Follows, Points, EndDownload;
      page := EndDownload(page);
      outbox, reservationOutbox, payload := payload.value.outbox, payload.value.reservationOutbox, None;
    }

    /** Every object is new after a reload; storing at once would give the same record again. */
    method Unlock(record: Saved)
      requires Valid()
      modifies Repr
      ensures Valid() && fresh(Repr - old(Repr))
      ensures page == Reload(old(page), record) && Stored() == record
    {
      hide Workspace.Sound, Workspace.View, Workspace.Stored, Reload, AllDifferent, LeadsOf, RequestsOf, Upto;
      CountersMatch();
      var leads := NewLeads(record.outbox);
      var requests := NewRequests(record.reservationOutbox);
      Install(leads, requests, record);
      StoredAfterReload(old(page), record);
    }

    lemma CountersMatch()
      requires Valid()
      ensures page.nextId == nextId && page.sent == sent
    {
    }

    lemma StoredAfterReload(before: Page, record: Saved)
      requires Valid() && page == Reload(before, record)
      ensures Stored() == record
    {
      StoredIsSaved();
      ReloadOnValues(before, record);
    }

    method Install(leads: Queue<LeadItem>, requests: Queue<RequestItem>, record: Saved)
      requires page.nextId == nextId && page.sent == sent && AllDifferent(leads.items) && AllDifferent(requests.items)
      requires LeadsOf(leads.items) == record.outbox && RequestsOf(requests.items) == record.reservationOutbox
      requires leads.refs == Upto(|leads.items|) && requests.refs == Upto(|requests.items|)
      modifies this
      ensures Valid() && page == Reload(old(page), record)
      ensures Repr == {this, leads, requests} + (set x | x in leads.items) + (set x | x in requests.items)
    {
      hide Workspace.Sound, Workspace.View, Reload, Points, AllDifferent, LeadsOf, RequestsOf, Upto;
      ghost var before := page;
      Place(leads, requests);
      Restore(record);
      InstalledSoundly(before, record);
    }

    method Place(leads: Queue<LeadItem>, requests: Queue<RequestItem>)
      modifies this`outbox, this`reservationOutbox, this`leadHeap, this`requestHeap, this`Repr
      ensures outbox == leads && reservationOutbox == requests && leadHeap == leads.items && requestHeap == requests.items
      ensures Repr == {this, leads, requests} + (set x | x in leads.items) + (set x | x in requests.items)
    {
      outbox, reservationOutbox, leadHeap, requestHeap := leads, requests, leads.items, requests.items;
      Repr := {this, leads, requests} + (set x | x in leads.items) + (set x | x in requests.items);
    }

    method Restore(record: Saved)
      modifies this`syncReceipts, this`reservationReceipts, this`progress, this`pass, this`payload
      modifies this`editingSubmissionId, this`editingReservationId, this`page
      ensures syncReceipts == record.syncReceipts && reservationReceipts == record.reservationReceipts
      ensures progress.Resting? && pass.Idle? && payload.None? && editingSubmissionId.None? && editingReservationId.None?
      ensures page == Reload(old(page), record)
    {
      syncReceipts, reservationReceipts, progress, pass := record.syncReceipts, record.reservationReceipts, Resting, Idle;
      editingSubmissionId, editingReservationId, payload, page := None, None, None, Reload(page, record);
    }

    lemma InstalledSoundly(before: Page, record: Saved)
      requires before.nextId == nextId && before.sent == sent && AllDifferent(leadHeap) && AllDifferent(requestHeap)
      requires LeadsOf(leadHeap) == record.outbox && RequestsOf(requestHeap) == record.reservationOutbox
      requires outbox.items == leadHeap && outbox.refs == Upto(|leadHeap|)
      requires reservationOutbox.items == requestHeap && reservationOutbox.refs == Upto(|requestHeap|)
      requires syncReceipts == record.syncReceipts && reservationReceipts == record.reservationReceipts
      requires progress.Resting? && pass.Idle? && payload.None? && editingSubmissionId.None? && editingReservationId.None?
      ensures Sound() && View() == Reload(before, record)
    {
      UptoPoints(leadHeap);
      UptoPoints(requestHeap);
    }
  }

  // ---------------------------------------------------------------- filtered copies of arrays

  lemma LeadsExceptAppend(leads: seq<Lead>, queue: seq<nat>, r: nat, id: Id)
    ensures LeadsExcept(leads, queue + [r], id) == LeadsExcept(leads, queue, id) + (if IsLead(leads, r, id) then [] else [r])
  {
    FilterAppend(queue, r, (r: nat) => !IsLead(leads, r, id));
  }

  lemma RequestsExceptAppend(requests: seq<Request>, queue: seq<nat>, r: nat, id: Id)
    ensures RequestsExcept(requests, queue + [r], id)
         == RequestsExcept(requests, queue, id) + (if IsRequest(requests, r, id) then [] else [r])
  {
    FilterAppend(queue, r, (r: nat) => !IsRequest(requests, r, id));
  }

  lemma RequestsExceptOfAppend(requests: seq<Request>, queue: seq<nat>, r: nat, leadId: Id)
    ensures RequestsExceptOf(requests, queue + [r], leadId)
         == RequestsExceptOf(requests, queue, leadId) + (if IsRequestOf(requests, r, leadId) then [] else [r])
  {
    FilterAppend(queue, r, (r: nat) => !IsRequestOf(requests, r, leadId));
  }

  lemma EligibleAppend(requests: seq<Request>, queue: seq<nat>, r: nat)
    ensures Eligible(requests, queue + [r]) == Eligible(requests, queue) + (if IsEligible(requests, r) then [r] else [])
  {
    FilterAppend(queue, r, (r: nat) => IsEligible(requests, r));
  }

  lemma NoneKept(leads: seq<Lead>, requests: seq<Request>, id: Id)
    ensures LeadsExcept(leads, [], id) == [] && RequestsExcept(requests, [], id) == []
    ensures RequestsExceptOf(requests, [], id) == [] && Eligible(requests, []) == []
  {
  }

  method LeadsWithout(items: seq<LeadItem>, id: Id, ghost refs: seq<nat>, ghost heap: seq<LeadItem>)
    returns (kept: seq<LeadItem>, ghost keptRefs: seq<nat>)
    requires Points(heap, items, refs)
    ensures Points(heap, kept, keptRefs) && keptRefs == LeadsExcept(LeadsOf(heap), refs, id)
  {
    hide LeadsExcept;
    ghost var leads := LeadsOf(heap);
    NoneKept(leads, [], id);
    kept, keptRefs := [], [];
    for i := 0 to |items|
      invariant Points(heap, kept, keptRefs) && keptRefs == LeadsExcept(leads, refs[..i], id)
    {
      assert refs[..i + 1] == refs[..i] + [refs[i]];
      LeadsExceptAppend(leads, refs[..i], refs[i], id);
      if items[i].submissionId != id {
        kept, keptRefs := kept + [items[i]], keptRefs + [refs[i]];
      }
    }
    assert refs[..|items|] == refs;
  }

  method RequestsWithout(items: seq<RequestItem>, id: Id, ghost refs: seq<nat>, ghost heap: seq<RequestItem>)
    returns (kept: seq<RequestItem>, ghost keptRefs: seq<nat>)
    requires Points(heap, items, refs)
    ensures Points(heap, kept, keptRefs) && keptRefs == RequestsExcept(RequestsOf(heap), refs, id)
  {
    hide RequestsExcept;
    ghost var requests := RequestsOf(heap);
    NoneKept([], requests, id);
    kept, keptRefs := [], [];
    for i := 0 to |items|
      invariant Points(heap, kept, keptRefs) && keptRefs == RequestsExcept(requests, refs[..i], id)
    {
      assert refs[..i + 1] == refs[..i] + [refs[i]];
      RequestsExceptAppend(requests, refs[..i], refs[i], id);
      if items[i].submissionId != id {
        kept, keptRefs := kept + [items[i]], keptRefs + [refs[i]];
      }
    }
    assert refs[..|items|] == refs;
  }

  method RequestsNotOf(items: seq<RequestItem>, leadId: Id, ghost refs: seq<nat>, ghost heap: seq<RequestItem>)
    returns (kept: seq<RequestItem>, ghost keptRefs: seq<nat>)
    requires Points(heap, items, refs)
    ensures Points(heap, kept, keptRefs) && keptRefs == RequestsExceptOf(RequestsOf(heap), refs, leadId)
  {
    hide RequestsExceptOf;
    ghost var requests := RequestsOf(heap);
    NoneKept([], requests, leadId);
    kept, keptRefs := [], [];
    for i := 0 to |items|
      invariant Points(heap, kept, keptRefs) && keptRefs == RequestsExceptOf(requests, refs[..i], leadId)
    {
      assert refs[..i + 1] == refs[..i] + [refs[i]];
      RequestsExceptOfAppend(requests, refs[..i], refs[i], leadId);
      if items[i].leadSubmissionId != leadId {
        kept, keptRefs := kept + [items[i]], keptRefs + [refs[i]];
      }
    }
    assert refs[..|items|] == refs;
  }

  /** The copy the request loop runs over: linked, and not in conflict. */
  method EligibleRequests(items: seq<RequestItem>, ghost refs: seq<nat>, ghost heap: seq<RequestItem>)
    returns (kept: seq<RequestItem>, ghost keptRefs: seq<nat>)
    requires Points(heap, items, refs)
    ensures Points(heap, kept, keptRefs) && keptRefs == Eligible(RequestsOf(heap), refs)
  {
    hide Eligible;
    ghost var requests := RequestsOf(heap);
    NoneKept([], requests, 0);
    kept, keptRefs := [], [];
    for i := 0 to |items|
      invariant Points(heap, kept, keptRefs) && keptRefs == Eligible(requests, refs[..i])
    {
      assert refs[..i + 1] == refs[..i] + [refs[i]];
      EligibleAppend(requests, refs[..i], refs[i]);
      if items[i].link.Some? && !items[i].status.Conflict? {
        kept, keptRefs := kept + [items[i]], keptRefs + [refs[i]];
      }
    }
    assert refs[..|items|] == refs;
  }

  // ---------------------------------------------------------------- objects of a record

  method NewLeads(values: seq<Lead>) returns (queue: Queue<LeadItem>)
    ensures fresh(queue) && fresh(set x | x in queue.items) && queue.refs == Upto(|queue.items|)
    ensures AllDifferent(queue.items) && LeadsOf(queue.items) == values
  {
    var items: seq<LeadItem> := [];
    for i := 0 to |values|
      invariant fresh(set x | x in items) && AllDifferent(items) && LeadsOf(items) == values[..i]
    {
      var item := new LeadItem(values[i]);
      items := items + [item];
    }
    queue := new Queue(items, Upto(|items|));
  }

  method NewRequests(values: seq<Request>) returns (queue: Queue<RequestItem>)
    ensures fresh(queue) && fresh(set x | x in queue.items) && queue.refs == Upto(|queue.items|)
    ensures AllDifferent(queue.items) && RequestsOf(queue.items) == values
  {
    var items: seq<RequestItem> := [];
    for i := 0 to |values|
      invariant fresh(set x | x in items) && AllDifferent(items) && RequestsOf(items) == values[..i]
    {
      var item := new RequestItem(values[i]);
      items := items + [item];
    }
    queue := new Queue(items, Upto(|items|));
  }
}
