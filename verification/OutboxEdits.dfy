/**
 What each user action and acknowledgement does to the queues as plain values: the page of references and
 shared objects refines a pair of value lists.
 */
module OutboxEdits {
  import opened Collections
  import opened OutboxPage
  import opened OutboxWorld

  // ---------------------------------------------------------------- the value lists

  predicate Refers(queue: seq<nat>, size: nat) {
    forall i :: 0 <= i < |queue| ==> queue[i] < size
  }

  lemma FilterRefers(queue: seq<nat>, size: nat, keep: nat -> bool)
    requires Refers(queue, size)
    ensures Refers(Filter(queue, keep), size)
  {
    var kept := Filter(queue, keep);
    forall i | 0 <= i < |kept|
      ensures kept[i] < size
    {
      assert kept[i] in kept && kept[i] in queue;
    }
  }

  function LeadValues(leads: seq<Lead>, queue: seq<nat>): (values: seq<Lead>)
    requires Refers(queue, |leads|)
    ensures |values| == |queue| && forall i :: 0 <= i < |queue| ==> values[i] == leads[queue[i]]
  {
    if queue == [] then [] else [leads[queue[0]]] + LeadValues(leads, queue[1..])
  }

  function RequestValues(requests: seq<Request>, queue: seq<nat>): (values: seq<Request>)
    requires Refers(queue, |requests|)
    ensures |values| == |queue| && forall i :: 0 <= i < |queue| ==> values[i] == requests[queue[i]]
  {
    if queue == [] then [] else [requests[queue[0]]] + RequestValues(requests, queue[1..])
  }

  /** A saved form takes the place of the lead it edits, or goes to the end. */
  function PutLead(values: seq<Lead>, lead: Lead): seq<Lead> {
    if values == [] then [lead]
    else if values[0].submissionId == lead.submissionId then [lead] + values[1..]
    else [values[0]] + PutLead(values[1..], lead)
  }

  /** A lead's request takes the form's choice and waits for the lead again, keeping its identity and any link. */
  function PutRequest(values: seq<Request>, leadId: Id, choice: Choice, freshId: Id): seq<Request> {
    if values == [] then [Request(freshId, leadId, choice, WaitingForLead, 0, None)]
    else if values[0].leadSubmissionId == leadId then
      [values[0].(choice := choice, status := WaitingForLead)] + values[1..]
    else [values[0]] + PutRequest(values[1..], leadId, choice, freshId)
  }

  function WithoutLead(values: seq<Lead>, id: Id): seq<Lead> {
    Filter(values, (l: Lead) => l.submissionId != id)
  }

  function WithoutRequest(values: seq<Request>, id: Id): seq<Request> {
    Filter(values, (q: Request) => q.submissionId != id)
  }

  function WithoutRequestsOf(values: seq<Request>, leadId: Id): seq<Request> {
    Filter(values, (q: Request) => q.leadSubmissionId != leadId)
  }

  function ChooseIn(values: seq<Request>, id: Id, c: Choice): seq<Request> {
    Map(values, (q: Request) =>
          if q.submissionId == id then
            q.(choice := q.choice.(unitId := c.unitId, quotedRate := c.quotedRate, intendedMoveIn := c.intendedMoveIn),
               status := Waiting)
          else q)
  }

  function LinkIn(values: seq<Request>, leadId: Id, link: Link): seq<Request> {
    Map(values, (q: Request) => if q.leadSubmissionId == leadId then q.(link := Some(link), status := Waiting) else q)
  }

  lemma SavedValues(p: Page)
    requires InBounds(p)
    ensures Refers(p.outbox, |p.leads|) && Refers(p.reservationOutbox, |p.requests|)
    ensures Save(p).outbox == LeadValues(p.leads, p.outbox)
    ensures Save(p).reservationOutbox == RequestValues(p.requests, p.reservationOutbox)
  {
    forall i | 0 <= i < |p.outbox|
      ensures p.outbox[i] < |p.leads|
    {
      assert p.outbox[i] in p.outbox;
    }
    forall i | 0 <= i < |p.reservationOutbox|
      ensures p.reservationOutbox[i] < |p.requests|
    {
      assert p.reservationOutbox[i] in p.reservationOutbox;
    }
  }

  // ---------------------------------------------------------------- lists of references against lists of values

  lemma {:induction false} FilterLeadValues(leads: seq<Lead>, queue: seq<nat>, id: Id)
    requires Refers(queue, |leads|)
    ensures Refers(LeadsExcept(leads, queue, id), |leads|)
    ensures LeadValues(leads, LeadsExcept(leads, queue, id)) == WithoutLead(LeadValues(leads, queue), id)
  {
    FilterRefers(queue, |leads|, (r: nat) => !IsLead(leads, r, id));
    if queue != [] {
      FilterLeadValues(leads, queue[1..], id);
      assert LeadValues(leads, queue)[1..] == LeadValues(leads, queue[1..]);
      if queue[0] in LeadsExcept(leads, queue, id) {
        assert LeadsExcept(leads, queue, id) == [queue[0]] + LeadsExcept(leads, queue[1..], id);
      }
    }
  }

  lemma {:induction false} FilterRequestValues(requests: seq<Request>, queue: seq<nat>, keepRef: nat -> bool, keep: Request -> bool)
    requires Refers(queue, |requests|) && forall i :: 0 <= i < |queue| ==> keepRef(queue[i]) == keep(requests[queue[i]])
    ensures Refers(Filter(queue, keepRef), |requests|)
    ensures RequestValues(requests, Filter(queue, keepRef)) == Filter(RequestValues(requests, queue), keep)
  {
    FilterRefers(queue, |requests|, keepRef);
    if queue != [] {
      FilterRequestValues(requests, queue[1..], keepRef, keep);
      assert RequestValues(requests, queue)[1..] == RequestValues(requests, queue[1..]);
      if keepRef(queue[0]) {
        assert Filter(queue, keepRef) == [queue[0]] + Filter(queue[1..], keepRef);
      }
    }
  }

  lemma {:induction false} SameLeadValues(leads: seq<Lead>, more: seq<Lead>, queue: seq<nat>)
    requires Refers(queue, |leads|)
    ensures LeadValues(leads + more, queue) == LeadValues(leads, queue)
  {
    if queue != [] {
      SameLeadValues(leads, more, queue[1..]);
    }
  }

  lemma {:induction false} ReplaceLeadAt(leads: seq<Lead>, queue: seq<nat>, lead: Lead, i: nat)
    requires Refers(queue, |leads|) && i < |queue| && leads[queue[i]].submissionId == lead.submissionId
    requires forall j :: 0 <= j < i ==> leads[queue[j]].submissionId != lead.submissionId
    ensures LeadValues(leads + [lead], queue[i := |leads|]) == PutLead(LeadValues(leads, queue), lead)
  {
    var after := queue[i := |leads|];
    assert LeadValues(leads, queue)[1..] == LeadValues(leads, queue[1..]);
    if i == 0 {
      SameLeadValues(leads, [lead], queue[1..]);
      assert after[1..] == queue[1..];
    } else {
      ReplaceLeadAt(leads, queue[1..], lead, i - 1);
      assert after[1..] == queue[1..][i - 1 := |leads|];
    }
  }

  lemma {:induction false} AppendLead(leads: seq<Lead>, queue: seq<nat>, lead: Lead)
    requires Refers(queue, |leads|) && forall j :: 0 <= j < |queue| ==> leads[queue[j]].submissionId != lead.submissionId
    ensures LeadValues(leads + [lead], queue + [|leads|]) == PutLead(LeadValues(leads, queue), lead)
  {
    if queue != [] {
      AppendLead(leads, queue[1..], lead);
      assert (queue + [|leads|])[1..] == queue[1..] + [|leads|];
      assert LeadValues(leads, queue)[1..] == LeadValues(leads, queue[1..]);
    }
  }

  lemma PutLeadAt(leads: seq<Lead>, queue: seq<nat>, lead: Lead)
    requires Refers(queue, |leads|)
    ensures var at := FindLead(leads, queue, lead.submissionId);
            var after := if at.Some? then queue[at.value := |leads|] else queue + [|leads|];
            Refers(after, |leads + [lead]|) && LeadValues(leads + [lead], after) == PutLead(LeadValues(leads, queue), lead)
  {
    var at := FindLead(leads, queue, lead.submissionId);
    if at.Some? {
      ReplaceLeadAt(leads, queue, lead, at.value);
    } else {
      assert forall j :: 0 <= j < |queue| ==> queue[j] in queue;
      AppendLead(leads, queue, lead);
    }
  }

  // ---------------------------------------------------------------- removing

  /** Removing a lead removes it and its request, and leaves every other entry and the order alone. */
  lemma RemoveLeadOnValues(p: Page, id: Id)
    requires InBounds(p)
    ensures var after := RemoveLead(p, id);
            && InBounds(after)
            && Save(after) == Save(p).(outbox := WithoutLead(Save(p).outbox, id),
                                       reservationOutbox := WithoutRequestsOf(Save(p).reservationOutbox, id))
  {
    var after := RemoveLead(p, id);
    SavedValues(p);
    FilterLeadValues(p.leads, p.outbox, id);
    FilterRequestValues(p.requests, p.reservationOutbox, (r: nat) => !IsRequestOf(p.requests, r, id),
                        (q: Request) => q.leadSubmissionId != id);
    SavedValues(after);
  }

  lemma RemoveReservationOnValues(p: Page, id: Id)
    requires InBounds(p)
    ensures var after := RemoveReservation(p, id);
            && InBounds(after)
            && Save(after) == Save(p).(reservationOutbox := WithoutRequest(Save(p).reservationOutbox, id))
  {
    var after := RemoveReservation(p, id);
    SavedValues(p);
    FilterRequestValues(p.requests, p.reservationOutbox, (r: nat) => !IsRequest(p.requests, r, id),
                        (q: Request) => q.submissionId != id);
    SavedValues(after);
  }

  // ---------------------------------------------------------------- saving a lead form

  lemma QueueLeadOnValues(p: Page, id: Id, contact: Contact)
    requires InBounds(p)
    ensures var after := QueueLead(p, id, contact);
            && InBounds(after)
            && Save(after) == Save(p).(outbox := PutLead(Save(p).outbox, Lead(id, contact, Waiting, 0)))
  {
    var after := QueueLead(p, id, contact);
    SavedValues(p);
    PutLeadAt(p.leads, p.outbox, Lead(id, contact, Waiting, 0));
    SavedValues(after);
  }

  lemma RestIsDistinct(queue: seq<nat>)
    requires Distinct(queue) && queue != []
    ensures Distinct(queue[1..])
  {
  }

  lemma {:induction false} UpdateRequestAt(requests: seq<Request>, queue: seq<nat>, updated: seq<Request>, i: nat, leadId: Id,
                                           choice: Choice, freshId: Id)
    requires Refers(queue, |requests|) && Distinct(queue) && i < |queue|
    requires requests[queue[i]].leadSubmissionId == leadId
    requires forall j :: 0 <= j < i ==> requests[queue[j]].leadSubmissionId != leadId
    requires updated == requests[queue[i] := requests[queue[i]].(choice := choice, status := WaitingForLead)]
    ensures RequestValues(updated, queue) == PutRequest(RequestValues(requests, queue), leadId, choice, freshId)
  {
    assert RequestValues(requests, queue)[1..] == RequestValues(requests, queue[1..]);
    assert forall j :: 0 < j < |queue| ==> queue[j] != queue[0];
    hide Distinct;
    if i == 0 {
      SameRequestValues(requests, updated, queue[1..]);
    } else {
      assert Distinct(queue[1..]) by {
        RestIsDistinct(queue);
      }
      UpdateRequestAt(requests, queue[1..], updated, i - 1, leadId, choice, freshId);
    }
  }

  lemma {:induction false} SameRequestValues(requests: seq<Request>, updated: seq<Request>, queue: seq<nat>)
    requires |updated| >= |requests|
    requires forall i :: 0 <= i < |queue| ==> queue[i] < |requests| && updated[queue[i]] == requests[queue[i]]
    ensures RequestValues(updated, queue) == RequestValues(requests, queue)
  {
    if queue != [] {
      SameRequestValues(requests, updated, queue[1..]);
    }
  }

  lemma {:induction false} NoneToUpdate(values: seq<Request>, leadId: Id, choice: Choice, freshId: Id)
    requires forall q :: q in values ==> q.leadSubmissionId != leadId
    ensures PutRequest(values, leadId, choice, freshId) == values + [Request(freshId, leadId, choice, WaitingForLead, 0, None)]
  {
    if values != [] {
      NoneToUpdate(values[1..], leadId, choice, freshId);
    }
  }

  lemma UpdateRequestOnValues(p: Page, leadId: Id, c: Choice)
    requires InBounds(p) && Distinct(p.reservationOutbox)
    requires FindRequestOf(p.requests, p.reservationOutbox, leadId).Some?
    ensures var after := QueueReservation(p, leadId, Some(c));
            && InBounds(after)
            && Save(after) == Save(p).(reservationOutbox := PutRequest(Save(p).reservationOutbox, leadId, c, p.nextId))
  {
    var i := FindRequestOf(p.requests, p.reservationOutbox, leadId).value;
    var after := QueueReservation(p, leadId, Some(c));
    SavedValues(p);
    UpdateRequestAt(p.requests, p.reservationOutbox, after.requests, i, leadId, c, p.nextId);
    SavedValues(after);
  }

  lemma AppendRequestOnValues(p: Page, leadId: Id, c: Choice)
    requires InBounds(p) && FindRequestOf(p.requests, p.reservationOutbox, leadId).None?
    ensures var after := QueueReservation(p, leadId, Some(c));
            && InBounds(after)
            && Save(after) == Save(p).(reservationOutbox := PutRequest(Save(p).reservationOutbox, leadId, c, p.nextId))
  {
    var after := QueueReservation(p, leadId, Some(c));
    var values := Save(p).reservationOutbox;
    forall q | q in values
      ensures q.leadSubmissionId != leadId
    {
      var i :| 0 <= i < |values| && values[i] == q;
      assert p.reservationOutbox[i] in p.reservationOutbox;
    }
    NoneToUpdate(values, leadId, c, p.nextId);
    SavedValues(p);
    var added := Request(p.nextId, leadId, c, WaitingForLead, 0, None);
    forall i | 0 <= i < |p.reservationOutbox|
      ensures after.requests[p.reservationOutbox[i]] == values[i]
    {
      assert p.reservationOutbox[i] in p.reservationOutbox;
    }
    assert Save(after).reservationOutbox == values + [added];
    assert Save(after).outbox == Save(p).outbox;
  }

  lemma QueueRequestOnValues(p: Page, leadId: Id, c: Choice)
    requires InBounds(p) && Distinct(p.reservationOutbox)
    ensures var after := QueueReservation(p, leadId, Some(c));
            && InBounds(after)
            && Save(after) == Save(p).(reservationOutbox := PutRequest(Save(p).reservationOutbox, leadId, c, p.nextId))
  {
    if FindRequestOf(p.requests, p.reservationOutbox, leadId).Some? {
      UpdateRequestOnValues(p, leadId, c);
    } else {
      AppendRequestOnValues(p, leadId, c);
    }
  }

  ghost predicate OneRequestALead(p: Page)
    requires InBounds(p)
  {
    forall r, t | r in p.reservationOutbox && t in p.reservationOutbox && r != t ::
      && p.requests[r].submissionId != p.requests[t].submissionId
      && p.requests[r].leadSubmissionId != p.requests[t].leadSubmissionId
  }

  /** Without a reservation on the form, the lead's request leaves the queue. */
  lemma DropRequestOnValues(p: Page, leadId: Id)
    requires InBounds(p) && OneRequestALead(p)
    ensures var after := QueueReservation(p, leadId, None);
            && InBounds(after)
            && Save(after) == Save(p).(reservationOutbox := WithoutRequestsOf(Save(p).reservationOutbox, leadId))
  {
    var after := QueueReservation(p, leadId, None);
    var at := FindRequestOf(p.requests, p.reservationOutbox, leadId);
    SavedValues(p);
    if at.Some? {
      var r := p.reservationOutbox[at.value];
      assert r in p.reservationOutbox;
      var id := p.requests[r].submissionId;
      forall t | t in p.reservationOutbox
        ensures t < |p.requests| && !IsRequest(p.requests, t, id) == (p.requests[t].leadSubmissionId != leadId)
      {
        if t != r {
          assert p.requests[t].leadSubmissionId != p.requests[r].leadSubmissionId;
        }
      }
      FilterRequestValues(p.requests, p.reservationOutbox, (t: nat) => !IsRequest(p.requests, t, id),
                          (q: Request) => q.leadSubmissionId != leadId);
      SavedValues(after);
    } else {
      FilterRequestValues(p.requests, p.reservationOutbox, (t: nat) => !IsRequestOf(p.requests, t, leadId),
                          (q: Request) => q.leadSubmissionId != leadId);
      FilterAll(p.reservationOutbox, (t: nat) => !IsRequestOf(p.requests, t, leadId));
    }
  }

  lemma QueueLeadKeepsRequests(p: Page, id: Id, contact: Contact)
    requires InBounds(p)
    ensures var after := QueueLead(p, id, contact);
            after.requests == p.requests && after.reservationOutbox == p.reservationOutbox && after.nextId == p.nextId
  {
  }

  /** What a saved lead form does to the request list. */
  function RequestsAfterForm(values: seq<Request>, leadId: Id, f: LeadForm, freshId: Id): seq<Request> {
    match f.reservation
    case Some(c) => PutRequest(values, leadId, c.(intendedMoveIn := f.contact.expectedMoveIn), freshId)
    case None => WithoutRequestsOf(values, leadId)
  }

  lemma FormRequestOnValues(p: Page, leadId: Id, f: LeadForm)
    requires InBounds(p) && Distinct(p.reservationOutbox) && OneRequestALead(p)
    ensures var after := QueueReservation(p, leadId, FormChoice(f));
            && InBounds(after)
            && Save(after) == Save(p).(reservationOutbox := RequestsAfterForm(Save(p).reservationOutbox, leadId, f, p.nextId))
  {
    if f.reservation.Some? {
      QueueRequestOnValues(p, leadId, FormChoice(f).value);
    } else {
      DropRequestOnValues(p, leadId);
    }
  }

  /** Saving a lead form, as its effect on the two value lists. */
  lemma SaveLeadOnValues(p: Page, f: LeadForm)
    requires PageOk(p) && AcceptableLead(f)
    ensures var id := SavedId(p);
            var freshId := if p.editingSubmission.Some? then p.nextId else p.nextId + 1;
            && InBounds(SaveLead(p, f))
            && Save(SaveLead(p, f))
               == Save(p).(outbox := PutLead(Save(p).outbox, Lead(id, f.contact, Waiting, 0)),
                           reservationOutbox := RequestsAfterForm(Save(p).reservationOutbox, id, f, freshId))
  {
    assert InBounds(p) && Distinct(p.reservationOutbox) && OneRequestALead(p);
    hide PageOk, QueueLead, QueueReservation, FormChoice, AcceptableLead, PutLead, RequestsAfterForm, Distinct;
    var id := SavedId(p);
    var named := if p.editingSubmission.Some? then p else p.(nextId := p.nextId + 1);
    QueueLeadOnValues(named, id, f.contact);
    QueueLeadKeepsRequests(named, id, f.contact);
    FormRequestOnValues(QueueLead(named, id, f.contact), id, f);
  }

  lemma {:induction false} PutLeadAppends(values: seq<Lead>, lead: Lead)
    requires forall l :: l in values ==> l.submissionId != lead.submissionId
    ensures PutLead(values, lead) == values + [lead]
  {
    if values != [] {
      PutLeadAppends(values[1..], lead);
    }
  }

  lemma {:induction false} PutLeadReplaces(values: seq<Lead>, lead: Lead, i: nat)
    requires i < |values| && values[i].submissionId == lead.submissionId
    requires forall j :: 0 <= j < i ==> values[j].submissionId != lead.submissionId
    ensures PutLead(values, lead) == values[i := lead]
  {
    if i > 0 {
      PutLeadReplaces(values[1..], lead, i - 1);
    }
  }

  lemma {:induction false} PutRequestIs(values: seq<Request>, leadId: Id, choice: Choice, freshId: Id)
    ensures var after := PutRequest(values, leadId, choice, freshId);
            if forall q :: q in values ==> q.leadSubmissionId != leadId then
              after == values + [Request(freshId, leadId, choice, WaitingForLead, 0, None)]
            else
              exists i :: && 0 <= i < |values| && values[i].leadSubmissionId == leadId
                          && after == values[i := values[i].(choice := choice, status := WaitingForLead)]
  {
    if values != [] && values[0].leadSubmissionId != leadId {
      var rest := values[1..];
      PutRequestIs(rest, leadId, choice, freshId);
      if q :| q in rest && q.leadSubmissionId == leadId {
        var i :| && 0 <= i < |rest| && rest[i].leadSubmissionId == leadId
                 && PutRequest(rest, leadId, choice, freshId) == rest[i := rest[i].(choice := choice, status := WaitingForLead)];
        assert values[i + 1] == rest[i];
        assert [values[0]] + rest[i := rest[i].(choice := choice, status := WaitingForLead)]
            == values[i + 1 := values[i + 1].(choice := choice, status := WaitingForLead)];
      }
    }
  }

  lemma IdsAreOld(p: Page)
    requires PageOk(p)
    ensures InBounds(p) && (forall l :: l in Save(p).outbox ==> l.submissionId < p.nextId)
    ensures forall q :: q in Save(p).reservationOutbox ==> q.leadSubmissionId < p.nextId && q.submissionId < p.nextId
  {
    var s := Save(p);
    forall l | l in s.outbox
      ensures l.submissionId < p.nextId
    {
      var i :| 0 <= i < |s.outbox| && s.outbox[i] == l;
      assert p.outbox[i] in p.outbox && p.leads[p.outbox[i]] in p.leads;
    }
    forall q | q in s.reservationOutbox
      ensures q.leadSubmissionId < p.nextId && q.submissionId < p.nextId
    {
      var i :| 0 <= i < |s.reservationOutbox| && s.reservationOutbox[i] == q;
      assert p.reservationOutbox[i] in p.reservationOutbox && p.requests[p.reservationOutbox[i]] in p.requests;
    }
  }

  lemma FinishingIsOk(p: Page)
    requires PageOk(p)
    ensures PageOk(FinishLeadForm(p)) && FinishLeadForm(p).editingSubmission.None?
    ensures FinishLeadForm(p).nextId == p.nextId && Save(FinishLeadForm(p)) == Save(p)
  {
    var p' := FinishLeadForm(p);
    assert IdsOk(p') && QueuesOk(p') && PassOk(p');
  }

  /**
   Once a form has been stored and reset, the next one is a new lead: it goes last under an id never used before, with a
   request of its own if it asks for a unit, and nothing that was queued changes.
   */
  lemma NextFormIsNewLead(p: Page, f: LeadForm)
    requires PageOk(p) && AcceptableLead(f)
    ensures var after, id := SaveLead(FinishLeadForm(p), f), p.nextId;
            && InBounds(p) && InBounds(after) && !LeadQueued(p, id) && after.nextId > id
            && Save(after).outbox == Save(p).outbox + [Lead(id, f.contact, Waiting, 0)]
            && Save(after).reservationOutbox
               == Save(p).reservationOutbox
                  + (if f.reservation.None? then []
                     else [Request(id + 1, id, f.reservation.value.(intendedMoveIn := f.contact.expectedMoveIn), WaitingForLead, 0, None)])
  {
    FinishingIsOk(p);
    IdsAreOld(p);
    NextIdIsUnused(p);
    SavingDrawsId(FinishLeadForm(p), f);
    hide PageOk, PutLead, RequestsAfterForm, SaveLead, AcceptableLead, FinishLeadForm, Save, InBounds, LeadQueued;
    SaveLeadOnValues(FinishLeadForm(p), f);
    PutLeadAppends(Save(p).outbox, Lead(p.nextId, f.contact, Waiting, 0));
    FirstRequestOf(Save(p).reservationOutbox, p.nextId, f);
  }

  lemma NextIdIsUnused(p: Page)
    requires PageOk(p)
    ensures !LeadQueued(p, p.nextId)
  {
    forall r | r in p.outbox && r < |p.leads|
      ensures p.leads[r].submissionId != p.nextId
    {
      assert p.leads[r] in p.leads;
    }
  }

  lemma FirstRequestOf(values: seq<Request>, id: Id, f: LeadForm)
    requires forall q :: q in values ==> q.leadSubmissionId != id
    ensures RequestsAfterForm(values, id, f, id + 1)
         == values + (if f.reservation.None? then []
                      else [Request(id + 1, id, f.reservation.value.(intendedMoveIn := f.contact.expectedMoveIn), WaitingForLead, 0, None)])
  {
    match f.reservation
    case None => FilterAll(values, (q: Request) => q.leadSubmissionId != id);
    case Some(c) => NoneToUpdate(values, id, c.(intendedMoveIn := f.contact.expectedMoveIn), id + 1);
  }

  lemma SavingDrawsId(p: Page, f: LeadForm)
    requires p.editingSubmission.None? && AcceptableLead(f)
    ensures SaveLead(p, f).nextId > p.nextId
  {
    hide RequestsExcept, AcceptableLead;
  }

  lemma EditingIs(p: Page, id: Id)
    requires PageOk(p) && LeadQueued(p, id)
    ensures PageOk(EditLead(p, id)) && Save(EditLead(p, id)) == Save(p) && EditLead(p, id).editingSubmission == Some(id)
  {
    var at := FindLead(p.leads, p.outbox, id);
    var r :| r in p.outbox && IsLead(p.leads, r, id);
    assert p.leads[r] in p.leads;
    var p' := EditLead(p, id);
    assert IdsOk(p') && QueuesOk(p') && PassOk(p');
  }

  /** A form opened for a queued lead takes that lead's place, id and all; every other lead stays where it is. */
  lemma EditedFormReplaces(p: Page, id: Id, f: LeadForm)
    requires PageOk(p) && AcceptableLead(f) && LeadQueued(p, id)
    ensures var after := SaveLead(EditLead(p, id), f);
            && InBounds(p) && InBounds(after)
            && exists i :: && 0 <= i < |Save(p).outbox| && Save(p).outbox[i].submissionId == id
                           && Save(after).outbox == Save(p).outbox[i := Lead(id, f.contact, Waiting, 0)]
  {
    EditingIs(p, id);
    var values, at := Save(p).outbox, FindLead(p.leads, p.outbox, id);
    FirstOfThatId(p, id);
    hide PageOk, PutLead, RequestsAfterForm, SaveLead, AcceptableLead, EditLead, LeadQueued, Save;
    SaveLeadOnValues(EditLead(p, id), f);
    PutLeadReplaces(values, Lead(id, f.contact, Waiting, 0), at.value);
  }

  lemma FirstOfThatId(p: Page, id: Id)
    requires InBounds(p) && LeadQueued(p, id)
    ensures var at, values := FindLead(p.leads, p.outbox, id), Save(p).outbox;
            && at.Some? && at.value < |values| && values[at.value].submissionId == id
            && forall j :: 0 <= j < at.value ==> values[j].submissionId != id
  {
    var r :| r in p.outbox && IsLead(p.leads, r, id);
    var values := Save(p).outbox;
    assert forall j :: 0 <= j < |values| ==> p.outbox[j] in p.outbox && values[j] == p.leads[p.outbox[j]];
  }

  /** Saved again, a lead's request keeps who it is, its link and its attempts, and waits for the lead with the new choice. */
  lemma FormKeepsRequest(p: Page, f: LeadForm)
    requires PageOk(p) && AcceptableLead(f) && f.reservation.Some?
    ensures InBounds(SaveLead(p, f))
    ensures var id, before, after := SavedId(p), Save(p).reservationOutbox, Save(SaveLead(p, f)).reservationOutbox;
            ((exists q :: q in before && q.leadSubmissionId == id) ==>
                  exists i :: && 0 <= i < |before| && before[i].leadSubmissionId == id
                              && after == before[i := Request(before[i].submissionId, id,
                                                              f.reservation.value.(intendedMoveIn := f.contact.expectedMoveIn),
                                                              WaitingForLead, before[i].attempts, before[i].link)])
  {
    SaveLeadOnValues(p, f);
    var freshId := if p.editingSubmission.Some? then p.nextId else p.nextId + 1;
    PutRequestIs(Save(p).reservationOutbox, SavedId(p), f.reservation.value.(intendedMoveIn := f.contact.expectedMoveIn), freshId);
  }

  // ---------------------------------------------------------------- editing a request, acknowledging a lead

  /** An edited request changes its unit, rate and move-in date only, and waits again; no other entry changes. */
  lemma SaveReservationOnValues(p: Page, c: Choice)
    requires PageOk(p) && p.editingReservation.Some? && AcceptableChoice(c)
    ensures InBounds(SaveReservation(p, c))
    ensures Save(SaveReservation(p, c))
         == Save(p).(reservationOutbox := ChooseIn(Save(p).reservationOutbox, p.editingReservation.value, c))
  {
    var id, after := p.editingReservation.value, SaveReservation(p, c);
    var before, values := Save(p).reservationOutbox, Save(after).reservationOutbox;
    var at := FindRequest(p.requests, p.reservationOutbox, id);
    forall i | 0 <= i < |before|
      ensures values[i] == ChooseIn(before, id, c)[i]
    {
      assert p.reservationOutbox[i] in p.reservationOutbox;
      if at.Some? && p.reservationOutbox[i] != p.reservationOutbox[at.value] {
        assert p.reservationOutbox[at.value] in p.reservationOutbox;
        assert p.requests[p.reservationOutbox[i]].submissionId != p.requests[p.reservationOutbox[at.value]].submissionId;
      }
    }
  }

  /** The entry edited keeps who it is, how it pays, its link and its attempts; nothing acceptable to save, nothing changes. */
  lemma EditedRequestIs(p: Page, c: Choice)
    requires PageOk(p)
    ensures var before, p' := Save(p).reservationOutbox, SaveReservation(p, c);
            && InBounds(p')
            && (c.unitId == "" || c.quotedRate.None? || c.quotedRate.value <= 0.0 || p.editingReservation.None? ==> p' == p)
            && (p' != p ==> p'.editingReservation.None? && Save(p').outbox == Save(p).outbox
                            && exists i :: && 0 <= i < |before| && Some(before[i].submissionId) == p.editingReservation
                                           && Save(p').reservationOutbox
                                              == before[i := Request(before[i].submissionId, before[i].leadSubmissionId,
                                                                     Choice(c.unitId, c.quotedRate, before[i].choice.paymentMethod, c.intendedMoveIn),
                                                                     Waiting, before[i].attempts, before[i].link)])
  {
    var p' := SaveReservation(p, c);
    if p' != p {
      SaveReservationOnValues(p, c);
      var before, id := Save(p).reservationOutbox, p.editingReservation.value;
      var at := FindRequest(p.requests, p.reservationOutbox, id);
      assert p.reservationOutbox[at.value] in p.reservationOutbox;
      var edited := Request(id, before[at.value].leadSubmissionId,
                            Choice(c.unitId, c.quotedRate, before[at.value].choice.paymentMethod, c.intendedMoveIn),
                            Waiting, before[at.value].attempts, before[at.value].link);
      OneEntryChosen(before, id, c, at.value, edited) by {
        forall i | 0 <= i < |before| && i != at.value
          ensures before[i].submissionId != id
        {
          assert p.reservationOutbox[i] in p.reservationOutbox && p.reservationOutbox[i] != p.reservationOutbox[at.value];
        }
      }
    }
  }

  lemma OneEntryChosen(values: seq<Request>, id: Id, c: Choice, i: nat, edited: Request)
    requires i < |values| && values[i].submissionId == id && forall j :: 0 <= j < |values| && j != i ==> values[j].submissionId != id
    requires edited == Request(id, values[i].leadSubmissionId,
                               Choice(c.unitId, c.quotedRate, values[i].choice.paymentMethod, c.intendedMoveIn),
                               Waiting, values[i].attempts, values[i].link)
    ensures ChooseIn(values, id, c) == values[i := edited]
  {
  }

  lemma OpeningIs(p: Page, id: Id)
    requires PageOk(p) && RequestQueued(p, id)
    ensures var p' := EditReservation(p, id); PageOk(p') && p'.editingReservation == Some(id) && Save(p') == Save(p)
  {
    var p' := EditReservation(p, id);
    assert IdsOk(p') && QueuesOk(p') && PassOk(p');
  }

  /** Opened for a queued request and saved, the edit changes that request; cancelled, saving changes nothing. */
  lemma OpenedEditSaves(p: Page, id: Id, c: Choice)
    requires PageOk(p) && RequestQueued(p, id) && c.unitId != "" && c.quotedRate.Some? && c.quotedRate.value > 0.0
    ensures var edit, before := EditReservation(p, id), Save(p).reservationOutbox;
            && InBounds(SaveReservation(edit, c))
            && (exists i :: && 0 <= i < |before| && before[i].submissionId == id
                            && Save(SaveReservation(edit, c)).reservationOutbox
                               == before[i := Request(id, before[i].leadSubmissionId,
                                                      Choice(c.unitId, c.quotedRate, before[i].choice.paymentMethod, c.intendedMoveIn),
                                                      Waiting, before[i].attempts, before[i].link)])
            && SaveReservation(CancelReservationEdit(edit), c) == CancelReservationEdit(edit)
            && Save(CancelReservationEdit(edit)) == Save(p)
  {
    var edited := EditReservation(p, id);
    OpeningIs(p, id);
    EditTakes(edited, c);
    hide PageOk, EditReservation, SaveReservation, RequestQueued;
    EditedRequestIs(edited, c);
    CancelledEdit(edited, c);
  }

  lemma EditTakes(p: Page, c: Choice)
    requires InBounds(p) && p.editingReservation.Some? && RequestQueued(p, p.editingReservation.value) && AcceptableChoice(c)
    ensures SaveReservation(p, c) != p
  {
    var r :| r in p.reservationOutbox && IsRequest(p.requests, r, p.editingReservation.value);
    var at := FindRequest(p.requests, p.reservationOutbox, p.editingReservation.value);
    assert p.reservationOutbox[at.value] in p.reservationOutbox;
  }

  lemma CancelledEdit(p: Page, c: Choice)
    requires InBounds(p)
    ensures SaveReservation(CancelReservationEdit(p), c) == CancelReservationEdit(p) && Save(CancelReservationEdit(p)) == Save(p)
  {
  }

  /** A form is refused exactly when a name, the mobile number, the consent or part of the reservation asked for is missing. */
  lemma FormRefusedIff(p: Page, f: LeadForm)
    ensures SaveLead(p, f) == p
       <==> || f.contact.firstName == "" || f.contact.lastName == "" || |f.contact.phone| < 7 || !f.contact.consentToContact
            || (f.reservation.Some?
                && (f.reservation.value.unitId == "" || f.reservation.value.quotedRate.None?
                    || f.reservation.value.quotedRate.value <= 0.0 || f.reservation.value.paymentMethod == ""))
  {
    if AcceptableLead(f) {
      FormAddsObject(p, f);
    }
  }

  lemma FormAddsObject(p: Page, f: LeadForm)
    requires AcceptableLead(f)
    ensures |SaveLead(p, f).leads| == |p.leads| + 1
  {
    hide RequestsExcept, AcceptableLead, FindRequestOf;
  }

  /** An acknowledged lead leaves the queue, its request carries the server's ids, and it heads the receipts. */
  lemma AcknowledgeLeadOnValues(p: Page, id: Id, link: Link)
    requires InBounds(p)
    ensures var after := AcknowledgeLead(p, id, link);
            && InBounds(after)
            && Save(after) == Save(p).(outbox := WithoutLead(Save(p).outbox, id),
                                       reservationOutbox := LinkIn(Save(p).reservationOutbox, id, link),
                                       syncReceipts := NewestReceipts(p.syncReceipts, id))
  {
    var after := AcknowledgeLead(p, id, link);
    SavedValues(p);
    FilterLeadValues(p.leads, p.outbox, id);
    LinkedValues(p.requests, p.reservationOutbox, p.reservationOutbox, id, link);
    SavedValues(after);
  }

  lemma LinkedValues(requests: seq<Request>, queue: seq<nat>, all: seq<nat>, id: Id, link: Link)
    requires Refers(queue, |requests|) && forall i :: 0 <= i < |queue| ==> queue[i] in all
    ensures RequestValues(LinkRequests(requests, all, id, link), queue) == LinkIn(RequestValues(requests, queue), id, link)
  {
  }

  // ---------------------------------------------------------------- reload

  /** Round trip: unlocking a stored record and storing again gives the same record. */
  lemma ReloadOnValues(p: Page, record: Saved)
    ensures InBounds(Reload(p, record)) && Save(Reload(p, record)) == record
  {
  }

  /** Nothing of the page survives but the ids drawn and the messages sent: no pass, no form, no edit and no download. */
  lemma ReloadForgets(p: Page, q: Page, record: Saved)
    requires p.nextId == q.nextId && p.sent == q.sent
    ensures Reload(p, record) == Reload(q, record) && Reload(p, record).pass.Idle?
    ensures Reload(p, record).editingSubmission == Reload(p, record).editingReservation == None && Reload(p, record).download.None?
  {
  }
}
