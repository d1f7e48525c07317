/**
 When a request can be posted again without the user: exactly when some copy of it, on the page, in the stored
 record or in a write still to land, is not in conflict or has its lead still queued.
 */
module OutboxRearm {
  import opened Collections
  import opened OutboxPage
  import opened OutboxWorld
  import opened OutboxInvariant
  import opened OutboxTheorems
  import opened OutboxConflict

  /** What happens to a pass without the user: it begins, is answered, stores and goes on; the server handles posts. */
  predicate Unprompted(e: Event) {
    e.BeginsPass? || e.RepliesToLead? || e.RepliesToRequest? || e.ResumesPass? || e.Delivers?
  }

  /** A run without the user, at whose end `x` has been posted behind the first `from` messages. */
  ghost predicate Posts(s: State, es: seq<Event>, from: nat, x: Id) {
    (forall e :: e in es ==> Unprompted(e)) && PostsOf(Run(s, es).page.sent, from, x)
  }

  lemma FirstThen(s: State, e: Event, es: seq<Event>, from: nat, x: Id)
    requires Unprompted(e) && Posts(Step(s, e), es, from, x)
    ensures Posts(s, [e] + es, from, x)
  {
    var run := [e] + es;
    assert run[0] == e && run[1..] == es;
  }

  predicate Armed(p: Page, r: nat, x: Id) {
    r in p.reservationOutbox && IsEligible(p.requests, r) && IsRequest(p.requests, r, x)
  }

  // ---------------------------------------------------------------- the request loop

  lemma RefusedSteps(s: State)
    requires s.page.pass.PostingRequest? && s.page.pass.item < |s.page.requests|
    ensures var p := s.page;
            Step(Step(s, RepliesToRequest(RequestFailed)), ResumesPass).page
            == NextRequest(SetRequestStatus(p, p.pass.item, Failed), p.pass.rest)
  {
  }

  /** A refused request leaves the others to be posted. */
  lemma RefusedGoesOn(s: State)
    requires PageOk(s.page) && s.page.pass.PostingRequest?
    ensures var p := s.page;
            var p' := Step(Step(s, RepliesToRequest(RequestFailed)), ResumesPass).page;
            && p.pass.item < |p.requests| && PageOk(p')
            && p' == NextRequest(SetRequestStatus(p, p.pass.item, Failed), p.pass.rest)
  {
    var p := s.page;
    RestLinked(p.requests, p.pass.item, p.pass.rest);
    RefusedSteps(s);
    SetRequestStatusOk(p, p.pass.item, Failed);
    NextRequestOk(SetRequestStatus(p, p.pass.item, Failed), p.pass.rest);
  }

  /** In the request loop: fail every request before it. */
  lemma ReachedInRequestLoop(s: State, r: nat, x: Id) returns (es: seq<Event>)
    requires PageOk(s.page) && s.page.pass.PostingRequest? && r in s.page.pass.rest && IsRequest(s.page.requests, r, x)
    ensures Posts(s, es, |s.page.sent|, x)
    decreases |s.page.pass.rest|
  {
    var p := s.page;
    var e, s1 := RepliesToRequest(RequestFailed), Step(s, RepliesToRequest(RequestFailed));
    var s2 := Step(s1, ResumesPass);
    RefusedGoesOn(s);
    RestLinked(p.requests, p.pass.item, p.pass.rest);
    assert p.pass.rest[0] in p.pass.rest;
    var rest: seq<Event>;
    if p.pass.rest[0] == r {
      assert s2.page.sent[|p.sent|] == RequestPost(s2.page.requests[r]);
      rest := [];
    } else {
      rest := ReachedInRequestLoop(s2, r, x);
      LaterPost(Run(s2, rest).page.sent, |p.sent|, |s2.page.sent|, x);
    }
    FirstThen(s1, ResumesPass, rest, |p.sent|, x);
    FirstThen(s, e, [ResumesPass] + rest, |p.sent|, x);
    es := [e] + ([ResumesPass] + rest);
  }

  lemma LaterPost(end: seq<Message>, from: nat, later: nat, x: Id)
    requires from <= later && PostsOf(end, later, x)
    ensures PostsOf(end, from, x)
  {
  }

  /** At the start of the request loop. */
  lemma ReachedFromStart(s: State, p: Page, r: nat, x: Id) returns (es: seq<Event>)
    requires CoreOk(p) && Armed(p, r, x) && s.page == BeginRequests(p)
    ensures Posts(s, es, |p.sent|, x)
  {
    var todo := Eligible(p.requests, p.reservationOutbox);
    assert r in todo && todo[0] in todo;
    BeginRequestsOk(p);
    if todo[0] == r {
      assert s.page.sent[|p.sent|] == RequestPost(s.page.requests[r]);
      es := [];
    } else {
      assert r in todo[1..];
      es := ReachedInRequestLoop(s, r, x);
      LaterPost(Run(s, es).page.sent, |p.sent|, |s.page.sent|, x);
    }
  }

  // ---------------------------------------------------------------- the lead loop

  /** A failed lead leaves the others to be posted. */
  lemma FailedGoesOn(s: State, p: Page, todo: seq<nat>) returns (p': Page)
    requires CoreOk(p) && todo != [] && (forall t :: t in todo ==> t < |p.leads|) && s.page == NextLead(p, todo)
    ensures CoreOk(p') && (forall t :: t in todo[1..] ==> t < |p'.leads|)
    ensures Step(Step(s, RepliesToLead(LeadFailed)), ResumesPass).page == NextLead(p', todo[1..])
    ensures p'.requests == p.requests && p'.reservationOutbox == p.reservationOutbox && LeadsEvolve(p.leads, p'.leads)
    ensures |p.sent| <= |p'.sent|
  {
    assert todo[0] in todo;
    hide CoreOk, NextRequest, AcknowledgeLead, Eligible;
    NextLeadOk(p, todo);
    LeadRepliedOk(s.page, LeadFailed);
    p' := LeadReplied(s.page, LeadFailed);
  }

  /** With the request armed: fail every remaining lead. */
  lemma ReachedFromLeads(s: State, p: Page, todo: seq<nat>, r: nat, x: Id) returns (es: seq<Event>)
    requires CoreOk(p) && Armed(p, r, x) && (forall t :: t in todo ==> t < |p.leads|) && s.page == NextLead(p, todo)
    ensures Posts(s, es, |p.sent|, x)
    decreases |todo|
  {
    if todo == [] {
      es := ReachedFromStart(s, p, r, x);
    } else {
      var p' := FailedGoesOn(s, p, todo);
      var s1 := Step(s, RepliesToLead(LeadFailed));
      var rest := ReachedFromLeads(Step(s1, ResumesPass), p', todo[1..], r, x);
      FirstThen(s1, ResumesPass, rest, |p'.sent|, x);
      FirstThen(s, RepliesToLead(LeadFailed), [ResumesPass] + rest, |p'.sent|, x);
      es := [RepliesToLead(LeadFailed)] + ([ResumesPass] + rest);
      LaterPost(Run(s, es).page.sent, |p.sent|, |p'.sent|, x);
    }
  }

  lemma {:induction false} UnusedLeadId(log: seq<Record>) returns (id: nat)
    ensures forall k :: 0 <= k < |log| && log[k].LeadRecord? ==> log[k].link.leadId < id
  {
    if log == [] {
      id := 0;
    } else {
      id := UnusedLeadId(log[..|log| - 1]);
      var last := log[|log| - 1];
      if last.LeadRecord? && last.link.leadId >= id {
        id := last.link.leadId + 1;
      }
    }
  }

  /** The server holds the lead just posted, or comes to hold it. */
  lemma Answerable(s: State, p: Page, todo: seq<nat>) returns (es: seq<Event>, link: Link)
    requires CoreOk(p) && todo != [] && todo[0] < |p.leads| && s.page == NextLead(p, todo)
    ensures es == [] || (|es| == 1 && es[0].Delivers?)
    ensures Run(s, es).page == s.page && LeadRecord(p.leads[todo[0]].submissionId, link) in Run(s, es).log
  {
    var id := p.leads[todo[0]].submissionId;
    if k :| 0 <= k < |s.log| && s.log[k].LeadRecord? && s.log[k].submissionId == id {
      es, link := [], s.log[k].link;
    } else {
      var leadId := UnusedLeadId(s.log);
      link := Link(leadId, 0);
      var e := Delivers(|p.sent|, link, true);
      es := [e];
      assert s.page.sent[|p.sent|] == LeadPost(s.page.leads[todo[0]]);
      assert Step(s, e).log == s.log + [LeadRecord(id, link)];
      assert Step(s, e).log[|s.log|] == LeadRecord(id, link);
      assert Run(s, es) == Run(Step(s, e), []);
    }
  }

  lemma AcknowledgingArms(p: Page, r: nat, x: Id, link: Link)
    requires CoreOk(p) && r in p.reservationOutbox && IsRequest(p.requests, r, x)
    ensures var p' := AcknowledgeLead(p, p.requests[r].leadSubmissionId, link);
            CoreOk(p') && Armed(p', r, x) && p'.leads == p.leads && p'.sent == p.sent
  {
    AcknowledgingLeadOk(p, p.requests[r].leadSubmissionId, link);
  }

  lemma AcceptedSteps(s: State, link: Link)
    requires s.page.pass.PostingLead? && s.page.pass.item < |s.page.leads|
    requires LeadRecord(s.page.leads[s.page.pass.item].submissionId, link) in s.log
    ensures var armed := LeadReplied(s.page, LeadAccepted(link));
            && armed == AcknowledgeLead(s.page, s.page.leads[s.page.pass.item].submissionId, link)
                        .(pass := StoringLead(s.page.pass.rest))
            && Step(Step(s, RepliesToLead(LeadAccepted(link))), ResumesPass).page == NextLead(armed, s.page.pass.rest)
  {
  }

  lemma AcknowledgedGoesOn(s: State, p: Page, todo: seq<nat>, r: nat, x: Id, link: Link) returns (armed: Page)
    requires CoreOk(p) && r in p.reservationOutbox && IsRequest(p.requests, r, x)
    requires todo != [] && (forall t :: t in todo ==> t < |p.leads|) && s.page == NextLead(p, todo)
    requires todo[0] in todo && p.leads[todo[0]].submissionId == p.requests[r].leadSubmissionId
    requires LeadRecord(p.requests[r].leadSubmissionId, link) in s.log
    ensures CoreOk(armed) && Armed(armed, r, x) && (forall t :: t in todo[1..] ==> t < |armed.leads|)
    ensures Step(Step(s, RepliesToLead(LeadAccepted(link))), ResumesPass).page == NextLead(armed, todo[1..])
    ensures |p.sent| <= |armed.sent|
  {
    NextLeadOk(p, todo);
    AcknowledgingArms(s.page, r, x, link);
    AcceptedSteps(s, link);
    armed := LeadReplied(s.page, LeadAccepted(link));
    LeadRepliedOk(s.page, LeadAccepted(link));
  }

  /** The request's own lead has been posted: it is acknowledged, and the request armed. */
  lemma ReachedOnItsLead(s: State, p: Page, todo: seq<nat>, r: nat, x: Id) returns (es: seq<Event>)
    requires CoreOk(p) && r in p.reservationOutbox && IsRequest(p.requests, r, x)
    requires todo != [] && (forall t :: t in todo ==> t < |p.leads|) && s.page == NextLead(p, todo)
    requires todo[0] in todo && p.leads[todo[0]].submissionId == p.requests[r].leadSubmissionId
    ensures Posts(s, es, |p.sent|, x)
  {
    var served, link := Answerable(s, p, todo);
    var s1 := Run(s, served);
    var e := RepliesToLead(LeadAccepted(link));
    var armed := AcknowledgedGoesOn(s1, p, todo, r, x, link);
    var s2 := Step(s1, e);
    var rest := ReachedFromLeads(Step(s2, ResumesPass), armed, todo[1..], r, x);
    FirstThen(s2, ResumesPass, rest, |armed.sent|, x);
    FirstThen(s1, e, [ResumesPass] + rest, |armed.sent|, x);
    es := [e] + ([ResumesPass] + rest);
    if served != [] {
      assert Run(s, served) == Run(Step(s, served[0]), []);
      FirstThen(s, served[0], es, |armed.sent|, x);
      es := [served[0]] + es;
    }
    LaterPost(Run(s, es).page.sent, |p.sent|, |armed.sent|, x);
  }

  /** Before the request's own lead: fail the others. */
  lemma ReachedBeforeItsLead(s: State, p: Page, todo: seq<nat>, r: nat, x: Id) returns (es: seq<Event>)
    requires CoreOk(p) && r in p.reservationOutbox && IsRequest(p.requests, r, x)
    requires (forall t :: t in todo ==> t < |p.leads|) && s.page == NextLead(p, todo)
    requires exists t :: t in todo && IsLead(p.leads, t, p.requests[r].leadSubmissionId)
    ensures Posts(s, es, |p.sent|, x)
    decreases |todo|
  {
    assert todo[0] in todo;
    var lead := p.requests[r].leadSubmissionId;
    if p.leads[todo[0]].submissionId == lead {
      es := ReachedOnItsLead(s, p, todo, r, x);
    } else {
      var t :| t in todo && IsLead(p.leads, t, lead);
      var p' := FailedGoesOn(s, p, todo);
      assert t in todo[1..] && IsLead(p'.leads, t, lead);
      var s1 := Step(s, RepliesToLead(LeadFailed));
      var rest := ReachedBeforeItsLead(Step(s1, ResumesPass), p', todo[1..], r, x);
      FirstThen(s1, ResumesPass, rest, |p'.sent|, x);
      FirstThen(s, RepliesToLead(LeadFailed), [ResumesPass] + rest, |p'.sent|, x);
      es := [RepliesToLead(LeadFailed)] + ([ResumesPass] + rest);
      LaterPost(Run(s, es).page.sent, |p.sent|, |p'.sent|, x);
    }
  }

  /** Between passes, a queued request that is not in conflict, or whose lead is queued, can be posted. */
  lemma Reached(s: State, r: nat, x: Id) returns (es: seq<Event>)
    requires PageOk(s.page) && NoOrphans(s.page) && s.page.pass.Idle? && r in s.page.reservationOutbox && IsRequest(s.page.requests, r, x)
    requires !s.page.requests[r].status.Conflict? || LeadQueued(s.page, s.page.requests[r].leadSubmissionId)
    ensures Posts(s, es, |s.page.sent|, x)
  {
    var p := s.page;
    var s1 := Step(s, BeginsPass);
    var rest: seq<Event>;
    assert LinkedOrWaiting(p, r);
    assert s1.page == NextLead(p, p.outbox);
    if IsEligible(p.requests, r) {
      rest := ReachedFromLeads(s1, p, p.outbox, r, x);
    } else {
      rest := ReachedBeforeItsLead(s1, p, p.outbox, r, x);
    }
    FirstThen(s, BeginsPass, rest, |p.sent|, x);
    es := [BeginsPass] + rest;
  }

  /** A request whose reservation the user has edited, in conflict before or not, is posted by a pass to come. */
  lemma EditIsPosted(s: State, c: Choice, x: Id) returns (es: seq<Event>)
    requires PageOk(s.page) && NoOrphans(s.page) && s.page.pass.Idle?
    requires s.page.editingReservation == Some(x) && RequestQueued(s.page, x) && AcceptableChoice(c)
    ensures Posts(Step(s, SavesReservation(c)), es, |s.page.sent|, x)
  {
    var p, p' := s.page, SaveReservation(s.page, c);
    SavesReservationOk(p, c);
    SavingReservationOrphansNothing(p, c);
    var t :| t in p.reservationOutbox && IsRequest(p.requests, t, x);
    var r := p.reservationOutbox[FindRequest(p.requests, p.reservationOutbox, x).value];
    assert r in p.reservationOutbox;
    EditSteps(s, c);
    hide SaveReservation, PageOk, NoOrphans, Step, Posts;
    es := Reached(Step(s, SavesReservation(c)), r, x);
  }

  lemma EditSteps(s: State, c: Choice)
    ensures var p' := Step(s, SavesReservation(c)).page;
            p' == SaveReservation(s.page, c) && p'.pass == s.page.pass && p'.sent == s.page.sent
  {
  }

  // ---------------------------------------------------------------- exactness of the hold

  /** A run, reloads included, in which the user does not re-arm `x` and no download or former snapshot revives it. */
  ghost predicate Unattended(s: State, es: seq<Event>, x: Id) {
    !RearmedIn(s, es, x) && !RevivedIn(s, es, x)
  }

  lemma {:induction false} UnpromptedIsUnattended(s: State, es: seq<Event>, x: Id)
    requires forall e :: e in es ==> Unprompted(e) || e.Reloads? || e.Lands?
    ensures Unattended(s, es, x)
    decreases |es|
  {
    if es != [] {
      assert es[0] in es && forall e :: e in es[1..] ==> e in es;
      UnpromptedIsUnattended(Step(s, es[0]), es[1..], x);
    }
  }

  ghost predicate PostedIn(s: State, es: seq<Event>, x: Id) {
    PostsOf(Run(s, es).page.sent, |s.page.sent|, x)
  }

  lemma UnquietPageIsPosted(s: State, x: Id) returns (es: seq<Event>)
    requires PageOk(s.page) && NoOrphans(s.page) && s.page.pass.Idle? && x < s.page.nextId && !Quiet(s.page, x)
    ensures Unattended(s, es, x) && PostedIn(s, es, x)
  {
    var r: nat :| IsRequest(s.page.requests, r, x) && r in s.page.reservationOutbox && !Held(s.page, r);
    es := Reached(s, r, x);
    UnpromptedIsUnattended(s, es, x);
  }

  lemma UnquietRecordReloads(p: Page, saved: Saved, x: Id)
    requires SavedOk(saved, p.nextId) && !SavedQuiet(saved, x)
    ensures !Quiet(Reload(p, saved), x)
  {
    var p' := Reload(p, saved);
    var q :| q in saved.reservationOutbox && q.submissionId == x
             && !(q.status.Conflict? && forall l :: l in saved.outbox ==> l.submissionId != q.leadSubmissionId);
    var r :| 0 <= r < |saved.reservationOutbox| && saved.reservationOutbox[r] == q;
    assert p'.reservationOutbox[r] == r && r in p'.reservationOutbox && IsRequest(p'.requests, r, x);
    if q.status.Conflict? {
      var l :| l in saved.outbox && l.submissionId == q.leadSubmissionId;
      var t :| 0 <= t < |saved.outbox| && saved.outbox[t] == l;
      assert p'.outbox[t] == t && t in p'.outbox && IsLead(p'.leads, t, q.leadSubmissionId);
    }
  }

  lemma PrefixedRun(s: State, e: Event, es: seq<Event>, x: Id)
    requires (e.Reloads? || e.Lands?) && Step(s, e).page.sent == s.page.sent
    requires Unattended(Step(s, e), es, x) && PostedIn(Step(s, e), es, x)
    ensures Unattended(s, [e] + es, x) && PostedIn(s, [e] + es, x)
  {
    var run := [e] + es;
    assert run[0] == e && run[1..] == es;
  }

  lemma UnquietDiskIsPosted(s: State, x: Id) returns (es: seq<Event>)
    requires Inv(s) && x < s.page.nextId && !SavedQuiet(s.disk, x)
    ensures Unattended(s, es, x) && PostedIn(s, es, x)
  {
    UnquietRecordReloads(s.page, s.disk, x);
    OrderlyIff(s, Reloads);
    var rest := UnquietPageIsPosted(Step(s, Reloads), x);
    PrefixedRun(s, Reloads, rest, x);
    es := [Reloads] + rest;
  }

  lemma UnquietWriteIsPosted(s: State, w: Saved, x: Id) returns (es: seq<Event>)
    requires Inv(s) && x < s.page.nextId && w in s.writes && !SavedQuiet(w, x)
    ensures Unattended(s, es, x) && PostedIn(s, es, x)
  {
    var k :| 0 <= k < |s.writes| && s.writes[k] == w;
    OrderlyIff(s, Lands(k));
    var rest := UnquietDiskIsPosted(Step(s, Lands(k)), x);
    PrefixedRun(s, Lands(k), rest, x);
    es := [Lands(k)] + rest;
  }

  lemma UnquietIsPosted(s: State, x: Id) returns (es: seq<Event>)
    requires Inv(s) && s.page.pass.Idle? && x < s.page.nextId && !QuietEverywhere(s, x)
    ensures Unattended(s, es, x) && PostedIn(s, es, x)
  {
    if !Quiet(s.page, x) {
      es := UnquietPageIsPosted(s, x);
    } else if !SavedQuiet(s.disk, x) {
      es := UnquietDiskIsPosted(s, x);
    } else {
      var w :| w in s.writes && !SavedQuiet(w, x);
      es := UnquietWriteIsPosted(s, w, x);
    }
  }

  /**
   Exactness of the conflict hold. Between passes, no unattended run posts `x`, reloads and writes landing in any
   order included, if and only if wherever a request `x` is queued, on the page, in the
   stored record and in every write still to land, it is in conflict and its lead is not queued beside it.
   */
  lemma ConflictHoldsIff(s: State, x: Id)
    requires Inv(s) && s.page.pass.Idle? && x < s.page.nextId
    ensures (forall es :: Unattended(s, es, x) ==> !PostedIn(s, es, x)) <==> QuietEverywhere(s, x)
  {
    if QuietEverywhere(s, x) {
      forall es | Unattended(s, es, x)
        ensures !PostedIn(s, es, x)
      {
        ConflictHold(s, es, x);
      }
    } else {
      var es := UnquietIsPosted(s, x);
    }
  }
}
