/** What storing, downloading and reloading come to when they follow one another, and what the server makes of a message. */
module OutboxWrites {
  import opened Collections
  import opened OutboxPage
  import opened OutboxWorld
  import opened OutboxInvariant
  import opened OutboxTheorems

  // ---------------------------------------------------------------- storing

  lemma ReloadedIs(s: State, record: Saved)
    requires s.disk == record
    ensures var after := Step(s, Reloads);
            && InBounds(after.page) && Save(after.page) == record && after.disk == record && after.log == s.log
            && after.writes == [] && after.preparing == [] && after.page.pass.Idle? && after.page.download.None?
  {
  }

  /** A write of the page, landing last, brings the queues back after a reload, as they were when it was serialised. */
  lemma StoringBringsBack(s: State)
    requires Coherent(s)
    ensures InBounds(s.page)
    ensures var stored := Step(Step(s, Serialises), Lands(|s.writes|));
            && stored == s.(disk := Save(s.page))
            && var after := Step(stored, Reloads).page; InBounds(after) && Save(after) == Save(s.page)
  {
    var written := Step(s, Serialises);
    WriteSaves(s, Serialises);
    assert written.writes[..|s.writes|] + written.writes[|s.writes| + 1..] == s.writes;
    ReloadedIs(Step(written, Lands(|s.writes|)), Save(s.page));
  }

  /** The snapshot that a write in preparation was given is still the present one. */
  predicate NoDownloadEnds(es: seq<Event>) {
    forall e :: e in es ==> IsPageEvent(e) && !e.EndsDownload?
  }

  lemma {:induction false} StaysPresent(s: State, es: seq<Event>, k: nat)
    requires k < |s.preparing| && s.preparing[k] == Present && NoDownloadEnds(es)
    ensures |Run(s, es).preparing| == |s.preparing| && Run(s, es).preparing[k] == Present && Run(s, es).writes == s.writes
    decreases |es|
  {
    if es != [] {
      assert es[0] in es && forall e :: e in es[1..] ==> e in es;
      PresentStays(s, es[0], k);
      StaysPresent(Step(s, es[0]), es[1..], k);
    }
  }

  lemma PresentStays(s: State, e: Event, k: nat)
    requires k < |s.preparing| && s.preparing[k] == Present && IsPageEvent(e) && !e.EndsDownload?
    ensures var after := Step(s, e);
            |after.preparing| == |s.preparing| && after.preparing[k] == Present && after.writes == s.writes
  {
    hide PageStep;
  }

  /**
   A write prepared now takes the queues as they are when it gets to serialise them, whatever happens on the page in
   between, as long as no download ends; it does so once.
   */
  lemma PreparedTakesLatest(s: State, es: seq<Event>)
    requires Coherent(s) && NoDownloadEnds(es)
    ensures var k, before := |s.preparing|, Run(Step(s, PreparesWrite), es);
            var after := Step(before, StoresPrepared(k));
            && InBounds(before.page) && |before.preparing| == k + 1
            && after.writes == before.writes + [Save(before.page)] && after.preparing == before.preparing[..k]
            && after.page == before.page && after.disk == before.disk && after.log == before.log
  {
    var prepared := Step(s, PreparesWrite);
    StepIsCoherent(s, PreparesWrite);
    RunIsCoherent(prepared, es);
    PreparingAdds(s);
    hide Coherent, Run, Step;
    StaysPresent(prepared, es, |s.preparing|);
    StoringPresent(Run(prepared, es), |s.preparing|);
  }

  lemma PreparingAdds(s: State)
    ensures Step(s, PreparesWrite) == s.(preparing := s.preparing + [Present])
  {
  }

  lemma StoringPresent(s: State, k: nat)
    requires Coherent(s) && |s.preparing| == k + 1 && s.preparing[k] == Present
    ensures var after := Step(s, StoresPrepared(k));
            InBounds(s.page) && after == s.(writes := s.writes + [Save(s.page)], preparing := s.preparing[..k])
  {
    WriteSaves(s, StoresPrepared(k));
    assert s.preparing[..k] + s.preparing[k + 1..] == s.preparing[..k];
  }

  /** A write that lands is the record from then on, and lands once; the others wait as before. */
  lemma LandingOnce(s: State, k: nat)
    ensures var after := Step(s, Lands(k));
            if k < |s.writes| then
              && after == s.(disk := s.writes[k], writes := after.writes) && |after.writes| == |s.writes| - 1
              && forall i :: 0 <= i < |after.writes| ==> after.writes[i] == s.writes[if i < k then i else i + 1]
            else after == s
  {
  }

  // ---------------------------------------------------------------- downloads

  lemma BeginningIs(s: State)
    requires s.page.download.None?
    ensures var after := Step(s, BeginsDownload);
            && after.page == s.page.(download := Some(Download(None, None))) && after.writes == s.writes
            && after.disk == s.disk && after.log == s.log
  {
    hide SnapshotAfter;
  }

  /** A download with nothing in between stores the page's queues and leaves the page as it was. */
  lemma DownloadBringsBack(s: State)
    requires Coherent(s) && s.page.download.None?
    ensures var began := Step(s, BeginsDownload);
            var stored := Step(Step(began, StoresDownload), Lands(|s.writes|));
            && InBounds(s.page) && stored.disk == Save(s.page) && stored.writes == s.writes
            && Step(stored, EndsDownload).page == s.page && Step(stored, EndsDownload).disk == Save(s.page)
  {
    var began := Step(s, BeginsDownload);
    BeginningIs(s);
    StepIsCoherent(s, BeginsDownload);
    WriteSaves(began, StoresDownload);
    assert EndDownload(began.page) == s.page;
    var written := Step(began, StoresDownload);
    hide Coherent, IsWrite, Written;
    assert written.writes == s.writes + [Save(s.page)];
    LandingOnce(written, |s.writes|);
    assert Step(written, Lands(|s.writes|)).writes == s.writes;
    EndingIs(Step(written, Lands(|s.writes|)));
  }

  lemma EndingIs(s: State)
    ensures Step(s, EndsDownload).page == EndDownload(s.page) && Step(s, EndsDownload).disk == s.disk
  {
    hide SnapshotAfter, EndDownload;
  }

  /** The queue that a pending download stores, and then gives back to the page, is the one in use when it began. */
  lemma CapturedIsKept(p: Page, removed: Id, request: Id)
    requires p.download.None?
    ensures var p1 := RemoveReservation(RemoveLead(BeginDownload(p), removed), request);
            && EndDownload(p1).outbox == p.outbox && EndDownload(p1).reservationOutbox == p.reservationOutbox
            && EndDownload(p1).download.None? && EndDownload(p1).leads == p.leads && EndDownload(p1).requests == p.requests
            && EndDownload(BeginDownload(p)) == p
  {
  }

  // ---------------------------------------------------------------- the server

  /** The record that the server would make of a message. */
  function RecordOf(m: Message, link: Link): Record
    requires m.RequestPost? ==> m.request.link.Some?
  {
    match m
    case LeadPost(lead) => LeadRecord(lead.submissionId, link)
    case RequestPost(q) => ReservationRecord(q.submissionId, q.leadSubmissionId, q.link.value)
  }

  /**
   The server accepts a lead it does not have, giving it an id of its own, and a request it does not have for a lead that
   it answered with these ids, if the unit can be had; whatever it does not accept leaves its records as they are.
   */
  lemma AcceptsIff(log: seq<Record>, m: Message, link: Link, available: bool)
    ensures var after := Deliver(log, m, link, available);
            if match m
               case LeadPost(lead) =>
                 forall k :: 0 <= k < |log| && log[k].LeadRecord? ==>
                               log[k].submissionId != lead.submissionId && log[k].link.leadId != link.leadId
               case RequestPost(q) =>
                 && available && q.link.Some?
                 && (forall k :: 0 <= k < |log| && log[k].ReservationRecord? ==> log[k].submissionId != q.submissionId)
                 && exists k :: 0 <= k < |log| && log[k].LeadRecord? && log[k].link == q.link.value
            then (m.RequestPost? ==> m.request.link.Some?) && after == log + [RecordOf(m, link)]
            else after == log
  {
  }
}
