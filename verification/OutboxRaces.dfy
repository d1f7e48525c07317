/**
 Concrete runs in which the workspace keeps less than it seems to promise: three that lose a stored lead, one that leaves
 a request without its lead, and one that posts a request in conflict again.
 */
module OutboxRaces {
  import opened Collections
  import opened OutboxPage
  import opened OutboxWorld
  import opened OutboxInvariant
  import opened OutboxTheorems
  import opened OutboxDelivery
  import opened OutboxConflict
  import opened OutboxRearm

  predicate PlainLead(f: LeadForm) {
    AcceptableLead(f) && f.reservation.None?
  }

  /** On the device after the first events, and after the others neither there nor with the server, though never removed. */
  ghost predicate Loses(s: State, before: seq<Event>, after: seq<Event>, x: Id) {
    var mid := Run(s, before);
    && SavedHas(mid.disk, x) && Queued(mid.page, x)
    && !RemovedIn(mid, after, x)
    && !SavedHas(Run(mid, after).disk, x) && !Queued(Run(mid, after).page, x) && !Accepted(Run(mid, after).log, x)
  }

  lemma SavingFresh(s: State, f: LeadForm)
    requires PlainLead(f) && s.page.editingSubmission.None?
    requires (forall r :: r in s.page.outbox ==> r < |s.page.leads| && s.page.leads[r].submissionId != s.page.nextId)
    requires s.page.reservationOutbox == [] && s.preparing == []
    ensures var p := s.page;
            Step(s, SavesLead(f)) == s.(page := p.(leads := p.leads + [Lead(p.nextId, f.contact, Waiting, 0)],
                                                   outbox := p.outbox + [|p.leads|], nextId := p.nextId + 1))
  {
  }

  /** A page holding only leads, with the given queue. */
  function LeadPage(leads: seq<Lead>, outbox: seq<nat>, d: Option<Download>, nextId: Id): Page {
    Page(leads, [], outbox, [], [], [], Idle, None, None, d, nextId, [])
  }

  function LeadOf(f: LeadForm, id: Id): Lead {
    Lead(id, f.contact, Waiting, 0)
  }

  function SavedLeads(leads: seq<Lead>): Saved {
    Saved(leads, [], [], [])
  }

  function Quiescent(leads: seq<Lead>, outbox: seq<nat>, d: Option<Download>, nextId: Id, disk: seq<Lead>): State {
    State(LeadPage(leads, outbox, d, nextId), SavedLeads(disk), [], [], [])
  }

  lemma Serialising(s: State, saved: Saved)
    requires InBounds(s.page) && Save(s.page) == saved
    ensures Step(s, Serialises) == s.(writes := s.writes + [saved])
  {
  }

  lemma StoringFirst(f: LeadForm)
    requires PlainLead(f)
    ensures Step(Step(START, SavesLead(f)), Serialises)
            == Quiescent([LeadOf(f, 0)], [0], None, 1, []).(writes := [SavedLeads([LeadOf(f, 0)])])
  {
    var s1 := Quiescent([LeadOf(f, 0)], [0], None, 1, []);
    assert Step(START, SavesLead(f)) == s1 by { SavingFresh(START, f); }
    Serialising(s1, SavedLeads([LeadOf(f, 0)]));
  }

  lemma StoringSecond(a: Lead, g: LeadForm)
    requires PlainLead(g) && a.submissionId == 0
    ensures Step(Step(Quiescent([a], [0], None, 1, []).(writes := [SavedLeads([a])]), SavesLead(g)), Serialises)
            == Quiescent([a, LeadOf(g, 1)], [0, 1], None, 2, []).(writes := [SavedLeads([a]), SavedLeads([a, LeadOf(g, 1)])])
  {
    var s2 := Quiescent([a], [0], None, 1, []).(writes := [SavedLeads([a])]);
    var s3 := s2.(page := LeadPage([a, LeadOf(g, 1)], [0, 1], None, 2));
    assert Step(s2, SavesLead(g)) == s3 by { SavingFresh(s2, g); }
    Serialising(s3, SavedLeads([a, LeadOf(g, 1)]));
  }

  lemma BeforeLateWrite(f: LeadForm, g: LeadForm)
    requires PlainLead(f) && PlainLead(g)
    ensures Run(START, [SavesLead(f), Serialises, SavesLead(g), Serialises, Lands(1)])
            == Quiescent([LeadOf(f, 0), LeadOf(g, 1)], [0, 1], None, 2, [LeadOf(f, 0), LeadOf(g, 1)])
               .(writes := [SavedLeads([LeadOf(f, 0)])])
  {
    hide Run, PageEventStep, WriteStep, PlainLead;
    StoringFirst(f);
    StoringSecond(LeadOf(f, 0), g);
    RunsTo5(START, [SavesLead(f), Serialises, SavesLead(g), Serialises, Lands(1)]);
  }

  lemma ReloadingOne(p: Page, a: Lead)
    requires p.nextId == 2 && p.sent == []
    ensures Reload(p, SavedLeads([a])) == LeadPage([a], [0], None, 2)
  {
    assert Upto(1) == [0] && Upto(0) == [];
  }

  lemma LandingTheOnlyWrite(s: State, saved: Saved)
    requires s.writes == [saved]
    ensures Step(s, Lands(0)) == s.(disk := saved, writes := [])
  {
  }

  lemma ReloadingStep(s: State)
    ensures Step(s, Reloads) == s.(page := Reload(s.page, s.disk), writes := [], preparing := [])
  {
  }

  lemma AfterLateWrite(s: State, a: Lead)
    requires s == Quiescent(s.page.leads, s.page.outbox, None, 2, s.disk.outbox).(writes := [SavedLeads([a])])
    ensures Run(s, [Lands(0), Reloads]) == Quiescent([a], [0], None, 2, [a])
  {
    hide Step, Run, Reload;
    LandingTheOnlyWrite(s, SavedLeads([a]));
    ReloadingStep(Step(s, Lands(0)));
    ReloadingOne(s.page, a);
    RunsTo2(s, [Lands(0), Reloads]);
  }

  /**
   Two writes may land in either order. If the later one lands first, the earlier one overwrites it, and a
   reload loses the lead that had been stored. While the earlier write is out the lead is not safe.
   */
  lemma OutOfOrderWriteLosesLead(f: LeadForm, g: LeadForm)
    requires PlainLead(f) && PlainLead(g)
    ensures Loses(START, [SavesLead(f), Serialises, SavesLead(g), Serialises, Lands(1)], [Lands(0), Reloads], 1)
    ensures !Safe(Run(START, [SavesLead(f), Serialises, SavesLead(g), Serialises, Lands(1)]), 1)
  {
    var a, b := LeadOf(f, 0), LeadOf(g, 1);
    var mid := Run(START, [SavesLead(f), Serialises, SavesLead(g), Serialises, Lands(1)]);
    BeforeLateWrite(f, g);
    AfterLateWrite(mid, a);
    assert b in mid.disk.outbox && IsLead(mid.page.leads, 1, 1) && 1 in mid.page.outbox;
    NothingRemoved(mid, [Lands(0), Reloads], 1);
    assert SavedLeads([a]) in mid.writes;
  }

  lemma RemovedWhileDownloading(f: LeadForm)
    requires PlainLead(f)
    ensures Step(Step(Step(START, SavesLead(f)), BeginsDownload), RemovesLead(0))
            == Quiescent([LeadOf(f, 0)], [], Some(Download(Some([0]), Some([]))), 1, [])
  {
    var a := LeadOf(f, 0);
    hide SaveLead;
    assert Step(START, SavesLead(f)) == Quiescent([a], [0], None, 1, []) by { SavingFresh(START, f); }
    assert LeadsExcept([a], [0], 0) == [];
  }

  lemma StoredWhileDownloading(a: Lead, g: LeadForm)
    requires PlainLead(g)
    ensures var kept := Some(Download(Some([0]), Some([])));
            Step(Step(Step(Quiescent([a], [], kept, 1, []), SavesLead(g)), Serialises), Lands(0))
            == Quiescent([a, LeadOf(g, 1)], [1], kept, 2, [LeadOf(g, 1)])
  {
    hide PageStep;
    var kept := Some(Download(Some([0]), Some([])));
    var s3, s4 := Quiescent([a], [], kept, 1, []), Quiescent([a, LeadOf(g, 1)], [1], kept, 2, []);
    assert Step(s3, SavesLead(g)) == s4 by { SavingFresh(s3, g); }
    Serialising(s4, SavedLeads([LeadOf(g, 1)]));
  }

  lemma BeforeDisturbance(f: LeadForm, g: LeadForm)
    requires PlainLead(f) && PlainLead(g)
    ensures Run(START, [SavesLead(f), BeginsDownload, RemovesLead(0), SavesLead(g), Serialises, Lands(0)])
            == Quiescent([LeadOf(f, 0), LeadOf(g, 1)], [1], Some(Download(Some([0]), Some([]))), 2, [LeadOf(g, 1)])
  {
    RemovedWhileDownloading(f);
    StoredWhileDownloading(LeadOf(f, 0), g);
    RunsTo6(START, [SavesLead(f), BeginsDownload, RemovesLead(0), SavesLead(g), Serialises, Lands(0)]);
  }

  lemma CapturedFirst(a: Lead, b: Lead)
    ensures var p := LeadPage([a, b], [1], Some(Download(Some([0]), Some([]))), 2);
            && EndDownload(p) == LeadPage([a, b], [0], None, 2) && InBounds(EndDownload(p))
            && Save(EndDownload(p)) == SavedLeads([a])
  {
  }

  lemma StoringCaptured(s: State, saved: Saved)
    requires s.page.download.Some? && InBounds(EndDownload(s.page)) && Save(EndDownload(s.page)) == saved && s.writes == []
    ensures Step(Step(s, StoresDownload), Lands(0)) == s.(disk := saved)
  {
    assert Step(s, StoresDownload) == s.(writes := [saved]);
  }

  lemma AfterDisturbance(a: Lead, b: Lead)
    ensures var s := Quiescent([a, b], [1], Some(Download(Some([0]), Some([]))), 2, [b]);
            Run(s, [StoresDownload, Lands(0), EndsDownload]) == Quiescent([a, b], [0], None, 2, [a])
  {
    hide Run;
    var s := Quiescent([a, b], [1], Some(Download(Some([0]), Some([]))), 2, [b]);
    CapturedFirst(a, b);
    StoringCaptured(s, SavedLeads([a]));
    RunsTo3(s, [StoresDownload, Lands(0), EndsDownload]);
  }

  /**
   A download keeps the queue arrays it captured. A removal replaces the array, and a lead saved next goes into the
   replacement. The download stores and then brings back the captured array: the new lead is gone from the record
   and from the page, and the removed one returns.
   */
  lemma DisturbedDownloadLosesLead(f: LeadForm, g: LeadForm)
    requires PlainLead(f) && PlainLead(g)
    ensures Loses(START, [SavesLead(f), BeginsDownload, RemovesLead(0), SavesLead(g), Serialises, Lands(0)],
                  [StoresDownload, Lands(0), EndsDownload], 1)
  {
    var b := LeadOf(g, 1);
    var mid := Run(START, [SavesLead(f), BeginsDownload, RemovesLead(0), SavesLead(g), Serialises, Lands(0)]);
    BeforeDisturbance(f, g);
    AfterDisturbance(LeadOf(f, 0), b);
    assert SavedHas(mid.disk, 1) && Queued(mid.page, 1) by {
      assert b in mid.disk.outbox && IsLead(mid.page.leads, 1, 1) && 1 in mid.page.outbox;
    }
    HoldsOnlyFirst(LeadOf(f, 0), b);
    NothingRemoved(mid, [StoresDownload, Lands(0), EndsDownload], 1);
  }

  lemma HoldsOnlyFirst(a: Lead, b: Lead)
    requires a.submissionId == 0
    ensures !SavedHas(SavedLeads([a]), 1) && !Queued(LeadPage([a, b], [0], None, 2), 1)
  {
    var p := LeadPage([a, b], [0], None, 2);
    assert !IsLead(p.leads, 0, 1);
    assert forall r :: r in p.outbox ==> r == 0;
  }

  lemma RunsTo2(s: State, es: seq<Event>)
    requires |es| == 2
    ensures Run(s, es) == Step(Step(s, es[0]), es[1])
  {
    var s1, rest := Step(s, es[0]), es[1..];
    assert rest[0] == es[1] && rest[1..] == [];
    assert Run(s1, rest) == Run(Step(s1, rest[0]), []);
  }

  lemma RunsTo3(s: State, es: seq<Event>)
    requires |es| == 3
    ensures Run(s, es) == Step(Step(Step(s, es[0]), es[1]), es[2])
  {
    RunsTo2(Step(s, es[0]), es[1..]);
  }

  lemma RunsTo5(s: State, es: seq<Event>)
    requires |es| == 5
    ensures Run(s, es) == Step(Step(Step(Step(Step(s, es[0]), es[1]), es[2]), es[3]), es[4])
  {
    RunsTo3(Step(Step(s, es[0]), es[1]), es[1..][1..]);
  }

  lemma RunsTo6(s: State, es: seq<Event>)
    requires |es| == 6
    ensures Run(s, es) == Step(Step(Step(Step(Step(Step(s, es[0]), es[1]), es[2]), es[3]), es[4]), es[5])
  {
    RunsTo5(Step(s, es[0]), es[1..]);
  }

  // ---------------------------------------------------------------- a write in preparation that outlives its snapshot

  lemma PreparedBeforeDownload(f: LeadForm)
    requires PlainLead(f)
    ensures Step(Step(Step(START, SavesLead(f)), PreparesWrite), BeginsDownload)
         == Quiescent([LeadOf(f, 0)], [0], Some(Download(None, None)), 1, []).(preparing := [Present])
  {
    hide SaveLead;
    assert Step(START, SavesLead(f)) == Quiescent([LeadOf(f, 0)], [0], None, 1, []) by { SavingFresh(START, f); }
  }

  lemma ReplacedAfterDownload(a: Lead)
    requires a.submissionId == 0
    ensures var s := Quiescent([a], [0], Some(Download(None, None)), 1, []).(preparing := [Present]);
            Step(Step(s, EndsDownload), RemovesLead(0))
            == Quiescent([a], [], None, 1, []).(preparing := [Former(Apart([0]), Apart([]))])
  {
    var s := Quiescent([a], [0], Some(Download(None, None)), 1, []).(preparing := [Present]);
    assert Step(s, EndsDownload) == Quiescent([a], [0], None, 1, []).(preparing := [Former(InUse, InUse)]);
    assert LeadsExcept([a], [0], 0) == [];
  }

  lemma StoredAfterDownload(a: Lead, g: LeadForm)
    requires PlainLead(g)
    ensures var held := [Former(Apart([0]), Apart([]))];
            Step(Step(Step(Quiescent([a], [], None, 1, []).(preparing := held), SavesLead(g)), Serialises), Lands(0))
            == Quiescent([a, LeadOf(g, 1)], [1], None, 2, [LeadOf(g, 1)]).(preparing := held)
  {
    var held := [Former(Apart([0]), Apart([]))];
    var s, s1 := Quiescent([a], [], None, 1, []), Quiescent([a, LeadOf(g, 1)], [1], None, 2, []).(preparing := held);
    assert PageStep(s.page, SavesLead(g)) == s1.page by { SavingFresh(s, g); }
    hide SaveLead;
    assert Step(s.(preparing := held), SavesLead(g)) == s1;
    Serialising(s1, SavedLeads([LeadOf(g, 1)]));
  }

  /** A write is prepared, then a download replaces the snapshot, a lead is removed and another is saved and stored. */
  function BeforeFormerWrite(f: LeadForm, g: LeadForm): seq<Event> {
    [SavesLead(f), PreparesWrite, BeginsDownload] + ([EndsDownload, RemovesLead(0)] + [SavesLead(g), Serialises, Lands(0)])
  }

  lemma BeforeFormerWriteEnds(f: LeadForm, g: LeadForm)
    requires PlainLead(f) && PlainLead(g)
    ensures Run(START, BeforeFormerWrite(f, g))
         == Quiescent([LeadOf(f, 0), LeadOf(g, 1)], [1], None, 2, [LeadOf(g, 1)]).(preparing := [Former(Apart([0]), Apart([]))])
  {
    hide Step;
    var a, b, c := [SavesLead(f), PreparesWrite, BeginsDownload], [EndsDownload, RemovesLead(0)], [SavesLead(g), Serialises, Lands(0)];
    RunAppends(START, a, b + c);
    RunsTo3(START, a);
    PreparedBeforeDownload(f);
    RunAppends(Run(START, a), b, c);
    RunsTo2(Run(START, a), b);
    ReplacedAfterDownload(LeadOf(f, 0));
    RunsTo3(Run(Run(START, a), b), c);
    StoredAfterDownload(LeadOf(f, 0), g);
  }

  lemma StoringPrepared(s: State, n: Snapshot, p: Page)
    requires s.preparing == [n] && SnapshotPage(s.page, n) == p && InBounds(p)
    ensures Step(s, StoresPrepared(0)) == s.(writes := s.writes + [Save(p)], preparing := [])
  {
    assert [n][..0] + [n][1..] == [];
  }

  lemma AfterFormerWrite(a: Lead, b: Lead)
    ensures var s := Quiescent([a, b], [1], None, 2, [b]).(preparing := [Former(Apart([0]), Apart([]))]);
            Run(s, [StoresPrepared(0), Lands(0), Reloads]) == Quiescent([a], [0], None, 2, [a])
  {
    var s := Quiescent([a, b], [1], None, 2, [b]).(preparing := [Former(Apart([0]), Apart([]))]);
    var es := [StoresPrepared(0)] + [Lands(0), Reloads];
    StoringPrepared(s, Former(Apart([0]), Apart([])), LeadPage([a, b], [0], None, 2));
    assert Save(LeadPage([a, b], [0], None, 2)) == SavedLeads([a]);
    AfterLateWrite(Step(s, StoresPrepared(0)), a);
    assert es[1..] == [Lands(0), Reloads] && es == [StoresPrepared(0), Lands(0), Reloads];
  }

  lemma SnapshotStillHolds(s: State, a: Lead, b: Lead)
    requires s == Quiescent([a, b], [1], None, 2, [b]).(preparing := [Former(Apart([0]), Apart([]))]) && a.submissionId == 0
    ensures !InReach(s, 1)
  {
    HoldsOnlyFirst(a, b);
    assert SnapshotPage(s.page, s.preparing[0]) == LeadPage([a, b], [0], None, 2);
  }

  /**
   A write in preparation keeps the snapshot object that it was given. If a download has replaced the snapshot since,
   the write stores the former queues: a lead saved and stored meanwhile is gone after a reload, and a removed one is
   back. While the write is in preparation the lead is not safe.
   */
  lemma FormerSnapshotLosesLead(f: LeadForm, g: LeadForm)
    requires PlainLead(f) && PlainLead(g)
    ensures Loses(START, BeforeFormerWrite(f, g), [StoresPrepared(0), Lands(0), Reloads], 1)
    ensures !Safe(Run(START, BeforeFormerWrite(f, g)), 1)
  {
    hide Step, SnapshotPage, Run;
    var a, b := LeadOf(f, 0), LeadOf(g, 1);
    var mid := Run(START, BeforeFormerWrite(f, g));
    BeforeFormerWriteEnds(f, g);
    AfterFormerWrite(a, b);
    HoldsOnlyFirst(a, b);
    SnapshotStillHolds(mid, a, b);
    assert b in mid.disk.outbox && IsLead(mid.page.leads, 1, 1) && 1 in mid.page.outbox;
    NothingRemoved(mid, [StoresPrepared(0), Lands(0), Reloads], 1);
    assert !Queued(Quiescent([a], [0], None, 2, [a]).page, 1);
  }

  // ---------------------------------------------------------------- a download that orphans a request

  /** A page during a refresh of which a lead is acknowledged: the captured outbox is the one that still holds it. */
  function Refreshing(leads: seq<Lead>, requests: seq<Request>, outbox: seq<nat>, pass: Pass, receipts: seq<Id>,
                      captured: Option<seq<nat>>, nextId: Id): Page {
    Page(leads, requests, outbox, if requests == [] then [] else [0], receipts, [], pass, None, None,
         Some(Download(captured, None)), nextId, if leads == [] then [] else [LeadPost(leads[0])])
  }

  lemma LeadPassBegins(f: LeadForm)
    ensures BeginPass(LeadPage([LeadOf(f, 0)], [0], None, 1))
         == LeadPage([Posted(f)], [0], None, 1).(pass := PostingLead(0, []), sent := [LeadPost(Posted(f))])
  {
    assert [0][1..] == [];
  }

  lemma RefreshesWhilePosting(f: LeadForm)
    requires PlainLead(f)
    ensures Run(START, [SavesLead(f), BeginsPass, BeginsDownload])
         == START.(page := Refreshing([Posted(f)], [], [0], PostingLead(0, []), [], None, 1))
  {
    var saved := LeadPage([LeadOf(f, 0)], [0], None, 1);
    assert Step(START, SavesLead(f)) == START.(page := saved) by { SavingFresh(START, f); }
    hide SaveLead, BeginPass, Run;
    LeadPassBegins(f);
    assert Step(START.(page := saved), BeginsPass) == START.(page := BeginPass(saved));
    RunsTo3(START, [SavesLead(f), BeginsPass, BeginsDownload]);
  }

  lemma AcknowledgedWhileRefreshing(f: LeadForm, link: Link)
    requires PlainLead(f)
    ensures var s := START.(page := Refreshing([Posted(f)], [], [0], PostingLead(0, []), [], None, 1));
            Run(s, [Delivers(0, link, true), RepliesToLead(LeadAccepted(link))])
            == State(Refreshing([Posted(f)], [], [], StoringLead([]), [0], Some([0]), 1), EMPTY_SAVED, [], [LeadRecord(0, link)], [])
  {
    var s := START.(page := Refreshing([Posted(f)], [], [0], PostingLead(0, []), [], None, 1));
    var s1 := s.(log := [LeadRecord(0, link)]);
    assert Step(s, Delivers(0, link, true)) == s1 && LeadRecord(0, link) in s1.log;
    assert LeadsExcept(s.page.leads, [0], 0) == [] && NewestReceipts([], 0) == [0];
    assert LinkRequests([], [], 0, link) == [];
    RunsTo2(s, [Delivers(0, link, true), RepliesToLead(LeadAccepted(link))]);
  }

  function SecondRequest(g: LeadForm): Request
    requires AskingLead(g)
  {
    Request(2, 1, FormChoice(g).value, WaitingForLead, 0, None)
  }

  lemma SavedWhileRefreshing(f: LeadForm, g: LeadForm, s: State)
    requires AskingLead(g) && s.page == Refreshing([Posted(f)], [], [], StoringLead([]), [0], Some([0]), 1)
    ensures Step(s, SavesLead(g)).page
         == Refreshing([Posted(f), LeadOf(g, 1)], [SecondRequest(g)], [1], StoringLead([]), [0], Some([0]), 3)
  {
  }

  /** Everything up to the end of the refresh. */
  function BeforeOrphaning(f: LeadForm, g: LeadForm, link: Link): seq<Event> {
    [SavesLead(f), BeginsPass, BeginsDownload] + ([Delivers(0, link, true), RepliesToLead(LeadAccepted(link))] + [SavesLead(g)])
  }

  lemma BeforeOrphaningEnds(f: LeadForm, g: LeadForm, link: Link)
    requires PlainLead(f) && AskingLead(g)
    ensures Run(START, BeforeOrphaning(f, g, link)).page
         == Refreshing([Posted(f), LeadOf(g, 1)], [SecondRequest(g)], [1], StoringLead([]), [0], Some([0]), 3)
    ensures Run(START, BeforeOrphaning(f, g, link)).log == [LeadRecord(0, link)]
  {
    var a, b := [SavesLead(f), BeginsPass, BeginsDownload], [Delivers(0, link, true), RepliesToLead(LeadAccepted(link))];
    RunAppends(START, a, b + [SavesLead(g)]);
    RefreshesWhilePosting(f);
    RunAppends(Run(START, a), b, [SavesLead(g)]);
    AcknowledgedWhileRefreshing(f, link);
    var s := Run(Run(START, a), b);
    SavedWhileRefreshing(f, g, s);
    assert [SavesLead(g)][1..] == [] && Run(s, [SavesLead(g)]) == Step(s, SavesLead(g));
  }

  lemma OrphanIsLeft(p: Page, f: LeadForm, g: LeadForm)
    requires AskingLead(g)
    requires p == Refreshing([Posted(f), LeadOf(g, 1)], [SecondRequest(g)], [1], StoringLead([]), [0], Some([0]), 3)
    ensures EndDownload(p).outbox == EndDownload(p).reservationOutbox == [0] && EndDownload(p).requests == [SecondRequest(g)]
    ensures !LeadQueued(EndDownload(p), 1) && !NoOrphans(EndDownload(p)) && LeadQueued(EndDownload(p), 0) && LeadQueued(p, 1)
  {
    var after := EndDownload(p);
    assert 0 in after.outbox && IsLead(after.leads, 0, 0) && 1 in p.outbox && IsLead(p.leads, 1, 1);
    assert forall r :: r in after.outbox ==> r == 0;
    assert 0 in after.reservationOutbox && !LinkedOrWaiting(after, 0);
  }

  /**
   A lead is acknowledged during a refresh, which replaces the outbox; then a lead with a reservation request is saved.
   The request goes into the array that the refresh captured, its lead does not. When the refresh ends, the request
   waits for a lead that is neither on the page nor with the server, and the acknowledged lead is queued again.
   */
  lemma DownloadOrphansRequest(f: LeadForm, g: LeadForm, link: Link)
    requires PlainLead(f) && AskingLead(g)
    ensures var before := Run(START, BeforeOrphaning(f, g, link));
            var after := Step(before, EndsDownload);
            && Inv(before) && LeadQueued(before.page, 1) && !Inv(after)
            && after.page.requests == [SecondRequest(g)] && after.page.reservationOutbox == [0]
            && !LeadQueued(after.page, 1) && !HasLead(after.log, 1) && LeadQueued(after.page, 0)
  {
    hide Run, Inv, NoOrphans, EndDownload, OrderlyRun, LeadQueued;
    var before := Run(START, BeforeOrphaning(f, g, link));
    BeforeOrphaningEnds(f, g, link);
    InitialOk();
    NoDownloadIsOrderly(START, BeforeOrphaning(f, g, link));
    RunKeepsInv(START, BeforeOrphaning(f, g, link));
    OrphanIsLeft(before.page, f, g);
    OrderlyIff(before, EndsDownload);
  }

  // ---------------------------------------------------------------- a conflict that lets go

  /** One lead that asks for a unit, at the stages of a pass during which its form is saved again. */
  function Stage(leads: seq<Lead>, q: Request, outbox: seq<nat>, receipts: seq<Id>, pass: Pass, editing: Option<Id>,
                 sent: seq<Message>): Page {
    Page(leads, [q], outbox, [0], receipts, [], pass, editing, None, None, 2, sent)
  }

  predicate AskingLead(f: LeadForm) {
    AcceptableLead(f) && f.reservation.Some?
  }

  function First(f: LeadForm): Lead {
    Lead(0, f.contact, Waiting, 0)
  }

  function Posted(f: LeadForm): Lead {
    Lead(0, f.contact, Syncing, 1)
  }

  function RequestAt(f: LeadForm, status: Status, attempts: nat, link: Option<Link>): Request
    requires AskingLead(f)
  {
    Request(1, 0, FormChoice(f).value, status, attempts, link)
  }

  lemma PassBegins(f: LeadForm, p: Page)
    requires AskingLead(f) && p == Stage([First(f)], RequestAt(f, WaitingForLead, 0, None), [0], [], Idle, None, [])
    ensures BeginPass(p)
         == Stage([Posted(f)], RequestAt(f, WaitingForLead, 0, None), [0], [], PostingLead(0, []), None, [LeadPost(Posted(f))])
  {
    assert [0][1..] == [];
  }

  /** Saved, a pass begun, and the form opened again while the lead's post is out. */
  lemma OpensFormWhilePosting(f: LeadForm)
    requires AskingLead(f)
    ensures Run(START, [SavesLead(f), BeginsPass, EditsLead(0)])
         == START.(page := Stage([Posted(f)], RequestAt(f, WaitingForLead, 0, None), [0], [], PostingLead(0, []), Some(0),
                                 [LeadPost(Posted(f))]))
  {
    var saved := Stage([First(f)], RequestAt(f, WaitingForLead, 0, None), [0], [], Idle, None, []);
    assert Step(START, SavesLead(f)) == START.(page := saved);
    PassBegins(f, saved);
    assert Step(START.(page := saved), BeginsPass) == START.(page := BeginPass(saved));
    RunsTo3(START, [SavesLead(f), BeginsPass, EditsLead(0)]);
  }

  function Held0(f: LeadForm, link: Link): State
    requires AskingLead(f)
  {
    START.(page := Stage([Posted(f)], RequestAt(f, Waiting, 0, Some(link)), [], [0], StoringLead([]), Some(0),
                         [LeadPost(Posted(f))]),
           log := [LeadRecord(0, link)])
  }

  /** The server takes the lead and says so. */
  lemma LeadIsTaken(f: LeadForm, link: Link)
    requires AskingLead(f)
    ensures var s := Run(START, [SavesLead(f), BeginsPass, EditsLead(0)]);
            Run(s, [Delivers(0, link, true), RepliesToLead(LeadAccepted(link))]) == Held0(f, link)
  {
    hide LeadReplied, SaveLead, BeginPass;
    OpensFormWhilePosting(f);
    var s := Run(START, [SavesLead(f), BeginsPass, EditsLead(0)]);
    var s1 := s.(log := [LeadRecord(0, link)]);
    assert Step(s, Delivers(0, link, true)) == s1;
    assert LeadRecord(0, link) in s1.log;
    TakesLead(s.page, f, link);
    assert Step(s1, RepliesToLead(LeadAccepted(link))) == Held0(f, link);
    RunsTo2(s, [Delivers(0, link, true), RepliesToLead(LeadAccepted(link))]);
  }

  lemma TakesLead(p: Page, f: LeadForm, link: Link)
    requires AskingLead(f)
    requires p == Stage([Posted(f)], RequestAt(f, WaitingForLead, 0, None), [0], [], PostingLead(0, []), Some(0),
                        [LeadPost(Posted(f))])
    ensures LeadReplied(p, LeadAccepted(link)) == Held0(f, link).page
  {
    assert LeadsExcept(p.leads, [0], 0) == [];
    assert LinkRequests(p.requests, [0], 0, link) == [RequestAt(f, Waiting, 0, Some(link))];
    assert NewestReceipts([], 0) == [0];
  }

  /** The request is posted; then the form is saved, which queues the lead again. */
  lemma FormSavedWhileRequestIsOut(f: LeadForm, link: Link)
    requires AskingLead(f)
    ensures var posted := RequestAt(f, Syncing, 1, Some(link));
            Run(Held0(f, link), [ResumesPass, SavesLead(f)]).page
            == Stage([Posted(f), First(f)], RequestAt(f, WaitingForLead, 1, Some(link)), [1], [0], PostingRequest(0, []),
                     Some(0), [LeadPost(Posted(f)), RequestPost(posted)])
  {
    var s := Held0(f, link);
    var posted := RequestAt(f, Syncing, 1, Some(link));
    assert Eligible(s.page.requests, [0]) == [0];
    assert Step(s, ResumesPass).page
        == Stage([Posted(f)], posted, [], [0], PostingRequest(0, []), Some(0), [LeadPost(Posted(f)), RequestPost(posted)]);
    RunsTo2(s, [ResumesPass, SavesLead(f)]);
  }

  function LetGo(f: LeadForm, link: Link): State
    requires AskingLead(f)
  {
    START.(page := Stage([Posted(f), First(f)], RequestAt(f, Conflict, 1, Some(link)), [1], [0], Idle, Some(0),
                         [LeadPost(Posted(f)), RequestPost(RequestAt(f, Syncing, 1, Some(link)))]),
           log := [LeadRecord(0, link)])
  }

  lemma ConflictOnPage(f: LeadForm, link: Link, p: Page)
    requires AskingLead(f)
    requires p == Stage([Posted(f), First(f)], RequestAt(f, WaitingForLead, 1, Some(link)), [1], [0], PostingRequest(0, []),
                        Some(0), [LeadPost(Posted(f)), RequestPost(RequestAt(f, Syncing, 1, Some(link)))])
    ensures ConflictRefreshed(PassStored(RequestReplied(p, RequestConflict)), false) == LetGo(f, link).page
  {
    var held := SetRequestStatus(p, 0, Conflict);
    assert held.requests == [RequestAt(f, Conflict, 1, Some(link))];
    assert RequestReplied(p, RequestConflict) == held.(pass := StoringConflict(0, []));
    assert PassStored(RequestReplied(p, RequestConflict)) == held.(pass := RefreshingConflict(0, []));
  }

  lemma ConflictSteps(s: State)
    ensures Step(Step(Step(s, RepliesToRequest(RequestConflict)), ResumesPass), RefreshesConflict(false))
         == s.(page := ConflictRefreshed(PassStored(RequestReplied(s.page, RequestConflict)), false))
  {
  }

  lemma ConflictComes(f: LeadForm, link: Link)
    requires AskingLead(f)
    ensures var s := Run(Held0(f, link), [ResumesPass, SavesLead(f)]);
            Run(s, [RepliesToRequest(RequestConflict), ResumesPass, RefreshesConflict(false)]) == LetGo(f, link)
  {
    FormSavedWhileRequestIsOut(f, link);
    var s := Run(Held0(f, link), [ResumesPass, SavesLead(f)]);
    RunsTo2(Held0(f, link), [ResumesPass, SavesLead(f)]);
    ConflictOnPage(f, link, s.page);
    assert s == LetGo(f, link).(page := s.page);
    ConflictSteps(s);
    RunsTo3(s, [RepliesToRequest(RequestConflict), ResumesPass, RefreshesConflict(false)]);
  }

  lemma {:induction false} RunAppends(s: State, es: seq<Event>, more: seq<Event>)
    ensures Run(s, es + more) == Run(Run(s, es), more)
    decreases |es|
  {
    if es == [] {
      assert es + more == more;
    } else {
      assert (es + more)[0] == es[0] && (es + more)[1..] == es[1..] + more;
      RunAppends(Step(s, es[0]), es[1..], more);
    }
  }

  /** The events of the run, in the order they happen. */
  function LettingGo(f: LeadForm, link: Link): seq<Event> {
    [SavesLead(f), BeginsPass, EditsLead(0)]
    + ([Delivers(0, link, true), RepliesToLead(LeadAccepted(link))]
       + ([ResumesPass, SavesLead(f)] + [RepliesToRequest(RequestConflict), ResumesPass, RefreshesConflict(false)]))
  }

  lemma LettingGoEnds(f: LeadForm, link: Link)
    requires AskingLead(f)
    ensures Run(START, LettingGo(f, link)) == LetGo(f, link)
  {
    var a, b := [SavesLead(f), BeginsPass, EditsLead(0)], [Delivers(0, link, true), RepliesToLead(LeadAccepted(link))];
    var c, d := [ResumesPass, SavesLead(f)], [RepliesToRequest(RequestConflict), ResumesPass, RefreshesConflict(false)];
    RunAppends(START, a, b + (c + d));
    RunAppends(Run(START, a), b, c + d);
    LeadIsTaken(f, link);
    RunAppends(Held0(f, link), c, d);
    ConflictComes(f, link);
  }

  lemma {:induction false} NoDownloadIsOrderly(s: State, es: seq<Event>)
    requires Inv(s) && forall e :: e in es ==> !e.StoresDownload? && !e.EndsDownload? && !e.StoresPrepared?
    ensures OrderlyRun(s, es)
    decreases |es|
  {
    if es != [] {
      assert es[0] in es && forall e :: e in es[1..] ==> e in es;
      OrderlyIff(s, es[0]);
      NoDownloadIsOrderly(Step(s, es[0]), es[1..]);
    }
  }

  /**
   A lead's form is opened while the lead is being posted and saved again after its acknowledgement. The request is
   then answered 409 with its lead back in the queue, and the next pass posts it again without the user.
   */
  lemma ConflictLetsGo(f: LeadForm, link: Link) returns (es: seq<Event>)
    requires AskingLead(f)
    ensures var s := Run(START, LettingGo(f, link));
            && OrderlyRun(START, LettingGo(f, link)) && s.page.pass.Idle?
            && s.page.requests[..] == [RequestAt(f, Conflict, 1, Some(link))] && s.page.reservationOutbox == [0]
            && Unattended(s, es, 1) && PostedIn(s, es, 1)
  {
    hide Step, OrderlyRun, Inv;
    LettingGoEnds(f, link);
    InitialOk();
    NoDownloadIsOrderly(START, LettingGo(f, link));
    RunKeepsInv(START, LettingGo(f, link));
    var s := LetGo(f, link);
    assert 1 in s.page.outbox && IsLead(s.page.leads, 1, 0) && LeadQueued(s.page, 0);
    es := Reached(s, 0, 1);
    UnpromptedIsUnattended(s, es, 1);
  }
}
