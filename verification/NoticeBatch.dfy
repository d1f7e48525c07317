/** Collection email audiences: nothing is saved, approved or sent but what was just reviewed. */
module NoticeBatch {
  import opened Collections
  import opened Audience

  datatype Message = Message(recipient: string, subject: string, text: string)

  datatype Status = DraftStatus | ApprovedStatus | OtherStatus

  datatype Notice = Notice(
    id: string, accountId: string, revision: string, message: Message, status: Status,
    sourceCurrent: bool, canApprove: bool, scheduled: bool)

  datatype Item = Item(
    accountId: string, fingerprint: string, asOf: string, blocked: bool, message: Option<Message>,
    notice: Option<Notice>, canSend: bool, sendConfigured: bool)

  datatype Preview = Preview(asOf: string, items: seq<Item>)

  datatype Action = Prepare | Approve | Send

  /** What a request names: the reviewed source, or the reviewed notice. */
  datatype Target = Source(accountId: string, fingerprint: string) | Saved(accountId: string, id: string, revision: string)

  /** What `act` closed over. */
  datatype Pending = Previewing | Acting(action: Action, reviewed: Preview)

  datatype Entry =
    | SelectionChanged
    | PreviewAsked
    | Reviewed(selection: seq<string>, preview: Preview)
    | Ticked(which: Action, on: bool)
    | Committed(action: Action, selection: seq<string>, targets: seq<Target>, reference: string)
    | Closed

  datatype Batch = Batch(
    ids: seq<string>, preview: Option<Preview>, approved: Option<seq<Notice>>, confirmed: bool, approvalConfirmed: bool,
    sendConfirmed: bool, reference: string, pending: Option<Pending>, log: seq<Entry>)

  datatype Reply = PreviewReply(preview: Preview) | PreparedReply(accounts: seq<string>) | ApprovedReply(notices: seq<Notice>) | Failure

  function Accounts(items: seq<Item>): seq<string> {
    Map(items, (item: Item) => item.accountId)
  }

  // ---------------------------------------------------------------- what may be done with a preview

  predicate SameMessage(item: Item) {
    item.notice.Some? && item.message == Some(item.notice.value.message)
  }

  predicate HeldItem(item: Item) {
    || item.blocked || item.message.None?
    || (item.notice.Some? && (item.notice.value.scheduled || item.notice.value.status != DraftStatus))
  }

  predicate Held(p: Preview) {
    exists item :: item in p.items && HeldItem(item)
  }

  predicate CanApprove(p: Preview) {
    && !Held(p)
    && forall item :: item in p.items ==>
         SameMessage(item) && item.notice.value.canApprove && item.notice.value.sourceCurrent
  }

  predicate CanSend(p: Preview) {
    forall item :: item in p.items ==>
      && !item.blocked && SameMessage(item) && item.notice.value.status == ApprovedStatus
      && !item.notice.value.scheduled && item.notice.value.sourceCurrent && item.canSend && item.sendConfigured
  }

  predicate Allowed(b: Batch, action: Action) {
    && b.preview.Some? && b.pending.None?
    && match action
       case Prepare => b.confirmed && !Held(b.preview.value)
       case Approve => b.approvalConfirmed && |b.reference| >= 3 && CanApprove(b.preview.value)
       case Send => b.sendConfirmed && CanSend(b.preview.value)
  }

  function NoticeIds(items: seq<Item>): seq<string> {
    if items == [] then []
    else (if items[0].notice.Some? then [items[0].notice.value.id] else []) + NoticeIds(items[1..])
  }

  /** The checks on a preview before it is shown. */
  predicate Complete(p: Preview, ids: seq<string>) {
    && ExactAudience(Accounts(p.items), ids)
    && (forall item :: item in p.items ==>
          item.asOf == p.asOf && (item.notice.Some? ==> item.notice.value.accountId == item.accountId))
    && |Elements(NoticeIds(p.items))| == |NoticeIds(p.items)|
  }

  function FindItem(items: seq<Item>, account: string): (found: Option<Item>)
    ensures found.Some? ==> found.value in items && found.value.accountId == account
    ensures found.None? ==> forall item :: item in items ==> item.accountId != account
  {
    if items == [] then None else if items[0].accountId == account then Some(items[0]) else FindItem(items[1..], account)
  }

  /** The approved notice is the reviewed one in a new revision. */
  predicate Approves(n: Notice, reviewed: Preview) {
    var item := FindItem(reviewed.items, n.accountId);
    && item.Some? && item.value.notice.Some?
    && item.value.notice.value.id == n.id && item.value.notice.value.revision != n.revision
    && item.value.notice.value.message == n.message
    && n.status == ApprovedStatus && n.sourceCurrent && !n.canApprove
  }

  predicate ApprovalVerified(notices: seq<Notice>, reviewed: Preview, ids: seq<string>) {
    && ExactAudience(Map(notices, (n: Notice) => n.accountId), ids)
    && forall n :: n in notices ==> Approves(n, reviewed)
  }

  // ---------------------------------------------------------------- steps

  function ClearReview(b: Batch): Batch {
    b.(preview := None, approved := None, confirmed := false, approvalConfirmed := false, sendConfirmed := false,
       reference := "")
  }

  function Logged(b: Batch, e: Entry): Batch {
    b.(log := b.log + [e])
  }

  function SelectionSet(b: Batch, ids: seq<string>): Batch {
    Logged(ClearReview(b).(ids := ids), SelectionChanged)
  }

  function Toggled(b: Batch, id: string, checked: bool): Batch {
    SelectionSet(b, if checked then b.ids + [id] else Filter(b.ids, (value: string) => value != id))
  }

  function Targets(action: Action, p: Preview): seq<Target> {
    Map(p.items, (item: Item) =>
          if action.Prepare? || item.notice.None? then Source(item.accountId, item.fingerprint)
          else Saved(item.accountId, item.notice.value.id, item.notice.value.revision))
  }

  function Consumed(b: Batch): Batch {
    b.(preview := None, approved := None, confirmed := false, approvalConfirmed := false, sendConfirmed := false)
  }

  function Confirmed(b: Batch, which: Action, on: bool): Batch {
    var ticked := match which
                  case Prepare => b.(confirmed := on)
                  case Approve => b.(approvalConfirmed := on)
                  case Send => b.(sendConfirmed := on);
    Logged(ticked, Ticked(which, on))
  }

  function PreviewSent(b: Batch): Batch {
    Logged(Consumed(b).(pending := Some(Previewing)), PreviewAsked)
  }

  function CommitSent(b: Batch, action: Action): Batch
    requires b.preview.Some?
  {
    var p := b.preview.value;
    var cleared := if action.Send? then ClearReview(b) else Consumed(b);
    Logged(cleared.(pending := Some(Acting(action, p))), Committed(action, b.ids, Targets(action, p), b.reference))
  }

  function Answered(b: Batch, reply: Reply): Batch
    requires b.pending.Some?
  {
    var idle := b.(pending := None);
    match (b.pending.value, reply)
    case (Previewing, PreviewReply(p)) =>
      if Complete(p, b.ids) then Logged(idle.(preview := Some(p)), Reviewed(b.ids, p)) else Logged(idle, Closed)
    case (Acting(Approve, reviewed), ApprovedReply(notices)) =>
      if ApprovalVerified(notices, reviewed, b.ids) then Logged(idle.(approved := Some(notices), reference := ""), Closed)
      else Logged(idle, Closed)
    case _ => Logged(idle, Closed)
  }

  datatype Event =
    | Toggle(id: string, checked: bool)
    | ClearSelection
    | Confirm(which: Action, on: bool)
    | WriteReference(text: string)
    | AskPreview
    | Commit(action: Action)
    | Answer(reply: Reply)

  /** Every control is disabled while a request is out; ticks and buttons are there only with a preview, as `Allowed` says. */
  predicate Possible(b: Batch, e: Event) {
    match e
    case Commit(action) => Allowed(b, action)
    case Answer(_) => b.pending.Some?
    case Confirm(_, _) => b.pending.None? && b.preview.Some?
    case AskPreview => b.pending.None? && b.ids != []
    case _ => b.pending.None?
  }

  function Step(b: Batch, e: Event): Batch
    requires Possible(b, e)
  {
    match e
    case Toggle(id, checked) => Toggled(b, id, checked)
    case ClearSelection => SelectionSet(b, [])
    case Confirm(which, on) => Confirmed(b, which, on)
    case WriteReference(text) => b.(reference := text)
    case AskPreview => PreviewSent(b)
    case Commit(action) => CommitSent(b, action)
    case Answer(reply) => Answered(b, reply)
  }

  function Opened(): Batch {
    Batch([], None, None, false, false, false, "", None, [])
  }

  // ---------------------------------------------------------------- the review rule

  /** The review still on screen at the end of a log: nothing but ticks since it was shown. */
  function InForce(log: seq<Entry>): Option<(seq<string>, Preview)> {
    if log == [] then None
    else
      match log[|log| - 1]
      case Reviewed(selection, p) => Some((selection, p))
      case Ticked(_, _) => InForce(log[..|log| - 1])
      case _ => None
  }

  /** The tick for `action` is set, and was set on the review on screen. */
  function TickedSince(log: seq<Entry>, action: Action): bool {
    if log == [] then false
    else
      match log[|log| - 1]
      case Ticked(which, on) => if which == action then on else TickedSince(log[..|log| - 1], action)
      case _ => false
  }

  /**
   What a reviewed item must be for an action to include it. A draft may be saved over nothing or a draft; it may be
   approved by somebody whom the server lets approve it; an approved notice may be sent.
   */
  predicate Fit(action: Action, item: Item) {
    && !item.blocked && item.message.Some?
    && match action
       case Prepare =>
         item.notice.None? || (item.notice.value.status == DraftStatus && !item.notice.value.scheduled)
       case Approve =>
         && item.notice.Some? && item.notice.value.status == DraftStatus && !item.notice.value.scheduled
         && item.notice.value.canApprove && item.notice.value.sourceCurrent && item.message.value == item.notice.value.message
       case Send =>
         && item.notice.Some? && item.notice.value.status == ApprovedStatus && !item.notice.value.scheduled
         && item.notice.value.sourceCurrent && item.message.value == item.notice.value.message
         && item.canSend && item.sendConfigured
  }

  /** A request names the reviewed source of an item or, for a notice that is there, its reviewed revision. */
  predicate Names(action: Action, item: Item, t: Target) {
    if action.Prepare? then t == Source(item.accountId, item.fingerprint)
    else item.notice.Some? && t == Saved(item.accountId, item.notice.value.id, item.notice.value.revision)
  }

  /**
   A commit is of the review on screen, of exactly the selection, and names it item by item; every item is fit for the
   action; the tick for the action was set on this review; an approval gives a reference.
   */
  ghost predicate ReviewedCommit(log: seq<Entry>, k: nat)
    requires k < |log|
  {
    log[k].Committed? ==>
      && InForce(log[..k]).Some?
      && var (selection, p), c := InForce(log[..k]).value, log[k];
         && selection == c.selection && TickedSince(log[..k], c.action)
         && |c.targets| == |p.items| && multiset(Accounts(p.items)) == multiset(selection) && Distinct(selection)
         && (forall i :: 0 <= i < |p.items| ==> Fit(c.action, p.items[i]) && Names(c.action, p.items[i], c.targets[i]))
         && (c.action.Approve? ==> |c.reference| >= 3)
  }

  ghost predicate Inv(b: Batch) {
    && (if b.preview.Some? then b.pending.None? && InForce(b.log) == Some((b.ids, b.preview.value)) && Complete(b.preview.value, b.ids)
        else InForce(b.log).None? && !b.confirmed && !b.approvalConfirmed && !b.sendConfirmed)
    && b.confirmed == TickedSince(b.log, Prepare) && b.approvalConfirmed == TickedSince(b.log, Approve)
    && b.sendConfirmed == TickedSince(b.log, Send)
    && AllReviewed(b.log)
  }

  /** The guards of the component, item by item. */
  lemma AllowedIsFit(p: Preview)
    ensures !Held(p) <==> forall item :: item in p.items ==> Fit(Prepare, item)
    ensures CanApprove(p) <==> forall item :: item in p.items ==> Fit(Approve, item)
    ensures CanSend(p) <==> forall item :: item in p.items ==> Fit(Send, item)
  {
    assert Held(p) <==> exists item :: item in p.items && !Fit(Prepare, item);
    assert forall item :: SameMessage(item) && !HeldItem(item) && item.notice.value.canApprove && item.notice.value.sourceCurrent
                          <==> Fit(Approve, item);
  }

  ghost predicate AllReviewed(log: seq<Entry>) {
    forall k :: 0 <= k < |log| ==> ReviewedCommit(log, k)
  }

  lemma AppendedLog(log: seq<Entry>, e: Entry)
    requires AllReviewed(log) && ReviewedCommit(log + [e], |log|)
    ensures AllReviewed(log + [e])
  {
    forall k | 0 <= k < |log|
      ensures ReviewedCommit(log + [e], k)
    {
      assert ReviewedCommit(log, k) && (log + [e])[..k] == log[..k];
    }
  }

  lemma QuietEntry(log: seq<Entry>, e: Entry)
    requires AllReviewed(log) && !e.Committed?
    ensures AllReviewed(log + [e]) && (log + [e])[..|log|] == log
  {
    AppendedLog(log, e);
  }

  lemma CommitKeeps(b: Batch, action: Action)
    requires Inv(b) && Allowed(b, action)
    ensures Inv(CommitSent(b, action))
  {
    var p := b.preview.value;
    var entry := Committed(action, b.ids, Targets(action, p), b.reference);
    CommitIsReviewed(b, action);
    hide Complete, ReviewedCommit, Allowed;
    AppendedLog(b.log, entry);
  }

  lemma CommitIsReviewed(b: Batch, action: Action)
    requires Inv(b) && Allowed(b, action)
    ensures ReviewedCommit(b.log + [Committed(action, b.ids, Targets(action, b.preview.value), b.reference)], |b.log|)
  {
    var p := b.preview.value;
    var entry := Committed(action, b.ids, Targets(action, p), b.reference);
    AllowedIsFit(p);
    ExactAudienceIff(Accounts(p.items), b.ids);
    assert (b.log + [entry])[..|b.log|] == b.log;
    forall i | 0 <= i < |p.items|
      ensures Fit(action, p.items[i]) && Names(action, p.items[i], entry.targets[i])
    {
      assert p.items[i] in p.items;
    }
  }

  lemma AnswerKeeps(b: Batch, reply: Reply)
    requires Inv(b) && b.pending.Some?
    ensures Inv(Answered(b, reply))
  {
    hide Complete, ReviewedCommit;
    QuietEntry(b.log, Closed);
    if reply.PreviewReply? {
      QuietEntry(b.log, Reviewed(b.ids, reply.preview));
    }
  }

  lemma StepKeepsInv(b: Batch, e: Event)
    requires Inv(b) && Possible(b, e)
    ensures Inv(Step(b, e))
  {
    hide Inv, Complete, ReviewedCommit, Allowed, SelectionSet, PreviewSent, CommitSent, Answered, Confirmed;
    match e
    case Commit(action) => CommitKeeps(b, action);
    case Answer(reply) => AnswerKeeps(b, reply);
    case Toggle(id, checked) => SelectionKeeps(b, if checked then b.ids + [id] else Filter(b.ids, (value: string) => value != id));
    case ClearSelection => SelectionKeeps(b, []);
    case AskPreview => AskKeeps(b);
    case Confirm(which, on) => TickKeeps(b, which, on);
    case WriteReference(text) => ReferenceKeeps(b, text);
  }

  lemma SelectionKeeps(b: Batch, ids: seq<string>)
    requires Inv(b)
    ensures Inv(SelectionSet(b, ids))
  {
    hide Complete, ReviewedCommit;
    QuietEntry(b.log, SelectionChanged);
  }

  lemma AskKeeps(b: Batch)
    requires Inv(b)
    ensures Inv(PreviewSent(b))
  {
    hide Complete, ReviewedCommit;
    QuietEntry(b.log, PreviewAsked);
  }

  lemma TickKeeps(b: Batch, which: Action, on: bool)
    requires Inv(b) && b.preview.Some?
    ensures Inv(Confirmed(b, which, on))
  {
    hide Complete, ReviewedCommit;
    QuietEntry(b.log, Ticked(which, on));
  }

  lemma ReferenceKeeps(b: Batch, text: string)
    requires Inv(b)
    ensures Inv(b.(reference := text))
  {
    hide Complete, ReviewedCommit;
  }

  ghost predicate Orderly(b: Batch, es: seq<Event>)
    decreases |es|
  {
    es != [] ==> Possible(b, es[0]) && Orderly(Step(b, es[0]), es[1..])
  }

  ghost function Run(b: Batch, es: seq<Event>): Batch
    requires Orderly(b, es)
    decreases |es|
  {
    if es == [] then b else Run(Step(b, es[0]), es[1..])
  }

  lemma {:induction false} RunKeepsInv(b: Batch, es: seq<Event>)
    requires Inv(b) && Orderly(b, es)
    ensures Inv(Run(b, es))
    decreases |es|
  {
    if es != [] {
      StepKeepsInv(b, es[0]);
      RunKeepsInv(Step(b, es[0]), es[1..]);
    }
  }

  /**
   Over every run, every save, approval and delivery is of the review on screen, ticked as reviewed, of exactly the
   selected accounts, with every item fit for it.
   */
  lemma EveryCommitIsReviewed(es: seq<Event>, k: nat)
    requires Orderly(Opened(), es) && k < |Run(Opened(), es).log|
    ensures ReviewedCommit(Run(Opened(), es).log, k)
  {
    RunKeepsInv(Opened(), es);
  }

  // ---------------------------------------------------------------- what is shown

  ghost predicate DifferentNotices(items: seq<Item>) {
    forall i, j :: 0 <= i < j < |items| && items[i].notice.Some? && items[j].notice.Some? ==>
                     items[i].notice.value.id != items[j].notice.value.id
  }

  lemma {:induction false} NoticeIdsAre(items: seq<Item>, id: string)
    ensures id in NoticeIds(items) <==> exists i :: 0 <= i < |items| && items[i].notice.Some? && items[i].notice.value.id == id
  {
    if items != [] {
      NoticeIdsAre(items[1..], id);
      if i :| 0 <= i < |items| && items[i].notice.Some? && items[i].notice.value.id == id {
        assert i > 0 ==> items[1..][i - 1] == items[i];
      }
    }
  }

  lemma PrefixedIsDistinct(id: string, rest: seq<string>)
    ensures Distinct([id] + rest) <==> id !in rest && Distinct(rest)
  {
    var all := [id] + rest;
    if Distinct(all) {
      assert forall i :: 0 <= i < |rest| ==> all[i + 1] == rest[i] && all[0] == id;
    }
  }

  lemma {:induction false} NoticeIdsDiffer(items: seq<Item>)
    ensures Distinct(NoticeIds(items)) <==> DifferentNotices(items)
  {
    if items != [] {
      NoticeIdsDiffer(items[1..]);
      assert items[0].notice.None? ==> NoticeIds(items) == NoticeIds(items[1..]);
      if items[0].notice.Some? {
        NoticeIdsAre(items[1..], items[0].notice.value.id);
        PrefixedIsDistinct(items[0].notice.value.id, NoticeIds(items[1..]));
      }
      FirstDiffers(items);
    }
  }

  lemma FirstDiffers(items: seq<Item>)
    requires items != []
    ensures DifferentNotices(items)
       <==> && DifferentNotices(items[1..])
            && (items[0].notice.Some? ==>
                  !exists i :: && 0 <= i < |items[1..]| && items[1..][i].notice.Some?
                               && items[1..][i].notice.value.id == items[0].notice.value.id)
  {
    var rest := items[1..];
    assert forall i :: 0 <= i < |rest| ==> rest[i] == items[i + 1];
    forall i, j | 0 < i < j < |items| && DifferentNotices(rest) && items[i].notice.Some? && items[j].notice.Some?
      ensures items[i].notice.value.id != items[j].notice.value.id
    {
      assert rest[i - 1] == items[i] && rest[j - 1] == items[j];
    }
    forall j | 0 < j < |items|
      ensures items[j] == rest[j - 1]
    {
    }
  }

  /** Ticking an account adds it last, unticking removes it wherever it is; the others stay, and the review is over. */
  lemma SelectionOf(b: Batch, id: string, checked: bool)
    requires Inv(b) && b.pending.None?
    ensures var after := Step(b, Toggle(id, checked));
            && after.preview.None? && !after.confirmed && !after.approvalConfirmed && !after.sendConfirmed && after.reference == ""
            && (id in after.ids <==> checked) && (forall other :: other != id ==> (other in after.ids <==> other in b.ids))
            && (checked ==> after.ids[..|b.ids|] == b.ids && |after.ids| == |b.ids| + 1)
            && (id !in b.ids && !checked ==> after.ids == b.ids)
  {
    if id !in b.ids && !checked {
      FilterAll(b.ids, (value: string) => value != id);
    }
  }

  /** A commit uses up the review and its ticks, and keeps what was reviewed until the answer; a delivery clears the reference too. */
  lemma CommitUsesUp(b: Batch, action: Action)
    requires Inv(b) && Allowed(b, action)
    ensures var after := Step(b, Commit(action));
            && after.preview.None? && !after.confirmed && !after.approvalConfirmed && !after.sendConfirmed && after.approved.None?
            && after.pending == Some(Acting(action, b.preview.value)) && after.ids == b.ids
            && after.reference == (if action == Send then "" else b.reference)
  {
  }

  /**
   An answered preview is shown exactly when it is one of the selected accounts, each once, all as at one moment, with
   different notices, each of its own account. Otherwise nothing is shown, and either way nothing is ticked.
   */
  lemma PreviewShownIff(b: Batch, p: Preview)
    requires Inv(b) && b.pending == Some(Previewing)
    ensures var after := Answered(b, PreviewReply(p));
            && after.pending.None? && !after.confirmed && !after.approvalConfirmed && !after.sendConfirmed
            && (after.preview.Some? ==> after.preview.value == p)
            && (after.preview.Some?
                <==> && multiset(Accounts(p.items)) == multiset(b.ids) && Distinct(b.ids) && DifferentNotices(p.items)
                     && forall item :: item in p.items ==>
                          item.asOf == p.asOf && (item.notice.Some? ==> item.notice.value.accountId == item.accountId))
  {
    ExactAudienceIff(Accounts(p.items), b.ids);
    CountElements(NoticeIds(p.items));
    NoticeIdsDiffer(p.items);
  }

  lemma {:induction false} FoundItem(items: seq<Item>, i: nat)
    requires i < |items| && Distinct(Accounts(items))
    ensures FindItem(items, items[i].accountId) == Some(items[i])
  {
    if i > 0 {
      assert Accounts(items)[0] != Accounts(items)[i];
      forall j, k | 0 <= j < k < |items[1..]|
        ensures Accounts(items[1..])[j] != Accounts(items[1..])[k]
      {
        assert Accounts(items)[j + 1] != Accounts(items)[k + 1];
      }
      FoundItem(items[1..], i - 1);
    }
  }

  /** A verified approval covers every reviewed notice, in its reviewed words and in a new revision. */
  lemma ApprovalCoversReview(notices: seq<Notice>, reviewed: Preview, ids: seq<string>, item: Item)
    requires Complete(reviewed, ids) && ApprovalVerified(notices, reviewed, ids) && item in reviewed.items
    ensures item.notice.Some?
    ensures exists n :: n in notices && n.accountId == item.accountId && n.id == item.notice.value.id
                        && n.message == item.notice.value.message && n.revision != item.notice.value.revision
  {
    var accounts := Map(notices, (n: Notice) => n.accountId);
    ExactAudienceIff(Accounts(reviewed.items), ids);
    ExactAudienceIff(accounts, ids);
    var i :| 0 <= i < |reviewed.items| && reviewed.items[i] == item;
    assert Accounts(reviewed.items)[i] == item.accountId;
    assert item.accountId in multiset(Accounts(reviewed.items));
    assert item.accountId in multiset(accounts) && item.accountId in accounts;
    var j :| 0 <= j < |accounts| && accounts[j] == item.accountId;
    var n := notices[j];
    assert n in notices && Approves(n, reviewed);
    CountElements(Accounts(reviewed.items));
    FoundItem(reviewed.items, i);
  }

  /** `n` is the reviewed notice of its account, approved as it was reviewed. */
  predicate ApprovedAsReviewed(n: Notice, item: Item) {
    && item.accountId == n.accountId && item.notice.Some? && item.notice.value.id == n.id
    && item.notice.value.message == n.message && item.notice.value.revision != n.revision
    && n.status == ApprovedStatus && n.sourceCurrent && !n.canApprove
  }

  lemma ApprovesIff(n: Notice, reviewed: Preview, ids: seq<string>)
    requires Complete(reviewed, ids)
    ensures Approves(n, reviewed) <==> exists item :: item in reviewed.items && ApprovedAsReviewed(n, item)
  {
    CountElements(Accounts(reviewed.items));
    if item :| item in reviewed.items && ApprovedAsReviewed(n, item) {
      var i :| 0 <= i < |reviewed.items| && reviewed.items[i] == item;
      FoundItem(reviewed.items, i);
    }
  }

  /** An approval is reported exactly when each selected account's notice, and no other, is approved as reviewed. */
  lemma ApprovalShownIff(b: Batch, reviewed: Preview, notices: seq<Notice>)
    requires b.pending == Some(Acting(Approve, reviewed)) && Complete(reviewed, b.ids) && b.approved.None?
    ensures Answered(b, ApprovedReply(notices)).approved.Some?
       <==> && multiset(Map(notices, (n: Notice) => n.accountId)) == multiset(b.ids)
            && forall n :: n in notices ==> exists item :: item in reviewed.items && ApprovedAsReviewed(n, item)
  {
    ExactAudienceIff(Accounts(reviewed.items), b.ids);
    ExactAudienceIff(Map(notices, (n: Notice) => n.accountId), b.ids);
    forall n
      ensures Approves(n, reviewed) <==> exists item :: item in reviewed.items && ApprovedAsReviewed(n, item)
    {
      ApprovesIff(n, reviewed, b.ids);
    }
    hide Complete, Approves, ApprovedAsReviewed;
  }

  // ---------------------------------------------------------------- the component

  class NoticeWorkspace {
    var ids: seq<string>
    var preview: Option<Preview>
    var approved: Option<seq<Notice>>
    var confirmed: bool
    var approvalConfirmed: bool
    var sendConfirmed: bool
    var reference: string
    var pending: Option<Pending>
    ghost var log: seq<Entry>

    constructor ()
      ensures State() == Opened()
    {
      ids, preview, approved, confirmed, approvalConfirmed := [], None, None, false, false;
      sendConfirmed, reference, pending, log := false, "", None, [];
    }

    ghost function State(): Batch
      reads this
    {
      Batch(ids, preview, approved, confirmed, approvalConfirmed, sendConfirmed, reference, pending, log)
    }

    method Clear()
      modifies this
      ensures State() == ClearReview(old(State()))
    {
      preview, approved := None, None;
      confirmed, approvalConfirmed, sendConfirmed := false, false, false;
      reference := "";
    }

    method Select(id: string, checked: bool)
      modifies this
      ensures State() == Toggled(old(State()), id, checked)
    {
      Clear();
      ids := if checked then ids + [id] else Filter(ids, (value: string) => value != id);
      log := log + [SelectionChanged];
    }

    method Tick(which: Action, on: bool)
      modifies this
      ensures State() == Confirmed(old(State()), which, on)
    {
      match which {
        case Prepare => confirmed := on;
        case Approve => approvalConfirmed := on;
        case Send => sendConfirmed := on;
      }
      log := log + [Ticked(which, on)];
    }

    /** `act("preview")` up to its `await`. */
    method AskPreview()
      modifies this
      ensures State() == PreviewSent(old(State()))
    {
      preview, approved, pending := None, None, Some(Previewing);
      confirmed, approvalConfirmed, sendConfirmed := false, false, false;
      log := log + [PreviewAsked];
    }

    /** `act("prepare")`, `act("approve")` and `sendAudience`; the first has no check of held items of its own. */
    method Act(action: Action) returns (sent: Option<seq<Target>>)
      requires pending.None?
      requires action.Prepare? && preview.Some? ==> forall item :: item in preview.value.items ==> Fit(Prepare, item)
      modifies this
      ensures sent.Some? <==> && old(preview).Some? && (forall item :: item in old(preview).value.items ==> Fit(action, item))
                              && (action.Prepare? ==> old(confirmed)) && (action.Send? ==> old(sendConfirmed))
                              && (action.Approve? ==> old(approvalConfirmed) && |old(reference)| >= 3)
      ensures sent.Some? <==> Allowed(old(State()), action)
      ensures sent.None? ==> State() == old(State())
      ensures sent.Some? ==>
                && State() == CommitSent(old(State()), action)
                && sent.value == Targets(action, old(preview).value)
    {
      sent := None;
      if preview.None? {
        return;
      }
      var reviewed := preview.value;
      AllowedIsFit(reviewed);
      hide Fit, CanApprove, CanSend, Held;
      match action {
        case Prepare =>
          if !confirmed {
            return;
          }
        case Approve =>
          if !approvalConfirmed || |reference| < 3 || !CanApprove(reviewed) {
            return;
          }
        case Send =>
          if !CanSend(reviewed) || !sendConfirmed {
            return;
          }
      }
      sent := Some(Targets(action, reviewed));
      log := log + [Committed(action, ids, sent.value, reference)];
      preview, approved, pending := None, None, Some(Acting(action, reviewed));
      confirmed, approvalConfirmed, sendConfirmed := false, false, false;
      if action.Send? {
        reference := "";
      }
    }

    method Finish(reply: Reply)
      requires pending.Some?
      modifies this
      ensures State() == Answered(old(State()), reply)
    {
      if pending.value.Previewing? && reply.PreviewReply? && Complete(reply.preview, ids) {
        preview := Some(reply.preview);
        log := log + [Reviewed(ids, reply.preview)];
      } else {
        if pending.value.Acting? && pending.value.action.Approve? && reply.ApprovedReply?
           && ApprovalVerified(reply.notices, pending.value.reviewed, ids) {
          approved, reference := Some(reply.notices), "";
        }
        log := log + [Closed];
      }
      pending := None;
    }
  }

  // ---------------------------------------------------------------- delivery

  datatype Delivery = NotAttempted | InProgress | Accepted | ReviewRequired

  /** What one dispatch gives back: the notice the provider accepted, or anything else. */
  datatype Dispatched = Dispatched(notice: Notice, accepted: bool, said: bool) | Lost

  /** The reply repeats the reviewed notice and says, both ways, that it was accepted. */
  predicate Confirms(reply: Dispatched, n: Notice) {
    && reply.Dispatched? && reply.said && reply.accepted
    && reply.notice.id == n.id && reply.notice.accountId == n.accountId && reply.notice.revision == n.revision
    && reply.notice.message == n.message
  }

  /** One at a time, in order, stopping at the first dispatch that is not confirmed. */
  method Deliver(audience: seq<Notice>, reply: nat -> Dispatched, aborted: nat -> bool)
    returns (results: seq<Delivery>, dispatched: nat)
    ensures |results| == |audience| && dispatched <= |audience|
    ensures forall i :: 0 <= i < |audience| ==> (results[i] == NotAttempted <==> i >= dispatched)
    ensures forall i :: 0 <= i < |audience| ==> results[i] != InProgress
    ensures forall i :: 0 <= i < dispatched ==>
              (results[i] == Accepted
               <==> && reply(i).Dispatched? && reply(i).said && reply(i).accepted && reply(i).notice.id == audience[i].id
                    && reply(i).notice.accountId == audience[i].accountId && reply(i).notice.revision == audience[i].revision
                    && reply(i).notice.message == audience[i].message)
    ensures forall i :: 0 <= i < dispatched ==> results[i] in {Accepted, ReviewRequired} && !aborted(i)
    ensures forall i :: 0 <= i < dispatched - 1 ==> results[i] == Accepted
    ensures dispatched < |audience| ==> aborted(dispatched) || (dispatched > 0 && results[dispatched - 1] == ReviewRequired)
  {
    results := seq(|audience|, _ => NotAttempted);
    dispatched := 0;
    while dispatched < |audience| && !aborted(dispatched)
      invariant dispatched <= |audience| == |results|
      invariant forall i :: 0 <= i < dispatched ==> results[i] == Accepted && Confirms(reply(i), audience[i]) && !aborted(i)
      invariant forall i :: dispatched <= i < |audience| ==> results[i] == NotAttempted
    {
      results := results[dispatched := InProgress];
      var outcome := reply(dispatched);
      results := results[dispatched := if Confirms(outcome, audience[dispatched]) then Accepted else ReviewRequired];
      dispatched := dispatched + 1;
      if results[dispatched - 1] != Accepted {
        break;
      }
    }
  }
}
