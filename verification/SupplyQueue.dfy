/** The paid-supplies queue: after a supply of unknown outcome nothing is supplied until a later read says PAID. */
module SupplyQueue {
  import opened Collections

  datatype Status = Paid | PaymentReview | Fulfilled

  datatype Order = Order(id: string, status: Status)

  /** How a read ends: orders of the right shape, 401 or 403, anything else. */
  datatype ReadEnd = Orders(orders: seq<Order>) | ReadDenied | ReadFailed

  /** How a supply POST ends: confirmed; 401 or 403; 400, 404 or 409; anything else. */
  datatype PostEnd = Confirmed | PostDenied | Refused | Unclear

  /** What happened: the reads that were still the current ones when they ended, and the supply POSTs. */
  datatype Entry =
    | ReadStarted(read: nat)
    | ReadEnded(read: nat, how: ReadEnd)
    | Posted(id: string)
    | PostAnswered(id: string, outcome: PostEnd)

  predicate Showed(e: Entry) {
    e.ReadEnded? && e.how.Orders?
  }

  predicate Unknown(e: Entry) {
    e.PostAnswered? && e.outcome.Unclear?
  }

  /** `read` is the current read controller while its request is out, `posting` the supply POST that is out. */
  datatype Queue = Queue(
    orders: seq<Order>, saving: bool, posting: Option<string>, uncertain: bool, blocked: bool,
    confirming: Option<string>, loading: bool, loaded: bool, readError: bool, read: Option<nat>, issued: nat,
    log: seq<Entry>)

  function Logged(q: Queue, e: Entry): Queue {
    q.(log := q.log + [e])
  }

  /** `refresh` up to its `await`. */
  function Refreshing(q: Queue): Queue {
    Logged(q.(read := Some(q.issued), issued := q.issued + 1, loading := true, readError := false), ReadStarted(q.issued))
  }

  /** The end of a `refresh`; a supply that awaited it is finished as well. */
  function Refreshed(q: Queue, read: nat, end: ReadEnd): Queue {
    if q.read != Some(read) then q
    else
      var idle := Logged(q.(read := None, loading := false, saving := q.saving && q.posting.Some?), ReadEnded(read, end));
      match end
      case ReadFailed => idle.(readError := true)
      case ReadDenied => idle.(orders := [], loaded := false, confirming := None, readError := true)
      case Orders(orders) =>
        idle.(orders := orders, loaded := true, uncertain := false,
              blocked := if q.uncertain then false else q.blocked,
              confirming := if q.uncertain then None else q.confirming)
  }

  /** The guards at the head of `fulfil`. */
  predicate MayFulfil(q: Queue) {
    !q.saving && !q.uncertain && !q.loading && !q.readError && q.loaded
  }

  function Fulfilling(q: Queue, id: string): Queue {
    if !MayFulfil(q) then q else Logged(q.(saving := true, posting := Some(id)), Posted(id))
  }

  function Supplied(orders: seq<Order>, id: string): seq<Order> {
    Map(orders, (o: Order) => if o.id == id then o.(status := Fulfilled) else o)
  }

  function PostEnded(q: Queue, end: PostEnd): Queue
    requires q.posting.Some?
  {
    var id := q.posting.value;
    var ended := Logged(q.(posting := None), PostAnswered(id, end));
    match end
    case Confirmed => Refreshing(ended.(orders := Supplied(q.orders, id), confirming := None))
    case PostDenied => ended.(saving := false, orders := [], loaded := false, confirming := None, readError := true)
    case Refused => ended.(saving := false)
    case Unclear => ended.(saving := false, uncertain := true, blocked := true)
  }

  datatype Event = Refresh | ReadEnds(read: nat, shown: ReadEnd) | Ask(id: string) | NotYet | Fulfil(id: string) | PostEnds(outcome: PostEnd)

  predicate ShownPaid(orders: seq<Order>, id: string) {
    exists o :: o in orders && o.id == id && o.status == Paid
  }

  /** The buttons: refreshing is disabled while loading or saving, supplying is offered for a PAID order only. */
  predicate Possible(q: Queue, e: Event) {
    match e
    case Refresh => q.read.None? && !q.saving
    case ReadEnds(_, _) => true
    case Ask(id) => ShownPaid(q.orders, id)
    case NotYet => true
    case Fulfil(id) => ShownPaid(q.orders, id) && q.confirming == Some(id) && !q.saving && !q.loading && !q.readError && !q.blocked
    case PostEnds(_) => q.posting.Some?
  }

  function Step(q: Queue, e: Event): Queue
    requires Possible(q, e)
  {
    match e
    case Refresh => Refreshing(q)
    case ReadEnds(read, end) => Refreshed(q, read, end)
    case Ask(id) => q.(confirming := Some(id))
    case NotYet => q.(confirming := None)
    case Fulfil(id) => Fulfilling(q, id)
    case PostEnds(end) => PostEnded(q, end)
  }

  function Opened(): Queue {
    Queue([], false, None, false, false, None, true, false, false, None, 0, [])
  }

  // ---------------------------------------------------------------- the rule

  /** Between positions `j` and `k`: a read begins after `j` and is shown before `k` with order `id` PAID. */
  ghost predicate ReadSince(log: seq<Entry>, j: nat, k: nat, id: string) {
    exists s: nat, r: nat ::
      && j < s < r < k <= |log| && log[s].ReadStarted? && Showed(log[r]) && log[r].read == log[s].read
      && ShownPaid(log[r].how.orders, id)
  }

  ghost predicate RecheckedPost(log: seq<Entry>, k: nat)
    requires k < |log|
  {
    log[k].Posted? ==> forall j: nat :: j < k && Unknown(log[j]) ==> ReadSince(log, j, k, log[k].id)
  }

  ghost predicate AllRechecked(log: seq<Entry>) {
    forall k :: 0 <= k < |log| ==> RecheckedPost(log, k)
  }

  /** The current read began after every unknown outcome. */
  ghost predicate ReadIsLater(log: seq<Entry>, read: nat) {
    exists s: nat :: s < |log| && log[s] == ReadStarted(read) && forall j: nat :: s <= j < |log| ==> !Unknown(log[j])
  }

  /** The orders that the log says are on screen: those last read, with what was confirmed since, unless access ended. */
  function ShownBy(log: seq<Entry>): seq<Order> {
    if log == [] then []
    else
      var before := ShownBy(log[..|log| - 1]);
      match log[|log| - 1]
      case ReadEnded(_, Orders(orders)) => orders
      case ReadEnded(_, ReadDenied) => []
      case PostAnswered(_, PostDenied) => []
      case PostAnswered(id, Confirmed) => Supplied(before, id)
      case _ => before
  }

  /** An outcome is unknown, and no read has succeeded since. */
  function LockedBy(log: seq<Entry>): bool {
    log != [] && (Unknown(log[|log| - 1]) || (!Showed(log[|log| - 1]) && LockedBy(log[..|log| - 1])))
  }

  ghost predicate Inv(q: Queue) {
    && AllRechecked(q.log)
    && (q.posting.Some? ==> q.saving && q.read.None? && !q.loading)
    && (q.read.Some? ==> q.loading && q.read.value < q.issued && ReadIsLater(q.log, q.read.value))
    && (q.saving && q.posting.None? ==> q.read.Some?)
    && q.orders == ShownBy(q.log) && q.uncertain == LockedBy(q.log) && q.blocked == q.uncertain
    && (!q.uncertain ==> forall id, j: nat :: ShownPaid(q.orders, id) && j < |q.log| && Unknown(q.log[j]) ==>
                           ReadSince(q.log, j, |q.log|, id))
  }

  lemma SinceGrows(log: seq<Entry>, e: Entry, j: nat, k: nat, id: string)
    requires ReadSince(log, j, k, id)
    ensures ReadSince(log + [e], j, k, id)
  {
    var s: nat, r: nat :| j < s < r < k <= |log| && log[s].ReadStarted? && Showed(log[r]) && log[r].read == log[s].read
                          && ShownPaid(log[r].how.orders, id);
    assert (log + [e])[s] == log[s] && (log + [e])[r] == log[r];
  }

  lemma SinceLater(log: seq<Entry>, j: nat, k: nat, later: nat, id: string)
    requires ReadSince(log, j, k, id) && k <= later <= |log|
    ensures ReadSince(log, j, later, id)
  {
    var s: nat, r: nat :| j < s < r < k <= |log| && log[s].ReadStarted? && Showed(log[r]) && log[r].read == log[s].read
                          && ShownPaid(log[r].how.orders, id);
    assert r < later;
  }

  lemma AppendedLog(log: seq<Entry>, e: Entry)
    requires AllRechecked(log)
    requires e.Posted? ==> forall j: nat :: j < |log| && Unknown(log[j]) ==> ReadSince(log, j, |log|, e.id)
    ensures AllRechecked(log + [e])
  {
    var after := log + [e];
    forall k | 0 <= k < |after|
      ensures RecheckedPost(after, k)
    {
      if after[k].Posted? {
        forall j: nat | j < k && Unknown(after[j])
          ensures ReadSince(after, j, k, after[k].id)
        {
          assert log[j] == after[j];
          if k < |log| {
            assert RecheckedPost(log, k) && log[k] == after[k];
          }
          SinceGrows(log, e, j, k, after[k].id);
        }
      }
    }
  }

  lemma Appended(log: seq<Entry>, e: Entry)
    ensures (log + [e])[..|log|] == log && (log + [e])[|log|] == e
  {
  }

  ghost predicate KnownPaid(log: seq<Entry>, orders: seq<Order>) {
    forall id, j: nat :: ShownPaid(orders, id) && j < |log| && Unknown(log[j]) ==> ReadSince(log, j, |log|, id)
  }

  /** What the shown orders are known to be, kept by an entry that is not an unknown outcome. */
  lemma KnownPaidKept(log: seq<Entry>, orders: seq<Order>, e: Entry, orders': seq<Order>)
    requires KnownPaid(log, orders) && !Unknown(e) && forall id :: ShownPaid(orders', id) ==> ShownPaid(orders, id)
    ensures KnownPaid(log + [e], orders')
  {
    var after := log + [e];
    forall id, j: nat | ShownPaid(orders', id) && j < |after| && Unknown(after[j])
      ensures ReadSince(after, j, |after|, id)
    {
      assert log[j] == after[j];
      SinceGrows(log, e, j, |log|, id);
      SinceLater(after, j, |log|, |after|, id);
    }
  }

  lemma RefreshKeeps(q: Queue)
    requires Inv(q) && q.read.None? && q.posting.None?
    ensures Inv(Refreshing(q))
  {
    var e := ReadStarted(q.issued);
    Appended(q.log, e);
    AppendedLog(q.log, e);
    if !q.uncertain {
      KnownPaidKept(q.log, q.orders, e, q.orders);
    }
  }

  lemma ShownKeeps(q: Queue, orders: seq<Order>)
    requires Inv(q) && q.read.Some?
    ensures Inv(Refreshed(q, q.read.value, Orders(orders)))
  {
    var read := q.read.value;
    var e := ReadEnded(read, Orders(orders));
    var after := q.log + [e];
    Appended(q.log, e);
    AppendedLog(q.log, e);
    var s: nat :| s < |q.log| && q.log[s] == ReadStarted(read) && forall j: nat :: s <= j < |q.log| ==> !Unknown(q.log[j]);
    forall id, j: nat | ShownPaid(orders, id) && j < |after| && Unknown(after[j])
      ensures ReadSince(after, j, |after|, id)
    {
      assert after[s] == ReadStarted(read) && after[|q.log|] == e;
    }
  }

  lemma OtherReadEndKeeps(q: Queue, end: ReadEnd)
    requires Inv(q) && q.read.Some? && !end.Orders?
    ensures Inv(Refreshed(q, q.read.value, end))
  {
    var e := ReadEnded(q.read.value, end);
    Appended(q.log, e);
    AppendedLog(q.log, e);
    if !q.uncertain {
      KnownPaidKept(q.log, q.orders, e, Refreshed(q, q.read.value, end).orders);
    }
  }

  lemma FulfilKeeps(q: Queue, id: string)
    requires Inv(q) && ShownPaid(q.orders, id)
    ensures Inv(Fulfilling(q, id))
  {
    if MayFulfil(q) {
      Appended(q.log, Posted(id));
      AppendedLog(q.log, Posted(id));
      KnownPaidKept(q.log, q.orders, Posted(id), q.orders);
    }
  }

  lemma SuppliedPaid(orders: seq<Order>, id: string, other: string)
    requires ShownPaid(Supplied(orders, id), other)
    ensures ShownPaid(orders, other) && other != id
  {
    var o :| o in Supplied(orders, id) && o.id == other && o.status == Paid;
    var i :| 0 <= i < |orders| && Supplied(orders, id)[i] == o;
    assert orders[i] in orders;
  }

  lemma AnswerKeeps(q: Queue, end: PostEnd, orders: seq<Order>)
    requires Inv(q) && q.posting.Some? && orders == ShownBy(q.log + [PostAnswered(q.posting.value, end)])
    requires !end.Unclear? ==> forall other :: ShownPaid(orders, other) ==> ShownPaid(q.orders, other)
    ensures var e := PostAnswered(q.posting.value, end);
            forall after: Queue :: after == q.(log := q.log + [e], posting := None, saving := false, orders := orders,
                                        uncertain := q.uncertain || end.Unclear?, blocked := q.uncertain || end.Unclear?,
                                        confirming := after.confirming, loaded := after.loaded, readError := after.readError)
                            ==> Inv(after)
  {
    var e := PostAnswered(q.posting.value, end);
    Appended(q.log, e);
    AppendedLog(q.log, e);
    if !q.uncertain && !end.Unclear? {
      KnownPaidKept(q.log, q.orders, e, orders);
    }
  }

  lemma PostEndKeeps(q: Queue, end: PostEnd)
    requires Inv(q) && q.posting.Some?
    ensures Inv(PostEnded(q, end))
  {
    var id := q.posting.value;
    Appended(q.log, PostAnswered(id, end));
    forall other | end.Confirmed? && ShownPaid(Supplied(q.orders, id), other)
      ensures ShownPaid(q.orders, other)
    {
      SuppliedPaid(q.orders, id, other);
    }
    AnswerKeeps(q, end, ShownBy(q.log + [PostAnswered(id, end)]));
    hide Inv;
    if end.Confirmed? {
      RefreshKeeps(q.(log := q.log + [PostAnswered(id, end)], posting := None, saving := false,
                      orders := Supplied(q.orders, id), confirming := None));
    }
  }

  lemma StepKeepsInv(q: Queue, e: Event)
    requires Inv(q) && Possible(q, e)
    ensures Inv(Step(q, e))
  {
    match e
    case Refresh => RefreshKeeps(q);
    case ReadEnds(read, end) =>
      if q.read == Some(read) {
        match end {
          case Orders(orders) => ShownKeeps(q, orders);
          case _ => OtherReadEndKeeps(q, end);
        }
      }
    case Fulfil(id) => FulfilKeeps(q, id);
    case PostEnds(end) => PostEndKeeps(q, end);
    case Ask(_) =>
    case NotYet =>
  }

  ghost predicate Orderly(q: Queue, es: seq<Event>)
    decreases |es|
  {
    es != [] ==> Possible(q, es[0]) && Orderly(Step(q, es[0]), es[1..])
  }

  ghost function Run(q: Queue, es: seq<Event>): Queue
    requires Orderly(q, es)
    decreases |es|
  {
    if es == [] then q else Run(Step(q, es[0]), es[1..])
  }

  lemma {:induction false} RunKeepsInv(q: Queue, es: seq<Event>)
    requires Inv(q) && Orderly(q, es)
    ensures Inv(Run(q, es))
    decreases |es|
  {
    if es != [] {
      StepKeepsInv(q, es[0]);
      RunKeepsInv(Step(q, es[0]), es[1..]);
    }
  }

  /**
   Over every run, a supply POST that follows an unknown outcome follows a read that began after that outcome and
   shows its order as PAID; and no read is out while a supply POST is.
   */
  lemma UncertainSupplyIsRechecked(es: seq<Event>)
    requires Orderly(Opened(), es)
    ensures AllRechecked(Run(Opened(), es).log)
    ensures Run(Opened(), es).posting.Some? ==> Run(Opened(), es).read.None?
  {
    RunKeepsInv(Opened(), es);
  }

  // ---------------------------------------------------------------- what is shown

  /** Only a confirmed supply changes an order, and only its own; only an unclear one locks; after success it is read anew. */
  lemma SupplyOutcome(q: Queue, end: PostEnd)
    requires q.posting.Some?
    ensures var id, after := q.posting.value, PostEnded(q, end);
            && after.posting.None? && (!end.Confirmed? ==> !after.saving && after.read == q.read)
            && (end.Refused? ==>
                  && after.orders == q.orders && after.uncertain == q.uncertain && after.blocked == q.blocked
                  && after.confirming == q.confirming && after.readError == q.readError && after.loaded == q.loaded)
            && (end.Unclear? ==> after.orders == q.orders && after.uncertain && after.blocked)
            && (end.PostDenied? ==> after.orders == [] && !after.loaded && after.readError && after.uncertain == q.uncertain)
            && (end.Confirmed? ==>
                  && |after.orders| == |q.orders| && after.uncertain == q.uncertain && after.blocked == q.blocked
                  && after.read == Some(q.issued) && after.loading && after.saving == q.saving
                  && forall i :: 0 <= i < |q.orders| ==>
                       after.orders[i] == if q.orders[i].id == id then Order(id, Fulfilled) else q.orders[i])
  {
    if end.Confirmed? {
      ConfirmedSupply(q);
    } else {
      UnconfirmedSupply(q, end);
    }
    hide PostEnded;
  }

  lemma ConfirmedSupply(q: Queue)
    requires q.posting.Some?
    ensures var id, after := q.posting.value, PostEnded(q, Confirmed);
            && after.posting.None? && |after.orders| == |q.orders| && after.uncertain == q.uncertain && after.blocked == q.blocked
            && after.read == Some(q.issued) && after.loading && after.saving == q.saving
            && forall i :: 0 <= i < |q.orders| ==>
                 after.orders[i] == if q.orders[i].id == id then Order(id, Fulfilled) else q.orders[i]
  {
  }

  lemma UnconfirmedSupply(q: Queue, end: PostEnd)
    requires q.posting.Some? && !end.Confirmed?
    ensures var after := PostEnded(q, end);
            && after.posting.None? && !after.saving && after.read == q.read && after.confirming in {None, q.confirming}
            && (if end.PostDenied? then after.orders == [] && !after.loaded && after.readError
                else after.orders == q.orders && after.confirming == q.confirming && after.loaded == q.loaded && after.readError == q.readError)
            && (if end.Unclear? then after.uncertain && after.blocked
                else after.uncertain == q.uncertain && after.blocked == q.blocked)
  {
    hide Supplied;
  }

  /** A read that is no longer the current one does nothing; a good one shows its orders and lifts the lock, others do not. */
  lemma ReadOutcome(q: Queue, read: nat, end: ReadEnd)
    ensures var after := Refreshed(q, read, end);
            if q.read != Some(read) then after == q
            else
              && after.read.None? && !after.loading
              && (end.Orders? ==> after.orders == end.orders && after.loaded && !after.uncertain && (q.uncertain ==> !after.blocked))
              && (end.ReadDenied? ==> after.orders == [] && !after.loaded && after.readError)
              && (end.ReadFailed? ==> after.orders == q.orders && after.readError)
              && (!end.Orders? ==> after.uncertain == q.uncertain && after.blocked == q.blocked)
  {
  }

  /** Access was refused, by a read or by a supply. */
  predicate Denied(e: Entry) {
    (e.ReadEnded? && e.how.ReadDenied?) || (e.PostAnswered? && e.outcome.PostDenied?)
  }

  ghost predicate ConfirmedAfter(log: seq<Entry>, r: nat, id: string) {
    exists j: nat :: r < j < |log| && log[j] == PostAnswered(id, Confirmed)
  }

  /** The last read that succeeded is at `r`, and access has not been refused since. */
  ghost predicate LastShown(log: seq<Entry>, r: nat) {
    r < |log| && Showed(log[r]) && forall j: nat :: r < j < |log| ==> !Showed(log[j]) && !Denied(log[j])
  }

  /** On screen are the orders of the last good read, as read, but Fulfilled where their supply was confirmed since. */
  ghost predicate AsKnown(log: seq<Entry>, orders: seq<Order>, r: nat)
    requires LastShown(log, r)
  {
    var read := log[r].how.orders;
    && |orders| == |read|
    && forall i :: 0 <= i < |read| ==>
         orders[i] == if ConfirmedAfter(log, r, read[i].id) then Order(read[i].id, Fulfilled) else read[i]
  }

  lemma {:induction false} ShownIsKnown(log: seq<Entry>)
    ensures ShownBy(log) == [] || exists r: nat :: LastShown(log, r) && AsKnown(log, ShownBy(log), r)
  {
    if log != [] {
      var front, last := log[..|log| - 1], log[|log| - 1];
      ShownIsKnown(front);
      if Showed(last) {
        assert LastShown(log, |log| - 1) && AsKnown(log, ShownBy(log), |log| - 1);
      } else if !Denied(last) && ShownBy(front) != [] {
        var r: nat :| LastShown(front, r) && AsKnown(front, ShownBy(front), r);
        KnownGrows(front, last, r);
        assert log == front + [last];
      }
    }
  }

  lemma KnownGrows(log: seq<Entry>, e: Entry, r: nat)
    requires LastShown(log, r) && AsKnown(log, ShownBy(log), r) && !Showed(e) && !Denied(e)
    ensures LastShown(log + [e], r) && AsKnown(log + [e], ShownBy(log + [e]), r)
  {
    var after := log + [e];
    Appended(log, e);
    forall id
      ensures ConfirmedAfter(after, r, id) <==> ConfirmedAfter(log, r, id) || e == PostAnswered(id, Confirmed)
    {
      assert after[|log|] == e;
      if ConfirmedAfter(log, r, id) {
        var j: nat :| r < j < |log| && log[j] == PostAnswered(id, Confirmed);
        assert after[j] == log[j];
      }
    }
  }

  /**
   Over every run the screen shows what is known: nothing, or the orders of the last good read, Fulfilled exactly where
   the read said so or their own supply was confirmed since; and supplying is locked exactly while an outcome is unknown
   that no good read has followed.
   */
  lemma ScreenIsKnown(es: seq<Event>)
    requires Orderly(Opened(), es)
    ensures var q := Run(Opened(), es);
            && (q.orders == [] || exists r: nat :: LastShown(q.log, r) && AsKnown(q.log, q.orders, r))
            && q.uncertain == q.blocked
            && (q.blocked <==> exists j: nat :: j < |q.log| && Unknown(q.log[j]) && forall k :: j < k < |q.log| ==> !Showed(q.log[k]))
  {
    RunKeepsInv(Opened(), es);
    ShownIsKnown(Run(Opened(), es).log);
    LockIsKnown(Run(Opened(), es).log);
  }

  lemma {:induction false} LockIsKnown(log: seq<Entry>)
    ensures LockedBy(log) <==> exists j: nat :: j < |log| && Unknown(log[j]) && forall k :: j < k < |log| ==> !Showed(log[k])
  {
    if log != [] {
      var front, last := log[..|log| - 1], log[|log| - 1];
      LockIsKnown(front);
      if j: nat :| j < |front| && Unknown(front[j]) && forall k :: j < k < |front| ==> !Showed(front[k]) {
        assert log[j] == front[j];
      }
      if j: nat :| j < |log| && Unknown(log[j]) && forall k :: j < k < |log| ==> !Showed(log[k]) {
        assert j < |front| ==> front[j] == log[j] && forall k :: j < k < |front| ==> front[k] == log[k];
      }
    }
  }

  // ---------------------------------------------------------------- the component

  class MerchandiseOrderQueue {
    var orders: seq<Order>
    var saving: bool
    var posting: Option<string>
    var uncertain: bool
    var blocked: bool
    var confirming: Option<string>
    var loading: bool
    var loaded: bool
    var readError: bool
    var readController: Option<nat>
    var issued: nat
    ghost var log: seq<Entry>

    constructor ()
      ensures State() == Opened()
    {
      orders, saving, posting, uncertain, blocked, confirming := [], false, None, false, false, None;
      loading, loaded, readError, readController, issued, log := true, false, false, None, 0, [];
    }

    ghost function State(): Queue
      reads this
    {
      Queue(orders, saving, posting, uncertain, blocked, confirming, loading, loaded, readError, readController, issued, log)
    }

    method Refresh() returns (controller: nat)
      modifies this
      ensures State() == Refreshing(old(State())) && controller == old(issued)
    {
      controller := issued;
      readController, issued := Some(controller), issued + 1;
      loading, readError := true, false;
      log := log + [ReadStarted(controller)];
    }

    method FinishRefresh(controller: nat, end: ReadEnd)
      modifies this
      ensures State() == Refreshed(old(State()), controller, end)
    {
      if readController != Some(controller) {
        return;
      }
      match end {
        case ReadDenied =>
          orders, loaded, confirming, readError := [], false, None, true;
        case ReadFailed =>
          readError := true;
        case Orders(data) =>
          Show(data);
      }
      EndRead(controller, end);
    }

    method Show(data: seq<Order>)
      modifies this
      ensures var q := old(State());
              State() == q.(orders := data, loaded := true, uncertain := false,
                            blocked := if q.uncertain then false else q.blocked,
                            confirming := if q.uncertain then None else q.confirming)
    {
      orders, loaded := data, true;
      if uncertain {
        uncertain, blocked, confirming := false, false, None;
      }
    }

    method EndRead(controller: nat, ghost end: ReadEnd)
      modifies this
      ensures var q := old(State());
              State() == Logged(q.(read := None, loading := false, saving := q.saving && q.posting.Some?), ReadEnded(controller, end))
    {
      readController, loading := None, false;
      log := log + [ReadEnded(controller, end)];
      if posting.None? {
        saving := false;
      }
    }

    method Fulfil(id: string)
      modifies this
      ensures State() == Fulfilling(old(State()), id)
      ensures if !old(saving) && !old(uncertain) && !old(loading) && !old(readError) && old(loaded) then
                posting == Some(id) && saving && log == old(log) + [Posted(id)]
              else State() == old(State())
    {
      if saving || uncertain || loading || readError || !loaded {
        return;
      }
      saving, posting := true, Some(id);
      log := log + [Posted(id)];
    }

    method FinishFulfil(end: PostEnd)
      requires posting.Some?
      modifies this
      ensures State() == PostEnded(old(State()), end)
    {
      if end.Confirmed? {
        RecordSupply();
        return;
      }
      log := log + [PostAnswered(posting.value, end)];
      match end {
        case PostDenied =>
          orders, loaded, confirming, readError := [], false, None, true;
        case Unclear =>
          uncertain, blocked := true, true;
        case _ =>
      }
      posting, saving := None, false;
    }

    method RecordSupply()
      requires posting.Some?
      modifies this
      ensures State() == PostEnded(old(State()), Confirmed)
    {
      var id := posting.value;
      log := log + [PostAnswered(id, Confirmed)];
      orders := Map(orders, (o: Order) => if o.id == id then o.(status := Fulfilled) else o);
      posting, confirming := None, None;
      var controller := Refresh();
    }
  }
}
