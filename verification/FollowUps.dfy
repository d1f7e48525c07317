/** "Open next follow-up": the next account of the queue after the selected one, round and round. */
module FollowUps {
  import opened Collections

  datatype Account = Account(id: string, issue: bool, hold: bool, overdue: int, nextFollowUp: Option<string>)

  /** Dates are compared as text; `due` says whether a follow-up date has come. */
  function Queue(rows: seq<Account>, due: string -> bool): seq<Account> {
    Filter(rows, (r: Account) => Eligible(r, due))
  }

  ghost predicate DistinctIds(queue: seq<Account>) {
    forall i, j :: 0 <= i < j < |queue| ==> queue[i].id != queue[j].id
  }

  /** `findIndex`: -1 when the selection is not in the queue. */
  function IndexOf(queue: seq<Account>, id: string): (index: int)
    ensures -1 <= index < |queue|
    ensures index >= 0 ==> queue[index].id == id
    ensures index == -1 ==> forall r :: r in queue ==> r.id != id
  {
    if queue == [] then -1
    else if queue[0].id == id then 0
    else
      var later := IndexOf(queue[1..], id);
      if later < 0 then -1 else later + 1
  }

  function Next(queue: seq<Account>, selected: string): string
    requires queue != []
  {
    queue[(IndexOf(queue, selected) + 1) % |queue|].id
  }

  /** The selection after `n` clicks. */
  function After(queue: seq<Account>, selected: string, n: nat): string
    requires queue != []
  {
    if n == 0 then selected else Next(queue, After(queue, selected, n - 1))
  }

  /** The accounts opened by the next `n` clicks. */
  function Visited(queue: seq<Account>, selected: string, n: nat): (visited: seq<string>)
    requires queue != []
    ensures |visited| == n
  {
    seq(n, k requires 0 <= k < n => After(queue, selected, k + 1))
  }

  lemma IndexOfMember(queue: seq<Account>, i: nat)
    requires DistinctIds(queue) && i < |queue|
    ensures IndexOf(queue, queue[i].id) == i
  {
    assert queue[i] in queue;
  }

  /** Once round the ring at most. */
  function Wrap(x: nat, size: nat): nat
    requires x < 2 * size
  {
    if x < size then x else x - size
  }

  lemma WrapIsRemainder(x: nat, size: nat)
    requires size > 0 && x <= size
    ensures x % size == Wrap(x, size)
  {
  }

  lemma FirstClick(queue: seq<Account>, selected: string)
    requires queue != []
    ensures Next(queue, selected) == queue[Wrap(IndexOf(queue, selected) + 1, |queue|)].id
  {
    WrapIsRemainder(IndexOf(queue, selected) + 1, |queue|);
  }

  lemma NextClick(queue: seq<Account>, p: nat)
    requires DistinctIds(queue) && p < |queue|
    ensures Next(queue, queue[p].id) == queue[Wrap(p + 1, |queue|)].id
  {
    IndexOfMember(queue, p);
    FirstClick(queue, queue[p].id);
  }

  lemma WrapOnce(start: int, k: nat, size: nat)
    requires -1 <= start < size && 1 < k <= size
    ensures Wrap(start + k - 1, size) < size
    ensures Wrap(Wrap(start + k - 1, size) + 1, size) == Wrap(start + k, size)
  {
  }

  lemma ClickFrom(queue: seq<Account>, selected: string, k: nat, p: nat)
    requires DistinctIds(queue) && p < |queue| && After(queue, selected, k) == queue[p].id
    ensures After(queue, selected, k + 1) == queue[Wrap(p + 1, |queue|)].id
  {
    NextClick(queue, p);
  }

  /** Within one round, the k-th click opens the account k places after the start. */
  lemma {:induction false} ClickPosition(queue: seq<Account>, selected: string, start: int, k: nat)
    requires DistinctIds(queue) && start == IndexOf(queue, selected) && 1 <= k <= |queue|
    ensures After(queue, selected, k) == queue[Wrap(start + k, |queue|)].id
  {
    hide DistinctIds, IndexOf, Next;
    if k > 1 {
      ClickPosition(queue, selected, start, k - 1);
      WrapOnce(start, k, |queue|);
      ClickFrom(queue, selected, k - 1, Wrap(start + k - 1, |queue|));
    } else {
      FirstClick(queue, selected);
      assert After(queue, selected, 0) == selected;
    }
  }

  lemma PlacesDiffer(queue: seq<Account>, start: int, i: nat, j: nat)
    requires DistinctIds(queue) && -1 <= start < |queue| && 1 <= i < j <= |queue|
    ensures queue[Wrap(start + i, |queue|)].id != queue[Wrap(start + j, |queue|)].id
  {
    var p, q := Wrap(start + i, |queue|), Wrap(start + j, |queue|);
    assert p != q;
    assert p < q || q < p;
  }

  lemma VisitedDistinct(queue: seq<Account>, selected: string, start: int, i: nat, j: nat)
    requires DistinctIds(queue) && start == IndexOf(queue, selected) && 1 <= i < j <= |queue|
    ensures After(queue, selected, i) != After(queue, selected, j)
  {
    ClickPosition(queue, selected, start, i);
    ClickPosition(queue, selected, start, j);
    PlacesDiffer(queue, start, i, j);
  }

  lemma VisitedSomewhere(queue: seq<Account>, selected: string, t: nat) returns (k: nat)
    requires DistinctIds(queue) && t < |queue|
    ensures 1 <= k <= |queue| && After(queue, selected, k) == queue[t].id
  {
    var start := IndexOf(queue, selected);
    k := if t > start then t - start else t - start + |queue|;
    ClickPosition(queue, selected, start, k);
  }

  lemma AllVisitedDistinct(queue: seq<Account>, selected: string)
    requires DistinctIds(queue) && queue != []
    ensures forall i, j :: 1 <= i < j <= |queue| ==> After(queue, selected, i) != After(queue, selected, j)
  {
    forall i, j | 1 <= i < j <= |queue|
      ensures After(queue, selected, i) != After(queue, selected, j)
    {
      VisitedDistinct(queue, selected, IndexOf(queue, selected), i, j);
    }
  }

  lemma EachVisited(queue: seq<Account>, selected: string, t: nat)
    requires DistinctIds(queue) && t < |queue|
    ensures queue[t].id in Visited(queue, selected, |queue|)
  {
    var k := VisitedSomewhere(queue, selected, t);
    assert Visited(queue, selected, |queue|)[k - 1] == After(queue, selected, k);
  }

  /** From any selection, n consecutive clicks on a queue of n accounts open each of them exactly once. */
  lemma RotationIsFair(queue: seq<Account>, selected: string)
    requires DistinctIds(queue) && queue != []
    ensures Distinct(Visited(queue, selected, |queue|))
    ensures forall r :: r in queue ==> r.id in Visited(queue, selected, |queue|)
  {
    AllVisitedDistinct(queue, selected);
    forall r | r in queue
      ensures r.id in Visited(queue, selected, |queue|)
    {
      var t :| 0 <= t < |queue| && queue[t] == r;
      EachVisited(queue, selected, t);
    }
  }

  lemma {:induction false} QueueIds(rows: seq<Account>, keep: Account -> bool)
    requires DistinctIds(rows)
    ensures DistinctIds(Filter(rows, keep))
  {
    if rows != [] {
      assert forall r :: r in rows[1..] ==> r.id != rows[0].id;
      QueueIds(rows[1..], keep);
    }
  }

  predicate Eligible(r: Account, due: string -> bool) {
    !r.issue && !r.hold && r.overdue > 0 && (r.nextFollowUp.None? || due(r.nextFollowUp.value))
  }

  /**
   On the page: as many clicks as there are accounts to follow up open every one of them once and no other account. To
   follow up are those without a finance issue or a hold that are overdue and whose next follow-up, if any, has come.
   */
  lemma EveryFollowUpOnce(rows: seq<Account>, due: string -> bool, selected: string)
    requires DistinctIds(rows) && Queue(rows, due) != []
    ensures var visited := Visited(Queue(rows, due), selected, |Queue(rows, due)|);
            && Distinct(visited)
            && forall r :: r in rows ==>
                 (r.id in visited
                  <==> !r.issue && !r.hold && r.overdue > 0 && (r.nextFollowUp.None? || due(r.nextFollowUp.value)))
  {
    QueueIds(rows, (r: Account) => Eligible(r, due));
    RotationIsFair(Queue(rows, due), selected);
    forall r | r in rows && r.id in Visited(Queue(rows, due), selected, |Queue(rows, due)|)
      ensures Eligible(r, due)
    {
      OnlyQueued(Queue(rows, due), selected, r.id);
      var shown :| shown in Queue(rows, due) && shown.id == r.id;
      SameAccount(rows, shown, r);
    }
    hide Visited, Distinct, DistinctIds;
  }

  lemma OnlyQueued(queue: seq<Account>, selected: string, id: string)
    requires queue != [] && id in Visited(queue, selected, |queue|)
    ensures exists r :: r in queue && r.id == id
  {
    var k :| 0 <= k < |queue| && Visited(queue, selected, |queue|)[k] == id;
    var shown := queue[(IndexOf(queue, After(queue, selected, k)) + 1) % |queue|];
    assert shown in queue && shown.id == id;
  }

  lemma SameAccount(rows: seq<Account>, a: Account, b: Account)
    requires DistinctIds(rows) && a in rows && b in rows && a.id == b.id
    ensures a == b
  {
    var i :| 0 <= i < |rows| && rows[i] == a;
    var j :| 0 <= j < |rows| && rows[j] == b;
    assert i < j || j < i || i == j;
  }

  /** The button is there exactly when there is an account to follow up. */
  lemma QueueIsEmptyIff(rows: seq<Account>, due: string -> bool)
    ensures Queue(rows, due) != []
       <==> exists r :: r in rows && !r.issue && !r.hold && r.overdue > 0 && (r.nextFollowUp.None? || due(r.nextFollowUp.value))
  {
    if Queue(rows, due) != [] {
      assert Queue(rows, due)[0] in Queue(rows, due);
    }
    if r :| r in rows && !r.issue && !r.hold && r.overdue > 0 && (r.nextFollowUp.None? || due(r.nextFollowUp.value)) {
      assert r in Queue(rows, due);
    }
  }
}
