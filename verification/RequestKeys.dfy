/** Request keys of collections actions and adjustment requests, against a service with one effect per key. */
module RequestKeys {
  import opened Collections

  type Key = string

  /** One POST: the payload without its key, and the key it went out with. */
  datatype Attempt<P(==)> = Attempt(payload: P, key: Key)

  // ---------------------------------------------------------------- the service

  datatype Service<P(==)> = Service(seen: set<Key>, effects: seq<P>)

  function Receive<P>(s: Service<P>, a: Attempt<P>): Service<P> {
    if a.key in s.seen then s else Service(s.seen + {a.key}, s.effects + [a.payload])
  }

  /** A new service after the attempts that arrive, in order; any of them may be lost, and its reply too. */
  function ReceiveAll<P>(attempts: seq<Attempt<P>>, arrives: nat -> bool): Service<P> {
    if attempts == [] then Service({}, [])
    else
      var before := ReceiveAll(attempts[..|attempts| - 1], arrives);
      if arrives(|attempts| - 1) then Receive(before, attempts[|attempts| - 1]) else before
  }

  /** Two attempts share a key exactly when they ask for the same thing. */
  ghost predicate KeysMatchPayloads<P(!new)>(attempts: seq<Attempt<P>>) {
    forall i, j :: 0 <= i < j < |attempts| ==> (attempts[i].key == attempts[j].key <==> attempts[i].payload == attempts[j].payload)
  }

  ghost predicate Asked<P(!new)>(attempts: seq<Attempt<P>>, payload: P, seen: set<Key>) {
    exists i :: 0 <= i < |attempts| && attempts[i].payload == payload && attempts[i].key in seen
  }

  ghost predicate Used<P(!new)>(attempts: seq<Attempt<P>>, key: Key) {
    exists i :: 0 <= i < |attempts| && attempts[i].key == key
  }

  ghost predicate Accounted<P(!new)>(s: Service<P>, attempts: seq<Attempt<P>>) {
    && (forall p: P :: p in s.effects ==> Asked(attempts, p, s.seen))
    && (forall k: Key :: k in s.seen ==> Used(attempts, k))
  }

  lemma ReceiveKeeps<P(!new)>(s: Service<P>, attempts: seq<Attempt<P>>, a: Attempt<P>, arrives: bool)
    requires Accounted(s, attempts)
    ensures Accounted(if arrives then Receive(s, a) else s, attempts + [a])
  {
    var all, after := attempts + [a], if arrives then Receive(s, a) else s;
    assert all[|attempts|] == a;
    forall p | p in after.effects
      ensures Asked(all, p, after.seen)
    {
      if p in s.effects {
        assert Asked(attempts, p, s.seen);
        var i :| 0 <= i < |attempts| && attempts[i].payload == p && attempts[i].key in s.seen;
        assert all[i] == attempts[i];
      }
    }
    forall k | k in after.seen
      ensures Used(all, k)
    {
      if k in s.seen {
        assert Used(attempts, k);
        var i :| 0 <= i < |attempts| && attempts[i].key == k;
        assert all[i] == attempts[i];
      }
    }
  }

  /** Every effect was asked for with a key now seen, and every seen key was used. */
  lemma {:induction false} EffectsAreAttempts<P(!new)>(attempts: seq<Attempt<P>>, arrives: nat -> bool)
    ensures Accounted(ReceiveAll(attempts, arrives), attempts)
  {
    if attempts != [] {
      var n := |attempts| - 1;
      EffectsAreAttempts(attempts[..n], arrives);
      ReceiveKeeps(ReceiveAll(attempts[..n], arrives), attempts[..n], attempts[n], arrives(n));
      assert attempts == attempts[..n] + [attempts[n]];
    }
  }

  /** With matching keys, each thing asked for takes effect at most once, however often it is retried. */
  lemma {:induction false} AtMostOneEffect<P(!new)>(attempts: seq<Attempt<P>>, arrives: nat -> bool)
    requires KeysMatchPayloads(attempts)
    ensures Distinct(ReceiveAll(attempts, arrives).effects)
  {
    if attempts != [] {
      var n := |attempts| - 1;
      var front := attempts[..n];
      assert KeysMatchPayloads(front) by {
        forall i, j | 0 <= i < j < |front|
          ensures front[i].key == front[j].key <==> front[i].payload == front[j].payload
        {
          assert attempts[i] == front[i] && attempts[j] == front[j];
        }
      }
      AtMostOneEffect(front, arrives);
      EffectsAreAttempts(front, arrives);
      var before := ReceiveAll(front, arrives);
      if attempts[n].payload in before.effects {
        assert Asked(front, attempts[n].payload, before.seen);
        var i :| 0 <= i < |front| && front[i].payload == attempts[n].payload && front[i].key in before.seen;
        assert attempts[i] == front[i];
      }
    }
  }

  /** Nothing that arrives is lost: it takes effect then, or has done so under the same key. */
  lemma {:induction false} ArrivalsTakeEffect<P(!new)>(attempts: seq<Attempt<P>>, arrives: nat -> bool)
    requires KeysMatchPayloads(attempts)
    ensures var s := ReceiveAll(attempts, arrives);
            && (forall i :: 0 <= i < |attempts| && attempts[i].key in s.seen ==> attempts[i].payload in s.effects)
            && forall i :: 0 <= i < |attempts| && arrives(i) ==> attempts[i].key in s.seen
  {
    if attempts != [] {
      var n := |attempts| - 1;
      var front := attempts[..n];
      assert forall i :: 0 <= i < n ==> front[i] == attempts[i];
      assert KeysMatchPayloads(front);
      ArrivalsTakeEffect(front, arrives);
      EffectsAreAttempts(front, arrives);
      LastTakesEffect(attempts, arrives, ReceiveAll(front, arrives));
    }
  }

  lemma LastTakesEffect<P(!new)>(attempts: seq<Attempt<P>>, arrives: nat -> bool, before: Service<P>)
    requires KeysMatchPayloads(attempts) && attempts != [] && Accounted(before, attempts[..|attempts| - 1])
    requires forall i :: 0 <= i < |attempts| - 1 && attempts[i].key in before.seen ==> attempts[i].payload in before.effects
    ensures var last := attempts[|attempts| - 1];
            var after := if arrives(|attempts| - 1) then Receive(before, last) else before;
            forall i :: 0 <= i < |attempts| && attempts[i].key in after.seen ==> attempts[i].payload in after.effects
  {
    var n := |attempts| - 1;
    var front, after := attempts[..n], if arrives(n) then Receive(before, attempts[n]) else before;
    forall i | 0 <= i < |attempts| && attempts[i].key in after.seen
      ensures attempts[i].payload in after.effects
    {
      if attempts[i].key in before.seen {
        assert Used(front, attempts[i].key);
        var j :| 0 <= j < |front| && front[j].key == attempts[i].key;
        assert attempts[j] == front[j] && attempts[j].payload == attempts[i].payload;
      } else {
        assert attempts[i].payload == attempts[n].payload;
      }
    }
  }

  // ---------------------------------------------------------------- collections actions

  /** The `requestKeys` map and every request sent so far. */
  datatype KeyBook<P(==)> = KeyBook(keys: map<P, Key>, generated: set<Key>, attempts: seq<Attempt<P>>)

  /** `act`: an action comes with a fresh key, but keeps the key of an equal earlier action. */
  function Act<P>(c: KeyBook<P>, payload: P, uuid: Key): KeyBook<P> {
    var key := if payload in c.keys then c.keys[payload] else uuid;
    KeyBook(c.keys[payload := key], c.generated + {uuid}, c.attempts + [Attempt(payload, key)])
  }

  ghost predicate KeysInv<P(!new)>(c: KeyBook<P>) {
    && (forall i :: 0 <= i < |c.attempts| ==> c.attempts[i].payload in c.keys && c.keys[c.attempts[i].payload] == c.attempts[i].key)
    && (forall p :: p in c.keys ==> c.keys[p] in c.generated)
    && (forall p, q :: p in c.keys && q in c.keys && p != q ==> c.keys[p] != c.keys[q])
  }

  lemma ActKeepsKeys<P(!new)>(c: KeyBook<P>, payload: P, uuid: Key)
    requires KeysInv(c) && uuid !in c.generated
    ensures KeysInv(Act(c, payload, uuid))
  {
    var after := Act(c, payload, uuid);
    forall i | 0 <= i < |after.attempts|
      ensures after.attempts[i].payload in after.keys && after.keys[after.attempts[i].payload] == after.attempts[i].key
    {
      if i < |c.attempts| {
        assert after.attempts[i] == c.attempts[i];
      }
    }
  }

  /** The actions of a run with the keys the page generated for them. */
  function ActAll<P>(actions: seq<Attempt<P>>): KeyBook<P> {
    if actions == [] then KeyBook(map[], {}, [])
    else
      var last := actions[|actions| - 1];
      Act(ActAll(actions[..|actions| - 1]), last.payload, last.key)
  }

  ghost predicate FreshKeys<P(!new)>(actions: seq<Attempt<P>>) {
    forall i, j :: 0 <= i < j < |actions| ==> actions[i].key != actions[j].key
  }

  lemma {:induction false} ActAllKeepsKeys<P(!new)>(actions: seq<Attempt<P>>)
    requires FreshKeys(actions)
    ensures KeysInv(ActAll(actions))
    ensures forall k :: k in ActAll(actions).generated ==> exists i :: 0 <= i < |actions| && actions[i].key == k
  {
    if actions != [] {
      var n := |actions| - 1;
      var front := actions[..n];
      assert forall i :: 0 <= i < n ==> front[i] == actions[i];
      ActAllKeepsKeys(front);
      assert actions[n].key !in ActAll(front).generated;
      ActKeepsKeys(ActAll(front), actions[n].payload, actions[n].key);
    }
  }

  /** Across the whole run two collections requests share a key exactly when they agree apart from it. */
  lemma CollectionsShareKeysIff<P(!new)>(actions: seq<Attempt<P>>)
    requires FreshKeys(actions)
    ensures KeysMatchPayloads(ActAll(actions).attempts)
  {
    ActAllKeepsKeys(actions);
  }

  lemma {:induction false} ActAllSends<P(!new)>(actions: seq<Attempt<P>>)
    ensures |ActAll(actions).attempts| == |actions|
    ensures forall i :: 0 <= i < |actions| ==> ActAll(actions).attempts[i].payload == actions[i].payload
  {
    if actions != [] {
      ActAllSends(actions[..|actions| - 1]);
    }
  }

  /**
   Under any losses and retries, an action takes effect exactly once if any request for it arrives, and not at all
   otherwise.
   */
  lemma CollectionsApplyOnce<P(!new)>(actions: seq<Attempt<P>>, arrives: nat -> bool)
    requires FreshKeys(actions)
    ensures var effects := ReceiveAll(ActAll(actions).attempts, arrives).effects;
            && Distinct(effects)
            && forall p :: p in effects <==> exists i :: 0 <= i < |actions| && arrives(i) && actions[i].payload == p
  {
    var attempts := ActAll(actions).attempts;
    CollectionsShareKeysIff(actions);
    ActAllSends(actions);
    AtMostOneEffect(attempts, arrives);
    EffectsArrived(attempts, arrives);
    ArrivalsTakeEffect(attempts, arrives);
    hide KeysMatchPayloads, ActAll, ReceiveAll;
    forall i | 0 <= i < |actions| && arrives(i)
      ensures actions[i].payload in ReceiveAll(attempts, arrives).effects
    {
      assert attempts[i].key in ReceiveAll(attempts, arrives).seen;
    }
  }

  lemma {:induction false} EffectsArrived<P(!new)>(attempts: seq<Attempt<P>>, arrives: nat -> bool)
    ensures forall p :: p in ReceiveAll(attempts, arrives).effects ==>
              exists i :: 0 <= i < |attempts| && arrives(i) && attempts[i].payload == p
  {
    if attempts != [] {
      var n := |attempts| - 1;
      EffectsArrived(attempts[..n], arrives);
      forall p | p in ReceiveAll(attempts, arrives).effects
        ensures exists i :: 0 <= i < |attempts| && arrives(i) && attempts[i].payload == p
      {
        if p in ReceiveAll(attempts[..n], arrives).effects {
          var i :| 0 <= i < n && arrives(i) && attempts[..n][i].payload == p;
          assert attempts[i].payload == p;
        } else {
          assert attempts[n].payload == p;
        }
      }
    }
  }

  /** The collections page: its key map lives as long as the component. */
  class CollectionsWorkspace<P(==)> {
    var requestKeys: map<P, Key>
    ghost var generated: set<Key>
    ghost var attempts: seq<Attempt<P>>

    constructor ()
      ensures State() == KeyBook(map[], {}, [])
    {
      requestKeys, generated, attempts := map[], {}, [];
    }

    ghost function State(): KeyBook<P>
      reads this
    {
      KeyBook(requestKeys, generated, attempts)
    }

    method Send(signature: P, proposed: Key) returns (requestKey: Key)
      modifies this
      ensures State() == Act(old(State()), signature, proposed)
      ensures State().attempts == old(attempts) + [Attempt(signature, requestKey)]
    {
      requestKey := if signature in requestKeys then requestKeys[signature] else proposed;
      requestKeys := requestKeys[signature := requestKey];
      generated, attempts := generated + {proposed}, attempts + [Attempt(signature, requestKey)];
    }
  }

  // ---------------------------------------------------------------- adjustment requests

  datatype Review = Review(fingerprint: string)

  /** One request: the review it is for (counted from the first preview shown), its inputs, fingerprint and key. */
  datatype Request = Request(review: nat, input: string, fingerprint: string, key: Key)

  datatype Pending = Previewing | Requesting

  /** A preview shown: the inputs it was for, and its fingerprint. */
  datatype Checked = Checked(input: string, fingerprint: string)

  datatype Form = Form(
    input: string, preview: Option<Review>, confirm: bool, key: Key, pending: Option<Pending>, reviews: seq<Checked>,
    keys: set<Key>, requests: seq<Request>)

  datatype Event =
    | Change(input: string)
    | Tick(on: bool)
    | Preview
    | Ask
    | Shown(review: Review, uuid: Key)
    | Accepted
    | NotConfirmed

  /** Controls are disabled while a request is out; asking needs a shown preview and the tick. */
  predicate Possible(f: Form, e: Event) {
    match e
    case Ask => f.pending.None? && f.preview.Some? && f.confirm
    case Shown(_, uuid) => f.pending == Some(Previewing) && uuid !in f.keys
    case Accepted => f.pending == Some(Requesting)
    case NotConfirmed => f.pending.Some?
    case _ => f.pending.None?
  }

  function Step(f: Form, e: Event): Form
    requires Possible(f, e)
  {
    match e
    case Change(input) => f.(input := input, preview := None, confirm := false, key := "")
    case Tick(on) => f.(confirm := on)
    case Preview => f.(preview := None, confirm := false, pending := Some(Previewing))
    case Ask =>
      f.(pending := Some(Requesting), requests := f.requests + [Request(|f.reviews|, f.input, f.preview.value.fingerprint, f.key)])
    case Shown(review, uuid) =>
      f.(preview := Some(review), key := uuid, pending := None, reviews := f.reviews + [Checked(f.input, review.fingerprint)], keys := f.keys + {uuid})
    case Accepted => f.(preview := None, confirm := false, pending := None)
    case NotConfirmed => f.(pending := None)
  }

  function Blank(): Form {
    Form("", None, false, "", None, [], {}, [])
  }

  /** Requests share a key exactly when they come from the same preview, and then they agree in everything. */
  ghost predicate OneKeyPerReview(requests: seq<Request>) {
    forall i, j :: 0 <= i < j < |requests| ==>
      && (requests[i].key == requests[j].key <==> requests[i].review == requests[j].review)
      && (requests[i].review == requests[j].review ==> requests[i] == requests[j])
  }

  /** The request has the inputs and the fingerprint of the preview that it is for. */
  predicate AsChecked(r: Request, reviews: seq<Checked>) {
    1 <= r.review <= |reviews| && reviews[r.review - 1] == Checked(r.input, r.fingerprint)
  }

  ghost predicate FormInv(f: Form) {
    && OneKeyPerReview(f.requests)
    && (forall r :: r in f.requests ==> AsChecked(r, f.reviews) && r.key in f.keys)
    && (f.preview.Some? ==>
          && f.key in f.keys && |f.reviews| > 0 && f.reviews[|f.reviews| - 1] == Checked(f.input, f.preview.value.fingerprint)
          && forall r :: r in f.requests ==>
               if r.review == |f.reviews| then r.input == f.input && r.fingerprint == f.preview.value.fingerprint && r.key == f.key
               else r.key != f.key)
    && (f.pending == Some(Requesting) ==> f.preview.Some?)
  }

  lemma AskKeeps(f: Form)
    requires FormInv(f) && Possible(f, Ask)
    ensures FormInv(Step(f, Ask))
  {
    var after := Step(f, Ask);
    var added := after.requests[|f.requests|];
    forall i, j | 0 <= i < j < |after.requests|
      ensures after.requests[i].key == after.requests[j].key <==> after.requests[i].review == after.requests[j].review
      ensures after.requests[i].review == after.requests[j].review ==> after.requests[i] == after.requests[j]
    {
      assert after.requests[i] == f.requests[i] && f.requests[i] in f.requests;
      if j < |f.requests| {
        assert after.requests[j] == f.requests[j];
      } else {
        assert after.requests[j] == added;
      }
    }
  }

  lemma StepKeepsForm(f: Form, e: Event)
    requires FormInv(f) && Possible(f, e)
    ensures FormInv(Step(f, e))
  {
    if e.Ask? {
      AskKeeps(f);
    }
  }

  ghost predicate Orderly(f: Form, es: seq<Event>)
    decreases |es|
  {
    es != [] ==> Possible(f, es[0]) && Orderly(Step(f, es[0]), es[1..])
  }

  ghost function Run(f: Form, es: seq<Event>): Form
    requires Orderly(f, es)
    decreases |es|
  {
    if es == [] then f else Run(Step(f, es[0]), es[1..])
  }

  lemma {:induction false} RunKeepsForm(f: Form, es: seq<Event>)
    requires FormInv(f) && Orderly(f, es)
    ensures FormInv(Run(f, es))
    decreases |es|
  {
    if es != [] {
      StepKeepsForm(f, es[0]);
      RunKeepsForm(Step(f, es[0]), es[1..]);
    }
  }

  /** Over every run: one key per preview, one preview per key, and nothing is requested but the inputs previewed. */
  lemma AdjustmentKeys(es: seq<Event>)
    requires Orderly(Blank(), es)
    ensures OneKeyPerReview(Run(Blank(), es).requests)
    ensures forall r :: r in Run(Blank(), es).requests ==> AsChecked(r, Run(Blank(), es).reviews)
  {
    RunKeepsForm(Blank(), es);
  }

  function AsAttempts(requests: seq<Request>): seq<Attempt<nat>> {
    Map(requests, (r: Request) => Attempt(r.review, r.key))
  }

  /** A service with one effect per key takes exactly one request from each preview of which any request arrives. */
  lemma AdjustmentsApplyOnce(es: seq<Event>, arrives: nat -> bool)
    requires Orderly(Blank(), es)
    ensures var requests := Run(Blank(), es).requests;
            var effects := ReceiveAll(AsAttempts(requests), arrives).effects;
            && Distinct(effects)
            && forall n :: n in effects <==> exists i :: 0 <= i < |requests| && arrives(i) && requests[i].review == n
  {
    AdjustmentKeys(es);
    var requests := Run(Blank(), es).requests;
    var attempts := AsAttempts(requests);
    AtMostOneEffect(attempts, arrives);
    EffectsArrived(attempts, arrives);
    ArrivalsTakeEffect(attempts, arrives);
    hide Run, ReceiveAll, KeysMatchPayloads;
    forall i | 0 <= i < |requests| && arrives(i)
      ensures requests[i].review in ReceiveAll(attempts, arrives).effects
    {
      assert attempts[i].key in ReceiveAll(attempts, arrives).seen;
    }
  }

  /** A request that was not confirmed can be asked again as it was, under its key, without another preview. */
  lemma RetryRepeats(f: Form)
    requires Possible(f, Ask)
    ensures var failed := Step(Step(f, Ask), NotConfirmed);
            && Possible(failed, Ask)
            && var requests := Step(failed, Ask).requests;
               |requests| == |f.requests| + 2 && requests[|f.requests| + 1] == requests[|f.requests|]
  {
  }

  /** After a request is accepted, or an input changes, nothing can be requested before another preview is shown and ticked. */
  lemma NewPreviewNeeded(f: Form, input: string)
    ensures Possible(f, Accepted) ==> Step(f, Accepted).preview.None? && !Step(f, Accepted).confirm && Step(f, Accepted).pending.None?
    ensures Possible(f, Change(input)) ==>
              Step(f, Change(input)).preview.None? && !Step(f, Change(input)).confirm && Step(f, Change(input)).input == input
    ensures Possible(f, Preview) ==> Step(f, Preview).preview.None? && !Step(f, Preview).confirm
  {
  }

  /** The adjustments page: its form state, and its handlers up to and after their `await`s. */
  class AdjustmentsWorkspace {
    var input: string
    var preview: Option<Review>
    var confirm: bool
    var requestKey: Key
    var busy: Option<Pending>
    ghost var reviews: seq<Checked>
    ghost var keys: set<Key>
    ghost var requests: seq<Request>

    constructor ()
      ensures State() == Blank()
    {
      input, preview, confirm, requestKey, busy := "", None, false, "", None;
      reviews, keys, requests := [], {}, [];
    }

    ghost function State(): Form
      reads this
    {
      Form(input, preview, confirm, requestKey, busy, reviews, keys, requests)
    }

    method ChangeInput(changed: string)
      requires Possible(State(), Change(changed))
      modifies this
      ensures State() == Step(old(State()), Change(changed))
    {
      input, preview, confirm, requestKey := changed, None, false, "";
    }

    method AskPreview()
      requires Possible(State(), Preview)
      modifies this
      ensures State() == Step(old(State()), Preview)
    {
      preview, confirm, busy := None, false, Some(Previewing);
    }

    method ShowPreview(review: Review, uuid: Key)
      requires Possible(State(), Shown(review, uuid))
      modifies this
      ensures State() == Step(old(State()), Shown(review, uuid))
    {
      preview, requestKey, busy := Some(review), uuid, None;
      reviews, keys := reviews + [Checked(input, review.fingerprint)], keys + {uuid};
    }

    method AskApproval() returns (sentKey: Key)
      requires Possible(State(), Ask)
      modifies this
      ensures State() == Step(old(State()), Ask)
      ensures requests[|old(requests)|].key == sentKey
    {
      sentKey, busy := requestKey, Some(Requesting);
      requests := requests + [Request(|reviews|, input, preview.value.fingerprint, requestKey)];
    }

    /** `act` after a request: a good answer drops the preview, any failure keeps it with its key. */
    method FinishRequest(ok: bool)
      requires busy == Some(Requesting)
      modifies this
      ensures State() == Step(old(State()), if ok then Accepted else NotConfirmed)
    {
      busy := None;
      if ok {
        preview, confirm := None, false;
      }
    }
  }
}
