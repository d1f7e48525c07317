/** Bulk unit pricing: prices are applied only as previewed, and never again after an unknown outcome. */
module BulkPricing {
  import opened Collections
  import opened Audience

  datatype Mode = SetRate | Amount | Percent

  datatype Change = Change(unitId: string, number: string, currentRate: string, proposedRate: string)

  datatype Preview = Preview(token: string, changes: seq<Change>)

  /** Everything a request depends on. */
  datatype Inputs = Inputs(selected: seq<string>, mode: Mode, value: string)

  datatype Action = AskPreview | Apply

  datatype Sent = Sent(action: Action, inputs: Inputs, preview: Option<Preview>)

  datatype Result = Result(facility: string, action: Action, token: string, changes: seq<Change>)

  /**
   401 or 403; 400, 409 or 422; a body of the right shape, with the response's own `ok`; anything else. `told` says
   whether `applied` would settle well: the dialog awaits it after an apply that went as previewed.
   */
  datatype Reply = Denied | Rejected | Answer(ok: bool, result: Result, told: bool) | NoAnswer

  datatype Entry =
    | InputsChanged
    | Asked(inputs: Inputs)
    | Previewed(inputs: Inputs, preview: Preview)
    | Applied(inputs: Inputs, token: string)
    | Dropped
    | Unknown

  datatype Dialog = Dialog(
    inputs: Inputs, preview: Option<Preview>, pending: Option<Sent>, blocked: bool, log: seq<Entry>)

  function UnitIds(changes: seq<Change>): seq<string> {
    Map(changes, (c: Change) => c.unitId)
  }

  predicate CanSubmit(d: Dialog, action: Action) {
    && d.pending.None? && !d.blocked && d.inputs.selected != [] && d.inputs.value != ""
    && (action.Apply? ==> d.preview.Some?)
  }

  function Logged(d: Dialog, e: Entry): Dialog {
    d.(log := d.log + [e])
  }

  /** Any filter, selection, mode or value control. */
  function Edited(d: Dialog, inputs: Inputs): Dialog {
    Logged(d.(inputs := inputs, preview := None), InputsChanged)
  }

  function Submitted(d: Dialog, action: Action): Dialog {
    if !CanSubmit(d, action) then d
    else
      Logged(d.(pending := Some(Sent(action, d.inputs, d.preview))),
             if action.Apply? then Applied(d.inputs, d.preview.value.token) else Asked(d.inputs))
  }

  predicate Matches(r: Result, facility: string, sent: Sent) {
    r.facility == facility && r.action == sent.action && ExactAudience(UnitIds(r.changes), sent.inputs.selected)
  }

  predicate AsPreviewed(r: Result, sent: Sent) {
    sent.preview.Some? && r.changes == sent.preview.value.changes && r.token == sent.preview.value.token
  }

  function Failed(d: Dialog, action: Action): Dialog {
    if action.Apply? then Logged(d.(preview := None, blocked := true), Unknown) else Logged(d.(preview := None), Dropped)
  }

  function Answered(d: Dialog, facility: string, reply: Reply): Dialog
    requires d.pending.Some?
  {
    var sent, idle := d.pending.value, d.(pending := None);
    match reply
    case Denied => idle
    case Rejected => Logged(idle.(preview := None), Dropped)
    case NoAnswer => Failed(idle, sent.action)
    case Answer(ok, r, told) =>
      if !ok || !Matches(r, facility, sent) then Failed(idle, sent.action)
      else if sent.action.AskPreview? then
        Logged(idle.(preview := Some(Preview(r.token, r.changes))), Previewed(d.inputs, Preview(r.token, r.changes)))
      else if AsPreviewed(r, sent) && told then idle
      else Failed(idle, sent.action)
  }

  datatype Event = Edit(inputs: Inputs) | Submit(action: Action) | Reply(reply: Reply)

  /** The fieldset is disabled while a request is out and once blocked. */
  predicate Possible(d: Dialog, e: Event) {
    match e
    case Edit(_) => d.pending.None? && !d.blocked
    case Submit(_) => true
    case Reply(_) => d.pending.Some?
  }

  function Step(d: Dialog, facility: string, e: Event): Dialog
    requires Possible(d, e)
  {
    match e
    case Edit(inputs) => Edited(d, inputs)
    case Submit(action) => Submitted(d, action)
    case Reply(reply) => Answered(d, facility, reply)
  }

  function Opened(): Dialog {
    Dialog(Inputs([], Percent, ""), None, None, false, [])
  }

  // ---------------------------------------------------------------- the review rule

  /** The preview still in force at the end of a log: nothing edited, rejected or lost since it was shown. */
  function InForce(log: seq<Entry>): Option<(Inputs, Preview)> {
    if log == [] then None
    else
      match log[|log| - 1]
      case Previewed(inputs, p) => Some((inputs, p))
      case Asked(_) => InForce(log[..|log| - 1])
      case Applied(_, _) => InForce(log[..|log| - 1])
      case _ => None
  }

  ghost predicate ReviewedApply(log: seq<Entry>, k: nat)
    requires k < |log|
  {
    log[k].Applied? ==>
      && var shown := InForce(log[..k]);
         && shown.Some? && shown.value.0 == log[k].inputs && shown.value.1.token == log[k].token
         && multiset(UnitIds(shown.value.1.changes)) == multiset(log[k].inputs.selected) && Distinct(log[k].inputs.selected)
  }

  /** Nothing is sent after an unknown outcome. */
  ghost predicate NothingAfterUnknown(log: seq<Entry>) {
    forall i, k :: 0 <= i < k < |log| && log[i].Unknown? ==> !log[k].Asked? && !log[k].Applied?
  }

  ghost predicate AllReviewed(log: seq<Entry>) {
    forall k :: 0 <= k < |log| ==> ReviewedApply(log, k)
  }

  ghost predicate Inv(d: Dialog) {
    && AllReviewed(d.log) && NothingAfterUnknown(d.log)
    && ((exists i :: 0 <= i < |d.log| && d.log[i].Unknown?) ==> d.blocked && d.pending.None?)
    && (d.preview.Some? ==>
          && InForce(d.log) == Some((d.inputs, d.preview.value))
          && ExactAudience(UnitIds(d.preview.value.changes), d.inputs.selected))
    && (d.pending.Some? ==> d.pending.value.inputs == d.inputs && d.pending.value.preview == d.preview)
  }

  lemma AppendedLog(log: seq<Entry>, e: Entry)
    requires AllReviewed(log) && ReviewedApply(log + [e], |log|)
    ensures AllReviewed(log + [e])
  {
    forall k | 0 <= k < |log|
      ensures ReviewedApply(log + [e], k)
    {
      assert ReviewedApply(log, k) && (log + [e])[..k] == log[..k];
    }
  }

  lemma SubmitKeeps(d: Dialog, action: Action)
    requires Inv(d)
    ensures Inv(Submitted(d, action))
  {
    if CanSubmit(d, action) {
      var e := if action.Apply? then Applied(d.inputs, d.preview.value.token) else Asked(d.inputs);
      assert (d.log + [e])[..|d.log|] == d.log;
      if action.Apply? {
        ExactAudienceIff(UnitIds(d.preview.value.changes), d.inputs.selected);
      }
      AppendedLog(d.log, e);
    }
  }

  lemma QuietEntry(log: seq<Entry>, e: Entry)
    requires AllReviewed(log) && NothingAfterUnknown(log) && !e.Applied? && !e.Asked?
    ensures AllReviewed(log + [e]) && NothingAfterUnknown(log + [e]) && (log + [e])[..|log|] == log
  {
    AppendedLog(log, e);
  }

  lemma AnswerKeeps(d: Dialog, facility: string, reply: Reply)
    requires Inv(d) && d.pending.Some?
    ensures Inv(Answered(d, facility, reply))
  {
    match reply
    case Denied =>
    case Rejected => QuietEntry(d.log, Dropped);
    case NoAnswer => FailedKeeps(d, d.pending.value.action);
    case Answer(_, r, _) =>
      FailedKeeps(d, d.pending.value.action);
      QuietEntry(d.log, Previewed(d.inputs, Preview(r.token, r.changes)));
  }

  lemma FailedKeeps(d: Dialog, action: Action)
    requires Inv(d)
    ensures Inv(Failed(d.(pending := None), action))
  {
    QuietEntry(d.log, Dropped);
    QuietEntry(d.log, Unknown);
  }

  lemma StepKeepsInv(d: Dialog, facility: string, e: Event)
    requires Inv(d) && Possible(d, e)
    ensures Inv(Step(d, facility, e))
  {
    match e
    case Edit(_) => QuietEntry(d.log, InputsChanged);
    case Submit(action) => SubmitKeeps(d, action);
    case Reply(reply) => AnswerKeeps(d, facility, reply);
  }

  ghost predicate Orderly(d: Dialog, facility: string, es: seq<Event>)
    decreases |es|
  {
    es != [] ==> Possible(d, es[0]) && Orderly(Step(d, facility, es[0]), facility, es[1..])
  }

  ghost function Run(d: Dialog, facility: string, es: seq<Event>): Dialog
    requires Orderly(d, facility, es)
    decreases |es|
  {
    if es == [] then d else Run(Step(d, facility, es[0]), facility, es[1..])
  }

  lemma {:induction false} RunKeepsInv(d: Dialog, facility: string, es: seq<Event>)
    requires Inv(d) && Orderly(d, facility, es)
    ensures Inv(Run(d, facility, es))
    decreases |es|
  {
    if es != [] {
      StepKeepsInv(d, facility, es[0]);
      RunKeepsInv(Step(d, facility, es[0]), facility, es[1..]);
    }
  }

  /**
   Over every run, each apply carries the token of a preview of exactly the inputs on screen, unchanged since; and
   after an apply of unknown outcome nothing is sent any more.
   */
  lemma EveryApplyIsReviewed(facility: string, es: seq<Event>)
    requires Orderly(Opened(), facility, es)
    ensures AllReviewed(Run(Opened(), facility, es).log) && NothingAfterUnknown(Run(Opened(), facility, es).log)
  {
    RunKeepsInv(Opened(), facility, es);
  }

  /**
   The dialog reports success only for the very changes that were reviewed, one for each selected unit, and only once
   the page has taken note of them.
   */
  lemma SuccessIsAsReviewed(d: Dialog, facility: string, reply: Reply)
    requires Inv(d) && d.pending.Some? && d.pending.value.action.Apply? && d.preview.Some? && reply.Answer?
    ensures !Answered(d, facility, reply).blocked && !d.blocked ==>
              && reply.told && reply.result.changes == d.preview.value.changes
              && multiset(UnitIds(reply.result.changes)) == multiset(d.inputs.selected)
  {
    ExactAudienceIff(UnitIds(reply.result.changes), d.inputs.selected);
  }

  // ---------------------------------------------------------------- what an answer comes to

  /** The answer to a preview, or to an apply, for the facility, naming each selected unit once. */
  ghost predicate ForSelection(reply: Reply, facility: string, action: Action, selected: seq<string>) {
    && reply.Answer? && reply.ok && reply.result.facility == facility && reply.result.action == action
    && multiset(UnitIds(reply.result.changes)) == multiset(selected) && Distinct(selected)
  }

  /** A preview is shown as answered exactly when it is for the selection; a refused access keeps what was shown. */
  lemma PreviewOutcome(d: Dialog, facility: string, reply: Reply)
    requires Inv(d) && d.pending.Some? && d.pending.value.action.AskPreview?
    ensures var after := Answered(d, facility, reply);
            && after.pending.None? && after.blocked == d.blocked && after.inputs == d.inputs
            && if ForSelection(reply, facility, AskPreview, d.inputs.selected) then
                 after.preview == Some(Preview(reply.result.token, reply.result.changes))
               else if reply.Denied? then after.preview == d.preview
               else after.preview.None?
  {
    if reply.Answer? {
      ExactAudienceIff(UnitIds(reply.result.changes), d.inputs.selected);
    }
  }

  /**
   An apply keeps the dialog open to further use exactly when its outcome is known: access refused, request refused, or
   answered for the selection with the very changes and token reviewed, of which the page has taken note.
   */
  lemma ApplyOutcome(d: Dialog, facility: string, reply: Reply)
    requires Inv(d) && d.pending.Some? && d.pending.value.action.Apply? && d.preview.Some? && !d.blocked
    ensures var after := Answered(d, facility, reply);
            var done := && ForSelection(reply, facility, Apply, d.inputs.selected) && reply.told
                        && reply.result.changes == d.preview.value.changes && reply.result.token == d.preview.value.token;
            && after.pending.None? && after.inputs == d.inputs
            && (after.blocked <==> !(reply.Denied? || reply.Rejected? || done))
            && (after.preview.Some? <==> reply.Denied? || done)
            && (after.blocked <==> |after.log| > |d.log| && after.log[|d.log|] == Unknown)
  {
    if reply.Answer? {
      ExactAudienceIff(UnitIds(reply.result.changes), d.inputs.selected);
    }
  }

  // ---------------------------------------------------------------- the component

  class PricingDialog {
    const facility: string
    var inputs: Inputs
    var preview: Option<Preview>
    var pending: Option<Sent>
    var blocked: bool
    ghost var log: seq<Entry>

    constructor (facility: string)
      ensures State() == Opened() && this.facility == facility
    {
      this.facility := facility;
      inputs, preview, pending, blocked, log := Inputs([], Percent, ""), None, None, false, [];
    }

    ghost function State(): Dialog
      reads this
    {
      Dialog(inputs, preview, pending, blocked, log)
    }

    method Edit(changed: Inputs)
      modifies this
      ensures State() == Edited(old(State()), changed)
    {
      inputs, preview := changed, None;
      log := log + [InputsChanged];
    }

    method Submit(action: Action)
      modifies this
      ensures State() == Submitted(old(State()), action)
      ensures if old(pending).None? && !old(blocked) && inputs.selected != [] && inputs.value != "" && (action.Apply? ==> preview.Some?)
              then pending == Some(Sent(action, inputs, preview)) else pending == old(pending)
      ensures inputs == old(inputs) && preview == old(preview) && blocked == old(blocked)
    {
      if pending.Some? || blocked || inputs.selected == [] || inputs.value == "" || (action.Apply? && preview.None?) {
        return;
      }
      pending := Some(Sent(action, inputs, preview));
      log := log + [if action.Apply? then Applied(inputs, preview.value.token) else Asked(inputs)];
    }

    method Finish(reply: Reply)
      requires pending.Some?
      modifies this
      ensures State() == Answered(old(State()), facility, reply)
    {
      var sent := pending.value;
      pending := None;
      match reply {
        case Denied =>
          return;
        case Rejected =>
          preview := None;
          log := log + [Dropped];
          return;
        case NoAnswer =>
        case Answer(ok, r, told) =>
          if ok && Matches(r, facility, sent) {
            if sent.action.AskPreview? {
              preview := Some(Preview(r.token, r.changes));
              log := log + [Previewed(inputs, preview.value)];
              return;
            } else if AsPreviewed(r, sent) && told {
              return;
            }
          }
      }
      preview := None;
      if sent.action.Apply? {
        blocked := true;
        log := log + [Unknown];
      } else {
        log := log + [Dropped];
      }
    }
  }
}
