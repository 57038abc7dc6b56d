/**
 The transcript of a run, as a plain bounded list: every event adds a row, replaces one that a search finds,
 or changes nothing, and only the newest rows are kept.
 */
module Transcript {
  import opened Results

  const MAX_ITEMS := 2000

  datatype ToolStatus = Running | Success | Failed | Aborted

  datatype ToolItem = ToolItem(
    callId: string, name: string, argsSummary: string, target: Option<string>, status: ToolStatus,
    errorCode: Option<string>, summary: string, step: int, phase: string, planStep: Option<string>)

  datatype StepStatus = Pending | InProgress | Completed | Blocked

  datatype PlanLine = PlanLine(step: string, status: StepStatus)

  datatype PlanItem = PlanItem(revision: int, state: string, explanation: string, steps: seq<PlanLine>)

  datatype Item =
    | UserMessage(text: string)
    | ActionRow(action: ToolItem)
    | PlanCard(plan: PlanItem)
    | StreamAttempt(attempt: int)
    | RetryNotice(eventId: int)
    | BudgetNotice(eventId: int, extended: bool, from: Option<int>, to: Option<int>, hardLimit: Option<int>)
    | VerificationNotice(eventId: int, verification: Option<string>)
    | TerminalNotice(eventId: int, status: Option<string>)

  /** What the payload of an event holds; a field is absent when it is missing or of another type. */
  datatype Payload =
    | RunStarted
    | StreamActivity(attempt: Option<int>)
    | ToolStarted(name: Option<string>, callId: Option<string>, arguments: Option<string>, planStep: Option<string>)
    | PlanUpdated(steps: Option<seq<Option<PlanLine>>>, revision: Option<int>, state: Option<string>,
                  explanation: Option<string>)
    | ToolFinished(callId: Option<string>, ok: bool, errorCode: Option<string>, summary: Option<string>)
    | ModelRetry
    | BudgetExtended(from: Option<int>, to: Option<int>, hardLimit: Option<int>)
    | BudgetFinalizing(workStepLimit: Option<int>, hardLimit: Option<int>)
    | CompletionDeferred(verification: Option<string>)
    | RunFinished(planState: Option<string>, status: Option<string>)
    | OtherEvent

  datatype Event = Event(id: int, step: int, phase: string, target: Option<string>, payload: Payload)

  /** Text operations of the host: whether a task is blank, and the key of an event without a call id. */
  datatype Host = Host(blank: string -> bool, eventKey: int -> string)

  /** What is shown, with the keys that outlive their rows: stream attempts, plan revision, last event id. */
  datatype Shown = Shown(user: Option<string>, rows: seq<Item>, attempts: set<int>, revision: int, lastId: int,
                         processed: nat)

  function Cap(user: Option<string>): nat {
    if user.Some? then MAX_ITEMS - 1 else MAX_ITEMS
  }

  function Newest<T>(s: seq<T>, n: nat): seq<T> {
    if |s| <= n then s else s[|s| - n..]
  }

  function Add(s: Shown, item: Item): Shown {
    s.(rows := Newest(s.rows + [item], Cap(s.user)))
  }

  predicate IsCall(item: Item, callId: string) {
    item.ActionRow? && item.action.callId == callId
  }

  /** The first row of a call, found by search. */
  function FindCall(rows: seq<Item>, callId: string): (i: Option<nat>)
    ensures i.Some? ==> i.value < |rows| && IsCall(rows[i.value], callId)
    ensures i.None? ==> forall j :: 0 <= j < |rows| ==> !IsCall(rows[j], callId)
  {
    if rows == [] then None
    else if IsCall(rows[0], callId) then Some(0)
    else
      var i := FindCall(rows[1..], callId);
      if i.Some? then Some(i.value + 1) else None
  }

  /** The first plan card, found by search. */
  function FindPlan(rows: seq<Item>): (i: Option<nat>)
    ensures i.Some? ==> i.value < |rows| && rows[i.value].PlanCard?
    ensures i.None? ==> forall j :: 0 <= j < |rows| ==> !rows[j].PlanCard?
  {
    if rows == [] then None
    else if rows[0].PlanCard? then Some(0)
    else
      var i := FindPlan(rows[1..]);
      if i.Some? then Some(i.value + 1) else None
  }

  // ---------------------------------------------------------------- events

  function NewAction(h: Host, e: Event): ToolItem
    requires e.payload.ToolStarted?
  {
    ToolItem(e.payload.callId.GetOr(h.eventKey(e.id)), e.payload.name.GetOr("tool"), e.payload.arguments.GetOr(""),
             e.target, Running, None, "", e.step, e.phase, e.payload.planStep)
  }

  function Finished(a: ToolItem, e: Event): ToolItem
    requires e.payload.ToolFinished?
  {
    a.(status := if e.payload.ok then Success
                 else if e.payload.errorCode == Some("TOOL_ABORTED") then Aborted else Failed,
       errorCode := e.payload.errorCode, summary := e.payload.summary.GetOr(""), phase := e.phase)
  }

  /** The well-formed steps of a plan event. */
  function Lines(raw: seq<Option<PlanLine>>): seq<PlanLine> {
    if raw == [] then []
    else if raw[0].Some? then [raw[0].value] + Lines(raw[1..])
    else Lines(raw[1..])
  }

  function PlanOf(e: Event): PlanItem
    requires e.payload.PlanUpdated? && e.payload.steps.Some?
  {
    PlanItem(e.payload.revision.GetOr(0), e.payload.state.GetOr("active"), e.payload.explanation.GetOr(""),
             Lines(e.payload.steps.value))
  }

  /** A newer plan replaces the card, or gets a new one when none is shown. */
  function WithPlan(s: Shown, plan: PlanItem): Shown {
    if plan.revision <= s.revision then s
    else
      var s1 := s.(revision := plan.revision);
      var i := FindPlan(s.rows);
      if i.Some? then s1.(rows := s.rows[i.value := PlanCard(plan)]) else Add(s1, PlanCard(plan))
  }

  function WithPlanState(s: Shown, state: string): Shown {
    var i := FindPlan(s.rows);
    if i.Some? then s.(rows := s.rows[i.value := PlanCard(s.rows[i.value].plan.(state := state))]) else s
  }

  /** The result of a call goes to the row of that call, if it is still shown. */
  function FinishCall(s: Shown, e: Event): Shown
    requires e.payload.ToolFinished?
  {
    var i := FindCall(s.rows, e.payload.callId.GetOr(""));
    if i.None? then s else s.(rows := s.rows[i.value := ActionRow(Finished(s.rows[i.value].action, e))])
  }

  function Project(h: Host, s: Shown, e: Event, task: string): Shown {
    match e.payload
    case RunStarted =>
      if s.user.None? && !h.blank(task) then s.(user := Some(task), rows := Newest(s.rows, Cap(Some(task)))) else s
    case StreamActivity(attempt) =>
      if attempt.None? || attempt.value in s.attempts then s
      else Add(s.(attempts := s.attempts + {attempt.value}), StreamAttempt(attempt.value))
    case ToolStarted(name, _, _, _) =>
      if name == Some("update_plan") || FindCall(s.rows, NewAction(h, e).callId).Some? then s
      else Add(s, ActionRow(NewAction(h, e)))
    case PlanUpdated(steps, _, _, _) =>
      if steps.None? || Lines(steps.value) == [] then s else WithPlan(s, PlanOf(e))
    case ToolFinished(_, _, _, _) => FinishCall(s, e)
    case ModelRetry => Add(s, RetryNotice(e.id))
    case BudgetExtended(from, to, hard) => Add(s, BudgetNotice(e.id, true, from, to, hard))
    case BudgetFinalizing(limit, hard) => Add(s, BudgetNotice(e.id, false, None, limit, hard))
    case CompletionDeferred(verification) => Add(s, VerificationNotice(e.id, verification))
    case RunFinished(planState, status) =>
      Add(if planState.Some? then WithPlanState(s, planState.value) else s, TerminalNotice(e.id, status))
    case OtherEvent => s
  }

  /** One event is projected once: an id that is not newer than the last one is skipped. */
  function AppendOne(h: Host, s: Shown, e: Event, task: string): Shown {
    if e.id <= s.lastId then s
    else Project(h, s, e, task).(lastId := e.id, processed := s.processed + 1)
  }

  function Append(h: Host, s: Shown, events: seq<Event>, task: string): Shown {
    if events == [] then s
    else AppendOne(h, Append(h, s, events[..|events| - 1], task), events[|events| - 1], task)
  }

  function Empty(h: Host, task: string): Shown {
    Shown(if h.blank(task) then None else Some(task), [], {}, 0, 0, 0)
  }

  function Reset(h: Host, events: seq<Event>, task: string, plan: Option<PlanItem>): Shown {
    var s := Empty(h, task);
    Append(h, if plan.Some? then WithPlan(s, plan.value) else s, events, task)
  }

  /** The whole transcript, the user's message first. */
  function Snapshot(s: Shown): seq<Item> {
    if s.user.Some? then [UserMessage(s.user.value)] + s.rows else s.rows
  }

  // ---------------------------------------------------------------- laws of the plain list

  predicate OneRowPerCall(rows: seq<Item>) {
    forall i, j :: 0 <= i < j < |rows| && rows[i].ActionRow? ==> !IsCall(rows[j], rows[i].action.callId)
  }

  predicate OnePlan(rows: seq<Item>) {
    forall i, j :: 0 <= i < j < |rows| ==> !(rows[i].PlanCard? && rows[j].PlanCard?)
  }

  /** A transcript never grows over its bound, and shows a call and the plan at most once. */
  predicate Tidy(s: Shown) {
    |s.rows| <= Cap(s.user) && OneRowPerCall(s.rows) && OnePlan(s.rows)
  }

  lemma AddKeepsTidy(s: Shown, item: Item)
    requires Tidy(s)
    requires item.ActionRow? ==> FindCall(s.rows, item.action.callId).None?
    requires item.PlanCard? ==> FindPlan(s.rows).None?
    ensures Tidy(Add(s, item))
  {}

  lemma WithPlanKeepsTidy(s: Shown, plan: PlanItem)
    requires Tidy(s)
    ensures Tidy(WithPlan(s, plan))
  {
    if FindPlan(s.rows).None? { AddKeepsTidy(s.(revision := plan.revision), PlanCard(plan)); }
  }

  lemma ProjectKeepsTidy(h: Host, s: Shown, e: Event, task: string)
    requires Tidy(s)
    ensures Tidy(Project(h, s, e, task))
  {
    match e.payload
    case StreamActivity(attempt) =>
      if attempt.Some? { AddKeepsTidy(s.(attempts := s.attempts + {attempt.value}), StreamAttempt(attempt.value)); }
    case ToolStarted(_, _, _, _) =>
      if FindCall(s.rows, NewAction(h, e).callId).None? { AddKeepsTidy(s, ActionRow(NewAction(h, e))); }
    case PlanUpdated(steps, _, _, _) =>
      if steps.Some? { WithPlanKeepsTidy(s, PlanOf(e)); }
    case RunFinished(planState, status) =>
      AddKeepsTidy(if planState.Some? then WithPlanState(s, planState.value) else s, TerminalNotice(e.id, status));
    case ModelRetry => AddKeepsTidy(s, RetryNotice(e.id));
    case BudgetExtended(from, to, hard) => AddKeepsTidy(s, BudgetNotice(e.id, true, from, to, hard));
    case BudgetFinalizing(limit, hard) => AddKeepsTidy(s, BudgetNotice(e.id, false, None, limit, hard));
    case CompletionDeferred(verification) => AddKeepsTidy(s, VerificationNotice(e.id, verification));
    case _ =>
  }

  /** After any events, the transcript is bounded and shows every call and the plan at most once. */
  lemma {:induction false} ResetIsTidy(h: Host, events: seq<Event>, task: string, plan: Option<PlanItem>)
    ensures Tidy(Reset(h, events, task, plan))
  {
    if events == [] {
      if plan.Some? { WithPlanKeepsTidy(Empty(h, task), plan.value); }
    } else {
      var init, e := events[..|events| - 1], events[|events| - 1];
      ResetIsTidy(h, init, task, plan);
      var s := Reset(h, init, task, plan);
      ProjectKeepsTidy(h, s, e, task);
    }
  }

  /** How events are cut into batches does not matter. */
  lemma {:induction false} AppendConcat(h: Host, s: Shown, a: seq<Event>, b: seq<Event>, task: string)
    ensures Append(h, s, a + b, task) == Append(h, Append(h, s, a, task), b, task)
    decreases |b|
  {
    if b == [] {
      assert a + b == a;
    } else {
      var init := b[..|b| - 1];
      AppendConcat(h, s, a, init, task);
      assert (a + b)[..|a + b| - 1] == a + init;
    }
  }

  /** Events that were seen before change nothing. */
  lemma {:induction false} ReplayChangesNothing(h: Host, s: Shown, events: seq<Event>, task: string)
    requires forall i :: 0 <= i < |events| ==> events[i].id <= s.lastId
    ensures Append(h, s, events, task) == s
  {
    if events != [] {
      ReplayChangesNothing(h, s, events[..|events| - 1], task);
    }
  }

  predicate Increasing(events: seq<Event>) {
    forall i, j :: 0 <= i < j < |events| ==> events[i].id < events[j].id
  }
}
