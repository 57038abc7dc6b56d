/**
 The agent loop: eight phases, three step counters, an adaptive work budget paid for by plan
 progress, guards against repetition and failure, and cancellation at every safe point.
 The model, the tools, the clock of the user's cancellation and the inbox are arbitrary.
 */
module Agent {
  import opened Results
  import opened Messages
  import opened PlanLaws
  import opened Guards

  datatype Phase = Initializing | Ready | Requesting | Handling | Executing | Checking | Terminal | Interrupted

  function Allowed(p: Phase): set<Phase> {
    match p
    case Initializing => {Ready, Terminal}
    case Ready => {Requesting, Terminal, Interrupted}
    case Requesting => {Handling, Terminal, Interrupted}
    case Handling => {Executing, Checking, Terminal, Interrupted}
    case Executing => {Ready, Terminal, Interrupted}
    case Checking => {Ready, Terminal, Interrupted}
    case Terminal => {}
    case Interrupted => {}
  }

  predicate Working(p: Phase) {
    p.Ready? || p.Requesting? || p.Handling? || p.Executing? || p.Checking?
  }

  datatype StopReason =
    | FinalAnswer | MaxSteps | ModelError | ProtocolError | ContextOverflow
    | ToolFailureLimit | RepeatedToolCall | UserInterrupt | InternalError

  datatype AssistantTurn = AssistantTurn(text: string, toolCalls: seq<ToolCall>, reasoning: Option<string>,
                                         continuations: seq<ProviderContinuation>)

  /** The limits of a run, as the constructor demands them. */
  datatype Limits = Limits(
    baseMaxSteps: nat, hardMaxSteps: nat, maxPlanSteps: nat, finalizationSteps: nat, stepBudgetIncrement: nat,
    maxProviderAttempts: nat, toolFailureRoundLimit: nat, repeatRemindAt: nat, repeatAbortAt: nat)
  {
    predicate Valid() {
      1 <= baseMaxSteps <= hardMaxSteps && 1 <= maxPlanSteps && 1 <= finalizationSteps && 1 <= stepBudgetIncrement
    }
  }

  // ---------------------------------------------------------------- the world around the loop

  datatype Reply = Replied(turn: AssistantTurn) | RequestFailed(retryable: bool) | RequestCrashed

  datatype View = Built | TooLarge | BuildCrashed

  /** A tool outcome; for the plan tool, what it passed on to the ledger, if anything. */
  datatype Outcome = Outcome(
    ok: bool, content: string, resourceKey: string, filePath: Option<string>, data: Option<OutcomeData>,
    plan: Option<Attempt>)

  datatype Steer = Steer(id: string, content: string)

  /** Arbitrary answers, one for every moment at which the loop asks. */
  datatype World = World(
    cancelled: nat -> bool,
    view: nat -> View,
    reply: nat -> Reply,
    signature: nat -> string,
    outcome: nat -> Outcome,
    steer: nat -> Option<Steer>,
    claimed: nat -> bool,
    blank: string -> bool)

  const UPDATE_PLAN := "update_plan"

  predicate PlanOnly(calls: seq<ToolCall>) {
    calls != [] && forall i :: 0 <= i < |calls| ==> calls[i].name == UPDATE_PLAN
  }

  function ErrorResult(call: ToolCall, code: string): Message {
    ToolMessage(call.id, code, call.name, false, "", false, None)
  }

  predicate IsReminder(m: Message) {
    m.UserMessage? && m.source == "completion_policy"
  }

  /** The reminders to verify that were sent from position `from` on. */
  function Reminders(h: seq<Message>, from: nat): nat {
    if |h| <= from then 0
    else Reminders(h[..|h| - 1], from) + if IsReminder(h[|h| - 1]) then 1 else 0
  }

  lemma RemindersSnoc(h: seq<Message>, from: nat, m: Message)
    requires from <= |h|
    ensures Reminders(h + [m], from) == Reminders(h, from) + if IsReminder(m) then 1 else 0
  {
    assert (h + [m])[..|h|] == h;
  }

  /** Ids that are empty or repeat an earlier id of the same turn. */
  predicate BadId(calls: seq<ToolCall>, i: nat)
    requires i < |calls|
  {
    calls[i].id == "" || exists j :: 0 <= j < i && calls[j].id == calls[i].id
  }

  /** The inbox of one turn hands out at most one steer per boundary. */
  class InboxPort {
    var lastBoundary: nat

    constructor ()
      ensures lastBoundary == 0
    {
      lastBoundary := 0;
    }

    method PollSteer(boundary: nat, waiting: Option<Steer>) returns (item: Option<Steer>)
      modifies this
      ensures item == if boundary <= old(lastBoundary) then None else waiting
      ensures lastBoundary == if boundary <= old(lastBoundary) then old(lastBoundary) else boundary
    {
      if boundary <= lastBoundary {
        return None;
      }
      lastBoundary := boundary;
      item := waiting;
    }
  }
}
