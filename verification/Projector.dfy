/** The incremental projector: a backing list with a moving head, two index maps, and a plan row index. */
module Projector {
  import opened Results
  import opened Transcript

  // ---------------------------------------------------------------- indexes on plain values

  datatype Index = Index(items: seq<Item>, head: nat, actions: map<string, ToolItem>, rows: map<string, nat>,
                         plan: Option<nat>)

  /** The maps point at the live row of their call. */
  ghost predicate PointsAt(x: Index, id: string)
    requires id in x.rows
  {
    && x.head <= x.rows[id] < |x.items| && id in x.actions
    && x.items[x.rows[id]] == ActionRow(x.actions[id]) && x.actions[id].callId == id
  }

  /** A live row is found through its index. */
  ghost predicate IndexedAt(x: Index, i: nat)
    requires i < |x.items|
  {
    match x.items[i]
    case ActionRow(a) => a.callId in x.rows && x.rows[a.callId] == i
    case PlanCard(_) => x.plan == Some(i)
    case _ => true
  }

  ghost predicate Indexed(x: Index) {
    match x
    case Index(items, head, actions, rows, plan) =>
      && head <= |items| && rows.Keys == actions.Keys
      && (forall id :: id in rows ==> PointsAt(x, id))
      && (forall i: nat {:trigger items[i]} :: head <= i < |items| ==> IndexedAt(x, i))
      && (plan.Some? ==> head <= plan.value < |items| && items[plan.value].PlanCard?)
  }

  function Live(x: Index): seq<Item>
    requires x.head <= |x.items|
  {
    x.items[x.head..]
  }

  /** The index maps agree with a search through the live rows. */
  lemma SearchAgrees(x: Index, id: string)
    requires Indexed(x)
    ensures FindCall(Live(x), id) == if id in x.rows then Some(x.rows[id] - x.head) else None
  {
    var i := FindCall(Live(x), id);
    if i.Some? { assert IsCall(x.items[x.head + i.value], id) && IndexedAt(x, x.head + i.value); }
    if id in x.rows {
      assert PointsAt(x, id);
      assert IsCall(Live(x)[x.rows[id] - x.head], id);
    }
  }

  lemma PlanSearchAgrees(x: Index)
    requires Indexed(x)
    ensures FindPlan(Live(x)) == if x.plan.Some? then Some(x.plan.value - x.head) else None
  {
    var i := FindPlan(Live(x));
    if i.Some? { assert x.items[x.head + i.value].PlanCard? && IndexedAt(x, x.head + i.value); }
    if x.plan.Some? { assert Live(x)[x.plan.value - x.head].PlanCard?; }
  }

  function WithAction(x: Index, a: ToolItem): Index {
    Index(x.items + [ActionRow(a)], x.head, x.actions[a.callId := a], x.rows[a.callId := |x.items|], x.plan)
  }

  lemma WithActionKeeps(x: Index, a: ToolItem)
    requires Indexed(x) && a.callId !in x.rows
    ensures Indexed(WithAction(x, a)) && Live(WithAction(x, a)) == Live(x) + [ActionRow(a)]
  {
    var y := WithAction(x, a);
    forall id | id in y.rows ensures PointsAt(y, id) {
      if id != a.callId { assert PointsAt(x, id); }
    }
    forall i: nat | y.head <= i < |y.items| ensures IndexedAt(y, i) {
      if i < |x.items| { assert IndexedAt(x, i); }
    }
  }

  function WithRow(x: Index, item: Item): Index {
    x.(items := x.items + [item], plan := if item.PlanCard? then Some(|x.items|) else x.plan)
  }

  lemma WithRowKeeps(x: Index, item: Item)
    requires Indexed(x) && !item.ActionRow? && (item.PlanCard? ==> x.plan.None?)
    ensures Indexed(WithRow(x, item)) && Live(WithRow(x, item)) == Live(x) + [item]
  {
    var y := WithRow(x, item);
    forall id | id in y.rows ensures PointsAt(y, id) { assert PointsAt(x, id); }
    forall i: nat | y.head <= i < |y.items| ensures IndexedAt(y, i) {
      if i < |x.items| { assert IndexedAt(x, i); }
    }
  }

  function WithFinished(x: Index, id: string, a: ToolItem): Index
    requires id in x.rows && x.rows[id] < |x.items|
  {
    x.(items := x.items[x.rows[id] := ActionRow(a)], actions := x.actions[id := a])
  }

  lemma WithFinishedKeeps(x: Index, id: string, a: ToolItem)
    requires Indexed(x) && id in x.rows && PointsAt(x, id) && a.callId == id
    ensures Indexed(WithFinished(x, id, a))
    ensures Live(WithFinished(x, id, a)) == Live(x)[x.rows[id] - x.head := ActionRow(a)]
  {
    var y := WithFinished(x, id, a);
    forall other | other in y.rows ensures PointsAt(y, other) { assert PointsAt(x, other); }
    forall i: nat | y.head <= i < |y.items| ensures IndexedAt(y, i) { assert IndexedAt(x, i); }
  }

  lemma WithPlanCardKeeps(x: Index, plan: PlanItem)
    requires Indexed(x) && x.plan.Some?
    ensures var y := x.(items := x.items[x.plan.value := PlanCard(plan)]);
      Indexed(y) && Live(y) == Live(x)[x.plan.value - x.head := PlanCard(plan)]
  {
    var y := x.(items := x.items[x.plan.value := PlanCard(plan)]);
    forall id | id in y.rows ensures PointsAt(y, id) { assert PointsAt(x, id); }
    forall i: nat | y.head <= i < |y.items| ensures IndexedAt(y, i) { assert IndexedAt(x, i); }
  }

  /** Dropping the oldest live row forgets what pointed at it. */
  function WithoutOldest(x: Index): Index
    requires x.head < |x.items|
  {
    match x.items[x.head]
    case ActionRow(a) => Index(x.items, x.head + 1, x.actions - {a.callId}, x.rows - {a.callId}, x.plan)
    case PlanCard(_) => x.(head := x.head + 1, plan := None)
    case _ => x.(head := x.head + 1)
  }

  lemma WithoutOldestKeeps(x: Index)
    requires Indexed(x) && x.head < |x.items|
    ensures Indexed(WithoutOldest(x)) && Live(WithoutOldest(x)) == Live(x)[1..]
  {
    var y := WithoutOldest(x);
    assert IndexedAt(x, x.head);
    forall id | id in y.rows ensures PointsAt(y, id) { assert PointsAt(x, id); }
    forall i: nat | y.head <= i < |y.items| ensures IndexedAt(y, i) { assert IndexedAt(x, i); }
  }

  /** The dead rows are cut off, and every index moves down with its row. */
  function Compacted(x: Index): Index
    requires x.head <= |x.items| && (forall id :: id in x.rows ==> x.head <= x.rows[id])
    requires x.plan.Some? ==> x.head <= x.plan.value
  {
    Index(x.items[x.head..], 0, x.actions, map id | id in x.rows :: x.rows[id] - x.head,
          if x.plan.Some? then Some(x.plan.value - x.head) else None)
  }

  lemma IndexesAreLive(x: Index)
    requires Indexed(x)
    ensures forall id :: id in x.rows ==> x.head <= x.rows[id] < |x.items|
  {
    forall id | id in x.rows ensures x.head <= x.rows[id] < |x.items| { assert PointsAt(x, id); }
  }

  lemma CompactedRow(x: Index, i: nat)
    requires Indexed(x) && i < |x.items| - x.head && forall id :: id in x.rows ==> x.head <= x.rows[id]
    ensures IndexedAt(Compacted(x), i)
  {
    assert x.items[x.head + i] == Compacted(x).items[i] && IndexedAt(x, x.head + i);
  }

  lemma CompactedTarget(x: Index, id: string)
    requires Indexed(x) && id in x.rows && forall id :: id in x.rows ==> x.head <= x.rows[id]
    ensures PointsAt(Compacted(x), id)
  {
    assert PointsAt(x, id);
  }

  lemma CompactedKeeps(x: Index)
    requires Indexed(x) && forall id :: id in x.rows ==> x.head <= x.rows[id]
    ensures Indexed(Compacted(x)) && Live(Compacted(x)) == Live(x)
  {
    var y := Compacted(x);
    CompactedPlan(x);
    forall id | id in y.rows ensures PointsAt(y, id) { CompactedTarget(x, id); }
    forall i: nat | y.head <= i < |y.items| ensures IndexedAt(y, i) { CompactedRow(x, i); }
  }

  lemma CompactedPlan(x: Index)
    requires Indexed(x) && forall id :: id in x.rows ==> x.head <= x.rows[id]
    ensures var y := Compacted(x);
      y.rows.Keys == y.actions.Keys && (y.plan.Some? ==> y.plan.value < |y.items| && y.items[y.plan.value].PlanCard?)
  {}

  // ---------------------------------------------------------------- the indexed lists show the plain list

  lemma NewestBehind(first: Item, rows: seq<Item>, n: nat)
    ensures Newest([first] + rows, n) == if n > |rows| then [first] + Newest(rows, n - 1) else Newest(rows, n)
  {}

  lemma FindsRow(x: Index, id: string)
    requires Indexed(x)
    ensures if id !in x.rows then FindCall(Live(x), id) == None
      else
        && PointsAt(x, id) && FindCall(Live(x), id) == Some(x.rows[id] - x.head)
        && Live(x)[x.rows[id] - x.head] == ActionRow(x.actions[id])
  {
    SearchAgrees(x, id);
    if id in x.rows { assert PointsAt(x, id); }
  }

  lemma FinishAt(s: Shown, e: Event, i: nat, a: ToolItem)
    requires e.payload.ToolFinished? && FindCall(s.rows, e.payload.callId.GetOr("")) == Some(i)
    requires i < |s.rows| && s.rows[i] == ActionRow(a)
    ensures FinishCall(s, e) == s.(rows := s.rows[i := ActionRow(Finished(a, e))])
  {}

  lemma FinishShows(x: Index, s: Shown, e: Event)
    requires Indexed(x) && s.rows == Live(x) && e.payload.ToolFinished?
    ensures var id := e.payload.callId.GetOr("");
      if id !in x.rows then FinishCall(s, e) == s
      else
        && x.rows[id] < |x.items| && id in x.actions
        && var y := WithFinished(x, id, Finished(x.actions[id], e));
        Indexed(y) && FinishCall(s, e) == s.(rows := Live(y))
  {
    var id := e.payload.callId.GetOr("");
    FindsRow(x, id);
    if id in x.rows {
      FinishAt(s, e, x.rows[id] - x.head, x.actions[id]);
      WithFinishedKeeps(x, id, Finished(x.actions[id], e));
    }
  }

  lemma StartShows(x: Index, rows: seq<Item>, a: ToolItem)
    requires Indexed(x) && rows == Live(x)
    ensures FindCall(rows, a.callId).Some? <==> a.callId in x.rows
    ensures a.callId !in x.rows ==> Indexed(WithAction(x, a)) && Live(WithAction(x, a)) == rows + [ActionRow(a)]
  {
    SearchAgrees(x, a.callId);
    if a.callId !in x.rows { WithActionKeeps(x, a); }
  }

  lemma PlanShows(x: Index, rows: seq<Item>, plan: PlanItem)
    requires Indexed(x) && rows == Live(x)
    ensures FindPlan(rows) == if x.plan.Some? then Some(x.plan.value - x.head) else None
    ensures if x.plan.Some? then
        var y := x.(items := x.items[x.plan.value := PlanCard(plan)]);
        Indexed(y) && Live(y) == rows[x.plan.value - x.head := PlanCard(plan)]
      else Indexed(WithRow(x, PlanCard(plan))) && Live(WithRow(x, PlanCard(plan))) == rows + [PlanCard(plan)]
  {
    PlanSearchAgrees(x);
    if x.plan.Some? { WithPlanCardKeeps(x, plan); } else { WithRowKeeps(x, PlanCard(plan)); }
  }

  // ---------------------------------------------------------------- the projector

  class TranscriptProjector {
    const host: Host

    var actionByCallId: map<string, ToolItem>
    var rowIndexByCallId: map<string, nat>
    var streamAttempts: set<int>
    var planRowIndex: Option<nat>
    var planRevision: int
    var items: seq<Item>
    var userMessage: Option<string>
    var head: nat
    var lastProjectedEventId: int
    var processedEvents: nat

    ghost function Lists(): Index
      reads this
    {
      Index(items, head, actionByCallId, rowIndexByCallId, planRowIndex)
    }

    /** The indexes are right, and the backing list stays below two windows. */
    ghost predicate Valid()
      reads this
    {
      Indexed(Lists()) && head < MAX_ITEMS && |items| - head <= Cap(userMessage)
    }

    /** What the projector shows, without its indexes. */
    function View(): Shown
      requires head <= |items|
      reads this
    {
      Shown(userMessage, items[head..], streamAttempts, planRevision, lastProjectedEventId, processedEvents)
    }

    constructor (host: Host)
      ensures Valid() && this.host == host && View() == Empty(host, "").(user := None)
    {
      this.host := host;
      actionByCallId, rowIndexByCallId, streamAttempts, planRowIndex := map[], map[], {}, None;
      planRevision, items, userMessage, head, lastProjectedEventId, processedEvents := 0, [], None, 0, 0, 0;
    }

    /** Memory stays bounded: the backing list and the tracked calls. */
    lemma Bounded()
      requires Valid()
      ensures |items| < 2 * MAX_ITEMS && |actionByCallId| <= Cap(userMessage)
    {
      TrackedAreRows(Lists());
    }

    method Snapshot() returns (all: seq<Item>)
      requires Valid()
      ensures all == Transcript.Snapshot(View())
    {
      var activeItems := items[head..];
      all := if userMessage.Some? then [UserMessage(userMessage.value)] + activeItems else activeItems;
    }

    method ItemCount() returns (n: nat)
      requires Valid()
      ensures n == |Transcript.Snapshot(View())| <= MAX_ITEMS
    {
      n := |items| - head + if userMessage.Some? then 1 else 0;
    }

    /** The newest items of the snapshot, without building it. */
    method VisibleItems(visibleCount: int) returns (visible: seq<Item>)
      requires Valid()
      ensures visible == Newest(Transcript.Snapshot(View()), if visibleCount < 0 then 0 else visibleCount)
    {
      var activityCount := |items| - head;
      var includeUser := userMessage.Some? && visibleCount > activityCount;
      var limit := visibleCount - if includeUser then 1 else 0;
      var activityLimit := if limit < 0 then 0 else limit;
      var start := |items| - activityLimit;
      var activityItems := items[if start < head then head else start..];
      assert activityItems == Newest(items[head..], activityLimit);
      visible := if includeUser then [UserMessage(userMessage.value)] + activityItems else activityItems;
      if userMessage.Some? {
        NewestBehind(UserMessage(userMessage.value), items[head..], if visibleCount < 0 then 0 else visibleCount);
      }
    }

    method Reset(events: seq<Event>, task: string, initialPlan: Option<PlanItem>)
      modifies this
      ensures Valid() && View() == Transcript.Reset(host, events, task, initialPlan)
    {
      actionByCallId, rowIndexByCallId, streamAttempts, planRowIndex := map[], map[], {}, None;
      planRevision, items, head, lastProjectedEventId, processedEvents := 0, [], 0, 0, 0;
      userMessage := if host.blank(task) then None else Some(task);
      assert View() == Empty(host, task);
      if initialPlan.Some? {
        ProjectPlan(initialPlan.value);
      }
      Append(events, task);
    }

    method Append(events: seq<Event>, task: string)
      requires Valid()
      modifies this
      ensures Valid() && View() == Transcript.Append(host, old(View()), events, task)
    {
      for i := 0 to |events|
        invariant Valid() && View() == Transcript.Append(host, old(View()), events[..i], task)
      {
        assert events[..i + 1][..i] == events[..i];
        if events[i].id <= lastProjectedEventId {
          continue;
        }
        ProjectEvent(events[i], task);
        lastProjectedEventId := events[i].id;
        processedEvents := processedEvents + 1;
      }
      assert events[..|events|] == events;
    }

    /** Drops the oldest rows over the cap; compacts once a whole window is dead. */
    method Prune()
      requires Indexed(Lists()) && head < MAX_ITEMS && |items| - head <= MAX_ITEMS + 1
      modifies `head, `items, `actionByCallId, `rowIndexByCallId, `planRowIndex
      ensures Valid() && View() == old(View()).(rows := Newest(old(View()).rows, Cap(userMessage)))
    {
      DropOverCap();
      if head < MAX_ITEMS {
        return;
      }
      IndexesAreLive(Lists());
      CompactedKeeps(Lists());
      Compact();
    }

    method DropOverCap()
      requires Indexed(Lists())
      modifies `head, `actionByCallId, `rowIndexByCallId, `planRowIndex
      ensures Indexed(Lists()) && |items| - head <= Cap(userMessage)
      ensures View().rows == Newest(old(View().rows), Cap(userMessage))
    {
      ghost var rows := View().rows;
      while |items| - head > Cap(userMessage)
        invariant Indexed(Lists()) && head <= |items| && old(head) <= head
        invariant head == old(head) || |items| - head >= Cap(userMessage)
        invariant View().rows == rows[head - old(head)..]
        decreases |items| - head
      {
        DropOldest();
      }
    }

    method DropOldest()
      requires Indexed(Lists()) && head < |items|
      modifies `head, `actionByCallId, `rowIndexByCallId, `planRowIndex
      ensures Indexed(Lists()) && head == old(head) + 1 && View().rows == old(View().rows)[1..]
    {
      WithoutOldestKeeps(Lists());
      assert IndexedAt(Lists(), head);
      var dropped := items[head];
      if dropped.ActionRow? {
        var callId := dropped.action.callId;
        if callId in rowIndexByCallId && rowIndexByCallId[callId] == head {
          rowIndexByCallId := rowIndexByCallId - {callId};
          actionByCallId := actionByCallId - {callId};
        }
      } else if dropped.PlanCard? && planRowIndex == Some(head) {
        planRowIndex := None;
      }
      head := head + 1;
    }

    method Compact()
      requires Indexed(Lists()) && forall id :: id in rowIndexByCallId ==> head <= rowIndexByCallId[id]
      modifies `head, `items, `rowIndexByCallId, `planRowIndex
      ensures Lists() == Compacted(old(Lists()))
    {
      ghost var x := Lists();
      var offset := head;
      items := items[offset..];
      rowIndexByCallId := map id | id in rowIndexByCallId :: rowIndexByCallId[id] - offset;
      assert rowIndexByCallId == Compacted(x).rows;
      if planRowIndex.Some? {
        planRowIndex := Some(planRowIndex.value - offset);
      }
      head := 0;
    }

    method Push(item: Item)
      requires Valid() && !item.ActionRow? && !item.PlanCard?
      modifies `head, `items, `actionByCallId, `rowIndexByCallId, `planRowIndex
      ensures Valid() && View() == Add(old(View()), item)
    {
      WithRowKeeps(Lists(), item);
      items := items + [item];
      Prune();
    }

    method ProjectPlan(plan: PlanItem)
      requires Valid()
      modifies `head, `items, `actionByCallId, `rowIndexByCallId, `planRowIndex, `planRevision
      ensures Valid() && View() == WithPlan(old(View()), plan)
    {
      if plan.revision <= planRevision {
        return;
      }
      PlanShows(Lists(), View().rows, plan);
      planRevision := plan.revision;
      if planRowIndex.Some? && planRowIndex.value >= head {
        items := items[planRowIndex.value := PlanCard(plan)];
      } else {
        PushPlan(plan);
        Prune();
      }
    }

    method PushPlan(plan: PlanItem)
      modifies `items, `planRowIndex
      ensures Lists() == WithRow(old(Lists()), PlanCard(plan))
    {
      planRowIndex := Some(|items|);
      items := items + [PlanCard(plan)];
    }

    method StartAction(action: ToolItem)
      requires Valid()
      modifies `head, `items, `actionByCallId, `rowIndexByCallId, `planRowIndex
      ensures Valid()
      ensures View() == if FindCall(old(View()).rows, action.callId).Some? then old(View())
        else Add(old(View()), ActionRow(action))
    {
      StartShows(Lists(), View().rows, action);
      if action.callId in actionByCallId {
        return;
      }
      PushAction(action);
      Prune();
    }

    method PushAction(action: ToolItem)
      modifies `items, `actionByCallId, `rowIndexByCallId
      ensures Lists() == WithAction(old(Lists()), action)
    {
      actionByCallId := actionByCallId[action.callId := action];
      rowIndexByCallId := rowIndexByCallId[action.callId := |items|];
      items := items + [ActionRow(action)];
    }

    method FinishAction(e: Event)
      requires Valid() && e.payload.ToolFinished?
      modifies `items, `actionByCallId
      ensures Valid() && View() == FinishCall(old(View()), e)
    {
      var callId := e.payload.callId.GetOr("");
      FinishShows(Lists(), View(), e);
      if callId !in actionByCallId || callId !in rowIndexByCallId {
        return;
      }
      ReplaceAction(callId, Finished(actionByCallId[callId], e));
    }

    method ReplaceAction(callId: string, next: ToolItem)
      requires callId in rowIndexByCallId && rowIndexByCallId[callId] < |items|
      modifies `items, `actionByCallId
      ensures Lists() == WithFinished(old(Lists()), callId, next)
    {
      actionByCallId := actionByCallId[callId := next];
      items := items[rowIndexByCallId[callId] := ActionRow(next)];
    }

    method ClosePlan(state: string)
      requires Valid()
      modifies `items
      ensures Valid() && View() == WithPlanState(old(View()), state)
    {
      PlanSearchAgrees(Lists());
      if planRowIndex.Some? && planRowIndex.value >= head && items[planRowIndex.value].PlanCard? {
        var plan := items[planRowIndex.value].plan.(state := state);
        WithPlanCardKeeps(Lists(), plan);
        items := items[planRowIndex.value := PlanCard(plan)];
      }
    }

    method ShowAttempt(attempt: Option<int>)
      requires Valid()
      modifies `head, `items, `actionByCallId, `rowIndexByCallId, `planRowIndex, `streamAttempts
      ensures Valid() && View() ==
        if attempt.None? || attempt.value in old(View()).attempts then old(View())
        else Add(old(View()).(attempts := old(View()).attempts + {attempt.value}), StreamAttempt(attempt.value))
    {
      if attempt.Some? && attempt.value !in streamAttempts {
        streamAttempts := streamAttempts + {attempt.value};
        Push(StreamAttempt(attempt.value));
      }
    }

    method FinishRun(planState: Option<string>, notice: Item)
      requires Valid() && !notice.ActionRow? && !notice.PlanCard?
      modifies `head, `items, `actionByCallId, `rowIndexByCallId, `planRowIndex
      ensures Valid()
      ensures View() == Add(if planState.Some? then WithPlanState(old(View()), planState.value)
                            else old(View()), notice)
    {
      if planState.Some? {
        ClosePlan(planState.value);
      }
      Push(notice);
    }

    method ProjectEvent(e: Event, task: string)
      requires Valid()
      modifies `head, `items, `actionByCallId, `rowIndexByCallId, `planRowIndex, `planRevision, `streamAttempts,
          `userMessage
      ensures Valid() && View() == Project(host, old(View()), e, task)
    {
      match e.payload
      case RunStarted =>
        if userMessage.None? && !host.blank(task) {
          userMessage := Some(task);
          Prune();
        }
      case StreamActivity(attempt) =>
        ShowAttempt(attempt);
      case ToolStarted(name, _, _, _) =>
        if name != Some("update_plan") {
          StartAction(NewAction(host, e));
        }
      case PlanUpdated(steps, _, _, _) =>
        if steps.Some? && Lines(steps.value) != [] {
          ProjectPlan(PlanOf(e));
        }
      case ToolFinished(_, _, _, _) =>
        FinishAction(e);
      case ModelRetry =>
        Push(RetryNotice(e.id));
      case BudgetExtended(from, to, hard) =>
        Push(BudgetNotice(e.id, true, from, to, hard));
      case BudgetFinalizing(limit, hard) =>
        Push(BudgetNotice(e.id, false, None, limit, hard));
      case CompletionDeferred(verification) =>
        Push(VerificationNotice(e.id, verification));
      case RunFinished(planState, status) =>
        FinishRun(planState, TerminalNotice(e.id, status));
      case OtherEvent =>
    }
  }

  /** Every tracked call has a row of its own. */
  lemma TrackedAreRows(x: Index)
    requires Indexed(x)
    ensures |x.actions| <= |x.items| - x.head
  {
    TakenBelow(x, x.rows.Keys);
    assert |x.actions| == |x.actions.Keys| == |x.rows.Keys|;
  }

  function Positions(lo: nat, hi: nat): (r: set<nat>)
    ensures |r| == (if lo < hi then hi - lo else 0) && forall i :: i in r <==> lo <= i < hi
    decreases hi
  {
    if hi <= lo then {} else Positions(lo, hi - 1) + {hi - 1}
  }

  /** Different calls have different rows. */
  ghost predicate OneEach(rows: map<string, nat>) {
    forall a, b :: a in rows && b in rows && a != b ==> rows[a] != rows[b]
  }

  function RowsOf(rows: map<string, nat>, ids: set<string>): set<nat> {
    set id | id in ids && id in rows :: rows[id]
  }

  lemma TakenBelow(x: Index, ids: set<string>)
    requires Indexed(x) && ids <= x.rows.Keys
    ensures |ids| <= |x.items| - x.head
  {
    forall a, b | a in x.rows && b in x.rows && a != b ensures x.rows[a] != x.rows[b] {
      assert PointsAt(x, a) && PointsAt(x, b);
    }
    SameSize(x.rows, ids);
    IndexesAreLive(x);
    SubsetSize(RowsOf(x.rows, ids), Positions(x.head, |x.items|));
  }

  lemma SubsetSize(a: set<nat>, b: set<nat>)
    requires a <= b
    ensures |a| <= |b|
  {
    assert b == a + (b - a);
  }

  lemma {:induction false} SameSize(rows: map<string, nat>, ids: set<string>)
    requires OneEach(rows) && ids <= rows.Keys
    ensures |RowsOf(rows, ids)| == |ids|
    decreases ids
  {
    if ids != {} {
      var id :| id in ids;
      var rest := ids - {id};
      SameSize(rows, rest);
      assert RowsOf(rows, ids) == RowsOf(rows, rest) + {rows[id]};
    } else {
      assert RowsOf(rows, ids) == {};
    }
  }
}
