/**
 How events reach the projector: a reducer collects them, the feed renders whenever it likes, and an
 acknowledgement of a rendered version clears the batch. Nothing is lost and nothing is shown twice, unless
 the store is cleared and the feed cannot see it.
 */
module EventFeed {
  import opened Results
  import opened Transcript

  const MAX_CLIENT_EVENTS := 2000

  datatype Store = Store(events: seq<Event>, appended: seq<Event>, resetVersion: nat, version: nat, lastId: int)

  datatype Action = AppendEvents(batch: seq<Event>) | AckAppend(version: nat) | ResetEvents(batch: seq<Event>) | Clear

  const INITIAL := Store([], [], 0, 0, 0)

  function After(events: seq<Event>, lastId: int): seq<Event> {
    if events == [] then []
    else if events[|events| - 1].id > lastId then After(events[..|events| - 1], lastId) + [events[|events| - 1]]
    else After(events[..|events| - 1], lastId)
  }

  /** Collects the events of a batch that are newer than everything seen. */
  method Collect(batch: seq<Event>, lastId: int) returns (next: seq<Event>)
    ensures next == After(batch, lastId)
  {
    next := [];
    for i := 0 to |batch|
      invariant next == After(batch[..i], lastId)
    {
      assert batch[..i + 1][..i] == batch[..i];
      if batch[i].id > lastId {
        next := next + [batch[i]];
      }
    }
    assert batch[..|batch|] == batch;
  }

  /** The stable order by id. */
  function Insert(sorted: seq<Event>, e: Event): seq<Event> {
    if sorted == [] || sorted[|sorted| - 1].id <= e.id then sorted + [e]
    else Insert(sorted[..|sorted| - 1], e) + [sorted[|sorted| - 1]]
  }

  function SortById(events: seq<Event>): seq<Event> {
    if events == [] then [] else Insert(SortById(events[..|events| - 1]), events[|events| - 1])
  }

  function LastIdOf(events: seq<Event>): int {
    if events == [] then 0 else events[|events| - 1].id
  }

  function Reduce(s: Store, a: Action): Store {
    match a
    case AppendEvents(batch) =>
      var next := After(batch, s.lastId);
      if next == [] then s
      else s.(events := Newest(s.events + next, MAX_CLIENT_EVENTS), appended := s.appended + next,
              version := s.version + 1, lastId := LastIdOf(next))
    case ResetEvents(batch) =>
      var trimmed := Newest(SortById(batch), MAX_CLIENT_EVENTS);
      Store(trimmed, [], s.resetVersion + 1, s.version + 1, LastIdOf(trimmed))
    case AckAppend(version) =>
      if version != s.version || s.appended == [] then s else s.(appended := [])
    case Clear => INITIAL
  }

  // ---------------------------------------------------------------- the feed

  /** What one page keeps constant. */
  datatype Page = Page(host: Host, task: string, plan: Option<PlanItem>)

  /**
   The store and the feed behind it. `rendered` are the versions rendered since the last clear; `frame` are the
   events that the last fresh frame showed, and `since` the events that the store accepted after it. The frame is
   stale when the store was reset or cleared behind it.
   */
  datatype Feed = Feed(
    store: Store, applied: Option<nat>, shown: Shown, rendered: set<nat>, frame: seq<Event>, since: seq<Event>,
    stale: bool)

  datatype Step = Dispatch(action: Action) | Render

  function Take(p: Page, f: Feed, step: Step): Feed {
    match step
    case Dispatch(a) =>
      f.(store := Reduce(f.store, a),
         since := if a.AppendEvents? then f.since + After(a.batch, f.store.lastId) else f.since,
         rendered := if a.Clear? then {} else f.rendered,
         stale := f.stale || a.ResetEvents? || a.Clear?)
    case Render =>
      var rendered := f.rendered + {f.store.version};
      if f.applied != Some(f.store.resetVersion) then
        f.(shown := Reset(p.host, f.store.events, p.task, p.plan), applied := Some(f.store.resetVersion),
           frame := f.store.events, since := [], rendered := rendered, stale := false)
      else f.(shown := Append(p.host, f.shown, f.store.appended, p.task), rendered := rendered)
  }

  predicate Positive(events: seq<Event>) {
    forall i :: 0 <= i < |events| ==> events[i].id > 0
  }

  /** A batch comes in order of its ids, and only versions that were rendered since the last clear are acknowledged. */
  predicate Possible(f: Feed, step: Step) {
    match step
    case Dispatch(AppendEvents(batch)) => Increasing(batch) && Positive(batch)
    case Dispatch(ResetEvents(batch)) => Positive(batch)
    case Dispatch(AckAppend(version)) => version in f.rendered
    case Dispatch(Clear) => true
    case Render => true
  }

  function TakeAll(p: Page, f: Feed, steps: seq<Step>): Feed {
    if steps == [] then f else Take(p, TakeAll(p, f, steps[..|steps| - 1]), steps[|steps| - 1])
  }

  predicate AllPossible(p: Page, f: Feed, steps: seq<Step>) {
    steps != [] ==>
      && AllPossible(p, f, steps[..|steps| - 1])
      && Possible(TakeAll(p, f, steps[..|steps| - 1]), steps[|steps| - 1])
  }

  function Start(p: Page): Feed {
    Feed(INITIAL, None, Empty(p.host, p.task), {}, [], [], false)
  }

  // ---------------------------------------------------------------- events in order

  predicate UpTo(events: seq<Event>, id: int) {
    forall i :: 0 <= i < |events| ==> events[i].id <= id
  }

  predicate Above(events: seq<Event>, id: int) {
    forall i :: 0 <= i < |events| ==> events[i].id > id
  }

  predicate NonDecreasing(events: seq<Event>) {
    forall i, j :: 0 <= i < j < |events| ==> events[i].id <= events[j].id
  }

  lemma {:induction false} AfterKeepsOrder(events: seq<Event>, lastId: int)
    requires Increasing(events)
    ensures Increasing(After(events, lastId)) && Above(After(events, lastId), lastId)
    ensures forall e :: e in After(events, lastId) <==> e in events && e.id > lastId
  {
    if events != [] {
      var init, e := events[..|events| - 1], events[|events| - 1];
      assert events == init + [e];
      AfterKeepsOrder(init, lastId);
      AfterSnoc(After(init, lastId), init, e);
    }
  }

  lemma AfterSnoc(after: seq<Event>, init: seq<Event>, e: Event)
    requires Increasing(init + [e]) && Increasing(after) && forall x :: x in after ==> x in init
    ensures Increasing(after + [e])
  {
    forall i | 0 <= i < |after| ensures after[i].id < e.id {
      assert after[i] in init;
      var k :| 0 <= k < |init| && init[k] == after[i];
      assert (init + [e])[k] == init[k] && (init + [e])[|init|] == e;
    }
  }

  lemma {:induction false} InsertSorts(sorted: seq<Event>, e: Event)
    requires NonDecreasing(sorted)
    ensures NonDecreasing(Insert(sorted, e)) && multiset(Insert(sorted, e)) == multiset(sorted) + multiset{e}
    ensures forall x :: x in Insert(sorted, e) <==> x in sorted || x == e
  {
    if sorted != [] && sorted[|sorted| - 1].id > e.id {
      var init, last := sorted[..|sorted| - 1], sorted[|sorted| - 1];
      InsertSorts(init, e);
      assert sorted == init + [last];
      assert multiset(sorted) == multiset(init) + multiset{last};
      BelowLast(Insert(init, e), init, e, last);
    }
  }

  lemma BelowLast(r: seq<Event>, init: seq<Event>, e: Event, last: Event)
    requires NonDecreasing(r) && NonDecreasing(init + [last]) && last.id > e.id
    requires forall x :: x in r ==> x in init || x == e
    ensures NonDecreasing(r + [last])
  {
    forall i | 0 <= i < |r| ensures r[i].id <= last.id {
      assert r[i] in r;
      if r[i] in init {
        var k :| 0 <= k < |init| && init[k] == r[i];
        assert (init + [last])[k] == init[k] && (init + [last])[|init|] == last;
      }
    }
  }

  /** A reset puts its events in order and loses none. */
  lemma {:induction false} SortByIdSorts(events: seq<Event>)
    ensures NonDecreasing(SortById(events)) && multiset(SortById(events)) == multiset(events)
    ensures forall e :: e in SortById(events) <==> e in events
  {
    if events != [] {
      var init := events[..|events| - 1];
      SortByIdSorts(init);
      InsertSorts(SortById(init), events[|events| - 1]);
      assert events == init + [events[|events| - 1]];
    }
  }

  /** Events that were appended are behind the projector. */
  lemma {:induction false} AppendCovers(h: Host, s: Shown, events: seq<Event>, task: string)
    ensures s.lastId <= Append(h, s, events, task).lastId && UpTo(events, Append(h, s, events, task).lastId)
  {
    if events != [] {
      AppendCovers(h, s, events[..|events| - 1], task);
    }
  }

  function IdsOf(events: seq<Event>): set<int> {
    set i | 0 <= i < |events| :: events[i].id
  }

  lemma IdsSnoc(events: seq<Event>, e: Event)
    ensures IdsOf(events + [e]) == IdsOf(events) + {e.id}
  {
    var all := events + [e];
    forall id | id in IdsOf(events) ensures id in IdsOf(all) {
      var i :| 0 <= i < |events| && events[i].id == id;
      assert all[i].id == id;
    }
    assert all[|events|].id == e.id;
  }

  /** In an ordered sequence an id is new exactly when it is not the last one. */
  lemma IdsGrow(init: seq<Event>, e: Event)
    requires NonDecreasing(init + [e])
    ensures |IdsOf(init + [e])| == |IdsOf(init)| + if init != [] && LastIdOf(init) == e.id then 0 else 1
  {
    IdsSnoc(init, e);
    assert (init + [e])[|init|] == e;
    forall i | 0 <= i < |init| ensures init[i].id <= e.id && init[i].id <= LastIdOf(init) {
      assert (init + [e])[i] == init[i] && (init + [e])[|init| - 1] == init[|init| - 1];
    }
    if init != [] { assert LastIdOf(init) in IdsOf(init); }
  }

  lemma OneCounts(h: Host, s: Shown, e: Event, task: string)
    ensures var s1 := AppendOne(h, s, e, task);
      if e.id <= s.lastId then s1 == s else s1.processed == s.processed + 1 && s1.lastId == e.id
  {}

  /** Each id of an ordered sequence is projected exactly once. */
  lemma {:induction false} EachIdOnce(h: Host, s: Shown, events: seq<Event>, task: string)
    requires NonDecreasing(events) && Above(events, s.lastId)
    ensures var s1 := Append(h, s, events, task);
      && s1.processed == s.processed + |IdsOf(events)|
      && s1.lastId == if events == [] then s.lastId else LastIdOf(events)
  {
    if events != [] {
      var init, e := events[..|events| - 1], events[|events| - 1];
      assert events == init + [e];
      EachIdOnce(h, s, init, task);
      IdsGrow(init, e);
      OneCounts(h, Append(h, s, init, task), e, task);
    } else {
      assert IdsOf(events) == {};
    }
  }

  // ---------------------------------------------------------------- what every run keeps

  ghost predicate StoreOk(s: Store) {
    s.lastId == LastIdOf(s.events) && UpTo(s.events, s.lastId) && UpTo(s.appended, s.lastId)
    && NonDecreasing(s.events) && Positive(s.events)
  }

  /** Everything the store accepted since the frame, and what the frame showed, in order. */
  function Accepted(f: Feed): seq<Event> {
    f.frame + f.since
  }

  /** Showing the batch still waiting would show everything accepted; after the version was rendered, it is shown. */
  ghost predicate InStep(p: Page, f: Feed) {
    && Append(p.host, f.shown, f.store.appended, p.task) == Reset(p.host, Accepted(f), p.task, p.plan)
    && (f.store.version in f.rendered ==> f.shown == Reset(p.host, Accepted(f), p.task, p.plan))
    && NonDecreasing(Accepted(f)) && Positive(Accepted(f)) && UpTo(Accepted(f), f.store.lastId)
  }

  ghost predicate FeedOk(p: Page, f: Feed) {
    && StoreOk(f.store) && (forall v :: v in f.rendered ==> v <= f.store.version)
    && (f.applied.Some? && !f.stale ==> f.applied == Some(f.store.resetVersion) && InStep(p, f))
  }

  /** The next render sees that the frame is stale: the reset version is not the one that was applied last. */
  predicate Noticed(f: Feed) {
    f.stale ==> f.applied != Some(f.store.resetVersion)
  }

  /** The projector starts without an event, whatever plan it is given. */
  function Fresh(p: Page): (s: Shown)
    ensures s.lastId == 0 && s.processed == 0
    ensures forall events :: Reset(p.host, events, p.task, p.plan) == Append(p.host, s, events, p.task)
  {
    var s := Empty(p.host, p.task);
    if p.plan.Some? then WithPlan(s, p.plan.value) else s
  }

  lemma ReduceKeepsStore(s: Store, a: Action)
    requires StoreOk(s)
    requires match a
      case AppendEvents(batch) => Increasing(batch) && Positive(batch)
      case ResetEvents(batch) => Positive(batch)
      case _ => true
    ensures StoreOk(Reduce(s, a))
  {
    match a
    case AppendEvents(batch) =>
      AfterKeepsOrder(batch, s.lastId);
      if After(batch, s.lastId) != [] { AppendKeepsStore(s, After(batch, s.lastId)); }
    case ResetEvents(batch) =>
      SortByIdSorts(batch);
      forall i | 0 <= i < |SortById(batch)| ensures SortById(batch)[i].id > 0 { assert SortById(batch)[i] in batch; }
    case AckAppend(_) =>
    case Clear =>
  }

  lemma AppendKeepsStore(s: Store, next: seq<Event>)
    requires StoreOk(s) && next != [] && Increasing(next) && Above(next, s.lastId) && Positive(next)
    ensures var events := Newest(s.events + next, MAX_CLIENT_EVENTS);
      LastIdOf(events) == LastIdOf(next) && UpTo(events, LastIdOf(next)) && NonDecreasing(events) && Positive(events)
    ensures UpTo(s.appended + next, LastIdOf(next))
  {
    var merged := s.events + next;
    MergeKeepsOrder(s.events, next, s.lastId);
    NewestKeepsOrder(merged, LastIdOf(next));
  }

  lemma MergeKeepsOrder(a: seq<Event>, b: seq<Event>, id: int)
    requires NonDecreasing(a) && UpTo(a, id) && Increasing(b) && Above(b, id) && b != []
    ensures NonDecreasing(a + b) && UpTo(a + b, LastIdOf(b)) && LastIdOf(a + b) == LastIdOf(b)
  {}

  lemma NewestKeepsOrder(a: seq<Event>, id: int)
    requires NonDecreasing(a) && UpTo(a, id) && Positive(a)
    ensures var n := Newest(a, MAX_CLIENT_EVENTS);
      NonDecreasing(n) && UpTo(n, id) && Positive(n) && LastIdOf(n) == LastIdOf(a)
  {}

  lemma AppendKeepsStep(p: Page, f: Feed, next: seq<Event>)
    requires InStep(p, f) && Increasing(next) && Above(next, f.store.lastId) && Positive(next)
    ensures Append(p.host, f.shown, f.store.appended + next, p.task) ==
      Reset(p.host, Accepted(f) + next, p.task, p.plan)
    ensures NonDecreasing(Accepted(f) + next) && Positive(Accepted(f) + next)
    ensures next != [] ==> UpTo(Accepted(f) + next, LastIdOf(next))
  {
    AppendConcat(p.host, f.shown, f.store.appended, next, p.task);
    AppendConcat(p.host, Fresh(p), Accepted(f), next, p.task);
  }

  lemma DispatchAppendKeeps(p: Page, f: Feed, batch: seq<Event>)
    requires FeedOk(p, f) && Increasing(batch) && Positive(batch)
    ensures FeedOk(p, Take(p, f, Dispatch(AppendEvents(batch))))
  {
    var next := After(batch, f.store.lastId);
    AfterKeepsOrder(batch, f.store.lastId);
    ReduceKeepsStore(f.store, AppendEvents(batch));
    assert f.frame + (f.since + next) == Accepted(f) + next;
    assert f.store.appended + [] == f.store.appended && f.since + [] == f.since;
    if f.applied.Some? && !f.stale && next != [] { AppendKeepsStep(p, f, next); }
  }

  lemma RenderKeeps(p: Page, f: Feed)
    requires FeedOk(p, f)
    ensures var g := Take(p, f, Render);
      FeedOk(p, g) && g.applied == Some(f.store.resetVersion) && (!g.stale <==> Noticed(f))
  {
    var g := Take(p, f, Render);
    if f.applied != Some(f.store.resetVersion) {
      assert Accepted(g) == f.store.events;
      AppendCovers(p.host, Fresh(p), f.store.events, p.task);
      assert f.store.lastId <= g.shown.lastId;
    } else {
      AppendCovers(p.host, f.shown, f.store.appended, p.task);
    }
    ReplayChangesNothing(p.host, g.shown, g.store.appended, p.task);
  }

  lemma TakeKeeps(p: Page, f: Feed, step: Step)
    requires FeedOk(p, f) && Possible(f, step)
    ensures FeedOk(p, Take(p, f, step))
  {
    match step
    case Dispatch(AppendEvents(batch)) => DispatchAppendKeeps(p, f, batch);
    case Dispatch(ResetEvents(batch)) => ReduceKeepsStore(f.store, ResetEvents(batch));
    case Dispatch(AckAppend(version)) =>
    case Dispatch(Clear) =>
    case Render => RenderKeeps(p, f);
  }

  lemma {:induction false} TakeAllKeeps(p: Page, steps: seq<Step>)
    requires AllPossible(p, Start(p), steps)
    ensures FeedOk(p, TakeAll(p, Start(p), steps))
  {
    if steps != [] {
      TakeAllKeeps(p, steps[..|steps| - 1]);
      TakeKeeps(p, TakeAll(p, Start(p), steps[..|steps| - 1]), steps[|steps| - 1]);
    }
  }

  lemma ShownCounts(p: Page, events: seq<Event>)
    requires NonDecreasing(events) && Positive(events)
    ensures Reset(p.host, events, p.task, p.plan).processed == |IdsOf(events)|
    ensures Reset(p.host, events, p.task, p.plan).lastId == LastIdOf(events)
  {
    EachIdOnce(p.host, Fresh(p), events, p.task);
  }

  /**
   Under any interleaving of appends, resets, clears, renders and acknowledgements of rendered versions, a render
   shows what one projection of all events accepted since its frame would show, each id projected once, unless
   the frame is stale and the feed cannot see it.
   */
  lemma ExactlyOnce(p: Page, steps: seq<Step>)
    requires AllPossible(p, Start(p), steps)
    ensures var before := TakeAll(p, Start(p), steps);
      var f := Take(p, before, Render);
      && (!f.stale <==> Noticed(before))
      && (Noticed(before) ==>
        && f.shown == Reset(p.host, Accepted(f), p.task, p.plan)
        && f.shown.processed == |IdsOf(Accepted(f))|
        && Tidy(f.shown))
  {
    var before := TakeAll(p, Start(p), steps);
    TakeAllKeeps(p, steps);
    RenderKeeps(p, before);
    var f := Take(p, before, Render);
    if Noticed(before) {
      assert InStep(p, f);
      ResetIsTidy(p.host, Accepted(f), p.task, p.plan);
      ShownCounts(p, Accepted(f));
    }
  }

  /** Between two resets, the store accepts an event exactly when its id is above every id before it. */
  lemma SinceIsAccepted(p: Page, f: Feed, batch: seq<Event>, e: Event)
    requires FeedOk(p, f) && Increasing(batch) && e in batch && f.applied.Some? && !f.stale
    ensures e in Take(p, f, Dispatch(AppendEvents(batch))).since <==> e in f.since || e.id > f.store.lastId
    ensures UpTo(Accepted(f), f.store.lastId)
  {
    AfterKeepsOrder(batch, f.store.lastId);
  }

  // ---------------------------------------------------------------- what a clear does to the feed

  predicate Uncleared(steps: seq<Step>) {
    forall i :: 0 <= i < |steps| ==> steps[i] != Dispatch(Clear)
  }

  /** Resets only count upwards, so as long as nothing is cleared every stale frame is noticed. */
  lemma {:induction false} ResetsAreNoticed(p: Page, steps: seq<Step>)
    requires Uncleared(steps)
    ensures var f := TakeAll(p, Start(p), steps);
      Noticed(f) && (f.applied.Some? ==> f.applied.value <= f.store.resetVersion)
  {
    if steps != [] { ResetsAreNoticed(p, steps[..|steps| - 1]); }
  }

  function Resets(steps: seq<Step>): nat {
    if steps == [] then 0
    else
      var last := steps[|steps| - 1];
      Resets(steps[..|steps| - 1]) + if last.Dispatch? && last.action.ResetEvents? then 1 else 0
  }

  lemma {:induction false} UnrenderedSteps(p: Page, f: Feed, steps: seq<Step>)
    requires Uncleared(steps) && forall i :: 0 <= i < |steps| ==> steps[i].Dispatch?
    requires f.stale && f.store.resetVersion == 0
    ensures var g := TakeAll(p, f, steps);
      g.stale && g.applied == f.applied && g.shown == f.shown && g.store.resetVersion == Resets(steps)
  {
    if steps != [] { UnrenderedSteps(p, f, steps[..|steps| - 1]); }
  }

  /**
   The first render after a clear is a fresh frame if and only if the reset version applied before the clear is
   not the number of resets since. Otherwise it goes on with the transcript from before the clear.
   */
  lemma ClearIsNoticedIff(p: Page, f: Feed, steps: seq<Step>)
    requires Uncleared(steps) && forall i :: 0 <= i < |steps| ==> steps[i].Dispatch?
    ensures var before := TakeAll(p, Take(p, f, Dispatch(Clear)), steps);
      var g := Take(p, before, Render);
      && (!g.stale <==> f.applied != Some(Resets(steps)))
      && g.shown == if g.stale then Append(p.host, f.shown, before.store.appended, p.task)
                    else Reset(p.host, before.store.events, p.task, p.plan)
  {
    UnrenderedSteps(p, Take(p, f, Dispatch(Clear)), steps);
  }

  /** A page that never saw a reset keeps its old transcript over a clear, and skips new events with lower ids. */
  lemma ClearMissedExample(p: Page, first: Event, second: Event)
    requires 0 < second.id < first.id
    ensures var before := TakeAll(p, Start(p), [Render, Dispatch(AppendEvents([first])), Render]);
      var cleared := Take(p, before, Dispatch(Clear));
      var f := Take(p, Take(p, cleared, Dispatch(AppendEvents([second]))), Render);
      && AllPossible(p, Start(p), [Render, Dispatch(AppendEvents([first])), Render])
      && Possible(before, Dispatch(Clear)) && Possible(cleared, Dispatch(AppendEvents([second])))
      && f.store.events == [second] && f.stale && f.shown == before.shown
      && f.shown.lastId == first.id && f.shown != Reset(p.host, [second], p.task, p.plan)
  {
    FirstShown(p, first);
    OneEvent(p, second);
    ClearMissed(p, TakeAll(p, Start(p), [Render, Dispatch(AppendEvents([first])), Render]), second);
  }

  /** An event that comes after a clear that is not noticed is skipped when its id was passed before. */
  lemma ClearMissed(p: Page, f: Feed, e: Event)
    requires f.applied == Some(0) && 0 < e.id <= f.shown.lastId
    ensures var g := Take(p, Take(p, Take(p, f, Dispatch(Clear)), Dispatch(AppendEvents([e]))), Render);
      g.store.events == [e] && g.stale && g.shown == f.shown
  {
    OneEvent(p, e);
    ReplayChangesNothing(p.host, f.shown, [e], p.task);
  }

  lemma FirstShown(p: Page, first: Event)
    requires first.id > 0
    ensures var steps := [Render, Dispatch(AppendEvents([first])), Render];
      var f := TakeAll(p, Start(p), steps);
      AllPossible(p, Start(p), steps) && f.applied == Some(0) && f.shown.lastId == first.id
  {
    var a, b := Render, Dispatch(AppendEvents([first]));
    TakeSnoc(p, Start(p), [], a);
    TakeSnoc(p, Start(p), [a], b);
    TakeSnoc(p, Start(p), [a, b], a);
    assert [] + [a] == [a] && [a] + [b] == [a, b] && [a, b] + [a] == [a, b, a];
    OneEvent(p, first);
  }

  lemma TakeSnoc(p: Page, f: Feed, steps: seq<Step>, step: Step)
    ensures TakeAll(p, f, steps + [step]) == Take(p, TakeAll(p, f, steps), step)
    ensures AllPossible(p, f, steps + [step]) <==> AllPossible(p, f, steps) && Possible(TakeAll(p, f, steps), step)
  {
    assert (steps + [step])[..|steps|] == steps;
  }

  lemma OneEvent(p: Page, e: Event)
    requires e.id > 0
    ensures After([e], 0) == [e] && Newest([] + [e], MAX_CLIENT_EVENTS) == [e]
    ensures Reset(p.host, [e], p.task, p.plan).lastId == e.id
    ensures Append(p.host, Fresh(p), [e], p.task).lastId == e.id
  {
    assert [e][..0] == [];
    ShownCounts(p, [e]);
  }
}
