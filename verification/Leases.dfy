/** Shared validation requests: one request in flight per path, held by leases, aborted with the last of them. */
module Leases {
  import opened Results

  datatype ValidationResult = ValidationResult(valid: bool, resolvedPath: Option<string>, errorCode: Option<string>)

  datatype Outcome = Answered(result: ValidationResult) | Failed(errorCode: string) | AbortRaised

  datatype Stage = Requested | Responded | Finished

  /** One request; its position in the list of all requests is its generation. */
  datatype Request = Request(key: string, consumers: int, aborted: bool, stage: Stage)

  datatype Lease = Lease(request: nat, released: bool)

  datatype State = State(requests: seq<Request>, leases: seq<Lease>, inFlight: map<string, nat>,
                         cache: map<string, ValidationResult>)

  const START := State([], [], map[], map[])

  /** What can happen next; a response arrives and the bookkeeping behind it runs as separate steps. */
  datatype Action = Acquire(key: string) | Release(lease: nat) | Respond(request: nat, outcome: Outcome)
    | Finish(request: nat) | Forget(key: string)

  predicate Known(s: State) {
    && (forall k :: k in s.inFlight ==> s.inFlight[k] < |s.requests|)
    && (forall l :: 0 <= l < |s.leases| ==> s.leases[l].request < |s.requests|)
  }

  predicate Possible(s: State, a: Action) {
    match a
    case Acquire(_) => true
    case Release(l) => l < |s.leases|
    case Respond(r, _) => r < |s.requests| && s.requests[r].stage == Requested
    case Finish(r) => r < |s.requests| && s.requests[r].stage == Responded
    case Forget(_) => true
  }

  /** The request in flight for a key, or a new one. */
  function Joined(s: State, key: string): State {
    if key in s.inFlight then s
    else s.(requests := s.requests + [Request(key, 0, false, Requested)], inFlight := s.inFlight[key := |s.requests|])
  }

  function DoAcquire(s: State, key: string): State
    requires Known(s)
  {
    var s1 := Joined(s, key);
    var r := s1.inFlight[key];
    s1.(requests := s1.requests[r := s1.requests[r].(consumers := s1.requests[r].consumers + 1)],
        leases := s1.leases + [Lease(r, false)])
  }

  predicate Holds(s: State, r: nat)
    requires r < |s.requests|
  {
    s.requests[r].key in s.inFlight && s.inFlight[s.requests[r].key] == r
  }

  /** A second release, and a release of a request no longer in flight, change nothing else. */
  function DoRelease(s: State, l: nat): State
    requires Known(s) && l < |s.leases|
  {
    if s.leases[l].released then s
    else
      var r := s.leases[l].request;
      var s1 := s.(leases := s.leases[l := s.leases[l].(released := true)]);
      if !Holds(s, r) then s1
      else
        var left := s.requests[r].consumers - 1;
        if left > 0 then s1.(requests := s.requests[r := s.requests[r].(consumers := left)])
        else s1.(requests := s.requests[r := s.requests[r].(consumers := left, aborted := true)],
                 inFlight := s.inFlight - {s.requests[r].key})
  }

  /** A response to an aborted request is dropped; only a domain result is kept. */
  function DoRespond(s: State, r: nat, outcome: Outcome): State
    requires r < |s.requests|
  {
    var s1 := s.(requests := s.requests[r := s.requests[r].(stage := Responded)]);
    if outcome.Answered? && !s.requests[r].aborted then s1.(cache := s.cache[s.requests[r].key := outcome.result])
    else s1
  }

  function DoFinish(s: State, r: nat): State
    requires r < |s.requests|
  {
    var s1 := s.(requests := s.requests[r := s.requests[r].(stage := Finished)]);
    if Holds(s, r) then s1.(inFlight := s.inFlight - {s.requests[r].key}) else s1
  }

  function Do(s: State, a: Action): State
    requires Known(s) && Possible(s, a)
  {
    match a
    case Acquire(key) => DoAcquire(s, key)
    case Release(l) => DoRelease(s, l)
    case Respond(r, outcome) => DoRespond(s, r, outcome)
    case Finish(r) => DoFinish(s, r)
    case Forget(key) => s.(cache := s.cache - {key})
  }

  // ---------------------------------------------------------------- what every interleaving keeps

  function Live(leases: seq<Lease>, r: nat): nat {
    if leases == [] then 0
    else
      var last := leases[|leases| - 1];
      Live(leases[..|leases| - 1], r) + if last.request == r && !last.released then 1 else 0
  }

  lemma LiveSnoc(leases: seq<Lease>, l: Lease, r: nat)
    ensures Live(leases + [l], r) == Live(leases, r) + if l.request == r && !l.released then 1 else 0
  {
    assert (leases + [l])[..|leases|] == leases;
  }

  lemma {:induction false} LiveRelease(leases: seq<Lease>, l: nat, r: nat)
    requires l < |leases| && !leases[l].released
    ensures Live(leases[l := leases[l].(released := true)], r) == Live(leases, r) - if leases[l].request == r then 1
      else 0
    decreases |leases|
  {
    var n := |leases| - 1;
    if l < n {
      LiveRelease(leases[..n], l, r);
      assert leases[l := leases[l].(released := true)][..n] == leases[..n][l := leases[l].(released := true)];
    } else {
      assert leases[l := leases[l].(released := true)][..n] == leases[..n];
    }
  }

  lemma {:induction false} LiveLease(leases: seq<Lease>, l: nat)
    requires l < |leases| && !leases[l].released
    ensures Live(leases, leases[l].request) >= 1
    decreases |leases|
  {
    if l < |leases| - 1 { LiveLease(leases[..|leases| - 1], l); }
  }

  /** A request in flight is counted exactly; one that is not is finished, or aborted without a live lease. */
  ghost predicate RequestOk(s: State, r: nat)
    requires r < |s.requests|
  {
    var q := s.requests[r];
    if Holds(s, r) then !q.aborted && q.stage != Finished && q.consumers == Live(s.leases, r) >= 1
    else if q.aborted then Live(s.leases, r) == 0
    else q.stage == Finished
  }

  ghost predicate Safe(s: State) {
    && Known(s)
    && (forall k :: k in s.inFlight ==> s.requests[s.inFlight[k]].key == k)
    && (forall r: nat {:trigger s.requests[r]} :: r < |s.requests| ==> RequestOk(s, r))
    && (forall r: nat {:trigger Live(s.leases, r)} :: |s.requests| <= r ==> Live(s.leases, r) == 0)
  }

  lemma AcquireKeeps(s: State, key: string)
    requires Safe(s)
    ensures Safe(DoAcquire(s, key))
  {
    var t := DoAcquire(s, key);
    var r := t.inFlight[key];
    forall q: nat ensures Live(t.leases, q) == Live(s.leases, q) + if q == r then 1 else 0 {
      LiveSnoc(s.leases, Lease(r, false), q);
    }
    forall q: nat | q < |t.requests| ensures RequestOk(t, q) { JoinedRequestOk(s, key, q); }
  }

  lemma JoinedRequestOk(s: State, key: string, q: nat)
    requires Safe(s) && q < |DoAcquire(s, key).requests|
    requires var t := DoAcquire(s, key); Live(t.leases, q) == Live(s.leases, q) + if q == t.inFlight[key] then 1 else 0
    ensures RequestOk(DoAcquire(s, key), q)
  {
    if q < |s.requests| { assert RequestOk(s, q); }
  }

  lemma ReleaseKeeps(s: State, l: nat)
    requires Safe(s) && l < |s.leases|
    ensures Safe(DoRelease(s, l))
  {
    var t := DoRelease(s, l);
    if !s.leases[l].released {
      var r := s.leases[l].request;
      LiveLease(s.leases, l);
      forall q: nat ensures Live(t.leases, q) == Live(s.leases, q) - if q == r then 1 else 0 {
        LiveRelease(s.leases, l, q);
      }
      forall q: nat | q < |t.requests| ensures RequestOk(t, q) { assert RequestOk(s, q) && RequestOk(s, r); }
    }
  }

  lemma RespondKeeps(s: State, r: nat, outcome: Outcome)
    requires Safe(s) && Possible(s, Respond(r, outcome))
    ensures Safe(DoRespond(s, r, outcome))
  {
    var t := DoRespond(s, r, outcome);
    forall q: nat | q < |t.requests| ensures RequestOk(t, q) { assert RequestOk(s, q); }
  }

  lemma FinishKeeps(s: State, r: nat)
    requires Safe(s) && Possible(s, Finish(r))
    ensures Safe(DoFinish(s, r))
  {
    var t := DoFinish(s, r);
    forall q: nat | q < |t.requests| ensures RequestOk(t, q) { assert RequestOk(s, q) && RequestOk(s, r); }
  }

  lemma DoKeeps(s: State, a: Action)
    requires Safe(s) && Possible(s, a)
    ensures Safe(Do(s, a))
  {
    match a
    case Acquire(key) => AcquireKeeps(s, key);
    case Release(l) => ReleaseKeeps(s, l);
    case Respond(r, outcome) => RespondKeeps(s, r, outcome);
    case Finish(r) => FinishKeeps(s, r);
    case Forget(key) =>
      var t := Do(s, a);
      forall q: nat | q < |t.requests| ensures RequestOk(t, q) { assert RequestOk(s, q); }
  }

  /** The state after an interleaving of possible actions. */
  function DoAll(actions: seq<Action>): Option<State> {
    if actions == [] then Some(START)
    else
      var s := DoAll(actions[..|actions| - 1]);
      var a := actions[|actions| - 1];
      if s.Some? && Known(s.value) && Possible(s.value, a) then Some(Do(s.value, a)) else None
  }

  lemma {:induction false} DoAllIsSafe(actions: seq<Action>)
    requires DoAll(actions).Some?
    ensures Safe(DoAll(actions).value)
  {
    if actions != [] {
      var init := actions[..|actions| - 1];
      DoAllIsSafe(init);
      DoKeeps(DoAll(init).value, actions[|actions| - 1]);
    }
  }

  // ---------------------------------------------------------------- the promises to a lease holder

  /**
   Under every interleaving: a request in flight is not aborted and counts its live leases, no live lease is
   on an aborted request, and a path never has two requests that are neither aborted nor finished.
   */
  lemma LeasesAreSafe(s: State, actions: seq<Action>)
    requires DoAll(actions) == Some(s)
    ensures forall k :: k in s.inFlight ==> s.inFlight[k] < |s.requests| && var q := s.requests[s.inFlight[k]];
      q.key == k && !q.aborted && q.consumers == Live(s.leases, s.inFlight[k]) >= 1
    ensures forall l :: 0 <= l < |s.leases| && !s.leases[l].released ==>
      s.leases[l].request < |s.requests| && !s.requests[s.leases[l].request].aborted
    ensures forall q: nat, r: nat :: q < r < |s.requests| && s.requests[q].key == s.requests[r].key ==>
      (s.requests[q].aborted || s.requests[q].stage == Finished)
          || (s.requests[r].aborted || s.requests[r].stage == Finished)
  {
    DoAllIsSafe(actions);
    forall k | k in s.inFlight ensures RequestOk(s, s.inFlight[k]) {}
    forall l | 0 <= l < |s.leases| && !s.leases[l].released ensures !s.requests[s.leases[l].request].aborted {
      LiveLease(s.leases, l);
      assert RequestOk(s, s.leases[l].request);
    }
    forall q: nat, r: nat | q < r < |s.requests| && s.requests[q].key == s.requests[r].key
      ensures (s.requests[q].aborted || s.requests[q].stage == Finished)
        || (s.requests[r].aborted || s.requests[r].stage == Finished)
    {
      assert RequestOk(s, q) && RequestOk(s, r);
    }
  }

  /**
   A step takes a request out of flight only when that very request finishes or loses its last lease, so an
   older generation never removes a newer one; and only an answer to a request that nobody aborted is cached.
   */
  lemma StepsTouchTheirOwn(s: State, a: Action)
    requires Safe(s) && Possible(s, a)
    ensures var t := Do(s, a);
      && (forall k :: k in s.inFlight && (k !in t.inFlight || t.inFlight[k] != s.inFlight[k]) ==>
            k !in t.inFlight && (a == Finish(s.inFlight[k]) ||
              (a.Release? && s.leases[a.lease].request == s.inFlight[k] && Live(t.leases, s.inFlight[k]) == 0)))
      && (forall k :: k in t.cache && (k !in s.cache || t.cache[k] != s.cache[k]) ==>
            a.Respond? && s.requests[a.request].key == k && !s.requests[a.request].aborted
                && a.outcome == Answered(t.cache[k]))
      && (forall r: nat :: r < |s.requests| && t.requests[r].aborted && !s.requests[r].aborted ==>
          Live(t.leases, r) == 0)
  {
    DoKeeps(s, a);
    var t := Do(s, a);
    forall r: nat | r < |s.requests| && t.requests[r].aborted && !s.requests[r].aborted ensures Live(t.leases, r) == 0 {
      assert RequestOk(t, r);
    }
    FlightTouched(s, a);
    CacheTouched(s, a);
  }

  lemma FlightTouched(s: State, a: Action)
    requires Safe(s) && Possible(s, a) && Safe(Do(s, a))
    ensures var t := Do(s, a);
      forall k :: k in s.inFlight && (k !in t.inFlight || t.inFlight[k] != s.inFlight[k]) ==>
        k !in t.inFlight && (a == Finish(s.inFlight[k]) ||
          (a.Release? && s.leases[a.lease].request == s.inFlight[k] && Live(t.leases, s.inFlight[k]) == 0))
  {
    if a.Release? {
      assert RequestOk(s, s.leases[a.lease].request) && RequestOk(Do(s, a), s.leases[a.lease].request);
    }
  }

  lemma CacheTouched(s: State, a: Action)
    requires Known(s) && Possible(s, a)
    ensures var t := Do(s, a);
      forall k :: k in t.cache && (k !in s.cache || t.cache[k] != s.cache[k]) ==>
        a.Respond? && s.requests[a.request].key == k && !s.requests[a.request].aborted
            && a.outcome == Answered(t.cache[k])
  {}

  // ---------------------------------------------------------------- the registry

  /** The two module-level maps, and the requests and leases that its closures keep alive. */
  class Registry {
    var requests: seq<Request>
    var leases: seq<Lease>
    var inFlight: map<string, nat>
    var cache: map<string, ValidationResult>

    function View(): State
      reads this
    {
      State(requests, leases, inFlight, cache)
    }

    constructor ()
      ensures View() == START
    {
      requests, leases, inFlight, cache := [], [], map[], map[];
    }

    method AcquireValidation(key: string) returns (lease: nat)
      requires Known(View())
      modifies this
      ensures View() == Do(old(View()), Acquire(key)) && lease == |old(leases)|
    {
      if key !in inFlight {
        inFlight := inFlight[key := |requests|];
        requests := requests + [Request(key, 0, false, Requested)];
      }
      var pending := inFlight[key];
      requests := requests[pending := requests[pending].(consumers := requests[pending].consumers + 1)];
      lease := |leases|;
      leases := leases + [Lease(pending, false)];
    }

    method ReleaseLease(lease: nat)
      requires Known(View()) && lease < |leases|
      modifies this
      ensures View() == Do(old(View()), Release(lease))
    {
      if leases[lease].released {
        return;
      }
      leases := leases[lease := leases[lease].(released := true)];
      var owned := leases[lease].request;
      var key := requests[owned].key;
      if key !in inFlight || inFlight[key] != owned {
        return;
      }
      requests := requests[owned := requests[owned].(consumers := requests[owned].consumers - 1)];
      if requests[owned].consumers <= 0 {
        requests := requests[owned := requests[owned].(aborted := true)];
        inFlight := inFlight - {key};
      }
    }

    method OnResponse(request: nat, outcome: Outcome)
      requires Known(View()) && Possible(View(), Respond(request, outcome))
      modifies this
      ensures View() == Do(old(View()), Respond(request, outcome))
    {
      requests := requests[request := requests[request].(stage := Responded)];
      if requests[request].aborted {
        return;
      }
      if outcome.Answered? {
        cache := cache[requests[request].key := outcome.result];
      }
    }

    method OnFinally(request: nat)
      requires Known(View()) && Possible(View(), Finish(request))
      modifies this
      ensures View() == Do(old(View()), Finish(request))
    {
      requests := requests[request := requests[request].(stage := Finished)];
      var key := requests[request].key;
      if key in inFlight && inFlight[key] == request {
        inFlight := inFlight - {key};
      }
    }

    method ForgetResult(key: string)
      requires Known(View())
      modifies this
      ensures View() == Do(old(View()), Forget(key))
    {
      cache := cache - {key};
    }
  }
}
