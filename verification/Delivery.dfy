/** One turn, however it is delivered: by deltas, by final items or by both, in any interleaving and chunking. */
module Delivery {
  import opened Results
  import opened Messages
  import opened Streaming
  import opened Responses
  import opened StreamLaws

  // ---------------------------------------------------------------- pieces that arrive in some order

  /** A chunk, with the number of the part that it belongs to. */
  type Piece = (nat, string)

  function Arrival(pieces: seq<Piece>): string {
    if pieces == [] then "" else Arrival(pieces[..|pieces| - 1]) + pieces[|pieces| - 1].1
  }

  function Gathered(pieces: seq<Piece>, k: nat): string {
    if pieces == [] then ""
    else
      var last := pieces[|pieces| - 1];
      if last.0 == k then Gathered(pieces[..|pieces| - 1], k) + last.1 else Gathered(pieces[..|pieces| - 1], k)
  }

  function InKeyOrder(pieces: seq<Piece>, n: nat): string {
    if n == 0 then "" else InKeyOrder(pieces, n - 1) + Gathered(pieces, n - 1)
  }

  ghost predicate Below(pieces: seq<Piece>, n: nat) {
    forall x :: 0 <= x < |pieces| && pieces[x].1 != "" ==> pieces[x].0 < n
  }

  /** The part numbers never decrease. */
  ghost predicate Rising(pieces: seq<Piece>) {
    forall x, y :: 0 <= x < y < |pieces| && pieces[x].1 != "" && pieces[y].1 != "" ==> pieces[x].0 <= pieces[y].0
  }

  lemma GatheredSnoc(pieces: seq<Piece>, p: Piece, k: nat)
    ensures Gathered(pieces + [p], k) == if p.0 == k then Gathered(pieces, k) + p.1 else Gathered(pieces, k)
    ensures Arrival(pieces + [p]) == Arrival(pieces) + p.1
  {
    assert (pieces + [p])[..|pieces|] == pieces;
  }

  lemma {:induction false} NothingGathered(pieces: seq<Piece>, k: nat)
    requires forall x :: 0 <= x < |pieces| && pieces[x].1 != "" ==> pieces[x].0 != k
    ensures Gathered(pieces, k) == ""
  {
    if pieces != [] { NothingGathered(pieces[..|pieces| - 1], k); }
  }

  lemma {:induction false} LengthSnoc(pieces: seq<Piece>, p: Piece, n: nat)
    ensures |InKeyOrder(pieces + [p], n)| == |InKeyOrder(pieces, n)| + if p.0 < n then |p.1| else 0
  {
    if n > 0 {
      LengthSnoc(pieces, p, n - 1);
      GatheredSnoc(pieces, p, n - 1);
    }
  }

  lemma {:induction false} NoPieces(n: nat)
    ensures InKeyOrder([], n) == ""
  {
    if n > 0 { NoPieces(n - 1); }
  }

  lemma {:induction false} ArrivalLength(pieces: seq<Piece>, n: nat)
    ensures |Arrival(pieces)| >= |InKeyOrder(pieces, n)|
    ensures Below(pieces, n) ==> |Arrival(pieces)| == |InKeyOrder(pieces, n)|
  {
    if pieces == [] {
      NoPieces(n);
    } else {
      var init, p := pieces[..|pieces| - 1], pieces[|pieces| - 1];
      assert pieces == init + [p];
      ArrivalLength(init, n);
      LengthSnoc(init, p, n);
      GatheredSnoc(init, p, 0);
    }
  }

  /** A chunk that belongs to no part before the last one goes to the end. */
  lemma {:induction false} LastPieceLast(pieces: seq<Piece>, p: Piece, n: nat)
    requires forall k: nat :: k > p.0 ==> Gathered(pieces, k) == ""
    ensures InKeyOrder(pieces + [p], n) == if p.0 < n then InKeyOrder(pieces, n) + p.1 else InKeyOrder(pieces, n)
  {
    if n > 0 {
      LastPieceLast(pieces, p, n - 1);
      GatheredSnoc(pieces, p, n - 1);
    }
  }

  /** An empty chunk changes nothing. */
  lemma {:induction false} EmptyPiece(pieces: seq<Piece>, p: Piece, n: nat)
    requires p.1 == ""
    ensures InKeyOrder(pieces + [p], n) == InKeyOrder(pieces, n)
  {
    if n > 0 {
      EmptyPiece(pieces, p, n - 1);
      GatheredSnoc(pieces, p, n - 1);
      assert Gathered(pieces, n - 1) + "" == Gathered(pieces, n - 1);
    }
  }

  lemma {:induction false} RisingIsInOrder(pieces: seq<Piece>, n: nat)
    requires Rising(pieces) && Below(pieces, n)
    ensures Arrival(pieces) == InKeyOrder(pieces, n)
  {
    if pieces == [] {
      NoPieces(n);
    } else {
      var init, p := pieces[..|pieces| - 1], pieces[|pieces| - 1];
      assert pieces == init + [p];
      RisingIsInOrder(init, n);
      GatheredSnoc(init, p, 0);
      if p.1 == "" {
        EmptyPiece(init, p, n);
      } else {
        forall k: nat | k > p.0 ensures Gathered(init, k) == "" {
          assert forall x :: 0 <= x < |init| ==> init[x] == pieces[x];
          NothingGathered(init, k);
        }
        LastPieceLast(init, p, n);
      }
    }
  }

  // ---------------------------------------------------------------- the pieces of a stream

  function SummaryPieces(events: seq<Event>, i: nat): seq<Piece> {
    if events == [] then []
    else
      var init, e := SummaryPieces(events[..|events| - 1], i), events[|events| - 1];
      if e.SummaryText? && e.index == i && e.delta.Some? then init + [(e.part, e.delta.value)] else init
  }

  function RefusalPieces(events: seq<Event>): seq<Piece> {
    if events == [] then []
    else
      var init, e := RefusalPieces(events[..|events| - 1]), events[|events| - 1];
      if e.Refusal? && e.delta.Some? then init + [(e.index, e.delta.value)] else init
  }

  lemma {:induction false} RefusalHeardIsArrival(events: seq<Event>)
    ensures RefusalHeard(events) == Arrival(RefusalPieces(events))
  {
    if events != [] {
      var init, e := events[..|events| - 1], events[|events| - 1];
      RefusalHeardIsArrival(init);
      if e.Refusal? && e.delta.Some? { GatheredSnoc(RefusalPieces(init), (e.index, e.delta.value), 0); }
    }
  }

  /** What an accepted thought has of the deltas for it. */
  ghost predicate ThoughtPieces(summary: seq<string>, pr: Progress, pieces: seq<Piece>) {
    && pr.sent == Arrival(pieces)
    && (forall k: nat :: At(pr.streamed, k) == Gathered(pieces, k))
    && (pr.done ==> PartsFit(pr, summary))
  }

  lemma ThoughtPiecesSnoc(c: Content, pr: Progress, pieces: seq<Piece>, k: nat, delta: string)
    requires c.Thinks? && ThoughtPieces(c.summary, pr, pieces) && !pr.done && SummaryChunk(pr, c, k, delta).Some?
    ensures ThoughtPieces(c.summary, SummaryChunk(pr, c, k, delta).value, pieces + [(k, delta)])
  {
    var next, more := SummaryChunk(pr, c, k, delta).value, pieces + [(k, delta)];
    forall j: nat ensures At(next.streamed, j) == Gathered(more, j) { GatheredSnoc(pieces, (k, delta), j); }
    GatheredSnoc(pieces, (k, delta), k);
  }

  lemma {:induction false} SummaryTracked(t: seq<Content>, events: seq<Event>, i: nat)
    requires Track(t, events).Some? && i < |t| && t[i].Thinks?
    ensures ThoughtPieces(t[i].summary, Track(t, events).value[i], SummaryPieces(events, i))
  {
    if events != [] {
      var init, e := events[..|events| - 1], events[|events| - 1];
      SummaryTracked(t, init, i);
      var pr := Track(t, init).value[i];
      if e.SummaryText? && e.index == i && e.delta.Some? {
        ThoughtPiecesSnoc(t[i], pr, SummaryPieces(init, i), e.part, e.delta.value);
      }
    }
  }

  /** Of a message at most its refusal was streamed, of other items nothing. */
  ghost predicate RefusalFits(c: Content, pr: Progress) {
    if c.Says? then pr.refused <= c.refusal else pr.refused == ""
  }

  lemma RefusalAdvances(c: Content, pr: Progress, e: Event)
    requires RefusalFits(c, pr) && Advance(pr, c, e).Some?
    ensures var next := Advance(pr, c, e).value;
      RefusalFits(c, next) && next.refused ==
          if e.Refusal? && e.delta.Some? then pr.refused + e.delta.value else pr.refused
  {}

  lemma {:induction false} RefusalTracked(t: seq<Content>, events: seq<Event>, i: nat)
    requires Track(t, events).Some? && i < |t|
    ensures Gathered(RefusalPieces(events), i) == Track(t, events).value[i].refused
    ensures RefusalFits(t[i], Track(t, events).value[i])
  {
    if events != [] {
      var init, e := events[..|events| - 1], events[|events| - 1];
      RefusalTracked(t, init, i);
      if IndexOf(e) == Some(i) { RefusalAdvances(t[i], Track(t, init).value[i], e); }
      if e.Refusal? && e.delta.Some? { GatheredSnoc(RefusalPieces(init), (e.index, e.delta.value), i); }
    }
  }

  lemma {:induction false} RefusalsBelow(t: seq<Content>, events: seq<Event>)
    requires Track(t, events).Some?
    ensures Below(RefusalPieces(events), |t|)
  {
    if events != [] { RefusalsBelow(t, events[..|events| - 1]); }
  }

  // ---------------------------------------------------------------- thoughts

  lemma {:induction false} HeardLengthUpTo(summary: seq<string>, pr: Progress, pieces: seq<Piece>, n: nat)
    requires ThoughtPieces(summary, pr, pieces) && pr.done && n <= |summary|
    ensures |InKeyOrder(pieces, n)| + |LateUpTo(summary, pr, n)| == |Concat(summary[..n])|
  {
    if n > 0 {
      HeardLengthUpTo(summary, pr, pieces, n - 1);
      assert summary[..n][..n - 1] == summary[..n - 1];
      assert At(pr.streamed, n - 1) == Gathered(pieces, n - 1);
    }
  }

  /** Nothing of a finished thought is lost; it gets longer only by deltas for parts that it does not have. */
  lemma HeardLength(summary: seq<string>, pr: Progress, pieces: seq<Piece>)
    requires ThoughtPieces(summary, pr, pieces) && pr.done
    ensures |Heard(summary, pr)| >= |Concat(summary)|
    ensures Below(pieces, |summary|) ==> |Heard(summary, pr)| == |Concat(summary)|
  {
    ArrivalLength(pieces, |summary|);
    HeardLengthUpTo(summary, pr, pieces, |summary|);
    assert summary[..|summary|] == summary;
  }

  /** The parts before a streamed one were streamed as well. */
  ghost predicate StreamedPrefix(summary: seq<string>, pieces: seq<Piece>) {
    forall k: nat, m: nat :: k < m < |summary| && Gathered(pieces, m) != "" ==>
        summary[k] == "" || Gathered(pieces, k) != ""
  }

  lemma {:induction false} NothingLate(summary: seq<string>, pr: Progress, n: nat)
    requires forall k: nat :: k < n ==> Late(summary, pr, k) == ""
    ensures LateUpTo(summary, pr, n) == ""
  {
    if n > 0 { NothingLate(summary, pr, n - 1); }
  }

  lemma NothingLateBefore(summary: seq<string>, pr: Progress, pieces: seq<Piece>, n: nat)
    requires ThoughtPieces(summary, pr, pieces) && StreamedPrefix(summary, pieces) && n < |summary|
    requires Gathered(pieces, n) != ""
    ensures LateUpTo(summary, pr, n) == ""
  {
    forall k: nat | k < n ensures Late(summary, pr, k) == "" { assert At(pr.streamed, k) == Gathered(pieces, k); }
    NothingLate(summary, pr, n);
  }

  lemma Regrouped(a: string, g: string, l: string, m: string)
    ensures g == "" ==> (a + g) + (l + m) == (a + l) + m
    ensures l == "" && m == "" ==> (a + g) + (l + m) == (a + l) + g
  {}

  lemma {:induction false} PrefixHeard(summary: seq<string>, pr: Progress, pieces: seq<Piece>, n: nat)
    requires ThoughtPieces(summary, pr, pieces) && pr.done && StreamedPrefix(summary, pieces) && n <= |summary|
    ensures InKeyOrder(pieces, n) + LateUpTo(summary, pr, n) == Concat(summary[..n])
  {
    if n > 0 {
      PrefixHeard(summary, pr, pieces, n - 1);
      assert summary[..n][..n - 1] == summary[..n - 1];
      assert At(pr.streamed, n - 1) == Gathered(pieces, n - 1);
      if Gathered(pieces, n - 1) != "" { NothingLateBefore(summary, pr, pieces, n - 1); }
      Regrouped(InKeyOrder(pieces, n - 1), Gathered(pieces, n - 1), LateUpTo(summary, pr, n - 1),
                Late(summary, pr, n - 1));
    }
  }

  /**
   When part numbers never decrease and the streamed parts come before the others, a thought is heard as it was
   meant.
   */
  lemma HeardInOrder(summary: seq<string>, pr: Progress, pieces: seq<Piece>)
    requires ThoughtPieces(summary, pr, pieces) && pr.done
    requires Below(pieces, |summary|) && Rising(pieces) && StreamedPrefix(summary, pieces)
    ensures Heard(summary, pr) == Concat(summary)
  {
    RisingIsInOrder(pieces, |summary|);
    PrefixHeard(summary, pr, pieces, |summary|);
    assert summary[..|summary|] == summary;
  }

  ghost predicate ThoughtsHeard(t: seq<Content>, ps: seq<Progress>)
    requires |t| == |ps|
  {
    forall i :: 0 <= i < |t| && t[i].Thinks? ==> Heard(t[i].summary, ps[i]) == Concat(t[i].summary)
  }

  lemma SameEnds(a: string, x: string, b: string, y: string)
    requires |a| >= |b| && |x| >= |y|
    ensures a + x == b + y <==> a == b && x == y
  {
    if a + x == b + y {
      assert |a + x| == |b + y|;
      assert a == (a + x)[..|a|] && b == (b + y)[..|b|];
      assert x == (a + x)[|a|..] && y == (b + y)[|b|..];
    }
  }

  ghost predicate NothingLost(t: seq<Content>, ps: seq<Progress>)
    requires |t| == |ps|
  {
    forall i :: 0 <= i < |t| && t[i].Thinks? ==> |Heard(t[i].summary, ps[i])| >= |Concat(t[i].summary)|
  }

  /** Since no thought gets shorter, the whole reasoning is right only when each thought is. */
  lemma {:induction false} ReasoningExact(t: seq<Content>, ps: seq<Progress>)
    requires |t| == |ps| && NothingLost(t, ps)
    ensures ReasoningHeard(t, ps) == SummaryOf(t) <==> ThoughtsHeard(t, ps)
    ensures |ReasoningHeard(t, ps)| >= |SummaryOf(t)|
  {
    if t != [] {
      var n := |t| - 1;
      assert NothingLost(t[..n], ps[..n]) by {
        assert forall i :: 0 <= i < n ==> t[..n][i] == t[i] && ps[..n][i] == ps[i];
      }
      ReasoningExact(t[..n], ps[..n]);
      SameEnds(ReasoningHeard(t[..n], ps[..n]), if t[n].Thinks? then Heard(t[n].summary, ps[n]) else "",
               SummaryOf(t[..n]), if t[n].Thinks? then Concat(t[n].summary) else "");
      ThoughtsHeardSnoc(t, ps);
    }
  }

  lemma ThoughtsHeardSnoc(t: seq<Content>, ps: seq<Progress>)
    requires |t| == |ps| && t != []
    ensures var n := |t| - 1;
      ThoughtsHeard(t, ps) <==>
        && ThoughtsHeard(t[..n], ps[..n])
        && (t[n].Thinks? ==> Heard(t[n].summary, ps[n]) == Concat(t[n].summary))
  {
    var n := |t| - 1;
    assert forall i :: 0 <= i < n ==> t[..n][i] == t[i] && ps[..n][i] == ps[i];
  }

  // ---------------------------------------------------------------- refusals

  lemma {:induction false} RefusalsNoLonger(t: seq<Content>, events: seq<Event>, n: nat)
    requires Track(t, events).Some? && n <= |t|
    ensures |InKeyOrder(RefusalPieces(events), n)| <= |RefusalOf(t[..n])|
  {
    if n > 0 {
      RefusalsNoLonger(t, events, n - 1);
      RefusalTracked(t, events, n - 1);
      assert t[..n][..n - 1] == t[..n - 1];
    }
  }

  /** Nothing is heard as a refusal that was not meant as one. */
  lemma RefusalHeardLength(t: seq<Content>, events: seq<Event>)
    requires Track(t, events).Some?
    ensures |RefusalHeard(events)| <= |RefusalOf(t)|
  {
    RefusalsBelow(t, events);
    RefusalHeardIsArrival(events);
    ArrivalLength(RefusalPieces(events), |t|);
    RefusalsNoLonger(t, events, |t|);
    assert t[..|t|] == t;
  }

  lemma {:induction false} RefusalsWhole(t: seq<Content>, pieces: seq<Piece>, n: nat)
    requires n <= |t| && forall i: nat :: i < |t| ==> Gathered(pieces, i) == if t[i].Says? then t[i].refusal else ""
    ensures InKeyOrder(pieces, n) == RefusalOf(t[..n])
  {
    if n > 0 {
      RefusalsWhole(t, pieces, n - 1);
      assert t[..n][..n - 1] == t[..n - 1];
    }
  }

  // ---------------------------------------------------------------- when a turn is what was meant

  /** What the model meant, with the continuations in a given order. */
  function Meant(t: seq<Content>, continuations: seq<ProviderContinuation>,
                 blank: string -> bool): Result<Turn, Failure> {
    Told(t, RefusalOf(t), SummaryOf(t), continuations, blank)
  }

  /** The refusal came through as far as the turn depends on it: it is its text when there is no other. */
  ghost predicate RefusalKept(t: seq<Content>, events: seq<Event>, blank: string -> bool) {
    && (TextOf(t) == "" ==> RefusalHeard(events) == RefusalOf(t))
    && (CallsIn(t) == [] && blank(TextOf(t)) && RefusalOf(t) != "" ==> RefusalHeard(events) != "")
  }

  ghost predicate Faithful(t: seq<Content>, events: seq<Event>, blank: string -> bool)
    requires Track(t, events).Some?
  {
    ThoughtsHeard(t, Track(t, events).value) && RefusalKept(t, events, blank)
  }

  lemma DeliveryLosesNothing(t: seq<Content>, events: seq<Event>)
    requires Delivers(t, events)
    ensures NothingLost(t, Track(t, events).value)
  {
    var ps := Track(t, events).value;
    forall i | 0 <= i < |t| && t[i].Thinks? ensures |Heard(t[i].summary, ps[i])| >= |Concat(t[i].summary)| {
      SummaryTracked(t, events, i);
      HeardLength(t[i].summary, ps[i], SummaryPieces(events, i));
    }
  }

  /**
   Two tellings of a turn with an answer agree exactly when the reasoning does and the refusal does where it counts.
   */
  lemma ToldAlike(t: seq<Content>, refusal: string, reasoning: string, continuations: seq<ProviderContinuation>,
                  blank: string -> bool)
    requires Meant(t, continuations, blank).Ok?
    ensures Told(t, refusal, reasoning, continuations, blank) == Meant(t, continuations, blank) <==>
      && reasoning == SummaryOf(t) && (TextOf(t) == "" ==> refusal == RefusalOf(t))
      && (CallsIn(t) == [] && blank(TextOf(t)) && RefusalOf(t) != "" ==> refusal != "")
  {}

  /**
   A delivered turn that has an answer is received as it was meant, with the continuations in the order in which
   they were finished, if and only if its delivery was faithful. A turn without one is always refused.
   */
  lemma ReceivedIff(t: seq<Content>, events: seq<Event>, hasUsage: bool, blank: string -> bool)
    requires WellFormed(t) && Delivers(t, events)
    ensures var received := Receive(events + [ResponseCompleted("completed", hasUsage)], blank);
      var meant := Meant(t, DoneOrder(events), blank);
      if meant.Ok? then received == meant <==> Faithful(t, events, blank) else received == meant
  {
    var ps := Track(t, events).value;
    StreamGivesTurn(t, events, hasUsage, blank);
    DeliveryLosesNothing(t, events);
    ReasoningExact(t, ps);
    RefusalHeardLength(t, events);
    if Meant(t, DoneOrder(events), blank).Ok? {
      ToldAlike(t, RefusalHeard(events), ReasoningHeard(t, ps), DoneOrder(events), blank);
    }
  }

  /**
   What a provider can keep to: only real parts, in order, streamed parts first; refusals streamed whole and item by
   item.
   */
  ghost predicate Orderly(t: seq<Content>, events: seq<Event>) {
    && (forall i: nat :: i < |t| && t[i].Thinks? ==>
         var pieces := SummaryPieces(events, i);
         Below(pieces, |t[i].summary|) && Rising(pieces) && StreamedPrefix(t[i].summary, pieces))
    && Rising(RefusalPieces(events))
    && forall i: nat :: i < |t| && t[i].Says? ==> Gathered(RefusalPieces(events), i) == t[i].refusal
  }

  lemma OrderlyIsFaithful(t: seq<Content>, events: seq<Event>, blank: string -> bool)
    requires Delivers(t, events) && Orderly(t, events)
    ensures Faithful(t, events, blank)
  {
    var ps, pieces := Track(t, events).value, RefusalPieces(events);
    forall i: nat | i < |t| && t[i].Thinks? ensures Heard(t[i].summary, ps[i]) == Concat(t[i].summary) {
      SummaryTracked(t, events, i);
      HeardInOrder(t[i].summary, ps[i], SummaryPieces(events, i));
    }
    RefusalsBelow(t, events);
    RefusalHeardIsArrival(events);
    RisingIsInOrder(pieces, |t|);
    forall i: nat | i < |t| ensures Gathered(pieces, i) == if t[i].Says? then t[i].refusal else "" {
      RefusalTracked(t, events, i);
    }
    RefusalsWhole(t, pieces, |t|);
    assert t[..|t|] == t;
  }

  // ---------------------------------------------------------------- deltas, finals, or both

  /** The continuations of the thoughts that are finished. */
  function DoneBag(t: seq<Content>, ps: seq<Progress>): multiset<ProviderContinuation>
    requires |t| == |ps|
  {
    if t == [] then multiset{}
    else
      var n := |t| - 1;
      if t[n].Thinks? && ps[n].done && t[n].id != "" && t[n].encrypted != "" then
        DoneBag(t[..n], ps[..n]) + multiset{ContinuationOf(t[n])}
      else DoneBag(t[..n], ps[..n])
  }

  function ContinuationOf(c: Content): ProviderContinuation
    requires c.Thinks?
  {
    ProviderContinuation(WIRE_API, c.id, c.encrypted, c.summary)
  }

  lemma {:induction false} BagUpdate(t: seq<Content>, ps: seq<Progress>, i: nat, pr: Progress)
    requires |t| == |ps| && i < |t|
    requires !ps[i].done
    ensures DoneBag(t, ps[i := pr]) ==
      if t[i].Thinks? && pr.done && t[i].id != "" && t[i].encrypted != "" then
        DoneBag(t, ps) + multiset{ContinuationOf(t[i])}
      else DoneBag(t, ps)
    decreases |t|
  {
    var n := |t| - 1;
    if i < n {
      BagUpdate(t[..n], ps[..n], i, pr);
      assert ps[i := pr][..n] == ps[..n][i := pr];
    } else {
      assert ps[i := pr][..n] == ps[..n];
    }
  }

  lemma {:induction false} FreshBag(t: seq<Content>)
    ensures DoneBag(t, seq(|t|, _ => FRESH)) == multiset{}
  {
    if t != [] {
      FreshBag(t[..|t| - 1]);
      assert seq(|t|, _ => FRESH)[..|t| - 1] == seq(|t| - 1, _ => FRESH);
    }
  }

  /** An event that is no final thought finishes none. */
  lemma OtherEventBag(t: seq<Content>, ps: seq<Progress>, e: Event)
    requires |ps| == |t| && TrackOne(t, ps, e).Some? && !(e.ItemDone? && e.item.Reasoning?)
    ensures DoneBag(t, TrackOne(t, ps, e).value) == DoneBag(t, ps)
  {
    if !e.OtherEvent? {
      var i := IndexOf(e).value;
      var next := Advance(ps[i], t[i], e).value;
      assert t[i].Thinks? ==> !next.done;
      BagUpdate(t, ps, i, next);
    }
  }

  lemma ThoughtBag(t: seq<Content>, ps: seq<Progress>, i: nat, item: Item)
    requires |ps| == |t| && TrackOne(t, ps, ItemDone(i, item)).Some? && item.Reasoning?
    ensures DoneBag(t, TrackOne(t, ps, ItemDone(i, item)).value) == HandedOn(DoneBag(t, ps), ItemDone(i, item))
  {
    BagUpdate(t, ps, i, Finished(ps[i], t[i]));
  }

  function HandedOn(bag: multiset<ProviderContinuation>, e: Event): multiset<ProviderContinuation> {
    if e.ItemDone? && e.item.Reasoning? && e.item.id != "" && e.item.encrypted != "" then
      bag + multiset{ProviderContinuation(WIRE_API, e.item.id, e.item.encrypted, e.item.summary)}
    else bag
  }

  lemma DoneOrderSnoc(events: seq<Event>, e: Event)
    ensures multiset(DoneOrder(events + [e])) == HandedOn(multiset(DoneOrder(events)), e)
  {
    assert (events + [e])[..|events|] == events;
  }

  /** Whatever the order, each finished thought hands on its continuation once. */
  lemma {:induction false} DoneOrderIsBag(t: seq<Content>, events: seq<Event>)
    requires Track(t, events).Some?
    ensures multiset(DoneOrder(events)) == DoneBag(t, Track(t, events).value)
  {
    if events == [] {
      FreshBag(t);
    } else {
      var init, e := events[..|events| - 1], events[|events| - 1];
      assert events == init + [e];
      DoneOrderIsBag(t, init);
      DoneOrderSnoc(init, e);
      if e.ItemDone? && e.item.Reasoning? {
        ThoughtBag(t, Track(t, init).value, e.index, e.item);
      } else {
        OtherEventBag(t, Track(t, init).value, e);
      }
    }
  }

  lemma {:induction false} AllDoneBags(t: seq<Content>, ps: seq<Progress>, qs: seq<Progress>)
    requires |t| == |ps| == |qs|
    requires forall i :: 0 <= i < |t| ==> Delivered(t[i], ps[i]) && Delivered(t[i], qs[i])
    ensures DoneBag(t, ps) == DoneBag(t, qs)
  {
    if t != [] { AllDoneBags(t[..|t| - 1], ps[..|t| - 1], qs[..|t| - 1]); }
  }

  /** Both refused, or the same turn up to the order of the continuations. */
  ghost predicate SameTurn(a: Result<Turn, Failure>, b: Result<Turn, Failure>) {
    && (a.Err? <==> b.Err?)
    && (a.Ok? ==>
      && b.value == a.value.(continuations := b.value.continuations)
      && multiset(a.value.continuations) == multiset(b.value.continuations))
  }

  /**
   Two faithful deliveries of the same turn, by deltas, by final items or by both, in any chunks and any
   interleaving of the items, give the same turn up to the order of the continuations.
   */
  lemma DeliveryDoesNotMatter(t: seq<Content>, a: seq<Event>, b: seq<Event>, usageA: bool, usageB: bool,
                              blank: string -> bool)
    requires WellFormed(t) && Delivers(t, a) && Delivers(t, b) && Faithful(t, a, blank) && Faithful(t, b, blank)
    ensures SameTurn(Receive(a + [ResponseCompleted("completed", usageA)], blank),
                     Receive(b + [ResponseCompleted("completed", usageB)], blank))
  {
    ReceivedIff(t, a, usageA, blank);
    ReceivedIff(t, b, usageB, blank);
    DoneOrderIsBag(t, a);
    DoneOrderIsBag(t, b);
    AllDoneBags(t, Track(t, a).value, Track(t, b).value);
  }

  // ---------------------------------------------------------------- what is refused, and what is not kept

  /** A final item that disagrees with what was streamed is refused, never silently preferred or dropped. */
  lemma DisagreementIsRefused(p: Pipe, i: nat, item: Item)
    requires match item
      case MessageItem(texts, _) => At(p.adapter.text, (i, 0)) !in {"", Concat(texts)}
      case FunctionCall(_, _, _, Some(arguments)) => At(p.adapter.arguments, (i, ItemId(item))) !in {"", arguments}
      case Reasoning(_, _, summary) => exists k: nat ::
          k < |summary| && At(p.adapter.summary, (i, k)) !in {"", summary[k]}
      case _ => false
    ensures Feed(p, ItemDone(i, item)) == Err(Failure(false))
  {
    if item.Reasoning? {
      var k: nat :| k < |item.summary| && At(p.adapter.summary, (i, k)) !in {"", item.summary[k]};
      SummaryDisagrees(p.adapter, i, item.summary, 0, k);
    }
  }

  lemma {:induction false} SummaryDisagrees(a: Adapter, i: nat, summary: seq<string>, from: nat, k: nat)
    requires from <= k < |summary| && At(a.summary, (i, k)) !in {"", summary[k]}
    ensures FinishSummary(a, i, summary, from) == Err(Failure(false))
    decreases k - from
  {
    if from < k { SummaryDisagrees(a, i, summary, from + 1, k); }
  }

  lemma TrackSnoc(t: seq<Content>, events: seq<Event>, e: Event)
    ensures Track(t, events + [e]) == if Track(t, events).None? then None else TrackOne(t, Track(t, events).value, e)
  {
    assert (events + [e])[..|events|] == events;
  }

  lemma TrackFirst(t: seq<Content>, a: Event)
    ensures Track(t, [a]) == TrackOne(t, seq(|t|, _ => FRESH), a)
  {
    TrackSnoc(t, [], a);
    assert [] + [a] == [a];
  }

  lemma TrackSecond(t: seq<Content>, a: Event, b: Event)
    ensures Track(t, [a, b]) == if Track(t, [a]).None? then None else TrackOne(t, Track(t, [a]).value, b)
  {
    TrackSnoc(t, [a], b);
    assert [a] + [b] == [a, b];
  }

  lemma TrackThird(t: seq<Content>, a: Event, b: Event, c: Event)
    ensures Track(t, [a, b, c]) == if Track(t, [a, b]).None? then None else TrackOne(t, Track(t, [a, b]).value, c)
  {
    TrackSnoc(t, [a, b], c);
    assert [a, b] + [c] == [a, b, c];
  }

  lemma TrackThree(t: seq<Content>, a: Event, b: Event, c: Event)
    ensures Track(t, [a]) == TrackOne(t, seq(|t|, _ => FRESH), a)
    ensures Track(t, [a, b]) == if Track(t, [a]).None? then None else TrackOne(t, Track(t, [a]).value, b)
    ensures Track(t, [a, b, c]) == if Track(t, [a, b]).None? then None else TrackOne(t, Track(t, [a, b]).value, c)
  {
    TrackFirst(t, a);
    TrackSecond(t, a, b);
    TrackThird(t, a, b, c);
  }

  lemma HeardTwo(summary: seq<string>, pr: Progress)
    requires |summary| == 2
    ensures Heard(summary, pr) == pr.sent + (Late(summary, pr, 0) + Late(summary, pr, 1))
  {
    assert LateUpTo(summary, pr, 1) == LateUpTo(summary, pr, 0) + Late(summary, pr, 0);
    assert LateUpTo(summary, pr, 2) == LateUpTo(summary, pr, 1) + Late(summary, pr, 1);
  }

  lemma ConcatTwo(x: string, y: string)
    ensures Concat([x, y]) == x + y
  {
    assert [x, y][..1] == [x] && [x][..0] == [];
    assert Concat([x]) == Concat([]) + x;
  }

  lemma Scrambled(pr: Progress)
    requires Heard(["a", "b"], pr) == "ba"
    ensures !ThoughtsHeard([Thinks("r", "e", ["a", "b"])], [pr])
  {
    var t := [Thinks("r", "e", ["a", "b"])];
    ConcatTwo("a", "b");
    assert Concat(t[0].summary)[0] == 'a';
    assert t[0].Thinks? && [pr][0] == pr;
  }

  /** Deltas are all handed on as part 0, so parts that arrive out of order stay out of order. */
  lemma SummaryPartsKeepArrivalOrder(blank: string -> bool)
    ensures var t := [Thinks("r", "e", ["a", "b"])];
      var events := [SummaryText(0, 1, Some("b")), SummaryText(0, 0, Some("a")),
                     ItemDone(0, Reasoning("r", "e", ["a", "b"]))];
      Delivers(t, events) && Heard(["a", "b"], Track(t, events).value[0]) == "ba" && !Faithful(t, events, blank)
  {
    var t := [Thinks("r", "e", ["a", "b"])];
    var x, y, z := SummaryText(0, 1, Some("b")), SummaryText(0, 0, Some("a")),
        ItemDone(0, Reasoning("r", "e", ["a", "b"]));
    TrackThree(t, x, y, z);
    var pr := Track(t, [x, y, z]).value[0];
    assert pr.streamed == map[1 := "b", 0 := "a"] && pr.sent == "ba";
    HeardTwo(["a", "b"], pr);
    Scrambled(pr);
  }

  /** A part that is left to the final object comes after all deltas, also after those of later parts. */
  lemma UnstreamedPartComesLast(blank: string -> bool)
    ensures var t := [Thinks("r", "e", ["a", "b"])];
      var events := [SummaryText(0, 1, Some("b")), ItemDone(0, Reasoning("r", "e", ["a", "b"]))];
      Delivers(t, events) && Heard(["a", "b"], Track(t, events).value[0]) == "ba" && !Faithful(t, events, blank)
  {
    var t := [Thinks("r", "e", ["a", "b"])];
    var x, z := SummaryText(0, 1, Some("b")), ItemDone(0, Reasoning("r", "e", ["a", "b"]));
    TrackThree(t, x, z, OtherEvent);
    var pr := Track(t, [x, z]).value[0];
    assert pr.streamed == map[1 := "b"] && pr.sent == "b";
    HeardTwo(["a", "b"], pr);
    Scrambled(pr);
  }

  lemma ExtraStreamed(t: seq<Content>, x: Event, y: Event)
    requires t == [Thinks("r", "e", ["a", ""])] && x == SummaryText(0, 0, Some("a"))
    requires y == SummaryText(0, 2, Some("x"))
    ensures Track(t, [x, y]).Some?
    ensures Track(t, [x, y]).value[0] == Progress(false, "ax", map[0 := "a", 2 := "x"], "", false)
  {
    assert "" + "a" == "a";
    TrackFirst(t, x);
    TrackSecond(t, x, y);
    assert Track(t, [x]).value[0] == Progress(false, "a", map[0 := "a"], "", false);
    assert "" + "x" == "x" && "a" + "x" == "ax";
    assert Appended(map[0 := "a"], 2, "x") == map[0 := "a", 2 := "x"];
  }

  /** Deltas for a part that the final object does not have are kept. */
  lemma ExtraPartIsKept(blank: string -> bool)
    ensures var t := [Thinks("r", "e", ["a", ""])];
      var events := [SummaryText(0, 0, Some("a")), SummaryText(0, 2, Some("x")),
                     ItemDone(0, Reasoning("r", "e", ["a", ""]))];
      Delivers(t, events) && Heard(["a", ""], Track(t, events).value[0]) == "ax" && !Faithful(t, events, blank)
  {
    var t := [Thinks("r", "e", ["a", ""])];
    var x, y, z := SummaryText(0, 0, Some("a")), SummaryText(0, 2, Some("x")),
        ItemDone(0, Reasoning("r", "e", ["a", ""]));
    ExtraStreamed(t, x, y);
    TrackThird(t, x, y, z);
    var pr := Track(t, [x, y, z]).value[0];
    assert pr == Progress(false, "ax", map[0 := "a", 2 := "x"], "", true);
    HeardTwo(["a", ""], pr);
    Extended(pr);
  }

  lemma Extended(pr: Progress)
    requires Heard(["a", ""], pr) == "ax"
    ensures !ThoughtsHeard([Thinks("r", "e", ["a", ""])], [pr])
  {
    var t := [Thinks("r", "e", ["a", ""])];
    ConcatTwo("a", "");
    assert |Concat(t[0].summary)| == 1;
    assert t[0].Thinks? && [pr][0] == pr;
  }

  /**
   The adapter does not look for a refusal in a final message: one that was not streamed is lost, and with it the
   answer.
   */
  lemma FinalRefusalIsLost(blank: string -> bool)
    requires blank("")
    ensures var t := [Says("", "no")];
      var events := [ItemDone(0, MessageItem([], ["no"]))];
      && Delivers(t, events) && Meant(t, [], blank) == Ok(Turn("no", [], None, []))
      && Receive(events + [ResponseCompleted("completed", true)], blank) == Err(Failure(false))
  {
    var t := [Says("", "no")];
    var x := ItemDone(0, MessageItem([], ["no"]));
    assert ["no"][..0] == [] && Concat(["no"]) == "no" by { assert Concat(["no"]) == Concat([]) + "no"; }
    TrackThree(t, x, OtherEvent, OtherEvent);
    assert [x][..0] == [] && t[..0] == [];
    assert TextOf(t) == "" && RefusalOf(t) == "no" && SummaryOf(t) == "" && CallsIn(t) == [];
    StreamGivesTurn(t, [x], true, blank);
    assert RefusalHeard([x]) == "";
  }

  /** Refusals of two items that take turns are heard in turns. */
  lemma InterleavedRefusalsAreMixed(blank: string -> bool)
    ensures var t := [Says("", "ab"), Says("", "c")];
      var events := [Refusal(0, Some("a")), Refusal(1, Some("c")), Refusal(0, Some("b"))];
      Delivers(t, events) && RefusalOf(t) == "abc" && RefusalHeard(events) == "acb" && !Faithful(t, events, blank)
  {
    var t := [Says("", "ab"), Says("", "c")];
    var x, y, z := Refusal(0, Some("a")), Refusal(1, Some("c")), Refusal(0, Some("b"));
    TrackThree(t, x, y, z);
    assert [x, y, z][..2] == [x, y] && [x, y][..1] == [x] && [x][..0] == [];
    assert t[..1] == [t[0]] && [t[0]][..0] == [];
    assert RefusalHeard([x]) == "" + "a" && RefusalHeard([x, y]) == RefusalHeard([x]) + "c";
    assert RefusalOf([t[0]]) == "" + "ab" && TextOf([t[0]]) == "" + "";
  }
}
