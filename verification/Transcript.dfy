/**
 The transcript state machine of the hook engine, on events: what one content
 block does to the facts, to the calls still waiting for a reply and to the set
 of packs already served. `TranscriptScan` folds real blocks through it;
 `TranscriptHistory` says what the facts mean.
 */
module Transcript {
  import opened Common

  /** What a call to a tool matters for. A feedback call keeps any pack id it names. */
  datatype CallKind =
    | PackCall
    | FeedbackCall(pack: Option<string>, attributed: bool)
    | TraceCall
    | OtherCall

  datatype Event =
    | Use(id: string, kind: CallKind)
    | Reply(id: string, isError: bool, packId: Option<string>)
    | Noise

  /** A call whose reply has not arrived. */
  datatype Call = Call(id: string, kind: CallKind)

  datatype Facts = Facts(
    toolUses: nat,
    retrievalCalled: bool,
    savedTrace: bool,
    ungraded: seq<string>,
    skippedLines: nat)

  const NO_FACTS := Facts(0, false, false, [], 0)

  /** `pending` keeps the order of insertion, as the source's dictionary does. */
  datatype ScanState = ScanState(
    facts: Facts,
    seen: set<string>,
    pending: seq<Call>,
    served: set<string>)

  const START := ScanState(NO_FACTS, {}, [], {})

  /** Position of the waiting call with this id, or `|pending|`. */
  function Find(pending: seq<Call>, id: string): (i: nat)
    ensures i <= |pending|
    ensures i < |pending| ==> pending[i].id == id
    ensures forall k :: 0 <= k < i ==> pending[k].id != id
  {
    if pending == [] then 0
    else if pending[0].id == id then 0
    else 1 + Find(pending[1..], id)
  }

  function RemoveFirst(u: seq<string>, p: string): seq<string> {
    if u == [] then [] else if u[0] == p then u[1..] else [u[0]] + RemoveFirst(u[1..], p)
  }

  /** The effect of a settled feedback or trace call. */
  function ApplyCall(facts: Facts, kind: CallKind): Facts {
    match kind
    case TraceCall => facts.(savedTrace := true)
    case FeedbackCall(pack, attributed) =>
      if !attributed then facts
      else if pack.Some? then facts.(ungraded := RemoveFirst(facts.ungraded, pack.value))
      else facts.(ungraded := [])
    case _ => facts
  }

  function Settle(s: ScanState, kind: CallKind, packId: Option<string>): ScanState {
    if kind.PackCall? then
      if packId.Some? && packId.value !in s.served then
        s.(served := s.served + {packId.value},
           facts := s.facts.(ungraded := s.facts.ungraded + [packId.value]))
      else s
    else s.(facts := ApplyCall(s.facts, kind))
  }

  function Step(s: ScanState, e: Event): ScanState {
    match e
    case Use(id, kind) =>
      if id in s.seen then s
      else
        s.(seen := s.seen + {id},
           facts := s.facts.(toolUses := s.facts.toolUses + 1,
                             retrievalCalled := s.facts.retrievalCalled || kind.PackCall?),
           pending := if kind.OtherCall? then s.pending else s.pending + [Call(id, kind)])
    case Reply(id, isError, packId) =>
      var i := Find(s.pending, id);
      if i == |s.pending| then s
      else
        var popped := s.(pending := s.pending[..i] + s.pending[i + 1..]);
        if isError then popped else Settle(popped, s.pending[i].kind, packId)
    case Noise => s
  }

  /** True when this event is the first sight of a call to a retrieval tool. */
  predicate StartsRetrieval(s: ScanState, e: Event) {
    e.Use? && e.kind.PackCall? && e.id !in s.seen
  }

  /** The state after the first `n` events. */
  function Run(es: seq<Event>, n: nat): ScanState
    requires n <= |es|
  {
    if n == 0 then START else Step(Run(es, n - 1), es[n - 1])
  }

  /** Settling the calls still in flight: retrievals count for nothing. */
  function ApplyAll(facts: Facts, calls: seq<Call>): Facts
    decreases |calls|
  {
    if calls == [] then facts
    else
      ApplyAll(if calls[0].kind.PackCall? then facts else ApplyCall(facts, calls[0].kind), calls[1..])
  }

  function Finish(s: ScanState): ScanState {
    s.(facts := ApplyAll(s.facts, s.pending), pending := [])
  }

  /** What a whole event sequence says. */
  function FactsOf(es: seq<Event>): Facts {
    Finish(Run(es, |es|)).facts
  }

  // ------------------------------------------------------------------
  // Folding from any state, and the fold that stops at a retrieval.
  // ------------------------------------------------------------------

  function Fold(s: ScanState, es: seq<Event>): ScanState
    decreases |es|
  {
    if es == [] then s else Fold(Step(s, es[0]), es[1..])
  }

  /** The fold that stops right after the first retrieval call; the flag says it stopped. */
  function FoldUntil(s: ScanState, es: seq<Event>, stop: bool): (ScanState, bool)
    decreases |es|
  {
    if es == [] then (s, false)
    else if stop && StartsRetrieval(s, es[0]) then (Step(s, es[0]), true)
    else FoldUntil(Step(s, es[0]), es[1..], stop)
  }

  lemma {:induction false} FoldAppend(s: ScanState, a: seq<Event>, b: seq<Event>)
    ensures Fold(s, a + b) == Fold(Fold(s, a), b)
    decreases |a|
  {
    if a == [] {
      assert a + b == b;
    } else {
      assert (a + b)[1..] == a[1..] + b;
      FoldAppend(Step(s, a[0]), a[1..], b);
    }
  }

  lemma {:induction false} FoldIsRun(es: seq<Event>, n: nat)
    requires n <= |es|
    ensures Fold(START, es[..n]) == Run(es, n)
  {
    if n > 0 {
      FoldIsRun(es, n - 1);
      assert es[..n] == es[..n - 1] + [es[n - 1]];
      FoldAppend(START, es[..n - 1], [es[n - 1]]);
      assert [es[n - 1]][1..] == [];
    }
  }

  lemma {:induction false} FoldUntilWithoutStop(s: ScanState, es: seq<Event>)
    ensures FoldUntil(s, es, false) == (Fold(s, es), false)
    decreases |es|
  {
    if es != [] {
      FoldUntilWithoutStop(Step(s, es[0]), es[1..]);
    }
  }

  /** A retrieval, once seen, stays seen. */
  lemma {:induction false} RetrievalIsSticky(s: ScanState, es: seq<Event>)
    requires s.facts.retrievalCalled
    ensures Fold(s, es).facts.retrievalCalled
    decreases |es|
  {
    if es != [] {
      RetrievalIsSticky(Step(s, es[0]), es[1..]);
    }
  }

  /** Stopping at the first retrieval does not change whether one is reported. */
  lemma {:induction false} StoppingKeepsTheAnswer(s: ScanState, es: seq<Event>, stop: bool)
    ensures FoldUntil(s, es, stop).0.facts.retrievalCalled == Fold(s, es).facts.retrievalCalled
    ensures FoldUntil(s, es, stop).1 ==> Fold(s, es).facts.retrievalCalled
    ensures !FoldUntil(s, es, stop).1 ==> FoldUntil(s, es, stop).0 == Fold(s, es)
    decreases |es|
  {
    if es == [] {
    } else if stop && StartsRetrieval(s, es[0]) {
      RetrievalIsSticky(Step(s, es[0]), es[1..]);
    } else {
      StoppingKeepsTheAnswer(Step(s, es[0]), es[1..], stop);
    }
  }

  lemma {:induction false} FinishKeepsRetrieval(facts: Facts, calls: seq<Call>)
    ensures ApplyAll(facts, calls).retrievalCalled == facts.retrievalCalled
    ensures ApplyAll(facts, calls).toolUses == facts.toolUses
    ensures ApplyAll(facts, calls).skippedLines == facts.skippedLines
    decreases |calls|
  {
    if calls != [] {
      FinishKeepsRetrieval(if calls[0].kind.PackCall? then facts else ApplyCall(facts, calls[0].kind), calls[1..]);
    }
  }

  // ------------------------------------------------------------------
  // Re-delivery
  // ------------------------------------------------------------------

  /** The call with this id has been seen and is waiting for nothing. */
  ghost predicate Resolved(s: ScanState, id: string) {
    id in s.seen && forall c :: c in s.pending ==> c.id != id
  }

  lemma {:induction false} ResolvedIsSticky(s: ScanState, es: seq<Event>, id: string)
    requires Resolved(s, id)
    ensures Resolved(Fold(s, es), id)
    decreases |es|
  {
    if es != [] {
      var t := Step(s, es[0]);
      assert Resolved(t, id);
      ResolvedIsSticky(t, es[1..], id);
    }
  }

  /**
   Delivering any block for a resolved call again, however much later and
   whatever it holds, leaves every later state as if it had not come.
   */
  lemma {:induction false} RedeliveryIsInvisible(before: seq<Event>, between: seq<Event>, again: Event,
                                                 after: seq<Event>)
    requires !again.Noise? && Resolved(Fold(START, before), again.id)
    ensures Fold(START, before + between + [again] + after) == Fold(START, before + between + after)
  {
    var s := Fold(Fold(START, before), between);
    ResolvedIsSticky(Fold(START, before), between, again.id);
    FoldAppend(START, before, between);
    var head := before + between;
    FoldAppend(START, head, [again]);
    assert [again][1..] == [];
    assert Fold(s, [again]) == Step(s, again) == s;
    FoldAppend(START, head + [again], after);
    FoldAppend(START, head, after);
  }
}
