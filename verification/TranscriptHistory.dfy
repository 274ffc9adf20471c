/**
 What the scanned facts mean, stated on the whole event sequence with no state:
 which call a reply answers, which reply first serves a pack, and which feedback
 grades it.
 */
module TranscriptHistory {
  import opened Common
  import opened Transcript

  // ------------------------------------------------------------------
  // The vocabulary. Every index is a position in one fixed sequence.
  // ------------------------------------------------------------------

  /** Position `i` is the first call with its id; a later call with that id is ignored. */
  ghost predicate FirstUse(es: seq<Event>, i: int) {
    0 <= i < |es| && es[i].Use? &&
    forall k :: 0 <= k < i && es[k].Use? ==> es[k].id != es[i].id
  }

  /** No reply to the call at `i` has arrived before position `n`. */
  ghost predicate OpenAt(es: seq<Event>, i: int, n: int) {
    FirstUse(es, i) && i < n <= |es| &&
    forall k :: i < k < n && es[k].Reply? ==> es[k].id != es[i].id
  }

  /** The reply at `j` is the one the call at `i` waits for. */
  ghost predicate Answers(es: seq<Event>, j: int, i: int) {
    0 <= j < |es| && es[j].Reply? && OpenAt(es, i, j) && es[j].id == es[i].id
  }

  /** The reply at `j` is a retrieval's non-error reply, and names pack `p`. */
  ghost predicate Serves(es: seq<Event>, j: int, p: string) {
    0 <= j < |es| && es[j].Reply? && !es[j].isError && es[j].packId == Some(p) &&
    exists i :: Answers(es, j, i) && es[i].kind.PackCall?
  }

  ghost predicate FirstServes(es: seq<Event>, j: int, p: string) {
    Serves(es, j, p) && forall k :: 0 <= k < j ==> !Serves(es, k, p)
  }

  /** Item-attributed feedback naming `p`, or naming no pack. */
  predicate Grades(kind: CallKind, p: string) {
    kind.FeedbackCall? && kind.attributed && (kind.pack.None? || kind.pack.value == p)
  }

  /** The reply at `k` applies a feedback call that grades `p`. */
  ghost predicate GradedAt(es: seq<Event>, k: int, p: string) {
    0 <= k < |es| && es[k].Reply? && !es[k].isError &&
    exists i :: Answers(es, k, i) && Grades(es[i].kind, p)
  }

  ghost predicate GradedBetween(es: seq<Event>, j: int, n: int, p: string) {
    exists k :: j < k < n && GradedAt(es, k, p)
  }

  /** A feedback call that grades `p` is still in flight when the transcript ends. */
  ghost predicate GradedInFlight(es: seq<Event>, p: string) {
    exists i :: OpenAt(es, i, |es|) && Grades(es[i].kind, p)
  }

  ghost function SurvivesEvent(es: seq<Event>, k: int): string -> bool {
    p => !GradedAt(es, k, p)
  }

  ghost function SurvivesFlight(es: seq<Event>): string -> bool {
    p => !GradedInFlight(es, p)
  }

  ghost function SurvivesCall(kind: CallKind): string -> bool {
    p => !Grades(kind, p)
  }

  ghost function SurvivesCalls(calls: seq<Call>): string -> bool {
    p => !exists c :: c in calls && Grades(c.kind, p)
  }

  /** A pack first served at `j`, unless it is graded between `j` and `n`. */
  ghost function StillUngraded(es: seq<Event>, j: nat, n: nat): seq<string>
    requires j < |es|
  {
    if es[j].Reply? && es[j].packId.Some? && FirstServes(es, j, es[j].packId.value)
       && !GradedBetween(es, j, n, es[j].packId.value)
    then [es[j].packId.value] else []
  }

  /** Packs first served before `m` and not graded between their serving and `n`, in serving order. */
  ghost function Ungraded(es: seq<Event>, m: nat, n: nat): seq<string>
    requires m <= |es|
  {
    if m == 0 then [] else Ungraded(es, m - 1, n) + StillUngraded(es, m - 1, n)
  }

  /** The reference meaning of `facts.ungraded`. */
  ghost function UngradedAtEnd(es: seq<Event>): seq<string> {
    Keep(Ungraded(es, |es|, |es|), SurvivesFlight(es))
  }

  ghost function CountFirstUses(es: seq<Event>, n: nat): nat
    requires n <= |es|
  {
    if n == 0 then 0 else CountFirstUses(es, n - 1) + if FirstUse(es, n - 1) then 1 else 0
  }

  ghost predicate RetrievalBefore(es: seq<Event>, n: int) {
    exists i :: 0 <= i < n && FirstUse(es, i) && es[i].kind.PackCall?
  }

  /** The reply at `j` says a `save_experience` call did not error. */
  ghost predicate TraceSavedAt(es: seq<Event>, j: int) {
    0 <= j < |es| && es[j].Reply? && !es[j].isError &&
    exists i :: Answers(es, j, i) && es[i].kind.TraceCall?
  }

  ghost predicate TraceBefore(es: seq<Event>, n: int) {
    exists j :: 0 <= j < n && TraceSavedAt(es, j)
  }

  ghost predicate TraceInFlight(es: seq<Event>) {
    exists i :: OpenAt(es, i, |es|) && es[i].kind.TraceCall?
  }

  // ------------------------------------------------------------------
  // Membership and order of the reference list
  // ------------------------------------------------------------------

  lemma {:induction false} UngradedMember(es: seq<Event>, m: nat, n: nat, p: string)
    requires m <= |es|
    ensures p in Ungraded(es, m, n) <==> exists j :: 0 <= j < m && FirstServes(es, j, p) && !GradedBetween(es, j, n, p)
  {
    if m > 0 {
      UngradedMember(es, m - 1, n, p);
    }
  }

  lemma {:induction false} UngradedDistinct(es: seq<Event>, m: nat, n: nat)
    requires m <= |es|
    ensures Distinct(Ungraded(es, m, n))
  {
    if m > 0 {
      UngradedDistinct(es, m - 1, n);
      if es[m - 1].Reply? && es[m - 1].packId.Some? {
        UngradedMember(es, m - 1, n, es[m - 1].packId.value);
      }
    }
  }

  // ------------------------------------------------------------------
  // The invariant that ties the machine's state to the history
  // ------------------------------------------------------------------

  ghost predicate SeenOk(es: seq<Event>, n: nat, s: ScanState)
    requires n <= |es|
  {
    forall id :: id in s.seen <==> exists k :: 0 <= k < n && es[k].Use? && es[k].id == id
  }

  ghost predicate Waits(es: seq<Event>, n: nat, c: Call)
    requires n <= |es|
  {
    exists i :: OpenAt(es, i, n) && es[i].id == c.id && es[i].kind == c.kind && !c.kind.OtherCall?
  }

  ghost predicate PendingOk(es: seq<Event>, n: nat, s: ScanState)
    requires n <= |es|
  {
    && (forall c :: c in s.pending <==> Waits(es, n, c))
    && (forall a, b :: 0 <= a < b < |s.pending| ==> s.pending[a].id != s.pending[b].id)
  }

  ghost predicate ServedOk(es: seq<Event>, n: nat, s: ScanState)
    requires n <= |es|
  {
    forall p :: p in s.served <==> exists j :: 0 <= j < n && Serves(es, j, p)
  }

  ghost predicate FactsOk(es: seq<Event>, n: nat, s: ScanState)
    requires n <= |es|
  {
    && s.facts.ungraded == Ungraded(es, n, n)
    && s.facts.toolUses == CountFirstUses(es, n)
    && (s.facts.retrievalCalled <==> RetrievalBefore(es, n))
    && (s.facts.savedTrace <==> TraceBefore(es, n))
    && s.facts.skippedLines == 0
  }

  // ------------------------------------------------------------------
  // One step, one concern at a time
  // ------------------------------------------------------------------

  lemma SeenStep(es: seq<Event>, n: nat)
    requires n < |es| && SeenOk(es, n, Run(es, n))
    ensures SeenOk(es, n + 1, Run(es, n + 1))
  {
  }

  /** A new call is the first with its id exactly when its id is not seen. */
  lemma FirstUseIsUnseen(es: seq<Event>, n: nat)
    requires n < |es| && SeenOk(es, n, Run(es, n)) && es[n].Use?
    ensures FirstUse(es, n) <==> es[n].id !in Run(es, n).seen
  {
  }

  lemma PendingStepUse(es: seq<Event>, n: nat)
    requires n < |es| && es[n].Use?
    requires SeenOk(es, n, Run(es, n)) && PendingOk(es, n, Run(es, n))
    ensures PendingOk(es, n + 1, Run(es, n + 1))
  {
    var s, t := Run(es, n), Run(es, n + 1);
    FirstUseIsUnseen(es, n);
    assert forall i :: i < n ==> (OpenAt(es, i, n) <==> OpenAt(es, i, n + 1));
    assert FirstUse(es, n) <==> OpenAt(es, n, n + 1);
    forall c ensures c in t.pending <==> Waits(es, n + 1, c) {
      if c in t.pending && c !in s.pending {
        assert OpenAt(es, n, n + 1) && es[n].id == c.id;
      }
      if Waits(es, n + 1, c) {
        var i :| OpenAt(es, i, n + 1) && es[i].id == c.id && es[i].kind == c.kind && !c.kind.OtherCall?;
        if i < n {
          assert Waits(es, n, c);
        }
      }
    }
    forall c | c in s.pending ensures c.id in s.seen {
      var i :| OpenAt(es, i, n) && es[i].id == c.id;
    }
  }

  /** Popping one call by id leaves every other waiting call. */
  lemma PoppedMember(pending: seq<Call>, k: nat, c: Call)
    requires k < |pending|
    requires forall a, b :: 0 <= a < b < |pending| ==> pending[a].id != pending[b].id
    ensures c in pending[..k] + pending[k + 1..] <==> c in pending && c.id != pending[k].id
  {
    var u := pending[..k] + pending[k + 1..];
    if c in u {
      var a :| 0 <= a < |u| && u[a] == c;
      assert c == pending[if a < k then a else a + 1];
    }
    if c in pending && c.id != pending[k].id {
      var a :| 0 <= a < |pending| && pending[a] == c;
      assert c == u[if a < k then a else a - 1];
    }
  }

  lemma WaitsStep(es: seq<Event>, n: nat, c: Call)
    requires n < |es| && !es[n].Use?
    ensures Waits(es, n + 1, c) <==> Waits(es, n, c) && !(es[n].Reply? && es[n].id == c.id)
  {
    if Waits(es, n + 1, c) {
      var i :| OpenAt(es, i, n + 1) && es[i].id == c.id && es[i].kind == c.kind;
      assert OpenAt(es, i, n);
    }
    if Waits(es, n, c) && !(es[n].Reply? && es[n].id == c.id) {
      var i :| OpenAt(es, i, n) && es[i].id == c.id && es[i].kind == c.kind;
      assert OpenAt(es, i, n + 1);
    }
  }

  lemma PendingStepReply(es: seq<Event>, n: nat)
    requires n < |es| && !es[n].Use? && PendingOk(es, n, Run(es, n))
    ensures PendingOk(es, n + 1, Run(es, n + 1))
  {
    var s, t := Run(es, n), Run(es, n + 1);
    var k := if es[n].Reply? then Find(s.pending, es[n].id) else |s.pending|;
    forall c ensures c in t.pending <==> Waits(es, n + 1, c) {
      WaitsStep(es, n, c);
      if k < |s.pending| {
        assert t.pending == s.pending[..k] + s.pending[k + 1..];
        PoppedMember(s.pending, k, c);
      } else {
        assert t.pending == s.pending;
      }
    }
  }

  /** The call a reply answers is the waiting one with its id, unless it matters for nothing. */
  lemma AnswerIsPending(es: seq<Event>, n: nat, i: int)
    requires n < |es| && es[n].Reply? && PendingOk(es, n, Run(es, n))
    requires Answers(es, n, i) && !es[i].kind.OtherCall?
    ensures var s := Run(es, n); var k := Find(s.pending, es[n].id);
            k < |s.pending| && s.pending[k].kind == es[i].kind
  {
    var s := Run(es, n);
    var c := Call(es[i].id, es[i].kind);
    assert Waits(es, n, c);
    assert c in s.pending;
  }

  lemma PendingIsAnswer(es: seq<Event>, n: nat) returns (i: int)
    requires n < |es| && es[n].Reply? && PendingOk(es, n, Run(es, n))
    requires Find(Run(es, n).pending, es[n].id) < |Run(es, n).pending|
    ensures Answers(es, n, i) && !es[i].kind.OtherCall?
    ensures es[i].kind == Run(es, n).pending[Find(Run(es, n).pending, es[n].id)].kind
  {
    var s := Run(es, n);
    var c := s.pending[Find(s.pending, es[n].id)];
    assert c in s.pending;
    i :| OpenAt(es, i, n) && es[i].id == c.id && es[i].kind == c.kind && !c.kind.OtherCall?;
  }

  /** What the reply at `n` does, read off the state just before it. */
  ghost function Settled(es: seq<Event>, n: nat): CallKind
    requires n < |es|
  {
    var s := Run(es, n);
    if es[n].Reply? && !es[n].isError && Find(s.pending, es[n].id) < |s.pending|
    then s.pending[Find(s.pending, es[n].id)].kind
    else OtherCall
  }

  lemma SettledMeans(es: seq<Event>, n: nat)
    requires n < |es| && PendingOk(es, n, Run(es, n))
    ensures forall p :: Serves(es, n, p) <==> Settled(es, n).PackCall? && es[n].packId == Some(p)
    ensures forall p :: GradedAt(es, n, p) <==> Grades(Settled(es, n), p)
    ensures TraceSavedAt(es, n) <==> Settled(es, n).TraceCall?
  {
    var kind := Settled(es, n);
    if !kind.OtherCall? {
      var i := PendingIsAnswer(es, n);
      assert Answers(es, n, i) && es[i].kind == kind;
    }
    forall i | Answers(es, n, i) && !es[n].isError && !es[i].kind.OtherCall? ensures es[i].kind == kind {
      AnswerIsPending(es, n, i);
    }
  }

  lemma ServedStep(es: seq<Event>, n: nat)
    requires n < |es| && PendingOk(es, n, Run(es, n)) && ServedOk(es, n, Run(es, n))
    ensures ServedOk(es, n + 1, Run(es, n + 1))
  {
    SettledMeans(es, n);
    var s, t := Run(es, n), Run(es, n + 1);
    forall p ensures p in t.served <==> p in s.served || Serves(es, n, p) {}
    forall p ensures p in t.served <==> exists j :: 0 <= j < n + 1 && Serves(es, j, p) {
      if p in s.served {
        var j :| 0 <= j < n && Serves(es, j, p);
        assert 0 <= j < n + 1;
      }
    }
  }

  lemma StillUngradedHorizon(es: seq<Event>, j: nat, n: nat)
    requires j < n < |es|
    ensures StillUngraded(es, j, n + 1) == Keep(StillUngraded(es, j, n), SurvivesEvent(es, n))
  {
    if StillUngraded(es, j, n) == [] {
      if es[j].Reply? && es[j].packId.Some? && GradedBetween(es, j, n, es[j].packId.value) {
        var k :| j < k < n && GradedAt(es, k, es[j].packId.value);
        assert j < k < n + 1;
      }
    } else {
      var p := es[j].packId.value;
      assert [p][1..] == [];
      if GradedAt(es, n, p) { assert j < n < n + 1; }
    }
  }

  /** Moving the horizon past one event drops exactly what that event grades. */
  lemma {:induction false} UngradedHorizon(es: seq<Event>, m: nat, n: nat)
    requires m <= n < |es|
    ensures Ungraded(es, m, n + 1) == Keep(Ungraded(es, m, n), SurvivesEvent(es, n))
  {
    if m > 0 {
      var j, keep := m - 1, SurvivesEvent(es, n);
      calc {
        Ungraded(es, m, n + 1);
        Ungraded(es, j, n + 1) + StillUngraded(es, j, n + 1);
        { UngradedHorizon(es, j, n); StillUngradedHorizon(es, j, n); }
        Keep(Ungraded(es, j, n), keep) + Keep(StillUngraded(es, j, n), keep);
        { KeepAppend(Ungraded(es, j, n), StillUngraded(es, j, n), keep); }
        Keep(Ungraded(es, m, n), keep);
      }
    }
  }

  lemma {:induction false} RemoveFirstIsKeep(u: seq<string>, p: string)
    requires Distinct(u)
    ensures RemoveFirst(u, p) == Keep(u, q => q != p)
  {
    if u != [] {
      if u[0] == p {
        KeepAll(u[1..], q => q != p);
      } else {
        RemoveFirstIsKeep(u[1..], p);
      }
    }
  }

  lemma {:induction false} KeepNone(u: seq<string>, keep: string -> bool)
    requires forall p :: p in u ==> !keep(p)
    ensures Keep(u, keep) == []
  {
    if u != [] {
      KeepNone(u[1..], keep);
    }
  }

  /** Applying one call removes exactly what it grades. */
  lemma ApplyCallKeeps(facts: Facts, kind: CallKind)
    requires Distinct(facts.ungraded)
    ensures ApplyCall(facts, kind).ungraded == Keep(facts.ungraded, SurvivesCall(kind))
    ensures Distinct(ApplyCall(facts, kind).ungraded)
  {
    var u, keep := facts.ungraded, SurvivesCall(kind);
    KeepDistinct(u, keep);
    if kind.FeedbackCall? && kind.attributed {
      if kind.pack.Some? {
        RemoveFirstIsKeep(u, kind.pack.value);
        KeepCongruent(u, q => q != kind.pack.value, keep);
      } else {
        KeepNone(u, keep);
      }
    } else {
      KeepAll(u, keep);
    }
  }

  lemma StepUngraded(es: seq<Event>, n: nat)
    requires n < |es|
    ensures var s, kind := Run(es, n), Settled(es, n);
            Run(es, n + 1).facts.ungraded ==
            ApplyCall(s.facts, kind).ungraded +
            (if kind.PackCall? && es[n].packId.Some? && es[n].packId.value !in s.served
             then [es[n].packId.value] else [])
  {
  }

  /** What the event at `n` newly serves. */
  lemma ServedFirst(es: seq<Event>, n: nat)
    requires n < |es| && PendingOk(es, n, Run(es, n)) && ServedOk(es, n, Run(es, n))
    ensures var s, kind := Run(es, n), Settled(es, n);
            StillUngraded(es, n, n + 1) ==
            if kind.PackCall? && es[n].packId.Some? && es[n].packId.value !in s.served then [es[n].packId.value] else []
  {
    SettledMeans(es, n);
    if es[n].Reply? && es[n].packId.Some? {
      assert !GradedBetween(es, n, n + 1, es[n].packId.value);
    }
  }

  lemma UngradedStep(es: seq<Event>, n: nat)
    requires n < |es| && PendingOk(es, n, Run(es, n)) && ServedOk(es, n, Run(es, n))
    requires Run(es, n).facts.ungraded == Ungraded(es, n, n)
    ensures Run(es, n + 1).facts.ungraded == Ungraded(es, n + 1, n + 1)
  {
    var s, kind := Run(es, n), Settled(es, n);
    SettledMeans(es, n);
    UngradedDistinct(es, n, n);
    UngradedHorizon(es, n, n);
    ApplyCallKeeps(s.facts, kind);
    KeepCongruent(s.facts.ungraded, SurvivesCall(kind), SurvivesEvent(es, n));
    assert Ungraded(es, n, n + 1) == ApplyCall(s.facts, kind).ungraded;
    StepUngraded(es, n);
    ServedFirst(es, n);
  }

  lemma StepSavedTrace(es: seq<Event>, n: nat)
    requires n < |es|
    ensures Run(es, n + 1).facts.savedTrace <==> Run(es, n).facts.savedTrace || Settled(es, n).TraceCall?
  {
  }

  lemma TraceStep(es: seq<Event>, n: nat)
    requires n < |es| && PendingOk(es, n, Run(es, n))
    requires Run(es, n).facts.savedTrace <==> TraceBefore(es, n)
    ensures Run(es, n + 1).facts.savedTrace <==> TraceBefore(es, n + 1)
  {
    SettledMeans(es, n);
    StepSavedTrace(es, n);
    if TraceBefore(es, n) {
      var j :| 0 <= j < n && TraceSavedAt(es, j);
      assert 0 <= j < n + 1;
    }
  }

  lemma CountStep(es: seq<Event>, n: nat)
    requires n < |es| && SeenOk(es, n, Run(es, n))
    requires Run(es, n).facts.toolUses == CountFirstUses(es, n) && Run(es, n).facts.skippedLines == 0
    ensures Run(es, n + 1).facts.toolUses == CountFirstUses(es, n + 1)
    ensures Run(es, n + 1).facts.skippedLines == 0
  {
    if es[n].Use? { FirstUseIsUnseen(es, n); }
  }

  lemma StepRetrieval(es: seq<Event>, n: nat)
    requires n < |es|
    ensures Run(es, n + 1).facts.retrievalCalled <==>
            Run(es, n).facts.retrievalCalled || StartsRetrieval(Run(es, n), es[n])
  {
  }

  lemma RetrievalStep(es: seq<Event>, n: nat)
    requires n < |es| && SeenOk(es, n, Run(es, n))
    requires Run(es, n).facts.retrievalCalled <==> RetrievalBefore(es, n)
    ensures Run(es, n + 1).facts.retrievalCalled <==> RetrievalBefore(es, n + 1)
  {
    if es[n].Use? { FirstUseIsUnseen(es, n); }
    StepRetrieval(es, n);
    if RetrievalBefore(es, n) {
      var i :| 0 <= i < n && FirstUse(es, i) && es[i].kind.PackCall?;
      assert 0 <= i < n + 1;
    }
  }

  /** At every prefix of every event sequence the state is what the history says. */
  lemma {:induction false} StateMeansHistory(es: seq<Event>, n: nat)
    requires n <= |es|
    ensures SeenOk(es, n, Run(es, n)) && PendingOk(es, n, Run(es, n))
    ensures ServedOk(es, n, Run(es, n)) && FactsOk(es, n, Run(es, n))
  {
    if n > 0 {
      var m := n - 1;
      StateMeansHistory(es, m);
      SeenStep(es, m);
      if es[m].Use? { PendingStepUse(es, m); } else { PendingStepReply(es, m); }
      ServedStep(es, m);
      UngradedStep(es, m);
      TraceStep(es, m);
      CountStep(es, m);
      RetrievalStep(es, m);
    }
  }

  // ------------------------------------------------------------------
  // Finishing
  // ------------------------------------------------------------------

  /** Settling in-flight calls drops what any of them grades, whatever their order. */
  lemma {:induction false} ApplyAllMeans(facts: Facts, calls: seq<Call>)
    requires Distinct(facts.ungraded)
    ensures ApplyAll(facts, calls).ungraded == Keep(facts.ungraded, SurvivesCalls(calls))
    ensures ApplyAll(facts, calls).savedTrace <==> facts.savedTrace || exists c :: c in calls && c.kind.TraceCall?
    decreases |calls|
  {
    var keep := SurvivesCalls(calls);
    if calls == [] {
      KeepAll(facts.ungraded, keep);
    } else {
      var c0, rest := calls[0], calls[1..];
      assert forall c :: c in calls <==> c == c0 || c in rest;
      var next := if c0.kind.PackCall? then facts else ApplyCall(facts, c0.kind);
      ApplyCallKeeps(facts, c0.kind);
      var first := SurvivesCall(c0.kind);
      var later := SurvivesCalls(rest);
      if c0.kind.PackCall? { KeepAll(facts.ungraded, first); }
      assert next.ungraded == Keep(facts.ungraded, first);
      ApplyAllMeans(next, rest);
      KeepTwice(facts.ungraded, first, later, keep);
    }
  }

  /** The effect of `finish` does not depend on the order of the pending calls. */
  lemma FinishIgnoresOrder(facts: Facts, a: seq<Call>, b: seq<Call>)
    requires Distinct(facts.ungraded) && forall c :: c in a <==> c in b
    ensures ApplyAll(facts, a) == ApplyAll(facts, b)
  {
    ApplyAllMeans(facts, a);
    ApplyAllMeans(facts, b);
    FinishKeepsRetrieval(facts, a);
    FinishKeepsRetrieval(facts, b);
    KeepCongruent(facts.ungraded, SurvivesCalls(a), SurvivesCalls(b));
  }

  /**
   The facts of any event sequence. Ungraded lists those pack ids, and no others, first served
   by a non-error retrieval and not graded by later applied feedback or by
   feedback in flight at the end, in first-serving order.
   */
  lemma FactsMeanHistory(es: seq<Event>)
    ensures FactsOf(es).ungraded == UngradedAtEnd(es)
    ensures FactsOf(es).toolUses == CountFirstUses(es, |es|)
    ensures FactsOf(es).retrievalCalled <==> RetrievalBefore(es, |es|)
    ensures FactsOf(es).savedTrace <==> TraceBefore(es, |es|) || TraceInFlight(es)
  {
    var n, s := |es|, Run(es, |es|);
    StateMeansHistory(es, n);
    UngradedDistinct(es, n, n);
    ApplyAllMeans(s.facts, s.pending);
    FinishKeepsRetrieval(s.facts, s.pending);
    forall p ensures GradedInFlight(es, p) <==> exists c :: c in s.pending && Grades(c.kind, p) {
      if GradedInFlight(es, p) {
        var i :| OpenAt(es, i, n) && Grades(es[i].kind, p);
        assert Waits(es, n, Call(es[i].id, es[i].kind));
      }
    }
    KeepCongruent(s.facts.ungraded, SurvivesCalls(s.pending), SurvivesFlight(es));
    if TraceInFlight(es) {
      var i :| OpenAt(es, i, n) && es[i].kind.TraceCall?;
      assert Waits(es, n, Call(es[i].id, es[i].kind));
    }
  }

  /** Membership form: a pack is ungraded exactly when its first serving has no later grade. */
  lemma UngradedIff(es: seq<Event>, p: string)
    ensures p in FactsOf(es).ungraded <==>
            (exists j :: 0 <= j < |es| && FirstServes(es, j, p) && !GradedBetween(es, j, |es|, p)) &&
            !GradedInFlight(es, p)
    ensures Distinct(FactsOf(es).ungraded)
  {
    FactsMeanHistory(es);
    UngradedMember(es, |es|, |es|, p);
    KeepMember(Ungraded(es, |es|, |es|), SurvivesFlight(es), p);
    UngradedDistinct(es, |es|, |es|);
    KeepDistinct(Ungraded(es, |es|, |es|), SurvivesFlight(es));
  }

  /** Every ungraded pack was served by a non-error reply to a retrieval. */
  lemma UngradedWasServed(es: seq<Event>, p: string)
    requires p in FactsOf(es).ungraded
    ensures exists j :: Serves(es, j, p)
  {
    UngradedIff(es, p);
  }

  // ------------------------------------------------------------------
  // Growing transcripts
  // ------------------------------------------------------------------

  /** What a transcript says of its own positions, a longer one says too. */
  lemma PrefixKeeps(es: seq<Event>, more: seq<Event>, j: int, p: string)
    requires 0 <= j < |es|
    ensures Serves(es, j, p) <==> Serves(es + more, j, p)
    ensures GradedAt(es, j, p) <==> GradedAt(es + more, j, p)
  {
    var all := es + more;
    assert forall k :: 0 <= k < |es| ==> all[k] == es[k];
    forall i | 0 <= i < j ensures Answers(es, j, i) <==> Answers(all, j, i) {
      assert FirstUse(es, i) <==> FirstUse(all, i);
    }
  }

  /**
   A grade applied after the first serving is final: however the transcript grows, that
   pack is not ungraded again.
   */
  lemma AppliedGradeIsFinal(es: seq<Event>, more: seq<Event>, j: int, p: string)
    requires FirstServes(es, j, p) && GradedBetween(es, j, |es|, p)
    ensures p !in FactsOf(es + more).ungraded
  {
    var all := es + more;
    forall i | 0 <= i <= j ensures Serves(es, i, p) <==> Serves(all, i, p) {
      PrefixKeeps(es, more, i, p);
    }
    var k :| j < k < |es| && GradedAt(es, k, p);
    PrefixKeeps(es, more, k, p);
    UngradedIff(all, p);
    forall i | 0 <= i < |all| && FirstServes(all, i, p) ensures GradedBetween(all, i, |all|, p) {
      assert i == j;
      assert i < k < |all| && GradedAt(all, k, p);
    }
  }

  /** A grade still in flight is not: if its reply turns out to be an error, what it graded is ungraded again. */
  lemma AnInFlightGradeCanFail(p: string)
    ensures var es := [Use("a", PackCall), Reply("a", false, Some(p)), Use("f", FeedbackCall(None, true))];
            FactsOf(es).ungraded == [] && FactsOf(es + [Reply("f", true, None)]).ungraded == [p]
  {
    var es := [Use("a", PackCall), Reply("a", false, Some(p)), Use("f", FeedbackCall(None, true))];
    var all := es + [Reply("f", true, None)];
    var call := Call("f", FeedbackCall(None, true));
    var s1 := Step(START, es[0]);
    var s2 := Step(s1, es[1]);
    var s3 := Step(s2, es[2]);
    assert s1.pending == [Call("a", PackCall)];
    assert s2.pending == [] && s2.facts.ungraded == [p];
    assert s3.pending == [call] && s3.facts.ungraded == [p];
    assert Run(es, 1) == s1 && Run(es, 2) == s2 && Run(es, 3) == s3;
    assert [call][1..] == [];
    assert ApplyAll(s3.facts, s3.pending) == ApplyAll(ApplyCall(s3.facts, call.kind), []);
    assert Run(all, 1) == s1 && Run(all, 2) == s2 && Run(all, 3) == s3;
    var s4 := Step(s3, all[3]);
    assert s4.pending == [] && s4.facts.ungraded == [p];
    assert Run(all, 4) == s4;
  }
}
