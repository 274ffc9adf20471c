/** Whole runs of stop events against one marker directory: who is asked about what, and how often. */
module GradeRuns {
  import opened Common
  import opened Transcript
  import opened TranscriptHistory
  import opened TranscriptLines
  import opened TranscriptReader
  import opened TranscriptMeaning
  import opened HookMarkers
  import opened HookDecisions

  /** One stop event: its input, what the transcript said then, and which claims failed. */
  datatype StopEvent = StopEvent(payload: Fields, facts: Option<Facts>, broken: nat -> bool)

  function JobOf(ev: StopEvent, threshold: int): Option<Job> {
    GradeJob(ev.payload, ev.facts, threshold)
  }

  function StopResult(digest: Digest, markers: set<string>, ev: StopEvent, threshold: int):
    (Option<Reply>, set<string>)
  {
    var job := JobOf(ev, threshold);
    if job.None? then (None, markers) else Alone(digest, ev.broken, 0, markers, job.value, true)
  }

  /** The markers when event `n` fires, and the reply it gets. */
  function MarkersAt(digest: Digest, start: set<string>, evs: seq<StopEvent>, n: nat, threshold: int): set<string>
    requires n <= |evs|
  {
    if n == 0 then start
    else StopResult(digest, MarkersAt(digest, start, evs, n - 1, threshold), evs[n - 1], threshold).1
  }

  function ReplyAt(digest: Digest, start: set<string>, evs: seq<StopEvent>, n: nat, threshold: int): Option<Reply>
    requires n < |evs|
  {
    StopResult(digest, MarkersAt(digest, start, evs, n, threshold), evs[n], threshold).0
  }

  /** Event `n` asks for a grade of pack `p`. */
  predicate AsksFor(digest: Digest, start: set<string>, evs: seq<StopEvent>, n: nat, threshold: int, p: string)
    requires n < |evs|
  {
    var reply := ReplyAt(digest, start, evs, n, threshold);
    reply.Some? && reply.value.Ask? && reply.value.packId == p
  }

  // ------------------------------------------------------------------
  // What one event does to the markers
  // ------------------------------------------------------------------

  lemma {:induction false} SweepGrows(digest: Digest, broken: nat -> bool, at: nat, markers: set<string>,
                                      sweep: seq<Key>, from: nat)
    requires forall i :: 0 <= i < |sweep| ==> sweep[i] != []
    ensures markers <= SweepAlone(digest, broken, at, markers, sweep, from)
    decreases |sweep| - from
  {
    if from < |sweep| {
      SweepGrows(digest, broken, at + 1, if broken(at) then markers else markers + {Marker(digest, sweep[from])},
                 sweep, from + 1);
    }
  }

  /** A sweep adds exactly the markers of the claims that do not fail. */
  lemma {:induction false} SweepAdds(digest: Digest, broken: nat -> bool, at: nat, markers: set<string>,
                                     sweep: seq<Key>, from: nat, m: string)
    requires forall i :: 0 <= i < |sweep| ==> sweep[i] != []
    ensures m in SweepAlone(digest, broken, at, markers, sweep, from) <==>
            m in markers || exists i :: from <= i < |sweep| && m == Marker(digest, sweep[i]) && !broken(at + i - from)
    decreases |sweep| - from
  {
    if from < |sweep| {
      var next := if broken(at) then markers else markers + {Marker(digest, sweep[from])};
      SweepAdds(digest, broken, at + 1, next, sweep, from + 1, m);
      if i :| from + 1 <= i < |sweep| && m == Marker(digest, sweep[i]) && !broken(at + 1 + i - (from + 1)) {
        assert at + 1 + i - (from + 1) == at + i - from;
      }
      if i :| from <= i < |sweep| && m == Marker(digest, sweep[i]) && !broken(at + i - from) {
        assert at + i - from == at + 1 + i - (from + 1);
        assert i == from || from + 1 <= i;
      }
    }
  }

  /** The event reaches its claim and makes the marker. */
  predicate Fires(digest: Digest, start: set<string>, evs: seq<StopEvent>, n: nat, threshold: int)
    requires n < |evs|
  {
    var job := JobOf(evs[n], threshold);
    job.Some? && Marker(digest, job.value.key) !in MarkersAt(digest, start, evs, n, threshold) && !evs[n].broken(0)
  }

  lemma ReplyNeedsFire(digest: Digest, start: set<string>, evs: seq<StopEvent>, n: nat, threshold: int)
    requires n < |evs|
    ensures ReplyAt(digest, start, evs, n, threshold) ==
            if Fires(digest, start, evs, n, threshold) then JobOf(evs[n], threshold).value.says else None
    ensures !Fires(digest, start, evs, n, threshold) ==>
            MarkersAt(digest, start, evs, n + 1, threshold) == MarkersAt(digest, start, evs, n, threshold)
  {
  }

  lemma FireMarks(digest: Digest, start: set<string>, evs: seq<StopEvent>, n: nat, threshold: int)
    requires n < |evs| && Fires(digest, start, evs, n, threshold)
    ensures Marker(digest, JobOf(evs[n], threshold).value.key) in MarkersAt(digest, start, evs, n + 1, threshold)
  {
    var job := JobOf(evs[n], threshold).value;
    SweepGrows(digest, evs[n].broken, 1, MarkersAt(digest, start, evs, n, threshold) + {Marker(digest, job.key)},
               job.sweep, 0);
  }

  lemma ResultGrows(digest: Digest, markers: set<string>, ev: StopEvent, threshold: int)
    ensures markers <= StopResult(digest, markers, ev, threshold).1
  {
    var job := JobOf(ev, threshold);
    if job.Some? {
      SweepGrows(digest, ev.broken, 1, markers + {Marker(digest, job.value.key)}, job.value.sweep, 0);
    }
  }

  lemma {:induction false} MarkersGrow(digest: Digest, start: set<string>, evs: seq<StopEvent>, i: nat, j: nat,
                                       threshold: int)
    requires i <= j <= |evs|
    ensures MarkersAt(digest, start, evs, i, threshold) <= MarkersAt(digest, start, evs, j, threshold)
    decreases j - i
  {
    if i < j {
      MarkersGrow(digest, start, evs, i, j - 1, threshold);
      ResultGrows(digest, MarkersAt(digest, start, evs, j - 1, threshold), evs[j - 1], threshold);
    }
  }

  // ------------------------------------------------------------------
  // What an ask implies, and how often it happens
  // ------------------------------------------------------------------

  /** An ask is only made of a stop hook that is not active, about the newest ungraded pack, after enough work. */
  lemma AskMeans(digest: Digest, start: set<string>, evs: seq<StopEvent>, n: nat, threshold: int, p: string)
    requires n < |evs| && AsksFor(digest, start, evs, n, threshold, p)
    ensures !StopHookActive(evs[n].payload) && IsPackId(p)
    ensures var facts := evs[n].facts;
            facts.Some? && facts.value.toolUses >= threshold && facts.value.ungraded != []
            && facts.value.ungraded[|facts.value.ungraded| - 1] == p
    ensures StopSubject(evs[n].payload).Some? && JobOf(evs[n], threshold).Some?
    ensures JobOf(evs[n], threshold).value.key == GradeKey(StopSubject(evs[n].payload).value, p)
    ensures Fires(digest, start, evs, n, threshold)
  {
    ReplyNeedsFire(digest, start, evs, n, threshold);
  }

  /** A pack asked about was served by a non-error reply to a retrieval in the transcript that was read. */
  lemma AskedPackWasServed(digest: Digest, start: set<string>, evs: seq<StopEvent>, n: nat, threshold: int, p: string,
                           cfg: Config, data: Bytes)
    requires n < |evs| && AsksFor(digest, start, evs, n, threshold, p)
    requires evs[n].facts == Some(FileFacts(cfg, data, false, true))
    requires forall line :: line in Lines(data) && Fits(line) ==> Shown(cfg, line)
    ensures exists j :: Serves(AllEvents(cfg, Lines(data)), j, p)
  {
    var es := AllEvents(cfg, Lines(data));
    AskMeans(digest, start, evs, n, threshold, p);
    AnswerMeansHistory(cfg, data);
    FactsMeanHistory(es);
    UngradedWasServed(es, p);
  }

  /** Once a pack is graded by applied feedback, no ask on the grown transcript names it. */
  lemma NeverAskedOnceGraded(digest: Digest, start: set<string>, evs: seq<StopEvent>, n: nat, threshold: int,
                             es: seq<Event>, more: seq<Event>, j: int, p: string)
    requires n < |evs| && evs[n].facts.Some? && evs[n].facts.value.ungraded == FactsOf(es + more).ungraded
    requires FirstServes(es, j, p) && GradedBetween(es, j, |es|, p)
    ensures !AsksFor(digest, start, evs, n, threshold, p)
  {
    AppliedGradeIsFinal(es, more, j, p);
    if AsksFor(digest, start, evs, n, threshold, p) {
      AskMeans(digest, start, evs, n, threshold, p);
      assert false;
    }
  }

  /** Each pack is asked about at most once per session and agent, whatever claims fail. */
  lemma AskedAtMostOnce(digest: Digest, start: set<string>, evs: seq<StopEvent>, i: nat, j: nat, threshold: int,
                        p: string)
    requires i < j < |evs| && StopSubject(evs[i].payload) == StopSubject(evs[j].payload)
    requires AsksFor(digest, start, evs, i, threshold, p)
    ensures !AsksFor(digest, start, evs, j, threshold, p)
  {
    AskMeans(digest, start, evs, i, threshold, p);
    FireMarks(digest, start, evs, i, threshold);
    MarkersGrow(digest, start, evs, i + 1, j, threshold);
    if AsksFor(digest, start, evs, j, threshold, p) {
      AskMeans(digest, start, evs, j, threshold, p);
      assert false;
    }
  }

  // ------------------------------------------------------------------
  // Which packs an ask covers
  // ------------------------------------------------------------------

  predicate ClaimWorks(ev: StopEvent, i: nat)
    requires ev.facts.Some? && i < |ev.facts.value.ungraded|
  {
    !ev.broken(if i == |ev.facts.value.ungraded| - 1 then 0 else 1 + i)
  }

  /**
   The event, if it fires, makes the marker of this ungraded pack. The newest pack is
   claimed first, then the older ones in order; a claim of an older one that fails is
   passed over.
   */
  ghost predicate Claims(ev: StopEvent, threshold: int, subject: (string, string), p: string) {
    JobOf(ev, threshold).Some? && StopSubject(ev.payload) == Some(subject) &&
    exists i :: 0 <= i < |ev.facts.value.ungraded| && ev.facts.value.ungraded[i] == p && ClaimWorks(ev, i)
  }

  /** The keys a job claims are those of the ungraded packs. */
  lemma ClaimsAreKeys(digest: Digest, ev: StopEvent, threshold: int, subject: (string, string), m: string)
    requires JobOf(ev, threshold).Some? && StopSubject(ev.payload) == Some(subject) && !ev.broken(0)
    ensures var job := JobOf(ev, threshold).value;
            (m == Marker(digest, job.key)
             || exists i :: 0 <= i < |job.sweep| && m == Marker(digest, job.sweep[i]) && !ev.broken(1 + i)) <==>
            exists p :: Claims(ev, threshold, subject, p) && m == Marker(digest, GradeKey(subject, p))
  {
    var job, u := JobOf(ev, threshold).value, ev.facts.value.ungraded;
    var last := |u| - 1;
    assert ClaimWorks(ev, last) && Claims(ev, threshold, subject, u[last]);
    assert job.key == GradeKey(subject, u[last]) && |job.sweep| == last;
    forall i | 0 <= i < last
      ensures job.sweep[i] == GradeKey(subject, u[i]) && (!ev.broken(1 + i) ==> Claims(ev, threshold, subject, u[i]))
    {
      assert u[..last][i] == u[i];
      assert ClaimWorks(ev, i) <==> !ev.broken(1 + i);
    }
    if p :| Claims(ev, threshold, subject, p) && m == Marker(digest, GradeKey(subject, p)) {
      var i :| 0 <= i < |u| && u[i] == p && ClaimWorks(ev, i);
      assert i < last ==> job.sweep[i] == GradeKey(subject, p);
    }
  }

  lemma ResultMarks(digest: Digest, before: set<string>, ev: StopEvent, threshold: int, m: string)
    requires JobOf(ev, threshold).Some? && Marker(digest, JobOf(ev, threshold).value.key) !in before && !ev.broken(0)
    ensures var job := JobOf(ev, threshold).value;
            m in StopResult(digest, before, ev, threshold).1 <==>
            m in before || m == Marker(digest, job.key)
            || exists i :: 0 <= i < |job.sweep| && m == Marker(digest, job.sweep[i]) && !ev.broken(1 + i)
  {
    var job := JobOf(ev, threshold).value;
    SweepAdds(digest, ev.broken, 1, before + {Marker(digest, job.key)}, job.sweep, 0, m);
  }

  lemma FireSweeps(digest: Digest, start: set<string>, evs: seq<StopEvent>, n: nat, threshold: int, m: string)
    requires n < |evs| && Fires(digest, start, evs, n, threshold)
    ensures var job := JobOf(evs[n], threshold).value;
            m in MarkersAt(digest, start, evs, n + 1, threshold) <==>
            m in MarkersAt(digest, start, evs, n, threshold)
            || m == Marker(digest, job.key)
            || exists i :: 0 <= i < |job.sweep| && m == Marker(digest, job.sweep[i]) && !evs[n].broken(1 + i)
  {
    ResultMarks(digest, MarkersAt(digest, start, evs, n, threshold), evs[n], threshold, m);
  }

  /** A firing event leaves a marker for every pack it claims, and no other new one. */
  lemma FireClaims(digest: Digest, start: set<string>, evs: seq<StopEvent>, n: nat, threshold: int,
                   subject: (string, string), m: string)
    requires n < |evs| && Fires(digest, start, evs, n, threshold)
    requires StopSubject(evs[n].payload) == Some(subject)
    ensures m in MarkersAt(digest, start, evs, n + 1, threshold) <==>
            m in MarkersAt(digest, start, evs, n, threshold)
            || exists p :: Claims(evs[n], threshold, subject, p) && m == Marker(digest, GradeKey(subject, p))
  {
    FireSweeps(digest, start, evs, n, threshold, m);
    ClaimsAreKeys(digest, evs[n], threshold, subject, m);
  }

  /** No later ask names a pack that was claimed at an ask, whatever fails before, after and beside it. */
  lemma AskCoversTheOlder(digest: Digest, start: set<string>, evs: seq<StopEvent>, i: nat, j: nat, threshold: int,
                          subject: (string, string), p: string, q: string)
    requires i < j < |evs| && StopSubject(evs[j].payload) == Some(subject)
    requires AsksFor(digest, start, evs, i, threshold, p) && Claims(evs[i], threshold, subject, q)
    ensures !AsksFor(digest, start, evs, j, threshold, q)
  {
    AskMeans(digest, start, evs, i, threshold, p);
    FireClaims(digest, start, evs, i, threshold, subject, Marker(digest, GradeKey(subject, q)));
    MarkersGrow(digest, start, evs, i + 1, j, threshold);
    if AsksFor(digest, start, evs, j, threshold, q) {
      AskMeans(digest, start, evs, j, threshold, q);
      assert false;
    }
  }

  // ------------------------------------------------------------------
  // Exactly when an ask is made
  // ------------------------------------------------------------------

  /** Everything but the markers allows an ask about this pack. */
  predicate MayAsk(ev: StopEvent, threshold: int, p: string) {
    && !StopHookActive(ev.payload)
    && ev.facts.Some? && ev.facts.value.toolUses >= threshold
    && ev.facts.value.ungraded != []
    && ev.facts.value.ungraded[|ev.facts.value.ungraded| - 1] == p
    && IsPackId(p)
    && !ev.broken(0)
  }

  /** Pack ids a transcript names hold no NUL. */
  ghost predicate CleanPacks(ev: StopEvent) {
    ev.facts.Some? ==> forall p :: p in ev.facts.value.ungraded ==> '\0' !in p
  }

  ghost predicate CleanRun(digest: Digest, evs: seq<StopEvent>) {
    Injective(digest) && forall i :: 0 <= i < |evs| ==> CleanPacks(evs[i])
  }

  lemma SubjectIsClean(payload: Fields)
    ensures StopSubject(payload).Some? ==> '\0' !in StopSubject(payload).value.1
  {
    if AgentId(payload).Some? {
      SafeIdIsClean(AgentId(payload).value);
    }
  }

  /** A session id may hold a NUL: the parts behind it may not, and keep the keys apart. */
  lemma GradeMarkersAgree(digest: Digest, a: (string, string), p: string, b: (string, string), q: string)
    requires Injective(digest) && '\0' !in a.1 && '\0' !in b.1 && '\0' !in p && '\0' !in q
    ensures Marker(digest, GradeKey(a, p)) == Marker(digest, GradeKey(b, q)) <==> a == b && p == q
  {
    var ka, kb := GradeKey(a, p), GradeKey(b, q);
    SameShapeAgrees(ka, kb);
    MarkersAgreeExactlyWhen(digest, ka, kb);
    if ka == kb {
      assert ka[1] == kb[1] && ka[2] == kb[2] && ka[3] == kb[3];
    }
  }

  /** Some earlier event that fired claimed this pack. */
  ghost predicate ClaimedBefore(digest: Digest, start: set<string>, evs: seq<StopEvent>, n: nat, threshold: int,
                                subject: (string, string), p: string)
    requires n <= |evs|
  {
    exists k :: 0 <= k < n && Fires(digest, start, evs, k, threshold) && Claims(evs[k], threshold, subject, p)
  }

  /** One event's part in the next lemma. */
  lemma FireMarksPack(digest: Digest, start: set<string>, evs: seq<StopEvent>, k: nat, threshold: int,
                      subject: (string, string), p: string)
    requires k < |evs| && CleanRun(digest, evs) && '\0' !in subject.1 && '\0' !in p
    ensures var m := Marker(digest, GradeKey(subject, p));
            m in MarkersAt(digest, start, evs, k + 1, threshold) <==>
            m in MarkersAt(digest, start, evs, k, threshold)
            || (Fires(digest, start, evs, k, threshold) && Claims(evs[k], threshold, subject, p))
  {
    if Fires(digest, start, evs, k, threshold) {
      var s, m := StopSubject(evs[k].payload).value, Marker(digest, GradeKey(subject, p));
      FireClaims(digest, start, evs, k, threshold, s, m);
      SubjectIsClean(evs[k].payload);
      forall q | Claims(evs[k], threshold, s, q) && m == Marker(digest, GradeKey(s, q)) ensures s == subject && q == p {
        GradeMarkersAgree(digest, s, q, subject, p);
      }
    } else {
      ReplyNeedsFire(digest, start, evs, k, threshold);
    }
  }

  /** The markers are those of the start and those of the packs claimed so far, whatever claims fail. */
  lemma {:induction false} MarkersAreClaims(digest: Digest, start: set<string>, evs: seq<StopEvent>, n: nat,
                                            threshold: int, subject: (string, string), p: string)
    requires n <= |evs| && CleanRun(digest, evs) && '\0' !in subject.1 && '\0' !in p
    ensures Marker(digest, GradeKey(subject, p)) in MarkersAt(digest, start, evs, n, threshold)
       <==> Marker(digest, GradeKey(subject, p)) in start || ClaimedBefore(digest, start, evs, n, threshold, subject, p)
  {
    if n > 0 {
      MarkersAreClaims(digest, start, evs, n - 1, threshold, subject, p);
      FireMarksPack(digest, start, evs, n - 1, threshold, subject, p);
    }
  }

  /** The marker decides an event that may ask. */
  lemma MarkerDecides(digest: Digest, start: set<string>, evs: seq<StopEvent>, n: nat, threshold: int,
                      subject: (string, string), p: string)
    requires n < |evs| && StopSubject(evs[n].payload) == Some(subject)
    ensures AsksFor(digest, start, evs, n, threshold, p) <==>
            MayAsk(evs[n], threshold, p) &&
            Marker(digest, GradeKey(subject, p)) !in MarkersAt(digest, start, evs, n, threshold)
  {
    ReplyNeedsFire(digest, start, evs, n, threshold);
  }

  /**
   A stop event asks for a grade of a pack exactly when everything else allows it, no
   marker for it was there at the start, and no earlier event that fired for the same
   session and agent claimed it, whatever claims failed on the way.
   */
  lemma AskedExactlyWhen(digest: Digest, start: set<string>, evs: seq<StopEvent>, n: nat, threshold: int,
                         subject: (string, string), p: string)
    requires n < |evs| && CleanRun(digest, evs) && StopSubject(evs[n].payload) == Some(subject)
    ensures AsksFor(digest, start, evs, n, threshold, p) <==>
            && MayAsk(evs[n], threshold, p)
            && Marker(digest, GradeKey(subject, p)) !in start
            && !ClaimedBefore(digest, start, evs, n, threshold, subject, p)
  {
    MarkerDecides(digest, start, evs, n, threshold, subject, p);
    if MayAsk(evs[n], threshold, p) {
      SubjectIsClean(evs[n].payload);
      MarkersAreClaims(digest, start, evs, n, threshold, subject, p);
    }
  }

  lemma {:induction false} NoFireNoMarkers(digest: Digest, start: set<string>, evs: seq<StopEvent>, i: nat, j: nat,
                                           threshold: int)
    requires i <= j <= |evs| && forall k :: i <= k < j ==> !Fires(digest, start, evs, k, threshold)
    ensures MarkersAt(digest, start, evs, i, threshold) == MarkersAt(digest, start, evs, j, threshold)
    decreases j - i
  {
    if i < j {
      NoFireNoMarkers(digest, start, evs, i, j - 1, threshold);
      ReplyNeedsFire(digest, start, evs, j - 1, threshold);
    }
  }

  /**
   A pack that was ungraded at an ask, and never claimed before it, is asked about at
   the next event that may ask for it exactly when its claim failed at that ask.
   */
  lemma AskedAgainExactlyWhen(digest: Digest, start: set<string>, evs: seq<StopEvent>, i: nat, j: nat, threshold: int,
                              subject: (string, string), p: string, q: string)
    requires i < j < |evs| && CleanRun(digest, evs) && StopSubject(evs[j].payload) == Some(subject)
    requires AsksFor(digest, start, evs, i, threshold, p) &&
             Marker(digest, GradeKey(subject, q)) !in MarkersAt(digest, start, evs, i, threshold)
    requires forall k :: i < k < j ==> !Fires(digest, start, evs, k, threshold)
    requires MayAsk(evs[j], threshold, q)
    ensures AsksFor(digest, start, evs, j, threshold, q) <==> !Claims(evs[i], threshold, subject, q)
  {
    AskMeans(digest, start, evs, i, threshold, p);
    SubjectIsClean(evs[j].payload);
    assert q in evs[j].facts.value.ungraded;
    FireMarksPack(digest, start, evs, i, threshold, subject, q);
    NoFireNoMarkers(digest, start, evs, i + 1, j, threshold);
    MarkerDecides(digest, start, evs, j, threshold, subject, q);
  }

  // ------------------------------------------------------------------
  // A claim that fails
  // ------------------------------------------------------------------

  const MAIN_STOP: Fields := map["session_id" := Str("s"), "hook_event_name" := Str("Stop")]

  /** `n` calls that matter for nothing but their number. */
  function Work(n: nat): seq<Event> {
    if n == 0 then [] else Work(n - 1) + [Use(seq(n + 1, i => 'w'), OtherCall)]
  }

  /** A call and its reply. */
  function Exchange(id: string, kind: CallKind, packId: Option<string>): seq<Event> {
    [Use(id, kind), Reply(id, false, packId)]
  }

  /** Two packs served one after the other. */
  function TwoServed(q: string, p: string): seq<Event> {
    Exchange("1", PackCall, Some(q)) + Exchange("2", PackCall, Some(p))
  }

  /** The later one graded. */
  function OneGraded(p: string): seq<Event> {
    Exchange("3", FeedbackCall(Some(p), true), None)
  }

  /** A state in which `n` calls were made and nothing else happened. */
  ghost predicate Worked(s: ScanState, n: nat) {
    && s.facts == NO_FACTS.(toolUses := n) && s.pending == [] && s.served == {}
    && forall id :: id in s.seen ==> 2 <= |id| <= n + 1
  }

  lemma {:induction false} WorkWorks(n: nat)
    ensures Worked(Fold(START, Work(n)), n)
  {
    if n > 0 {
      WorkWorks(n - 1);
      var last := Use(seq(n + 1, i => 'w'), OtherCall);
      FoldAppend(START, Work(n - 1), [last]);
      assert [last][1..] == [];
    }
  }

  lemma FoldPair(s: ScanState, a: Event, b: Event)
    ensures Fold(s, [a, b]) == Step(Step(s, a), b)
  {
    assert [a, b][1..] == [b] && [b][1..] == [];
    assert Fold(Step(s, a), [b]) == Step(Step(s, a), b);
  }

  lemma ServeOne(s: ScanState, id: string, p: string)
    requires id !in s.seen && s.pending == [] && p !in s.served
    ensures var t := Fold(s, Exchange(id, PackCall, Some(p)));
            && t.pending == [] && t.served == s.served + {p} && t.seen == s.seen + {id}
            && t.facts == s.facts.(toolUses := s.facts.toolUses + 1, retrievalCalled := true,
                                   ungraded := s.facts.ungraded + [p])
  {
    var u := Step(s, Use(id, PackCall));
    assert u.pending == [Call(id, PackCall)] && u.pending[..0] + u.pending[1..] == [];
    FoldPair(s, Use(id, PackCall), Reply(id, false, Some(p)));
  }

  lemma GradeOne(s: ScanState, id: string, q: string, p: string)
    requires id !in s.seen && s.pending == [] && s.facts.ungraded == [q, p] && p != q
    ensures var t := Fold(s, Exchange(id, FeedbackCall(Some(p), true), None));
            t.pending == [] && t.facts == s.facts.(toolUses := s.facts.toolUses + 1, ungraded := [q])
  {
    var u := Step(s, Use(id, FeedbackCall(Some(p), true)));
    assert u.pending == [Call(id, FeedbackCall(Some(p), true))] && u.pending[..0] + u.pending[1..] == [];
    assert [q, p][1..] == [p] && [p][1..] == [] && [q] + [] == [q];
    assert RemoveFirst([p], p) == [];
    assert RemoveFirst([q, p], p) == [q];
    FoldPair(s, Use(id, FeedbackCall(Some(p), true)), Reply(id, false, None));
  }

  lemma ServeTwo(s: ScanState, n: nat, q: string, p: string)
    requires Worked(s, n) && p != q
    ensures var t := Fold(s, TwoServed(q, p));
            t.pending == [] && t.facts == Facts(n + 2, true, false, [q, p], 0) && "3" !in t.seen
  {
    var first, second := Exchange("1", PackCall, Some(q)), Exchange("2", PackCall, Some(p));
    FoldAppend(s, first, second);
    ServeOne(s, "1", q);
    ServeOne(Fold(s, first), "2", p);
    assert [q] + [p] == [q, p];
  }

  lemma FactsOfFold(es: seq<Event>)
    requires Fold(START, es).pending == []
    ensures FactsOf(es) == Fold(START, es).facts
  {
    FoldIsRun(es, |es|);
    assert es[..|es|] == es;
  }

  /** The facts of a transcript and of its extension, when nothing is in flight. */
  lemma FactsInSteps(a: seq<Event>, b: seq<Event>, c: seq<Event>)
    requires Fold(Fold(START, a), b).pending == [] && Fold(Fold(Fold(START, a), b), c).pending == []
    ensures FactsOf(a + b) == Fold(Fold(START, a), b).facts
    ensures FactsOf(a + b + c) == Fold(Fold(Fold(START, a), b), c).facts
  {
    FoldAppend(START, a, b);
    FoldAppend(START, a + b, c);
    FactsOfFold(a + b);
    FactsOfFold(a + b + c);
  }

  /** What such a transcript says, and what it says once it has grown. */
  lemma FactsOfServed(n: nat, q: string, p: string)
    requires p != q
    ensures var es := Work(n) + TwoServed(q, p);
            FactsOf(es) == Facts(n + 2, true, false, [q, p], 0) &&
            FactsOf(es + OneGraded(p)) == Facts(n + 3, true, false, [q], 0)
  {
    var s := Fold(START, Work(n));
    WorkWorks(n);
    ServeTwo(s, n, q, p);
    var t := Fold(s, TwoServed(q, p));
    GradeOne(t, "3", q, p);
    FactsInSteps(Work(n), TwoServed(q, p), OneGraded(p));
  }

  /** The first stop marks the later pack alone. */
  lemma OnlyTheNewest(digest: Digest, threshold: int, ev: StopEvent, p: string, q: string)
    requires ev.payload == MAIN_STOP && ev.facts.Some? && ev.facts.value.toolUses >= threshold &&
             ev.facts.value.ungraded == [q, p]
    requires !ev.broken(0) && ev.broken(1)
    ensures StopResult(digest, {}, ev, threshold).1 == {Marker(digest, GradeKey(("s", ""), p))}
  {
    assert [q, p][..1] == [q];
    var sweep, mp := OlderKeys(("s", ""), [q]), Marker(digest, GradeKey(("s", ""), p));
    assert JobOf(ev, threshold).value.key == GradeKey(("s", ""), p) && JobOf(ev, threshold).value.sweep == sweep;
    assert SweepAlone(digest, ev.broken, 1, {} + {mp}, sweep, 0)
        == SweepAlone(digest, ev.broken, 2, {mp}, sweep, 1) == {mp};
  }

  /**
   One ask does not always cover every ungraded pack: in a transcript that serves two
   of them, the ask names the later one, its claim of the earlier one fails, and once
   the later one is graded the next stop asks about the earlier one.
   */
  lemma AFailedSweepAsksAgain(digest: Digest, threshold: nat, p: string, q: string)
    requires IsPackId(p) && IsPackId(q)
    requires Marker(digest, GradeKey(("s", ""), p)) != Marker(digest, GradeKey(("s", ""), q))
    ensures var es := Work(threshold) + TwoServed(q, p);
            var a := StopEvent(MAIN_STOP, Some(FactsOf(es)), k => k == 1);
            var b := StopEvent(MAIN_STOP, Some(FactsOf(es + OneGraded(p))), k => false);
            AsksFor(digest, {}, [a, b], 0, threshold, p) && AsksFor(digest, {}, [a, b], 1, threshold, q)
  {
    var es, subject := Work(threshold) + TwoServed(q, p), ("s", "");
    FactsOfServed(threshold, q, p);
    var a := StopEvent(MAIN_STOP, Some(FactsOf(es)), k => k == 1);
    var b := StopEvent(MAIN_STOP, Some(FactsOf(es + OneGraded(p))), k => false);
    assert StopSubject(MAIN_STOP) == Some(subject) && !StopHookActive(MAIN_STOP);
    OnlyTheNewest(digest, threshold, a, p, q);
    assert MarkersAt(digest, {}, [a, b], 1, threshold) == {Marker(digest, GradeKey(subject, p))};
    MarkerDecides(digest, {}, [a, b], 0, threshold, subject, p);
    MarkerDecides(digest, {}, [a, b], 1, threshold, subject, q);
  }
}
