/**
 The one-time markers of the hook engine, and every interleaving of the hook
 processes that race on them. A claim is one atomic exclusive create: `open` with
 O_CREAT and O_EXCL, in the System Interfaces volume of POSIX.1-2017. The digest in
 a marker's name is arbitrary; only what needs distinct markers assumes more of it.
 */
module HookMarkers {
  import opened Common

  type Key = seq<string>
  type Digest = string -> string

  const NUL: string := ['\0']

  function Join(key: Key): string {
    if key == [] then "" else if |key| == 1 then key[0] else key[0] + NUL + Join(key[1..])
  }

  /** The marker's file name: the hook, then the digest of the whole key. */
  function Marker(digest: Digest, key: Key): string
    requires key != []
  {
    key[0] + "-" + digest(Join(key))
  }

  ghost predicate NulFree(key: Key) {
    forall i :: 0 <= i < |key| ==> '\0' !in key[i]
  }

  /** A prefix without NUL, up to a NUL or the end, is determined by the whole. */
  lemma {:induction false} CutAtNul(a: string, b: string, x: string, y: string)
    requires '\0' !in a && '\0' !in b
    requires x == "" || x[0] == '\0'
    requires y == "" || y[0] == '\0'
    requires a + x == b + y
    ensures a == b && x == y
  {
    assert a != "" ==> (a + x)[0] == a[0] && a[0] in a;
    assert b != "" ==> (b + y)[0] == b[0] && b[0] in b;
    if a == "" && b == "" {
      assert a + x == x && b + y == y;
    } else if a != "" && b != "" {
      assert (a + x)[1..] == a[1..] + x && (b + y)[1..] == b[1..] + y;
      CutAtNul(a[1..], b[1..], x, y);
    }
  }

  /** Keys without NUL are told apart by the joined text. */
  lemma {:induction false} JoinInjective(a: Key, b: Key)
    requires a != [] && b != [] && NulFree(a) && NulFree(b)
    ensures Join(a) == Join(b) <==> a == b
  {
    if Join(a) == Join(b) {
      var x := if |a| == 1 then "" else NUL + Join(a[1..]);
      var y := if |b| == 1 then "" else NUL + Join(b[1..]);
      assert Join(a) == a[0] + x && Join(b) == b[0] + y;
      CutAtNul(a[0], b[0], x, y);
      if |a| == 1 {
        assert a == [a[0]] == b;
      } else {
        assert x[1..] == Join(a[1..]) && y[1..] == Join(b[1..]);
        JoinInjective(a[1..], b[1..]);
        assert a == [a[0]] + a[1..] && b == [b[0]] + b[1..];
      }
    }
  }

  /** The parts a text has when it is cut at each NUL. */
  function SplitNul(s: string): (parts: seq<string>)
    ensures parts != [] && NulFree(parts)
  {
    if s == "" then [""]
    else
      var rest := SplitNul(s[1..]);
      if s[0] == '\0' then [""] + rest else [[s[0]] + rest[0]] + rest[1..]
  }

  /** The parts of a key, cut at each NUL inside one as well. */
  function Pieces(key: Key): (parts: Key)
    ensures NulFree(parts) && (key != [] ==> parts != [])
  {
    if key == [] then [] else SplitNul(key[0]) + Pieces(key[1..])
  }

  lemma {:induction false} JoinSplit(s: string)
    ensures Join(SplitNul(s)) == s
  {
    if s != "" {
      var rest := SplitNul(s[1..]);
      JoinSplit(s[1..]);
      if s[0] == '\0' {
        assert ([""] + rest)[1..] == rest;
        assert "" + NUL + Join(rest) == s;
      } else {
        var parts := [[s[0]] + rest[0]] + rest[1..];
        assert parts[1..] == rest[1..];
        if |rest| > 1 {
          assert [s[0]] + rest[0] + NUL + Join(rest[1..]) == [s[0]] + (rest[0] + NUL + Join(rest[1..]));
        }
      }
    }
  }

  lemma {:induction false} JoinAppend(a: Key, b: Key)
    requires a != [] && b != []
    ensures Join(a + b) == Join(a) + NUL + Join(b)
  {
    assert (a + b)[0] == a[0] && (a + b)[1..] == a[1..] + b;
    if |a| == 1 {
      assert a[1..] + b == b;
    } else {
      JoinAppend(a[1..], b);
      assert a[0] + NUL + (Join(a[1..]) + NUL + Join(b)) == a[0] + NUL + Join(a[1..]) + NUL + Join(b);
    }
  }

  lemma {:induction false} JoinPieces(key: Key)
    requires key != []
    ensures Join(Pieces(key)) == Join(key)
  {
    JoinSplit(key[0]);
    if |key| == 1 {
      assert key[1..] == [] && SplitNul(key[0]) + [] == SplitNul(key[0]);
    } else {
      JoinPieces(key[1..]);
      JoinAppend(SplitNul(key[0]), Pieces(key[1..]));
    }
  }

  /** Two keys have the same joined text exactly when they have the same parts. */
  lemma JoinsAgreeExactlyWhen(a: Key, b: Key)
    requires a != [] && b != []
    ensures Join(a) == Join(b) <==> Pieces(a) == Pieces(b)
  {
    JoinPieces(a);
    JoinPieces(b);
    JoinInjective(Pieces(a), Pieces(b));
  }

  /** Different joined keys have different digests. */
  ghost predicate Injective(digest: Digest) {
    forall x, y :: digest(x) == digest(y) ==> x == y
  }

  /** With such a digest, two keys of one hook share a marker exactly when they have the same parts. */
  lemma MarkersAgreeExactlyWhen(digest: Digest, a: Key, b: Key)
    requires Injective(digest) && a != [] && b != [] && a[0] == b[0]
    ensures Marker(digest, a) == Marker(digest, b) <==> Pieces(a) == Pieces(b)
    ensures Marker(digest, a) == Marker(digest, b) <==> Join(a) == Join(b)
  {
    JoinsAgreeExactlyWhen(a, b);
    if Marker(digest, a) == Marker(digest, b) {
      var head := a[0] + "-";
      assert Marker(digest, a) == head + digest(Join(a)) && Marker(digest, b) == head + digest(Join(b));
      assert digest(Join(a)) == Marker(digest, a)[|head|..] == Marker(digest, b)[|head|..] == digest(Join(b));
    }
  }

  lemma {:induction false} CleanText(s: string)
    requires '\0' !in s
    ensures SplitNul(s) == [s]
  {
    if s != "" {
      CleanText(s[1..]);
      assert s == [s[0]] + s[1..];
    }
  }

  /** Clean parts of a key stay whole. */
  lemma {:induction false} CleanTail(key: Key)
    requires NulFree(key)
    ensures Pieces(key) == key
  {
    if key != [] {
      CleanText(key[0]);
      CleanTail(key[1..]);
      assert key == [key[0]] + key[1..];
    }
  }

  lemma PiecesAround(hook: string, s: string, tail: Key)
    requires NulFree([hook]) && NulFree(tail)
    ensures Pieces([hook, s] + tail) == [hook] + SplitNul(s) + tail
  {
    var key := [hook, s] + tail;
    assert hook == [hook][0] && '\0' !in hook;
    CleanText(hook);
    CleanTail(tail);
    assert key[1..][1..] == tail && key[0] == hook && key[1..][0] == s;
    assert [hook] + (SplitNul(s) + tail) == [hook] + SplitNul(s) + tail;
  }

  /** Keys with one part that may hold a NUL, in the same place, agree only if they are equal. */
  lemma OneUncleanPart(hook: string, s: string, tail: Key, s': string, tail': Key)
    requires NulFree([hook]) && NulFree(tail) && NulFree(tail') && |tail| == |tail'|
    ensures Pieces([hook, s] + tail) == Pieces([hook, s'] + tail') <==> s == s' && tail == tail'
  {
    PiecesAround(hook, s, tail);
    PiecesAround(hook, s', tail');
    if Pieces([hook, s] + tail) == Pieces([hook, s'] + tail') {
      var x, y := [hook] + SplitNul(s), [hook] + SplitNul(s');
      assert x + tail == y + tail';
      assert |x| == |y|;
      assert x == (x + tail)[..|x|] == (y + tail')[..|y|] == y;
      assert tail == (x + tail)[|x|..] == (y + tail')[|y|..] == tail';
      assert SplitNul(s) == x[1..] == y[1..] == SplitNul(s');
      JoinSplit(s);
      JoinSplit(s');
    }
  }

  /** The state directory. `broken(k)` says whether the k-th attempt to create a marker fails. */
  class HookState {
    const digest: Digest
    const broken: nat -> bool
    var markers: set<string>
    var attempts: nat

    constructor (digest: Digest, broken: nat -> bool)
      ensures markers == {} && attempts == 0 && this.digest == digest && this.broken == broken
    {
      this.digest, this.broken := digest, broken;
      markers, attempts := {}, 0;
    }

    predicate Seen(key: Key)
      requires key != []
      reads this
    {
      Marker(digest, key) in markers
    }

    /** Creates the marker; false when it was there or cannot be created. */
    method Claim(key: Key) returns (won: bool)
      requires key != []
      modifies this
      ensures won <==> !broken(old(attempts)) && Marker(digest, key) !in old(markers)
      ensures markers == if won then old(markers) + {Marker(digest, key)} else old(markers)
      ensures attempts == old(attempts) + 1
    {
      won := !broken(attempts) && Marker(digest, key) !in markers;
      attempts := attempts + 1;
      if won {
        markers := markers + {Marker(digest, key)};
      }
    }
  }

  // ------------------------------------------------------------------
  // Interleaved processes
  // ------------------------------------------------------------------

  datatype Reply =
    | Nudge(event: string)
    | Deny
    | Ask(packId: string, askTrace: bool)

  /** What one hook process is about to do: look, perhaps scan, claim, sweep up older keys, speak. */
  datatype Job = Job(key: Key, scans: bool, sweep: seq<Key>, says: Option<Reply>)

  predicate WellKeyed(job: Job) {
    job.key != [] && forall i :: 0 <= i < |job.sweep| ==> job.sweep[i] != []
  }

  datatype Outcome = AlreadySaid | NothingToDo | ClaimFailed | Beaten | Won

  datatype Phase = Arrived | Cleared | Ready | Sweeping(swept: nat) | Ended(outcome: Outcome)

  datatype Proc = Proc(job: Job, phase: Phase)

  datatype System = System(markers: set<string>, procs: seq<Proc>)

  /** No process has arrived yet. */
  function Idle(start: set<string>): System {
    System(start, [])
  }

  /** One atomic step of one process. Any schedule of steps is a run; a step that is not enabled does nothing. */
  datatype Action =
    | Arrive(job: Job)
    | Look(p: nat)
    | Scan(p: nat, go: bool)
    | Claim(p: nat, fails: bool)
    | Sweep(p: nat, fails: bool)

  function Move(sys: System, p: nat, phase: Phase): System
    requires p < |sys.procs|
  {
    sys.(procs := sys.procs[p := sys.procs[p].(phase := phase)])
  }

  function Act(digest: Digest, sys: System, a: Action): System {
    if a.Arrive? then
      if WellKeyed(a.job) then sys.(procs := sys.procs + [Proc(a.job, Arrived)]) else sys
    else if a.p >= |sys.procs| || !WellKeyed(sys.procs[a.p].job) then sys
    else
      var job, phase := sys.procs[a.p].job, sys.procs[a.p].phase;
      var marker := Marker(digest, job.key);
      match a
      case Look(p) =>
        if !phase.Arrived? then sys
        else Move(sys, p, if marker in sys.markers then Ended(AlreadySaid) else Cleared)
      case Scan(p, go) =>
        if !phase.Cleared? then sys
        else Move(sys, p, if job.scans && !go then Ended(NothingToDo) else Ready)
      case Claim(p, fails) =>
        if !phase.Ready? then sys
        else if fails then Move(sys, p, Ended(ClaimFailed))
        else if marker in sys.markers then Move(sys, p, Ended(Beaten))
        else Move(sys, p, Sweeping(0)).(markers := sys.markers + {marker})
      case Sweep(p, fails) =>
        if !phase.Sweeping? then sys
        else if phase.swept >= |job.sweep| then Move(sys, p, Ended(Won))
        else
          Move(sys, p, Sweeping(phase.swept + 1))
          .(markers := if fails then sys.markers else sys.markers + {Marker(digest, job.sweep[phase.swept])})
  }

  function Exec(digest: Digest, sys: System, actions: seq<Action>): System
    decreases |actions|
  {
    if actions == [] then sys else Exec(digest, Act(digest, sys, actions[0]), actions[1..])
  }

  predicate HasWon(proc: Proc) {
    proc.phase.Sweeping? || proc.phase == Ended(Won)
  }

  predicate Spoke(proc: Proc) {
    proc.phase == Ended(Won) && proc.job.says.Some?
  }

  /** Some winner created the marker, for itself or on its sweep. */
  ghost predicate CreatedBy(digest: Digest, proc: Proc, marker: string) {
    HasWon(proc) && WellKeyed(proc.job) &&
    (marker == Marker(digest, proc.job.key)
     || exists i :: 0 <= i < |proc.job.sweep| && marker == Marker(digest, proc.job.sweep[i]))
  }

  ghost predicate Explained(digest: Digest, sys: System, marker: string) {
    exists i :: 0 <= i < |sys.procs| && CreatedBy(digest, sys.procs[i], marker)
  }

  ghost predicate AllWellKeyed(sys: System) {
    forall i :: 0 <= i < |sys.procs| ==> WellKeyed(sys.procs[i].job)
  }

  ghost predicate WinnersMarked(digest: Digest, sys: System)
    requires AllWellKeyed(sys)
  {
    forall i :: 0 <= i < |sys.procs| && HasWon(sys.procs[i]) ==> Marker(digest, sys.procs[i].job.key) in sys.markers
  }

  ghost predicate WinnersDiffer(digest: Digest, sys: System)
    requires AllWellKeyed(sys)
  {
    forall i, j :: 0 <= i < j < |sys.procs| && HasWon(sys.procs[i]) && HasWon(sys.procs[j]) ==>
      Marker(digest, sys.procs[i].job.key) != Marker(digest, sys.procs[j].job.key)
  }

  predicate LostToMarker(proc: Proc) {
    proc.phase == Ended(AlreadySaid) || proc.phase == Ended(Beaten)
  }

  ghost predicate LosersMarked(digest: Digest, sys: System)
    requires AllWellKeyed(sys)
  {
    forall i :: 0 <= i < |sys.procs| && LostToMarker(sys.procs[i]) ==>
      Marker(digest, sys.procs[i].job.key) in sys.markers
  }

  /** `start` holds the markers left by earlier processes. */
  ghost predicate Inv(digest: Digest, start: set<string>, sys: System) {
    && AllWellKeyed(sys) && WinnersMarked(digest, sys) && WinnersDiffer(digest, sys) && LosersMarked(digest, sys)
    && forall m :: m in sys.markers && m !in start ==> Explained(digest, sys, m)
  }

  /** A marker stays explained while winners stay winners. */
  lemma ExplainedCarries(digest: Digest, sys: System, next: System, m: string)
    requires Explained(digest, sys, m) && |sys.procs| <= |next.procs|
    requires forall i :: 0 <= i < |sys.procs| && HasWon(sys.procs[i]) ==>
             next.procs[i].job == sys.procs[i].job && HasWon(next.procs[i])
    ensures Explained(digest, next, m)
  {
    var i :| 0 <= i < |sys.procs| && CreatedBy(digest, sys.procs[i], m);
    assert CreatedBy(digest, next.procs[i], m);
  }

  lemma WinnersStay(digest: Digest, sys: System, a: Action)
    ensures var next := Act(digest, sys, a);
            && |sys.procs| <= |next.procs| && sys.markers <= next.markers
            && (forall i :: 0 <= i < |sys.procs| ==> next.procs[i].job == sys.procs[i].job)
            && (forall i :: 0 <= i < |sys.procs| && HasWon(sys.procs[i]) ==> HasWon(next.procs[i]))
            && (forall i :: 0 <= i < |sys.procs| && sys.procs[i].phase.Ended? ==> next.procs[i] == sys.procs[i])
  {
  }

  lemma NewMarkerExplained(digest: Digest, sys: System, a: Action, m: string)
    requires AllWellKeyed(sys)
    requires m in Act(digest, sys, a).markers && m !in sys.markers
    ensures Explained(digest, Act(digest, sys, a), m)
  {
    var next := Act(digest, sys, a);
    assert (a.Claim? || a.Sweep?) && a.p < |sys.procs|;
    var proc := sys.procs[a.p];
    assert next.procs[a.p].job == proc.job && HasWon(next.procs[a.p]);
    if a.Sweep? {
      assert m == Marker(digest, proc.job.sweep[proc.phase.swept]);
    }
    assert CreatedBy(digest, next.procs[a.p], m);
  }

  /** A process becomes a winner only by creating the marker of its key. */
  lemma WinnersAreNew(digest: Digest, sys: System, a: Action, i: nat)
    requires AllWellKeyed(sys) && i < |Act(digest, sys, a).procs| && HasWon(Act(digest, sys, a).procs[i])
    ensures i < |sys.procs| && WellKeyed(sys.procs[i].job)
    ensures Act(digest, sys, a).procs[i].job == sys.procs[i].job
    ensures HasWon(sys.procs[i]) || (a == Claim(i, false)
              && Marker(digest, sys.procs[i].job.key) !in sys.markers
              && Marker(digest, sys.procs[i].job.key) in Act(digest, sys, a).markers)
  {
  }

  lemma LosersAreNew(digest: Digest, sys: System, a: Action, i: nat)
    requires AllWellKeyed(sys) && i < |Act(digest, sys, a).procs| && LostToMarker(Act(digest, sys, a).procs[i])
    ensures i < |sys.procs| && WellKeyed(sys.procs[i].job)
    ensures Act(digest, sys, a).procs[i].job == sys.procs[i].job
    ensures LostToMarker(sys.procs[i]) || Marker(digest, sys.procs[i].job.key) in sys.markers
  {
  }

  lemma StepKeepsExplained(digest: Digest, start: set<string>, sys: System, a: Action)
    requires Inv(digest, start, sys)
    ensures forall m :: m in Act(digest, sys, a).markers && m !in start ==> Explained(digest, Act(digest, sys, a), m)
  {
    var next := Act(digest, sys, a);
    WinnersStay(digest, sys, a);
    forall m | m in next.markers && m !in start ensures Explained(digest, next, m) {
      if m in sys.markers {
        ExplainedCarries(digest, sys, next, m);
      } else {
        NewMarkerExplained(digest, sys, a, m);
      }
    }
  }

  lemma StepKeepsLosers(digest: Digest, start: set<string>, sys: System, a: Action)
    requires Inv(digest, start, sys) && AllWellKeyed(Act(digest, sys, a))
    ensures LosersMarked(digest, Act(digest, sys, a))
  {
    var next := Act(digest, sys, a);
    WinnersStay(digest, sys, a);
    forall i | 0 <= i < |next.procs| && LostToMarker(next.procs[i])
      ensures Marker(digest, next.procs[i].job.key) in next.markers
    {
      LosersAreNew(digest, sys, a, i);
    }
  }

  lemma StepKeepsKeys(digest: Digest, sys: System, a: Action)
    requires AllWellKeyed(sys)
    ensures AllWellKeyed(Act(digest, sys, a))
  {
  }

  lemma StepKeepsWinners(digest: Digest, start: set<string>, sys: System, a: Action)
    requires Inv(digest, start, sys) && AllWellKeyed(Act(digest, sys, a))
    ensures WinnersMarked(digest, Act(digest, sys, a)) && WinnersDiffer(digest, Act(digest, sys, a))
  {
    var next := Act(digest, sys, a);
    WinnersStay(digest, sys, a);
    forall i | 0 <= i < |next.procs| && HasWon(next.procs[i])
      ensures Marker(digest, next.procs[i].job.key) in next.markers
    {
      WinnersAreNew(digest, sys, a, i);
    }
    forall i, j | 0 <= i < j < |next.procs| && HasWon(next.procs[i]) && HasWon(next.procs[j])
      ensures Marker(digest, next.procs[i].job.key) != Marker(digest, next.procs[j].job.key)
    {
      WinnersAreNew(digest, sys, a, i);
      WinnersAreNew(digest, sys, a, j);
    }
  }

  lemma StepKeepsInv(digest: Digest, start: set<string>, sys: System, a: Action)
    requires Inv(digest, start, sys)
    ensures Inv(digest, start, Act(digest, sys, a))
  {
    StepKeepsKeys(digest, sys, a);
    StepKeepsExplained(digest, start, sys, a);
    StepKeepsWinners(digest, start, sys, a);
    StepKeepsLosers(digest, start, sys, a);
  }

  lemma {:induction false} RunKeepsInv(digest: Digest, start: set<string>, sys: System, actions: seq<Action>)
    requires Inv(digest, start, sys)
    ensures Inv(digest, start, Exec(digest, sys, actions))
    decreases |actions|
  {
    if actions != [] {
      StepKeepsInv(digest, start, sys, actions[0]);
      RunKeepsInv(digest, start, Act(digest, sys, actions[0]), actions[1..]);
    }
  }

  lemma {:induction false} RunKeepsWinners(digest: Digest, sys: System, actions: seq<Action>)
    ensures var next := Exec(digest, sys, actions);
            && |sys.procs| <= |next.procs| && sys.markers <= next.markers
            && (forall i :: 0 <= i < |sys.procs| ==> next.procs[i].job == sys.procs[i].job)
            && (forall i :: 0 <= i < |sys.procs| && sys.procs[i].phase.Ended? ==> next.procs[i] == sys.procs[i])
    decreases |actions|
  {
    if actions != [] {
      WinnersStay(digest, sys, actions[0]);
      RunKeepsWinners(digest, Act(digest, sys, actions[0]), actions[1..]);
    }
  }

  /**
   In every interleaving, from any directory and with any claims failing, no two
   processes speak on the same key, whatever the digest does to other keys.
   */
  lemma SpokenOncePerKey(digest: Digest, start: set<string>, actions: seq<Action>, i: nat, j: nat)
    requires var sys := Exec(digest, Idle(start), actions);
             i < j < |sys.procs| && Spoke(sys.procs[i]) && Spoke(sys.procs[j])
    ensures var sys := Exec(digest, Idle(start), actions); sys.procs[i].job.key != sys.procs[j].job.key
  {
    RunKeepsInv(digest, start, Idle(start), actions);
  }

  /**
   Silence because of a marker always means that it was there at the start, or that some
   process won it or swept it up.
   */
  lemma SilenceHasAWinner(digest: Digest, start: set<string>, actions: seq<Action>, q: nat)
    requires var sys := Exec(digest, Idle(start), actions);
             q < |sys.procs| && LostToMarker(sys.procs[q])
    ensures var sys := Exec(digest, Idle(start), actions);
            && WellKeyed(sys.procs[q].job) && Marker(digest, sys.procs[q].job.key) in sys.markers
            && (Marker(digest, sys.procs[q].job.key) in start
                || Explained(digest, sys, Marker(digest, sys.procs[q].job.key)))
  {
    RunKeepsInv(digest, start, Idle(start), actions);
  }

  /** Processes that arrived after a marker exists: not begun, or already told it was said. */
  ghost predicate LateOnesQuiet(digest: Digest, from: nat, marker: string, sys: System) {
    marker in sys.markers &&
    forall q :: from <= q < |sys.procs| && sys.procs[q].job.key != []
                && Marker(digest, sys.procs[q].job.key) == marker ==>
      sys.procs[q].phase == Arrived || sys.procs[q].phase == Ended(AlreadySaid)
  }

  lemma {:induction false} LateOnesStayQuiet(digest: Digest, from: nat, marker: string, sys: System,
                                             actions: seq<Action>)
    requires LateOnesQuiet(digest, from, marker, sys)
    ensures LateOnesQuiet(digest, from, marker, Exec(digest, sys, actions))
    decreases |actions|
  {
    if actions != [] {
      WinnersStay(digest, sys, actions[0]);
      LateOnesStayQuiet(digest, from, marker, Act(digest, sys, actions[0]), actions[1..]);
    }
  }

  lemma LateOnesPass(digest: Digest, mid: System, after: seq<Action>, marker: string, q: nat)
    requires marker in mid.markers && |mid.procs| <= q < |Exec(digest, mid, after).procs|
    requires Exec(digest, mid, after).procs[q].job.key != [] &&
             Marker(digest, Exec(digest, mid, after).procs[q].job.key) == marker
    ensures var phase := Exec(digest, mid, after).procs[q].phase; phase == Arrived || phase == Ended(AlreadySaid)
  {
    assert LateOnesQuiet(digest, |mid.procs|, marker, mid);
    LateOnesStayQuiet(digest, |mid.procs|, marker, mid, after);
  }

  lemma SpokenIsMarked(digest: Digest, start: set<string>, actions: seq<Action>, p: nat)
    requires p < |Exec(digest, Idle(start), actions).procs| && Spoke(Exec(digest, Idle(start), actions).procs[p])
    ensures var sys := Exec(digest, Idle(start), actions);
            WellKeyed(sys.procs[p].job) && Marker(digest, sys.procs[p].job.key) in sys.markers
  {
    RunKeepsInv(digest, start, Idle(start), actions);
  }

  lemma {:induction false} ExecAppend(digest: Digest, sys: System, a: seq<Action>, b: seq<Action>)
    ensures Exec(digest, sys, a + b) == Exec(digest, Exec(digest, sys, a), b)
    decreases |a|
  {
    if a == [] {
      assert a + b == b;
    } else {
      assert (a + b)[0] == a[0] && (a + b)[1..] == a[1..] + b;
      ExecAppend(digest, Act(digest, sys, a[0]), a[1..], b);
    }
  }

  /**
   The retry passes. Once some process has spoken on a key, every other process
   with that key ends silent, and one that arrives later is silent at its first
   look, whatever its transcript says.
   */
  lemma RetryPasses(digest: Digest, start: set<string>, before: seq<Action>, after: seq<Action>, p: nat, q: nat)
    requires p < |Exec(digest, Idle(start), before).procs| && Spoke(Exec(digest, Idle(start), before).procs[p])
    requires q < |Exec(digest, Idle(start), before + after).procs| && q != p
    requires Exec(digest, Idle(start), before + after).procs[q].job.key
          == Exec(digest, Idle(start), before).procs[p].job.key
    ensures var last := Exec(digest, Idle(start), before + after).procs[q];
            && !Spoke(last)
            && (q >= |Exec(digest, Idle(start), before).procs| ==>
                  last.phase == Arrived || last.phase == Ended(AlreadySaid))
  {
    var mid := Exec(digest, Idle(start), before);
    ExecAppend(digest, Idle(start), before, after);
    RunKeepsWinners(digest, mid, after);
    if Spoke(Exec(digest, Idle(start), before + after).procs[q]) {
      SpokenOncePerKey(digest, start, before + after, if p < q then p else q, if p < q then q else p);
    }
    SpokenIsMarked(digest, start, before, p);
    if q >= |mid.procs| {
      LateOnesPass(digest, mid, after, Marker(digest, mid.procs[p].job.key), q);
    }
  }

  /** Once a marker exists, only those that have won already hold it. */
  lemma {:induction false} NoNewWinner(digest: Digest, sys: System, actions: seq<Action>, q: nat)
    requires AllWellKeyed(sys) && q < |Exec(digest, sys, actions).procs| && HasWon(Exec(digest, sys, actions).procs[q])
    requires var key := Exec(digest, sys, actions).procs[q].job.key; key != [] && Marker(digest, key) in sys.markers
    ensures q < |sys.procs| && HasWon(sys.procs[q])
    decreases |actions|
  {
    if actions != [] {
      var next := Act(digest, sys, actions[0]);
      WinnersStay(digest, sys, actions[0]);
      StepKeepsKeys(digest, sys, actions[0]);
      NoNewWinner(digest, next, actions[1..], q);
      RunKeepsWinners(digest, next, actions[1..]);
      WinnersAreNew(digest, sys, actions[0], q);
    }
  }

  /** The marker of one key swept without failure. */
  lemma SweepMarks(digest: Digest, mid: System, p: nat)
    requires p < |mid.procs| && mid.procs[p].phase.Sweeping? && WellKeyed(mid.procs[p].job)
    requires mid.procs[p].phase.swept < |mid.procs[p].job.sweep|
    ensures var swept := Act(digest, mid, Sweep(p, false));
            && Marker(digest, mid.procs[p].job.sweep[mid.procs[p].phase.swept]) in swept.markers
            && |swept.procs| == |mid.procs|
            && forall i :: 0 <= i < |mid.procs| && HasWon(swept.procs[i]) ==> HasWon(mid.procs[i])
  {
  }

  /**
   A sweep covers in every interleaving. Once a process has swept a key without failure,
   any process with that key that arrives later is silent at its first look, and no
   other one speaks on it that had not won it already.
   */
  lemma SweptPasses(digest: Digest, start: set<string>, before: seq<Action>, after: seq<Action>, p: nat, q: nat)
    requires p < |Exec(digest, Idle(start), before).procs|
    requires var proc := Exec(digest, Idle(start), before).procs[p];
             proc.phase.Sweeping? && proc.phase.swept < |proc.job.sweep|
    requires q < |Exec(digest, Idle(start), before + [Sweep(p, false)] + after).procs|
    requires var proc := Exec(digest, Idle(start), before).procs[p];
             var end := Exec(digest, Idle(start), before + [Sweep(p, false)] + after);
             end.procs[q].job.key == proc.job.sweep[proc.phase.swept]
    ensures var mid := Exec(digest, Idle(start), before);
            var last := Exec(digest, Idle(start), before + [Sweep(p, false)] + after).procs[q];
            && (q >= |mid.procs| ==> last.phase == Arrived || last.phase == Ended(AlreadySaid))
            && (Spoke(last) ==> q < |mid.procs| && HasWon(mid.procs[q]))
  {
    var mid, sweep := Exec(digest, Idle(start), before), [Sweep(p, false)];
    RunKeepsInv(digest, start, Idle(start), before);
    var swept := Act(digest, mid, Sweep(p, false));
    assert sweep[1..] == [];
    ExecAppend(digest, Idle(start), before, sweep);
    assert Exec(digest, mid, sweep) == Exec(digest, swept, []);
    ExecAppend(digest, Idle(start), before + sweep, after);
    StepKeepsKeys(digest, mid, Sweep(p, false));
    SweepMarks(digest, mid, p);
    var key := mid.procs[p].job.sweep[mid.procs[p].phase.swept];
    if q >= |swept.procs| {
      LateOnesPass(digest, swept, after, Marker(digest, key), q);
    }
    if Spoke(Exec(digest, swept, after).procs[q]) {
      NoNewWinner(digest, swept, after, q);
    }
  }

  // ------------------------------------------------------------------
  // One process alone
  // ------------------------------------------------------------------

  /** The markers after claiming `sweep` from position `from` on, the attempts being numbered from `at`. */
  function SweepAlone(digest: Digest, broken: nat -> bool, at: nat, markers: set<string>, sweep: seq<Key>,
                      from: nat): set<string>
    requires forall i :: 0 <= i < |sweep| ==> sweep[i] != []
    decreases |sweep| - from
  {
    if from >= |sweep| then markers
    else
      SweepAlone(digest, broken, at + 1,
                 if broken(at) then markers else markers + {Marker(digest, sweep[from])}, sweep, from + 1)
  }

  /** What one job does when nothing runs beside it: its reply and the markers it leaves. */
  function Alone(digest: Digest, broken: nat -> bool, at: nat, markers: set<string>, job: Job,
                 go: bool): (Option<Reply>, set<string>)
    requires WellKeyed(job)
  {
    var marker := Marker(digest, job.key);
    if marker in markers || (job.scans && !go) || broken(at) then (None, markers)
    else (job.says, SweepAlone(digest, broken, at + 1, markers + {marker}, job.sweep, 0))
  }

  /** The steps of one process from its look to its end. */
  function Schedule(broken: nat -> bool, at: nat, sweeps: nat, p: nat): seq<Action>
    decreases sweeps
  {
    if sweeps == 0 then [Sweep(p, false)]
    else [Sweep(p, broken(at))] + Schedule(broken, at + 1, sweeps - 1, p)
  }

  lemma {:induction false} SweepsAsSteps(digest: Digest, broken: nat -> bool, at: nat, sys: System, p: nat)
    requires p < |sys.procs| && WellKeyed(sys.procs[p].job)
    requires sys.procs[p].phase.Sweeping? && sys.procs[p].phase.swept <= |sys.procs[p].job.sweep|
    ensures var job, from := sys.procs[p].job, sys.procs[p].phase.swept;
            var end := Exec(digest, sys, Schedule(broken, at, |job.sweep| - from, p));
            end.procs == sys.procs[p := Proc(job, Ended(Won))]
            && end.markers == SweepAlone(digest, broken, at, sys.markers, job.sweep, from)
    decreases |sys.procs[p].job.sweep| - sys.procs[p].phase.swept
  {
    var job, from := sys.procs[p].job, sys.procs[p].phase.swept;
    var steps := Schedule(broken, at, |job.sweep| - from, p);
    var next := Act(digest, sys, steps[0]);
    if from < |job.sweep| {
      SweepsAsSteps(digest, broken, at + 1, next, p);
      assert next.procs[p := Proc(job, Ended(Won))] == sys.procs[p := Proc(job, Ended(Won))];
    } else {
      assert steps[1..] == [];
    }
  }

  lemma {:induction false} EndedIgnoresSweeps(digest: Digest, broken: nat -> bool, at: nat, sweeps: nat, sys: System,
                                              p: nat)
    requires p < |sys.procs| && sys.procs[p].phase.Ended?
    ensures Exec(digest, sys, Schedule(broken, at, sweeps, p)) == sys
    decreases sweeps
  {
    var steps := Schedule(broken, at, sweeps, p);
    if sweeps > 0 {
      EndedIgnoresSweeps(digest, broken, at + 1, sweeps - 1, sys, p);
      assert steps[1..] == Schedule(broken, at + 1, sweeps - 1, p);
    } else {
      assert steps[1..] == [];
    }
  }

  lemma FourActions(digest: Digest, sys: System, a: Action, b: Action, c: Action, d: Action, tail: seq<Action>)
    ensures Exec(digest, sys, [a, b, c, d] + tail)
         == Exec(digest, Act(digest, Act(digest, Act(digest, Act(digest, sys, a), b), c), d), tail)
  {
    var steps := [a, b, c, d] + tail;
    var s2 := Act(digest, Act(digest, sys, a), b);
    assert steps[1..][0] == b && steps[1..][1..][0] == c && steps[1..][1..][1..][0] == d;
    assert steps[1..][1..][1..][1..] == tail;
    assert Exec(digest, sys, steps) == Exec(digest, s2, steps[1..][1..]);
    assert Exec(digest, s2, steps[1..][1..]) == Exec(digest, Act(digest, Act(digest, s2, c), d), tail);
  }

  /** A new process up to its claim. */
  function UpToClaim(digest: Digest, sys: System, job: Job, go: bool, fails: bool): System {
    var p := |sys.procs|;
    Act(digest, Act(digest, Act(digest, Act(digest, sys, Arrive(job)), Look(p)), Scan(p, go)), Claim(p, fails))
  }

  lemma ClaimOutcome(digest: Digest, sys: System, job: Job, go: bool, fails: bool)
    requires WellKeyed(job)
    ensures var p, next, marker := |sys.procs|, UpToClaim(digest, sys, job, go, fails), Marker(digest, job.key);
            && |next.procs| == p + 1 && next.procs[..p] == sys.procs && next.procs[p].job == job
            && if marker in sys.markers || (job.scans && !go) || fails
               then next.procs[p].phase.Ended? && next.procs[p].phase != Ended(Won) && next.markers == sys.markers
               else next.procs[p].phase == Sweeping(0) && next.markers == sys.markers + {marker}
  {
  }

  /** A job run alone is one of the interleavings: the new process is last, and speaks exactly when `Alone` replies. */
  lemma AloneIsARun(digest: Digest, broken: nat -> bool, at: nat, sys: System, job: Job, go: bool)
    requires WellKeyed(job)
    ensures var p, (reply, markers) := |sys.procs|, Alone(digest, broken, at, sys.markers, job, go);
            var first := [Arrive(job), Look(p), Scan(p, go), Claim(p, broken(at))];
            var end := Exec(digest, sys, first + Schedule(broken, at + 1, |job.sweep|, p));
            && |end.procs| == p + 1 && end.procs[..p] == sys.procs && end.procs[p].job == job
            && end.procs[p].phase.Ended? && end.markers == markers
            && (Spoke(end.procs[p]) <==> reply.Some?) && (reply.Some? ==> reply == job.says)
  {
    var p := |sys.procs|;
    var tail := Schedule(broken, at + 1, |job.sweep|, p);
    var claimed := UpToClaim(digest, sys, job, go, broken(at));
    ClaimOutcome(digest, sys, job, go, broken(at));
    FourActions(digest, sys, Arrive(job), Look(p), Scan(p, go), Claim(p, broken(at)), tail);
    if claimed.procs[p].phase.Ended? {
      EndedIgnoresSweeps(digest, broken, at + 1, |job.sweep|, claimed, p);
    } else {
      SweepsAsSteps(digest, broken, at + 1, claimed, p);
    }
  }
}
