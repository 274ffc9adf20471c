/** The candidate window of the graph axis: newest first, cut, filtered and cut again; and the arms that replay it. */
module CandidateWindow {
  import opened Common

  const OVERFETCH: nat := 4
  const DEFAULT_LIMIT: nat := 20
  const KNOWLEDGE_WINDOW: nat := 40

  datatype Row = Row(id: string, role: string, name: Option<string>, status: Option<string>, created: int,
                     docLinked: bool)

  /** A per-invocation cron record. */
  predicate IsCron(name: Option<string>) {
    name.Some? && "cli." <= name.value && '@' in name.value
  }

  predicate Structural(r: Row) {
    r.role == "structural" || r.status == Some("unconfirmed")
  }

  function First(rows: seq<Row>, n: nat): (r: seq<Row>)
    ensures |r| <= n && r <= rows
  {
    if n <= |rows| then rows[..n] else rows
  }

  // ------------------------------------------------------------------
  // Sorting, newest first and stable
  // ------------------------------------------------------------------

  function Insert(r: Row, sorted: seq<Row>): seq<Row> {
    if sorted == [] || sorted[0].created <= r.created then [r] + sorted
    else [sorted[0]] + Insert(r, sorted[1..])
  }

  /** `sorted(rows, key=created, reverse=True)`, which keeps equal rows in their order. */
  function NewestFirst(rows: seq<Row>): seq<Row> {
    if rows == [] then [] else Insert(rows[0], NewestFirst(rows[1..]))
  }

  /** Each row is at least as new as the next. */
  ghost predicate Descending(rows: seq<Row>) {
    |rows| >= 2 ==> rows[0].created >= rows[1].created && Descending(rows[1..])
  }

  ghost function WithStamp(rows: seq<Row>, stamp: int): seq<Row> {
    Keep(rows, (r: Row) => r.created == stamp)
  }

  lemma {:induction false} InsertSorts(r: Row, sorted: seq<Row>)
    requires Descending(sorted)
    ensures Descending(Insert(r, sorted))
    ensures Insert(r, sorted) != [] &&
            (Insert(r, sorted)[0] == r || (sorted != [] && Insert(r, sorted)[0] == sorted[0]))
  {
    var whole := Insert(r, sorted);
    if sorted != [] && sorted[0].created > r.created {
      InsertSorts(r, sorted[1..]);
      assert whole[1..] == Insert(r, sorted[1..]);
    } else {
      assert whole[1..] == sorted;
    }
  }

  lemma {:induction false} InsertAdds(r: Row, sorted: seq<Row>)
    ensures multiset(Insert(r, sorted)) == multiset{r} + multiset(sorted)
  {
    if sorted != [] && sorted[0].created > r.created {
      InsertAdds(r, sorted[1..]);
      assert sorted == [sorted[0]] + sorted[1..];
    }
  }

  lemma {:induction false} InsertIsStable(r: Row, sorted: seq<Row>, stamp: int)
    requires Descending(sorted)
    ensures WithStamp(Insert(r, sorted), stamp) == (if r.created == stamp then [r] else []) + WithStamp(sorted, stamp)
  {
    if sorted != [] && sorted[0].created > r.created {
      InsertIsStable(r, sorted[1..], stamp);
      if r.created == stamp {
        assert WithStamp(sorted, stamp) == WithStamp(sorted[1..], stamp);
      }
    } else {
      assert ([r] + sorted)[1..] == sorted;
    }
  }

  /** The sort gives the same rows, newest first, and rows of one time stamp keep their order. */
  lemma {:induction false} NewestFirstSorts(rows: seq<Row>, stamp: int)
    ensures Descending(NewestFirst(rows)) && multiset(NewestFirst(rows)) == multiset(rows)
    ensures WithStamp(NewestFirst(rows), stamp) == WithStamp(rows, stamp)
  {
    if rows != [] {
      NewestFirstSorts(rows[1..], stamp);
      InsertSorts(rows[0], NewestFirst(rows[1..]));
      InsertAdds(rows[0], NewestFirst(rows[1..]));
      InsertIsStable(rows[0], NewestFirst(rows[1..]), stamp);
      assert rows == [rows[0]] + rows[1..];
    }
  }

  // ------------------------------------------------------------------
  // The window
  // ------------------------------------------------------------------

  predicate Kept(r: Row, suppressCron: bool) {
    !Structural(r) && !(suppressCron && IsCron(r.name))
  }

  function Filter(scan: seq<Row>, suppressCron: bool): seq<Row> {
    if scan == [] then []
    else (if Kept(scan[0], suppressCron) then [scan[0]] else []) + Filter(scan[1..], suppressCron)
  }

  function ServedFrom(scan: seq<Row>, limit: nat, suppressCron: bool): (r: (seq<Row>, seq<Row>))
    ensures |r.0| <= limit && r.0 <= r.1
  {
    var keep := Filter(scan, suppressCron);
    (First(keep, limit), keep)
  }

  /** The rows served and the whole filtered list. */
  function ServedWindow(rows: seq<Row>, limit: nat, suppressCron: bool): (r: (seq<Row>, seq<Row>))
    ensures |r.0| <= limit && r.0 <= r.1
  {
    ServedFrom(First(NewestFirst(rows), limit * OVERFETCH), limit, suppressCron)
  }

  function NonCron(rows: seq<Row>): (r: seq<Row>)
    ensures |r| <= |rows|
  {
    if rows == [] then [] else (if IsCron(rows[0].name) then [] else [rows[0]]) + NonCron(rows[1..])
  }

  function CronSlots(rows: seq<Row>): nat {
    if rows == [] then 0 else (if IsCron(rows[0].name) then 1 else 0) + CronSlots(rows[1..])
  }

  lemma {:induction false} SuppressionIsNonCron(scan: seq<Row>)
    ensures Filter(scan, true) == NonCron(Filter(scan, false))
  {
    if scan != [] {
      SuppressionIsNonCron(scan[1..]);
      var rest := Filter(scan[1..], false);
      if Kept(scan[0], false) {
        assert ([scan[0]] + rest)[1..] == rest;
      } else {
        assert [] + rest == rest;
      }
    }
  }

  lemma {:induction false} NonCronAppend(a: seq<Row>, b: seq<Row>)
    ensures NonCron(a + b) == NonCron(a) + NonCron(b)
  {
    if a == [] {
      assert a + b == b;
    } else {
      assert (a + b)[0] == a[0] && (a + b)[1..] == a[1..] + b;
      NonCronAppend(a[1..], b);
      Regroup(if IsCron(a[0].name) then [] else [a[0]], NonCron(a[1..]), NonCron(b));
    }
  }

  lemma {:induction false} NonCronCounts(rows: seq<Row>)
    ensures |NonCron(rows)| + CronSlots(rows) == |rows|
  {
    if rows != [] {
      NonCronCounts(rows[1..]);
    }
  }

  /** The non-cron rows served, in the same order, and then as many of the next ones as cron rows gave up a slot. */
  ghost predicate FillsSlots(served: seq<Row>, keep: seq<Row>, suppressed: seq<Row>, limit: nat) {
    && |served| <= limit && served <= keep
    && suppressed == NonCron(served) + First(NonCron(keep[|served|..]), limit - |NonCron(served)|)
    && (|served| == limit ==> limit - |NonCron(served)| == CronSlots(served))
  }

  lemma FirstOfTwo(a: seq<Row>, b: seq<Row>, n: nat)
    requires |a| <= n
    ensures First(a + b, n) == a + First(b, n - |a|)
  {
  }

  lemma FirstOfNonCron(keep: seq<Row>, limit: nat)
    ensures FillsSlots(First(keep, limit), keep, First(NonCron(keep), limit), limit)
  {
    var served := First(keep, limit);
    assert keep == served + keep[|served|..];
    NonCronAppend(served, keep[|served|..]);
    NonCronCounts(served);
    FirstOfTwo(NonCron(served), NonCron(keep[|served|..]), limit);
  }

  lemma SuppressionFrom(scan: seq<Row>, limit: nat)
    ensures var (served, keep) := ServedFrom(scan, limit, false);
            FillsSlots(served, keep, ServedFrom(scan, limit, true).0, limit)
  {
    SuppressionIsNonCron(scan);
    FirstOfNonCron(Filter(scan, false), limit);
  }

  /** What suppressing cron rows serves. */
  lemma SuppressionFillsTheSlots(rows: seq<Row>, limit: nat)
    ensures var (served, keep) := ServedWindow(rows, limit, false);
            FillsSlots(served, keep, ServedWindow(rows, limit, true).0, limit)
  {
    SuppressionFrom(First(NewestFirst(rows), limit * OVERFETCH), limit);
  }

  /** So no served non-cron row is dropped, and no more rows come in than cron slots are freed. */
  lemma SuppressionDropsNothing(rows: seq<Row>, limit: nat)
    ensures var before, after := ServedWindow(rows, limit, false).0, ServedWindow(rows, limit, true).0;
            NonCron(before) <= after && |after| - |NonCron(before)| <= CronSlots(before)
  {
    var (served, keep) := ServedWindow(rows, limit, false);
    SuppressionFillsTheSlots(rows, limit);
    NonCronCounts(served);
    if |served| < limit {
      assert keep[|served|..] == [];
    }
  }

  // ------------------------------------------------------------------
  // The arms
  // ------------------------------------------------------------------

  /** One recorded pack: the rows of its moment, its own budget, and the helpful graph items it served. */
  datatype Pack = Pack(rows: seq<Row>, budget: Option<int>, cited: seq<string>)

  function LimitOf(budget: Option<int>): nat {
    if budget.None? || budget.value < DEFAULT_LIMIT then DEFAULT_LIMIT else budget.value
  }

  function Ids(rows: seq<Row>): set<string> {
    set r | r in rows :: r.id
  }

  function DocLinked(rows: seq<Row>): seq<Row> {
    if rows == [] then []
    else (if rows[0].docLinked && !Structural(rows[0]) then [rows[0]] else []) + DocLinked(rows[1..])
  }

  /** The candidate ids of one pack under each arm. */
  datatype Arms<T> = Arms(statusQuo: T, cronSuppressed: T, window: T, everything: T)

  function Candidates(p: Pack): Arms<set<string>> {
    var limit := LimitOf(p.budget);
    var quo := Ids(ServedWindow(p.rows, limit, false).0);
    var linked := NewestFirst(DocLinked(p.rows));
    Arms(quo, Ids(ServedWindow(p.rows, limit, true).0), quo + Ids(First(linked, KNOWLEDGE_WINDOW)), quo + Ids(linked))
  }

  function Hits(cited: seq<string>, ids: set<string>): nat {
    if cited == [] then 0 else (if cited[0] in ids then 1 else 0) + Hits(cited[1..], ids)
  }

  const NO_HITS := Arms(0, 0, 0, 0)

  function AddHits(arms: Arms<nat>, p: Pack): Arms<nat> {
    var c := Candidates(p);
    Arms(arms.statusQuo + Hits(p.cited, c.statusQuo), arms.cronSuppressed + Hits(p.cited, c.cronSuppressed),
         arms.window + Hits(p.cited, c.window), arms.everything + Hits(p.cited, c.everything))
  }

  function AllHits(packs: seq<Pack>): Arms<nat> {
    if packs == [] then NO_HITS else AddHits(AllHits(packs[..|packs| - 1]), packs[|packs| - 1])
  }

  function TotalCited(packs: seq<Pack>): nat {
    if packs == [] then 0 else TotalCited(packs[..|packs| - 1]) + |packs[|packs| - 1].cited|
  }

  method CountHits(cited: seq<string>, ids: set<string>) returns (n: nat)
    ensures n == Hits(cited, ids)
  {
    n := 0;
    var i := 0;
    while i < |cited|
      invariant i <= |cited| && n + Hits(cited[i..], ids) == Hits(cited, ids)
    {
      assert cited[i..][0] == cited[i] && cited[i..][1..] == cited[i + 1..];
      if cited[i] in ids {
        n := n + 1;
      }
      i := i + 1;
    }
  }

  /** One pack under the four arms. */
  method ReplayOne(p: Pack, arms: Arms<nat>) returns (next: Arms<nat>)
    ensures next == AddHits(arms, p)
  {
    var c := Candidates(p);
    var a := CountHits(p.cited, c.statusQuo);
    var b := CountHits(p.cited, c.cronSuppressed);
    var w := CountHits(p.cited, c.window);
    var d := CountHits(p.cited, c.everything);
    next := Arms(arms.statusQuo + a, arms.cronSuppressed + b, arms.window + w, arms.everything + d);
  }

  lemma {:induction false} HitsMonotone(cited: seq<string>, a: set<string>, b: set<string>)
    requires forall id :: id in cited && id in a ==> id in b
    ensures Hits(cited, a) <= Hits(cited, b)
  {
    if cited != [] {
      HitsMonotone(cited[1..], a, b);
    }
  }

  lemma {:induction false} HitsBounded(cited: seq<string>, ids: set<string>)
    ensures Hits(cited, ids) <= |cited|
  {
    if cited != [] {
      HitsBounded(cited[1..], ids);
    }
  }

  /** The candidates of the status quo, the window and the whole knowledge set are nested. */
  lemma ArmsNest(p: Pack)
    ensures var c := Candidates(p); c.statusQuo <= c.window <= c.everything
  {
    var linked := NewestFirst(DocLinked(p.rows));
    forall r | r in First(linked, KNOWLEDGE_WINDOW) ensures r in linked {
      var i :| 0 <= i < |First(linked, KNOWLEDGE_WINDOW)| && First(linked, KNOWLEDGE_WINDOW)[i] == r;
      assert linked[i] == r;
    }
  }

  lemma PackOrdered(p: Pack)
    ensures var c := Candidates(p);
            && Hits(p.cited, c.statusQuo) <= Hits(p.cited, c.window) <= Hits(p.cited, c.everything) <= |p.cited|
            && Hits(p.cited, c.cronSuppressed) <= |p.cited|
  {
    var c := Candidates(p);
    ArmsNest(p);
    HitsMonotone(p.cited, c.statusQuo, c.window);
    HitsMonotone(p.cited, c.window, c.everything);
    HitsBounded(p.cited, c.everything);
    HitsBounded(p.cited, c.cronSuppressed);
  }

  /** Over any packs the arms' hits are ordered and bounded by what was cited. */
  lemma {:induction false} ArmsOrdered(packs: seq<Pack>)
    ensures var arms := AllHits(packs);
            arms.statusQuo <= arms.window <= arms.everything <= TotalCited(packs) &&
            arms.cronSuppressed <= TotalCited(packs)
  {
    if packs != [] {
      var p := packs[|packs| - 1];
      ArmsOrdered(packs[..|packs| - 1]);
      PackOrdered(p);
    }
  }

  /** Replays every pack at its own budget and tallies the cited items each arm would have served. */
  method ReplayArms(packs: seq<Pack>) returns (arms: Arms<nat>, total: nat)
    ensures arms == AllHits(packs) && total == TotalCited(packs)
    ensures arms.statusQuo <= arms.window <= arms.everything <= total && arms.cronSuppressed <= total
  {
    arms, total := NO_HITS, 0;
    var i := 0;
    while i < |packs|
      invariant i <= |packs| && arms == AllHits(packs[..i]) && total == TotalCited(packs[..i])
    {
      assert packs[..i + 1][..i] == packs[..i] && packs[..i + 1][i] == packs[i];
      arms := ReplayOne(packs[i], arms);
      total := total + |packs[i].cited|;
      i := i + 1;
    }
    assert packs[..i] == packs;
    ArmsOrdered(packs);
  }

  lemma {:induction false} NonCronMember(rows: seq<Row>, r: Row)
    ensures r in NonCron(rows) <==> r in rows && !IsCron(r.name)
  {
    if rows != [] {
      NonCronMember(rows[1..], r);
    }
  }

  /** No row with this id is a cron record. */
  ghost predicate NeverCron(rows: seq<Row>, id: string) {
    forall r :: r in rows && r.id == id ==> !IsCron(r.name)
  }

  lemma {:induction false} FilterMember(scan: seq<Row>, suppressCron: bool, r: Row)
    requires r in Filter(scan, suppressCron)
    ensures r in scan
  {
    if r !in [scan[0]] {
      FilterMember(scan[1..], suppressCron, r);
    }
  }

  /** A row served comes from the population. */
  lemma ServedFromRows(rows: seq<Row>, limit: nat, suppressCron: bool, r: Row)
    requires r in ServedWindow(rows, limit, suppressCron).0
    ensures r in rows
  {
    var sorted := NewestFirst(rows);
    var scan := First(sorted, limit * OVERFETCH);
    FilterMember(scan, suppressCron, r);
    NewestFirstSorts(rows, 0);
    assert r in multiset(sorted);
  }

  /** When no cited item is a cron record, suppressing cron records loses no hit. */
  lemma SuppressionLosesNoHit(p: Pack)
    requires forall id :: id in p.cited ==> NeverCron(p.rows, id)
    ensures Hits(p.cited, Candidates(p).statusQuo) <= Hits(p.cited, Candidates(p).cronSuppressed)
  {
    var limit := LimitOf(p.budget);
    var before, after := ServedWindow(p.rows, limit, false).0, ServedWindow(p.rows, limit, true).0;
    SuppressionDropsNothing(p.rows, limit);
    forall id | id in p.cited && id in Ids(before) ensures id in Ids(after) {
      var r :| r in before && r.id == id;
      ServedFromRows(p.rows, limit, false, r);
      NonCronMember(before, r);
      var k :| 0 <= k < |NonCron(before)| && NonCron(before)[k] == r;
      assert after[k] == r;
    }
    HitsMonotone(p.cited, Candidates(p).statusQuo, Candidates(p).cronSuppressed);
  }

  // ------------------------------------------------------------------
  // What the window and the arms hold
  // ------------------------------------------------------------------

  /** Not structural, and confirmed; and no cron record when those are suppressed. */
  ghost function Serves(suppressCron: bool): Row -> bool {
    (r: Row) => r.role != "structural" && r.status != Some("unconfirmed") &&
                !(suppressCron && r.name.Some? && "cli." <= r.name.value && '@' in r.name.value)
  }

  lemma {:induction false} FilterIsKeep(scan: seq<Row>, suppressCron: bool)
    ensures Filter(scan, suppressCron) == Keep(scan, Serves(suppressCron))
  {
    if scan != [] {
      FilterIsKeep(scan[1..], suppressCron);
    }
  }

  lemma WindowFrom(scan: seq<Row>, limit: nat, suppressCron: bool)
    ensures var (served, keep) := ServedFrom(scan, limit, suppressCron);
            keep == Keep(scan, Serves(suppressCron)) && served == if limit <= |keep| then keep[..limit] else keep
  {
    FilterIsKeep(scan, suppressCron);
  }

  /** The window: of the newest four rows for each place, those that may be served, and of these the first ones. */
  lemma WindowMeans(rows: seq<Row>, limit: nat, suppressCron: bool)
    ensures var (served, keep) := ServedWindow(rows, limit, suppressCron);
            var sorted := NewestFirst(rows);
            && keep == Keep(if 4 * limit <= |sorted| then sorted[..4 * limit] else sorted, Serves(suppressCron))
            && served == if limit <= |keep| then keep[..limit] else keep
  {
    WindowFrom(First(NewestFirst(rows), limit * OVERFETCH), limit, suppressCron);
  }

  ghost function Linked(): Row -> bool {
    (r: Row) => r.docLinked && r.role != "structural" && r.status != Some("unconfirmed")
  }

  lemma {:induction false} DocLinkedIsKeep(rows: seq<Row>)
    ensures DocLinked(rows) == Keep(rows, Linked())
  {
    if rows != [] {
      DocLinkedIsKeep(rows[1..]);
    }
  }

  /** The row with this id is among them. */
  ghost predicate HasId(rows: seq<Row>, id: string) {
    exists i :: 0 <= i < |rows| && rows[i].id == id
  }

  lemma IdsMean(rows: seq<Row>, id: string)
    ensures id in Ids(rows) <==> HasId(rows, id)
  {
    if i :| 0 <= i < |rows| && rows[i].id == id {
      assert rows[i] in rows;
    }
  }

  /**
   The candidates of a pack at its own limit, at least twenty: the window, the window
   without cron records, and the window with the newest forty of the linked rows or with
   all of them.
   */
  lemma CandidatesMean(p: Pack, id: string)
    ensures var limit := if p.budget.Some? && p.budget.value > 20 then p.budget.value else 20;
            var quo, linked := ServedWindow(p.rows, limit, false).0, NewestFirst(Keep(p.rows, Linked()));
            var c := Candidates(p);
            && (id in c.statusQuo <==> HasId(quo, id))
            && (id in c.cronSuppressed <==> HasId(ServedWindow(p.rows, limit, true).0, id))
            && (id in c.window <==> HasId(quo, id) || HasId(if 40 <= |linked| then linked[..40] else linked, id))
            && (id in c.everything <==> HasId(quo, id) || HasId(linked, id))
  {
    var limit := LimitOf(p.budget);
    var linked := NewestFirst(DocLinked(p.rows));
    DocLinkedIsKeep(p.rows);
    IdsMean(ServedWindow(p.rows, limit, false).0, id);
    IdsMean(ServedWindow(p.rows, limit, true).0, id);
    IdsMean(First(linked, KNOWLEDGE_WINDOW), id);
    IdsMean(linked, id);
  }

  // ------------------------------------------------------------------
  // What the tallies count
  // ------------------------------------------------------------------

  datatype Arm = StatusQuo | CronSuppressed | Window | Everything

  function Of<T>(arms: Arms<T>, arm: Arm): T {
    match arm
    case StatusQuo => arms.statusQuo
    case CronSuppressed => arms.cronSuppressed
    case Window => arms.window
    case Everything => arms.everything
  }

  ghost function AmongCandidates(p: Pack, arm: Arm): string -> bool {
    (id: string) => id in Of(Candidates(p), arm)
  }

  /** Of each pack in turn the cited ids its arm would have served. */
  ghost function ServedBy(packs: seq<Pack>, arm: Arm): seq<string> {
    if packs == [] then []
    else
      var p := packs[|packs| - 1];
      ServedBy(packs[..|packs| - 1], arm) + Keep(p.cited, AmongCandidates(p, arm))
  }

  lemma {:induction false} HitsAreKept(cited: seq<string>, p: Pack, arm: Arm)
    ensures Hits(cited, Of(Candidates(p), arm)) == |Keep(cited, AmongCandidates(p, arm))|
  {
    if cited != [] {
      HitsAreKept(cited[1..], p, arm);
    }
  }

  lemma PackAdds(arms: Arms<nat>, p: Pack, arm: Arm)
    ensures Of(AddHits(arms, p), arm) == Of(arms, arm) + Hits(p.cited, Of(Candidates(p), arm))
  {
  }

  /** An arm's tally is the number of cited ids, over all packs, that are among its candidates. */
  lemma {:induction false} TalliesCount(packs: seq<Pack>, arm: Arm)
    ensures Of(AllHits(packs), arm) == |ServedBy(packs, arm)|
  {
    if packs != [] {
      var front, p := packs[..|packs| - 1], packs[|packs| - 1];
      TalliesCount(front, arm);
      HitsAreKept(p.cited, p, arm);
      PackAdds(AllHits(front), p, arm);
    }
  }
}
