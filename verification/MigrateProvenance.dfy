/**
 The edge provenance migration: take a snapshot of every edge, then move legacy
 values out of each candidate's properties into its typed columns.
 */
module MigrateProvenance {
  import opened Common

  const PROVENANCE_FIELDS: seq<string> := ["source_trace_id", "agent_id", "confidence", "evidence_ref",
                                           "extractor_tier"]
  const TIER_SPELLINGS: map<string, string> := map[
    "DETERMINISTIC" := "DETERMINISTIC", "HYBRID" := "HYBRID", "LLM" := "LLM",
    "deterministic" := "DETERMINISTIC", "hybrid" := "HYBRID", "llm" := "LLM"]
  const NODE_CAP: nat := 10_000_000

  /** A current edge; an absent column or property reads as null. */
  datatype Edge = Edge(id: string, source: string, target: string, kind: string, columns: Fields, properties: Fields)

  datatype EdgeKey = EdgeKey(source: string, target: string, kind: string)

  function KeyOf(e: Edge): EdgeKey {
    EdgeKey(e.source, e.target, e.kind)
  }

  predicate AllNull(fields: Fields) {
    forall i :: 0 <= i < |PROVENANCE_FIELDS| ==> Get(fields, PROVENANCE_FIELDS[i]) == Null
  }

  /** The five provenance values of a properties bag. */
  function Extract(properties: Fields): Fields {
    map key | key in PROVENANCE_FIELDS :: Get(properties, key)
  }

  predicate IsText(v: Json) {
    v.Null? || v.Str?
  }

  predicate IsConfidence(v: Json) {
    v.Null? || (v.Num? && 0.0 <= v.n <= 1.0)
  }

  predicate IsTier(v: Json) {
    v.Null? || (v.Str? && v.s in TIER_SPELLINGS)
  }

  /** The stored form of the five values, or none when one of them is malformed. */
  function Normalize(legacy: Fields): Option<Fields> {
    var tier := Get(legacy, "extractor_tier");
    if IsText(Get(legacy, "source_trace_id")) && IsText(Get(legacy, "agent_id")) && IsText(Get(legacy, "evidence_ref"))
       && IsConfidence(Get(legacy, "confidence")) && IsTier(tier)
    then Some(if tier.Str? then legacy["extractor_tier" := Str(TIER_SPELLINGS[tier.s])] else legacy)
    else None
  }

  function WithoutLegacy(properties: Fields): Fields {
    map key | key in properties && key !in PROVENANCE_FIELDS :: properties[key]
  }

  // ------------------------------------------------------------------
  // The store
  // ------------------------------------------------------------------

  /** Replaces the columns and properties of the edge with this key, keeping its id; appends one when there is none. */
  function Upsert(edges: seq<Edge>, key: EdgeKey, columns: Fields, properties: Fields, freshId: string): (r: seq<Edge>)
    ensures |r| >= |edges|
    ensures forall i :: 0 <= i < |edges| ==>
              r[i] == if KeyOf(edges[i]) == key
                      then edges[i].(columns := columns, properties := properties) else edges[i]
    ensures (exists i :: 0 <= i < |edges| && KeyOf(edges[i]) == key) ==> |r| == |edges|
    ensures (forall i :: 0 <= i < |edges| ==> KeyOf(edges[i]) != key) ==>
              |r| == |edges| + 1
              && r[|edges|] == Edge(freshId, key.source, key.target, key.kind, columns, properties)
  {
    var replaced := seq(|edges|, i requires 0 <= i < |edges| =>
      if KeyOf(edges[i]) == key then edges[i].(columns := columns, properties := properties) else edges[i]);
    if exists i :: 0 <= i < |edges| && KeyOf(edges[i]) == key then replaced
    else replaced + [Edge(freshId, key.source, key.target, key.kind, columns, properties)]
  }

  function Outgoing(edges: seq<Edge>, node: string): seq<Edge> {
    if edges == [] then []
    else (if edges[0].source == node then [edges[0]] else []) + Outgoing(edges[1..], node)
  }

  /** The graph: current nodes and edges. `failing` says which upserts raise. */
  class GraphStore {
    const failing: EdgeKey -> bool
    const mint: seq<Edge> -> string
    var nodes: seq<string>
    var edges: seq<Edge>

    constructor (nodes: seq<string>, edges: seq<Edge>, failing: EdgeKey -> bool, mint: seq<Edge> -> string)
      ensures this.nodes == nodes && this.edges == edges && this.failing == failing && this.mint == mint
    {
      this.nodes, this.edges, this.failing, this.mint := nodes, edges, failing, mint;
    }

    method UpsertEdge(key: EdgeKey, properties: Fields, columns: Fields) returns (raised: bool)
      modifies this`edges
      ensures raised == failing(key)
      ensures edges == if raised then old(edges) else Upsert(old(edges), key, columns, properties, mint(old(edges)))
    {
      raised := failing(key);
      if !raised {
        edges := Upsert(edges, key, columns, properties, mint(edges));
      }
    }
  }

  /** Edge ids are unique, and so is the current edge of each source, target and kind. */
  ghost predicate WellFormed(edges: seq<Edge>) {
    forall i, j :: 0 <= i < j < |edges| ==> edges[i].id != edges[j].id && KeyOf(edges[i]) != KeyOf(edges[j])
  }

  // ------------------------------------------------------------------
  // What happens to one edge
  // ------------------------------------------------------------------

  datatype Class = Already | NoLegacy | Malformed | Candidate

  function Classify(e: Edge): Class {
    if !AllNull(e.columns) then Already
    else if AllNull(Extract(e.properties)) then NoLegacy
    else if Normalize(Extract(e.properties)).None? then Malformed
    else Candidate
  }

  function Migrated(e: Edge): Edge
    requires Classify(e).Candidate?
  {
    e.(columns := Normalize(Extract(e.properties)).value, properties := WithoutLegacy(e.properties))
  }

  lemma GetExtract(properties: Fields, key: string)
    ensures key in PROVENANCE_FIELDS ==> Get(Extract(properties), key) == Get(properties, key)
    ensures key !in PROVENANCE_FIELDS ==> Get(Extract(properties), key) == Null
  {
  }

  /**
   The move is lossless: each legacy value stands in its column, the tier in its
   one stored spelling, a null stays null and a non-null stays non-null; no other
   property changes, and no legacy key is left behind.
   */
  lemma MigrationIsLossless(e: Edge, key: string)
    requires Classify(e).Candidate?
    ensures key in PROVENANCE_FIELDS && key != "extractor_tier" ==>
            Get(Migrated(e).columns, key) == Get(e.properties, key)
    ensures var tier := Get(e.properties, "extractor_tier");
            Get(Migrated(e).columns, "extractor_tier") ==
            if tier.Str? && tier.s in TIER_SPELLINGS then Str(TIER_SPELLINGS[tier.s]) else Null
    ensures Get(Migrated(e).columns, "extractor_tier") == Null <==> Get(e.properties, "extractor_tier") == Null
    ensures key in PROVENANCE_FIELDS ==> key !in Migrated(e).properties
    ensures key !in PROVENANCE_FIELDS ==>
              (key in Migrated(e).properties <==> key in e.properties)
              && (key in e.properties ==> Migrated(e).properties[key] == e.properties[key])
    ensures Migrated(e).id == e.id && KeyOf(Migrated(e)) == KeyOf(e)
  {
    GetExtract(e.properties, key);
    GetExtract(e.properties, "extractor_tier");
    assert "extractor_tier" == PROVENANCE_FIELDS[4];
  }

  /** A migrated edge is never a candidate again. */
  lemma MigratedIsDone(e: Edge)
    requires Classify(e).Candidate?
    ensures Classify(Migrated(e)).Already?
  {
    var i :| 0 <= i < |PROVENANCE_FIELDS| && Get(Extract(e.properties), PROVENANCE_FIELDS[i]) != Null;
    var key := PROVENANCE_FIELDS[i];
    GetExtract(e.properties, key);
    MigrationIsLossless(e, key);
    assert Get(Migrated(e).columns, PROVENANCE_FIELDS[i]) != Null;
  }

  // ------------------------------------------------------------------
  // The snapshot
  // ------------------------------------------------------------------

  /** One page of nodes: the first ones, as many as it may hold. */
  function Current(nodes: seq<string>): (page: seq<string>)
    ensures page <= nodes && |page| == if |nodes| <= 10_000_000 then |nodes| else 10_000_000
  {
    if |nodes| <= NODE_CAP then nodes else nodes[..NODE_CAP]
  }

  lemma {:induction false} OutgoingMember(edges: seq<Edge>, node: string, e: Edge)
    ensures e in Outgoing(edges, node) <==> e in edges && e.source == node
  {
    if edges != [] {
      OutgoingMember(edges[1..], node, e);
    }
  }

  ghost predicate DistinctIds(edges: seq<Edge>) {
    forall i, j :: 0 <= i < j < |edges| ==> edges[i].id != edges[j].id
  }

  ghost predicate SeenIds(found: seq<Edge>, seen: set<string>) {
    forall id :: id in seen <==> exists i :: 0 <= i < |found| && found[i].id == id
  }

  lemma SameIdSameEdge(edges: seq<Edge>, a: Edge, b: Edge)
    requires WellFormed(edges) && a in edges && b in edges && a.id == b.id
    ensures a == b
  {
  }

  lemma SeenIdsAppend(found: seq<Edge>, seen: set<string>, e: Edge)
    requires SeenIds(found, seen)
    ensures SeenIds(found + [e], seen + {e.id})
  {
    var more := found + [e];
    forall id ensures id in seen + {e.id} <==> exists i :: 0 <= i < |more| && more[i].id == id {
      if id == e.id {
        assert more[|found|].id == id;
      } else if id in seen {
        var i :| 0 <= i < |found| && found[i].id == id;
        assert more[i].id == id;
      }
    }
  }

  /** Appends the edges not seen yet. */
  method AddNew(found: seq<Edge>, seen: set<string>, out: seq<Edge>, ghost edges: seq<Edge>)
    returns (found': seq<Edge>, seen': set<string>)
    requires WellFormed(edges) && DistinctIds(found) && SeenIds(found, seen)
    requires (forall e :: e in found ==> e in edges) && (forall e :: e in out ==> e in edges)
    ensures DistinctIds(found') && SeenIds(found', seen')
    ensures forall e :: e in found' <==> e in found || e in out
  {
    found', seen' := found, seen;
    var i := 0;
    while i < |out|
      invariant i <= |out| && DistinctIds(found') && SeenIds(found', seen')
      invariant forall e :: e in found' <==> e in found || e in out[..i]
    {
      var e := out[i];
      assert out[..i + 1] == out[..i] + [e];
      if e.id in seen' {
        var k :| 0 <= k < |found'| && found'[k].id == e.id;
        assert found'[k] in found';
        SameIdSameEdge(edges, found'[k], e);
      } else {
        SeenIdsAppend(found', seen', e);
        seen' := seen' + {e.id};
        found' := found' + [e];
      }
      i := i + 1;
    }
    assert out[..i] == out;
  }

  /** Every current edge of a listed node, exactly once. */
  method AllEdges(store: GraphStore) returns (found: seq<Edge>)
    requires WellFormed(store.edges)
    ensures DistinctIds(found)
    ensures forall e :: e in found <==> e in store.edges && e.source in Current(store.nodes)
  {
    var nodes := Current(store.nodes);
    var seen: set<string> := {};
    found := [];
    var n := 0;
    while n < |nodes|
      invariant n <= |nodes|
      invariant DistinctIds(found) && SeenIds(found, seen)
      invariant forall e :: e in found <==> e in store.edges && e.source in nodes[..n]
    {
      var out := Outgoing(store.edges, nodes[n]);
      forall e ensures e in out <==> e in store.edges && e.source == nodes[n] {
        OutgoingMember(store.edges, nodes[n], e);
      }
      found, seen := AddNew(found, seen, out, store.edges);
      assert nodes[..n + 1] == nodes[..n] + [nodes[n]];
      n := n + 1;
    }
    assert nodes[..n] == nodes;
  }

  // ------------------------------------------------------------------
  // The run
  // ------------------------------------------------------------------

  datatype Report = Report(scanned: nat, migrated: nat, already: nat, noLegacy: nat, malformed: nat,
                           errors: seq<string>, emitted: nat)

  const BLANK := Report(0, 0, 0, 0, 0, [], 0)

  /** The counters after one edge. A dry run emits no failure event and meets no error. */
  function Tallied(r: Report, e: Edge, dryRun: bool, raised: bool): Report {
    var s := r.(scanned := r.scanned + 1);
    match Classify(e)
    case Already => s.(already := s.already + 1)
    case NoLegacy => s.(noLegacy := s.noLegacy + 1)
    case Malformed => s.(malformed := s.malformed + 1, emitted := s.emitted + if dryRun then 0 else 1)
    case Candidate => if !dryRun && raised then s.(errors := s.errors + [e.id]) else s.(migrated := s.migrated + 1)
  }

  function Tally(r: Report, snapshot: seq<Edge>, dryRun: bool, failing: EdgeKey -> bool): Report
    decreases |snapshot|
  {
    if snapshot == [] then r
    else Tally(Tallied(r, snapshot[0], dryRun, failing(KeyOf(snapshot[0]))), snapshot[1..], dryRun, failing)
  }

  /** An edge after a run that has dealt with the edges `done`. */
  function Settled(e: Edge, done: seq<Edge>, dryRun: bool, failing: EdgeKey -> bool): Edge {
    if !dryRun && e in done && Classify(e).Candidate? && !failing(KeyOf(e)) then Migrated(e) else e
  }

  ghost predicate SettledAll(before: seq<Edge>, after: seq<Edge>, done: seq<Edge>, dryRun: bool,
                             failing: EdgeKey -> bool) {
    |after| == |before| && forall i :: 0 <= i < |before| ==> after[i] == Settled(before[i], done, dryRun, failing)
  }

  datatype Outcome = Completed(report: Report) | Drifted(malformed: nat, scanned: nat)

  /** More than one edge in a hundred is malformed. */
  predicate Drifting(r: Report) {
    r.scanned > 0 && r.malformed * 100 > r.scanned
  }

  /** One place of the store when a candidate is rewritten: the candidate's own, or another. */
  lemma RewriteSettles(x: Edge, done: seq<Edge>, e: Edge, failing: EdgeKey -> bool)
    requires Classify(e).Candidate? && !failing(KeyOf(e)) && (x == e || KeyOf(x) != KeyOf(e))
    ensures var now := Settled(x, done, false, failing);
            && KeyOf(now) == KeyOf(x)
            && Settled(x, done + [e], false, failing) ==
               if x == e then now.(columns := Migrated(e).columns, properties := Migrated(e).properties) else now
  {
    assert x in done + [e] <==> x in done || x == e;
  }

  lemma UpsertSettles(before: seq<Edge>, now: seq<Edge>, done: seq<Edge>, e: Edge, failing: EdgeKey -> bool,
                      freshId: string)
    requires WellFormed(before) && SettledAll(before, now, done, false, failing)
    requires e in before && Classify(e).Candidate? && !failing(KeyOf(e))
    ensures SettledAll(before, Upsert(now, KeyOf(e), Migrated(e).columns, Migrated(e).properties, freshId),
                       done + [e], false, failing)
  {
    var next := Upsert(now, KeyOf(e), Migrated(e).columns, Migrated(e).properties, freshId);
    var k :| 0 <= k < |before| && before[k] == e;
    assert KeyOf(now[k]) == KeyOf(e);
    forall i | 0 <= i < |before| ensures next[i] == Settled(before[i], done + [e], false, failing) {
      if i != k {
        assert KeyOf(before[i]) != KeyOf(e);
      }
      RewriteSettles(before[i], done, e, failing);
    }
  }

  /** An edge that is not moved settles nothing. */
  lemma OtherSettles(before: seq<Edge>, now: seq<Edge>, done: seq<Edge>, e: Edge, dryRun: bool,
                     failing: EdgeKey -> bool)
    requires SettledAll(before, now, done, dryRun, failing)
    requires dryRun || !Classify(e).Candidate? || failing(KeyOf(e))
    ensures SettledAll(before, now, done + [e], dryRun, failing)
  {
  }

  /** Rewrites one candidate; the legacy keys leave the properties. */
  method MoveCandidate(store: GraphStore, e: Edge, legacy: Fields, ghost before: seq<Edge>, ghost done: seq<Edge>)
    returns (raised: bool)
    requires WellFormed(before) && SettledAll(before, store.edges, done, false, store.failing) && e in before
    requires Classify(e).Candidate? && legacy == Migrated(e).columns
    modifies store`edges
    ensures raised == store.failing(KeyOf(e))
    ensures SettledAll(before, store.edges, done + [e], false, store.failing)
  {
    if store.failing(KeyOf(e)) {
      OtherSettles(before, store.edges, done, e, false, store.failing);
    } else {
      UpsertSettles(before, store.edges, done, e, store.failing, store.mint(store.edges));
    }
    raised := store.UpsertEdge(KeyOf(e), WithoutLegacy(e.properties), legacy);
  }

  /** Processes one edge of the snapshot. */
  method MigrateOneEdge(store: GraphStore, e: Edge, dryRun: bool, r: Report, ghost before: seq<Edge>,
                        ghost done: seq<Edge>)
    returns (s: Report)
    requires WellFormed(before) && SettledAll(before, store.edges, done, dryRun, store.failing) && e in before
    modifies store`edges
    ensures s == Tallied(r, e, dryRun, store.failing(KeyOf(e)))
    ensures SettledAll(before, store.edges, done + [e], dryRun, store.failing)
  {
    s := r.(scanned := r.scanned + 1);
    if dryRun || !Classify(e).Candidate? {
      OtherSettles(before, store.edges, done, e, dryRun, store.failing);
    }
    if !AllNull(e.columns) {
      s := s.(already := s.already + 1);
      return;
    }
    var legacy := Extract(e.properties);
    if AllNull(legacy) {
      s := s.(noLegacy := s.noLegacy + 1);
      return;
    }
    var normalized := Normalize(legacy);
    if normalized.None? {
      s := s.(malformed := s.malformed + 1, emitted := s.emitted + if dryRun then 0 else 1);
      return;
    }
    var raised := false;
    if !dryRun {
      raised := MoveCandidate(store, e, normalized.value, before, done);
    }
    s := if raised then s.(errors := s.errors + [e.id]) else s.(migrated := s.migrated + 1);
  }

  lemma NothingSettled(before: seq<Edge>, dryRun: bool, failing: EdgeKey -> bool)
    ensures SettledAll(before, before, [], dryRun, failing)
  {
  }

  lemma TallyNext(r: Report, all: seq<Edge>, i: nat, dryRun: bool, failing: EdgeKey -> bool)
    requires i < |all|
    ensures Tally(r, all[i..], dryRun, failing) ==
            Tally(Tallied(r, all[i], dryRun, failing(KeyOf(all[i]))), all[i + 1..], dryRun, failing)
  {
    assert all[i..][0] == all[i] && all[i..][1..] == all[i + 1..];
  }

  /** Every edge of the snapshot in turn. */
  method MigrateAll(store: GraphStore, all: seq<Edge>, dryRun: bool) returns (r: Report)
    requires WellFormed(store.edges) && forall e :: e in all ==> e in store.edges
    modifies store`edges
    ensures r == Tally(BLANK, all, dryRun, store.failing)
    ensures SettledAll(old(store.edges), store.edges, all, dryRun, store.failing)
  {
    ghost var before := store.edges;
    ghost var done: seq<Edge> := [];
    NothingSettled(before, dryRun, store.failing);
    r := BLANK;
    var i := 0;
    assert all[0..] == all;
    while i < |all|
      invariant i <= |all| && done == all[..i]
      invariant SettledAll(before, store.edges, done, dryRun, store.failing)
      invariant Tally(r, all[i..], dryRun, store.failing) == Tally(BLANK, all, dryRun, store.failing)
    {
      TallyNext(r, all, i, dryRun, store.failing);
      r := MigrateOneEdge(store, all[i], dryRun, r, before, done);
      done := done + [all[i]];
      i := i + 1;
    }
    assert done == all;
  }

  /** The run: every edge of the snapshot settled, the report tallied over it, and drift raised at the very end. */
  method RunMigrateProvenance(store: GraphStore, dryRun: bool) returns (outcome: Outcome, ghost snapshot: seq<Edge>)
    requires WellFormed(store.edges)
    modifies store`edges
    ensures DistinctIds(snapshot)
    ensures forall e :: e in snapshot <==> e in old(store.edges) && e.source in Current(store.nodes)
    ensures SettledAll(old(store.edges), store.edges, snapshot, dryRun, store.failing)
    ensures var r := Tally(BLANK, snapshot, dryRun, store.failing);
            outcome == if Drifting(r) then Drifted(r.malformed, r.scanned) else Completed(r)
  {
    var all := AllEdges(store);
    snapshot := all;
    var r := MigrateAll(store, all, dryRun);
    outcome := if Drifting(r) then Drifted(r.malformed, r.scanned) else Completed(r);
  }

  // ------------------------------------------------------------------
  // What every report says
  // ------------------------------------------------------------------

  function Total(r: Report): nat {
    r.already + r.noLegacy + r.malformed + r.migrated + |r.errors|
  }

  /** Every scanned edge is counted in exactly one of the five classes. */
  lemma {:induction false} EveryEdgeCountedOnce(r: Report, snapshot: seq<Edge>, dryRun: bool, failing: EdgeKey -> bool)
    requires Total(r) == r.scanned
    ensures var t := Tally(r, snapshot, dryRun, failing); t.scanned == r.scanned + |snapshot| && Total(t) == t.scanned
    decreases |snapshot|
  {
    if snapshot != [] {
      EveryEdgeCountedOnce(Tallied(r, snapshot[0], dryRun, failing(KeyOf(snapshot[0]))),
                           snapshot[1..], dryRun, failing);
    }
  }

  datatype Kind = IsAlready | IsNoLegacy | IsMalformed | IsMigrated | IsError

  function Counter(r: Report, kind: Kind): nat {
    match kind
    case IsAlready => r.already
    case IsNoLegacy => r.noLegacy
    case IsMalformed => r.malformed
    case IsMigrated => r.migrated
    case IsError => |r.errors|
  }

  /** Some provenance value is of the wrong type, out of range or an unknown spelling. */
  predicate BadValue(properties: Fields) {
    || !IsText(Get(properties, "source_trace_id")) || !IsText(Get(properties, "agent_id"))
    || !IsText(Get(properties, "evidence_ref")) || !IsConfidence(Get(properties, "confidence"))
    || !IsTier(Get(properties, "extractor_tier"))
  }

  /** Which edges a counter counts, read off their columns and properties. */
  predicate Falls(e: Edge, dryRun: bool, failing: EdgeKey -> bool, kind: Kind) {
    var candidate := AllNull(e.columns) && !AllNull(e.properties) && !BadValue(e.properties);
    match kind
    case IsAlready => !AllNull(e.columns)
    case IsNoLegacy => AllNull(e.columns) && AllNull(e.properties)
    case IsMalformed => AllNull(e.columns) && BadValue(e.properties)
    case IsMigrated => candidate && (dryRun || !failing(KeyOf(e)))
    case IsError => candidate && !dryRun && failing(KeyOf(e))
  }

  function HowMany(snapshot: seq<Edge>, dryRun: bool, failing: EdgeKey -> bool, kind: Kind): nat {
    if snapshot == [] then 0
    else (if Falls(snapshot[0], dryRun, failing, kind) then 1 else 0) + HowMany(snapshot[1..], dryRun, failing, kind)
  }

  /** Looking through the five extracted values is looking at the properties. */
  lemma ExtractSees(properties: Fields)
    ensures AllNull(Extract(properties)) <==> AllNull(properties)
    ensures Normalize(Extract(properties)).None? <==> BadValue(properties)
    ensures AllNull(properties) ==> !BadValue(properties)
  {
    forall i | 0 <= i < |PROVENANCE_FIELDS|
      ensures Get(Extract(properties), PROVENANCE_FIELDS[i]) == Get(properties, PROVENANCE_FIELDS[i])
    {
      GetExtract(properties, PROVENANCE_FIELDS[i]);
    }
    assert PROVENANCE_FIELDS[0] == "source_trace_id" && PROVENANCE_FIELDS[1] == "agent_id" &&
           PROVENANCE_FIELDS[2] == "confidence";
    assert PROVENANCE_FIELDS[3] == "evidence_ref" && PROVENANCE_FIELDS[4] == "extractor_tier";
  }

  lemma CounterSteps(r: Report, e: Edge, dryRun: bool, failing: EdgeKey -> bool, kind: Kind)
    ensures Counter(Tallied(r, e, dryRun, failing(KeyOf(e))), kind)
         == Counter(r, kind) + if Falls(e, dryRun, failing, kind) then 1 else 0
  {
    ExtractSees(e.properties);
  }

  /** Each counter counts exactly the edges of its class. */
  lemma {:induction false} CountersMean(r: Report, snapshot: seq<Edge>, dryRun: bool, failing: EdgeKey -> bool,
                                        kind: Kind)
    ensures Counter(Tally(r, snapshot, dryRun, failing), kind)
         == Counter(r, kind) + HowMany(snapshot, dryRun, failing, kind)
    decreases |snapshot|
  {
    if snapshot != [] {
      var e := snapshot[0];
      CounterSteps(r, e, dryRun, failing, kind);
      CountersMean(Tallied(r, e, dryRun, failing(KeyOf(e))), snapshot[1..], dryRun, failing, kind);
    }
  }

  /** The live report predicted by a dry one. */
  ghost predicate Predicts(dry: Report, live: Report) {
    && dry.migrated == live.migrated + |live.errors| && dry.errors == [] && dry.emitted == 0
    && dry.scanned == live.scanned && dry.already == live.already && dry.noLegacy == live.noLegacy
    && dry.malformed == live.malformed
    && live.emitted == live.malformed
  }

  /** A dry run reports what the live run will do, failing upserts counted as migrations, and emits nothing. */
  lemma {:induction false} DryRunPredicts(dry: Report, live: Report, snapshot: seq<Edge>, failing: EdgeKey -> bool)
    requires Predicts(dry, live)
    ensures Predicts(Tally(dry, snapshot, true, failing), Tally(live, snapshot, false, failing))
    decreases |snapshot|
  {
    if snapshot != [] {
      var e := snapshot[0];
      DryRunPredicts(Tallied(dry, e, true, failing(KeyOf(e))), Tallied(live, e, false, failing(KeyOf(e))),
                     snapshot[1..], failing);
    }
  }

  /** A dry run leaves the store as it was. */
  lemma DryRunWritesNothing(before: seq<Edge>, after: seq<Edge>, snapshot: seq<Edge>, failing: EdgeKey -> bool)
    requires SettledAll(before, after, snapshot, true, failing)
    ensures after == before
  {
  }

  /** After a live run an edge of the snapshot is a candidate again only when its upsert failed. */
  lemma SettledClass(e: Edge, snapshot: seq<Edge>, failing: EdgeKey -> bool)
    requires e in snapshot
    ensures Classify(Settled(e, snapshot, false, failing)).Candidate? <==> Classify(e).Candidate? && failing(KeyOf(e))
  {
    if Classify(e).Candidate? && !failing(KeyOf(e)) {
      MigratedIsDone(e);
    }
  }

  lemma SettledKeeps(e: Edge, snapshot: seq<Edge>, failing: EdgeKey -> bool)
    ensures KeyOf(Settled(e, snapshot, false, failing)) == KeyOf(e)
  {
  }

  /** A run leaves ids and keys alone, so another run can follow. */
  lemma SettledStaysWellFormed(before: seq<Edge>, after: seq<Edge>, snapshot: seq<Edge>, dryRun: bool,
                               failing: EdgeKey -> bool)
    requires WellFormed(before) && SettledAll(before, after, snapshot, dryRun, failing)
    ensures WellFormed(after)
  {
    forall i | 0 <= i < |after| ensures after[i].id == before[i].id && KeyOf(after[i]) == KeyOf(before[i]) {
      assert after[i] == Settled(before[i], snapshot, dryRun, failing);
    }
  }

  lemma {:induction false} NothingToMigrate(r: Report, snapshot: seq<Edge>, dryRun: bool, failing: EdgeKey -> bool)
    requires forall i :: 0 <= i < |snapshot| && Classify(snapshot[i]).Candidate? ==>
             failing(KeyOf(snapshot[i])) && !dryRun
    ensures Tally(r, snapshot, dryRun, failing).migrated == r.migrated
    decreases |snapshot|
  {
    if snapshot != [] {
      NothingToMigrate(Tallied(r, snapshot[0], dryRun, failing(KeyOf(snapshot[0]))), snapshot[1..], dryRun, failing);
    }
  }

  /**
   After a live run, a second live run in which the same upserts fail migrates
   nothing; when none fail, neither does a dry one.
   */
  lemma SecondRunMigratesNothing(before: seq<Edge>, after: seq<Edge>, nodes: seq<string>, first: seq<Edge>,
                                 second: seq<Edge>, failing: EdgeKey -> bool, dryRun: bool)
    requires SettledAll(before, after, first, false, failing)
    requires forall e :: e in first <==> e in before && e.source in Current(nodes)
    requires forall e :: e in second <==> e in after && e.source in Current(nodes)
    ensures !dryRun || (forall key :: !failing(key)) ==> Tally(BLANK, second, dryRun, failing).migrated == 0
  {
    forall i | 0 <= i < |second| && Classify(second[i]).Candidate? ensures failing(KeyOf(second[i])) {
      assert second[i] in second;
      var k :| 0 <= k < |after| && after[k] == second[i];
      assert before[k] in before;
      SettledKeeps(before[k], first, failing);
      SettledClass(before[k], first, failing);
    }
    if !dryRun || forall key :: !failing(key) {
      NothingToMigrate(BLANK, second, dryRun, failing);
    }
  }

  // ------------------------------------------------------------------
  // Drift, and edges out of reach
  // ------------------------------------------------------------------

  /** What a run takes its snapshot to be. */
  ghost predicate IsSnapshot(snapshot: seq<Edge>, edges: seq<Edge>, nodes: seq<string>) {
    DistinctIds(snapshot) && forall e :: e in snapshot <==> e in edges && e.source in Current(nodes)
  }

  /** Drift is raised exactly when more than one scanned edge in a hundred is malformed. */
  lemma DriftsExactlyWhen(snapshot: seq<Edge>, dryRun: bool, failing: EdgeKey -> bool)
    ensures Drifting(Tally(BLANK, snapshot, dryRun, failing)) <==>
            HowMany(snapshot, dryRun, failing, IsMalformed) * 100 > |snapshot|
  {
    EveryEdgeCountedOnce(BLANK, snapshot, dryRun, failing);
    CountersMean(BLANK, snapshot, dryRun, failing, IsMalformed);
    assert Counter(Tally(BLANK, snapshot, dryRun, failing), IsMalformed)
        == Tally(BLANK, snapshot, dryRun, failing).malformed;
    if snapshot == [] {
      assert HowMany(snapshot, dryRun, failing, IsMalformed) == 0;
    }
  }

  /** Moving a candidate changes it. */
  lemma MigratedDiffers(e: Edge)
    requires Classify(e).Candidate?
    ensures Migrated(e) != e
  {
    MigratedIsDone(e);
  }

  /**
   A run, drifting or not, leaves the store as it was exactly when it is a dry one or
   the write of every candidate it scanned fails. Drift holds nothing back.
   */
  lemma WritesNothingExactlyWhen(before: seq<Edge>, after: seq<Edge>, snapshot: seq<Edge>, dryRun: bool,
                                 failing: EdgeKey -> bool)
    requires SettledAll(before, after, snapshot, dryRun, failing) && forall e :: e in snapshot ==> e in before
    ensures after == before <==> dryRun || forall e :: e in snapshot && Classify(e).Candidate? ==> failing(KeyOf(e))
  {
    if !dryRun {
      forall e | e in snapshot && Classify(e).Candidate? && !failing(KeyOf(e)) ensures after != before {
        var i :| 0 <= i < |before| && before[i] == e;
        MigratedDiffers(e);
        assert after[i] == Migrated(e);
      }
    }
  }

  const GOOD := Edge("1", "a", "b", "k", map[], map["agent_id" := Str("x")])
  const BAD := Edge("2", "a", "c", "k", map[], map["agent_id" := Bool(true)])

  lemma GoodAndBad()
    ensures Classify(GOOD).Candidate? && Classify(BAD).Malformed? && WellFormed([GOOD, BAD])
  {
    ExtractSees(GOOD.properties);
    ExtractSees(BAD.properties);
    assert PROVENANCE_FIELDS[1] == "agent_id";
    assert Get(GOOD.properties, "agent_id") == Str("x") && Get(BAD.properties, "agent_id") == Bool(true);
    assert !BadValue(GOOD.properties) && BadValue(BAD.properties);
  }

  lemma HowManyOfTwo(a: Edge, b: Edge, failing: EdgeKey -> bool)
    ensures HowMany([a, b], false, failing, IsMalformed) ==
            (if Falls(a, false, failing, IsMalformed) then 1 else 0)
            + if Falls(b, false, failing, IsMalformed) then 1 else 0
  {
    assert [a, b][1..] == [b] && [b][1..] == [];
    assert HowMany([b], false, failing, IsMalformed) == if Falls(b, false, failing, IsMalformed) then 1 else 0;
  }

  lemma MalformedIsBad(e: Edge)
    ensures Classify(e).Malformed? <==> AllNull(e.columns) && BadValue(e.properties)
  {
    ExtractSees(e.properties);
  }

  lemma OneMalformedOfTwo(snapshot: seq<Edge>, failing: EdgeKey -> bool)
    requires snapshot == [GOOD, BAD] || snapshot == [BAD, GOOD]
    ensures HowMany(snapshot, false, failing, IsMalformed) == 1
  {
    GoodAndBad();
    MalformedIsBad(GOOD);
    MalformedIsBad(BAD);
    HowManyOfTwo(snapshot[0], snapshot[1], failing);
    assert snapshot == [snapshot[0], snapshot[1]];
  }

  lemma AtMostTwo<T>(u: seq<T>, a: T, b: T)
    requires forall i :: 0 <= i < |u| ==> u[i] == a || u[i] == b
    ensures |u| > 2 ==> exists i, j :: 0 <= i < j < |u| && u[i] == u[j]
  {
    if |u| > 2 {
      if u[0] != u[1] {
        assert u[2] == u[0] || u[2] == u[1];
      }
    }
  }

  lemma SnapshotOfTwo(snapshot: seq<Edge>)
    requires DistinctIds(snapshot) && forall e :: e in snapshot <==> e in [GOOD, BAD]
    ensures snapshot == [GOOD, BAD] || snapshot == [BAD, GOOD]
  {
    assert GOOD in [GOOD, BAD] && BAD in [GOOD, BAD];
    assert GOOD in snapshot && BAD in snapshot;
    forall i | 0 <= i < |snapshot| ensures snapshot[i] == GOOD || snapshot[i] == BAD {
      assert snapshot[i] in snapshot;
    }
    AtMostTwo(snapshot, GOOD, BAD);
  }

  lemma TwoSettled(after: seq<Edge>, snapshot: seq<Edge>, failing: EdgeKey -> bool)
    requires Classify(GOOD).Candidate? && Classify(BAD).Malformed? && GOOD in snapshot && !failing(KeyOf(GOOD))
    requires SettledAll([GOOD, BAD], after, snapshot, false, failing)
    ensures after == [Migrated(GOOD), BAD] && after != [GOOD, BAD]
  {
    MigratedDiffers(GOOD);
    assert after[0] == Migrated(GOOD) && after[1] == BAD;
  }

  /** Two edges, one of them malformed: the run asks to look into the data first, and has written already. */
  lemma ADriftedRunHasWritten(nodes: seq<string>, after: seq<Edge>, snapshot: seq<Edge>, failing: EdgeKey -> bool)
    requires "a" in Current(nodes) && !failing(KeyOf(GOOD)) && IsSnapshot(snapshot, [GOOD, BAD], nodes)
    requires SettledAll([GOOD, BAD], after, snapshot, false, failing)
    ensures Drifting(Tally(BLANK, snapshot, false, failing))
    ensures Classify(GOOD).Candidate? && after == [Migrated(GOOD), BAD] && after != [GOOD, BAD]
  {
    GoodAndBad();
    assert forall e :: e in [GOOD, BAD] ==> e.source == "a";
    SnapshotOfTwo(snapshot);
    OneMalformedOfTwo(snapshot, failing);
    DriftsExactlyWhen(snapshot, false, failing);
    TwoSettled(after, snapshot, failing);
  }

  lemma StaysCandidate(e: Edge, snapshot: seq<Edge>, failing: EdgeKey -> bool)
    ensures Classify(Settled(e, snapshot, false, failing)).Candidate? <==>
            Classify(e).Candidate? && !(e in snapshot && !failing(KeyOf(e)))
  {
    if e in snapshot {
      SettledClass(e, snapshot, failing);
    }
  }

  /** A live run moves every legacy edge it can exactly when each has a listed source and a write that works. */
  lemma LeavesNoCandidateExactlyWhen(before: seq<Edge>, after: seq<Edge>, snapshot: seq<Edge>, nodes: seq<string>,
                                     failing: EdgeKey -> bool)
    requires IsSnapshot(snapshot, before, nodes) && SettledAll(before, after, snapshot, false, failing)
    ensures (forall e :: e in after ==> !Classify(e).Candidate?) <==>
            forall e :: e in before && Classify(e).Candidate? ==> e.source in Current(nodes) && !failing(KeyOf(e))
  {
    forall i | 0 <= i < |before|
      ensures Classify(after[i]).Candidate? <==>
              Classify(before[i]).Candidate? && !(before[i].source in Current(nodes) && !failing(KeyOf(before[i])))
    {
      StaysCandidate(before[i], snapshot, failing);
      assert before[i] in before;
    }
    forall i | 0 <= i < |before| ensures before[i] in before && after[i] in after {
    }
  }

  lemma HasMember<T>(u: seq<T>)
    ensures u != [] ==> exists x :: x in u
  {
    if u != [] {
      assert u[0] in u;
    }
  }

  /**
   The store takes an edge of any source; one whose source is not listed is passed by,
   and the run says nothing of it.
   */
  lemma AnUnlistedSourceIsPassedBy(nodes: seq<string>, after: seq<Edge>, snapshot: seq<Edge>, failing: EdgeKey -> bool)
    requires GOOD.source !in Current(nodes) && IsSnapshot(snapshot, [GOOD], nodes)
    requires SettledAll([GOOD], after, snapshot, false, failing)
    ensures after == [GOOD] && Classify(GOOD).Candidate?
    ensures Tally(BLANK, snapshot, false, failing) == BLANK
  {
    GoodAndBad();
    forall e ensures e !in snapshot {
      assert e in [GOOD] ==> e == GOOD;
    }
    HasMember(snapshot);
    assert after[0] == GOOD;
  }

  // ------------------------------------------------------------------
  // What the classes mean, value by value
  // ------------------------------------------------------------------

  predicate Present(fields: Fields, key: string) {
    key in fields && fields[key] != Null
  }

  predicate AnyPresent(fields: Fields) {
    Present(fields, "source_trace_id") || Present(fields, "agent_id") || Present(fields, "confidence")
    || Present(fields, "evidence_ref") || Present(fields, "extractor_tier")
  }

  predicate TextIfPresent(fields: Fields, key: string) {
    Present(fields, key) ==> fields[key].Str?
  }

  /** Three texts, a share between nought and one, and a tier in one of its two spellings. */
  predicate AllFit(fields: Fields) {
    && TextIfPresent(fields, "source_trace_id") && TextIfPresent(fields, "agent_id")
    && TextIfPresent(fields, "evidence_ref")
    && (Present(fields, "confidence") ==>
          fields["confidence"].Num? && 0.0 <= fields["confidence"].n <= 1.0)
    && (Present(fields, "extractor_tier") ==>
          var tier := fields["extractor_tier"];
          tier == Str("DETERMINISTIC") || tier == Str("HYBRID") || tier == Str("LLM")
          || tier == Str("deterministic") || tier == Str("hybrid") || tier == Str("llm"))
  }

  lemma AllNullMeans(fields: Fields)
    ensures AllNull(fields) <==> !AnyPresent(fields)
  {
    assert PROVENANCE_FIELDS[0] == "source_trace_id" && PROVENANCE_FIELDS[1] == "agent_id";
    assert PROVENANCE_FIELDS[2] == "confidence" && PROVENANCE_FIELDS[3] == "evidence_ref";
    assert PROVENANCE_FIELDS[4] == "extractor_tier" && |PROVENANCE_FIELDS| == 5;
  }

  lemma BadValueMeans(fields: Fields)
    ensures BadValue(fields) <==> !AllFit(fields)
  {
  }

  /** An edge's class, told from its five columns and its five legacy values. */
  lemma ClassMeans(e: Edge)
    ensures Classify(e).Already? <==> AnyPresent(e.columns)
    ensures Classify(e).NoLegacy? <==> !AnyPresent(e.columns) && !AnyPresent(e.properties)
    ensures Classify(e).Candidate? <==> !AnyPresent(e.columns) && AnyPresent(e.properties) && AllFit(e.properties)
    ensures Classify(e).Malformed? <==> !AnyPresent(e.columns) && !AllFit(e.properties)
  {
    AllNullMeans(e.columns);
    AllNullMeans(e.properties);
    BadValueMeans(e.properties);
    ExtractSees(e.properties);
  }

  /** The stored spelling of a tier. */
  lemma TierMeans(e: Edge)
    requires Classify(e).Candidate? && Present(e.properties, "extractor_tier")
    ensures var before, after := e.properties["extractor_tier"], Get(Migrated(e).columns, "extractor_tier");
            && (after == Str("DETERMINISTIC") <==> before == Str("DETERMINISTIC") || before == Str("deterministic"))
            && (after == Str("HYBRID") <==> before == Str("HYBRID") || before == Str("hybrid"))
            && (after == Str("LLM") <==> before == Str("LLM") || before == Str("llm"))
  {
    MigrationIsLossless(e, "extractor_tier");
    ClassMeans(e);
  }
}
