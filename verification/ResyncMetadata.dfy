/** The metadata repair: make each vector row agree with its document on the mirrored keys, and touch nothing else. */
module ResyncMetadata {
  import opened Common
  import opened Documents

  const MIRRORED_KEYS: seq<string> := ["content_tags", "auto_importance", "lifecycle", "data_classification"]

  /** A row read that raises, and a sync that fails after its own read or write, by document id. */
  datatype Faults = Faults(onRead: string -> bool, onSync: string -> bool)

  predicate KeyAgrees(source: Fields, target: Fields, key: string) {
    (key in source <==> key in target) && (key in source ==> target[key] == source[key])
  }

  predicate Diverges(source: Fields, target: Fields) {
    exists i :: 0 <= i < |MIRRORED_KEYS| && !KeyAgrees(source, target, MIRRORED_KEYS[i])
  }

  function MirrorKey(source: Fields, target: Fields, key: string): Fields {
    if key in source then target[key := source[key]] else target - {key}
  }

  function Mirror(source: Fields, target: Fields, keys: seq<string>): Fields
    decreases |keys|
  {
    if keys == [] then target else Mirror(source, MirrorKey(source, target, keys[0]), keys[1..])
  }

  /** Mirroring makes exactly the listed keys agree and leaves every other key alone. */
  lemma {:induction false} MirrorMeans(source: Fields, target: Fields, keys: seq<string>, key: string)
    ensures key in keys ==> KeyAgrees(source, Mirror(source, target, keys), key)
    ensures key !in keys ==> KeyAgrees(target, Mirror(source, target, keys), key)
    decreases |keys|
  {
    if keys != [] {
      var next := MirrorKey(source, target, keys[0]);
      MirrorMeans(source, next, keys[1..], key);
      if key == keys[0] && key !in keys[1..] {
        assert KeyAgrees(next, Mirror(source, next, keys[1..]), key);
      }
    }
  }

  lemma MirrorConverges(source: Fields, target: Fields)
    ensures !Diverges(source, Mirror(source, target, MIRRORED_KEYS))
  {
    forall i | 0 <= i < |MIRRORED_KEYS|
      ensures KeyAgrees(source, Mirror(source, target, MIRRORED_KEYS), MIRRORED_KEYS[i])
    {
      MirrorMeans(source, target, MIRRORED_KEYS, MIRRORED_KEYS[i]);
    }
  }

  datatype Counts = Counts(divergent: nat, repaired: nat, missing: nat, errors: nat)

  const NOTHING := Counts(0, 0, 0, 0)

  function Repaired(row: VectorRow, source: Fields): VectorRow {
    row.(metadata := Mirror(source, row.metadata, MIRRORED_KEYS))
  }

  /** What one document does to the rows and the counters. */
  function ResyncDoc(faults: Faults, dryRun: bool, rows: Rows, c: Counts, doc: Doc): (Rows, Counts) {
    if doc.id == "" then (rows, c)
    else if faults.onRead(doc.id) then (rows, c.(errors := c.errors + 1))
    else if doc.id !in rows then (rows, c.(missing := c.missing + 1))
    else if !Diverges(doc.metadata, rows[doc.id].metadata) then (rows, c)
    else
      var d := c.(divergent := c.divergent + 1);
      if dryRun then (rows, d)
      else if faults.onSync(doc.id) then (rows, d.(errors := d.errors + 1))
      else (rows[doc.id := Repaired(rows[doc.id], doc.metadata)], d.(repaired := d.repaired + 1))
  }

  function ResyncAll(faults: Faults, dryRun: bool, rows: Rows, c: Counts, docs: seq<Doc>): (Rows, Counts)
    decreases |docs|
  {
    if docs == [] then (rows, c)
    else
      var next := ResyncDoc(faults, dryRun, rows, c, docs[0]);
      ResyncAll(faults, dryRun, next.0, next.1, docs[1..])
  }

  // ------------------------------------------------------------------
  // The loop
  // ------------------------------------------------------------------

  /** Mirroring one key leaves the later ones as they were at the start. */
  lemma MirrorTurn(source: Fields, start: Fields, target: Fields, i: nat)
    requires i < |MIRRORED_KEYS|
    requires forall k :: i <= k < |MIRRORED_KEYS| ==> KeyAgrees(start, target, MIRRORED_KEYS[k])
    ensures KeyAgrees(source, target, MIRRORED_KEYS[i]) <==> KeyAgrees(source, start, MIRRORED_KEYS[i])
    ensures forall k :: i < k < |MIRRORED_KEYS| ==>
              KeyAgrees(start, MirrorKey(source, target, MIRRORED_KEYS[i]), MIRRORED_KEYS[k])
  {
    assert KeyAgrees(start, target, MIRRORED_KEYS[i]);
    forall k | i < k < |MIRRORED_KEYS|
      ensures KeyAgrees(start, MirrorKey(source, target, MIRRORED_KEYS[i]), MIRRORED_KEYS[k])
    {
      assert MIRRORED_KEYS[k] != MIRRORED_KEYS[i];
    }
  }

  /** Mirrors key by key, and notices whether anything had to change. */
  method MirrorInto(source: Fields, start: Fields) returns (target: Fields, changed: bool)
    ensures target == Mirror(source, start, MIRRORED_KEYS)
    ensures changed <==> Diverges(source, start)
  {
    target, changed := start, false;
    var i := 0;
    while i < |MIRRORED_KEYS|
      invariant i <= |MIRRORED_KEYS|
      invariant Mirror(source, target, MIRRORED_KEYS[i..]) == Mirror(source, start, MIRRORED_KEYS)
      invariant changed <==> exists k :: 0 <= k < i && !KeyAgrees(source, start, MIRRORED_KEYS[k])
      invariant forall k :: i <= k < |MIRRORED_KEYS| ==> KeyAgrees(start, target, MIRRORED_KEYS[k])
    {
      var key := MIRRORED_KEYS[i];
      assert MIRRORED_KEYS[i..][0] == key && MIRRORED_KEYS[i..][1..] == MIRRORED_KEYS[i + 1..];
      MirrorTurn(source, start, target, i);
      changed := changed || !KeyAgrees(source, target, key);
      target := MirrorKey(source, target, key);
      i := i + 1;
    }
  }

  /** The metadata-only re-upsert; true when the row was rewritten. */
  method SyncVectorMetadata(store: VectorStore, faults: Faults, id: string, source: Fields) returns (synced: bool)
    modifies store
    ensures synced <==> !faults.onSync(id) && id in old(store.rows) && Diverges(source, old(store.rows)[id].metadata)
    ensures store.rows ==
            if synced then old(store.rows)[id := Repaired(old(store.rows)[id], source)] else old(store.rows)
  {
    var found := store.Find(id);
    if faults.onSync(id) || found.None? {
      return false;
    }
    var target;
    target, synced := MirrorInto(source, found.value.metadata);
    if synced {
      store.Upsert(id, found.value.(metadata := target));
    }
  }

  /** Judges one document and repairs its row when they disagree. */
  method ResyncOne(faults: Faults, dryRun: bool, store: VectorStore, c: Counts, doc: Doc) returns (d: Counts)
    modifies store
    ensures (store.rows, d) == ResyncDoc(faults, dryRun, old(store.rows), c, doc)
  {
    d := c;
    if doc.id == "" {
      return;
    }
    if faults.onRead(doc.id) {
      d := d.(errors := d.errors + 1);
      return;
    }
    var row := store.Find(doc.id);
    if row.None? {
      d := d.(missing := d.missing + 1);
      return;
    }
    if !Diverges(doc.metadata, row.value.metadata) {
      return;
    }
    d := d.(divergent := d.divergent + 1);
    if dryRun {
      return;
    }
    var synced := SyncVectorMetadata(store, faults, doc.id, doc.metadata);
    if synced {
      d := d.(repaired := d.repaired + 1);
    } else {
      d := d.(errors := d.errors + 1);
    }
  }

  lemma {:induction false} ResyncAppend(faults: Faults, dryRun: bool, rows: Rows, c: Counts, a: seq<Doc>, b: seq<Doc>)
    ensures var mid := ResyncAll(faults, dryRun, rows, c, a);
            ResyncAll(faults, dryRun, rows, c, a + b) == ResyncAll(faults, dryRun, mid.0, mid.1, b)
    decreases |a|
  {
    if a == [] {
      assert a + b == b;
    } else {
      assert (a + b)[0] == a[0] && (a + b)[1..] == a[1..] + b;
      var next := ResyncDoc(faults, dryRun, rows, c, a[0]);
      ResyncAppend(faults, dryRun, next.0, next.1, a[1..], b);
    }
  }

  /** The documents of one page in turn. */
  method ResyncPage(faults: Faults, dryRun: bool, store: VectorStore, c: Counts, page: seq<Doc>) returns (d: Counts)
    modifies store
    ensures (store.rows, d) == ResyncAll(faults, dryRun, old(store.rows), c, page)
  {
    d := c;
    var i := 0;
    while i < |page|
      invariant i <= |page|
      invariant ResyncAll(faults, dryRun, store.rows, d, page[i..])
             == ResyncAll(faults, dryRun, old(store.rows), c, page)
    {
      assert page[i..][0] == page[i] && page[i..][1..] == page[i + 1..];
      d := ResyncOne(faults, dryRun, store, d, page[i]);
      i := i + 1;
    }
  }

  /**
   The command: every visited document in order and once, each repair seen by the
   next. The page size leaves no trace in the result, repeated ids included.
   */
  method RunResyncVectorMetadata(faults: Faults, docs: seq<Doc>, store: VectorStore, batchSize: int, limit: int,
                                 dryRun: bool)
    returns (scanned: nat, c: Counts)
    modifies store
    ensures scanned == Visited(docs, batchSize, limit)
    ensures (store.rows, c) == ResyncAll(faults, dryRun, old(store.rows), NOTHING, docs[..scanned])
  {
    ghost var n := Visited(docs, batchSize, limit);
    scanned, c := 0, NOTHING;
    var offset := 0;
    while true
      invariant scanned == offset <= n
      invariant (store.rows, c) == ResyncAll(faults, dryRun, old(store.rows), NOTHING, docs[..scanned])
      decreases n - scanned
    {
      NextPage(docs, batchSize, limit, scanned);
      var pageSize := PageSize(batchSize, limit, scanned);
      if pageSize <= 0 {
        break;
      }
      var page := ListDocuments(docs, pageSize, offset);
      if page == [] {
        break;
      }
      ResyncAppend(faults, dryRun, old(store.rows), NOTHING, docs[..scanned], page);
      assert docs[..scanned + |page|] == docs[..scanned] + page;
      offset := offset + |page|;
      scanned := scanned + |page|;
      c := ResyncPage(faults, dryRun, store, c, page);
    }
  }

  // ------------------------------------------------------------------
  // What a run keeps and what it achieves
  // ------------------------------------------------------------------

  /** The same rows, with the same vectors and the same metadata outside the mirrored keys. */
  ghost predicate OnlyMirrored(a: Rows, b: Rows) {
    && a.Keys == b.Keys
    && forall id :: id in a ==>
         a[id].vector == b[id].vector
         && forall key :: key !in MIRRORED_KEYS ==> KeyAgrees(a[id].metadata, b[id].metadata, key)
  }

  lemma DocKeeps(faults: Faults, dryRun: bool, rows: Rows, c: Counts, doc: Doc)
    ensures OnlyMirrored(rows, ResyncDoc(faults, dryRun, rows, c, doc).0)
  {
    if doc.id in rows {
      forall key | key !in MIRRORED_KEYS
        ensures KeyAgrees(rows[doc.id].metadata, Repaired(rows[doc.id], doc.metadata).metadata, key)
      {
        MirrorMeans(doc.metadata, rows[doc.id].metadata, MIRRORED_KEYS, key);
      }
    }
  }

  lemma OnlyMirroredTrans(a: Rows, b: Rows, c: Rows)
    requires OnlyMirrored(a, b) && OnlyMirrored(b, c)
    ensures OnlyMirrored(a, c)
  {
    forall id, key | id in a && key !in MIRRORED_KEYS ensures KeyAgrees(a[id].metadata, c[id].metadata, key) {
      assert KeyAgrees(a[id].metadata, b[id].metadata, key) && KeyAgrees(b[id].metadata, c[id].metadata, key);
    }
  }

  /** A run creates and drops no row and changes nothing outside the mirrored keys; a dry run changes nothing. */
  lemma {:induction false} RunKeeps(faults: Faults, dryRun: bool, rows: Rows, c: Counts, docs: seq<Doc>)
    ensures OnlyMirrored(rows, ResyncAll(faults, dryRun, rows, c, docs).0)
    ensures dryRun ==> ResyncAll(faults, dryRun, rows, c, docs).0 == rows
    decreases |docs|
  {
    if docs != [] {
      var next := ResyncDoc(faults, dryRun, rows, c, docs[0]);
      DocKeeps(faults, dryRun, rows, c, docs[0]);
      RunKeeps(faults, dryRun, next.0, next.1, docs[1..]);
      OnlyMirroredTrans(rows, next.0, ResyncAll(faults, dryRun, rows, c, docs).0);
    }
  }

  ghost predicate Agrees(rows: Rows, doc: Doc) {
    doc.id in rows ==> !Diverges(doc.metadata, rows[doc.id].metadata)
  }

  ghost predicate FaultFree(faults: Faults) {
    forall id :: !faults.onRead(id) && !faults.onSync(id)
  }

  /** Documents with other ids leave a row alone. */
  lemma {:induction false} OthersLeaveIt(faults: Faults, dryRun: bool, rows: Rows, c: Counts, docs: seq<Doc>,
                                         id: string)
    requires forall i :: 0 <= i < |docs| ==> docs[i].id != id
    ensures var after := ResyncAll(faults, dryRun, rows, c, docs).0;
            (id in after <==> id in rows) && (id in rows ==> after[id] == rows[id])
    decreases |docs|
  {
    if docs != [] {
      var next := ResyncDoc(faults, dryRun, rows, c, docs[0]);
      OthersLeaveIt(faults, dryRun, next.0, next.1, docs[1..], id);
    }
  }

  /** A document whose row the run can read and rewrite. */
  predicate Repairable(faults: Faults, doc: Doc) {
    doc.id != "" && !faults.onRead(doc.id) && !faults.onSync(doc.id)
  }

  /**
   After a run a visited document agrees with its row exactly when it did before, or the
   run is live and neither its own read nor its own sync fails, whatever fails elsewhere.
   */
  lemma {:induction false} RunRepairs(faults: Faults, dryRun: bool, rows: Rows, c: Counts, docs: seq<Doc>, doc: Doc)
    requires UniqueIds(docs) && doc in docs
    ensures Agrees(ResyncAll(faults, dryRun, rows, c, docs).0, doc) <==>
            Agrees(rows, doc) || (!dryRun && Repairable(faults, doc))
    decreases |docs|
  {
    var next := ResyncDoc(faults, dryRun, rows, c, docs[0]);
    if doc == docs[0] {
      OthersLeaveIt(faults, dryRun, next.0, next.1, docs[1..], doc.id);
      if doc.id in rows {
        MirrorConverges(doc.metadata, rows[doc.id].metadata);
      }
    } else {
      RunRepairs(faults, dryRun, next.0, next.1, docs[1..], doc);
      assert docs[0].id != doc.id;
    }
  }

  /** Where every document agrees or cannot be repaired, a run writes nothing. */
  lemma {:induction false} SettledRunDoesNothing(faults: Faults, dryRun: bool, rows: Rows, c: Counts, docs: seq<Doc>)
    requires forall i :: 0 <= i < |docs| ==> Agrees(rows, docs[i]) || !Repairable(faults, docs[i])
    ensures var (rows', c') := ResyncAll(faults, dryRun, rows, c, docs);
            && rows' == rows && c'.repaired == c.repaired
            && (FaultFree(faults) ==> c'.divergent == c.divergent && c'.errors == c.errors)
    decreases |docs|
  {
    if docs != [] {
      SettledRunDoesNothing(faults, dryRun, rows, ResyncDoc(faults, dryRun, rows, c, docs[0]).1, docs[1..]);
    }
  }

  /**
   The repair is idempotent: after a live run a second one that meets the same faults
   repairs nothing, and finds nothing divergent when there are none.
   */
  lemma SecondRunFindsNothing(faults: Faults, dryRun: bool, rows: Rows, docs: seq<Doc>)
    requires UniqueIds(docs)
    ensures var after := ResyncAll(faults, false, rows, NOTHING, docs).0;
            var (rows', c') := ResyncAll(faults, dryRun, after, NOTHING, docs);
            rows' == after && c'.repaired == 0 && (FaultFree(faults) ==> c'.divergent == 0 && c'.errors == 0)
  {
    var after := ResyncAll(faults, false, rows, NOTHING, docs).0;
    forall i | 0 <= i < |docs| ensures Agrees(after, docs[i]) || !Repairable(faults, docs[i]) {
      RunRepairs(faults, false, rows, NOTHING, docs, docs[i]);
    }
    SettledRunDoesNothing(faults, dryRun, after, NOTHING, docs);
  }

  datatype Kind = IsDivergent | IsRepaired | IsMissing | IsError

  function Counter(c: Counts, kind: Kind): nat {
    match kind
    case IsDivergent => c.divergent
    case IsRepaired => c.repaired
    case IsMissing => c.missing
    case IsError => c.errors
  }

  /** Which documents a counter counts, told from the rows before the run. */
  predicate Falls(faults: Faults, dryRun: bool, rows: Rows, doc: Doc, kind: Kind) {
    var readable := doc.id != "" && !faults.onRead(doc.id);
    var divergent := readable && doc.id in rows && Diverges(doc.metadata, rows[doc.id].metadata);
    match kind
    case IsDivergent => divergent
    case IsRepaired => divergent && !dryRun && !faults.onSync(doc.id)
    case IsMissing => readable && doc.id !in rows
    case IsError => doc.id != "" && (faults.onRead(doc.id) || (divergent && !dryRun && faults.onSync(doc.id)))
  }

  function HowMany(faults: Faults, dryRun: bool, rows: Rows, docs: seq<Doc>, kind: Kind): nat {
    if docs == [] then 0
    else (if Falls(faults, dryRun, rows, docs[0], kind) then 1 else 0) + HowMany(faults, dryRun, rows, docs[1..], kind)
  }

  /** The two stores hold the same rows at the ids of these documents. */
  ghost predicate SameRowsFor(a: Rows, b: Rows, docs: seq<Doc>) {
    forall i :: 0 <= i < |docs| ==>
      (docs[i].id in a <==> docs[i].id in b) && (docs[i].id in a ==> a[docs[i].id] == b[docs[i].id])
  }

  /** For unique ids each counter counts exactly its documents, as they stood before the run. */
  lemma {:induction false} CountersMean(faults: Faults, dryRun: bool, start: Rows, rows: Rows, c: Counts,
                                        docs: seq<Doc>, kind: Kind)
    requires UniqueIds(docs) && SameRowsFor(start, rows, docs)
    ensures Counter(ResyncAll(faults, dryRun, rows, c, docs).1, kind)
         == Counter(c, kind) + HowMany(faults, dryRun, start, docs, kind)
    decreases |docs|
  {
    if docs != [] {
      var next := ResyncDoc(faults, dryRun, rows, c, docs[0]);
      CountersMean(faults, dryRun, start, next.0, next.1, docs[1..], kind);
    }
  }

  /** In a live run every divergent row is repaired or an error; errors beyond those are failed reads. */
  lemma {:induction false} DivergentIsAccounted(faults: Faults, rows: Rows, c: Counts, docs: seq<Doc>)
    ensures var d := ResyncAll(faults, false, rows, c, docs).1;
            d.repaired - c.repaired + d.errors - c.errors >= d.divergent - c.divergent >= d.repaired - c.repaired
    ensures (forall id :: !faults.onRead(id)) ==>
            var d := ResyncAll(faults, false, rows, c, docs).1;
            d.repaired - c.repaired + d.errors - c.errors == d.divergent - c.divergent
    decreases |docs|
  {
    if docs != [] {
      var next := ResyncDoc(faults, false, rows, c, docs[0]);
      DivergentIsAccounted(faults, next.0, next.1, docs[1..]);
    }
  }

  predicate DiffersAt(source: Fields, target: Fields, key: string) {
    if key in source then key !in target || target[key] != source[key] else key in target
  }

  /** A document and its row diverge exactly when they differ at one of the four mirrored keys. */
  lemma DivergesMeans(source: Fields, target: Fields)
    ensures Diverges(source, target) <==>
            || DiffersAt(source, target, "content_tags") || DiffersAt(source, target, "auto_importance")
            || DiffersAt(source, target, "lifecycle") || DiffersAt(source, target, "data_classification")
  {
    assert MIRRORED_KEYS[0] == "content_tags" && MIRRORED_KEYS[1] == "auto_importance";
    assert MIRRORED_KEYS[2] == "lifecycle" && MIRRORED_KEYS[3] == "data_classification" && |MIRRORED_KEYS| == 4;
  }
}
