/** The vector backfill: page through the documents, decide on each, upsert the page's rows at its end. */
module ReindexVectors {
  import opened Common
  import opened Text
  import opened Documents

  const RESERVED_PREFIX := "trace-summary:"

  datatype Verdict = Permitted | Withheld | Unreadable

  datatype Embedding = Row(row: VectorRow) | Declined(verdict: Verdict) | Failed

  /** The egress gate and the embedder, as functions of the document. */
  datatype Oracles = Oracles(gate: Doc -> Verdict, embed: Doc -> Embedding)

  /** The seven ways a document is counted; `Embed` has a row to write, unless the run is dry. */
  datatype Treatment =
    | Empty
    | Reserved
    | Existing
    | NotPermitted
    | NotReadable
    | Errored
    | Embed(row: Option<VectorRow>)

  datatype Tally = Tally(embedded: nat, errors: nat, withheld: nat, unreadable: nat, existing: nat, empty: nat,
                         reserved: nat)

  const ZERO := Tally(0, 0, 0, 0, 0, 0, 0)

  predicate Blank(content: string) {
    Strip(content) == ""
  }

  predicate IsReserved(id: string) {
    RESERVED_PREFIX <= id
  }

  datatype SkipReason = SkipEmpty | SkipReserved | SkipExisting

  function ReasonToSkip(rows: Rows, doc: Doc, force: bool): Option<SkipReason> {
    if Blank(doc.content) then Some(SkipEmpty)
    else if IsReserved(doc.id) && doc.id !in rows then Some(SkipReserved)
    else if !force && doc.id in rows then Some(SkipExisting)
    else None
  }

  function Refused(verdict: Verdict): Treatment {
    if verdict.Unreadable? then NotReadable else NotPermitted
  }

  function EmbedOne(o: Oracles, dryRun: bool, doc: Doc): Treatment {
    var verdict := o.gate(doc);
    if verdict != Permitted then Refused(verdict)
    else if dryRun then Embed(None)
    else
      match o.embed(doc)
      case Row(row) => Embed(Some(row))
      case Declined(why) => Refused(why)
      case Failed => Errored
  }

  function Treat(o: Oracles, force: bool, dryRun: bool, rows: Rows, doc: Doc): Treatment {
    match ReasonToSkip(rows, doc, force)
    case Some(SkipEmpty) => Empty
    case Some(SkipReserved) => Reserved
    case Some(SkipExisting) => Existing
    case None => EmbedOne(o, dryRun, doc)
  }

  function Count(t: Tally, how: Treatment): Tally {
    match how
    case Empty => t.(empty := t.empty + 1)
    case Reserved => t.(reserved := t.reserved + 1)
    case Existing => t.(existing := t.existing + 1)
    case NotPermitted => t.(withheld := t.withheld + 1)
    case NotReadable => t.(unreadable := t.unreadable + 1)
    case Errored => t.(errors := t.errors + 1)
    case Embed(_) => t.(embedded := t.embedded + 1)
  }

  function Written(rows: Rows, doc: Doc, how: Treatment): Rows {
    if how.Embed? && how.row.Some? then rows[doc.id := how.row.value] else rows
  }

  /** One page: every document is judged against the rows before the page, and the page's rows land together. */
  function Page(o: Oracles, force: bool, dryRun: bool, before: Rows, rows: Rows, t: Tally, page: seq<Doc>):
    (Rows, Tally)
    decreases |page|
  {
    if page == [] then (rows, t)
    else
      var how := Treat(o, force, dryRun, before, page[0]);
      Page(o, force, dryRun, before, Written(rows, page[0], how), Count(t, how), page[1..])
  }

  /** The whole walk, `batch` documents to a page. */
  function Walk(o: Oracles, force: bool, dryRun: bool, rows: Rows, t: Tally, docs: seq<Doc>, batch: nat): (Rows, Tally)
    requires batch >= 1
    decreases |docs|
  {
    if docs == [] then (rows, t)
    else
      var k := if batch < |docs| then batch else |docs|;
      var (rows', t') := Page(o, force, dryRun, rows, rows, t, docs[..k]);
      Walk(o, force, dryRun, rows', t', docs[k..], batch)
  }

  /** The simple form: one document at a time, each written at once. */
  function OneByOne(o: Oracles, force: bool, dryRun: bool, rows: Rows, t: Tally, docs: seq<Doc>): (Rows, Tally)
    decreases |docs|
  {
    if docs == [] then (rows, t)
    else
      var how := Treat(o, force, dryRun, rows, docs[0]);
      OneByOne(o, force, dryRun, Written(rows, docs[0], how), Count(t, how), docs[1..])
  }

  // ------------------------------------------------------------------
  // The loop
  // ------------------------------------------------------------------

  lemma PageStep(o: Oracles, force: bool, dryRun: bool, before: Rows, rows: Rows, t: Tally, page: seq<Doc>, i: nat)
    requires i < |page|
    ensures var how := Treat(o, force, dryRun, before, page[i]);
            Page(o, force, dryRun, before, rows, t, page[i..]) ==
            Page(o, force, dryRun, before, Written(rows, page[i], how), Count(t, how), page[i + 1..])
  {
    assert page[i..][0] == page[i] && page[i..][1..] == page[i + 1..];
  }

  /** The counters once the pending rows are written. */
  function Landed(t: Tally, pending: seq<(string, VectorRow)>): Tally {
    t.(embedded := t.embedded + |pending|)
  }

  /** Embeds one document; when it gives no row, a counter says why. */
  method EmbedDoc(o: Oracles, dryRun: bool, doc: Doc, tally: Tally) returns (row: Option<VectorRow>, after: Tally)
    ensures var how := EmbedOne(o, dryRun, doc);
            && row == (if how.Embed? then how.row else None)
            && after == (if row.Some? then tally else Count(tally, how))
  {
    row, after := None, tally;
    var verdict := o.gate(doc);
    if dryRun {
      after := Count(tally, if verdict == Permitted then Embed(None) else Refused(verdict));
      return;
    }
    if verdict != Permitted {
      after := Count(tally, Refused(verdict));
      return;
    }
    match o.embed(doc)
    case Row(built) => row := Some(built);
    case Declined(why) => after := Count(tally, Refused(why));
    case Failed => after := Count(tally, Errored);
  }

  function UpsertAll(rows: Rows, pending: seq<(string, VectorRow)>): Rows
    decreases |pending|
  {
    if pending == [] then rows else UpsertAll(rows[pending[0].0 := pending[0].1], pending[1..])
  }

  lemma {:induction false} UpsertLast(rows: Rows, pending: seq<(string, VectorRow)>, item: (string, VectorRow))
    ensures UpsertAll(rows, pending + [item]) == UpsertAll(rows, pending)[item.0 := item.1]
    decreases |pending|
  {
    if pending == [] {
      assert [item][1..] == [];
    } else {
      assert (pending + [item])[1..] == pending[1..] + [item];
      UpsertLast(rows[pending[0].0 := pending[0].1], pending[1..], item);
    }
  }

  /** Judges one document of a page: skipped, counted, or its row added to the pending ones. */
  method TreatDoc(o: Oracles, force: bool, dryRun: bool, store: VectorStore, doc: Doc,
                  pending: seq<(string, VectorRow)>, tally: Tally)
    returns (pending': seq<(string, VectorRow)>, after: Tally)
    ensures var how := Treat(o, force, dryRun, store.rows, doc);
            && UpsertAll(store.rows, pending') == Written(UpsertAll(store.rows, pending), doc, how)
            && Landed(after, pending') == Count(Landed(tally, pending), how)
  {
    pending', after := pending, tally;
    match ReasonToSkip(store.rows, doc, force)
    case Some(SkipEmpty) => after := after.(empty := after.empty + 1);
    case Some(SkipReserved) => after := after.(reserved := after.reserved + 1);
    case Some(SkipExisting) => after := after.(existing := after.existing + 1);
    case None =>
      var row;
      row, after := EmbedDoc(o, dryRun, doc, tally);
      if row.Some? {
        UpsertLast(store.rows, pending, (doc.id, row.value));
        pending' := pending + [(doc.id, row.value)];
      }
  }

  /** The rows of one page, in order; counters are kept on the way, except for rows to be written. */
  method EmbedPage(o: Oracles, force: bool, dryRun: bool, store: VectorStore, tally: Tally, page: seq<Doc>)
    returns (pending: seq<(string, VectorRow)>, after: Tally)
    ensures Page(o, force, dryRun, store.rows, store.rows, tally, page)
         == (UpsertAll(store.rows, pending), Landed(after, pending))
  {
    pending, after := [], tally;
    var i := 0;
    assert page[0..] == page;
    while i < |page|
      invariant i <= |page|
      invariant Page(o, force, dryRun, store.rows, UpsertAll(store.rows, pending), Landed(after, pending), page[i..])
             == Page(o, force, dryRun, store.rows, store.rows, tally, page)
    {
      PageStep(o, force, dryRun, store.rows, UpsertAll(store.rows, pending), Landed(after, pending), page, i);
      pending, after := TreatDoc(o, force, dryRun, store, page[i], pending, after);
      i := i + 1;
    }
  }

  method UpsertBulk(store: VectorStore, pending: seq<(string, VectorRow)>)
    modifies store
    ensures store.rows == UpsertAll(old(store.rows), pending)
  {
    var i := 0;
    while i < |pending|
      invariant i <= |pending| && UpsertAll(store.rows, pending[i..]) == UpsertAll(old(store.rows), pending)
    {
      assert pending[i..][0] == pending[i] && pending[i..][1..] == pending[i + 1..];
      store.Upsert(pending[i].0, pending[i].1);
      i := i + 1;
    }
  }

  /** Embeds one page and writes what it embedded. */
  method DoPage(o: Oracles, force: bool, dryRun: bool, store: VectorStore, tally: Tally, page: seq<Doc>)
    returns (after: Tally)
    modifies store
    ensures (store.rows, after) == Page(o, force, dryRun, old(store.rows), old(store.rows), tally, page)
  {
    var pending;
    pending, after := EmbedPage(o, force, dryRun, store, tally, page);
    if pending != [] {
      UpsertBulk(store, pending);
      after := Landed(after, pending);
    }
  }

  /** What is left to do for the unread documents; nothing when no page can be asked for. */
  ghost function Left(o: Oracles, force: bool, dryRun: bool, rows: Rows, t: Tally, rest: seq<Doc>,
                      batchSize: int): (Rows, Tally) {
    if batchSize < 1 then (rows, t) else Walk(o, force, dryRun, rows, t, rest, batchSize)
  }

  lemma LeftStep(o: Oracles, force: bool, dryRun: bool, rows: Rows, t: Tally, docs: seq<Doc>, batchSize: int,
                 scanned: nat, n: nat, rows': Rows, t': Tally, next: nat)
    requires batchSize >= 1 && scanned < n <= |docs|
    requires var page := PageAt(docs, batchSize, scanned, n);
             next == scanned + |page| && (rows', t') == Page(o, force, dryRun, rows, rows, t, page)
    ensures next <= n
    ensures Left(o, force, dryRun, rows', t', docs[next..n], batchSize)
         == Left(o, force, dryRun, rows, t, docs[scanned..n], batchSize)
  {
    assert docs[scanned..n][next - scanned..] == docs[next..n];
  }

  /** One turn of the loop, from `scanned` documents on; false when the walk is over. */
  method TakePage(o: Oracles, docs: seq<Doc>, store: VectorStore, batchSize: int, limit: int, force: bool,
                  dryRun: bool, scanned: nat, tally: Tally)
    returns (more: bool, scanned': nat, tally': Tally)
    requires scanned <= Visited(docs, batchSize, limit)
    modifies store
    ensures scanned <= scanned' <= Visited(docs, batchSize, limit) && (more ==> scanned < scanned')
    ensures !more ==> scanned' == Visited(docs, batchSize, limit)
    ensures var n := Visited(docs, batchSize, limit);
            Left(o, force, dryRun, store.rows, tally', docs[scanned'..n], batchSize)
            == Left(o, force, dryRun, old(store.rows), tally, docs[scanned..n], batchSize)
  {
    NextPage(docs, batchSize, limit, scanned);
    more, scanned', tally' := false, scanned, tally;
    var pageSize := PageSize(batchSize, limit, scanned);
    if pageSize <= 0 {
      return;
    }
    var page := ListDocuments(docs, pageSize, scanned);
    if page == [] {
      return;
    }
    ghost var before := store.rows;
    tally' := DoPage(o, force, dryRun, store, tally, page);
    more, scanned' := true, scanned + |page|;
    LeftStep(o, force, dryRun, before, tally, docs, batchSize, scanned, Visited(docs, batchSize, limit), store.rows,
             tally', scanned');
  }

  /** The command: the walk over the documents visited, in order and each once, and their number. */
  method RunReindexVectors(o: Oracles, docs: seq<Doc>, store: VectorStore, batchSize: int, limit: int, force: bool,
                           dryRun: bool)
    returns (scanned: nat, tally: Tally)
    modifies store
    ensures scanned == Visited(docs, batchSize, limit)
    ensures (store.rows, tally) == Left(o, force, dryRun, old(store.rows), ZERO, docs[..scanned], batchSize)
  {
    ghost var n := Visited(docs, batchSize, limit);
    scanned, tally := 0, ZERO;
    var more := true;
    assert docs[0..n] == docs[..n];
    while more
      invariant scanned <= n && (!more ==> scanned == n)
      invariant Left(o, force, dryRun, store.rows, tally, docs[scanned..n], batchSize)
             == Left(o, force, dryRun, old(store.rows), ZERO, docs[..n], batchSize)
      decreases more, n - scanned
    {
      more, scanned, tally := TakePage(o, docs, store, batchSize, limit, force, dryRun, scanned, tally);
    }
  }

  // ------------------------------------------------------------------
  // The batch size does not matter
  // ------------------------------------------------------------------

  /** The two stores agree on which documents of `docs` have a vector. */
  ghost predicate SameFor(a: Rows, b: Rows, docs: seq<Doc>) {
    forall i :: 0 <= i < |docs| ==> (docs[i].id in a <==> docs[i].id in b)
  }

  lemma {:induction false} PageIsOneByOne(o: Oracles, force: bool, dryRun: bool, before: Rows, rows: Rows, t: Tally,
                                          page: seq<Doc>)
    requires UniqueIds(page) && SameFor(before, rows, page)
    ensures Page(o, force, dryRun, before, rows, t, page) == OneByOne(o, force, dryRun, rows, t, page)
    decreases |page|
  {
    if page != [] {
      var how := Treat(o, force, dryRun, before, page[0]);
      assert how == Treat(o, force, dryRun, rows, page[0]);
      PageIsOneByOne(o, force, dryRun, before, Written(rows, page[0], how), Count(t, how), page[1..]);
    }
  }

  lemma {:induction false} OneByOneAppend(o: Oracles, force: bool, dryRun: bool, rows: Rows, t: Tally, a: seq<Doc>,
                                          b: seq<Doc>)
    ensures var (rows', t') := OneByOne(o, force, dryRun, rows, t, a);
            OneByOne(o, force, dryRun, rows, t, a + b) == OneByOne(o, force, dryRun, rows', t', b)
    decreases |a|
  {
    if a == [] {
      assert a + b == b;
    } else {
      assert (a + b)[0] == a[0] && (a + b)[1..] == a[1..] + b;
      var how := Treat(o, force, dryRun, rows, a[0]);
      OneByOneAppend(o, force, dryRun, Written(rows, a[0], how), Count(t, how), a[1..], b);
    }
  }

  /** For unique ids every batch size gives the store and counters of the one-at-a-time walk. */
  lemma {:induction false} BatchSizeIsIrrelevant(o: Oracles, force: bool, dryRun: bool, rows: Rows, t: Tally,
                                                 docs: seq<Doc>, batch: nat)
    requires batch >= 1 && UniqueIds(docs)
    ensures Walk(o, force, dryRun, rows, t, docs, batch) == OneByOne(o, force, dryRun, rows, t, docs)
    decreases |docs|
  {
    if docs != [] {
      var k := if batch < |docs| then batch else |docs|;
      var page, rest := docs[..k], docs[k..];
      assert docs == page + rest && UniqueIds(page) && UniqueIds(rest);
      PageIsOneByOne(o, force, dryRun, rows, rows, t, page);
      var turned := OneByOne(o, force, dryRun, rows, t, page);
      BatchSizeIsIrrelevant(o, force, dryRun, turned.0, turned.1, rest, batch);
      OneByOneAppend(o, force, dryRun, rows, t, page, rest);
    }
  }

  /** A walk over pages as they come: the documents may change between two of them. */
  ghost function WalkPages(o: Oracles, force: bool, dryRun: bool, rows: Rows, t: Tally, pages: seq<seq<Doc>>):
    (Rows, Tally)
    decreases |pages|
  {
    if pages == [] then (rows, t)
    else
      var (rows', t') := Page(o, force, dryRun, rows, rows, t, pages[0]);
      WalkPages(o, force, dryRun, rows', t', pages[1..])
  }

  ghost function AllDocs(pages: seq<seq<Doc>>): seq<Doc> {
    if pages == [] then [] else pages[0] + AllDocs(pages[1..])
  }

  /**
   No page lists an id twice, but two pages may share one when documents come and go
   between them: the walk is that of all the documents listed, one at a time.
   */
  lemma {:induction false} PagesAreOneByOne(o: Oracles, force: bool, dryRun: bool, rows: Rows, t: Tally,
                                            pages: seq<seq<Doc>>)
    requires forall i :: 0 <= i < |pages| ==> UniqueIds(pages[i])
    ensures WalkPages(o, force, dryRun, rows, t, pages) == OneByOne(o, force, dryRun, rows, t, AllDocs(pages))
    decreases |pages|
  {
    if pages != [] {
      PageIsOneByOne(o, force, dryRun, rows, rows, t, pages[0]);
      OneByOneAppend(o, force, dryRun, rows, t, pages[0], AllDocs(pages[1..]));
      var turned := OneByOne(o, force, dryRun, rows, t, pages[0]);
      PagesAreOneByOne(o, force, dryRun, turned.0, turned.1, pages[1..]);
    }
  }

  /** The two stores agree on which reserved ids have a vector, which is all that matters under `force`. */
  ghost predicate SameReserved(a: Rows, b: Rows) {
    forall id :: IsReserved(id) ==> (id in a <==> id in b)
  }

  /** A forced or dry run treats every document by the store before the run, however often its id comes. */
  lemma {:induction false} FixedPage(o: Oracles, force: bool, dryRun: bool, before: Rows, rows: Rows, t: Tally,
                                     page: seq<Doc>)
    requires (force && SameReserved(before, rows)) || (dryRun && before == rows)
    ensures var done := Page(o, force, dryRun, before, rows, t, page);
            done == OneByOne(o, force, dryRun, rows, t, page) && (dryRun ==> done.0 == rows)
    decreases |page|
  {
    if page != [] {
      var how := Treat(o, force, dryRun, before, page[0]);
      assert how == Treat(o, force, dryRun, rows, page[0]);
      FixedPage(o, force, dryRun, before, Written(rows, page[0], how), Count(t, how), page[1..]);
    }
  }

  /** Under `force`, and in a dry run, every batch size agrees for any ids at all. */
  lemma {:induction false} RepeatsLeaveNoTrace(o: Oracles, force: bool, dryRun: bool, rows: Rows, t: Tally,
                                               docs: seq<Doc>, batch: nat)
    requires batch >= 1 && (force || dryRun)
    ensures Walk(o, force, dryRun, rows, t, docs, batch) == OneByOne(o, force, dryRun, rows, t, docs)
    decreases |docs|
  {
    if docs != [] {
      var k := if batch < |docs| then batch else |docs|;
      var page, rest := docs[..k], docs[k..];
      assert docs == page + rest;
      FixedPage(o, force, dryRun, rows, rows, t, page);
      var turned := OneByOne(o, force, dryRun, rows, t, page);
      RepeatsLeaveNoTrace(o, force, dryRun, turned.0, turned.1, rest, batch);
      OneByOneAppend(o, force, dryRun, rows, t, page, rest);
    }
  }

  // ------------------------------------------------------------------
  // What the counters and the store mean
  // ------------------------------------------------------------------

  datatype Kind = IsEmpty | IsReservedFirst | IsExisting | IsWithheld | IsUnreadable | IsError | IsEmbedded

  function Counter(t: Tally, kind: Kind): nat {
    match kind
    case IsEmpty => t.empty
    case IsReservedFirst => t.reserved
    case IsExisting => t.existing
    case IsWithheld => t.withheld
    case IsUnreadable => t.unreadable
    case IsError => t.errors
    case IsEmbedded => t.embedded
  }

  /** Content, and either a vector that is to be replaced or the right to a first one. */
  predicate Eligible(rows: Rows, force: bool, doc: Doc) {
    !Blank(doc.content) && if doc.id in rows then force else !IsReserved(doc.id)
  }

  /** Which documents a counter counts, told from the rows before the run. */
  predicate Falls(o: Oracles, force: bool, dryRun: bool, rows: Rows, doc: Doc, kind: Kind) {
    var asked := Eligible(rows, force, doc) && o.gate(doc) == Permitted;
    match kind
    case IsEmpty => Blank(doc.content)
    case IsReservedFirst => !Blank(doc.content) && IsReserved(doc.id) && doc.id !in rows
    case IsExisting => !Blank(doc.content) && !force && doc.id in rows
    case IsEmbedded => asked && (dryRun || o.embed(doc).Row?)
    case IsError => asked && !dryRun && o.embed(doc).Failed?
    case IsUnreadable =>
      (Eligible(rows, force, doc) && o.gate(doc) == Unreadable)
      || (asked && !dryRun && o.embed(doc) == Declined(Unreadable))
    case IsWithheld =>
      (Eligible(rows, force, doc) && o.gate(doc) == Withheld)
      || (asked && !dryRun && o.embed(doc).Declined? && o.embed(doc).verdict != Unreadable)
  }

  function HowMany(o: Oracles, force: bool, dryRun: bool, rows: Rows, docs: seq<Doc>, kind: Kind): nat {
    if docs == [] then 0
    else
      (if Falls(o, force, dryRun, rows, docs[0], kind) then 1 else 0) + HowMany(o, force, dryRun, rows, docs[1..], kind)
  }

  lemma CountMeans(o: Oracles, force: bool, dryRun: bool, rows: Rows, t: Tally, doc: Doc, kind: Kind)
    ensures Counter(Count(t, Treat(o, force, dryRun, rows, doc)), kind) ==
            Counter(t, kind) + if Falls(o, force, dryRun, rows, doc, kind) then 1 else 0
  {
  }

  lemma {:induction false} CountersFrom(o: Oracles, force: bool, dryRun: bool, start: Rows, rows: Rows, t: Tally,
                                        docs: seq<Doc>, kind: Kind)
    requires UniqueIds(docs) && SameFor(start, rows, docs)
    ensures Counter(OneByOne(o, force, dryRun, rows, t, docs).1, kind) ==
            Counter(t, kind) + HowMany(o, force, dryRun, start, docs, kind)
    decreases |docs|
  {
    if docs != [] {
      var how := Treat(o, force, dryRun, rows, docs[0]);
      assert how == Treat(o, force, dryRun, start, docs[0]);
      CountMeans(o, force, dryRun, start, t, docs[0], kind);
      CountersFrom(o, force, dryRun, start, Written(rows, docs[0], how), Count(t, how), docs[1..], kind);
    }
  }

  /** For unique ids each of the seven counters counts exactly its documents, as they stood before the run. */
  lemma CountersMean(o: Oracles, force: bool, dryRun: bool, rows: Rows, docs: seq<Doc>, batch: nat, kind: Kind)
    requires batch >= 1 && UniqueIds(docs)
    ensures Counter(Walk(o, force, dryRun, rows, ZERO, docs, batch).1, kind)
         == HowMany(o, force, dryRun, rows, docs, kind)
  {
    BatchSizeIsIrrelevant(o, force, dryRun, rows, ZERO, docs, batch);
    CountersFrom(o, force, dryRun, rows, rows, ZERO, docs, kind);
  }

  /** The document whose row a run writes at this id, if there is one. */
  function Writer(o: Oracles, force: bool, dryRun: bool, start: Rows, docs: seq<Doc>, id: string): Option<Doc> {
    if docs == [] || dryRun then None
    else if docs[0].id == id && Falls(o, force, dryRun, start, docs[0], IsEmbedded) then Some(docs[0])
    else Writer(o, force, dryRun, start, docs[1..], id)
  }

  lemma WrittenMeans(o: Oracles, force: bool, dryRun: bool, start: Rows, rows: Rows, doc: Doc, id: string)
    requires doc.id in start <==> doc.id in rows
    ensures var after := Written(rows, doc, Treat(o, force, dryRun, rows, doc));
            var writes := doc.id == id && !dryRun && Falls(o, force, dryRun, start, doc, IsEmbedded);
            && (id in after <==> id in rows || writes)
            && (writes ==> o.embed(doc) == Row(after[id]))
            && (!writes && id in rows ==> after[id] == rows[id])
  {
  }

  lemma {:induction false} NoOtherWriter(o: Oracles, force: bool, dryRun: bool, start: Rows, docs: seq<Doc>, id: string)
    requires forall i :: 0 <= i < |docs| ==> docs[i].id != id
    ensures Writer(o, force, dryRun, start, docs, id).None?
  {
    if docs != [] {
      NoOtherWriter(o, force, dryRun, start, docs[1..], id);
    }
  }

  lemma {:induction false} RowsFrom(o: Oracles, force: bool, dryRun: bool, start: Rows, rows: Rows, t: Tally,
                                    docs: seq<Doc>, id: string)
    requires UniqueIds(docs) && SameFor(start, rows, docs)
    ensures var after, writer := OneByOne(o, force, dryRun, rows, t, docs).0, Writer(o, force, dryRun, start, docs, id);
            && (id in after <==> id in rows || writer.Some?)
            && (writer.Some? ==> o.embed(writer.value) == Row(after[id]))
            && (writer.None? && id in rows ==> after[id] == rows[id])
    decreases |docs|
  {
    if docs != [] {
      var how := Treat(o, force, dryRun, rows, docs[0]);
      var next := Written(rows, docs[0], how);
      WrittenMeans(o, force, dryRun, start, rows, docs[0], id);
      forall i | 0 <= i < |docs[1..]| ensures docs[1..][i].id in start <==> docs[1..][i].id in next {
        WrittenMeans(o, force, dryRun, start, rows, docs[0], docs[1..][i].id);
      }
      RowsFrom(o, force, dryRun, start, next, Count(t, how), docs[1..], id);
      if docs[0].id == id {
        NoOtherWriter(o, force, dryRun, start, docs[1..], id);
      }
    }
  }

  /** For unique ids the store after a run holds the new row of each document embedded and is otherwise as it was. */
  lemma StoreMeans(o: Oracles, force: bool, dryRun: bool, rows: Rows, docs: seq<Doc>, batch: nat, id: string)
    requires batch >= 1 && UniqueIds(docs)
    ensures var after := Walk(o, force, dryRun, rows, ZERO, docs, batch).0;
            var writer := Writer(o, force, dryRun, rows, docs, id);
            && (id in after <==> id in rows || writer.Some?)
            && (writer.Some? ==> o.embed(writer.value) == Row(after[id]))
            && (writer.None? && id in rows ==> after[id] == rows[id])
  {
    BatchSizeIsIrrelevant(o, force, dryRun, rows, ZERO, docs, batch);
    RowsFrom(o, force, dryRun, rows, rows, ZERO, docs, id);
  }

  // ------------------------------------------------------------------
  // What every run keeps, whatever the ids and the batch size
  // ------------------------------------------------------------------

  function Total(t: Tally): nat {
    t.embedded + t.errors + t.withheld + t.unreadable + t.existing + t.empty + t.reserved
  }

  /** No vector is lost, and no reserved id gets its first one. */
  ghost predicate Grown(a: Rows, b: Rows) {
    && (forall id :: id in a ==> id in b)
    && (forall id :: id in b && id !in a ==> !IsReserved(id))
  }

  lemma {:induction false} PageKeeps(o: Oracles, force: bool, dryRun: bool, before: Rows, rows: Rows, t: Tally,
                                     page: seq<Doc>)
    requires Grown(before, rows)
    ensures var (rows', t') := Page(o, force, dryRun, before, rows, t, page);
            && Grown(before, rows') && Total(t') == Total(t) + |page|
            && (forall id :: id in rows ==> id in rows') && (dryRun ==> rows' == rows)
    decreases |page|
  {
    if page != [] {
      var how := Treat(o, force, dryRun, before, page[0]);
      PageKeeps(o, force, dryRun, before, Written(rows, page[0], how), Count(t, how), page[1..]);
    }
  }

  /**
   Any run, forced or not, only adds or rewrites vectors, never adds one at a
   reserved id, counts every visited document once, and writes nothing when dry.
   */
  lemma {:induction false} RunKeeps(o: Oracles, force: bool, dryRun: bool, rows: Rows, t: Tally, docs: seq<Doc>,
                                    batch: nat)
    requires batch >= 1
    ensures var (rows', t') := Walk(o, force, dryRun, rows, t, docs, batch);
            Grown(rows, rows') && Total(t') == Total(t) + |docs| && (dryRun ==> rows' == rows)
    decreases |docs|
  {
    if docs != [] {
      var k := if batch < |docs| then batch else |docs|;
      var (rows', t') := Page(o, force, dryRun, rows, rows, t, docs[..k]);
      PageKeeps(o, force, dryRun, rows, rows, t, docs[..k]);
      RunKeeps(o, force, dryRun, rows', t', docs[k..], batch);
    }
  }

  // ------------------------------------------------------------------
  // A second run embeds nothing
  // ------------------------------------------------------------------

  /** A live run without force would not embed this document now. */
  predicate Settled(o: Oracles, rows: Rows, doc: Doc) {
    !Treat(o, false, false, rows, doc).Embed?
  }

  lemma SettledStays(o: Oracles, a: Rows, b: Rows, doc: Doc)
    requires Settled(o, a, doc) && Grown(a, b)
    ensures Settled(o, b, doc)
  {
  }

  lemma {:induction false} PageSettles(o: Oracles, force: bool, before: Rows, rows: Rows, t: Tally, page: seq<Doc>,
                                       doc: Doc)
    requires doc in page && Grown(before, rows)
    ensures Settled(o, Page(o, force, false, before, rows, t, page).0, doc)
    decreases |page|
  {
    var how := Treat(o, force, false, before, page[0]);
    var next := Written(rows, page[0], how);
    PageKeeps(o, force, false, before, next, Count(t, how), page[1..]);
    if doc == page[0] {
      var end := Page(o, force, false, before, rows, t, page).0;
      assert how.Embed? ==> doc.id in next && doc.id in end;
      if !how.Embed? {
        assert Settled(o, before, doc);
        SettledStays(o, before, end, doc);
      }
    } else {
      PageSettles(o, force, before, next, Count(t, how), page[1..], doc);
    }
  }

  lemma {:induction false} WalkSettles(o: Oracles, force: bool, rows: Rows, t: Tally, docs: seq<Doc>, batch: nat,
                                       doc: Doc)
    requires batch >= 1 && doc in docs
    ensures Settled(o, Walk(o, force, false, rows, t, docs, batch).0, doc)
    decreases |docs|
  {
    var k := if batch < |docs| then batch else |docs|;
    var (rows', t') := Page(o, force, false, rows, rows, t, docs[..k]);
    RunKeeps(o, force, false, rows', t', docs[k..], batch);
    if doc in docs[..k] {
      PageSettles(o, force, rows, rows, t, docs[..k], doc);
      SettledStays(o, rows', Walk(o, force, false, rows', t', docs[k..], batch).0, doc);
    } else {
      assert doc in docs[k..];
      WalkSettles(o, force, rows', t', docs[k..], batch, doc);
    }
  }

  lemma {:induction false} SettledPage(o: Oracles, rows: Rows, t: Tally, page: seq<Doc>)
    requires forall i :: 0 <= i < |page| ==> Settled(o, rows, page[i])
    ensures var (rows', t') := Page(o, false, false, rows, rows, t, page); rows' == rows && t'.embedded == t.embedded
    decreases |page|
  {
    if page != [] {
      SettledPage(o, rows, Count(t, Treat(o, false, false, rows, page[0])), page[1..]);
    }
  }

  lemma {:induction false} SettledWalk(o: Oracles, rows: Rows, t: Tally, docs: seq<Doc>, batch: nat)
    requires batch >= 1 && forall i :: 0 <= i < |docs| ==> Settled(o, rows, docs[i])
    ensures var (rows', t') := Walk(o, false, false, rows, t, docs, batch); rows' == rows && t'.embedded == t.embedded
    decreases |docs|
  {
    if docs != [] {
      var k := if batch < |docs| then batch else |docs|;
      SettledPage(o, rows, t, docs[..k]);
      SettledWalk(o, rows, Page(o, false, false, rows, rows, t, docs[..k]).1, docs[k..], batch);
    }
  }

  /** After a live run, forced or not, a live run without force embeds nothing and writes nothing, at any batch size. */
  lemma SecondRunEmbedsNothing(o: Oracles, force: bool, rows: Rows, docs: seq<Doc>, first: nat, second: nat)
    requires first >= 1 && second >= 1
    ensures var after := Walk(o, force, false, rows, ZERO, docs, first).0;
            var (rows', t') := Walk(o, false, false, after, ZERO, docs, second);
            rows' == after && t'.embedded == 0
  {
    var after := Walk(o, force, false, rows, ZERO, docs, first).0;
    forall i | 0 <= i < |docs| ensures Settled(o, after, docs[i]) {
      WalkSettles(o, force, rows, ZERO, docs, first, docs[i]);
    }
    SettledWalk(o, after, ZERO, docs, second);
  }

  /** A document is empty when its content is whitespace, and reserved when its id has the prefix of a trace summary. */
  lemma SkipsMean(doc: Doc)
    ensures Blank(doc.content) <==> AllSpaces(doc.content)
    ensures IsReserved(doc.id) <==> exists rest :: doc.id == "trace-summary:" + rest
  {
    BlankStrips(doc.content);
    if IsReserved(doc.id) {
      assert doc.id == "trace-summary:" + doc.id[|RESERVED_PREFIX|..];
    }
  }
}
