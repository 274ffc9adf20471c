/** The document store as a fixed sequence read page by page, and the vector store the walkers write. */
module Documents {
  import opened Common

  datatype Doc = Doc(id: string, content: string, metadata: Fields)

  datatype VectorRow = VectorRow(vector: seq<real>, metadata: Fields)

  type Rows = map<string, VectorRow>

  class VectorStore {
    var rows: Rows

    constructor (rows: Rows)
      ensures this.rows == rows
    {
      this.rows := rows;
    }

    function Find(id: string): Option<VectorRow>
      reads this
    {
      if id in rows then Some(rows[id]) else None
    }

    method Upsert(id: string, row: VectorRow)
      modifies this
      ensures rows == old(rows)[id := row]
    {
      rows := rows[id := row];
    }
  }

  ghost predicate UniqueIds(docs: seq<Doc>) {
    forall i, j :: 0 <= i < j < |docs| ==> docs[i].id != docs[j].id
  }

  /** `list_documents(limit, offset)`. */
  function ListDocuments(docs: seq<Doc>, limit: nat, offset: nat): seq<Doc> {
    if offset >= |docs| then []
    else if offset + limit <= |docs| then docs[offset..offset + limit]
    else docs[offset..]
  }

  /** How many documents a walk visits: all when the limit is 0, none when no page can be asked for. */
  function Visited(docs: seq<Doc>, batchSize: int, limit: int): (n: nat)
    ensures n <= |docs|
  {
    if batchSize <= 0 || limit < 0 then 0
    else if limit == 0 || limit >= |docs| then |docs|
    else limit
  }

  function PageSize(batchSize: int, limit: int, scanned: nat): int {
    if limit == 0 then batchSize else if batchSize < limit - scanned then batchSize else limit - scanned
  }

  /** The next `batchSize` of the documents from `scanned` to `n`, or those that are left. */
  function PageAt(docs: seq<Doc>, batchSize: nat, scanned: nat, n: nat): seq<Doc>
    requires scanned <= n <= |docs|
  {
    docs[scanned..n][..if batchSize < n - scanned then batchSize else n - scanned]
  }

  /** Asking for the next page of a walk gives the next piece of what it visits, and stops exactly at its end. */
  lemma NextPage(docs: seq<Doc>, batchSize: int, limit: int, scanned: nat)
    requires scanned <= Visited(docs, batchSize, limit)
    ensures var size, n := PageSize(batchSize, limit, scanned), Visited(docs, batchSize, limit);
            && (size <= 0 ==> scanned == n)
            && (size > 0 ==>
                  var page := ListDocuments(docs, size, scanned);
                  && page == PageAt(docs, batchSize, scanned, n)
                  && scanned + |page| <= n
                  && (page == [] <==> scanned == n))
  {
  }
}
