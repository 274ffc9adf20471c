/**
 The middleware's side of the access log: every response message goes out as it
 came, and an answer's body is kept only while it fits. Messages are the Response
 Start and Response Body send events of the ASGI HTTP message format.
 */
module AccessLogMiddleware {
  import opened Common
  import opened AccessLog

  const MAX_BODY_BYTES: nat := 1_048_576
  const HTTP_OK := 200

  datatype Spec = Spec(path: seq<string>, field: string)

  /** Where the ids are in the answers that list items, by route. */
  const ITEM_ROUTES: map<string, Spec> := map[
    "GET /api/v1/search" := Spec(["results", EVERY], "doc_id"),
    "POST /api/v1/packs" := Spec(["items", EVERY], "item_id"),
    "POST /api/v1/packs/sectioned" := Spec(["sections", EVERY, "items", EVERY], "item_id"),
    "GET /api/v1/documents/{doc_id:path}" := Spec(["document"], "doc_id"),
    "GET /api/v1/graph/search" := Spec(["results", EVERY], "entity_id"),
    "GET /api/v1/entities/{entity_id:path}" := Spec(["entity"], "node_id"),
    "GET /api/v1/traces" := Spec(["traces", EVERY], "trace_id"),
    "GET /api/v1/traces/{trace_id}" := Spec(["trace"], "trace_id")]

  function SpecOf(route: string): Option<Spec> {
    if route in ITEM_ROUTES then Some(ITEM_ROUTES[route]) else None
  }

  /** A start without a status, or a body that has no length, makes the bookkeeping raise. */
  datatype Message = Start(status: Option<int>) | Body(body: Option<Bytes>) | OtherMessage

  /** Reading the log's switch may itself raise. */
  datatype Knob = KnobRaises | KnobOff | KnobOn

  datatype Request = Request(route: string, keyId: Option<string>, knob: Knob)

  datatype Watch = Watch(ok: bool, size: nat, over: bool, spec: Option<Spec>, chunks: seq<Bytes>)

  const UNWATCHED := Watch(false, 0, false, None, [])

  datatype Row = Row(keyId: string, route: string, body: Option<Bytes>, spec: Option<Spec>)

  function Concat(chunks: seq<Bytes>): Bytes {
    if chunks == [] then [] else Concat(chunks[..|chunks| - 1]) + chunks[|chunks| - 1]
  }

  /** The bookkeeping for one message. */
  function Observe(req: Request, w: Watch, m: Message): Watch {
    match m
    case Start(status) =>
      if req.keyId.None? then w
      else if status.None? then w.(ok := false)
      else if status.value != HTTP_OK then w
      else if req.knob.KnobRaises? then w.(ok := false)
      else if req.knob.KnobOff? then w
      else w.(ok := true, spec := SpecOf(req.route))
    case Body(body) =>
      if !w.ok || w.spec.None? then w
      else if body.None? then w.(ok := false)
      else
        var size := w.size + |body.value|;
        if size > MAX_BODY_BYTES then w.(size := size, over := true, chunks := [])
        else if w.over then w.(size := size)
        else w.(size := size, chunks := w.chunks + [body.value])
    case OtherMessage => w
  }

  function ObserveAll(req: Request, w: Watch, ms: seq<Message>): Watch
    decreases |ms|
  {
    if ms == [] then w else ObserveAll(req, Observe(req, w, ms[0]), ms[1..])
  }

  function RowFor(req: Request, w: Watch): Option<Row> {
    if !w.ok || req.keyId.None? then None
    else Some(Row(req.keyId.value, req.route, if w.over || w.spec.None? then None else Some(Concat(w.chunks)), w.spec))
  }

  class Middleware {
    const req: Request
    var ok: bool
    var size: nat
    var over: bool
    var spec: Option<Spec>
    var chunks: seq<Bytes>
    var sent: seq<Message>
    var rows: seq<Row>

    ghost function View(): Watch
      reads this
    {
      Watch(ok, size, over, spec, chunks)
    }

    constructor (req: Request)
      ensures this.req == req && View() == UNWATCHED && sent == [] && rows == []
    {
      this.req := req;
      ok, size, over, spec, chunks, sent, rows := false, 0, false, None, [], [], [];
    }

    /** The start of a response; true when the bookkeeping raised. */
    method Begin(status: Option<int>) returns (raised: bool)
      modifies this
      ensures sent == old(sent) && rows == old(rows)
      ensures View().(ok := ok && !raised) == Observe(req, old(View()), Start(status))
    {
      if req.keyId.None? {
        return false;
      }
      if status.None? {
        return true;
      }
      if status.value != HTTP_OK {
        return false;
      }
      if req.knob.KnobRaises? {
        return true;
      }
      if req.knob.KnobOn? {
        ok, spec := true, SpecOf(req.route);
      }
      return false;
    }

    /** A chunk of the body; true when the bookkeeping raised. */
    method Keep(body: Option<Bytes>) returns (raised: bool)
      requires ok && spec.Some?
      modifies this
      ensures sent == old(sent) && rows == old(rows)
      ensures View().(ok := ok && !raised) == Observe(req, old(View()), Body(body))
    {
      if body.None? {
        return true;
      }
      size := size + |body.value|;
      if size > MAX_BODY_BYTES {
        over := true;
        chunks := [];
      } else if !over {
        chunks := chunks + [body.value];
      }
      return false;
    }

    /** Bookkeeping first, then the message goes out whatever happened. */
    method SendWrapper(m: Message)
      modifies this
      ensures View() == Observe(req, old(View()), m)
      ensures sent == old(sent) + [m] && rows == old(rows)
    {
      var raised := false;
      match m {
        case Start(status) => raised := Begin(status);
        case Body(body) =>
          if ok && spec.Some? {
            raised := Keep(body);
          }
        case OtherMessage =>
      }
      if raised {
        ok := false;
      }
      sent := sent + [m];
    }

    /** The whole response: everything forwarded, then at most one row, when the queue takes it. */
    method Respond(ms: seq<Message>, queueRaises: bool)
      requires View() == UNWATCHED && sent == [] && rows == []
      modifies this
      ensures sent == ms
      ensures var row := RowFor(req, ObserveAll(req, UNWATCHED, ms));
              rows == if row.Some? && !queueRaises then [row.value] else []
    {
      var i := 0;
      while i < |ms|
        invariant i <= |ms| && sent == ms[..i] && rows == []
        invariant ObserveAll(req, View(), ms[i..]) == ObserveAll(req, UNWATCHED, ms)
      {
        assert ms[i..][0] == ms[i] && ms[i..][1..] == ms[i + 1..];
        SendWrapper(ms[i]);
        i := i + 1;
      }
      assert sent == ms;
      if !ok || req.keyId.None? {
        return;
      }
      var body := if over || spec.None? then None else Some(Concat(chunks));
      if !queueRaises {
        rows := rows + [Row(req.keyId.value, req.route, body, spec)];
      }
    }
  }

  // ------------------------------------------------------------------
  // The buffer
  // ------------------------------------------------------------------

  function Total(chunks: seq<Bytes>): nat {
    |Concat(chunks)|
  }

  ghost predicate WithinCap(w: Watch) {
    Total(w.chunks) <= w.size && Total(w.chunks) <= MAX_BODY_BYTES && (w.over ==> w.chunks == [])
  }

  /** At every moment of every message sequence the buffered bytes fit the cap. */
  lemma {:induction false} BufferStaysWithinCap(req: Request, w: Watch, ms: seq<Message>)
    requires WithinCap(w)
    ensures WithinCap(ObserveAll(req, w, ms))
    decreases |ms|
  {
    if ms != [] {
      var next := Observe(req, w, ms[0]);
      if next.chunks != w.chunks && next.chunks != [] {
        assert next.chunks[..|next.chunks| - 1] == w.chunks;
      }
      BufferStaysWithinCap(req, next, ms[1..]);
    }
  }

  // ------------------------------------------------------------------
  // The row of one response
  // ------------------------------------------------------------------

  /** The bytes of the body messages; a body that raises has none. */
  function BodyBytes(ms: seq<Message>): Bytes
    decreases |ms|
  {
    if ms == [] then []
    else (if ms[0].Body? && ms[0].body.Some? then ms[0].body.value else []) + BodyBytes(ms[1..])
  }

  ghost predicate NoStart(ms: seq<Message>) {
    forall i :: 0 <= i < |ms| ==> !ms[i].Start?
  }

  ghost predicate NoFault(ms: seq<Message>) {
    forall i :: 0 <= i < |ms| ==> !(ms[i].Body? && ms[i].body.None?)
  }

  lemma {:induction false} UnwatchedStays(req: Request, w: Watch, ms: seq<Message>)
    requires NoStart(ms) && (!w.ok || w.spec.None?)
    ensures ObserveAll(req, w, ms) == w
    decreases |ms|
  {
    if ms != [] {
      UnwatchedStays(req, w, ms[1..]);
    }
  }

  lemma {:induction false} ObserveAppend(req: Request, w: Watch, a: seq<Message>, b: seq<Message>)
    ensures ObserveAll(req, w, a + b) == ObserveAll(req, ObserveAll(req, w, a), b)
    decreases |a|
  {
    if a == [] {
      assert a + b == b;
    } else {
      assert (a + b)[0] == a[0] && (a + b)[1..] == a[1..] + b;
      ObserveAppend(req, Observe(req, w, a[0]), a[1..], b);
    }
  }

  /** The buffer holds exactly the bytes seen, or nothing once they are too many. */
  ghost predicate Holds(w: Watch, seen: Bytes) {
    && w.ok && w.spec.Some? && w.size == |seen| && (w.over <==> |seen| > MAX_BODY_BYTES)
    && (if w.over then w.chunks == [] else Concat(w.chunks) == seen)
  }

  lemma {:induction false} WatchedBody(req: Request, w: Watch, seen: Bytes, ms: seq<Message>)
    requires NoStart(ms) && Holds(w, seen)
    ensures var end := ObserveAll(req, w, ms);
            (end.ok <==> NoFault(ms)) && (NoFault(ms) ==> Holds(end, seen + BodyBytes(ms)) && end.spec == w.spec)
    decreases |ms|
  {
    if ms == [] {
      assert seen + [] == seen;
    } else {
      var m, next, rest := ms[0], Observe(req, w, ms[0]), ms[1..];
      if m.Body? && m.body.None? {
        UnwatchedStays(req, next, rest);
      } else {
        var piece := if m.Body? then m.body.value else [];
        assert next.chunks != [] && m.Body? ==> next.chunks[..|next.chunks| - 1] == w.chunks;
        assert seen + piece + BodyBytes(rest) == seen + (piece + BodyBytes(rest));
        assert seen + [] == seen;
        WatchedBody(req, next, seen + piece, rest);
        assert NoFault(ms) <==> NoFault(rest);
      }
    }
  }

  /** A keyed read answered 200 while the log is on. */
  predicate Accepted(req: Request, status: Option<int>) {
    req.keyId.Some? && status == Some(HTTP_OK) && req.knob.KnobOn?
  }

  /**
   For a response with one start there is a row exactly when the start is accepted
   and, on an item route, no body message makes the bookkeeping raise. Its body is
   then the exact bytes of the answer when they fit the cap, and unknown otherwise;
   a route that names no items records none.
   */
  lemma RowOfOneResponse(req: Request, before: seq<Message>, status: Option<int>, after: seq<Message>)
    requires NoStart(before) && NoStart(after)
    ensures var ms := before + [Start(status)] + after;
            var row := RowFor(req, ObserveAll(req, UNWATCHED, ms));
            && (row.Some? <==> Accepted(req, status) && (SpecOf(req.route).Some? ==> NoFault(after)))
            && (row.Some? ==>
                  row.value == Row(req.keyId.value, req.route,
                                   if SpecOf(req.route).Some? && |BodyBytes(after)| <= MAX_BODY_BYTES
                                   then Some(BodyBytes(after)) else None,
                                   SpecOf(req.route)))
  {
    var start := Start(status);
    ObserveAppend(req, UNWATCHED, before + [start], after);
    ObserveAppend(req, UNWATCHED, before, [start]);
    UnwatchedStays(req, UNWATCHED, before);
    assert [start][1..] == [];
    var w := Observe(req, UNWATCHED, start);
    assert ObserveAll(req, UNWATCHED, before + [start]) == w;
    if w.ok && w.spec.Some? {
      WatchedBody(req, w, [], after);
      assert [] + BodyBytes(after) == BodyBytes(after);
    } else {
      UnwatchedStays(req, w, after);
    }
  }

  // ------------------------------------------------------------------
  // The ids the row names
  // ------------------------------------------------------------------

  /** What the writer thread reads out of a row's body. */
  function ItemsFromBody(body: Option<Bytes>, spec: Option<Spec>, parse: Bytes -> Option<Json>): Option<seq<string>> {
    if spec.None? || body.None? || body.value == [] then None
    else
      var payload := parse(body.value);
      if payload.None? then None else IdsAt(payload.value, spec.value.path, spec.value.field)
  }

  /** The ids of a recorded item-route answer are those of the whole answer, or unknown; never those of a part. */
  lemma RowNamesTheWholeAnswer(req: Request, before: seq<Message>, status: Option<int>, after: seq<Message>,
                               parse: Bytes -> Option<Json>)
    requires NoStart(before) && NoStart(after)
    requires RowFor(req, ObserveAll(req, UNWATCHED, before + [Start(status)] + after)).Some?
    ensures var row := RowFor(req, ObserveAll(req, UNWATCHED, before + [Start(status)] + after)).value;
            ItemsFromBody(row.body, row.spec, parse) ==
            if |BodyBytes(after)| > MAX_BODY_BYTES then None
            else ItemsFromBody(Some(BodyBytes(after)), SpecOf(req.route), parse)
  {
    RowOfOneResponse(req, before, status, after);
  }
}
