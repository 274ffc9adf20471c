/** The ids at a path, told from the shape of the answer; and, for each route, the ids its answer was made from. */
module AccessLogMeaning {
  import opened Common
  import opened AccessLog
  import opened AccessLogMiddleware

  // ------------------------------------------------------------------
  // One step
  // ------------------------------------------------------------------

  lemma {:induction false} IdsOfAppend(a: seq<Json>, b: seq<Json>, field: string)
    ensures IdsOf(a + b, field) ==
            var x := IdsOf(a, field);
            if x.None? then None else Prepend(x.value, IdsOf(b, field))
  {
    if a == [] {
      assert a + b == b;
    } else {
      assert (a + b)[0] == a[0] && (a + b)[1..] == a[1..] + b;
      IdsOfAppend(a[1..], b, field);
      if IdOf(a[0], field).Some? && IdsOf(a[1..], field).Some? {
        PrependTwice([IdOf(a[0], field).value], IdsOf(a[1..], field).value, IdsOf(b, field));
      }
    }
  }

  /** The ids below several nodes, one after the other. */
  function IdsBelow(nodes: seq<Json>, path: seq<string>, field: string): Option<seq<string>> {
    var reached := ReachAll(nodes, path);
    if reached.None? then None else IdsOf(reached.value, field)
  }

  lemma IdsBelowFirst(node: Json, rest: seq<Json>, path: seq<string>, field: string)
    ensures IdsBelow([node] + rest, path, field) ==
            if IdsAt(node, path, field).None? || IdsBelow(rest, path, field).None? then None
            else Some(IdsAt(node, path, field).value + IdsBelow(rest, path, field).value)
  {
    assert ([node] + rest)[1..] == rest;
    var a, b := Reach(node, path), ReachAll(rest, path);
    if a.Some? && b.Some? {
      IdsOfAppend(a.value, b.value, field);
    }
  }

  lemma {:induction false} IdsBelowJoins(nodes: seq<Json>, path: seq<string>, field: string, ids: seq<seq<string>>)
    requires |ids| == |nodes| && forall k :: 0 <= k < |nodes| ==> IdsAt(nodes[k], path, field) == Some(ids[k])
    ensures IdsBelow(nodes, path, field) == Some(Joined(ids))
  {
    if nodes != [] {
      IdsBelowJoins(nodes[1..], path, field, ids[1..]);
      assert nodes == [nodes[0]] + nodes[1..];
      IdsBelowFirst(nodes[0], nodes[1..], path, field);
    }
  }

  lemma {:induction false} IdsBelowNone(nodes: seq<Json>, path: seq<string>, field: string, k: nat)
    requires k < |nodes| && IdsAt(nodes[k], path, field).None?
    ensures IdsBelow(nodes, path, field).None?
  {
    assert nodes == [nodes[0]] + nodes[1..];
    IdsBelowFirst(nodes[0], nodes[1..], path, field);
    if k > 0 {
      IdsBelowNone(nodes[1..], path, field, k - 1);
    }
  }

  lemma AtListIsBelow(items: seq<Json>, path: seq<string>, field: string)
    ensures IdsAt(Arr(items), ["*"] + path, field) == IdsBelow(items, path, field)
  {
    assert (["*"] + path)[0] == "*" && (["*"] + path)[1..] == path;
  }

  /** On a list a star gives the ids of every element, one after the other, if all of them are known. */
  lemma StarJoins(items: seq<Json>, path: seq<string>, field: string, ids: seq<seq<string>>)
    requires |ids| == |items| && forall k :: 0 <= k < |items| ==> IdsAt(items[k], path, field) == Some(ids[k])
    ensures IdsAt(Arr(items), ["*"] + path, field) == Some(Joined(ids))
  {
    AtListIsBelow(items, path, field);
    IdsBelowJoins(items, path, field, ids);
  }

  /** And they are unknown exactly when those of some element are. */
  lemma StarIsUnknownExactlyWhen(items: seq<Json>, path: seq<string>, field: string)
    ensures IdsAt(Arr(items), ["*"] + path, field).None? <==>
            exists k :: 0 <= k < |items| && IdsAt(items[k], path, field).None?
  {
    AtListIsBelow(items, path, field);
    if k :| 0 <= k < |items| && IdsAt(items[k], path, field).None? {
      IdsBelowNone(items, path, field, k);
    } else {
      var ids := seq(|items|, k requires 0 <= k < |items| => IdsAt(items[k], path, field).value);
      StarJoins(items, path, field, ids);
    }
  }

  /** A key gives the ids of what an object has under it; a star on no list and a key on nothing that has it, none. */
  lemma KeyGoesDown(node: Json, step: string, path: seq<string>, field: string)
    ensures step != "*" && node.Obj? && step in node.fields ==>
            IdsAt(node, [step] + path, field) == IdsAt(node.fields[step], path, field)
    ensures step != "*" && !(node.Obj? && step in node.fields) ==> IdsAt(node, [step] + path, field).None?
    ensures step == "*" && !node.Arr? ==> IdsAt(node, [step] + path, field).None?
  {
    assert ([step] + path)[0] == step && ([step] + path)[1..] == path;
    if step != "*" && node.Obj? && step in node.fields {
      ReachAllOne(node.fields[step], path);
    }
  }

  /** At the end of a path there is one id, the non-empty string under the field, or none that is known. */
  lemma EndIsOneId(node: Json, field: string, id: string)
    ensures IdsAt(node, [], field) == Some([id]) <==>
            node.Obj? && field in node.fields && node.fields[field] == Str(id) && id != ""
    ensures IdsAt(node, [], field).Some? ==> |IdsAt(node, [], field).value| == 1
  {
    var one := [node];
    assert one[1..] == [] && Reach(node, []) == Some(one);
    assert IdsOf(one[1..], field) == Some([]);
    assert IdsOf(one, field) == if IdOf(node, field).None? then None else Some([IdOf(node, field).value]);
    assert IdsAt(node, [], field) == IdsOf(one, field);
    if IdOf(node, field).Some? {
      assert [IdOf(node, field).value][0] == IdOf(node, field).value;
    }
  }

  // ------------------------------------------------------------------
  // From ids to an answer and back
  // ------------------------------------------------------------------

  /** An item with this id, whatever else it holds. */
  predicate ItemOf(item: Json, field: string, id: string) {
    item.Obj? && field in item.fields && item.fields[field] == Str(id) && id != ""
  }

  /** A list of items with these ids, in order. */
  predicate ListOf(v: Json, field: string, ids: seq<string>) {
    v.Arr? && |v.items| == |ids| && forall k :: 0 <= k < |ids| ==> ItemOf(v.items[k], field, ids[k])
  }

  /** What an object holds under this key. */
  predicate Under(payload: Json, key: string, v: Json) {
    payload.Obj? && key in payload.fields && payload.fields[key] == v
  }

  ghost function Singles(ids: seq<string>): seq<seq<string>> {
    if ids == [] then [] else [[ids[0]]] + Singles(ids[1..])
  }

  lemma {:induction false} JoinSingles(ids: seq<string>)
    ensures |Singles(ids)| == |ids| && Joined(Singles(ids)) == ids
    ensures forall k :: 0 <= k < |ids| ==> Singles(ids)[k] == [ids[k]]
  {
    if ids != [] {
      JoinSingles(ids[1..]);
    }
  }

  lemma ListReadsBack(v: Json, field: string, ids: seq<string>)
    requires ListOf(v, field, ids)
    ensures IdsAt(v, ["*"], field) == Some(ids)
  {
    JoinSingles(ids);
    forall k | 0 <= k < |ids| ensures IdsAt(v.items[k], [], field) == Some(Singles(ids)[k]) {
      EndIsOneId(v.items[k], field, ids[k]);
    }
    StarJoins(v.items, [], field, Singles(ids));
    assert ["*"] + [] == ["*"];
  }

  /** The answer of a route that lists items under a key. */
  lemma ListedIdsReadBack(payload: Json, key: string, v: Json, field: string, ids: seq<string>)
    requires key != "*" && Under(payload, key, v) && ListOf(v, field, ids)
    ensures IdsAt(payload, [key, "*"], field) == Some(ids)
  {
    ListReadsBack(v, field, ids);
    KeyGoesDown(payload, key, ["*"], field);
    assert [key] + ["*"] == [key, "*"];
  }

  /** The answer of a route that has one item under a key. */
  lemma OneIdReadsBack(payload: Json, key: string, v: Json, field: string, id: string)
    requires key != "*" && Under(payload, key, v) && ItemOf(v, field, id)
    ensures IdsAt(payload, [key], field) == Some([id])
  {
    EndIsOneId(v, field, id);
    KeyGoesDown(payload, key, [], field);
    assert [key] + [] == [key];
  }

  /** The answer of a route that lists items in sections. */
  lemma SectionedIdsReadBack(payload: Json, outer: string, inner: string, sections: seq<Json>, lists: seq<Json>,
                             field: string, ids: seq<seq<string>>)
    requires outer != "*" && inner != "*" && Under(payload, outer, Arr(sections))
    requires |sections| == |lists| == |ids|
    requires forall k :: 0 <= k < |ids| ==> Under(sections[k], inner, lists[k]) && ListOf(lists[k], field, ids[k])
    ensures IdsAt(payload, [outer, "*", inner, "*"], field) == Some(Joined(ids))
  {
    forall k | 0 <= k < |ids| ensures IdsAt(sections[k], [inner, "*"], field) == Some(ids[k]) {
      ListedIdsReadBack(sections[k], inner, lists[k], field, ids[k]);
    }
    StarJoins(sections, [inner, "*"], field, ids);
    assert ["*"] + [inner, "*"] == ["*", inner, "*"];
    KeyGoesDown(payload, outer, ["*", inner, "*"], field);
    assert [outer] + ["*", inner, "*"] == [outer, "*", inner, "*"];
  }

  /** The ids a row on this route names for this answer. */
  function Named(route: string, payload: Json): Option<seq<string>> {
    var spec := SpecOf(route);
    if spec.None? then None else IdsAt(payload, spec.value.path, spec.value.field)
  }

  /** Every listing route names the ids its answer was made from, in order. */
  lemma ListingRoutesNameTheirIds(payload: Json, v: Json, ids: seq<string>)
    ensures Under(payload, "results", v) && ListOf(v, "doc_id", ids) ==>
            Named("GET /api/v1/search", payload) == Some(ids)
    ensures Under(payload, "items", v) && ListOf(v, "item_id", ids) ==>
            Named("POST /api/v1/packs", payload) == Some(ids)
    ensures Under(payload, "results", v) && ListOf(v, "entity_id", ids) ==>
            Named("GET /api/v1/graph/search", payload) == Some(ids)
    ensures Under(payload, "traces", v) && ListOf(v, "trace_id", ids) ==>
            Named("GET /api/v1/traces", payload) == Some(ids)
  {
    if Under(payload, "results", v) && ListOf(v, "doc_id", ids) {
      ListedIdsReadBack(payload, "results", v, "doc_id", ids);
    }
    if Under(payload, "items", v) && ListOf(v, "item_id", ids) {
      ListedIdsReadBack(payload, "items", v, "item_id", ids);
    }
    if Under(payload, "results", v) && ListOf(v, "entity_id", ids) {
      ListedIdsReadBack(payload, "results", v, "entity_id", ids);
    }
    if Under(payload, "traces", v) && ListOf(v, "trace_id", ids) {
      ListedIdsReadBack(payload, "traces", v, "trace_id", ids);
    }
  }

  /** Every route for one item names it. */
  lemma ItemRoutesNameTheirId(payload: Json, v: Json, id: string)
    ensures Under(payload, "document", v) && ItemOf(v, "doc_id", id) ==>
            Named("GET /api/v1/documents/{doc_id:path}", payload) == Some([id])
    ensures Under(payload, "entity", v) && ItemOf(v, "node_id", id) ==>
            Named("GET /api/v1/entities/{entity_id:path}", payload) == Some([id])
    ensures Under(payload, "trace", v) && ItemOf(v, "trace_id", id) ==>
            Named("GET /api/v1/traces/{trace_id}", payload) == Some([id])
  {
    if Under(payload, "document", v) && ItemOf(v, "doc_id", id) {
      OneIdReadsBack(payload, "document", v, "doc_id", id);
    }
    if Under(payload, "entity", v) && ItemOf(v, "node_id", id) {
      OneIdReadsBack(payload, "entity", v, "node_id", id);
    }
    if Under(payload, "trace", v) && ItemOf(v, "trace_id", id) {
      OneIdReadsBack(payload, "trace", v, "trace_id", id);
    }
  }

  /** The sectioned pack names the ids of its sections, one after the other. */
  lemma SectionedRouteNamesItsIds(payload: Json, sections: seq<Json>, lists: seq<Json>, ids: seq<seq<string>>)
    requires Under(payload, "sections", Arr(sections)) && |sections| == |lists| == |ids|
    requires forall k :: 0 <= k < |ids| ==> Under(sections[k], "items", lists[k]) && ListOf(lists[k], "item_id", ids[k])
    ensures Named("POST /api/v1/packs/sectioned", payload) == Some(Joined(ids))
  {
    SectionedIdsReadBack(payload, "sections", "items", sections, lists, "item_id", ids);
  }

  /** No other route names any. */
  lemma OtherRoutesNameNothing(route: string, payload: Json)
    requires route !in {
               "GET /api/v1/search", "POST /api/v1/packs", "POST /api/v1/packs/sectioned",
               "GET /api/v1/documents/{doc_id:path}", "GET /api/v1/graph/search",
               "GET /api/v1/entities/{entity_id:path}", "GET /api/v1/traces", "GET /api/v1/traces/{trace_id}"}
    ensures Named(route, payload) == None
  {
  }

  /**
   What is logged for one response: the ids its route names for the answer, when the
   answer fits the cap and parses, and otherwise nothing known.
   */
  lemma RowNamesTheIdsOfTheAnswer(req: Request, before: seq<Message>, status: Option<int>, after: seq<Message>,
                                  parse: Bytes -> Option<Json>)
    requires NoStart(before) && NoStart(after)
    requires RowFor(req, ObserveAll(req, UNWATCHED, before + [Start(status)] + after)).Some?
    ensures var row := RowFor(req, ObserveAll(req, UNWATCHED, before + [Start(status)] + after)).value;
            var answer := BodyBytes(after);
            ItemsFromBody(row.body, row.spec, parse) ==
            if 0 < |answer| <= MAX_BODY_BYTES && parse(answer).Some?
            then Named(req.route, parse(answer).value) else None
  {
    RowOfOneResponse(req, before, status, after);
  }
}
