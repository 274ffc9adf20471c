/** The ids an answer carries: the access log's walk along a path through its JSON. */
module AccessLog {
  import opened Common

  // ------------------------------------------------------------------
  // The path walker
  // ------------------------------------------------------------------

  const EVERY := "*"

  /** The nodes one step leads to from one node; none when its shape is wrong. */
  function StepFrom(node: Json, step: string): Option<seq<Json>> {
    if step == EVERY then (if node.Arr? then Some(node.items) else None)
    else if node.Obj? && step in node.fields then Some([node.fields[step]])
    else None
  }

  /** `head` in front of what follows, unknown when that is. */
  function Prepend<T>(head: seq<T>, rest: Option<seq<T>>): (r: Option<seq<T>>)
    ensures head == [] ==> r == rest
    ensures rest == Some([]) ==> r == Some(head)
  {
    if rest.None? then None
    else
      assert head + [] == head && [] + rest.value == rest.value;
      Some(head + rest.value)
  }

  lemma PrependTwice<T>(a: seq<T>, b: seq<T>, rest: Option<seq<T>>)
    ensures Prepend(a, Prepend(b, rest)) == Prepend(a + b, rest)
  {
    if rest.Some? {
      assert a + (b + rest.value) == a + b + rest.value;
    }
  }

  /** One level: the nodes every node leads to, in order; none when any shape is wrong. */
  function StepAll(nodes: seq<Json>, step: string): Option<seq<Json>> {
    if nodes == [] then Some([])
    else
      var head := StepFrom(nodes[0], step);
      if head.None? then None else Prepend(head.value, StepAll(nodes[1..], step))
  }

  /** The depth-first meaning of a path: what is reached below one node, in document order. */
  function Reach(node: Json, path: seq<string>): Option<seq<Json>>
    decreases |path|, 0
  {
    if path == [] then Some([node])
    else
      var next := StepFrom(node, path[0]);
      if next.None? then None else ReachAll(next.value, path[1..])
  }

  function ReachAll(nodes: seq<Json>, path: seq<string>): Option<seq<Json>>
    decreases |path|, 1, |nodes|
  {
    if nodes == [] then Some([])
    else
      var head := Reach(nodes[0], path);
      if head.None? then None else Prepend(head.value, ReachAll(nodes[1..], path))
  }

  /** The non-empty string id of an item. */
  function IdOf(node: Json, field: string): Option<string> {
    var v := if node.Obj? then Get(node.fields, field) else Null;
    if v.Str? && v.s != "" then Some(v.s) else None
  }

  function IdsOf(nodes: seq<Json>, field: string): Option<seq<string>> {
    if nodes == [] then Some([])
    else
      var head := IdOf(nodes[0], field);
      if head.None? then None else Prepend([head.value], IdsOf(nodes[1..], field))
  }

  /** The ids at a path, in document order; unknown when any shape differs. */
  function IdsAt(payload: Json, path: seq<string>, field: string): Option<seq<string>> {
    var reached := Reach(payload, path);
    if reached.None? then None else IdsOf(reached.value, field)
  }

  lemma {:induction false} ReachAllAppend(a: seq<Json>, b: seq<Json>, path: seq<string>)
    ensures ReachAll(a + b, path) ==
            var x := ReachAll(a, path);
            if x.None? then None else Prepend(x.value, ReachAll(b, path))
    decreases |a|
  {
    if a == [] {
      assert a + b == b;
    } else {
      assert (a + b)[0] == a[0] && (a + b)[1..] == a[1..] + b;
      ReachAllAppend(a[1..], b, path);
      if Reach(a[0], path).Some? && ReachAll(a[1..], path).Some? {
        PrependTwice(Reach(a[0], path).value, ReachAll(a[1..], path).value, ReachAll(b, path));
      }
    }
  }

  /** Going down one level at a time reaches what going depth first reaches. */
  lemma {:induction false} LevelStep(nodes: seq<Json>, path: seq<string>)
    requires path != []
    ensures ReachAll(nodes, path) ==
            var level := StepAll(nodes, path[0]);
            if level.None? then None else ReachAll(level.value, path[1..])
    decreases |nodes|
  {
    if nodes != [] {
      LevelStep(nodes[1..], path);
      var head, tail := StepFrom(nodes[0], path[0]), StepAll(nodes[1..], path[0]);
      if head.Some? && tail.Some? {
        ReachAllAppend(head.value, tail.value, path[1..]);
      }
      if head.Some? && tail.None? {
        assert ReachAll(nodes[1..], path).None?;
      }
    }
  }

  lemma {:induction false} ReachAllEmptyPath(nodes: seq<Json>)
    ensures ReachAll(nodes, []) == Some(nodes)
    decreases |nodes|
  {
    if nodes != [] {
      ReachAllEmptyPath(nodes[1..]);
      assert nodes == [nodes[0]] + nodes[1..];
    }
  }

  lemma ReachAllOne(node: Json, path: seq<string>)
    ensures ReachAll([node], path) == Reach(node, path)
  {
    assert [node][1..] == [];
  }

  /** One pass of the outer loop. */
  method WalkStep(nodes: seq<Json>, step: string) returns (walked: Option<seq<Json>>)
    ensures walked == StepAll(nodes, step)
  {
    var found: seq<Json> := [];
    var i := 0;
    while i < |nodes|
      invariant i <= |nodes|
      invariant StepAll(nodes, step) == Prepend(found, StepAll(nodes[i..], step))
    {
      var head := StepFrom(nodes[i], step);
      if head.Some? {
        PrependTwice(found, head.value, StepAll(nodes[i + 1..], step));
      }
      assert nodes[i..][0] == nodes[i] && nodes[i..][1..] == nodes[i + 1..];
      var node := nodes[i];
      if step == EVERY {
        if !node.Arr? {
          return None;
        }
        found := found + node.items;
      } else if node.Obj? && step in node.fields {
        found := found + [node.fields[step]];
      } else {
        return None;
      }
      i := i + 1;
    }
    return Some(found);
  }

  /** The final pass over the nodes reached. */
  method CollectIds(nodes: seq<Json>, field: string) returns (ids: Option<seq<string>>)
    ensures ids == IdsOf(nodes, field)
  {
    var found: seq<string> := [];
    var i := 0;
    while i < |nodes|
      invariant i <= |nodes|
      invariant IdsOf(nodes, field) == Prepend(found, IdsOf(nodes[i..], field))
    {
      assert nodes[i..][0] == nodes[i] && nodes[i..][1..] == nodes[i + 1..];
      var id := IdOf(nodes[i], field);
      if id.None? {
        return None;
      }
      PrependTwice(found, [id.value], IdsOf(nodes[i + 1..], field));
      found := found + [id.value];
      i := i + 1;
    }
    return Some(found);
  }

  /**
   The level-by-level walker returns the depth-first ids and their number; an unknown
   shape has no ids and no count.
   */
  method ExtractIds(payload: Json, path: seq<string>, field: string) returns (ids: seq<string>, count: Option<nat>)
    ensures count.None? <==> IdsAt(payload, path, field).None?
    ensures count.None? ==> ids == []
    ensures count.Some? ==> IdsAt(payload, path, field) == Some(ids) && count.value == |ids|
  {
    var nodes := [payload];
    ReachAllOne(payload, path);
    var i := 0;
    assert path[0..] == path;
    while i < |path|
      invariant i <= |path|
      invariant ReachAll(nodes, path[i..]) == Reach(payload, path)
    {
      LevelStep(nodes, path[i..]);
      assert path[i..][0] == path[i] && path[i..][1..] == path[i + 1..];
      var walked := WalkStep(nodes, path[i]);
      if walked.None? {
        return [], None;
      }
      nodes := walked.value;
      i := i + 1;
    }
    assert path[i..] == [];
    ReachAllEmptyPath(nodes);
    var collected := CollectIds(nodes, field);
    if collected.None? {
      return [], None;
    }
    return collected.value, Some(|collected.value|);
  }

  // ------------------------------------------------------------------
  // When the count is unknown
  // ------------------------------------------------------------------

  /** Some choice of list elements along the path leads from `node` to `end`. */
  ghost predicate Leads(node: Json, path: seq<string>, end: Json)
    decreases |path|
  {
    if path == [] then node == end
    else
      var next := StepFrom(node, path[0]);
      next.Some? && exists k :: 0 <= k < |next.value| && Leads(next.value[k], path[1..], end)
  }

  /** Some node reached at some depth of the path has the wrong shape for its next step. */
  ghost predicate Misshapen(node: Json, path: seq<string>) {
    exists d, at :: 0 <= d < |path| && Leads(node, path[..d], at) && StepFrom(at, path[d]).None?
  }

  lemma {:induction false} ReachAllNone(nodes: seq<Json>, path: seq<string>)
    ensures ReachAll(nodes, path).None? <==> exists k :: 0 <= k < |nodes| && Reach(nodes[k], path).None?
    decreases |nodes|
  {
    if nodes != [] {
      ReachAllNone(nodes[1..], path);
      if k :| 0 <= k < |nodes[1..]| && Reach(nodes[1..][k], path).None? {
        assert nodes[k + 1] == nodes[1..][k];
      }
      if k :| 0 <= k < |nodes| && Reach(nodes[k], path).None? {
        assert k > 0 ==> nodes[1..][k - 1] == nodes[k];
      }
    }
  }

  lemma {:induction false} ReachAllMember(nodes: seq<Json>, path: seq<string>, end: Json)
    requires ReachAll(nodes, path).Some?
    ensures end in ReachAll(nodes, path).value <==>
            exists k :: 0 <= k < |nodes| && Reach(nodes[k], path).Some? && end in Reach(nodes[k], path).value
    decreases |nodes|
  {
    if nodes != [] {
      ReachAllMember(nodes[1..], path, end);
      if k :| 0 <= k < |nodes[1..]| && Reach(nodes[1..][k], path).Some? && end in Reach(nodes[1..][k], path).value {
        assert nodes[k + 1] == nodes[1..][k];
      }
      if k :| 0 <= k < |nodes| && Reach(nodes[k], path).Some? && end in Reach(nodes[k], path).value {
        assert k > 0 ==> nodes[1..][k - 1] == nodes[k];
      }
    }
  }

  /** What is reached is exactly what the path leads to. */
  lemma {:induction false} ReachMeansLeads(node: Json, path: seq<string>, end: Json)
    requires Reach(node, path).Some?
    ensures end in Reach(node, path).value <==> Leads(node, path, end)
    decreases |path|
  {
    if path != [] {
      var next := StepFrom(node, path[0]).value;
      ReachAllNone(next, path[1..]);
      ReachAllMember(next, path[1..], end);
      forall k | 0 <= k < |next| ensures end in Reach(next[k], path[1..]).value <==> Leads(next[k], path[1..], end) {
        ReachMeansLeads(next[k], path[1..], end);
      }
    }
  }

  /** A wrong shape below one child is a wrong shape below its parent, one level deeper. */
  lemma MisshapenChild(node: Json, path: seq<string>, k: nat)
    requires path != [] && StepFrom(node, path[0]).Some? && k < |StepFrom(node, path[0]).value|
    requires Misshapen(StepFrom(node, path[0]).value[k], path[1..])
    ensures Misshapen(node, path)
  {
    var child := StepFrom(node, path[0]).value[k];
    var d, at :| 0 <= d < |path[1..]| && Leads(child, path[1..][..d], at) && StepFrom(at, path[1..][d]).None?;
    assert path[..d + 1][0] == path[0] && path[..d + 1][1..] == path[1..][..d];
    assert Leads(node, path[..d + 1], at) && path[d + 1] == path[1..][d];
  }

  /** The walk fails exactly when some node reached at some depth has the wrong shape. */
  lemma {:induction false} ReachFailsExactlyWhen(node: Json, path: seq<string>)
    ensures Reach(node, path).None? <==> Misshapen(node, path)
    decreases |path|
  {
    if path != [] {
      var step := StepFrom(node, path[0]);
      if step.None? {
        assert path[..0] == [] && Leads(node, path[..0], node);
      } else {
        var next := step.value;
        ReachAllNone(next, path[1..]);
        forall k | 0 <= k < |next| ensures Reach(next[k], path[1..]).None? <==> Misshapen(next[k], path[1..]) {
          ReachFailsExactlyWhen(next[k], path[1..]);
        }
        if k :| 0 <= k < |next| && Reach(next[k], path[1..]).None? {
          MisshapenChild(node, path, k);
        }
        if d, at :| 0 <= d < |path| && Leads(node, path[..d], at) && StepFrom(at, path[d]).None? {
          assert d > 0 by {
            assert path[..0] == [];
          }
          assert path[..d][0] == path[0] && path[..d][1..] == path[1..][..d - 1];
          var k :| 0 <= k < |next| && Leads(next[k], path[1..][..d - 1], at);
          assert path[1..][d - 1] == path[d] && Misshapen(next[k], path[1..]);
        }
      }
    }
  }

  lemma {:induction false} IdsOfNone(nodes: seq<Json>, field: string)
    ensures IdsOf(nodes, field).None? <==> exists k :: 0 <= k < |nodes| && IdOf(nodes[k], field).None?
    decreases |nodes|
  {
    if nodes != [] {
      IdsOfNone(nodes[1..], field);
      if k :| 0 <= k < |nodes[1..]| && IdOf(nodes[1..][k], field).None? {
        assert nodes[k + 1] == nodes[1..][k];
      }
      if k :| 0 <= k < |nodes| && IdOf(nodes[k], field).None? {
        assert k > 0 ==> nodes[1..][k - 1] == nodes[k];
      }
    }
  }

  /**
   The ids are unknown exactly when some node reached at some depth has the wrong
   shape, or some final node lacks a non-empty string id.
   */
  lemma UnknownExactlyWhen(payload: Json, path: seq<string>, field: string)
    ensures IdsAt(payload, path, field).None? <==>
            Misshapen(payload, path) || exists end :: Leads(payload, path, end) && IdOf(end, field).None?
  {
    ReachFailsExactlyWhen(payload, path);
    var reached := Reach(payload, path);
    if reached.Some? {
      IdsOfNone(reached.value, field);
      forall end ensures end in reached.value <==> Leads(payload, path, end) {
        ReachMeansLeads(payload, path, end);
      }
      if k :| 0 <= k < |reached.value| && IdOf(reached.value[k], field).None? {
        assert reached.value[k] in reached.value;
      }
    }
  }
}
