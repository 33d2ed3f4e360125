/**
 Bounded breadth-first search over the relationship graph: the edges within a number of hops of a resource,
 taken in both directions, each edge key once.
 */
module Neighbors {

  datatype Edge = Edge(from: string, to: string, relation: string, observedAt: int)

  datatype Key = Key(from: string, to: string, relation: string)

  function KeyOf(e: Edge): Key {
    Key(e.from, e.to, e.relation)
  }

  lemma SameKeyMeans(e: Edge, f: Edge)
    ensures KeyOf(e) == KeyOf(f) <==> e.from == f.from && e.to == f.to && e.relation == f.relation
  {
  }

  predicate Touches(e: Edge, v: string) {
    e.from == v || e.to == v
  }

  /******* The reference: walks *******/

  ghost predicate Adjacent(edges: seq<Edge>, u: string, v: string) {
    exists e :: e in edges && ((e.from == u && e.to == v) || (e.from == v && e.to == u))
  }

  /** A walk along edges taken in either direction. */
  ghost predicate Walk(edges: seq<Edge>, w: seq<string>) {
    w != [] && forall i :: 0 < i < |w| ==> Adjacent(edges, w[i - 1], w[i])
  }

  /** `v` can be reached from `start` by a walk of at most `k` hops. */
  ghost predicate Within(edges: seq<Edge>, start: string, v: string, k: nat) {
    exists w :: Walk(edges, w) && w[0] == start && w[|w| - 1] == v && |w| <= k + 1
  }

  /** `k` is the shortest distance from `start` to `v`. */
  ghost predicate Distance(edges: seq<Edge>, start: string, v: string, k: nat) {
    Within(edges, start, v, k) && (k > 0 ==> !Within(edges, start, v, k - 1))
  }

  lemma WithinStart(edges: seq<Edge>, start: string, v: string)
    ensures Within(edges, start, v, 0) <==> v == start
  {
    assert Walk(edges, [start]);
  }

  lemma WithinStep(edges: seq<Edge>, start: string, u: string, v: string, k: nat)
    requires Within(edges, start, u, k) && Adjacent(edges, u, v)
    ensures Within(edges, start, v, k + 1)
  {
    var w :| Walk(edges, w) && w[0] == start && w[|w| - 1] == u && |w| <= k + 1;
    var w' := w + [v];
    assert Walk(edges, w') && w'[0] == start && w'[|w'| - 1] == v;
  }

  lemma WithinBack(edges: seq<Edge>, start: string, v: string, k: nat) returns (u: string)
    requires Within(edges, start, v, k + 1) && !Within(edges, start, v, k)
    ensures Within(edges, start, u, k) && Adjacent(edges, u, v)
  {
    var w :| Walk(edges, w) && w[0] == start && w[|w| - 1] == v && |w| <= k + 2;
    assert |w| == k + 2;
    var w' := w[..|w| - 1];
    assert Walk(edges, w');
    u := w'[|w'| - 1];
  }

  /******* The search *******/

  ghost function Keys(out: seq<Edge>): set<Key> {
    set e | e in out :: KeyOf(e)
  }

  /** The edge is the first of its key in the list. */
  ghost predicate FirstOfKey(edges: seq<Edge>, e: Edge) {
    exists i :: 0 <= i < |edges| && edges[i] == e && forall j :: 0 <= j < i ==> KeyOf(edges[j]) != KeyOf(e)
  }

  ghost predicate DistinctKeys(out: seq<Edge>) {
    forall i, j :: 0 <= i < j < |out| ==> KeyOf(out[i]) != KeyOf(out[j])
  }

  /** The edge has an endpoint at shortest distance below `maxHops`. */
  ghost predicate Near(edges: seq<Edge>, start: string, maxHops: nat, e: Edge) {
    exists v: string, k: nat :: k < maxHops && Touches(e, v) && Distance(edges, start, v, k)
  }

  type Entry = (string, nat)

  /** The queue in the middle of the search: distinct seen resources, in order of depth, spanning two depths. */
  ghost predicate Frontier(queue: seq<Entry>, depths: map<string, nat>, low: nat) {
    && (forall i :: 0 <= i < |queue| ==>
          && queue[i].0 in depths && depths[queue[i].0] == queue[i].1
          && low <= queue[i].1 <= low + 1)
    && (forall i, j :: 0 <= i < j < |queue| ==> queue[i].0 != queue[j].0 && queue[i].1 <= queue[j].1)
  }

  /** Seen resources carry their shortest distance; those in `done` have all their neighbours seen. */
  ghost predicate Explored(
      edges: seq<Edge>, start: string, maxHops: nat, depths: map<string, nat>, done: set<string>) {
    && start in depths && depths.Keys <= Universe(edges, start)
    && (forall v :: v in depths ==> depths[v] <= maxHops && Distance(edges, start, v, depths[v]))
    && done <= depths.Keys
    && (forall u, v :: u in done && Adjacent(edges, u, v) ==> v in depths)
  }

  ghost predicate Waiting(queue: seq<Entry>, v: string) {
    exists i :: 0 <= i < |queue| && queue[i].0 == v
  }

  /** Apart from `busy`, exactly the seen resources below the hop bound that left the queue are done. */
  ghost predicate Accounted(
      queue: seq<Entry>, depths: map<string, nat>, done: set<string>, maxHops: nat, busy: set<string>) {
    forall v :: v in depths && v !in busy ==> (v in done <==> depths[v] < maxHops && !Waiting(queue, v))
  }

  /** The result so far: the first edge of each key that touches a done resource or, up to `i`, the busy one. */
  ghost predicate Collected(edges: seq<Edge>, out: seq<Edge>, keys: set<Key>, done: set<string>, n: string, i: nat)
    requires i <= |edges|
  {
    && keys == Keys(out) && DistinctKeys(out)
    && (forall e :: e in out ==> FirstOfKey(edges, e) && (Touches(e, n) || exists v :: v in done && Touches(e, v)))
    && (forall e, v :: e in edges && v in done && Touches(e, v) ==> KeyOf(e) in keys)
    && (forall j :: 0 <= j < i && Touches(edges[j], n) ==> KeyOf(edges[j]) in keys)
  }

  /** The result between two nodes: the first edge of each key that touches a done resource. */
  ghost predicate Gathered(edges: seq<Edge>, out: seq<Edge>, keys: set<Key>, done: set<string>) {
    && keys == Keys(out) && DistinctKeys(out)
    && (forall e :: e in out ==> FirstOfKey(edges, e) && exists v :: v in done && Touches(e, v))
    && (forall e, v :: e in edges && v in done && Touches(e, v) ==> KeyOf(e) in keys)
  }

  ghost function Universe(edges: seq<Edge>, start: string): set<string> {
    {start} + (set e | e in edges :: e.from) + (set e | e in edges :: e.to)
  }

  lemma DistanceUnique(edges: seq<Edge>, start: string, v: string, j: nat, k: nat)
    requires Distance(edges, start, v, j) && Within(edges, start, v, k)
    ensures j <= k
    ensures Distance(edges, start, v, k) ==> j == k
  {
  }

  /** When everything nearer than `k` hops is done, everything within `k` hops has been seen. */
  lemma {:induction false} NearIsSeen(
      edges: seq<Edge>, start: string, maxHops: nat, depths: map<string, nat>, done: set<string>, k: nat, v: string)
    requires Explored(edges, start, maxHops, depths, done)
    requires forall u :: u in depths && depths[u] < k ==> u in done
    requires Within(edges, start, v, k)
    ensures v in depths && depths[v] <= k
    decreases k
  {
    if k == 0 {
      WithinStart(edges, start, v);
      DistanceUnique(edges, start, v, depths[v], 0);
    } else if Within(edges, start, v, k - 1) {
      NearIsSeen(edges, start, maxHops, depths, done, k - 1, v);
    } else {
      var u := WithinBack(edges, start, v, k - 1);
      NearIsSeen(edges, start, maxHops, depths, done, k - 1, u);
      assert u in done;
      DistanceUnique(edges, start, v, depths[v], k);
    }
  }

  /** A resource first seen from a node at depth `d` lies exactly `d + 1` hops away. */
  lemma NewDistance(
      edges: seq<Edge>, start: string, maxHops: nat, depths: map<string, nat>, done: set<string>,
      n: string, d: nat, v: string)
    requires Explored(edges, start, maxHops, depths, done)
    requires n in depths && depths[n] == d
    requires forall u :: u in depths && depths[u] < d ==> u in done
    requires Adjacent(edges, n, v) && v !in depths
    ensures Distance(edges, start, v, d + 1)
  {
    WithinStep(edges, start, n, v, d);
    if Within(edges, start, v, d) {
      NearIsSeen(edges, start, maxHops, depths, done, d, v);
    }
  }

  /** Queues a resource next to `n` unless it was seen before. */
  method See(
      edges: seq<Edge>, ghost start: string, ghost maxHops: nat, n: string, d: nat, next: string,
      queue: seq<Entry>, seen: set<string>, ghost depths: map<string, nat>, ghost done: set<string>)
    returns (queue': seq<Entry>, seen': set<string>, ghost depths': map<string, nat>)
    requires Explored(edges, start, maxHops, depths, done) && seen == depths.Keys
    requires Frontier(queue, depths, d) && Accounted(queue, depths, done, maxHops, {n})
    requires n in depths && depths[n] == d < maxHops
    requires forall u :: u in depths && depths[u] < d ==> u in done
    requires next == n || Adjacent(edges, n, next)
    ensures Explored(edges, start, maxHops, depths', done) && seen' == depths'.Keys
    ensures Frontier(queue', depths', d) && Accounted(queue', depths', done, maxHops, {n})
    ensures depths'.Keys == depths.Keys + {next} && forall v :: v in depths ==> depths'[v] == depths[v]
    ensures forall u :: u in depths' && depths'[u] < d ==> u in done
    ensures n !in done && !Waiting(queue, n) ==> !Waiting(queue', n)
    ensures next in depths ==> queue' == queue
  {
    hide Distance, Universe;
    queue', seen', depths' := queue, seen, depths;
    if next !in seen {
      NewDistance(edges, start, maxHops, depths, done, n, d, next);
      InUniverse(edges, start, n, next);
      queue' := queue + [(next, d + 1)];
      seen' := seen + {next};
      depths' := depths[next := d + 1];
      Queued(queue, next, d + 1);
      assert Frontier(queue', depths', d) by { hide Accounted, Explored; }
    }
  }

  lemma Queued(queue: seq<Entry>, v: string, d: nat)
    ensures forall u :: Waiting(queue + [(v, d)], u) <==> Waiting(queue, u) || u == v
  {
    var q := queue + [(v, d)];
    assert q[|queue|].0 == v;
    forall u ensures Waiting(q, u) <==> Waiting(queue, u) || u == v {
      if Waiting(queue, u) {
        var i :| 0 <= i < |queue| && queue[i].0 == u;
        assert q[i].0 == u;
      }
    }
  }

  lemma InUniverse(edges: seq<Edge>, start: string, u: string, v: string)
    requires Adjacent(edges, u, v)
    ensures v in Universe(edges, start)
  {
  }

  /** Scans every edge for the node `n` just taken from the queue. */
  method Expand(
      edges: seq<Edge>, ghost start: string, ghost maxHops: nat, n: string, d: nat,
      queue: seq<Entry>, seen: set<string>, out: seq<Edge>, keys: set<Key>,
      ghost depths: map<string, nat>, ghost done: set<string>)
    returns (queue': seq<Entry>, seen': set<string>, out': seq<Edge>, keys': set<Key>, ghost depths': map<string, nat>)
    requires Explored(edges, start, maxHops, depths, done) && seen == depths.Keys
    requires Frontier(queue, depths, d) && Accounted(queue, depths, done, maxHops, {n})
    requires n in depths && depths[n] == d < maxHops && n !in done && !Waiting(queue, n)
    requires forall u :: u in depths && depths[u] < d ==> u in done
    requires Gathered(edges, out, keys, done)
    ensures Explored(edges, start, maxHops, depths', done) && seen' == depths'.Keys
    ensures Frontier(queue', depths', d) && Accounted(queue', depths', done, maxHops, {n})
    ensures depths.Keys <= depths'.Keys && n in depths' && depths'[n] == d && !Waiting(queue', n)
    ensures forall v :: Adjacent(edges, n, v) ==> v in depths'
    ensures depths'.Keys == depths.Keys ==> queue' == queue
    ensures Collected(edges, out', keys', done, n, |edges|)
  {
    hide Explored, Frontier, Accounted, Collected, Waiting, EndpointsSeen, Adjacent, Gathered, Keys;
    queue', seen', out', keys', depths' := queue, seen, out, keys, depths;
    ScanStarts(edges, out, keys, done, n, depths);
    for i := 0 to |edges|
      invariant Explored(edges, start, maxHops, depths', done) && seen' == depths'.Keys
      invariant Frontier(queue', depths', d) && Accounted(queue', depths', done, maxHops, {n})
      invariant depths.Keys <= depths'.Keys && n in depths' && depths'[n] == d && !Waiting(queue', n)
      invariant forall u :: u in depths' && depths'[u] < d ==> u in done
      invariant EndpointsSeen(edges, i, n, depths')
      invariant depths'.Keys == depths.Keys ==> queue' == queue
      invariant Collected(edges, out', keys', done, n, i)
    {
      var edge := edges[i];
      if edge.from == n || edge.to == n {
        ghost var before := depths';
        CollectEdge(edges, out', keys', done, n, i);
        if KeyOf(edge) !in keys' {
          out' := out' + [edge];
        }
        keys' := keys' + {KeyOf(edge)};
        EndpointAdjacent(edges, i, n);
        queue', seen', depths' := See(edges, start, maxHops, n, d, edge.from, queue', seen', depths', done);
        queue', seen', depths' := See(edges, start, maxHops, n, d, edge.to, queue', seen', depths', done);
        SeenMore(edges, i, n, before, depths');
      } else {
        CollectEdge(edges, out', keys', done, n, i);
        NotTouching(edges, i, n, depths');
      }
    }
    AllEndpointsSeen(edges, n, depths');
  }

  ghost predicate EndpointsSeen(edges: seq<Edge>, i: nat, n: string, depths: map<string, nat>)
    requires i <= |edges|
  {
    forall j :: 0 <= j < i && Touches(edges[j], n) ==> edges[j].from in depths && edges[j].to in depths
  }

  lemma ScanStarts(
      edges: seq<Edge>, out: seq<Edge>, keys: set<Key>, done: set<string>, n: string, depths: map<string, nat>)
    requires Gathered(edges, out, keys, done)
    ensures Collected(edges, out, keys, done, n, 0) && EndpointsSeen(edges, 0, n, depths)
  {
  }

  lemma SeenMore(edges: seq<Edge>, i: nat, n: string, depths: map<string, nat>, more: map<string, nat>)
    requires i < |edges| && EndpointsSeen(edges, i, n, depths) && depths.Keys <= more.Keys
    requires edges[i].from in more && edges[i].to in more
    ensures EndpointsSeen(edges, i + 1, n, more)
  {
  }

  lemma NotTouching(edges: seq<Edge>, i: nat, n: string, depths: map<string, nat>)
    requires i < |edges| && EndpointsSeen(edges, i, n, depths) && !Touches(edges[i], n)
    ensures EndpointsSeen(edges, i + 1, n, depths)
  {
  }

  lemma EndpointAdjacent(edges: seq<Edge>, i: nat, n: string)
    requires i < |edges| && Touches(edges[i], n)
    ensures edges[i].from == n || Adjacent(edges, n, edges[i].from)
    ensures edges[i].to == n || Adjacent(edges, n, edges[i].to)
  {
    assert edges[i] in edges;
  }

  lemma AllEndpointsSeen(edges: seq<Edge>, n: string, depths: map<string, nat>)
    requires EndpointsSeen(edges, |edges|, n, depths)
    ensures forall v :: Adjacent(edges, n, v) ==> v in depths
  {
    forall v | Adjacent(edges, n, v) ensures v in depths {
      var e :| e in edges && ((e.from == n && e.to == v) || (e.from == v && e.to == n));
      var j :| 0 <= j < |edges| && edges[j] == e;
      assert Touches(edges[j], n);
    }
  }

  /** What scanning one more edge does to the result. */
  lemma CollectEdge(edges: seq<Edge>, out: seq<Edge>, keys: set<Key>, done: set<string>, n: string, i: nat)
    requires i < |edges| && Collected(edges, out, keys, done, n, i)
    ensures !Touches(edges[i], n) ==> Collected(edges, out, keys, done, n, i + 1)
    ensures
      Touches(edges[i], n) ==>
        Collected(edges, if KeyOf(edges[i]) in keys then out else out + [edges[i]], keys + {KeyOf(edges[i])},
                  done, n, i + 1)
  {
    var edge := edges[i];
    if Touches(edge, n) {
      if KeyOf(edge) in keys {
        assert keys + {KeyOf(edge)} == keys;
      } else {
        var more := out + [edge];
        forall j | 0 <= j < i ensures KeyOf(edges[j]) != KeyOf(edge) {
          assert Touches(edges[j], n) ==> KeyOf(edges[j]) in keys;
          assert KeyOf(edges[j]) == KeyOf(edge) ==> Touches(edges[j], n);
        }
        assert FirstOfKey(edges, edge);
        KeysMore(out, edge);
      }
    }
  }

  lemma KeysMore(out: seq<Edge>, e: Edge)
    ensures Keys(out + [e]) == Keys(out) + {KeyOf(e)}
    ensures DistinctKeys(out) && KeyOf(e) !in Keys(out) ==> DistinctKeys(out + [e])
  {
    var more := out + [e];
    assert more[|out|] == e;
    forall k ensures k in Keys(more) <==> k in Keys(out) + {KeyOf(e)} {
      if k in Keys(out) {
        var x :| x in out && KeyOf(x) == k;
        assert x in more;
      } else if k == KeyOf(e) {
        assert e in more;
      }
    }
    forall i | 0 <= i < |out| ensures KeyOf(out[i]) in Keys(out) {
      assert out[i] in out;
    }
  }

  /** The node just expanded joins the done ones. */
  lemma Finish(
      edges: seq<Edge>, start: string, maxHops: nat, depths: map<string, nat>, done: set<string>, n: string,
      queue: seq<Entry>, out: seq<Edge>, keys: set<Key>)
    requires Explored(edges, start, maxHops, depths, done) && Accounted(queue, depths, done, maxHops, {n})
    requires n in depths && depths[n] < maxHops && !Waiting(queue, n)
    requires forall v :: Adjacent(edges, n, v) ==> v in depths
    requires Collected(edges, out, keys, done, n, |edges|)
    ensures Explored(edges, start, maxHops, depths, done + {n})
    ensures Accounted(queue, depths, done + {n}, maxHops, {})
    ensures Gathered(edges, out, keys, done + {n})
  {
    hide Distance, Universe, FirstOfKey, Keys, DistinctKeys;
    forall e, v | e in edges && v in done + {n} && Touches(e, v) ensures KeyOf(e) in keys {
      var j :| 0 <= j < |edges| && edges[j] == e;
    }
    forall e | e in out ensures exists v :: v in done + {n} && Touches(e, v) {
      if Touches(e, n) {
        assert n in done + {n};
      } else {
        var v :| v in done && Touches(e, v);
        assert v in done + {n};
      }
    }
  }

  /** With the queue empty, the result holds exactly the keys of the near edges. */
  lemma SearchComplete(
      edges: seq<Edge>, start: string, maxHops: nat, depths: map<string, nat>, done: set<string>,
      out: seq<Edge>, keys: set<Key>)
    requires Explored(edges, start, maxHops, depths, done) && Accounted([], depths, done, maxHops, {})
    requires Gathered(edges, out, keys, done)
    ensures forall e :: e in out ==> e in edges && FirstOfKey(edges, e) && Near(edges, start, maxHops, e)
    ensures forall e :: e in edges && Near(edges, start, maxHops, e) ==> KeyOf(e) in Keys(out)
    ensures DistinctKeys(out)
  {
    forall e | e in out ensures Near(edges, start, maxHops, e) {
      var v :| v in done && Touches(e, v);
      assert depths[v] < maxHops && Distance(edges, start, v, depths[v]);
    }
    forall e | e in edges && Near(edges, start, maxHops, e) ensures KeyOf(e) in Keys(out) {
      var v: string, k: nat :| k < maxHops && Touches(e, v) && Distance(edges, start, v, k);
      NearIsSeen(edges, start, maxHops, depths, done, k, v);
      assert v in done;
    }
  }

  lemma SearchStarts(edges: seq<Edge>, start: string, maxHops: nat)
    ensures Explored(edges, start, maxHops, map[start := 0], {})
    ensures Frontier([(start, 0)], map[start := 0], 0)
    ensures Accounted([(start, 0)], map[start := 0], {}, maxHops, {})
    ensures Gathered(edges, [], {}, {})
  {
    WithinStart(edges, start, start);
    assert [(start, 0 as nat)][0].0 == start;
  }

  /** Taking the first node from the queue makes it the busy one. */
  lemma PopFront(
      edges: seq<Edge>, start: string, maxHops: nat, depths: map<string, nat>, done: set<string>, queue: seq<Entry>)
    requires queue != [] && Explored(edges, start, maxHops, depths, done)
    requires Frontier(queue, depths, queue[0].1) && Accounted(queue, depths, done, maxHops, {})
    ensures
      var (n, d) := queue[0];
      var rest := queue[1..];
      && n in depths && depths[n] == d && n !in done && !Waiting(rest, n)
      && Frontier(rest, depths, d) && (rest != [] ==> Frontier(rest, depths, rest[0].1))
      && Accounted(rest, depths, done, maxHops, {n})
      && (d >= maxHops ==> Accounted(rest, depths, done, maxHops, {}))
      && forall u :: u in depths && depths[u] < d ==> u in done
  {
    hide Distance, Universe;
    var (n, d) := queue[0];
    var rest := queue[1..];
    assert Waiting(queue, n);
    forall u ensures Waiting(queue, u) <==> Waiting(rest, u) || u == n {
      if Waiting(queue, u) {
        var i :| 0 <= i < |queue| && queue[i].0 == u;
        assert i > 0 ==> rest[i - 1].0 == u;
      }
      if Waiting(rest, u) {
        var i :| 0 <= i < |rest| && rest[i].0 == u;
        assert queue[i + 1].0 == u;
      }
    }
  }

  lemma FrontierLow(queue: seq<Entry>, depths: map<string, nat>, low: nat)
    requires Frontier(queue, depths, low)
    ensures queue != [] ==> Frontier(queue, depths, queue[0].1)
  {
  }

  lemma SeenGrows(
      edges: seq<Edge>, start: string, maxHops: nat, before: map<string, nat>, depths: map<string, nat>,
      done: set<string>)
    requires Explored(edges, start, maxHops, depths, done) && before.Keys <= depths.Keys
    ensures var all := Universe(edges, start);
            depths.Keys == before.Keys || all - depths.Keys < all - before.Keys
  {
    hide Universe;
    var all := Universe(edges, start);
    if depths.Keys != before.Keys {
      var v :| v in depths.Keys && v !in before.Keys;
      assert v in all - before.Keys && v !in all - depths.Keys;
    }
  }

  /**
   The bounded search. It returns, once per key and as the earliest edge of that key, exactly the edges with an
   endpoint fewer than `maxHops` undirected hops from `start`.
   */
  method GraphNeighbors(edges: seq<Edge>, start: string, maxHops: nat) returns (out: seq<Edge>)
    ensures DistinctKeys(out)
    ensures forall e :: e in out ==> e in edges && FirstOfKey(edges, e) && Near(edges, start, maxHops, e)
    ensures forall e :: e in edges && Near(edges, start, maxHops, e) ==> KeyOf(e) in Keys(out)
  {
    var queue, seen, keys := [(start, 0)], {start}, {};
    out := [];
    ghost var depths: map<string, nat>, done: set<string> := map[start := 0], {};
    SearchStarts(edges, start, maxHops);
    while queue != []
      invariant Explored(edges, start, maxHops, depths, done) && seen == depths.Keys
      invariant queue != [] ==> Frontier(queue, depths, queue[0].1)
      invariant Accounted(queue, depths, done, maxHops, {})
      invariant Gathered(edges, out, keys, done)
      decreases Universe(edges, start) - seen, |queue|
    {
      var (node, depth) := queue[0];
      ghost var before := depths;
      PopFront(edges, start, maxHops, depths, done, queue);
      queue := queue[1..];
      if depth >= maxHops { continue; }
      hide Explored, Accounted, Gathered, Universe, Waiting;
      queue, seen, out, keys, depths :=
        Expand(edges, start, maxHops, node, depth, queue, seen, out, keys, depths, done);
      Finish(edges, start, maxHops, depths, done, node, queue, out, keys);
      done := done + {node};
      FrontierLow(queue, depths, depth);
      SeenGrows(edges, start, maxHops, before, depths, done);
    }
    SearchComplete(edges, start, maxHops, depths, done, out, keys);
  }
}
