/** Layered placement of the flow graph: Kahn's worklist with longest-path columns. */
module Layout {

  const NODE_W := 230
  const NODE_H := 60
  const H_GAP := 64
  const V_GAP := 24

  datatype Edge = Edge(from: string, to: string)

  datatype Placed = Placed(x: int, y: int)

  type Columns = map<string, nat>

  // -- Graphs ----------------------------------------------------------------------

  /** An edge between two nodes of the graph; others are ignored. */
  predicate Counts(ids: set<string>, e: Edge) {
    e.from in ids && e.to in ids
  }

  predicate Linked(edges: seq<Edge>, ids: set<string>, u: string, v: string) {
    u in ids && v in ids && Edge(u, v) in edges
  }

  /** The targets of `u`, one entry for each edge. */
  function Kids(edges: seq<Edge>, ids: set<string>, u: string): seq<string> {
    if edges == [] then []
    else
      var e := edges[|edges| - 1];
      var before := Kids(edges[..|edges| - 1], ids, u);
      if Counts(ids, e) && e.from == u then before + [e.to] else before
  }

  /** How many edges lead to `v` from nodes outside `done`. */
  function Waiting(edges: seq<Edge>, ids: set<string>, v: string, done: set<string>): nat {
    if edges == [] then 0
    else
      var e := edges[|edges| - 1];
      Waiting(edges[..|edges| - 1], ids, v, done) + if Counts(ids, e) && e.to == v && e.from !in done then 1 else 0
  }

  function Occurs(xs: seq<string>, v: string): nat {
    if xs == [] then 0 else Occurs(xs[..|xs| - 1], v) + if xs[|xs| - 1] == v then 1 else 0
  }

  lemma {:induction false} KidsLinked(edges: seq<Edge>, ids: set<string>, u: string, v: string)
    ensures v in Kids(edges, ids, u) <==> Linked(edges, ids, u, v)
  {
    if edges != [] {
      var front, e := edges[..|edges| - 1], edges[|edges| - 1];
      KidsLinked(front, ids, u, v);
      assert edges == front + [e];
    }
  }

  lemma {:induction false} WaitingLess(edges: seq<Edge>, ids: set<string>, v: string, done: set<string>, u: string)
    requires u !in done
    ensures Waiting(edges, ids, v, done) == Waiting(edges, ids, v, done + {u}) + Occurs(Kids(edges, ids, u), v)
  {
    if edges != [] {
      hide Occurs;
      var front, e := edges[..|edges| - 1], edges[|edges| - 1];
      WaitingLess(front, ids, v, done, u);
      OccursMore(Kids(front, ids, u), e.to, v);
    } else {
      assert Kids(edges, ids, u) == [];
    }
  }

  lemma {:induction false} WaitingNone(edges: seq<Edge>, ids: set<string>, v: string, done: set<string>)
    ensures Waiting(edges, ids, v, done) == 0 <==> forall u :: Linked(edges, ids, u, v) ==> u in done
  {
    if edges != [] {
      var front, e := edges[..|edges| - 1], edges[|edges| - 1];
      WaitingNone(front, ids, v, done);
      assert edges == front + [e];
      if Counts(ids, e) && e.to == v && e.from !in done {
        assert Linked(edges, ids, e.from, v);
      }
      forall u | Linked(edges, ids, u, v) && Waiting(edges, ids, v, done) == 0 ensures u in done {
        assert Edge(u, v) in front || Edge(u, v) == e;
        assert Edge(u, v) in front ==> Linked(front, ids, u, v);
      }
      if forall u :: Linked(edges, ids, u, v) ==> u in done {
        forall u | Linked(front, ids, u, v) ensures u in done {
          assert Linked(edges, ids, u, v);
        }
      }
    }
  }

  lemma {:induction false} OccursPrefix(xs: seq<string>, v: string, j: nat)
    requires j <= |xs|
    ensures Occurs(xs[..j], v) <= Occurs(xs, v)
    ensures j < |xs| && xs[j] == v ==> Occurs(xs[..j], v) < Occurs(xs, v)
  {
    if j == |xs| {
      assert xs[..j] == xs;
    } else {
      var front := xs[..|xs| - 1];
      if j < |front| {
        OccursPrefix(front, v, j);
        assert front[..j] == xs[..j] && front[j] == xs[j];
      } else {
        assert xs[..j] == front;
      }
    }
  }

  // -- Columns ---------------------------------------------------------------------

  /**
   * The worklist after the nodes of `done` have been handled: a node is on it once nothing it waits
   * for is left, and stands one column after the latest handled node that leads to it.
   */
  ghost predicate Layering(edges: seq<Edge>, ids: set<string>, col: Columns, deg: Columns, queue: seq<string>,
                           done: set<string>) {
    && col.Keys == ids && deg.Keys == ids
    && (forall v :: v in ids ==> deg[v] == Waiting(edges, ids, v, done))
    && Worklist(ids, deg, queue)
    && Reached(edges, ids, col, done)
  }

  predicate Worklist(ids: set<string>, deg: Columns, queue: seq<string>)
    requires deg.Keys == ids
  {
    && (forall i, j :: 0 <= i < j < |queue| ==> queue[i] != queue[j])
    && (forall v :: v in queue ==> v in ids && deg[v] == 0)
    && (forall v :: v in ids && deg[v] == 0 ==> v in queue)
  }

  ghost predicate Reached(edges: seq<Edge>, ids: set<string>, col: Columns, done: set<string>)
    requires col.Keys == ids
  {
    && (forall u, v :: u in done && Linked(edges, ids, u, v) ==> col[u] + 1 <= col[v])
    && (forall v :: v in ids && col[v] > 0 ==>
          exists u :: u in done && Linked(edges, ids, u, v) && col[v] == col[u] + 1)
  }

  /** The same in the middle of handling `u`, with its first `j` edges followed. */
  ghost predicate Following(edges: seq<Edge>, ids: set<string>, col: Columns, deg: Columns, queue: seq<string>,
                            done: set<string>, u: string, kids: seq<string>, was: Columns) {
    && col.Keys == ids && deg.Keys == ids && was.Keys == ids && u in ids
    && (forall v :: v in ids ==> deg[v] + Occurs(kids, v) == Waiting(edges, ids, v, done))
    && Worklist(ids, deg, queue)
    && (forall v :: v in ids && v !in kids ==> col[v] == was[v])
    && (forall v :: v in ids && v in kids ==>
          was[v] <= col[v] && was[u] + 1 <= col[v] && (col[v] == was[v] || col[v] == was[u] + 1))
  }

  lemma FollowNext(edges: seq<Edge>, ids: set<string>, col: Columns, deg: Columns, queue: seq<string>,
                   done: set<string>,
                   u: string, all: seq<string>, j: nat, was: Columns)
    requires u in ids && u !in done && all == Kids(edges, ids, u) && j < |all|
    requires Following(edges, ids, col, deg, queue, done, u, all[..j], was)
    ensures col.Keys == ids && deg.Keys == ids && was.Keys == ids
    ensures all[j] in ids && deg[all[j]] > 0 && all[j] !in queue
    ensures u !in all ==> col[u] == was[u]
  {
    var v := all[j];
    KidsLinked(edges, ids, u, v);
    WaitingLess(edges, ids, v, done, u);
    OccursPrefix(all, v, j);
  }

  lemma OccursMore(kids: seq<string>, v: string, x: string)
    ensures Occurs(kids + [v], x) == Occurs(kids, x) + if x == v then 1 else 0
  {
    assert (kids + [v])[..|kids|] == kids;
  }

  lemma WorklistStep(ids: set<string>, deg: Columns, queue: seq<string>, v: string)
    requires deg.Keys == ids && Worklist(ids, deg, queue) && v in ids && deg[v] > 0 && v !in queue
    ensures Worklist(ids, deg[v := deg[v] - 1], if deg[v] == 1 then queue + [v] else queue)
  {
  }

  lemma FollowStep(edges: seq<Edge>, ids: set<string>, col: Columns, deg: Columns, queue: seq<string>,
                   done: set<string>, u: string, kids: seq<string>, v: string, was: Columns, col': Columns,
                   deg': Columns, queue': seq<string>)
    requires Following(edges, ids, col, deg, queue, done, u, kids, was)
    requires v in ids && v in col && v in deg && u in was && deg[v] > 0 && v !in queue
    requires col' == col[v := if col[v] < was[u] + 1 then was[u] + 1 else col[v]]
    requires deg' == deg[v := deg[v] - 1]
    requires queue' == if deg[v] == 1 then queue + [v] else queue
    ensures Following(edges, ids, col', deg', queue', done, u, kids + [v], was)
  {
    hide Waiting, Worklist, Occurs;
    WorklistStep(ids, deg, queue, v);
    assert forall x :: x in kids + [v] <==> x in kids || x == v;
    forall x | x in ids ensures deg'[x] + Occurs(kids + [v], x) == Waiting(edges, ids, x, done) {
      OccursMore(kids, v, x);
      assert deg[x] + Occurs(kids, x) == Waiting(edges, ids, x, done);
    }
  }

  /** Once all edges of `u` have been followed, `u` is done. */
  lemma FollowDone(edges: seq<Edge>, ids: set<string>, col: Columns, deg: Columns, queue: seq<string>,
                   done: set<string>,
                   u: string, was: Columns)
    requires u in ids && u !in done && was.Keys == ids && Reached(edges, ids, was, done)
    requires Following(edges, ids, col, deg, queue, done, u, Kids(edges, ids, u), was)
    requires forall x, v :: x in done && Linked(edges, ids, v, x) ==> v in done
    requires forall v :: Linked(edges, ids, v, u) ==> v in done
    ensures Layering(edges, ids, col, deg, queue, done + {u})
  {
    var kids := Kids(edges, ids, u);
    forall v ensures v in kids <==> Linked(edges, ids, u, v) {
      KidsLinked(edges, ids, u, v);
    }
    forall v | v in ids ensures deg[v] == Waiting(edges, ids, v, done + {u}) {
      WaitingLess(edges, ids, v, done, u);
    }
    assert forall x :: x in done + {u} && x in ids ==> col[x] == was[x];
    forall x, v | x in done + {u} && Linked(edges, ids, x, v) ensures col[x] + 1 <= col[v] {
      if x != u {
        assert was[x] + 1 <= was[v];
      }
    }
    forall v | v in ids && col[v] > 0
      ensures exists x :: x in done + {u} && Linked(edges, ids, x, v) && col[v] == col[x] + 1
    {
      if col[v] == was[v] {
        var x :| x in done && Linked(edges, ids, x, v) && was[v] == was[x] + 1;
        assert x in done + {u};
      } else {
        assert u in done + {u} && Linked(edges, ids, u, v);
      }
    }
  }

  function Members(ids: seq<string>): set<string> {
    set id | id in ids
  }

  predicate Distinct(ids: seq<string>) {
    forall i, j :: 0 <= i < j < |ids| ==> ids[i] != ids[j]
  }

  /** The children of each node, and how many edges lead to it. */
  method BuildGraph(ids: seq<string>, edges: seq<Edge>) returns (children: map<string, seq<string>>, indeg: Columns)
    ensures indeg.Keys == Members(ids)
    ensures forall v :: v in Members(ids) ==> indeg[v] == Waiting(edges, Members(ids), v, {})
    ensures forall u :: (if u in children then children[u] else []) == Kids(edges, Members(ids), u)
  {
    var idSet := Members(ids);
    children := map[];
    indeg := map v | v in idSet :: 0;
    assert edges[..0] == [];
    for i := 0 to |edges|
      invariant indeg.Keys == idSet
      invariant forall v :: v in idSet ==> indeg[v] == Waiting(edges[..i], idSet, v, {})
      invariant forall u :: (if u in children then children[u] else []) == Kids(edges[..i], idSet, u)
    {
      var e := edges[i];
      assert edges[..i + 1][..i] == edges[..i];
      if Counts(idSet, e) {
        children := children[e.from := (if e.from in children then children[e.from] else []) + [e.to]];
        indeg := indeg[e.to := indeg[e.to] + 1];
      }
    }
    assert edges[..|edges|] == edges;
  }

  /** Kahn's algorithm: the order in which nodes are handled, and the column of each. */
  method Layer(ids: seq<string>, edges: seq<Edge>) returns (col: Columns, queue: seq<string>)
    requires Distinct(ids)
    ensures col.Keys == Members(ids) && Distinct(queue) && Members(queue) <= Members(ids)
    ensures Reached(edges, Members(ids), col, Members(queue))
    ensures forall v :: v in ids ==>
              (v in queue <==> forall u :: Linked(edges, Members(ids), u, v) ==> u in queue)
    ensures forall i :: 0 <= i < |queue| ==> forall u :: Linked(edges, Members(ids), u, queue[i]) ==> u in queue[..i]
  {
    hide Layering, Following, Worklist, Reached, Ready, Waiting, Kids, Linked, Occurs, Distinct, Members;
    ghost var nodes := Members(ids);
    var children, indeg := BuildGraph(ids, edges);
    col := map v | v in Members(ids) :: 0;
    var deg := indeg;
    queue := Idle(ids, deg);
    Starts(edges, nodes, col, deg, queue);
    var head := 0;
    while head < |queue|
      invariant 0 <= head <= |queue|
      invariant Layering(edges, nodes, col, deg, queue, Members(queue[..head]))
      invariant Ready(edges, nodes, queue, head)
      decreases |nodes| - head
    {
      QueueFits(edges, nodes, col, deg, queue, Members(queue[..head]));
      var kids := if queue[head] in children then children[queue[head]] else [];
      col, deg, queue := HandleHead(edges, nodes, col, deg, queue, head, kids);
      head := head + 1;
    }
    assert queue[..|queue|] == queue;
    Ends(edges, nodes, col, deg, queue);
    AreMembers(ids);
  }

  lemma AreMembers(ids: seq<string>)
    ensures forall v :: v in ids <==> v in Members(ids)
  {
  }

  /** Handle the node at the head of the worklist. */
  method HandleHead(ghost edges: seq<Edge>, ghost nodes: set<string>, col0: Columns, deg0: Columns, queue0: seq<string>,
                    head: nat, kids: seq<string>)
    returns (col: Columns, deg: Columns, queue: seq<string>)
    requires head < |queue0| && kids == Kids(edges, nodes, queue0[head])
    requires Layering(edges, nodes, col0, deg0, queue0, Members(queue0[..head])) && Ready(edges, nodes, queue0, head)
    ensures head + 1 <= |queue|
    ensures Layering(edges, nodes, col, deg, queue, Members(queue[..head + 1])) && Ready(edges, nodes, queue, head + 1)
  {
    hide Layering, Following, Worklist, Reached, Ready, Waiting, Kids, Linked, Occurs, Distinct, Members;
    var u := queue0[head];
    UpNext(edges, nodes, col0, deg0, queue0, head, kids);
    col, deg, queue := FollowAll(edges, nodes, col0, deg0, queue0, Members(queue0[..head]), u, kids);
    FollowDone(edges, nodes, col, deg, queue, Members(queue0[..head]), u, col0);
    OneMore(queue0, queue, head);
    StillReady(edges, nodes, col, deg, queue0, queue, head);
  }

  /** Follow the edges of the node at the head of the worklist. */
  method FollowAll(ghost edges: seq<Edge>, ghost nodes: set<string>, col0: Columns, deg0: Columns, queue0: seq<string>,
                   ghost done: set<string>, u: string, kids: seq<string>)
    returns (col: Columns, deg: Columns, queue: seq<string>)
    requires u in nodes && u !in done && u !in kids && kids == Kids(edges, nodes, u)
    requires Following(edges, nodes, col0, deg0, queue0, done, u, [], col0)
    ensures Following(edges, nodes, col, deg, queue, done, u, kids, col0) && queue0 <= queue
  {
    hide Following, Kids, Occurs;
    col, deg, queue := col0, deg0, queue0;
    assert kids[..0] == [];
    for j := 0 to |kids|
      invariant Following(edges, nodes, col, deg, queue, done, u, kids[..j], col0)
      invariant queue0 <= queue
    {
      var v := kids[j];
      FollowNext(edges, nodes, col, deg, queue, done, u, kids, j, col0);
      ghost var col1, deg1, queue1 := col, deg, queue;
      var next := col[u] + 1;
      col := col[v := if col[v] < next then next else col[v]];
      deg := deg[v := deg[v] - 1];
      if deg[v] == 0 {
        queue := queue + [v];
      }
      FollowStep(edges, nodes, col1, deg1, queue1, done, u, kids[..j], v, col0, col, deg, queue);
      assert kids[..j + 1] == kids[..j] + [v];
    }
    assert kids[..|kids|] == kids;
  }

  lemma Starts(edges: seq<Edge>, ids: set<string>, col: Columns, deg: Columns, queue: seq<string>)
    requires deg.Keys == ids && Worklist(ids, deg, queue) && col == map v | v in ids :: 0
    requires forall v :: v in ids ==> deg[v] == Waiting(edges, ids, v, {})
    ensures Layering(edges, ids, col, deg, queue, Members(queue[..0])) && Ready(edges, ids, queue, 0)
  {
    assert Members(queue[..0]) == {};
    forall i, u | 0 <= i < |queue| ensures !Linked(edges, ids, u, queue[i]) {
      assert queue[i] in queue;
      WaitingNone(edges, ids, queue[i], {});
    }
  }

  lemma OneMore(line: seq<string>, queue: seq<string>, head: nat)
    requires head < |line| && line <= queue
    ensures Members(queue[..head + 1]) == Members(line[..head]) + {line[head]}
  {
    assert queue[..head + 1] == line[..head] + [line[head]];
  }

  lemma Ends(edges: seq<Edge>, ids: set<string>, col: Columns, deg: Columns, queue: seq<string>)
    requires Layering(edges, ids, col, deg, queue, Members(queue)) && Ready(edges, ids, queue, |queue|)
    ensures col.Keys == ids && Distinct(queue) && Members(queue) <= ids && Reached(edges, ids, col, Members(queue))
    ensures forall v :: v in ids ==> (v in queue <==> forall u :: Linked(edges, ids, u, v) ==> u in queue)
    ensures forall i :: 0 <= i < |queue| ==> forall u :: Linked(edges, ids, u, queue[i]) ==> u in queue[..i]
  {
    hide Linked, Waiting;
    forall v | v in ids ensures v in queue <==> forall u :: Linked(edges, ids, u, v) ==> u in queue {
      WaitingNone(edges, ids, v, Members(queue));
    }
  }

  /** `ids.filter(id => deg(id) === 0)`. */
  method Idle(ids: seq<string>, deg: Columns) returns (queue: seq<string>)
    requires Distinct(ids) && deg.Keys == Members(ids)
    ensures Worklist(Members(ids), deg, queue)
  {
    queue := [];
    for i := 0 to |ids|
      invariant Distinct(queue)
      invariant forall v :: v in queue <==> v in ids[..i] && deg[v] == 0
    {
      assert ids[..i + 1] == ids[..i] + [ids[i]];
      if deg[ids[i]] == 0 {
        queue := queue + [ids[i]];
      }
    }
    assert ids[..|ids|] == ids;
  }

  /** Everything on the worklist waits only for nodes before it and handled already. */
  ghost predicate Ready(edges: seq<Edge>, ids: set<string>, queue: seq<string>, head: nat)
    requires head <= |queue|
  {
    && (forall i :: 0 <= i < |queue| ==>
          forall u :: Linked(edges, ids, u, queue[i]) ==> u in queue[..i] && u in queue[..head])
  }

  /** The node at the head waits for nothing, and was not handled before. */
  lemma UpNext(edges: seq<Edge>, ids: set<string>, col: Columns, deg: Columns, queue: seq<string>, head: nat,
               kids: seq<string>)
    requires head < |queue| && Layering(edges, ids, col, deg, queue, Members(queue[..head]))
    requires Ready(edges, ids, queue, head) && kids == Kids(edges, ids, queue[head])
    ensures var u, done := queue[head], Members(queue[..head]);
            && u in ids && u !in done && u !in kids && col.Keys == ids && Reached(edges, ids, col, done)
            && (forall v :: Linked(edges, ids, v, u) ==> v in done)
            && (forall x, v :: x in done && Linked(edges, ids, v, x) ==> v in done)
            && Following(edges, ids, col, deg, queue, done, u, [], col)
  {
    var done := Members(queue[..head]);
    forall x, v | x in done && Linked(edges, ids, v, x) ensures v in done {
      var i :| 0 <= i < head && queue[i] == x;
      assert v in queue[..head];
    }
    KeepsOwn(edges, ids, queue[head], kids, done);
  }

  /** A node that waits for nothing is not its own child. */
  lemma KeepsOwn(edges: seq<Edge>, ids: set<string>, u: string, kids: seq<string>, done: set<string>)
    requires kids == Kids(edges, ids, u) && u !in done && forall v :: Linked(edges, ids, v, u) ==> v in done
    ensures u !in kids
  {
    KidsLinked(edges, ids, u, u);
  }

  lemma StillReady(edges: seq<Edge>, ids: set<string>, col: Columns, deg: Columns, line: seq<string>,
                   queue: seq<string>, head: nat)
    requires head < |line| && line <= queue && Ready(edges, ids, line, head)
    requires Layering(edges, ids, col, deg, queue, Members(queue[..head + 1]))
    ensures Ready(edges, ids, queue, head + 1)
  {
    hide Layering, Linked;
    forall i, u | 0 <= i < |queue| && Linked(edges, ids, u, queue[i])
      ensures u in queue[..i] && u in queue[..head + 1]
    {
      if i < |line| {
        assert queue[..i] == line[..i] && line[i] == queue[i];
        assert u in line[..head] && queue[..head + 1][..head] == line[..head];
      } else {
        QueuedWaitsForNone(edges, ids, col, deg, queue, Members(queue[..head + 1]), i, u);
        assert u in queue[..head + 1];
        assert queue[..i][..head + 1] == queue[..head + 1];
      }
    }
  }

  lemma QueuedWaitsForNone(edges: seq<Edge>, ids: set<string>, col: Columns, deg: Columns, queue: seq<string>,
                           done: set<string>, i: nat, u: string)
    requires Layering(edges, ids, col, deg, queue, done) && i < |queue| && Linked(edges, ids, u, queue[i])
    ensures u in done
  {
    hide Linked, Waiting;
    WaitingNone(edges, ids, queue[i], done);
    assert queue[i] in queue;
  }

  lemma QueueFits(edges: seq<Edge>, ids: set<string>, col: Columns, deg: Columns, queue: seq<string>, done: set<string>)
    requires Layering(edges, ids, col, deg, queue, done)
    ensures |queue| <= |ids|
  {
    Counted(queue);
    assert Members(queue) <= ids;
    assert ids == Members(queue) + (ids - Members(queue));
  }

  lemma {:induction false} Counted(xs: seq<string>)
    requires Distinct(xs)
    ensures |Members(xs)| == |xs|
  {
    if xs != [] {
      var front := xs[..|xs| - 1];
      Counted(front);
      assert xs == front + [xs[|xs| - 1]];
      assert Members(xs) == Members(front) + {xs[|xs| - 1]};
    }
  }

  // -- Longest paths -----------------------------------------------------------------

  /** The graph is acyclic: every edge goes up in `rank`. */
  ghost predicate Ranked(edges: seq<Edge>, ids: set<string>, rank: string -> nat) {
    forall u, v :: Linked(edges, ids, u, v) ==> rank(u) < rank(v)
  }

  ghost predicate IsPath(edges: seq<Edge>, ids: set<string>, p: seq<string>) {
    && p != []
    && (forall i :: 0 <= i < |p| ==> p[i] in ids)
    && (forall i :: 0 <= i < |p| - 1 ==> Linked(edges, ids, p[i], p[i + 1]))
  }

  /** `n` is the number of edges on the longest path that ends at `v`. */
  ghost predicate LongestTo(edges: seq<Edge>, ids: set<string>, v: string, n: nat) {
    && (forall p :: IsPath(edges, ids, p) && p[|p| - 1] == v ==> |p| - 1 <= n)
    && (exists p :: IsPath(edges, ids, p) && p[|p| - 1] == v && |p| - 1 == n)
  }

  lemma {:induction false} Handled(edges: seq<Edge>, ids: set<string>, queue: seq<string>, rank: string -> nat,
                                   v: string)
    requires Ranked(edges, ids, rank) && v in ids
    requires forall x :: x in ids ==> (x in queue <==> forall u :: Linked(edges, ids, u, x) ==> u in queue)
    ensures v in queue
    decreases rank(v)
  {
    forall u | Linked(edges, ids, u, v) ensures u in queue {
      Handled(edges, ids, queue, rank, u);
    }
  }

  lemma {:induction false} PathFits(edges: seq<Edge>, ids: set<string>, col: Columns, p: seq<string>)
    requires IsPath(edges, ids, p) && col.Keys == ids
    requires forall u, v :: Linked(edges, ids, u, v) ==> col[u] + 1 <= col[v]
    ensures |p| - 1 <= col[p[|p| - 1]]
  {
    if |p| > 1 {
      var front := p[..|p| - 1];
      PathFits(edges, ids, col, front);
      assert Linked(edges, ids, p[|p| - 2], p[|p| - 2 + 1]);
    }
  }

  lemma PathOn(edges: seq<Edge>, ids: set<string>, front: seq<string>, v: string)
    requires IsPath(edges, ids, front) && v in ids && Linked(edges, ids, front[|front| - 1], v)
    ensures IsPath(edges, ids, front + [v])
  {
    hide Linked;
    var p := front + [v];
    forall i | 0 <= i < |p| - 1 ensures Linked(edges, ids, p[i], p[i + 1]) {
      if i < |front| - 1 {
        assert p[i] == front[i] && p[i + 1] == front[i + 1];
      }
    }
  }

  lemma LatestBefore(edges: seq<Edge>, ids: set<string>, col: Columns, done: set<string>, v: string) returns (u: string)
    requires col.Keys == ids && v in ids && Reached(edges, ids, col, done) && col[v] > 0
    ensures u in ids && Linked(edges, ids, u, v) && col[v] == col[u] + 1
  {
    u :| u in done && Linked(edges, ids, u, v) && col[v] == col[u] + 1;
  }

  lemma {:induction false} PathTo(edges: seq<Edge>, ids: set<string>, col: Columns, done: set<string>, v: string)
    returns (p: seq<string>)
    requires col.Keys == ids && v in ids && Reached(edges, ids, col, done)
    ensures IsPath(edges, ids, p) && p[|p| - 1] == v && |p| - 1 == col[v]
    decreases col[v]
  {
    hide Linked, Reached;
    if col[v] == 0 {
      p := [v];
    } else {
      var u := LatestBefore(edges, ids, col, done, v);
      var front := PathTo(edges, ids, col, done, u);
      PathOn(edges, ids, front, v);
      p := front + [v];
    }
  }

  lemma LongestAt(edges: seq<Edge>, ids: set<string>, col: Columns, done: set<string>, v: string)
    requires col.Keys == ids && v in ids && Reached(edges, ids, col, done) && done == ids
    ensures LongestTo(edges, ids, v, col[v])
  {
    Later(edges, ids, col, done);
    hide Linked, Reached, IsPath;
    forall p | IsPath(edges, ids, p) && p[|p| - 1] == v ensures |p| - 1 <= col[v] {
      PathFits(edges, ids, col, p);
    }
    var p := PathTo(edges, ids, col, done, v);
  }

  lemma Later(edges: seq<Edge>, ids: set<string>, col: Columns, done: set<string>)
    requires col.Keys == ids && Reached(edges, ids, col, done) && done == ids
    ensures forall u, v :: Linked(edges, ids, u, v) ==> col[u] + 1 <= col[v]
  {
  }

  /**
   * In an acyclic graph the worklist handles every node exactly once, each column is the length of the
   * longest path to its node, and every edge goes to a strictly later column.
   */
  lemma LayersAreLongestPaths(edges: seq<Edge>, ids: seq<string>, col: Columns, queue: seq<string>, rank: string -> nat)
    requires Ranked(edges, Members(ids), rank) && Distinct(ids)
    requires col.Keys == Members(ids) && Distinct(queue) && Members(queue) <= Members(ids)
    requires Reached(edges, Members(ids), col, Members(queue))
    requires forall v :: v in ids ==>
               (v in queue <==> forall u :: Linked(edges, Members(ids), u, v) ==> u in queue)
    ensures |queue| == |ids| && forall v :: v in queue <==> v in ids
    ensures forall u, v :: Linked(edges, Members(ids), u, v) ==> col[u] + 1 <= col[v]
    ensures forall v :: v in ids ==> LongestTo(edges, Members(ids), v, col[v])
  {
    hide Linked, Reached, LongestTo, Ranked, Distinct;
    var nodes := Members(ids);
    forall v | v in nodes ensures v in queue {
      Handled(edges, nodes, queue, rank, v);
    }
    assert Members(queue) == nodes;
    forall v ensures v in queue <==> v in ids {
      assert (v in Members(queue) <==> v in queue) && (v in nodes <==> v in ids);
    }
    Counted(ids);
    Counted(queue);
    Later(edges, nodes, col, Members(queue));
    forall v | v in ids ensures LongestTo(edges, nodes, v, col[v]) {
      LongestAt(edges, nodes, col, Members(queue), v);
    }
  }

  ghost predicate Acyclic(edges: seq<Edge>, ids: set<string>) {
    exists rank :: Ranked(edges, ids, rank)
  }

  // -- Placement ---------------------------------------------------------------------

  /** The nodes of a column, in the order given. */
  function Row(ids: seq<string>, col: Columns, c: nat): seq<string> {
    if ids == [] then []
    else
      var last := ids[|ids| - 1];
      var before := Row(ids[..|ids| - 1], col, c);
      if last in col && col[last] == c then before + [last] else before
  }

  lemma {:induction false} RowMember(ids: seq<string>, col: Columns, c: nat, v: string)
    ensures v in Row(ids, col, c) <==> v in ids && v in col && col[v] == c
  {
    if ids != [] {
      RowMember(ids[..|ids| - 1], col, c, v);
      assert ids == ids[..|ids| - 1] + [ids[|ids| - 1]];
    }
  }

  function BlockHeight(rows: nat): nat {
    rows * NODE_H + (if rows > 0 then (rows - 1) * V_GAP else 0)
  }

  /** Where the node in row `r` of column `c` goes. All distances are even, so halving is exact. */
  function Place(c: nat, r: nat, rows: nat, height: int): Placed {
    Placed(c * (NODE_W + H_GAP), (height - BlockHeight(rows)) / 2 + r * (NODE_H + V_GAP))
  }

  predicate Apart(a: Placed, b: Placed) {
    a.x + NODE_W <= b.x || b.x + NODE_W <= a.x || a.y + NODE_H <= b.y || b.y + NODE_H <= a.y
  }

  predicate Inside(p: Placed, width: int, height: int) {
    0 <= p.x && p.x + NODE_W <= width && 0 <= p.y && p.y + NODE_H <= height
  }

  /** A node stands in its column, centred with it, below those that come before it. */
  ghost predicate Stands(ids: seq<string>, col: Columns, v: string, at: Placed, height: int) {
    && v in col
    && exists r: nat ::
         r < |Row(ids, col, col[v])| && Row(ids, col, col[v])[r] == v
         && at == Place(col[v], r, |Row(ids, col, col[v])|, height)
  }

  lemma RowNone(ids: seq<string>, col: Columns)
    ensures forall c: nat :: Row(ids[..0], col, c) == []
  {
  }

  lemma RowMore(ids: seq<string>, i: nat, col: Columns)
    requires i < |ids| && ids[i] in col
    ensures forall c: nat ::
              Row(ids[..i + 1], col, c) == Row(ids[..i], col, c) + if col[ids[i]] == c then [ids[i]] else []
  {
    assert ids[..i + 1][..i] == ids[..i];
  }

  method GroupByColumn(ids: seq<string>, col: Columns) returns (byCol: map<nat, seq<string>>)
    requires col.Keys == Members(ids)
    ensures forall c: nat :: (if c in byCol then byCol[c] else []) == Row(ids, col, c)
  {
    hide Row;
    byCol := map[];
    RowNone(ids, col);
    for i := 0 to |ids|
      invariant forall c: nat :: (if c in byCol then byCol[c] else []) == Row(ids[..i], col, c)
    {
      var c := col[ids[i]];
      RowMore(ids, i, col);
      byCol := byCol[c := (if c in byCol then byCol[c] else []) + [ids[i]]];
    }
    assert ids[..|ids|] == ids;
  }

  /** The last column and the number of rows of the fullest one. */
  method Extent(ids: seq<string>, col: Columns, byCol: map<nat, seq<string>>) returns (maxCol: nat, maxRows: nat)
    requires col.Keys == Members(ids)
    requires forall c: nat :: (if c in byCol then byCol[c] else []) == Row(ids, col, c)
    ensures maxRows >= 1 && forall v :: v in ids ==> col[v] <= maxCol && |Row(ids, col, col[v])| <= maxRows
    ensures ids == [] ==> maxCol == 0 && maxRows == 1
    ensures ids != [] ==>
              (exists v :: v in ids && col[v] == maxCol) && exists v :: v in ids && |Row(ids, col, col[v])| == maxRows
  {
    hide Row;
    maxCol, maxRows := 0, 1;
    ghost var widest, fullest := "", "";
    for i := 0 to |ids|
      invariant maxRows >= 1 && (i == 0 ==> maxCol == 0 && maxRows == 1)
      invariant i > 0 ==> widest in ids && fullest in ids && col[widest] == maxCol
                          && |Row(ids, col, col[fullest])| == maxRows
      invariant forall v :: v in ids[..i] ==> col[v] <= maxCol && |Row(ids, col, col[v])| <= maxRows
    {
      var c := col[ids[i]];
      RowMember(ids, col, c, ids[i]);
      assert ids[..i + 1] == ids[..i] + [ids[i]];
      if i == 0 || c > maxCol {
        widest := ids[i];
      }
      if i == 0 || |byCol[c]| > maxRows {
        fullest := ids[i];
      }
      maxCol := if c > maxCol then c else maxCol;
      maxRows := if |byCol[c]| > maxRows then |byCol[c]| else maxRows;
    }
    assert ids[..|ids|] == ids;
  }

  lemma PutStands(ids: seq<string>, col: Columns, c: nat, r: nat, height: int)
    requires col.Keys == Members(ids) && r < |Row(ids, col, c)|
    ensures var v := Row(ids, col, c)[r];
            v in ids && col[v] == c && Stands(ids, col, v, Place(c, r, |Row(ids, col, c)|, height), height)
  {
    var v := Row(ids, col, c)[r];
    assert v in Row(ids, col, c);
    RowMember(ids, col, c, v);
  }

  method PlaceColumn(ids: seq<string>, col: Columns, row: seq<string>, c: nat, height: int, pos0: map<string, Placed>)
    returns (pos: map<string, Placed>)
    requires col.Keys == Members(ids) && row == Row(ids, col, c)
    requires forall v :: v in pos0 ==> Stands(ids, col, v, pos0[v], height)
    ensures forall v :: v in pos <==> v in pos0 || v in row
    ensures forall v :: v in pos ==> Stands(ids, col, v, pos[v], height)
  {
    hide Row, Place, Stands;
    pos := pos0;
    for r := 0 to |row|
      invariant forall v :: v in pos <==> v in pos0 || v in row[..r]
      invariant forall v :: v in pos ==> Stands(ids, col, v, pos[v], height)
    {
      PutStands(ids, col, c, r, height);
      assert row[..r + 1] == row[..r] + [row[r]];
      pos := pos[row[r] := Place(c, r, |row|, height)];
    }
    assert row[..|row|] == row;
  }

  method PlaceAll(ids: seq<string>, col: Columns, byCol: map<nat, seq<string>>, maxCol: nat, height: int)
    returns (pos: map<string, Placed>)
    requires Distinct(ids) && col.Keys == Members(ids)
    requires forall c: nat :: (if c in byCol then byCol[c] else []) == Row(ids, col, c)
    requires forall v :: v in ids ==> col[v] <= maxCol
    ensures pos.Keys == Members(ids)
    ensures forall v :: v in ids ==> Stands(ids, col, v, pos[v], height)
  {
    hide Row, Place, Stands, Distinct;
    pos := map[];
    for c := 0 to maxCol + 1
      invariant forall v :: v in pos <==> v in ids && col[v] < c
      invariant forall v :: v in pos ==> Stands(ids, col, v, pos[v], height)
    {
      var row := if c in byCol then byCol[c] else [];
      forall v ensures v in row <==> v in ids && col[v] == c {
        RowMember(ids, col, c, v);
      }
      pos := PlaceColumn(ids, col, row, c, height, pos);
    }
  }

  /** Two nodes of the layout do not overlap, and all stay within its bounds. */
  lemma BoxesApart(ids: seq<string>, col: Columns, u: string, v: string, a: Placed, b: Placed, height: int)
    requires u != v && Stands(ids, col, u, a, height) && Stands(ids, col, v, b, height)
    ensures Apart(a, b)
  {
    hide Row;
    if col[u] != col[v] {
      var lo, hi := if col[u] < col[v] then col[u] else col[v], if col[u] < col[v] then col[v] else col[u];
      assert (lo + 1) * (NODE_W + H_GAP) <= hi * (NODE_W + H_GAP);
    }
  }

  lemma BoxInside(ids: seq<string>, col: Columns, v: string, at: Placed, maxCol: nat, maxRows: nat)
    requires Stands(ids, col, v, at, BlockHeight(maxRows)) && col[v] <= maxCol
    requires |Row(ids, col, col[v])| <= maxRows
    ensures Inside(at, (maxCol + 1) * NODE_W + maxCol * H_GAP, BlockHeight(maxRows))
  {
    hide Row;
    assert col[v] * (NODE_W + H_GAP) <= maxCol * (NODE_W + H_GAP);
  }

  /** Every box has its mirror image in its column: the column is centred, and its rows are evenly spaced. */
  ghost predicate Centred(ids: seq<string>, col: Columns, pos: map<string, Placed>, height: int)
    requires col.Keys == Members(ids) && pos.Keys == Members(ids)
  {
    forall v :: v in ids ==>
      exists u :: u in ids && col[u] == col[v] && pos[u].y + pos[v].y + NODE_H == height
  }

  /** Nodes of one column stand in the order given, one row apart or more. */
  ghost predicate InGivenOrder(ids: seq<string>, col: Columns, pos: map<string, Placed>)
    requires col.Keys == Members(ids) && pos.Keys == Members(ids)
  {
    forall i, j :: 0 <= i < j < |ids| && col[ids[i]] == col[ids[j]] ==>
      pos[ids[i]].y + NODE_H + V_GAP <= pos[ids[j]].y
  }

  /** The area is no larger than the boxes need. */
  ghost predicate Tight(ids: seq<string>, pos: map<string, Placed>, width: int, height: int)
    requires pos.Keys == Members(ids)
  {
    if ids == [] then width == NODE_W && height == NODE_H
    else
      && (exists v :: v in ids && pos[v].x + NODE_W == width)
      && (exists v :: v in ids && pos[v].y == 0)
      && (exists v :: v in ids && pos[v].y + NODE_H == height)
  }

  /**
   * The layout: nodes in longest-path columns, each column centred, no two boxes overlapping and none
   * leaving the computed width and height.
   */
  method ComputeLayout(ids: seq<string>, edges: seq<Edge>)
    returns (pos: map<string, Placed>, width: int, height: int, ghost col: Columns)
    requires Distinct(ids)
    ensures pos.Keys == Members(ids) && col.Keys == Members(ids)
    ensures forall v :: v in ids ==> pos[v].x == col[v] * (NODE_W + H_GAP) && Inside(pos[v], width, height)
    ensures forall u, v :: u in ids && v in ids && u != v ==> Apart(pos[u], pos[v])
    ensures Centred(ids, col, pos, height) && InGivenOrder(ids, col, pos) && Tight(ids, pos, width, height)
    ensures Acyclic(edges, Members(ids)) ==> Layered(edges, Members(ids), col)
  {
    hide Reached, Linked, Row, BlockHeight, Layered, Acyclic, Stands, Inside, Apart, Distinct, Centred, InGivenOrder,
         Tight;
    var columns, queue := Layer(ids, edges);
    col := columns;
    var byCol := GroupByColumn(ids, columns);
    var maxCol, maxRows := Extent(ids, columns, byCol);
    height := BlockHeight(maxRows);
    pos := PlaceAll(ids, columns, byCol, maxCol, height);
    width := (maxCol + 1) * NODE_W + maxCol * H_GAP;
    forall v | v in ids ensures pos[v].x == col[v] * (NODE_W + H_GAP) && Inside(pos[v], width, height) {
      BoxInside(ids, col, v, pos[v], maxCol, maxRows);
      BoxColumn(ids, col, v, pos[v], height);
    }
    forall u, v | u in ids && v in ids && u != v ensures Apart(pos[u], pos[v]) {
      BoxesApart(ids, col, u, v, pos[u], pos[v], height);
    }
    AllCentred(ids, col, pos, height, maxRows);
    AllInOrder(ids, col, pos, height);
    AllTight(ids, col, pos, width, height, maxCol, maxRows);
    if Acyclic(edges, Members(ids)) {
      LayersAcyclic(edges, ids, columns, queue);
    }
  }

  /** The row of a node that stands, as a number. */
  lemma RowOf(ids: seq<string>, col: Columns, v: string, at: Placed, height: int) returns (r: nat)
    requires Stands(ids, col, v, at, height)
    ensures r < |Row(ids, col, col[v])| && Row(ids, col, col[v])[r] == v
    ensures at == Place(col[v], r, |Row(ids, col, col[v])|, height)
  {
    hide Row, Place;
    r :| r < |Row(ids, col, col[v])| && Row(ids, col, col[v])[r] == v
         && at == Place(col[v], r, |Row(ids, col, col[v])|, height);
  }

  lemma {:induction false} RowOnce(ids: seq<string>, col: Columns, c: nat, i: nat, j: nat)
    requires Distinct(ids) && i < |Row(ids, col, c)| && j < |Row(ids, col, c)|
    requires Row(ids, col, c)[i] == Row(ids, col, c)[j]
    ensures i == j
  {
    if ids != [] {
      var front, last := ids[..|ids| - 1], ids[|ids| - 1];
      var before := Row(front, col, c);
      RowMember(front, col, c, last);
      if i < |before| && j < |before| {
        RowOnce(front, col, c, i, j);
      }
    }
  }

  /** Where the node in a given row stands. */
  lemma StandsAt(ids: seq<string>, col: Columns, pos: map<string, Placed>, height: int, c: nat, r: nat)
    requires Distinct(ids) && col.Keys == Members(ids) && pos.Keys == Members(ids) && r < |Row(ids, col, c)|
    requires forall v :: v in ids ==> Stands(ids, col, v, pos[v], height)
    ensures var v := Row(ids, col, c)[r];
            v in ids && v in col && v in pos && col[v] == c && pos[v] == Place(c, r, |Row(ids, col, c)|, height)
  {
    hide Row, Place, Stands, Distinct;
    var v := Row(ids, col, c)[r];
    assert v in Row(ids, col, c);
    RowMember(ids, col, c, v);
    var at := RowOf(ids, col, v, pos[v], height);
    RowOnce(ids, col, c, at, r);
  }

  lemma AllCentred(ids: seq<string>, col: Columns, pos: map<string, Placed>, height: int, maxRows: nat)
    requires Distinct(ids) && col.Keys == Members(ids) && pos.Keys == Members(ids) && height == BlockHeight(maxRows)
    requires forall v :: v in ids ==> Stands(ids, col, v, pos[v], height)
    ensures Centred(ids, col, pos, height)
  {
    hide Row, Stands, Distinct;
    forall v | v in ids ensures exists u :: u in ids && col[u] == col[v] && pos[u].y + pos[v].y + NODE_H == height {
      var r := RowOf(ids, col, v, pos[v], height);
      var mirrored := |Row(ids, col, col[v])| - 1 - r;
      StandsAt(ids, col, pos, height, col[v], mirrored);
      var u := Row(ids, col, col[v])[mirrored];
      assert pos[u].y + pos[v].y + NODE_H == height;
    }
  }

  lemma {:induction false} RowOrdered(ids: seq<string>, col: Columns, c: nat, i: nat, j: nat) returns (a: nat, b: nat)
    requires i < j < |ids| && ids[i] in col && ids[j] in col && col[ids[i]] == c && col[ids[j]] == c
    ensures a < b < |Row(ids, col, c)| && Row(ids, col, c)[a] == ids[i] && Row(ids, col, c)[b] == ids[j]
  {
    var front := ids[..|ids| - 1];
    if j < |ids| - 1 {
      a, b := RowOrdered(front, col, c, i, j);
    } else {
      RowMember(front, col, c, ids[i]);
      assert front[i] == ids[i];
      var row := Row(front, col, c);
      a :| 0 <= a < |row| && row[a] == ids[i];
      b := |row|;
    }
  }

  lemma AllInOrder(ids: seq<string>, col: Columns, pos: map<string, Placed>, height: int)
    requires Distinct(ids) && col.Keys == Members(ids) && pos.Keys == Members(ids)
    requires forall v :: v in ids ==> Stands(ids, col, v, pos[v], height)
    ensures InGivenOrder(ids, col, pos)
  {
    hide Row, Stands, Distinct, BlockHeight;
    forall i, j | 0 <= i < j < |ids| && col[ids[i]] == col[ids[j]]
      ensures pos[ids[i]].y + NODE_H + V_GAP <= pos[ids[j]].y
    {
      var a, b := RowOrdered(ids, col, col[ids[i]], i, j);
      StandsAt(ids, col, pos, height, col[ids[i]], a);
      StandsAt(ids, col, pos, height, col[ids[i]], b);
    }
  }

  lemma AllTight(ids: seq<string>, col: Columns, pos: map<string, Placed>, width: int, height: int, maxCol: nat,
                 maxRows: nat)
    requires Distinct(ids) && col.Keys == Members(ids) && pos.Keys == Members(ids)
    requires forall v :: v in ids ==> Stands(ids, col, v, pos[v], height)
    requires width == (maxCol + 1) * NODE_W + maxCol * H_GAP && height == BlockHeight(maxRows) && maxRows >= 1
    requires ids == [] ==> maxCol == 0 && maxRows == 1
    requires ids != [] ==>
               (exists v :: v in ids && col[v] == maxCol) && exists v :: v in ids && |Row(ids, col, col[v])| == maxRows
    ensures Tight(ids, pos, width, height)
  {
    hide Row, Stands, Distinct;
    if ids != [] {
      var v :| v in ids && col[v] == maxCol;
      BoxColumn(ids, col, v, pos[v], height);
      assert pos[v].x + NODE_W == width;
      var u :| u in ids && |Row(ids, col, col[u])| == maxRows;
      StandsAt(ids, col, pos, height, col[u], 0);
      StandsAt(ids, col, pos, height, col[u], maxRows - 1);
      var top, bottom := Row(ids, col, col[u])[0], Row(ids, col, col[u])[maxRows - 1];
      assert pos[top].y == 0 && pos[bottom].y + NODE_H == height;
    }
  }

  /** Columns are longest paths, and edges go to later columns. */
  ghost predicate Layered(edges: seq<Edge>, ids: set<string>, col: Columns)
    requires col.Keys == ids
  {
    && (forall v :: v in ids ==> LongestTo(edges, ids, v, col[v]))
    && (forall u, v :: Linked(edges, ids, u, v) ==> col[u] < col[v])
  }

  lemma LayersAcyclic(edges: seq<Edge>, ids: seq<string>, col: Columns, queue: seq<string>)
    requires Acyclic(edges, Members(ids)) && Distinct(ids)
    requires col.Keys == Members(ids) && Distinct(queue) && Members(queue) <= Members(ids)
    requires Reached(edges, Members(ids), col, Members(queue))
    requires forall v :: v in ids ==>
               (v in queue <==> forall u :: Linked(edges, Members(ids), u, v) ==> u in queue)
    ensures Layered(edges, Members(ids), col)
  {
    hide Reached, Ranked, LongestTo, Distinct;
    var rank :| Ranked(edges, Members(ids), rank);
    LayersAreLongestPaths(edges, ids, col, queue, rank);
  }

  lemma BoxColumn(ids: seq<string>, col: Columns, v: string, at: Placed, height: int)
    requires Stands(ids, col, v, at, height)
    ensures at.x == col[v] * (NODE_W + H_GAP)
  {
  }
}
