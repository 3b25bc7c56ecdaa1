/**
 Static inference of the node where the branches of a fork meet
 (dsl/parallel.go): breadth-first distances from every branch entry, the
 intersection of the reachable nodes, and the candidate with the least distance sum.
 */
module Joins {
  import opened Definition
  import Lexical

  // ------------------------------------------------------------ the meaning

  /** An edge the search may cross: it never enters the fork itself. */
  ghost predicate Edge(def: ProcessDef, fork: string, u: string, v: string) {
    && u in def.nodes && v in def.nodes && v != "" && v != fork
    && exists k | 0 <= k < |def.nodes[u].transitions| :: def.nodes[u].transitions[k].next == v
  }

  /** `v` can be reached from `from` in exactly `d` edges. */
  ghost predicate Walk(def: ProcessDef, fork: string, from: string, v: string, d: nat)
    decreases d
  {
    if d == 0 then v == from
    else exists u :: Walk(def, fork, from, u, d - 1) && Edge(def, fork, u, v)
  }

  /** `d` is the length of a shortest walk. */
  ghost predicate IsDistance(def: ProcessDef, fork: string, from: string, v: string, d: nat) {
    Walk(def, fork, from, v, d) && forall e: nat :: Walk(def, fork, from, v, e) ==> d <= e
  }

  lemma {:induction false} ReachableHasDistance(def: ProcessDef, fork: string, from: string, v: string, d: nat)
    requires Walk(def, fork, from, v, d)
    ensures exists m :: IsDistance(def, fork, from, v, m)
    decreases d
  {
    if e: nat :| e < d && Walk(def, fork, from, v, e) {
      ReachableHasDistance(def, fork, from, v, e);
    } else {
      assert IsDistance(def, fork, from, v, d);
    }
  }

  // ------------------------------------------------------------------- BFS

  ghost predicate Relaxed(def: ProcessDef, fork: string, dist: map<string, nat>, u: string)
    requires u in dist
  {
    forall v :: Edge(def, fork, u, v) ==> v in dist && dist[v] <= dist[u] + 1
  }

  ghost predicate Scanned(def: ProcessDef, fork: string, dist: map<string, nat>, u: string, k: nat)
    requires u in dist
  {
    u in def.nodes ==>
      forall j | 0 <= j < |def.nodes[u].transitions| && j < k ::
        Edge(def, fork, u, def.nodes[u].transitions[j].next) ==>
          && def.nodes[u].transitions[j].next in dist
          && dist[def.nodes[u].transitions[j].next] <= dist[u] + 1
  }

  lemma {:induction false} ShortestWhenRelaxed(
      def: ProcessDef, fork: string, from: string, dist: map<string, nat>, v: string, d: nat)
    requires from in dist && dist[from] == 0
    requires forall u <- dist :: Relaxed(def, fork, dist, u)
    requires Walk(def, fork, from, v, d)
    ensures v in dist && dist[v] <= d
    decreases d
  {
    if d > 0 {
      var u :| Walk(def, fork, from, u, d - 1) && Edge(def, fork, u, v);
      ShortestWhenRelaxed(def, fork, from, dist, u, d - 1);
      assert Relaxed(def, fork, dist, u);
    }
  }

  /** The queue is ordered by distance. */
  ghost predicate Ordered(dist: map<string, nat>, queue: seq<string>) {
    && (forall q <- queue :: q in dist)
    && (forall i, j | 0 <= i < j < |queue| :: dist[queue[i]] <= dist[queue[j]])
  }

  /** Distances are lengths of walks and stay among the definition's nodes. */
  ghost predicate Sound(def: ProcessDef, fork: string, from: string, dist: map<string, nat>) {
    && from in dist && dist[from] == 0
    && dist.Keys <= def.nodes.Keys + {from}
    && (forall v <- dist :: Walk(def, fork, from, v, dist[v]))
  }

  lemma Discover(def: ProcessDef, fork: string, from: string, cur: string, next: string,
                 dist: map<string, nat>, queue: seq<string>, k: nat)
    requires Sound(def, fork, from, dist) && Ordered(dist, queue)
    requires cur in dist && Edge(def, fork, cur, next) && next !in dist
    requires forall x <- dist :: dist[x] <= dist[cur] + 1
    requires Scanned(def, fork, dist, cur, k)
    ensures var dist' := dist[next := dist[cur] + 1];
      Sound(def, fork, from, dist') && Ordered(dist', queue + [next]) && Scanned(def, fork, dist', cur, k)
  {
    var dist' := dist[next := dist[cur] + 1];
    assert Walk(def, fork, from, next, dist[cur] + 1);
    var queue' := queue + [next];
    forall i, j | 0 <= i < j < |queue'| ensures dist'[queue'[i]] <= dist'[queue'[j]] {
      assert queue'[i] == queue[i] && queue[i] in queue;
      assert j < |queue| ==> queue'[j] == queue[j] && queue[j] in queue;
    }
  }

  /** The inner loop of the search: `cur` hands its distance to its unseen successors. */
  method Expand(def: ProcessDef, from: string, fork: string, cur: string, dist0: map<string, nat>, queue0: seq<string>)
    returns (dist: map<string, nat>, queue: seq<string>)
    requires Sound(def, fork, from, dist0) && Ordered(dist0, queue0)
    requires cur in dist0 && cur in def.nodes
    requires forall q <- queue0 :: dist0[cur] <= dist0[q]
    requires forall x <- dist0 :: dist0[x] <= dist0[cur] + 1
    ensures Sound(def, fork, from, dist) && Ordered(dist, queue)
    ensures dist0.Keys <= dist.Keys && forall u <- dist0 :: dist[u] == dist0[u]
    ensures dist.Keys == dist0.Keys ==> queue == queue0
    ensures forall u <- queue0 :: u in queue
    ensures forall u <- dist :: u in dist0 || u in queue
    ensures forall q <- queue :: dist[cur] <= dist[q]
    ensures forall x <- dist :: dist[x] <= dist[cur] + 1
    ensures Relaxed(def, fork, dist, cur)
  {
    dist, queue := dist0, queue0;
    var trs := def.nodes[cur].transitions;
    var k := 0;
    while k < |trs|
      invariant 0 <= k <= |trs|
      invariant Sound(def, fork, from, dist) && Ordered(dist, queue)
      invariant dist0.Keys <= dist.Keys && forall u <- dist0 :: dist[u] == dist0[u]
      invariant dist.Keys == dist0.Keys ==> queue == queue0
      invariant forall u <- queue0 :: u in queue
      invariant forall u <- dist :: u in dist0 || u in queue
      invariant forall q <- queue :: dist[cur] <= dist[q]
      invariant forall x <- dist :: dist[x] <= dist[cur] + 1
      invariant Scanned(def, fork, dist, cur, k)
    {
      hide Scanned, Sound, Edge;
      var next := trs[k].next;
      TransitionEdge(def, fork, cur, k);
      if next != "" && next != fork && next !in dist && next in def.nodes {
        Discover(def, fork, from, cur, next, dist, queue, k);
        dist := dist[next := dist[cur] + 1];
        queue := queue + [next];
      }
      ScanNext(def, fork, dist, cur, k);
      k := k + 1;
    }
    ScannedAll(def, fork, dist, cur);
  }

  lemma TransitionEdge(def: ProcessDef, fork: string, cur: string, k: nat)
    requires cur in def.nodes && k < |def.nodes[cur].transitions|
    ensures var next := def.nodes[cur].transitions[k].next;
      Edge(def, fork, cur, next) <==> next != "" && next != fork && next in def.nodes
  {
  }

  lemma ScannedAll(def: ProcessDef, fork: string, dist: map<string, nat>, cur: string)
    requires cur in dist && cur in def.nodes && Scanned(def, fork, dist, cur, |def.nodes[cur].transitions|)
    ensures Relaxed(def, fork, dist, cur)
  {
  }

  lemma ScanNext(def: ProcessDef, fork: string, dist: map<string, nat>, cur: string, k: nat)
    requires cur in dist && cur in def.nodes && k < |def.nodes[cur].transitions| && Scanned(def, fork, dist, cur, k)
    requires forall x <- dist :: dist[x] <= dist[cur] + 1
    requires Edge(def, fork, cur, def.nodes[cur].transitions[k].next) ==> def.nodes[cur].transitions[k].next in dist
    ensures Scanned(def, fork, dist, cur, k + 1)
  {
  }

  /** bfsDistances: exactly the reachable nodes, each with its shortest distance. */
  method BfsDistances(def: ProcessDef, from: string, fork: string) returns (dist: map<string, nat>)
    ensures forall v, d: nat :: (v in dist && dist[v] == d) <==> IsDistance(def, fork, from, v, d)
  {
    hide Sound, Relaxed, Edge, IsDistance;
    dist := map[from := 0];
    var queue := [from];
    SearchStarts(def, fork, from);
    while |queue| > 0
      invariant Sound(def, fork, from, dist) && Ordered(dist, queue)
      invariant queue != [] ==> forall x <- dist :: dist[x] <= dist[queue[0]] + 1
      invariant forall u <- dist :: u in queue || Relaxed(def, fork, dist, u)
      decreases def.nodes.Keys + {from} - dist.Keys, |queue|
    {
      var cur := queue[0];
      ghost var waiting, known := queue, dist;
      Popped(dist, queue);
      queue := queue[1..];
      if cur in def.nodes {
        dist, queue := Expand(def, from, fork, cur, dist, queue);
      } else {
        NoEdges(def, fork, dist, cur);
      }
      StillRelaxed(def, fork, known, dist, queue, cur, waiting);
      Within(def, fork, from, known, dist);
    }
    DistancesExact(def, fork, from, dist);
  }

  lemma SearchStarts(def: ProcessDef, fork: string, from: string)
    ensures Sound(def, fork, from, map[from := 0])
  {
  }

  lemma Popped(dist: map<string, nat>, queue: seq<string>)
    requires Ordered(dist, queue) && queue != []
    ensures Ordered(dist, queue[1..]) && queue[0] in dist && forall q <- queue[1..] :: dist[queue[0]] <= dist[q]
  {
  }

  lemma NoEdges(def: ProcessDef, fork: string, dist: map<string, nat>, cur: string)
    requires cur in dist && cur !in def.nodes
    ensures Relaxed(def, fork, dist, cur)
  {
  }

  lemma Within(def: ProcessDef, fork: string, from: string, known: map<string, nat>, dist: map<string, nat>)
    requires Sound(def, fork, from, dist) && known.Keys <= dist.Keys
    ensures var all := def.nodes.Keys + {from};
      all - dist.Keys <= all - known.Keys && (known.Keys != dist.Keys ==> all - dist.Keys < all - known.Keys)
  {
    var all := def.nodes.Keys + {from};
    if x :| x in dist.Keys - known.Keys {
      assert x in all - known.Keys && x !in all - dist.Keys;
    }
  }

  lemma StillRelaxed(def: ProcessDef, fork: string, known: map<string, nat>, dist: map<string, nat>,
                     queue: seq<string>, cur: string, waiting: seq<string>)
    requires known.Keys <= dist.Keys && forall u <- known :: dist[u] == known[u]
    requires forall u <- known :: u in waiting || Relaxed(def, fork, known, u)
    requires waiting != [] && waiting[0] == cur && cur in dist && Relaxed(def, fork, dist, cur)
    requires forall u <- waiting[1..] :: u in queue
    requires forall u <- dist :: u in known || u in queue
    ensures forall u <- dist :: u in queue || Relaxed(def, fork, dist, u)
  {
    forall u | u in dist && u !in queue && u != cur ensures Relaxed(def, fork, dist, u) {
      assert u !in waiting[1..];
      assert u !in waiting;
      assert Relaxed(def, fork, known, u);
    }
  }

  lemma DistancesExact(def: ProcessDef, fork: string, from: string, dist: map<string, nat>)
    requires Sound(def, fork, from, dist)
    requires forall u <- dist :: Relaxed(def, fork, dist, u)
    ensures forall v, d: nat :: (v in dist && dist[v] == d) <==> IsDistance(def, fork, from, v, d)
  {
    forall v, d: nat | IsDistance(def, fork, from, v, d)
      ensures v in dist && dist[v] == d
    {
      ShortestWhenRelaxed(def, fork, from, dist, v, d);
    }
    forall v | v in dist
      ensures IsDistance(def, fork, from, v, dist[v])
    {
      forall e: nat | Walk(def, fork, from, v, e)
        ensures dist[v] <= e
      {
        ShortestWhenRelaxed(def, fork, from, dist, v, e);
      }
    }
  }

  // ----------------------------------------------------------- common joins

  /** `t` is the sum of the distances from every entry to `v`. */
  ghost predicate IsTotal(def: ProcessDef, fork: string, starts: seq<string>, v: string, t: nat)
    decreases |starts|
  {
    if starts == [] then t == 0
    else
      var n := |starts| - 1;
      exists d: nat | d <= t ::
        IsDistance(def, fork, starts[n], v, d) && IsTotal(def, fork, starts[..n], v, t - d)
  }

  lemma {:induction false} TotalUnique(
      def: ProcessDef, fork: string, starts: seq<string>, v: string, t: nat, u: nat)
    requires IsTotal(def, fork, starts, v, t) && IsTotal(def, fork, starts, v, u)
    ensures t == u
    decreases |starts|
  {
    if starts != [] {
      var n := |starts| - 1;
      var d: nat :| d <= t && IsDistance(def, fork, starts[n], v, d) && IsTotal(def, fork, starts[..n], v, t - d);
      var e: nat :| e <= u && IsDistance(def, fork, starts[n], v, e) && IsTotal(def, fork, starts[..n], v, u - e);
      TotalUnique(def, fork, starts[..n], v, t - d, u - e);
    }
  }

  /** `v` beats every node that all branches reach: least distance sum, ties by id. */
  ghost predicate IsCommonJoin(def: ProcessDef, fork: string, starts: seq<string>, v: string) {
    exists t: nat :: IsTotal(def, fork, starts, v, t) && Beats(def, fork, starts, v, t)
  }

  ghost predicate Beats(def: ProcessDef, fork: string, starts: seq<string>, v: string, t: nat) {
    forall w, u: nat :: IsTotal(def, fork, starts, w, u) ==>
      t < u || (t == u && (v == w || Lexical.Less(v, w)))
  }

  lemma CommonJoinUnique(def: ProcessDef, fork: string, starts: seq<string>, v: string, w: string)
    requires IsCommonJoin(def, fork, starts, v) && IsCommonJoin(def, fork, starts, w)
    ensures v == w
  {
    var t: nat :| IsTotal(def, fork, starts, v, t) && Beats(def, fork, starts, v, t);
    var u: nat :| IsTotal(def, fork, starts, w, u) && Beats(def, fork, starts, w, u);
    Lexical.Trichotomy(v, w);
  }

  /** The inferred join: "" when no node is reachable from every branch. */
  ghost function CommonJoin(def: ProcessDef, fork: string, starts: seq<string>): string {
    if starts != [] && exists v :: IsCommonJoin(def, fork, starts, v) then
      var v :| IsCommonJoin(def, fork, starts, v); v
    else ""
  }

  /** resolveCommonJoin without its cache, for every iteration order of its maps. */
  method ResolveCommonJoin(def: ProcessDef, fork: string, starts: seq<string>) returns (best: string)
    ensures best == CommonJoin(def, fork, starts)
    ensures starts == [] ==> best == ""
    ensures starts != [] && (exists v, t: nat :: IsTotal(def, fork, starts, v, t)) ==> IsCommonJoin(def, fork, starts, best)
    ensures (forall v, t: nat :: !IsTotal(def, fork, starts, v, t)) ==> best == ""
  {
    if starts == [] {
      return "";
    }
    var candidates := SumDistances(def, fork, starts);
    best := Least(def, fork, starts, candidates);
    if candidates == map[] {
      forall v, t: nat ensures !IsTotal(def, fork, starts, v, t) {
        assert v !in candidates;
      }
    } else {
      assert IsTotal(def, fork, starts, best, candidates[best]);
      assert IsCommonJoin(def, fork, starts, best);
      forall w | IsCommonJoin(def, fork, starts, w) ensures w == best {
        CommonJoinUnique(def, fork, starts, best, w);
      }
    }
  }

  /** One more entry adds its distance to the sum. */
  lemma TotalStep(def: ProcessDef, fork: string, starts: seq<string>, i: nat, v: string, t: nat,
                  candidates: map<string, nat>, dist: map<string, nat>)
    requires i < |starts|
    requires forall u, d: nat :: (u in dist && dist[u] == d) <==> IsDistance(def, fork, starts[i], u, d)
    requires forall u, k: nat :: (u in candidates && candidates[u] == k) <==> IsTotal(def, fork, starts[..i], u, k)
    ensures IsTotal(def, fork, starts[..i + 1], v, t) <==>
      v in candidates && v in dist && candidates[v] + dist[v] == t
  {
    var longer := starts[..i + 1];
    assert longer[..i] == starts[..i] && longer[i] == starts[i];
    if v in candidates && v in dist && candidates[v] + dist[v] == t {
      assert IsDistance(def, fork, longer[i], v, dist[v]) && IsTotal(def, fork, longer[..i], v, t - dist[v]);
    }
    if IsTotal(def, fork, longer, v, t) {
      var d: nat :| d <= t && IsDistance(def, fork, longer[i], v, d) && IsTotal(def, fork, longer[..i], v, t - d);
      assert v in candidates && candidates[v] == t - d;
    }
  }

  method SumDistances(def: ProcessDef, fork: string, starts: seq<string>) returns (candidates: map<string, nat>)
    requires starts != []
    ensures forall v, t: nat :: (v in candidates && candidates[v] == t) <==> IsTotal(def, fork, starts, v, t)
  {
    candidates := BfsDistances(def, starts[0], fork);
    forall v, t: nat ensures IsDistance(def, fork, starts[0], v, t) <==> IsTotal(def, fork, starts[..1], v, t) {
      assert starts[..1][..0] == [];
      if IsDistance(def, fork, starts[0], v, t) {
        assert IsTotal(def, fork, starts[..1][..0], v, t - t);
      }
    }
    var i := 1;
    while i < |starts|
      invariant 1 <= i <= |starts|
      invariant forall v, t: nat :: (v in candidates && candidates[v] == t) <==> IsTotal(def, fork, starts[..i], v, t)
    {
      var dist := BfsDistances(def, starts[i], fork);
      var sums := map id | id in candidates && id in dist :: candidates[id] + dist[id];
      ghost var longer := starts[..i + 1];
      forall v, t: nat ensures (v in sums && sums[v] == t) <==> IsTotal(def, fork, longer, v, t) {
        TotalStep(def, fork, starts, i, v, t, candidates, dist);
      }
      candidates := sums;
      i := i + 1;
    }
    assert starts[..|starts|] == starts;
  }

  method Least(def: ProcessDef, fork: string, starts: seq<string>, candidates: map<string, nat>) returns (best: string)
    requires forall v, t: nat :: (v in candidates && candidates[v] == t) <==> IsTotal(def, fork, starts, v, t)
    ensures candidates == map[] ==> best == ""
    ensures candidates != map[] ==> best in candidates && Beats(def, fork, starts, best, candidates[best])
  {
    best := "";
    var bestDist := -1;
    var left := candidates.Keys;
    while left != {}
      invariant left <= candidates.Keys
      invariant bestDist == -1 <==> left == candidates.Keys
      invariant bestDist == -1 ==> best == ""
      invariant bestDist != -1 ==> best in candidates && bestDist == candidates[best]
      invariant bestDist != -1 ==> forall w <- candidates.Keys - left ::
        bestDist < candidates[w] || (bestDist == candidates[w] && (best == w || Lexical.Less(best, w)))
      decreases left
    {
      var id :| id in left;
      var d := candidates[id];
      if bestDist == -1 || d < bestDist || (d == bestDist && Lexical.Less(id, best)) {
        forall w | w in candidates.Keys - left && bestDist == d && candidates[w] == d && w != best
          ensures Lexical.Less(id, w)
        {
          Lexical.Transitive(id, best, w);
        }
        best, bestDist := id, d;
      } else {
        Lexical.Trichotomy(id, best);
      }
      left := left - {id};
    }
  }

  // ---------------------------------------------------------------- the cache

  /** strings.Join(starts, "\x00"), the part of the cache key that stands for the entries. */
  function JoinNul(starts: seq<string>): string {
    if starts == [] then ""
    else if |starts| == 1 then starts[0]
    else starts[0] + ['\0'] + JoinNul(starts[1..])
  }

  predicate NulFree(starts: seq<string>) {
    forall i | 0 <= i < |starts| :: '\0' !in starts[i]
  }

  /** The position of the first NUL, or the length when there is none. */
  function FirstNul(s: string): (n: nat)
    ensures n <= |s| && '\0' !in s[..n] && (n < |s| ==> s[n] == '\0')
  {
    if s == "" then 0 else if s[0] == '\0' then 0 else
      assert s == [s[0]] + s[1..];
      1 + FirstNul(s[1..])
  }

  lemma {:induction false} FirstNulIsUnique(s: string, n: nat)
    requires n <= |s| && '\0' !in s[..n] && (n < |s| ==> s[n] == '\0')
    ensures n == FirstNul(s)
  {
    if n > 0 {
      assert s[..n] == [s[0]] + s[1..][..n - 1];
      FirstNulIsUnique(s[1..], n - 1);
    }
  }

  lemma JoinNulHead(a: seq<string>)
    requires a != [] && NulFree(a)
    ensures FirstNul(JoinNul(a)) == |a[0]| <= |JoinNul(a)|
    ensures JoinNul(a)[..|a[0]|] == a[0]
    ensures |a| == 1 <==> |a[0]| == |JoinNul(a)|
    ensures |a| > 1 ==> JoinNul(a)[|a[0]| + 1..] == JoinNul(a[1..])
  {
    FirstNulIsUnique(JoinNul(a), |a[0]|);
  }

  /** Without NUL characters in the ids the key determines the entries. */
  lemma {:induction false} JoinNulInjective(a: seq<string>, b: seq<string>)
    requires a != [] && b != [] && NulFree(a) && NulFree(b)
    requires JoinNul(a) == JoinNul(b)
    ensures a == b
    decreases |a|
  {
    JoinNulHead(a);
    JoinNulHead(b);
    if |a| > 1 {
      JoinNulInjective(a[1..], b[1..]);
    }
    assert a == [a[0]] + a[1..] && b == [b[0]] + b[1..];
  }

  /** With a NUL in an id two different entry lists share a cache key. */
  lemma JoinNulCollides()
    ensures JoinNul(["a\0b"]) == JoinNul(["a", "b"]) && ["a\0b"] != ["a", "b"]
  {
    assert JoinNul(["a", "b"]) == "a" + ['\0'] + JoinNul(["b"]);
  }

  /** The entries of a fork's branches, in the order of its transitions. */
  function Starts(node: Node): seq<string> {
    seq(|node.transitions|, i requires 0 <= i < |node.transitions| => node.transitions[i].next)
  }

  /** The process-wide cache, for one immutable definition. */
  class JoinCache {
    const def: ProcessDef
    var memo: map<(string, string), string>
    /** The entries each key was first asked with. */
    ghost var asked: map<(string, string), seq<string>>

    /** Every cached answer is the one of the entries it was first computed for. */
    ghost predicate Valid()
      reads this
    {
      memo.Keys == asked.Keys && forall key <- memo ::
        asked[key] != [] && JoinNul(asked[key]) == key.1 && memo[key] == CommonJoin(def, key.0, asked[key])
    }

    /** Only the forks of the definition have asked, each for its own branches. */
    ghost predicate OwnOnly()
      reads this
    {
      forall key <- asked :: key.0 in def.nodes && asked[key] == Starts(def.nodes[key.0])
    }

    constructor (def: ProcessDef)
      ensures Valid() && OwnOnly() && this.def == def && memo == map[] && asked == map[]
    {
      this.def := def;
      memo, asked := map[], map[];
    }

    /** resolveCommonJoin: the join of the entries the key was first asked with, which is
        the right one unless other entries had the same key and another join. */
    method Resolve(fork: string, starts: seq<string>) returns (join: string)
      requires Valid()
      modifies this
      ensures Valid()
      ensures starts == [] ==> join == "" && memo == old(memo) && asked == old(asked)
      ensures starts != [] ==>
        var key := (fork, JoinNul(starts));
        && asked == old(asked)[key := if key in old(asked) then old(asked)[key] else starts]
        && join == CommonJoin(def, fork, asked[key])
        && (NulFree(starts) && NulFree(asked[key]) ==> asked[key] == starts)
    {
      if starts == [] {
        return "";
      }
      var key := (fork, JoinNul(starts));
      if key in memo {
        join := memo[key];
      } else {
        join := ResolveCommonJoin(def, fork, starts);
        memo, asked := memo[key := join], asked[key := starts];
      }
      if NulFree(starts) && NulFree(asked[key]) {
        JoinNulInjective(asked[key], starts);
      }
    }

    /** A fork asks for its own branches only. So long as nobody else asks, the cache answers
        as a recomputation would, whatever characters the ids have. */
    method ResolveFork(fork: string) returns (join: string)
      requires Valid() && OwnOnly() && fork in def.nodes
      modifies this
      ensures Valid() && OwnOnly()
      ensures join == CommonJoin(def, fork, Starts(def.nodes[fork]))
    {
      join := Resolve(fork, Starts(def.nodes[fork]));
    }

    /** Two questions with one key get one answer, the first one's: the second is answered
        wrongly exactly when the two joins differ. */
    method AskTwice(fork: string, first: seq<string>, second: seq<string>) returns (one: string, other: string)
      requires Valid() && (fork, JoinNul(first)) !in memo
      requires first != [] && second != [] && JoinNul(first) == JoinNul(second)
      modifies this
      ensures Valid() && one == other == CommonJoin(def, fork, first)
    {
      one := Resolve(fork, first);
      other := Resolve(fork, second);
    }
  }

  /** No transition leads out of `u`. */
  predicate Sink(def: ProcessDef, u: string) {
    u in def.nodes ==> def.nodes[u].transitions == []
  }

  lemma {:induction false} SinkStays(def: ProcessDef, fork: string, u: string, v: string, d: nat)
    requires Sink(def, u) && Walk(def, fork, u, v, d)
    ensures v == u && d == 0
    decreases d
  {
    if d > 0 {
      var w :| Walk(def, fork, u, w, d - 1) && Edge(def, fork, w, v);
      SinkStays(def, fork, u, w, d - 1);
      assert false;
    }
  }

  /** The key that is wrong for one of its two entry lists: a branch entry with a NUL in its
      name meets itself, two sinks meet nowhere. */
  lemma NulMisleads(def: ProcessDef, fork: string)
    requires Sink(def, "a\0b") && Sink(def, "a") && Sink(def, "b")
    ensures JoinNul(["a\0b"]) == JoinNul(["a", "b"])
    ensures CommonJoin(def, fork, ["a\0b"]) == "a\0b" && CommonJoin(def, fork, ["a", "b"]) == ""
  {
    JoinNulCollides();
    var id := "a\0b";
    forall v, t: nat ensures IsTotal(def, fork, [id], v, t) <==> v == id && t == 0 {
      SinkTotal(def, fork, id, v, t);
    }
    assert IsTotal(def, fork, [id], id, 0) && Beats(def, fork, [id], id, 0);
    assert IsCommonJoin(def, fork, [id], id);
    CommonJoinUnique(def, fork, [id], CommonJoin(def, fork, [id]), id);
    forall v, t: nat ensures !IsTotal(def, fork, ["a", "b"], v, t) {
      ApartTotal(def, fork, v, t);
    }
  }

  lemma SinkTotal(def: ProcessDef, fork: string, u: string, v: string, t: nat)
    requires Sink(def, u)
    ensures IsTotal(def, fork, [u], v, t) <==> v == u && t == 0
  {
    assert [u][..0] == [];
    if IsTotal(def, fork, [u], v, t) {
      var d: nat :| d <= t && IsDistance(def, fork, u, v, d) && IsTotal(def, fork, [u][..0], v, t - d);
      SinkStays(def, fork, u, v, d);
    }
    if v == u && t == 0 {
      var entry := [u];
      assert IsDistance(def, fork, entry[0], v, t) && IsTotal(def, fork, entry[..0], v, t - t);
    }
  }

  lemma ApartTotal(def: ProcessDef, fork: string, v: string, t: nat)
    requires Sink(def, "a") && Sink(def, "b")
    ensures !IsTotal(def, fork, ["a", "b"], v, t)
  {
    if IsTotal(def, fork, ["a", "b"], v, t) {
      assert ["a", "b"][..1] == ["a"];
      var d: nat :| d <= t && IsDistance(def, fork, "b", v, d) && IsTotal(def, fork, ["a", "b"][..1], v, t - d);
      SinkStays(def, fork, "b", v, d);
      SinkTotal(def, fork, "a", v, t - d);
      assert false;
    }
  }
}
