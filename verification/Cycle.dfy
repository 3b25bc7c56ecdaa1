/**
 Cycle detection of the static analyzer (dsl/analyzer.go): an iterative depth-first
 search with colours, over the transitions between existing nodes.
 */
module Cycle {
  import opened Definition

  // ------------------------------------------------------------- what a cycle is

  ghost predicate Edge(def: ProcessDef, u: string, v: string) {
    && u in def.nodes && v in def.nodes && v != ""
    && exists k | 0 <= k < |def.nodes[u].transitions| :: def.nodes[u].transitions[k].next == v
  }

  ghost predicate Walk(def: ProcessDef, c: seq<string>) {
    forall i | 0 <= i < |c| - 1 :: Edge(def, c[i], c[i + 1])
  }

  ghost predicate ClosedWalk(def: ProcessDef, c: seq<string>) {
    |c| >= 2 && c[0] == c[|c| - 1] && Walk(def, c)
  }

  /** A closed walk through two or more distinct nodes: self-loops do not count. */
  ghost predicate ProperCycle(def: ProcessDef, c: seq<string>) {
    ClosedWalk(def, c) && exists i, j | 0 <= i < j < |c| :: c[i] != c[j]
  }

  ghost predicate Cyclic(def: ProcessDef) {
    exists c: seq<string> :: ProperCycle(def, c)
  }

  // ---------------------------------------------------------------- search state

  datatype Colour = White | Gray | Black

  datatype Search = Search(color: map<string, Colour>, parent: map<string, string>)

  function ColourOf(s: Search, n: string): Colour {
    if n in s.color then s.color[n] else White
  }

  /** Black nodes were finished in an order that every edge out of them respects. */
  ghost predicate Finished(def: ProcessDef, s: Search, finish: map<string, nat>, count: nat) {
    && (forall u <- def.nodes :: ColourOf(s, u) == Black <==> u in finish)
    && (forall u <- finish :: u in def.nodes && finish[u] < count)
    && forall u <- finish :: forall v: string :: Edge(def, u, v) && v != u ==> v in finish && finish[v] < finish[u]
  }

  /** The stack holds exactly the gray nodes, each the parent of the next. */
  ghost predicate Stacked(def: ProcessDef, s: Search, stack: seq<string>) {
    && (forall u <- def.nodes :: ColourOf(s, u) == Gray <==> u in stack)
    && (forall i | 0 <= i < |stack| :: stack[i] in def.nodes)
    && (forall i, j | 0 <= i < j < |stack| :: stack[i] != stack[j])
    && forall i | 0 < i < |stack| ::
         Edge(def, stack[i - 1], stack[i]) && stack[i] in s.parent && s.parent[stack[i]] == stack[i - 1]
  }

  function Whites(def: ProcessDef, s: Search): set<string> {
    set n | n in def.nodes && ColourOf(s, n) == White
  }

  // -------------------------------------------------------------- the found cycle

  /** The path without the node that the reconstruction lists twice. */
  function Undouble(p: seq<string>): seq<string>
    requires |p| >= 2
  {
    p[..|p| - 2] + [p[|p| - 1]]
  }

  /** What the analyzer reports: a proper cycle whose last node before the return is
      listed twice. */
  ghost predicate Reported(def: ProcessDef, p: seq<string>) {
    && |p| >= 4 && p[|p| - 2] == p[|p| - 3]
    && ProperCycle(def, Undouble(p))
  }

  /** The reported path is itself a walk only where the doubled node has a self-loop. */
  lemma ReportedIsWalk(def: ProcessDef, p: seq<string>)
    requires Reported(def, p)
    ensures ClosedWalk(def, p) <==> Edge(def, p[|p| - 2], p[|p| - 2])
  {
    var q := Undouble(p);
    if Edge(def, p[|p| - 2], p[|p| - 2]) {
      forall i | 0 <= i < |p| - 1 ensures Edge(def, p[i], p[i + 1]) {
        if i < |p| - 3 {
          assert Edge(def, q[i], q[i + 1]);
        } else if i == |p| - 2 {
          assert Edge(def, q[i - 1], q[i]);
        }
      }
    }
    if ClosedWalk(def, p) {
      assert Edge(def, p[|p| - 3], p[|p| - 2]);
    }
  }

  /** The parents from `u` up to `v`, both on the stack, in reverse. */
  method Reconstruct(def: ProcessDef, s: Search, stack: seq<string>, v: string) returns (path: seq<string>)
    requires "" !in def.nodes && Stacked(def, s, stack) && |stack| > 0
    requires v in stack && v != stack[|stack| - 1] && Edge(def, stack[|stack| - 1], v)
    ensures Reported(def, path)
  {
    var u := stack[|stack| - 1];
    ghost var at: nat :| at < |stack| && stack[at] == v;
    var cyc := [v, u];
    var p := u;
    ghost var k := |stack| - 1;
    while p != v && p != ""
      invariant at <= k < |stack| && p == stack[k]
      invariant |cyc| == 2 + (|stack| - 1 - k)
      invariant cyc[0] == v && cyc[1] == u
      invariant forall i | 2 <= i < |cyc| :: cyc[i] == stack[|stack| - 1 - (i - 2)]
      decreases k
    {
      cyc := cyc + [p];
      assert k > at;
      p := if p in s.parent then s.parent[p] else "";
      k := k - 1;
    }
    assert p in def.nodes;
    assert k == at;
    cyc := cyc + [v];
    path := Reverse(cyc);
    ReversedStack(def, s, stack, at, cyc, path);
  }

  /** The in-place reversal of the path. */
  method Reverse(c: seq<string>) returns (r: seq<string>)
    ensures |r| == |c| && forall i | 0 <= i < |c| :: r[i] == c[|c| - 1 - i]
  {
    r := c;
    var i, j := 0, |c| - 1;
    while i < j
      invariant 0 <= i <= |c| && j == |c| - 1 - i && |r| == |c|
      invariant forall k | 0 <= k < i :: r[k] == c[|c| - 1 - k]
      invariant forall k | j < k < |c| :: r[k] == c[|c| - 1 - k]
      invariant forall k | i <= k <= j :: r[k] == c[k]
    {
      r := r[i := r[j]][j := r[i]];
      i, j := i + 1, j - 1;
    }
  }

  lemma ReversedStack(def: ProcessDef, s: Search, stack: seq<string>, at: nat, cyc: seq<string>, path: seq<string>)
    requires Stacked(def, s, stack) && at < |stack| - 1 && Edge(def, stack[|stack| - 1], stack[at])
    requires |cyc| == 3 + (|stack| - 1 - at) && cyc[0] == stack[at] && cyc[1] == stack[|stack| - 1] && cyc[|cyc| - 1] == stack[at]
    requires forall i | 2 <= i < |cyc| - 1 :: cyc[i] == stack[|stack| - 1 - (i - 2)]
    requires |path| == |cyc| && forall i | 0 <= i < |cyc| :: path[i] == cyc[|cyc| - 1 - i]
    ensures Reported(def, path)
  {
    var q := Undouble(path);
    forall i | 0 <= i < |q| - 1 ensures q[i] == stack[at + i] {
      assert q[i] == path[i] == cyc[|cyc| - 1 - i];
    }
    assert q[|q| - 1] == path[|path| - 1] == stack[at];
    forall i | 0 <= i < |q| - 1 ensures Edge(def, q[i], q[i + 1]) {
      if i < |q| - 2 {
        assert Edge(def, stack[at + i + 1 - 1], stack[at + i + 1]);
      }
    }
    assert q[0] != q[1];
    assert path[|path| - 2] == cyc[1] && path[|path| - 3] == cyc[2];
  }

  // ------------------------------------------------------------------ the search

  /** Every existing successor of `u` but itself is black. */
  ghost predicate Exhausted(def: ProcessDef, s: Search, u: string) {
    forall v: string :: Edge(def, u, v) && v != u ==> ColourOf(s, v) == Black
  }

  datatype Scan = Found(path: seq<string>) | Push(v: string) | Pop

  /** One look at the transitions of the node on top: the first white successor, or the
      first gray one that closes a cycle. */
  method ScanTop(def: ProcessDef, s: Search, stack: seq<string>) returns (r: Scan)
    requires "" !in def.nodes && Stacked(def, s, stack) && |stack| > 0
    ensures r.Found? ==> Reported(def, r.path)
    ensures r.Push? ==> Edge(def, stack[|stack| - 1], r.v) && ColourOf(s, r.v) == White
    ensures r.Pop? ==> Exhausted(def, s, stack[|stack| - 1])
  {
    var u := stack[|stack| - 1];
    var trs := def.nodes[u].transitions;
    var k := 0;
    while k < |trs|
      invariant k <= |trs|
      invariant forall j | 0 <= j < k :: trs[j].next in def.nodes && trs[j].next != u ==> ColourOf(s, trs[j].next) == Black
    {
      var v := trs[k].next;
      if v != "" && v in def.nodes {
        assert Edge(def, u, v);
        if ColourOf(s, v) == White {
          return Push(v);
        } else if ColourOf(s, v) == Gray && v != u {
          var path := Reconstruct(def, s, stack, v);
          return Found(path);
        }
      }
      k := k + 1;
    }
    r := Pop;
  }

  lemma Pushed(def: ProcessDef, s: Search, stack: seq<string>, v: string, finish: map<string, nat>, count: nat)
    requires Stacked(def, s, stack) && Finished(def, s, finish, count) && v in def.nodes && ColourOf(s, v) == White
    requires stack == [] || Edge(def, stack[|stack| - 1], v)
    ensures var t := Search(s.color[v := Gray], if stack == [] then s.parent else s.parent[v := stack[|stack| - 1]]);
      && Stacked(def, t, stack + [v]) && Finished(def, t, finish, count)
      && Whites(def, t) == Whites(def, s) - {v} && v in Whites(def, s)
  {
    hide Edge;
  }

  lemma Popped(def: ProcessDef, s: Search, stack: seq<string>, finish: map<string, nat>, count: nat)
    requires Stacked(def, s, stack) && Finished(def, s, finish, count) && |stack| > 0
    requires Exhausted(def, s, stack[|stack| - 1])
    ensures var u := stack[|stack| - 1];
      var t := Search(s.color[u := Black], s.parent);
      && Stacked(def, t, stack[..|stack| - 1]) && Finished(def, t, finish[u := count], count + 1)
      && Whites(def, t) == Whites(def, s) && (forall n <- def.nodes :: ColourOf(s, n) == Black ==> ColourOf(t, n) == Black)
  {
    var u := stack[|stack| - 1];
    var t := Search(s.color[u := Black], s.parent);
    assert u in stack;
    forall n | n in def.nodes ensures ColourOf(t, n) == Gray <==> n in stack[..|stack| - 1] {
      if n in stack && n != u {
        var i :| 0 <= i < |stack| && stack[i] == n;
        assert stack[..|stack| - 1][i] == n;
      }
    }
    forall x, v: string | x in finish[u := count] && Edge(def, x, v) && v != x
      ensures v in finish[u := count] && finish[u := count][v] < finish[u := count][x]
    {
      if x == u {
        assert ColourOf(s, v) == Black;
      }
    }
  }

  /** visit: the search from one white root. */
  method Visit(def: ProcessDef, s0: Search, root: string, ghost finish0: map<string, nat>, ghost count0: nat)
    returns (s: Search, path: Option<seq<string>>, ghost finish: map<string, nat>, ghost count: nat)
    requires "" !in def.nodes && root in def.nodes && ColourOf(s0, root) == White
    requires Stacked(def, s0, []) && Finished(def, s0, finish0, count0)
    ensures path.Some? ==> Reported(def, path.value)
    ensures path.None? ==> Stacked(def, s, []) && Finished(def, s, finish, count)
    ensures path.None? ==> Whites(def, s) <= Whites(def, s0) - {root}
  {
    finish, count := finish0, count0;
    Pushed(def, s0, [], root, finish, count);
    s := Search(s0.color[root := Gray], s0.parent);
    var stack := [root];
    while |stack| > 0
      invariant Stacked(def, s, stack) && Finished(def, s, finish, count)
      invariant Whites(def, s) <= Whites(def, s0) - {root}
      decreases |Whites(def, s)|, |stack|
    {
      var r := ScanTop(def, s, stack);
      match r {
        case Found(p) =>
          return s, Some(p), finish, count;
        case Push(v) =>
          Pushed(def, s, stack, v, finish, count);
          ghost var before := Whites(def, s);
          s := Search(s.color[v := Gray], s.parent[v := stack[|stack| - 1]]);
          assert |before - {v}| == |before| - 1;
          stack := stack + [v];
        case Pop =>
          Popped(def, s, stack, finish, count);
          var u := stack[|stack| - 1];
          s := Search(s.color[u := Black], s.parent);
          finish, count := finish[u := count], count + 1;
          stack := stack[..|stack| - 1];
      }
    }
    path := None;
  }

  /** Along a walk of finished nodes the finish times never rise. */
  lemma {:induction false} NeverRises(def: ProcessDef, s: Search, finish: map<string, nat>, count: nat, c: seq<string>, i: nat, j: nat)
    requires Finished(def, s, finish, count) && Walk(def, c) && i <= j < |c| && c[i] in finish
    ensures c[j] in finish && finish[c[j]] <= finish[c[i]]
    ensures finish[c[j]] == finish[c[i]] ==> c[j] == c[i]
    decreases j - i
  {
    if i < j {
      assert Edge(def, c[i], c[i + 1]);
      NeverRises(def, s, finish, count, c, i + 1, j);
      if c[i + 1] != c[i] {
        assert finish[c[i + 1]] < finish[c[i]];
      }
    }
  }

  lemma AllBlackIsAcyclic(def: ProcessDef, s: Search, finish: map<string, nat>, count: nat)
    requires Finished(def, s, finish, count) && Stacked(def, s, []) && Whites(def, s) == {}
    ensures !Cyclic(def)
  {
    forall c: seq<string> | ClosedWalk(def, c) ensures !ProperCycle(def, c) {
      assert Edge(def, c[0], c[1]);
      assert c[0] in finish by {
        assert c[0] !in Whites(def, s) && ColourOf(s, c[0]) != Gray;
      }
      forall i | 0 <= i < |c| ensures c[i] == c[0] {
        NeverRises(def, s, finish, count, c, 0, i);
        NeverRises(def, s, finish, count, c, i, |c| - 1);
      }
    }
  }

  /** detectCycleFirst: in any map order, nil exactly when no cycle goes through two or
      more distinct nodes; what it returns is such a cycle but for the doubled node. */
  method DetectCycleFirst(def: ProcessDef) returns (path: Option<seq<string>>)
    requires "" !in def.nodes
    ensures path.None? <==> !Cyclic(def)
    ensures path.Some? ==> Reported(def, path.value)
  {
    var s := Search(map[], map[]);
    ghost var finish, count: nat := map[], 0;
    var left := def.nodes.Keys;
    while left != {}
      invariant left <= def.nodes.Keys
      invariant Stacked(def, s, []) && Finished(def, s, finish, count)
      invariant Whites(def, s) <= left
      decreases left
    {
      var id :| id in left;
      if ColourOf(s, id) == White {
        s, path, finish, count := Visit(def, s, id, finish, count);
        if path.Some? {
          assert ProperCycle(def, Undouble(path.value));
          return;
        }
      }
      left := left - {id};
    }
    AllBlackIsAcyclic(def, s, finish, count);
    path := None;
  }

  // -------------------------------------------------------------------- an example

  function Step(next: string): Transition {
    Transition("", "", next, "")
  }

  function PlainNode(id: string, next: string): Node {
    Node(id, Action, [], [Step(next)], None, None, map[], map[], None, None, false, None)
  }

  /** Two nodes that lead to each other: the reported path lists one of them twice, and is
      no walk of the graph. */
  lemma DoubledInTwoCycle(def: ProcessDef, p: seq<string>)
    requires def.nodes == map["a" := PlainNode("a", "b"), "b" := PlainNode("b", "a")]
    requires Reported(def, p)
    ensures !ClosedWalk(def, p)
  {
    ReportedIsWalk(def, p);
  }
}
