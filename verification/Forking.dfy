/**
 Fork scopes (dsl/parallel.go): the counters behind convergence, the opening of a
 scope, and the arrival of a branch at a join.
 */
module Forking {
  import opened Definition
  import opened Journal
  import opened Joins
  import opened Protocol
  import opened Runs
  import opened Frames
  import opened Context
  import Meaning

  // ---------------------------------------------------------------- counters

  /** doneCount. */
  method CountDone(s: Scope) returns (n: nat)
    ensures n == |DoneSet(s)|
    ensures n == |s.branches| <==> AllDone(s)
  {
    n := 0;
    var left := s.branches.Keys;
    ghost var counted: set<BranchId> := {};
    while left != {}
      invariant left <= s.branches.Keys
      invariant counted == set b | b in DoneSet(s) && b !in left
      invariant n == |counted|
      decreases left
    {
      var b :| b in left;
      if s.branches[b].done {
        n := n + 1;
        counted := counted + {b};
      }
      left := left - {b};
    }
    assert counted == DoneSet(s);
    AllDoneCounts(s);
  }

  lemma AllDoneCounts(s: Scope)
    ensures |DoneSet(s)| == |s.branches| <==> AllDone(s)
  {
    assert DoneSet(s) <= s.branches.Keys;
    if AllDone(s) {
      assert DoneSet(s) == s.branches.Keys;
    } else {
      var b :| b in s.branches && !s.branches[b].done;
      SubsetSmaller(DoneSet(s), s.branches.Keys - {b});
    }
  }

  lemma SubsetSmaller<T>(a: set<T>, b: set<T>)
    requires a <= b
    ensures |a| <= |b|
  {
    if a != {} {
      var x :| x in a;
      SubsetSmaller(a - {x}, b - {x});
    }
  }

  /** successCount: only completed branches. */
  method CountSucceeded(s: Scope) returns (n: nat)
    ensures n == |SucceededSet(s)|
  {
    n := 0;
    var left := s.branches.Keys;
    ghost var counted: set<BranchId> := {};
    while left != {}
      invariant left <= s.branches.Keys
      invariant counted == set b | b in SucceededSet(s) && b !in left
      invariant n == |counted|
      decreases left
    {
      var b :| b in left;
      if s.branches[b].status == Completed {
        n := n + 1;
        counted := counted + {b};
      }
      left := left - {b};
    }
    assert counted == SucceededSet(s);
  }

  /** failedCount. */
  method CountFailed(s: Scope) returns (n: nat)
    ensures n == |FailedSet(s)|
    ensures n == 0 <==> FailedSet(s) == {}
  {
    n := 0;
    var left := s.branches.Keys;
    ghost var counted: set<BranchId> := {};
    while left != {}
      invariant left <= s.branches.Keys
      invariant counted == set b | b in FailedSet(s) && b !in left
      invariant n == |counted|
      decreases left
    {
      var b :| b in left;
      if s.branches[b].status == Failed {
        n := n + 1;
        counted := counted + {b};
      }
      left := left - {b};
    }
    assert counted == FailedSet(s);
  }

  /** satisfied: one completed branch for any, as many as required but at least one for
      n-of-m, every branch done otherwise; never without branches. */
  method IsSatisfied(s: Scope) returns (yes: bool)
    ensures yes == Satisfied(s)
    ensures s.mode == Any ==> (yes <==> exists b <- s.branches :: s.branches[b].status == Completed)
    ensures s.mode == NofM ==>
      (yes <==> var n := |set b | b in s.branches && s.branches[b].status == Completed|; 1 <= n && s.required <= n)
    ensures s.mode in {All, Unset} ==> (yes <==> s.branches != map[] && forall b <- s.branches :: s.branches[b].done)
  {
    Meaning.SatisfiedMeaning(s);
    if s.branches == map[] {
      return false;
    }
    if s.mode == Any {
      var n := CountSucceeded(s);
      yes := n >= 1;
    } else if s.mode == NofM {
      var n := CountSucceeded(s);
      var required := if s.required <= 0 then 1 else s.required;
      yes := n >= required;
    } else {
      var n := CountDone(s);
      yes := n == |s.branches|;
    }
  }

  // ------------------------------------------------------------------- forks

  /** The branches of a fork, one per transition. */
  method OpenBranches(node: Node) returns (branches: Option<map<BranchId, BranchState>>, starts: seq<string>)
    ensures branches.Some? <==> forall i | 0 <= i < |node.transitions| :: node.transitions[i].next != ""
    ensures branches.Some? ==> branches.value == InitialBranches(node) && starts == Starts(node)
  {
    var built: map<BranchId, BranchState> := map[];
    starts := [];
    var i := 0;
    while i < |node.transitions|
      invariant i <= |node.transitions|
      invariant forall j | 0 <= j < i :: node.transitions[j].next != ""
      invariant starts == Starts(node)[..i]
      invariant built == map j | 0 <= j < i :: BranchId(node.id, j) :=
        BranchState(BranchId(node.id, j), node.transitions[j].next, node.transitions[j].next, Running, None, false, "")
    {
      var next := node.transitions[i].next;
      if next == "" {
        return None, starts;
      }
      built := built[BranchId(node.id, i) := BranchState(BranchId(node.id, i), next, next, Running, None, false, "")];
      starts := starts + [next];
      i := i + 1;
    }
    branches := Some(built);
  }

  /** The convergence settings, in the order the code fills them in. */
  method Settings(def: ProcessDef, node: Node, join: string) returns (mode: Mode, required: int, timeout: int)
    ensures (mode, required, timeout) == Convergence(def, node, join)
  {
    mode := All;
    if node.fork.Some? && node.fork.value.mode != Unset {
      mode := node.fork.value.mode;
    }
    required, timeout := 0, 0;
    if node.join.Some? {
      required, timeout := node.join.value.required, node.join.value.timeout;
      if node.join.value.mode != Unset {
        mode := node.join.value.mode;
      }
    }
    if join in def.nodes && def.nodes[join].ntype.Join? && def.nodes[join].join.Some? {
      var far := def.nodes[join].join.value;
      if node.join.None? {
        required, timeout := far.required, far.timeout;
        if far.mode != Unset {
          mode := far.mode;
        }
      } else {
        if required == 0 && far.required > 0 {
          required := far.required;
        }
        if timeout == 0 {
          timeout := far.timeout;
        }
        if node.join.value.mode == Unset && far.mode != Unset {
          mode := far.mode;
        }
      }
    }
  }

  /** The instance has just opened the fork at `node`. */
  ghost predicate Forked(cfg: Config, a: Audit, b: Audit, node: Node) {
    && SameBook(a, b) && SameStep(a, b)
    && |b.st.scopes| == 1
    && var s := b.st.scopes[0];
       && s == ForkScope(cfg.def, node, s.startedAt)
       && b.st == a.st.(scopes := [s], waitings := b.st.waitings)
       && b.st.waitings == if s.timeout > 0 then
            a.st.waitings[ScopeSlot(node.id) := ScopeTimer(s, VisitsOf(a.st.visits, node.id))]
          else a.st.waitings
  }

  function ScopeTimer(s: Scope, visit: nat): WaitingState {
    WaitingState(ScopeWait, s.fork, Some(s.startedAt + s.timeout), visit, "", None)
  }

  ghost predicate AtFork(cfg: Config, a: Audit, node: Node) {
    && node.id in cfg.def.nodes && cfg.def.nodes[node.id] == node && node.ntype.Parallel?
    && a.st.node == node.id && a.st.scopes == [] && Instance !in a.st.waitings
    && a.moment.Visited? && a.moment.node == node.id
  }

  /** stepParallel: refused without a change unless every transition has a target. */
  method StepParallel(ctx: ExecutionContext, node: Node) returns (ok: bool)
    requires ctx.Tracked() && Ready(ctx.audit) && AtFork(ctx.cfg, ctx.audit, node)
    modifies ctx
    ensures ok <==> ForkDeclared(node)
    ensures !ok ==> ctx.Unchanged()
    ensures ok ==> ctx.Tracked() && Forked(ctx.cfg, old(ctx.audit), ctx.audit, node) && old(ctx.log) <= ctx.log
    ensures ok ==> old(ctx.clock) <= ctx.scopes[0].startedAt == ctx.clock
    ensures LaterSlots(old(ctx.waitings), ctx.waitings, old(ctx.clock))
    ensures ctx.processedEvents == old(ctx.processedEvents) && ctx.clock >= old(ctx.clock)
  {
    hide Reach, Legal, Advance, Apply;
    if node.transitions == [] {
      return false;
    }
    var branches, starts := OpenBranches(node);
    if branches.None? {
      return false;
    }
    var join := if node.fork.Some? then node.fork.value.joinNode else "";
    if join == "" {
      join := ResolveCommonJoin(ctx.cfg.def, node.id, starts);
    }
    var mode, required, timeout := Settings(ctx.cfg.def, node, join);
    var now := ctx.Now();
    var scope := Scope(node.id, join, mode, node.fork.Some? && node.fork.value.failFast, required, timeout, now, branches.value);
    assert scope == ForkScope(ctx.cfg.def, node, now);
    OpenScope(ctx, node, scope);
    ok := true;
  }

  method OpenScope(ctx: ExecutionContext, node: Node, scope: Scope)
    requires ctx.Tracked() && Ready(ctx.audit) && AtFork(ctx.cfg, ctx.audit, node) && ForkDeclared(node)
    requires scope == ForkScope(ctx.cfg.def, node, scope.startedAt) && scope.startedAt == ctx.clock
    modifies ctx
    ensures ctx.Tracked() && Forked(ctx.cfg, old(ctx.audit), ctx.audit, node) && old(ctx.log) <= ctx.log
    ensures ctx.scopes == [scope]
    ensures ctx.processedEvents == old(ctx.processedEvents) && ctx.clock == old(ctx.clock)
  {
    hide Reach, Legal, Advance, Apply, ForkScope;
    assert scope.fork == node.id by { ForkScopeNames(ctx.cfg.def, node, scope.startedAt); }
    ctx.currentNode := node.id;
    if scope.timeout > 0 {
      TimeScope(ctx, node, scope);
    }
    ctx.PushScope(scope);
  }

  lemma ForkScopeNames(def: ProcessDef, node: Node, startedAt: int)
    ensures ForkScope(def, node, startedAt).fork == node.id
  {
  }

  /** A fork with a convergence timeout registers it as a waiting slot of its own. */
  method TimeScope(ctx: ExecutionContext, node: Node, scope: Scope)
    requires ctx.Tracked() && Ready(ctx.audit) && AtFork(ctx.cfg, ctx.audit, node) && scope.fork == node.id
    requires ForkDeclared(node) && scope == ForkScope(ctx.cfg.def, node, ctx.clock)
    modifies ctx
    ensures ctx.Tracked() && SameBook(old(ctx.audit), ctx.audit) && SameStep(old(ctx.audit), ctx.audit)
    ensures ctx.audit.st == old(ctx.audit.st).(waitings :=
      old(ctx.waitings)[ScopeSlot(node.id) := ScopeTimer(scope, VisitsOf(old(ctx.visitCounts), node.id))])
    ensures old(ctx.log) <= ctx.log
    ensures ctx.processedEvents == old(ctx.processedEvents) && ctx.clock == old(ctx.clock)
  {
    hide Reach, Legal, Advance, Apply;
    ctx.SetWaiting(ScopeSlot(node.id), ScopeTimer(scope, ctx.VisitOf(node.id)));
  }
}
