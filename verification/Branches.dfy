/**
 Branches of the open fork (dsl/runtime.go, dsl/parallel.go): automatic advance to a
 waiting point, join or end, and the moves driven by events, inference results, timers.
 */
module Branches {
  import opened Definition
  import opened Journal
  import opened Protocol
  import opened Runs
  import opened Frames
  import opened Context
  import opened Contract
  import opened Meaning
  import opened Effects
  import opened Parking
  import opened Inference
  import opened Executor

  const MAX_BRANCH_STEPS := 200

  // ------------------------------------------------------------------- frames

  ghost predicate BranchOpen(st: State, id: BranchId) {
    |st.scopes| == 1 && id in st.scopes[0].branches && st.scopes[0].branches[id].id == id
  }

  /** A scope in which at most branch `id` changed, and the join was at most filled in. */
  ghost predicate ScopeMoved(s: Scope, t: Scope, id: BranchId) {
    && t == s.(branches := t.branches, join := t.join)
    && t.branches.Keys == s.branches.Keys
    && (forall x <- s.branches :: x != id ==> t.branches[x] == s.branches[x])
    && (s.join != "" ==> t.join == s.join)
    && (id in s.branches && s.branches[id].done ==> t.branches[id].done)
  }

  /** Only branch `id`, its slot, and what its nodes produce changed. */
  ghost predicate OnlyBranch(a: Audit, b: Audit, id: BranchId) {
    && Kept(a, b) && b.event == a.event && b.waking == a.waking
    && BranchOpen(a.st, id) && BranchOpen(b.st, id)
    && ScopeMoved(a.st.scopes[0], b.st.scopes[0], id)
    && b.st == a.st.(vars := b.st.vars, scopes := b.st.scopes, waitings := b.st.waitings, results := b.st.results,
                     undo := b.st.undo, visits := b.st.visits, status := b.st.status)
    && (b.st.status == a.st.status || b.st.status == Failed)
    && b.st.waitings - {BranchSlot(id)} == a.st.waitings - {BranchSlot(id)}
  }

  lemma OnlyBranchTrans(a: Audit, b: Audit, c: Audit, id: BranchId)
    requires OnlyBranch(a, b, id) && OnlyBranch(b, c, id)
    ensures OnlyBranch(a, c, id)
  {
  }

  lemma BranchByVariables(a: Audit, b: Audit, id: BranchId)
    requires OnlyVariables(a, b) && BranchOpen(a.st, id)
    ensures OnlyBranch(a, b, id)
  {
  }

  lemma BranchByCommands(a: Audit, b: Audit, id: BranchId)
    requires OnlyCommands(a, b) && BranchOpen(a.st, id)
    ensures OnlyBranch(a, b, id)
  {
  }

  lemma BranchByVisit(a: Audit, b: Audit, n: string, id: BranchId)
    requires SameBook(a, b) && b.event == a.event && b.waking == a.waking && BranchOpen(a.st, id)
    requires b.st == a.st.(visits := a.st.visits[n := VisitsOf(a.st.visits, n) + 1])
    ensures OnlyBranch(a, b, id)
  {
  }

  lemma BranchBySlot(a: Audit, b: Audit, id: BranchId)
    requires SameBook(a, b) && b.event == a.event && b.waking == a.waking && BranchOpen(a.st, id)
    requires b.st == a.st.(waitings := a.st.waitings - {BranchSlot(id)})
    ensures OnlyBranch(a, b, id)
  {
  }

  lemma BranchByParking(a: Audit, b: Audit, id: BranchId)
    requires OnlyParking(a, b, BranchSlot(id)) && BranchOpen(a.st, id)
    ensures OnlyBranch(a, b, id)
  {
  }

  /** A record of the branch was written after `before`. */
  ghost predicate Reacted(before: seq<Occ>, log: seq<Occ>, id: BranchId) {
    exists i | |before| <= i < |log| :: log[i].BranchUpdated? && log[i].branch.id == id
  }

  lemma ReactedStill(before: seq<Occ>, since: seq<Occ>, mid: seq<Occ>, log: seq<Occ>, id: BranchId)
    requires before <= since && Reacted(since, mid, id) && mid <= log
    ensures Reacted(before, log, id)
  {
    var i :| |since| <= i < |mid| && mid[i].BranchUpdated? && mid[i].branch.id == id;
    assert log[i] == mid[i];
  }

  /** Among them one that moves it to `to`. */
  ghost predicate MovedTo(before: seq<Occ>, log: seq<Occ>, id: BranchId, to: string) {
    exists i | |before| <= i < |log| :: log[i].BranchUpdated? && log[i].branch.id == id && log[i].branch.currentNode == to
  }

  /** Only the record of the branch changed, to `b`. */
  ghost predicate Recast(a: Audit, c: Audit, b: BranchState) {
    |a.st.scopes| == 1 && c.moves == a.moves && c.st == a.st.(scopes := [WithBranch(a.st.scopes[0], b)])
  }

  /** Leaving it writes no variable and sends no command. */
  predicate Silent(node: Node) {
    node.output == map[] && node.effects == []
  }

  lemma MovedStill(before: seq<Occ>, since: seq<Occ>, mid: seq<Occ>, log: seq<Occ>, id: BranchId, to: string)
    requires before <= since && MovedTo(since, mid, id, to) && mid <= log
    ensures MovedTo(before, log, id, to)
  {
    var i :| |since| <= i < |mid| && mid[i].BranchUpdated? && mid[i].branch.id == id && mid[i].branch.currentNode == to;
    assert log[i] == mid[i];
  }

  // ------------------------------------------------------------ branch records

  /** The record a step holds of the branch: the stored one, but for its actor. */
  ghost predicate Holds(a: Audit, b: BranchState) {
    && BranchOpen(a.st, b.id)
    && b == a.st.scopes[0].branches[b.id].(actor := b.actor)
    && (b.actor != a.st.scopes[0].branches[b.id].actor ==>
          b.actor == Some(SYSTEM_PRINCIPAL) || (a.event.Some? && b.actor == a.event.value.principal))
  }

  function BranchAt(ctx: ExecutionContext, id: BranchId): BranchState
    requires |ctx.scopes| == 1 && id in ctx.scopes[0].branches
    reads ctx
  {
    ctx.scopes[0].branches[id]
  }

  method Save(ctx: ExecutionContext, b: BranchState)
    requires ctx.Tracked() && Ready(ctx.audit) && BranchOpen(ctx.audit.st, b.id)
    requires BranchLegal(ctx.cfg, ctx.audit, ctx.scopes[0].fork, b)
    modifies ctx
    ensures ctx.Tracked() && Ready(ctx.audit) && OnlyBranch(old(ctx.audit), ctx.audit, b.id) && old(ctx.log) <= ctx.log
    ensures |ctx.scopes| == 1 && ctx.scopes[0] == WithBranch(old(ctx.scopes[0]), b)
    ensures SameStep(old(ctx.audit), ctx.audit)
    ensures ctx.log == old(ctx.log) + [BranchUpdated(old(ctx.scopes[0].fork), b)]
    ensures ctx.audit.st == old(ctx.audit.st).(scopes := [WithBranch(old(ctx.scopes[0]), b)])
    ensures ctx.waitings == old(ctx.waitings) && ctx.status == old(ctx.status)
    ensures ctx.processedEvents == old(ctx.processedEvents) && ctx.clock == old(ctx.clock)
  {
    hide Reach, Legal, Advance, Apply, BranchLegal;
    assert (b.id in ctx.scopes[0].branches && ctx.scopes[0].branches[b.id].done ==> b.done) by {
      SavedDone(ctx.cfg, ctx.audit, ctx.scopes[0].fork, b);
    }
    ctx.JournalBranch(ctx.scopes[0].fork, b);
  }

  lemma SavedDone(cfg: Config, a: Audit, fork: string, b: BranchState)
    requires BranchLegal(cfg, a, fork, b)
    ensures |a.st.scopes| == 1 && b.id in a.st.scopes[0].branches
    ensures a.st.scopes[0].branches[b.id].done ==> b.done
  {
  }

  lemma ArrivedHasJoin(cfg: Config, st: State, id: BranchId)
    requires ScopesFormed(cfg.def, st) && |st.scopes| == 1 && id in st.scopes[0].branches
    ensures BranchOpen(st, id)
    ensures st.scopes[0].branches[id].arrivedJoin != "" ==> st.scopes[0].join != "" && st.scopes[0].branches[id].done
    ensures st.scopes[0].branches[id].status in {Completed, Failed} ==> st.scopes[0].branches[id].done
  {
  }

  method FailBranch(ctx: ExecutionContext, b: BranchState)
    requires ctx.Tracked() && Ready(ctx.audit) && Holds(ctx.audit, b)
    requires BranchFails(ctx.cfg, ctx.audit, ctx.scopes[0].branches[b.id])
    modifies ctx
    ensures ctx.Tracked() && Ready(ctx.audit) && OnlyBranch(old(ctx.audit), ctx.audit, b.id) && old(ctx.log) <= ctx.log
    ensures BranchAt(ctx, b.id) == b.(status := Failed, done := true) && Reacted(old(ctx.log), ctx.log, b.id)
    ensures ctx.waitings == old(ctx.waitings) && ctx.status == old(ctx.status)
    ensures ctx.processedEvents == old(ctx.processedEvents) && ctx.clock == old(ctx.clock)
  {
    hide Reach, Legal, Advance, Apply, OnlyBranch, BranchMoves;
    ctx.ScopesKnown();
    ArrivedHasJoin(ctx.cfg, ctx.audit.st, b.id);
    Save(ctx, b.(status := Failed, done := true));
    assert ctx.log[|ctx.log| - 1].BranchUpdated?;
  }

  /** branchReachedJoin, and the end of a branch at an end node. */
  method FinishBranch(ctx: ExecutionContext, b: BranchState, join: string)
    requires ctx.Tracked() && Ready(ctx.audit) && Holds(ctx.audit, b) && !b.done
    requires b.currentNode in ctx.cfg.def.nodes && b.currentNode != "" && b.arrivedJoin == ""
    requires if join == "" then ctx.cfg.def.nodes[b.currentNode].ntype.End?
      else join == b.currentNode && (join == ctx.scopes[0].join || ctx.cfg.def.nodes[join].ntype.Join?)
    modifies ctx
    ensures ctx.Tracked() && Ready(ctx.audit) && OnlyBranch(old(ctx.audit), ctx.audit, b.id) && old(ctx.log) <= ctx.log
    ensures BranchAt(ctx, b.id) == b.(status := Completed, done := true, arrivedJoin := join)
    ensures ctx.scopes[0].join == if old(ctx.scopes[0].join) == "" then join else old(ctx.scopes[0].join)
    ensures ctx.audit.moves == old(ctx.audit.moves) && ctx.audit.st == old(ctx.audit.st).(
      scopes := [WithBranch(old(ctx.scopes[0]), b.(status := Completed, done := true, arrivedJoin := join))])
    ensures ctx.waitings == old(ctx.waitings) && ctx.status == old(ctx.status)
    ensures ctx.processedEvents == old(ctx.processedEvents) && ctx.clock == old(ctx.clock)
  {
    hide Reach, Legal, Advance, Apply, OnlyBranch, BranchMoves;
    Save(ctx, b.(status := Completed, done := true, arrivedJoin := join));
  }

  /** The branch stays where it is, waiting. */
  method RestBranch(ctx: ExecutionContext, b: BranchState, done: bool)
    requires ctx.Tracked() && Ready(ctx.audit) && Holds(ctx.audit, b) && !b.done
    requires Halts(ctx.cfg, ctx.audit, b) && (done ==> DeadEnd(ctx.cfg.def, b))
    modifies ctx
    ensures ctx.Tracked() && Ready(ctx.audit) && OnlyBranch(old(ctx.audit), ctx.audit, b.id) && old(ctx.log) <= ctx.log
    ensures BranchAt(ctx, b.id) == b.(status := Waiting, done := done)
    ensures ctx.audit.moves == old(ctx.audit.moves)
    ensures ctx.audit.st == old(ctx.audit.st).(scopes := [WithBranch(old(ctx.scopes[0]), b.(status := Waiting, done := done))])
    ensures ctx.waitings == old(ctx.waitings) && ctx.status == old(ctx.status)
    ensures ctx.processedEvents == old(ctx.processedEvents) && ctx.clock == old(ctx.clock)
  {
    hide Reach, Legal, Advance, Apply, OnlyBranch, BranchMoves;
    ctx.ScopesKnown();
    ArrivedHasJoin(ctx.cfg, ctx.audit.st, b.id);
    Save(ctx, b.(status := Waiting, done := done));
  }

  method MoveBranch(ctx: ExecutionContext, b: BranchState, to: string)
    requires ctx.Tracked() && Ready(ctx.audit) && Holds(ctx.audit, b)
    requires BranchMoves(ctx.cfg, ctx.audit, ctx.scopes[0].branches[b.id], b.(currentNode := to))
    modifies ctx
    ensures ctx.Tracked() && Ready(ctx.audit) && OnlyBranch(old(ctx.audit), ctx.audit, b.id) && old(ctx.log) <= ctx.log
    ensures BranchAt(ctx, b.id) == b.(currentNode := to) && Reacted(old(ctx.log), ctx.log, b.id)
    ensures ctx.log == old(ctx.log) + [BranchUpdated(old(ctx.scopes[0].fork), b.(currentNode := to))]
    ensures Recast(old(ctx.audit), ctx.audit, b.(currentNode := to))
    ensures ctx.waitings == old(ctx.waitings) && ctx.status == old(ctx.status)
    ensures ctx.processedEvents == old(ctx.processedEvents) && ctx.clock == old(ctx.clock)
  {
    hide Reach, Legal, Advance, Apply, OnlyBranch, BranchMoves;
    ctx.ScopesKnown();
    ArrivedHasJoin(ctx.cfg, ctx.audit.st, b.id);
    Save(ctx, b.(currentNode := to));
    assert ctx.log[|ctx.log| - 1].BranchUpdated?;
  }

  // ------------------------------------------------------------ leaving a node

  /** The commands of the node the branch has just visited. */
  ghost predicate EffectsReady(ctx: ExecutionContext, node: Node)
    reads ctx
  {
    FreshCommands(ctx.cfg, ctx.audit, NodeCommands(ctx.executionID, node, ctx.VisitOf(node.id)))
  }

  lemma MovesStable(cfg: Config, a: Audit, c: Audit, o: BranchState, b: BranchState)
    requires BranchMoves(cfg, a, o, b) && SameStep(a, c)
    requires a.moment.Visited? && a.moment.node in cfg.def.nodes && !cfg.def.nodes[a.moment.node].ntype.Ai?
    ensures BranchMoves(cfg, c, o, b)
  {
  }

  lemma HoldsStable(a: Audit, c: Audit, b: BranchState)
    requires Holds(a, b) && SameStep(a, c) && a.st.scopes == c.st.scopes
    ensures Holds(c, b)
  {
  }

  lemma BlockedBranch(cfg: Config, a: Audit, o: BranchState, b: BranchState, node: Node, entered: Env)
    requires BranchMoves(cfg, a, o, b) && b.id == o.id && a.moment.Visited? && AtNode(cfg, a, node, entered) && !node.ntype.Ai?
    requires exists name <- node.output :: OutputBlocked(cfg, node, entered, a.st.vars, name)
    ensures BranchFails(cfg, a, o)
  {
  }

  lemma CriticalBranch(cfg: Config, a: Audit, o: BranchState, b: BranchState, node: Node)
    requires BranchMoves(cfg, a, o, b) && b.id == o.id && a.moment.Visited? && a.moment.node == node.id
    requires node.id in cfg.def.nodes && cfg.def.nodes[node.id] == node && !node.ntype.Ai?
    requires CriticalFailed(cfg, a, node.id)
    ensures BranchFails(cfg, a, o)
  {
  }

  /** Outputs, then commands, then the move; the branch fails at the first that fails. */
  method LeaveBy(ctx: ExecutionContext, b: BranchState, node: Node, entered: Env, to: string) returns (moved: bool)
    requires ctx.Tracked() && Ready(ctx.audit) && Holds(ctx.audit, b)
    requires AtNode(ctx.cfg, ctx.audit, node, entered) && ctx.audit.moment.Visited? && !node.ntype.Ai?
    requires BranchMoves(ctx.cfg, ctx.audit, ctx.scopes[0].branches[b.id], b.(currentNode := to))
    requires EffectsReady(ctx, node)
    modifies ctx
    ensures ctx.Tracked() && Ready(ctx.audit) && OnlyBranch(old(ctx.audit), ctx.audit, b.id) && old(ctx.log) <= ctx.log
    ensures BranchAt(ctx, b.id) == if moved then b.(currentNode := to) else b.(status := Failed, done := true)
    ensures Reacted(old(ctx.log), ctx.log, b.id)
    ensures moved ==> MovedTo(old(ctx.log), ctx.log, b.id, to)
    ensures AlwaysWrites(ctx.cfg, node, entered, old(ctx.variables)) && node.effects == [] ==> moved
    ensures NeverWrites(ctx.cfg, node, entered, old(ctx.variables)) ==> !moved
    ensures Silent(node) ==> moved && Recast(old(ctx.audit), ctx.audit, b.(currentNode := to))
    ensures moved ==> Performed(old(ctx.audit), ctx.audit, NodeCommands(ctx.executionID, node, old(ctx.VisitOf(node.id))))
    ensures ctx.processedEvents == old(ctx.processedEvents) && ctx.clock == old(ctx.clock)
    ensures ctx.waitings == old(ctx.waitings) && ctx.status == old(ctx.status)
  {
    hide Reach, Legal, Advance, Apply, OnlyBranch, BranchMoves, BranchFails, FreshCommands, OnlyVariables, OnlyCommands, Holds, Answered, Performed, Reacted, MovedTo, AlwaysWrites, NeverWrites, Recast;
    ghost var a := ctx.audit;
    var ok := LeaveOutputs(ctx, b, node, entered, to);
    ghost var c := ctx.audit;
    if !ok {
      ghost var l := ctx.log;
      FailBranch(ctx, b);
      OnlyBranchTrans(a, c, ctx.audit, b.id);
      ReactedStill(old(ctx.log), l, ctx.log, ctx.log, b.id);
      return false;
    }
    var failed := LeaveEffects(ctx, b, node, to);
    ghost var d, l := ctx.audit, ctx.log;
    OnlyBranchTrans(a, c, d, b.id);
    if failed {
      FailBranch(ctx, b);
    } else {
      MoveBranch(ctx, b, to);
      MovedByRecord(l, ctx.log, b.id, to);
      MovedStill(old(ctx.log), l, ctx.log, ctx.log, b.id, to);
      AllPerformed(a, c, d, ctx.audit, b.id, NodeCommands(a.st.executionID, node, VisitsOf(a.st.visits, node.id)));
    }
    OnlyBranchTrans(a, d, ctx.audit, b.id);
    ReactedStill(old(ctx.log), l, ctx.log, ctx.log, b.id);
    moved := !failed;
  }

  lemma MovedByRecord(before: seq<Occ>, log: seq<Occ>, id: BranchId, to: string)
    requires before < log && var o := log[|before|]; o.BranchUpdated? && o.branch.id == id && o.branch.currentNode == to
    ensures MovedTo(before, log, id, to)
  {
  }

  lemma AllPerformed(a: Audit, c: Audit, d: Audit, e: Audit, id: BranchId, cmds: seq<Command>)
    requires c.st.results == a.st.results && Answered(c, d, cmds) && OnlyBranch(d, e, id)
    ensures Performed(a, e, cmds) && e.st.executionID == d.st.executionID
  {
  }

  /** leaveNode on a branch. */
  method LeaveOutputs(ctx: ExecutionContext, b: BranchState, node: Node, entered: Env, ghost to: string) returns (ok: bool)
    requires ctx.Tracked() && Ready(ctx.audit) && Holds(ctx.audit, b)
    requires AtNode(ctx.cfg, ctx.audit, node, entered) && ctx.audit.moment.Visited? && !node.ntype.Ai?
    requires BranchMoves(ctx.cfg, ctx.audit, ctx.scopes[0].branches[b.id], b.(currentNode := to))
    requires EffectsReady(ctx, node)
    modifies ctx
    ensures ctx.Tracked() && Ready(ctx.audit) && OnlyBranch(old(ctx.audit), ctx.audit, b.id) && old(ctx.log) <= ctx.log
    ensures Holds(ctx.audit, b) && SameStep(old(ctx.audit), ctx.audit)
    ensures BranchMoves(ctx.cfg, ctx.audit, ctx.scopes[0].branches[b.id], b.(currentNode := to))
    ensures EffectsReady(ctx, node) && ctx.scopes == old(ctx.scopes) && ctx.results == old(ctx.results)
    ensures ctx.executionID == old(ctx.executionID) && ctx.visitCounts == old(ctx.visitCounts)
    ensures !ok ==> BranchFails(ctx.cfg, ctx.audit, ctx.scopes[0].branches[b.id])
    ensures AlwaysWrites(ctx.cfg, node, entered, old(ctx.variables)) ==> ok
    ensures NeverWrites(ctx.cfg, node, entered, old(ctx.variables)) ==> !ok
    ensures node.output == map[] ==> ok && ctx.audit == old(ctx.audit)
    ensures ctx.processedEvents == old(ctx.processedEvents) && ctx.clock == old(ctx.clock)
    ensures ctx.waitings == old(ctx.waitings) && ctx.status == old(ctx.status)
  {
    hide Reach, Legal, Advance, Apply, OnlyBranch, BranchMoves, BranchFails, OutputBlocked, OutputsHold, FreshCommands, AlwaysWrites, NeverWrites;
    ghost var a := ctx.audit;
    ok := LeaveNode(ctx, node, entered);
    BranchByVariables(a, ctx.audit, b.id);
    HoldsStable(a, ctx.audit, b);
    MovesStable(ctx.cfg, a, ctx.audit, ctx.scopes[0].branches[b.id], b.(currentNode := to));
    FreshStable(ctx.cfg, a, ctx.audit, NodeCommands(ctx.executionID, node, ctx.VisitOf(node.id)));
    if !ok {
      BlockedBranch(ctx.cfg, ctx.audit, ctx.scopes[0].branches[b.id], b.(currentNode := to), node, entered);
    }
  }

  /** emitNodeSideEffects on a branch; reports whether a critical command failed. */
  method LeaveEffects(ctx: ExecutionContext, b: BranchState, node: Node, ghost to: string) returns (failed: bool)
    requires ctx.Tracked() && Ready(ctx.audit) && Holds(ctx.audit, b)
    requires ctx.audit.moment.Visited? && ctx.audit.moment.node == node.id && !node.ntype.Ai?
    requires node.id in ctx.cfg.def.nodes && ctx.cfg.def.nodes[node.id] == node
    requires BranchMoves(ctx.cfg, ctx.audit, ctx.scopes[0].branches[b.id], b.(currentNode := to))
    requires EffectsReady(ctx, node)
    modifies ctx
    ensures ctx.Tracked() && Ready(ctx.audit) && OnlyBranch(old(ctx.audit), ctx.audit, b.id) && old(ctx.log) <= ctx.log
    ensures Holds(ctx.audit, b) && SameStep(old(ctx.audit), ctx.audit)
    ensures BranchMoves(ctx.cfg, ctx.audit, ctx.scopes[0].branches[b.id], b.(currentNode := to))
    ensures ctx.scopes == old(ctx.scopes)
    ensures failed ==> BranchFails(ctx.cfg, ctx.audit, ctx.scopes[0].branches[b.id])
    ensures node.effects == [] ==> !failed && ctx.audit == old(ctx.audit)
    ensures Answered(old(ctx.audit), ctx.audit, NodeCommands(ctx.executionID, node, old(ctx.VisitOf(node.id))))
    ensures ctx.executionID == old(ctx.executionID)
    ensures ctx.processedEvents == old(ctx.processedEvents) && ctx.clock == old(ctx.clock)
    ensures ctx.waitings == old(ctx.waitings) && ctx.status == old(ctx.status)
  {
    hide Reach, Legal, Advance, Apply, OnlyBranch, BranchMoves, BranchFails, FreshCommands, CriticalFailure, CriticalFailed, Answered;
    ghost var a := ctx.audit;
    failed := Dispatch(ctx, NodeCommands(ctx.executionID, node, ctx.VisitOf(node.id)));
    BranchByCommands(a, ctx.audit, b.id);
    HoldsStable(a, ctx.audit, b);
    MovesStable(ctx.cfg, a, ctx.audit, ctx.scopes[0].branches[b.id], b.(currentNode := to));
    if failed {
      CriticalShown(ctx.cfg, a, ctx.audit, node);
      CriticalBranch(ctx.cfg, ctx.audit, ctx.scopes[0].branches[b.id], b.(currentNode := to), node);
    }
  }

  /** The branch visits a node: one more count, fresh command ids. */
  method VisitNode(ctx: ExecutionContext, id: BranchId, node: Node)
    requires ctx.Tracked() && Ready(ctx.audit) && BranchOpen(ctx.audit.st, id)
    requires node.id in ctx.cfg.def.nodes && ctx.cfg.def.nodes[node.id] == node
    modifies ctx
    ensures ctx.Tracked() && Ready(ctx.audit) && OnlyBranch(old(ctx.audit), ctx.audit, id) && old(ctx.log) <= ctx.log
    ensures ctx.log == old(ctx.log) + [NodeVisited(node.id)]
    ensures ctx.audit.st == old(ctx.audit.st).(visits := ctx.visitCounts) && SameBook(old(ctx.audit), ctx.audit)
    ensures ctx.audit.moment == Visited(node.id, ctx.variables) && ctx.audit.event == old(ctx.audit.event)
    ensures ctx.audit.waking == old(ctx.audit.waking) && ctx.audit.moves == old(ctx.audit.moves)
    ensures ctx.visitCounts == old(ctx.visitCounts)[node.id := VisitsOf(old(ctx.visitCounts), node.id) + 1]
    ensures EffectsReady(ctx, node)
    ensures forall slot: Slot :: RequestNow(ctx, node, slot) !in ctx.audit.issued
    ensures ctx.processedEvents == old(ctx.processedEvents) && ctx.clock == old(ctx.clock)
    ensures LaterSlots(old(ctx.waitings), ctx.waitings, old(ctx.clock))
  {
    hide Reach, Legal, Advance, Apply, OnlyBranch, FreshCommands;
    ghost var a := ctx.audit;
    ctx.IdsKnown();
    var visit := ctx.IncrVisit(node.id);
    FreshAfterVisit(ctx.cfg, a, ctx.audit, node);
    BranchByVisit(a, ctx.audit, node.id, id);
  }

  // ------------------------------------------------------------------- advance

  /** The branch has gone as far as it can by itself: it is over, parked with the slot
      its node calls for, or at a condition without a route. */
  ghost predicate Resting(cfg: Config, st: State, b: BranchState) {
    || b.done
    || (&& b.status == Waiting && b.currentNode in cfg.def.nodes
        && var node := cfg.def.nodes[b.currentNode];
           if IsWaitingNode(node) then
             NeedsSlot(node) ==> BranchSlot(b.id) in st.waitings && st.waitings[BranchSlot(b.id)].node == node.id
           else node.ntype.Condition?)
  }

  /** What one look at an automatic or condition node makes of a branch. A condition sends it
      along, holds it there waiting, or fails with its data; any other node sends it to its first
      target, and is its end where there is none. Outputs and commands can fail it on the way. */
  ghost predicate Traversed(cfg: Config, node: Node, vars: Env, b: BranchState, after: BranchState) {
    var failed := b.(status := Failed, done := true);
    var blind := exists x <- node.input :: cfg.eval(node.input[x], vars).None?;
    if node.ntype.Condition? then
      && (blind ==> after == failed)
      && forall view: Env :: Sees(cfg, node, vars, view) ==>
           && (forall k: nat :: Faults(cfg, node.transitions, view, k) ==> after == failed)
           && (forall k: nat :: k < |node.transitions| && ByCondition(cfg, node.transitions, view, k) && node.transitions[k].next != "" ==>
                 after in {b.(currentNode := node.transitions[k].next), failed})
           && ((forall k: nat :: !Faults(cfg, node.transitions, view, k)) &&
               (forall k: nat :: k < |node.transitions| && ByCondition(cfg, node.transitions, view, k) ==> node.transitions[k].next == "") ==>
                 after == b.(status := Waiting))
    else
      && ((forall k: nat :: !ByOrder(node.transitions, k)) ==> after == b.(status := Waiting, done := true))
      && forall k: nat :: k < |node.transitions| && ByOrder(node.transitions, k) ==>
           after == failed || (!blind && after == b.(currentNode := node.transitions[k].next))
  }

  lemma TraversedBy(cfg: Config, node: Node, vars: Env, b: BranchState, after: BranchState)
    requires
      var view := EnterEnv(cfg, node, vars);
      var to := AutoRoute(cfg, node, view);
      if to == Some("") then after == b.(status := Waiting, done := !node.ntype.Condition?)
      else if to.None? || view.None? then after == b.(status := Failed, done := true)
      else after in {b.(currentNode := to.value), b.(status := Failed, done := true)}
    requires !b.done
    ensures Traversed(cfg, node, vars, b, after)
  {
    hide Sees, WhenRoute, FirstNext, ByCondition, Faults, ByOrder;
    ViewMeaning(cfg, node, vars);
    OrderRoute(node.transitions);
    var view := EnterEnv(cfg, node, vars);
    if view.Some? {
      ConditionRoute(cfg, node.transitions, view.value);
      assert forall seen: Env :: Sees(cfg, node, vars, seen) ==> seen == view.value;
    }
  }

  /** What one round makes of a branch, by the node it stands on. */
  ghost predicate Rounded(cfg: Config, st: State, b: BranchState, after: BranchState)
    requires |st.scopes| == 1
  {
    var n, join := b.currentNode, st.scopes[0].join;
    if n !in cfg.def.nodes || VisitsOf(st.visits, n) >= cfg.Cap() then after == b.(status := Failed, done := true)
    else if (join != "" && n == join) || cfg.def.nodes[n].ntype.Join? then
      after == b.(status := Completed, done := true, arrivedJoin := n)
    else if cfg.def.nodes[n].ntype.End? then after == b.(status := Completed, done := true, arrivedJoin := "")
    else if cfg.def.nodes[n].ntype in {Approval, Subprocess, Timer, Ai} then after == b.(status := Waiting)
    else Traversed(cfg, cfg.def.nodes[n], st.vars, b, after)
  }

  /** An automatic or condition node: visit, route, leave. */
  method Traverse(ctx: ExecutionContext, b: BranchState, node: Node) returns (stop: bool)
    requires ctx.Tracked() && Ready(ctx.audit) && Holds(ctx.audit, b) && !b.done
    requires node.id in ctx.cfg.def.nodes && ctx.cfg.def.nodes[node.id] == node && b.currentNode == node.id
    requires !IsWaitingNode(node)
    modifies ctx
    ensures ctx.Tracked() && Ready(ctx.audit) && OnlyBranch(old(ctx.audit), ctx.audit, b.id) && old(ctx.log) <= ctx.log
    ensures stop ==> Resting(ctx.cfg, ctx.audit.st, BranchAt(ctx, b.id))
    ensures !stop ==> BranchAt(ctx, b.id) == b.(currentNode := BranchAt(ctx, b.id).currentNode) && old(ctx.log) < ctx.log
    ensures Traversed(ctx.cfg, node, old(ctx.variables), b, BranchAt(ctx, b.id))
    ensures ctx.processedEvents == old(ctx.processedEvents) && ctx.clock >= old(ctx.clock)
    ensures LaterSlots(old(ctx.waitings), ctx.waitings, old(ctx.clock))
  {
    hide LaterSlots, Reach, Legal, Advance, Apply, OnlyBranch, EffectsReady, BranchMoves, Traversed, Sees;
    ghost var a := ctx.audit;
    VisitNode(ctx, b.id, node);
    ghost var c := ctx.audit;
    HoldsKept(a, c, b);
    var view := EnterNode(ctx.cfg, node, ctx.variables);
    var to := BranchRoute(ctx.cfg, node, view);
    if to == Some("") {
      RestBranch(ctx, b, !node.ntype.Condition?);
      stop := true;
    } else if to.None? || view.None? {
      FailBranch(ctx, b);
      stop := true;
    } else {
      RoutedMoves(ctx.cfg, c, b, node, view.value, to.value);
      var moved := LeaveBy(ctx, b, node, view.value, to.value);
      stop := !moved;
    }
    OnlyBranchTrans(a, c, ctx.audit, b.id);
    OnlyBranchOpen(a, ctx.audit, b.id);
    TraversedBy(ctx.cfg, node, a.st.vars, b, BranchAt(ctx, b.id));
  }

  lemma HoldsKept(a: Audit, c: Audit, b: BranchState)
    requires Holds(a, b) && c.event == a.event && c.st.scopes == a.st.scopes
    ensures Holds(c, b)
  {
  }

  /** Where advanceBranch leaves a node by itself: Some("") stays, None fails. A node
      without a target stays even when its inputs fail. */
  method BranchRoute(cfg: Config, node: Node, view: Option<Env>) returns (to: Option<string>)
    ensures to == AutoRoute(cfg, node, view)
  {
    if node.ntype.Condition? {
      if view.None? {
        return None;
      }
      var r := EvalWhenChain(cfg, node.transitions, view.value);
      return if r.Broken? then None else Some(r.next);
    }
    var first := FindFirst(node.transitions);
    to := Some(first);
  }

  lemma RoutedMoves(cfg: Config, a: Audit, b: BranchState, node: Node, env: Env, to: string)
    requires Holds(a, b) && a.moment.Visited? && a.moment.node == node.id == b.currentNode
    requires node.id in cfg.def.nodes && cfg.def.nodes[node.id] == node && !IsWaitingNode(node)
    requires EnterEnv(cfg, node, a.moment.vars) == Some(env) && AutoRoute(cfg, node, Some(env)) == Some(to) && to != ""
    ensures BranchMoves(cfg, a, a.st.scopes[0].branches[b.id], b.(currentNode := to))
  {
  }

  /** A branch parks: slot, inference request, waiting. */
  method ParkBranch(ctx: ExecutionContext, b: BranchState, node: Node)
    requires ctx.Tracked() && Ready(ctx.audit) && Holds(ctx.audit, b) && !b.done
    requires node.id in ctx.cfg.def.nodes && ctx.cfg.def.nodes[node.id] == node && b.currentNode == node.id
    requires IsWaitingNode(node)
    modifies ctx
    ensures ctx.Tracked() && Ready(ctx.audit) && OnlyBranch(old(ctx.audit), ctx.audit, b.id) && old(ctx.log) <= ctx.log
    ensures BranchAt(ctx, b.id) == b.(status := Waiting) && Resting(ctx.cfg, ctx.audit.st, BranchAt(ctx, b.id))
    ensures !node.ntype.Ai? && !NeedsSlot(node) ==>
      && ctx.audit.moves == old(ctx.audit.moves)
      && ctx.audit.st == old(ctx.audit.st).(scopes := [WithBranch(old(ctx.scopes[0]), b.(status := Waiting))])
    ensures ctx.processedEvents == old(ctx.processedEvents) && ctx.clock >= old(ctx.clock)
    ensures LaterSlots(old(ctx.waitings), ctx.waitings, old(ctx.clock))
  {
    hide LaterSlots, Reach, Legal, Advance, Apply, OnlyBranch, EffectsReady;
    ghost var a := ctx.audit;
    if node.ntype.Ai? {
      ParkInference(ctx, b, node);
    } else {
      ParkWaiting(ctx, BranchSlot(b.id), node);
      BranchByParking(a, ctx.audit, b.id);
    }
    ghost var c := ctx.audit;
    HoldsKept(a, c, b);
    RestBranch(ctx, b, false);
    OnlyBranchTrans(a, c, ctx.audit, b.id);
  }

  method ParkInference(ctx: ExecutionContext, b: BranchState, node: Node)
    requires ctx.Tracked() && Ready(ctx.audit) && Holds(ctx.audit, b) && !b.done
    requires node.id in ctx.cfg.def.nodes && ctx.cfg.def.nodes[node.id] == node && b.currentNode == node.id
    requires node.ntype.Ai?
    modifies ctx
    ensures ctx.Tracked() && Ready(ctx.audit) && OnlyBranch(old(ctx.audit), ctx.audit, b.id) && old(ctx.log) <= ctx.log
    ensures ctx.audit.event == old(ctx.audit.event) && ctx.scopes == old(ctx.scopes)
    ensures NeedsSlot(node) ==> BranchSlot(b.id) in ctx.waitings && ctx.waitings[BranchSlot(b.id)].node == node.id
    ensures ctx.processedEvents == old(ctx.processedEvents) && ctx.clock >= old(ctx.clock)
    ensures LaterSlots(old(ctx.waitings), ctx.waitings, old(ctx.clock))
  {
    hide LaterSlots, Reach, Legal, Advance, Apply, OnlyBranch, EffectsReady;
    ghost var a, w, t := ctx.audit, ctx.waitings, ctx.clock;
    VisitNode(ctx, b.id, node);
    ghost var c := ctx.audit;
    ghost var id := RequestNow(ctx, node, BranchSlot(b.id));
    ParkWaiting(ctx, BranchSlot(b.id), node);
    ghost var d, v, u := ctx.audit, ctx.waitings, ctx.clock;
    BranchByParking(c, d, b.id);
    OnlyBranchTrans(a, c, d, b.id);
    assert RequestNow(ctx, node, BranchSlot(b.id)) == id;
    var ok := EmitAiRequest(ctx, node, BranchSlot(b.id));
    BranchByParking(d, ctx.audit, b.id);
    OnlyBranchTrans(a, d, ctx.audit, b.id);
    LaterSlotsTrans(w, v, ctx.waitings, t, u);
  }

  /** visitExceeded. */
  predicate VisitExceeded(ctx: ExecutionContext, n: string)
    reads ctx
  {
    n != "" && ctx.VisitOf(n) >= ctx.cfg.Cap()
  }

  /** The branch stands at the join of its fork, not counted yet. */
  ghost predicate AtJoin(cfg: Config, st: State, id: BranchId) {
    && BranchOpen(st, id) && !st.scopes[0].branches[id].done
    && var join := st.scopes[0].join;
       && join != "" && st.scopes[0].branches[id].currentNode == join
       && join in cfg.def.nodes && VisitsOf(st.visits, join) < cfg.Cap()
  }

  /** It stands at a node that waits without a slot, an approval without a deadline say, and
      is not waiting there yet. */
  ghost predicate AtDesk(cfg: Config, st: State, id: BranchId) {
    && BranchOpen(st, id) && !st.scopes[0].branches[id].done
    && Desk(cfg.def, st.scopes[0].branches[id].currentNode) && st.scopes[0].branches[id].currentNode != st.scopes[0].join
    && VisitsOf(st.visits, st.scopes[0].branches[id].currentNode) < cfg.Cap()
  }

  predicate Desk(def: ProcessDef, n: string) {
    n in def.nodes && IsWaitingNode(def.nodes[n]) && !def.nodes[n].ntype.Ai? && !NeedsSlot(def.nodes[n])
  }

  /** The branch as it stops at its join or desk. */
  function Stop(s: Scope, b: BranchState): BranchState {
    if b.currentNode == s.join then b.(status := Completed, done := true, arrivedJoin := s.join) else b.(status := Waiting)
  }

  /** The scope after its branches stopped where they stand, those in `left` excepted. */
  function Stopped(s: Scope, left: set<BranchId>): Scope {
    s.(branches := map b | b in s.branches :: if b in left then s.branches[b] else Stop(s, s.branches[b]))
  }

  /** The branch stopped, and nothing else happened. */
  ghost predicate Stops(a: Audit, b: Audit, id: BranchId) {
    && BranchOpen(a.st, id) && b.moves == a.moves
    && b.st == a.st.(scopes := [Stopped(a.st.scopes[0], a.st.scopes[0].branches.Keys - {id})])
  }

  ghost predicate AtStop(cfg: Config, st: State, id: BranchId) {
    AtJoin(cfg, st, id) || AtDesk(cfg, st, id)
  }

  lemma StopPlace(cfg: Config, st: State, id: BranchId)
    requires AtStop(cfg, st, id)
    ensures BranchOpen(st, id) && !st.scopes[0].branches[id].done
    ensures var n, join := st.scopes[0].branches[id].currentNode, st.scopes[0].join;
      && n in cfg.def.nodes && VisitsOf(st.visits, n) < cfg.Cap()
      && (n == join ==> join != "")
      && (n != join ==> IsWaitingNode(cfg.def.nodes[n]) && !cfg.def.nodes[n].ntype.Ai? && !NeedsSlot(cfg.def.nodes[n]))
  {
  }

  lemma StopsByRecord(cfg: Config, a: Audit, b: Audit, id: BranchId)
    requires AtStop(cfg, a.st, id) && b.moves == a.moves
    requires b.st == a.st.(scopes := [WithBranch(a.st.scopes[0], Stop(a.st.scopes[0], a.st.scopes[0].branches[id]))])
    requires a.st.scopes[0].join == "" ==> a.st.scopes[0].branches[id].arrivedJoin == ""
    ensures Stops(a, b, id)
  {
    hide Desk;
    var s := a.st.scopes[0];
    assert WithBranch(s, Stop(s, s.branches[id])).branches == Stopped(s, s.branches.Keys - {id}).branches;
  }

  /** One round of advanceBranch: stops at a missing or worn-out node, the join, an
      end, a waiting node or a condition without a route; else moves on. */
  method AdvanceOnce(ctx: ExecutionContext, id: BranchId) returns (stop: bool)
    requires ctx.Tracked() && Ready(ctx.audit) && BranchOpen(ctx.audit.st, id) && !BranchAt(ctx, id).done
    modifies ctx
    ensures ctx.Tracked() && Ready(ctx.audit) && OnlyBranch(old(ctx.audit), ctx.audit, id) && old(ctx.log) <= ctx.log
    ensures stop ==> Resting(ctx.cfg, ctx.audit.st, BranchAt(ctx, id))
    ensures !stop ==> !BranchAt(ctx, id).done && old(ctx.log) < ctx.log
    ensures old(VisitExceeded(ctx, BranchAt(ctx, id).currentNode)) ==>
      BranchAt(ctx, id) == old(BranchAt(ctx, id)).(status := Failed, done := true)
    ensures Rounded(ctx.cfg, old(ctx.audit.st), old(BranchAt(ctx, id)), BranchAt(ctx, id))
    ensures old(AtStop(ctx.cfg, ctx.audit.st, id)) ==> stop && Stops(old(ctx.audit), ctx.audit, id)
    ensures ctx.processedEvents == old(ctx.processedEvents) && ctx.clock >= old(ctx.clock)
    ensures LaterSlots(old(ctx.waitings), ctx.waitings, old(ctx.clock))
  {
    hide Reach, Legal, Advance, Apply, OnlyBranch, Stops, AtStop, Traversed;
    ctx.ScopesKnown();
    ArrivedHasJoin(ctx.cfg, ctx.audit.st, id);
    if AtStop(ctx.cfg, ctx.audit.st, id) {
      StopPlace(ctx.cfg, ctx.audit.st, id);
    }
    ghost var a := ctx.audit;
    var b := ctx.scopes[0].branches[id];
    if b.currentNode !in ctx.cfg.def.nodes || VisitExceeded(ctx, b.currentNode) {
      FailBranch(ctx, b);
      return true;
    }
    var node := ctx.cfg.def.nodes[b.currentNode];
    if node.id == ctx.scopes[0].join || node.ntype.Join? {
      FinishBranch(ctx, b, node.id);
      if AtStop(ctx.cfg, a.st, id) {
        StopsByRecord(ctx.cfg, a, ctx.audit, id);
      }
      stop := true;
    } else if node.ntype.End? {
      FinishBranch(ctx, b, "");
      stop := true;
    } else if IsWaitingNode(node) {
      ParkBranch(ctx, b, node);
      if AtStop(ctx.cfg, a.st, id) {
        StopsByRecord(ctx.cfg, a, ctx.audit, id);
      }
      stop := true;
    } else {
      stop := Traverse(ctx, b, node);
    }
  }

  /** advanceBranch. Unless the step limit ran out, the branch rests afterwards; each
      step that did not stop it left a record. */
  method AdvanceBranch(ctx: ExecutionContext, id: BranchId) returns (rested: bool)
    requires ctx.Tracked() && Ready(ctx.audit) && BranchOpen(ctx.audit.st, id)
    modifies ctx
    ensures ctx.Tracked() && Ready(ctx.audit) && OnlyBranch(old(ctx.audit), ctx.audit, id) && old(ctx.log) <= ctx.log
    ensures rested ==> Resting(ctx.cfg, ctx.audit.st, BranchAt(ctx, id))
    ensures !rested ==> |ctx.log| >= |old(ctx.log)| + MAX_BRANCH_STEPS
    ensures old(BranchAt(ctx, id).done) ==> ctx.audit == old(ctx.audit) && ctx.log == old(ctx.log)
    ensures old(AtStop(ctx.cfg, ctx.audit.st, id)) ==> Stops(old(ctx.audit), ctx.audit, id)
    ensures ctx.processedEvents == old(ctx.processedEvents) && ctx.clock >= old(ctx.clock)
    ensures LaterSlots(old(ctx.waitings), ctx.waitings, old(ctx.clock))
  {
    hide LaterSlots, Reach, Legal, Advance, Apply, OnlyBranch, Stops, AtStop;
    ghost var a, w, t := ctx.audit, ctx.waitings, ctx.clock;
    LaterSlotsRefl(w, t);
    OnlyBranchRefl(a, id);
    if AtStop(ctx.cfg, a.st, id) {
      StopPlace(ctx.cfg, a.st, id);
    }
    if ctx.scopes[0].branches[id].done {
      return true;
    }
    var step := 0;
    while step < MAX_BRANCH_STEPS
      invariant ctx.Tracked() && Ready(ctx.audit) && OnlyBranch(a, ctx.audit, id) && old(ctx.log) <= ctx.log
      invariant LaterSlots(w, ctx.waitings, t)
      invariant step <= MAX_BRANCH_STEPS && |ctx.log| >= |old(ctx.log)| + step
      invariant BranchOpen(ctx.audit.st, id) && !BranchAt(ctx, id).done
      invariant if step == 0 then ctx.audit == a else !AtStop(ctx.cfg, a.st, id)
      invariant ctx.processedEvents == old(ctx.processedEvents) && ctx.clock >= old(ctx.clock)
    {
      ghost var c, v, u := ctx.audit, ctx.waitings, ctx.clock;
      var stop := AdvanceOnce(ctx, id);
      OnlyBranchTrans(a, c, ctx.audit, id);
      LaterSlotsTrans(w, v, ctx.waitings, t, u);
      OnlyBranchOpen(a, ctx.audit, id);
      if stop {
        return true;
      }
      step := step + 1;
    }
    rested := false;
  }

  lemma OnlyBranchRefl(a: Audit, id: BranchId)
    requires BranchOpen(a.st, id) && Ready(a)
    ensures OnlyBranch(a, a, id)
  {
  }

  lemma OnlyBranchOpen(a: Audit, b: Audit, id: BranchId)
    requires OnlyBranch(a, b, id)
    ensures BranchOpen(b.st, id)
  {
  }
}
