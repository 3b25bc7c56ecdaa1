/**
 The time contract (dsl/temporal.go): which waiting slot is due next, and what a
 wake-up does to the instance or the branch that owns the slot.
 */
module Temporal {
  import opened Definition
  import opened Journal
  import opened Protocol
  import opened Runs
  import opened Frames
  import opened Context
  import opened Contract
  import opened Effects
  import opened Executor
  import opened Branches
  import opened Feeding
  import opened Engine
  import Alarms
  import Forking
  import Lexical

  type Table = map<Slot, WaitingState>

  // -------------------------------------------------------------- what is due

  /** The table key of a slot as the program spells it. */
  function SlotName(slot: Slot): string {
    match slot
    case Instance => "instance"
    case BranchSlot(b) => b.fork + ".b" + Lexical.Digits(b.index)
    case ScopeSlot(f) => "scope:" + f
  }

  predicate IsDue(table: Table, slot: Slot, now: int) {
    slot in table && table[slot].until.Some? && table[slot].until.value <= now
  }

  function Due(table: Table, now: int): set<Slot> {
    set slot | slot in table && IsDue(table, slot, now)
  }

  /** The order wake-ups are served in: by due time, then by name. */
  predicate Before(s: int, a: Slot, t: int, b: Slot) {
    s < t || (s == t && Lexical.Less(SlotName(a), SlotName(b)))
  }

  predicate Earlier(table: Table, a: Slot, b: Slot)
    requires a in table && table[a].until.Some? && b in table && table[b].until.Some?
  {
    Before(table[a].until.value, a, table[b].until.value, b)
  }

  lemma BeforeTransitive(s: int, a: Slot, t: int, b: Slot, u: int, c: Slot)
    requires Before(s, a, t, b) && Before(t, b, u, c)
    ensures Before(s, a, u, c)
  {
    if s == t == u {
      Lexical.Transitive(SlotName(a), SlotName(b), SlotName(c));
    }
  }

  lemma BeforeTotal(s: int, a: Slot, t: int, b: Slot)
    ensures !(Before(s, a, t, b) && Before(t, b, s, a))
    ensures SlotName(a) != SlotName(b) ==> Before(s, a, t, b) || Before(t, b, s, a)
  {
    Lexical.Trichotomy(SlotName(a), SlotName(b));
  }

  /** Distinct slots have distinct names: what using the names as map keys means. */
  ghost predicate NamesDistinct(table: Table) {
    forall a <- table, b <- table :: a != b ==> SlotName(a) != SlotName(b)
  }

  ghost predicate IsNext(table: Table, now: int, slot: Slot) {
    IsDue(table, slot, now) && forall a <- table :: IsDue(table, a, now) ==> !Earlier(table, a, slot)
  }

  /** nextDueWaiting: the scan finds the earliest due slot in any map order. */
  method NextDue(table: Table, now: int) returns (best: Option<Slot>)
    ensures best.None? <==> Due(table, now) == {}
    ensures best.Some? ==> IsNext(table, now, best.value)
  {
    best := None;
    var left := table.Keys;
    while left != {}
      invariant left <= table.Keys
      invariant best.None? ==> forall a <- table.Keys - left :: !IsDue(table, a, now)
      invariant best.Some? ==> IsDue(table, best.value, now)
      invariant best.Some? ==> forall a <- table.Keys - left :: IsDue(table, a, now) ==> !Earlier(table, a, best.value)
      decreases left
    {
      var slot :| slot in left;
      if IsDue(table, slot, now) && (best.None? || Earlier(table, slot, best.value)) {
        forall a | a in table.Keys - left && IsDue(table, a, now) ensures !Earlier(table, a, slot) {
          if best.Some? && Earlier(table, a, slot) {
            BeforeTransitive(table[a].until.value, a, table[slot].until.value, slot, table[best.value].until.value, best.value);
          }
        }
        BeforeTotal(table[slot].until.value, slot, table[slot].until.value, slot);
        best := Some(slot);
      }
      left := left - {slot};
    }
    assert best.Some? ==> best.value in Due(table, now);
    assert best.None? ==> forall a <- table :: !IsDue(table, a, now);
  }

  /** The next slot does not depend on the order of the scan. */
  lemma NextUnique(table: Table, now: int, a: Slot, b: Slot)
    requires NamesDistinct(table) && IsNext(table, now, a) && IsNext(table, now, b)
    ensures a == b
  {
    BeforeTotal(table[a].until.value, a, table[b].until.value, b);
  }

  /** NextWakeup: the least due time. */
  method NextWakeup(table: Table) returns (at: Option<int>)
    ensures at.None? <==> forall a <- table :: table[a].until.None?
    ensures at.Some? ==> exists a <- table :: table[a].until == at
    ensures at.Some? ==> forall a <- table :: table[a].until.Some? ==> at.value <= table[a].until.value
    ensures forall now: int :: (at.Some? && at.value <= now) <==> Due(table, now) != {}
  {
    at := None;
    var left := table.Keys;
    while left != {}
      invariant left <= table.Keys
      invariant at.None? ==> forall a <- table.Keys - left :: table[a].until.None?
      invariant at.Some? ==> exists a <- table :: table[a].until == at
      invariant at.Some? ==> forall a <- table.Keys - left :: table[a].until.Some? ==> at.value <= table[a].until.value
      decreases left
    {
      var slot :| slot in left;
      var w := table[slot];
      if w.until.Some? && (at.None? || w.until.value < at.value) {
        at := w.until;
      }
      left := left - {slot};
    }
    forall now: int ensures (at.Some? && at.value <= now) <==> Due(table, now) != {} {
      if at.Some? && at.value <= now {
        var a :| a in table && table[a].until == at;
        assert a in Due(table, now);
      }
      if Due(table, now) != {} {
        var a :| a in Due(table, now);
        assert IsDue(table, a, now);
      }
    }
  }

  // ------------------------------------------------------------- serving a slot

  /** A due slot is being served: it is gone from the table, the live event is dropped. */
  ghost predicate Serving(cfg: Config, a: Audit, slot: Slot, w: WaitingState) {
    && Ready(a) && Open(a) == {} && a.scars == UNSCARRED && AtRest(cfg, a.st)
    && slot !in a.st.waitings && a.event == None && a.landing == None
    && a.waking == Some((slot, w)) && a.moment.Woken? && a.moment.slot == slot && a.moment.waiting == w
    && SlotFormed(cfg.def, a.st, slot, w) && w.until.Some?
  }

  /** What one served wake-up leaves: a boundary, a longer log, later slots. */
  twostate predicate Served(rt: Runtime)
    reads rt.ctx
  {
    && rt.Idle() && old(rt.ctx.log) <= rt.ctx.log && old(rt.ctx.clock) <= rt.ctx.clock
    && LaterSlots(old(rt.ctx.waitings), rt.ctx.waitings, old(rt.ctx.clock))
    && rt.ctx.instanceID == old(rt.ctx.instanceID) && rt.ctx.executionID == old(rt.ctx.executionID)
    && rt.ctx.processedEvents == old(rt.ctx.processedEvents) && rt.ctx.currentEvent == old(rt.ctx.currentEvent)
  }

  lemma ServingBoundary(cfg: Config, a: Audit, slot: Slot, w: WaitingState)
    requires Serving(cfg, a, slot, w)
    ensures Boundary(cfg, a) && Ready(a) && Open(a) == {} && a.scars == UNSCARRED && AtRest(cfg, a.st) && TimersOwned(a.st)
  {
  }

  /** The fork is still open, not converged and not exhausted. */
  predicate Expires(scopes: seq<Scope>, fork: string) {
    |scopes| == 1 && scopes[0].fork == fork && !Satisfied(scopes[0]) && !AllDone(scopes[0])
  }

  /** The convergence timer of a fork: the instance times out unless the fork has
      converged or nothing is left to wait for. */
  method FireScope(rt: Runtime, slot: Slot, w: WaitingState)
    requires rt.ctx.Tracked() && Serving(rt.ctx.cfg, rt.ctx.audit, slot, w) && slot.ScopeSlot?
    modifies rt.ctx
    ensures Served(rt)
    ensures rt.ctx.audit.st == old(rt.ctx.audit.st).(status :=
      if Expires(old(rt.ctx.scopes), w.node) then TimedOut else old(rt.ctx.status))
  {
    hide Reach, Legal, Advance, Apply, AtRest, Went, Boundary, Satisfied, TimersOwned;
    ghost var m := MarkOf(rt.ctx);
    WentRefl(m);
    ServingBoundary(rt.ctx.cfg, rt.ctx.audit, slot, w);
    OneScope(rt.ctx);
    WentToRest(rt.ctx.cfg, m, m);
    if rt.ctx.scopes == [] || rt.ctx.scopes[0].fork != w.node {
      return;
    }
    var satisfied := Forking.IsSatisfied(rt.ctx.scopes[0]);
    var done := Forking.CountDone(rt.ctx.scopes[0]);
    if satisfied || done == |rt.ctx.scopes[0].branches| {
      return;
    }
    rt.TimeOut();
    WentToRest(rt.ctx.cfg, m, MarkOf(rt.ctx));
  }

  lemma OneScope(ctx: ExecutionContext)
    requires ctx.Tracked()
    ensures |ctx.scopes| <= 1
  {
    ctx.ScopesKnown();
  }

  // --------------------------------------------------------------- deadlines

  lemma ServingKept(cfg: Config, a: Audit, b: Audit, slot: Slot, w: WaitingState)
    requires Serving(cfg, a, slot, w) && OnlyVariables(a, b)
    ensures Serving(cfg, b, slot, w)
  {
  }

  /** The data contract of the node whose deadline passed. */
  method LeaveOnDeadline(rt: Runtime, slot: Slot, w: WaitingState) returns (ok: bool)
    requires rt.ctx.Tracked() && Serving(rt.ctx.cfg, rt.ctx.audit, slot, w)
    requires rt.ctx.audit.moment.vars == rt.ctx.variables
    modifies rt.ctx
    ensures rt.ctx.Tracked() && Serving(rt.ctx.cfg, rt.ctx.audit, slot, w) && Went(old(MarkOf(rt.ctx)), MarkOf(rt.ctx))
    ensures rt.ctx.scopes == old(rt.ctx.scopes) && rt.ctx.currentNode == old(rt.ctx.currentNode) && old(rt.ctx.log) <= rt.ctx.log
    ensures ok ==> OutputsHold(rt.ctx.cfg, rt.ctx.cfg.def.nodes[w.node], rt.ctx.cfg.def.nodes[w.node].output.Keys, rt.ctx.variables)
    ensures !ok ==> FailLegal(rt.ctx.cfg, rt.ctx.audit)
    ensures Leavable(rt.ctx.cfg, w, old(rt.ctx.variables)) ==> ok
    ensures Unleavable(rt.ctx.cfg, w, old(rt.ctx.variables)) ==> !ok
  {
    hide Reach, Legal, Advance, Apply, AtRest, OutputsHold, OutputWrites, OutputBlocked, Serving, Went, LaterSlots, OnlyVariables, FailLegal, AlwaysWrites, NeverWrites;
    ghost var m := MarkOf(rt.ctx);
    ServingNode(rt.ctx.cfg, rt.ctx.audit, slot, w);
    WentByVariables(m, m);
    var node := rt.ctx.cfg.def.nodes[w.node];
    var view := EnterNode(rt.ctx.cfg, node, rt.ctx.variables);
    if view.None? {
      DeadlineFails(rt.ctx.cfg, rt.ctx.audit, slot, w);
      return false;
    }
    ok := LeaveNode(rt.ctx, node, view.value);
    ServingKept(rt.ctx.cfg, m.audit, rt.ctx.audit, slot, w);
    WentByVariables(m, MarkOf(rt.ctx));
    SameMoment(m.audit, rt.ctx.audit);
    if !ok {
      DeadlineFails(rt.ctx.cfg, rt.ctx.audit, slot, w);
    }
  }

  lemma SameMoment(a: Audit, b: Audit)
    requires OnlyVariables(a, b)
    ensures b.moment == a.moment && b.st.scopes == a.st.scopes && b.st.node == a.st.node
  {
  }

  lemma DeadlineFails(cfg: Config, a: Audit, slot: Slot, w: WaitingState)
    requires Serving(cfg, a, slot, w)
    requires w.next !in cfg.def.nodes || ContractFails(cfg, cfg.def.nodes[w.node], a.moment.vars, a.st.vars)
    ensures FailLegal(cfg, a)
  {
  }

  lemma WentByVariables(m: Mark, n: Mark)
    requires OnlyVariables(m.audit, n.audit) || (m == n && Ready(m.audit))
    requires m.log <= n.log && m.clock == n.clock && n.processed == m.processed
    requires m.waitings == m.audit.st.waitings && n.waitings == n.audit.st.waitings
    ensures Went(m, n)
  {
    LaterSlotsRefl(m.waitings, m.clock);
  }

  lemma ServingNode(cfg: Config, a: Audit, slot: Slot, w: WaitingState)
    requires Serving(cfg, a, slot, w)
    ensures w.node in cfg.def.nodes && Ready(a) && Open(a) == {} && a.scars == UNSCARRED && TimersOwned(a.st)
    ensures a.moment.Woken? && a.moment.slot == slot && a.moment.waiting == w && a.waking == Some((slot, w)) && a.event == None && a.landing == None
    ensures slot == Instance ==> a.st.scopes == [] && a.st.node == w.node && Linear(a.st)
    ensures !slot.ScopeSlot? ==> ParkedAt(cfg.def.nodes[w.node], w)
  {
  }

  /** The deadline's node can be left: its inputs evaluate, its outputs can be written in any
      order. */
  ghost predicate Leavable(cfg: Config, w: WaitingState, vars: Env) {
    && w.node in cfg.def.nodes
    && var node := cfg.def.nodes[w.node];
       EnterEnv(cfg, node, vars).Some? && AlwaysWrites(cfg, node, EnterEnv(cfg, node, vars).value, vars)
  }

  /** It cannot: an input does not evaluate, or an output can never be written. */
  ghost predicate Unleavable(cfg: Config, w: WaitingState, vars: Env) {
    && w.node in cfg.def.nodes
    && var node := cfg.def.nodes[w.node];
       || EnterEnv(cfg, node, vars).None?
       || NeverWrites(cfg, node, EnterEnv(cfg, node, vars).value, vars)
  }

  /** One of the two, unless one order of the outputs works and another does not; with inputs,
      or with a single output, that cannot be. */
  lemma LeavingDecided(cfg: Config, w: WaitingState, vars: Env)
    requires w.node in cfg.def.nodes
    ensures
      var node := cfg.def.nodes[w.node];
      && !(Leavable(cfg, w, vars) && Unleavable(cfg, w, vars))
      && (Leavable(cfg, w, vars) || Unleavable(cfg, w, vars) <==>
            !(EnterEnv(cfg, node, vars).Some? && OrderMatters(cfg, node, EnterEnv(cfg, node, vars).value, vars)))
      && (node.input != map[] || |node.output| <= 1 ==> Leavable(cfg, w, vars) || Unleavable(cfg, w, vars))
  {
    hide AlwaysWrites, NeverWrites, OrderMatters;
    var node := cfg.def.nodes[w.node];
    if EnterEnv(cfg, node, vars).Some? {
      OrdersDecide(cfg, node, EnterEnv(cfg, node, vars).value, vars);
      if node.input != map[] || |node.output| <= 1 {
        WritesDecided(cfg, node, EnterEnv(cfg, node, vars).value, vars);
      }
    }
  }

  /** A deadline fails the instance when it names no node or its own node cannot be left, and
      moves its owner to the declared target when it can. */
  ghost predicate DeadlineFired(cfg: Config, m: Mark, n: Mark, slot: Slot, w: WaitingState) {
    && (n.audit.st.status == Failed || Escalated(m.audit.st.scopes, m.log, n.log, slot, w))
    && (w.next in cfg.def.nodes && Leavable(cfg, w, m.audit.st.vars) ==>
          && Escalated(m.audit.st.scopes, m.log, n.log, slot, w)
          && (OwnsBranch(m.audit.st.scopes, slot) ==> SettledOver(cfg, m, n, slot.branch)))
    && (w.next !in cfg.def.nodes || Unleavable(cfg, w, m.audit.st.vars) ==>
          n.audit.st.status == Failed && n.audit.st.node == m.audit.st.node && n.audit.st.scopes == m.audit.st.scopes)
  }

  /** The record of the move a deadline makes of its owner. */
  ghost predicate Escalates(o: Occ, slot: Slot, w: WaitingState) {
    if slot == Instance then o == Transitioned(w.node, w.next, "deadline")
    else
      && o.BranchUpdated? && slot == BranchSlot(o.branch.id)
      && o.branch.currentNode == w.next && o.branch.actor == Some(SYSTEM_PRINCIPAL)
  }

  ghost predicate Escalated(scopes: seq<Scope>, before: seq<Occ>, log: seq<Occ>, slot: Slot, w: WaitingState) {
    slot == Instance || OwnsBranch(scopes, slot) ==>
      exists i | |before| <= i < |log| :: Escalates(log[i], slot, w)
  }

  /** A deadline moves its owner to the declared target, or fails the instance. */
  method FireDeadline(rt: Runtime, slot: Slot, w: WaitingState) returns (moved: bool)
    requires rt.ctx.Tracked() && Serving(rt.ctx.cfg, rt.ctx.audit, slot, w) && w.kind in {DeadlineWait, AiWait}
    requires rt.ctx.audit.moment.vars == rt.ctx.variables
    modifies rt.ctx
    ensures Served(rt)
    ensures !moved ==> rt.ctx.status == Failed && rt.ctx.scopes == old(rt.ctx.scopes) && rt.ctx.currentNode == old(rt.ctx.currentNode)
    ensures w.next !in rt.ctx.cfg.def.nodes ==> !moved
    ensures moved ==> Escalated(old(rt.ctx.scopes), old(rt.ctx.log), rt.ctx.log, slot, w)
    ensures DeadlineFired(rt.ctx.cfg, old(MarkOf(rt.ctx)), MarkOf(rt.ctx), slot, w)
  {
    hide Reach, Legal, Advance, Apply, AtRest, Went, Boundary, Serving, OutputsHold, LaterSlots, FailLegal, Escalated, Leavable, Unleavable, SettledOver;
    ghost var m := MarkOf(rt.ctx);
    ServingNode(rt.ctx.cfg, rt.ctx.audit, slot, w);
    moved := false;
    if w.next == "" || w.next !in rt.ctx.cfg.def.nodes {
      DeadlineFails(rt.ctx.cfg, rt.ctx.audit, slot, w);
      rt.FailBare();
      WentToRest(rt.ctx.cfg, m, MarkOf(rt.ctx));
      return;
    }
    moved := LeaveOnDeadline(rt, slot, w);
    ghost var n := MarkOf(rt.ctx);
    ServingNode(rt.ctx.cfg, rt.ctx.audit, slot, w);
    if moved {
      EscalateOwner(rt, slot, w);
      EscalatedSooner(n.audit.st.scopes, m.log, n.log, rt.ctx.log, slot, w);
      if OwnsBranch(m.audit.st.scopes, slot) {
        SettledOverSooner(rt.ctx.cfg, m, n, MarkOf(rt.ctx), slot.branch);
      }
    } else {
      rt.FailBare();
    }
    WentTrans(m, n, MarkOf(rt.ctx));
    WentToRest(rt.ctx.cfg, m, MarkOf(rt.ctx));
  }

  method EscalateOwner(rt: Runtime, slot: Slot, w: WaitingState)
    requires rt.ctx.Tracked() && Serving(rt.ctx.cfg, rt.ctx.audit, slot, w) && w.next in rt.ctx.cfg.def.nodes
    modifies rt.ctx
    ensures rt.ctx.Tracked() && Ready(rt.ctx.audit) && Went(old(MarkOf(rt.ctx)), MarkOf(rt.ctx))
    ensures AtRest(rt.ctx.cfg, rt.ctx.audit.st)
    ensures Escalated(old(rt.ctx.scopes), old(rt.ctx.log), rt.ctx.log, slot, w)
    ensures OwnsBranch(old(rt.ctx.scopes), slot) ==> SettledOver(rt.ctx.cfg, old(MarkOf(rt.ctx)), MarkOf(rt.ctx), slot.branch)
  {
    hide Reach, Legal, Advance, Apply, AtRest, Went, Serving, Finished, SettledOver;
    if slot == Instance {
      Escalate(rt, w);
      assert Escalates(rt.ctx.log[|old(rt.ctx.log)| + 1], slot, w);
    } else {
      EscalateBranch(rt, slot, w);
      if OwnsBranch(old(rt.ctx.scopes), slot) {
        assert Escalates(rt.ctx.log[|old(rt.ctx.log)|], slot, w);
      }
    }
  }

  lemma EscalatedSooner(scopes: seq<Scope>, before: seq<Occ>, since: seq<Occ>, log: seq<Occ>, slot: Slot, w: WaitingState)
    requires Escalated(scopes, since, log, slot, w) && before <= since
    ensures Escalated(scopes, before, log, slot, w)
  {
  }

  /** The instance moves on: it parks at a waiting target, else it drains. */
  method Escalate(rt: Runtime, w: WaitingState)
    requires rt.ctx.Tracked() && Serving(rt.ctx.cfg, rt.ctx.audit, Instance, w) && w.next in rt.ctx.cfg.def.nodes
    modifies rt.ctx
    ensures rt.ctx.Tracked() && Ready(rt.ctx.audit) && Went(old(MarkOf(rt.ctx)), MarkOf(rt.ctx))
    ensures AtRest(rt.ctx.cfg, rt.ctx.audit.st)
    ensures WaitsAt(rt.ctx.cfg.def, w.next) ==> rt.ctx.status == Waiting && rt.ctx.currentNode == w.next
    ensures old(rt.ctx.log) + [StatusSet(Running), Transitioned(w.node, w.next, "deadline")] <= rt.ctx.log
    ensures Finished(rt.ctx.cfg, old(MarkOf(rt.ctx)), MarkOf(rt.ctx))
  {
    hide Reach, Legal, Advance, Apply, AtRest, Went, Serving, Poised, Linear, Finished;
    ghost var m := MarkOf(rt.ctx);
    ServingNode(rt.ctx.cfg, rt.ctx.audit, Instance, w);
    TakeDeadline(rt, w);
    ghost var n := MarkOf(rt.ctx);
    if IsWaitingNode(rt.ctx.cfg.def.nodes[w.next]) {
      rt.ParkHere();
    } else {
      rt.NotGated(rt.ctx.cfg, rt.ctx.audit);
      rt.Drain();
    }
    WentFacts(n, MarkOf(rt.ctx));
    FinishedSince(rt.ctx.cfg, m, n, MarkOf(rt.ctx));
    WentTrans(m, n, MarkOf(rt.ctx));
  }

  method TakeDeadline(rt: Runtime, w: WaitingState)
    requires rt.ctx.Tracked() && Serving(rt.ctx.cfg, rt.ctx.audit, Instance, w) && w.next in rt.ctx.cfg.def.nodes
    modifies rt.ctx
    ensures rt.ctx.Tracked() && Ready(rt.ctx.audit) && Went(old(MarkOf(rt.ctx)), MarkOf(rt.ctx))
    ensures Linear(rt.ctx.audit.st) && rt.ctx.currentNode == w.next && rt.ctx.audit.landing == None
    ensures rt.ctx.log == old(rt.ctx.log) + [StatusSet(Running), Transitioned(w.node, w.next, "deadline")]
  {
    hide Reach, Legal, Advance, Apply, AtRest, Serving;
    ServingNode(rt.ctx.cfg, rt.ctx.audit, Instance, w);
    LaterSlotsRefl(rt.ctx.waitings, rt.ctx.clock);
    AssignTransition(rt.ctx, w.node, w.next, "deadline");
  }

  /** The branch moves on by the engine's own decision; a stale slot does nothing. */
  method EscalateBranch(rt: Runtime, slot: Slot, w: WaitingState)
    requires rt.ctx.Tracked() && Serving(rt.ctx.cfg, rt.ctx.audit, slot, w) && slot != Instance
    requires w.next in rt.ctx.cfg.def.nodes
    modifies rt.ctx
    ensures rt.ctx.Tracked() && Ready(rt.ctx.audit) && Went(old(MarkOf(rt.ctx)), MarkOf(rt.ctx))
    ensures AtRest(rt.ctx.cfg, rt.ctx.audit.st)
    ensures !OwnsBranch(old(rt.ctx.scopes), slot) ==> rt.ctx.audit == old(rt.ctx.audit) && rt.ctx.log == old(rt.ctx.log)
    ensures OwnsBranch(old(rt.ctx.scopes), slot) ==>
      var s := old(rt.ctx.scopes[0]);
      s.branches[slot.branch].id == slot.branch &&
      old(rt.ctx.log) + [BranchUpdated(s.fork, s.branches[slot.branch].(actor := Some(SYSTEM_PRINCIPAL), currentNode := w.next))] <= rt.ctx.log
    ensures OwnsBranch(old(rt.ctx.scopes), slot) ==> SettledOver(rt.ctx.cfg, old(MarkOf(rt.ctx)), MarkOf(rt.ctx), slot.branch)
  {
    hide Reach, Legal, Advance, Apply, AtRest, Went, Serving, InFork, Settles, ScopeMoved;
    ghost var m := MarkOf(rt.ctx);
    ServingBoundary(rt.ctx.cfg, rt.ctx.audit, slot, w);
    WentRefl(m);
    OneScope(rt.ctx);
    if OwnsBranch(rt.ctx.scopes, slot) {
      MoveByDeadline(rt, slot.branch, w);
      ghost var n := MarkOf(rt.ctx);
      rt.SettleScope();
      WentFacts(n, MarkOf(rt.ctx));
      WentFacts(m, n);
      rt.ForkFacts(n.audit.st);
      assert SettlesOver(rt.ctx.cfg, m, n, MarkOf(rt.ctx), slot.branch);
      WentTrans(m, n, MarkOf(rt.ctx));
    }
  }

  predicate OwnsBranch(scopes: seq<Scope>, slot: Slot) {
    |scopes| == 1 && slot.BranchSlot? && slot.branch in scopes[0].branches
  }

  method MoveByDeadline(rt: Runtime, id: BranchId, w: WaitingState)
    requires rt.ctx.Tracked() && Serving(rt.ctx.cfg, rt.ctx.audit, BranchSlot(id), w)
    requires w.next in rt.ctx.cfg.def.nodes
    requires OwnsBranch(rt.ctx.scopes, BranchSlot(id))
    modifies rt.ctx
    ensures rt.ctx.Tracked() && Ready(rt.ctx.audit) && Went(old(MarkOf(rt.ctx)), MarkOf(rt.ctx))
    ensures InFork(rt.ctx.audit.st)
    ensures ScopeMoved(old(rt.ctx.scopes[0]), rt.ctx.scopes[0], id) && rt.ctx.audit.event == None
    ensures
      var s := old(rt.ctx.scopes[0]);
      s.branches[id].id == id &&
      old(rt.ctx.log) + [BranchUpdated(s.fork, s.branches[id].(actor := Some(SYSTEM_PRINCIPAL), currentNode := w.next))] <= rt.ctx.log
  {
    hide Reach, Legal, Advance, Apply, AtRest, Went, Serving, OnlyBranch;
    ghost var m := MarkOf(rt.ctx);
    ServingNode(rt.ctx.cfg, rt.ctx.audit, BranchSlot(id), w);
    rt.ctx.ScopesKnown();
    ArrivedHasJoin(rt.ctx.cfg, rt.ctx.audit.st, id);
    var b := rt.ctx.scopes[0].branches[id].(actor := Some(SYSTEM_PRINCIPAL));
    MoveBranch(rt.ctx, b, w.next);
    WentByBranch(m, MarkOf(rt.ctx), id);
    rt.StaysInFork(m.audit, rt.ctx.audit, id);
    ghost var n := MarkOf(rt.ctx);
    var rested := rt.AdvanceMember(id);
    OnlyBranchTrans(m.audit, n.audit, rt.ctx.audit, id);
    MovedAlone(m.audit, rt.ctx.audit, id);
    WentTrans(m, n, MarkOf(rt.ctx));
  }

  // ------------------------------------------------------------------ timers

  /** The instance was driven on from its timer node; a branch recorded its move or
      failure. */
  ghost predicate TimerFired(cfg: Config, m: Mark, n: Mark, slot: Slot) {
    && (slot == Instance ==> Driven(cfg, m, n))
    && (OwnsBranch(m.audit.st.scopes, slot) ==> Reacted(m.log, n.log, slot.branch) && SettledOver(cfg, m, n, slot.branch))
  }

  /** A timer re-enters its node, which routes by its conditions; events play no part. */
  method FireTimer(rt: Runtime, slot: Slot, w: WaitingState)
    requires rt.ctx.Tracked() && Serving(rt.ctx.cfg, rt.ctx.audit, slot, w) && w.kind == TimerWait
    modifies rt.ctx
    ensures Served(rt)
    ensures TimerFired(rt.ctx.cfg, old(MarkOf(rt.ctx)), MarkOf(rt.ctx), slot)
  {
    hide Reach, Legal, Advance, Apply, AtRest, Went, Boundary, Serving, LaterSlots, Driven, Reacted, SettledOver;
    ghost var m := MarkOf(rt.ctx);
    ServingNode(rt.ctx.cfg, rt.ctx.audit, slot, w);
    if slot == Instance {
      Reenter(rt, w);
    } else {
      FireBranchTimer(rt, slot, w);
    }
    WentToRest(rt.ctx.cfg, m, MarkOf(rt.ctx));
  }

  /** The unlogged jump back to the timer node changes nothing: the instance slot names
      the current node. */
  method Reenter(rt: Runtime, w: WaitingState)
    requires rt.ctx.Tracked() && Serving(rt.ctx.cfg, rt.ctx.audit, Instance, w) && w.kind == TimerWait
    modifies rt.ctx
    ensures rt.ctx.Tracked() && Ready(rt.ctx.audit) && Went(old(MarkOf(rt.ctx)), MarkOf(rt.ctx))
    ensures AtRest(rt.ctx.cfg, rt.ctx.audit.st) && Driven(rt.ctx.cfg, old(MarkOf(rt.ctx)), MarkOf(rt.ctx))
  {
    hide Reach, Legal, Advance, Apply, AtRest, Went, Serving, Poised, LaterSlots, Finished, Performed, CommandsAt;
    ghost var m := MarkOf(rt.ctx);
    ServingNode(rt.ctx.cfg, rt.ctx.audit, Instance, w);
    rt.ctx.currentNode := w.node;
    assert rt.ctx.Tracked() && MarkOf(rt.ctx) == m;
    rt.EnterStatus(Running);
    ghost var n := MarkOf(rt.ctx);
    TimerUngated(rt.ctx.cfg, rt.ctx.audit, w);
    rt.Drain();
    WentFacts(m, n);
    rt.DrivenSooner(rt.ctx.cfg, m, n, MarkOf(rt.ctx));
    WentTrans(m, n, MarkOf(rt.ctx));
  }

  lemma TimerUngated(cfg: Config, a: Audit, w: WaitingState)
    requires a.landing == None && a.st.node == w.node && w.node in cfg.def.nodes && ParkedAt(cfg.def.nodes[w.node], w) && w.kind == TimerWait
    ensures Poised(cfg, a, a.st.node)
  {
  }

  method FireBranchTimer(rt: Runtime, slot: Slot, w: WaitingState)
    requires rt.ctx.Tracked() && Serving(rt.ctx.cfg, rt.ctx.audit, slot, w) && slot != Instance && w.kind == TimerWait
    modifies rt.ctx
    ensures rt.ctx.Tracked() && Ready(rt.ctx.audit) && Went(old(MarkOf(rt.ctx)), MarkOf(rt.ctx))
    ensures AtRest(rt.ctx.cfg, rt.ctx.audit.st)
    ensures !OwnsBranch(old(rt.ctx.scopes), slot) ==> rt.ctx.audit == old(rt.ctx.audit) && rt.ctx.log == old(rt.ctx.log)
    ensures OwnsBranch(old(rt.ctx.scopes), slot) ==>
      Reacted(old(rt.ctx.log), rt.ctx.log, slot.branch) && SettledOver(rt.ctx.cfg, old(MarkOf(rt.ctx)), MarkOf(rt.ctx), slot.branch)
  {
    hide Reach, Legal, Advance, Apply, AtRest, Went, Serving, InFork, Reacted, Settles, ScopeMoved;
    ghost var m := MarkOf(rt.ctx);
    ServingBoundary(rt.ctx.cfg, rt.ctx.audit, slot, w);
    WentRefl(m);
    OneScope(rt.ctx);
    if OwnsBranch(rt.ctx.scopes, slot) {
      MoveByTimer(rt, slot.branch, w);
      ghost var n := MarkOf(rt.ctx);
      rt.SettleScope();
      WentFacts(n, MarkOf(rt.ctx));
      WentFacts(m, n);
      rt.ForkFacts(n.audit.st);
      ReactedStill(m.log, m.log, n.log, rt.ctx.log, slot.branch);
      assert SettlesOver(rt.ctx.cfg, m, n, MarkOf(rt.ctx), slot.branch);
      WentTrans(m, n, MarkOf(rt.ctx));
    }
  }

  method MoveByTimer(rt: Runtime, id: BranchId, w: WaitingState)
    requires rt.ctx.Tracked() && Serving(rt.ctx.cfg, rt.ctx.audit, BranchSlot(id), w) && w.kind == TimerWait
    requires OwnsBranch(rt.ctx.scopes, BranchSlot(id))
    modifies rt.ctx
    ensures rt.ctx.Tracked() && Ready(rt.ctx.audit) && Went(old(MarkOf(rt.ctx)), MarkOf(rt.ctx))
    ensures InFork(rt.ctx.audit.st) && Reacted(old(rt.ctx.log), rt.ctx.log, id)
    ensures ScopeMoved(old(rt.ctx.scopes[0]), rt.ctx.scopes[0], id) && rt.ctx.audit.event == None
  {
    hide Reach, Legal, Advance, Apply, AtRest, Went, Serving, OnlyBranch, Reacted;
    ghost var m := MarkOf(rt.ctx);
    ServingNode(rt.ctx.cfg, rt.ctx.audit, BranchSlot(id), w);
    rt.ctx.ScopesKnown();
    ArrivedHasJoin(rt.ctx.cfg, rt.ctx.audit.st, id);
    AdvanceTimerBranch(rt.ctx, id, rt.ctx.cfg.def.nodes[w.node]);
    WentByBranch(m, MarkOf(rt.ctx), id);
    MovedAlone(m.audit, rt.ctx.audit, id);
    rt.StaysInFork(m.audit, rt.ctx.audit, id);
  }

  lemma MovedAlone(a: Audit, b: Audit, id: BranchId)
    requires OnlyBranch(a, b, id)
    ensures ScopeMoved(a.st.scopes[0], b.st.scopes[0], id) && b.event == a.event
  {
  }

  // ----------------------------------------------------------------- wake-ups

  /** What serving a slot came to, by its kind. */
  ghost predicate Fired(cfg: Config, m: Mark, n: Mark, slot: Slot, w: WaitingState) {
    match w.kind
    case ScopeWait =>
      && n.audit.st.status == (if Expires(m.audit.st.scopes, w.node) then TimedOut else m.audit.st.status)
      && n.audit.st == m.audit.st.(status := n.audit.st.status, waitings := n.audit.st.waitings,
           event := n.audit.st.event, keys := n.audit.st.keys)
    case TimerWait => TimerFired(cfg, m, n, slot)
    case _ => DeadlineFired(cfg, m, n, slot, w)
  }

  /** fireWaiting, after the slot is cleared: by the kind of the slot. */
  method FireWaiting(rt: Runtime, slot: Slot, w: WaitingState)
    requires rt.ctx.Tracked() && Serving(rt.ctx.cfg, rt.ctx.audit, slot, w)
    requires rt.ctx.audit.moment.vars == rt.ctx.variables
    modifies rt.ctx
    ensures Served(rt) && Fired(rt.ctx.cfg, old(MarkOf(rt.ctx)), MarkOf(rt.ctx), slot, w)
  {
    hide Reach, Legal, Advance, Apply, AtRest, Boundary, LaterSlots, TimerFired, DeadlineFired, Satisfied;
    if w.kind == ScopeWait {
      FireScope(rt, slot, w);
    } else if w.kind == DeadlineWait || w.kind == AiWait {
      var moved := FireDeadline(rt, slot, w);
    } else {
      FireTimer(rt, slot, w);
    }
  }

  lemma FiredSooner(rt: Runtime, cfg: Config, m: Mark, n: Mark, o: Mark, slot: Slot, w: WaitingState)
    requires Fired(cfg, n, o, slot, w) && m.log <= n.log && m.audit.moves == n.audit.moves
    requires n.audit.st == m.audit.st.(keys := n.audit.st.keys, event := n.audit.st.event, waitings := n.audit.st.waitings)
    requires slot == Instance ==> n.audit.st.waitings - {Instance} == m.audit.st.waitings - {Instance}
    ensures Fired(cfg, m, o, slot, w)
  {
    hide Driven, Reacted, Escalated, Satisfied, Leavable, Unleavable, SettledOver;
    if w.kind == TimerWait && slot == Instance {
      rt.DrivenSooner(cfg, m, n, o);
    }
    if w.kind == TimerWait && OwnsBranch(m.audit.st.scopes, slot) {
      ReactedStill(m.log, n.log, o.log, o.log, slot.branch);
    }
    if OwnsBranch(m.audit.st.scopes, slot) && SettledOver(cfg, n, o, slot.branch) {
      SettledOverSooner(cfg, m, n, o, slot.branch);
    }
    if w.kind in {DeadlineWait, AiWait} && Escalated(n.audit.st.scopes, n.log, o.log, slot, w) {
      EscalatedSooner(n.audit.st.scopes, m.log, n.log, o.log, slot, w);
    }
  }

  /** The slot is removed, the live event dropped, the wake-up recorded. */
  method BeginWake(rt: Runtime, slot: Slot)
    requires rt.Idle() && slot in rt.ctx.waitings && rt.ctx.waitings[slot].until.Some?
    requires Wake(slot, rt.ctx.waitings[slot].kind, rt.ctx.waitings[slot].visit) in rt.ctx.audit.st.keys
    modifies rt.ctx
    ensures rt.ctx.Tracked() && Serving(rt.ctx.cfg, rt.ctx.audit, slot, old(rt.ctx.waitings[slot]))
    ensures rt.ctx.audit.moment.vars == rt.ctx.variables
    ensures rt.ctx.waitings == old(rt.ctx.waitings) - {slot} && rt.ctx.clock == old(rt.ctx.clock)
    ensures rt.ctx.log == old(rt.ctx.log) + [WaitingCleared(slot), Woke(slot)]
    ensures rt.ctx.audit.st == old(rt.ctx.audit.st).(event := None, waitings := rt.ctx.waitings)
    ensures rt.ctx.audit.moves == old(rt.ctx.audit.moves)
    ensures rt.ctx.processedEvents == old(rt.ctx.processedEvents) && rt.ctx.currentEvent == None
    ensures rt.ctx.instanceID == old(rt.ctx.instanceID) && rt.ctx.executionID == old(rt.ctx.executionID)
  {
    hide Reach, Legal, Advance, Apply, SlotFormed;
    ghost var a := rt.ctx.audit;
    rt.ctx.SlotsKnown();
    rt.ctx.ClearWaiting(slot);
    rt.ctx.RecordWoke(slot);
    BegunServing(rt.ctx.cfg, a, rt.ctx.audit, slot);
  }

  lemma BegunServing(cfg: Config, a: Audit, b: Audit, slot: Slot)
    requires Boundary(cfg, a) && SlotsFormed(cfg.def, a.st) && slot in a.st.waitings && a.st.waitings[slot].until.Some?
    requires SameBook(a, b) && b.event == None && b.landing == None && b.waking == Some((slot, a.st.waitings[slot]))
    requires b.moment == Woken(slot, a.st.waitings[slot], a.st.vars)
    requires b.st == a.st.(waitings := a.st.waitings - {slot}, event := None)
    ensures Serving(cfg, b, slot, a.st.waitings[slot])
  {
  }

  /** One round: a wake-up already consumed only clears its slot, else the slot fires. */
  method WakeOne(rt: Runtime, slot: Slot)
    requires rt.Idle() && slot in rt.ctx.waitings && rt.ctx.waitings[slot].until.Some?
    modifies rt.ctx
    ensures rt.Idle() && old(rt.ctx.log) <= rt.ctx.log && old(rt.ctx.clock) <= rt.ctx.clock
    ensures LaterSlots(old(rt.ctx.waitings) - {slot}, rt.ctx.waitings, old(rt.ctx.clock))
    ensures old(|rt.ctx.processedEvents|) <= MAX_EVENTS ==> |rt.ctx.processedEvents| <= MAX_EVENTS
    ensures rt.ctx.currentEvent in {None, old(rt.ctx.currentEvent)}
    ensures rt.ctx.instanceID == old(rt.ctx.instanceID) && rt.ctx.executionID == old(rt.ctx.executionID)
    ensures old(Wake(slot, rt.ctx.waitings[slot].kind, rt.ctx.waitings[slot].visit) in rt.ctx.processedEvents) ==>
      && rt.ctx.Live() == old(rt.ctx.Live()).(waitings := old(rt.ctx.waitings) - {slot})
      && rt.ctx.log == old(rt.ctx.log) + [WaitingCleared(slot)]
    ensures old(Wake(slot, rt.ctx.waitings[slot].kind, rt.ctx.waitings[slot].visit) !in rt.ctx.processedEvents) ==>
      && |rt.ctx.log| >= |old(rt.ctx.log)| + 3
      && rt.ctx.log[|old(rt.ctx.log)| + 1] == WaitingCleared(slot) && rt.ctx.log[|old(rt.ctx.log)| + 2] == Woke(slot)
      && Fired(rt.ctx.cfg, old(MarkOf(rt.ctx)), MarkOf(rt.ctx), slot, old(rt.ctx.waitings[slot]))
      && rt.ctx.currentEvent == None
      && Wake(slot, old(rt.ctx.waitings[slot].kind), old(rt.ctx.waitings[slot].visit)) in rt.ctx.processedEvents
  {
    hide Reach, Legal, Advance, Apply, AtRest, Boundary, LaterSlots, Serving, Fired;
    ghost var w, t := rt.ctx.waitings, rt.ctx.clock;
    ghost var m, a := MarkOf(rt.ctx), rt.ctx.audit;
    BoundaryOwed(rt.ctx.cfg, a);
    LaterSlotsRefl(w - {slot}, t);
    var waiting := rt.ctx.waitings[slot];
    var first, o := rt.ctx.TryConsumeWake(Wake(slot, waiting.kind, waiting.visit));
    if !first {
      rt.ctx.ClearWaiting(slot);
      BoundaryKept(rt.ctx.cfg, a, rt.ctx.audit, slot);
      return;
    }
    BoundaryKept(rt.ctx.cfg, a, rt.ctx.audit, slot);
    ghost var n, u := MarkOf(rt.ctx), rt.ctx.clock;
    ServeSlot(rt, slot);
    FiredSooner(rt, rt.ctx.cfg, m, n, MarkOf(rt.ctx), slot, waiting);
    LaterSlotsSooner(w - {slot}, rt.ctx.waitings, t, u);
  }

  /** A wake-up consumed for the first time. */
  method ServeSlot(rt: Runtime, slot: Slot)
    requires rt.Idle() && slot in rt.ctx.waitings && rt.ctx.waitings[slot].until.Some?
    requires Wake(slot, rt.ctx.waitings[slot].kind, rt.ctx.waitings[slot].visit) in rt.ctx.audit.st.keys
    modifies rt.ctx
    ensures rt.Idle() && old(rt.ctx.log) + [WaitingCleared(slot), Woke(slot)] <= rt.ctx.log && old(rt.ctx.clock) <= rt.ctx.clock
    ensures LaterSlots(old(rt.ctx.waitings) - {slot}, rt.ctx.waitings, old(rt.ctx.clock))
    ensures rt.ctx.instanceID == old(rt.ctx.instanceID) && rt.ctx.executionID == old(rt.ctx.executionID)
    ensures Fired(rt.ctx.cfg, old(MarkOf(rt.ctx)), MarkOf(rt.ctx), slot, old(rt.ctx.waitings[slot]))
    ensures rt.ctx.processedEvents == old(rt.ctx.processedEvents) && rt.ctx.currentEvent == None
  {
    hide Reach, Legal, Advance, Apply, AtRest, Boundary, LaterSlots, Serving, Fired;
    ghost var m := MarkOf(rt.ctx);
    var waiting := rt.ctx.waitings[slot];
    BeginWake(rt, slot);
    ghost var n := MarkOf(rt.ctx);
    FireWaiting(rt, slot, waiting);
    FiredSooner(rt, rt.ctx.cfg, m, n, MarkOf(rt.ctx), slot, waiting);
  }

  lemma BoundaryOwed(cfg: Config, a: Audit)
    requires Boundary(cfg, a)
    ensures Ready(a) && a.st.status != Running
  {
  }

  lemma BoundaryKept(cfg: Config, a: Audit, b: Audit, slot: Slot)
    requires Boundary(cfg, a) && SameBook(a, b) && slot in a.st.waitings
    requires b.st == a.st.(keys := b.st.keys) || b.st == a.st.(waitings := a.st.waitings - {slot})
    ensures Boundary(cfg, b)
  {
  }

  /** Wake-ups in the order they were served. */
  ghost predicate InOrder(served: seq<(Slot, int)>) {
    forall i, j | 0 <= i < j < |served| :: Before(served[i].1, served[i].0, served[j].1, served[j].0)
  }

  ghost predicate DueWithin(before: Table, after: Table, now: int) {
    forall slot <- Due(after, now) :: slot in Due(before, now) && after[slot].until == before[slot].until
  }

  lemma DueFalls(before: Table, after: Table, slot: Slot, now: int, t: int)
    requires LaterSlots(before - {slot}, after, t) && now <= t && slot in Due(before, now)
    ensures DueWithin(before, after, now) && slot !in Due(after, now)
    ensures |Due(after, now)| < |Due(before, now)|
  {
    forall a | a in Due(after, now) ensures a in Due(before, now) && a != slot && after[a].until == before[a].until {
      assert after[a].until.value <= t;
      assert a in before - {slot};
    }
    Forking.SubsetSmaller(Due(after, now), Due(before, now) - {slot});
  }

  /** The rest of a table after its next slot comes strictly later. */
  lemma RestLater(table: Table, now: int, slot: Slot, a: Slot)
    requires IsNext(table, now, slot) && a in Due(table, now) && SlotName(a) != SlotName(slot)
    ensures Earlier(table, slot, a)
  {
    assert IsDue(table, a, now);
    BeforeTotal(table[a].until.value, a, table[slot].until.value, slot);
  }

  lemma NextIsDue(table: Table, now: int, slot: Slot)
    requires IsNext(table, now, slot)
    ensures slot in Due(table, now) && slot in table && table[slot].until.Some?
  {
    assert IsDue(table, slot, now);
  }

  lemma DueShrinks(start: Table, table: Table, after: Table, now: int)
    requires DueWithin(start, table, now) && DueWithin(table, after, now)
    ensures DueWithin(start, after, now)
  {
  }

  /** Everything served so far comes before everything still due. */
  ghost predicate AllBefore(served: seq<(Slot, int)>, table: Table, now: int) {
    forall j | 0 <= j < |served| :: forall a <- Due(table, now) ::
      Before(served[j].1, served[j].0, table[a].until.value, a)
  }

  lemma OrderGrows(start: Table, table: Table, after: Table, now: int, slot: Slot, served: seq<(Slot, int)>)
    requires NamesDistinct(start) && DueWithin(start, table, now) && DueWithin(table, after, now)
    requires IsNext(table, now, slot) && slot !in Due(after, now)
    requires InOrder(served) && AllBefore(served, table, now)
    ensures var longer := served + [(slot, table[slot].until.value)];
      InOrder(longer) && AllBefore(longer, after, now)
  {
    NextIsDue(table, now, slot);
    forall a | a in Due(after, now) ensures Earlier(table, slot, a) {
      assert a in Due(table, now) && a in Due(start, now) && slot in Due(start, now);
      RestLater(table, now, slot, a);
    }
  }

  /** How far the due slots of `start` have been served: once each, in order, none new. */
  ghost predicate Drains(start: Table, table: Table, now: int, served: seq<(Slot, int)>) {
    && DueWithin(start, table, now) && |served| + |Due(table, now)| <= |Due(start, now)|
    && (forall j | 0 <= j < |served| :: served[j].0 in Due(start, now) && start[served[j].0].until == Some(served[j].1))
    && (NamesDistinct(start) ==> InOrder(served) && AllBefore(served, table, now))
  }

  lemma DrainStarts(start: Table, now: int)
    ensures Drains(start, start, now, [])
  {
  }

  lemma DrainGoesOn(start: Table, table: Table, after: Table, now: int, slot: Slot, served: seq<(Slot, int)>, t: int)
    requires Drains(start, table, now, served) && IsNext(table, now, slot) && slot in Due(table, now)
    requires LaterSlots(table - {slot}, after, t) && now <= t
    ensures Drains(start, after, now, served + [(slot, table[slot].until.value)])
  {
    hide LaterSlots, IsNext, NamesDistinct, InOrder, AllBefore;
    NextIsDue(table, now, slot);
    assert slot in Due(start, now) && table[slot].until == start[slot].until;
    DueFalls(table, after, slot, now, t);
    DueShrinks(start, table, after, now);
    if NamesDistinct(start) {
      OrderGrows(start, table, after, now, slot, served);
    }
  }

  lemma Drained(start: Table, table: Table, now: int, served: seq<(Slot, int)>)
    requires Drains(start, table, now, served)
    ensures DueWithin(start, table, now) && |served| + |Due(table, now)| <= |Due(start, now)|
    ensures forall j | 0 <= j < |served| :: served[j].0 in Due(start, now) && start[served[j].0].until == Some(served[j].1)
    ensures NamesDistinct(start) ==> InOrder(served)
  {
  }

  lemma NoneServed(cfg: Config, log: seq<Occ>, now: int)
    ensures InTime(cfg, log, [], now)
  {
  }

  /** Whatever was served had been due, and parked for the duration its node declares. */
  ghost predicate InTime(cfg: Config, log: seq<Occ>, served: seq<(Slot, int)>, now: int) {
    forall i | 0 <= i < |served| :: served[i].1 <= now && Alarms.Elapsed(cfg, log, served[i].0, served[i].1)
  }

  lemma InTimeMore(cfg: Config, log: seq<Occ>, longer: seq<Occ>, table: Table, slot: Slot, served: seq<(Slot, int)>, now: int)
    requires InTime(cfg, log, served, now) && log <= longer
    requires Reach(cfg, log).Some? && Reach(cfg, log).value.st.waitings == table && IsNext(table, now, slot)
    ensures slot in table && table[slot].until.Some?
    ensures InTime(cfg, longer, served + [(slot, table[slot].until.value)], now)
  {
    hide Reach, Alarms.Elapsed;
    NextIsDue(table, now, slot);
    assert IsDue(table, slot, now);
    Alarms.DueElapsed(cfg, log, slot);
    Alarms.ElapsedLater(cfg, log, longer, slot, table[slot].until.value);
    forall i | 0 <= i < |served| ensures Alarms.Elapsed(cfg, longer, served[i].0, served[i].1) {
      Alarms.ElapsedLater(cfg, log, longer, served[i].0, served[i].1);
    }
  }

  /** WakeDue, for at most so many rounds. No slot is served before its node's declared duration
      has passed since it was parked. When the wall clock has reached `now`, each
      round leaves fewer slots due, slots are served in strictly increasing order of due
      time and name, each at most once, and enough rounds leave none due. */
  method WakeDue(rt: Runtime, now: int, rounds: nat) returns (drained: bool, ghost served: seq<(Slot, int)>)
    requires rt.Idle()
    modifies rt.ctx
    ensures rt.Idle() && old(rt.ctx.log) <= rt.ctx.log && old(rt.ctx.clock) <= rt.ctx.clock
    ensures old(|rt.ctx.processedEvents|) <= MAX_EVENTS ==> |rt.ctx.processedEvents| <= MAX_EVENTS
    ensures rt.ctx.currentEvent in {None, old(rt.ctx.currentEvent)}
    ensures rt.ctx.instanceID == old(rt.ctx.instanceID) && rt.ctx.executionID == old(rt.ctx.executionID)
    ensures drained <==> Due(rt.ctx.waitings, now) == {}
    ensures old(Due(rt.ctx.waitings, now)) == {} ==> rt.ctx.Unchanged()
    ensures now <= old(rt.ctx.clock) ==> DueWithin(old(rt.ctx.waitings), rt.ctx.waitings, now)
    ensures now <= old(rt.ctx.clock) ==> |served| + |Due(rt.ctx.waitings, now)| <= old(|Due(rt.ctx.waitings, now)|)
    ensures now <= old(rt.ctx.clock) && rounds >= old(|Due(rt.ctx.waitings, now)|) ==> drained
    ensures now <= old(rt.ctx.clock) ==> forall i | 0 <= i < |served| ::
      served[i].0 in old(Due(rt.ctx.waitings, now)) && old(rt.ctx.waitings)[served[i].0].until == Some(served[i].1)
    ensures now <= old(rt.ctx.clock) && NamesDistinct(old(rt.ctx.waitings)) ==> InOrder(served)
    ensures InTime(rt.ctx.cfg, rt.ctx.log, served, now)
  {
    hide Reach, Legal, Advance, Apply, AtRest, Boundary, LaterSlots, IsNext, NamesDistinct, Due, Drains, InTime;
    NoneServed(rt.ctx.cfg, rt.ctx.log, now);
    ghost var start, exact := rt.ctx.waitings, now <= rt.ctx.clock;
    served := [];
    DrainStarts(start, now);
    var i := 0;
    var next := NextDue(rt.ctx.waitings, now);
    while next.Some? && i < rounds
      invariant rt.Idle() && old(rt.ctx.log) <= rt.ctx.log && old(rt.ctx.clock) <= rt.ctx.clock
      invariant rt.ctx.instanceID == old(rt.ctx.instanceID) && rt.ctx.executionID == old(rt.ctx.executionID)
      invariant old(|rt.ctx.processedEvents|) <= MAX_EVENTS ==> |rt.ctx.processedEvents| <= MAX_EVENTS
      invariant rt.ctx.currentEvent in {None, old(rt.ctx.currentEvent)}
      invariant next.None? <==> Due(rt.ctx.waitings, now) == {}
      invariant next.Some? ==> IsNext(rt.ctx.waitings, now, next.value)
      invariant i <= rounds && |served| == i
      invariant Due(start, now) == {} ==> rt.ctx.Unchanged()
      invariant exact ==> Drains(start, rt.ctx.waitings, now, served)
      invariant InTime(rt.ctx.cfg, rt.ctx.log, served, now)
    {
      ghost var table, t, log := rt.ctx.waitings, rt.ctx.clock, rt.ctx.log;
      var slot := next.value;
      NextIsDue(table, now, slot);
      WakeOne(rt, slot);
      InTimeMore(rt.ctx.cfg, log, rt.ctx.log, table, slot, served, now);
      if exact {
        DrainGoesOn(start, table, rt.ctx.waitings, now, slot, served, t);
      }
      served := served + [(slot, table[slot].until.value)];
      i := i + 1;
      next := NextDue(rt.ctx.waitings, now);
    }
    if exact {
      Drained(start, rt.ctx.waitings, now, served);
    }
    drained := next.None?;
  }
}
