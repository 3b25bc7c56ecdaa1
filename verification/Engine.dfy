/**
 The runtime of one instance (dsl/runtime.go, dsl/temporal.go): draining the linear
 path, running and settling forks, feeding events, waking due slots, compensating.
 */
module Engine {
  import opened Definition
  import opened Journal
  import opened Protocol
  import opened Runs
  import opened Frames
  import opened Context
  import opened Contract
  import opened Effects
  import opened Parking
  import opened Forking
  import opened Executor
  import opened Branches
  import opened Feeding
  import Guarantees
  import Meaning
  import Lexical

  // ------------------------------------------------------------ resting states

  /** A convergence timer stands only while its fork is open. */
  ghost predicate TimersOwned(st: State) {
    forall f: string :: ScopeSlot(f) in st.waitings ==> |st.scopes| == 1 && st.scopes[0].fork == f
  }

  /** Outside forks, not parked: the state a drain works in. */
  ghost predicate Linear(st: State) {
    st.scopes == [] && Instance !in st.waitings && TimersOwned(st)
  }

  /** Inside a fork. */
  ghost predicate InFork(st: State) {
    |st.scopes| == 1 && TimersOwned(st)
  }

  /** Where the engine stops: never running; waiting only at a waiting node or in a
      fork that is neither converged, nor exhausted, nor failed fast. */
  ghost predicate AtRest(cfg: Config, st: State) {
    && TimersOwned(st)
    && st.status in {Waiting, Completed, Failed, TimedOut}
    && (st.status == Waiting ==>
          || (st.scopes == [] && WaitsAt(cfg.def, st.node))
          || (|st.scopes| == 1 && !Settled(st.scopes[0])))
    && (st.status == Completed ==> st.scopes == [])
  }

  /** A parked instance stands on the slot its node calls for. */
  ghost predicate Standing(cfg: Config, st: State) {
    st.node in cfg.def.nodes && IsWaitingNode(cfg.def.nodes[st.node]) && NeedsSlot(cfg.def.nodes[st.node]) ==>
      Instance in st.waitings && st.waitings[Instance].node == st.node
  }

  /** No branch of the open fork could advance by itself. */
  ghost predicate Quiet(cfg: Config, st: State) {
    |st.scopes| == 1 && forall b <- st.scopes[0].branches :: Resting(cfg, st, st.scopes[0].branches[b])
  }

  /** Visits that nodes have left before the runaway breaker trips. */
  function Budget(cfg: Config, visits: map<string, nat>): set<(string, nat)> {
    set n, k | n in cfg.def.nodes && VisitsOf(visits, n) <= k < cfg.Cap() :: (n, k)
  }

  lemma BudgetShrinks(cfg: Config, v: map<string, nat>, w: map<string, nat>)
    requires VisitsGrow(v, w)
    ensures |Budget(cfg, w)| <= |Budget(cfg, v)|
    ensures forall n: string :: n in cfg.def.nodes && VisitsOf(v, n) < cfg.Cap() && VisitsOf(v, n) < VisitsOf(w, n) ==>
      |Budget(cfg, w)| < |Budget(cfg, v)|
  {
    forall p | p in Budget(cfg, w) ensures p in Budget(cfg, v) {
      assert VisitsOf(v, p.0) <= VisitsOf(w, p.0);
    }
    SubsetSmaller(Budget(cfg, w), Budget(cfg, v));
    forall n: string | n in cfg.def.nodes && VisitsOf(v, n) < cfg.Cap() && VisitsOf(v, n) < VisitsOf(w, n)
      ensures |Budget(cfg, w)| < |Budget(cfg, v)|
    {
      var p := (n, VisitsOf(v, n));
      assert p in Budget(cfg, v) && p !in Budget(cfg, w);
      SubsetSmaller(Budget(cfg, w), Budget(cfg, v) - {p});
    }
  }

  // --------------------------------------------------------------- progression

  /** A moment of a context, for comparing two of them. */
  datatype Mark = Mark(log: seq<Occ>, audit: Audit, processed: map<Key, int>, waitings: map<Slot, WaitingState>, clock: int)

  ghost function MarkOf(ctx: ExecutionContext): Mark
    reads ctx
  {
    Mark(ctx.log, ctx.audit, ctx.processedEvents, ctx.waitings, ctx.clock)
  }

  /** The engine worked from `m` to `n` on its own: the log grew, the identity, the
      command books and the dedup table were kept, and new slots come due later. */
  ghost predicate Went(m: Mark, n: Mark) {
    && Kept(m.audit, n.audit)
    && m.log <= n.log && m.clock <= n.clock && n.processed == m.processed
    && LaterSlots(m.waitings, n.waitings, m.clock)
    && n.audit.event == m.audit.event
  }

  lemma WentTrans(m: Mark, n: Mark, o: Mark)
    requires Went(m, n) && Went(n, o)
    ensures Went(m, o)
  {
    LaterSlotsTrans(m.waitings, n.waitings, o.waitings, m.clock, n.clock);
  }

  /** The engine stopped where it had to: a waiting instance is properly parked, in a
      fork every branch rests, unless one of them used up its step limit. */
  ghost predicate Finished(cfg: Config, m: Mark, n: Mark) {
    && AtRest(cfg, n.audit.st)
    && (n.audit.st.status == Waiting && n.audit.st.scopes == [] ==> Standing(cfg, n.audit.st))
    && (n.audit.st.status == Waiting && n.audit.st.scopes != [] ==> Rested(cfg, m, n))
  }

  ghost predicate Rested(cfg: Config, m: Mark, n: Mark) {
    Quiet(cfg, n.audit.st) || |n.log| >= |m.log| + MAX_BRANCH_STEPS
  }

  lemma FinishedSince(cfg: Config, m: Mark, n: Mark, o: Mark)
    requires Went(m, n) && Finished(cfg, n, o)
    ensures Finished(cfg, m, o)
  {
  }

  lemma FinishedLonger(cfg: Config, m: Mark, n: Mark, o: Mark)
    requires m.log <= n.log && Finished(cfg, n, o)
    ensures Finished(cfg, m, o)
  {
  }

  lemma FinishedOver(cfg: Config, m: Mark, n: Mark)
    requires AtRest(cfg, n.audit.st) && n.audit.st.status != Waiting
    ensures Finished(cfg, m, n)
  {
  }

  lemma WentKeepsBudget(cfg: Config, m: Mark, n: Mark)
    requires Went(m, n)
    ensures |Budget(cfg, n.audit.st.visits)| <= |Budget(cfg, m.audit.st.visits)|
  {
    BudgetShrinks(cfg, m.audit.st.visits, n.audit.st.visits);
  }

  lemma WentRefl(m: Mark)
    requires Ready(m.audit)
    ensures Went(m, m)
  {
    LaterSlotsRefl(m.waitings, m.clock);
  }

  /** The commands a linear step declares in this state. */
  function CommandsAt(cfg: Config, st: State): seq<Command> {
    if st.node !in cfg.def.nodes then []
    else NodeCommands(st.executionID, cfg.def.nodes[st.node], VisitsOf(st.visits, st.node) + 1)
  }

  /** The instance was driven to where it had to stop; its node, unless worn out, was
      visited and its commands answered first. */
  ghost predicate Driven(cfg: Config, m: Mark, n: Mark) {
    && Finished(cfg, m, n)
    && (!WornOut(cfg, m.audit, m.audit.st.node) ==> Performed(m.audit, n.audit, CommandsAt(cfg, m.audit.st)))
    && FirstStep(cfg, m, n)
  }

  // --------------------------------------------------------- the first step

  /** Between the two logs the instance left `n` for `to`, driven by `e`: by the last event
      logged before, or by none. */
  ghost predicate Departs(before: seq<Occ>, after: seq<Occ>, n: string, to: string, e: Option<Event>) {
    exists k | |before| <= k < |after| :: after[k] == Transitioned(n, to, EventName(e)) && Guarantees.LastEvent(after[..k]) == e
  }

  lemma DepartsLater(first: seq<Occ>, before: seq<Occ>, after: seq<Occ>, last: seq<Occ>, n: string, to: string, e: Option<Event>)
    requires Departs(before, after, n, to, e) && first <= before && after <= last
    ensures Departs(first, last, n, to, e)
  {
    var k :| |before| <= k < |after| && after[k] == Transitioned(n, to, EventName(e)) && Guarantees.LastEvent(after[..k]) == e;
    assert last[..k] == after[..k];
  }

  lemma DepartsNow(cfg: Config, before: seq<Occ>, after: seq<Occ>, a: Audit, n: string, to: string)
    requires WellFormed(cfg.def) && Reach(cfg, after) == Some(a) && before < after
    requires after[|after| - 1] == Transitioned(n, to, EventName(a.event))
    ensures Departs(before, after, n, to, a.event)
  {
    hide Reach;
    Guarantees.DrivenBy(cfg, after);
  }

  /** A node that exists, has visits left and selects its next transition. */
  predicate Steps(cfg: Config, a: Audit) {
    a.st.node in cfg.def.nodes && !WornOut(cfg, a, a.st.node) && Selecting(cfg.def.nodes[a.st.node])
  }

  /** What the first step of a drain from `m` amounts to. A step that must move is logged as a
      departure along the node's route, driven by the live event, whoever sent it. A step that
      must fail ends the drain, the instance failing where it stands without a move. */
  ghost predicate FirstMove(cfg: Config, m: Mark, n: Mark) {
    Steps(cfg, m.audit) ==>
      var st, e := m.audit.st, n.audit.event;
      var node := cfg.def.nodes[st.node];
      && (MustMove(cfg, node, st.vars, e) ==> Departs(m.log, n.log, st.node, Target(cfg, node, st.vars, e), e))
      && (MustFail(cfg, node, st.vars, e) ==>
            n.audit.st.status == Failed && n.audit.st.node == st.node && n.audit.moves == m.audit.moves)
  }

  /** Where a step that must move leads. */
  ghost function Target(cfg: Config, node: Node, vars: Env, e: Option<Event>): string
    requires MustMove(cfg, node, vars, e)
  {
    NextOf(cfg, node, vars, e).value
  }

  lemma FirstMoveLater(cfg: Config, m: Mark, n: Mark, o: Mark)
    requires FirstMove(cfg, m, n) && n.log <= o.log && o.audit.event == n.audit.event
    requires Steps(cfg, m.audit) ==> n.audit.st.status == Running
    ensures FirstMove(cfg, m, o)
  {
    hide MustMove, MustFail, NextOf, Departs, Target;
    if Steps(cfg, m.audit) {
      var st, e := m.audit.st, n.audit.event;
      var node := cfg.def.nodes[st.node];
      if MustMove(cfg, node, st.vars, e) {
        DepartsLater(m.log, m.log, n.log, o.log, st.node, Target(cfg, node, st.vars, e), e);
      }
    }
  }

  lemma FirstMoveSooner(cfg: Config, m: Mark, n: Mark, o: Mark)
    requires FirstMove(cfg, n, o) && m.log <= n.log && m.audit.moves == n.audit.moves
    requires SameDrain(m.audit.st, n.audit.st)
    ensures FirstMove(cfg, m, o)
  {
    hide MustMove, MustFail, NextOf, Departs, Target;
    if Steps(cfg, m.audit) {
      var st, e := m.audit.st, o.audit.event;
      var node := cfg.def.nodes[st.node];
      if MustMove(cfg, node, st.vars, e) {
        DepartsLater(m.log, n.log, o.log, o.log, st.node, Target(cfg, node, st.vars, e), e);
      }
    }
  }

  // ------------------------------------------------------------- plain stretches

  // Where a definition has no outputs, effects, inferences or timeouts, what a drain does is a
  // function of the state and the event; these say which.

  /** The step moves and changes nothing else. */
  ghost predicate Glides(cfg: Config, st: State, e: Option<Event>) {
    && st.node in cfg.def.nodes && VisitsOf(st.visits, st.node) < cfg.Cap()
    && var node := cfg.def.nodes[st.node];
       MustMove(cfg, node, st.vars, e) && !node.ntype.Ai? && node.output == map[] && node.effects == []
  }

  /** The instance as such a step leaves it. */
  ghost function Onward(cfg: Config, st: State, e: Option<Event>): State
    requires Glides(cfg, st, e)
  {
    Visited1(st).(node := Target(cfg, cfg.def.nodes[st.node], st.vars, e), status := Running, waitings := st.waitings - {Instance})
  }

  function Visited1(st: State): State {
    st.(visits := st.visits[st.node := VisitsOf(st.visits, st.node) + 1])
  }

  predicate ForksPlainly(cfg: Config, st: State) {
    && st.node in cfg.def.nodes && VisitsOf(st.visits, st.node) < cfg.Cap()
    && cfg.def.nodes[st.node].ntype.Parallel? && ForkDeclared(cfg.def.nodes[st.node]) && cfg.def.nodes[st.node].effects == []
  }

  /** The fork is opened and none of its branches goes further than where it starts. */
  ghost predicate OpensPlainly(cfg: Config, st: State) {
    && ForksPlainly(cfg, st) && st.scopes == []
    && ForkScope(cfg.def, cfg.def.nodes[st.node], 0).timeout <= 0
    && Prompt(cfg, Opened(cfg, st, 0))
  }

  ghost function Opened(cfg: Config, st: State, startedAt: int): State
    requires ForksPlainly(cfg, st)
  {
    Visited1(st).(scopes := [ForkScope(cfg.def, cfg.def.nodes[st.node], startedAt)], waitings := st.waitings - {Instance})
  }

  /** Every branch of the fork stands at its join or at a desk. */
  ghost predicate Prompt(cfg: Config, st: State) {
    |st.scopes| == 1 && forall b <- st.scopes[0].branches :: AtStop(cfg, st, b)
  }

  /** The scope converged, and there is a join to leave for. */
  ghost predicate Leaving(def: ProcessDef, s: Scope) {
    Converged(s) && LeavesForJoin(def, s)
  }

  /** The instance as a converged fork leaves it at its join. */
  function LandedState(st: State): State
    requires |st.scopes| == 1
  {
    var s := st.scopes[0];
    st.(node := s.join, status := Running, scopes := [], vars := st.vars["parallel_failed" := Number(|FailedSet(s)|)],
        waitings := st.waitings - {ScopeSlot(s.fork)})
  }

  ghost predicate Alike(s: State, t: State) {
    s == t.(keys := s.keys, event := s.event)
  }

  /** A drain from `st` that can be foretold ends in `o`, at time `now`. */
  ghost predicate EndsPlainly(cfg: Config, st: State, e: Option<Event>, o: State, now: int, steps: nat)
    decreases steps, 0
  {
    if steps == 0 then true
    else if Glides(cfg, st, e) then
      var next := Onward(cfg, st, e);
      if WaitsAt(cfg.def, next.node) then
        !cfg.def.nodes[next.node].ntype.Ai? ==>
          Alike(o, Runtime.ParkedAs(next, cfg.def.nodes[next.node], now).(status := Waiting))
      else EndsPlainly(cfg, next, e, o, now, steps - 1)
    else if OpensPlainly(cfg, st) then
      ForkEndsPlainly(cfg, Opened(cfg, st, StartOf(o)), e, o, now, steps - 1)
    else true
  }

  /** The same from a fork just opened: it is left for its join, or it waits. */
  ghost predicate ForkEndsPlainly(cfg: Config, st: State, e: Option<Event>, o: State, now: int, steps: nat)
    requires |st.scopes| == 1
    decreases steps, 1
  {
    var s := Stopped(st.scopes[0], {});
    && (Leaving(cfg.def, s) ==> EndsPlainly(cfg, LandedState(st.(scopes := [s])), e, o, now, steps))
    && (!Settled(s) ==> Alike(o, st.(scopes := [s], status := Waiting)))
  }

  function StartOf(st: State): int {
    if |st.scopes| == 1 then st.scopes[0].startedAt else 0
  }

  const PLAIN_STEPS: nat := MAX_DRAIN_STEPS - 1

  lemma {:induction false} EndsSooner(cfg: Config, st: State, e: Option<Event>, o: State, now: int, k: nat, l: nat)
    requires EndsPlainly(cfg, st, e, o, now, l) && k <= l
    ensures EndsPlainly(cfg, st, e, o, now, k)
    decreases k
  {
    hide Glides, OpensPlainly, Settled, Leaving, Onward, Opened;
    if k > 0 {
      if Glides(cfg, st, e) {
        if !WaitsAt(cfg.def, Onward(cfg, st, e).node) {
          EndsSooner(cfg, Onward(cfg, st, e), e, o, now, k - 1, l - 1);
        }
      } else if OpensPlainly(cfg, st) {
        OpenedOne(cfg, st, StartOf(o));
        var open := Opened(cfg, st, StartOf(o));
        if Leaving(cfg.def, Stopped(open.scopes[0], {})) {
          EndsSooner(cfg, LandedState(open.(scopes := [Stopped(open.scopes[0], {})])), e, o, now, k - 1, l - 1);
        }
      }
    }
  }

  /** States a drain cannot tell apart. */
  ghost predicate SameDrain(s: State, t: State) {
    && t == s.(keys := t.keys, event := t.event, waitings := t.waitings, status := t.status)
    && t.waitings - {Instance} == s.waitings - {Instance}
  }

  lemma OnwardAlike(cfg: Config, s: State, t: State, e: Option<Event>)
    requires SameDrain(s, t)
    ensures Glides(cfg, s, e) <==> Glides(cfg, t, e)
    ensures Glides(cfg, s, e) ==> Alike(Onward(cfg, s, e), Onward(cfg, t, e))
  {
    hide MustMove, NextOf;
  }

  lemma OpenedAlike(cfg: Config, s: State, t: State, startedAt: int)
    requires SameDrain(s, t)
    ensures OpensPlainly(cfg, s) <==> OpensPlainly(cfg, t)
    ensures OpensPlainly(cfg, s) ==> Alike(Opened(cfg, s, startedAt), Opened(cfg, t, startedAt).(status := s.status))
  {
    if ForksPlainly(cfg, s) {
      PromptAlike(cfg, Opened(cfg, s, 0), Opened(cfg, t, 0));
    }
    hide ForkScope, Prompt;
  }

  lemma PromptAlike(cfg: Config, s: State, t: State)
    requires t.scopes == s.scopes && t.visits == s.visits
    ensures Prompt(cfg, s) <==> Prompt(cfg, t)
  {
  }

  lemma {:induction false} EndsAlike(cfg: Config, s: State, t: State, e: Option<Event>, o: State, now: int, k: nat)
    requires EndsPlainly(cfg, s, e, o, now, k) && SameDrain(s, t)
    ensures EndsPlainly(cfg, t, e, o, now, k)
    decreases k
  {
    hide Glides, Onward, OpensPlainly, Opened, Settled, Leaving, SlotFor, FailedSet, Stopped;
    if k > 0 {
      OnwardAlike(cfg, s, t, e);
      OpenedAlike(cfg, s, t, StartOf(o));
      if Glides(cfg, s, e) {
        if !WaitsAt(cfg.def, Onward(cfg, s, e).node) {
          EndsAlike(cfg, Onward(cfg, s, e), Onward(cfg, t, e), e, o, now, k - 1);
        }
      } else if OpensPlainly(cfg, t) {
        OpenedOne(cfg, s, StartOf(o));
        OpenedOne(cfg, t, StartOf(o));
        var open, same := Opened(cfg, s, StartOf(o)), Opened(cfg, t, StartOf(o));
        var stopped := Stopped(open.scopes[0], {});
        if Leaving(cfg.def, stopped) {
          EndsAlike(cfg, LandedState(open.(scopes := [stopped])), LandedState(same.(scopes := [stopped])), e, o, now, k - 1);
        }
      }
    }
  }

  lemma OpenedOne(cfg: Config, st: State, startedAt: int)
    requires OpensPlainly(cfg, st)
    ensures ForksPlainly(cfg, st) && |Opened(cfg, st, startedAt).scopes| == 1
  {
  }

  /** The fork opened by the step. */
  ghost predicate ForkTaken(cfg: Config, m: Mark, n: Mark) {
    ForksPlainly(cfg, m.audit.st) ==>
      && |n.audit.st.scopes| == 1 && n.audit.moves == m.audit.moves
      && var s := n.audit.st.scopes[0];
         && s == ForkScope(cfg.def, cfg.def.nodes[m.audit.st.node], s.startedAt)
         && n.audit.st == Visited1(m.audit.st).(scopes := [s], waitings := n.audit.st.waitings)
         && (s.timeout <= 0 ==> n.audit.st.waitings == m.audit.st.waitings)
  }

  /** All that happened since `a` is that the branches outside `left` stopped. */
  ghost predicate StoppedBut(a: Audit, b: Audit, left: set<BranchId>) {
    |a.st.scopes| == 1 && b.moves == a.moves && b.st == a.st.(scopes := [Stopped(a.st.scopes[0], left)])
  }

  lemma StoppedNone(m: Mark)
    requires |m.audit.st.scopes| == 1
    ensures StoppedBut(m.audit, m.audit, m.audit.st.scopes[0].branches.Keys)
  {
    var s := m.audit.st.scopes[0];
    assert Stopped(s, s.branches.Keys).branches == s.branches;
  }

  lemma StoppedMore(cfg: Config, a: Audit, b: Audit, c: Audit, left: set<BranchId>, id: BranchId)
    requires Prompt(cfg, a.st) && StoppedBut(a, b, left) && id in left && left <= a.st.scopes[0].branches.Keys
    requires AtStop(cfg, b.st, id) ==> Stops(b, c, id)
    ensures StoppedBut(a, c, left - {id})
  {
    hide Desk;
    var s, t := a.st.scopes[0], b.st.scopes[0];
    assert AtStop(cfg, a.st, id) && t.branches[id] == s.branches[id];
    assert AtStop(cfg, b.st, id);
    assert Stopped(t, t.branches.Keys - {id}).branches == Stopped(s, left - {id}).branches;
  }

  /** A foretold drain, and its first step. */
  ghost predicate FirstStep(cfg: Config, m: Mark, n: Mark) {
    && FirstMove(cfg, m, n)
    && EndsPlainly(cfg, m.audit.st, n.audit.event, n.audit.st, n.clock, PLAIN_STEPS)
  }

  lemma FirstStepSooner(cfg: Config, m: Mark, n: Mark, o: Mark)
    requires FirstStep(cfg, n, o) && m.log <= n.log && m.audit.moves == n.audit.moves
    requires SameDrain(m.audit.st, n.audit.st)
    ensures FirstStep(cfg, m, o)
  {
    hide FirstMove, EndsPlainly;
    FirstMoveSooner(cfg, m, n, o);
    EndsAlike(cfg, n.audit.st, m.audit.st, o.audit.event, o.audit.st, o.clock, PLAIN_STEPS);
  }

  // ------------------------------------------------------------------ landing

  /** After `m` the fork was left for its join: the log shows the jump, the state of that moment
      and the event that drove the instance on. */
  ghost predicate Lands(cfg: Config, m: Mark, n: Mark) {
    |m.audit.st.scopes| == 1 && Reach(cfg, n.log).Some? &&
    exists j: nat :: |m.log| <= j && Guarantees.Jump(n.log, j)
      && Guarantees.At(cfg, n.log, j + 2).st == LandedState(m.audit.st)
      && Guarantees.At(cfg, n.log, j + 2).event == m.audit.event
  }

  lemma LandsNow(cfg: Config, m: Mark, n: Mark)
    requires |m.audit.st.scopes| == 1 && Reach(cfg, n.log) == Some(n.audit)
    requires |m.log| + 2 <= |n.log| && n.log[|n.log| - 2].NodeSet? && n.log[|n.log| - 1] == StatusSet(Running)
    requires n.audit.st == LandedState(m.audit.st) && n.audit.event == m.audit.event
    ensures Lands(cfg, m, n)
  {
    hide Reach;
    var j: nat := |n.log| - 2;
    assert n.log[..j + 2] == n.log;
    assert Guarantees.Jump(n.log, j);
  }

  lemma LandsLater(cfg: Config, m: Mark, n: Mark, o: Mark)
    requires Lands(cfg, m, n) && n.log <= o.log && Reach(cfg, o.log).Some?
    ensures Lands(cfg, m, o)
  {
    hide Reach;
    var j: nat :| |m.log| <= j && Guarantees.Jump(n.log, j)
      && Guarantees.At(cfg, n.log, j + 2).st == LandedState(m.audit.st) && Guarantees.At(cfg, n.log, j + 2).event == m.audit.event;
    assert o.log[..j + 2] == n.log[..j + 2];
    assert Guarantees.Jump(o.log, j);
  }

  /** How the fork that is open at `m` settles. */
  ghost predicate Settles(cfg: Config, m: Mark, n: Mark) {
    |m.audit.st.scopes| == 1 &&
    var s := m.audit.st.scopes[0];
    && (Leaving(cfg.def, s) ==>
          && Lands(cfg, m, n)
          && EndsPlainly(cfg, LandedState(m.audit.st), n.audit.event, n.audit.st, n.clock, PLAIN_STEPS))
    && (ForkFails(s) ==> n.audit.st.status == Failed && n.audit.st.scopes == [])
    && (!Settled(s) ==>
          && n.audit.st == m.audit.st.(status := n.audit.st.status, keys := n.audit.st.keys)
          && n.audit.st.status in {Waiting, TimedOut} && (s.timeout <= 0 ==> n.audit.st.status == Waiting))
  }

  /** No waiting branch stands at the join, and those that hear the event end there at once. */
  ghost predicate Gathers(cfg: Config, st: State, ev: Event) {
    |st.scopes| == 1 &&
    var s := st.scopes[0];
    forall b <- s.branches :: s.branches[b].status == Waiting ==>
      s.branches[b].currentNode != s.join && (Hears(cfg, st, s.branches[b], ev) ==> EndsBy(cfg, st, s.branches[b], ev))
  }

  /** The scope with the branches that hear the event ended at the join, those in `left` excepted. */
  function Gathered(cfg: Config, st: State, left: set<BranchId>, ev: Event): Scope
    requires |st.scopes| == 1
  {
    var s := st.scopes[0];
    s.(branches := map b | b in s.branches ::
      if b !in left && s.branches[b].status == Waiting && Hears(cfg, st, s.branches[b], ev) then Ended(s.branches[b], s.join, ev.principal)
      else s.branches[b])
  }

  /** All that happened since `a` is that the branches outside `left` were fed. */
  ghost predicate GatheredBut(cfg: Config, a: Audit, c: Audit, left: set<BranchId>, ev: Event) {
    && |a.st.scopes| == 1 && c.moves == a.moves
    && c.st == a.st.(scopes := [Gathered(cfg, a.st, left, ev)], visits := c.st.visits, waitings := c.st.waitings,
         keys := c.st.keys, event := c.st.event)
    && VisitsOf(c.st.visits, a.st.scopes[0].join) == VisitsOf(a.st.visits, a.st.scopes[0].join)
  }

  /** Every branch outside `left` that was waiting has been offered the event. */
  ghost predicate OfferedBut(cfg: Config, m: Mark, n: Mark, left: set<BranchId>, ev: Event) {
    |m.audit.st.scopes| == 1 && forall b <- m.audit.st.scopes[0].branches ::
      b !in left && m.audit.st.scopes[0].branches[b].status == Waiting ==>
        Offered(cfg, m.audit, m.log, n.audit, n.log, m.audit.st.scopes[0].branches[b], ev)
  }

  /** At `mid` every branch that waited had been offered the event; then the fork settled. */
  ghost predicate SettlesFrom(cfg: Config, m: Mark, mid: Mark, n: Mark, ev: Event) {
    && m.log <= mid.log <= n.log && Reach(cfg, mid.log) == Some(mid.audit) && mid.audit.event == Some(ev)
    && OfferedBut(cfg, m, mid, {}, ev)
    && (Gathers(cfg, m.audit.st, ev) ==> GatheredBut(cfg, m.audit, mid.audit, {}, ev))
    && Settles(cfg, mid, n)
  }

  ghost predicate SettledBy(cfg: Config, m: Mark, n: Mark, ev: Event) {
    exists mid: Mark :: SettlesFrom(cfg, m, mid, n, ev)
  }

  /** At `mid` a wake-up had moved or failed the branch; then the fork settled. */
  ghost predicate SettlesOver(cfg: Config, m: Mark, mid: Mark, n: Mark, id: BranchId) {
    && m.log <= mid.log <= n.log && Reach(cfg, mid.log) == Some(mid.audit) && mid.audit.event == None
    && |m.audit.st.scopes| == 1 && |mid.audit.st.scopes| == 1 && ScopeMoved(m.audit.st.scopes[0], mid.audit.st.scopes[0], id)
    && Settles(cfg, mid, n)
  }

  ghost predicate SettledOver(cfg: Config, m: Mark, n: Mark, id: BranchId) {
    exists mid: Mark :: SettlesOver(cfg, m, mid, n, id)
  }

  lemma SettledOverSooner(cfg: Config, m: Mark, n: Mark, o: Mark, id: BranchId)
    requires SettledOver(cfg, n, o, id) && m.log <= n.log && m.audit.st.scopes == n.audit.st.scopes
    ensures SettledOver(cfg, m, o, id)
  {
    hide Reach, ScopeMoved, Settles;
    var mid: Mark :| SettlesOver(cfg, n, mid, o, id);
    assert SettlesOver(cfg, m, mid, o, id);
  }

  /** The same, but for releases from the dedup table. */
  ghost predicate WentOn(m: Mark, n: Mark) {
    Went(m, n.(processed := m.processed))
  }

  lemma WentIsOn(m: Mark, n: Mark)
    requires Went(m, n)
    ensures WentOn(m, n)
  {
  }

  lemma WentFacts(m: Mark, n: Mark)
    requires Went(m, n)
    ensures n.processed == m.processed && n.audit.event == m.audit.event
    ensures m.log <= n.log && m.clock <= n.clock
    ensures Open(n.audit) == Open(m.audit) && n.audit.scars == m.audit.scars
  {
  }

  lemma WentOnFacts(m: Mark, n: Mark)
    requires WentOn(m, n)
    ensures m.log <= n.log && n.audit.event == m.audit.event
  {
  }

  lemma WentOnTrans(m: Mark, n: Mark, o: Mark)
    requires WentOn(m, n) && WentOn(n, o)
    ensures WentOn(m, o)
  {
    LaterSlotsTrans(m.waitings, n.waitings, o.waitings, m.clock, n.clock);
  }

  lemma WentByBranch(m: Mark, n: Mark, id: BranchId)
    requires OnlyBranch(m.audit, n.audit, id)
    requires m.log <= n.log && m.clock <= n.clock && n.processed == m.processed
    requires LaterSlots(m.waitings, n.waitings, m.clock)
    ensures Went(m, n)
  {
  }

  // -------------------------------------------------------------- cancellation

  function CancelOne(s: Scope, id: BranchId): Scope
    requires id in s.branches
  {
    s.(branches := s.branches[id := s.branches[id].(done := true, status := Canceled)])
  }

  /** The scope with every branch outside `left` cancelled unless it was done. */
  function CancelledBut(s: Scope, left: set<BranchId>): Scope {
    s.(branches := map b | b in s.branches ::
      if b in left || s.branches[b].done then s.branches[b] else s.branches[b].(done := true, status := Canceled))
  }

  function Cancelled(s: Scope): Scope {
    CancelledBut(s, {})
  }

  lemma CancelNext(s: Scope, left: set<BranchId>, id: BranchId)
    requires id in left && left <= s.branches.Keys
    ensures CancelledBut(s, left - {id}) ==
      if s.branches[id].done then CancelledBut(s, left) else CancelOne(CancelledBut(s, left), id)
    ensures CancelledBut(s, left).branches[id] == s.branches[id]
  {
  }

  /** Cancellation decides nothing: the same branches have succeeded and failed, and
      a fork that was settled or converged stays so. */
  lemma CancelFacts(def: ProcessDef, s: Scope, left: set<BranchId>)
    requires Formed(def, s)
    ensures SucceededSet(CancelledBut(s, left)) == SucceededSet(s)
    ensures FailedSet(CancelledBut(s, left)) == FailedSet(s)
    ensures Satisfied(s) ==> Satisfied(CancelledBut(s, left))
    ensures Converged(s) ==> Converged(CancelledBut(s, left))
    ensures Settled(s) ==> Settled(CancelledBut(s, left))
  {
    hide Formed;
    FinishedAreDone(def, s);
    var t := CancelledBut(s, left);
    assert t.branches.Keys == s.branches.Keys;
    assert SucceededSet(t) == SucceededSet(s);
    assert FailedSet(t) == FailedSet(s);
  }

  lemma FinishedAreDone(def: ProcessDef, s: Scope)
    requires Formed(def, s)
    ensures s.branches != map[]
    ensures forall b <- s.branches :: s.branches[b].status in {Completed, Failed} ==> s.branches[b].done
  {
  }

  lemma CancelNone(s: Scope)
    ensures CancelledBut(s, s.branches.Keys) == s
  {
    assert CancelledBut(s, s.branches.Keys).branches == s.branches;
  }

  // -------------------------------------------------------------------- events

  /** What Feed answers: why an event was refused, or what became of it. `Expired`: no
      branch took it and the fork's timeout had passed. */
  datatype Feedback =
    | RefusedTerminal | RefusedEvent | RefusedPrincipal | RefusedDuplicate
    | Handled | Unhandled | Expired

  predicate Refused(f: Feedback) {
    f in {RefusedTerminal, RefusedEvent, RefusedPrincipal, RefusedDuplicate}
  }

  /** The event is the callback that inference node `n` declares. */
  predicate IsCallback(def: ProcessDef, n: string, name: string) {
    && n in def.nodes && def.nodes[n].ntype.Ai?
    && var ai := def.nodes[n].ai;
       name == if ai.Some? && ai.value.event != "" then ai.value.event else "ai_result"
  }

  predicate Calls(def: ProcessDef, n: string, name: string) {
    n in def.nodes && def.nodes[n].ntype.Ai? && name == AiEventName(def.nodes[n])
  }

  /** awaitingAICallback: some parked inference waits for an event of this name. */
  predicate AwaitsCallback(cfg: Config, waitings: map<Slot, WaitingState>, node: string, scopes: seq<Scope>, name: string) {
    || (Instance in waitings && Calls(cfg.def, node, name))
    || (exists i | 0 <= i < |scopes| :: exists b <- scopes[i].branches ::
          scopes[i].branches[b].status == Waiting && BranchSlot(scopes[i].branches[b].id) in waitings &&
          Calls(cfg.def, scopes[i].branches[b].currentNode, name))
  }

  ghost predicate BranchGatesOpen(def: ProcessDef, scopes: seq<Scope>, ev: Event) {
    forall i | 0 <= i < |scopes| ::
      forall b <- scopes[i].branches :: scopes[i].branches[b].status == Waiting ==>
        GateOpen(def, scopes[i].branches[b].currentNode, ev)
  }

  lemma OnlyVisitsRefl(a: Audit)
    requires Ready(a)
    ensures OnlyVisits(a, a)
  {
  }

  lemma HearsSame(cfg: Config, a: Audit, b: Audit, br: BranchState, ev: Event)
    requires OnlyVisits(a, b)
    ensures Hears(cfg, a.st, br, ev) == Hears(cfg, b.st, br, ev)
  {
  }

  // ------------------------------------------------------------- boundaries

  /** What holds between operations. */
  ghost predicate Boundary(cfg: Config, a: Audit) {
    && Ready(a) && Open(a) == {} && a.scars == UNSCARRED
    && (a.st == NewState(cfg.def) || AtRest(cfg, a.st))
  }

  /** Work that starts with clean command books and ends at rest ends at a boundary. */
  lemma WentToRest(cfg: Config, m: Mark, n: Mark)
    requires Went(m, n) && AtRest(cfg, n.audit.st) && Open(m.audit) == {} && m.audit.scars == UNSCARRED
    ensures Boundary(cfg, n.audit) && n.audit.st.status != Pending
    ensures m.log <= n.log && m.clock <= n.clock && n.processed == m.processed && n.audit.event == m.audit.event
    ensures n.audit.st.instanceID == m.audit.st.instanceID && n.audit.st.executionID == m.audit.st.executionID
    ensures LaterSlots(m.waitings, n.waitings, m.clock)
  {
  }

  lemma WentOnToRest(cfg: Config, m: Mark, n: Mark)
    requires WentOn(m, n) && AtRest(cfg, n.audit.st) && Open(m.audit) == {} && m.audit.scars == UNSCARRED
    ensures Boundary(cfg, n.audit) && n.audit.st.status != Pending
    ensures m.log <= n.log && m.clock <= n.clock && n.audit.event == m.audit.event
  {
    WentToRest(cfg, m, n.(processed := m.processed));
  }

  lemma SlotGone(w: map<Slot, WaitingState>, slot: Slot, t: int)
    ensures LaterSlots(w, w - {slot}, t)
  {
  }

  class Runtime {
    const ctx: ExecutionContext

    constructor (cfg: Config, now: int)
      requires WellFormed(cfg.def)
      ensures fresh(ctx) && ctx.cfg == cfg && ctx.Tracked() && ctx.log == [] && ctx.audit == NewAudit(cfg)
      ensures ctx.processedEvents == map[] && ctx.clock == now
    {
      ctx := new ExecutionContext(cfg, now);
    }

    /** NewRuntime on an existing context. */
    constructor Over(ctx: ExecutionContext)
      ensures this.ctx == ctx
    {
      this.ctx := ctx;
    }

    ghost function Remaining(): nat
      reads ctx
    {
      |Budget(ctx.cfg, ctx.visitCounts)|
    }

    // ------------------------------------------------------------ small steps

    method EnterStatus(s: Status)
      requires ctx.Tracked() && Ready(ctx.audit) && StatusLegal(ctx.cfg, ctx.audit, s)
      modifies ctx
      ensures ctx.Tracked() && Ready(ctx.audit) && Went(old(MarkOf(ctx)), MarkOf(ctx))
      ensures SameStep(old(ctx.audit), ctx.audit) && ctx.audit.st == old(ctx.audit.st).(status := s)
      ensures ctx.clock == old(ctx.clock)
    {
      hide Reach, Legal, Advance, Apply, StatusLegal;
      ctx.SetStatus(s);
    }

    /** onFailure, and Compensate when the host asks for it. */
    method OnFailure()
      requires ctx.Tracked() && Ready(ctx.audit)
      modifies ctx
      ensures ctx.Tracked() && Ready(ctx.audit) && Went(old(MarkOf(ctx)), MarkOf(ctx)) && OnlyCommands(old(ctx.audit), ctx.audit)
      ensures ctx.cfg.autoCompensate && ctx.status == Failed ==> AllCompensated(ctx.undoStack)
      ensures SameEntries(old(ctx.undoStack), ctx.undoStack)
    {
      hide Reach, Legal, Advance, Apply;
      if ctx.cfg.autoCompensate && ctx.status == Failed {
        Compensate(ctx);
      }
    }

    /** The instance fails: status, then compensation. */
    method FailInstance()
      requires ctx.Tracked() && Ready(ctx.audit) && TimersOwned(ctx.audit.st) && FailLegal(ctx.cfg, ctx.audit)
      modifies ctx
      ensures ctx.Tracked() && Ready(ctx.audit) && Went(old(MarkOf(ctx)), MarkOf(ctx))
      ensures ctx.status == Failed && AtRest(ctx.cfg, ctx.audit.st)
      ensures ctx.visitCounts == old(ctx.visitCounts) && ctx.scopes == old(ctx.scopes) && ctx.currentNode == old(ctx.currentNode)
      ensures ctx.audit.moves == old(ctx.audit.moves)
      ensures ctx.cfg.autoCompensate ==> AllCompensated(ctx.undoStack)
    {
      hide Reach, Legal, Advance, Apply, Went, FailLegal;
      ghost var m := MarkOf(ctx);
      EnterStatus(Failed);
      ghost var n := MarkOf(ctx);
      OnFailure();
      WentTrans(m, n, MarkOf(ctx));
    }

    /** The state with the slot of a node that parks at time `now`. */
    static function ParkedAs(st: State, node: Node, now: int): State
      requires IsWaitingNode(node)
    {
      var w := SlotFor(node, now, VisitsOf(st.visits, node.id));
      st.(waitings := if w.None? then st.waitings else st.waitings[Instance := w.value])
    }

    /** parkInstance. */
    method ParkInstance(node: Node)
      requires ctx.Tracked() && Ready(ctx.audit) && MayPark(ctx.cfg, ctx.audit.st, Instance, node)
      requires TimersOwned(ctx.audit.st)
      requires ctx.audit.landing.None?
      modifies ctx
      ensures ctx.Tracked() && Ready(ctx.audit) && Went(old(MarkOf(ctx)), MarkOf(ctx))
      ensures ctx.scopes == [] && ctx.currentNode == node.id && TimersOwned(ctx.audit.st)
      ensures Standing(ctx.cfg, ctx.audit.st)
      ensures !node.ntype.Ai? && Instance !in old(ctx.waitings) ==>
        ctx.audit.st == ParkedAs(old(ctx.audit.st), node, ctx.clock)
      ensures ctx.audit.landing.None?
    {
      hide Reach, Legal, Advance, Apply, LaterSlots, NeedsSlot, ParkedAt, SlotFor;
      if node.ntype.Ai? {
        ParkAi(node);
      } else {
        ParkWaiting(ctx, Instance, node);
      }
    }

    method ParkAi(node: Node)
      requires ctx.Tracked() && Ready(ctx.audit) && MayPark(ctx.cfg, ctx.audit.st, Instance, node) && node.ntype.Ai?
      requires TimersOwned(ctx.audit.st)
      requires ctx.audit.landing.None?
      modifies ctx
      ensures ctx.Tracked() && Ready(ctx.audit) && Went(old(MarkOf(ctx)), MarkOf(ctx))
      ensures ctx.scopes == [] && ctx.currentNode == node.id && TimersOwned(ctx.audit.st)
      ensures Standing(ctx.cfg, ctx.audit.st)
      ensures ctx.audit.landing.None?
    {
      hide Reach, Legal, Advance, Apply, LaterSlots, Went, NeedsSlot, ParkedAt;
      ghost var m := MarkOf(ctx);
      VisitForRequest(node);
      ghost var n := MarkOf(ctx);
      ghost var id := RequestNow(ctx, node, Instance);
      ParkWaiting(ctx, Instance, node);
      ghost var o := MarkOf(ctx);
      ParkedWent(n, o);
      WentTrans(m, n, o);
      assert RequestNow(ctx, node, Instance) == id;
      var ok := EmitAiRequest(ctx, node, Instance);
      ParkedWent(o, MarkOf(ctx));
      WentTrans(m, o, MarkOf(ctx));
    }

    lemma ParkedWent(m: Mark, n: Mark)
      requires OnlyParking(m.audit, n.audit, Instance)
      requires m.log <= n.log && m.clock <= n.clock && n.processed == m.processed
      requires LaterSlots(m.waitings, n.waitings, m.clock)
      ensures Went(m, n)
    {
    }

    method VisitForRequest(node: Node)
      requires ctx.Tracked() && Ready(ctx.audit) && MayPark(ctx.cfg, ctx.audit.st, Instance, node)
      requires TimersOwned(ctx.audit.st)
      requires ctx.audit.landing.None?
      modifies ctx
      ensures ctx.Tracked() && Ready(ctx.audit) && Went(old(MarkOf(ctx)), MarkOf(ctx))
      ensures ctx.audit.st == old(ctx.audit.st).(visits := ctx.visitCounts)
      ensures ctx.audit.moment.Visited? && ctx.audit.moment.node == node.id
      ensures RequestNow(ctx, node, Instance) !in ctx.audit.issued
      ensures ctx.audit.landing.None?
    {
      hide Reach, Legal, Advance, Apply;
      ghost var a := ctx.audit;
      ctx.IdsKnown();
      var visit := ctx.IncrVisit(node.id);
      FreshAfterVisit(ctx.cfg, a, ctx.audit, node);
    }

    /** Parks at the current waiting node. */
    method ParkHere()
      requires ctx.Tracked() && Ready(ctx.audit) && Linear(ctx.audit.st) && WaitsAt(ctx.cfg.def, ctx.currentNode)
      requires ctx.audit.landing.None?
      modifies ctx
      ensures ctx.Tracked() && Ready(ctx.audit) && Went(old(MarkOf(ctx)), MarkOf(ctx))
      ensures ctx.status == Waiting && AtRest(ctx.cfg, ctx.audit.st) && Finished(ctx.cfg, old(MarkOf(ctx)), MarkOf(ctx))
      ensures ctx.scopes == [] && ctx.currentNode == old(ctx.currentNode)
      ensures !ctx.cfg.def.nodes[ctx.currentNode].ntype.Ai? ==>
        ctx.audit.st == ParkedAs(old(ctx.audit.st), ctx.cfg.def.nodes[ctx.currentNode], ctx.clock).(status := Waiting)
    {
      hide Reach, Legal, Advance, Apply, Went;
      ghost var m := MarkOf(ctx);
      ParkInstance(ctx.cfg.def.nodes[ctx.currentNode]);
      ghost var n := MarkOf(ctx);
      EnterStatus(Waiting);
      WentTrans(m, n, MarkOf(ctx));
    }

    // -------------------------------------------------------------- the drain

    /** The commands a step at the current node declares. */
    ghost function CommandsHere(): seq<Command>
      reads ctx
    {
      CommandsAt(ctx.cfg, ctx.audit.st)
    }

    /** What a drain step does on: the loop continues at the new node, a fork was
        opened, or the instance has come to rest. A node that exists and is not worn out
        is visited, and the commands of that visit are answered first of all. */
    method DrainStep() returns (more: bool, forked: bool)
      requires ctx.Tracked() && Ready(ctx.audit) && Linear(ctx.audit.st)
      requires Poised(ctx.cfg, ctx.audit, ctx.currentNode)
      modifies ctx
      ensures ctx.Tracked() && Ready(ctx.audit) && Went(old(MarkOf(ctx)), MarkOf(ctx))
      ensures more ==> Linear(ctx.audit.st) && Poised(ctx.cfg, ctx.audit, ctx.currentNode)
      ensures more ==> ctx.audit.steps > old(ctx.audit.steps) && !WaitsAt(ctx.cfg.def, ctx.currentNode)
      ensures forked ==> InFork(ctx.audit.st) && Remaining() < old(Remaining())
      ensures !more && !forked ==> AtRest(ctx.cfg, ctx.audit.st) && Finished(ctx.cfg, old(MarkOf(ctx)), MarkOf(ctx))
      ensures old(WornOut(ctx.cfg, ctx.audit, ctx.currentNode)) ==>
        !more && !forked && ctx.status == Failed && ctx.visitCounts == old(ctx.visitCounts)
      ensures !old(WornOut(ctx.cfg, ctx.audit, ctx.currentNode)) ==> Performed(old(ctx.audit), ctx.audit, old(CommandsHere()))
      ensures if forked then ForkTaken(ctx.cfg, old(MarkOf(ctx)), MarkOf(ctx)) && !old(Steps(ctx.cfg, ctx.audit))
        else FirstMove(ctx.cfg, old(MarkOf(ctx)), MarkOf(ctx)) && WentPlainly(ctx.cfg, old(MarkOf(ctx)), MarkOf(ctx), more)
      ensures more ==> ctx.status == Running && ctx.audit.landing.None?
    {
      hide Reach, Legal, Advance, Apply, Went, AtRest, Linear, InFork, Poised, FailLegal, Finished, Performed, NodeCommands, FirstMove, WentPlainly, StepTaken, Steps, ForkTaken;
      ghost var m, cmds := MarkOf(ctx), CommandsHere();
      LinearFacts(ctx.audit.st);
      if VisitExceeded(ctx, ctx.currentNode) || ctx.currentNode !in ctx.cfg.def.nodes {
        FailWorn();
        NoFirstStep(ctx.cfg, m, MarkOf(ctx));
        return false, false;
      }
      var out, failed := StepAndDeliver();
      ghost var n := MarkOf(ctx);
      ctx.Known();
      WentFacts(m, n);
      if out == StepFailed || failed {
        FailAfter(out == StepFailed);
        WentTrans(m, n, MarkOf(ctx));
        PerformedOn(m, n, MarkOf(ctx), cmds);
        FinishedSince(ctx.cfg, m, n, MarkOf(ctx));
        FirstFailed(ctx.cfg, m, n, MarkOf(ctx), out, failed);
        return false, false;
      }
      if out == StepForked {
        FirstForked(ctx.cfg, m, n);
        return false, true;
      }
      if out == StepCompleted {
        CompletedRests(ctx.cfg, m, n);
        FirstElse(ctx.cfg, m, n, out, false);
        return false, false;
      }
      if ctx.currentNode in ctx.cfg.def.nodes && IsWaitingNode(ctx.cfg.def.nodes[ctx.currentNode]) {
        ParkHere();
        WentTrans(m, n, MarkOf(ctx));
        PerformedOn(m, n, MarkOf(ctx), cmds);
        FinishedSince(ctx.cfg, m, n, MarkOf(ctx));
        FirstParked(ctx.cfg, m, n, MarkOf(ctx), out);
        return false, false;
      }
      NotGated(ctx.cfg, ctx.audit);
      FirstElse(ctx.cfg, m, n, out, true);
      more, forked := true, false;
    }

    /** How a step that opens no fork shows where it could be foretold. */
    ghost predicate WentPlainly(cfg: Config, m: Mark, n: Mark, more: bool) {
      && !ForksPlainly(cfg, m.audit.st)
      && (Glides(cfg, m.audit.st, n.audit.event) ==>
            var next := Onward(cfg, m.audit.st, n.audit.event);
            && (more <==> !WaitsAt(cfg.def, next.node)) && (more ==> n.audit.st == next)
            && (!more && !cfg.def.nodes[next.node].ntype.Ai? ==>
                  Alike(n.audit.st, ParkedAs(next, cfg.def.nodes[next.node], n.clock).(status := Waiting))))
    }

    lemma NoFirstStep(cfg: Config, m: Mark, n: Mark)
      requires WornOut(cfg, m.audit, m.audit.st.node)
      ensures FirstMove(cfg, m, n) && WentPlainly(cfg, m, n, false)
    {
    }

    lemma FirstForked(cfg: Config, m: Mark, n: Mark)
      requires StepTaken(cfg, m, n, StepForked, false)
      ensures ForkTaken(cfg, m, n) && !Steps(cfg, m.audit)
    {
      hide ForkTaken;
    }

    lemma FirstFailed(cfg: Config, m: Mark, n: Mark, o: Mark, out: Outcome, failed: bool)
      requires StepTaken(cfg, m, n, out, failed) && (out == StepFailed || failed)
      requires Went(n, o) && o.audit.st.status == Failed && o.audit.st.node == n.audit.st.node && n.audit.event == m.audit.event
      requires o.audit.moves == n.audit.moves
      ensures FirstMove(cfg, m, o) && WentPlainly(cfg, m, o, false)
    {
      hide ForkTaken, ForksPlainly, MustMove, MustFail, Departs, Target, NextOf;
      if Steps(cfg, m.audit) {
        var st, e := m.audit.st, m.audit.event;
        var node := cfg.def.nodes[st.node];
        if MustMove(cfg, node, st.vars, e) {
          DepartsLater(m.log, m.log, n.log, o.log, st.node, Target(cfg, node, st.vars, e), e);
        }
      }
      GlidesSteps(cfg, m.audit, m.audit.event);
    }

    lemma GlidesSteps(cfg: Config, a: Audit, e: Option<Event>)
      ensures Glides(cfg, a.st, e) ==> Steps(cfg, a) && MustMove(cfg, cfg.def.nodes[a.st.node], a.st.vars, e)
      ensures ForksPlainly(cfg, a.st) ==> !Steps(cfg, a)
    {
    }

    lemma FirstParked(cfg: Config, m: Mark, n: Mark, o: Mark, out: Outcome)
      requires StepTaken(cfg, m, n, out, false) && out == StepMoved && Went(n, o) && WaitsAt(cfg.def, n.audit.st.node)
      requires n.audit.event == m.audit.event && Instance !in m.audit.st.waitings
      requires !cfg.def.nodes[n.audit.st.node].ntype.Ai? ==>
        o.audit.st == ParkedAs(n.audit.st, cfg.def.nodes[n.audit.st.node], o.clock).(status := Waiting)
      ensures FirstMove(cfg, m, o) && WentPlainly(cfg, m, o, false)
    {
      hide ForkTaken, ForksPlainly, MustMove, MustFail, Departs, Target, NextOf, SlotFor;
      GlidesSteps(cfg, m.audit, m.audit.event);
      assert m.audit.st.waitings - {Instance} == m.audit.st.waitings;
      if Steps(cfg, m.audit) {
        var st, e := m.audit.st, m.audit.event;
        var node := cfg.def.nodes[st.node];
        if MustMove(cfg, node, st.vars, e) {
          DepartsLater(m.log, m.log, n.log, o.log, st.node, Target(cfg, node, st.vars, e), e);
        }
      }
    }

    lemma FirstElse(cfg: Config, m: Mark, n: Mark, out: Outcome, more: bool)
      requires StepTaken(cfg, m, n, out, false) && out == (if more then StepMoved else StepCompleted)
      requires more ==> !WaitsAt(cfg.def, n.audit.st.node)
      requires n.audit.event == m.audit.event && Instance !in m.audit.st.waitings
      ensures FirstMove(cfg, m, n) && WentPlainly(cfg, m, n, more)
    {
      hide ForkTaken, ForksPlainly, MustMove, MustFail, Departs, Target, NextOf, SlotFor;
      GlidesSteps(cfg, m.audit, m.audit.event);
      assert m.audit.st.waitings - {Instance} == m.audit.st.waitings;
    }

    /** A missing or worn-out node ends the run. */
    method FailWorn()
      requires ctx.Tracked() && Ready(ctx.audit) && Linear(ctx.audit.st) && WornOut(ctx.cfg, ctx.audit, ctx.currentNode)
      requires Poised(ctx.cfg, ctx.audit, ctx.currentNode)
      modifies ctx
      ensures ctx.Tracked() && Ready(ctx.audit) && Went(old(MarkOf(ctx)), MarkOf(ctx))
      ensures ctx.status == Failed && ctx.visitCounts == old(ctx.visitCounts)
      ensures AtRest(ctx.cfg, ctx.audit.st) && Finished(ctx.cfg, old(MarkOf(ctx)), MarkOf(ctx))
    {
      hide Reach, Legal, Advance, Apply, Went, AtRest, Linear, Finished;
      ghost var m := MarkOf(ctx);
      LinearFacts(ctx.audit.st);
      FailInstance();
      FinishedOver(ctx.cfg, m, MarkOf(ctx));
    }

    /** A step that failed has set the status; a critical command that failed sets it now. */
    method FailAfter(stepFailed: bool)
      requires ctx.Tracked() && Ready(ctx.audit) && TimersOwned(ctx.audit.st) && FailLegal(ctx.cfg, ctx.audit)
      requires stepFailed ==> ctx.status == Failed
      modifies ctx
      ensures ctx.Tracked() && Ready(ctx.audit) && Went(old(MarkOf(ctx)), MarkOf(ctx)) && ctx.status == Failed
      ensures AtRest(ctx.cfg, ctx.audit.st) && Finished(ctx.cfg, old(MarkOf(ctx)), MarkOf(ctx))
      ensures ctx.currentNode == old(ctx.currentNode) && ctx.audit.moves == old(ctx.audit.moves)
      ensures ctx.cfg.autoCompensate ==> AllCompensated(ctx.undoStack)
    {
      hide Reach, Legal, Advance, Apply, Went, FailLegal, Finished;
      ghost var m := MarkOf(ctx);
      if stepFailed {
        OnFailure();
      } else {
        FailInstance();
      }
      FinishedOver(ctx.cfg, m, MarkOf(ctx));
    }

    lemma PerformedOn(m: Mark, n: Mark, o: Mark, cmds: seq<Command>)
      requires Performed(m.audit, n.audit, cmds) && Went(n, o)
      ensures Performed(m.audit, o.audit, cmds)
    {
    }

    lemma LinearFacts(st: State)
      requires Linear(st)
      ensures st.scopes == [] && Instance !in st.waitings && TimersOwned(st)
    {
    }

    lemma CompletedRests(cfg: Config, m: Mark, n: Mark)
      requires Linear(n.audit.st) && n.audit.st.status == Completed
      ensures AtRest(cfg, n.audit.st) && Finished(cfg, m, n)
    {
    }

    /** A node that does not wait is no decision. */
    lemma NotGated(cfg: Config, a: Audit)
      requires !WaitsAt(cfg.def, a.st.node)
      requires a.landing.None?
      ensures Poised(cfg, a, a.st.node)
    {
    }

    /** Step and the dispatch of its commands. */
    method StepAndDeliver() returns (out: Outcome, failed: bool)
      requires ctx.Tracked() && Ready(ctx.audit) && Linear(ctx.audit.st)
      requires Poised(ctx.cfg, ctx.audit, ctx.currentNode)
      requires ctx.currentNode in ctx.cfg.def.nodes && !VisitExceeded(ctx, ctx.currentNode)
      modifies ctx
      ensures ctx.Tracked() && Ready(ctx.audit) && Went(old(MarkOf(ctx)), MarkOf(ctx))
      ensures TimersOwned(ctx.audit.st) && ctx.audit.steps == old(ctx.audit.steps) + 1
      ensures out == StepForked ==> InFork(ctx.audit.st)
      ensures out != StepForked ==> Linear(ctx.audit.st)
      ensures out == StepFailed ==> ctx.status == Failed
      ensures out == StepCompleted ==> ctx.status == Completed
      ensures out == StepMoved ==> ctx.status == Running && ctx.audit.landing.None?
      ensures out == StepFailed || failed ==> FailLegal(ctx.cfg, ctx.audit)
      ensures Performed(old(ctx.audit), ctx.audit, old(CommandsHere()))
      ensures Remaining() < old(Remaining())
      ensures StepTaken(ctx.cfg, old(MarkOf(ctx)), MarkOf(ctx), out, failed)
    {
      hide Reach, Legal, Advance, Apply, Stepped, FreshCommands, Poised, Answered, CriticalFailure, CriticalFailed, Went, FailLegal, Performed, NodeCommands, StepTaken, SelectedAs, ForkTaken, ForksPlainly;
      ghost var m := MarkOf(ctx);
      LinearFacts(ctx.audit.st);
      var node := ctx.cfg.def.nodes[ctx.currentNode];
      var cmds: seq<Command>;
      out, cmds := StepNode(ctx);
      ghost var n := MarkOf(ctx);
      SteppedFrame(ctx.cfg, m, n, out);
      ctx.Known();
      ForkShown(ctx.cfg, m, n, out);
      StepShown(ctx.cfg, m, n, node, out);
      failed := DeliverAll(node, cmds);
      WentFacts(n, MarkOf(ctx));
      NoCommands(ctx.executionID, node, ctx.VisitOf(node.id));
      StepShownLater(ctx.cfg, m, n, MarkOf(ctx), out, failed);
      DeliveredFrame(ctx.cfg, m, n, MarkOf(ctx), out, failed, cmds);
      WentTrans(m, n, MarkOf(ctx));
      BudgetShrinks(ctx.cfg, m.audit.st.visits, n.audit.st.visits);
    }

    lemma NoCommands(exec: string, node: Node, visit: nat)
      ensures node.effects == [] ==> NodeCommands(exec, node, visit) == []
    {
    }

    /** How a step of a selecting node shows after its commands were answered. */
    ghost predicate StepTaken(cfg: Config, m: Mark, n: Mark, out: Outcome, failed: bool) {
      && m.log <= n.log && (out == StepForked ==> !Steps(cfg, m.audit))
      && (out == StepForked ==> ForkTaken(cfg, m, n))
      && (ForksPlainly(cfg, m.audit.st) ==> out == StepForked && !failed)
      && (Steps(cfg, m.audit) ==>
            var st, e := m.audit.st, m.audit.event;
            var node := cfg.def.nodes[st.node];
            && (MustMove(cfg, node, st.vars, e) ==>
                  && out == StepMoved && n.audit.st.node == Target(cfg, node, st.vars, e)
                  && Departs(m.log, n.log, st.node, Target(cfg, node, st.vars, e), e))
            && (MustFail(cfg, node, st.vars, e) ==>
                  out == StepFailed && n.audit.st.node == st.node && n.audit.moves == m.audit.moves)
            && (Glides(cfg, st, e) ==>
                  !failed && n.audit.st == Visited1(st).(node := Target(cfg, node, st.vars, e), status := Running)))
    }

    lemma StepShown(cfg: Config, m: Mark, n: Mark, node: Node, out: Outcome)
      requires WellFormed(cfg.def) && Reach(cfg, n.log) == Some(n.audit) && m.log < n.log
      requires Stepped(cfg, m.audit, n.audit, out) && node == cfg.def.nodes[m.audit.st.node]
      requires SelectedAs(cfg, node, m.audit.st.vars, n.audit.st.vars, m.audit.event, n.log, n.audit.st.node, out)
      requires (out == StepForked ==> ForkTaken(cfg, m, n)) && (ForksPlainly(cfg, m.audit.st) ==> out == StepForked)
      ensures StepTaken(cfg, m, n, out, false)
    {
      hide ForkTaken, ForksPlainly, Reach, AlwaysWrites, NeverWrites, NextOf, Departs, StepFails, ForkScope;
      if out == StepMoved {
        DepartsNow(cfg, m.log, n.log, n.audit, m.audit.st.node, n.audit.st.node);
      }
    }

    lemma ForkShown(cfg: Config, m: Mark, n: Mark, out: Outcome)
      requires WellFormed(cfg.def) && Stepped(cfg, m.audit, n.audit, out)
      requires m.audit.st.scopes == []
      requires cfg.def.nodes[m.audit.st.node].ntype.Parallel? ==> out in {StepForked, StepFailed}
      ensures out == StepForked ==> ForkTaken(cfg, m, n)
      ensures ForksPlainly(cfg, m.audit.st) ==> out == StepForked
    {
      hide StaticJoin, Convergence, ScopeTimer;
    }

    lemma StepShownLater(cfg: Config, m: Mark, n: Mark, o: Mark, out: Outcome, failed: bool)
      requires StepTaken(cfg, m, n, out, false) && n.log <= o.log && OnlyCommands(n.audit, o.audit)
      requires m.audit.st.node in cfg.def.nodes && cfg.def.nodes[m.audit.st.node].effects == [] ==> o.audit == n.audit && !failed
      ensures StepTaken(cfg, m, o, out, failed)
    {
      hide MustMove, MustFail, Departs, Target;
      if Steps(cfg, m.audit) {
        var st, e := m.audit.st, m.audit.event;
        var node := cfg.def.nodes[st.node];
        if MustMove(cfg, node, st.vars, e) {
          DepartsLater(m.log, m.log, n.log, o.log, st.node, Target(cfg, node, st.vars, e), e);
        }
      }
    }

    method DeliverAll(node: Node, cmds: seq<Command>) returns (failed: bool)
      requires ctx.Tracked() && Ready(ctx.audit) && FreshCommands(ctx.cfg, ctx.audit, cmds)
      requires node.id in ctx.cfg.def.nodes && ctx.cfg.def.nodes[node.id] == node
      requires cmds == NodeCommands(ctx.executionID, node, ctx.VisitOf(node.id))
      modifies ctx
      ensures ctx.Tracked() && Ready(ctx.audit) && Went(old(MarkOf(ctx)), MarkOf(ctx))
      ensures OnlyCommands(old(ctx.audit), ctx.audit) && Answered(old(ctx.audit), ctx.audit, cmds)
      ensures failed ==> CriticalFailed(ctx.cfg, ctx.audit, node.id)
      ensures cmds == [] ==> !failed && ctx.audit == old(ctx.audit)
    {
      hide Reach, Legal, Advance, Apply, FreshCommands, Answered, CriticalFailure, CriticalFailed, NodeCommands;
      ghost var a := ctx.audit;
      failed := Dispatch(ctx, cmds);
      if failed {
        CriticalShown(ctx.cfg, a, ctx.audit, node);
      }
    }

    lemma DeliveredFrame(cfg: Config, m: Mark, n: Mark, o: Mark, out: Outcome, failed: bool, cmds: seq<Command>)
      requires Stepped(cfg, m.audit, n.audit, out) && OnlyCommands(n.audit, o.audit) && Answered(n.audit, o.audit, cmds)
      requires m.audit.st.scopes == []
      requires failed ==> CriticalFailed(cfg, o.audit, m.audit.st.node)
      ensures out == StepFailed || failed ==> FailLegal(cfg, o.audit)
      ensures Performed(m.audit, o.audit, cmds)
    {
      hide CriticalFailed, ForkScope, StepFails;
    }

    lemma SteppedFrame(cfg: Config, m: Mark, n: Mark, out: Outcome)
      requires Stepped(cfg, m.audit, n.audit, out) && Linear(m.audit.st)
      requires m.log <= n.log && m.clock <= n.clock && n.processed == m.processed
      requires LaterSlots(m.waitings, n.waitings, m.clock)
      requires m.waitings == m.audit.st.waitings && n.waitings == n.audit.st.waitings
      ensures Went(m, n) && Ready(n.audit)
      ensures out == StepForked ==> InFork(n.audit.st)
      ensures out != StepForked ==> Linear(n.audit.st)
      ensures out == StepCompleted ==> n.audit.st.status == Completed
      ensures out == StepMoved ==> n.audit.st.status == Running && n.audit.landing.None?
      ensures VisitsGrow(m.audit.st.visits, n.audit.st.visits)
      ensures VisitsOf(n.audit.st.visits, m.audit.st.node) == VisitsOf(m.audit.st.visits, m.audit.st.node) + 1
      ensures n.audit.steps == m.audit.steps + 1 && n.audit.st.executionID == m.audit.st.executionID
      ensures out == StepFailed ==> n.audit.st.status == Failed
    {
      hide LaterSlots, ForkScope;
      if out == StepForked {
        ForkScopeNames(cfg.def, cfg.def.nodes[m.audit.st.node], n.audit.st.scopes[0].startedAt);
      }
    }

    // ---------------------------------------------------------------- the fork

    /** Cancels what is not done; who succeeded or failed stays so. */
    method CancelPending()
      requires ctx.Tracked() && Ready(ctx.audit) && InFork(ctx.audit.st) && Settled(ctx.scopes[0])
      modifies ctx
      ensures ctx.Tracked() && Ready(ctx.audit) && Went(old(MarkOf(ctx)), MarkOf(ctx))
      ensures ctx.audit.st == old(ctx.audit.st).(scopes := [Cancelled(old(ctx.scopes[0]))]) && ctx.audit.moves == old(ctx.audit.moves)
      ensures InFork(ctx.audit.st)
    {
      hide Reach, Legal, Advance, Apply, Went, OnlyBranch, Settled, Formed;
      ghost var m, s := MarkOf(ctx), ctx.scopes[0];
      WentRefl(m);
      ctx.ScopesKnown();
      CancelNone(s);
      var left := ctx.scopes[0].branches.Keys;
      while left != {}
        invariant ctx.Tracked() && Ready(ctx.audit) && Went(m, MarkOf(ctx))
        invariant left <= s.branches.Keys && ctx.audit.moves == m.audit.moves
        invariant ctx.audit.st == m.audit.st.(scopes := [CancelledBut(s, left)])
        decreases left
      {
        var id :| id in left;
        ghost var n := MarkOf(ctx);
        CancelFacts(ctx.cfg.def, s, left);
        if !ctx.scopes[0].branches[id].done {
          CancelBranch(id);
          WentTrans(m, n, MarkOf(ctx));
        }
        CancelNext(s, left, id);
        left := left - {id};
      }
      assert CancelledBut(s, {}) == Cancelled(s);
    }

    lemma CancelLegal(cfg: Config, a: Audit, id: BranchId)
      requires |a.st.scopes| == 1 && id in a.st.scopes[0].branches && a.st.scopes[0].branches[id].id == id
      requires !a.st.scopes[0].branches[id].done && Settled(a.st.scopes[0])
      requires a.st.scopes[0].branches[id].arrivedJoin != "" ==> a.st.scopes[0].join != ""
      ensures BranchLegal(cfg, a, a.st.scopes[0].fork, a.st.scopes[0].branches[id].(done := true, status := Canceled))
    {
      hide BranchMoves, Settled;
    }

    method CancelBranch(id: BranchId)
      requires ctx.Tracked() && Ready(ctx.audit) && |ctx.scopes| == 1 && id in ctx.scopes[0].branches
      requires !ctx.scopes[0].branches[id].done && Settled(ctx.scopes[0])
      modifies ctx
      ensures ctx.Tracked() && Ready(ctx.audit) && Went(old(MarkOf(ctx)), MarkOf(ctx))
      ensures ctx.audit.st == old(ctx.audit.st).(scopes := [CancelOne(old(ctx.scopes[0]), id)]) && ctx.audit.moves == old(ctx.audit.moves)
    {
      hide Reach, Legal, Advance, Apply, OnlyBranch, Settled, BranchLegal;
      ghost var m := MarkOf(ctx);
      ctx.ScopesKnown();
      ArrivedHasJoin(ctx.cfg, ctx.audit.st, id);
      CancelLegal(ctx.cfg, ctx.audit, id);
      Save(ctx, ctx.scopes[0].branches[id].(done := true, status := Canceled));
      WentByBranch(m, MarkOf(ctx), id);
    }

    /** popScope, with the convergence timer. */
    method PopAndClear() returns (popped: Scope)
      requires ctx.Tracked() && Ready(ctx.audit) && InFork(ctx.audit.st) && Settled(ctx.scopes[0])
      modifies ctx
      ensures ctx.Tracked() && Ready(ctx.audit) && Went(old(MarkOf(ctx)), MarkOf(ctx))
      ensures Linear(ctx.audit.st) && ctx.audit.popped == Some(old(ctx.scopes[0])) && popped == old(ctx.scopes[0])
      ensures ctx.audit.st == old(ctx.audit.st).(scopes := [], waitings := old(ctx.waitings) - {ScopeSlot(popped.fork)})
      ensures ctx.audit.moves == old(ctx.audit.moves)
    {
      hide Reach, Legal, Advance, Apply, Settled, Went, Linear, InFork, SlotsFormed, LaterSlots;
      ghost var m := MarkOf(ctx);
      ctx.SlotsKnown();
      ForkFacts(ctx.audit.st);
      var top := ctx.PopScope();
      popped := top.value;
      ghost var b := ctx.audit;
      ctx.ClearWaiting(ScopeSlot(popped.fork));
      PoppedFrame(ctx.cfg, m, b, MarkOf(ctx));
    }

    lemma PoppedFrame(cfg: Config, m: Mark, b: Audit, n: Mark)
      requires InFork(m.audit.st) && SlotsFormed(cfg.def, m.audit.st) && SameBook(m.audit, b) && SameBook(b, n.audit)
      requires b.event == m.audit.event && n.audit.event == b.event && b.st == m.audit.st.(scopes := [])
      requires n.audit.st == b.st.(waitings := b.st.waitings - {ScopeSlot(m.audit.st.scopes[0].fork)})
      requires m.waitings == m.audit.st.waitings && n.waitings == n.audit.st.waitings
      requires m.log <= n.log && m.clock <= n.clock && n.processed == m.processed
      ensures Went(m, n) && Linear(n.audit.st)
    {
      SlotGone(m.waitings, ScopeSlot(m.audit.st.scopes[0].fork), m.clock);
      assert Instance in m.audit.st.waitings ==> SlotFormed(cfg.def, m.audit.st, Instance, m.audit.st.waitings[Instance]);
    }

    /** completeParallel: the fork leaves for its join, or completes the instance. */
    method CompleteParallel() returns (joined: bool)
      requires ctx.Tracked() && Ready(ctx.audit) && InFork(ctx.audit.st) && Converged(ctx.scopes[0])
      modifies ctx
      ensures ctx.Tracked() && Ready(ctx.audit) && Went(old(MarkOf(ctx)), MarkOf(ctx))
      ensures joined <==> LeavesForJoin(ctx.cfg.def, old(ctx.scopes[0]))
      ensures joined ==> Linear(ctx.audit.st) && Poised(ctx.cfg, ctx.audit, ctx.currentNode)
      ensures joined ==> ctx.audit.st == LandedState(old(ctx.audit.st)) && ctx.audit.moves == old(ctx.audit.moves) + 1
      ensures joined ==> |ctx.log| >= |old(ctx.log)| + 2 && ctx.log[|ctx.log| - 2] == NodeSet(old(ctx.scopes[0].join))
      ensures joined ==> ctx.log[|ctx.log| - 1] == StatusSet(Running)
      ensures !joined ==> AtRest(ctx.cfg, ctx.audit.st) && ctx.status == Completed
    {
      hide Reach, Legal, Advance, Apply, Went, Converged, Formed;
      ghost var m, s := MarkOf(ctx), ctx.scopes[0];
      ctx.ScopesKnown();
      Summarize();
      ghost var n := MarkOf(ctx);
      var popped := PopAndClear();
      ghost var o := MarkOf(ctx);
      WentTrans(m, n, o);
      joined := Leave(popped);
      WentTrans(m, o, MarkOf(ctx));
    }

    /** The cancellation of the rest and the variable that sums up the failures. */
    method Summarize()
      requires ctx.Tracked() && Ready(ctx.audit) && InFork(ctx.audit.st) && Converged(ctx.scopes[0])
      modifies ctx
      ensures ctx.Tracked() && Ready(ctx.audit) && Went(old(MarkOf(ctx)), MarkOf(ctx))
      ensures InFork(ctx.audit.st) && Converged(ctx.scopes[0]) && Settled(ctx.scopes[0])
      ensures ctx.scopes == [if old(ctx.scopes[0].mode) in {Any, NofM} then Cancelled(old(ctx.scopes[0])) else old(ctx.scopes[0])]
      ensures ctx.variables == old(ctx.variables)["parallel_failed" := Number(|FailedSet(old(ctx.scopes[0]))|)]
      ensures ctx.audit.st == old(ctx.audit.st).(scopes := ctx.scopes, vars := ctx.variables) && ctx.audit.moves == old(ctx.audit.moves)
    {
      hide Reach, Legal, Advance, Apply, Satisfied, Went, Formed, FailedSet;
      ghost var m, s := MarkOf(ctx), ctx.scopes[0];
      ctx.ScopesKnown();
      CancelFacts(ctx.cfg.def, s, {});
      CancelRest();
      ghost var n := MarkOf(ctx);
      var failed := CountFailed(ctx.scopes[0]);
      NoteFailures(failed);
      WentTrans(m, n, MarkOf(ctx));
    }

    /** Partial success needs the other branches no longer. */
    method CancelRest()
      requires ctx.Tracked() && Ready(ctx.audit) && InFork(ctx.audit.st) && Converged(ctx.scopes[0])
      modifies ctx
      ensures ctx.Tracked() && Ready(ctx.audit) && Went(old(MarkOf(ctx)), MarkOf(ctx)) && InFork(ctx.audit.st)
      ensures ctx.scopes == [if old(ctx.scopes[0].mode) in {Any, NofM} then Cancelled(old(ctx.scopes[0])) else old(ctx.scopes[0])]
      ensures ctx.audit.st == old(ctx.audit.st).(scopes := ctx.scopes) && ctx.audit.moves == old(ctx.audit.moves)
    {
      hide Reach, Legal, Advance, Apply, Satisfied, Went;
      WentRefl(MarkOf(ctx));
      if ctx.scopes[0].mode in {Any, NofM} {
        CancelPending();
      }
    }

    method NoteFailures(failed: nat)
      requires ctx.Tracked() && Ready(ctx.audit) && InFork(ctx.audit.st) && failed == |FailedSet(ctx.scopes[0])|
      modifies ctx
      ensures ctx.Tracked() && Ready(ctx.audit) && Went(old(MarkOf(ctx)), MarkOf(ctx))
      ensures ctx.scopes == old(ctx.scopes) && InFork(ctx.audit.st)
      ensures ctx.variables == old(ctx.variables)["parallel_failed" := Number(failed)]
      ensures ctx.audit.st == old(ctx.audit.st).(vars := ctx.variables) && ctx.audit.moves == old(ctx.audit.moves)
    {
      hide Reach, Legal, Advance, Apply;
      assert VariableLegal(ctx.cfg, ctx.audit, "parallel_failed", Number(failed));
      ctx.SetVariable("parallel_failed", Number(failed));
    }

    /** The jump out of a closed, converged scope. */
    method Leave(s: Scope) returns (joined: bool)
      requires ctx.Tracked() && Ready(ctx.audit) && Linear(ctx.audit.st)
      requires ctx.audit.popped == Some(s) && Converged(s)
      modifies ctx
      ensures ctx.Tracked() && Ready(ctx.audit) && Went(old(MarkOf(ctx)), MarkOf(ctx))
      ensures joined <==> LeavesForJoin(ctx.cfg.def, s)
      ensures joined ==> Linear(ctx.audit.st) && Poised(ctx.cfg, ctx.audit, ctx.currentNode)
      ensures joined ==> ctx.audit.st == old(ctx.audit.st).(node := s.join, status := Running) && ctx.audit.moves == old(ctx.audit.moves) + 1
      ensures joined ==> ctx.log == old(ctx.log) + [NodeSet(s.join), StatusSet(Running)]
      ensures !joined ==> AtRest(ctx.cfg, ctx.audit.st) && ctx.status == Completed
    {
      hide Reach, Legal, Advance, Apply, Converged;
      if !LeavesForJoin(ctx.cfg.def, s) {
        ctx.SetStatus(Completed);
        return false;
      }
      ctx.SetNode(s.join);
      ctx.SetStatus(Running);
      joined := true;
    }

    /** enforceScopeTimeout. */
    method TimedOutNow() returns (late: bool)
      requires ctx.Tracked() && Ready(ctx.audit) && InFork(ctx.audit.st) && !Satisfied(ctx.scopes[0])
      modifies ctx
      ensures ctx.Tracked() && Ready(ctx.audit) && Went(old(MarkOf(ctx)), MarkOf(ctx))
      ensures ctx.scopes == old(ctx.scopes) && InFork(ctx.audit.st)
      ensures late ==> ctx.status == TimedOut && AtRest(ctx.cfg, ctx.audit.st)
      ensures ctx.audit.st == old(ctx.audit.st).(status := ctx.status)
      ensures late ==> ctx.scopes[0].timeout > 0 && ctx.clock - ctx.scopes[0].startedAt > ctx.scopes[0].timeout
      ensures !late ==> ctx.audit == old(ctx.audit) && ctx.log == old(ctx.log)
    {
      hide Reach, Legal, Advance, Apply, Satisfied;
      var s := ctx.scopes[0];
      if s.timeout <= 0 {
        return false;
      }
      var now := ctx.Now();
      late := now - s.startedAt > s.timeout;
      if late {
        ctx.SetStatus(TimedOut);
      }
    }

    /** The instance fails without compensation, as a wake-up makes it. */
    method FailBare()
      requires ctx.Tracked() && Ready(ctx.audit) && TimersOwned(ctx.audit.st) && FailLegal(ctx.cfg, ctx.audit)
      modifies ctx
      ensures ctx.Tracked() && Ready(ctx.audit) && Went(old(MarkOf(ctx)), MarkOf(ctx))
      ensures ctx.audit.st == old(ctx.audit.st).(status := Failed) && AtRest(ctx.cfg, ctx.audit.st)
    {
      hide Reach, Legal, Advance, Apply, Went, FailLegal;
      EnterStatus(Failed);
    }

    /** The convergence timeout strikes. */
    method TimeOut()
      requires ctx.Tracked() && Ready(ctx.audit) && |ctx.scopes| == 1 && TimersOwned(ctx.audit.st) && !Satisfied(ctx.scopes[0])
      modifies ctx
      ensures ctx.Tracked() && Ready(ctx.audit) && Went(old(MarkOf(ctx)), MarkOf(ctx))
      ensures ctx.audit.st == old(ctx.audit.st).(status := TimedOut) && AtRest(ctx.cfg, ctx.audit.st)
    {
      hide Reach, Legal, Advance, Apply, Satisfied;
      ctx.SetStatus(TimedOut);
    }

    /** The fork closes without a join: the instance fails. */
    method FailFork()
      requires ctx.Tracked() && Ready(ctx.audit) && InFork(ctx.audit.st) && ForkFails(ctx.scopes[0])
      modifies ctx
      ensures ctx.Tracked() && Ready(ctx.audit) && Went(old(MarkOf(ctx)), MarkOf(ctx))
      ensures AtRest(ctx.cfg, ctx.audit.st) && ctx.status == Failed && ctx.scopes == []
      ensures ctx.cfg.autoCompensate ==> AllCompensated(ctx.undoStack)
    {
      hide Reach, Legal, Advance, Apply, Went, Satisfied;
      ghost var m := MarkOf(ctx);
      var popped := PopAndClear();
      ghost var n := MarkOf(ctx);
      FailInstance();
      WentTrans(m, n, MarkOf(ctx));
    }

    method FailFast()
      requires ctx.Tracked() && Ready(ctx.audit) && InFork(ctx.audit.st)
      requires ctx.scopes[0].failFast && FailedSet(ctx.scopes[0]) != {}
      modifies ctx
      ensures ctx.Tracked() && Ready(ctx.audit) && Went(old(MarkOf(ctx)), MarkOf(ctx))
      ensures AtRest(ctx.cfg, ctx.audit.st) && ctx.status == Failed && ctx.scopes == []
      ensures ctx.cfg.autoCompensate ==> AllCompensated(ctx.undoStack)
    {
      hide Reach, Legal, Advance, Apply, Went, Formed;
      ghost var m, s := MarkOf(ctx), ctx.scopes[0];
      ctx.ScopesKnown();
      CancelFacts(ctx.cfg.def, s, {});
      CancelPending();
      ghost var n := MarkOf(ctx);
      FailFork();
      WentTrans(m, n, MarkOf(ctx));
    }

    // ------------------------------------------------- drain, fork and settling

    /** drain: steps until the instance rests. */
    method Drain()
      requires ctx.Tracked() && Ready(ctx.audit) && Linear(ctx.audit.st)
      requires Poised(ctx.cfg, ctx.audit, ctx.currentNode)
      modifies ctx
      ensures ctx.Tracked() && Ready(ctx.audit) && Went(old(MarkOf(ctx)), MarkOf(ctx))
      ensures AtRest(ctx.cfg, ctx.audit.st) && Finished(ctx.cfg, old(MarkOf(ctx)), MarkOf(ctx))
      ensures old(WornOut(ctx.cfg, ctx.audit, ctx.currentNode)) ==> ctx.status == Failed && ctx.visitCounts == old(ctx.visitCounts)
      ensures !old(WornOut(ctx.cfg, ctx.audit, ctx.currentNode)) ==> Performed(old(ctx.audit), ctx.audit, old(CommandsHere()))
      ensures FirstStep(ctx.cfg, old(MarkOf(ctx)), MarkOf(ctx))
      decreases Remaining(), 0
    {
      hide Reach, Legal, Advance, Apply, Went, AtRest, Linear, InFork, Poised, Finished, Performed, WornOut, NodeCommands, Steps, ForkTaken, FirstMove, ForksPlainly, EndsPlainly, Carries, WentPlainly, ForkEnds;
      ghost var m := MarkOf(ctx);
      WentRefl(m);
      CarriesSelf(ctx.cfg, m.audit.st, m.audit.event);
      var i := 0;
      while i < MAX_DRAIN_STEPS
        invariant ctx.Tracked() && Ready(ctx.audit) && Went(m, MarkOf(ctx))
        invariant Linear(ctx.audit.st) && Poised(ctx.cfg, ctx.audit, ctx.currentNode)
        invariant Remaining() <= old(Remaining()) && 0 <= i <= ctx.audit.steps && ctx.audit.event == m.audit.event
        invariant i == 0 ==> MarkOf(ctx) == m
        invariant i > 0 ==> FirstMove(ctx.cfg, m, MarkOf(ctx)) && ctx.status == Running && ctx.audit.landing.None?
        invariant i > 0 ==> !WornOut(ctx.cfg, m.audit, m.audit.st.node) && Performed(m.audit, ctx.audit, old(CommandsHere()))
        invariant Carries(ctx.cfg, ctx.audit.st, StepsLeft(i), m.audit.st, m.audit.event)
      {
        ghost var n := MarkOf(ctx);
        LinearFacts(ctx.audit.st);
        var more, forked := DrainStep();
        ghost var o := MarkOf(ctx);
        WentTrans(m, n, o);
        WentKeepsBudget(ctx.cfg, n, o);
        WentFacts(n, o);
        if i > 0 {
          PerformedOn(m, n, o, old(CommandsHere()));
          FirstMoveLater(ctx.cfg, m, n, o);
        }
        if forked {
          RunFork();
          WentFacts(o, MarkOf(ctx));
          if i > 0 {
            FirstMoveLater(ctx.cfg, m, n, MarkOf(ctx));
          } else {
            NoMove(ctx.cfg, m, MarkOf(ctx));
          }
          ForkCarries(ctx.cfg, n, o, MarkOf(ctx), StepsLeft(i), m.audit.st);
          WentTrans(m, o, MarkOf(ctx));
          FinishedSince(ctx.cfg, m, o, MarkOf(ctx));
          PerformedOn(m, o, MarkOf(ctx), old(CommandsHere()));
          return;
        }
        StepCarries(ctx.cfg, n, o, more, StepsLeft(i), m.audit.st);
        if !more {
          FinishedSince(ctx.cfg, m, n, o);
          return;
        }
        i := i + 1;
      }
      ghost var n := MarkOf(ctx);
      GiveUp();
      WentTrans(m, n, MarkOf(ctx));
      FinishedSince(ctx.cfg, m, n, MarkOf(ctx));
      PerformedOn(m, n, MarkOf(ctx), old(CommandsHere()));
      WentFacts(n, MarkOf(ctx));
      FirstMoveLater(ctx.cfg, m, n, MarkOf(ctx));
      CarriesNothing(ctx.cfg, n.audit.st, m.audit.st, m.audit.event, ctx.audit.st, ctx.clock);
    }

    /** Steps still foretold after `i` of them. */
    static function StepsLeft(i: nat): nat {
      if i < PLAIN_STEPS then PLAIN_STEPS - i else 0
    }

    /** What is foretold from `now` with so many steps left was foretold from `first`. */
    ghost predicate Carries(cfg: Config, now: State, left: nat, first: State, e: Option<Event>) {
      forall o: State, t: int :: EndsPlainly(cfg, now, e, o, t, left) ==> EndsPlainly(cfg, first, e, o, t, PLAIN_STEPS)
    }

    lemma CarriesSelf(cfg: Config, st: State, e: Option<Event>)
      ensures Carries(cfg, st, StepsLeft(0), st, e)
    {
      hide EndsPlainly;
    }

    lemma CarriesNothing(cfg: Config, now: State, first: State, e: Option<Event>, o: State, t: int)
      requires Carries(cfg, now, 0, first, e)
      ensures EndsPlainly(cfg, first, e, o, t, PLAIN_STEPS)
    {
      assert EndsPlainly(cfg, now, e, o, t, 0);
      hide EndsPlainly;
    }

    lemma StepCarries(cfg: Config, m: Mark, n: Mark, more: bool, left: nat, first: State)
      requires WentPlainly(cfg, m, n, more) && m.audit.event == n.audit.event && Carries(cfg, m.audit.st, left, first, m.audit.event)
      ensures more ==> Carries(cfg, n.audit.st, if left == 0 then 0 else left - 1, first, m.audit.event)
      ensures !more ==> EndsPlainly(cfg, first, m.audit.event, n.audit.st, n.clock, PLAIN_STEPS)
    {
      hide Glides, ForksPlainly, Onward, ParkedAs;
      if more {
        forall o: State, t: int | EndsPlainly(cfg, n.audit.st, m.audit.event, o, t, if left == 0 then 0 else left - 1)
          ensures EndsPlainly(cfg, first, m.audit.event, o, t, PLAIN_STEPS)
        {
          assert EndsPlainly(cfg, m.audit.st, m.audit.event, o, t, left);
        }
      } else {
        assert EndsPlainly(cfg, m.audit.st, m.audit.event, n.audit.st, n.clock, left);
      }
    }

    lemma NoMove(cfg: Config, m: Mark, n: Mark)
      requires !Steps(cfg, m.audit)
      ensures FirstMove(cfg, m, n)
    {
    }

    lemma ForkCarries(cfg: Config, m: Mark, n: Mark, o: Mark, left: nat, first: State)
      requires m.audit.st.scopes == [] && Instance !in m.audit.st.waitings && left <= PLAIN_STEPS
      requires !Steps(cfg, m.audit) && ForkTaken(cfg, m, n) && ForkEnds(cfg, n, o)
      requires m.audit.event == o.audit.event && Carries(cfg, m.audit.st, left, first, m.audit.event)
      ensures EndsPlainly(cfg, first, m.audit.event, o.audit.st, o.clock, PLAIN_STEPS)
    {
      hide ForkEnds, Carries, ForkTaken;
      if left > 0 && OpensPlainly(cfg, m.audit.st) {
        ForkForetold(cfg, m, n, o, left);
      } else {
        GlidesSteps(cfg, m.audit, m.audit.event);
        assert EndsPlainly(cfg, m.audit.st, m.audit.event, o.audit.st, o.clock, left);
      }
      assert Carries(cfg, m.audit.st, left, first, m.audit.event);
      CarriesTo(cfg, m.audit.st, left, first, m.audit.event, o.audit.st, o.clock);
    }

    lemma CarriesTo(cfg: Config, now: State, left: nat, first: State, e: Option<Event>, o: State, t: int)
      requires Carries(cfg, now, left, first, e) && EndsPlainly(cfg, now, e, o, t, left)
      ensures EndsPlainly(cfg, first, e, o, t, PLAIN_STEPS)
    {
      hide EndsPlainly;
    }

    /** How an opened fork ends where that can be foretold. */
    ghost predicate ForkEnds(cfg: Config, m: Mark, n: Mark) {
      Prompt(cfg, m.audit.st) ==>
        var s := Stopped(m.audit.st.scopes[0], {});
        && (Leaving(cfg.def, s) ==>
              EndsPlainly(cfg, LandedState(m.audit.st.(scopes := [s])), n.audit.event, n.audit.st, n.clock, PLAIN_STEPS))
        && (!Settled(s) && s.timeout <= 0 ==> Alike(n.audit.st, m.audit.st.(scopes := [s], status := Waiting)))
    }

    lemma ForkForetold(cfg: Config, m: Mark, n: Mark, o: Mark, left: nat)
      requires m.audit.st.scopes == [] && Instance !in m.audit.st.waitings && 0 < left <= PLAIN_STEPS
      requires OpensPlainly(cfg, m.audit.st) && ForkTaken(cfg, m, n) && ForkEnds(cfg, n, o) && m.audit.event == o.audit.event
      ensures EndsPlainly(cfg, m.audit.st, m.audit.event, o.audit.st, o.clock, left)
    {
      hide ForkTaken, OpensPlainly, Opened, Glides, Settled, Leaving, FailedSet, Prompt, Stopped, LandedState, Steps, ForksPlainly, EndsPlainly;
      var st := m.audit.st;
      OpenedTaken(cfg, m, n);
      OpenedAnew(cfg, st, n.audit.st.scopes[0].startedAt, StartOf(o.audit.st));
      GlidesSteps(cfg, m.audit, m.audit.event);
      var now := Stopped(n.audit.st.scopes[0], {});
      if Leaving(cfg.def, now) {
        EndsSooner(cfg, LandedState(n.audit.st.(scopes := [now])), m.audit.event, o.audit.st, o.clock, left - 1, PLAIN_STEPS);
      }
      EndsByFork(cfg, st, m.audit.event, o.audit.st, o.clock, left);
    }

    lemma EndsByFork(cfg: Config, st: State, e: Option<Event>, o: State, now: int, left: nat)
      requires left > 0 && !Glides(cfg, st, e) && OpensPlainly(cfg, st) && ForksPlainly(cfg, st)
      requires |Opened(cfg, st, StartOf(o)).scopes| == 1 && ForkEndsPlainly(cfg, Opened(cfg, st, StartOf(o)), e, o, now, left - 1)
      ensures EndsPlainly(cfg, st, e, o, now, left)
    {
      hide Glides, OpensPlainly, Opened, ForksPlainly, Settled, Leaving, Stopped;
    }

    lemma OpenedTaken(cfg: Config, m: Mark, n: Mark)
      requires m.audit.st.scopes == [] && Instance !in m.audit.st.waitings
      requires OpensPlainly(cfg, m.audit.st) && ForkTaken(cfg, m, n)
      ensures |n.audit.st.scopes| == 1 && n.audit.st == Opened(cfg, m.audit.st, n.audit.st.scopes[0].startedAt)
      ensures n.audit.st.scopes[0].timeout <= 0 && ForksPlainly(cfg, m.audit.st) && !Steps(cfg, m.audit)
    {
      hide StaticJoin, Convergence, Prompt;
      assert m.audit.st.waitings - {Instance} == m.audit.st.waitings;
    }

    /** When the fork was opened makes no difference to it. */
    lemma OpenedAnew(cfg: Config, st: State, t: int, u: int)
      requires OpensPlainly(cfg, st)
      ensures ForksPlainly(cfg, st)
      ensures var a, b := Opened(cfg, st, t), Opened(cfg, st, u);
        && |a.scopes| == 1 && |b.scopes| == 1 && Prompt(cfg, a)
        && b == a.(scopes := [a.scopes[0].(startedAt := u)])
        && var x, y := Stopped(a.scopes[0], {}), Stopped(b.scopes[0], {});
           && y == x.(startedAt := u) && x.startedAt == t && x.timeout == a.scopes[0].timeout
           && (Leaving(cfg.def, x) <==> Leaving(cfg.def, y)) && (Settled(x) <==> Settled(y))
           && LandedState(a.(scopes := [x])) == LandedState(b.(scopes := [y]))
    {
      hide StaticJoin, Convergence, Prompt, Stopped, Leaving, Settled, InitialBranches, FailedSet;
      var a, b := Opened(cfg, st, t), Opened(cfg, st, u);
      PromptAnew(cfg, Opened(cfg, st, 0), a, t);
      StoppedAnew(cfg.def, a.scopes[0], u);
    }

    lemma StoppedAnew(def: ProcessDef, s: Scope, u: int)
      ensures var x, y := Stopped(s, {}), Stopped(s.(startedAt := u), {});
        && y == x.(startedAt := u) && x == s.(branches := x.branches) && FailedSet(x) == FailedSet(y)
        && (Leaving(def, x) <==> Leaving(def, y)) && (Settled(x) <==> Settled(y))
    {
      var x, y := Stopped(s, {}), Stopped(s.(startedAt := u), {});
      assert y.branches == x.branches;
      hide Stopped;
      assert FailedSet(x) == FailedSet(y) && SucceededSet(x) == SucceededSet(y);
    }

    lemma PromptAnew(cfg: Config, s: State, t: State, u: int)
      requires Prompt(cfg, s) && t.visits == s.visits && t.scopes == [s.scopes[0].(startedAt := u)]
      ensures Prompt(cfg, t)
    {
      hide Desk;
      forall b | b in t.scopes[0].branches ensures AtStop(cfg, t, b) {
        assert AtStop(cfg, s, b);
      }
    }

    /** The step limit of a drain. */
    method GiveUp()
      requires ctx.Tracked() && Ready(ctx.audit) && Linear(ctx.audit.st) && ctx.audit.steps >= MAX_DRAIN_STEPS
      requires ctx.audit.landing.None?
      modifies ctx
      ensures ctx.Tracked() && Ready(ctx.audit) && Went(old(MarkOf(ctx)), MarkOf(ctx)) && ctx.status == Failed
      ensures AtRest(ctx.cfg, ctx.audit.st) && Finished(ctx.cfg, old(MarkOf(ctx)), MarkOf(ctx))
    {
      hide Reach, Legal, Advance, Apply, Went, AtRest, Linear, Finished;
      ghost var m := MarkOf(ctx);
      LinearFacts(ctx.audit.st);
      FailInstance();
      FinishedOver(ctx.cfg, m, MarkOf(ctx));
    }

    /** runParallelMode. */
    method RunFork()
      requires ctx.Tracked() && Ready(ctx.audit) && InFork(ctx.audit.st)
      modifies ctx
      ensures ctx.Tracked() && Ready(ctx.audit) && Went(old(MarkOf(ctx)), MarkOf(ctx))
      ensures AtRest(ctx.cfg, ctx.audit.st) && Finished(ctx.cfg, old(MarkOf(ctx)), MarkOf(ctx))
      ensures ForkEnds(ctx.cfg, old(MarkOf(ctx)), MarkOf(ctx))
      decreases Remaining(), 3
    {
      hide Reach, Legal, Advance, Apply, Went, AtRest, InFork, Finished, Rested, StoppedBut, Prompt, Settles, ForkEnds;
      ghost var m := MarkOf(ctx);
      AdvanceAll();
      ghost var n := MarkOf(ctx);
      WentKeepsBudget(ctx.cfg, m, n);
      SettleScope();
      ForkSettles(ctx.cfg, m, n, MarkOf(ctx));
      WentTrans(m, n, MarkOf(ctx));
      SettledSince(ctx.cfg, m, n, MarkOf(ctx));
    }

    lemma ForkSettles(cfg: Config, m: Mark, n: Mark, o: Mark)
      requires Prompt(cfg, m.audit.st) ==> StoppedBut(m.audit, n.audit, {})
      requires Settles(cfg, n, o)
      ensures ForkEnds(cfg, m, o)
    {
      hide Leaving, EndsPlainly, Settled, FailedSet, Lands, Stopped;
    }

    /** settleScope left the fork as it was, or the instance came to rest elsewhere. */
    ghost predicate Stayed(cfg: Config, m: Mark, n: Mark) {
      n.audit.st == m.audit.st.(status := n.audit.st.status) && m.audit.st.scopes != []
    }

    lemma SettledSince(cfg: Config, m: Mark, n: Mark, o: Mark)
      requires Went(m, n) && Went(n, o) && AtRest(cfg, o.audit.st) && Rested(cfg, m, n)
      requires Finished(cfg, n, o) || Stayed(cfg, n, o)
      ensures Finished(cfg, m, o)
    {
    }

    /** The branches of a new fork, in any order. */
    method AdvanceAll()
      requires ctx.Tracked() && Ready(ctx.audit) && InFork(ctx.audit.st)
      modifies ctx
      ensures ctx.Tracked() && Ready(ctx.audit) && Went(old(MarkOf(ctx)), MarkOf(ctx))
      ensures InFork(ctx.audit.st) && ctx.scopes[0].branches.Keys == old(ctx.scopes[0].branches.Keys)
      ensures Rested(ctx.cfg, old(MarkOf(ctx)), MarkOf(ctx))
      ensures Prompt(ctx.cfg, old(ctx.audit.st)) ==> StoppedBut(old(ctx.audit), ctx.audit, {})
    {
      hide Reach, Legal, Advance, Apply, Went, OnlyBranch, Resting, ScopesFormed, RestedBut, Rested, Prompt, StoppedBut, AtStop, Stops;
      ghost var m, ids := MarkOf(ctx), ctx.scopes[0].branches.Keys;
      WentRefl(m);
      StoppedNone(m);
      RestedNone(ctx.cfg, m);
      var left := ctx.scopes[0].branches.Keys;
      while left != {}
        invariant ctx.Tracked() && Ready(ctx.audit) && Went(m, MarkOf(ctx))
        invariant InFork(ctx.audit.st) && left <= ids == ctx.scopes[0].branches.Keys
        invariant RestedBut(ctx.cfg, m, MarkOf(ctx), left)
        invariant Prompt(ctx.cfg, m.audit.st) ==> StoppedBut(m.audit, ctx.audit, left)
        decreases left
      {
        var id :| id in left;
        ghost var n := MarkOf(ctx);
        var rested := AdvanceMember(id);
        WentFacts(m, n);
        WentTrans(m, n, MarkOf(ctx));
        RestedMore(ctx.cfg, m, n, MarkOf(ctx), left, id, rested);
        if Prompt(ctx.cfg, m.audit.st) {
          StoppedMore(ctx.cfg, m.audit, n.audit, ctx.audit, left, id);
        }
        left := left - {id};
      }
      RestedAll(ctx.cfg, m, MarkOf(ctx));
    }

    lemma RestedNone(cfg: Config, m: Mark)
      requires InFork(m.audit.st)
      ensures RestedBut(cfg, m, m, m.audit.st.scopes[0].branches.Keys)
    {
    }

    lemma RestedAll(cfg: Config, m: Mark, n: Mark)
      requires RestedBut(cfg, m, n, {})
      ensures Rested(cfg, m, n)
    {
    }

    /** Every branch outside `left` rests, or some branch used up its step limit. */
    ghost predicate RestedBut(cfg: Config, m: Mark, n: Mark, left: set<BranchId>) {
      || |n.log| >= |m.log| + MAX_BRANCH_STEPS
      || (|n.audit.st.scopes| == 1 && forall b <- n.audit.st.scopes[0].branches :: b !in left ==>
            Resting(cfg, n.audit.st, n.audit.st.scopes[0].branches[b]))
    }

    lemma RestedMore(cfg: Config, m: Mark, n: Mark, o: Mark, left: set<BranchId>, id: BranchId, rested: bool)
      requires RestedBut(cfg, m, n, left) && OnlyBranch(n.audit, o.audit, id) && m.log <= n.log <= o.log
      requires ScopesFormed(cfg.def, o.audit.st)
      requires if rested then Resting(cfg, o.audit.st, o.audit.st.scopes[0].branches[id]) else |o.log| >= |n.log| + MAX_BRANCH_STEPS
      ensures RestedBut(cfg, m, o, left - {id})
    {
      hide Resting, ScopesFormed;
      if rested && |n.log| < |m.log| + MAX_BRANCH_STEPS {
        forall b | b in o.audit.st.scopes[0].branches && b !in left - {id}
          ensures Resting(cfg, o.audit.st, o.audit.st.scopes[0].branches[b])
        {
          if b != id {
            OtherRests(cfg, n.audit, o.audit, id, b);
          }
        }
      }
    }

    lemma OtherRests(cfg: Config, a: Audit, b: Audit, id: BranchId, x: BranchId)
      requires OnlyBranch(a, b, id) && x != id && x in a.st.scopes[0].branches && ScopesFormed(cfg.def, b.st)
      requires Resting(cfg, a.st, a.st.scopes[0].branches[x])
      ensures Resting(cfg, b.st, b.st.scopes[0].branches[x])
    {
      var br := a.st.scopes[0].branches[x];
      assert b.st.scopes[0].branches[x] == br && Formed(cfg.def, b.st.scopes[0]);
      if BranchSlot(br.id) in a.st.waitings {
        assert BranchSlot(br.id) in a.st.waitings - {BranchSlot(id)};
        assert (b.st.waitings - {BranchSlot(id)})[BranchSlot(br.id)] == a.st.waitings[BranchSlot(br.id)];
      }
    }

    method AdvanceMember(id: BranchId) returns (rested: bool)
      requires ctx.Tracked() && Ready(ctx.audit) && InFork(ctx.audit.st) && id in ctx.scopes[0].branches
      modifies ctx
      ensures ctx.Tracked() && Ready(ctx.audit) && Went(old(MarkOf(ctx)), MarkOf(ctx))
      ensures InFork(ctx.audit.st) && ctx.scopes[0].branches.Keys == old(ctx.scopes[0].branches.Keys)
      ensures OnlyBranch(old(ctx.audit), ctx.audit, id) && ScopesFormed(ctx.cfg.def, ctx.audit.st)
      ensures if rested then Resting(ctx.cfg, ctx.audit.st, ctx.scopes[0].branches[id])
        else |ctx.log| >= |old(ctx.log)| + MAX_BRANCH_STEPS
      ensures old(ctx.log) <= ctx.log
      ensures old(AtStop(ctx.cfg, ctx.audit.st, id)) ==> Stops(old(ctx.audit), ctx.audit, id)
    {
      hide Reach, Legal, Advance, Apply, Went, OnlyBranch, Resting, Formed, AtStop, Stops;
      ghost var m := MarkOf(ctx);
      ctx.ScopesKnown();
      ArrivedHasJoin(ctx.cfg, ctx.audit.st, id);
      rested := AdvanceBranch(ctx, id);
      WentByBranch(m, MarkOf(ctx), id);
      StaysInFork(m.audit, ctx.audit, id);
      ctx.ScopesKnown();
    }

    lemma StaysInFork(a: Audit, b: Audit, id: BranchId)
      requires OnlyBranch(a, b, id) && InFork(a.st)
      ensures InFork(b.st) && b.st.scopes[0].branches.Keys == a.st.scopes[0].branches.Keys
    {
      forall f: string | ScopeSlot(f) in b.st.waitings ensures ScopeSlot(f) in a.st.waitings {
        assert ScopeSlot(f) in b.st.waitings - {BranchSlot(id)};
      }
    }

    /** settleScope: fail fast, exhausted, converged, timed out, or wait on. */
    method SettleScope()
      requires ctx.Tracked() && Ready(ctx.audit) && InFork(ctx.audit.st)
      modifies ctx
      ensures ctx.Tracked() && Ready(ctx.audit) && Went(old(MarkOf(ctx)), MarkOf(ctx))
      ensures AtRest(ctx.cfg, ctx.audit.st)
      ensures Finished(ctx.cfg, old(MarkOf(ctx)), MarkOf(ctx)) || Stayed(ctx.cfg, old(MarkOf(ctx)), MarkOf(ctx))
      ensures
        var s := old(ctx.scopes[0]);
        if Meaning.FailedFast(s) then ctx.status == Failed && ctx.scopes == []
        else if Meaning.Enough(s) then
          if LeavesForJoin(ctx.cfg.def, s) then Lands(ctx.cfg, old(MarkOf(ctx)), MarkOf(ctx)) else ctx.status == Completed
        else if Meaning.Over(s) then ctx.status == Failed && ctx.scopes == []
        else ctx.status in {Waiting, TimedOut} && ctx.scopes == old(ctx.scopes)
      ensures Settles(ctx.cfg, old(MarkOf(ctx)), MarkOf(ctx))
      decreases Remaining(), 2
    {
      hide Reach, Legal, Advance, Apply, Went, Satisfied, Finished, LandedState, LeavesForJoin, EndsPlainly, Lands;
      ghost var m := MarkOf(ctx);
      ctx.ScopesKnown();
      FinishedAreDone(ctx.cfg.def, ctx.scopes[0]);
      Meaning.EndsMeaning(ctx.scopes[0]);
      var failed := CountFailed(ctx.scopes[0]);
      if ctx.scopes[0].failFast && failed > 0 {
        FailFast();
        FinishedOver(ctx.cfg, m, MarkOf(ctx));
        return;
      }
      var done := CountDone(ctx.scopes[0]);
      var satisfied := IsSatisfied(ctx.scopes[0]);
      if satisfied {
        Converge();
      } else if done == |ctx.scopes[0].branches| {
        FailFork();
        FinishedOver(ctx.cfg, m, MarkOf(ctx));
      } else {
        WaitOn();
      }
    }

    /** The fork converged: it leaves for its join and drains from there, or completes. */
    method Converge()
      requires ctx.Tracked() && Ready(ctx.audit) && InFork(ctx.audit.st) && Converged(ctx.scopes[0])
      modifies ctx
      ensures ctx.Tracked() && Ready(ctx.audit) && Went(old(MarkOf(ctx)), MarkOf(ctx))
      ensures AtRest(ctx.cfg, ctx.audit.st) && Finished(ctx.cfg, old(MarkOf(ctx)), MarkOf(ctx))
      ensures if LeavesForJoin(ctx.cfg.def, old(ctx.scopes[0])) then
          && Lands(ctx.cfg, old(MarkOf(ctx)), MarkOf(ctx))
          && EndsPlainly(ctx.cfg, LandedState(old(ctx.audit.st)), ctx.audit.event, ctx.audit.st, ctx.clock, PLAIN_STEPS)
        else ctx.status == Completed
      decreases Remaining(), 1
    {
      hide Reach, Legal, Advance, Apply, Went, Converged, AtRest, Linear, Poised, Finished, LeavesForJoin, FirstMove, LandedState, EndsPlainly, Lands;
      ghost var m := MarkOf(ctx);
      var joined := CompleteParallel();
      ghost var n := MarkOf(ctx);
      if joined {
        WentKeepsBudget(ctx.cfg, m, n);
        Drain();
        WentFacts(m, n);
        WentFacts(n, MarkOf(ctx));
        LandsNow(ctx.cfg, m, n);
        LandsLater(ctx.cfg, m, n, MarkOf(ctx));
        WentTrans(m, n, MarkOf(ctx));
        FinishedSince(ctx.cfg, m, n, MarkOf(ctx));
      } else {
        FinishedOver(ctx.cfg, m, n);
      }
    }

    method WaitOn()
      requires ctx.Tracked() && Ready(ctx.audit) && InFork(ctx.audit.st) && !Settled(ctx.scopes[0])
      modifies ctx
      ensures ctx.Tracked() && Ready(ctx.audit) && Went(old(MarkOf(ctx)), MarkOf(ctx))
      ensures AtRest(ctx.cfg, ctx.audit.st) && ctx.status in {Waiting, TimedOut}
      ensures ctx.audit.st == old(ctx.audit.st).(status := ctx.status) && (ctx.scopes[0].timeout <= 0 ==> ctx.status == Waiting)
    {
      hide Reach, Legal, Advance, Apply, Satisfied, Went;
      ghost var m := MarkOf(ctx);
      var late := TimedOutNow();
      if !late {
        ghost var n := MarkOf(ctx);
        EnterStatus(Waiting);
        WentTrans(m, n, MarkOf(ctx));
      }
    }

    // ------------------------------------------------------------------ events

    /** attributeAICallback. */
    function Attribute(ev: Event): Event
      reads ctx
    {
      var r := ParseAiResult(ev.payload);
      if ev.principal.Some? || r.model == "" || !AwaitsCallback(ctx.cfg, ctx.waitings, ctx.currentNode, ctx.scopes, ev.name) then ev
      else ev.(principal := Some(Principal("model", r.model, "", r.model, r.modelVersion, r.promptVersion)))
    }

    /** Member `name` of the payload, or nothing where it is no text. */
    ghost predicate Given(payload: map<string, Value>, name: string, text: string) {
      Meaning.Says(payload, name, text) || (text == "" && (name in payload ==> !payload[name].Text?))
    }

    /** Some parked inference, of the instance or of a waiting branch, waits for this callback. */
    ghost predicate Awaited(name: string)
      reads ctx
    {
      || (Instance in ctx.waitings && IsCallback(ctx.cfg.def, ctx.currentNode, name))
      || exists s <- ctx.scopes, b <- s.branches :: Waits(s.branches[b]) && IsCallback(ctx.cfg.def, s.branches[b].currentNode, name)
    }

    /** The branch waits in a slot of its own. */
    predicate Waits(b: BranchState)
      reads ctx
    {
      b.status == Waiting && BranchSlot(b.id) in ctx.waitings
    }

    /** Only the principal is added, only where none was given, and only to an awaited callback
        that names its model: then it is that model, with its version and that of its prompt. */
    lemma AttributeMeaning(ev: Event)
      ensures
        var a := Attribute(ev);
        && a == ev.(principal := a.principal)
        && (a != ev <==> ev.principal.None? && Awaited(ev.name) && exists model: string :: Meaning.Says(ev.payload, "model", model) && model != "")
        && (a != ev ==>
              && a.principal.Some?
              && var p := a.principal.value;
                 && p.kind == "model" && p.id == p.model && Meaning.Says(ev.payload, "model", p.model)
                 && Given(ev.payload, "model_version", p.modelVersion) && Given(ev.payload, "prompt_version", p.promptVersion)
                 && p.displayName == "")
    {
      AwaitedMeaning(ev.name);
      hide AwaitsCallback, Awaited;
      if model: string :| Meaning.Says(ev.payload, "model", model) && model != "" {
        assert ParseAiResult(ev.payload).model == model;
      } else {
        var model := ParseAiResult(ev.payload).model;
        assert model != "" ==> Meaning.Says(ev.payload, "model", model);
      }
    }

    lemma AwaitedMeaning(name: string)
      ensures AwaitsCallback(ctx.cfg, ctx.waitings, ctx.currentNode, ctx.scopes, name) <==> Awaited(name)
    {
      if s, b :| s in ctx.scopes && b in s.branches && Waits(s.branches[b]) && IsCallback(ctx.cfg.def, s.branches[b].currentNode, name) {
        var i :| 0 <= i < |ctx.scopes| && ctx.scopes[i] == s;
        assert Calls(ctx.cfg.def, ctx.scopes[i].branches[b].currentNode, name);
      }
      if i, b :| 0 <= i < |ctx.scopes| && b in ctx.scopes[i].branches && Waits(ctx.scopes[i].branches[b]) && Calls(ctx.cfg.def, ctx.scopes[i].branches[b].currentNode, name) {
        assert ctx.scopes[i] in ctx.scopes;
      }
    }

    /** validateBranchPrincipal: no waiting branch that would take the event misses the
        principal it requires. */
    method CheckBranchPrincipals(ev: Event) returns (ok: bool)
      requires |ctx.scopes| <= 1
      ensures ok <==> BranchGatesOpen(ctx.cfg.def, ctx.scopes, ev)
    {
      if ctx.scopes == [] {
        return true;
      }
      var s := ctx.scopes[0];
      var left := s.branches.Keys;
      while left != {}
        invariant left <= s.branches.Keys
        invariant forall b <- s.branches.Keys - left :: s.branches[b].status == Waiting ==>
          GateOpen(ctx.cfg.def, s.branches[b].currentNode, ev)
        decreases left
      {
        var b :| b in left;
        if s.branches[b].status == Waiting && !GateOpen(ctx.cfg.def, s.branches[b].currentNode, ev) {
          return false;
        }
        left := left - {b};
      }
      ok := true;
    }

    /** The event goes to every waiting branch; handled when one of them hears it. */
    method FeedAll(ev: Event) returns (routed: bool)
      requires ctx.Tracked() && Ready(ctx.audit) && InFork(ctx.audit.st) && ctx.currentEvent == Some(ev)
      requires BranchGatesOpen(ctx.cfg.def, ctx.scopes, ev)
      modifies ctx
      ensures ctx.Tracked() && Ready(ctx.audit) && Went(old(MarkOf(ctx)), MarkOf(ctx)) && InFork(ctx.audit.st)
      ensures routed <==> exists b <- old(ctx.scopes[0].branches) ::
        old(ctx.scopes[0].branches[b].status) == Waiting && Hears(ctx.cfg, old(ctx.audit.st), old(ctx.scopes[0].branches[b]), ev)
      ensures !routed ==> OnlyVisits(old(ctx.audit), ctx.audit)
      ensures OfferedBut(ctx.cfg, old(MarkOf(ctx)), MarkOf(ctx), {}, ev)
      ensures old(Gathers(ctx.cfg, ctx.audit.st, ev)) ==> GatheredBut(ctx.cfg, old(ctx.audit), ctx.audit, {}, ev)
    {
      hide Reach, Legal, Advance, Apply, Went, Hears, OnlyVisits, GateOpen, OfferedBut, Offered, Untouched, HeardBut, Gathers, GatheredBut, FedAlone;
      ghost var m, s := MarkOf(ctx), ctx.scopes[0];
      WentRefl(m);
      GatheredNone(ctx.cfg, m.audit, ev);
      OnlyVisitsRefl(m.audit);
      NothingOffered(ctx.cfg, m, ev);
      HeardNone(ctx.cfg, m.audit.st, ev);
      routed := false;
      var left := ctx.scopes[0].branches.Keys;
      while left != {}
        invariant ctx.Tracked() && Ready(ctx.audit) && Went(m, MarkOf(ctx)) && InFork(ctx.audit.st)
        invariant left <= s.branches.Keys == ctx.scopes[0].branches.Keys && ctx.currentEvent == Some(ev)
        invariant Untouched(m, MarkOf(ctx), left) && OfferedBut(ctx.cfg, m, MarkOf(ctx), left, ev)
        invariant HeardBut(ctx.cfg, m.audit.st, left, ev, routed)
        invariant Gathers(ctx.cfg, m.audit.st, ev) ==> GatheredBut(ctx.cfg, m.audit, ctx.audit, left, ev)
        invariant !routed ==> OnlyVisits(m.audit, ctx.audit)
        decreases left
      {
        var id :| id in left;
        ghost var n := MarkOf(ctx);
        StillThere(m, n, left, id);
        var heard := false;
        if ctx.scopes[0].branches[id].status == Waiting {
          heard := FeedMember(id, ev);
          WentTrans(m, n, MarkOf(ctx));
          OfferedMore(ctx.cfg, m, n, MarkOf(ctx), left, id, ev);
          if Gathers(ctx.cfg, m.audit.st, ev) {
            FedKeeps(n.audit, ctx.audit, id);
            UntouchedOne(m, n, left, id);
            GatheredMore(ctx.cfg, m.audit, n.audit, ctx.audit, left, id, heard, ev);
          }
        } else {
          if Gathers(ctx.cfg, m.audit.st, ev) {
            GatheredIdle(ctx.cfg, m.audit, n.audit, left, id, ev);
          }
          OnlyVisitsRefl(n.audit);
          OfferedNone(ctx.cfg, m, n, left, id, ev);
        }
        if !routed {
          HeardMore(ctx.cfg, m.audit, n.audit, ctx.audit, left, id, ev, heard);
        } else {
          HeardStill(ctx.cfg, m.audit.st, left, id, ev);
        }
        routed := routed || heard;
        left := left - {id};
      }
      HeardEnd(ctx.cfg, m.audit.st, ev, routed);
    }

    lemma FedKeeps(a: Audit, b: Audit, id: BranchId)
      requires OnlyBranch(a, b, id)
      ensures b.st.keys == a.st.keys && b.st.event == a.st.event
    {
    }

    lemma UntouchedOne(m: Mark, n: Mark, left: set<BranchId>, id: BranchId)
      requires Untouched(m, n, left) && id in left
      ensures SameSlot(m.audit.st.waitings, n.audit.st.waitings, BranchSlot(id))
    {
    }

    /** Whether some waiting branch outside `left` hears the event. */
    ghost predicate HeardBut(cfg: Config, st: State, left: set<BranchId>, ev: Event, routed: bool) {
      |st.scopes| == 1 &&
      (routed <==> exists b <- st.scopes[0].branches.Keys - left ::
         st.scopes[0].branches[b].status == Waiting && Hears(cfg, st, st.scopes[0].branches[b], ev))
    }

    lemma HeardNone(cfg: Config, st: State, ev: Event)
      requires InFork(st)
      ensures HeardBut(cfg, st, st.scopes[0].branches.Keys, ev, false)
    {
      hide Hears;
    }

    lemma HeardMore(cfg: Config, a: Audit, b: Audit, c: Audit, left: set<BranchId>, id: BranchId, ev: Event, heard: bool)
      requires HeardBut(cfg, a.st, left, ev, false) && OnlyVisits(a, b) && id in left && id in a.st.scopes[0].branches
      requires heard == (a.st.scopes[0].branches[id].status == Waiting && Hears(cfg, b.st, a.st.scopes[0].branches[id], ev))
      requires !heard ==> OnlyVisits(b, c)
      ensures HeardBut(cfg, a.st, left - {id}, ev, heard)
      ensures !heard ==> OnlyVisits(a, c)
    {
      HearsSame(cfg, a, b, a.st.scopes[0].branches[id], ev);
      hide Hears;
      var s := a.st.scopes[0];
      assert s.branches.Keys - (left - {id}) == (s.branches.Keys - left) + {id};
    }

    lemma HeardStill(cfg: Config, st: State, left: set<BranchId>, id: BranchId, ev: Event)
      requires HeardBut(cfg, st, left, ev, true)
      ensures HeardBut(cfg, st, left - {id}, ev, true)
    {
      hide Hears;
    }

    lemma HeardEnd(cfg: Config, st: State, ev: Event, routed: bool)
      requires HeardBut(cfg, st, {}, ev, routed)
      ensures routed <==> exists b <- st.scopes[0].branches ::
        st.scopes[0].branches[b].status == Waiting && Hears(cfg, st, st.scopes[0].branches[b], ev)
    {
      hide Hears;
    }

    /** Branches in `left` and their slots are as they were. */
    ghost predicate Untouched(m: Mark, n: Mark, left: set<BranchId>) {
      && |m.audit.st.scopes| == 1 && |n.audit.st.scopes| == 1
      && forall b <- left ::
           && b in m.audit.st.scopes[0].branches && b in n.audit.st.scopes[0].branches
           && n.audit.st.scopes[0].branches[b] == m.audit.st.scopes[0].branches[b]
           && SameSlot(m.audit.st.waitings, n.audit.st.waitings, BranchSlot(b))
    }

    lemma NothingOffered(cfg: Config, m: Mark, ev: Event)
      requires InFork(m.audit.st)
      ensures OfferedBut(cfg, m, m, m.audit.st.scopes[0].branches.Keys, ev)
      ensures Untouched(m, m, m.audit.st.scopes[0].branches.Keys)
    {
      hide Offered;
    }

    lemma StillThere(m: Mark, n: Mark, left: set<BranchId>, id: BranchId)
      requires Untouched(m, n, left) && id in left
      ensures |m.audit.st.scopes| == 1 && id in m.audit.st.scopes[0].branches
      ensures |n.audit.st.scopes| == 1 && id in n.audit.st.scopes[0].branches
      ensures n.audit.st.scopes[0].branches[id] == m.audit.st.scopes[0].branches[id]
    {
    }

    lemma OfferedNone(cfg: Config, m: Mark, n: Mark, left: set<BranchId>, id: BranchId, ev: Event)
      requires Untouched(m, n, left) && id in left && OfferedBut(cfg, m, n, left, ev)
      requires n.audit.st.scopes[0].branches[id].status != Waiting
      ensures Untouched(m, n, left - {id}) && OfferedBut(cfg, m, n, left - {id}, ev)
    {
      hide Offered;
    }

    lemma OfferedMore(cfg: Config, m: Mark, n: Mark, o: Mark, left: set<BranchId>, id: BranchId, ev: Event)
      requires Untouched(m, n, left) && id in left && OfferedBut(cfg, m, n, left, ev)
      requires Went(m, n) && Went(n, o) && OnlyBranch(n.audit, o.audit, id)
      requires Offered(cfg, n.audit, n.log, o.audit, o.log, n.audit.st.scopes[0].branches[id], ev)
      ensures Untouched(m, o, left - {id}) && OfferedBut(cfg, m, o, left - {id}, ev)
    {
      hide Offered, LaterSlots;
      assert BranchOpen(n.audit.st, id);
      forall b | b in left - {id}
        ensures SameSlot(m.audit.st.waitings, o.audit.st.waitings, BranchSlot(b))
      {
        var w := n.audit.st.waitings - {BranchSlot(id)};
        assert o.audit.st.waitings - {BranchSlot(id)} == w;
        assert BranchSlot(b) in n.audit.st.waitings <==> BranchSlot(b) in w;
        assert BranchSlot(b) in o.audit.st.waitings <==> BranchSlot(b) in w;
      }
      var s := m.audit.st.scopes[0];
      forall b | b in s.branches && b !in left - {id} && s.branches[b].status == Waiting
        ensures Offered(cfg, m.audit, m.log, o.audit, o.log, s.branches[b], ev)
      {
        if b == id {
          OfferedSooner(cfg, m.audit, m.log, n.audit, n.log, o.audit, o.log, s.branches[b], ev);
        } else {
          OfferedStill(cfg, m.audit, m.log, n.audit, n.log, o.audit, o.log, s.branches[b], ev);
        }
      }
    }

    method FeedMember(id: BranchId, ev: Event) returns (heard: bool)
      requires ctx.Tracked() && Ready(ctx.audit) && InFork(ctx.audit.st) && id in ctx.scopes[0].branches
      requires ctx.currentEvent == Some(ev) && GateOpen(ctx.cfg.def, ctx.scopes[0].branches[id].currentNode, ev)
      modifies ctx
      ensures ctx.Tracked() && Ready(ctx.audit) && Went(old(MarkOf(ctx)), MarkOf(ctx)) && InFork(ctx.audit.st)
      ensures OnlyBranch(old(ctx.audit), ctx.audit, id) && ctx.currentEvent == old(ctx.currentEvent)
      ensures ctx.scopes[0].branches.Keys == old(ctx.scopes[0].branches.Keys)
      ensures heard == Hears(ctx.cfg, old(ctx.audit.st), old(ctx.scopes[0].branches[id]), ev)
      ensures !heard ==> OnlyVisits(old(ctx.audit), ctx.audit)
      ensures Offered(ctx.cfg, old(ctx.audit), old(ctx.log), ctx.audit, ctx.log, old(ctx.scopes[0].branches[id]), ev)
      ensures FedAlone(ctx.cfg, old(ctx.audit), ctx.audit, id, heard, ev)
    {
      hide Reach, Legal, Advance, Apply, Went, OnlyBranch, Hears, GateOpen, OnlyVisits, Offered, EndsBy, EndedSince;
      ghost var m := MarkOf(ctx);
      ctx.ScopesKnown();
      ArrivedHasJoin(ctx.cfg, ctx.audit.st, id);
      heard := FeedBranch(ctx, id, ev);
      WentByBranch(m, MarkOf(ctx), id);
      StaysInFork(m.audit, ctx.audit, id);
      SameEvent(m.audit, ctx.audit, id);
    }

    /** What feeding one branch did, where that can be foretold. */
    ghost predicate FedAlone(cfg: Config, a: Audit, c: Audit, id: BranchId, heard: bool, ev: Event) {
      && |a.st.scopes| == 1 && id in a.st.scopes[0].branches
      && var b := a.st.scopes[0].branches[id];
         && (EndsBy(cfg, a.st, b, ev) ==> EndedSince(a, c, b, ev.principal))
         && (!heard ==>
               && OnlyVisits(a, c)
               && forall n: string :: n != b.currentNode ==> VisitsOf(c.st.visits, n) == VisitsOf(a.st.visits, n))
    }

    lemma FedTheSame(cfg: Config, s: State, t: State, b: BranchState, ev: Event)
      requires t.vars == s.vars && SameSlot(s.waitings, t.waitings, BranchSlot(b.id))
      requires |s.scopes| == 1 && |t.scopes| == 1 && t.scopes[0].join == s.scopes[0].join
      requires VisitsOf(t.visits, s.scopes[0].join) == VisitsOf(s.visits, s.scopes[0].join)
      ensures Hears(cfg, s, b, ev) <==> Hears(cfg, t, b, ev)
      ensures EndsBy(cfg, s, b, ev) <==> EndsBy(cfg, t, b, ev)
    {
      hide FedRoute, EnterEnv;
    }

    lemma GatheredNone(cfg: Config, a: Audit, ev: Event)
      requires |a.st.scopes| == 1
      ensures GatheredBut(cfg, a, a, a.st.scopes[0].branches.Keys, ev)
    {
      hide Hears;
      var s := a.st.scopes[0];
      assert Gathered(cfg, a.st, s.branches.Keys, ev).branches == s.branches;
    }

    lemma GatheredIdle(cfg: Config, a: Audit, c: Audit, left: set<BranchId>, id: BranchId, ev: Event)
      requires GatheredBut(cfg, a, c, left, ev) && id in left && id in a.st.scopes[0].branches && a.st.scopes[0].branches[id].status != Waiting
      ensures GatheredBut(cfg, a, c, left - {id}, ev)
    {
      hide Hears;
      assert Gathered(cfg, a.st, left - {id}, ev).branches == Gathered(cfg, a.st, left, ev).branches;
    }

    lemma GatheredMore(cfg: Config, a: Audit, b: Audit, c: Audit, left: set<BranchId>, id: BranchId, heard: bool, ev: Event)
      requires Gathers(cfg, a.st, ev) && GatheredBut(cfg, a, b, left, ev)
      requires id in left && BranchOpen(a.st, id) && a.st.scopes[0].branches[id].status == Waiting
      requires SameSlot(a.st.waitings, b.st.waitings, BranchSlot(id))
      requires FedAlone(cfg, b, c, id, heard, ev) && heard == Hears(cfg, b.st, a.st.scopes[0].branches[id], ev)
      requires c.st.keys == b.st.keys && c.st.event == b.st.event
      ensures GatheredBut(cfg, a, c, left - {id}, ev)
    {
      hide Hears, EndsBy, VisitsGrow;
      var s, br := a.st.scopes[0], a.st.scopes[0].branches[id];
      FedTheSame(cfg, a.st, b.st, br, ev);
      assert b.st.scopes[0].branches[id] == br;
      var next := Gathered(cfg, a.st, left - {id}, ev);
      assert next.branches == if heard then b.st.scopes[0].branches[id := Ended(br, s.join, ev.principal)] else b.st.scopes[0].branches;
    }

    lemma SameEvent(a: Audit, b: Audit, id: BranchId)
      requires OnlyBranch(a, b, id)
      ensures b.event == a.event
    {
    }

    // -------------------------------------------------------------- operations

    /** Between operations: at rest, every command answered, no inverse lost, and the
        live context the fold of its log. */
    ghost predicate Idle()
      reads ctx
    {
      ctx.Tracked() && Boundary(ctx.cfg, ctx.audit)
    }

    /** Parked outside forks. */
    predicate Parked()
      reads ctx
    {
      ctx.status == Waiting && ctx.scopes == []
    }

    /** A parked node that takes the event but lacks the principal it requires. */
    predicate Unattributed(ev: Event)
      reads ctx
    {
      && Parked() && ctx.currentNode in ctx.cfg.def.nodes
      && !GateOpen(ctx.cfg.def, ctx.currentNode, ev)
    }

    /** The records of Start before anything is stepped: identity, injected variables in any
        order, the first event, the start node. */
    static predicate StartLogged(log: seq<Occ>, start: string, instance: string, execution: string, vars: Env, ev: Event) {
      && |log| >= |vars| + 4 && log[0] == Started(instance, execution)
      && (forall i | 1 <= i <= |vars| :: Injection(log[i], vars))
      && log[|vars| + 1].EventConsumed? && log[|vars| + 1].key == KeyOf(ev.id) && log[|vars| + 1].event == Some(ev)
      && log[|vars| + 2] == NodeSet(start) && log[|vars| + 3] == StatusSet(Running)
    }

    /** The instance as it is first stepped, its dedup key and folded event aside. */
    static function StartState(def: ProcessDef, instance: string, execution: string, vars: Env): State {
      NewState(def).(instanceID := instance, executionID := execution, vars := def.varInit + vars,
                     node := def.startNode, status := Running)
    }

    static ghost function StartMark(cfg: Config, instance: string, execution: string, vars: Env, clock: int): Mark {
      Mark([], NewAudit(cfg).(st := StartState(cfg.def, instance, execution, vars), moves := 1), map[], map[], clock)
    }

    /** The instance was put on its start node, in the state and with the event it starts from. */
    static ghost predicate StartedFrom(cfg: Config, log: seq<Occ>, instance: string, execution: string, vars: Env, ev: Event) {
      && Reach(cfg, log).Some? && |vars| + 4 <= |log| && Guarantees.Jump(log, |vars| + 2)
      && var a := Guarantees.At(cfg, log, |vars| + 4);
         a.event == Some(ev) && a.st == StartState(cfg.def, instance, execution, vars).(keys := a.st.keys, event := a.st.event)
    }

    /** Start: the identity, the variables, the first event, and the first drain. */
    method Start(instance: string, execution: string, vars: Env, ev: Event)
      requires ctx.Tracked() && ctx.audit == NewAudit(ctx.cfg) && ctx.log == [] && ctx.processedEvents == map[]
      modifies ctx
      ensures Idle() && ctx.status != Pending && ctx.log != []
      ensures ctx.instanceID == instance && ctx.executionID == execution
      ensures ctx.log[0] == Started(instance, execution) && ctx.currentEvent == Some(ev)
      ensures |ctx.processedEvents| <= MAX_EVENTS && ctx.clock >= old(ctx.clock)
      ensures forall k <- ctx.processedEvents :: Some(k) == KeyOf(ev.id)
      ensures Finished(ctx.cfg, old(MarkOf(ctx)), MarkOf(ctx))
      ensures ctx.cfg.def.startNode in ctx.cfg.def.nodes ==>
        Performed(NewAudit(ctx.cfg), ctx.audit, NodeCommands(execution, ctx.cfg.def.nodes[ctx.cfg.def.startNode], 1))
      ensures StartLogged(ctx.log, ctx.cfg.def.startNode, instance, execution, vars, ev)
      ensures FirstStep(ctx.cfg, StartMark(ctx.cfg, instance, execution, vars, old(ctx.clock)), MarkOf(ctx))
      ensures StartedFrom(ctx.cfg, ctx.log, instance, execution, vars, ev)
    {
      hide Reach, Legal, Advance, Apply, AtRest, Poised, Went, Boundary, Finished, Performed, NodeCommands, WornOut, FirstStep,
           StartLogged, StartState, StartedFrom;
      ghost var m := MarkOf(ctx);
      StartRecords(instance, execution, vars, ev);
      ghost var n := MarkOf(ctx);
      StartUngated(ctx.cfg, ctx.audit);
      Drain();
      WentToRest(ctx.cfg, n, MarkOf(ctx));
      FinishedLonger(ctx.cfg, m, n, MarkOf(ctx));
      StartPerforms(ctx.cfg, n.audit, ctx.audit);
      StartShown(ctx.cfg, instance, execution, vars, ev, m.clock, n, MarkOf(ctx));
    }

    lemma StartShown(cfg: Config, instance: string, execution: string, vars: Env, ev: Event, clock: int, n: Mark, o: Mark)
      requires StartLogged(n.log, cfg.def.startNode, instance, execution, vars, ev) && n.log <= o.log
      requires n.audit.st == StartState(cfg.def, instance, execution, vars).(keys := n.audit.st.keys, event := n.audit.st.event)
      requires n.audit.moves == 1 && FirstStep(cfg, n, o)
      requires |n.log| == |vars| + 4 && Reach(cfg, n.log) == Some(n.audit) && Reach(cfg, o.log).Some? && n.audit.event == Some(ev)
      ensures StartedFrom(cfg, o.log, instance, execution, vars, ev)
      ensures StartLogged(o.log, cfg.def.startNode, instance, execution, vars, ev) && o.log != []
      ensures FirstStep(cfg, StartMark(cfg, instance, execution, vars, clock), o)
      ensures o.log[0] == Started(instance, execution)
    {
      hide FirstStep, Reach;
      assert o.log[..|vars| + 4] == n.log;
      assert o.log[|vars| + 2] == n.log[|vars| + 2] && o.log[|vars| + 3] == n.log[|vars| + 3];
      FirstStepSooner(cfg, StartMark(cfg, instance, execution, vars, clock), n, o);
    }

    lemma StartPerforms(cfg: Config, a: Audit, b: Audit)
      requires a.st.visits == map[] && a.st.results == []
      ensures a.st.node in cfg.def.nodes ==> !WornOut(cfg, a, a.st.node)
      ensures forall cmds: seq<Command> :: Performed(a, b, cmds) ==> Performed(NewAudit(cfg), b, cmds)
    {
    }

    lemma StartUngated(cfg: Config, a: Audit)
      requires a.landing == Some(a.st.vars) && a.steps == 0 && a.popped.None?
      ensures Poised(cfg, a, a.st.node)
    {
    }

    method StartRecords(instance: string, execution: string, vars: Env, ev: Event)
      requires ctx.Tracked() && ctx.audit == NewAudit(ctx.cfg) && ctx.log == [] && ctx.processedEvents == map[]
      modifies ctx
      ensures ctx.Tracked() && Begun(ctx.cfg, ctx.audit) && ctx.status == Running && ctx.audit.landing == Some(ctx.variables) && ctx.audit.moves == 1
      ensures ctx.audit.steps == 0 && ctx.audit.popped.None?
      ensures ctx.log != [] && ctx.log[0] == Started(instance, execution)
      ensures ctx.instanceID == instance && ctx.executionID == execution
      ensures ctx.currentNode == ctx.cfg.def.startNode && ctx.visitCounts == map[] && ctx.results == []
      ensures ctx.variables == ctx.cfg.def.varInit + vars && ctx.currentEvent == Some(ev)
      ensures StartLogged(ctx.log, ctx.cfg.def.startNode, instance, execution, vars, ev) && |ctx.log| == |vars| + 4
      ensures ctx.audit.st == StartState(ctx.cfg.def, instance, execution, vars).(keys := ctx.audit.st.keys, event := ctx.audit.st.event)
      ensures |ctx.processedEvents| <= MAX_EVENTS && ctx.clock >= old(ctx.clock)
      ensures forall k <- ctx.processedEvents :: Some(k) == KeyOf(ev.id)
    {
      hide Reach, Legal, Advance, Apply, Begun, OnlyVariables, StartLogged, StartState, Injection;
      Identify(instance, execution);
      ghost var a := ctx.audit;
      BegunReady(ctx.cfg, a);
      SetAll(vars);
      ghost var b, injected := ctx.audit, ctx.log;
      BegunKept(ctx.cfg, a, b);
      FirstEvent(ev);
      ghost var consumed := ctx.log;
      FirstNode();
      StartAssembled(ctx.cfg.def, injected, consumed, ctx.log, instance, execution, vars, ev);
      StartReached(ctx.cfg.def, a.st, b.st, ctx.audit.st, instance, execution, vars);
    }

    lemma StartAssembled(def: ProcessDef, injected: seq<Occ>, consumed: seq<Occ>, log: seq<Occ>,
                         instance: string, execution: string, vars: Env, ev: Event)
      requires |injected| == 1 + |vars| && injected[0] == Started(instance, execution)
      requires forall i | 1 <= i < |injected| :: Injection(injected[i], vars)
      requires injected < consumed && |consumed| == |injected| + 1
      requires var o := consumed[|injected|]; o.EventConsumed? && o.key == KeyOf(ev.id) && o.event == Some(ev)
      requires log == consumed + [NodeSet(def.startNode), StatusSet(Running)]
      ensures StartLogged(log, def.startNode, instance, execution, vars, ev) && |log| == |vars| + 4
    {
      hide Injection;
    }

    lemma StartReached(def: ProcessDef, s: State, t: State, u: State, instance: string, execution: string, vars: Env)
      requires s == NewState(def).(instanceID := instance, executionID := execution)
      requires t == s.(vars := def.varInit + vars)
      requires u == t.(keys := u.keys, event := u.event, node := def.startNode, status := Running)
      ensures u == StartState(def, instance, execution, vars).(keys := u.keys, event := u.event)
    {
    }

    lemma BegunReady(cfg: Config, a: Audit)
      requires Begun(cfg, a)
      ensures Ready(a)
    {
    }

    lemma BegunKept(cfg: Config, a: Audit, b: Audit)
      requires Begun(cfg, a) && OnlyVariables(a, b)
      ensures Begun(cfg, b) && b.moves == a.moves && b.st == a.st.(vars := b.st.vars)
    {
    }

    method FirstNode()
      requires ctx.Tracked() && Begun(ctx.cfg, ctx.audit) && ctx.status == Pending
      modifies ctx
      ensures ctx.Tracked() && Begun(ctx.cfg, ctx.audit) && old(ctx.log) <= ctx.log
      ensures ctx.audit.landing == Some(ctx.variables) && ctx.audit.steps == 0 && ctx.audit.popped.None?
      ensures ctx.audit.moves == old(ctx.audit.moves) + 1
      ensures ctx.log == old(ctx.log) + [NodeSet(ctx.cfg.def.startNode), StatusSet(Running)]
      ensures ctx.audit.st == old(ctx.audit.st).(node := ctx.cfg.def.startNode, status := Running)
      ensures ctx.currentEvent == old(ctx.currentEvent)
      ensures ctx.processedEvents == old(ctx.processedEvents) && ctx.clock == old(ctx.clock)
    {
      hide Reach, Legal, Advance, Apply;
      ctx.SetNode(ctx.cfg.def.startNode);
      ctx.SetStatus(Running);
    }

    /** A pending instance that has recorded nothing but its identity and variables. */
    ghost predicate Begun(cfg: Config, a: Audit) {
      Ready(a) && Linear(a.st) && Open(a) == {} && a.scars == UNSCARRED
    }

    method Identify(instance: string, execution: string)
      requires ctx.Tracked() && ctx.audit == NewAudit(ctx.cfg) && ctx.log == []
      modifies ctx
      ensures ctx.Tracked() && Begun(ctx.cfg, ctx.audit) && ctx.status == Pending
      ensures ctx.audit.st == NewState(ctx.cfg.def).(instanceID := instance, executionID := execution)
      ensures ctx.log == [Started(instance, execution)] && ctx.audit.moves == 0
      ensures ctx.processedEvents == old(ctx.processedEvents) && ctx.clock == old(ctx.clock)
    {
      hide Reach, Legal;
      ctx.RecordStarted(instance, execution);
    }

    /** `now` is `base` with the variables outside `left` injected. */
    ghost predicate Injected(base: Env, vars: Env, left: set<string>, now: Env) {
      now == base + (vars - left)
    }

    lemma InjectedNone(base: Env, vars: Env)
      ensures Injected(base, vars, vars.Keys, base)
    {
    }

    lemma InjectedMore(base: Env, vars: Env, left: set<string>, now: Env, k: string)
      requires k in left && left <= vars.Keys && Injected(base, vars, left, now)
      ensures Injected(base, vars, left - {k}, now[k := vars[k]])
    {
    }

    lemma InjectedAll(base: Env, vars: Env, now: Env)
      requires Injected(base, vars, {}, now)
      ensures now == base + vars
    {
      assert vars - {} == vars;
    }

    /** The records from `log0` to `log` inject the variables outside `left`, one each. */
    ghost predicate InjectedLog(log0: seq<Occ>, log: seq<Occ>, vars: Env, left: set<string>) {
      && log0 <= log && |log| == |log0| + |vars.Keys - left|
      && forall i | |log0| <= i < |log| :: Injection(log[i], vars)
    }

    static predicate Injection(o: Occ, vars: Env) {
      o.VariableSet? && o.name in vars && o.value == vars[o.name]
    }

    lemma InjectedLogNone(log: seq<Occ>, vars: Env)
      ensures InjectedLog(log, log, vars, vars.Keys)
    {
      assert vars.Keys - vars.Keys == {};
    }

    lemma InjectedLogMore(log0: seq<Occ>, log: seq<Occ>, vars: Env, left: set<string>, k: string)
      requires k in left && left <= vars.Keys && InjectedLog(log0, log, vars, left)
      ensures InjectedLog(log0, log + [VariableSet(k, vars[k])], vars, left - {k})
    {
      assert vars.Keys - (left - {k}) == vars.Keys - left + {k};
    }

    lemma InjectedLogAll(log0: seq<Occ>, log: seq<Occ>, vars: Env)
      requires InjectedLog(log0, log, vars, {})
      ensures |log| == |log0| + |vars| && forall i | |log0| <= i < |log| :: Injection(log[i], vars)
    {
      assert vars.Keys - {} == vars.Keys;
    }

    method SetOne(k: string, v: Value)
      requires ctx.Tracked() && Ready(ctx.audit) && ctx.status == Pending
      modifies ctx
      ensures ctx.Tracked() && OnlyVariables(old(ctx.audit), ctx.audit) && old(ctx.log) <= ctx.log
      ensures ctx.log == old(ctx.log) + [VariableSet(k, v)]
      ensures ctx.variables == old(ctx.variables)[k := v]
      ensures ctx.processedEvents == old(ctx.processedEvents) && ctx.clock == old(ctx.clock)
    {
      hide Reach, Legal, Advance, Apply;
      ctx.SetVariable(k, v);
    }

    /** The injected variables, in any order. */
    method SetAll(vars: Env)
      requires ctx.Tracked() && Ready(ctx.audit) && ctx.status == Pending
      modifies ctx
      ensures ctx.Tracked() && OnlyVariables(old(ctx.audit), ctx.audit) && old(ctx.log) <= ctx.log
      ensures |ctx.log| == |old(ctx.log)| + |vars|
      ensures forall i | |old(ctx.log)| <= i < |ctx.log| :: Injection(ctx.log[i], vars)
      ensures ctx.variables == old(ctx.variables) + vars
      ensures ctx.processedEvents == old(ctx.processedEvents) && ctx.clock == old(ctx.clock)
    {
      hide Reach, Legal, Advance, Apply, OnlyVariables, Injected, InjectedLog;
      ghost var a, base := ctx.audit, ctx.variables;
      VariablesRefl(a);
      InjectedNone(base, vars);
      InjectedLogNone(ctx.log, vars);
      var left := vars.Keys;
      while left != {}
        invariant left <= vars.Keys
        invariant ctx.Tracked() && OnlyVariables(a, ctx.audit) && old(ctx.log) <= ctx.log
        invariant InjectedLog(old(ctx.log), ctx.log, vars, left)
        invariant Injected(base, vars, left, ctx.variables)
        invariant ctx.processedEvents == old(ctx.processedEvents) && ctx.clock == old(ctx.clock)
        decreases left
      {
        var k :| k in left;
        ghost var b, now, log := ctx.audit, ctx.variables, ctx.log;
        VariablesStatus(a, b);
        SetOne(k, vars[k]);
        VariablesTrans(a, b, ctx.audit);
        InjectedMore(base, vars, left, now, k);
        InjectedLogMore(old(ctx.log), log, vars, left, k);
        left := left - {k};
      }
      InjectedAll(base, vars, ctx.variables);
      InjectedLogAll(old(ctx.log), ctx.log, vars);
    }

    /** The first event: on a fresh instance it is never a duplicate. */
    method FirstEvent(ev: Event)
      requires ctx.Tracked() && Begun(ctx.cfg, ctx.audit) && ctx.status == Pending && ctx.processedEvents == map[]
      requires ctx.audit.st.keys == {}
      modifies ctx
      ensures ctx.Tracked() && Begun(ctx.cfg, ctx.audit) && old(ctx.log) < ctx.log
      ensures |ctx.log| == |old(ctx.log)| + 1
      ensures var o := ctx.log[|old(ctx.log)|]; o.EventConsumed? && o.key == KeyOf(ev.id) && o.event == Some(ev)
      ensures ctx.audit.st == old(ctx.audit.st).(keys := ctx.audit.st.keys, event := ctx.audit.st.event)
      ensures ctx.currentEvent == Some(ev) && |ctx.processedEvents| <= MAX_EVENTS && ctx.clock >= old(ctx.clock)
      ensures ctx.audit.moves == old(ctx.audit.moves)
      ensures forall k <- ctx.processedEvents :: Some(k) == KeyOf(ev.id)
    {
      hide Reach, Legal, Advance, Apply;
      assert Admissible(ctx.cfg, ctx.audit, ev);
      var ok, o := ctx.AcceptEvent(ev);
      assert ok;
    }

    // ------------------------------------------------------------------- feed

    /** An event this instance takes now: it is not terminal, has a place for the event,
        misses no principal, and has not consumed the id. */
    ghost predicate Takes(ev: Event)
      reads ctx
    {
      && !IsTerminal(ctx.status)
      && (Parked() ==> ctx.currentNode in ctx.cfg.def.nodes && NodeAccepts(ctx.cfg.def.nodes[ctx.currentNode], ev.name))
      && !Unattributed(ev)
      && BranchGatesOpen(ctx.cfg.def, ctx.scopes, ev)
      && (KeyOf(ev.id).Some? ==> KeyOf(ev.id).value !in ctx.processedEvents)
    }

    lemma RestFacts(cfg: Config, a: Audit)
      requires Boundary(cfg, a) && !IsTerminal(a.st.status)
      ensures a.st.status in {Pending, Waiting} && TimersOwned(a.st)
      ensures a.st.scopes == [] || (|a.st.scopes| == 1 && !Settled(a.st.scopes[0]) && a.st.status == Waiting)
      ensures a.st.status == Pending ==> a.st == NewState(cfg.def)
      ensures a.st.status == Waiting && a.st.scopes == [] ==> WaitsAt(cfg.def, a.st.node)
      ensures Open(a) == {} && a.scars == UNSCARRED && Ready(a)
    {
    }

    lemma TakesAdmissible(ev: Event)
      requires ctx.Tracked() && Boundary(ctx.cfg, ctx.audit) && Takes(ev)
      ensures Admissible(ctx.cfg, ctx.audit, ev) && BranchGatesOpen(ctx.cfg.def, ctx.scopes, ev)
      ensures ctx.scopes == [] && Gated(ctx.cfg.def, ctx.currentNode) ==>
        ValidDecisionPrincipal(ctx.cfg.def.nodes[ctx.currentNode], ev.principal)
    {
      RestFacts(ctx.cfg, ctx.audit);
      assert ctx.audit.st.status == Pending ==> ctx.cfg == ctx.cfg && ctx.currentNode == "";
    }

    /** Feed: a refused event leaves no trace. A taken one is recorded, with the
        attribution its payload declares, and drives the instance; one that no waiting
        branch hears leaves nothing behind but visit counts, and its id free. */
    method Feed(given: Event) returns (f: Feedback)
      requires Idle()
      modifies ctx
      ensures Idle() && old(ctx.log) <= ctx.log && old(ctx.clock) <= ctx.clock
      ensures old(|ctx.processedEvents|) <= MAX_EVENTS ==> |ctx.processedEvents| <= MAX_EVENTS
      ensures f == RefusedTerminal <==> IsTerminal(old(ctx.status))
      ensures f == RefusedEvent <==>
        old(Parked() && !NodeAccepts(ctx.cfg.def.nodes[ctx.currentNode], Attribute(given).name))
      ensures f == RefusedPrincipal ==>
        old(Unattributed(Attribute(given)) || !BranchGatesOpen(ctx.cfg.def, ctx.scopes, Attribute(given)))
      ensures f == RefusedDuplicate ==> old(ctx.Seen(KeyOf(given.id)))
      ensures Refused(f) <==> !old(Takes(Attribute(given)))
      ensures Refused(f) ==> ctx.Unchanged()
      ensures !Refused(f) ==> |ctx.log| > |old(ctx.log)| && ctx.currentEvent == Some(old(Attribute(given)))
      ensures !Refused(f) ==>
        var o := ctx.log[|old(ctx.log)|];
        o.EventConsumed? && o.key == KeyOf(given.id) && o.event == Some(old(Attribute(given)))
      ensures f in {Unhandled, Expired} ==> old(ctx.scopes) != [] && !Heard(ctx.cfg, old(ctx.audit.st), old(Attribute(given)))
      ensures f == Handled && old(ctx.scopes) != [] ==> Heard(ctx.cfg, old(ctx.audit.st), old(Attribute(given)))
      ensures !Refused(f) && old(ctx.scopes) != [] ==>
        && OfferedBut(ctx.cfg, old(MarkOf(ctx)), MarkOf(ctx), {}, old(Attribute(given)))
        && SettledBy(ctx.cfg, old(MarkOf(ctx)), MarkOf(ctx), old(Attribute(given)))
      ensures !Refused(f) && old(ctx.scopes) == [] ==> Driven(ctx.cfg, old(MarkOf(ctx)), MarkOf(ctx))
      ensures f == Unhandled ==> Undisturbed(old(ctx.Live()), ctx.Live())
      ensures f == Unhandled && old(|ctx.processedEvents|) < MAX_EVENTS ==>
        ctx.processedEvents.Keys == old(ctx.processedEvents.Keys)
      ensures f == Expired ==> ctx.status == TimedOut
    {
      hide Reach, Legal, Advance, Apply, AtRest, Went, Boundary, GateOpen, NodeAccepts, Hears, BranchGatesOpen, AwaitsCallback, Settled, OfferedBut, SettledBy, Driven, NodeCommands;
      if IsTerminal(ctx.status) {
        return RefusedTerminal;
      }
      RestFacts(ctx.cfg, ctx.audit);
      var ev := Attribute(given);
      if Parked() {
        if !NodeAccepts(ctx.cfg.def.nodes[ctx.currentNode], ev.name) {
          return RefusedEvent;
        }
        if Unattributed(ev) {
          return RefusedPrincipal;
        }
      }
      var open := CheckBranchPrincipals(ev);
      if !open {
        return RefusedPrincipal;
      }
      f := Consume(ev);
    }

    /** AcceptEvent and what the event drives. */
    method Consume(ev: Event) returns (f: Feedback)
      requires Idle() && !IsTerminal(ctx.status)
      requires !ctx.Seen(KeyOf(ev.id)) ==> Takes(ev)
      modifies ctx
      ensures Idle() && old(ctx.log) <= ctx.log && old(ctx.clock) <= ctx.clock
      ensures f in {RefusedDuplicate, Handled, Unhandled, Expired}
      ensures old(|ctx.processedEvents|) <= MAX_EVENTS ==> |ctx.processedEvents| <= MAX_EVENTS
      ensures f == RefusedDuplicate <==> old(ctx.Seen(KeyOf(ev.id)))
      ensures Refused(f) ==> ctx.Unchanged()
      ensures !Refused(f) ==> |ctx.log| > |old(ctx.log)| && ctx.currentEvent == Some(ev)
      ensures !Refused(f) ==>
        var o := ctx.log[|old(ctx.log)|];
        o.EventConsumed? && o.key == KeyOf(ev.id) && o.event == Some(ev)
      ensures f in {Unhandled, Expired} ==> old(ctx.scopes) != [] && !Heard(ctx.cfg, old(ctx.audit.st), ev)
      ensures f == Handled && old(ctx.scopes) != [] ==> Heard(ctx.cfg, old(ctx.audit.st), ev)
      ensures !Refused(f) && old(ctx.scopes) != [] ==>
        OfferedBut(ctx.cfg, old(MarkOf(ctx)), MarkOf(ctx), {}, ev) && SettledBy(ctx.cfg, old(MarkOf(ctx)), MarkOf(ctx), ev)
      ensures !Refused(f) && old(ctx.scopes) == [] ==> Driven(ctx.cfg, old(MarkOf(ctx)), MarkOf(ctx))
      ensures f == Unhandled ==> Undisturbed(old(ctx.Live()), ctx.Live())
      ensures f == Unhandled && old(|ctx.processedEvents|) < MAX_EVENTS ==>
        ctx.processedEvents.Keys == old(ctx.processedEvents.Keys)
      ensures f == Expired ==> ctx.status == TimedOut
    {
      hide Reach, Legal, Advance, Apply, AtRest, Went, Boundary, Takes, GateOpen, NodeAccepts, BranchGatesOpen, Settled, Heard, Poised, Admissible, OfferedBut, SettledBy, Driven, NodeCommands, Undisturbed, Without;
      ghost var m := MarkOf(ctx);
      var ok := Admit(ev);
      if !ok {
        return RefusedDuplicate;
      }
      ghost var n := MarkOf(ctx);
      if ctx.scopes == [] {
        FeedLinear();
        DrivenSooner(ctx.cfg, m, n, MarkOf(ctx));
        f := Handled;
      } else {
        ghost var s := ctx.Live();
        f := FeedFork(ev);
        UndisturbedSooner(old(ctx.Live()), s, ctx.Live());
        HeardSame(ctx.cfg, m.audit.st, n.audit.st, ev);
        OfferedEarlier(ctx.cfg, m, n, MarkOf(ctx), ev);
        SettledEarlier(ctx.cfg, m, n, MarkOf(ctx), ev);
      }
    }

    lemma SettledEarlier(cfg: Config, m: Mark, n: Mark, o: Mark, ev: Event)
      requires SettledBy(cfg, n, o, ev) && m.log <= n.log && n.audit.moves == m.audit.moves
      requires n.audit.st == m.audit.st.(keys := n.audit.st.keys, event := n.audit.st.event)
      ensures SettledBy(cfg, m, o, ev)
    {
      var mid: Mark :| SettlesFrom(cfg, n, mid, o, ev);
      OfferedEarlier(cfg, m, n, mid, ev);
      if Gathers(cfg, m.audit.st, ev) {
        GatheredEarlier(cfg, m.audit, n.audit, mid.audit, ev);
      }
      hide Reach, OfferedBut, Settles, Gathers, GatheredBut;
      assert SettlesFrom(cfg, m, mid, o, ev);
    }

    lemma GatheredEarlier(cfg: Config, a: Audit, b: Audit, c: Audit, ev: Event)
      requires Gathers(cfg, a.st, ev) && b.moves == a.moves && b.st == a.st.(keys := b.st.keys, event := b.st.event)
      ensures Gathers(cfg, b.st, ev)
      ensures GatheredBut(cfg, b, c, {}, ev) ==> GatheredBut(cfg, a, c, {}, ev)
    {
      hide Hears, EndsBy;
      var s := a.st.scopes[0];
      forall id | id in s.branches
        ensures Hears(cfg, a.st, s.branches[id], ev) == Hears(cfg, b.st, s.branches[id], ev)
        ensures EndsBy(cfg, a.st, s.branches[id], ev) == EndsBy(cfg, b.st, s.branches[id], ev)
      {
        FedTheSame(cfg, a.st, b.st, s.branches[id], ev);
      }
      assert Gathered(cfg, a.st, {}, ev).branches == Gathered(cfg, b.st, {}, ev).branches;
    }

    lemma UndisturbedSooner(s: State, t: State, u: State)
      requires t == s.(event := t.event, keys := t.keys)
      ensures Undisturbed(t, u) ==> Undisturbed(s, u)
    {
    }

    /** The event is recorded, unless its id was consumed before. */
    method Admit(ev: Event) returns (ok: bool)
      requires Idle() && !IsTerminal(ctx.status)
      requires !ctx.Seen(KeyOf(ev.id)) ==> Takes(ev)
      modifies ctx
      ensures ctx.Tracked() && old(ctx.log) <= ctx.log && old(ctx.clock) <= ctx.clock
      ensures ok == !old(ctx.Seen(KeyOf(ev.id)))
      ensures !ok ==> Idle() && ctx.Unchanged()
      ensures ok ==> ctx.audit.st == old(ctx.audit.st).(keys := ctx.audit.st.keys, event := ctx.audit.st.event)
      ensures old(|ctx.processedEvents|) <= MAX_EVENTS ==> |ctx.processedEvents| <= MAX_EVENTS
      ensures ok ==> ctx.currentEvent == Some(ev) && ctx.audit.moves == old(ctx.audit.moves)
      ensures ok && old(|ctx.processedEvents|) < MAX_EVENTS ==>
        Without(ctx.processedEvents, ev.id).Keys == old(ctx.processedEvents.Keys)
      ensures ok ==> ctx.Live() == old(ctx.Live()).(event := ctx.currentEvent, keys := ctx.processedEvents.Keys)
      ensures ok ==> |ctx.log| == |old(ctx.log)| + 1
      ensures ok ==>
        var o := ctx.log[|old(ctx.log)|];
        o.EventConsumed? && o.key == KeyOf(ev.id) && o.event == Some(ev)
      ensures ok ==> Ready(ctx.audit) && Open(ctx.audit) == {} && ctx.audit.scars == UNSCARRED && TimersOwned(ctx.audit.st)
      ensures ok ==> BranchGatesOpen(ctx.cfg.def, ctx.scopes, ev) 
      ensures ok && ctx.scopes == [] ==> Poised(ctx.cfg, ctx.audit, ctx.currentNode)
      ensures ok && ctx.scopes != [] ==> |ctx.scopes| == 1 && !Settled(ctx.scopes[0]) && ctx.status == Waiting
    {
      hide Reach, Legal, Advance, Apply, AtRest, Boundary, Takes, GateOpen, NodeAccepts, BranchGatesOpen, Settled, Poised, Admissible, NodeCommands, Without, TimersOwned, Open, Gated, ValidDecisionPrincipal;
      RestFacts(ctx.cfg, ctx.audit);
      ghost var a := ctx.audit;
      if !ctx.Seen(KeyOf(ev.id)) {
        TakesAdmissible(ev);
      }
      ghost var o;
      ok, o := ctx.AcceptEvent(ev);
      if ok {
        AcceptedFacts(ctx.cfg, a, ctx.audit, ev);
        ReleaseRestores(old(ctx.processedEvents), ctx.processedEvents, ev.id);
      }
    }

    lemma ReleaseRestores(before: map<Key, int>, table: map<Key, int>, id: string)
      ensures table.Keys == With(before.Keys, KeyOf(id)) && (id != "" ==> External(id) !in before) ==>
        Without(table, id).Keys == before.Keys
    {
    }

    lemma DrivenSooner(cfg: Config, m: Mark, n: Mark, o: Mark)
      requires Driven(cfg, n, o) && m.log <= n.log && m.audit.moves == n.audit.moves
      requires n.audit.st == m.audit.st.(
        keys := n.audit.st.keys, event := n.audit.st.event, waitings := n.audit.st.waitings, status := n.audit.st.status)
      requires n.audit.st.waitings - {Instance} == m.audit.st.waitings - {Instance}
      ensures Driven(cfg, m, o)
    {
      hide FirstStep;
      FinishedLonger(cfg, m, n, o);
      FirstStepSooner(cfg, m, n, o);
    }

    lemma OfferedEarlier(cfg: Config, m: Mark, n: Mark, o: Mark, ev: Event)
      requires OfferedBut(cfg, n, o, {}, ev) && m.log <= n.log <= o.log
      requires n.audit.st == m.audit.st.(keys := n.audit.st.keys, event := n.audit.st.event)
      ensures OfferedBut(cfg, m, o, {}, ev)
    {
      hide Offered;
      var s := m.audit.st.scopes[0];
      forall b | b in s.branches && s.branches[b].status == Waiting
        ensures Offered(cfg, m.audit, m.log, o.audit, o.log, s.branches[b], ev)
      {
        OfferedSooner(cfg, m.audit, m.log, n.audit, n.log, o.audit, o.log, s.branches[b], ev);
      }
    }

    lemma OfferedLater(cfg: Config, m: Mark, n: Mark, o: Mark, ev: Event)
      requires OfferedBut(cfg, m, n, {}, ev) && WentOn(n, o)
      ensures OfferedBut(cfg, m, o, {}, ev)
    {
      hide Offered, LaterSlots;
      var s := m.audit.st.scopes[0];
      forall b | b in s.branches && s.branches[b].status == Waiting
        ensures Offered(cfg, m.audit, m.log, o.audit, o.log, s.branches[b], ev)
      {
        OfferedStill(cfg, m.audit, m.log, n.audit, n.log, o.audit, o.log, s.branches[b], ev);
      }
    }

    /** What accepting an event leaves as it was. */
    lemma AcceptedFacts(cfg: Config, a: Audit, c: Audit, ev: Event)
      requires Ready(a) && SameBook(a, c) && c.event == Some(ev)
      requires c.st == a.st.(keys := c.st.keys, event := c.st.event)
      requires c.landing.None?
      ensures TimersOwned(a.st) ==> TimersOwned(c.st)
      ensures Open(c) == Open(a) && c.scars == a.scars && Ready(c)
      ensures Gated(cfg.def, c.st.node) ==> ValidDecisionPrincipal(cfg.def.nodes[c.st.node], ev.principal) ==>
        Poised(cfg, c, c.st.node)
      ensures !Gated(cfg.def, c.st.node) ==> Poised(cfg, c, c.st.node)
    {
    }

    lemma HeardSame(cfg: Config, s: State, t: State, ev: Event)
      requires |s.scopes| == 1 && t == s.(keys := t.keys, event := t.event)
      ensures Heard(cfg, s, ev) == Heard(cfg, t, ev)
    {
      hide Hears;
      forall b <- s.scopes[0].branches ensures Hears(cfg, s, s.scopes[0].branches[b], ev) == Hears(cfg, t, s.scopes[0].branches[b], ev) {
        HearsLocal(cfg, s, t, s.scopes[0].branches[b], ev);
      }
    }

    lemma HearsLocal(cfg: Config, s: State, t: State, b: BranchState, ev: Event)
      requires s.waitings == t.waitings && s.vars == t.vars
      ensures Hears(cfg, s, b, ev) == Hears(cfg, t, b, ev)
    {
    }

    /** The event of a parked instance: it leaves its waiting point and drains. */
    method FeedLinear()
      requires ctx.Tracked() && Ready(ctx.audit) && ctx.scopes == [] && TimersOwned(ctx.audit.st)
      requires Open(ctx.audit) == {} && ctx.audit.scars == UNSCARRED && Poised(ctx.cfg, ctx.audit, ctx.currentNode)
      modifies ctx
      ensures Idle() && old(ctx.log) <= ctx.log && old(ctx.clock) <= ctx.clock
      ensures ctx.currentEvent == old(ctx.currentEvent) && ctx.processedEvents == old(ctx.processedEvents)
      ensures Driven(ctx.cfg, old(MarkOf(ctx)), MarkOf(ctx))
    {
      hide Reach, Legal, Advance, Apply, AtRest, Went, Boundary, Poised, Finished, Performed, WornOut, CommandsAt, Linear;
      ghost var m := MarkOf(ctx);
      ReleaseInstance();
      ghost var n := MarkOf(ctx);
      Drain();
      WentFacts(m, n);
      DrivenSooner(ctx.cfg, m, n, MarkOf(ctx));
      WentTrans(m, n, MarkOf(ctx));
      WentToRest(ctx.cfg, m, MarkOf(ctx));
    }

    method ReleaseInstance()
      requires ctx.Tracked() && Ready(ctx.audit) && ctx.scopes == [] && TimersOwned(ctx.audit.st)
      requires Poised(ctx.cfg, ctx.audit, ctx.currentNode)
      modifies ctx
      ensures ctx.Tracked() && Ready(ctx.audit) && Went(old(MarkOf(ctx)), MarkOf(ctx)) && Linear(ctx.audit.st)
      ensures Poised(ctx.cfg, ctx.audit, ctx.currentNode) 
      ensures ctx.audit.st == old(ctx.audit.st).(waitings := old(ctx.waitings) - {Instance}) && ctx.audit.moves == old(ctx.audit.moves)
    {
      hide Reach, Legal, Advance, Apply, Poised, LaterSlots, Linear, TimersOwned, Went, NodeCommands;
      ghost var m := MarkOf(ctx);
      ctx.ClearWaiting(Instance);
      PoisedStill(ctx.cfg, m.audit, ctx.audit, ctx.currentNode);
      ReleasedFrame(m, MarkOf(ctx));
    }

    lemma ReleasedFrame(m: Mark, n: Mark)
      requires SameBook(m.audit, n.audit) && SameStep(m.audit, n.audit)
      requires n.audit.st == m.audit.st.(waitings := m.audit.st.waitings - {Instance})
      requires m.audit.st.scopes == [] && TimersOwned(m.audit.st)
      requires m.waitings == m.audit.st.waitings && n.waitings == n.audit.st.waitings
      requires m.log <= n.log && m.clock <= n.clock && n.processed == m.processed
      ensures Went(m, n) && Linear(n.audit.st)
    {
      SlotGone(m.waitings, Instance, m.clock);
    }

    lemma PoisedStill(cfg: Config, a: Audit, b: Audit, n: string)
      requires Poised(cfg, a, n) && SameStep(a, b) && b.st.vars == a.st.vars
      ensures Poised(cfg, b, n)
    {
    }

    /** The event of an open fork: every waiting branch is offered it, then the fork
        settles, expires, or waits on; an event nobody heard is released. */
    method FeedFork(ev: Event) returns (f: Feedback)
      requires ctx.Tracked() && Ready(ctx.audit) && InFork(ctx.audit.st) && !Settled(ctx.scopes[0])
      requires Open(ctx.audit) == {} && ctx.audit.scars == UNSCARRED && ctx.status == Waiting
      requires ctx.currentEvent == Some(ev) && BranchGatesOpen(ctx.cfg.def, ctx.scopes, ev)
      modifies ctx
      ensures Idle() && old(ctx.log) <= ctx.log && old(ctx.clock) <= ctx.clock
      ensures ctx.currentEvent == Some(ev)
      ensures f in {Handled, Unhandled, Expired}
      ensures f == Handled <==> Heard(ctx.cfg, old(ctx.audit.st), ev)
      ensures f != Unhandled ==> ctx.processedEvents == old(ctx.processedEvents)
      ensures |ctx.processedEvents| <= old(|ctx.processedEvents|)
      ensures f == Unhandled ==> Undisturbed(old(ctx.Live()), ctx.Live())
      ensures f == Unhandled ==> ctx.processedEvents == Without(old(ctx.processedEvents), ev.id)
      ensures f == Expired ==> ctx.status == TimedOut
      ensures OfferedBut(ctx.cfg, old(MarkOf(ctx)), MarkOf(ctx), {}, ev) && SettledBy(ctx.cfg, old(MarkOf(ctx)), MarkOf(ctx), ev)
    {
      hide Reach, Legal, Advance, Apply, AtRest, Went, WentOn, OfferedBut, Boundary, GateOpen, BranchGatesOpen, Settled, Heard, Hears, OnlyVisits, InFork, WhenRoute, FedRoute, EnterEnv,
           Gathers, GatheredBut, Settles;
      ghost var m := MarkOf(ctx);
      ForkFacts(ctx.audit.st);
      var routed := FeedAll(ev);
      ghost var n := MarkOf(ctx);
      HeardMeaning(ctx.cfg, m.audit.st, ev, routed);
      WentIsOn(m, n);
      WentFacts(m, n);
      ForkFacts(ctx.audit.st);
      if !routed {
        UnheardFacts(m.audit, n.audit);
      }
      f := SettleOrWait(ev, routed);
      OfferedLater(ctx.cfg, m, n, MarkOf(ctx), ev);
      WentOnFacts(n, MarkOf(ctx));
      assert SettlesFrom(ctx.cfg, m, n, MarkOf(ctx), ev);
      WentOnTrans(m, n, MarkOf(ctx));
      WentOnToRest(ctx.cfg, m, MarkOf(ctx));
    }

    method SettleOrWait(ev: Event, routed: bool) returns (f: Feedback)
      requires ctx.Tracked() && Ready(ctx.audit) && InFork(ctx.audit.st)
      requires ctx.currentEvent == Some(ev) && (!routed ==> !Settled(ctx.scopes[0]))
      modifies ctx
      ensures ctx.Tracked() && Ready(ctx.audit) && AtRest(ctx.cfg, ctx.audit.st)
      ensures f in {Handled, Unhandled, Expired} && (f == Handled <==> routed)
      ensures WentOn(old(MarkOf(ctx)), MarkOf(ctx))
      ensures f != Unhandled ==> ctx.processedEvents == old(ctx.processedEvents)
      ensures f == Unhandled ==> ctx.processedEvents == Without(old(ctx.processedEvents), ev.id)
      ensures f == Unhandled ==> ctx.audit.st == old(ctx.audit.st).(status := Waiting, keys := ctx.audit.st.keys)
      ensures f == Expired ==> ctx.status == TimedOut
      ensures Settles(ctx.cfg, old(MarkOf(ctx)), MarkOf(ctx))
    {
      hide Reach, Legal, Advance, Apply, AtRest, Went, WentOn, Settled, InFork, Settles;
      ghost var m := MarkOf(ctx);
      ForkFacts(ctx.audit.st);
      var settled := IsSettled(ctx.scopes[0]);
      if settled {
        SettleScope();
        WentFacts(m, MarkOf(ctx));
        WentIsOn(m, MarkOf(ctx));
        f := Handled;
      } else {
        f := WaitAgain(ev, routed);
        StillOpen(ctx.cfg, m, MarkOf(ctx));
      }
    }

    /** A fork that is not settled neither leaves nor fails. */
    lemma StillOpen(cfg: Config, m: Mark, n: Mark)
      requires |m.audit.st.scopes| == 1 && !Settled(m.audit.st.scopes[0])
      requires n.audit.st == m.audit.st.(status := n.audit.st.status, keys := n.audit.st.keys)
      requires n.audit.st.status in {Waiting, TimedOut} && (m.audit.st.scopes[0].timeout <= 0 ==> n.audit.st.status == Waiting)
      ensures Settles(cfg, m, n)
    {
      hide Satisfied;
    }

    lemma ForkFacts(st: State)
      requires InFork(st)
      ensures |st.scopes| == 1 && TimersOwned(st)
    {
    }

    lemma UnheardFacts(a: Audit, b: Audit)
      requires OnlyVisits(a, b)
      ensures b.st == a.st.(visits := b.st.visits)
    {
    }

    function Without(table: map<Key, int>, id: string): (t: map<Key, int>)
      ensures |t| <= |table|
    {
      assert (table - {External(id)}).Keys <= table.Keys;
      SubsetSmaller((table - {External(id)}).Keys, table.Keys);
      if id == "" then table else table - {External(id)}
    }

    /** Some waiting branch of the open fork reacts to the event. */
    ghost predicate Heard(cfg: Config, st: State, ev: Event) {
      st.scopes != [] && exists b <- st.scopes[0].branches ::
        st.scopes[0].branches[b].status == Waiting && Hears(cfg, st, st.scopes[0].branches[b], ev)
    }

    lemma HeardMeaning(cfg: Config, st: State, ev: Event, routed: bool)
      requires |st.scopes| == 1
      requires routed <==> exists b <- st.scopes[0].branches ::
        st.scopes[0].branches[b].status == Waiting && Hears(cfg, st, st.scopes[0].branches[b], ev)
      ensures routed <==> Heard(cfg, st, ev)
    {
      hide Hears;
    }

    method IsSettled(s: Scope) returns (yes: bool)
      ensures yes == Settled(s)
    {
      hide Satisfied;
      var satisfied := IsSatisfied(s);
      var done := CountDone(s);
      var failed := CountFailed(s);
      yes := satisfied || done == |s.branches| || (s.failFast && failed > 0);
    }

    /** The unsettled fork after an event: it may have timed out; else it waits on. */
    method WaitAgain(ev: Event, routed: bool) returns (f: Feedback)
      requires ctx.Tracked() && Ready(ctx.audit) && InFork(ctx.audit.st) && !Settled(ctx.scopes[0])
      requires ctx.currentEvent == Some(ev)
      modifies ctx
      ensures ctx.Tracked() && Ready(ctx.audit) && AtRest(ctx.cfg, ctx.audit.st)
      ensures f in {Handled, Unhandled, Expired} && (f == Handled <==> routed)
      ensures WentOn(old(MarkOf(ctx)), MarkOf(ctx))
      ensures f != Unhandled ==> ctx.processedEvents == old(ctx.processedEvents)
      ensures f == Unhandled ==> ctx.processedEvents == Without(old(ctx.processedEvents), ev.id)
      ensures f == Unhandled ==> ctx.audit.st == old(ctx.audit.st).(status := Waiting, keys := ctx.audit.st.keys)
      ensures f == Expired ==> ctx.status == TimedOut
      ensures ctx.audit.st == old(ctx.audit.st).(status := ctx.status, keys := ctx.audit.st.keys)
      ensures ctx.status in {Waiting, TimedOut} && (old(ctx.scopes[0].timeout) <= 0 ==> ctx.status == Waiting)
    {
      hide Reach, Legal, Advance, Apply, AtRest, Went, WentOn, Settled, InFork, Satisfied, StatusLegal;
      ghost var m := MarkOf(ctx);
      ForkFacts(ctx.audit.st);
      UnsettledFacts(ctx.scopes[0]);
      var late := TimedOutNow();
      ghost var n := MarkOf(ctx);
      WentIsOn(m, n);
      WentFacts(m, n);
      if late {
        return if routed then Handled else Expired;
      }
      f := if routed then Handled else Unhandled;
      if !routed {
        ReleaseUnheard(ev);
        WentOnTrans(m, n, MarkOf(ctx));
      }
      ghost var o := MarkOf(ctx);
      KeepWaiting();
      WentIsOn(o, MarkOf(ctx));
      WentFacts(o, MarkOf(ctx));
      WentOnTrans(m, o, MarkOf(ctx));
    }

    lemma UnsettledFacts(s: Scope)
      requires !Settled(s)
      ensures !Satisfied(s) && !AllDone(s)
    {
    }

    method ReleaseUnheard(ev: Event)
      requires ctx.Tracked() && Ready(ctx.audit) && InFork(ctx.audit.st) && ctx.currentEvent == Some(ev)
      modifies ctx
      ensures ctx.Tracked() && Ready(ctx.audit) && InFork(ctx.audit.st)
      ensures WentOn(old(MarkOf(ctx)), MarkOf(ctx))
      ensures ctx.audit.st == old(ctx.audit.st).(keys := ctx.audit.st.keys)
      ensures ctx.processedEvents == Without(old(ctx.processedEvents), ev.id)
    {
      hide Reach, Legal, Advance, Apply;
      LaterSlotsRefl(ctx.waitings, ctx.clock);
      ctx.ReleaseEvent(ev.id);
    }

    method KeepWaiting()
      requires ctx.Tracked() && Ready(ctx.audit) && InFork(ctx.audit.st) && !Settled(ctx.scopes[0])
      modifies ctx
      ensures ctx.Tracked() && Ready(ctx.audit) && Went(old(MarkOf(ctx)), MarkOf(ctx))
      ensures ctx.audit.st == old(ctx.audit.st).(status := Waiting) && AtRest(ctx.cfg, ctx.audit.st)
    {
      hide Reach, Legal, Advance, Apply, Settled, Went;
      EnterStatus(Waiting);
    }

    /** States alike but for the current event, the visit counts and the dedup keys. */
    ghost predicate Undisturbed(s: State, t: State) {
      t == s.(event := t.event, visits := t.visits, keys := t.keys)
    }
  }
}
