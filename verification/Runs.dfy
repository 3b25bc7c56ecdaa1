/**
 Results about whole runs: what holds after every legal record, and what every
 reachable log satisfies, whatever the definition, the expressions, the executor and
 the order in which maps were iterated.
 */
module Runs {
  import opened Definition
  import opened Journal
  import opened Protocol

  // ------------------------------------------------- invariants of every record

  /** A node's commands never carry a visit number the node has not reached; a
      compensation command is issued only for an entry already marked done. */
  ghost predicate IdBounded(st: State, id: CommandId) {
    match id
    case NodeCommand(_, n, v, _) => v <= VisitsOf(st.visits, n)
    case BranchRequest(_, n, v, _) => v <= VisitsOf(st.visits, n)
    case UndoCommand(p, _) => p < |st.undo| && st.undo[p].key == id && st.undo[p].done
  }

  ghost predicate IdsBounded(a: Audit) {
    && a.resolved <= a.issued.Keys
    && forall id <- a.issued :: a.issued[id].id == id && IdBounded(a.st, id)
  }

  /** Each undo entry's key carries its position, so keys are distinct. */
  ghost predicate UndoKeyed(st: State) {
    forall i | 0 <= i < |st.undo| :: st.undo[i].key == UndoCommand(i, st.undo[i].command)
  }

  /** A scope keeps the shape its fork gave it; only branches move, and only an
      undetermined join is filled in. */
  ghost predicate Formed(def: ProcessDef, s: Scope) {
    && s.fork in def.nodes && def.nodes[s.fork].ntype.Parallel? && def.nodes[s.fork].transitions != []
    && var f := ForkScope(def, def.nodes[s.fork], s.startedAt);
       && s == f.(branches := s.branches, join := s.join)
       && s.branches.Keys == f.branches.Keys && s.branches != map[]
       && (forall b <- s.branches :: s.branches[b].id == b && s.branches[b].startNode == f.branches[b].startNode)
       && (s.join != f.join ==> f.join == "" && s.join in def.nodes && def.nodes[s.join].ntype.Join?)
       && (forall b <- s.branches :: s.branches[b].arrivedJoin != "" ==> s.join != "" && s.branches[b].done)
       && (forall b <- s.branches :: s.branches[b].status in {Completed, Failed} ==> s.branches[b].done)
  }

  ghost predicate ScopesFormed(def: ProcessDef, st: State) {
    |st.scopes| <= 1 && forall i | 0 <= i < |st.scopes| :: Formed(def, st.scopes[i])
  }

  ghost predicate SlotFormed(def: ProcessDef, st: State, slot: Slot, w: WaitingState) {
    && w.node in def.nodes
    && match slot
       case Instance => st.scopes == [] && w.node == st.node && ParkedAt(def.nodes[w.node], w)
       case BranchSlot(_) => ParkedAt(def.nodes[w.node], w)
       case ScopeSlot(f) => f == w.node && w.kind == ScopeWait && w.until.Some?
  }

  /** An instance slot exists only outside forks and names the current node. */
  ghost predicate SlotsFormed(def: ProcessDef, st: State) {
    forall slot <- st.waitings :: SlotFormed(def, st, slot, st.waitings[slot])
  }

  predicate Unnamed(ev: Option<Event>) {
    ev.Some? && ev.value.name == ""
  }

  /** The folded event is the live one, except while an event without a name is live. */
  ghost predicate EventFolded(a: Audit) {
    && !Unnamed(a.st.event)
    && (Unnamed(a.event) || a.st.event == a.event)
  }

  ghost predicate Owes(u: UndoEntry, inv: Inverse) {
    u.node == inv.node && u.command == inv.command && u.effect == inv.effect
  }

  /** The undo stack is the declared inverses of the completed commands, in order. */
  ghost predicate SagaTracked(a: Audit) {
    && (a.owed.Some? ==> a.inverses != [] && a.inverses[|a.inverses| - 1] == a.owed.value)
    && (!a.scars.lost ==>
          && |a.inverses| == |a.st.undo| + (if a.owed.Some? then 1 else 0)
          && forall i | 0 <= i < |a.st.undo| :: Owes(a.st.undo[i], a.inverses[i]))
  }

  ghost predicate Sane(cfg: Config, a: Audit) {
    && IdsBounded(a)
    && UndoKeyed(a.st)
    && ScopesFormed(cfg.def, a.st)
    && SlotsFormed(cfg.def, a.st)
    && EventFolded(a)
    && SagaTracked(a)
    && |a.st.keys| <= a.peak
    && a.st.status !in {Suspended, Canceled}
  }

  // ------------------------------------------------------- one record keeps them

  lemma LegalApplies(cfg: Config, a: Audit, o: Occ)
    requires ScopesFormed(cfg.def, a.st) && Legal(cfg, a, o)
    ensures Apply(a.st, o) == Some(Advance(a, o).st)
  {
  }

  lemma KeepsIds(cfg: Config, a: Audit, o: Occ)
    requires Sane(cfg, a) && Legal(cfg, a, o)
    ensures IdsBounded(Advance(a, o))
  {
    hide TransitionLegal, StatusLegal, VariableLegal, PushLegal, BranchLegal, SlotLegal, Admissible, WakeLegal, WokeLegal, NodeSetLegal, ScopesFormed, SlotsFormed, Requests, NextEvent, NextMoment, NextWaking, NextCleared, NextPopped, NextScars, NextSteps, NextLanding, Moves;
    LegalApplies(cfg, a, o);
    match o {
      case CompensationFired(key) =>
      case CompensationPushed(u) =>
      case _ =>
    }
  }

  lemma KeepsUndo(cfg: Config, a: Audit, o: Occ)
    requires Sane(cfg, a) && Legal(cfg, a, o)
    ensures UndoKeyed(Advance(a, o).st)
  {
    hide TransitionLegal, StatusLegal, VariableLegal, PushLegal, BranchLegal, SlotLegal, IssueLegal, Admissible, WakeLegal, WokeLegal, NodeSetLegal, ScopesFormed, SlotsFormed, NextEvent, NextMoment, NextWaking, NextCleared, NextPopped, NextSteps, NextLanding, Moves;
    LegalApplies(cfg, a, o);
  }

  lemma NewScopeFormed(def: ProcessDef, n: string, startedAt: int)
    requires WellFormed(def) && n in def.nodes
    requires def.nodes[n].ntype.Parallel? && def.nodes[n].transitions != []
    ensures Formed(def, ForkScope(def, def.nodes[n], startedAt))
  {
    var s := ForkScope(def, def.nodes[n], startedAt);
    assert BranchId(n, 0) in s.branches;
  }

  lemma MovedScopeFormed(cfg: Config, a: Audit, fork: string, b: BranchState)
    requires ScopesFormed(cfg.def, a.st) && BranchLegal(cfg, a, fork, b)
    ensures Formed(cfg.def, WithBranch(a.st.scopes[0], b))
  {
    hide BranchMoves, BranchFails, Halts, Settled;
    MovedFormed(cfg.def, a.st.scopes[0], b);
  }

  lemma MovedFormed(def: ProcessDef, s: Scope, b: BranchState)
    requires Formed(def, s) && b.id in s.branches && b.startNode == s.branches[b.id].startNode
    requires s.branches[b.id].done ==> b.done
    requires b.status in {Completed, Failed} ==> b.done || s.branches[b.id].done
    requires b.arrivedJoin != s.branches[b.id].arrivedJoin ==>
      b.done && b.arrivedJoin in def.nodes && (b.arrivedJoin == s.join || def.nodes[b.arrivedJoin].ntype.Join?)
    requires b.arrivedJoin != "" ==> b.done || s.branches[b.id].done
    requires b.arrivedJoin == s.branches[b.id].arrivedJoin && b.arrivedJoin != "" ==> s.join != ""
    ensures Formed(def, WithBranch(s, b))
  {
    hide ForkScope;
    assert WithBranch(s, b).branches.Keys == s.branches.Keys;
  }

  lemma KeepsScopes(cfg: Config, a: Audit, o: Occ)
    requires WellFormed(cfg.def)
    requires Sane(cfg, a) && Legal(cfg, a, o)
    ensures ScopesFormed(cfg.def, Advance(a, o).st)
  {
    hide TransitionLegal, StatusLegal, VariableLegal, BranchLegal, SlotLegal, IssueLegal, Admissible, WakeLegal, WokeLegal, NodeSetLegal, Formed, ForkScope, NextEvent, NextMoment, NextWaking, NextCleared, NextScars, NextSteps, NextLanding, Moves;
    LegalApplies(cfg, a, o);
    if o.ScopePushed? {
      NewScopeFormed(cfg.def, a.st.node, o.scope.startedAt);
      assert Advance(a, o).st.scopes == [o.scope];
    } else if o.BranchUpdated? {
      BranchNamed(cfg, a, o.fork, o.branch);
      MovedScopeFormed(cfg, a, o.fork, o.branch);
      assert Advance(a, o).st.scopes == [WithBranch(a.st.scopes[0], o.branch)];
    } else {
      ScopesShrink(a.st, o);
    }
  }

  lemma BranchNamed(cfg: Config, a: Audit, fork: string, b: BranchState)
    requires BranchLegal(cfg, a, fork, b)
    ensures |a.st.scopes| == 1 && a.st.scopes[0].fork == fork && b.id in a.st.scopes[0].branches
  {
    hide BranchMoves, BranchFails, Halts, Settled;
  }

  lemma ScopesShrink(s: State, o: Occ)
    requires !o.ScopePushed? && !o.BranchUpdated?
    ensures Apply(s, o).Some? && Apply(s, o).value.scopes <= s.scopes
    ensures !o.ScopePopped? ==> Apply(s, o).value.scopes == s.scopes
  {
  }

  lemma KeepsSlots(cfg: Config, a: Audit, o: Occ)
    requires Sane(cfg, a) && Legal(cfg, a, o)
    ensures SlotsFormed(cfg.def, Advance(a, o).st)
  {
    hide StatusLegal, VariableLegal, BranchLegal, TransitionLegal, PushLegal, NodeSetLegal, SlotLegal, IssueLegal, Admissible, WakeLegal, WokeLegal, ParkedAt, ScopesFormed;
    LegalApplies(cfg, a, o);
    NoInstanceSlot(cfg, a, o);
    if o.WaitingSet? {
      NewSlotFormed(cfg, a, o.slot, o.waiting, o.at);
    }
    match o {
      case BranchUpdated(_, _) =>
      case ScopePopped(_) =>
      case _ =>
    }
  }

  /** The records that move the instance or open a fork find it without its slot. */
  lemma NoInstanceSlot(cfg: Config, a: Audit, o: Occ)
    requires Sane(cfg, a) && Legal(cfg, a, o)
    ensures o.Transitioned? || o.NodeSet? || o.ScopePushed? ==> Instance !in a.st.waitings
    ensures o.BranchUpdated? ==> |a.st.scopes| == 1
  {
    hide StatusLegal, VariableLegal, SlotLegal, IssueLegal, Admissible, WakeLegal, WokeLegal, StepsTo, Attributed, ForkScope, BranchMoves, BranchFails, Halts;
  }

  lemma NewSlotFormed(cfg: Config, a: Audit, slot: Slot, w: WaitingState, at: int)
    requires SlotsFormed(cfg.def, a.st) && SlotLegal(cfg, a, slot, w, at)
    ensures SlotFormed(cfg.def, a.st, slot, w)
  {
  }

  lemma KeepsSaga(cfg: Config, a: Audit, o: Occ)
    requires Sane(cfg, a) && Legal(cfg, a, o)
    ensures SagaTracked(Advance(a, o))
  {
    hide TransitionLegal, StatusLegal, VariableLegal, PushLegal, BranchLegal, SlotLegal, IssueLegal, Admissible, WakeLegal, WokeLegal, NodeSetLegal, ScopesFormed, SlotsFormed, NextEvent, NextMoment, NextWaking, NextCleared, NextPopped, NextSteps, NextLanding, Moves;
    LegalApplies(cfg, a, o);
    match o {
      case CompensationFired(key) =>
      case CompensationPushed(u) =>
      case _ =>
    }
  }

  lemma KeepsSane(cfg: Config, a: Audit, o: Occ)
    requires WellFormed(cfg.def)
    requires Sane(cfg, a) && Legal(cfg, a, o)
    ensures Apply(a.st, o) == Some(Advance(a, o).st)
    ensures Sane(cfg, Advance(a, o))
  {
    LegalApplies(cfg, a, o);
    KeepsIds(cfg, a, o);
    KeepsUndo(cfg, a, o);
    KeepsScopes(cfg, a, o);
    KeepsSlots(cfg, a, o);
    KeepsSaga(cfg, a, o);
  }

  /** Every reachable log leaves a sane observer whose state is the fold of the log. */
  lemma {:induction false} ReachSane(cfg: Config, log: seq<Occ>)
    requires WellFormed(cfg.def) && Reach(cfg, log).Some?
    ensures Sane(cfg, Reach(cfg, log).value)
    ensures Fold(cfg.def, log) == Some(Reach(cfg, log).value.st)
    decreases |log|
  {
    if log != [] {
      var n := |log| - 1;
      ReachSane(cfg, log[..n]);
      KeepsSane(cfg, Reach(cfg, log[..n]).value, log[n]);
    }
  }
}
