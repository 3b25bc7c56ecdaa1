/**
 Replay (dsl/journal.go, dsl/replay.go, and the savepoints of dsl/context.go): a second
 implementation of the state machine, which rebuilds a context by applying its records.
 */
module Replay {
  import opened Definition
  import opened Journal
  import opened Protocol
  import opened Runs
  import opened Frames
  import opened Context
  import opened Engine

  // ------------------------------------------------------------ single records

  /** findScopeByFork. */
  method FindScope(scopes: seq<Scope>, fork: string) returns (i: int)
    ensures i == ScopeByFork(scopes, fork)
  {
    i := 0;
    while i < |scopes|
      invariant 0 <= i <= |scopes|
      invariant forall k | 0 <= k < i :: scopes[k].fork != fork
    {
      if scopes[i].fork == fork {
        FirstScope(scopes, fork, i);
        return;
      }
      i := i + 1;
    }
    i := -1;
  }

  lemma {:induction false} FirstScope(scopes: seq<Scope>, fork: string, i: nat)
    requires i < |scopes| && scopes[i].fork == fork && forall k | 0 <= k < i :: scopes[k].fork != fork
    ensures ScopeByFork(scopes, fork) == i
  {
    if i > 0 {
      FirstScope(scopes[1..], fork, i - 1);
    }
  }

  /** applyOcc: changes the fields as the record says, or refuses the record. */
  method ApplyOcc(ctx: ExecutionContext, o: Occ) returns (ok: bool)
    modifies ctx`instanceID, ctx`executionID, ctx`currentNode, ctx`status, ctx`variables, ctx`currentEvent, ctx`scopes,
      ctx`waitings, ctx`results, ctx`undoStack, ctx`visitCounts, ctx`processedEvents
    ensures ok <==> Apply(old(ctx.Live()), o).Some?
    ensures ctx.Live() == if ok then Apply(old(ctx.Live()), o).value else old(ctx.Live())
  {
    hide FireUndo, ScopeByFork, WithBranch, With, VisitsOf;
    ok := true;
    match o {
      case Started(i, e) =>
        ctx.instanceID, ctx.executionID := i, e;
      case EventConsumed(key, ev, time) =>
        ConsumeAgain(ctx, key, ev, time);
      case EventReleased(key) =>
        ctx.processedEvents := ctx.processedEvents - {key};
      case NodeVisited(n) =>
        ctx.visitCounts := ctx.visitCounts[n := ctx.VisitOf(n) + 1];
      case Transitioned(_, to, _) =>
        ctx.currentNode := to;
        ctx.status := Running;
      case NodeSet(n) =>
        ctx.currentNode := n;
      case StatusSet(s) =>
        ctx.status := s;
      case VariableSet(name, v) =>
        ctx.variables := ctx.variables[name := v];
      case ScopePushed(_) | ScopePopped(_) =>
        ApplyScope(ctx, o);
      case BranchUpdated(fork, b) =>
        ok := ReplaceBranch(ctx, fork, b);
      case WaitingSet(_, _, _) | WaitingCleared(_) | Woke(_) =>
        ApplyWaiting(ctx, o);
      case _ =>
        ApplyLedger(ctx, o);
    }
  }

  /** The records that open and close a fork. */
  method ApplyScope(ctx: ExecutionContext, o: Occ)
    requires o.ScopePushed? || o.ScopePopped?
    modifies ctx`scopes
    ensures Apply(old(ctx.Live()), o) == Some(ctx.Live())
  {
    hide FireUndo, ScopeByFork, WithBranch, With, VisitsOf;
    match o {
      case ScopePushed(s) =>
        ctx.scopes := ctx.scopes + [s];
      case ScopePopped(_) =>
        if ctx.scopes != [] {
          ctx.scopes := ctx.scopes[..|ctx.scopes| - 1];
        }
    }
  }

  /** The records of waiting slots. */
  method ApplyWaiting(ctx: ExecutionContext, o: Occ)
    requires o.WaitingSet? || o.WaitingCleared? || o.Woke?
    modifies ctx`currentEvent, ctx`waitings
    ensures Apply(old(ctx.Live()), o) == Some(ctx.Live())
  {
    hide FireUndo, ScopeByFork, WithBranch, With, VisitsOf;
    match o {
      case WaitingSet(slot, w, _) =>
        ctx.waitings := ctx.waitings[slot := w];
      case WaitingCleared(slot) =>
        ctx.waitings := ctx.waitings - {slot};
      case Woke(slot) =>
        ctx.currentEvent := None;
        ctx.waitings := ctx.waitings - {slot};
    }
  }

  /** The records of commands and compensations. */
  method ApplyLedger(ctx: ExecutionContext, o: Occ)
    requires o.CommandIssued? || o.CommandResult? || o.CompensationPushed? || o.CompensationFired? || o.DefActivated?
    modifies ctx`results, ctx`undoStack
    ensures Apply(old(ctx.Live()), o) == Some(ctx.Live())
  {
    hide FireUndo, ScopeByFork, WithBranch, With, VisitsOf;
    match o {
      case CommandResult(r) =>
        ctx.results := ctx.results + [r];
      case CompensationPushed(u) =>
        ctx.undoStack := ctx.undoStack + [u];
      case CompensationFired(key) =>
        MarkFired(ctx, key);
      case _ =>
    }
  }

  /** The key enters the dedup table; only a named event becomes the current one. */
  method ConsumeAgain(ctx: ExecutionContext, key: Option<Key>, ev: Option<Event>, time: int)
    modifies ctx`processedEvents, ctx`currentEvent
    ensures ctx.processedEvents.Keys == With(old(ctx.processedEvents.Keys), key)
    ensures ctx.currentEvent == if ev.Some? && ev.value.name != "" then ev else old(ctx.currentEvent)
  {
    if key.Some? {
      ctx.processedEvents := ctx.processedEvents[key.value := time];
    }
    if ev.Some? && ev.value.name != "" {
      ctx.currentEvent := ev;
    }
  }

  /** The branch record replaces the stored one; an arrival fills in an open join. */
  method ReplaceBranch(ctx: ExecutionContext, fork: string, b: BranchState) returns (ok: bool)
    modifies ctx`scopes
    ensures var i := ScopeByFork(old(ctx.scopes), fork);
      && (ok <==> i >= 0 && b.id in old(ctx.scopes)[i].branches)
      && ctx.scopes == if ok then old(ctx.scopes)[i := WithBranch(old(ctx.scopes)[i], b)] else old(ctx.scopes)
  {
    var i := FindScope(ctx.scopes, fork);
    if i < 0 || b.id !in ctx.scopes[i].branches {
      return false;
    }
    var s := ctx.scopes[i].(branches := ctx.scopes[i].branches[b.id := b]);
    if s.join == "" && b.arrivedJoin != "" {
      s := s.(join := b.arrivedJoin);
    }
    ctx.scopes := ctx.scopes[i := s];
    ok := true;
  }

  /** Every entry with the key is marked done. */
  method MarkFired(ctx: ExecutionContext, key: CommandId)
    modifies ctx`undoStack
    ensures ctx.undoStack == FireUndo(old(ctx.undoStack), key)
  {
    var j := 0;
    while j < |ctx.undoStack|
      invariant j <= |ctx.undoStack| == old(|ctx.undoStack|)
      invariant forall k | 0 <= k < j :: ctx.undoStack[k] == FireUndo(old(ctx.undoStack), key)[k]
      invariant forall k | j <= k < |ctx.undoStack| :: ctx.undoStack[k] == old(ctx.undoStack)[k]
    {
      if ctx.undoStack[j].key == key {
        ctx.undoStack := ctx.undoStack[j := ctx.undoStack[j].(done := true)];
      }
      j := j + 1;
    }
  }

  // -------------------------------------------------------------------- logs

  /** foldOnto: the records in order, up to the first that is refused. */
  method ReplayAll(ctx: ExecutionContext, occs: seq<Occ>) returns (ok: bool)
    modifies ctx`instanceID, ctx`executionID, ctx`currentNode, ctx`status, ctx`variables, ctx`currentEvent, ctx`scopes,
      ctx`waitings, ctx`results, ctx`undoStack, ctx`visitCounts, ctx`processedEvents
    ensures ok <==> FoldOnto(old(ctx.Live()), occs).Some?
    ensures ok ==> ctx.Live() == FoldOnto(old(ctx.Live()), occs).value
  {
    var i := 0;
    while i < |occs|
      invariant i <= |occs|
      invariant FoldOnto(old(ctx.Live()), occs[..i]) == Some(ctx.Live())
    {
      assert occs[..i + 1][..i] == occs[..i];
      ok := ApplyOcc(ctx, occs[i]);
      if !ok {
        StaysRefused(old(ctx.Live()), occs, i + 1);
        return;
      }
      i := i + 1;
    }
    assert occs[..i] == occs;
    ok := true;
  }

  /** A log with a refused prefix is refused. */
  lemma {:induction false} StaysRefused(s: State, occs: seq<Occ>, n: nat)
    requires n <= |occs| && FoldOnto(s, occs[..n]).None?
    ensures FoldOnto(s, occs).None?
  {
    FoldSplit(s, occs[..n], occs[n..]);
    assert occs[..n] + occs[n..] == occs;
  }

  // -------------------------------------------------------------- savepoints

  /** A savepoint: every durable field, with the times of the dedup table. */
  datatype Savepoint = Savepoint(st: State, table: map<Key, int>)

  ghost predicate Consistent(sp: Savepoint) {
    sp.st.keys == sp.table.Keys
  }

  method Save(ctx: ExecutionContext) returns (sp: Savepoint)
    ensures sp.st == ctx.Live() && sp.table == ctx.processedEvents && Consistent(sp)
  {
    var st := State(ctx.instanceID, ctx.executionID, ctx.currentNode, ctx.status, ctx.variables, ctx.currentEvent,
      ctx.scopes, ctx.waitings, ctx.results, ctx.undoStack, ctx.visitCounts, ctx.processedEvents.Keys);
    sp := Savepoint(st, ctx.processedEvents);
  }

  method Restore(cfg: Config, sp: Savepoint, now: int) returns (ctx: ExecutionContext)
    requires WellFormed(cfg.def) && Consistent(sp)
    ensures fresh(ctx) && ctx.cfg == cfg && ctx.Live() == sp.st && ctx.clock == now
  {
    hide Reach, Legal;
    ctx := new ExecutionContext(cfg, now);
    var st := sp.st;
    ctx.instanceID, ctx.executionID, ctx.currentNode := st.instanceID, st.executionID, st.node;
    ctx.status, ctx.variables, ctx.currentEvent := st.status, st.vars, st.event;
    ctx.scopes, ctx.waitings, ctx.results := st.scopes, st.waitings, st.results;
    ctx.undoStack, ctx.visitCounts, ctx.processedEvents := st.undo, st.visits, sp.table;
  }

  // ------------------------------------------------------------------ recovery

  /** The savepoint stands for the fold of the first `n` records. */
  ghost predicate StandsFor(def: ProcessDef, sp: Savepoint, occs: seq<Occ>, n: nat) {
    && Consistent(sp) && n <= |occs|
    && Journal.Fold(def, occs[..n]).Some? && Close(sp.st, Journal.Fold(def, occs[..n]).value)
  }

  /** Restoring a savepoint and replaying the rest is folding the whole log, up to the
      live event and, downwards, the dedup keys. */
  method Recover(cfg: Config, sp: Savepoint, rest: seq<Occ>, now: int, ghost occs: seq<Occ>, ghost n: nat)
    returns (ctx: ExecutionContext, ok: bool)
    requires WellFormed(cfg.def) && StandsFor(cfg.def, sp, occs, n) && rest == occs[n..]
    ensures fresh(ctx) && ctx.cfg == cfg && ctx.clock == now
    ensures ok <==> Journal.Fold(cfg.def, occs).Some?
    ensures ok ==> Close(ctx.Live(), Journal.Fold(cfg.def, occs).value)
    ensures ok && sp.st.event == Journal.Fold(cfg.def, occs[..n]).value.event ==>
      ctx.currentEvent == Journal.Fold(cfg.def, occs).value.event
    ensures ok && sp.st.keys == Journal.Fold(cfg.def, occs[..n]).value.keys ==>
      ctx.processedEvents.Keys == Journal.Fold(cfg.def, occs).value.keys
  {
    ctx := Restore(cfg, sp, now);
    ok := ReplayAll(ctx, rest);
    FoldSplit(NewState(cfg.def), occs[..n], occs[n..]);
    assert occs[..n] + occs[n..] == occs;
    FoldClose(sp.st, Journal.Fold(cfg.def, occs[..n]).value, occs[n..]);
  }

  /** Fold: a fresh context with the whole log replayed into it. */
  method Rebuild(cfg: Config, occs: seq<Occ>, now: int) returns (ctx: ExecutionContext, ok: bool)
    requires WellFormed(cfg.def)
    ensures fresh(ctx) && ctx.cfg == cfg && ctx.clock == now
    ensures ok <==> Journal.Fold(cfg.def, occs).Some?
    ensures ok ==> ctx.Live() == Journal.Fold(cfg.def, occs).value
  {
    ctx := new ExecutionContext(cfg, now);
    ok := ReplayAll(ctx, occs);
  }

  /** The rebuilt context continues the log; a context of a reachable log is tracked
      again when its live event is the one the log left, as it is unless that had no
      name. */
  method Bind(ctx: ExecutionContext, occs: seq<Occ>, calls: nat)
    requires WellFormed(ctx.cfg.def)
    modifies ctx
    ensures ctx.log == occs && ctx.calls == calls && ctx.Live() == old(ctx.Live())
    ensures ctx.clock == old(ctx.clock) && ctx.processedEvents == old(ctx.processedEvents)
    ensures Reach(ctx.cfg, occs).Some? && Matches(old(ctx.Live()), Reach(ctx.cfg, occs).value) ==>
      ctx.Tracked() && Reach(ctx.cfg, occs) == Some(ctx.audit)
  {
    hide Reach;
    ctx.log, ctx.calls := occs, calls;
    if Reach(ctx.cfg, occs).Some? {
      ctx.audit := Reach(ctx.cfg, occs).value;
    }
  }

  /** A live state that may stand for what the observer saw. */
  ghost predicate Matches(s: State, a: Audit) {
    Close(s, a.st) && s.event == a.event && (a.peak <= MAX_EVENTS ==> s.keys == a.st.keys)
  }

  /** Resume: a runtime that continues the log. */
  method Resume(cfg: Config, occs: seq<Occ>, now: int, calls: nat) returns (rt: Option<Runtime>)
    requires WellFormed(cfg.def)
    ensures rt.Some? <==> Journal.Fold(cfg.def, occs).Some?
    ensures rt.Some? ==> fresh(rt.value) && fresh(rt.value.ctx) && rt.value.ctx.cfg == cfg && rt.value.ctx.clock == now
    ensures rt.Some? ==> rt.value.ctx.log == occs && Some(rt.value.ctx.Live()) == Journal.Fold(cfg.def, occs)
    ensures Reach(cfg, occs).Some? ==> rt.Some?
    ensures Reach(cfg, occs).Some? && !Unnamed(Reach(cfg, occs).value.event) ==>
      rt.value.ctx.Tracked() && (Boundary(cfg, Reach(cfg, occs).value) ==> rt.value.Idle())
  {
    hide Reach;
    if Reach(cfg, occs).Some? {
      ReachSane(cfg, occs);
    }
    var ctx, ok := Rebuild(cfg, occs, now);
    if !ok {
      return None;
    }
    Bind(ctx, occs, calls);
    var r := new Runtime.Over(ctx);
    rt := Some(r);
  }

  /** ResumeAt: a runtime that continues from the moment record `upto` was written. */
  method ResumeAt(cfg: Config, entries: seq<Entry>, upto: int, now: int, calls: nat) returns (rt: Option<Runtime>)
    requires WellFormed(cfg.def)
    ensures rt.Some? <==> Journal.Fold(cfg.def, Occs(entries)[..Cut(entries, upto)]).Some?
    ensures rt.Some? ==> fresh(rt.value) && fresh(rt.value.ctx) && rt.value.ctx.cfg == cfg
    ensures rt.Some? ==>
      && rt.value.ctx.log == Occs(entries)[..Cut(entries, upto)]
      && Some(rt.value.ctx.Live()) == Journal.Fold(cfg.def, Occs(entries)[..Cut(entries, upto)])
    ensures var past := Reach(cfg, Occs(entries)[..Cut(entries, upto)]);
      past.Some? && !Unnamed(past.value.event) && Boundary(cfg, past.value) ==> rt.Some? && rt.value.Idle()
  {
    hide Reach, Boundary;
    var cut := CutAt(entries, upto);
    assert Occs(entries[..cut]) == Occs(entries)[..cut];
    rt := Resume(cfg, Occs(entries[..cut]), now, calls);
  }
}
