/**
 Side effects and compensation (dsl/sideeffect.go, dsl/compensate.go and the delivery
 path of dsl/runtime.go): each command is recorded, executed with retries, its result
 recorded, and its inverse pushed when it completed.
 */
module Effects {
  import opened Definition
  import opened Journal
  import opened Protocol
  import opened Runs
  import opened Frames
  import opened Context

  // --------------------------------------------------------------- execution

  /** CommandOrchestrator.Execute: retries until a reply without error or with a
      permanent one; when every attempt failed the result is a failure. */
  method Execute(ctx: ExecutionContext, cmd: Command) returns (r: SideEffectResult)
    modifies ctx`calls
    ensures r.id == cmd.id && old(ctx.calls) < ctx.calls
    ensures ctx.calls - old(ctx.calls) <= if ctx.cfg.maxRetry > 0 then ctx.cfg.maxRetry + 1 else 1
    ensures forall n | old(ctx.calls) <= n < ctx.calls - 1 :: ctx.cfg.reply(cmd, n).error.Some? && !ctx.cfg.reply(cmd, n).permanent
    ensures
      var last := ctx.cfg.reply(cmd, ctx.calls - 1);
      if last.error.None? then r == SideEffectResult(cmd.id, last.status, "", last.outcome)
      else if last.permanent then r == SideEffectResult(cmd.id, last.status, last.error.value, last.outcome)
      else
        && r.status == ResultFailed && r.errText != "" && r.outcome == map[]
        && ctx.calls - old(ctx.calls) == if ctx.cfg.maxRetry > 0 then ctx.cfg.maxRetry + 1 else 1
  {
    var attempts := 1;
    if ctx.cfg.maxRetry > 0 {
      attempts := ctx.cfg.maxRetry + 1;
    }
    var i := 0;
    while i < attempts
      invariant i <= attempts && ctx.calls == old(ctx.calls) + i
      invariant forall n | old(ctx.calls) <= n < ctx.calls :: ctx.cfg.reply(cmd, n).error.Some? && !ctx.cfg.reply(cmd, n).permanent
    {
      var last := ctx.cfg.reply(cmd, ctx.calls);
      ctx.calls := ctx.calls + 1;
      if last.error.None? {
        return SideEffectResult(cmd.id, last.status, "", last.outcome);
      }
      if last.permanent {
        return SideEffectResult(cmd.id, last.status, last.error.value, last.outcome);
      }
      i := i + 1;
    }
    r := SideEffectResult(cmd.id, ResultFailed, "side effect failed after all attempts", map[]);
  }

  // ---------------------------------------------------------------- delivery

  function UndoAfter(undo: seq<UndoEntry>, cmd: Command, r: SideEffectResult): seq<UndoEntry> {
    if r.status == ResultCompleted && cmd.compensation.Some? then
      undo + [UndoOf(Inverse(cmd.node, cmd.id, cmd.compensation.value), |undo|)]
    else undo
  }

  /** One command more was issued and answered with `r`. */
  ghost predicate Delivered(a: Audit, b: Audit, cmd: Command, r: SideEffectResult) {
    && SameStep(a, b)
    && b.st == a.st.(results := a.st.results + [r], undo := UndoAfter(a.st.undo, cmd, r))
    && b.issued == a.issued[cmd.id := cmd] && b.resolved == a.resolved + {cmd.id}
    && b.scars == NextScars(a, CommandIssued(cmd)) && b.owed == None
  }

  /** The issued command was answered with `r`. */
  ghost predicate Resolved(a: Audit, b: Audit, cmd: Command, r: SideEffectResult) {
    && SameStep(a, b)
    && b.st == a.st.(results := a.st.results + [r], undo := UndoAfter(a.st.undo, cmd, r))
    && b.issued == a.issued && b.resolved == a.resolved + {cmd.id} && b.scars == a.scars && b.owed == None
  }

  /** deliver: issued, executed, answered, and its inverse remembered. */
  method Deliver(ctx: ExecutionContext, cmd: Command) returns (r: SideEffectResult)
    requires ctx.Tracked() && IssueLegal(ctx.cfg, ctx.audit, cmd) && cmd.id !in ctx.audit.resolved
    modifies ctx
    ensures ctx.Tracked() && Delivered(old(ctx.audit), ctx.audit, cmd, r)
    ensures old(ctx.log) < ctx.log && ctx.log[|old(ctx.log)|] == CommandIssued(cmd)
    ensures ctx.clock == old(ctx.clock) && ctx.processedEvents == old(ctx.processedEvents)
    ensures r.id == cmd.id
  {
    hide Reach, Legal, Advance, Apply, IssueLegal;
    ctx.RecordIssued(cmd);
    label issued:
    r := Execute(ctx, cmd);
    assert ctx.Tracked();
    Settle(ctx, cmd, r);
  }

  /** The second half of deliver: the result, and recordCompensation. */
  method Settle(ctx: ExecutionContext, cmd: Command, r: SideEffectResult)
    requires ctx.Tracked() && Ready(ctx.audit)
    requires r.id == cmd.id && cmd.id in ctx.audit.issued && ctx.audit.issued[cmd.id] == cmd
    requires cmd.id !in ctx.audit.resolved
    modifies ctx
    ensures ctx.Tracked() && Resolved(old(ctx.audit), ctx.audit, cmd, r)
    ensures old(ctx.log) <= ctx.log
    ensures ctx.clock == old(ctx.clock) && ctx.processedEvents == old(ctx.processedEvents)
  {
    hide Reach, Legal, Advance, Apply, IssueLegal;
    ctx.RecordResult(r);
    if cmd.compensation.None? || r.status != ResultCompleted {
      return;
    }
    var entry := UndoEntry(cmd.node, cmd.id, UndoCommand(|ctx.undoStack|, cmd.id), cmd.compensation.value, false);
    ctx.PushUndo(entry);
  }

  /** The commands of a node's declared effects at one visit. */
  function NodeCommands(exec: string, node: Node, visit: nat): (cmds: seq<Command>)
    ensures |cmds| == |node.effects|
    ensures forall i, j | 0 <= i < j < |cmds| :: cmds[i].id != cmds[j].id
  {
    seq(|node.effects|, i requires 0 <= i < |node.effects| => EffectCommand(exec, node, visit, i))
  }

  ghost predicate FreshCommands(cfg: Config, a: Audit, cmds: seq<Command>) {
    && DistinctIds(cmds)
    && forall i | 0 <= i < |cmds| ::
         cmds[i].id !in a.issued && OwnEffect(cfg, a, cmds[i])
  }

  /** The results logged since `a`, one for each command in turn. */
  ghost predicate Answered(a: Audit, b: Audit, cmds: seq<Command>) {
    && |b.st.results| == |a.st.results| + |cmds|
    && a.st.results <= b.st.results
    && forall i | 0 <= i < |cmds| :: b.st.results[|a.st.results| + i].id == cmds[i].id
  }

  /** The commands were answered, in order, before anything else was. */
  ghost predicate Performed(a: Audit, b: Audit, cmds: seq<Command>) {
    && |b.st.results| >= |a.st.results| + |cmds|
    && a.st.results <= b.st.results
    && forall i | 0 <= i < |cmds| :: b.st.results[|a.st.results| + i].id == cmds[i].id
  }

  ghost predicate CriticalFailure(a: Audit, b: Audit, cmds: seq<Command>)
    requires Answered(a, b, cmds)
  {
    exists i | 0 <= i < |cmds| :: cmds[i].critical && !Succeeded(b.st.results[|a.st.results| + i])
  }

  /** A dispatch that failed shows in the results: grounds for the node to fail. */
  lemma CriticalShown(cfg: Config, a: Audit, b: Audit, node: Node)
    requires node.id in cfg.def.nodes && cfg.def.nodes[node.id] == node && OnlyCommands(a, b)
    requires var cmds := NodeCommands(a.st.executionID, node, VisitsOf(a.st.visits, node.id));
      Answered(a, b, cmds) && CriticalFailure(a, b, cmds)
    ensures CriticalFailed(cfg, b, node.id)
  {
    var cmds := NodeCommands(a.st.executionID, node, VisitsOf(a.st.visits, node.id));
    var i :| 0 <= i < |cmds| && cmds[i].critical && !Succeeded(b.st.results[|a.st.results| + i]);
    assert node.effects[i].critical;
    assert b.st.results[|a.st.results| + i].id == cmds[i].id;
  }

  /** dispatchSideEffects: all commands in order; reports whether a critical one failed. */
  method Dispatch(ctx: ExecutionContext, cmds: seq<Command>) returns (failed: bool)
    requires ctx.Tracked() && Ready(ctx.audit) && FreshCommands(ctx.cfg, ctx.audit, cmds)
    modifies ctx
    ensures ctx.Tracked() && OnlyCommands(old(ctx.audit), ctx.audit) && old(ctx.log) <= ctx.log
    ensures ctx.clock == old(ctx.clock) && ctx.processedEvents == old(ctx.processedEvents)
    ensures Answered(old(ctx.audit), ctx.audit, cmds)
    ensures cmds == [] ==> !failed && ctx.audit == old(ctx.audit)
    ensures failed <==> CriticalFailure(old(ctx.audit), ctx.audit, cmds)
  {
    hide Reach, Legal, Advance, Apply;
    failed := false;
    var i := 0;
    while i < |cmds|
      invariant i <= |cmds|
      invariant ctx.Tracked() && OnlyCommands(old(ctx.audit), ctx.audit) && old(ctx.log) <= ctx.log
      invariant ctx.clock == old(ctx.clock) && ctx.processedEvents == old(ctx.processedEvents)
      invariant Answered(old(ctx.audit), ctx.audit, cmds[..i])
      invariant FreshCommands(ctx.cfg, ctx.audit, cmds[i..])
      invariant failed <==> CriticalFailure(old(ctx.audit), ctx.audit, cmds[..i])
      invariant i == 0 ==> !failed && ctx.audit == old(ctx.audit)
    {
      assert cmds[i..][0] == cmds[i];
      ctx.IssuedUnresolved();
      ghost var before := ctx.audit;
      var r := Deliver(ctx, cmds[i]);
      DispatchStep(ctx.cfg, old(ctx.audit), before, ctx.audit, cmds, i, r);
      if cmds[i].critical && !Succeeded(r) {
        failed := true;
      }
      i := i + 1;
    }
    assert cmds[..i] == cmds;
  }

  lemma DispatchStep(cfg: Config, a: Audit, b: Audit, c: Audit, cmds: seq<Command>, i: nat, r: SideEffectResult)
    requires i < |cmds| && OnlyCommands(a, b) && Answered(a, b, cmds[..i])
    requires FreshCommands(cfg, b, cmds[i..]) && Delivered(b, c, cmds[i], r) && r.id == cmds[i].id
    ensures OnlyCommands(a, c) && Answered(a, c, cmds[..i + 1])
    ensures FreshCommands(cfg, c, cmds[i + 1..])
    ensures CriticalFailure(a, c, cmds[..i + 1]) <==> CriticalFailure(a, b, cmds[..i]) || (cmds[i].critical && !Succeeded(r))
  {
    assert cmds[i..][0] == cmds[i];
    assert Open(c) == Open(b);
    var rest := cmds[i + 1..];
    forall j | 0 <= j < |rest|
      ensures rest[j].id !in c.issued && OwnEffect(cfg, c, rest[j])
    {
      assert rest[j] == cmds[i..][j + 1];
    }
    assert forall j | 0 <= j < |rest| :: rest[j] == cmds[i..][j + 1];
    assert c.st.results[|a.st.results| + i] == r;
    assert forall j | 0 <= j < i :: cmds[..i + 1][j] == cmds[..i][j];
  }

  // ------------------------------------------------------------ compensation

  /** The compensations still to fire, latest first. */
  function Backlog(undo: seq<UndoEntry>, n: nat): seq<CommandId>
    requires n <= |undo|
  {
    if n == 0 then []
    else Pending(undo[n - 1]) + Backlog(undo, n - 1)
  }

  ghost predicate AllCompensated(undo: seq<UndoEntry>) {
    forall i | 0 <= i < |undo| :: undo[i].done
  }

  /** Nothing but done marks changed. */
  ghost predicate SameEntries(a: seq<UndoEntry>, b: seq<UndoEntry>) {
    |a| == |b| && forall i | 0 <= i < |a| :: b[i] == a[i].(done := b[i].done) && (a[i].done ==> b[i].done)
  }

  ghost predicate FiredSince(a: Audit, b: Audit, ids: seq<CommandId>) {
    && |b.st.results| == |a.st.results| + |ids|
    && a.st.results <= b.st.results
    && forall k | 0 <= k < |ids| :: b.st.results[|a.st.results| + k].id == ids[k]
  }

  /** Entries from `i` up are done, those below are as in `undo`. */
  ghost predicate UndoneFrom(undo: seq<UndoEntry>, now: seq<UndoEntry>, i: nat) {
    && SameEntries(undo, now) && i <= |undo|
    && (forall j | i <= j < |undo| :: now[j].done)
    && forall j | 0 <= j < i :: now[j] == undo[j]
  }

  lemma UndoneNext(undo: seq<UndoEntry>, now: seq<UndoEntry>, after: seq<UndoEntry>, i: nat)
    requires i < |undo| && UndoneFrom(undo, now, i + 1)
    requires after == now[i := now[i].(done := true)]
    ensures UndoneFrom(undo, after, i)
    ensures !now[i].done ==> NextToUndo(now, i)
  {
  }

  lemma FiredMore(a: Audit, b: Audit, c: Audit, fired: seq<CommandId>, more: seq<CommandId>)
    requires FiredSince(a, b, fired) && FiredSince(b, c, more)
    requires OnlyCommands(a, b) && OnlyCommands(b, c)
    ensures FiredSince(a, c, fired + more) && OnlyCommands(a, c)
  {
    forall k | 0 <= k < |fired + more| ensures c.st.results[|a.st.results| + k].id == (fired + more)[k] {
      if k >= |fired| {
        assert c.st.results[|b.st.results| + (k - |fired|)].id == more[k - |fired|];
      }
    }
  }

  /** What the entry still has to fire. */
  function Pending(u: UndoEntry): seq<CommandId> {
    if u.done then [] else [u.key]
  }

  /** compensate: fires what is not done yet, from the top of the stack down. */
  method Compensate(ctx: ExecutionContext)
    requires ctx.Tracked() && Ready(ctx.audit)
    modifies ctx
    ensures ctx.Tracked() && OnlyCommands(old(ctx.audit), ctx.audit) && old(ctx.log) <= ctx.log
    ensures ctx.clock == old(ctx.clock) && ctx.processedEvents == old(ctx.processedEvents)
    ensures SameEntries(old(ctx.undoStack), ctx.undoStack) && AllCompensated(ctx.undoStack)
    ensures FiredSince(old(ctx.audit), ctx.audit, Backlog(old(ctx.undoStack), |old(ctx.undoStack)|))
  {
    hide Reach, Legal, Advance, Apply, OnlyCommands, FiredSince, UndoneFrom, SameEntries, AllCompensated, NextToUndo, Backlog, Pending;
    ghost var undo := ctx.undoStack;
    ghost var fired: seq<CommandId> := [];
    var i := |ctx.undoStack|;
    NothingFired(ctx.audit);
    while i > 0
      invariant 0 <= i <= |undo| && UndoneFrom(undo, ctx.undoStack, i) && |ctx.undoStack| == |undo|
      invariant ctx.Tracked() && OnlyCommands(old(ctx.audit), ctx.audit) && old(ctx.log) <= ctx.log
      invariant Ready(ctx.audit) && ctx.clock == old(ctx.clock) && ctx.processedEvents == old(ctx.processedEvents)
      invariant fired + Backlog(undo, i) == Backlog(undo, |undo|)
      invariant FiredSince(old(ctx.audit), ctx.audit, fired)
    {
      i := i - 1;
      ghost var before, now := ctx.audit, ctx.undoStack;
      EntryKept(undo, now, i);
      UndoneNext(undo, now, now[i := now[i].(done := true)], i);
      CompensateAt(ctx, i);
      FiredMore(old(ctx.audit), before, ctx.audit, fired, Pending(now[i]));
      BacklogStep(undo, now[i], i, fired);
      fired := fired + Pending(now[i]);
    }
    UndoneAll(undo, ctx.undoStack);
    BacklogEmpty(undo, fired);
  }

  lemma BacklogStep(undo: seq<UndoEntry>, entry: UndoEntry, i: nat, fired: seq<CommandId>)
    requires i < |undo| && entry == undo[i]
    ensures fired + Backlog(undo, i + 1) == fired + Pending(entry) + Backlog(undo, i)
  {
  }

  lemma BacklogEmpty(undo: seq<UndoEntry>, fired: seq<CommandId>)
    ensures fired + Backlog(undo, 0) == fired
  {
  }

  /** One entry: fired unless it was before. */
  method CompensateAt(ctx: ExecutionContext, i: nat)
    requires ctx.Tracked() && Ready(ctx.audit) && i < |ctx.undoStack|
    requires !ctx.undoStack[i].done ==> NextToUndo(ctx.undoStack, i)
    modifies ctx
    ensures ctx.Tracked() && OnlyCommands(old(ctx.audit), ctx.audit) && old(ctx.log) <= ctx.log
    ensures ctx.clock == old(ctx.clock) && ctx.processedEvents == old(ctx.processedEvents)
    ensures ctx.undoStack == old(ctx.undoStack)[i := old(ctx.undoStack[i]).(done := true)] && Ready(ctx.audit)
    ensures FiredSince(old(ctx.audit), ctx.audit, Pending(old(ctx.undoStack[i])))
  {
    hide Reach, Legal, Advance, Apply, NextToUndo;
    if !ctx.undoStack[i].done {
      CompensateOne(ctx, i);
    }
  }

  lemma NothingFired(a: Audit)
    requires Ready(a)
    ensures OnlyCommands(a, a) && FiredSince(a, a, []) && UndoneFrom(a.st.undo, a.st.undo, |a.st.undo|)
  {
  }

  lemma EntryKept(undo: seq<UndoEntry>, now: seq<UndoEntry>, i: nat)
    requires i < |undo| && UndoneFrom(undo, now, i + 1)
    ensures i < |now| && now[i] == undo[i]
  {
  }

  lemma UndoneAll(undo: seq<UndoEntry>, now: seq<UndoEntry>)
    requires UndoneFrom(undo, now, 0)
    ensures AllCompensated(now) && SameEntries(undo, now)
  {
  }

  method CompensateOne(ctx: ExecutionContext, i: nat)
    requires ctx.Tracked() && Ready(ctx.audit) && NextToUndo(ctx.undoStack, i)
    modifies ctx
    ensures ctx.Tracked() && OnlyCommands(old(ctx.audit), ctx.audit) && old(ctx.log) <= ctx.log
    ensures ctx.clock == old(ctx.clock) && ctx.processedEvents == old(ctx.processedEvents)
    ensures ctx.undoStack == old(ctx.undoStack)[i := old(ctx.undoStack[i]).(done := true)] && Ready(ctx.audit)
    ensures FiredSince(old(ctx.audit), ctx.audit, [old(ctx.undoStack[i].key)])
  {
    hide Reach, Legal, Advance, Apply;
    ghost var a := ctx.audit;
    ctx.NotFiredYet(i);
    var entry := ctx.undoStack[i];
    ctx.MarkUndone(i);
    ghost var b := ctx.audit;
    assert IssueLegal(ctx.cfg, b, UndoOrder(entry));
    var r := Deliver(ctx, UndoOrder(entry));
    assert Open(ctx.audit) == Open(a);
  }
}
