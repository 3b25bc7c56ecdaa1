/**
 The outbox under crashes (dsl/sideeffect.go, the delivery path of dsl/runtime.go and
 the reload of dsl/manager.go): a process may die after any record or call; a reload
 dispatches what was issued and never answered; with an executor that remembers command
 ids every effect happens exactly once.
 */
module Outbox {
  import opened Definition
  import opened Journal
  import opened Protocol
  import opened Runs
  import opened Frames
  import opened Guarantees
  import Forking

  // ----------------------------------------------------------------- the executor

  /** InMemorySideEffectExecutor: performs commands of known types, each id once. */
  class MemoryExecutor {
    const known: set<string>
    var executed: set<CommandId>
    var outcomes: seq<SideEffectResult>
    /** The effects that really happened, in order. */
    ghost var performed: seq<Command>
    /** Those performed for a process that died before it wrote the answer down. */
    ghost var cut: set<CommandId>

    ghost predicate Valid()
      reads this
    {
      && DistinctIds(performed) && cut <= executed
      && (forall c <- performed :: c.id in executed && c.kind in known)
      && forall id <- executed :: exists n | 0 <= n < |performed| :: performed[n].id == id
    }

    constructor (known: set<string>)
      ensures this.known == known && Valid() && executed == {} && outcomes == [] && performed == [] && cut == {}
    {
      this.known := known;
      executed, outcomes, performed, cut := {}, [], [], {};
    }

    /** Handle: a known id is skipped, an unknown type is refused for good, anything else
        is performed. */
    method Handle(cmd: Command) returns (r: Reply)
      requires Valid()
      modifies this
      ensures Valid() && r.error.Some? == (r.status == ResultFailed)
      ensures r.status == ResultCompleted <==> old(cmd.id !in executed) && cmd.kind in known
      ensures r.status == ResultSkipped <==> old(cmd.id in executed)
      ensures r.status == ResultFailed ==> r.permanent && cmd.kind !in known
      ensures r.status in {ResultCompleted, ResultSkipped, ResultFailed}
      ensures executed == if r.status == ResultCompleted then old(executed) + {cmd.id} else old(executed)
      ensures performed == if r.status == ResultCompleted then old(performed) + [cmd] else old(performed)
      ensures cut == old(cut)
      ensures outcomes == if r.status == ResultSkipped then old(outcomes)
        else old(outcomes) + [SideEffectResult(cmd.id, r.status, if r.error.Some? then r.error.value else "", map[])]
    {
      if cmd.id in executed {
        return Reply(ResultSkipped, None, map[], false);
      }
      if cmd.kind !in known {
        outcomes := outcomes + [SideEffectResult(cmd.id, ResultFailed, "side effect type is not supported", map[])];
        return Reply(ResultFailed, Some("side effect type is not supported"), map[], true);
      }
      executed := executed + {cmd.id};
      ghost var before := performed;
      performed := performed + [cmd];
      outcomes := outcomes + [SideEffectResult(cmd.id, ResultCompleted, "", map[])];
      r := Reply(ResultCompleted, None, map[], false);
      assert performed[|before|].id == cmd.id;
      assert forall n | 0 <= n < |before| :: performed[n] == before[n];
    }
  }

  // ------------------------------------------------------------------- consistency

  /** The executor and the log agree: what was answered and can be performed was
      performed, and nothing was performed that had not been issued. */
  ghost predicate Agrees(cfg: Config, log: seq<Occ>, executed: set<CommandId>, known: set<string>, performed: seq<Command>) {
    && Reach(cfg, log).Some?
    && var a := Reach(cfg, log).value;
       && a.resolved <= a.issued.Keys
       && (forall id <- a.resolved :: a.issued[id].kind in known ==> id in executed)
       && (forall c <- performed :: c.id in a.issued && a.issued[c.id] == c)
  }

  ghost predicate Consistent(cfg: Config, log: seq<Occ>, ex: MemoryExecutor)
    reads ex
  {
    ex.Valid() && Reach(cfg, log).Some? && Agrees(cfg, log, ex.executed, ex.known, ex.performed)
  }

  ghost predicate PerformedOnce(performed: seq<Command>, c: Command) {
    exists n | 0 <= n < |performed| :: performed[n] == c && forall m | 0 <= m < |performed| && m != n :: performed[m].id != c.id
  }

  /** Once everything is answered, every issued command of a known type has happened
      exactly once, and no other has. */
  lemma ExactlyOnce(cfg: Config, log: seq<Occ>, ex: MemoryExecutor, i: nat)
    requires WellFormed(cfg.def) && Consistent(cfg, log, ex) && Outstanding(log) == map[]
    requires i < |log| && log[i].CommandIssued?
    ensures log[i].command.kind in ex.known ==> PerformedOnce(ex.performed, log[i].command)
    ensures log[i].command.kind !in ex.known ==> forall c <- ex.performed :: c.id != log[i].command.id
  {
    hide Reach, Legal, Advance;
    var c, a := log[i].command, Reach(cfg, log).value;
    OutboxOf(cfg, log);
    IssueStep(cfg, log, i);
    BooksBetween(cfg, log, i + 1, |log|);
    assert log[..|log|] == log;
    assert c.id in a.issued && c.id !in Open(a);
    if c.kind in ex.known {
      var n :| 0 <= n < |ex.performed| && ex.performed[n].id == c.id;
      assert ex.performed[n] in ex.performed;
    }
  }

  /** Records that are not about commands leave the agreement alone. */
  lemma OtherRecords(cfg: Config, log: seq<Occ>, o: Occ, executed: set<CommandId>, known: set<string>, performed: seq<Command>)
    requires Agrees(cfg, log, executed, known, performed) && Legal(cfg, Reach(cfg, log).value, o)
    requires !o.CommandIssued? && !o.CommandResult?
    ensures Agrees(cfg, log + [o], executed, known, performed)
  {
    hide Legal, NextState;
    ReachNext(cfg, log, Reach(cfg, log).value, o);
  }

  lemma IssueRecord(cfg: Config, log: seq<Occ>, c: Command, executed: set<CommandId>, known: set<string>, performed: seq<Command>)
    requires Agrees(cfg, log, executed, known, performed) && IssueLegal(cfg, Reach(cfg, log).value, c)
    ensures Agrees(cfg, log + [CommandIssued(c)], executed, known, performed) && Reach(cfg, log + [CommandIssued(c)]).Some?
    ensures var b := Reach(cfg, log + [CommandIssued(c)]).value;
      && b.st == Reach(cfg, log).value.st && b.owed.None?
      && c.id in b.issued && b.issued[c.id] == c && b.resolved == Reach(cfg, log).value.resolved
      && b.issued == Reach(cfg, log).value.issued[c.id := c]
  {
    hide Reach, Justified;
    ReachNext(cfg, log, Reach(cfg, log).value, CommandIssued(c));
  }

  lemma ResultRecord(cfg: Config, log: seq<Occ>, r: SideEffectResult, executed: set<CommandId>, known: set<string>, performed: seq<Command>)
    requires Agrees(cfg, log, executed, known, performed)
    requires var a := Reach(cfg, log).value;
      r.id in a.issued && r.id !in a.resolved && (a.issued[r.id].kind in known ==> r.id in executed)
    ensures Agrees(cfg, log + [CommandResult(r)], executed, known, performed) && Reach(cfg, log + [CommandResult(r)]).Some?
    ensures var a, b := Reach(cfg, log).value, Reach(cfg, log + [CommandResult(r)]).value;
      b.resolved == a.resolved + {r.id} && b.issued == a.issued && b.owed == InverseOf(a, r) && b.st.undo == a.st.undo
  {
    hide Reach;
    ReachNext(cfg, log, Reach(cfg, log).value, CommandResult(r));
  }

  lemma UndoRecord(cfg: Config, log: seq<Occ>, u: UndoEntry, executed: set<CommandId>, known: set<string>, performed: seq<Command>)
    requires Agrees(cfg, log, executed, known, performed) && UndoPushLegal(Reach(cfg, log).value, u)
    ensures Agrees(cfg, log + [CompensationPushed(u)], executed, known, performed) && Reach(cfg, log + [CompensationPushed(u)]).Some?
    ensures var a, b := Reach(cfg, log).value, Reach(cfg, log + [CompensationPushed(u)]).value;
      b.resolved == a.resolved && b.issued == a.issued && |b.st.undo| == |a.st.undo| + 1
  {
    hide Reach;
    ReachNext(cfg, log, Reach(cfg, log).value, CompensationPushed(u));
  }

  lemma PerformedRecord(cfg: Config, log: seq<Occ>, c: Command, executed: set<CommandId>, known: set<string>, performed: seq<Command>)
    requires Agrees(cfg, log, executed, known, performed) && c.id in Reach(cfg, log).value.issued
    requires Reach(cfg, log).value.issued[c.id] == c
    ensures Agrees(cfg, log, executed + {c.id}, known, performed + [c])
  {
    hide Reach;
  }

  lemma IssueContent(cfg: Config, a: Audit, c: Command)
    requires IssueLegal(cfg, a, c)
    ensures c.id in a.issued ==> a.issued[c.id] == c
  {
    hide Justified;
  }

  lemma MayPush(a: Audit, b: Audit, cmd: Command, r: SideEffectResult, u: UndoEntry)
    requires cmd.id in a.issued && a.issued[cmd.id] == cmd && r.id == cmd.id
    requires b.owed == InverseOf(a, r) && cmd.compensation.Some? && r.status == ResultCompleted
    requires u == UndoEntry(cmd.node, cmd.id, UndoCommand(|b.st.undo|, cmd.id), cmd.compensation.value, false)
    ensures UndoPushLegal(b, u)
  {
  }

  // ----------------------------------------------------------------------- ledger

  /** The answer is skipped exactly when a death had cut the command off from its first answer,
      and completed exactly when the command was performed and not cut off. */
  predicate Told(r: SideEffectResult, executed: set<CommandId>, cut: set<CommandId>) {
    && (r.status == ResultSkipped <==> r.id in cut)
    && (r.status == ResultCompleted <==> r.id in executed && r.id !in cut)
  }

  /** Since record `from` the log has told what the executor did: what was performed was
      answered, or a death cut it off. */
  ghost predicate Ledger(cfg: Config, log: seq<Occ>, from: nat, executed: set<CommandId>, cut: set<CommandId>) {
    && Reach(cfg, log).Some? && cut <= executed
    && (forall id <- executed :: id in cut || id in Reach(cfg, log).value.resolved)
    && forall i | from <= i < |log| :: log[i].CommandResult? ==> Told(log[i].result, executed, cut)
  }

  lemma LedgerWrite(cfg: Config, log: seq<Occ>, o: Occ, from: nat, executed: set<CommandId>, cut: set<CommandId>)
    requires Ledger(cfg, log, from, executed, cut) && !o.CommandResult? && Reach(cfg, log + [o]).Some?
    requires Reach(cfg, log + [o]).value.resolved == Reach(cfg, log).value.resolved
    ensures Ledger(cfg, log + [o], from, executed, cut)
  {
    hide Reach, Told;
  }

  /** The command was performed, unless it had been; nothing logged so far is about it. */
  lemma {:induction false} LedgerCut(cfg: Config, log: seq<Occ>, from: nat, executed: set<CommandId>, cut: set<CommandId>, id: CommandId)
    requires Ledger(cfg, log, from, executed, cut) && id !in Reach(cfg, log).value.resolved
    ensures Ledger(cfg, log, from, executed + {id}, cut + {id})
  {
    hide Reach, Legal;
    forall i | from <= i < |log| && log[i].CommandResult? ensures log[i].result.id != id {
      AnsweredIsResolved(cfg, log, i);
    }
  }

  lemma AnsweredIsResolved(cfg: Config, log: seq<Occ>, i: nat)
    requires Reach(cfg, log).Some? && i < |log| && log[i].CommandResult?
    ensures log[i].result.id in Reach(cfg, log).value.resolved
  {
    hide Reach, Legal;
    ResultStep(cfg, log, i);
    BooksBetween(cfg, log, i + 1, |log|);
    assert log[..|log|] == log;
  }

  /** Performed now, if it can be and had not been, and answered accordingly. */
  lemma LedgerAnswer(cfg: Config, log: seq<Occ>, r: SideEffectResult, from: nat, before: set<CommandId>, executed: set<CommandId>, cut: set<CommandId>)
    requires Ledger(cfg, log, from, before, cut) && r.id !in Reach(cfg, log).value.resolved
    requires executed in {before, before + {r.id}} && Reach(cfg, log + [CommandResult(r)]).Some?
    requires Reach(cfg, log + [CommandResult(r)]).value.resolved == Reach(cfg, log).value.resolved + {r.id}
    requires (r.status == ResultSkipped <==> r.id in before) && (r.status == ResultCompleted <==> r.id in executed && r.id !in before)
    ensures Ledger(cfg, log + [CommandResult(r)], from, executed, cut)
  {
    hide Reach, Legal;
    forall i | from <= i < |log| && log[i].CommandResult? ensures log[i].result.id != r.id {
      AnsweredIsResolved(cfg, log, i);
    }
    var next := log + [CommandResult(r)];
    forall i | from <= i < |next| && next[i].CommandResult? ensures Told(next[i].result, executed, cut) {
      if i < |log| {
        assert next[i] == log[i] && Told(log[i].result, before, cut);
      }
    }
  }

  // --------------------------------------------------------------------- delivery

  /** From `a` to `b` at most this one command was issued and answered. */
  ghost predicate OnlyCommand(a: Audit, b: Audit, cmd: Command) {
    && a.issued.Keys <= b.issued.Keys <= a.issued.Keys + {cmd.id}
    && (forall id <- a.issued :: b.issued[id] == a.issued[id])
    && (cmd.id in b.issued ==> b.issued[cmd.id] == cmd)
    && a.resolved <= b.resolved <= a.resolved + {cmd.id}
  }

  /** The executor's part of a delivery. */
  method HandleIssued(ghost cfg: Config, ghost log: seq<Occ>, cmd: Command, ex: MemoryExecutor) returns (r: SideEffectResult)
    requires Consistent(cfg, log, ex)
    requires cmd.id in Reach(cfg, log).value.issued && Reach(cfg, log).value.issued[cmd.id] == cmd
    modifies ex
    ensures Consistent(cfg, log, ex) && r.id == cmd.id
    ensures cmd.kind in ex.known ==> cmd.id in ex.executed
    ensures cmd.kind !in ex.known ==> ex.performed == old(ex.performed)
    ensures ex.executed == if cmd.kind in ex.known then old(ex.executed) + {cmd.id} else old(ex.executed)
    ensures ex.cut == old(ex.cut) && (r.status == ResultSkipped <==> cmd.id in old(ex.executed))
    ensures r.status == ResultCompleted <==> cmd.id !in old(ex.executed) && cmd.kind in ex.known
  {
    hide Reach, Agrees;
    PerformedRecord(cfg, log, cmd, ex.executed, ex.known, ex.performed);
    var reply := ex.Handle(cmd);
    r := SideEffectResult(cmd.id, reply.status, if reply.error.Some? then reply.error.value else "", reply.outcome);
  }

  /** The journal's part after the executor answered: the result, and the inverse. */
  method RecordAnswer(cfg: Config, journal: seq<Occ>, cmd: Command, r: SideEffectResult, undoLength: nat, ex: MemoryExecutor, life: nat,
                      ghost from: nat, ghost before: set<CommandId>)
    returns (log: seq<Occ>, left: nat, undo: nat)
    requires life > 0 && ex.executed in {before, before + {cmd.id}}
    requires (r.status == ResultSkipped <==> cmd.id in before) && (r.status == ResultCompleted <==> cmd.id in ex.executed && cmd.id !in before)
    requires Consistent(cfg, journal, ex) && r.id == cmd.id && undoLength == |Reach(cfg, journal).value.st.undo|
    requires var a := Reach(cfg, journal).value;
      cmd.id in a.issued && a.issued[cmd.id] == cmd && cmd.id !in a.resolved
    requires cmd.kind in ex.known ==> cmd.id in ex.executed
    ensures Consistent(cfg, log, ex) && journal <= log && left <= life
    ensures OnlyCommand(Reach(cfg, journal).value, Reach(cfg, log).value, cmd)
    ensures left > 0 ==> cmd.id in Reach(cfg, log).value.resolved && undo == |Reach(cfg, log).value.st.undo|
    ensures left >= life - 2
    ensures Ledger(cfg, journal, from, before, ex.cut) ==> Ledger(cfg, log, from, ex.executed, ex.cut)
  {
    hide Reach, Agrees, UndoPushLegal, Ledger;
    log, left, undo := journal, life, undoLength;
    ResultRecord(cfg, log, r, ex.executed, ex.known, ex.performed);
    if Ledger(cfg, journal, from, before, ex.cut) {
      LedgerAnswer(cfg, journal, r, from, before, ex.executed, ex.cut);
    }
    log, left := log + [CommandResult(r)], left - 1;
    if left == 0 || cmd.compensation.None? || r.status != ResultCompleted {
      return;
    }
    var entry := UndoEntry(cmd.node, cmd.id, UndoCommand(undo, cmd.id), cmd.compensation.value, false);
    MayPush(Reach(cfg, journal).value, Reach(cfg, log).value, cmd, r, entry);
    UndoRecord(cfg, log, entry, ex.executed, ex.known, ex.performed);
    if Ledger(cfg, log, from, ex.executed, ex.cut) {
      LedgerWrite(cfg, log, CompensationPushed(entry), from, ex.executed, ex.cut);
    }
    log, left, undo := log + [CompensationPushed(entry)], left - 1, undo + 1;
  }

  /** deliver, dying after `life` steps: issue, handle, result, inverse. Wherever it
      stops, journal and executor agree; a death right after the second step cuts the command
      off from its answer. */
  method DeliverMortal(cfg: Config, journal: seq<Occ>, cmd: Command, undoLength: nat, ex: MemoryExecutor, life: nat, ghost from: nat)
    returns (log: seq<Occ>, left: nat, undo: nat)
    requires Consistent(cfg, journal, ex) && IssueLegal(cfg, Reach(cfg, journal).value, cmd)
    requires cmd.id !in Reach(cfg, journal).value.resolved && undoLength == |Reach(cfg, journal).value.st.undo|
    modifies ex
    ensures Consistent(cfg, log, ex) && journal <= log && left <= life
    ensures OnlyCommand(Reach(cfg, journal).value, Reach(cfg, log).value, cmd)
    ensures left > 0 ==> cmd.id in Reach(cfg, log).value.resolved && undo == |Reach(cfg, log).value.st.undo|
    ensures left >= life - 4
    ensures ex.cut == if life == 2 && cmd.kind in ex.known then old(ex.cut) + {cmd.id} else old(ex.cut)
    ensures Ledger(cfg, journal, from, old(ex.executed), old(ex.cut)) ==> Ledger(cfg, log, from, ex.executed, ex.cut)
    ensures life == 2 ==> left == 0
  {
    hide Reach, IssueLegal, Agrees, Ledger;
    ghost var before, cut := ex.executed, ex.cut;
    if life == 0 {
      SameBooks(cfg, journal, cmd);
      return journal, 0, undoLength;
    }
    IssueRecord(cfg, journal, cmd, ex.executed, ex.known, ex.performed);
    IssueContent(cfg, Reach(cfg, journal).value, cmd);
    log := journal + [CommandIssued(cmd)];
    if Ledger(cfg, journal, from, before, cut) {
      LedgerWrite(cfg, journal, CommandIssued(cmd), from, before, cut);
    }
    if life == 1 {
      return log, 0, undoLength;
    }
    var r := HandleIssued(cfg, log, cmd, ex);
    ghost var mid := Reach(cfg, log).value;
    if life == 2 {
      ex.cut := if cmd.kind in ex.known then cut + {cmd.id} else cut;
      if Ledger(cfg, log, from, before, cut) && cmd.kind in ex.known {
        LedgerCut(cfg, log, from, before, cut, cmd.id);
      }
      return log, 0, undoLength;
    }
    log, left, undo := RecordAnswer(cfg, log, cmd, r, undoLength, ex, life - 2, from, before);
    OnlyCommandTrans(Reach(cfg, journal).value, mid, Reach(cfg, log).value, cmd);
  }

  lemma SameBooks(cfg: Config, log: seq<Occ>, cmd: Command)
    requires Reach(cfg, log).Some? && IssueLegal(cfg, Reach(cfg, log).value, cmd)
    ensures OnlyCommand(Reach(cfg, log).value, Reach(cfg, log).value, cmd)
  {
    hide Reach, Justified;
  }

  lemma OnlyCommandTrans(a: Audit, b: Audit, c: Audit, cmd: Command)
    requires OnlyCommand(a, b, cmd) && OnlyCommand(b, c, cmd)
    ensures OnlyCommand(a, c, cmd)
  {
  }

  // ----------------------------------------------------------------------- reload

  /** What is still to be dispatched: exactly the open commands, each once. */
  ghost predicate Remaining(a: Audit, pending: seq<Command>, k: nat) {
    && k <= |pending| && DistinctIds(pending)
    && (forall i | k <= i < |pending| :: pending[i].id in Open(a) && a.issued[pending[i].id] == pending[i])
    && forall id <- Open(a) :: exists i | k <= i < |pending| :: pending[i].id == id
  }

  lemma RemainingNext(a: Audit, b: Audit, pending: seq<Command>, k: nat)
    requires Remaining(a, pending, k) && k < |pending| && a.resolved <= a.issued.Keys
    requires OnlyCommand(a, b, pending[k]) && pending[k].id in b.resolved
    ensures Remaining(b, pending, k + 1)
  {
    assert b.issued.Keys == a.issued.Keys && b.resolved == a.resolved + {pending[k].id};
    forall id | id in Open(b) ensures exists i | k + 1 <= i < |pending| :: pending[i].id == id {
      assert id in Open(a);
      var i :| k <= i < |pending| && pending[i].id == id;
      assert i != k;
    }
  }

  /** The outbox view of a consistent log is what a reload has to dispatch. */
  lemma PendingRemains(cfg: Config, log: seq<Occ>, pending: seq<Command>)
    requires Reach(cfg, log).Some? && DistinctIds(pending)
    requires forall c: Command :: c in pending <==> c.id in Outstanding(log) && Outstanding(log)[c.id] == c
    ensures Remaining(Reach(cfg, log).value, pending, 0)
  {
    hide Reach;
    OutboxOf(cfg, log);
    OutstandingListed(log);
    forall i | 0 <= i < |pending|
      ensures pending[i].id in Open(Reach(cfg, log).value) && Reach(cfg, log).value.issued[pending[i].id] == pending[i]
    {
      assert pending[i] in pending;
    }
    forall id | id in Open(Reach(cfg, log).value) ensures exists i | 0 <= i < |pending| :: pending[i].id == id {
      assert Outstanding(log)[id] in pending;
    }
  }

  lemma MayRedispatch(cfg: Config, log: seq<Occ>, executed: set<CommandId>, known: set<string>, performed: seq<Command>,
                      pending: seq<Command>, k: nat)
    requires Agrees(cfg, log, executed, known, performed) && k < |pending| && Remaining(Reach(cfg, log).value, pending, k)
    ensures IssueLegal(cfg, Reach(cfg, log).value, pending[k])
    ensures var a := Reach(cfg, log).value;
      pending[k].id in a.issued && pending[k].id !in a.resolved && a.resolved <= a.issued.Keys
  {
    hide Reach, Justified;
  }

  lemma SameIssued(a: Audit, b: Audit, c: Command)
    requires OnlyCommand(a, b, c) && c.id in a.issued
    ensures b.issued.Keys == a.issued.Keys
  {
  }

  lemma NothingOpen(cfg: Config, log: seq<Occ>, pending: seq<Command>)
    requires Reach(cfg, log).Some? && Remaining(Reach(cfg, log).value, pending, |pending|)
    ensures Outstanding(log) == map[]
  {
    hide Reach;
    OutboxOf(cfg, log);
    assert Outstanding(log).Keys == {};
  }

  lemma PendingCount(log: seq<Occ>, pending: seq<Command>)
    requires DistinctIds(pending)
    requires forall c: Command :: c in pending <==> c.id in Outstanding(log) && Outstanding(log)[c.id] == c
    ensures |pending| <= |Outstanding(log)|
  {
    DistinctFit(pending, Outstanding(log).Keys);
  }

  /** They are as many as the outbox holds. */
  lemma PendingSize(log: seq<Occ>, pending: seq<Command>)
    requires DistinctIds(pending)
    requires forall c: Command :: c in pending <==> c.id in Outstanding(log) && Outstanding(log)[c.id] == c
    ensures |pending| == |Outstanding(log)|
  {
    hide Outstanding;
    OutstandingListed(log);
    PendingCount(log, pending);
    var ids := set c | c in pending :: c.id;
    IdCount(pending);
    forall id | id in Outstanding(log) ensures id in ids {
      assert Outstanding(log)[id] in pending;
    }
    Forking.SubsetSmaller(Outstanding(log).Keys, ids);
  }

  lemma {:induction false} IdCount(cmds: seq<Command>)
    ensures |set c | c in cmds :: c.id| <= |cmds|
  {
    if cmds != [] {
      var n := |cmds| - 1;
      IdCount(cmds[..n]);
      assert cmds == cmds[..n] + [cmds[n]];
      assert (set c | c in cmds :: c.id) == (set c | c in cmds[..n] :: c.id) + {cmds[n].id};
    }
  }

  lemma {:induction false} DistinctFit(cmds: seq<Command>, ids: set<CommandId>)
    requires DistinctIds(cmds) && forall c <- cmds :: c.id in ids
    ensures |cmds| <= |ids|
    decreases |cmds|
  {
    if cmds != [] {
      var n := |cmds| - 1;
      var id := cmds[n].id;
      forall c | c in cmds[..n] ensures c.id in ids - {id} {
        var i :| 0 <= i < n && cmds[i] == c;
      }
      assert cmds[n] in cmds;
      DistinctFit(cmds[..n], ids - {id});
    }
  }

  method RedispatchOne(cfg: Config, journal: seq<Occ>, pending: seq<Command>, k: nat, undoLength: nat, ex: MemoryExecutor, life: nat, ghost from: nat)
    returns (log: seq<Occ>, left: nat, undo: nat)
    requires Consistent(cfg, journal, ex) && k < |pending| && Remaining(Reach(cfg, journal).value, pending, k)
    requires undoLength == |Reach(cfg, journal).value.st.undo|
    modifies ex
    ensures Consistent(cfg, log, ex) && journal <= log && life - 4 <= left <= life
    ensures Reach(cfg, log).value.issued.Keys == Reach(cfg, journal).value.issued.Keys
    ensures left > 0 ==> Remaining(Reach(cfg, log).value, pending, k + 1) && undo == |Reach(cfg, log).value.st.undo|
    ensures Ledger(cfg, journal, from, old(ex.executed), old(ex.cut)) ==> Ledger(cfg, log, from, ex.executed, ex.cut)
    ensures ex.cut == if life == 2 && pending[k].kind in ex.known then old(ex.cut) + {pending[k].id} else old(ex.cut)
    ensures life == 2 ==> left == 0
  {
    hide Reach, Agrees, Remaining, OnlyCommand, IssueLegal, Ledger;
    ghost var a := Reach(cfg, journal).value;
    MayRedispatch(cfg, journal, ex.executed, ex.known, ex.performed, pending, k);
    log, left, undo := DeliverMortal(cfg, journal, pending[k], undoLength, ex, life, from);
    SameIssued(a, Reach(cfg, log).value, pending[k]);
    if left > 0 {
      RemainingNext(a, Reach(cfg, log).value, pending, k);
    }
  }

  /** load: the outbox is dispatched again, by a process that may die after `life` steps; if it
      does, one command at most is cut off from its answer. */
  method Reload(cfg: Config, journal: seq<Occ>, ex: MemoryExecutor, life: nat, ghost from: nat) returns (log: seq<Occ>, done: bool)
    requires WellFormed(cfg.def) && Consistent(cfg, journal, ex)
    modifies ex
    ensures Consistent(cfg, log, ex) && journal <= log
    ensures done ==> Outstanding(log) == map[]
    ensures Reach(cfg, log).value.issued.Keys == Reach(cfg, journal).value.issued.Keys
    ensures life > 4 * |Outstanding(journal)| ==> done
    ensures Outstanding(journal) == map[] ==> log == journal
    ensures Ledger(cfg, journal, from, old(ex.executed), old(ex.cut)) ==> Ledger(cfg, log, from, ex.executed, ex.cut)
    ensures done ==> ex.cut == old(ex.cut)
    ensures old(ex.cut) <= ex.cut && |ex.cut| <= |old(ex.cut)| + 1
  {
    hide Reach, Agrees, Remaining, OnlyCommand, Ledger;
    NeverReissued(cfg, journal);
    ReachSane(cfg, journal);
    var pending := PendingCommands(journal);
    PendingRemains(cfg, journal, pending);
    PendingCount(journal, pending);
    var undo := |Fold(cfg.def, journal).value.undo|;
    log := journal;
    var left: nat := life;
    var k := 0;
    while k < |pending|
      invariant Consistent(cfg, log, ex) && journal <= log && k <= |pending|
      invariant Remaining(Reach(cfg, log).value, pending, k)
      invariant Reach(cfg, log).value.issued.Keys == Reach(cfg, journal).value.issued.Keys
      invariant undo == |Reach(cfg, log).value.st.undo|
      invariant life > 4 * |pending| ==> left > 4 * (|pending| - k)
      invariant k == 0 ==> log == journal
      invariant Ledger(cfg, journal, from, old(ex.executed), old(ex.cut)) ==> Ledger(cfg, log, from, ex.executed, ex.cut)
      invariant ex.cut == old(ex.cut)
    {
      log, left, undo := RedispatchOne(cfg, log, pending, k, undo, ex, left, from);
      if left == 0 {
        return log, false;
      }
      k := k + 1;
    }
    NothingOpen(cfg, log, pending);
    done := true;
  }

  // -------------------------------------------------------------------- lifetimes

  /** What a process does next: write a record that is not about the delivery of a command,
      or deliver a command. */
  datatype Act = Write(o: Occ) | Send(c: Command)

  ghost predicate MayDo(cfg: Config, a: Audit, act: Act) {
    match act
    case Write(o) => Legal(cfg, a, o) && !o.CommandIssued? && !o.CommandResult? && !o.CompensationPushed?
    case Send(c) => IssueLegal(cfg, a, c) && c.id !in a.resolved
  }

  /** A process decides by the log so far, and within the protocol. */
  ghost predicate Obeys(cfg: Config, program: seq<Occ> -> Act) {
    forall log: seq<Occ> :: Reach(cfg, log).Some? ==> MayDo(cfg, Reach(cfg, log).value, program(log))
  }

  /** A process works until it dies after `life` steps, wherever that is: journal and
      executor agree at every step, and one command at most is cut off from its answer. */
  method Work(cfg: Config, journal: seq<Occ>, ex: MemoryExecutor, program: seq<Occ> -> Act, life: nat, ghost from: nat) returns (log: seq<Occ>)
    requires WellFormed(cfg.def) && Consistent(cfg, journal, ex) && Obeys(cfg, program)
    modifies ex
    ensures Consistent(cfg, log, ex) && journal <= log
    ensures Ledger(cfg, journal, from, old(ex.executed), old(ex.cut)) ==> Ledger(cfg, log, from, ex.executed, ex.cut)
    ensures old(ex.cut) <= ex.cut && |ex.cut| <= |old(ex.cut)| + 1
  {
    hide Reach, Legal, IssueLegal, Agrees, OnlyCommand, Ledger;
    log := journal;
    ReachSane(cfg, log);
    var left, undo := life, |Fold(cfg.def, log).value.undo|;
    while left > 0
      invariant Consistent(cfg, log, ex) && journal <= log
      invariant left > 0 ==> undo == |Reach(cfg, log).value.st.undo| && ex.cut == old(ex.cut)
      invariant Ledger(cfg, journal, from, old(ex.executed), old(ex.cut)) ==> Ledger(cfg, log, from, ex.executed, ex.cut)
      invariant old(ex.cut) <= ex.cut && |ex.cut| <= |old(ex.cut)| + 1
    {
      var act := program(log);
      assert MayDo(cfg, Reach(cfg, log).value, act);
      match act {
        case Write(o) =>
          OtherRecords(cfg, log, o, ex.executed, ex.known, ex.performed);
          SameUndo(cfg, log, o);
          if Ledger(cfg, log, from, ex.executed, ex.cut) {
            LedgerWrite(cfg, log, o, from, ex.executed, ex.cut);
          }
          log, left := log + [o], left - 1;
        case Send(c) =>
          var before := left;
          log, left, undo := DeliverMortal(cfg, log, c, undo, ex, left, from);
          left := if left < before then left else before - 1;
      }
    }
  }

  lemma SameUndo(cfg: Config, log: seq<Occ>, o: Occ)
    requires Reach(cfg, log).Some? && Legal(cfg, Reach(cfg, log).value, o) && !o.CompensationPushed?
    ensures Reach(cfg, log + [o]).Some? && |Reach(cfg, log + [o]).value.st.undo| == |Reach(cfg, log).value.st.undo|
    ensures !o.CommandResult? ==> Reach(cfg, log + [o]).value.resolved == Reach(cfg, log).value.resolved
  {
    hide Reach, Legal;
    ReachNext(cfg, log, Reach(cfg, log).value, o);
  }

  /** One process: it reloads, possibly dying, and then works, until it dies. */
  datatype Life = Life(reload: nat, program: seq<Occ> -> Act, work: nat)

  /** From an empty journal and a new executor, through processes that die after any step
      of their reload or of their work, up to one that lives through its reload: nothing is
      left to dispatch, and every command of a known type that was ever issued has happened
      exactly once. The declared inverse of one that happened is kept, unless a death cut it
      off from its answer; every process but the last can do that to one command. */
  method Survive(cfg: Config, known: set<string>, lives: seq<Life>) returns (log: seq<Occ>, ex: MemoryExecutor)
    requires WellFormed(cfg.def) && forall l <- lives :: Obeys(cfg, l.program)
    ensures fresh(ex) && ex.known == known && Consistent(cfg, log, ex)
    ensures Outstanding(log) == map[] && OnceEach(log, ex.known, ex.performed)
    ensures forall c <- ex.performed :: c.compensation.Some? ==> (HasInverse(log, c.id) <==> c.id !in ex.cut)
    ensures |ex.cut| <= |lives|
  {
    hide Reach, Agrees, OnceEach, Obeys, HasInverse;
    ex := new MemoryExecutor(known);
    FirstAgreement(cfg, known);
    FirstLedger(cfg);
    log := Outlive(cfg, [], ex, lives, 0);
    UndoneUnlessCut(cfg, log, ex);
  }

  /** The same from any point where journal and executor agree. */
  method Outlive(cfg: Config, journal: seq<Occ>, ex: MemoryExecutor, lives: seq<Life>, ghost from: nat) returns (log: seq<Occ>)
    requires WellFormed(cfg.def) && Consistent(cfg, journal, ex) && forall l <- lives :: Obeys(cfg, l.program)
    modifies ex
    ensures Consistent(cfg, log, ex) && journal <= log
    ensures Outstanding(log) == map[] && OnceEach(log, ex.known, ex.performed)
    ensures Ledger(cfg, journal, from, old(ex.executed), old(ex.cut)) ==> Ledger(cfg, log, from, ex.executed, ex.cut)
    ensures old(ex.cut) <= ex.cut && |ex.cut| <= |old(ex.cut)| + |lives|
  {
    hide Reach, Agrees, OnceEach, Obeys, Ledger;
    log := journal;
    for k := 0 to |lives|
      invariant Consistent(cfg, log, ex) && journal <= log
      invariant Ledger(cfg, journal, from, old(ex.executed), old(ex.cut)) ==> Ledger(cfg, log, from, ex.executed, ex.cut)
      invariant old(ex.cut) <= ex.cut && |ex.cut| <= |old(ex.cut)| + k
    {
      var done;
      log, done := Reload(cfg, log, ex, lives[k].reload, from);
      if done {
        log := Work(cfg, log, ex, lives[k].program, lives[k].work, from);
      }
    }
    log := Recovered(cfg, log, ex, from);
  }

  lemma FirstLedger(cfg: Config)
    ensures Ledger(cfg, [], 0, {}, {})
  {
  }

  // -------------------------------------------------------------------- inverses

  /** The log holds the declared inverse of the command. */
  ghost predicate HasInverse(log: seq<Occ>, id: CommandId) {
    exists inv <- InversesOf(log) :: inv.command == id
  }

  /** The log's answer to the command is that it was completed. */
  ghost predicate AnsweredCompleted(log: seq<Occ>, id: CommandId) {
    exists i | 0 <= i < |log| :: log[i].CommandResult? && log[i].result.id == id && log[i].result.status == ResultCompleted
  }

  lemma {:induction false} InverseWasAnswered(log: seq<Occ>, id: CommandId)
    requires HasInverse(log, id)
    ensures AnsweredCompleted(log, id)
    decreases |log|
  {
    hide Outstanding;
    var n := |log| - 1;
    if HasInverse(log[..n], id) {
      InverseWasAnswered(log[..n], id);
      var i :| 0 <= i < n && log[..n][i].CommandResult? && log[..n][i].result.id == id && log[..n][i].result.status == ResultCompleted;
      assert log[i] == log[..n][i];
    } else {
      assert log[n].CommandResult? && log[n].result.id == id;
    }
  }

  lemma {:induction false} InversesStay(log: seq<Occ>, n: nat, id: CommandId)
    requires n <= |log| && HasInverse(log[..n], id)
    ensures HasInverse(log, id)
    decreases |log|
  {
    hide Outstanding;
    if n == |log| {
      assert log[..n] == log;
    } else {
      var k := |log| - 1;
      assert log[..k][..n] == log[..n];
      InversesStay(log[..k], n, id);
    }
  }

  /** The declared inverse of an issued command is in the log exactly when its logged answer
      is that it was completed. */
  lemma InverseExact(cfg: Config, log: seq<Occ>, c: Command)
    requires Reach(cfg, log).Some? && c.id in Reach(cfg, log).value.issued && Reach(cfg, log).value.issued[c.id] == c
    requires c.compensation.Some?
    ensures HasInverse(log, c.id) <==> AnsweredCompleted(log, c.id)
  {
    hide Reach, HasInverse, Outstanding;
    if HasInverse(log, c.id) {
      InverseWasAnswered(log, c.id);
    }
    if AnsweredCompleted(log, c.id) {
      var i :| 0 <= i < |log| && log[i].CommandResult? && log[i].result.id == c.id && log[i].result.status == ResultCompleted;
      ResultStep(cfg, log, i);
      ReachPrefix(cfg, log, i);
      OutboxOf(cfg, log[..i]);
      BooksBetween(cfg, log, i, |log|);
      assert log[..|log|] == log;
      AnswerKeepsInverse(log, i, c);
      InversesStay(log, i + 1, c.id);
    }
  }

  lemma AnswerKeepsInverse(log: seq<Occ>, i: nat, c: Command)
    requires i < |log| && log[i].CommandResult? && log[i].result.id == c.id && log[i].result.status == ResultCompleted
    requires c.id in Outstanding(log[..i]) && Outstanding(log[..i])[c.id] == c && c.compensation.Some?
    ensures HasInverse(log[..i + 1], c.id)
  {
    hide Outstanding;
    assert log[..i + 1][..i] == log[..i];
    var all := InversesOf(log[..i + 1]);
    assert all[|all| - 1].command == c.id;
  }

  /** Compensation fires inverses in the log and no others. */
  lemma {:induction false} StackedHasInverse(cfg: Config, log: seq<Occ>, p: nat)
    requires WellFormed(cfg.def) && Reach(cfg, log).Some? && p < |Reach(cfg, log).value.st.undo|
    ensures HasInverse(log, Reach(cfg, log).value.st.undo[p].command)
    decreases |log|
  {
    hide Legal, Apply, InversesOf;
    if log == [] {
      FirstAudit(cfg, log);
    } else {
      var n := |log| - 1;
      var a, o := Reach(cfg, log[..n]).value, log[n];
      StackStep(cfg, a, o, p);
      if p < |a.st.undo| {
        StackedHasInverse(cfg, log[..n], p);
      } else {
        ReachSane(cfg, log[..n]);
        OutboxOf(cfg, log[..n]);
        assert a.inverses[|a.inverses| - 1] == a.owed.value;
      }
      InversesStay(log, n, Reach(cfg, log).value.st.undo[p].command);
    }
  }

  lemma StackStep(cfg: Config, a: Audit, o: Occ, p: nat)
    requires Legal(cfg, a, o) && p < |Advance(a, o).st.undo|
    ensures if p < |a.st.undo| then Advance(a, o).st.undo[p].command == a.st.undo[p].command
      else a.owed.Some? && Advance(a, o).st.undo[p].command == a.owed.value.command
  {
    hide TransitionLegal, StatusLegal, VariableLegal, PushLegal, BranchLegal, SlotLegal, IssueLegal, Admissible, WakeLegal, WokeLegal, NodeSetLegal, FireLegal;
  }

  /** Once everything is answered, a command that was performed and declared an inverse has it
      in the log exactly when its logged answer is completed. */
  lemma PerformedUndone(cfg: Config, log: seq<Occ>, ex: MemoryExecutor, c: Command)
    requires Consistent(cfg, log, ex) && c in ex.performed && c.compensation.Some?
    ensures HasInverse(log, c.id) <==> AnsweredCompleted(log, c.id)
  {
    hide Reach, HasInverse, AnsweredCompleted;
    InverseExact(cfg, log, c);
  }

  /** That is exactly when no death fell between its performance and its answer. */
  lemma UndoneUnlessCut(cfg: Config, log: seq<Occ>, ex: MemoryExecutor)
    requires Consistent(cfg, log, ex) && Outstanding(log) == map[] && Ledger(cfg, log, 0, ex.executed, ex.cut)
    ensures forall c <- ex.performed :: c.compensation.Some? ==> (HasInverse(log, c.id) <==> c.id !in ex.cut)
  {
    hide Reach, HasInverse;
    OutboxOf(cfg, log);
    forall c | c in ex.performed && c.compensation.Some? ensures HasInverse(log, c.id) <==> c.id !in ex.cut {
      PerformedUndone(cfg, log, ex, c);
      assert c.id in Reach(cfg, log).value.issued && c.id !in Open(Reach(cfg, log).value);
      AnswerLogged(cfg, log, c.id);
      var i :| 0 <= i < |log| && log[i].CommandResult? && log[i].result.id == c.id;
      assert Told(log[i].result, ex.executed, ex.cut);
      if AnsweredCompleted(log, c.id) {
        var j :| 0 <= j < |log| && log[j].CommandResult? && log[j].result.id == c.id && log[j].result.status == ResultCompleted;
        assert Told(log[j].result, ex.executed, ex.cut);
      }
    }
  }

  /** An input on which an inverse is lost: a new command that declares one is delivered by a
      process that dies right after the executor performed it. The reload delivers it again, it
      is answered as skipped, and compensation will not undo it. */
  method LoseInverse(cfg: Config, journal: seq<Occ>, cmd: Command, ex: MemoryExecutor) returns (log: seq<Occ>)
    requires WellFormed(cfg.def) && Consistent(cfg, journal, ex) && Ledger(cfg, journal, |journal|, ex.executed, ex.cut)
    requires IssueLegal(cfg, Reach(cfg, journal).value, cmd) && cmd.id !in Reach(cfg, journal).value.issued
    requires cmd.kind in ex.known && cmd.compensation.Some?
    modifies ex
    ensures Consistent(cfg, log, ex) && journal <= log && Outstanding(log) == map[] && PerformedOnce(ex.performed, cmd)
    ensures !HasInverse(log, cmd.id) && forall u <- Reach(cfg, log).value.st.undo :: u.command != cmd.id
  {
    hide Reach, Legal, IssueLegal, Agrees, Ledger, HasInverse, PerformedOnce;
    ReachSane(cfg, journal);
    var left, undo;
    log, left, undo := DeliverMortal(cfg, journal, cmd, |Fold(cfg.def, journal).value.undo|, ex, 2, |journal|);
    ghost var mid := log;
    var done;
    log, done := Reload(cfg, log, ex, 4 * |Outstanding(log)| + 1, |journal|);
    CutIsIssued(cfg, mid, log, ex, cmd);
    SkippedForGood(cfg, journal, log, ex.executed, ex.cut, cmd);
    forall u | u in Reach(cfg, log).value.st.undo ensures u.command != cmd.id {
      var p :| 0 <= p < |Reach(cfg, log).value.st.undo| && Reach(cfg, log).value.st.undo[p] == u;
      StackedHasInverse(cfg, log, p);
    }
  }

  lemma CutIsIssued(cfg: Config, mid: seq<Occ>, log: seq<Occ>, ex: MemoryExecutor, cmd: Command)
    requires Reach(cfg, mid).Some? && mid <= log && Consistent(cfg, log, ex) && cmd.id in ex.cut
    requires Reach(cfg, log).value.issued.Keys == Reach(cfg, mid).value.issued.Keys
    requires cmd.id in Reach(cfg, mid).value.issued ==> Reach(cfg, mid).value.issued[cmd.id] == cmd
    ensures cmd.id in Reach(cfg, log).value.issued && Reach(cfg, log).value.issued[cmd.id] == cmd && PerformedOnce(ex.performed, cmd)
  {
    hide Reach;
    var n :| 0 <= n < |ex.performed| && ex.performed[n].id == cmd.id;
    assert ex.performed[n] in ex.performed;
    assert log[..|mid|] == mid && log[..|log|] == log;
    BooksBetween(cfg, log, |mid|, |log|);
  }

  lemma SkippedForGood(cfg: Config, journal: seq<Occ>, log: seq<Occ>, executed: set<CommandId>, cut: set<CommandId>, cmd: Command)
    requires Reach(cfg, log).Some? && journal <= log && Reach(cfg, journal).Some? && Ledger(cfg, log, |journal|, executed, cut)
    requires cmd.id !in Reach(cfg, journal).value.issued && cmd.id in cut && cmd.compensation.Some?
    requires cmd.id in Reach(cfg, log).value.issued && Reach(cfg, log).value.issued[cmd.id] == cmd
    ensures !HasInverse(log, cmd.id)
  {
    hide Reach, Legal, HasInverse;
    InverseExact(cfg, log, cmd);
    forall i | 0 <= i < |log| && log[i].CommandResult? && log[i].result.id == cmd.id
      ensures log[i].result.status != ResultCompleted
    {
      ResultStep(cfg, log, i);
      assert log[..|journal|] == journal;
      if i < |journal| {
        BooksBetween(cfg, log, i, |journal|);
      }
      assert Told(log[i].result, executed, cut);
    }
  }

  lemma {:induction false} AnswerLogged(cfg: Config, log: seq<Occ>, id: CommandId)
    requires Reach(cfg, log).Some? && id in Reach(cfg, log).value.resolved
    ensures exists i | 0 <= i < |log| :: log[i].CommandResult? && log[i].result.id == id
    decreases |log|
  {
    hide Legal, NextState, NextOwed;
    var n := |log| - 1;
    if !(log[n].CommandResult? && log[n].result.id == id) {
      AnswerLogged(cfg, log[..n], id);
      var i :| 0 <= i < n && log[..n][i].CommandResult? && log[..n][i].result.id == id;
      assert log[i] == log[..n][i];
    }
  }


  lemma FirstAgreement(cfg: Config, known: set<string>)
    ensures Agrees(cfg, [], {}, known, [])
  {
  }

  /** Every issued command of a known type was performed once, and nothing else was. */
  ghost predicate OnceEach(log: seq<Occ>, known: set<string>, performed: seq<Command>) {
    && (forall i | 0 <= i < |log| :: log[i].CommandIssued? && log[i].command.kind in known ==>
          PerformedOnce(performed, log[i].command))
    && forall c <- performed :: c.kind in known && exists i | 0 <= i < |log| :: log[i] == CommandIssued(c)
  }

  /** A reload that lives settles everything. */
  method Recovered(cfg: Config, journal: seq<Occ>, ex: MemoryExecutor, ghost from: nat) returns (log: seq<Occ>)
    requires WellFormed(cfg.def) && Consistent(cfg, journal, ex)
    modifies ex
    ensures Consistent(cfg, log, ex) && journal <= log && Outstanding(log) == map[]
    ensures OnceEach(log, ex.known, ex.performed)
    ensures Ledger(cfg, journal, from, old(ex.executed), old(ex.cut)) ==> Ledger(cfg, log, from, ex.executed, ex.cut)
    ensures ex.cut == old(ex.cut)
  {
    hide Reach, Agrees, PerformedOnce, Ledger;
    var done;
    log, done := Reload(cfg, journal, ex, 4 * |Outstanding(journal)| + 1, from);
    forall i | 0 <= i < |log| && log[i].CommandIssued? && log[i].command.kind in ex.known
      ensures PerformedOnce(ex.performed, log[i].command)
    {
      ExactlyOnce(cfg, log, ex, i);
    }
    forall c | c in ex.performed ensures exists i | 0 <= i < |log| :: log[i] == CommandIssued(c) {
      PerformedWasIssued(cfg, log, ex.executed, ex.known, ex.performed, c);
    }
  }

  lemma PerformedWasIssued(cfg: Config, log: seq<Occ>, executed: set<CommandId>, known: set<string>, performed: seq<Command>, c: Command)
    requires Agrees(cfg, log, executed, known, performed) && c in performed
    ensures exists i | 0 <= i < |log| :: log[i] == CommandIssued(c)
  {
    IssuedWasLogged(cfg, log, c);
  }

  /** A result that was folded stands in the log. */
  lemma {:induction false} ResultWasLogged(cfg: Config, log: seq<Occ>, p: nat)
    requires Reach(cfg, log).Some? && p < |Reach(cfg, log).value.st.results|
    ensures exists i | 0 <= i < |log| :: log[i] == CommandResult(Reach(cfg, log).value.st.results[p])
    decreases |log|
  {
    hide Legal, Apply;
    if log == [] {
      FirstAudit(cfg, log);
    } else {
      var n := |log| - 1;
      var a, o := Reach(cfg, log[..n]).value, log[n];
      ResultFolded(cfg, a, o);
      if o.CommandResult? && p == |a.st.results| {
        assert log[n] == CommandResult(Reach(cfg, log).value.st.results[p]);
      } else {
        ResultWasLogged(cfg, log[..n], p);
        var i :| 0 <= i < n && log[..n][i] == CommandResult(a.st.results[p]);
        assert log[i] == log[..n][i];
      }
    }
  }

  lemma ResultFolded(cfg: Config, a: Audit, o: Occ)
    requires Legal(cfg, a, o)
    ensures Advance(a, o).st.results == if o.CommandResult? then a.st.results + [o.result] else a.st.results
  {
    hide TransitionLegal, StatusLegal, VariableLegal, PushLegal, BranchLegal, SlotLegal, IssueLegal, Admissible, WakeLegal, WokeLegal, NodeSetLegal, FireLegal;
  }

  lemma {:induction false} IssuedWasLogged(cfg: Config, log: seq<Occ>, c: Command)
    requires Reach(cfg, log).Some? && c.id in Reach(cfg, log).value.issued && Reach(cfg, log).value.issued[c.id] == c
    ensures exists i | 0 <= i < |log| :: log[i] == CommandIssued(c)
    decreases |log|
  {
    hide Legal, NextState, NextOwed;
    var n := |log| - 1;
    if log[n] != CommandIssued(c) {
      IssuedWasLogged(cfg, log[..n], c);
      var i :| 0 <= i < n && log[..n][i] == CommandIssued(c);
      assert log[i] == CommandIssued(c);
    }
  }

  // ------------------------------------------------------------- a cut engine run

  /** What the executor has done when a process dies that had written `log`: it performed
      the commands that were answered, and of the unanswered ones those in `handled`, which
      are cut off from their answer. */
  method Executed(cfg: Config, log: seq<Occ>, known: set<string>, handled: set<CommandId>) returns (ex: MemoryExecutor)
    requires Reach(cfg, log).Some?
    ensures fresh(ex) && ex.known == known && Consistent(cfg, log, ex)
    ensures var a := Reach(cfg, log).value;
      forall id: CommandId :: id in ex.executed <==>
        id in a.issued && a.issued[id].kind in known && (id in a.resolved || id in handled)
    ensures ex.cut == (set id | id in ex.executed && id in Open(Reach(cfg, log).value))
    ensures Ledger(cfg, log, |log|, ex.executed, ex.cut)
  {
    hide Reach, Agrees, Done;
    ex := new MemoryExecutor(known);
    FirstAgreement(cfg, known);
    var issued: map<CommandId, Command> := map[];
    assert log[..0] == [];
    NothingDone(cfg, log, known, handled);
    for i := 0 to |log|
      invariant fresh(ex) && ex.known == known && Consistent(cfg, log[..i], ex)
      invariant Done(Reach(cfg, log[..i]).value, known, handled, ex.executed) && issued == Reach(cfg, log[..i]).value.issued
    {
      AtNext(cfg, log, i);
      ReachPrefix(cfg, log, i);
      ReachPrefix(cfg, log, i + 1);
      assert log[..i + 1] == log[..i] + [log[i]];
      issued := ExecuteRecord(cfg, log[..i], log[i], handled, ex, issued);
    }
    assert log[..|log|] == log;
    DoneMeans(Reach(cfg, log).value, known, handled, ex.executed);
    ex.cut := set id | id in ex.executed && id in Open(Reach(cfg, log).value);
  }

  ghost predicate Done(a: Audit, known: set<string>, handled: set<CommandId>, executed: set<CommandId>) {
    forall id: CommandId :: id in executed <==> id in a.issued && a.issued[id].kind in known && (id in a.resolved || id in handled)
  }

  lemma DoneMeans(a: Audit, known: set<string>, handled: set<CommandId>, executed: set<CommandId>)
    requires Done(a, known, handled, executed)
    ensures forall id: CommandId :: id in executed <==> id in a.issued && a.issued[id].kind in known && (id in a.resolved || id in handled)
  {
  }

  lemma NothingDone(cfg: Config, log: seq<Occ>, known: set<string>, handled: set<CommandId>)
    ensures Reach(cfg, []).Some? && Reach(cfg, []).value.issued == map[] && Done(Reach(cfg, []).value, known, handled, {})
  {
  }

  lemma DoneNext(cfg: Config, a: Audit, o: Occ, known: set<string>, handled: set<CommandId>, executed: set<CommandId>)
    requires Legal(cfg, a, o) && Done(a, known, handled, executed) && a.resolved <= a.issued.Keys
    ensures var b := Advance(a, o);
      match o
      case CommandIssued(c) =>
        b.issued == a.issued[c.id := c] && Done(b, known, handled, if c.kind in known && c.id in handled then executed + {c.id} else executed)
      case CommandResult(r) =>
        && r.id in a.issued && b.issued == a.issued
        && Done(b, known, handled, if a.issued[r.id].kind in known then executed + {r.id} else executed)
      case _ => b.issued == a.issued && Done(b, known, handled, executed)
  {
    hide TransitionLegal, StatusLegal, VariableLegal, PushLegal, BranchLegal, SlotLegal, Admissible, WakeLegal, WokeLegal, NodeSetLegal, NextState, Justified;
  }

  /** One record of the log, as its process and executor went through it. */
  method ExecuteRecord(ghost cfg: Config, ghost log: seq<Occ>, o: Occ, handled: set<CommandId>, ex: MemoryExecutor, issued: map<CommandId, Command>)
    returns (next: map<CommandId, Command>)
    requires Consistent(cfg, log, ex) && Legal(cfg, Reach(cfg, log).value, o)
    requires Done(Reach(cfg, log).value, ex.known, handled, ex.executed) && issued == Reach(cfg, log).value.issued
    modifies ex
    ensures Consistent(cfg, log + [o], ex)
    ensures Done(Reach(cfg, log + [o]).value, ex.known, handled, ex.executed) && next == Reach(cfg, log + [o]).value.issued
  {
    hide Reach, Legal, Done;
    ghost var a := Reach(cfg, log).value;
    DoneNext(cfg, a, o, ex.known, handled, ex.executed);
    ReachNext(cfg, log, a, o);
    LegalBooks(cfg, a, o);
    hide Agrees;
    next := issued;
    match o {
      case CommandIssued(c) =>
        IssueRecord(cfg, log, c, ex.executed, ex.known, ex.performed);
        next := issued[c.id := c];
        if c.id in handled {
          var r := HandleIssued(cfg, log + [o], c, ex);
        }
      case CommandResult(r) =>
        OpenKeyed(cfg, log, r.id);
        var answer := HandleIssued(cfg, log, issued[r.id], ex);
        ResultRecord(cfg, log, r, ex.executed, ex.known, ex.performed);
      case _ =>
        OtherRecords(cfg, log, o, ex.executed, ex.known, ex.performed);
    }
  }

  lemma OpenKeyed(cfg: Config, log: seq<Occ>, id: CommandId)
    requires Reach(cfg, log).Some? && id in Open(Reach(cfg, log).value)
    ensures Reach(cfg, log).value.issued[id].id == id
  {
    hide Reach;
    OutboxOf(cfg, log);
    OutstandingListed(log);
  }

  lemma LegalBooks(cfg: Config, a: Audit, o: Occ)
    requires Legal(cfg, a, o)
    ensures o.CommandIssued? ==> IssueLegal(cfg, a, o.command)
    ensures o.CommandResult? ==> o.result.id in a.issued && o.result.id !in a.resolved
  {
    hide IssueLegal;
  }
}
