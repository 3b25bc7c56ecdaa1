/**
 What every run guarantees: results about all reachable logs, whatever the definition,
 the expressions, the executor, the clock and the order in which maps were iterated.
 */
module Guarantees {
  import opened Definition
  import opened Journal
  import opened Protocol
  import opened Runs
  import opened Frames
  import Meaning

  // --------------------------------------------------------------- log positions

  lemma {:induction false} ReachPrefix(cfg: Config, log: seq<Occ>, n: nat)
    requires Reach(cfg, log).Some? && n <= |log|
    ensures Reach(cfg, log[..n]).Some?
    decreases |log|
  {
    hide Legal, Advance;
    var m := |log| - 1;
    if n <= m {
      ReachPrefix(cfg, log[..m], n);
      assert log[..m][..n] == log[..n];
    } else {
      assert log[..n] == log;
    }
  }

  /** The observer after the first `n` records. */
  ghost function At(cfg: Config, log: seq<Occ>, n: nat): Audit
    requires Reach(cfg, log).Some? && n <= |log|
  {
    ReachPrefix(cfg, log, n);
    Reach(cfg, log[..n]).value
  }

  lemma AtNext(cfg: Config, log: seq<Occ>, n: nat)
    requires Reach(cfg, log).Some? && n < |log|
    ensures Legal(cfg, At(cfg, log, n), log[n])
    ensures At(cfg, log, n + 1) == Advance(At(cfg, log, n), log[n])
  {
    hide Legal, Advance;
    ReachPrefix(cfg, log, n);
    ReachPrefix(cfg, log, n + 1);
    assert log[..n + 1][..n] == log[..n];
  }

  /** Every prefix of a run's log folds, to the state the observer saw then. */
  lemma EveryPrefixFolds(cfg: Config, log: seq<Occ>, n: nat)
    requires WellFormed(cfg.def) && Reach(cfg, log).Some? && n <= |log|
    ensures Fold(cfg.def, log[..n]) == Some(At(cfg, log, n).st)
  {
    hide Legal, Advance, Apply;
    ReachPrefix(cfg, log, n);
    ReachSane(cfg, log[..n]);
  }

  // ------------------------------------------------------------------- commands

  /** The command books only grow, and a command keeps its content. */
  ghost predicate BooksGrow(a: Audit, b: Audit) {
    && a.issued.Keys <= b.issued.Keys && a.resolved <= b.resolved
    && (forall id <- a.issued :: b.issued[id] == a.issued[id])
    && (a.scars.reissued ==> b.scars.reissued)
  }

  lemma BooksStep(cfg: Config, a: Audit, o: Occ)
    requires Legal(cfg, a, o)
    ensures BooksGrow(a, Advance(a, o))
  {
    hide TransitionLegal, StatusLegal, VariableLegal, PushLegal, BranchLegal, SlotLegal, Admissible, WakeLegal, WokeLegal, NodeSetLegal, Justified, NextState;
  }

  lemma {:induction false} BooksBetween(cfg: Config, log: seq<Occ>, i: nat, j: nat)
    requires Reach(cfg, log).Some? && i <= j <= |log|
    ensures BooksGrow(At(cfg, log, i), At(cfg, log, j))
    decreases j - i
  {
    hide Legal, Advance, Reach;
    if i < j {
      BooksBetween(cfg, log, i, j - 1);
      AtNext(cfg, log, j - 1);
      BooksStep(cfg, At(cfg, log, j - 1), log[j - 1]);
    }
  }

  /** What is known of a command right before and after its records. */
  lemma IssueStep(cfg: Config, log: seq<Occ>, i: nat)
    requires Reach(cfg, log).Some? && i < |log| && log[i].CommandIssued?
    ensures var c, a, b := log[i].command, At(cfg, log, i), At(cfg, log, i + 1);
      && c.id !in a.resolved && c.id in b.issued && b.issued[c.id] == c
      && (c.id in a.issued ==> a.issued[c.id] == c && b.scars.reissued)
  {
    hide Reach, Justified, NextState;
    AtNext(cfg, log, i);
    IdsOf(cfg, log, i);
  }

  lemma IdsOf(cfg: Config, log: seq<Occ>, n: nat)
    requires Reach(cfg, log).Some? && n <= |log|
    ensures At(cfg, log, n).resolved <= At(cfg, log, n).issued.Keys
    decreases n
  {
    hide Legal, Advance, Reach;
    if n > 0 {
      IdsOf(cfg, log, n - 1);
      AtNext(cfg, log, n - 1);
      ResolvedStep(cfg, At(cfg, log, n - 1), log[n - 1]);
    } else {
      FirstAudit(cfg, log);
    }
  }

  lemma FirstAudit(cfg: Config, log: seq<Occ>)
    requires Reach(cfg, log).Some?
    ensures At(cfg, log, 0) == NewAudit(cfg)
  {
  }

  lemma ResolvedStep(cfg: Config, a: Audit, o: Occ)
    requires Legal(cfg, a, o) && a.resolved <= a.issued.Keys
    ensures Advance(a, o).resolved <= Advance(a, o).issued.Keys
  {
    hide TransitionLegal, StatusLegal, VariableLegal, PushLegal, BranchLegal, SlotLegal, IssueLegal, Admissible, WakeLegal, WokeLegal, NodeSetLegal, NextState;
  }

  lemma ResultStep(cfg: Config, log: seq<Occ>, i: nat)
    requires Reach(cfg, log).Some? && i < |log| && log[i].CommandResult?
    ensures log[i].result.id in At(cfg, log, i).issued && log[i].result.id !in At(cfg, log, i).resolved
    ensures log[i].result.id in At(cfg, log, i + 1).resolved
  {
    hide Reach, Legal, Advance;
    AtNext(cfg, log, i);
    ResultLegal(cfg, At(cfg, log, i), log[i]);
  }

  lemma ResultLegal(cfg: Config, a: Audit, o: Occ)
    requires Legal(cfg, a, o) && o.CommandResult?
    ensures o.result.id in a.issued && o.result.id !in a.resolved && o.result.id in Advance(a, o).resolved
  {
  }

  /** No command is issued again after its result, in any run. */
  lemma NeverReissued(cfg: Config, log: seq<Occ>)
    requires Reach(cfg, log).Some?
    ensures NoReissue(log)
  {
    hide Reach, Legal, Advance;
    forall i, j | 0 <= i < j < |log| && log[i].CommandResult? && log[j].CommandIssued?
      ensures log[i].result.id != log[j].command.id
    {
      ResultStep(cfg, log, i);
      BooksBetween(cfg, log, i + 1, j);
      IssueStep(cfg, log, j);
    }
  }

  /** A command has at most one result. */
  lemma OneResultEach(cfg: Config, log: seq<Occ>, i: nat, j: nat)
    requires Reach(cfg, log).Some? && i < j < |log| && log[i].CommandResult? && log[j].CommandResult?
    ensures log[i].result.id != log[j].result.id
  {
    hide Reach, Legal, Advance;
    ResultStep(cfg, log, i);
    BooksBetween(cfg, log, i + 1, j);
    ResultStep(cfg, log, j);
  }

  /** Two issues of one id are the same command, the first still unanswered at the
      second: a re-dispatch after a crash, which leaves its scar. */
  lemma ReissueIsRedispatch(cfg: Config, log: seq<Occ>, i: nat, j: nat)
    requires Reach(cfg, log).Some? && i < j < |log| && log[i].CommandIssued? && log[j].CommandIssued?
    requires log[i].command.id == log[j].command.id
    ensures log[i] == log[j]
    ensures forall k | 0 <= k < j :: log[k].CommandResult? ==> log[k].result.id != log[j].command.id
    ensures Reach(cfg, log).value.scars.reissued
  {
    hide Reach, Legal, Advance;
    IssueStep(cfg, log, i);
    IssueStep(cfg, log, j);
    BooksBetween(cfg, log, i + 1, j);
    BooksBetween(cfg, log, j + 1, |log|);
    assert log[..|log|] == log;
    NeverReissued(cfg, log);
  }

  /** Every command id is issued once. */
  ghost predicate FreshIds(log: seq<Occ>) {
    forall i, j | 0 <= i < j < |log| :: log[i].CommandIssued? && log[j].CommandIssued? ==>
      log[i].command.id != log[j].command.id
  }

  /** The scar of a re-dispatch is there exactly when some id was issued twice. */
  lemma IdsAreFresh(cfg: Config, log: seq<Occ>)
    requires Reach(cfg, log).Some?
    ensures Reach(cfg, log).value.scars.reissued <==> !FreshIds(log)
    decreases |log|
  {
    hide Legal, Advance;
    if FreshIds(log) {
      NoSecondIssue(cfg, log);
    }
    if !FreshIds(log) {
      hide Reach;
      var i, j :| 0 <= i < j < |log| && log[i].CommandIssued? && log[j].CommandIssued? && log[i].command.id == log[j].command.id;
      ReissueIsRedispatch(cfg, log, i, j);
    }
  }

  lemma {:induction false} NoSecondIssue(cfg: Config, log: seq<Occ>)
    requires Reach(cfg, log).Some? && FreshIds(log)
    ensures !Reach(cfg, log).value.scars.reissued
    ensures forall id <- Reach(cfg, log).value.issued :: exists i | 0 <= i < |log| :: log[i].CommandIssued? && log[i].command.id == id
    decreases |log|
  {
    hide Legal, NextState, NextOwed;
    if log != [] {
      var n := |log| - 1;
      assert forall i | 0 <= i < n :: log[..n][i] == log[i];
      NoSecondIssue(cfg, log[..n]);
      forall id | id in Reach(cfg, log).value.issued
        ensures exists i | 0 <= i < |log| :: log[i].CommandIssued? && log[i].command.id == id
      {
        if id in Reach(cfg, log[..n]).value.issued {
          var i :| 0 <= i < n && log[..n][i].CommandIssued? && log[..n][i].command.id == id;
          assert log[i].CommandIssued? && log[i].command.id == id;
        } else {
          assert log[n].CommandIssued? && log[n].command.id == id;
        }
      }
    }
  }

  // ----------------------------------------------------------------------- sagas

  /** Undo entries are kept, in place, and stay done. */
  ghost predicate UndoGrows(s: State, t: State) {
    |s.undo| <= |t.undo| &&
    forall p | 0 <= p < |s.undo| :: t.undo[p] == s.undo[p].(done := t.undo[p].done) && (s.undo[p].done ==> t.undo[p].done)
  }

  lemma UndoStep(s: State, o: Occ)
    ensures Apply(s, o).Some? ==> UndoGrows(s, Apply(s, o).value)
  {
  }

  lemma {:induction false} UndoBetween(cfg: Config, log: seq<Occ>, i: nat, j: nat)
    requires Reach(cfg, log).Some? && i <= j <= |log|
    ensures UndoGrows(At(cfg, log, i).st, At(cfg, log, j).st)
    decreases j - i
  {
    hide Legal, Reach, Apply;
    if i < j {
      UndoBetween(cfg, log, i, j - 1);
      AtNext(cfg, log, j - 1);
      UndoStep(At(cfg, log, j - 1).st, log[j - 1]);
    }
  }

  /** The entry a compensation fires: not done before, done after, everything above it
      done already. */
  lemma FireStep(cfg: Config, log: seq<Occ>, i: nat) returns (p: nat)
    requires WellFormed(cfg.def) && Reach(cfg, log).Some? && i < |log| && log[i].CompensationFired?
    ensures NextToUndo(At(cfg, log, i).st.undo, p) && At(cfg, log, i).st.undo[p].key == log[i].undoKey
    ensures log[i].undoKey.UndoCommand? && log[i].undoKey.position == p
    ensures p < |At(cfg, log, i + 1).st.undo| && At(cfg, log, i + 1).st.undo[p].done
    ensures UndoKeyed(At(cfg, log, i + 1).st)
  {
    hide Reach, SlotsFormed, ScopesFormed, IdsBounded, SagaTracked, Formed;
    AtNext(cfg, log, i);
    ReachPrefix(cfg, log, i);
    ReachPrefix(cfg, log, i + 1);
    ReachSane(cfg, log[..i]);
    ReachSane(cfg, log[..i + 1]);
    p :| 0 <= p < |At(cfg, log, i).st.undo| && NextToUndo(At(cfg, log, i).st.undo, p) && At(cfg, log, i).st.undo[p].key == log[i].undoKey;
  }

  /** Every compensation fires at most once over a run, whoever asks for it. */
  lemma UndoneOnce(cfg: Config, log: seq<Occ>, i: nat, j: nat)
    requires WellFormed(cfg.def) && Reach(cfg, log).Some?
    requires i < j < |log| && log[i].CompensationFired? && log[j].CompensationFired?
    ensures log[i].undoKey != log[j].undoKey
  {
    hide Reach, Legal, Advance;
    var p := FireStep(cfg, log, i);
    var q := FireStep(cfg, log, j);
    UndoBetween(cfg, log, i + 1, j);
  }

  lemma {:induction false} DoneWasFired(cfg: Config, log: seq<Occ>, n: nat, q: nat)
    requires Reach(cfg, log).Some? && n <= |log| && q < |At(cfg, log, n).st.undo| && At(cfg, log, n).st.undo[q].done
    ensures exists k | 0 <= k < n :: log[k] == CompensationFired(At(cfg, log, n).st.undo[q].key)
    decreases n
  {
    hide Reach, Legal;
    if n == 0 {
      FirstAudit(cfg, log);
    } else {
      AtNext(cfg, log, n - 1);
      DoneStep(cfg, At(cfg, log, n - 1), log[n - 1], q);
      var before := At(cfg, log, n - 1).st.undo;
      if q < |before| && before[q].done {
        DoneWasFired(cfg, log, n - 1, q);
        var k :| 0 <= k < n - 1 && log[k] == CompensationFired(before[q].key);
        assert log[k] == CompensationFired(At(cfg, log, n).st.undo[q].key);
      } else {
        assert log[n - 1] == CompensationFired(At(cfg, log, n).st.undo[q].key);
      }
    }
  }

  lemma DoneStep(cfg: Config, a: Audit, o: Occ, q: nat)
    requires Legal(cfg, a, o) && q < |Advance(a, o).st.undo| && Advance(a, o).st.undo[q].done
    ensures (q < |a.st.undo| && a.st.undo[q].done && a.st.undo[q].key == Advance(a, o).st.undo[q].key)
      || o == CompensationFired(Advance(a, o).st.undo[q].key)
  {
    hide TransitionLegal, StatusLegal, VariableLegal, PushLegal, BranchLegal, SlotLegal, IssueLegal, Admissible, WakeLegal, WokeLegal, NodeSetLegal;
  }

  /** Compensation runs backwards: whatever was completed later and is on the stack has
      been compensated earlier. */
  lemma UndoneInReverse(cfg: Config, log: seq<Occ>, i: nat, q: nat)
    requires WellFormed(cfg.def) && Reach(cfg, log).Some? && i < |log| && log[i].CompensationFired?
    requires log[i].undoKey.UndoCommand? && log[i].undoKey.position < q < |At(cfg, log, i).st.undo|
    ensures exists k | 0 <= k < i :: log[k] == CompensationFired(At(cfg, log, i).st.undo[q].key)
  {
    hide Reach, Legal, Advance;
    var p := FireStep(cfg, log, i);
    DoneWasFired(cfg, log, i, q);
  }

  /** The declared inverses of the commands whose logged result is completed, in the
      order of the results, read off the log alone. */
  function InversesOf(log: seq<Occ>): seq<Inverse> {
    if log == [] then []
    else
      var before := log[..|log| - 1];
      match log[|log| - 1]
      case CommandResult(r) =>
        var open := Outstanding(before);
        if r.status == ResultCompleted && r.id in open && open[r.id].compensation.Some? then
          InversesOf(before) + [Inverse(open[r.id].node, r.id, open[r.id].compensation.value)]
        else InversesOf(before)
      case _ => InversesOf(before)
  }

  /** The outbox of a log is what was issued and not resolved. */
  ghost predicate OutboxIs(a: Audit, open: map<CommandId, Command>) {
    open.Keys == Open(a) && forall id <- open :: open[id] == a.issued[id]
  }

  lemma OutboxStep(cfg: Config, a: Audit, o: Occ, open: map<CommandId, Command>)
    requires Legal(cfg, a, o) && OutboxIs(a, open) && a.resolved <= a.issued.Keys
    ensures OutboxIs(Advance(a, o), Settle(open, o))
    ensures Advance(a, o).inverses == a.inverses + (
      if o.CommandResult? && o.result.status == ResultCompleted && o.result.id in open && open[o.result.id].compensation.Some? then
        [Inverse(open[o.result.id].node, o.result.id, open[o.result.id].compensation.value)]
      else [])
  {
    hide TransitionLegal, StatusLegal, VariableLegal, PushLegal, BranchLegal, SlotLegal, Admissible, WakeLegal, WokeLegal, NodeSetLegal, NextState, Justified;
  }

  lemma {:induction false} OutboxOf(cfg: Config, log: seq<Occ>)
    requires Reach(cfg, log).Some?
    ensures OutboxIs(Reach(cfg, log).value, Outstanding(log))
    ensures Reach(cfg, log).value.inverses == InversesOf(log)
    decreases |log|
  {
    hide Legal, Advance;
    if log != [] {
      var n := |log| - 1;
      OutboxOf(cfg, log[..n]);
      IdsOf(cfg, log[..n], n);
      assert log[..n][..n] == log[..n];
      OutboxStep(cfg, Reach(cfg, log[..n]).value, log[n], Outstanding(log[..n]));
    }
  }

  /** Record `i` completes a command that declared an inverse, and the next record is not
      the push of that inverse: only a crash between the two leaves such a log. */
  ghost predicate LosesInverse(log: seq<Occ>, i: nat) {
    i + 1 < |log| && |InversesOf(log[..i])| < |InversesOf(log[..i + 1])| && !log[i + 1].CompensationPushed?
  }

  lemma OwedInverse(cfg: Config, log: seq<Occ>)
    requires Reach(cfg, log).Some? && log != []
    ensures Reach(cfg, log).value.owed.Some? <==> |InversesOf(log[..|log| - 1])| < |InversesOf(log)|
  {
    hide Legal, NextState;
    var n := |log| - 1;
    OutboxOf(cfg, log);
    OutboxOf(cfg, log[..n]);
  }

  lemma LostStep(cfg: Config, a: Audit, o: Occ)
    requires Legal(cfg, a, o)
    ensures var b := Advance(a, o); var pushed := if o.CompensationPushed? then 1 else 0;
      && |b.st.undo| == |a.st.undo| + pushed && (pushed == 1 ==> a.owed.Some?)
      && |b.inverses| == |a.inverses| + (if b.owed.Some? then 1 else 0)
      && (b.scars.lost <==> a.scars.lost || (a.owed.Some? && pushed == 0))
  {
    hide TransitionLegal, StatusLegal, VariableLegal, PushLegal, BranchLegal, SlotLegal, IssueLegal, Admissible, WakeLegal, WokeLegal, NodeSetLegal, InverseOf;
  }

  /** The scar of a lost inverse is what it says, and it shows in the length of the stack. */
  lemma {:induction false} LossShows(cfg: Config, log: seq<Occ>)
    requires Reach(cfg, log).Some?
    ensures var a := Reach(cfg, log).value; var held := |a.st.undo| + if a.owed.Some? then 1 else 0;
      && held <= |a.inverses| && (a.scars.lost <==> held < |a.inverses|)
      && (a.scars.lost <==> exists i: nat :: LosesInverse(log, i))
    decreases |log|
  {
    hide Legal, Advance, LosesInverse;
    if log == [] {
      assert forall i: nat :: !LosesInverse(log, i) by {
        NothingLost(log);
      }
    } else {
      var n := |log| - 1;
      LossShows(cfg, log[..n]);
      LostStep(cfg, Reach(cfg, log[..n]).value, log[n]);
      if n > 0 {
        OwedInverse(cfg, log[..n]);
      }
      LosesNext(log);
      forall i: nat ensures LosesInverse(log, i) <==> LosesInverse(log[..n], i) || (i + 1 == n && LosesInverse(log, i)) {
        LosesEarlier(log, i);
      }
    }
  }

  lemma NothingLost(log: seq<Occ>)
    ensures |log| <= 1 ==> forall i: nat :: !LosesInverse(log, i)
  {
  }

  lemma LosesNext(log: seq<Occ>)
    requires log != []
    ensures var n := |log| - 1;
      n > 0 ==> (LosesInverse(log, n - 1) <==>
        |InversesOf(log[..n][..n - 1])| < |InversesOf(log[..n])| && !log[n].CompensationPushed?)
  {
    var n := |log| - 1;
    if n > 0 {
      assert log[..n][..n - 1] == log[..n - 1];
    }
  }

  lemma LosesEarlier(log: seq<Occ>, i: nat)
    requires log != []
    ensures var n := |log| - 1; i + 1 < n ==> (LosesInverse(log, i) <==> LosesInverse(log[..n], i))
    ensures var n := |log| - 1; i + 1 >= n ==> !LosesInverse(log[..n], i)
    ensures var n := |log| - 1; i + 1 > n ==> !LosesInverse(log, i)
  {
    var n := |log| - 1;
    if i + 1 < n {
      assert log[..n][..i] == log[..i] && log[..n][..i + 1] == log[..i + 1] && log[..n][i + 1] == log[i + 1];
    }
  }

  /** The undo stack is the declared inverses of the completed commands, in order of
      completion, exactly when no crash fell between a result and its inverse. */
  lemma SagaExact(cfg: Config, log: seq<Occ>)
    requires WellFormed(cfg.def) && Reach(cfg, log).Some? && Ready(Reach(cfg, log).value)
    ensures Fold(cfg.def, log).Some?
    ensures |Fold(cfg.def, log).value.undo| <= |InversesOf(log)|
    ensures |Fold(cfg.def, log).value.undo| == |InversesOf(log)| <==> forall i: nat :: !LosesInverse(log, i)
    ensures var undo, inverses := Fold(cfg.def, log).value.undo, InversesOf(log);
      |undo| == |inverses| ==>
        forall p | 0 <= p < |undo| :: undo[p] == UndoOf(inverses[p], p).(done := undo[p].done)
  {
    hide Reach, Legal, Advance, SlotsFormed, ScopesFormed, IdsBounded;
    ReachSane(cfg, log);
    OutboxOf(cfg, log);
    LossShows(cfg, log);
    var a := Reach(cfg, log).value;
    if !a.scars.lost {
      forall p | 0 <= p < |a.st.undo| ensures a.st.undo[p] == UndoOf(a.inverses[p], p).(done := a.st.undo[p].done) {
        assert Owes(a.st.undo[p], a.inverses[p]);
      }
    }
  }

  // ------------------------------------------------------------------ principals

  /** The external event the engine was driven by last: none after a wake-up. */
  function LastEvent(log: seq<Occ>): Option<Event> {
    if log == [] then None
    else
      match log[|log| - 1]
      case EventConsumed(_, Some(ev), _) => Some(ev)
      case Woke(_) => None
      case _ => LastEvent(log[..|log| - 1])
  }

  predicate SetsEvent(o: Occ) {
    (o.EventConsumed? && o.event.Some?) || o.Woke?
  }

  /** Record `j` consumed `e` and nothing of the kind has been recorded since. */
  ghost predicate DrivenFrom(log: seq<Occ>, j: nat, e: Option<Event>) {
    && j < |log| && log[j].EventConsumed? && log[j].event == e
    && forall k | j < k < |log| :: !SetsEvent(log[k])
  }

  /** LastEvent is what its name says. */
  lemma {:induction false} LastEventLogged(log: seq<Occ>)
    ensures LastEvent(log).Some? ==> exists j: nat :: DrivenFrom(log, j, LastEvent(log))
    decreases |log|
  {
    if log != [] {
      var n := |log| - 1;
      var e := LastEvent(log);
      LastEventLogged(log[..n]);
      if SetsEvent(log[n]) {
        assert log[n].EventConsumed? ==> DrivenFrom(log, n, e);
      } else if e.Some? {
        var j: nat :| DrivenFrom(log[..n], j, e);
        assert log[..n][j] == log[j] && forall k | j < k < n :: log[..n][k] == log[k];
        assert DrivenFrom(log, j, e);
      }
    }
  }

  /** The shape of a slot that came due. */
  ghost predicate SlotShaped(def: ProcessDef, slot: Slot, w: WaitingState) {
    w.node in def.nodes && (slot.ScopeSlot? || ParkedAt(def.nodes[w.node], w))
  }

  /** While a wake-up is served no external event is live, and its slot was a proper one. */
  ghost predicate WakesAlone(def: ProcessDef, a: Audit, e: Option<Event>) {
    && a.event == e
    && (a.cleared.Some? ==> SlotShaped(def, a.cleared.value.0, a.cleared.value.1))
    && (a.moment.Woken? ==> a.event.None? && SlotShaped(def, a.moment.slot, a.moment.waiting))
    && (a.waking.Some? ==> a.event.None?)
  }

  lemma WakesAloneStep(cfg: Config, a: Audit, o: Occ, e: Option<Event>)
    requires SlotsFormed(cfg.def, a.st) && Legal(cfg, a, o) && WakesAlone(cfg.def, a, e)
    ensures WakesAlone(cfg.def, Advance(a, o), NextEvent(a, o))
    ensures NextEvent(a, o) == if SetsEvent(o) then (if o.Woke? then None else o.event) else e
  {
    hide TransitionLegal, StatusLegal, VariableLegal, PushLegal, BranchLegal, SlotLegal, Admissible, WakeLegal, WokeLegal, NodeSetLegal, IssueLegal, NextState, ParkedAt;
    if o.WaitingCleared? && o.slot in a.st.waitings {
      assert SlotFormed(cfg.def, a.st, o.slot, a.st.waitings[o.slot]);
    }
  }

  lemma {:induction false} DrivenBy(cfg: Config, log: seq<Occ>)
    requires WellFormed(cfg.def) && Reach(cfg, log).Some?
    ensures WakesAlone(cfg.def, Reach(cfg, log).value, LastEvent(log))
    decreases |log|
  {
    hide Legal, Advance, SlotsFormed, ScopesFormed, IdsBounded, SagaTracked;
    if log != [] {
      var n := |log| - 1;
      DrivenBy(cfg, log[..n]);
      ReachSane(cfg, log[..n]);
      WakesAloneStep(cfg, Reach(cfg, log[..n]).value, log[n], LastEvent(log[..n]));
    }
  }

  /** Right before record `i` the engine had put the instance on `n` by a jump: no event, no
      wake-up and no move came between. */
  ghost predicate JustLanded(log: seq<Occ>, i: nat, n: string) {
    exists j | 0 <= j < i <= |log| :: log[j] == NodeSet(n) && forall k | j < k < i :: !Leaves(log[k])
  }

  lemma {:induction false} LandedFrom(cfg: Config, log: seq<Occ>, n: nat)
    requires Reach(cfg, log).Some? && n <= |log| && At(cfg, log, n).landing.Some?
    ensures JustLanded(log, n, At(cfg, log, n).st.node)
    decreases n
  {
    hide Reach, Legal;
    if n == 0 {
      FirstAudit(cfg, log);
      assert false;
    } else {
      AtNext(cfg, log, n - 1);
      LandedStep(cfg, At(cfg, log, n - 1), log[n - 1]);
      if log[n - 1].NodeSet? {
        assert log[n - 1] == NodeSet(At(cfg, log, n).st.node);
      } else {
        LandedFrom(cfg, log, n - 1);
        var j :| 0 <= j < n - 1 && log[j] == NodeSet(At(cfg, log, n).st.node) && forall k | j < k < n - 1 :: !Leaves(log[k]);
        assert forall k | j < k < n :: !Leaves(log[k]);
      }
    }
  }

  lemma LandedStep(cfg: Config, a: Audit, o: Occ)
    requires Legal(cfg, a, o) && Advance(a, o).landing.Some?
    ensures if o.NodeSet? then Advance(a, o).st.node == o.node else a.landing.Some? && !Leaves(o) && Advance(a, o).st.node == a.st.node
  {
    hide TransitionLegal, StatusLegal, VariableLegal, PushLegal, BranchLegal, SlotLegal, IssueLegal, Admissible, WakeLegal, WokeLegal, NodeSetLegal;
  }

  /** The decision of record `i` has an owner: the last logged event, whose principal
      satisfies the node, or the node's own deadline. */
  ghost predicate Owned(cfg: Config, log: seq<Occ>, i: nat)
    requires i < |log| && log[i].Transitioned? && log[i].from in cfg.def.nodes
  {
    match LastEvent(log[..i])
    case Some(ev) => ValidDecisionPrincipal(cfg.def.nodes[log[i].from], ev.principal)
    case None =>
      var deadline := cfg.def.nodes[log[i].from].deadline;
      log[i].name == "deadline" && deadline.Some? && log[i].to == deadline.value.next
  }

  /** The departure is a step the node's visit allows. */
  ghost predicate LeftByStep(cfg: Config, a: Audit, o: Occ)
    requires o.Transitioned? && o.from in cfg.def.nodes
  {
    && a.moment.Visited? && a.moment.node == o.from && a.landing == Some(a.moment.vars)
    && NextOf(cfg, cfg.def.nodes[o.from], a.moment.vars, a.event) == Some(o.to)
    && !MustFail(cfg, cfg.def.nodes[o.from], a.moment.vars, a.event)
  }

  /** Every linear departure from a node that requires a principal has an owner, but for one
      kind: the engine had just put the instance there by a jump and stepped on at once. Even
      then it leaves only where a step can: the inputs evaluated as it was visited, the node
      has a route for the live event, and no output is out of reach. */
  lemma DecisionsAttributed(cfg: Config, log: seq<Occ>, i: nat)
    requires WellFormed(cfg.def) && Reach(cfg, log).Some? && i < |log| && log[i].Transitioned? && Gated(cfg.def, log[i].from)
    ensures Owned(cfg, log, i) || (JustLanded(log, i, log[i].from) && LeftByStep(cfg, At(cfg, log, i), log[i]))
  {
    hide Reach, JustLanded, NextOf, NeverWrites;
    AtNext(cfg, log, i);
    ReachPrefix(cfg, log, i);
    DrivenBy(cfg, log[..i]);
    if At(cfg, log, i).landing.Some? {
      LandedFrom(cfg, log, i);
    }
  }

  // ----------------------------------------------------------------------- jumps

  /** The engine puts the instance on a node and sets it running. */
  predicate Jump(log: seq<Occ>, j: nat) {
    j + 1 < |log| && log[j].NodeSet? && log[j + 1] == StatusSet(Running)
  }

  /** Between the jump and record `k` the instance was neither driven nor moved nor failed. */
  predicate Straightway(log: seq<Occ>, j: nat, k: nat) {
    j + 1 < k < |log| && forall i | j < i < k :: !Leaves(log[i]) && log[i] != StatusSet(Failed)
  }

  /** From where it was put the instance moved on at once, driven by `e`. */
  ghost predicate LeftAtOnce(log: seq<Occ>, j: nat, to: string, e: Option<Event>) {
    exists k: nat :: Straightway(log, j, k) && log[j].NodeSet? && log[k] == Transitioned(log[j].node, to, EventName(e))
      && LastEvent(log[..k]) == e
  }

  ghost predicate FailedAtOnce(log: seq<Occ>, j: nat) {
    exists k: nat :: Straightway(log, j, k) && log[k] == StatusSet(Failed)
  }

  /** On its way from where it was put, `a0`: perhaps visited, not off yet. */
  ghost predicate OnWay(cfg: Config, a0: Audit, a: Audit) {
    && InMotion(a) && a.popped.None? && a.landing == Some(a0.st.vars) && a.event == a0.event
    && a.st.node == a0.st.node && a.st.node in cfg.def.nodes && Selecting(cfg.def.nodes[a.st.node])
    && (if a.steps == 0 then a.st.visits == a0.st.visits else !WornOut(cfg, a0, a0.st.node))
  }

  lemma OnWayFirst(cfg: Config, log: seq<Occ>, j: nat)
    requires Reach(cfg, log).Some? && Jump(log, j) && log[j].node in cfg.def.nodes && Selecting(cfg.def.nodes[log[j].node])
    ensures At(cfg, log, j + 2).st.node == log[j].node
    ensures OnWay(cfg, At(cfg, log, j + 2), At(cfg, log, j + 2))
  {
    hide Reach, StatusLegal;
    AtNext(cfg, log, j);
    AtNext(cfg, log, j + 1);
  }

  /** What can happen to an instance on its way: it moves along its node's route, it fails
      where it need not succeed, or it stays on its way. */
  lemma OnWayNext(cfg: Config, a0: Audit, a: Audit, o: Occ)
    requires OnWay(cfg, a0, a) && Legal(cfg, a, o)
    ensures var node := cfg.def.nodes[a.st.node];
      || (&& o.Transitioned? && o.from == a0.st.node && o.name == EventName(a0.event)
          && NextOf(cfg, node, a0.st.vars, a0.event) == Some(o.to) && !MustFail(cfg, node, a0.st.vars, a0.event)
          && !WornOut(cfg, a0, a0.st.node))
      || (o == StatusSet(Failed) && (WornOut(cfg, a0, a0.st.node) || !MustMove(cfg, node, a0.st.vars, a0.event)))
      || (OnWay(cfg, a0, Advance(a, o)) && !Leaves(o) && o != StatusSet(Failed))
  {
    hide NextOf, MustMove, MustFail, VariableLegal, BranchMoves, BranchFails, Halts, DeadEnd, SlotLegal, IssueLegal, GateOpen, NodeAccepts, FailGround, Attributed, Satisfied, ForkScope;
    if o == StatusSet(Failed) {
      assert FailLegal(cfg, a) && !Denied(cfg, a);
      assert a.steps == 0 ==> (WornOut(cfg, a, a.st.node) <==> WornOut(cfg, a0, a0.st.node));
    }
  }

  lemma OnWayEnds(cfg: Config, log: seq<Occ>, j: nat, k: nat) returns (e: nat)
    requires Reach(cfg, log).Some? && !InMotion(Reach(cfg, log).value)
    requires j + 1 < k <= |log| && (forall i | j < i < k :: !Leaves(log[i]) && log[i] != StatusSet(Failed))
    requires OnWay(cfg, At(cfg, log, j + 2), At(cfg, log, k))
    ensures Straightway(log, j, e) && k <= e && OnWay(cfg, At(cfg, log, j + 2), At(cfg, log, e))
    ensures !OnWay(cfg, At(cfg, log, j + 2), At(cfg, log, e + 1)) || Leaves(log[e]) || log[e] == StatusSet(Failed)
    decreases |log| - k
  {
    hide Reach, OnWay, Legal;
    if k == |log| {
      assert log[..k] == log;
      OnWayMoves(cfg, At(cfg, log, j + 2), At(cfg, log, k));
      assert false;
    } else if OnWay(cfg, At(cfg, log, j + 2), At(cfg, log, k + 1)) && !Leaves(log[k]) && log[k] != StatusSet(Failed) {
      e := OnWayEnds(cfg, log, j, k + 1);
    } else {
      e := k;
    }
  }

  lemma OnWayMoves(cfg: Config, a0: Audit, a: Audit)
    requires OnWay(cfg, a0, a)
    ensures InMotion(a) && a.event == a0.event
  {
  }

  /** Every jump of every run, to any node a step can leave: by the next boundary the instance
      has moved on along the node's route or has failed there, one of the two. It fails where
      the node is worn out or its step must fail, and moves where it must move, whoever drives
      it. */
  lemma JumpsDecided(cfg: Config, log: seq<Occ>, j: nat)
    requires WellFormed(cfg.def) && Reach(cfg, log).Some? && !InMotion(Reach(cfg, log).value)
    requires Jump(log, j) && log[j].node in cfg.def.nodes && Selecting(cfg.def.nodes[log[j].node])
    ensures var a := At(cfg, log, j + 2);
      var node := cfg.def.nodes[log[j].node];
      var next := NextOf(cfg, node, a.st.vars, a.event);
      && (next.Some? && LeftAtOnce(log, j, next.value, a.event) <==> !FailedAtOnce(log, j))
      && (MustMove(cfg, node, a.st.vars, a.event) && !WornOut(cfg, a, log[j].node) ==> !FailedAtOnce(log, j))
      && (MustFail(cfg, node, a.st.vars, a.event) || WornOut(cfg, a, log[j].node) ==> FailedAtOnce(log, j))
  {
    hide Reach, Legal, NextOf, MustMove, MustFail, OnWay, WornOut;
    OnWayFirst(cfg, log, j);
    var a := At(cfg, log, j + 2);
    var e := OnWayEnds(cfg, log, j, j + 2);
    AtNext(cfg, log, e);
    OnWayNode(cfg, a, At(cfg, log, e));
    OnWayNext(cfg, a, At(cfg, log, e), log[e]);
    ReachPrefix(cfg, log, e);
    DrivenBy(cfg, log[..e]);
    OnWayMoves(cfg, a, At(cfg, log, e));
    FirstWay(log, j, e);
  }

  lemma OnWayNode(cfg: Config, a0: Audit, a: Audit)
    requires OnWay(cfg, a0, a)
    ensures a.st.node == a0.st.node && a.st.node in cfg.def.nodes
  {
  }

  /** Only one thing ends a way first. */
  lemma FirstWay(log: seq<Occ>, j: nat, e: nat)
    requires Straightway(log, j, e) && (Leaves(log[e]) || log[e] == StatusSet(Failed))
    ensures forall k: nat :: Straightway(log, j, k) && (Leaves(log[k]) || log[k] == StatusSet(Failed)) ==> k == e
  {
  }

  /** Such jumps lead to the start node and to the joins of forks only: a decision anywhere
      else always has an owner. */
  lemma OtherDecisionsOwned(cfg: Config, log: seq<Occ>, i: nat)
    requires WellFormed(cfg.def) && Reach(cfg, log).Some? && i < |log| && log[i].Transitioned?
    requires Gated(cfg.def, log[i].from) && !JumpedTo(cfg.def, log[i].from)
    ensures Owned(cfg, log, i)
  {
    hide Reach, Owned, Gated, JumpedTo;
    DecisionsAttributed(cfg, log, i);
    if JustLanded(log, i, log[i].from) {
      var j :| 0 <= j < i && log[j] == NodeSet(log[i].from) && forall k | j < k < i :: !Leaves(log[k]);
      LandsWhere(cfg, log, j);
    }
  }

  lemma LandsWhere(cfg: Config, log: seq<Occ>, j: nat)
    requires WellFormed(cfg.def) && Reach(cfg, log).Some? && j < |log| && log[j].NodeSet?
    ensures JumpedTo(cfg.def, log[j].node) || !Gated(cfg.def, log[j].node)
  {
    hide Reach, Satisfied, ForkScope;
    JumpsFromFork(cfg, log, j);
    if log[j].node != cfg.def.startNode {
      var s :| JustClosed(cfg, log, j, s) && Converged(s) && log[j].node == s.join;
      var k: nat :| k < j && PoppedAt(cfg, log, j, k, s);
      ReachPrefix(cfg, log, k);
      ReachSane(cfg, log[..k]);
      assert Formed(cfg.def, At(cfg, log, k).st.scopes[0]);
      JoinOf(cfg, s);
    }
  }

  lemma JoinOf(cfg: Config, s: Scope)
    requires Formed(cfg.def, s)
    ensures JumpedTo(cfg.def, s.join) || !Gated(cfg.def, s.join)
  {
    hide StaticJoin;
    var f := ForkScope(cfg.def, cfg.def.nodes[s.fork], s.startedAt);
    assert f.join == StaticJoin(cfg.def, cfg.def.nodes[s.fork]);
  }

  /** The same on branches, under no condition on the definition: whenever an external
      event drives a branch away from a node that requires a principal, it carried one. */
  lemma BranchDecisionsAttributed(cfg: Config, log: seq<Occ>, i: nat)
    requires WellFormed(cfg.def) && Reach(cfg, log).Some? && i < |log| && log[i].BranchUpdated?
    ensures |At(cfg, log, i).st.scopes| == 1 && log[i].branch.id in At(cfg, log, i).st.scopes[0].branches
    ensures var from := At(cfg, log, i).st.scopes[0].branches[log[i].branch.id].currentNode;
      from != log[i].branch.currentNode && Gated(cfg.def, from) && LastEvent(log[..i]).Some? ==>
        ValidDecisionPrincipal(cfg.def.nodes[from], LastEvent(log[..i]).value.principal)
  {
    hide Reach, BranchLeaves, BranchFails, Halts, Settled;
    AtNext(cfg, log, i);
    ReachPrefix(cfg, log, i);
    DrivenBy(cfg, log[..i]);
  }

  // ----------------------------------------------------------------------- forks

  predicate Unpops(o: Occ) {
    o.EventConsumed? || o.NodeVisited? || o.NodeSet?
  }

  /** The scope closed by record `j`, still the last thing that happened at `n`. */
  ghost predicate PoppedAt(cfg: Config, log: seq<Occ>, n: nat, j: nat, s: Scope)
    requires Reach(cfg, log).Some? && j < n <= |log|
  {
    && log[j].ScopePopped? && At(cfg, log, j).st.scopes == [s]
    && forall k | j < k < n :: !Unpops(log[k])
  }

  ghost predicate JustClosed(cfg: Config, log: seq<Occ>, n: nat, s: Scope)
    requires Reach(cfg, log).Some? && n <= |log|
  {
    exists j: nat | j < n :: PoppedAt(cfg, log, n, j, s)
  }

  lemma {:induction false} PoppedFrom(cfg: Config, log: seq<Occ>, n: nat) returns (j: nat)
    requires Reach(cfg, log).Some? && n <= |log| && At(cfg, log, n).popped.Some?
    ensures j < n && PoppedAt(cfg, log, n, j, At(cfg, log, n).popped.value)
    decreases n
  {
    hide Reach, Legal;
    if n == 0 {
      FirstAudit(cfg, log);
      assert false;
    } else {
      AtNext(cfg, log, n - 1);
      if log[n - 1].ScopePopped? {
        PopStep(cfg, At(cfg, log, n - 1), log[n - 1]);
        j := n - 1;
      } else {
        j := PoppedFrom(cfg, log, n - 1);
      }
    }
  }

  lemma PopStep(cfg: Config, a: Audit, o: Occ)
    requires Legal(cfg, a, o) && o.ScopePopped?
    ensures |a.st.scopes| == 1 && a.st.scopes[0].fork == o.fork && Settled(a.st.scopes[0])
    ensures Advance(a, o).popped == Some(a.st.scopes[0])
  {
  }

  /** An instance jumps to a node only at its start, or out of a fork that had just been
      closed with its convergence condition met, to that fork's join. */
  lemma JumpsFromFork(cfg: Config, log: seq<Occ>, i: nat)
    requires Reach(cfg, log).Some? && i < |log| && log[i].NodeSet?
    ensures (At(cfg, log, i).st.status == Pending && log[i].node == cfg.def.startNode) ||
      exists s :: JustClosed(cfg, log, i, s) && Converged(s) && log[i].node == s.join
  {
    hide Reach, Advance;
    AtNext(cfg, log, i);
    if At(cfg, log, i).st.status != Pending || log[i].node != cfg.def.startNode {
      var j := PoppedFrom(cfg, log, i);
      assert JustClosed(cfg, log, i, At(cfg, log, i).popped.value);
    }
  }

  /** An instance jumps to a node only at its start, or to the join of a fork closed right
      before, of whose branches one had completed (any), as many as required and at least one
      (n-of-m), or all were done (otherwise), and none had failed if the fork fails fast. */
  lemma ForkLeavesConverged(cfg: Config, log: seq<Occ>, i: nat)
    requires Reach(cfg, log).Some? && i < |log| && log[i].NodeSet?
    ensures (At(cfg, log, i).st.status == Pending && log[i].node == cfg.def.startNode) ||
      exists s :: JustClosed(cfg, log, i, s) && log[i].node == s.join && s.branches != map[]
        && (s.mode == Any ==> exists b <- s.branches :: s.branches[b].status == Completed)
        && (s.mode == NofM ==> var n := |set b | b in s.branches && s.branches[b].status == Completed|; 1 <= n && s.required <= n)
        && (s.mode in {All, Unset} ==> forall b <- s.branches :: s.branches[b].done)
        && (s.failFast ==> forall b <- s.branches :: s.branches[b].status != Failed)
  {
    hide Reach, JustClosed;
    JumpsFromFork(cfg, log, i);
    if At(cfg, log, i).st.status != Pending || log[i].node != cfg.def.startNode {
      var s :| JustClosed(cfg, log, i, s) && Converged(s) && log[i].node == s.join;
      Meaning.EndsMeaning(s);
    }
  }

  /** An instance completes only at an end node it has visited, or out of a converged
      fork without a join. */
  lemma CompletesProperly(cfg: Config, log: seq<Occ>, i: nat)
    requires Reach(cfg, log).Some? && i < |log| && log[i] == StatusSet(Completed)
    ensures var st := At(cfg, log, i).st;
      st.scopes == [] &&
      ((st.node in cfg.def.nodes && cfg.def.nodes[st.node].ntype.End? && exists j | 0 <= j < i :: log[j] == NodeVisited(st.node)) ||
       (exists s :: JustClosed(cfg, log, i, s) && Meaning.Enough(s) && !Meaning.FailedFast(s) && (s.join == "" || (s.join == "join" && "join" !in cfg.def.nodes))))
  {
    hide Reach, Advance;
    AtNext(cfg, log, i);
    var a := At(cfg, log, i);
    if a.moment.Visited? && a.moment.node == a.st.node && a.st.node in cfg.def.nodes && cfg.def.nodes[a.st.node].ntype.End? {
      VisitLogged(cfg, log, i);
    } else {
      var j := PoppedFrom(cfg, log, i);
      var s := a.popped.value;
      Meaning.EndsMeaning(s);
      assert JustClosed(cfg, log, i, s) && Meaning.Enough(s);
    }
  }

  lemma {:induction false} VisitLogged(cfg: Config, log: seq<Occ>, n: nat)
    requires Reach(cfg, log).Some? && n <= |log| && At(cfg, log, n).moment.Visited?
    ensures exists j | 0 <= j < n :: log[j] == NodeVisited(At(cfg, log, n).moment.node)
    decreases n
  {
    hide Reach, Legal;
    if n == 0 {
      FirstAudit(cfg, log);
      assert false;
    } else {
      AtNext(cfg, log, n - 1);
      if !log[n - 1].NodeVisited? {
        VisitLogged(cfg, log, n - 1);
      }
    }
  }

  /** An instance never becomes pending again. */
  lemma {:induction false} StartedForGood(cfg: Config, log: seq<Occ>, i: nat, j: nat)
    requires Reach(cfg, log).Some? && i <= j <= |log| && At(cfg, log, i).st.status != Pending
    ensures At(cfg, log, j).st.status != Pending
    decreases j - i
  {
    hide Reach, Legal, Advance;
    if i < j {
      StartedForGood(cfg, log, i, j - 1);
      AtNext(cfg, log, j - 1);
      StatusStep(cfg, At(cfg, log, j - 1), log[j - 1]);
    }
  }

  lemma StatusStep(cfg: Config, a: Audit, o: Occ)
    requires Legal(cfg, a, o) && a.st.status != Pending
    ensures Advance(a, o).st.status != Pending
  {
    hide TransitionLegal, VariableLegal, PushLegal, BranchLegal, SlotLegal, IssueLegal, Admissible, WakeLegal, WokeLegal, NodeSetLegal, FailLegal;
  }

  // ---------------------------------------------------------------------- events

  /** An event is consumed only by an instance that is pending or waiting: once terminal,
      no external event is ever recorded. */
  lemma ConsumedWhileWaiting(cfg: Config, log: seq<Occ>, i: nat)
    requires Reach(cfg, log).Some? && i < |log| && log[i].EventConsumed? && log[i].event.Some?
    ensures At(cfg, log, i).st.status in {Pending, Waiting}
    ensures log[i].key == KeyOf(log[i].event.value.id)
  {
    hide Reach, GateOpen;
    AtNext(cfg, log, i);
  }

  /** A wake-up is recorded only for a slot that had a due time, cleared right before it
      and consumed under the slot's own key. */
  lemma WokenOnce(cfg: Config, log: seq<Occ>, i: nat)
    requires Reach(cfg, log).Some? && i < |log| && log[i].Woke?
    ensures i > 0 && log[i - 1] == WaitingCleared(log[i].slot)
    ensures log[i].slot in At(cfg, log, i - 1).st.waitings
    ensures var w := At(cfg, log, i - 1).st.waitings[log[i].slot];
      w.until.Some? && Wake(log[i].slot, w.kind, w.visit) in At(cfg, log, i).st.keys
  {
    hide Reach;
    AtNext(cfg, log, i);
    if i == 0 {
      FirstAudit(cfg, log);
      assert false;
    } else {
      AtNext(cfg, log, i - 1);
    }
  }

  /** A wake key is in the folded table exactly when some record consumed it: wake-ups are
      never released. */
  lemma {:induction false} WakeKeyConsumed(cfg: Config, log: seq<Occ>, key: Key)
    requires Reach(cfg, log).Some? && key.Wake?
    ensures key in Reach(cfg, log).value.st.keys <==>
      exists i | 0 <= i < |log| :: log[i].EventConsumed? && log[i].key == Some(key)
    decreases |log|
  {
    hide Legal, Advance;
    if log != [] {
      var n := |log| - 1;
      WakeKeyConsumed(cfg, log[..n], key);
      WakeKeyStep(cfg, Reach(cfg, log[..n]).value, log[n], key);
      assert forall i | 0 <= i < n :: log[..n][i] == log[i];
    }
  }

  lemma WakeKeyStep(cfg: Config, a: Audit, o: Occ, key: Key)
    requires Legal(cfg, a, o) && key.Wake?
    ensures key in Advance(a, o).st.keys <==> key in a.st.keys || (o.EventConsumed? && o.key == Some(key))
  {
    hide TransitionLegal, StatusLegal, VariableLegal, PushLegal, BranchLegal, SlotLegal, IssueLegal, Admissible, WakeLegal, WokeLegal, NodeSetLegal, FailLegal, FireLegal, UndoPushLegal, PopLegal;
  }

  lemma {:induction false} PeakBounded(cfg: Config, log: seq<Occ>, n: nat)
    requires Reach(cfg, log).Some? && n <= |log|
    requires forall m | 0 <= m <= n :: |At(cfg, log, m).st.keys| <= MAX_EVENTS
    ensures At(cfg, log, n).peak <= MAX_EVENTS
    decreases n
  {
    hide Reach, Legal;
    if n == 0 {
      FirstAudit(cfg, log);
    } else {
      PeakBounded(cfg, log, n - 1);
      AtNext(cfg, log, n - 1);
      assert |At(cfg, log, n).st.keys| <= MAX_EVENTS;
    }
  }

  lemma {:induction false} KeyStays(cfg: Config, log: seq<Occ>, key: Key, i: nat, j: nat)
    requires Reach(cfg, log).Some? && i <= j <= |log| && key in At(cfg, log, i).st.keys
    requires forall k | i <= k < j :: log[k] != EventReleased(key)
    ensures key in At(cfg, log, j).st.keys
    decreases j - i
  {
    hide Reach, Legal;
    if i < j {
      KeyStays(cfg, log, key, i, j - 1);
      AtNext(cfg, log, j - 1);
      KeyStep(At(cfg, log, j - 1).st, log[j - 1], key);
    }
  }

  lemma KeyStep(s: State, o: Occ, key: Key)
    requires o != EventReleased(key) && key in s.keys
    ensures Apply(s, o).Some? ==> key in Apply(s, o).value.keys
  {
  }

  /** While the table never had to drop an id, each id is consumed once between releases:
      events by the host's ids, wake-ups by the engine's own. */
  lemma ConsumedOnce(cfg: Config, log: seq<Occ>, i: nat, j: nat)
    requires Reach(cfg, log).Some? && i < j < |log|
    requires log[i].EventConsumed? && log[j].EventConsumed? && log[i].key.Some?
    requires forall m | 0 <= m <= j :: |At(cfg, log, m).st.keys| <= MAX_EVENTS
    requires forall k | i < k < j :: log[k] != EventReleased(log[i].key.value)
    ensures log[j].key != log[i].key
  {
    hide Reach, GateOpen;
    AtNext(cfg, log, i);
    KeyStays(cfg, log, log[i].key.value, i + 1, j);
    PeakBounded(cfg, log, j);
    AtNext(cfg, log, j);
  }

  // ------------------------------------------------------- where replay is inexact

  /** An event without a name becomes the live one but is not folded: right after it the
      live event and the replayed one differ, in every run. */
  lemma UnnamedNotFolded(cfg: Config, log: seq<Occ>, key: Option<Key>, ev: Event, time: int)
    requires WellFormed(cfg.def) && Reach(cfg, log).Some? && ev.name == ""
    requires Legal(cfg, Reach(cfg, log).value, EventConsumed(key, Some(ev), time))
    ensures var longer := log + [EventConsumed(key, Some(ev), time)];
      && Reach(cfg, longer).Some? && Reach(cfg, longer).value.event == Some(ev)
      && Fold(cfg.def, longer).Some? && Fold(cfg.def, longer).value.event != Some(ev)
  {
    hide Legal, SlotsFormed, ScopesFormed, IdsBounded, SagaTracked;
    ReachNext(cfg, log, Reach(cfg, log).value, EventConsumed(key, Some(ev), time));
    ReachSane(cfg, log + [EventConsumed(key, Some(ev), time)]);
  }
}
