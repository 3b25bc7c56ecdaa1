/**
 When alarms go off: every waiting slot of every run was parked at some moment for the
 duration its node declares, and is served no sooner.
 */
module Alarms {
  import opened Definition
  import opened Journal
  import opened Protocol
  import opened Guarantees
  import opened Meaning

  /** The timeout a fork was created with. */
  ghost predicate Timeout(def: ProcessDef, node: Node, timeout: int) {
    exists join: string, mode: Mode, required: int ::
      CreatedWith(def, node, join) && Settings(def, node, join, mode, required, timeout)
  }

  /** The slot says what its node declares: parked at time `at`, it comes due when the declared
      duration has passed, and it does what its kind does. */
  ghost predicate AsDeclared(def: ProcessDef, slot: Slot, w: WaitingState, at: int) {
    && w.node in def.nodes
    && var node := def.nodes[w.node];
       if slot.ScopeSlot? then
         && slot.fork == w.node && node.ntype.Parallel? && w.kind == ScopeWait && w.until.Some?
         && exists timeout: int :: Timeout(def, node, timeout) && w.until.value == at + timeout
       else if node.ntype.Timer? then
         && w.kind == TimerWait && w.next == ""
         && node.duration.Some? && node.duration.value > 0 && w.until == Some(at + node.duration.value)
       else if node.ntype.Ai? && node.deadline.None? then w.kind == AiWait && w.next == "" && w.until.None?
       else
         && node.ntype in {Approval, Subprocess, Ai} && w.kind == (if node.ntype.Ai? then AiWait else DeadlineWait)
         && node.deadline.Some? && node.deadline.value.after.Some? && node.deadline.value.after.value > 0
         && w.next == node.deadline.value.next
         && w.until == Some(at + node.deadline.value.after.value)
  }

  /** Record `j` parked the slot, for the present visit of its node. */
  ghost predicate ParkedAtRecord(cfg: Config, log: seq<Occ>, j: nat, slot: Slot)
    requires Reach(cfg, log).Some? && j < |log|
  {
    && log[j].WaitingSet? && log[j].slot == slot && AsDeclared(cfg.def, slot, log[j].waiting, log[j].at)
    && log[j].waiting.visit == VisitsOf(At(cfg, log, j).st.visits, log[j].waiting.node)
  }

  lemma OpensAsDeclared(cfg: Config, a: Audit, slot: Slot, w: WaitingState, at: int)
    requires SlotOpens(cfg, a, slot, w, at)
    ensures AsDeclared(cfg.def, slot, w, at) && w.visit == VisitsOf(a.st.visits, w.node)
  {
    var node := cfg.def.nodes[w.node];
    if slot.ScopeSlot? {
      var join := StaticJoin(cfg.def, node);
      CreatedWithMeaning(cfg.def, node);
      SettingsMeaning(cfg.def, node, join);
      hide StaticJoin, CreatedWith, Convergence;
      assert Timeout(cfg.def, node, Convergence(cfg.def, node, join).2);
    }
  }

  /** Every slot of every run was parked by some record, and has not been cleared or served
      since; only the id of an inference request may have been added to it. */
  lemma {:induction false} SlotParked(cfg: Config, log: seq<Occ>, n: nat, slot: Slot) returns (j: nat)
    requires Reach(cfg, log).Some? && n <= |log| && slot in At(cfg, log, n).st.waitings
    ensures j < n && ParkedAtRecord(cfg, log, j, slot)
    ensures
      var w := At(cfg, log, n).st.waitings[slot];
      w == log[j].waiting.(request := w.request)
    ensures forall k | j < k < n :: log[k] != WaitingCleared(slot) && log[k] != Woke(slot)
    decreases n
  {
    hide Reach, Legal, AsDeclared, SlotOpens;
    if n == 0 {
      FirstAudit(cfg, log);
      assert false;
    } else {
      AtNext(cfg, log, n - 1);
      var a, o := At(cfg, log, n - 1), log[n - 1];
      SlotStep(cfg, a, o, slot);
      if o.WaitingSet? && o.slot == slot && SlotOpens(cfg, a, slot, o.waiting, o.at) {
        OpensAsDeclared(cfg, a, slot, o.waiting, o.at);
        j := n - 1;
      } else {
        j := SlotParked(cfg, log, n - 1, slot);
      }
    }
  }

  lemma SlotStep(cfg: Config, a: Audit, o: Occ, slot: Slot)
    requires Legal(cfg, a, o) && slot in Advance(a, o).st.waitings
    ensures o != WaitingCleared(slot) && o != Woke(slot)
    ensures
      var w := Advance(a, o).st.waitings[slot];
      if o.WaitingSet? && o.slot == slot then
        w == o.waiting && (SlotOpens(cfg, a, slot, w, o.at) || (slot in a.st.waitings && w == a.st.waitings[slot].(request := w.request)))
      else slot in a.st.waitings && w == a.st.waitings[slot]
  {
    hide TransitionLegal, StatusLegal, VariableLegal, PushLegal, BranchLegal, IssueLegal, Admissible, WakeLegal, WokeLegal, NodeSetLegal, SlotOpens;
  }

  /** The slot was parked for its declared duration, which was over at `due`. */
  ghost predicate Elapsed(cfg: Config, log: seq<Occ>, slot: Slot, due: int) {
    exists j | 0 <= j < |log| ::
      && log[j].WaitingSet? && log[j].slot == slot && log[j].waiting.until == Some(due)
      && AsDeclared(cfg.def, slot, log[j].waiting, log[j].at)
  }

  lemma DueElapsed(cfg: Config, log: seq<Occ>, slot: Slot)
    requires Reach(cfg, log).Some? && slot in Reach(cfg, log).value.st.waitings
    requires Reach(cfg, log).value.st.waitings[slot].until.Some?
    ensures Elapsed(cfg, log, slot, Reach(cfg, log).value.st.waitings[slot].until.value)
  {
    hide Reach, AsDeclared;
    assert log[..|log|] == log;
    var j := SlotParked(cfg, log, |log|, slot);
  }

  lemma ElapsedLater(cfg: Config, log: seq<Occ>, longer: seq<Occ>, slot: Slot, due: int)
    requires Elapsed(cfg, log, slot, due) && log <= longer
    ensures Elapsed(cfg, longer, slot, due)
  {
    hide AsDeclared;
    var j :| 0 <= j < |log| && log[j].WaitingSet? && log[j].slot == slot && log[j].waiting.until == Some(due) &&
      AsDeclared(cfg.def, slot, log[j].waiting, log[j].at);
    assert longer[j] == log[j];
  }

  /** A wake-up serves a slot that was parked before it for its declared duration. */
  lemma WokenAsDeclared(cfg: Config, log: seq<Occ>, i: nat)
    requires Reach(cfg, log).Some? && i < |log| && log[i].Woke?
    ensures i > 0 && log[i].slot in At(cfg, log, i - 1).st.waitings
    ensures
      var w := At(cfg, log, i - 1).st.waitings[log[i].slot];
      w.until.Some? && Elapsed(cfg, log[..i - 1], log[i].slot, w.until.value)
  {
    hide Reach, Elapsed;
    WokenOnce(cfg, log, i);
    ReachPrefix(cfg, log, i - 1);
    DueElapsed(cfg, log[..i - 1], log[i].slot);
  }
}
