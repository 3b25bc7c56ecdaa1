/**
 The fold read backwards: each part of a folded state is what the last record about it said.
 */
module History {
  import opened Definition
  import opened Journal

  /** What one record does, part by part of the state. */
  lemma RecordEffects(s: State, o: Occ, t: State)
    requires Apply(s, o) == Some(t)
    ensures t.node == if o.Transitioned? then o.to else if o.NodeSet? then o.node else s.node
    ensures t.status == if o.Transitioned? then Running else if o.StatusSet? then o.status else s.status
    ensures t.vars == if o.VariableSet? then s.vars[o.name := o.value] else s.vars
    ensures t.event == if o.Woke? then None else if Sets(o) then o.event else s.event
    ensures t.waitings ==
      if o.WaitingSet? then s.waitings[o.slot := o.waiting]
      else if o.WaitingCleared? || o.Woke? then s.waitings - {o.slot}
      else s.waitings
    ensures t.keys ==
      if o.EventConsumed? && o.key.Some? then s.keys + {o.key.value} else if o.EventReleased? then s.keys - {o.released} else s.keys
    ensures forall n :: VisitsOf(t.visits, n) == VisitsOf(s.visits, n) + if o == NodeVisited(n) then 1 else 0
    ensures t.results == if o.CommandResult? then s.results + [o.result] else s.results
    ensures t.instanceID == if o.Started? then o.instanceID else s.instanceID
    ensures t.executionID == if o.Started? then o.executionID else s.executionID
    ensures !o.ScopePushed? && !o.ScopePopped? && !o.BranchUpdated? ==> t.scopes == s.scopes
    ensures o.ScopePushed? ==> t.scopes == s.scopes + [o.scope]
    ensures o.ScopePopped? && s.scopes != [] ==> s.scopes == t.scopes + [s.scopes[|s.scopes| - 1]]
    ensures |t.undo| == |s.undo| + if o.CompensationPushed? then 1 else 0
    ensures o.CompensationPushed? ==> t.undo == s.undo + [o.undo]
    ensures forall k | 0 <= k < |s.undo| ::
      t.undo[k] == s.undo[k].(done := s.undo[k].done || o == CompensationFired(s.undo[k].key))
  {
  }

  lemma FoldPrefix(def: ProcessDef, log: seq<Occ>)
    requires log != [] && Fold(def, log).Some?
    ensures Fold(def, log[..|log| - 1]).Some?
    ensures Apply(Fold(def, log[..|log| - 1]).value, log[|log| - 1]) == Fold(def, log)
  {
  }

  /** The instance stands where the last move or jump put it. */
  lemma {:induction false} NodeRead(def: ProcessDef, log: seq<Occ>, i: nat)
    requires Fold(def, log).Some? && i < |log| && (log[i].Transitioned? || log[i].NodeSet?)
    requires forall k | i < k < |log| :: !log[k].Transitioned? && !log[k].NodeSet?
    ensures Fold(def, log).value.node == if log[i].Transitioned? then log[i].to else log[i].node
    decreases |log|
  {
    hide Apply;
    FoldPrefix(def, log);
    RecordEffects(Fold(def, log[..|log| - 1]).value, log[|log| - 1], Fold(def, log).value);
    if i < |log| - 1 {
      assert log[..|log| - 1][i] == log[i] && forall k | i < k < |log| - 1 :: log[..|log| - 1][k] == log[k];
      NodeRead(def, log[..|log| - 1], i);
    }
  }

  /** Its status is the last one set; a move sets it running. */
  lemma {:induction false} StatusRead(def: ProcessDef, log: seq<Occ>, i: nat)
    requires Fold(def, log).Some? && i < |log| && (log[i].StatusSet? || log[i].Transitioned?)
    requires forall k | i < k < |log| :: !log[k].StatusSet? && !log[k].Transitioned?
    ensures Fold(def, log).value.status == if log[i].StatusSet? then log[i].status else Running
    decreases |log|
  {
    hide Apply;
    FoldPrefix(def, log);
    RecordEffects(Fold(def, log[..|log| - 1]).value, log[|log| - 1], Fold(def, log).value);
    if i < |log| - 1 {
      assert log[..|log| - 1][i] == log[i] && forall k | i < k < |log| - 1 :: log[..|log| - 1][k] == log[k];
      StatusRead(def, log[..|log| - 1], i);
    }
  }

  /** A variable has the last value written to it. */
  lemma {:induction false} VariableRead(def: ProcessDef, log: seq<Occ>, i: nat)
    requires Fold(def, log).Some? && i < |log| && log[i].VariableSet?
    requires forall k | i < k < |log| :: !(log[k].VariableSet? && log[k].name == log[i].name)
    ensures log[i].name in Fold(def, log).value.vars && Fold(def, log).value.vars[log[i].name] == log[i].value
    decreases |log|
  {
    hide Apply;
    FoldPrefix(def, log);
    RecordEffects(Fold(def, log[..|log| - 1]).value, log[|log| - 1], Fold(def, log).value);
    if i < |log| - 1 {
      assert log[..|log| - 1][i] == log[i] && forall k | i < k < |log| - 1 :: log[..|log| - 1][k] == log[k];
      VariableRead(def, log[..|log| - 1], i);
    }
  }

  /** A variable nobody wrote has its declared initial value, or none. */
  lemma {:induction false} VariableInitial(def: ProcessDef, log: seq<Occ>, name: string)
    requires Fold(def, log).Some? && forall k | 0 <= k < |log| :: !(log[k].VariableSet? && log[k].name == name)
    ensures name in Fold(def, log).value.vars <==> name in def.varInit
    ensures name in def.varInit ==> Fold(def, log).value.vars[name] == def.varInit[name]
    decreases |log|
  {
    if log != [] {
      hide Apply;
      FoldPrefix(def, log);
      RecordEffects(Fold(def, log[..|log| - 1]).value, log[|log| - 1], Fold(def, log).value);
      assert forall k | 0 <= k < |log| - 1 :: log[..|log| - 1][k] == log[k];
      VariableInitial(def, log[..|log| - 1], name);
    }
  }

  /** A node was visited as often as the log says. */
  lemma {:induction false} VisitsRead(def: ProcessDef, log: seq<Occ>, n: string)
    requires Fold(def, log).Some?
    ensures VisitsOf(Fold(def, log).value.visits, n) == |set i | 0 <= i < |log| && log[i] == NodeVisited(n)|
    decreases |log|
  {
    var all := set i | 0 <= i < |log| && log[i] == NodeVisited(n);
    if log == [] {
      assert all == {};
    } else {
      var m := |log| - 1;
      hide Apply;
      FoldPrefix(def, log);
      RecordEffects(Fold(def, log[..|log| - 1]).value, log[|log| - 1], Fold(def, log).value);
      VisitsRead(def, log[..m], n);
      var before := set i | 0 <= i < |log[..m]| && log[..m][i] == NodeVisited(n);
      assert all == if log[m] == NodeVisited(n) then before + {m} else before;
    }
  }

  predicate About(o: Occ, slot: Slot) {
    (o.WaitingSet? && o.slot == slot) || o == WaitingCleared(slot) || o == Woke(slot)
  }

  /** A slot holds what it was last set to, unless it was cleared or served since. */
  lemma {:induction false} SlotRead(def: ProcessDef, log: seq<Occ>, slot: Slot, i: nat)
    requires Fold(def, log).Some? && i < |log| && About(log[i], slot)
    requires forall k | i < k < |log| :: !About(log[k], slot)
    ensures slot in Fold(def, log).value.waitings <==> log[i].WaitingSet?
    ensures log[i].WaitingSet? ==> Fold(def, log).value.waitings[slot] == log[i].waiting
    decreases |log|
  {
    hide Apply;
    FoldPrefix(def, log);
    RecordEffects(Fold(def, log[..|log| - 1]).value, log[|log| - 1], Fold(def, log).value);
    if i < |log| - 1 {
      assert log[..|log| - 1][i] == log[i] && forall k | i < k < |log| - 1 :: log[..|log| - 1][k] == log[k];
      SlotRead(def, log[..|log| - 1], slot, i);
    }
  }

  lemma {:induction false} SlotUnset(def: ProcessDef, log: seq<Occ>, slot: Slot)
    requires Fold(def, log).Some? && forall k | 0 <= k < |log| :: !About(log[k], slot)
    ensures slot !in Fold(def, log).value.waitings
    decreases |log|
  {
    if log != [] {
      hide Apply;
      FoldPrefix(def, log);
      RecordEffects(Fold(def, log[..|log| - 1]).value, log[|log| - 1], Fold(def, log).value);
      assert forall k | 0 <= k < |log| - 1 :: log[..|log| - 1][k] == log[k];
      SlotUnset(def, log[..|log| - 1], slot);
    }
  }

  /** A key is known exactly when it was consumed and not released since. */
  lemma {:induction false} KeyRead(def: ProcessDef, log: seq<Occ>, key: Key)
    requires Fold(def, log).Some?
    ensures key in Fold(def, log).value.keys <==> exists i | 0 <= i < |log| ::
      log[i].EventConsumed? && log[i].key == Some(key) && forall k | i < k < |log| :: log[k] != EventReleased(key)
    decreases |log|
  {
    if log != [] {
      var n := |log| - 1;
      var before := log[..n];
      hide Apply;
      FoldPrefix(def, log);
      RecordEffects(Fold(def, log[..|log| - 1]).value, log[|log| - 1], Fold(def, log).value);
      KeyRead(def, before, key);
      assert forall i | 0 <= i < n :: before[i] == log[i];
      if i :| 0 <= i < n && before[i].EventConsumed? && before[i].key == Some(key) && forall k | i < k < n :: before[k] != EventReleased(key) {
        assert log[i].EventConsumed? && log[i].key == Some(key) && forall k | i < k < n :: log[k] != EventReleased(key);
      }
      if i :| 0 <= i < |log| && log[i].EventConsumed? && log[i].key == Some(key) && forall k | i < k < |log| :: log[k] != EventReleased(key) {
        assert i < n ==> before[i].EventConsumed? && before[i].key == Some(key) && forall k | i < k < n :: before[k] != EventReleased(key);
      }
    }
  }

  /** The folded event is the last named one that was consumed, unless a wake-up dropped it. */
  lemma {:induction false} EventRead(def: ProcessDef, log: seq<Occ>, i: nat)
    requires Fold(def, log).Some? && i < |log| && Sets(log[i]) && forall k | i < k < |log| :: !Sets(log[k])
    ensures Fold(def, log).value.event == if log[i].Woke? then None else log[i].event
    decreases |log|
  {
    hide Apply;
    FoldPrefix(def, log);
    RecordEffects(Fold(def, log[..|log| - 1]).value, log[|log| - 1], Fold(def, log).value);
    if i < |log| - 1 {
      assert log[..|log| - 1][i] == log[i] && forall k | i < k < |log| - 1 :: log[..|log| - 1][k] == log[k];
      EventRead(def, log[..|log| - 1], i);
    }
  }

  predicate Sets(o: Occ) {
    o.Woke? || (o.EventConsumed? && o.event.Some? && o.event.value.name != "")
  }

  /** A branch of the open scope is as its last record says; its scope's join is the first one
      that was known. */
  lemma BranchRead(s: State, o: Occ, t: State)
    requires o.BranchUpdated? && Apply(s, o) == Some(t) && |s.scopes| == 1
    ensures s.scopes[0].fork == o.fork && |t.scopes| == 1
    ensures t.scopes[0].branches.Keys == s.scopes[0].branches.Keys && o.branch.id in s.scopes[0].branches
    ensures forall b <- t.scopes[0].branches ::
      t.scopes[0].branches[b] == if b == o.branch.id then o.branch else s.scopes[0].branches[b]
    ensures s.scopes[0].join != "" ==> t.scopes[0].join == s.scopes[0].join
    ensures s.scopes[0].join == "" ==> t.scopes[0].join == o.branch.arrivedJoin
    ensures t == s.(scopes := t.scopes)
    ensures t.scopes[0] == s.scopes[0].(branches := t.scopes[0].branches, join := t.scopes[0].join)
  {
    assert ScopeByFork(s.scopes, o.fork) == 0;
    assert t.scopes == [WithBranch(s.scopes[0], o.branch)];
  }

  /** The results are those logged, in their order. */
  lemma {:induction false} ResultsRead(def: ProcessDef, log: seq<Occ>) returns (at: seq<nat>)
    requires Fold(def, log).Some?
    ensures |at| == |Fold(def, log).value.results|
    ensures forall k | 0 <= k < |at| :: at[k] < |log| && log[at[k]] == CommandResult(Fold(def, log).value.results[k])
    ensures forall k, m | 0 <= k < m < |at| :: at[k] < at[m]
    ensures forall i | 0 <= i < |log| :: log[i].CommandResult? ==> i in at
    decreases |log|
  {
    at := [];
    if log != [] {
      hide Apply;
      FoldPrefix(def, log);
      RecordEffects(Fold(def, log[..|log| - 1]).value, log[|log| - 1], Fold(def, log).value);
      var n := |log| - 1;
      at := ResultsRead(def, log[..n]);
      assert forall i | 0 <= i < n :: log[..n][i] == log[i];
      if log[n].CommandResult? {
        at := at + [n];
      }
    }
  }

  /** Entry `u` was pushed by record `j` and is done exactly when its key was fired later. */
  ghost predicate PushedAt(log: seq<Occ>, j: nat, u: UndoEntry) {
    && j < |log| && log[j].CompensationPushed? && u == log[j].undo.(done := u.done)
    && (u.done <==> exists i | j < i < |log| :: log[i] == CompensationFired(u.key))
  }

  lemma PushedStill(log: seq<Occ>, j: nat, was: UndoEntry, u: UndoEntry)
    requires log != [] && PushedAt(log[..|log| - 1], j, was)
    requires u == was.(done := was.done || log[|log| - 1] == CompensationFired(was.key))
    ensures PushedAt(log, j, u)
  {
    var n := |log| - 1;
    if i :| j < i < n && log[..n][i] == CompensationFired(was.key) {
      assert log[i] == CompensationFired(u.key);
    }
    if i :| j < i < |log| && log[i] == CompensationFired(u.key) {
      assert i < n ==> log[..n][i] == CompensationFired(was.key);
    }
  }

  /** Entries of the undo stack are those pushed, in their order; one is done exactly when its key
      was fired since it was pushed. */
  lemma {:induction false} UndoRead(def: ProcessDef, log: seq<Occ>) returns (at: seq<nat>)
    requires Fold(def, log).Some?
    requires forall i | 0 <= i < |log| :: log[i].CompensationPushed? ==> !log[i].undo.done
    ensures |at| == |Fold(def, log).value.undo|
    ensures forall k, m | 0 <= k < m < |at| :: at[k] < at[m]
    ensures forall i | 0 <= i < |log| :: log[i].CompensationPushed? ==> i in at
    ensures forall k | 0 <= k < |at| :: PushedAt(log, at[k], Fold(def, log).value.undo[k])
    decreases |log|
  {
    at := [];
    if log != [] {
      hide Apply, Fold, PushedAt;
      FoldPrefix(def, log);
      var n := |log| - 1;
      var before := log[..n];
      var was, undo := Fold(def, before).value.undo, Fold(def, log).value.undo;
      RecordEffects(Fold(def, before).value, log[n], Fold(def, log).value);
      assert forall i | 0 <= i < n :: before[i] == log[i];
      at := UndoRead(def, before);
      forall k | 0 <= k < |at| ensures PushedAt(log, at[k], undo[k]) {
        PushedStill(log, at[k], was[k], undo[k]);
      }
      if log[n].CompensationPushed? {
        PushedNow(log);
        at := at + [n];
      }
    } else {
      assert Fold(def, log).value.undo == [];
    }
  }

  lemma PushedNow(log: seq<Occ>)
    requires log != [] && log[|log| - 1].CompensationPushed? && !log[|log| - 1].undo.done
    ensures PushedAt(log, |log| - 1, log[|log| - 1].undo)
  {
  }
}
