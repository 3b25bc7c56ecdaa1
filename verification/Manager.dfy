/**
 The manager (dsl/manager.go): every operation loads an instance from its snapshot and
 its journal, drives it, journals what happened, and updates the summary row.
 */
module Manager {
  import opened Definition
  import opened Journal
  import opened Protocol
  import opened Runs
  import opened Frames
  import opened Context
  import opened Engine
  import opened Temporal
  import opened Replay
  import opened Stores
  import opened Session
  import opened Guarantees
  import Effects

  const DEFAULT_SNAPSHOT_EVERY := 256

  datatype Failure = UnknownDefinition | InstanceExists | InstanceMissing

  // ------------------------------------------------------------ what rows promise

  /** The row shows the state: its status, its node, its earliest wake-up. */
  ghost predicate Shows(row: InstanceRecord, st: State) {
    && row.status == st.status && row.node == st.node
    && (row.wakeUpAt.None? <==> forall slot <- st.waitings :: st.waitings[slot].until.None?)
    && (row.wakeUpAt.Some? ==> exists slot <- st.waitings :: st.waitings[slot].until == row.wakeUpAt)
    && forall now: int :: (row.wakeUpAt.Some? && row.wakeUpAt.value <= now) <==> Due(st.waitings, now) != {}
  }

  /** The log of a started instance between operations, shown by its row. */
  ghost predicate InSync(cfg: Config, log: seq<Occ>, row: InstanceRecord) {
    && Reach(cfg, log).Some?
    && var a := Reach(cfg, log).value;
       && Boundary(cfg, a) && a.st.status != Pending && !Unnamed(a.event)
       && Shows(row, a.st)
  }

  /** A log that a process left behind anywhere: it may have died in the middle of an
      operation. */
  ghost predicate LeftBehind(cfg: Config, log: seq<Occ>) {
    Reach(cfg, log).Some? && !Unnamed(Reach(cfg, log).value.event)
  }

  /** The first `n` records are those the snapshot covers, and it stands for them. */
  ghost predicate Covered(cfg: Config, entries: seq<Entry>, snap: Snapshot, n: nat) {
    && n <= |entries| && (forall i | 0 <= i < |entries| :: i < n <==> entries[i].seqNo <= snap.uptoSeq)
    && StandsFor(cfg.def, snap.savepoint, Occs(entries), n)
    && Reach(cfg, Occs(entries)[..n]).Some?
    && Matches(snap.savepoint.st, Reach(cfg, Occs(entries)[..n]).value)
    && !Unnamed(snap.savepoint.st.event)
  }

  ghost predicate SnapshotGood(cfg: Config, entries: seq<Entry>, snap: Snapshot, next: int) {
    snap.uptoSeq <= next && exists n: nat :: Covered(cfg, entries, snap, n)
  }

  lemma SnapshotStays(cfg: Config, before: seq<Entry>, after: seq<Entry>, snap: Snapshot, mark: int, next: int)
    requires SnapshotGood(cfg, before, snap, mark) && Later(before, after, mark) && mark <= next
    ensures SnapshotGood(cfg, after, snap, next)
  {
    hide Reach, Close;
    var n: nat :| Covered(cfg, before, snap, n);
    assert Occs(after)[..n] == Occs(before)[..n];
    forall i | 0 <= i < |after| ensures i < n <==> after[i].seqNo <= snap.uptoSeq {
      assert i < |before| ==> after[i] == before[i];
    }
    assert Covered(cfg, after, snap, n);
  }

  /** What replaying the uncovered records onto the snapshot needs to continue the log. */
  lemma RestoredMatches(cfg: Config, log: seq<Occ>, n: nat, sp: Savepoint, live: State)
    requires WellFormed(cfg.def) && Reach(cfg, log).Some? && n <= |log| && Reach(cfg, log[..n]).Some?
    requires Matches(sp.st, Reach(cfg, log[..n]).value) && !Unnamed(sp.st.event) && !Unnamed(Reach(cfg, log).value.event)
    requires Fold(cfg.def, log).Some? && Fold(cfg.def, log[..n]).Some? && Close(live, Fold(cfg.def, log).value)
    requires sp.st.event == Fold(cfg.def, log[..n]).value.event ==> live.event == Fold(cfg.def, log).value.event
    requires sp.st.keys == Fold(cfg.def, log[..n]).value.keys ==> live.keys == Fold(cfg.def, log).value.keys
    ensures Matches(live, Reach(cfg, log).value)
  {
    hide Reach, SlotsFormed, ScopesFormed, IdsBounded, SagaTracked;
    ReachSane(cfg, log);
    ReachSane(cfg, log[..n]);
    PeakGrows(cfg, log, n);
  }

  lemma {:induction false} PeakGrows(cfg: Config, log: seq<Occ>, n: nat)
    requires Reach(cfg, log).Some? && n <= |log| && Reach(cfg, log[..n]).Some?
    ensures Reach(cfg, log[..n]).value.peak <= Reach(cfg, log).value.peak
    decreases |log|
  {
    hide Legal, NextState;
    if n < |log| {
      var m := |log| - 1;
      assert log[..m][..n] == log[..n];
      PeakGrows(cfg, log[..m], n);
    } else {
      assert log[..n] == log;
    }
  }

  lemma InSyncFolds(cfg: Config, log: seq<Occ>, row: InstanceRecord)
    requires WellFormed(cfg.def) && InSync(cfg, log, row)
    ensures Fold(cfg.def, log) == Some(Reach(cfg, log).value.st) && Outstanding(log) == map[]
    ensures Shows(row, Fold(cfg.def, log).value)
  {
    hide Reach, Shows, SlotsFormed, ScopesFormed, IdsBounded, SagaTracked;
    ReachSane(cfg, log);
    OutboxOf(cfg, log);
    assert Outstanding(log).Keys == {};
  }

  /** All instances but one have the same records, row and snapshot. */
  ghost predicate SameBut(id: string, occs: seq<Stored>, rows: map<string, InstanceRecord>, snaps: map<string, Snapshot>,
                          occs': seq<Stored>, rows': map<string, InstanceRecord>, snaps': map<string, Snapshot>) {
    forall other: string :: other != id ==>
      && EntriesOf(occs', other) == EntriesOf(occs, other)
      && (other in rows' <==> other in rows) && (other in rows' ==> rows'[other] == rows[other])
      && (other in snaps' <==> other in snaps) && (other in snaps' ==> snaps'[other] == snaps[other])
  }

  lemma SameAsNow(id: string, occs: seq<Stored>, rows: map<string, InstanceRecord>, snaps: map<string, Snapshot>)
    ensures SameBut(id, occs, rows, snaps, occs, rows, snaps)
  {
  }

  lemma SameSoFar(id: string, a: seq<Stored>, r: map<string, InstanceRecord>, s: map<string, Snapshot>,
                  b: seq<Stored>, r': map<string, InstanceRecord>, s': map<string, Snapshot>,
                  c: seq<Stored>, r'': map<string, InstanceRecord>, s'': map<string, Snapshot>)
    requires SameBut(id, a, r, s, b, r', s') && SameBut(id, b, r', s', c, r'', s'')
    ensures SameBut(id, a, r, s, c, r'', s'')
  {
    hide EntriesOf;
  }

  class Manager {
    const defs: map<string, Config>
    const journal: MemoryJournal
    const store: MemoryStore
    /** None when no snapshot store is configured; 0 selects the default threshold. */
    const snapshotEvery: Option<int>
    var clock: int
    var calls: nat

    /** What holds of one instance between operations: a created one is in sync with its
        row and its snapshot, any other has left no trace. */
    ghost predicate Kept(id: string)
      reads journal, store
    {
      if id !in store.rows then EntriesOf(journal.occs, id) == [] && id !in store.snapshots
      else
        && store.rows[id].definition in defs
        && var cfg := defs[store.rows[id].definition];
           && InSync(cfg, journal.LogOf(id), store.rows[id])
           && (id in store.snapshots ==> SnapshotGood(cfg, EntriesOf(journal.occs, id), store.snapshots[id], journal.next))
    }

    ghost predicate Valid()
      reads journal, store
    {
      && journal.Valid() && store.Valid()
      && (forall d <- defs :: WellFormed(defs[d].def))
      && forall id: string :: Kept(id)
    }

    constructor (defs: map<string, Config>, snapshotEvery: Option<int>, now: int)
      requires forall d <- defs :: WellFormed(defs[d].def)
      ensures Valid() && fresh(journal) && fresh(store) && this.defs == defs && clock == now
    {
      this.defs, this.snapshotEvery, clock, calls := defs, snapshotEvery, now, 0;
      journal := new MemoryJournal();
      store := new MemoryStore();
    }

    /** The definition an instance runs on. */
    ghost function CfgOf(id: string): (cfg: Config)
      requires Valid() && id in store.rows
      reads journal, store
      ensures WellFormed(cfg.def) && InSync(cfg, journal.LogOf(id), store.rows[id])
    {
      assert Kept(id);
      defs[store.rows[id].definition]
    }

    /** The state of an instance is the fold of its journal. */
    ghost function StateOf(id: string): (st: State)
      requires Valid() && id in store.rows
      reads journal, store
      ensures Fold(CfgOf(id).def, journal.LogOf(id)) == Some(st)
      ensures Shows(store.rows[id], st)
    {
      InSyncFolds(CfgOf(id), journal.LogOf(id), store.rows[id]);
      Fold(CfgOf(id).def, journal.LogOf(id)).value
    }

    /** The rows answer for the states: unlimited, ListWakeable returns exactly the waiting
        instances that have a due slot. */
    method ListDue(now: int) returns (out: seq<InstanceRecord>)
      requires Valid()
      ensures forall id <- store.rows ::
        store.rows[id] in out <==> StateOf(id).status == Waiting && Due(StateOf(id).waitings, now) != {}
      ensures forall r <- out :: r.instance in store.rows && store.rows[r.instance] == r
    {
      hide InSync;
      out := store.ListWakeable(now, 0);
      forall id | id in store.rows
        ensures store.rows[id] in out <==> StateOf(id).status == Waiting && Due(StateOf(id).waitings, now) != {}
      {
        assert Shows(store.rows[id], StateOf(id));
      }
    }

    // ------------------------------------------------------------------- loading

    /** load, of an instance between operations: the newest snapshot and the records after it,
        else the whole journal; either way a context that continues the log. The outbox is
        empty. */
    method Load(id: string) returns (rt: Runtime)
      requires Valid() && id in store.rows
      ensures fresh(rt) && fresh(rt.ctx) && rt.Idle() && rt.ctx.cfg == CfgOf(id) && rt.ctx.status != Pending
      ensures rt.ctx.log == journal.LogOf(id) && rt.ctx.clock == clock && rt.ctx.calls == calls
      ensures !Unnamed(rt.ctx.currentEvent)
      ensures rt.ctx.Live() == StateOf(id).(keys := rt.ctx.processedEvents.Keys) && rt.ctx.processedEvents.Keys <= StateOf(id).keys
    {
      hide Reach, Boundary, Shows;
      assert Kept(id);
      var ctx := Restored(id);
      rt := new Runtime.Over(ctx);
      LiveIs(ctx);
    }

    method Restored(id: string) returns (ctx: ExecutionContext)
      requires journal.Valid() && store.Valid() && (forall d <- defs :: WellFormed(defs[d].def)) && Opened(id)
      requires LeftBehind(defs[store.rows[id].definition], journal.LogOf(id))
      ensures fresh(ctx) && ctx.cfg == defs[store.rows[id].definition] && ctx.log == journal.LogOf(id)
      ensures ctx.clock == clock && ctx.calls == calls && ctx.Tracked() && !Unnamed(ctx.currentEvent)
    {
      hide Reach, Covered;
      var cfg := defs[store.rows[id].definition];
      var entries := journal.Load(id);
      if id in store.snapshots && store.snapshots[id].uptoSeq > 0 {
        ctx := FromSnapshot(cfg, entries, store.snapshots[id], journal.next);
      } else {
        ctx := FromJournal(cfg, entries);
      }
    }

    /** load, of an instance whose process died anywhere in an operation: after the context is
        restored the commands issued and never answered are delivered again, each once. Nothing
        else happens to the instance. */
    method LoadCrashed(id: string) returns (rt: Runtime)
      requires OthersKept(id) && Opened(id) && LeftBehind(defs[store.rows[id].definition], journal.LogOf(id))
      modifies this, journal
      ensures fresh(rt) && fresh(rt.ctx) && rt.ctx.Tracked() && rt.ctx.cfg == defs[store.rows[id].definition]
      ensures OthersKept(id) && Opened(id) && OnlyInstance(id) && store.rows == old(store.rows)
      ensures rt.ctx.log == journal.LogOf(id) && old(journal.LogOf(id)) <= journal.LogOf(id)
      ensures Outstanding(journal.LogOf(id)) == map[]
      ensures Redelivered(rt.ctx.cfg, old(journal.LogOf(id)), rt.ctx.audit)
    {
      hide Reach, InSync, SnapshotGood, Numbered, EntriesOf, Outstanding, SameBut;
      var ctx := Restored(id);
      rt := new Runtime.Over(ctx);
      var from := |ctx.log|;
      ghost var log := ctx.log;
      Redispatch(ctx);
      assert ctx.log[..from] == log;
      clock, calls := ctx.clock, ctx.calls;
      Journalize(id, rt, from);
    }

    /** The open commands were answered in turn, and nothing but that happened. */
    static ghost predicate Redelivered(cfg: Config, log: seq<Occ>, b: Audit) {
      && Reach(cfg, log).Some?
      && var a := Reach(cfg, log).value;
         && SameStep(a, b) && b.issued == a.issued && b.resolved == a.issued.Keys
         && b.st == a.st.(results := b.st.results, undo := b.st.undo)
         && a.st.results <= b.st.results && |b.st.results| == |a.st.results| + |Outstanding(log)|
    }

    /** PendingCommands, each delivered again. */
    method Redispatch(ctx: ExecutionContext)
      requires ctx.Tracked()
      modifies ctx
      ensures ctx.Tracked() && old(ctx.log) <= ctx.log && Outstanding(ctx.log) == map[]
      ensures Redelivered(ctx.cfg, old(ctx.log), ctx.audit)
    {
      hide Reach, Outstanding, Outbox.Remaining;
      ghost var a := ctx.audit;
      NeverReissued(ctx.cfg, ctx.log);
      ctx.IssuedUnresolved();
      var pending := PendingCommands(ctx.log);
      Outbox.PendingRemains(ctx.cfg, ctx.log, pending);
      Outbox.PendingSize(ctx.log, pending);
      var k := 0;
      while k < |pending|
        invariant k <= |pending| && ctx.Tracked() && old(ctx.log) <= ctx.log
        invariant Outbox.Remaining(ctx.audit, pending, k) && ctx.audit.resolved <= ctx.audit.issued.Keys
        invariant AnsweredAll(a, ctx.audit, k)
      {
        ghost var b := ctx.audit;
        NextOpen(ctx.cfg, b, pending, k);
        var r := Effects.Deliver(ctx, pending[k]);
        DeliveredNext(a, b, ctx.audit, pending, k, r);
        k := k + 1;
      }
      Outbox.NothingOpen(ctx.cfg, ctx.log, pending);
      AllAnswered(ctx.audit, pending);
    }

    lemma AllAnswered(a: Audit, pending: seq<Command>)
      requires Outbox.Remaining(a, pending, |pending|) && a.resolved <= a.issued.Keys
      ensures a.resolved == a.issued.Keys
    {
      forall id | id in a.issued ensures id in a.resolved {
        assert id in a.resolved || id in Open(a);
      }
    }

    /** `k` commands that were open in `a` were answered. */
    static ghost predicate AnsweredAll(a: Audit, b: Audit, k: nat) {
      && SameStep(a, b) && b.issued == a.issued
      && b.st == a.st.(results := b.st.results, undo := b.st.undo)
      && a.st.results <= b.st.results && |b.st.results| == |a.st.results| + k
    }

    lemma LiveIs(ctx: ExecutionContext)
      requires ctx.Tracked() && !Unnamed(ctx.currentEvent)
      ensures Fold(ctx.cfg.def, ctx.log).Some?
      ensures var f := Fold(ctx.cfg.def, ctx.log).value;
        ctx.Live() == f.(keys := ctx.processedEvents.Keys) && ctx.processedEvents.Keys <= f.keys
    {
      ctx.Known();
    }

    lemma NextOpen(cfg: Config, a: Audit, pending: seq<Command>, k: nat)
      requires Outbox.Remaining(a, pending, k) && k < |pending|
      ensures IssueLegal(cfg, a, pending[k]) && pending[k].id in a.issued && a.issued[pending[k].id] == pending[k]
      ensures pending[k].id !in a.resolved
    {
    }

    lemma DeliveredNext(a: Audit, b: Audit, c: Audit, pending: seq<Command>, k: nat, r: SideEffectResult)
      requires Outbox.Remaining(b, pending, k) && k < |pending| && b.resolved <= b.issued.Keys
      requires AnsweredAll(a, b, k) && Effects.Delivered(b, c, pending[k], r)
      requires pending[k].id in b.issued && b.issued[pending[k].id] == pending[k]
      ensures AnsweredAll(a, c, k + 1) && Outbox.Remaining(c, pending, k + 1) && c.resolved <= c.issued.Keys
    {
      hide Outbox.Remaining;
      assert b.issued[pending[k].id := pending[k]] == b.issued;
      Outbox.RemainingNext(b, c, pending, k);
    }

    method FromJournal(cfg: Config, entries: seq<Entry>) returns (ctx: ExecutionContext)
      requires WellFormed(cfg.def) && LeftBehind(cfg, Occs(entries))
      ensures fresh(ctx) && ctx.cfg == cfg && ctx.log == Occs(entries) && ctx.clock == clock && ctx.calls == calls
      ensures ctx.Tracked() && !Unnamed(ctx.currentEvent)
    {
      hide Reach;
      ReachSane(cfg, Occs(entries));
      var ok;
      ctx, ok := Rebuild(cfg, Occs(entries), clock);
      Bind(ctx, Occs(entries), calls);
    }

    method FromSnapshot(cfg: Config, entries: seq<Entry>, snap: Snapshot, ghost next: int)
      returns (ctx: ExecutionContext)
      requires WellFormed(cfg.def) && LeftBehind(cfg, Occs(entries)) && SnapshotGood(cfg, entries, snap, next)
      requires Increasing(entries)
      ensures fresh(ctx) && ctx.cfg == cfg && ctx.log == Occs(entries) && ctx.clock == clock && ctx.calls == calls
      ensures ctx.Tracked() && !Unnamed(ctx.currentEvent)
    {
      hide Reach, Close;
      ghost var n: nat :| Covered(cfg, entries, snap, n);
      var rest := OccurrencesAfter(entries, snap.uptoSeq);
      assert n < |entries| ==> entries[n].seqNo > snap.uptoSeq;
      CutMeaning(entries, snap.uptoSeq, n);
      assert Occs(rest) == Occs(entries)[n..];
      ReachSane(cfg, Occs(entries));
      var ok;
      ctx, ok := Recover(cfg, snap.savepoint, Occs(rest), clock, Occs(entries), n);
      RestoredMatches(cfg, Occs(entries), n, snap.savepoint, ctx.Live());
      Bind(ctx, Occs(entries), calls);
    }

    // ----------------------------------------------------------------- committing

    ghost predicate OthersKept(id: string)
      reads journal, store
    {
      && journal.Valid() && store.Valid()
      && (forall d <- defs :: WellFormed(defs[d].def))
      && forall other: string :: other != id ==> Kept(other)
    }

    /** The instance exists; its journal and snapshot are sound, its row may be behind. */
    ghost predicate Opened(id: string)
      reads journal, store
    {
      && id in store.rows && store.rows[id].definition in defs
      && (id in store.snapshots ==>
            SnapshotGood(defs[store.rows[id].definition], EntriesOf(journal.occs, id), store.snapshots[id], journal.next))
    }

    /** What an operation on one instance leaves of the others. */
    twostate predicate OnlyInstance(id: string)
      reads this, journal, store
    {
      && SameBut(id, old(journal.occs), old(store.rows), old(store.snapshots), journal.occs, store.rows, store.snapshots)
      && journal.next >= old(journal.next)
    }

    twostate lemma OthersStay(id: string)
      requires old(OthersKept(id)) && OnlyInstance(id) && journal.Valid() && store.Valid()
      ensures OthersKept(id)
    {
      hide InSync, SnapshotGood, Numbered;
      forall other: string | other != id ensures Kept(other) {
        assert old(Kept(other));
        if other in store.rows && other in store.snapshots {
          LaterSelf(EntriesOf(journal.occs, other), journal.next);
          SnapshotStays(defs[store.rows[other].definition], EntriesOf(journal.occs, other), EntriesOf(journal.occs, other),
            store.snapshots[other], old(journal.next), journal.next);
        }
      }
    }

    /** The records of the operation go to the journal. */
    method Journalize(id: string, rt: Runtime, from: nat)
      requires OthersKept(id) && Opened(id)
      requires from <= |rt.ctx.log| && journal.LogOf(id) == rt.ctx.log[..from]
      modifies journal
      ensures OthersKept(id) && Opened(id) && OnlyInstance(id) && journal.LogOf(id) == rt.ctx.log
    {
      hide InSync, SnapshotGood, Numbered, EntriesOf;
      ghost var before, mark := EntriesOf(journal.occs, id), journal.next;
      journal.AppendAll(id, rt.ctx.log[from..]);
      assert rt.ctx.log[..from] + rt.ctx.log[from..] == rt.ctx.log;
      OthersStay(id);
      if id in store.snapshots {
        SnapshotStays(defs[store.rows[id].definition], before, EntriesOf(journal.occs, id), store.snapshots[id], mark, journal.next);
      }
    }

    /** sync: the row is brought up to the state, then a snapshot is taken when enough
        records have passed since the last one. */
    method Sync(id: string, rt: Runtime)
      requires OthersKept(id) && Opened(id) && rt.ctx.cfg == defs[store.rows[id].definition]
      requires rt.Idle() && rt.ctx.status != Pending && !Unnamed(rt.ctx.currentEvent)
      requires journal.LogOf(id) == rt.ctx.log
      modifies store
      ensures Valid() && OnlyInstance(id) && id in store.rows && store.rows[id].definition == old(store.rows[id].definition)
    {
      hide Reach, Boundary, InSync, SnapshotGood, EntriesOf, Numbered, Shows, SameBut;
      var row := SummaryRow(id, rt);
      ShownInSync(rt.ctx, row);
      PutRow(id, row);
      ghost var rows, snaps := store.rows, store.snapshots;
      MaybeSnapshot(id, rt);
      SameSoFar(id, journal.occs, old(store.rows), old(store.snapshots), journal.occs, rows, snaps, journal.occs, store.rows, store.snapshots);
    }

    method PutRow(id: string, row: InstanceRecord)
      requires OthersKept(id) && Opened(id) && row.instance == id && row.definition == store.rows[id].definition
      modifies store
      ensures OthersKept(id) && Opened(id) && OnlyInstance(id) && store.rows == old(store.rows)[id := row]
    {
      hide InSync, SnapshotGood, EntriesOf, Numbered;
      store.Put(row);
      OthersStay(id);
    }

    method SummaryRow(id: string, rt: Runtime) returns (row: InstanceRecord)
      requires store.Valid() && id in store.rows
      ensures row.instance == id && row.definition == store.rows[id].definition && Shows(row, rt.ctx.Live())
    {
      var at := NextWakeup(rt.ctx.waitings);
      row := store.rows[id].(status := rt.ctx.status, node := rt.ctx.currentNode, wakeUpAt := at);
    }

    lemma ShownInSync(ctx: ExecutionContext, row: InstanceRecord)
      requires ctx.Tracked() && Boundary(ctx.cfg, ctx.audit) && ctx.status != Pending && !Unnamed(ctx.currentEvent)
      requires Shows(row, ctx.Live())
      ensures InSync(ctx.cfg, ctx.log, row)
    {
      hide Reach, Boundary;
      assert Shows(row, ctx.audit.st);
    }

    /** Snapshots are off, or fewer records than the threshold came after the last one. */
    ghost predicate TooFewSince(id: string)
      reads this, journal, store
    {
      || snapshotEvery.None?
      || (id in store.snapshots
          && LastSeq(EntriesOf(journal.occs, id)) - store.snapshots[id].uptoSeq
               < (if snapshotEvery.value <= 0 then DEFAULT_SNAPSHOT_EVERY else snapshotEvery.value))
    }

    /** maybeSnapshot: the live state, up to the last record, unless too few came since. */
    method MaybeSnapshot(id: string, rt: Runtime)
      requires OthersKept(id) && Opened(id) && rt.ctx.cfg == defs[store.rows[id].definition]
      requires rt.Idle() && !Unnamed(rt.ctx.currentEvent) && journal.LogOf(id) == rt.ctx.log
      modifies store
      ensures OthersKept(id) && Opened(id) && OnlyInstance(id) && store.rows == old(store.rows)
      ensures if old(TooFewSince(id)) then store.snapshots == old(store.snapshots)
        else
          && id in store.snapshots && store.snapshots[id].uptoSeq == LastSeq(EntriesOf(journal.occs, id))
          && store.snapshots[id].savepoint.st == rt.ctx.Live()
    {
      hide Reach, Boundary, InSync, SnapshotGood, EntriesOf, Numbered;
      if snapshotEvery.None? {
        return;
      }
      var threshold := if snapshotEvery.value <= 0 then DEFAULT_SNAPSHOT_EVERY else snapshotEvery.value;
      var maxSeq := journal.MaxSeq(id);
      if id in store.snapshots && maxSeq - store.snapshots[id].uptoSeq < threshold {
        return;
      }
      var savepoint := Save(rt.ctx);
      FreshSnapshotGood(rt.ctx, EntriesOf(journal.occs, id), Snapshot(maxSeq, savepoint), journal.next);
      store.PutSnapshot(id, Snapshot(maxSeq, savepoint));
      OthersStay(id);
    }

    /** A savepoint taken at the end of a log stands for all of it. */
    lemma FreshSnapshotGood(ctx: ExecutionContext, entries: seq<Entry>, snap: Snapshot, next: int)
      requires ctx.Tracked() && !Unnamed(ctx.currentEvent) && ctx.log == Occs(entries)
      requires snap.savepoint.st == ctx.Live() && Consistent(snap.savepoint)
      requires forall e <- entries :: e.seqNo <= snap.uptoSeq
      requires snap.uptoSeq <= next
      ensures SnapshotGood(ctx.cfg, entries, snap, next)
    {
      hide Reach;
      ctx.Known();
      var n: nat := |entries|;
      assert Occs(entries)[..n] == Occs(entries);
      forall i | 0 <= i < |entries| ensures entries[i].seqNo <= snap.uptoSeq {
        assert entries[i] in entries;
      }
      assert Covered(ctx.cfg, entries, snap, n);
    }

    // ------------------------------------------------------------------ operations

    /** The journal gets the records, the row the outcome. */
    method Commit(id: string, rt: Runtime, from: nat)
      requires OthersKept(id) && Opened(id) && rt.ctx.cfg == defs[store.rows[id].definition]
      requires rt.Idle() && rt.ctx.status != Pending && !Unnamed(rt.ctx.currentEvent)
      requires from <= |rt.ctx.log| && journal.LogOf(id) == rt.ctx.log[..from]
      modifies this, journal, store
      ensures Valid() && OnlyInstance(id) && id in store.rows && store.rows[id].definition == old(store.rows[id].definition)
      ensures journal.LogOf(id) == rt.ctx.log && clock == rt.ctx.clock
    {
      hide Reach, Boundary, InSync, SnapshotGood, EntriesOf, Numbered;
      clock, calls := rt.ctx.clock, rt.ctx.calls;
      Journalize(id, rt, from);
      Sync(id, rt);
    }

    /** Start: a new instance is created, started and brought in sync; a taken id and an
        unknown definition are refused without a trace. */
    method Start(definition: string, id: string, execution: string, vars: Env, ev: Event) returns (failure: Option<Failure>)
      requires Valid() && ev.name != ""
      modifies this, journal, store
      ensures Valid() && OnlyInstance(id)
      ensures failure == Some(UnknownDefinition) <==> definition !in defs
      ensures failure == Some(InstanceExists) <==> definition in defs && id in old(store.rows)
      ensures failure.Some? ==> store.rows == old(store.rows) && journal.occs == old(journal.occs)
      ensures failure.None? ==> id in store.rows && store.rows[id].definition == definition
      ensures failure.None? ==> StateOf(id).instanceID == id && StateOf(id).executionID == execution
    {
      hide Reach, Boundary, InSync, SnapshotGood, Numbered, Shows, SameBut, EntriesOf;
      SameAsNow(id, journal.occs, store.rows, store.snapshots);
      if definition !in defs {
        return Some(UnknownDefinition);
      }
      var created := Claim(definition, id);
      if !created {
        return Some(InstanceExists);
      }
      ghost var occs, rows, snaps := journal.occs, store.rows, store.snapshots;
      var rt := StartFresh(defs[definition], id, execution, vars, ev);
      Commit(id, rt, 0);
      SameSoFar(id, old(journal.occs), old(store.rows), old(store.snapshots), occs, rows, snaps, journal.occs, store.rows, store.snapshots);
      LiveIs(rt.ctx);
      failure := None;
    }

    /** CreateInstance with a pending row. */
    method Claim(definition: string, id: string) returns (created: bool)
      requires Valid() && definition in defs
      modifies store
      ensures OnlyInstance(id) && (created <==> id !in old(store.rows))
      ensures !created ==> Valid() && store.rows == old(store.rows)
      ensures created ==> OthersKept(id) && Opened(id) && store.rows[id].definition == definition && journal.LogOf(id) == []
    {
      hide InSync, SnapshotGood, Numbered;
      assert Kept(id);
      created := store.Create(InstanceRecord(id, definition, Pending, "", None));
      OthersStay(id);
      if !created {
        assert Kept(id);
      }
    }

    /** A runtime that has started; nothing of it is journalled yet. */
    method StartFresh(cfg: Config, id: string, execution: string, vars: Env, ev: Event) returns (rt: Runtime)
      requires WellFormed(cfg.def) && ev.name != ""
      ensures fresh(rt) && fresh(rt.ctx) && rt.ctx.cfg == cfg && rt.Idle() && rt.ctx.status != Pending
      ensures !Unnamed(rt.ctx.currentEvent) && rt.ctx.instanceID == id && rt.ctx.executionID == execution
    {
      hide Reach, Boundary;
      rt := new Runtime(cfg, clock);
      rt.ctx.calls := calls;
      assert rt.ctx.Tracked();
      rt.Start(id, execution, vars, ev);
    }

    lemma ShownStatus(row: InstanceRecord, st: State)
      requires Shows(row, st)
      ensures row.status == st.status
    {
    }

    /** Feed: the instance is loaded, fed, and brought in sync again. */
    method Feed(id: string, ev: Event) returns (feedback: Option<Feedback>)
      requires Valid() && ev.name != ""
      modifies this, journal, store
      ensures Valid() && OnlyInstance(id)
      ensures feedback.None? <==> id !in old(store.rows)
      ensures feedback.None? ==> store.rows == old(store.rows) && journal.occs == old(journal.occs)
      ensures feedback.Some? ==> id in store.rows && old(journal.LogOf(id)) <= journal.LogOf(id)
      ensures feedback.Some? && Refused(feedback.value) ==> journal.LogOf(id) == old(journal.LogOf(id))
      ensures feedback.Some? && !Refused(feedback.value) ==>
        |journal.LogOf(id)| > |old(journal.LogOf(id))| && Consumes(journal.LogOf(id)[|old(journal.LogOf(id))|], ev)
      ensures feedback == Some(RefusedTerminal) <==> id in old(store.rows) && IsTerminal(old(store.rows)[id].status)
    {
      hide Reach, Boundary, InSync, SnapshotGood, Numbered, EntriesOf, Shows, SameBut;
      SameAsNow(id, journal.occs, store.rows, store.snapshots);
      if id !in store.rows {
        return None;
      }
      assert Kept(id);
      ShownStatus(store.rows[id], StateOf(id));
      var rt := Load(id);
      var from := |rt.ctx.log|;
      ghost var log := rt.ctx.log;
      var f := FeedRuntime(rt, ev);
      assert rt.ctx.log[..from] == log;
      Commit(id, rt, from);
      feedback := Some(f);
    }

    /** The record takes up the event, whoever it was attributed to. */
    static predicate Consumes(o: Occ, ev: Event) {
      o.EventConsumed? && o.key == KeyOf(ev.id) && o.event.Some? && o.event.value == ev.(principal := o.event.value.principal)
    }

    method FeedRuntime(rt: Runtime, ev: Event) returns (f: Feedback)
      requires rt.Idle() && rt.ctx.status != Pending && !Unnamed(rt.ctx.currentEvent) && ev.name != ""
      modifies rt.ctx
      ensures rt.Idle() && rt.ctx.status != Pending && !Unnamed(rt.ctx.currentEvent)
      ensures old(rt.ctx.log) <= rt.ctx.log && (Refused(f) ==> rt.ctx.log == old(rt.ctx.log))
      ensures !Refused(f) ==> |rt.ctx.log| > |old(rt.ctx.log)| && Consumes(rt.ctx.log[|old(rt.ctx.log)|], ev)
      ensures f == RefusedTerminal <==> IsTerminal(old(rt.ctx.status))
    {
      hide Reach, Boundary;
      ghost var log := rt.ctx.log;
      f := rt.Feed(ev);
      NotPending(rt.ctx.cfg, log, rt.ctx.log);
    }

    /** Compensate: every completed effect with an inverse is compensated. */
    method Compensate(id: string) returns (found: bool)
      requires Valid()
      modifies this, journal, store
      ensures Valid() && OnlyInstance(id) && (found <==> id in old(store.rows))
      ensures !found ==> store.rows == old(store.rows) && journal.occs == old(journal.occs)
      ensures found ==> id in store.rows && Effects.AllCompensated(StateOf(id).undo)
      ensures found ==> old(journal.LogOf(id)) <= journal.LogOf(id)
    {
      hide Reach, Boundary, InSync, SnapshotGood, Numbered, SameBut;
      SameAsNow(id, journal.occs, store.rows, store.snapshots);
      if id !in store.rows {
        return false;
      }
      assert Kept(id);
      ghost var cfg := CfgOf(id);
      var rt := Load(id);
      var from := |rt.ctx.log|;
      ghost var log := rt.ctx.log;
      CompensateAll(rt);
      assert log[..from] == log && rt.ctx.log[..from] == log;
      NotPending(cfg, log, rt.ctx.log);
      Commit(id, rt, from);
      LiveIs(rt.ctx);
      found := true;
    }

    /** One instance of a sweep: woken when a slot of it is due. */
    method WakeOneInstance(id: string, now: int, rounds: nat) returns (advanced: bool)
      requires Valid() && id in store.rows
      modifies this, journal, store
      ensures Valid() && OnlyInstance(id) && id in store.rows && old(journal.LogOf(id)) <= journal.LogOf(id)
      ensures advanced <==> old(Due(StateOf(id).waitings, now)) != {}
      ensures !advanced ==> journal.LogOf(id) == old(journal.LogOf(id))
      ensures now <= old(clock) && rounds >= |old(Due(StateOf(id).waitings, now))| ==> Due(StateOf(id).waitings, now) == {}
      ensures clock >= old(clock) && store.rows.Keys == old(store.rows.Keys)
    {
      hide Reach, Boundary, InSync, SnapshotGood, Numbered, EntriesOf, Due, Shows, SameBut;
      assert Kept(id);
      var rt := Load(id);
      var from := |rt.ctx.log|;
      ghost var log := rt.ctx.log;
      advanced := WakeRuntime(rt, now, rounds);
      assert rt.ctx.log[..from] == log;
      Commit(id, rt, from);
      LiveIs(rt.ctx);
      SameRows(id);
    }

    twostate lemma SameRows(id: string)
      requires OnlyInstance(id) && id in store.rows && id in old(store.rows)
      ensures store.rows.Keys == old(store.rows.Keys)
    {
      hide EntriesOf;
      forall other: string ensures other in store.rows <==> other in old(store.rows) {
      }
    }

    method WakeRuntime(rt: Runtime, now: int, rounds: nat) returns (advanced: bool)
      requires rt.Idle() && rt.ctx.status != Pending && !Unnamed(rt.ctx.currentEvent)
      modifies rt.ctx
      ensures rt.Idle() && rt.ctx.status != Pending && !Unnamed(rt.ctx.currentEvent) && old(rt.ctx.log) <= rt.ctx.log
      ensures advanced <==> old(Due(rt.ctx.waitings, now)) != {}
      ensures !advanced ==> rt.ctx.log == old(rt.ctx.log)
      ensures now <= old(rt.ctx.clock) && rounds >= |old(Due(rt.ctx.waitings, now))| ==> Due(rt.ctx.waitings, now) == {}
      ensures rt.ctx.clock >= old(rt.ctx.clock)
    {
      hide Reach, Boundary, Due;
      ghost var log := rt.ctx.log;
      var at := NextWakeup(rt.ctx.waitings);
      advanced := at.Some? && at.value <= now;
      if advanced {
        var drained, served := WakeDue(rt, now, rounds);
      }
      NotPending(rt.ctx.cfg, log, rt.ctx.log);
    }

    /** The states of all instances. */
    ghost function States(): (m: map<string, State>)
      requires Valid()
      reads journal, store
      ensures m.Keys == store.rows.Keys && forall id <- m :: m[id] == StateOf(id)
    {
      map id | id in store.rows :: StateOf(id)
    }

    /** An operation on one instance does not touch the states of the others. */
    twostate lemma StatesSame(id: string)
      requires old(Valid()) && Valid() && OnlyInstance(id)
      ensures forall other <- States() :: other != id ==> other in old(States()) && States()[other] == old(States())[other]
    {
      hide Reach, Boundary, InSync, SnapshotGood, Numbered, Shows, EntriesOf;
    }

    /** What a sweep keeps. */
    ghost predicate Swept(before: map<string, State>, done: set<string>, now: int, rounds: nat, calm: bool)
      reads `clock, journal, store
    {
      Valid() && store.rows.Keys == before.Keys && (calm ==> now <= clock) && Sweeping(before, States(), done, now, rounds, calm)
    }

    method SweepOne(id: string, now: int, rounds: nat, ghost before: map<string, State>, ghost done: set<string>, ghost calm: bool)
      returns (woke: bool)
      requires Swept(before, done, now, rounds, calm) && id in before
      modifies this, journal, store
      ensures Swept(before, done + {id}, now, rounds, calm)
    {
      hide Reach, Boundary, InSync, SnapshotGood, Numbered, EntriesOf, Shows, SameBut, Due, Sweeping, StateOf, CfgOf, States, Valid;
      ghost var states := States();
      SweepRounds(before, states, done, now, rounds, calm, id);
      woke := WakeOneInstance(id, now, rounds);
      StatesSame(id);
      SweptMore(before, states, States(), done, now, rounds, calm, id);
    }

    /** WakeDueSweep: every row the store lists is loaded and woken. Without a limit, and
        with a clock that has reached `now`, no waiting instance keeps a due slot. */
    method WakeDueSweep(now: int, limit: int, rounds: nat) returns (advanced: nat)
      requires Valid()
      modifies this, journal, store
      ensures Valid() && store.rows.Keys == old(store.rows.Keys)
      ensures limit > 0 ==> advanced <= limit
      ensures limit <= 0 && now <= old(clock) && (forall id <- old(States()) :: |Due(old(States())[id].waitings, now)| <= rounds) ==>
        forall id <- States() :: old(store.rows)[id].status == Waiting ==> Due(States()[id].waitings, now) == {}
    {
      hide Reach, Boundary, InSync, SnapshotGood, Numbered, EntriesOf, Shows, Due, Sweeping, StateOf, CfgOf, States, Wakeable, SortedById, AllIn;
      ghost var before, rows := States(), store.rows;
      ghost var calm := now <= clock && forall id <- before :: |Due(before[id].waitings, now)| <= rounds;
      SweepStarts(before, now, rounds, calm);
      RowsShow();
      var listed := store.ListWakeable(now, limit);
      ListedIn(listed, rows);
      ghost var done;
      advanced, done := SweepRows(listed, now, rounds, before, calm);
      if limit <= 0 && calm {
        SweptAll(before, States(), rows, listed, done, now, rounds);
      }
    }

    method SweepRows(listed: seq<InstanceRecord>, now: int, rounds: nat, ghost before: map<string, State>, ghost calm: bool)
      returns (advanced: nat, ghost done: set<string>)
      requires Swept(before, {}, now, rounds, calm) && AllIn(listed, |listed|, before.Keys)
      modifies this, journal, store
      ensures Swept(before, done, now, rounds, calm) && AllIn(listed, |listed|, done) && advanced <= |listed|
    {
      hide Swept, AllIn;
      advanced, done := 0, {};
      NoneIn(listed);
      for i := 0 to |listed|
        invariant Swept(before, done, now, rounds, calm) && AllIn(listed, i, done) && advanced <= i
      {
        InAt(listed, |listed|, before.Keys, i);
        OneMoreIn(listed, i, done);
        var woke := SweepOne(listed[i].instance, now, rounds, before, done, calm);
        done := done + {listed[i].instance};
        advanced := if woke then advanced + 1 else advanced;
      }
    }

    /** Rows that are not listed have no due slot. */
    lemma RowsShow()
      requires Valid()
      ensures forall id <- store.rows :: store.rows[id].instance == id && Shows(store.rows[id], States()[id])
    {
      hide InSync, Shows, StateOf;
    }
  }

  /** How far a sweep has come: the instances of `done` have no due slot left, if the sweep
      is `calm`; the others are as they were. */
  ghost predicate Sweeping(before: map<string, State>, states: map<string, State>, done: set<string>, now: int, rounds: nat, calm: bool) {
    && before.Keys == states.Keys
    && (forall id <- before :: id !in done ==> states[id] == before[id])
    && (calm ==> forall id <- before ::
          |Due(before[id].waitings, now)| <= rounds && (id in done ==> Due(states[id].waitings, now) == {}))
  }

  predicate AllIn(listed: seq<InstanceRecord>, n: nat, ids: set<string>)
    requires n <= |listed|
  {
    forall k | 0 <= k < n :: listed[k].instance in ids
  }

  lemma NoneIn(listed: seq<InstanceRecord>)
    ensures AllIn(listed, 0, {})
  {
  }

  lemma InAt(listed: seq<InstanceRecord>, n: nat, ids: set<string>, k: nat)
    requires k < n <= |listed| && AllIn(listed, n, ids)
    ensures listed[k].instance in ids
  {
  }

  lemma OneMoreIn(listed: seq<InstanceRecord>, n: nat, ids: set<string>)
    requires n < |listed| && AllIn(listed, n, ids)
    ensures AllIn(listed, n + 1, ids + {listed[n].instance})
  {
  }

  lemma ListedIn(listed: seq<InstanceRecord>, rows: map<string, InstanceRecord>)
    requires forall r <- listed :: r.instance in rows
    ensures AllIn(listed, |listed|, rows.Keys)
  {
  }

  lemma SweepStarts(before: map<string, State>, now: int, rounds: nat, calm: bool)
    requires calm ==> forall id <- before :: |Due(before[id].waitings, now)| <= rounds
    ensures Sweeping(before, before, {}, now, rounds, calm)
  {
  }

  lemma SweepRounds(before: map<string, State>, states: map<string, State>, done: set<string>, now: int, rounds: nat, calm: bool, id: string)
    requires Sweeping(before, states, done, now, rounds, calm) && id in states
    ensures calm ==> |Due(states[id].waitings, now)| <= rounds
  {
  }

  lemma SweptMore(before: map<string, State>, states: map<string, State>, after: map<string, State>, done: set<string>,
              now: int, rounds: nat, calm: bool, id: string)
    requires Sweeping(before, states, done, now, rounds, calm) && id in states && after.Keys == states.Keys
    requires forall other <- after :: other != id ==> after[other] == states[other]
    requires calm ==> Due(after[id].waitings, now) == {}
    ensures Sweeping(before, after, done + {id}, now, rounds, calm)
  {
    hide Due;
  }

  lemma SweptAll(before: map<string, State>, states: map<string, State>, rows: map<string, InstanceRecord>,
                 listed: seq<InstanceRecord>, done: set<string>, now: int, rounds: nat)
    requires Sweeping(before, states, done, now, rounds, true) && rows.Keys == before.Keys
    requires forall id <- rows :: rows[id].instance == id && Shows(rows[id], before[id])
    requires forall id <- rows :: Wakeable(rows[id], now) ==> rows[id] in listed
    requires AllIn(listed, |listed|, done)
    ensures forall id <- states :: rows[id].status == Waiting ==> Due(states[id].waitings, now) == {}
  {
    hide Due;
    forall id | id in states && rows[id].status == Waiting ensures Due(states[id].waitings, now) == {} {
      if Wakeable(rows[id], now) {
        var k :| 0 <= k < |listed| && listed[k] == rows[id];
        assert id in done;
      }
    }
  }
}
