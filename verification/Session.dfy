/**
 Whole runs of one instance: one Start and then any sequence of events, wake-ups,
 compensations and restarts from the log. At every operation boundary of every run the
 live context is the fold of the log so far.
 */
module Session {
  import opened Definition
  import opened Journal
  import opened Protocol
  import opened Runs
  import opened Frames
  import opened Context
  import opened Effects
  import opened Engine
  import opened Replay
  import opened Guarantees
  import opened Temporal
  import Meaning
  import Outbox

  /** What the host asks for between two boundaries. `Restart` resumes another runtime from
      the log; the run goes on with it unless an event without a name was live. */
  datatype Op =
    | Deliver(event: Event)
    | Tick(now: int, rounds: nat)
    | Undo
    | Restart(now: int)

  /** A boundary of a run: the length of the log, the live state, the most keys ever. */
  datatype Point = Point(length: nat, live: State, peak: nat)

  ghost function PointOf(ctx: ExecutionContext): Point
    reads ctx
  {
    Point(|ctx.log|, ctx.Live(), ctx.audit.peak)
  }

  /** The log folds, at the point's length, to the point's live state. */
  ghost predicate Faithful(def: ProcessDef, log: seq<Occ>, p: Point) {
    p.length <= |log| && Exact(def, log[..p.length], p.live, p.peak)
  }

  ghost predicate AllFaithful(def: ProcessDef, log: seq<Occ>, points: seq<Point>) {
    && (forall i | 0 <= i < |points| :: Faithful(def, log, points[i]))
    && forall i, j | 0 <= i < j < |points| :: points[i].length <= points[j].length
  }

  lemma FaithfulLater(def: ProcessDef, log: seq<Occ>, longer: seq<Occ>, points: seq<Point>)
    requires AllFaithful(def, log, points) && log <= longer
    ensures AllFaithful(def, longer, points)
  {
    hide Exact;
    forall i | 0 <= i < |points| ensures Faithful(def, longer, points[i]) {
      assert Faithful(def, log, points[i]);
      assert longer[..points[i].length] == log[..points[i].length];
    }
  }

  lemma FaithfulNow(def: ProcessDef, log: seq<Occ>, points: seq<Point>, p: Point)
    requires AllFaithful(def, log, points) && p.length == |log| && Exact(def, log, p.live, p.peak)
    ensures AllFaithful(def, log, points + [p])
  {
    hide Exact;
    assert log[..p.length] == log;
  }

  /** Compensate, called by the host: whatever the status, every completed effect that
      declared an inverse is compensated afterwards, each entry once, latest first. */
  method CompensateAll(rt: Runtime)
    requires rt.Idle()
    modifies rt.ctx
    ensures rt.Idle() && old(rt.ctx.log) <= rt.ctx.log
    ensures SameEntries(old(rt.ctx.undoStack), rt.ctx.undoStack) && AllCompensated(rt.ctx.undoStack)
    ensures FiredSince(old(rt.ctx.audit), rt.ctx.audit, Backlog(old(rt.ctx.undoStack), |old(rt.ctx.undoStack)|))
    ensures old(AllCompensated(rt.ctx.undoStack)) ==> rt.ctx.results == old(rt.ctx.results) && rt.ctx.undoStack == old(rt.ctx.undoStack)
    ensures OnlyCommands(old(rt.ctx.audit), rt.ctx.audit) && rt.ctx.processedEvents == old(rt.ctx.processedEvents)
    ensures rt.ctx.clock == old(rt.ctx.clock)
  {
    hide Reach, Legal, Advance, Apply, Boundary, AtRest, FiredSince;
    ghost var a := rt.ctx.audit;
    BoundaryOwed(rt.ctx.cfg, a);
    Compensate(rt.ctx);
    NothingLeft(a, rt.ctx.audit);
    CompensatedBoundary(rt.ctx.cfg, a, rt.ctx.audit);
  }

  lemma CompensatedBoundary(cfg: Config, a: Audit, b: Audit)
    requires Boundary(cfg, a) && OnlyCommands(a, b) && SameEntries(a.st.undo, b.st.undo)
    requires AllCompensated(a.st.undo) ==> b.st.results == a.st.results && b.st.undo == a.st.undo
    ensures Boundary(cfg, b)
  {
  }

  lemma {:induction false} EmptyBacklog(undo: seq<UndoEntry>, n: nat)
    requires n <= |undo| && AllCompensated(undo)
    ensures Backlog(undo, n) == []
  {
    if n > 0 {
      EmptyBacklog(undo, n - 1);
    }
  }

  /** A second compensation finds nothing to fire. */
  lemma NothingLeft(a: Audit, b: Audit)
    requires FiredSince(a, b, Backlog(a.st.undo, |a.st.undo|)) && SameEntries(a.st.undo, b.st.undo)
    ensures AllCompensated(a.st.undo) ==> b.st.results == a.st.results && b.st.undo == a.st.undo
  {
    if AllCompensated(a.st.undo) {
      EmptyBacklog(a.st.undo, |a.st.undo|);
    }
  }

  /** Between operations a started instance never runs: it waits at a waiting node or in a
      fork that is neither converged, nor exhausted, nor failed fast, or it is over. Its
      slots are where they belong. */
  lemma RestingShape(cfg: Config, log: seq<Occ>)
    requires WellFormed(cfg.def) && Reach(cfg, log).Some? && Boundary(cfg, Reach(cfg, log).value)
    requires Reach(cfg, log).value.st.status != Pending
    ensures Fold(cfg.def, log) == Some(Reach(cfg, log).value.st)
    ensures var st := Fold(cfg.def, log).value;
      && st.status in {Waiting, Completed, Failed, TimedOut}
      && |st.scopes| <= 1
      && (Instance in st.waitings ==> st.scopes == [] && st.waitings[Instance].node == st.node)
      && (forall f: string :: ScopeSlot(f) in st.waitings ==> |st.scopes| == 1 && st.scopes[0].fork == f)
      && (st.status == Waiting && st.scopes == [] ==> WaitsAt(cfg.def, st.node))
      && (st.status == Waiting && st.scopes != [] ==>
            var s := st.scopes[0];
            && (exists b <- s.branches :: !s.branches[b].done)
            && (s.mode == Any ==> forall b <- s.branches :: s.branches[b].status != Completed)
            && (s.mode == NofM ==> var n := |set b | b in s.branches && s.branches[b].status == Completed|; n < 1 || n < s.required)
            && (s.failFast ==> forall b <- s.branches :: s.branches[b].status != Failed))
  {
    hide Reach, Satisfied, Formed, IdsBounded, SagaTracked;
    ReachSane(cfg, log);
    var st := Reach(cfg, log).value.st;
    if st.status == Waiting && st.scopes != [] {
      Meaning.SatisfiedMeaning(st.scopes[0]);
      assert forall b <- st.scopes[0].branches :: st.scopes[0].branches[b].status == Failed ==> b in FailedSet(st.scopes[0]);
    }
    if Instance in st.waitings {
      assert SlotFormed(cfg.def, st, Instance, st.waitings[Instance]);
    }
  }

  /** Between operations no command is unanswered, every command was issued once, and the
      undo stack is the declared inverses of the completed commands. */
  lemma RestingBooks(cfg: Config, log: seq<Occ>)
    requires WellFormed(cfg.def) && Reach(cfg, log).Some? && Boundary(cfg, Reach(cfg, log).value)
    ensures Outstanding(log) == map[] && NoReissue(log)
    ensures FreshIds(log)
    ensures Fold(cfg.def, log).Some?
    ensures var undo, inverses := Fold(cfg.def, log).value.undo, InversesOf(log);
      && |undo| == |inverses|
      && forall p | 0 <= p < |undo| :: undo[p] == UndoOf(inverses[p], p).(done := undo[p].done)
  {
    hide Reach, Legal, Advance, Fold, InversesOf, FreshIds;
    OutboxOf(cfg, log);
    IdsAreFresh(cfg, log);
    LossShows(cfg, log);
    NeverReissued(cfg, log);
    SagaExact(cfg, log);
  }

  lemma NotPending(cfg: Config, before: seq<Occ>, log: seq<Occ>)
    requires before <= log && Reach(cfg, before).Some? && Reach(cfg, log).Some?
    requires Reach(cfg, before).value.st.status != Pending
    ensures Reach(cfg, log).value.st.status != Pending
  {
    hide Reach;
    assert log[..|before|] == before && log[..|log|] == log;
    StartedForGood(cfg, log, |before|, |log|);
  }

  /** One operation at a boundary; a restart may hand back another runtime. */
  method Perform(rt: Runtime, op: Op) returns (next: Runtime)
    requires rt.Idle()
    modifies rt.ctx
    ensures next.Idle() && next.ctx.cfg == rt.ctx.cfg && (next.ctx == rt.ctx || fresh(next.ctx))
    ensures old(rt.ctx.log) <= next.ctx.log
    ensures old(|rt.ctx.processedEvents|) <= MAX_EVENTS && !op.Restart? ==> |next.ctx.processedEvents| <= MAX_EVENTS
    ensures op.Deliver? && old(rt.Takes(rt.Attribute(op.event))) ==> |next.ctx.log| > |old(rt.ctx.log)|
    ensures op.Deliver? && !old(rt.Takes(rt.Attribute(op.event))) ==> next.ctx.log == old(rt.ctx.log)
    ensures op.Tick? && op.now <= old(rt.ctx.clock) && op.rounds >= old(|Due(rt.ctx.waitings, op.now)|) ==>
      Due(next.ctx.waitings, op.now) == {}
    ensures op.Tick? && old(Due(rt.ctx.waitings, op.now)) == {} ==> next.ctx.log == old(rt.ctx.log)
    ensures op.Undo? ==> AllCompensated(next.ctx.undoStack) && OnlyCommands(old(rt.ctx.audit), next.ctx.audit)
    ensures op.Restart? ==> next.ctx.log == old(rt.ctx.log) && next.ctx.audit == old(rt.ctx.audit)
    ensures FreshIds(next.ctx.log) && NoReissue(next.ctx.log) && Outstanding(next.ctx.log) == map[]
  {
    hide Reach, Legal, Advance, Apply, Boundary, AtRest, Due, AllCompensated, FreshIds, NoReissue, Outstanding, OnlyCommands;
    next := rt;
    match op {
      case Deliver(event) =>
        var f := rt.Feed(event);
      case Tick(now, rounds) =>
        var drained, served := WakeDue(rt, now, rounds);
      case Undo =>
        CompensateAll(rt);
      case Restart(now) =>
        var resumed := Reopen(rt, now);
        if !Unnamed(rt.ctx.currentEvent) {
          next := resumed;
        }
    }
    RestingBooks(next.ctx.cfg, next.ctx.log);
  }

  /** A restart: the state is dropped and folded again from the log. Everything comes back as
      it was, but for dedup keys the table had dropped, which come back too, and for a live
      event without a name, which is lost. */
  method Reopen(rt: Runtime, now: int) returns (next: Runtime)
    requires rt.Idle()
    ensures fresh(next) && fresh(next.ctx) && next.ctx.cfg == rt.ctx.cfg && next.ctx.log == rt.ctx.log
    ensures next.ctx.Live() == rt.ctx.Live().(keys := next.ctx.processedEvents.Keys, event := next.ctx.currentEvent)
    ensures rt.ctx.processedEvents.Keys <= next.ctx.processedEvents.Keys
    ensures rt.ctx.audit.peak <= MAX_EVENTS ==> rt.ctx.processedEvents.Keys == next.ctx.processedEvents.Keys
    ensures next.ctx.currentEvent == rt.ctx.currentEvent <==> !Unnamed(rt.ctx.currentEvent)
    ensures !Unnamed(rt.ctx.currentEvent) ==> next.Idle() && next.ctx.audit == rt.ctx.audit
  {
    hide Reach, Legal, Advance, Apply, Boundary, AtRest;
    rt.ctx.Known();
    var resumed := Resume(rt.ctx.cfg, rt.ctx.log, now, rt.ctx.calls);
    next := resumed.value;
  }

  lemma NoRestart(ops: seq<Op>)
    requires Restarts(ops) == {}
    ensures forall k | 0 <= k < |ops| :: !ops[k].Restart?
  {
    forall k | 0 <= k < |ops| ensures !ops[k].Restart? {
      assert ops[k].Restart? ==> k in Restarts(ops);
    }
  }

  /** The start of a run: its first boundary. */
  method Begin(cfg: Config, now: int, instance: string, execution: string, vars: Env, event: Event) returns (rt: Runtime)
    requires WellFormed(cfg.def)
    ensures rt.Idle() && rt.ctx.cfg == cfg && fresh(rt.ctx) && rt.ctx.status != Pending
    ensures AllFaithful(cfg.def, rt.ctx.log, [PointOf(rt.ctx)]) && |rt.ctx.processedEvents| <= MAX_EVENTS
  {
    hide Reach, Legal, Advance, Apply, Boundary, AtRest, AllFaithful, Exact;
    rt := new Runtime(cfg, now);
    rt.Start(instance, execution, vars, event);
    rt.ctx.Known();
    NoPoints(cfg.def, rt.ctx.log);
    FaithfulNow(cfg.def, rt.ctx.log, [], PointOf(rt.ctx));
    assert [] + [PointOf(rt.ctx)] == [PointOf(rt.ctx)];
  }

  /** Any run: its log is reachable, folds exactly at every boundary passed, and the
      dedup table stays within its capacity unless it was rebuilt from the log. */
  method Run(cfg: Config, now: int, instance: string, execution: string, vars: Env, event: Event, ops: seq<Op>)
    returns (rt: Runtime, ghost points: seq<Point>)
    requires WellFormed(cfg.def)
    ensures rt.Idle() && rt.ctx.cfg == cfg && fresh(rt.ctx)
    ensures |points| == |ops| + 1 && AllFaithful(cfg.def, rt.ctx.log, points)
    ensures rt.ctx.status != Pending
    ensures points[|ops|] == PointOf(rt.ctx)
    ensures Restarts(ops) == {} ==> |rt.ctx.processedEvents| <= MAX_EVENTS
    ensures FreshIds(rt.ctx.log) && NoReissue(rt.ctx.log) && Outstanding(rt.ctx.log) == map[]
  {
    hide Reach, Legal, Advance, Apply, Boundary, AtRest, AllFaithful, Exact, FreshIds, NoReissue, Outstanding, OnlyCommands, Due, AllCompensated;
    rt := Begin(cfg, now, instance, execution, vars, event);
    points := [PointOf(rt.ctx)];
    var i := 0;
    while i < |ops|
      invariant i <= |ops| && rt.Idle() && rt.ctx.cfg == cfg && fresh(rt.ctx) && rt.ctx.status != Pending
      invariant |points| == i + 1 && AllFaithful(cfg.def, rt.ctx.log, points) && points[i] == PointOf(rt.ctx)
      invariant (forall k | 0 <= k < i :: !ops[k].Restart?) ==> |rt.ctx.processedEvents| <= MAX_EVENTS
    {
      ghost var log := rt.ctx.log;
      rt := Perform(rt, ops[i]);
      NotPending(cfg, log, rt.ctx.log);
      FaithfulLater(cfg.def, log, rt.ctx.log, points);
      rt.ctx.Known();
      FaithfulNow(cfg.def, rt.ctx.log, points, PointOf(rt.ctx));
      points := points + [PointOf(rt.ctx)];
      i := i + 1;
    }
    RestingBooks(cfg, rt.ctx.log);
    if Restarts(ops) == {} {
      NoRestart(ops);
    }
  }

  /** A run that dies with any record the last one in the journal, the executor having been
      handed any of the commands then unanswered; reloaded by processes that may die and
      work on; and reloaded at last by one that lives: every command of a known type that
      was ever issued has happened exactly once. Since the cut a command was answered as skipped
      exactly when a death had come between it and its answer, and one that was performed has
      its declared inverse in the log exactly when it was answered as completed. */
  method CrashAnywhere(
      cfg: Config, now: int, instance: string, execution: string, vars: Env, event: Event, ops: seq<Op>,
      cut: nat, handled: set<CommandId>, known: set<string>, lives: seq<Outbox.Life>)
    returns (rt: Runtime, ex: Outbox.MemoryExecutor, log: seq<Occ>)
    requires WellFormed(cfg.def) && forall l <- lives :: Outbox.Obeys(cfg, l.program)
    ensures rt.Idle() && rt.ctx.cfg == cfg && (cut <= |rt.ctx.log| ==> rt.ctx.log[..cut] <= log)
    ensures Reach(cfg, log).Some? && Outstanding(log) == map[] && Outbox.OnceEach(log, known, ex.performed)
    ensures Outbox.Ledger(cfg, log, if cut <= |rt.ctx.log| then cut else |rt.ctx.log|, ex.executed, ex.cut)
    ensures forall c <- ex.performed :: c.compensation.Some? ==> (Outbox.HasInverse(log, c.id) <==> Outbox.AnsweredCompleted(log, c.id))
  {
    hide Reach, Legal, Advance, Apply, Boundary, AllFaithful, FreshIds, NoReissue, Outstanding, Outbox.Agrees, Outbox.OnceEach, Outbox.Obeys, Outbox.Ledger, Outbox.HasInverse, Outbox.AnsweredCompleted;
    ghost var points;
    rt, points := Run(cfg, now, instance, execution, vars, event, ops);
    var length := if cut <= |rt.ctx.log| then cut else |rt.ctx.log|;
    ReachPrefix(cfg, rt.ctx.log, length);
    ex := Outbox.Executed(cfg, rt.ctx.log[..length], known, handled);
    log := Outbox.Outlive(cfg, rt.ctx.log[..length], ex, lives, length);
    forall c | c in ex.performed && c.compensation.Some? ensures Outbox.HasInverse(log, c.id) <==> Outbox.AnsweredCompleted(log, c.id) {
      Outbox.PerformedUndone(cfg, log, ex, c);
    }
  }

  /** At any boundary of any run, and for any command sent so far that declares an inverse: had
      the process died right after the executor performed it, the inverse would have been lost,
      whoever reloads the instance. The command happened, is answered as skipped, and is
      compensated by nothing. */
  method LoseInverseAt(rt: Runtime, k: nat, known: set<string>) returns (ex: Outbox.MemoryExecutor, log: seq<Occ>)
    requires rt.Idle() && k < |rt.ctx.log| && InverseDeclared(rt.ctx.log[k], known)
    ensures Reach(rt.ctx.cfg, log).Some? && rt.ctx.log[..k] <= log && Outstanding(log) == map[]
    ensures InverseLost(rt.ctx.cfg, log, ex.performed, rt.ctx.log[k].command)
  {
    hide Reach, Legal, Advance, Apply, Boundary, Outstanding, Outbox.Agrees, Outbox.Ledger, Outbox.HasInverse, FreshIds;
    RestingBooks(rt.ctx.cfg, rt.ctx.log);
    ReachPrefix(rt.ctx.cfg, rt.ctx.log, k);
    FirstIssue(rt.ctx.cfg, rt.ctx.log, k);
    ex := Outbox.Executed(rt.ctx.cfg, rt.ctx.log[..k], known, {});
    log := Outbox.LoseInverse(rt.ctx.cfg, rt.ctx.log[..k], rt.ctx.log[k].command, ex);
  }

  predicate InverseDeclared(o: Occ, known: set<string>) {
    o.CommandIssued? && o.command.kind in known && o.command.compensation.Some?
  }

  /** The command was performed, and its inverse is neither in the log nor on the undo stack. */
  ghost predicate InverseLost(cfg: Config, log: seq<Occ>, performed: seq<Command>, cmd: Command)
    requires Reach(cfg, log).Some?
  {
    && Outbox.PerformedOnce(performed, cmd) && !Outbox.HasInverse(log, cmd.id)
    && forall u <- Reach(cfg, log).value.st.undo :: u.command != cmd.id
  }

  lemma FirstIssue(cfg: Config, log: seq<Occ>, k: nat)
    requires Reach(cfg, log).Some? && FreshIds(log) && k < |log| && log[k].CommandIssued?
    ensures Reach(cfg, log[..k]).Some?
    ensures IssueLegal(cfg, Reach(cfg, log[..k]).value, log[k].command)
    ensures log[k].command.id !in Reach(cfg, log[..k]).value.issued
  {
    hide Reach, IssueLegal;
    ReachPrefix(cfg, log, k);
    AtNext(cfg, log, k);
    assert FreshIds(log[..k]);
    NoSecondIssue(cfg, log[..k]);
    forall i | 0 <= i < k && log[..k][i].CommandIssued? ensures log[..k][i].command.id != log[k].command.id {
      assert log[..k][i] == log[i];
    }
  }

  function Restarts(ops: seq<Op>): set<nat> {
    set k | 0 <= k < |ops| && ops[k].Restart?
  }

  lemma NoPoints(def: ProcessDef, log: seq<Occ>)
    ensures AllFaithful(def, log, [])
  {
  }

  /** Time travel: folding the stored records up to the number written at a boundary
      gives the live state of that moment. */
  method TravelTo(def: ProcessDef, entries: seq<Entry>, ghost points: seq<Point>, ghost k: nat, upto: int)
    returns (s: Option<State>)
    requires Increasing(entries) && AllFaithful(def, Occs(entries), points) && k < |points|
    requires 0 < points[k].length && upto == entries[points[k].length - 1].seqNo
    ensures s.Some? && Exact(def, Occs(entries)[..points[k].length], points[k].live, points[k].peak)
    ensures s == Fold(def, Occs(entries)[..points[k].length])
    ensures points[k].peak <= MAX_EVENTS && !Unnamed(points[k].live.event) ==> s == Some(points[k].live)
  {
    s := FoldTo(def, entries, upto);
    ghost var p := points[k];
    assert Faithful(def, Occs(entries), p);
    CutMeaning(entries, upto, p.length);
  }
}
