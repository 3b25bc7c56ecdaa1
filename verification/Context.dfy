/**
 The execution context (dsl/context.go): the live state of one instance and the
 primitives that change it. Every primitive changes its fields and appends one record;
 its contract says that the fields now hold exactly what replaying that record gives,
 and its precondition that the protocol allows the record.
 */
module Context {
  import opened Definition
  import opened Journal
  import opened Protocol
  import opened Runs
  import opened Frames
  import Dedup

  /** A live state is the fold of a log: exactly, except for the current event while an
      unnamed one is live, and for dedup keys once their number passed the table's
      capacity. */
  ghost predicate Exact(def: ProcessDef, log: seq<Occ>, live: State, peak: nat) {
    && Fold(def, log).Some?
    && var f := Fold(def, log).value;
       && live == f.(event := live.event, keys := live.keys)
       && (f.event == live.event <==> !Unnamed(live.event))
       && live.keys <= f.keys
       && (peak <= MAX_EVENTS ==> live.keys == f.keys)
  }

  class ExecutionContext {
    const cfg: Config

    var instanceID: string
    var executionID: string
    var currentNode: string
    var status: Status
    var variables: Env
    var currentEvent: Option<Event>
    var scopes: seq<Scope>
    var waitings: map<Slot, WaitingState>
    var results: seq<SideEffectResult>
    var undoStack: seq<UndoEntry>
    var visitCounts: map<string, nat>
    var processedEvents: map<Key, int>

    /** The journal of this instance. */
    var log: seq<Occ>
    /** The last reading of the wall clock, which never runs backwards. */
    var clock: int
    /** How often the executor was called. */
    var calls: nat

    /** The protocol's observer of `log`. */
    ghost var audit: Audit

    ghost function Live(): State
      reads this
    {
      State(instanceID, executionID, currentNode, status, variables, currentEvent, scopes,
            waitings, results, undoStack, visitCounts, processedEvents.Keys)
    }

    /** The live context is the fold of the log. */
    ghost predicate FoldExact()
      reads this
    {
      Exact(cfg.def, log, Live(), audit.peak)
    }

    ghost predicate Tracked()
      reads this`instanceID, this`executionID, this`currentNode, this`status, this`variables
      reads this`currentEvent, this`scopes, this`waitings, this`results, this`undoStack
      reads this`visitCounts, this`processedEvents, this`log, this`audit
    {
      && WellFormed(cfg.def)
      && Reach(cfg, log) == Some(audit)
      && audit.st.instanceID == instanceID && audit.st.executionID == executionID
      && audit.st.node == currentNode && audit.st.status == status
      && audit.st.vars == variables && audit.st.scopes == scopes
      && audit.st.waitings == waitings && audit.st.visits == visitCounts
      && audit.st.results == results && audit.st.undo == undoStack
      && audit.event == currentEvent
      && Covers(processedEvents, audit.st.keys, audit.peak)
    }

    lemma Known()
      requires Tracked()
      ensures Sane(cfg, audit)
      ensures FoldExact()
    {
      ReachSane(cfg, log);
    }

    lemma UndoKeys()
      requires Tracked()
      ensures UndoKeyed(audit.st)
    {
      ReachSane(cfg, log);
    }

    lemma IssuedUnresolved()
      requires Tracked()
      ensures audit.resolved <= audit.issued.Keys
    {
      ReachSane(cfg, log);
    }

    lemma IdsKnown()
      requires Tracked()
      ensures IdsBounded(audit)
    {
      ReachSane(cfg, log);
    }

    lemma ScopesKnown()
      requires Tracked()
      ensures ScopesFormed(cfg.def, audit.st)
    {
      ReachSane(cfg, log);
    }

    lemma SlotsKnown()
      requires Tracked()
      ensures SlotsFormed(cfg.def, audit.st)
    {
      ReachSane(cfg, log);
    }

    lemma NotFiredYet(i: nat)
      requires Tracked() && i < |undoStack| && !undoStack[i].done
      ensures undoStack[i].key.UndoCommand? && undoStack[i].key.position == i
      ensures undoStack[i].key !in audit.issued && undoStack[i].key !in audit.resolved
    {
      ReachSane(cfg, log);
    }

    /** Exactly one record was appended and the fields hold its effect. */
    twostate predicate Recorded(o: Occ)
      reads this
    {
      && Tracked()
      && log == old(log) + [o]
      && audit == Advance(old(audit), o)
      && calls == old(calls)
    }

    constructor (cfg: Config, now: int)
      requires WellFormed(cfg.def)
      ensures this.cfg == cfg && clock == now && calls == 0
      ensures Tracked() && log == [] && audit == NewAudit(cfg)
      ensures processedEvents == map[]
    {
      this.cfg := cfg;
      instanceID, executionID, currentNode, status := "", "", "", Pending;
      variables, currentEvent, scopes, waitings := cfg.def.varInit, None, [], map[];
      results, undoStack, visitCounts, processedEvents := [], [], map[], map[];
      log, clock, calls := [], now, 0;
      audit := NewAudit(cfg);
    }

    /** time.Now(). */
    method Now() returns (t: int)
      modifies this`clock
      ensures t == clock >= old(clock)
    {
      t :| t >= clock;
      clock := t;
    }

    function VisitOf(n: string): nat
      reads this
    {
      VisitsOf(visitCounts, n)
    }

    /** record: appends one fact that the protocol allows now. */
    method Record(o: Occ)
      requires Reach(cfg, log) == Some(audit) && Legal(cfg, audit, o)
      requires WellFormed(cfg.def)
      modifies this`log, this`audit
      ensures log == old(log) + [o]
      ensures Reach(cfg, log) == Some(audit) && audit == Advance(old(audit), o)
      ensures Apply(old(audit.st), o) == Some(audit.st)
      ensures audit.event == NextEvent(old(audit), o)
      ensures audit.peak == Max(|audit.st.keys|, old(audit.peak))
      ensures |old(audit.st.keys)| <= old(audit.peak)
    {
      ReachNext(cfg, log, audit, o);
      ReachSane(cfg, log);
      KeepsSane(cfg, audit, o);
      log := log + [o];
      audit := Advance(audit, o);
    }

    lemma StartAdvance(cfg: Config, a: Audit, instance: string, execution: string)
      requires a == NewAudit(cfg)
      ensures var b := Advance(a, Started(instance, execution));
        && Legal(cfg, a, Started(instance, execution))
        && b.st == a.st.(instanceID := instance, executionID := execution) && b.event == a.event
        && b.peak == a.peak && b.moves == a.moves && b.landing == a.landing
    {
    }

    lemma VisitAdvance(cfg: Config, a: Audit, n: string)
      requires n in cfg.def.nodes && VisitLegal(cfg, a, n)
      ensures var b := Advance(a, NodeVisited(n));
        && Legal(cfg, a, NodeVisited(n))
        && (Ready(a) ==> SameBook(a, b))
        && b.event == a.event && b.waking == a.waking && b.moment == Visited(n, a.st.vars) && b.steps == a.steps + 1 && b.landing == a.landing && b.moves == a.moves
        && b.st == a.st.(visits := a.st.visits[n := VisitsOf(a.st.visits, n) + 1])
    {
    }

    method RecordStarted(instance: string, execution: string)
      requires Tracked() && audit == NewAudit(cfg)
      modifies this
      ensures Recorded(Started(instance, execution)) && clock == old(clock) && audit.moves == 0 && audit.landing == None
      ensures processedEvents == old(processedEvents)
    {
      hide Reach, Covers, Legal, Advance, Apply;
      StartAdvance(cfg, audit, instance, execution);
      instanceID, executionID := instance, execution;
      Record(Started(instance, execution));
    }

    method SetStatus(s: Status)
      requires Tracked() && StatusLegal(cfg, audit, s)
      modifies this
      ensures Recorded(StatusSet(s)) && clock == old(clock)
      ensures processedEvents == old(processedEvents)
      ensures Ready(old(audit)) ==> SameBook(old(audit), audit) && SameStep(old(audit), audit)
      ensures audit.st == old(audit.st).(status := s)
    {
      hide Reach, Covers, TransitionLegal, StatusLegal, VariableLegal, PushLegal, BranchLegal, SlotLegal, IssueLegal, Admissible, WakeLegal, WokeLegal, NodeSetLegal;
      status := s;
      Record(StatusSet(s));
    }

    method SetNode(n: string)
      requires Tracked() && NodeSetLegal(cfg, audit, n)
      modifies this
      ensures Recorded(NodeSet(n)) && clock == old(clock)
      ensures processedEvents == old(processedEvents)
      ensures Ready(old(audit)) ==> SameBook(old(audit), audit)
      ensures audit.event == old(audit.event) && audit.moment == old(audit.moment) && audit.waking == old(audit.waking)
      ensures audit.landing == Some(old(variables)) && audit.steps == 0 && audit.popped == None
      ensures audit.moves == old(audit.moves) + 1
      ensures audit.st == old(audit.st).(node := n)
    {
      hide Reach, Covers, TransitionLegal, StatusLegal, VariableLegal, PushLegal, BranchLegal, SlotLegal, IssueLegal, Admissible, WakeLegal, WokeLegal, NodeSetLegal;
      currentNode := n;
      Record(NodeSet(n));
    }

    /** assignTransition, after its setStatus. */
    method RecordTransition(from: string, to: string, name: string)
      requires Tracked() && TransitionLegal(cfg, audit, from, to, name)
      requires status == Running
      modifies this
      ensures Recorded(Transitioned(from, to, name)) && clock == old(clock)
      ensures processedEvents == old(processedEvents)
      ensures Ready(old(audit)) ==> SameBook(old(audit), audit) && SameCourse(old(audit), audit) && audit.landing == None
      ensures audit.st == old(audit.st).(node := to)
    {
      hide Reach, Covers, TransitionLegal, StatusLegal, VariableLegal, PushLegal, BranchLegal, SlotLegal, IssueLegal, Admissible, WakeLegal, WokeLegal, NodeSetLegal;
      currentNode := to;
      Record(Transitioned(from, to, name));
    }

    method SetVariable(name: string, v: Value)
      requires Tracked() && VariableLegal(cfg, audit, name, v)
      modifies this
      ensures Recorded(VariableSet(name, v)) && clock == old(clock)
      ensures processedEvents == old(processedEvents)
      ensures Ready(old(audit)) ==> SameBook(old(audit), audit) && SameStep(old(audit), audit)
      ensures audit.st == old(audit.st).(vars := old(variables)[name := v])
    {
      hide Reach, Covers, TransitionLegal, StatusLegal, VariableLegal, PushLegal, BranchLegal, SlotLegal, IssueLegal, Admissible, WakeLegal, WokeLegal, NodeSetLegal;
      variables := variables[name := v];
      Record(VariableSet(name, v));
    }

    method IncrVisit(n: string) returns (visit: nat)
      requires Tracked() && n in cfg.def.nodes && VisitLegal(cfg, audit, n)
      modifies this
      ensures Recorded(NodeVisited(n)) && clock == old(clock)
      ensures processedEvents == old(processedEvents)
      ensures visit == VisitOf(n) == old(VisitOf(n)) + 1
      ensures visitCounts == old(visitCounts)[n := old(VisitOf(n)) + 1]
      ensures Ready(old(audit)) ==> SameBook(old(audit), audit)
      ensures audit.event == old(audit.event) && audit.waking == old(audit.waking) && audit.moment == Visited(n, old(variables))
      ensures audit.steps == old(audit.steps) + 1 && audit.landing == old(audit.landing) && audit.moves == old(audit.moves)
      ensures audit.st == old(audit.st).(visits := visitCounts)
    {
      hide Reach, Covers, Legal, Advance, Apply;
      VisitAdvance(cfg, audit, n);
      visitCounts := visitCounts[n := VisitOf(n) + 1];
      Record(NodeVisited(n));
      visit := VisitOf(n);
    }

    method PushScope(s: Scope)
      requires Tracked() && PushLegal(cfg, audit, s)
      modifies this
      ensures Recorded(ScopePushed(s)) && clock == old(clock)
      ensures processedEvents == old(processedEvents)
      ensures Ready(old(audit)) ==> SameBook(old(audit), audit) && SameStep(old(audit), audit)
      ensures audit.st == old(audit.st).(scopes := old(scopes) + [s])
    {
      hide Reach, Covers, TransitionLegal, StatusLegal, VariableLegal, PushLegal, BranchLegal, SlotLegal, IssueLegal, Admissible, WakeLegal, WokeLegal, NodeSetLegal;
      scopes := scopes + [s];
      Record(ScopePushed(s));
    }

    method PopScope() returns (popped: Option<Scope>)
      requires Tracked()
      requires scopes != [] ==> PopLegal(audit, scopes[|scopes| - 1].fork)
      modifies this
      ensures old(scopes) == [] ==> popped == None && Tracked() && log == old(log) && audit == old(audit)
      ensures old(scopes) != [] ==>
        && popped == Some(old(scopes[|scopes| - 1]))
        && Recorded(ScopePopped(popped.value.fork))
        && (Ready(old(audit)) ==> SameBook(old(audit), audit))
        && audit.event == old(audit.event) && audit.moment == old(audit.moment) && audit.waking == old(audit.waking) && audit.popped == popped && audit.steps == old(audit.steps) && audit.moves == old(audit.moves)
        && audit.st == old(audit.st).(scopes := old(scopes)[..|old(scopes)| - 1])
      ensures clock == old(clock) && calls == old(calls)
      ensures processedEvents == old(processedEvents)
    {
      hide Reach, Covers, TransitionLegal, StatusLegal, VariableLegal, PushLegal, BranchLegal, SlotLegal, IssueLegal, Admissible, WakeLegal, WokeLegal, NodeSetLegal;
      if scopes == [] {
        return None;
      }
      var s := scopes[|scopes| - 1];
      scopes := scopes[..|scopes| - 1];
      Record(ScopePopped(s.fork));
      popped := Some(s);
    }

    lemma BranchAdvance(cfg: Config, a: Audit, fork: string, b: BranchState)
      requires BranchLegal(cfg, a, fork, b)
      ensures Legal(cfg, a, BranchUpdated(fork, b))
      ensures |a.st.scopes| == 1 && b.id in a.st.scopes[0].branches
      ensures a.st.scopes[0].branches[b.id].arrivedJoin == b.arrivedJoin != "" ==> a.st.scopes[0].join != ""
      ensures var c := Advance(a, BranchUpdated(fork, b));
        && (Ready(a) ==> SameBook(a, c)) && SameStep(a, c)
        && c.st == a.st.(scopes := [WithBranch(a.st.scopes[0], b)])
    {
      hide BranchMoves, BranchFails, Halts, Settled;
    }

    /** journalBranch and branchReachedJoin: the branch's new record is written to the
        open scope, whose join is filled in by the first arrival when still open. */
    method JournalBranch(fork: string, b: BranchState)
      requires Tracked() && BranchLegal(cfg, audit, fork, b)
      modifies this
      ensures Recorded(BranchUpdated(fork, b)) && clock == old(clock)
      ensures processedEvents == old(processedEvents)
      ensures scopes == [WithBranch(old(scopes[0]), b)]
      ensures Ready(old(audit)) ==> SameBook(old(audit), audit) && SameStep(old(audit), audit)
      ensures audit.st == old(audit.st).(scopes := scopes)
    {
      hide Reach, Covers, Legal, Advance, Apply, BranchLegal;
      BranchAdvance(cfg, audit, fork, b);
      var s := scopes[0];
      var arrives := b.arrivedJoin != s.branches[b.id].arrivedJoin;
      s := s.(branches := s.branches[b.id := b]);
      if arrives && s.join == "" {
        s := s.(join := b.arrivedJoin);
      }
      scopes := scopes[0 := s];
      Record(BranchUpdated(fork, b));
    }

    method SetWaiting(slot: Slot, w: WaitingState)
      requires Tracked() && SlotLegal(cfg, audit, slot, w, clock)
      modifies this
      ensures Recorded(WaitingSet(slot, w, clock)) && clock == old(clock)
      ensures processedEvents == old(processedEvents)
      ensures Ready(old(audit)) ==> SameBook(old(audit), audit) && SameStep(old(audit), audit)
      ensures audit.st == old(audit.st).(waitings := old(waitings)[slot := w])
    {
      hide Reach, Covers, TransitionLegal, StatusLegal, VariableLegal, PushLegal, BranchLegal, SlotLegal, IssueLegal, Admissible, WakeLegal, WokeLegal, NodeSetLegal;
      waitings := waitings[slot := w];
      Record(WaitingSet(slot, w, clock));
    }

    /** clearWaiting: nothing is recorded for a slot that is not set. */
    method ClearWaiting(slot: Slot)
      requires Tracked()
      modifies this
      ensures old(slot in waitings) ==> Recorded(WaitingCleared(slot)) && audit.cleared == Some((slot, old(waitings[slot])))
      ensures Ready(old(audit)) ==> SameBook(old(audit), audit) && SameStep(old(audit), audit)
      ensures audit.st == old(audit.st).(waitings := old(waitings) - {slot})
      ensures old(slot !in waitings) ==> Tracked() && log == old(log) && audit == old(audit)
      ensures clock == old(clock) && calls == old(calls)
      ensures processedEvents == old(processedEvents)
    {
      hide Reach, Covers, TransitionLegal, StatusLegal, VariableLegal, PushLegal, BranchLegal, SlotLegal, IssueLegal, Admissible, WakeLegal, WokeLegal, NodeSetLegal;
      if slot in waitings {
        RemoveWaiting(slot);
      }
    }

    method RemoveWaiting(slot: Slot)
      requires Tracked() && slot in waitings
      modifies this
      ensures Recorded(WaitingCleared(slot)) && clock == old(clock)
      ensures processedEvents == old(processedEvents)
      ensures Ready(old(audit)) ==> SameBook(old(audit), audit) && SameStep(old(audit), audit)
      ensures audit.st == old(audit.st).(waitings := old(waitings) - {slot})
      ensures audit.cleared == Some((slot, old(waitings[slot])))
    {
      hide Reach, Covers, TransitionLegal, StatusLegal, VariableLegal, PushLegal, BranchLegal, SlotLegal, IssueLegal, Admissible, WakeLegal, WokeLegal, NodeSetLegal;
      waitings := waitings - {slot};
      Record(WaitingCleared(slot));
    }

    method RecordWoke(slot: Slot)
      requires Tracked() && WokeLegal(audit, slot) && slot !in waitings
      modifies this
      ensures Recorded(Woke(slot)) && clock == old(clock)
      ensures processedEvents == old(processedEvents)
      ensures Ready(old(audit)) ==> SameBook(old(audit), audit)
      ensures audit.event == None && audit.popped == old(audit.popped) && audit.waking == old(audit.cleared) && audit.moves == old(audit.moves) && audit.landing == None
      ensures old(audit.cleared.Some?) ==>
        audit.moment == Woken(old(audit.cleared.value.0), old(audit.cleared.value.1), old(variables))
      ensures audit.st == old(audit.st).(event := None)
    {
      hide Reach, Covers, TransitionLegal, StatusLegal, VariableLegal, PushLegal, BranchLegal, SlotLegal, IssueLegal, Admissible, WakeLegal, WokeLegal, NodeSetLegal;
      currentEvent := None;
      Record(Woke(slot));
    }

    // ------------------------------------------------------------ deduplication

    ghost predicate Seen(key: Option<Key>)
      reads this
    {
      key.Some? && key.value in processedEvents
    }

    /** The dedup table after consuming `key`: exact below capacity. */
    twostate predicate Consumed(key: Option<Key>)
      reads this
    {
      && (key.None? ==> processedEvents == old(processedEvents))
      && (key.Some? ==>
            && key.value in processedEvents
            && processedEvents.Keys <= old(processedEvents.Keys) + {key.value}
            && (old(|processedEvents|) < MAX_EVENTS ==> processedEvents.Keys == old(processedEvents.Keys) + {key.value}))
    }

    /** The dedup table may stand for `keys`: exactly, while no overflow ever happened. */
    static ghost predicate Covers(table: map<Key, int>, keys: set<Key>, peak: nat) {
      && table.Keys <= keys
      && (peak <= MAX_EVENTS ==> table.Keys == keys)
    }

    /** trackEvent: the table with one more key. */
    method Track(key: Option<Key>, now: int, ghost keys: set<Key>, ghost peak: nat) returns (table: map<Key, int>)
      requires !Seen(key) && Covers(processedEvents, keys, peak)
      ensures key.None? ==> table == processedEvents
      ensures key.Some? ==> key.value in table && table.Keys <= processedEvents.Keys + {key.value}
      ensures |processedEvents| < MAX_EVENTS ==> table.Keys == With(processedEvents.Keys, key)
      ensures Covers(table, With(keys, key), Max(|With(keys, key)|, peak))
      ensures |processedEvents| <= MAX_EVENTS ==> |table| <= MAX_EVENTS
    {
      table := processedEvents;
      if key.Some? {
        table := Dedup.TrackEvent(processedEvents, key.value, now);
        assert forall k <- table :: k == key.value || k in table - {key.value};
        if peak <= MAX_EVENTS && |processedEvents| >= MAX_EVENTS {
          assert |keys + {key.value}| == |processedEvents.Keys| + 1;
        }
      }
    }

    /** TryConsumeEvent on a wake key: false when it was consumed before. */
    method TryConsumeWake(key: Key) returns (ok: bool, ghost o: Occ)
      requires Tracked() && key.Wake?
      requires key.slot in waitings && waitings[key.slot].until.Some? && status != Running
      requires key == Wake(key.slot, waitings[key.slot].kind, waitings[key.slot].visit)
      modifies this
      ensures ok == old(key !in processedEvents)
      ensures !ok ==> Unchanged()
      ensures ok ==> o.EventConsumed? && o.key == Some(key) && o.event == None && Recorded(o) && Consumed(Some(key))
      ensures clock >= old(clock) && (old(|processedEvents|) <= MAX_EVENTS ==> |processedEvents| <= MAX_EVENTS)
      ensures ok ==> (Ready(old(audit)) ==> SameBook(old(audit), audit))
      ensures ok ==> audit.event == old(audit.event) && audit.moment == old(audit.moment) && audit.waking == old(audit.waking) && audit.moves == old(audit.moves)
      ensures ok ==> audit.st == old(audit.st).(keys := audit.st.keys) && key in audit.st.keys
    {
      hide Reach, Advance, Legal, Apply;
      if key in processedEvents {
        o := DefActivated;
        return false, o;
      }
      var now := Now();
      var table := Track(Some(key), now, audit.st.keys, audit.peak);
      var t := Now();
      o := ConsumeWake(key, table, t);
      ok := true;
    }

    method ConsumeWake(key: Key, table: map<Key, int>, t: int) returns (ghost o: Occ)
      requires Tracked() && WakeLegal(audit, key)
      requires Covers(table, With(audit.st.keys, Some(key)), Max(|With(audit.st.keys, Some(key))|, audit.peak))
      modifies this
      ensures o.EventConsumed? && o.key == Some(key) && o.event == None && Recorded(o)
      ensures processedEvents == table && clock == old(clock)
      ensures (Ready(old(audit)) ==> SameBook(old(audit), audit))
      ensures audit.event == old(audit.event) && audit.moment == old(audit.moment) && audit.waking == old(audit.waking) && audit.moves == old(audit.moves)
      ensures audit.st == old(audit.st).(keys := audit.st.keys) && key in audit.st.keys
    {
      hide Reach, Covers, TransitionLegal, StatusLegal, VariableLegal, PushLegal, BranchLegal, SlotLegal, IssueLegal, Admissible, WakeLegal, WokeLegal, NodeSetLegal;
      processedEvents := table;
      o := EventConsumed(Some(key), None, t);
      Record(EventConsumed(Some(key), None, t));
    }

    /** Not even a record. */
    twostate predicate Unchanged()
      reads this
    {
      && Tracked() && Live() == old(Live()) && log == old(log) && audit == old(audit)
      && calls == old(calls) && processedEvents == old(processedEvents)
    }

    /** AcceptEvent: a known id is refused and changes nothing; otherwise the event is
        recorded and becomes the current one. */
    method AcceptEvent(ev: Event) returns (ok: bool, ghost o: Occ)
      requires Tracked()
      requires !Seen(KeyOf(ev.id)) ==> Admissible(cfg, audit, ev)
      modifies this
      ensures ok == !old(Seen(KeyOf(ev.id)))
      ensures !ok ==> Unchanged()
      ensures ok ==> o.EventConsumed? && o.key == KeyOf(ev.id) && o.event == Some(ev) && Recorded(o)
      ensures ok ==> Consumed(KeyOf(ev.id))
      ensures clock >= old(clock) && (old(|processedEvents|) <= MAX_EVENTS ==> |processedEvents| <= MAX_EVENTS)
      ensures ok ==> (Ready(old(audit)) ==> SameBook(old(audit), audit))
      ensures ok ==> audit.event == Some(ev) && audit.moves == old(audit.moves) && audit.landing == None
      ensures ok ==> audit.st == old(audit.st).(keys := audit.st.keys, event := audit.st.event)
    {
      hide Reach, Advance, Legal, Apply, Admissible;
      if KeyOf(ev.id).Some? && KeyOf(ev.id).value in processedEvents {
        o := DefActivated;
        return false, o;
      }
      var now := Now();
      var table := Track(KeyOf(ev.id), now, audit.st.keys, audit.peak);
      var t := Now();
      o := ConsumeEvent(ev, table, t);
      ok := true;
    }

    lemma ConsumeAdvance(cfg: Config, a: Audit, key: Option<Key>, ev: Event, t: int)
      ensures Admissible(cfg, a, ev) && key == KeyOf(ev.id) ==> Legal(cfg, a, EventConsumed(key, Some(ev), t))
      ensures var b := Advance(a, EventConsumed(key, Some(ev), t));
        && (Ready(a) ==> SameBook(a, b))
        && b.event == Some(ev) && b.moves == a.moves && b.landing == None
        && b.st == a.st.(keys := With(a.st.keys, key), event := b.st.event)
    {
    }

    lemma ReleaseAdvance(cfg: Config, a: Audit, key: Key)
      ensures ReleaseLegal(a, key) ==> Legal(cfg, a, EventReleased(key))
      ensures var b := Advance(a, EventReleased(key));
        && (Ready(a) ==> SameBook(a, b)) && SameStep(a, b)
        && b.st == a.st.(keys := a.st.keys - {key}) && b.event == a.event
        && b.peak == if |a.st.keys - {key}| > a.peak then |a.st.keys - {key}| else a.peak
    {
    }

    method ConsumeEvent(ev: Event, table: map<Key, int>, t: int) returns (ghost o: Occ)
      requires Tracked() && Admissible(cfg, audit, ev)
      requires Covers(table, With(audit.st.keys, KeyOf(ev.id)), Max(|With(audit.st.keys, KeyOf(ev.id))|, audit.peak))
      modifies this
      ensures o.EventConsumed? && o.key == KeyOf(ev.id) && o.event == Some(ev) && Recorded(o)
      ensures processedEvents == table && clock == old(clock)
      ensures (Ready(old(audit)) ==> SameBook(old(audit), audit))
      ensures audit.event == Some(ev) && audit.moves == old(audit.moves) && audit.landing == None
      ensures audit.st == old(audit.st).(keys := audit.st.keys, event := audit.st.event)
    {
      hide Reach, Covers, Legal, Advance, Apply, Admissible, SameBook, Ready, With, KeyOf, NextEvent;
      processedEvents := table;
      currentEvent := Some(ev);
      o := EventConsumed(KeyOf(ev.id), Some(ev), t);
      ConsumeAdvance(cfg, audit, KeyOf(ev.id), ev, t);
      Record(EventConsumed(KeyOf(ev.id), Some(ev), t));
    }

    /** ReleaseEvent: undoes a consumption that drove nothing. */
    method ReleaseEvent(id: string)
      requires Tracked() && scopes != [] && currentEvent.Some? && currentEvent.value.id == id
      modifies this
      ensures Tracked() && clock == old(clock) && calls == old(calls)
      ensures old(Seen(KeyOf(id))) ==> Recorded(EventReleased(External(id)))
      ensures !old(Seen(KeyOf(id))) ==> log == old(log) && audit == old(audit)
      ensures processedEvents == if id == "" then old(processedEvents) else old(processedEvents) - {External(id)}
      ensures Ready(old(audit)) ==> SameBook(old(audit), audit) && SameStep(old(audit), audit)
      ensures audit.st == old(audit.st).(keys := audit.st.keys)
    {
      hide Reach, Advance, Legal, Apply;
      if id == "" {
        return;
      }
      if External(id) in processedEvents {
        TableShrinks(processedEvents, audit.st.keys, audit.peak, External(id));
        Release(External(id));
      }
    }

    method Release(key: Key)
      requires Tracked() && ReleaseLegal(audit, key)
      requires Covers(processedEvents - {key}, audit.st.keys - {key}, audit.peak) && |audit.st.keys - {key}| <= |audit.st.keys|
      modifies this
      ensures Recorded(EventReleased(key)) && clock == old(clock)
      ensures processedEvents == old(processedEvents) - {key}
      ensures Ready(old(audit)) ==> SameBook(old(audit), audit) && SameStep(old(audit), audit)
      ensures audit.st == old(audit.st).(keys := audit.st.keys)
    {
      hide Reach, Covers, Legal, Advance, Apply, ReleaseLegal, SameBook, SameStep, Max, NextEvent, KeyOf;
      ReleaseAdvance(cfg, audit, key);
      processedEvents := processedEvents - {key};
      Record(EventReleased(key));
    }

    lemma TableShrinks(table: map<Key, int>, keys: set<Key>, peak: nat, key: Key)
      requires Covers(table, keys, peak)
      ensures Covers(table - {key}, keys - {key}, peak)
      ensures |keys - {key}| <= |keys|
    {
      assert (table - {key}).Keys == table.Keys - {key};
      if key in table {
        assert |table| == |(table - {key}).Keys| + 1;
      } else {
        assert table - {key} == table;
      }
      if key in keys {
        assert |keys| == |keys - {key}| + 1;
      } else {
        assert keys - {key} == keys;
      }
    }

    // -------------------------------------------------------- commands and undo

    method RecordIssued(c: Command)
      requires Tracked() && IssueLegal(cfg, audit, c)
      modifies this
      ensures Recorded(CommandIssued(c)) && clock == old(clock)
      ensures processedEvents == old(processedEvents)
      ensures SameStep(old(audit), audit) && audit.st == old(audit.st) && audit.scars == NextScars(old(audit), CommandIssued(c))
      ensures audit.issued == old(audit.issued)[c.id := c] && audit.resolved == old(audit.resolved)
      ensures audit.owed == None && audit.inverses == old(audit.inverses)
    {
      hide Reach, Covers, TransitionLegal, StatusLegal, VariableLegal, PushLegal, BranchLegal, SlotLegal, IssueLegal, Admissible, WakeLegal, WokeLegal, NodeSetLegal;
      Record(CommandIssued(c));
    }

    method RecordResult(r: SideEffectResult)
      requires Tracked() && r.id in audit.issued && r.id !in audit.resolved
      modifies this
      ensures Recorded(CommandResult(r)) && clock == old(clock)
      ensures processedEvents == old(processedEvents)
      ensures SameStep(old(audit), audit) && audit.st == old(audit.st).(results := old(results) + [r])
      ensures audit.issued == old(audit.issued) && audit.resolved == old(audit.resolved) + {r.id}
      ensures audit.scars == NextScars(old(audit), CommandResult(r))
      ensures audit.owed == InverseOf(old(audit), r)
    {
      hide Reach, Covers, TransitionLegal, StatusLegal, VariableLegal, PushLegal, BranchLegal, SlotLegal, IssueLegal, Admissible, WakeLegal, WokeLegal, NodeSetLegal;
      results := results + [r];
      Record(CommandResult(r));
    }

    method PushUndo(u: UndoEntry)
      requires Tracked() && UndoPushLegal(audit, u)
      modifies this
      ensures Recorded(CompensationPushed(u)) && clock == old(clock)
      ensures processedEvents == old(processedEvents)
      ensures SameStep(old(audit), audit) && audit.st == old(audit.st).(undo := old(undoStack) + [u])
      ensures audit.issued == old(audit.issued) && audit.resolved == old(audit.resolved)
      ensures audit.scars == old(audit.scars) && audit.owed == None
    {
      hide Reach, Covers, TransitionLegal, StatusLegal, VariableLegal, PushLegal, BranchLegal, SlotLegal, IssueLegal, Admissible, WakeLegal, WokeLegal, NodeSetLegal;
      undoStack := undoStack + [u];
      Record(CompensationPushed(u));
    }

    /** Marks one entry done. The record names only the key; keys are distinct, so the
        replay, which marks every entry with that key, marks the same one. */
    method MarkUndone(i: nat)
      requires Tracked() && NextToUndo(undoStack, i)
      modifies this
      ensures Recorded(CompensationFired(old(undoStack[i].key))) && clock == old(clock)
      ensures processedEvents == old(processedEvents)
      ensures undoStack == old(undoStack)[i := old(undoStack[i]).(done := true)]
      ensures SameStep(old(audit), audit) && audit.st == old(audit.st).(undo := undoStack)
      ensures audit.issued == old(audit.issued) && audit.resolved == old(audit.resolved)
      ensures (Ready(old(audit)) ==> audit.scars == old(audit.scars)) && audit.owed == None
    {
      hide Reach, Covers, TransitionLegal, StatusLegal, VariableLegal, PushLegal, BranchLegal, SlotLegal, IssueLegal, Admissible, WakeLegal, WokeLegal, NodeSetLegal;
      var key := undoStack[i].key;
      UndoKeys();
      assert FireUndo(undoStack, key) == undoStack[i := undoStack[i].(done := true)];
      undoStack := undoStack[i := undoStack[i].(done := true)];
      Record(CompensationFired(key));
    }
  }
}
