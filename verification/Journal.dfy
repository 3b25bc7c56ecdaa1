/**
 The event-sourced journal (dsl/journal.go): the durable state of an instance, the
 occurrences that change it, and the fold that rebuilds the state from the log.
 */
module Journal {
  import opened Definition

  datatype Status = Pending | Running | Waiting | Suspended | Completed | Failed | Canceled | TimedOut

  predicate IsTerminal(s: Status) {
    s in {Completed, Failed, Canceled, TimedOut}
  }

  /** Go's zero `Until` is None: an event-driven slot that never becomes due. */
  datatype WaitingState = WaitingState(
    kind: WaitKind, node: string, until: Option<int>, visit: nat, next: string,
    request: Option<CommandId>)

  datatype BranchState = BranchState(
    id: BranchId, startNode: string, currentNode: string, status: Status,
    actor: Option<Principal>, done: bool, arrivedJoin: string)

  datatype Scope = Scope(
    fork: string, join: string, mode: Mode, failFast: bool, required: int, timeout: int,
    startedAt: int, branches: map<BranchId, BranchState>)

  datatype UndoEntry = UndoEntry(
    node: string, command: CommandId, key: CommandId, effect: SideEffect, done: bool)

  /** Every durable field of an execution context; `keys` is the domain of the
      dedup table. */
  datatype State = State(
    instanceID: string, executionID: string, node: string, status: Status, vars: Env,
    event: Option<Event>, scopes: seq<Scope>, waitings: map<Slot, WaitingState>,
    results: seq<SideEffectResult>, undo: seq<UndoEntry>, visits: map<string, nat>,
    keys: set<Key>)

  function NewState(def: ProcessDef): State {
    State("", "", "", Pending, def.varInit, None, [], map[], [], [], map[], {})
  }

  function VisitsOf(visits: map<string, nat>, n: string): nat {
    if n in visits then visits[n] else 0
  }

  datatype Occ =
    | Started(instanceID: string, executionID: string)
    | EventConsumed(key: Option<Key>, event: Option<Event>, time: int)
    | EventReleased(released: Key)
    | NodeVisited(node: string)
    | Transitioned(from: string, to: string, name: string)
    | NodeSet(node: string)
    | StatusSet(status: Status)
    | VariableSet(name: string, value: Value)
    | ScopePushed(scope: Scope)
    | ScopePopped(fork: string)
    | BranchUpdated(fork: string, branch: BranchState)
    | WaitingSet(slot: Slot, waiting: WaitingState, at: int)
    | WaitingCleared(slot: Slot)
    | Woke(slot: Slot)
    | CommandIssued(command: Command)
    | CommandResult(result: SideEffectResult)
    | CompensationPushed(undo: UndoEntry)
    | CompensationFired(undoKey: CommandId)
    | DefActivated

  // --------------------------------------------------------------- the fold

  function ScopeByFork(scopes: seq<Scope>, fork: string): (i: int)
    ensures -1 <= i < |scopes|
    ensures i >= 0 ==> scopes[i].fork == fork
    ensures i < 0 ==> forall k | 0 <= k < |scopes| :: scopes[k].fork != fork
  {
    if scopes == [] then -1
    else if scopes[0].fork == fork then 0
    else
      var i := ScopeByFork(scopes[1..], fork);
      assert forall k | 0 < k < |scopes| :: scopes[k] == scopes[1..][k - 1];
      if i < 0 then -1 else i + 1
  }

  function WithBranch(s: Scope, b: BranchState): Scope {
    s.(branches := s.branches[b.id := b],
       join := if s.join == "" && b.arrivedJoin != "" then b.arrivedJoin else s.join)
  }

  function FireUndo(undo: seq<UndoEntry>, key: CommandId): seq<UndoEntry> {
    seq(|undo|, i requires 0 <= i < |undo| => if undo[i].key == key then undo[i].(done := true) else undo[i])
  }

  function With(keys: set<Key>, key: Option<Key>): set<Key> {
    if key.Some? then keys + {key.value} else keys
  }

  /** applyOcc: the effect of one record, None for the records it rejects. */
  function Apply(s: State, o: Occ): Option<State> {
    match o
    case Started(i, e) => Some(s.(instanceID := i, executionID := e))
    case EventConsumed(key, ev, _) =>
      Some(s.(keys := With(s.keys, key), event := if ev.Some? && ev.value.name != "" then ev else s.event))
    case EventReleased(key) => Some(s.(keys := s.keys - {key}))
    case NodeVisited(n) => Some(s.(visits := s.visits[n := VisitsOf(s.visits, n) + 1]))
    case Transitioned(_, to, _) => Some(s.(node := to, status := Running))
    case NodeSet(n) => Some(s.(node := n))
    case StatusSet(st) => Some(s.(status := st))
    case VariableSet(k, v) => Some(s.(vars := s.vars[k := v]))
    case ScopePushed(sc) => Some(s.(scopes := s.scopes + [sc]))
    case ScopePopped(_) => Some(if s.scopes == [] then s else s.(scopes := s.scopes[..|s.scopes| - 1]))
    case BranchUpdated(fork, b) =>
      var i := ScopeByFork(s.scopes, fork);
      if i < 0 || b.id !in s.scopes[i].branches then None
      else Some(s.(scopes := s.scopes[i := WithBranch(s.scopes[i], b)]))
    case WaitingSet(slot, w, _) => Some(s.(waitings := s.waitings[slot := w]))
    case WaitingCleared(slot) => Some(s.(waitings := s.waitings - {slot}))
    case Woke(slot) => Some(s.(event := None, waitings := s.waitings - {slot}))
    case CommandIssued(_) => Some(s)
    case CommandResult(r) => Some(s.(results := s.results + [r]))
    case CompensationPushed(u) => Some(s.(undo := s.undo + [u]))
    case CompensationFired(key) => Some(s.(undo := FireUndo(s.undo, key)))
    case DefActivated => Some(s)
  }

  /** foldOnto: the records applied in order, None as soon as one is rejected. */
  function FoldOnto(s: State, occs: seq<Occ>): Option<State> {
    if occs == [] then Some(s)
    else
      match FoldOnto(s, occs[..|occs| - 1])
      case None => None
      case Some(t) => Apply(t, occs[|occs| - 1])
  }

  function Fold(def: ProcessDef, occs: seq<Occ>): Option<State> {
    FoldOnto(NewState(def), occs)
  }

  /** Folding the rest of a log onto the fold of a prefix is folding the whole log. */
  lemma {:induction false} FoldSplit(s: State, a: seq<Occ>, b: seq<Occ>)
    ensures FoldOnto(s, a + b) ==
      match FoldOnto(s, a) { case None => None case Some(t) => FoldOnto(t, b) }
    decreases |b|
  {
    if b == [] {
      assert a + b == a;
    } else {
      var n := |b| - 1;
      assert (a + b)[..|a + b| - 1] == a + b[..n];
      FoldSplit(s, a, b[..n]);
    }
  }

  // ----------------------------------------------------- two views of a state

  /** States that differ at most in the current event and, downwards, in dedup keys:
      how a restored snapshot may differ from the fold of the log before it. */
  ghost predicate Close(a: State, b: State) {
    a == b.(event := a.event, keys := a.keys) && a.keys <= b.keys
  }

  lemma ApplyClose(a: State, b: State, o: Occ)
    requires Close(a, b)
    ensures Apply(a, o).Some? <==> Apply(b, o).Some?
    ensures Apply(a, o).Some? ==> Close(Apply(a, o).value, Apply(b, o).value)
    ensures Apply(a, o).Some? && a.event == b.event ==> Apply(a, o).value.event == Apply(b, o).value.event
    ensures Apply(a, o).Some? && a.keys == b.keys ==> Apply(a, o).value.keys == Apply(b, o).value.keys
  {
    assert a.scopes == b.scopes && a.visits == b.visits && a.vars == b.vars;
    assert a.waitings == b.waitings && a.undo == b.undo && a.results == b.results;
    match o {
      case BranchUpdated(_, _) =>
      case EventConsumed(_, _, _) =>
      case _ =>
    }
  }

  /** The fold keeps two close states close, and rejects the one iff the other. */
  lemma {:induction false} FoldClose(a: State, b: State, occs: seq<Occ>)
    requires Close(a, b)
    ensures FoldOnto(a, occs).Some? <==> FoldOnto(b, occs).Some?
    ensures FoldOnto(a, occs).Some? ==> Close(FoldOnto(a, occs).value, FoldOnto(b, occs).value)
    ensures FoldOnto(a, occs).Some? && a.event == b.event ==>
      FoldOnto(a, occs).value.event == FoldOnto(b, occs).value.event
    ensures FoldOnto(a, occs).Some? && a.keys == b.keys ==>
      FoldOnto(a, occs).value.keys == FoldOnto(b, occs).value.keys
    decreases |occs|
  {
    if occs != [] {
      var n := |occs| - 1;
      FoldClose(a, b, occs[..n]);
      if FoldOnto(a, occs[..n]).Some? {
        ApplyClose(FoldOnto(a, occs[..n]).value, FoldOnto(b, occs[..n]).value, occs[n]);
      }
    }
  }

  // ------------------------------------------------------------- time travel

  /** A stored record with the sequence number its journal gave it. */
  datatype Entry = Entry(seqNo: int, occ: Occ)

  function Occs(entries: seq<Entry>): (r: seq<Occ>)
    ensures |r| == |entries|
  {
    seq(|entries|, i requires 0 <= i < |entries| => entries[i].occ)
  }

  ghost predicate Increasing(entries: seq<Entry>) {
    forall i, j | 0 <= i < j < |entries| :: entries[i].seqNo < entries[j].seqNo
  }

  /** How many leading entries have a number not above `upto`. */
  function Cut(entries: seq<Entry>, upto: int): (n: nat)
    ensures n <= |entries|
    ensures forall i | 0 <= i < n :: entries[i].seqNo <= upto
    ensures n < |entries| ==> entries[n].seqNo > upto
  {
    if entries == [] || entries[0].seqNo > upto then 0 else 1 + Cut(entries[1..], upto)
  }

  /** With increasing numbers the cut separates exactly what was written up to `upto`. */
  lemma CutMeaning(entries: seq<Entry>, upto: int, n: nat)
    requires Increasing(entries)
    requires n <= |entries| && (forall i | 0 <= i < n :: entries[i].seqNo <= upto) && (n < |entries| ==> entries[n].seqNo > upto)
    ensures forall i | 0 <= i < |entries| :: i < n <==> entries[i].seqNo <= upto
    ensures n == Cut(entries, upto)
  {
    forall i | n <= i < |entries| ensures entries[i].seqNo > upto {
      assert n < i ==> entries[n].seqNo < entries[i].seqNo;
    }
    var m := Cut(entries, upto);
    var k := if m < n then m else n;
    var before := if k < |entries| then entries[k].seqNo <= upto else false;
  }

  method CutAt(entries: seq<Entry>, upto: int) returns (n: nat)
    ensures n == Cut(entries, upto)
  {
    n := 0;
    while n < |entries| && entries[n].seqNo <= upto
      invariant n <= |entries| && Cut(entries, upto) == n + Cut(entries[n..], upto)
    {
      assert entries[n..][1..] == entries[n + 1..];
      n := n + 1;
    }
  }

  /** FoldTo: the state at the moment record `upto` was written. */
  method FoldTo(def: ProcessDef, entries: seq<Entry>, upto: int) returns (s: Option<State>)
    ensures s == Fold(def, Occs(entries)[..Cut(entries, upto)])
  {
    var n := CutAt(entries, upto);
    assert Occs(entries[..n]) == Occs(entries)[..n];
    s := Fold(def, Occs(entries[..n]));
  }

  /** occurrencesAfter: the records a restored snapshot still has to replay. */
  method OccurrencesAfter(entries: seq<Entry>, after: int) returns (rest: seq<Entry>)
    ensures rest == entries[Cut(entries, after)..]
  {
    var n := CutAt(entries, after);
    rest := entries[n..];
  }

  // -------------------------------------------------------------- the outbox

  /** Ids issued and not answered since their last issue. */
  function Outstanding(occs: seq<Occ>): (p: map<CommandId, Command>) {
    if occs == [] then map[]
    else Settle(Outstanding(occs[..|occs| - 1]), occs[|occs| - 1])
  }

  function Settle(pending: map<CommandId, Command>, o: Occ): map<CommandId, Command> {
    match o
    case CommandIssued(c) => pending[c.id := c]
    case CommandResult(r) => pending - {r.id}
    case _ => pending
  }

  /** The order in which ids enter the outstanding set. */
  function IssueOrder(occs: seq<Occ>): seq<CommandId> {
    if occs == [] then []
    else
      var before := IssueOrder(occs[..|occs| - 1]);
      match occs[|occs| - 1]
      case CommandIssued(c) => if c.id in Outstanding(occs[..|occs| - 1]) then before else before + [c.id]
      case _ => before
  }

  predicate Concerns(o: Occ, id: CommandId) {
    || (o.CommandIssued? && o.command.id == id)
    || (o.CommandResult? && o.result.id == id)
  }

  /** Unanswered at the end of the log: issued at some point, neither answered nor
      issued again after it. */
  ghost predicate Unanswered(occs: seq<Occ>, id: CommandId, c: Command) {
    exists i | 0 <= i < |occs| :: UnansweredSince(occs, i, id, c)
  }

  ghost predicate UnansweredSince(occs: seq<Occ>, i: nat, id: CommandId, c: Command)
    requires i < |occs|
  {
    && occs[i] == CommandIssued(c) && c.id == id
    && forall j | i < j < |occs| :: !Concerns(occs[j], id)
  }

  lemma {:induction false} OutstandingMeaning(occs: seq<Occ>, id: CommandId, c: Command)
    ensures (id in Outstanding(occs) && Outstanding(occs)[id] == c) <==> Unanswered(occs, id, c)
    decreases |occs|
  {
    if occs != [] {
      var n := |occs| - 1;
      OutstandingMeaning(occs[..n], id, c);
      UnansweredStep(occs, id, c);
    }
  }

  lemma UnansweredStep(occs: seq<Occ>, id: CommandId, c: Command)
    requires occs != []
    ensures var n := |occs| - 1;
      Unanswered(occs, id, c) <==>
        (occs[n] == CommandIssued(c) && c.id == id) || (Unanswered(occs[..n], id, c) && !Concerns(occs[n], id))
  {
    var n := |occs| - 1;
    var before := occs[..n];
    if occs[n] == CommandIssued(c) && c.id == id {
      assert UnansweredSince(occs, n, id, c);
    }
    forall i | 0 <= i < n
      ensures UnansweredSince(occs, i, id, c) <==> UnansweredSince(before, i, id, c) && !Concerns(occs[n], id)
    {
      assert before[i] == occs[i];
      if UnansweredSince(occs, i, id, c) {
        assert forall j | i < j < n :: before[j] == occs[j];
      }
    }
    if Unanswered(before, id, c) && !Concerns(occs[n], id) {
      var i :| 0 <= i < n && UnansweredSince(before, i, id, c);
      assert UnansweredSince(occs, i, id, c);
    }
  }

  lemma {:induction false} OutstandingListed(occs: seq<Occ>)
    ensures forall id <- Outstanding(occs) :: id in IssueOrder(occs) && Outstanding(occs)[id].id == id
    decreases |occs|
  {
    if occs != [] {
      OutstandingListed(occs[..|occs| - 1]);
    }
  }

  /** No command is issued again after it was answered. */
  ghost predicate NoReissue(occs: seq<Occ>) {
    forall i, j | 0 <= i < j < |occs| ::
      occs[i].CommandResult? && occs[j].CommandIssued? ==> occs[i].result.id != occs[j].command.id
  }

  lemma {:induction false} IssuedOnce(occs: seq<Occ>)
    requires NoReissue(occs)
    ensures Distinct(IssueOrder(occs))
    ensures forall id <- IssueOrder(occs) ::
      id in Outstanding(occs) || exists i | 0 <= i < |occs| :: occs[i].CommandResult? && occs[i].result.id == id
    decreases |occs|
  {
    if occs != [] {
      var n := |occs| - 1;
      var before := occs[..n];
      IssuedOnce(before);
      forall id | id in IssueOrder(before) && id !in Outstanding(before)
        ensures exists i | 0 <= i < |occs| :: occs[i].CommandResult? && occs[i].result.id == id
      {
        var i :| 0 <= i < |before| && before[i].CommandResult? && before[i].result.id == id;
        assert occs[i] == before[i];
      }
      if occs[n].CommandResult? {
        assert occs[n].result.id == occs[n].result.id;
      }
    }
  }

  predicate Distinct(ids: seq<CommandId>) {
    forall i, j | 0 <= i < j < |ids| :: ids[i] != ids[j]
  }

  predicate DistinctIds(cmds: seq<Command>) {
    forall i, j | 0 <= i < j < |cmds| :: cmds[i].id != cmds[j].id
  }

  /** The commands of `order` still in `pending`. */
  function Select(pending: map<CommandId, Command>, order: seq<CommandId>): (out: seq<Command>) {
    if order == [] then []
    else
      var rest := Select(pending, order[..|order| - 1]);
      var id := order[|order| - 1];
      if id in pending then rest + [pending[id]] else rest
  }

  lemma {:induction false} SelectMeaning(pending: map<CommandId, Command>, order: seq<CommandId>)
    requires forall id <- pending :: pending[id].id == id
    ensures forall c <- Select(pending, order) :: c.id in pending && c.id in order && pending[c.id] == c
    ensures forall id <- order :: id in pending ==> pending[id] in Select(pending, order)
    ensures Distinct(order) ==> DistinctIds(Select(pending, order))
    decreases |order|
  {
    if order != [] {
      var n := |order| - 1;
      SelectMeaning(pending, order[..n]);
      assert order == order[..n] + [order[n]];
      if Distinct(order) && order[n] in pending {
        var rest := Select(pending, order[..n]);
        forall i | 0 <= i < |rest| ensures rest[i].id != order[n] {
          assert rest[i] in rest;
          var k :| 0 <= k < n && order[..n][k] == rest[i].id;
          assert order[k] == rest[i].id;
        }
      }
    }
  }

  predicate Issues(o: Occ, id: CommandId) {
    o.CommandIssued? && o.command.id == id
  }

  ghost predicate Issued(occs: seq<Occ>, id: CommandId) {
    exists i | 0 <= i < |occs| :: Issues(occs[i], id)
  }

  predicate Answers(o: Occ, id: CommandId) {
    o.CommandResult? && o.result.id == id
  }

  /** Issued and later answered, whatever happened to it afterwards. */
  ghost predicate AnsweredOnce(occs: seq<Occ>, id: CommandId) {
    exists i, j | 0 <= i < j < |occs| :: Issues(occs[i], id) && Answers(occs[j], id)
  }

  lemma BookStep(occs: seq<Occ>, id: CommandId)
    requires occs != []
    ensures var n := |occs| - 1;
      && (Issued(occs, id) <==> Issued(occs[..n], id) || Issues(occs[n], id))
      && (AnsweredOnce(occs, id) <==> AnsweredOnce(occs[..n], id) || (Issued(occs[..n], id) && Answers(occs[n], id)))
  {
    var n := |occs| - 1;
    var before := occs[..n];
    assert forall i | 0 <= i < n :: before[i] == occs[i];
    if Issued(before, id) {
      var i :| 0 <= i < n && Issues(before[i], id);
      assert Issues(occs[i], id);
    }
    if AnsweredOnce(before, id) {
      var i, j :| 0 <= i < j < n && Issues(before[i], id) && Answers(before[j], id);
      assert Issues(occs[i], id) && Answers(occs[j], id);
    }
    if Issued(occs, id) {
      var i :| 0 <= i < |occs| && Issues(occs[i], id);
      assert i < n ==> Issues(before[i], id);
    }
    if AnsweredOnce(occs, id) {
      var i, j :| 0 <= i < j < |occs| && Issues(occs[i], id) && Answers(occs[j], id);
      assert Issues(before[i], id) && (j < n ==> Answers(before[j], id));
    }
  }

  /** An unanswered id enters the order a second time exactly when it was answered once. */
  lemma {:induction false} OrderCounts(occs: seq<Occ>, id: CommandId)
    ensures var count := multiset(IssueOrder(occs))[id];
      && (count > 0 <==> Issued(occs, id))
      && (id in Outstanding(occs) ==> Issued(occs, id) && (count > 1 <==> AnsweredOnce(occs, id)))
      && (Issued(occs, id) && id !in Outstanding(occs) ==> AnsweredOnce(occs, id))
      && (AnsweredOnce(occs, id) ==> Issued(occs, id))
    decreases |occs|
  {
    hide Issued, AnsweredOnce;
    if occs == [] {
      NothingIssued(id);
    } else {
      OrderCounts(occs[..|occs| - 1], id);
      BookStep(occs, id);
    }
  }

  lemma NothingIssued(id: CommandId)
    ensures !Issued([], id) && !AnsweredOnce([], id)
  {
  }

  function IdsOf(cmds: seq<Command>): seq<CommandId> {
    if cmds == [] then [] else IdsOf(cmds[..|cmds| - 1]) + [cmds[|cmds| - 1].id]
  }

  lemma {:induction false} IdsAt(cmds: seq<Command>)
    ensures |IdsOf(cmds)| == |cmds| && forall i | 0 <= i < |cmds| :: IdsOf(cmds)[i] == cmds[i].id
    decreases |cmds|
  {
    if cmds != [] {
      IdsAt(cmds[..|cmds| - 1]);
    }
  }

  lemma {:induction false} DistinctCounts(ids: seq<CommandId>)
    ensures Distinct(ids) <==> forall id :: multiset(ids)[id] <= 1
    decreases |ids|
  {
    if ids != [] {
      var n := |ids| - 1;
      var before := ids[..n];
      DistinctCounts(before);
      assert ids == before + [ids[n]];
      assert forall i | 0 <= i < n :: before[i] == ids[i];
      assert ids[n] in before <==> multiset(before)[ids[n]] > 0;
      if Distinct(before) && ids[n] !in before {
        assert Distinct(ids);
      }
      if ids[n] in before {
        var i :| 0 <= i < n && before[i] == ids[n];
        assert !Distinct(ids) && multiset(ids)[ids[n]] > 1;
      }
      if !Distinct(before) {
        var i, j :| 0 <= i < j < n && before[i] == before[j];
        assert ids[i] == ids[j];
        var id :| multiset(before)[id] > 1;
        assert multiset(ids)[id] > 1;
      }
    }
  }

  lemma {:induction false} SelectCounts(pending: map<CommandId, Command>, order: seq<CommandId>, id: CommandId)
    requires forall x <- pending :: pending[x].id == x
    ensures multiset(IdsOf(Select(pending, order)))[id] == if id in pending then multiset(order)[id] else 0
    decreases |order|
  {
    if order != [] {
      var n := |order| - 1;
      SelectCounts(pending, order[..n], id);
      assert order == order[..n] + [order[n]];
      var rest := Select(pending, order[..n]);
      if order[n] in pending {
        assert (rest + [pending[order[n]]])[..|rest|] == rest;
      }
    }
  }

  /** The list repeats itself exactly when it holds an id that was answered before. */
  lemma ListedOnce(occs: seq<Occ>, out: seq<Command>)
    requires out == Select(Outstanding(occs), IssueOrder(occs))
    ensures DistinctIds(out) <==> forall id <- Outstanding(occs) :: !AnsweredOnce(occs, id)
  {
    hide AnsweredOnce, Issued;
    OutstandingListed(occs);
    IdsAt(out);
    DistinctCounts(IdsOf(out));
    assert DistinctIds(out) <==> Distinct(IdsOf(out));
    forall id
      ensures multiset(IdsOf(out))[id] <= 1 <==> (id in Outstanding(occs) ==> !AnsweredOnce(occs, id))
    {
      SelectCounts(Outstanding(occs), IssueOrder(occs), id);
      OrderCounts(occs, id);
    }
  }

  /** Where the ids of the order were issued. */
  function Places(occs: seq<Occ>): seq<nat> {
    if occs == [] then []
    else
      var n := |occs| - 1;
      if occs[n].CommandIssued? && occs[n].command.id !in Outstanding(occs[..n]) then Places(occs[..n]) + [n]
      else Places(occs[..n])
  }

  lemma {:induction false} PlacesRise(occs: seq<Occ>)
    ensures |Places(occs)| == |IssueOrder(occs)|
    ensures forall k | 0 <= k < |Places(occs)| :: Places(occs)[k] < |occs| && Issues(occs[Places(occs)[k]], IssueOrder(occs)[k])
    ensures forall k, m | 0 <= k < m < |Places(occs)| :: Places(occs)[k] < Places(occs)[m]
    decreases |occs|
  {
    if occs != [] {
      var n := |occs| - 1;
      PlacesRise(occs[..n]);
      assert forall i | 0 <= i < n :: occs[..n][i] == occs[i];
    }
  }

  /** `y` was issued after some issue of `x`. */
  ghost predicate IssuedInTurn(occs: seq<Occ>, x: CommandId, y: CommandId) {
    exists i, j | 0 <= i < j < |occs| :: Issues(occs[i], x) && Issues(occs[j], y)
  }

  lemma {:induction false} SelectInTurn(pending: map<CommandId, Command>, order: seq<CommandId>) returns (at: seq<nat>)
    requires forall x <- pending :: pending[x].id == x
    ensures |at| == |Select(pending, order)|
    ensures forall p | 0 <= p < |at| :: at[p] < |order| && order[at[p]] == Select(pending, order)[p].id
    ensures forall p, q | 0 <= p < q < |at| :: at[p] < at[q]
    decreases |order|
  {
    at := [];
    if order != [] {
      var n := |order| - 1;
      at := SelectInTurn(pending, order[..n]);
      if order[n] in pending {
        at := at + [n];
      }
    }
  }

  lemma ListedInTurn(occs: seq<Occ>, out: seq<Command>)
    requires out == Select(Outstanding(occs), IssueOrder(occs))
    ensures forall p, q | 0 <= p < q < |out| :: IssuedInTurn(occs, out[p].id, out[q].id)
  {
    OutstandingListed(occs);
    PlacesRise(occs);
    var at := SelectInTurn(Outstanding(occs), IssueOrder(occs));
    forall p, q | 0 <= p < q < |out| ensures IssuedInTurn(occs, out[p].id, out[q].id) {
      var i, j := Places(occs)[at[p]], Places(occs)[at[q]];
      assert Issues(occs[i], out[p].id) && Issues(occs[j], out[q].id);
    }
  }

  /** PendingCommands: exactly the unanswered commands, in the order they were issued; one
      is repeated exactly when it was answered before and issued again. */
  method PendingCommands(occs: seq<Occ>) returns (out: seq<Command>)
    ensures forall c: Command :: c in out <==> Unanswered(occs, c.id, c)
    ensures forall c: Command :: c in out <==> c.id in Outstanding(occs) && Outstanding(occs)[c.id] == c
    ensures DistinctIds(out) <==> forall id <- Outstanding(occs) :: !AnsweredOnce(occs, id)
    ensures NoReissue(occs) ==> DistinctIds(out)
    ensures forall p, q | 0 <= p < q < |out| :: IssuedInTurn(occs, out[p].id, out[q].id)
  {
    var pending: map<CommandId, Command> := map[];
    var order: seq<CommandId> := [];
    var k := 0;
    while k < |occs|
      invariant k <= |occs|
      invariant pending == Outstanding(occs[..k]) && order == IssueOrder(occs[..k])
    {
      assert occs[..k + 1][..k] == occs[..k];
      match occs[k] {
        case CommandIssued(c) =>
          if c.id !in pending {
            order := order + [c.id];
          }
          pending := pending[c.id := c];
        case CommandResult(r) =>
          pending := pending - {r.id};
        case _ =>
      }
      k := k + 1;
    }
    assert occs[..k] == occs;
    out := [];
    k := 0;
    while k < |order|
      invariant k <= |order|
      invariant out == Select(pending, order[..k])
    {
      assert order[..k + 1][..k] == order[..k];
      if order[k] in pending {
        out := out + [pending[order[k]]];
      }
      k := k + 1;
    }
    assert order[..k] == order;
    OutstandingListed(occs);
    SelectMeaning(pending, order);
    forall c: Command ensures c.id in pending && pending[c.id] == c <==> Unanswered(occs, c.id, c) {
      OutstandingMeaning(occs, c.id, c);
    }
    if NoReissue(occs) {
      IssuedOnce(occs);
    }
    ListedOnce(occs, out);
    ListedInTurn(occs, out);
  }

  /** An id issued again after its answer is listed twice. */
  lemma ReissueIsListedTwice(c: Command, r: SideEffectResult)
    requires r.id == c.id
    ensures var occs := [CommandIssued(c), CommandResult(r), CommandIssued(c)];
      Select(Outstanding(occs), IssueOrder(occs)) == [c, c]
  {
    var one, two, occs := [CommandIssued(c)], [CommandIssued(c), CommandResult(r)], [CommandIssued(c), CommandResult(r), CommandIssued(c)];
    assert occs[..2] == two && two[..1] == one && one[..0] == [];
    assert Outstanding(one) == map[c.id := c] && IssueOrder(one) == [c.id];
    assert Outstanding(two) == map[] && IssueOrder(two) == [c.id];
    assert Outstanding(occs) == map[c.id := c] && IssueOrder(occs) == [c.id, c.id];
    SelectTwice(map[c.id := c], c);
  }

  lemma SelectTwice(pending: map<CommandId, Command>, c: Command)
    requires c.id in pending && pending[c.id] == c
    ensures Select(pending, [c.id, c.id]) == [c, c]
  {
    assert [c.id, c.id][..1] == [c.id] && [c.id][..0] == [];
    assert Select(pending, [c.id]) == [c];
  }
}
