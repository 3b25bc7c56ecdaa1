/**
 The reference protocol: which record may follow which log. `Legal` is the guard of
 each kind of record, `Advance` its effect on an observer that keeps the folded state
 and a little history. A log is reachable when every record in it was legal. The
 runtime proves each record it writes legal; the results about whole runs are lemmas
 about reachable logs.
 */
module Protocol {
  import opened Definition
  import opened Journal
  import opened Joins

  // ------------------------------------------------------------ fork scopes

  function DoneSet(s: Scope): set<BranchId> {
    set b | b in s.branches && s.branches[b].done
  }

  function SucceededSet(s: Scope): set<BranchId> {
    set b | b in s.branches && s.branches[b].status == Completed
  }

  function FailedSet(s: Scope): set<BranchId> {
    set b | b in s.branches && s.branches[b].status == Failed
  }

  predicate AllDone(s: Scope) {
    forall b <- s.branches :: s.branches[b].done
  }

  /** The convergence condition of a fork. */
  predicate Satisfied(s: Scope) {
    && s.branches != map[]
    && match s.mode
       case Any => |SucceededSet(s)| >= 1
       case NofM => |SucceededSet(s)| >= (if s.required <= 0 then 1 else s.required)
       case _ => AllDone(s)
  }

  /** Converged, and not failed fast. */
  predicate Converged(s: Scope) {
    Satisfied(s) && (s.failFast ==> FailedSet(s) == {})
  }

  /** Nothing is left to wait for: converged, exhausted, or failed fast. */
  predicate Settled(s: Scope) {
    Satisfied(s) || AllDone(s) || (s.failFast && FailedSet(s) != {})
  }

  /** The join a fork is created with: declared, else inferred. */
  ghost function StaticJoin(def: ProcessDef, node: Node): string {
    if node.fork.Some? && node.fork.value.joinNode != "" then node.fork.value.joinNode
    else CommonJoin(def, node.id, Starts(node))
  }

  /** Mode, threshold and timeout: the fork's own join settings first, the join node's
      where the fork is silent. */
  function Convergence(def: ProcessDef, node: Node, join: string): (Mode, int, int) {
    var base := if node.fork.Some? && node.fork.value.mode != Unset then node.fork.value.mode else All;
    var far := if join in def.nodes && def.nodes[join].ntype.Join? then def.nodes[join].join else None;
    match (node.join, far)
    case (None, None) => (base, 0, 0)
    case (Some(j), None) => (if j.mode != Unset then j.mode else base, j.required, j.timeout)
    case (None, Some(f)) => (if f.mode != Unset then f.mode else base, f.required, f.timeout)
    case (Some(j), Some(f)) =>
      (if j.mode != Unset then j.mode else if f.mode != Unset then f.mode else base,
       if j.required == 0 && f.required > 0 then f.required else j.required,
       if j.timeout == 0 then f.timeout else j.timeout)
  }

  function InitialBranches(node: Node): map<BranchId, BranchState> {
    map i | 0 <= i < |node.transitions| :: BranchId(node.id, i) :=
      BranchState(BranchId(node.id, i), node.transitions[i].next, node.transitions[i].next, Running, None, false, "")
  }

  /** The scope a fork node opens. */
  ghost function ForkScope(def: ProcessDef, node: Node, startedAt: int): Scope {
    var join := StaticJoin(def, node);
    var c := Convergence(def, node, join);
    Scope(node.id, join, c.0, node.fork.Some? && node.fork.value.failFast, c.1, c.2, startedAt, InitialBranches(node))
  }

  // --------------------------------------------------------------- observer

  /** What the engine was last doing: visiting a node or serving a wake-up, with the
      variables of that moment. */
  datatype Moment =
    | Nowhere
    | Visited(node: string, vars: Env)
    | Woken(slot: Slot, waiting: WaitingState, vars: Env)

  /** A completed command's declared inverse. */
  datatype Inverse = Inverse(node: string, command: CommandId, effect: SideEffect)

  function UndoOf(inv: Inverse, position: nat): UndoEntry {
    UndoEntry(inv.node, inv.command, UndoCommand(position, inv.command), inv.effect, false)
  }

  /** Traces of a crash: a completed command whose inverse was not pushed any more, and
      a command issued again because no result of it was logged. */
  datatype Scars = Scars(lost: bool, reissued: bool)

  const UNSCARRED := Scars(false, false)

  datatype Audit = Audit(
    st: State,                              // the fold of the log
    event: Option<Event>,                   // the live current event
    moment: Moment,
    waking: Option<(Slot, WaitingState)>,   // the due slot being served, until the next event
    cleared: Option<(Slot, WaitingState)>,  // the slot removed by the last record
    popped: Option<Scope>,                  // the scope just closed
    issued: map<CommandId, Command>,
    resolved: set<CommandId>,
    inverses: seq<Inverse>,                 // of every completed result, in order
    owed: Option<Inverse>,                  // the one not yet on the undo stack
    scars: Scars,                           // what crashes left behind
    peak: nat,                              // the most dedup keys ever folded
    steps: nat,                             // visits since the last event, wake-up or join
    landing: Option<Env>,                   // the variables when it was put on its node, until it is driven or moves
    moves: nat)                             // how often it was moved or put somewhere

  const MAX_DRAIN_STEPS := 2000

  function NewAudit(cfg: Config): Audit {
    Audit(NewState(cfg.def), None, Nowhere, None, None, None, map[], {}, [], None, UNSCARRED, 0, 0, None, 0)
  }

  function InverseOf(a: Audit, r: SideEffectResult): Option<Inverse> {
    if r.status == ResultCompleted && r.id in a.issued && a.issued[r.id].compensation.Some? then
      Some(Inverse(a.issued[r.id].node, r.id, a.issued[r.id].compensation.value))
    else None
  }

  function NextState(a: Audit, o: Occ): State {
    match Apply(a.st, o) case Some(t) => t case None => a.st
  }

  function NextEvent(a: Audit, o: Occ): Option<Event> {
    match o
    case EventConsumed(_, Some(ev), _) => Some(ev)
    case Woke(_) => None
    case _ => a.event
  }

  function NextMoment(a: Audit, o: Occ): Moment {
    match o
    case NodeVisited(n) => Visited(n, a.st.vars)
    case Woke(_) =>
      if a.cleared.Some? then Woken(a.cleared.value.0, a.cleared.value.1, a.st.vars) else Nowhere
    case EventConsumed(_, Some(_), _) => Nowhere
    case _ => a.moment
  }

  function NextWaking(a: Audit, o: Occ): Option<(Slot, WaitingState)> {
    match o
    case Woke(_) => a.cleared
    case EventConsumed(_, Some(_), _) => None
    case _ => a.waking
  }

  function NextCleared(a: Audit, o: Occ): Option<(Slot, WaitingState)> {
    if o.WaitingCleared? && o.slot in a.st.waitings then Some((o.slot, a.st.waitings[o.slot])) else None
  }

  function NextPopped(a: Audit, o: Occ): Option<Scope> {
    match o
    case ScopePopped(_) => if a.st.scopes == [] then None else Some(a.st.scopes[|a.st.scopes| - 1])
    case EventConsumed(_, _, _) => None
    case NodeVisited(_) => None
    case NodeSet(_) => None
    case _ => a.popped
  }

  function NextOwed(a: Audit, o: Occ): Option<Inverse> {
    if o.CommandResult? then InverseOf(a, o.result) else None
  }

  function NextScars(a: Audit, o: Occ): Scars {
    Scars(
      a.scars.lost || (a.owed.Some? && !o.CompensationPushed?),
      a.scars.reissued || (o.CommandIssued? && o.command.id in a.issued))
  }

  function NextSteps(a: Audit, o: Occ): nat {
    match o
    case NodeVisited(_) => a.steps + 1
    case EventConsumed(_, _, _) => 0
    case Woke(_) => 0
    case NodeSet(_) => 0
    case _ => a.steps
  }

  function NextLanding(a: Audit, o: Occ): Option<Env> {
    match o
    case NodeSet(_) => Some(a.st.vars)
    case EventConsumed(_, _, _) => None
    case Woke(_) => None
    case Transitioned(_, _, _) => None
    case _ => a.landing
  }

  /** The instance is moved or put somewhere. */
  predicate Moves(o: Occ) {
    o.Transitioned? || o.NodeSet?
  }

  /** It is driven, or moves. */
  predicate Leaves(o: Occ) {
    o.EventConsumed? || o.Woke? || Moves(o)
  }

  function Max(x: nat, y: nat): nat {
    if x > y then x else y
  }

  function Advance(a: Audit, o: Occ): Audit {
    Audit(
      NextState(a, o),
      NextEvent(a, o),
      NextMoment(a, o),
      NextWaking(a, o),
      NextCleared(a, o),
      NextPopped(a, o),
      if o.CommandIssued? then a.issued[o.command.id := o.command] else a.issued,
      if o.CommandResult? then a.resolved + {o.result.id} else a.resolved,
      if NextOwed(a, o).Some? then a.inverses + [NextOwed(a, o).value] else a.inverses,
      NextOwed(a, o),
      NextScars(a, o),
      Max(|NextState(a, o).keys|, a.peak),
      NextSteps(a, o),
      NextLanding(a, o),
      if Moves(o) then a.moves + 1 else a.moves)
  }

  // ------------------------------------------------------------------ guards

  /** The key was not consumed before, unless the bounded table may have dropped it. */
  predicate FreshKey(a: Audit, key: Key) {
    key !in a.st.keys || a.peak > MAX_EVENTS
  }

  predicate GateOpen(def: ProcessDef, n: string, ev: Event) {
    n in def.nodes && def.nodes[n].requirePrincipal && NodeAccepts(def.nodes[n], ev.name) ==>
      ValidDecisionPrincipal(def.nodes[n], ev.principal)
  }

  /** An external event is consumed only by an instance that is not terminal, that has
      a place for it and, where attribution is required, carries a principal. */
  predicate Admissible(cfg: Config, a: Audit, ev: Event) {
    && a.st.status in {Pending, Waiting}
    && (KeyOf(ev.id).Some? ==> FreshKey(a, KeyOf(ev.id).value))
    && (a.st.status == Waiting && a.st.scopes == [] ==>
          && WaitsAt(cfg.def, a.st.node)
          && NodeAccepts(cfg.def.nodes[a.st.node], ev.name)
          && GateOpen(cfg.def, a.st.node, ev))
    && (forall i | 0 <= i < |a.st.scopes| ::
          forall b <- a.st.scopes[i].branches :: a.st.scopes[i].branches[b].status == Waiting ==>
            GateOpen(cfg.def, a.st.scopes[i].branches[b].currentNode, ev))
  }

  /** Nodes the instance is put on without waiting there: the start node and the joins of
      forks. */
  ghost predicate JumpedTo(def: ProcessDef, n: string) {
    || n == def.startNode
    || exists f <- def.nodes :: def.nodes[f].ntype.Parallel? && StaticJoin(def, def.nodes[f]) == n
  }

  /** Whoever drives a decision out of node `n` has identified itself, unless the engine has
      just put the instance there and steps on at once. */
  ghost predicate Attributed(cfg: Config, a: Audit, n: string) {
    Gated(cfg.def, n) && a.landing.None? ==>
      a.event.Some? && ValidDecisionPrincipal(cfg.def.nodes[n], a.event.value.principal)
  }

  /** The route of a linear step out of node `n`, visited with `vars`. */
  predicate StepsTo(cfg: Config, a: Audit, n: string, vars: Env, to: string)
    requires n in cfg.def.nodes
  {
    NextOf(cfg, cfg.def.nodes[n], vars, a.event) == Some(to)
  }

  /** Put on its node and running, not yet off again. */
  predicate InMotion(a: Audit) {
    a.landing.Some? && a.st.status == Running && a.st.scopes == []
  }

  /** An instance that was just put on a node does not fail there without a reason: before the
      visit only when the node is missing or worn out, after it only when the step need not
      succeed. */
  ghost predicate Denied(cfg: Config, a: Audit) {
    && InMotion(a) && a.popped.None?
    && if a.steps == 0 then !WornOut(cfg, a, a.st.node)
       else a.st.node in cfg.def.nodes && MustMove(cfg, cfg.def.nodes[a.st.node], a.landing.value, a.event)
  }

  /** The first visit after the instance was put on a node is to a node with visits left. */
  predicate VisitLegal(cfg: Config, a: Audit, n: string) {
    InMotion(a) && a.steps == 0 ==> n == a.st.node && !WornOut(cfg, a, n)
  }

  ghost predicate TransitionLegal(cfg: Config, a: Audit, from: string, to: string, name: string) {
    && from == a.st.node && from in cfg.def.nodes
    && a.st.scopes == [] && Instance !in a.st.waitings
    && match a.moment
       case Visited(n, vars) =>
         && n == from && name == EventName(a.event)
         && StepsTo(cfg, a, from, vars, to) && (a.landing.Some? ==> vars == a.landing.value && a.steps >= 1)
         && Attributed(cfg, a, from) && !MustFail(cfg, cfg.def.nodes[from], vars, a.event)
       case Woken(slot, w, _) =>
         && slot == Instance && w.node == from && name == "deadline" && a.landing.None?
         && to == w.next && to in cfg.def.nodes
       case Nowhere => false
  }

  /** How a branch leaves the node it visited. */
  predicate BranchLeaves(cfg: Config, a: Audit, n: string, vars: Env, to: string)
    requires n in cfg.def.nodes
  {
    var node := cfg.def.nodes[n];
    var trs := node.transitions;
    if node.ntype.Ai? then
      && a.event.Some? && a.event.value.name == AiEventName(node) && node.ai.Some?
      && AiRoute(cfg, node, ParseAiResult(a.event.value.payload), a.st.vars) == Some(to)
    else
      && EnterEnv(cfg, node, vars).Some?
      && (|| (to != "" && node.ntype in {Condition, Timer} && WhenRoute(cfg, trs, EnterEnv(cfg, node, vars).value) == Goto(to))
          || (a.event.Some? && to != "" && !node.ntype.Timer? && EventNext(trs, a.event.value.name) == Some(to))
          || (to != "" && !IsWaitingNode(node) && !node.ntype.Condition? && FirstNext(trs) == to))
  }

  /** The branch's own timer came due at node `n`, wherever the branch now stands. */
  predicate TimerFor(cfg: Config, a: Audit, b: BranchId, n: string) {
    && a.waking.Some? && a.waking.value.0 == BranchSlot(b) && a.waking.value.1.node == n
    && n in cfg.def.nodes && cfg.def.nodes[n].ntype.Timer?
  }

  /** A branch moves along its node's routes, or where its timer or deadline sends it. */
  ghost predicate BranchMoves(cfg: Config, a: Audit, old_: BranchState, b: BranchState) {
    match a.moment
    case Visited(n, vars) =>
      && (n == old_.currentNode || TimerFor(cfg, a, b.id, n)) && n in cfg.def.nodes
      && BranchLeaves(cfg, a, n, vars, b.currentNode)
      && (Gated(cfg.def, n) ==> a.event.Some? && ValidDecisionPrincipal(cfg.def.nodes[n], a.event.value.principal))
    case Woken(slot, w, _) =>
      slot == BranchSlot(b.id) && b.currentNode == w.next && w.next in cfg.def.nodes && b.actor == Some(SYSTEM_PRINCIPAL)
    case Nowhere => false
  }

  ghost predicate BranchLegal(cfg: Config, a: Audit, fork: string, b: BranchState) {
    && |a.st.scopes| == 1 && a.st.scopes[0].fork == fork
    && b.id in a.st.scopes[0].branches
    && var s := a.st.scopes[0];
       var old_ := s.branches[b.id];
       && b.startNode == old_.startNode
       && (b.actor != old_.actor ==>
             b.actor == Some(SYSTEM_PRINCIPAL) || (a.event.Some? && b.actor == a.event.value.principal))
       && (old_.done ==> b.done)
       && (b.currentNode != old_.currentNode ==> BranchMoves(cfg, a, old_, b) && b.status == old_.status)
       && (b.status == Completed && old_.status != Completed ==>
             && b.done && b.currentNode == old_.currentNode && b.currentNode in cfg.def.nodes
             && (b.arrivedJoin == "" ==> cfg.def.nodes[b.currentNode].ntype.End?))
       && (b.arrivedJoin != old_.arrivedJoin ==>
             && b.status == Completed && b.arrivedJoin == b.currentNode && b.currentNode in cfg.def.nodes
             && (b.currentNode == s.join || cfg.def.nodes[b.currentNode].ntype.Join?))
       && (b.arrivedJoin == old_.arrivedJoin && b.arrivedJoin != "" ==> s.join != "")
       && (b.status == Canceled && old_.status != Canceled ==> !old_.done && b.done && Settled(s))
       && (b.status == Failed ==> b.done)
       && (b.status == Failed && old_.status != Failed ==> BranchFails(cfg, a, old_))
       && (b.status == Waiting && old_.status != Waiting ==> Halts(cfg, a, b))
       && (b.done && !old_.done ==> b.status in {Completed, Failed, Canceled} || (b.status == Waiting && DeadEnd(cfg.def, b)))
  }

  // ------------------------------------------------------------ grounds to fail

  predicate Succeeded(r: SideEffectResult) {
    r.status in {ResultCompleted, ResultSkipped}
  }

  /** A critical effect of the node, at its present visit, was answered without success. */
  ghost predicate CriticalFailed(cfg: Config, a: Audit, n: string) {
    && n in cfg.def.nodes
    && exists i, k | 0 <= i < |cfg.def.nodes[n].effects| && 0 <= k < |a.st.results| ::
         && cfg.def.nodes[n].effects[i].critical
         && a.st.results[k].id == NodeCommand(a.st.executionID, n, VisitsOf(a.st.visits, n), i)
         && !Succeeded(a.st.results[k])
  }

  predicate WornOut(cfg: Config, a: Audit, n: string) {
    n !in cfg.def.nodes || VisitsOf(a.st.visits, n) >= cfg.Cap()
  }

  /** The callback of an inference node leads nowhere. */
  predicate InferenceFails(cfg: Config, a: Audit, node: Node) {
    || a.event.None?
    || a.event.value.name != AiEventName(node)
    || node.ai.None?
    || AiRoute(cfg, node, ParseAiResult(a.event.value.payload), a.st.vars).None?
  }

  /** A linear step out of node `n`, visited with `vars`, fails. */
  predicate StepFails(cfg: Config, a: Audit, n: string, vars: Env)
    requires n in cfg.def.nodes
  {
    var node := cfg.def.nodes[n];
    match node.ntype
    case End => ContractFails(cfg, node, vars, a.st.vars)
    case Parallel => !ForkDeclared(node)
    case Ai => NextOf(cfg, node, vars, a.event).None?
    case _ => ContractFails(cfg, node, vars, a.st.vars) || NextOf(cfg, node, vars, a.event).None?
  }

  /** The inference request of a parked node cannot be built. */
  ghost predicate RequestFails(cfg: Config, a: Audit, node: Node) {
    && node.ntype.Ai?
    && exists slot: Slot :: cfg.requestPayload(node, a.st.vars,
         RequestId(a.st.executionID, node.id, VisitsOf(a.st.visits, node.id), slot)).None?
  }

  /** A fork that fails its instance: fail-fast, or nothing left that could converge. */
  predicate ForkFails(s: Scope) {
    (s.failFast && FailedSet(s) != {}) || (AllDone(s) && !Satisfied(s))
  }

  /** An instance fails only on these grounds. */
  ghost predicate FailLegal(cfg: Config, a: Audit) {
    FailGround(cfg, a) && !Denied(cfg, a)
  }

  ghost predicate FailGround(cfg: Config, a: Audit) {
    || a.st.status == Failed
    || a.steps >= MAX_DRAIN_STEPS
    || WornOut(cfg, a, a.st.node)
    || (a.popped.Some? && ForkFails(a.popped.value))
    || match a.moment
       case Nowhere => false
       case Visited(n, vars) =>
         && n in cfg.def.nodes
         && (|| (n == a.st.node && StepFails(cfg, a, n, vars))
             || ((n == a.st.node || a.st.scopes == []) && CriticalFailed(cfg, a, n))
             || RequestFails(cfg, a, cfg.def.nodes[n]))
       case Woken(_, w, vars) =>
         || w.next !in cfg.def.nodes
         || (w.node in cfg.def.nodes && ContractFails(cfg, cfg.def.nodes[w.node], vars, a.st.vars))
  }

  /** What makes a branch fail at node `n`, visited with `vars`. */
  ghost predicate NodeFails(cfg: Config, a: Audit, n: string, vars: Env)
    requires n in cfg.def.nodes
  {
    var node := cfg.def.nodes[n];
    if node.ntype.Ai? then InferenceFails(cfg, a, node)
    else
      || ContractFails(cfg, node, vars, a.st.vars)
      || CriticalFailed(cfg, a, n)
      || (node.ntype in {Condition, Timer} &&
          var r := WhenRoute(cfg, node.transitions, EnterEnv(cfg, node, vars).value);
          r.Broken? || (node.ntype.Timer? && r == Goto("")))
  }

  /** A branch fails only on these grounds. */
  ghost predicate BranchFails(cfg: Config, a: Audit, old_: BranchState) {
    || WornOut(cfg, a, old_.currentNode)
    || (a.moment.Visited? && a.moment.node in cfg.def.nodes
        && (a.moment.node == old_.currentNode || TimerFor(cfg, a, old_.id, a.moment.node))
        && NodeFails(cfg, a, a.moment.node, a.moment.vars))
  }

  /** A branch stops only where it has to wait, or where no route leads on. */
  ghost predicate Halts(cfg: Config, a: Audit, b: BranchState) {
    && b.currentNode in cfg.def.nodes
    && var node := cfg.def.nodes[b.currentNode];
       || IsWaitingNode(node)
       || (a.moment.Visited? && a.moment.node == b.currentNode
           && AutoRoute(cfg, node, EnterEnv(cfg, node, a.moment.vars)) == Some(""))
  }

  predicate DeadEnd(def: ProcessDef, b: BranchState) {
    && b.currentNode in def.nodes
    && !def.nodes[b.currentNode].ntype.Condition? && FirstNext(def.nodes[b.currentNode].transitions) == ""
  }

  // ------------------------------------------------------------------ the rest

  ghost predicate StatusLegal(cfg: Config, a: Audit, s: Status) {
    match s
    case Running => true
    case Failed => FailLegal(cfg, a)
    case Waiting =>
      || (a.st.scopes == [] && WaitsAt(cfg.def, a.st.node) && a.landing.None?)
      || (|a.st.scopes| == 1 && !Settled(a.st.scopes[0]))
    case Completed =>
      && a.st.scopes == []
      && (|| (a.moment.Visited? && a.moment.node == a.st.node && a.st.node in cfg.def.nodes && cfg.def.nodes[a.st.node].ntype.End?)
          || (a.popped.Some? && Converged(a.popped.value) && !LeavesForJoin(cfg.def, a.popped.value)))
    case TimedOut => |a.st.scopes| == 1 && !Satisfied(a.st.scopes[0])
    case _ => false
  }

  /** Whether a converged scope has a join to continue at: "join" counts only when
      there is such a node. */
  predicate LeavesForJoin(def: ProcessDef, s: Scope) {
    s.join != "" && (s.join == "join" ==> "join" in def.nodes)
  }

  /** Who may write a variable: the start call, the join summary, an output mapping of
      the node at hand, or the schema-checked output of an inference. */
  predicate VariableLegal(cfg: Config, a: Audit, name: string, v: Value) {
    || a.st.status == Pending
    || (name == "parallel_failed" && |a.st.scopes| == 1 && v == Number(|FailedSet(a.st.scopes[0])|))
    || (var n := if a.moment.Visited? then a.moment.node else if a.moment.Woken? then a.moment.waiting.node else "";
        && !a.moment.Nowhere? && n in cfg.def.nodes
        && var node := cfg.def.nodes[n];
           var entered := EnterEnv(cfg, node, a.moment.vars);
           || (entered.Some? && OutputWrites(cfg, node, entered.value, a.st.vars, name, v))
           || (a.moment.Visited? && node.ntype.Ai? && node.ai.Some? && a.event.Some? &&
               var result := ParseAiResult(a.event.value.payload);
               OutputGiven(node.ai.value, result, name) && v == result.output[name]))
  }

  predicate Lasting(d: Deadline) {
    d.after.Some? && d.after.value > 0
  }

  predicate ParkedAt(node: Node, w: WaitingState) {
    match node.ntype
    case Timer => w.kind == TimerWait && node.duration.Some? && node.duration.value > 0 && w.until.Some? && w.next == ""
    case Ai =>
      && w.kind == AiWait
      && (node.deadline.None? ==> w.until.None? && w.next == "")
      && (node.deadline.Some? ==> w.until.Some? && Lasting(node.deadline.value) && w.next == node.deadline.value.next)
    case Approval =>
      w.kind == DeadlineWait && w.until.Some? && node.deadline.Some? && Lasting(node.deadline.value) && w.next == node.deadline.value.next
    case Subprocess =>
      w.kind == DeadlineWait && w.until.Some? && node.deadline.Some? && Lasting(node.deadline.value) && w.next == node.deadline.value.next
    case _ => false
  }

  /** When a slot parked at time `at` comes due: after the duration of a timer, the deadline of
      any other waiting node, the timeout of a fork. */
  ghost function DueTime(def: ProcessDef, slot: Slot, node: Node, at: int): Option<int> {
    if slot.ScopeSlot? then Some(at + Convergence(def, node, StaticJoin(def, node)).2)
    else
      var d := if node.ntype.Timer? then node.duration
        else if node.deadline.Some? then node.deadline.value.after else None;
      if d.Some? then Some(at + d.value) else None
  }

  /** A slot names the node that parks, or is a standing slot with the id of the
      inference request added. */
  ghost predicate SlotLegal(cfg: Config, a: Audit, slot: Slot, w: WaitingState, at: int) {
    || (slot in a.st.waitings && w == a.st.waitings[slot].(request := w.request))
    || SlotOpens(cfg, a, slot, w, at)
  }

  /** Parked at time `at`, it comes due when the declared duration has passed. */
  ghost predicate SlotOpens(cfg: Config, a: Audit, slot: Slot, w: WaitingState, at: int) {
    && w.node in cfg.def.nodes && w.visit == VisitsOf(a.st.visits, w.node) && w.request.None?
    && w.until == DueTime(cfg.def, slot, cfg.def.nodes[w.node], at)
    && match slot
       case Instance => a.st.scopes == [] && w.node == a.st.node && ParkedAt(cfg.def.nodes[w.node], w)
       case BranchSlot(b) =>
         && |a.st.scopes| == 1 && b in a.st.scopes[0].branches
         && a.st.scopes[0].branches[b].currentNode == w.node
         && ParkedAt(cfg.def.nodes[w.node], w)
       case ScopeSlot(f) =>
         && a.st.scopes == [] && f == a.st.node == w.node && w.kind == ScopeWait && w.until.Some?
         && cfg.def.nodes[f].ntype.Parallel? && cfg.def.nodes[f].transitions != []
  }

  /** The command a node's i-th declared effect becomes. */
  function EffectCommand(exec: string, node: Node, visit: nat, i: nat): Command
    requires i < |node.effects|
  {
    var e := node.effects[i];
    Command(NodeCommand(exec, node.id, visit, i), node.id, e.kind, e.target, e.payload, e.critical, e.compensation)
  }

  function RequestId(exec: string, n: string, visit: nat, slot: Slot): CommandId {
    if slot == Instance then NodeCommand(exec, n, visit, 0) else BranchRequest(exec, n, visit, slot)
  }

  function UndoOrder(e: UndoEntry): Command {
    Command(e.key, e.node, e.effect.kind, e.effect.target, e.effect.payload, false, None)
  }

  /** What a command stands for: an effect of a node at its present visit, an
      inference request, or a fired compensation. */
  predicate Justified(cfg: Config, a: Audit, c: Command) {
    match c.id
    case NodeCommand(exec, n, visit, i) =>
      OwnEffect(cfg, a, c) ||
      (exec == a.st.executionID && visit == VisitsOf(a.st.visits, n) && i == 0 && Requests(cfg, a, n, c))
    case BranchRequest(exec, n, visit, slot) =>
      && exec == a.st.executionID && visit == VisitsOf(a.st.visits, n) && Requests(cfg, a, n, c)
    case UndoCommand(p, _) =>
      p < |a.st.undo| && a.st.undo[p].done && c == UndoOrder(a.st.undo[p])
  }

  /** The command of an effect of its node, at the node's present visit. */
  predicate OwnEffect(cfg: Config, a: Audit, c: Command) {
    && c.id.NodeCommand? && c.id.exec == a.st.executionID && c.id.node in cfg.def.nodes
    && c.id.visit == VisitsOf(a.st.visits, c.id.node) && c.id.index < |cfg.def.nodes[c.id.node].effects|
    && c == EffectCommand(c.id.exec, cfg.def.nodes[c.id.node], c.id.visit, c.id.index)
  }

  predicate Requests(cfg: Config, a: Audit, n: string, c: Command) {
    && n in cfg.def.nodes && cfg.def.nodes[n].ntype.Ai?
    && c.node == n && c.kind == AiKind(cfg.def.nodes[n]) && c.target == AiTarget(cfg.def.nodes[n])
    && !c.critical && c.compensation.None?
    && cfg.requestPayload(cfg.def.nodes[n], a.st.vars, c.id) == Some(c.payload)
  }

  /** Issued for the first time, or again because no result was ever logged. */
  predicate IssueLegal(cfg: Config, a: Audit, c: Command) {
    || (c.id !in a.issued && Justified(cfg, a, c))
    || (c.id in a.issued && c.id !in a.resolved && a.issued[c.id] == c)
  }

  /** The entry `i` may be compensated: not done, and everything above it is. */
  predicate NextToUndo(undo: seq<UndoEntry>, i: nat) {
    i < |undo| && !undo[i].done && forall j | i < j < |undo| :: undo[j].done
  }

  /** A wake-up serves a registered slot that has a due time, under that slot's key. */
  predicate WakeLegal(a: Audit, key: Key) {
    && key.Wake? && FreshKey(a, key) && a.st.status != Running
    && key.slot in a.st.waitings
    && a.st.waitings[key.slot].until.Some?
    && key == Wake(key.slot, a.st.waitings[key.slot].kind, a.st.waitings[key.slot].visit)
  }

  predicate WokeLegal(a: Audit, slot: Slot) {
    && a.st.status != Running
    && a.cleared.Some? && a.cleared.value.0 == slot && a.cleared.value.1.until.Some?
    && Wake(slot, a.cleared.value.1.kind, a.cleared.value.1.visit) in a.st.keys
  }

  predicate ReleaseLegal(a: Audit, key: Key) {
    a.st.scopes != [] && a.event.Some? && KeyOf(a.event.value.id) == Some(key)
  }

  /** The instance jumps to a node only when it starts or when a fork has converged. */
  predicate NodeSetLegal(cfg: Config, a: Audit, n: string) {
    && a.st.scopes == [] && Instance !in a.st.waitings
    && (|| (a.st.status == Pending && n == cfg.def.startNode)
        || (a.popped.Some? && Converged(a.popped.value) && LeavesForJoin(cfg.def, a.popped.value) && n == a.popped.value.join))
  }

  ghost predicate PushLegal(cfg: Config, a: Audit, s: Scope) {
    && a.st.scopes == [] && Instance !in a.st.waitings && a.st.node in cfg.def.nodes
    && var node := cfg.def.nodes[a.st.node];
       && node.ntype.Parallel? && node.transitions != []
       && (forall i | 0 <= i < |node.transitions| :: node.transitions[i].next != "")
       && s == ForkScope(cfg.def, node, s.startedAt)
       && a.moment.Visited? && a.moment.node == a.st.node
  }

  predicate PopLegal(a: Audit, fork: string) {
    |a.st.scopes| == 1 && a.st.scopes[0].fork == fork && Settled(a.st.scopes[0])
  }

  predicate UndoPushLegal(a: Audit, u: UndoEntry) {
    a.owed.Some? && u == UndoOf(a.owed.value, |a.st.undo|)
  }

  predicate FireLegal(a: Audit, key: CommandId) {
    exists i | 0 <= i < |a.st.undo| :: NextToUndo(a.st.undo, i) && a.st.undo[i].key == key
  }

  ghost predicate Legal(cfg: Config, a: Audit, o: Occ) {
    match o
    case Started(_, _) => a == NewAudit(cfg)
    case EventConsumed(key, Some(ev), _) => key == KeyOf(ev.id) && Admissible(cfg, a, ev)
    case EventConsumed(key, None, _) => key.Some? && WakeLegal(a, key.value)
    case EventReleased(key) => ReleaseLegal(a, key)
    case NodeVisited(n) => n in cfg.def.nodes && VisitLegal(cfg, a, n)
    case Transitioned(from, to, name) => TransitionLegal(cfg, a, from, to, name)
    case NodeSet(n) => NodeSetLegal(cfg, a, n)
    case StatusSet(s) => StatusLegal(cfg, a, s)
    case VariableSet(name, v) => VariableLegal(cfg, a, name, v)
    case ScopePushed(s) => PushLegal(cfg, a, s)
    case ScopePopped(fork) => PopLegal(a, fork)
    case BranchUpdated(fork, b) => BranchLegal(cfg, a, fork, b)
    case WaitingSet(slot, w, at) => SlotLegal(cfg, a, slot, w, at)
    case WaitingCleared(slot) => slot in a.st.waitings
    case Woke(slot) => WokeLegal(a, slot)
    case CommandIssued(c) => IssueLegal(cfg, a, c)
    case CommandResult(r) => r.id in a.issued && r.id !in a.resolved
    case CompensationPushed(u) => UndoPushLegal(a, u)
    case CompensationFired(key) => FireLegal(a, key)
    case DefActivated => false
  }

  /** The observer after a log, None when some record of it was not legal. */
  ghost function Reach(cfg: Config, log: seq<Occ>): Option<Audit> {
    if log == [] then Some(NewAudit(cfg))
    else
      match Reach(cfg, log[..|log| - 1])
      case None => None
      case Some(a) => if Legal(cfg, a, log[|log| - 1]) then Some(Advance(a, log[|log| - 1])) else None
  }

  lemma ReachNext(cfg: Config, log: seq<Occ>, a: Audit, o: Occ)
    requires Reach(cfg, log) == Some(a) && Legal(cfg, a, o)
    ensures Reach(cfg, log + [o]) == Some(Advance(a, o))
  {
    assert (log + [o])[..|log|] == log;
  }
}
