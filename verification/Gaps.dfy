/**
 Runs in which the engine breaks what its documentation promises: a decision taken without
 the principal its node requires, and an instance stranded on a timer whose wake-up was
 taken for a repetition.
 */
module Gaps {
  import opened Definition
  import opened Journal
  import opened Protocol
  import opened Frames
  import opened Context
  import opened Contract
  import opened Effects
  import opened Executor
  import opened Feeding
  import opened Branches
  import opened Parking
  import opened Engine
  import opened Guarantees
  import opened Temporal
  import opened Session

  // ------------------------------------------------------------ decisions without a gate

  /** A node whose decision the driver may not take: an event without the principal the node
      requires, or no event at all. */
  predicate Forbidden(def: ProcessDef, n: string, e: Option<Event>) {
    Gated(def, n) && (e.None? || !ValidDecisionPrincipal(def.nodes[n], e.value.principal))
  }

  /** After the jump at record `j` the instance moved on from where it was put, and nobody who
      may decide there stands behind it. */
  ghost predicate LeftUnowned(cfg: Config, log: seq<Occ>, j: nat) {
    exists k: nat :: Straightway(log, j, k) && log[j].NodeSet? && log[j].node in cfg.def.nodes
      && log[k].Transitioned? && log[k].from == log[j].node && !Owned(cfg, log, k)
  }

  /** Its outputs can be written in one order and not in another. */
  ghost predicate OrdersOpen(cfg: Config, node: Node, vars: Env) {
    && !node.ntype.Ai? && EnterEnv(cfg, node, vars).Some?
    && OrderMatters(cfg, node, EnterEnv(cfg, node, vars).value, vars)
  }

  /** The jump put the instance, with these variables and visits, on a node whose decision is
      not gated: it was left there and then without an owner, or it failed. It was left exactly
      when the node has visits to spare and its step can be taken, which only the order of
      several outputs can leave open. */
  ghost predicate Ungated(cfg: Config, log: seq<Occ>, j: nat, vars: Env, visits: nat, e: Option<Event>) {
    && Jump(log, j) && log[j].node in cfg.def.nodes
    && var node := cfg.def.nodes[log[j].node];
       && (LeftUnowned(cfg, log, j) <==> !FailedAtOnce(log, j))
       && (MustMove(cfg, node, vars, e) && visits < cfg.Cap() ==> LeftUnowned(cfg, log, j))
       && (MustFail(cfg, node, vars, e) || visits >= cfg.Cap() ==> FailedAtOnce(log, j))
       && (!OrdersOpen(cfg, node, vars) ==> (LeftUnowned(cfg, log, j) <==> MustMove(cfg, node, vars, e) && visits < cfg.Cap()))
  }

  /** The gate does not hold where the engine puts an instance: at every jump of every run, to
      a node whose decision the live event may not take, inferences included. */
  lemma EveryJump(cfg: Config, log: seq<Occ>, j: nat)
    requires WellFormed(cfg.def) && Reach(cfg, log).Some? && !InMotion(Reach(cfg, log).value)
    requires Jump(log, j) && Forbidden(cfg.def, log[j].node, At(cfg, log, j + 2).event)
    ensures var a := At(cfg, log, j + 2);
      Ungated(cfg, log, j, a.st.vars, VisitsOf(a.st.visits, log[j].node), a.event)
  {
    var a := At(cfg, log, j + 2);
    var node := cfg.def.nodes[log[j].node];
    hide Reach, MustMove, MustFail, NextOf, OrderMatters, ValidDecisionPrincipal, EnterEnv, Owned, LeftUnowned, FailedAtOnce, LeftAtOnce;
    JumpsDecided(cfg, log, j);
    MoveDecided(cfg, node, a.st.vars, a.event);
    if !FailedAtOnce(log, j) {
      LeftIsUnowned(cfg, log, j, NextOf(cfg, node, a.st.vars, a.event).value, a.event);
    }
    if LeftUnowned(cfg, log, j) {
      UnownedIsLeft(cfg, log, j);
    }
  }

  lemma LeftIsUnowned(cfg: Config, log: seq<Occ>, j: nat, to: string, e: Option<Event>)
    requires LeftAtOnce(log, j, to, e) && Forbidden(cfg.def, log[j].node, e)
    ensures LeftUnowned(cfg, log, j)
  {
    hide ValidDecisionPrincipal;
    var k: nat :| Straightway(log, j, k) && log[j].NodeSet? && log[k] == Transitioned(log[j].node, to, EventName(e)) && LastEvent(log[..k]) == e;
    assert !Owned(cfg, log, k);
  }

  lemma UnownedIsLeft(cfg: Config, log: seq<Occ>, j: nat)
    requires LeftUnowned(cfg, log, j)
    ensures !FailedAtOnce(log, j)
  {
    hide Owned;
    var k: nat :| Straightway(log, j, k) && log[j].NodeSet? && log[j].node in cfg.def.nodes
      && log[k].Transitioned? && log[k].from == log[j].node && !Owned(cfg, log, k);
    FirstWay(log, j, k);
  }

  lemma AtRestIsStill(cfg: Config, a: Audit)
    requires Boundary(cfg, a)
    ensures !InMotion(a)
  {
  }

  /** The start node requires a principal the sender of the first event lacks. */
  method GatedStart(cfg: Config, now: int, instance: string, execution: string, vars: Env, ev: Event) returns (rt: Runtime)
    requires WellFormed(cfg.def) && Forbidden(cfg.def, cfg.def.startNode, Some(ev))
    ensures rt.Idle() && rt.ctx.cfg == cfg && fresh(rt.ctx) && |vars| + 4 <= |rt.ctx.log|
    ensures rt.ctx.log[|vars| + 2] == NodeSet(cfg.def.startNode)
    ensures Ungated(cfg, rt.ctx.log, |vars| + 2, cfg.def.varInit + vars, 0, Some(ev))
  {
    hide Reach, Legal, Advance, Apply, Boundary, AtRest, FirstStep, Ungated, Forbidden, Finished;
    rt := new Runtime(cfg, now);
    rt.Start(instance, execution, vars, ev);
    AtRestIsStill(cfg, rt.ctx.audit);
    EveryJump(cfg, rt.ctx.log, |vars| + 2);
  }

  /** The event completes the open fork and the engine leaves it for its join: the branches that
      hear it end at the join, and with them the fork converges. */
  ghost predicate Completes(cfg: Config, st: State, ev: Event) {
    |st.scopes| == 1 && Gathers(cfg, st, ev) && Leaving(cfg.def, Gathered(cfg, st, {}, ev))
  }

  /** However a fork came to leave for its join, by an event, a timer or a deadline. */
  lemma LandingUngated(cfg: Config, mid: Mark, n: Mark) returns (j: nat)
    requires WellFormed(cfg.def) && Reach(cfg, n.log) == Some(n.audit) && Boundary(cfg, n.audit)
    requires Settles(cfg, mid, n) && Leaving(cfg.def, mid.audit.st.scopes[0])
    requires Forbidden(cfg.def, mid.audit.st.scopes[0].join, mid.audit.event)
    ensures |mid.log| <= j && Jump(n.log, j) && n.log[j].node == mid.audit.st.scopes[0].join
    ensures Ungated(cfg, n.log, j, LandedState(mid.audit.st).vars,
              VisitsOf(mid.audit.st.visits, mid.audit.st.scopes[0].join), mid.audit.event)
  {
    hide Reach, Boundary, Leaving, Forbidden, Ungated, EndsPlainly, Settled;
    AtRestIsStill(cfg, n.audit);
    j :| |mid.log| <= j && Jump(n.log, j)
      && At(cfg, n.log, j + 2).st == LandedState(mid.audit.st) && At(cfg, n.log, j + 2).event == mid.audit.event;
    JumpLands(cfg, n.log, j);
    EveryJump(cfg, n.log, j);
  }

  lemma JumpLands(cfg: Config, log: seq<Occ>, j: nat)
    requires Reach(cfg, log).Some? && Jump(log, j)
    ensures At(cfg, log, j + 2).st.node == log[j].node
  {
    hide Reach, StatusLegal;
    AtNext(cfg, log, j);
    AtNext(cfg, log, j + 1);
  }

  lemma FedLands(cfg: Config, m: Mark, n: Mark, ev: Event) returns (j: nat)
    requires WellFormed(cfg.def) && Reach(cfg, n.log) == Some(n.audit) && Boundary(cfg, n.audit)
    requires SettledBy(cfg, m, n, ev) && Completes(cfg, m.audit.st, ev)
    requires Forbidden(cfg.def, m.audit.st.scopes[0].join, Some(ev))
    ensures |m.log| <= j && Jump(n.log, j) && n.log[j].node == m.audit.st.scopes[0].join
    ensures Ungated(cfg, n.log, j, LandedState(m.audit.st).vars, VisitsOf(m.audit.st.visits, m.audit.st.scopes[0].join), Some(ev))
  {
    hide Reach, Boundary, Leaving, Forbidden, Ungated, Settles, OfferedBut, Gathers, FailedSet, Gathered;
    var mid: Mark :| SettlesFrom(cfg, m, mid, n, ev);
    FailedStay(cfg, m.audit.st, ev);
    j := LandingUngated(cfg, mid, n);
  }

  lemma FailedStay(cfg: Config, st: State, ev: Event)
    requires |st.scopes| == 1
    ensures FailedSet(Gathered(cfg, st, {}, ev)) == FailedSet(st.scopes[0]) && Gathered(cfg, st, {}, ev).join == st.scopes[0].join
  {
    hide Hears;
  }

  /** Anywhere in a run: an event taken by the branches completes their fork, and the same event
      decides at the join, whatever principal that one requires. */
  method GatedCompletion(rt: Runtime, given: Event) returns (ghost j: nat)
    requires rt.Idle() && rt.Takes(rt.Attribute(given)) && Completes(rt.ctx.cfg, rt.ctx.audit.st, rt.Attribute(given))
    requires Forbidden(rt.ctx.cfg.def, rt.ctx.scopes[0].join, Some(rt.Attribute(given)))
    modifies rt.ctx
    ensures rt.Idle() && old(rt.ctx.log) <= rt.ctx.log
    ensures |old(rt.ctx.log)| <= j && Jump(rt.ctx.log, j) && rt.ctx.log[j].node == old(rt.ctx.scopes[0].join)
    ensures Ungated(rt.ctx.cfg, rt.ctx.log, j, old(LandedState(rt.ctx.audit.st)).vars,
              old(rt.ctx.VisitOf(rt.ctx.scopes[0].join)), Some(old(rt.Attribute(given))))
  {
    hide Reach, Legal, Advance, Apply, Boundary, AtRest, Gathers, Gathered, Leaving, Forbidden, Ungated, Hears, OfferedBut, Driven, SettledBy, BranchGatesOpen, GateOpen;
    ghost var m, ev := MarkOf(rt.ctx), rt.Attribute(given);
    var f := rt.Feed(given);
    j := FedLands(rt.ctx.cfg, m, MarkOf(rt.ctx), ev);
  }

  // Definitions a file can hold: a first node, a fork with an approval on each branch, and a
  // join that requires a principal, an approval or an inference.

  function Plain(id: string, ntype: NodeType, duration: Option<int>, next: string): Node {
    Node(id, ntype, [], [Transition("", "", next, "")], None, None, map[], map[], duration, None, false, None)
  }

  function EndAt(): Node {
    Node("end", End, [], [], None, None, map[], map[], None, None, false, None)
  }

  function Split(): Node {
    Node("split", Parallel, [], [Transition("", "", "a", ""), Transition("", "", "b", "")],
         Some(ForkConfig(All, "sign", false)), None, map[], map[], None, None, false, None)
  }

  function Approve(id: string, next: string, gated: bool): Node {
    Node(id, Approval, [], [Transition("approve", "", next, "")], None, None, map[], map[], None, None, gated, None)
  }

  function Infer(id: string, next: string): Node {
    Node(id, Ai, [], [Transition("", "", next, "yes")], None, None, map[], map[], None, None, true,
         Some(AiConfig("", "", "approve", map[], ["yes"], "")))
  }

  function SignedTwice(sign: Node): ProcessDef {
    ProcessDef(map["begin" := Plain("begin", StartNode, None, "split"), "split" := Split(), "a" := Approve("a", "sign", false),
                   "b" := Approve("b", "sign", false), "sign" := sign, "end" := EndAt()], "begin", map[], map[])
  }

  const A: BranchId := BranchId("split", 0)
  const B: BranchId := BranchId("split", 1)

  /** A branch that waits at its approval. */
  function AtApproval(id: BranchId, n: string): BranchState {
    BranchState(id, n, n, Waiting, None, false, "")
  }

  function BothWaiting(startedAt: int): Scope {
    Scope("split", "sign", All, false, 0, 0, startedAt, map[A := AtApproval(A, "a"), B := AtApproval(B, "b")])
  }

  /** The fork as it opens. */
  function BothSent(startedAt: int): Scope {
    Scope("split", "sign", All, false, 0, 0, startedAt,
      map[A := AtApproval(A, "a").(status := Running), B := AtApproval(B, "b").(status := Running)])
  }

  /** The instance waits in the fork, for both approvals. */
  ghost predicate WaitsForBoth(st: State) {
    && st.status == Waiting && |st.scopes| == 1 && st.vars == map[] && VisitsOf(st.visits, "sign") == 0
    && st.scopes[0] == BothWaiting(st.scopes[0].startedAt)
  }

  /** `ev` is nobody's, and would move the instance on from `sign`. */
  ghost predicate ByNobody(cfg: Config, sign: Node, ev: Event) {
    && sign.id == "sign" && sign.requirePrincipal && IsDecisionNode(sign) && (sign.ntype.Ai? ==> sign.ai.Some?)
    && ev.id == "" && ev.name == "approve" && ev.principal == None && ParseAiResult(ev.payload).model == ""
    && MustMove(cfg, sign, map["parallel_failed" := Number(0)], Some(ev))
  }

  lemma ApprovedByNobody(cfg: Config)
    ensures ByNobody(cfg, Approve("sign", "end", true), Event("", "approve", None, map[]))
  {
    var sign := Approve("sign", "end", true);
    var vars: Env := map["parallel_failed" := Number(0)];
    assert EventNext(sign.transitions, "approve") == Some("end");
    assert EnterEnv(cfg, sign, vars).value == vars;
  }

  lemma InferredByNobody(cfg: Config)
    ensures ByNobody(cfg, Infer("sign", "end"), Event("", "approve", None, map["choice" := Text("yes")]))
  {
    var sign := Infer("sign", "end");
    assert CaseNext(sign.transitions, "yes") == Some("end");
  }

  lemma PlainMoves(cfg: Config, id: string, ntype: NodeType, duration: Option<int>, next: string, vars: Env, e: Option<Event>)
    requires next != "" && if ntype == Timer then EventName(e) == "" else ntype == StartNode
    ensures var node := Plain(id, ntype, duration, next); NextOf(cfg, node, vars, e) == Some(next) && MustMove(cfg, node, vars, e)
  {
    var node, name := Plain(id, ntype, duration, next), EventName(e);
    assert EnterEnv(cfg, node, vars).Some? && EnterEnv(cfg, node, vars).value == vars;
    assert WhenFrom(cfg, node.transitions, vars, 1) == Goto(next);
    assert FirstNext(node.transitions) == next;
    assert EventNext(node.transitions, name) == if name == "" then Some(next) else None;
  }

  lemma SplitScope(cfg: Config, sign: Node, t: int)
    requires cfg.def == SignedTwice(sign) && IsDecisionNode(sign)
    ensures ForkScope(cfg.def, Split(), t) == BothSent(t)
  {
    assert Convergence(cfg.def, Split(), "sign") == (All, 0, 0);
    assert StaticJoin(cfg.def, Split()) == "sign";
    hide Convergence, StaticJoin;
    assert InitialBranches(Split()) == BothSent(t).branches;
  }

  lemma BothStop(cfg: Config, sign: Node, st: State, t: int)
    requires cfg.def == SignedTwice(sign)
    requires st.scopes == [BothSent(t)] && st.visits.Keys <= {"begin", "split"}
    ensures Prompt(cfg, st) && Stopped(BothSent(t), {}) == BothWaiting(t)
  {
    assert AtDesk(cfg, st, A);
    assert AtDesk(cfg, st, B);
    assert Stopped(BothSent(t), {}).branches == BothWaiting(t).branches;
  }

  lemma BothOpen(t: int)
    ensures !Settled(BothWaiting(t))
  {
    assert !BothWaiting(t).branches[A].done;
  }

  lemma SplitOpens(cfg: Config, sign: Node, st: State, t: int)
    requires cfg.def == SignedTwice(sign) && sign.id == "sign" && IsDecisionNode(sign)
    requires st.node == "split" && st.scopes == [] && st.visits == map["begin" := 1]
    ensures OpensPlainly(cfg, st) && ForksPlainly(cfg, st)
    ensures Opened(cfg, st, t) == Visited1(st).(scopes := [BothSent(t)], waitings := st.waitings - {Instance})
    ensures Stopped(BothSent(t), {}) == BothWaiting(t) && !Settled(BothWaiting(t))
  {
    SplitScope(cfg, sign, 0);
    SplitScope(cfg, sign, t);
    hide ForkScope;
    var open := Visited1(st).(scopes := [BothSent(0)], waitings := st.waitings - {Instance});
    BothStop(cfg, sign, open, 0);
    BothStop(cfg, sign, open.(scopes := [BothSent(t)]), t);
    BothOpen(t);
    hide Prompt, Stopped, Settled;
    assert ForksPlainly(cfg, st);
    assert Opened(cfg, st, 0) == open;
  }

  lemma BeginGlides(cfg: Config, sign: Node, st: State, e: Option<Event>)
    requires cfg.def == SignedTwice(sign) && st.node == "begin" && st.visits == map[]
    ensures Glides(cfg, st, e)
    ensures Onward(cfg, st, e) == st.(visits := map["begin" := 1], node := "split", status := Running, waitings := st.waitings - {Instance})
    ensures !Glides(cfg, Onward(cfg, st, e), e) && !WaitsAt(cfg.def, "split")
  {
    PlainMoves(cfg, "begin", StartNode, None, "split", st.vars, e);
    assert !MustMove(cfg, Split(), st.vars, e);
    hide MustMove, NextOf;
  }

  lemma StartWaits(cfg: Config, sign: Node, st: State, e: Option<Event>, o: State, now: int)
    requires cfg.def == SignedTwice(sign) && sign.id == "sign" && IsDecisionNode(sign)
    requires st.node == "begin" && st.visits == map[] && st.scopes == [] && st.vars == map[]
    requires EndsPlainly(cfg, st, e, o, now, PLAIN_STEPS)
    ensures WaitsForBoth(o)
  {
    BeginGlides(cfg, sign, st, e);
    hide Glides, Onward, OpensPlainly, Opened, ForksPlainly, Settled, Stopped, SignedTwice;
    EndsSooner(cfg, st, e, o, now, 2, PLAIN_STEPS);
    var next := Onward(cfg, st, e);
    assert EndsPlainly(cfg, next, e, o, now, 1);
    SplitOpens(cfg, sign, next, StartOf(o));
    assert ForkEndsPlainly(cfg, Opened(cfg, next, StartOf(o)), e, o, now, 0);
  }

  lemma HeardAtApproval(cfg: Config, sign: Node, st: State, b: BranchState, ev: Event)
    requires cfg.def == SignedTwice(sign) && ByNobody(cfg, sign, ev) && WaitsForBoth(st)
    requires b == AtApproval(b.id, b.currentNode) && b.currentNode in {"a", "b"}
    ensures Hears(cfg, st, b, ev) && EndsBy(cfg, st, b, ev) && GateOpen(cfg.def, b.currentNode, ev)
  {
    var node := Approve(b.currentNode, "sign", false);
    assert cfg.def.nodes[b.currentNode] == node;
    assert EventNext(node.transitions, "approve") == Some("sign");
    assert EnterEnv(cfg, node, st.vars).Some?;
  }

  /** The fork once both approvals are given. */
  function BothGiven(startedAt: int): Scope {
    BothWaiting(startedAt).(branches := map[A := Ended(AtApproval(A, "a"), "sign", None), B := Ended(AtApproval(B, "b"), "sign", None)])
  }

  lemma BothGather(cfg: Config, sign: Node, st: State, ev: Event)
    requires cfg.def == SignedTwice(sign) && ByNobody(cfg, sign, ev) && WaitsForBoth(st)
    ensures Gathers(cfg, st, ev) && Gathered(cfg, st, {}, ev) == BothGiven(st.scopes[0].startedAt)
    ensures BranchGatesOpen(cfg.def, st.scopes, ev)
  {
    var s := st.scopes[0];
    HeardAtApproval(cfg, sign, st, s.branches[A], ev);
    HeardAtApproval(cfg, sign, st, s.branches[B], ev);
    hide Hears, EndsBy, GateOpen, SignedTwice, MustMove, BothWaiting;
    GatherTwo(cfg, st, s.startedAt, ev);
    BothGates(cfg.def, st, ev);
  }

  lemma GatherTwo(cfg: Config, st: State, t: int, ev: Event)
    requires st.scopes == [BothWaiting(t)] && ev.principal == None
    requires var s := BothWaiting(t).branches;
      Hears(cfg, st, s[A], ev) && EndsBy(cfg, st, s[A], ev) && Hears(cfg, st, s[B], ev) && EndsBy(cfg, st, s[B], ev)
    ensures Gathers(cfg, st, ev) && Gathered(cfg, st, {}, ev) == BothGiven(t)
  {
    hide Hears, EndsBy;
    assert Gathered(cfg, st, {}, ev).branches == BothGiven(t).branches;
  }

  lemma BothGates(def: ProcessDef, st: State, ev: Event)
    requires WaitsForBoth(st) && GateOpen(def, "a", ev) && GateOpen(def, "b", ev)
    ensures BranchGatesOpen(def, st.scopes, ev)
  {
    hide GateOpen;
  }

  lemma BothLeave(def: ProcessDef, t: int)
    ensures Leaving(def, BothGiven(t)) && FailedSet(BothWaiting(t)) == {}
  {
    assert BothGiven(t).branches.Keys == {A, B};
  }

  lemma BothComplete(cfg: Config, sign: Node, st: State, ev: Event)
    requires cfg.def == SignedTwice(sign) && ByNobody(cfg, sign, ev) && WaitsForBoth(st)
    ensures Completes(cfg, st, ev) && Forbidden(cfg.def, "sign", Some(ev)) && BranchGatesOpen(cfg.def, st.scopes, ev)
    ensures LandedState(st).vars == map["parallel_failed" := Number(0)]
  {
    BothGather(cfg, sign, st, ev);
    BothLeave(cfg.def, st.scopes[0].startedAt);
    hide Gathers, Gathered, Leaving, BranchGatesOpen, FailedSet, MustMove;
  }

  lemma TakenByNobody(rt: Runtime, sign: Node, ev: Event)
    requires rt.Idle() && WaitsForBoth(rt.ctx.audit.st) && BranchGatesOpen(rt.ctx.cfg.def, rt.ctx.scopes, ev)
    requires ByNobody(rt.ctx.cfg, sign, ev)
    ensures rt.Attribute(ev) == ev && rt.Takes(ev) && rt.ctx.VisitOf("sign") == 0
    ensures rt.ctx.scopes == rt.ctx.audit.st.scopes
  {
    hide Reach, Boundary, BranchGatesOpen, MustMove, AwaitsCallback, BothWaiting;
  }

  /** A run of such a definition. The first event opens the fork; the second approves on both
      branches and, though nobody stands behind it, decides at the join as well. */
  method SignedByNobody(cfg: Config, sign: Node, now: int, instance: string, execution: string, first: Event, ev: Event)
    returns (rt: Runtime, ghost j: nat)
    requires cfg.def == SignedTwice(sign) && ByNobody(cfg, sign, ev)
    ensures rt.Idle() && rt.ctx.cfg == cfg && fresh(rt.ctx)
    ensures Jump(rt.ctx.log, j) && rt.ctx.log[j].node == "sign" && LeftUnowned(cfg, rt.ctx.log, j)
  {
    hide Reach, Legal, Advance, Apply, Boundary, AtRest, FirstMove, EndsPlainly, Finished, LeftUnowned, MustMove, MustFail, Completes, BranchGatesOpen,
         Runtime.StartLogged, Runtime.StartedFrom, Runtime.StartState, Forbidden, SignedTwice, BothWaiting, ByNobody, WaitsForBoth;
    StartHere(cfg, sign, ev, instance, execution);
    rt := new Runtime(cfg, now);
    rt.Start(instance, execution, map[], first);
    StartWaits(cfg, sign, Runtime.StartState(cfg.def, instance, execution, map[]), Some(first), rt.ctx.audit.st, rt.ctx.clock);
    BothComplete(cfg, sign, rt.ctx.audit.st, ev);
    TakenByNobody(rt, sign, ev);
    WaitsFacts(rt.ctx.audit.st);
    j := GatedCompletion(rt, ev);
    MovesByNobody(cfg, sign, ev);
  }

  lemma StartHere(cfg: Config, sign: Node, ev: Event, instance: string, execution: string)
    requires cfg.def == SignedTwice(sign) && ByNobody(cfg, sign, ev)
    ensures var st := Runtime.StartState(cfg.def, instance, execution, map[]);
      st.node == "begin" && st.visits == map[] && st.scopes == [] && st.vars == map[]
    ensures sign.id == "sign" && IsDecisionNode(sign) && WellFormed(cfg.def)
  {
    hide MustMove;
  }

  lemma WaitsFacts(st: State)
    requires WaitsForBoth(st)
    ensures |st.scopes| == 1 && st.scopes[0].join == "sign"
  {
  }

  lemma MovesByNobody(cfg: Config, sign: Node, ev: Event)
    requires cfg.def == SignedTwice(sign) && ByNobody(cfg, sign, ev)
    ensures "sign" in cfg.def.nodes && MustMove(cfg, cfg.def.nodes["sign"], map["parallel_failed" := Number(0)], Some(ev))
  {
    hide MustMove;
  }

  // ------------------------------------------------------------------- stranded timers

  /** A wake-up is swallowed because its key is in the table: then some wake-up of the same
      slot, kind and visit was consumed before. Unless the table ever overflowed, that is all
      it takes. */
  lemma SwallowedIff(ctx: ExecutionContext, slot: Slot)
    requires ctx.Tracked() && slot in ctx.waitings
    ensures var key := Wake(slot, ctx.waitings[slot].kind, ctx.waitings[slot].visit);
      && (key in ctx.processedEvents ==> ConsumedBefore(ctx.log, key))
      && (ctx.audit.peak <= MAX_EVENTS ==> (key in ctx.processedEvents <==> ConsumedBefore(ctx.log, key)))
  {
    hide Reach;
    WakeKeyConsumed(ctx.cfg, ctx.log, Wake(slot, ctx.waitings[slot].kind, ctx.waitings[slot].visit));
  }

  ghost predicate ConsumedBefore(log: seq<Occ>, key: Key) {
    exists i | 0 <= i < |log| :: log[i].EventConsumed? && log[i].key == Some(key)
  }

  /** The step leads to a timer that sets an alarm. */
  ghost predicate TimesNext(cfg: Config, st: State, e: Option<Event>) {
    Glides(cfg, st, e) &&
    var n := Onward(cfg, st, e).node;
    n in cfg.def.nodes && cfg.def.nodes[n].ntype.Timer? && NeedsSlot(cfg.def.nodes[n])
  }

  /** Started by `ev`, the instance goes to a timer and from there to another one that has
      been visited as often. */
  ghost predicate TimersInARow(cfg: Config, st: State, ev: Event) {
    && TimesNext(cfg, st, Some(ev))
    && var first := Onward(cfg, st, Some(ev));
       && TimesNext(cfg, first, None)
       && var second := Onward(cfg, first, None);
          VisitsOf(first.visits, first.node) == VisitsOf(second.visits, second.node)
  }

  ghost function FirstTimer(cfg: Config, st: State, ev: Event): State
    requires TimersInARow(cfg, st, ev)
  {
    Onward(cfg, st, Some(ev))
  }

  ghost function SecondTimer(cfg: Config, st: State, ev: Event): (next: State)
    requires TimersInARow(cfg, st, ev)
    ensures next.scopes == st.scopes
  {
    Onward(cfg, FirstTimer(cfg, st, ev), None)
  }

  /** Waiting at a timer with no alarm set: nothing the host can do moves the instance. */
  ghost predicate Stranded(def: ProcessDef, st: State) {
    st.status == Waiting && st.scopes == [] && st.waitings == map[] && st.node in def.nodes && def.nodes[st.node].ntype.Timer?
  }

  /** The instance waits at a timer whose alarm is its only slot. */
  ghost predicate Timing(cfg: Config, st: State, next: State) {
    && st == next.(status := Waiting, waitings := st.waitings, keys := st.keys, event := st.event)
    && st.waitings.Keys == {Instance} && st.waitings[Instance].kind == TimerWait && st.waitings[Instance].until.Some?
    && st.waitings[Instance].visit == VisitsOf(next.visits, next.node)
    && WaitsAt(cfg.def, next.node) && cfg.def.nodes[next.node].ntype.Timer?
  }

  lemma TimerSet(cfg: Config, st: State, e: Option<Event>, o: State, now: int)
    requires WellFormed(cfg.def) && TimesNext(cfg, st, e) && st.waitings - {Instance} == map[]
    requires EndsPlainly(cfg, st, e, o, now, PLAIN_STEPS)
    ensures Timing(cfg, o, Onward(cfg, st, e))
  {
    hide MustMove, NextOf, OpensPlainly;
    var next := Onward(cfg, st, e);
    assert Alike(o, Runtime.ParkedAs(next, cfg.def.nodes[next.node], now).(status := Waiting));
    assert SlotFor(cfg.def.nodes[next.node], now, VisitsOf(next.visits, next.node)).Some?;
  }

  lemma TimesSame(cfg: Config, s: State, t: State, e: Option<Event>)
    requires SameDrain(s, t)
    ensures TimesNext(cfg, t, e) <==> TimesNext(cfg, s, e)
    ensures TimesNext(cfg, s, e) ==> Alike(Onward(cfg, s, e), Onward(cfg, t, e))
  {
    hide Glides, Onward;
    OnwardAlike(cfg, s, t, e);
  }

  lemma RangTimer(cfg: Config, st: State, n: Mark, o: Mark, ev: Event)
    requires WellFormed(cfg.def) && TimersInARow(cfg, st, ev) && st.waitings == map[]
    requires Timing(cfg, n.audit.st, FirstTimer(cfg, st, ev))
    requires Fired(cfg, n, o, Instance, n.audit.st.waitings[Instance]) && o.audit.event == None
    ensures Timing(cfg, o.audit.st, SecondTimer(cfg, st, ev))
    ensures o.audit.st.waitings[Instance].visit == n.audit.st.waitings[Instance].visit
  {
    var first := FirstTimer(cfg, st, ev);
    hide EndsPlainly, TimesNext, Fired;
    RangDrains(cfg, n, o);
    FirstSame(cfg, st, n.audit.st, ev);
    TimesSame(cfg, first, n.audit.st, None);
    TimerSet(cfg, n.audit.st, None, o.audit.st, o.clock);
    SecondSame(cfg, first, n.audit.st, o.audit.st);
  }

  lemma RangDrains(cfg: Config, n: Mark, o: Mark)
    requires Instance in n.audit.st.waitings && n.audit.st.waitings[Instance].kind == TimerWait
    requires Fired(cfg, n, o, Instance, n.audit.st.waitings[Instance])
    ensures EndsPlainly(cfg, n.audit.st, o.audit.event, o.audit.st, o.clock, PLAIN_STEPS)
  {
    hide EndsPlainly, FirstMove, Finished, Performed;
  }

  lemma FirstSame(cfg: Config, st: State, t: State, ev: Event)
    requires TimersInARow(cfg, st, ev) && st.waitings == map[] && Timing(cfg, t, FirstTimer(cfg, st, ev))
    ensures SameDrain(FirstTimer(cfg, st, ev), t) && t.waitings - {Instance} == map[]
  {
    hide MustMove, NextOf;
    assert t.waitings - {Instance} == map[];
    assert FirstTimer(cfg, st, ev).waitings - {Instance} == map[];
  }

  lemma SecondSame(cfg: Config, first: State, t: State, o: State)
    requires TimesNext(cfg, first, None) && TimesNext(cfg, t, None) && Alike(Onward(cfg, first, None), Onward(cfg, t, None))
    requires Timing(cfg, o, Onward(cfg, t, None))
    ensures Timing(cfg, o, Onward(cfg, first, None))
  {
    hide Glides, Onward;
  }

  lemma StartTimes(cfg: Config, st: State, n: Mark, ev: Event)
    requires st.waitings == map[] && EndsPlainly(cfg, st, Some(ev), n.audit.st, n.clock, PLAIN_STEPS)
    requires WellFormed(cfg.def) && TimersInARow(cfg, st, ev)
    ensures Timing(cfg, n.audit.st, FirstTimer(cfg, st, ev))
  {
    hide EndsPlainly, TimesNext, Timing;
    assert st.waitings - {Instance} == map[];
    TimerSet(cfg, st, Some(ev), n.audit.st, n.clock);
  }

  /** Two timers in a row. The first alarm goes off and moves the instance to the second
      timer; the second alarm has the key of the first, so it is taken for a repetition: its
      slot is dropped and the instance is left waiting at the timer. */
  method SecondTimerLost(cfg: Config, now: int, instance: string, execution: string, vars: Env, ev: Event) returns (rt: Runtime)
    requires WellFormed(cfg.def) && TimersInARow(cfg, Runtime.StartState(cfg.def, instance, execution, vars), ev)
    ensures rt.Idle() && rt.ctx.cfg == cfg && fresh(rt.ctx) && Stranded(cfg.def, rt.ctx.Live())
    ensures rt.ctx.currentNode == SecondTimer(cfg, Runtime.StartState(cfg.def, instance, execution, vars), ev).node
  {
    hide Reach, Legal, Advance, Apply, Boundary, AtRest, FirstMove, EndsPlainly, LaterSlots, Fired, TimersInARow, FirstTimer, SecondTimer, Runtime.StartLogged, Runtime.StartedFrom;
    rt := new Runtime(cfg, now);
    rt.Start(instance, execution, vars, ev);
    ghost var st, n := Runtime.StartState(cfg.def, instance, execution, vars), MarkOf(rt.ctx);
    StartTimes(cfg, st, n, ev);
    WakeOne(rt, Instance);
    RangTimer(cfg, st, n, MarkOf(rt.ctx), ev);
    DropAlarm(rt, SecondTimer(cfg, st, ev));
  }

  method DropAlarm(rt: Runtime, ghost next: State)
    requires rt.Idle() && Timing(rt.ctx.cfg, rt.ctx.audit.st, next) && next.scopes == []
    requires Wake(Instance, TimerWait, rt.ctx.waitings[Instance].visit) in rt.ctx.processedEvents
    modifies rt.ctx
    ensures rt.Idle() && Stranded(rt.ctx.cfg.def, rt.ctx.Live()) && rt.ctx.currentNode == next.node
  {
    hide Reach, Legal, Advance, Apply, Boundary, AtRest, LaterSlots, Fired;
    WakeOne(rt, Instance);
    assert rt.ctx.waitings == map[];
  }

  // Such a definition: a first node, a timer, another timer.

  function TimersFirst(): ProcessDef {
    ProcessDef(map["begin" := Plain("begin", StartNode, None, "cool"), "cool" := Plain("cool", Timer, Some(10), "rest"),
                   "rest" := Plain("rest", Timer, Some(10), "end"), "end" := EndAt()], "begin", map[], map[])
  }

  lemma CoolNext(cfg: Config, st: State, ev: Event)
    requires cfg.def == TimersFirst() && st.node == "begin" && st.visits == map[]
    ensures TimesNext(cfg, st, Some(ev))
    ensures var next := Onward(cfg, st, Some(ev)); next.node == "cool" && next.visits == map["begin" := 1]
  {
    PlainMoves(cfg, "begin", StartNode, None, "cool", st.vars, Some(ev));
    hide MustMove, NextOf;
  }

  lemma RestNext(cfg: Config, st: State)
    requires cfg.def == TimersFirst() && st.node == "cool" && st.visits == map["begin" := 1]
    ensures TimesNext(cfg, st, None)
    ensures var next := Onward(cfg, st, None); next.node == "rest" && next.visits == map["begin" := 1, "cool" := 1]
  {
    PlainMoves(cfg, "cool", Timer, Some(10), "rest", st.vars, None);
    hide MustMove, NextOf;
  }

  lemma TimersStrand(cfg: Config, instance: string, execution: string, ev: Event)
    requires cfg.def == TimersFirst()
    ensures WellFormed(cfg.def) && TimersInARow(cfg, Runtime.StartState(cfg.def, instance, execution, map[]), ev)
  {
    var st := Runtime.StartState(cfg.def, instance, execution, map[]);
    CoolNext(cfg, st, ev);
    RestNext(cfg, Onward(cfg, st, Some(ev)));
    hide TimesNext, Onward;
  }

  /** From then on events, wake-ups, compensations and restarts leave it where it is; at most
      compensations are still fired. */
  method StrandedForGood(rt: Runtime, ops: seq<Op>) returns (next: Runtime)
    requires rt.Idle() && Stranded(rt.ctx.cfg.def, rt.ctx.Live())
    modifies rt.ctx
    ensures next.Idle() && next.ctx.cfg == rt.ctx.cfg && (next.ctx == rt.ctx || fresh(next.ctx))
    ensures Stranded(next.ctx.cfg.def, next.ctx.Live()) && next.ctx.currentNode == old(rt.ctx.currentNode)
    ensures next.ctx.variables == old(rt.ctx.variables) && next.ctx.visitCounts == old(rt.ctx.visitCounts)
    ensures (forall i | 0 <= i < |ops| :: !ops[i].Undo?) ==> next.ctx.log == old(rt.ctx.log)
  {
    hide Reach, Legal, Advance, Apply, Boundary, AtRest, Due, OnlyCommands, FreshIds, NoReissue, Outstanding;
    next := rt;
    ghost var s := rt.ctx.audit.st;
    var i := 0;
    while i < |ops|
      invariant i <= |ops| && next.Idle() && next.ctx.cfg == rt.ctx.cfg && (next.ctx == rt.ctx || fresh(next.ctx))
      invariant Stranded(next.ctx.cfg.def, next.ctx.audit.st) && SameButUndo(s, next.ctx.audit.st)
      invariant (forall k | 0 <= k < i :: !ops[k].Undo?) ==> next.ctx.log == old(rt.ctx.log)
    {
      next := StrandedStep(next, ops[i]);
      i := i + 1;
    }
  }

  ghost predicate SameButUndo(s: State, t: State) {
    t == s.(results := t.results, undo := t.undo)
  }

  method StrandedStep(rt: Runtime, op: Op) returns (next: Runtime)
    requires rt.Idle() && Stranded(rt.ctx.cfg.def, rt.ctx.audit.st)
    modifies rt.ctx
    ensures next.Idle() && next.ctx.cfg == rt.ctx.cfg && (next.ctx == rt.ctx || fresh(next.ctx))
    ensures Stranded(next.ctx.cfg.def, next.ctx.audit.st) && SameButUndo(old(rt.ctx.audit.st), next.ctx.audit.st)
    ensures !op.Undo? ==> next.ctx.log == old(rt.ctx.log)
  {
    hide Reach, Legal, Advance, Apply, Boundary, AtRest, FreshIds, NoReissue, Outstanding;
    ghost var a := rt.ctx.audit;
    assert Due(rt.ctx.waitings, if op.Tick? then op.now else 0) == {};
    next := Perform(rt, op);
    assert !op.Undo? ==> next.ctx.audit == a;
  }

  // --------------------------------------------------------------------- a lost inverse

  /** A definition whose first node charges an account and declares the refund. */
  function ChargeFirst(): ProcessDef {
    ProcessDef(map["begin" := Plain("begin", StartNode, None, "end").(effects := [Charge()]), "end" := EndAt()], "begin", map[], map[])
  }

  function Charge(): SideEffect {
    SideEffect("charge", "account", "", false, Some(SideEffect("refund", "account", "", false, None)))
  }

  function ChargeCommand(execution: string): Command {
    EffectCommand(execution, ChargeFirst().nodes["begin"], 1, 0)
  }

  lemma FirstAnswer(cfg: Config, b: Audit, execution: string)
    requires cfg.def == ChargeFirst() && Performed(NewAudit(cfg), b, NodeCommands(execution, cfg.def.nodes["begin"], 1))
    ensures |b.st.results| > 0 && b.st.results[0].id == NodeCommand(execution, "begin", 1, 0)
  {
    assert NodeCommands(execution, cfg.def.nodes["begin"], 1)[0].id == NodeCommand(execution, "begin", 1, 0);
  }

  lemma AnsweredWasIssued(cfg: Config, log: seq<Occ>, p: nat) returns (k: nat)
    requires Reach(cfg, log).Some? && FreshIds(log) && p < |Reach(cfg, log).value.st.results|
    ensures k < |log| && log[k].CommandIssued? && log[k].command.id == Reach(cfg, log).value.st.results[p].id
    ensures Reach(cfg, log[..k]).Some? && IssueLegal(cfg, Reach(cfg, log[..k]).value, log[k].command)
    ensures log[k].command.id !in Reach(cfg, log[..k]).value.issued
  {
    hide Reach, Legal, IssueLegal, FreshIds;
    var id := Reach(cfg, log).value.st.results[p].id;
    Outbox.ResultWasLogged(cfg, log, p);
    var i :| 0 <= i < |log| && log[i] == CommandResult(Reach(cfg, log).value.st.results[p]);
    Outbox.AnsweredIsResolved(cfg, log, i);
    Guarantees.IdsOf(cfg, log, |log|);
    assert log[..|log|] == log;
    NoSecondIssue(cfg, log);
    k :| 0 <= k < |log| && log[k].CommandIssued? && log[k].command.id == id;
    FirstIssue(cfg, log, k);
  }

  /** The charge is issued in every run of it. */
  lemma ChargeIssued(cfg: Config, log: seq<Occ>, b: Audit, execution: string)
    requires cfg.def == ChargeFirst() && Reach(cfg, log) == Some(b) && FreshIds(log)
    requires Performed(NewAudit(cfg), b, NodeCommands(execution, cfg.def.nodes["begin"], 1))
    ensures exists k :: 0 <= k < |log| && log[k] == CommandIssued(ChargeCommand(execution))
  {
    hide Reach, Legal, FreshIds, ChargeFirst, Performed, IssueLegal;
    FirstAnswer(cfg, b, execution);
    var k := AnsweredWasIssued(cfg, log, 0);
    IssuedAsDeclared(cfg, Reach(cfg, log[..k]).value, log[k].command, execution);
  }

  lemma IssuedAsDeclared(cfg: Config, a: Audit, c: Command, execution: string)
    requires cfg.def == ChargeFirst() && IssueLegal(cfg, a, c) && c.id !in a.issued
    requires c.id == NodeCommand(execution, "begin", 1, 0)
    ensures c == ChargeCommand(execution)
  {
  }

  lemma ChargeDeclares(cfg: Config, execution: string, known: set<string>)
    requires cfg.def == ChargeFirst() && "charge" in known
    ensures WellFormed(cfg.def) && cfg.def.startNode == "begin" && "begin" in cfg.def.nodes
    ensures InverseDeclared(CommandIssued(ChargeCommand(execution)), known)
  {
  }

  /** The process dies right after the account was charged: nobody refunds it any more. */
  method RefundLost(cfg: Config, now: int, instance: string, execution: string, ev: Event, known: set<string>)
    returns (rt: Runtime, ex: Outbox.MemoryExecutor, log: seq<Occ>)
    requires cfg.def == ChargeFirst() && "charge" in known
    ensures Reach(cfg, log).Some? && Outstanding(log) == map[]
    ensures InverseLost(cfg, log, ex.performed, ChargeCommand(execution))
  {
    hide Reach, Legal, Advance, Apply, Boundary, AtRest, FirstStep, Finished, FreshIds, Outstanding, Performed, InverseLost,
         Runtime.StartLogged, Runtime.StartedFrom, NodeCommands, ChargeFirst, ChargeCommand;
    ChargeDeclares(cfg, execution, known);
    rt := new Runtime(cfg, now);
    rt.Start(instance, execution, map[], ev);
    RestingBooks(cfg, rt.ctx.log);
    ChargeIssued(cfg, rt.ctx.log, rt.ctx.audit, execution);
    var k: nat :| k < |rt.ctx.log| && rt.ctx.log[k] == CommandIssued(ChargeCommand(execution));
    ex, log := LoseInverseAt(rt, k, known);
  }
}
