/** Branches driven by events, inference results and timers (dsl/runtime.go). */
module Feeding {
  import opened Definition
  import opened Journal
  import opened Protocol
  import opened Runs
  import opened Frames
  import opened Context
  import opened Contract
  import opened Effects
  import opened Parking
  import opened Inference
  import opened Executor
  import opened Branches
  import opened Meaning

  // ------------------------------------------------------------- who listens

  /** Whether the callback answers the request this slot sent; a result that names no
      request is for every waiting inference. */
  predicate Answers(cfg: Config, waitings: map<Slot, WaitingState>, id: BranchId, requestId: string) {
    || requestId == ""
    || (BranchSlot(id) in waitings && waitings[BranchSlot(id)].request.Some? &&
        cfg.idText(waitings[BranchSlot(id)].request.value) == requestId)
  }

  /** The route an event opens out of a node, when its inputs evaluate. */
  function FedRoute(cfg: Config, node: Node, name: string, env: Env): Routing {
    var byEvent := EventNext(node.transitions, name);
    if byEvent.Some? && byEvent.value != "" then Goto(byEvent.value)
    else if node.ntype.Condition? then WhenRoute(cfg, node.transitions, env)
    else Goto("")
  }

  /** The branch reacts to the event: it moves or fails. */
  predicate Hears(cfg: Config, st: State, b: BranchState, ev: Event) {
    b.currentNode in cfg.def.nodes &&
    var node := cfg.def.nodes[b.currentNode];
    match node.ntype
    case Timer => false
    case Ai => ev.name == AiEventName(node) && Answers(cfg, st.waitings, b.id, ParseAiResult(ev.payload).requestId)
    case _ =>
      var view := EnterEnv(cfg, node, st.vars);
      view.None? || FedRoute(cfg, node, ev.name, view.value) != Goto("")
  }

  /** The event sends a branch off its node to `to`: along the first transition declared for it,
      and at a condition node whose event leads nowhere along the conditions. */
  ghost predicate SentTo(cfg: Config, node: Node, vars: Env, name: string, to: string) {
    to != "" && exists view: Env, k: nat ::
      && Sees(cfg, node, vars, view) && k < |node.transitions| && node.transitions[k].next == to
      && (|| ByEvent(node.transitions, name, k)
          || (node.ntype.Condition? && ByCondition(cfg, node.transitions, view, k) && Unheard(node.transitions, name)))
  }

  predicate Unheard(trs: seq<Transition>, name: string) {
    forall j: nat :: j < |trs| && ByEvent(trs, name, j) ==> trs[j].next == ""
  }

  /** Its inputs do not evaluate, or a condition fails that would have to decide. */
  ghost predicate Stumbles(cfg: Config, node: Node, vars: Env, name: string) {
    || (exists x <- node.input :: cfg.eval(node.input[x], vars).None?)
    || (node.ntype.Condition? && Unheard(node.transitions, name) && exists view: Env, k: nat ::
          Sees(cfg, node, vars, view) && Faults(cfg, node.transitions, view, k))
  }

  lemma FedRouteMeaning(cfg: Config, node: Node, vars: Env, name: string)
    ensures
      var view := EnterEnv(cfg, node, vars);
      && (forall to: string :: to != "" ==>
            (view.Some? && FedRoute(cfg, node, name, view.value) == Goto(to) <==> SentTo(cfg, node, vars, name, to)))
      && (view.None? || FedRoute(cfg, node, name, view.value).Broken? <==> Stumbles(cfg, node, vars, name))
  {
    hide EventNext, WhenRoute, ByCondition, Faults, EnterEnv, Sees;
    ViewMeaning(cfg, node, vars);
    var view := EnterEnv(cfg, node, vars);
    EventRoute(node.transitions, name);
    HeardSomewhere(node.transitions, name);
    if view.Some? {
      ConditionRoute(cfg, node.transitions, view.value);
      assert Sees(cfg, node, vars, view.value);
      forall to: string | to != ""
        ensures FedRoute(cfg, node, name, view.value) == Goto(to) <==> SentTo(cfg, node, vars, name, to)
      {
        ChainMeaning(cfg, node.transitions, view.value, to);
      }
    }
  }

  lemma HeardSomewhere(trs: seq<Transition>, name: string)
    ensures Unheard(trs, name) <==> !(EventNext(trs, name).Some? && EventNext(trs, name).value != "")
  {
    hide EventNext;
    EventRoute(trs, name);
    if EventNext(trs, name).Some? {
      var k: nat :| ByEvent(trs, name, k);
    }
  }

  /** Who reacts, spelled out: an inference to its own callback, any other node but a timer when
      the event sends the branch somewhere or its data fails. */
  ghost predicate Reacts(cfg: Config, st: State, b: BranchState, ev: Event) {
    b.currentNode in cfg.def.nodes &&
    var node := cfg.def.nodes[b.currentNode];
    if node.ntype.Timer? then false
    else if node.ntype.Ai? then
      && ev.name == (if node.ai.Some? && node.ai.value.event != "" then node.ai.value.event else "ai_result")
      && forall id: string :: Says(ev.payload, "request_id", id) && id != "" ==>
           && BranchSlot(b.id) in st.waitings && st.waitings[BranchSlot(b.id)].request.Some?
           && cfg.idText(st.waitings[BranchSlot(b.id)].request.value) == id
    else Stumbles(cfg, node, st.vars, ev.name) || exists to: string :: SentTo(cfg, node, st.vars, ev.name, to)
  }

  lemma HearsMeaning(cfg: Config, st: State, b: BranchState, ev: Event)
    ensures Hears(cfg, st, b, ev) <==> Reacts(cfg, st, b, ev)
  {
    hide FedRoute, Stumbles, SentTo;
    if b.currentNode in cfg.def.nodes {
      var node := cfg.def.nodes[b.currentNode];
      if node.ntype.Ai? {
        var id := ParseAiResult(ev.payload).requestId;
        assert id != "" ==> Says(ev.payload, "request_id", id);
      } else {
        FedRouteMeaning(cfg, node, st.vars, ev.name);
        SentSomewhere(cfg, node, st.vars, ev.name);
      }
    }
  }

  lemma SentSomewhere(cfg: Config, node: Node, vars: Env, name: string)
    ensures forall to: string :: SentTo(cfg, node, vars, name, to) ==> to != ""
  {
  }

  lemma {:induction false} EventDeclared(trs: seq<Transition>, name: string)
    requires EventNext(trs, name).Some?
    ensures exists k | 0 <= k < |trs| :: trs[k].event == name
  {
    if trs[0].event != name {
      EventDeclared(trs[1..], name);
      var k :| 0 <= k < |trs[1..]| && trs[1..][k].event == name;
      assert trs[k + 1].event == name;
    }
  }

  lemma FedMoves(cfg: Config, a: Audit, b: BranchState, node: Node, env: Env, to: string, ev: Event)
    requires Holds(a, b) && a.moment.Visited? && a.moment.node == node.id == b.currentNode
    requires node.id in cfg.def.nodes && cfg.def.nodes[node.id] == node && !node.ntype.Timer? && !node.ntype.Ai?
    requires a.event == Some(ev) && GateOpen(cfg.def, node.id, ev)
    requires EnterEnv(cfg, node, a.moment.vars) == Some(env) && FedRoute(cfg, node, ev.name, env) == Goto(to) && to != ""
    ensures BranchMoves(cfg, a, a.st.scopes[0].branches[b.id], b.(currentNode := to))
  {
    if EventNext(node.transitions, ev.name).Some? {
      EventDeclared(node.transitions, ev.name);
    }
  }

  lemma InferenceMoves(cfg: Config, a: Audit, b: BranchState, node: Node, to: string, ev: Event)
    requires Holds(a, b) && a.moment.Visited? && a.moment.node == node.id == b.currentNode
    requires node.id in cfg.def.nodes && cfg.def.nodes[node.id] == node && node.ntype.Ai? && node.ai.Some?
    requires a.event == Some(ev) && GateOpen(cfg.def, node.id, ev) && ev.name == AiEventName(node)
    requires AiRoute(cfg, node, ParseAiResult(ev.payload), a.st.vars) == Some(to)
    ensures BranchMoves(cfg, a, a.st.scopes[0].branches[b.id], b.(currentNode := to))
  {
  }

  lemma TimerMoves(cfg: Config, a: Audit, b: BranchState, node: Node, env: Env, to: string)
    requires Holds(a, b) && a.moment.Visited? && a.moment.node == node.id
    requires TimerFor(cfg, a, b.id, node.id) && cfg.def.nodes[node.id] == node
    requires EnterEnv(cfg, node, a.moment.vars) == Some(env)
    requires WhenRoute(cfg, node.transitions, env) == Goto(to) && to != ""
    ensures BranchMoves(cfg, a, a.st.scopes[0].branches[b.id], b.(currentNode := to))
  {
  }

  // ------------------------------------------------------------------- frames

  /** The visit counts at most; what a branch that does not react leaves. */
  ghost predicate OnlyVisits(a: Audit, b: Audit) {
    && SameBook(a, b) && b.event == a.event && b.waking == a.waking && b.moves == a.moves
    && VisitsGrow(a.st.visits, b.st.visits)
    && b.st == a.st.(visits := b.st.visits)
  }

  lemma VisitOnly(a: Audit, b: Audit, n: string)
    requires SameBook(a, b) && b.event == a.event && b.waking == a.waking && b.moves == a.moves
    requires b.st == a.st.(visits := a.st.visits[n := VisitsOf(a.st.visits, n) + 1])
    ensures OnlyVisits(a, b)
  {
  }

  method ReleaseSlot(ctx: ExecutionContext, b: BranchState)
    requires ctx.Tracked() && Ready(ctx.audit) && Holds(ctx.audit, b)
    modifies ctx
    ensures ctx.Tracked() && Ready(ctx.audit) && OnlyBranch(old(ctx.audit), ctx.audit, b.id) && old(ctx.log) <= ctx.log
    ensures SameStep(old(ctx.audit), ctx.audit) && Holds(ctx.audit, b)
    ensures ctx.audit.st == old(ctx.audit.st).(waitings := ctx.waitings)
    ensures ctx.waitings == old(ctx.waitings) - {BranchSlot(b.id)} && ctx.variables == old(ctx.variables)
    ensures ctx.scopes == old(ctx.scopes) && ctx.visitCounts == old(ctx.visitCounts)
    ensures ctx.audit.issued == old(ctx.audit.issued) && ctx.executionID == old(ctx.executionID)
    ensures ctx.processedEvents == old(ctx.processedEvents) && ctx.clock == old(ctx.clock)
  {
    hide Reach, Legal, Advance, Apply, OnlyBranch;
    ghost var a := ctx.audit;
    ctx.ClearWaiting(BranchSlot(b.id));
    BranchBySlot(a, ctx.audit, b.id);
    HoldsStable(a, ctx.audit, b);
  }

  /** The branch was offered the event: a timer ignores it, an inference reacts to its
      own callback, any other node is visited. */
  ghost predicate Offered(cfg: Config, a: Audit, before: seq<Occ>, b: Audit, log: seq<Occ>, br: BranchState, ev: Event) {
    br.currentNode in cfg.def.nodes ==>
      match cfg.def.nodes[br.currentNode].ntype
      case Timer => true
      case Ai => Hears(cfg, a.st, br, ev) ==> Reacted(before, log, br.id)
      case _ => VisitsOf(b.st.visits, br.currentNode) > VisitsOf(a.st.visits, br.currentNode)
  }

  /** An offer stands when the run goes on. */
  lemma OfferedStill(cfg: Config, a: Audit, before: seq<Occ>, b: Audit, mid: seq<Occ>, c: Audit, log: seq<Occ>, br: BranchState, ev: Event)
    requires Offered(cfg, a, before, b, mid, br, ev) && mid <= log && VisitsGrow(b.st.visits, c.st.visits)
    ensures Offered(cfg, a, before, c, log, br, ev)
  {
    hide Hears;
    if Reacted(before, mid, br.id) {
      ReactedStill(before, before, mid, log, br.id);
    }
    assert VisitsOf(b.st.visits, br.currentNode) <= VisitsOf(c.st.visits, br.currentNode);
  }

  /** An offer made on the way counts from the start, as the branch's slot and place
      were still the same. */
  lemma OfferedSooner(cfg: Config, a: Audit, before: seq<Occ>, b: Audit, mid: seq<Occ>, c: Audit, log: seq<Occ>, br: BranchState, ev: Event)
    requires Offered(cfg, b, mid, c, log, br, ev) && before <= mid && VisitsGrow(a.st.visits, b.st.visits)
    requires SameSlot(a.st.waitings, b.st.waitings, BranchSlot(br.id)) && mid <= log
    ensures Offered(cfg, a, before, c, log, br, ev)
  {
    if Reacted(mid, log, br.id) {
      ReactedStill(before, mid, log, log, br.id);
    }
    assert VisitsOf(a.st.visits, br.currentNode) <= VisitsOf(b.st.visits, br.currentNode);
  }

  predicate SameSlot(v: map<Slot, WaitingState>, w: map<Slot, WaitingState>, slot: Slot) {
    (slot in v <==> slot in w) && (slot in v ==> w[slot] == v[slot])
  }

  lemma GrownVisits(a: Audit, b: Audit, c: Audit, n: string, id: BranchId)
    requires VisitsOf(b.st.visits, n) > VisitsOf(a.st.visits, n) && OnlyBranch(b, c, id)
    ensures VisitsOf(c.st.visits, n) > VisitsOf(a.st.visits, n)
  {
    assert VisitsOf(b.st.visits, n) <= VisitsOf(c.st.visits, n);
  }

  // ------------------------------------------------------- straight to the join

  /** The branch as it ends at the join of its fork, driven by `actor`. */
  function Ended(b: BranchState, join: string, actor: Option<Principal>): BranchState {
    b.(actor := actor, currentNode := join, status := Completed, done := true, arrivedJoin := join)
  }

  /** The event takes the branch from its node straight to the join of its fork. */
  predicate EndsBy(cfg: Config, st: State, b: BranchState, ev: Event) {
    && |st.scopes| == 1 && b.currentNode in cfg.def.nodes && !b.done
    && var node, join := cfg.def.nodes[b.currentNode], st.scopes[0].join;
       && !node.ntype.Timer? && !node.ntype.Ai? && Silent(node)
       && EnterEnv(cfg, node, st.vars).Some? && FedRoute(cfg, node, ev.name, EnterEnv(cfg, node, st.vars).value) == Goto(join)
       && Joinable(cfg, st, b.currentNode)
  }

  /** A branch that comes from `n` can end at the join. */
  predicate Joinable(cfg: Config, st: State, n: string) {
    && |st.scopes| == 1
    && var join := st.scopes[0].join;
       join != "" && join != n && join in cfg.def.nodes && VisitsOf(st.visits, join) < cfg.Cap()
  }

  /** Nothing changed but the branch, now ended, its slot and the visits of nodes short of
      the join. */
  ghost predicate EndedSince(a: Audit, c: Audit, b: BranchState, actor: Option<Principal>) {
    && |a.st.scopes| == 1 && c.moves == a.moves
    && var s := a.st.scopes[0];
       && c.st == a.st.(scopes := [WithBranch(s, Ended(b, s.join, actor))], visits := c.st.visits, waitings := c.st.waitings)
       && VisitsOf(c.st.visits, s.join) == VisitsOf(a.st.visits, s.join)
  }

  lemma EndedByStop(cfg: Config, a: Audit, c: Audit, d: Audit, b: BranchState, n: string)
    requires BranchOpen(a.st, b.id) && Joinable(cfg, a.st, n) && !b.done
    requires Recast(a, c, b.(currentNode := a.st.scopes[0].join))
    requires AtStop(cfg, c.st, b.id) ==> Stops(c, d, b.id)
    ensures EndedSince(a, d, b, b.actor)
  {
    hide Desk;
    var s, t := a.st.scopes[0], c.st.scopes[0];
    var moved := b.(currentNode := s.join);
    assert t == s.(branches := s.branches[b.id := moved], join := t.join);
    assert BranchOpen(c.st, b.id) && AtJoin(cfg, c.st, b.id);
    assert Stopped(t, t.branches.Keys - {b.id}).branches == s.branches[b.id := Ended(b, s.join, b.actor)];
  }

  lemma EndsVisited(cfg: Config, s: State, t: State, b: BranchState, ev: Event)
    requires EndsBy(cfg, s, b, ev) && t == s.(visits := s.visits[b.currentNode := VisitsOf(s.visits, b.currentNode) + 1])
    ensures var node, join := cfg.def.nodes[b.currentNode], s.scopes[0].join;
      && Silent(node) && !b.done && Joinable(cfg, t, b.currentNode) && join != ""
      && EnterEnv(cfg, node, s.vars).Some? && FedRoute(cfg, node, ev.name, EnterEnv(cfg, node, s.vars).value) == Goto(join)
    ensures VisitsOf(t.visits, s.scopes[0].join) == VisitsOf(s.visits, s.scopes[0].join)
  {
    hide FedRoute, EnterEnv;
  }

  lemma EndedSooner(a: Audit, b: Audit, c: Audit, br: BranchState, actor: Option<Principal>)
    requires EndedSince(b, c, br, actor) && |a.st.scopes| == 1 && b.moves == a.moves
    requires b.st == a.st.(visits := b.st.visits, waitings := b.st.waitings)
    requires VisitsOf(b.st.visits, a.st.scopes[0].join) == VisitsOf(a.st.visits, a.st.scopes[0].join)
    ensures EndedSince(a, c, br, actor)
  {
  }

  // ------------------------------------------------------------------- events

  /** What the event made of a branch on a node that is no inference: where it is sent, or a
      failure, of its data or over an output or a command on the way. */
  ghost predicate FedAs(cfg: Config, node: Node, vars: Env, ev: Event, before: seq<Occ>, log: seq<Occ>, b: BranchState, after: BranchState) {
    && (Stumbles(cfg, node, vars, ev.name) ==> after == b.(status := Failed, done := true))
    && forall to: string :: SentTo(cfg, node, vars, ev.name, to) && !Stumbles(cfg, node, vars, ev.name) ==>
         MovedTo(before, log, b.id, to) || after == b.(actor := ev.principal, status := Failed, done := true)
  }

  /** What the callback made of a branch on an inference with candidates: where the choice leads,
      or a failure when it leads nowhere. */
  ghost predicate ChosenAs(cfg: Config, node: Node, ev: Event, before: seq<Occ>, log: seq<Occ>, b: BranchState, after: BranchState)
    requires node.ai.Some?
  {
    node.ai.value.choose != [] ==>
      && (forall to: string :: LeadsTo(cfg, node, ev.payload, map[], to) ==> MovedTo(before, log, b.id, to))
      && ((forall to: string :: !LeadsTo(cfg, node, ev.payload, map[], to)) ==> after == b.(status := Failed, done := true))
  }

  /** feedBranch: true when the branch reacted. */
  method FeedBranch(ctx: ExecutionContext, id: BranchId, ev: Event) returns (routed: bool)
    requires ctx.Tracked() && Ready(ctx.audit) && BranchOpen(ctx.audit.st, id)
    requires ctx.currentEvent == Some(ev) && GateOpen(ctx.cfg.def, BranchAt(ctx, id).currentNode, ev)
    modifies ctx
    ensures ctx.Tracked() && Ready(ctx.audit) && OnlyBranch(old(ctx.audit), ctx.audit, id) && old(ctx.log) <= ctx.log
    ensures routed == Hears(ctx.cfg, old(ctx.audit.st), old(BranchAt(ctx, id)), ev)
    ensures routed <==> Reacts(ctx.cfg, old(ctx.audit.st), old(BranchAt(ctx, id)), ev)
    ensures routed ==>
      var b := old(BranchAt(ctx, id));
      var node := ctx.cfg.def.nodes[b.currentNode];
      if node.ntype.Ai? then node.ai.Some? ==> ChosenAs(ctx.cfg, node, ev, old(ctx.log), ctx.log, b, BranchAt(ctx, id))
      else FedAs(ctx.cfg, node, old(ctx.variables), ev, old(ctx.log), ctx.log, b, BranchAt(ctx, id))
    ensures routed ==> Reacted(old(ctx.log), ctx.log, id)
    ensures Offered(ctx.cfg, old(ctx.audit), old(ctx.log), ctx.audit, ctx.log, old(BranchAt(ctx, id)), ev)
    ensures !routed ==> OnlyVisits(old(ctx.audit), ctx.audit)
    ensures !routed ==> forall n: string :: n != old(BranchAt(ctx, id)).currentNode ==> VisitsOf(ctx.visitCounts, n) == VisitsOf(old(ctx.visitCounts), n)
    ensures old(EndsBy(ctx.cfg, ctx.audit.st, BranchAt(ctx, id), ev)) ==>
      EndedSince(old(ctx.audit), ctx.audit, old(BranchAt(ctx, id)), ev.principal)
    ensures ctx.processedEvents == old(ctx.processedEvents) && ctx.clock >= old(ctx.clock)
    ensures LaterSlots(old(ctx.waitings), ctx.waitings, old(ctx.clock))
  {
    hide Reach, Legal, Advance, Apply, OnlyBranch, GateOpen, Reacted, EndedSince, Joinable, FedAs, ChosenAs;
    OnlyBranchRefl(ctx.audit, id);
    var b := ctx.scopes[0].branches[id];
    HearsMeaning(ctx.cfg, ctx.audit.st, b, ev);
    if b.currentNode !in ctx.cfg.def.nodes {
      return false;
    }
    var node := ctx.cfg.def.nodes[b.currentNode];
    if node.ntype.Timer? {
      return false;
    }
    if node.ntype.Ai? {
      routed := FeedAi(ctx, b, node, ev);
    } else {
      routed := FeedNode(ctx, b, node, ev);
    }
  }

  method FedTarget(cfg: Config, node: Node, name: string, env: Env) returns (r: Routing)
    ensures r == FedRoute(cfg, node, name, env)
  {
    var byEvent := FindEvent(node.transitions, name);
    if byEvent.Some? && byEvent.value != "" {
      return Goto(byEvent.value);
    }
    if node.ntype.Condition? {
      r := EvalWhenChain(cfg, node.transitions, env);
    } else {
      r := Goto("");
    }
  }

  method FeedNode(ctx: ExecutionContext, b: BranchState, node: Node, ev: Event) returns (routed: bool)
    requires ctx.Tracked() && Ready(ctx.audit) && BranchOpen(ctx.audit.st, b.id) && b == BranchAt(ctx, b.id)
    requires node.id in ctx.cfg.def.nodes && ctx.cfg.def.nodes[node.id] == node && b.currentNode == node.id
    requires !node.ntype.Timer? && !node.ntype.Ai?
    requires ctx.currentEvent == Some(ev) && GateOpen(ctx.cfg.def, node.id, ev)
    modifies ctx
    ensures ctx.Tracked() && Ready(ctx.audit) && OnlyBranch(old(ctx.audit), ctx.audit, b.id) && old(ctx.log) <= ctx.log
    ensures routed == Hears(ctx.cfg, old(ctx.audit.st), b, ev)
    ensures routed ==> Reacted(old(ctx.log), ctx.log, b.id)
    ensures routed ==> FedAs(ctx.cfg, node, old(ctx.variables), ev, old(ctx.log), ctx.log, b, BranchAt(ctx, b.id))
    ensures !routed ==> OnlyVisits(old(ctx.audit), ctx.audit)
    ensures !routed ==> forall n: string :: n != node.id ==> VisitsOf(ctx.visitCounts, n) == VisitsOf(old(ctx.visitCounts), n)
    ensures VisitsOf(ctx.visitCounts, node.id) > VisitsOf(old(ctx.visitCounts), node.id)
    ensures old(EndsBy(ctx.cfg, ctx.audit.st, b, ev)) ==> EndedSince(old(ctx.audit), ctx.audit, b, ev.principal)
    ensures ctx.processedEvents == old(ctx.processedEvents) && ctx.clock >= old(ctx.clock)
    ensures LaterSlots(old(ctx.waitings), ctx.waitings, old(ctx.clock))
  {
    hide LaterSlots, Reacted, Reach, Legal, Advance, Apply, OnlyBranch, EffectsReady, GateOpen, BranchMoves, EndedSince, EndsBy, FedRoute, EnterEnv, FedAs;
    ghost var a := ctx.audit;
    VisitNode(ctx, b.id, node);
    ghost var c, l := ctx.audit, ctx.log;
    VisitOnly(a, c, node.id);
    if EndsBy(ctx.cfg, a.st, b, ev) {
      EndsVisited(ctx.cfg, a.st, c.st, b, ev);
    }
    routed := FollowEvent(ctx, b, node, ev);
    if routed {
      if EndsBy(ctx.cfg, a.st, b, ev) {
        EndedSooner(a, c, ctx.audit, b, ev.principal);
      }
      OnlyBranchTrans(a, c, ctx.audit, b.id);
      GrownVisits(a, c, ctx.audit, node.id, b.id);
      ReactedStill(old(ctx.log), l, ctx.log, ctx.log, b.id);
      OnlyBranchOpen(a, ctx.audit, b.id);
      FedSooner(ctx.cfg, node, a.st.vars, ev, old(ctx.log), l, ctx.log, b, BranchAt(ctx, b.id));
    }
  }

  lemma FedSooner(cfg: Config, node: Node, vars: Env, ev: Event, before: seq<Occ>, mid: seq<Occ>, log: seq<Occ>, b: BranchState, after: BranchState)
    requires FedAs(cfg, node, vars, ev, mid, log, b, after) && before <= mid
    ensures FedAs(cfg, node, vars, ev, before, log, b, after)
  {
    hide SentTo, Stumbles;
    forall to: string | SentTo(cfg, node, vars, ev.name, to) && MovedTo(mid, log, b.id, to) ensures MovedTo(before, log, b.id, to) {
      MovedStill(before, mid, log, log, b.id, to);
    }
  }

  lemma FedFails(cfg: Config, a: Audit, b: BranchState, node: Node, ev: Event)
    requires Holds(a, b) && a.moment.Visited? && a.moment.node == node.id == b.currentNode && a.event == Some(ev)
    requires node.id in cfg.def.nodes && cfg.def.nodes[node.id] == node && !node.ntype.Ai?
    requires
      var view := EnterEnv(cfg, node, a.moment.vars);
      view.None? || FedRoute(cfg, node, ev.name, view.value).Broken?
    ensures BranchFails(cfg, a, a.st.scopes[0].branches[b.id])
  {
  }

  /** From the node it has just visited the branch follows the event's route, if there is
      one; without inputs or with a failing condition it fails. */
  method FollowEvent(ctx: ExecutionContext, b: BranchState, node: Node, ev: Event) returns (routed: bool)
    requires ctx.Tracked() && Ready(ctx.audit) && BranchOpen(ctx.audit.st, b.id) && b == BranchAt(ctx, b.id)
    requires node.id in ctx.cfg.def.nodes && ctx.cfg.def.nodes[node.id] == node && b.currentNode == node.id
    requires !node.ntype.Timer? && !node.ntype.Ai?
    requires ctx.currentEvent == Some(ev) && GateOpen(ctx.cfg.def, node.id, ev)
    requires ctx.audit.moment == Visited(node.id, ctx.variables) && EffectsReady(ctx, node)
    modifies ctx
    ensures ctx.Tracked() && Ready(ctx.audit) && OnlyBranch(old(ctx.audit), ctx.audit, b.id) && old(ctx.log) <= ctx.log
    ensures routed == old(var view := EnterEnv(ctx.cfg, node, ctx.variables);
      view.None? || FedRoute(ctx.cfg, node, ev.name, view.value) != Goto(""))
    ensures routed ==> Reacted(old(ctx.log), ctx.log, b.id)
    ensures routed ==> FedAs(ctx.cfg, node, old(ctx.variables), ev, old(ctx.log), ctx.log, b, BranchAt(ctx, b.id))
    ensures !routed ==> ctx.audit == old(ctx.audit) && ctx.log == old(ctx.log)
    ensures old(
        && Silent(node) && !b.done && Joinable(ctx.cfg, ctx.audit.st, node.id) && EnterEnv(ctx.cfg, node, ctx.variables).Some?
        && FedRoute(ctx.cfg, node, ev.name, EnterEnv(ctx.cfg, node, ctx.variables).value) == Goto(ctx.scopes[0].join)
        && ctx.scopes[0].join != "") ==>
      EndedSince(old(ctx.audit), ctx.audit, b, ev.principal)
    ensures ctx.processedEvents == old(ctx.processedEvents) && ctx.clock >= old(ctx.clock)
    ensures LaterSlots(old(ctx.waitings), ctx.waitings, old(ctx.clock))
  {
    hide LaterSlots, Reacted, Reach, Legal, Advance, Apply, OnlyBranch, EffectsReady, GateOpen, BranchMoves, BranchFails, EndedSince, FedRoute, EnterEnv, Joinable, Silent, MovedTo, SentTo, Stumbles, Sees, FedAs;
    ghost var a := ctx.audit;
    LaterSlotsRefl(ctx.waitings, ctx.clock);
    OnlyBranchRefl(a, b.id);
    var view := EnterNode(ctx.cfg, node, ctx.variables);
    if view.None? {
      FedFails(ctx.cfg, a, b, node, ev);
      FailBranch(ctx, b);
      OnlyBranchOpen(a, ctx.audit, b.id);
      FedMade(ctx.cfg, node, a.st.vars, ev, old(ctx.log), ctx.log, b, BranchAt(ctx, b.id));
      return true;
    }
    var r := FedTarget(ctx.cfg, node, ev.name, view.value);
    if r == Goto("") {
      return false;
    }
    if r.Broken? {
      FedFails(ctx.cfg, a, b, node, ev);
      FailBranch(ctx, b);
    } else {
      FedMoves(ctx.cfg, a, b.(actor := ev.principal), node, view.value, r.next, ev);
      TakeRoute(ctx, b.(actor := ev.principal), node, view.value, r.next);
      if EndedSince(a, ctx.audit, b.(actor := ev.principal), ev.principal) {
        EndedActor(a, ctx.audit, b, ev.principal);
      }
    }
    OnlyBranchOpen(a, ctx.audit, b.id);
    FedMade(ctx.cfg, node, a.st.vars, ev, old(ctx.log), ctx.log, b, BranchAt(ctx, b.id));
    routed := true;
  }

  lemma FedMade(cfg: Config, node: Node, vars: Env, ev: Event, before: seq<Occ>, log: seq<Occ>, b: BranchState, after: BranchState)
    requires
      var view := EnterEnv(cfg, node, vars);
      if view.None? || FedRoute(cfg, node, ev.name, view.value).Broken? then after == b.(status := Failed, done := true)
      else
        var to := FedRoute(cfg, node, ev.name, view.value).next;
        to != "" && (MovedTo(before, log, b.id, to) || after == b.(actor := ev.principal, status := Failed, done := true))
    ensures FedAs(cfg, node, vars, ev, before, log, b, after)
  {
    hide FedRoute, EnterEnv, SentTo, Stumbles, MovedTo;
    FedRouteMeaning(cfg, node, vars, ev.name);
    SentSomewhere(cfg, node, vars, ev.name);
  }

  lemma EndedActor(a: Audit, c: Audit, b: BranchState, actor: Option<Principal>)
    requires EndedSince(a, c, b.(actor := actor), actor)
    ensures EndedSince(a, c, b, actor)
  {
  }

  /** The branch takes a route: its slot is released, then it leaves and advances. */
  method TakeRoute(ctx: ExecutionContext, b: BranchState, node: Node, entered: Env, to: string)
    requires ctx.Tracked() && Ready(ctx.audit) && Holds(ctx.audit, b)
    requires AtNode(ctx.cfg, ctx.audit, node, entered) && ctx.audit.moment.Visited? && !node.ntype.Ai?
    requires BranchMoves(ctx.cfg, ctx.audit, ctx.scopes[0].branches[b.id], b.(currentNode := to))
    requires EffectsReady(ctx, node)
    modifies ctx
    ensures ctx.Tracked() && Ready(ctx.audit) && OnlyBranch(old(ctx.audit), ctx.audit, b.id) && old(ctx.log) <= ctx.log
    ensures Reacted(old(ctx.log), ctx.log, b.id)
    ensures MovedTo(old(ctx.log), ctx.log, b.id, to) || BranchAt(ctx, b.id) == b.(status := Failed, done := true)
    ensures Silent(node) && !b.done && to == old(ctx.scopes[0].join) && old(Joinable(ctx.cfg, ctx.audit.st, node.id)) ==>
      EndedSince(old(ctx.audit), ctx.audit, b, b.actor)
    ensures ctx.processedEvents == old(ctx.processedEvents) && ctx.clock >= old(ctx.clock)
    ensures LaterSlots(old(ctx.waitings), ctx.waitings, old(ctx.clock))
  {
    hide LaterSlots, Reacted, Reach, Legal, Advance, Apply, OnlyBranch, BranchMoves, FreshCommands, EndedSince, MovedTo;
    ghost var a, w, t := ctx.audit, ctx.waitings, ctx.clock;
    ReleaseSlot(ctx, b);
    ghost var c, v, u := ctx.audit, ctx.waitings, ctx.clock;
    MovesStable(ctx.cfg, a, c, ctx.scopes[0].branches[b.id], b.(currentNode := to));
    FreshStable(ctx.cfg, a, c, NodeCommands(ctx.executionID, node, ctx.VisitOf(node.id)));
    ghost var l := ctx.log;
    LeaveAndAdvance(ctx, b, node, entered, to);
    if EndedSince(c, ctx.audit, b, b.actor) {
      EndedSooner(a, c, ctx.audit, b, b.actor);
    }
    OnlyBranchTrans(a, c, ctx.audit, b.id);
    ReactedStill(old(ctx.log), l, ctx.log, ctx.log, b.id);
    if MovedTo(l, ctx.log, b.id, to) {
      MovedStill(old(ctx.log), l, ctx.log, ctx.log, b.id, to);
    }
    LaterSlotsTrans(w, v, ctx.waitings, t, u);
  }

  method LeaveAndAdvance(ctx: ExecutionContext, b: BranchState, node: Node, entered: Env, to: string)
    requires ctx.Tracked() && Ready(ctx.audit) && Holds(ctx.audit, b)
    requires AtNode(ctx.cfg, ctx.audit, node, entered) && ctx.audit.moment.Visited? && !node.ntype.Ai?
    requires BranchMoves(ctx.cfg, ctx.audit, ctx.scopes[0].branches[b.id], b.(currentNode := to))
    requires EffectsReady(ctx, node)
    modifies ctx
    ensures ctx.Tracked() && Ready(ctx.audit) && OnlyBranch(old(ctx.audit), ctx.audit, b.id) && old(ctx.log) <= ctx.log
    ensures Reacted(old(ctx.log), ctx.log, b.id)
    ensures MovedTo(old(ctx.log), ctx.log, b.id, to) || BranchAt(ctx, b.id) == b.(status := Failed, done := true)
    ensures AlwaysWrites(ctx.cfg, node, entered, old(ctx.variables)) && node.effects == [] ==>
      MovedTo(old(ctx.log), ctx.log, b.id, to)
    ensures NeverWrites(ctx.cfg, node, entered, old(ctx.variables)) ==>
      BranchAt(ctx, b.id) == b.(status := Failed, done := true)
    ensures Silent(node) && !b.done && to == old(ctx.scopes[0].join) && old(Joinable(ctx.cfg, ctx.audit.st, node.id)) ==>
      EndedSince(old(ctx.audit), ctx.audit, b, b.actor)
    ensures ctx.processedEvents == old(ctx.processedEvents) && ctx.clock >= old(ctx.clock)
    ensures LaterSlots(old(ctx.waitings), ctx.waitings, old(ctx.clock))
  {
    hide LaterSlots, Reacted, Reach, Legal, Advance, Apply, OnlyBranch, BranchMoves, EffectsReady, AtNode, MovedTo, AlwaysWrites, NeverWrites, Recast, AtStop, Stops, EndedSince, Joinable;
    ghost var a := ctx.audit;
    LaterSlotsRefl(ctx.waitings, ctx.clock);
    var moved := LeaveBy(ctx, b, node, entered, to);
    if moved {
      ghost var c, l := ctx.audit, ctx.log;
      OnlyBranchOpen(a, c, b.id);
      var rested := AdvanceBranch(ctx, b.id);
      if Silent(node) && !b.done && to == a.st.scopes[0].join && Joinable(ctx.cfg, a.st, node.id) {
        EndedByStop(ctx.cfg, a, c, ctx.audit, b, node.id);
      }
      OnlyBranchTrans(a, c, ctx.audit, b.id);
      ReactedStill(old(ctx.log), old(ctx.log), l, ctx.log, b.id);
      MovedStill(old(ctx.log), old(ctx.log), l, ctx.log, b.id, to);
    }
  }

  // --------------------------------------------------------- inference results

  /** feedAI: only the callback event, and only for the request this branch sent. */
  method FeedAi(ctx: ExecutionContext, b: BranchState, node: Node, ev: Event) returns (routed: bool)
    requires ctx.Tracked() && Ready(ctx.audit) && BranchOpen(ctx.audit.st, b.id) && b == BranchAt(ctx, b.id)
    requires node.id in ctx.cfg.def.nodes && ctx.cfg.def.nodes[node.id] == node && b.currentNode == node.id
    requires node.ntype.Ai?
    requires ctx.currentEvent == Some(ev) && GateOpen(ctx.cfg.def, node.id, ev)
    modifies ctx
    ensures ctx.Tracked() && Ready(ctx.audit) && OnlyBranch(old(ctx.audit), ctx.audit, b.id) && old(ctx.log) <= ctx.log
    ensures routed == Hears(ctx.cfg, old(ctx.audit.st), b, ev)
    ensures routed ==> Reacted(old(ctx.log), ctx.log, b.id)
    ensures routed && node.ai.Some? ==> ChosenAs(ctx.cfg, node, ev, old(ctx.log), ctx.log, b, BranchAt(ctx, b.id))
    ensures !routed ==> ctx.audit == old(ctx.audit) && ctx.log == old(ctx.log)
    ensures ctx.processedEvents == old(ctx.processedEvents) && ctx.clock >= old(ctx.clock)
    ensures LaterSlots(old(ctx.waitings), ctx.waitings, old(ctx.clock))
  {
    hide LaterSlots, Reacted, Reach, Legal, Advance, Apply, OnlyBranch, EffectsReady, GateOpen, BranchMoves, ChosenAs;
    ghost var a := ctx.audit;
    LaterSlotsRefl(ctx.waitings, ctx.clock);
    OnlyBranchRefl(a, b.id);
    var result := ParseAiResult(ev.payload);
    if ev.name != AiEventName(node) || !Answers(ctx.cfg, ctx.waitings, b.id, result.requestId) {
      return false;
    }
    VisitNode(ctx, b.id, node);
    ghost var c, l := ctx.audit, ctx.log;
    ResolveBranch(ctx, b, node, ev);
    OnlyBranchTrans(a, c, ctx.audit, b.id);
    ReactedStill(old(ctx.log), l, ctx.log, ctx.log, b.id);
    OnlyBranchOpen(a, ctx.audit, b.id);
    if node.ai.Some? {
      ChosenSooner(ctx.cfg, node, ev, old(ctx.log), l, ctx.log, b, BranchAt(ctx, b.id));
    }
    routed := true;
  }

  lemma ChosenSooner(cfg: Config, node: Node, ev: Event, before: seq<Occ>, mid: seq<Occ>, log: seq<Occ>, b: BranchState, after: BranchState)
    requires node.ai.Some? && ChosenAs(cfg, node, ev, mid, log, b, after) && before <= mid
    ensures ChosenAs(cfg, node, ev, before, log, b, after)
  {
    hide LeadsTo;
    forall to: string | MovedTo(mid, log, b.id, to) ensures MovedTo(before, log, b.id, to) {
      MovedStill(before, mid, log, log, b.id, to);
    }
  }

  /** With candidates the variables play no part in the route. */
  lemma ChoiceAlone(cfg: Config, node: Node, payload: map<string, Value>, vars: Env)
    requires node.ai.Some? && node.ai.value.choose != []
    ensures forall to: string :: LeadsTo(cfg, node, payload, vars, to) <==> LeadsTo(cfg, node, payload, map[], to)
  {
    hide LeadsTo;
    forall to: string ensures LeadsTo(cfg, node, payload, vars, to) <==> LeadsTo(cfg, node, payload, map[], to) {
      CandidatesLead(cfg, node, payload, vars, to);
      CandidatesLead(cfg, node, payload, map[], to);
    }
  }

  method ResolveBranch(ctx: ExecutionContext, b: BranchState, node: Node, ev: Event)
    requires ctx.Tracked() && Ready(ctx.audit) && BranchOpen(ctx.audit.st, b.id) && b == BranchAt(ctx, b.id)
    requires node.id in ctx.cfg.def.nodes && ctx.cfg.def.nodes[node.id] == node && b.currentNode == node.id
    requires node.ntype.Ai? && ev.name == AiEventName(node)
    requires ctx.currentEvent == Some(ev) && GateOpen(ctx.cfg.def, node.id, ev)
    requires ctx.audit.moment.Visited? && ctx.audit.moment.node == node.id
    modifies ctx
    ensures ctx.Tracked() && Ready(ctx.audit) && OnlyBranch(old(ctx.audit), ctx.audit, b.id) && old(ctx.log) <= ctx.log
    ensures Reacted(old(ctx.log), ctx.log, b.id)
    ensures node.ai.Some? ==> ChosenAs(ctx.cfg, node, ev, old(ctx.log), ctx.log, b, BranchAt(ctx, b.id))
    ensures ctx.processedEvents == old(ctx.processedEvents) && ctx.clock >= old(ctx.clock)
    ensures LaterSlots(old(ctx.waitings), ctx.waitings, old(ctx.clock))
  {
    hide LaterSlots, Reacted, Reach, Legal, Advance, Apply, OnlyBranch, GateOpen, BranchMoves, MovedTo, LeadsTo, AiRoute, Complete;
    ghost var a := ctx.audit;
    LaterSlotsRefl(ctx.waitings, ctx.clock);
    var next := ResolveAiNext(ctx, node, ParseAiResult(ev.payload));
    ghost var c, l := ctx.audit, ctx.log;
    BranchByVariables(a, c, b.id);
    if next.None? {
      FailBranch(ctx, b);
    } else {
      FollowChoice(ctx, b.(actor := ev.principal), node, ev, next.value);
      MovedStill(old(ctx.log), l, ctx.log, ctx.log, b.id, next.value);
    }
    if node.ai.value.choose != [] {
      ChoiceAlone(ctx.cfg, node, ev.payload, c.st.vars);
    }
    OnlyBranchTrans(a, c, ctx.audit, b.id);
    ReactedStill(old(ctx.log), l, ctx.log, ctx.log, b.id);
  }

  lemma MovedLast(before: seq<Occ>, log: seq<Occ>, id: BranchId, to: string)
    requires |log| == |before| + 1 && log[|before|].BranchUpdated? && log[|before|].branch.id == id && log[|before|].branch.currentNode == to
    ensures MovedTo(before, log, id, to)
  {
  }

  method FollowChoice(ctx: ExecutionContext, b: BranchState, node: Node, ev: Event, to: string)
    requires ctx.Tracked() && Ready(ctx.audit) && Holds(ctx.audit, b)
    requires node.id in ctx.cfg.def.nodes && ctx.cfg.def.nodes[node.id] == node && b.currentNode == node.id
    requires node.ntype.Ai? && node.ai.Some? && ev.name == AiEventName(node)
    requires ctx.currentEvent == Some(ev) && GateOpen(ctx.cfg.def, node.id, ev)
    requires ctx.audit.moment.Visited? && ctx.audit.moment.node == node.id
    requires AiRoute(ctx.cfg, node, ParseAiResult(ev.payload), ctx.variables) == Some(to)
    modifies ctx
    ensures ctx.Tracked() && Ready(ctx.audit) && OnlyBranch(old(ctx.audit), ctx.audit, b.id) && old(ctx.log) <= ctx.log
    ensures Reacted(old(ctx.log), ctx.log, b.id) && MovedTo(old(ctx.log), ctx.log, b.id, to)
    ensures ctx.processedEvents == old(ctx.processedEvents) && ctx.clock >= old(ctx.clock)
    ensures LaterSlots(old(ctx.waitings), ctx.waitings, old(ctx.clock))
  {
    hide LaterSlots, Reacted, Reach, Legal, Advance, Apply, OnlyBranch, GateOpen, BranchMoves, AiRoute, MovedTo;
    ghost var a, w, t := ctx.audit, ctx.waitings, ctx.clock;
    ReleaseSlot(ctx, b);
    ghost var c, v, u := ctx.audit, ctx.waitings, ctx.clock;
    ghost var l := ctx.log;
    InferenceMoves(ctx.cfg, c, b, node, to, ev);
    MoveBranch(ctx, b, to);
    ghost var d, k := ctx.audit, ctx.log;
    MovedLast(l, k, b.id, to);
    MovedStill(old(ctx.log), l, k, k, b.id, to);
    OnlyBranchTrans(a, c, d, b.id);
    OnlyBranchOpen(a, d, b.id);
    var rested := AdvanceBranch(ctx, b.id);
    OnlyBranchTrans(a, d, ctx.audit, b.id);
    ReactedStill(old(ctx.log), l, k, ctx.log, b.id);
    MovedStill(old(ctx.log), old(ctx.log), k, ctx.log, b.id, to);
    LaterSlotsTrans(w, v, ctx.waitings, t, u);
  }

  // ------------------------------------------------------------------- timers

  /** Where a timer sends a branch: nowhere when its inputs or a condition fail to evaluate or
      no route is left. */
  function TimerRoute(cfg: Config, node: Node, vars: Env): Option<string> {
    match EnterEnv(cfg, node, vars)
    case None => None
    case Some(view) =>
      match WhenRoute(cfg, node.transitions, view)
      case Broken => None
      case Goto(next) => if next == "" then None else Some(next)
  }

  /** What a timer made of its branch: without a route it failed; with one it moved along it
      or failed over an output or a command, and of these two there is no doubt when no
      command is declared and the outputs are always or never writable. */
  ghost predicate TimerMoved(cfg: Config, node: Node, vars: Env, before: seq<Occ>, log: seq<Occ>, b: BranchState, after: BranchState) {
    var failed := after == b.(status := Failed, done := true);
    match TimerRoute(cfg, node, vars)
    case None => failed
    case Some(to) =>
      var view := EnterEnv(cfg, node, vars).value;
      && (MovedTo(before, log, b.id, to) || failed)
      && (AlwaysWrites(cfg, node, view, vars) && node.effects == [] ==> MovedTo(before, log, b.id, to))
      && (NeverWrites(cfg, node, view, vars) ==> failed)
  }

  /** advanceTimerBranch: routed by conditions and default, never parked again here. */
  method AdvanceTimerBranch(ctx: ExecutionContext, id: BranchId, node: Node)
    requires ctx.Tracked() && Ready(ctx.audit) && BranchOpen(ctx.audit.st, id)
    requires TimerFor(ctx.cfg, ctx.audit, id, node.id) && ctx.cfg.def.nodes[node.id] == node
    modifies ctx
    ensures ctx.Tracked() && Ready(ctx.audit) && OnlyBranch(old(ctx.audit), ctx.audit, id) && old(ctx.log) <= ctx.log
    ensures Reacted(old(ctx.log), ctx.log, id)
    ensures TimerMoved(ctx.cfg, node, old(ctx.variables), old(ctx.log), ctx.log, old(BranchAt(ctx, id)), BranchAt(ctx, id))
    ensures ctx.processedEvents == old(ctx.processedEvents) && ctx.clock >= old(ctx.clock)
    ensures LaterSlots(old(ctx.waitings), ctx.waitings, old(ctx.clock))
  {
    hide LaterSlots, Reacted, Reach, Legal, Advance, Apply, OnlyBranch, EffectsReady, BranchMoves, MovedTo, AlwaysWrites, NeverWrites;
    ghost var a := ctx.audit;
    var b := ctx.scopes[0].branches[id];
    VisitNode(ctx, id, node);
    ghost var c, l := ctx.audit, ctx.log;
    var view := EnterNode(ctx.cfg, node, ctx.variables);
    var r := Broken;
    if view.Some? {
      r := EvalWhenChain(ctx.cfg, node.transitions, view.value);
    }
    if r.Broken? || r.next == "" {
      FailBranch(ctx, b);
    } else {
      TimerMoves(ctx.cfg, c, b, node, view.value, r.next);
      LeaveAndAdvance(ctx, b, node, view.value, r.next);
      if MovedTo(l, ctx.log, id, r.next) {
        MovedStill(old(ctx.log), l, ctx.log, ctx.log, id, r.next);
      }
    }
    OnlyBranchTrans(a, c, ctx.audit, id);
    ReactedStill(old(ctx.log), l, ctx.log, ctx.log, id);
  }
}
