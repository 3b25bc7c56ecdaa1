/**
 One linear step (dsl/executor.go): visit the current node, declare its commands, and
 decide where the instance goes.
 */
module Executor {
  import opened Definition
  import opened Journal
  import opened Protocol
  import opened Runs
  import opened Frames
  import opened Context
  import opened Contract
  import opened Effects
  import opened Forking
  import opened Inference

  datatype Outcome = StepFailed | StepForked | StepCompleted | StepMoved

  /** Commands built for a node right after its visit have never been issued. */
  lemma FreshAfterVisit(cfg: Config, a: Audit, b: Audit, node: Node)
    requires IdsBounded(a) && b == Advance(a, NodeVisited(node.id))
    requires node.id in cfg.def.nodes && cfg.def.nodes[node.id] == node
    ensures FreshCommands(cfg, b, NodeCommands(b.st.executionID, node, VisitsOf(b.st.visits, node.id)))
    ensures forall slot: Slot :: RequestId(b.st.executionID, node.id, VisitsOf(b.st.visits, node.id), slot) !in b.issued
  {
    assert b.issued == a.issued;
    assert VisitsOf(b.st.visits, node.id) == VisitsOf(a.st.visits, node.id) + 1;
  }

  lemma FreshStable(cfg: Config, a: Audit, b: Audit, cmds: seq<Command>)
    requires FreshCommands(cfg, a, cmds)
    requires b.issued == a.issued && b.st.visits == a.st.visits && b.st.executionID == a.st.executionID
    ensures FreshCommands(cfg, b, cmds)
  {
  }

  // ------------------------------------------------------------- transitions

  /** assignTransition. */
  method AssignTransition(ctx: ExecutionContext, from: string, to: string, name: string)
    requires ctx.Tracked() && Ready(ctx.audit) && TransitionLegal(ctx.cfg, ctx.audit, from, to, name)
    modifies ctx
    ensures ctx.Tracked() && SameBook(old(ctx.audit), ctx.audit) && SameCourse(old(ctx.audit), ctx.audit)
    ensures ctx.audit.landing == None
    ensures ctx.audit.st == old(ctx.audit.st).(node := to, status := Running)
    ensures ctx.log == old(ctx.log) + [StatusSet(Running), Transitioned(from, to, name)]
    ensures ctx.clock == old(ctx.clock) && ctx.processedEvents == old(ctx.processedEvents)
  {
    hide Reach, Legal, Advance, Apply;
    ctx.SetStatus(Running);
    ctx.RecordTransition(from, to, name);
  }

  /** Ready to step from node `n`: attribution as Attributed has it, and where the engine has
      just put the instance on `n`, nothing has happened since. */
  ghost predicate Poised(cfg: Config, a: Audit, n: string) {
    && Attributed(cfg, a, n)
    && (a.landing.Some? ==> a.steps == 0 && a.landing.value == a.st.vars && a.popped.None?)
  }

  /** The linear node is being stepped: just visited, outside forks, with attribution
      where it is required. */
  ghost predicate Stepping(cfg: Config, a: Audit, node: Node, vars: Env) {
    && node.id in cfg.def.nodes && cfg.def.nodes[node.id] == node
    && a.moment == Visited(node.id, vars)
    && a.st.node == node.id && a.st.scopes == [] && Instance !in a.st.waitings
    && Attributed(cfg, a, node.id) && a.steps >= 1 && (a.landing.Some? ==> a.landing.value == vars)
  }

  /** The node was left for `b.st.node`, or failed where it stood. */
  ghost predicate Left(cfg: Config, a: Audit, b: Audit, node: Node, vars: Env, out: Outcome) {
    && node.id in cfg.def.nodes && SameBook(a, b) && SameCourse(a, b)
    && (if out == StepFailed then b.moves == a.moves && b.landing == a.landing else b.landing == None)
    && b.st == a.st.(vars := b.st.vars, status := b.st.status, node := b.st.node)
    && match out
       case StepMoved => b.st.status == Running && StepsTo(cfg, b, node.id, vars, b.st.node)
       case StepFailed => b.st.status == Failed && b.st.node == a.st.node && StepFails(cfg, b, node.id, vars)
       case _ => false
  }

  /** One of the two holds wherever outputs cannot depend on each other; elsewhere a step that
      neither must move nor must fail does the one in some order of its outputs and the other
      in another. */
  lemma MoveDecided(cfg: Config, node: Node, vars: Env, e: Option<Event>)
    requires Selecting(node)
    ensures node.ntype.Ai? || node.input != map[] || |node.output| <= 1 ==>
      (MustMove(cfg, node, vars, e) <==> !MustFail(cfg, node, vars, e))
    ensures !MustMove(cfg, node, vars, e) && !MustFail(cfg, node, vars, e) ==>
      EnterEnv(cfg, node, vars).Some? && OrderMatters(cfg, node, EnterEnv(cfg, node, vars).value, vars)
    ensures !(MustMove(cfg, node, vars, e) && MustFail(cfg, node, vars, e))
  {
    hide StepRoute, AlwaysWrites, NeverWrites, OrderMatters;
    if EnterEnv(cfg, node, vars).Some? {
      var view := EnterEnv(cfg, node, vars).value;
      OrdersDecide(cfg, node, view, vars);
      if node.input != map[] || |node.output| <= 1 {
        WritesDecided(cfg, node, view, vars);
      }
    }
  }

  /** The step is logged last, and led where its route says. */
  ghost predicate MoveLogged(cfg: Config, log: seq<Occ>, node: Node, vars: Env, e: Option<Event>, to: string) {
    && log != [] && log[|log| - 1] == Transitioned(node.id, to, EventName(e))
    && NextOf(cfg, node, vars, e) == Some(to)
  }

  /** The step fails, on grounds the protocol accepts. */
  method FailStep(ctx: ExecutionContext, node: Node, ghost vars: Env)
    requires ctx.Tracked() && Ready(ctx.audit) && node.id in ctx.cfg.def.nodes
    requires ctx.audit.moment == Visited(node.id, vars) && ctx.audit.st.node == node.id
    requires StepFails(ctx.cfg, ctx.audit, node.id, vars) && !Denied(ctx.cfg, ctx.audit)
    modifies ctx
    ensures ctx.Tracked() && SameBook(old(ctx.audit), ctx.audit) && SameStep(old(ctx.audit), ctx.audit)
    ensures ctx.audit.st == old(ctx.audit.st).(status := Failed) && old(ctx.log) <= ctx.log
    ensures StepFails(ctx.cfg, ctx.audit, node.id, vars)
    ensures ctx.clock == old(ctx.clock) && ctx.processedEvents == old(ctx.processedEvents)
  {
    hide Reach, Legal, Advance, Apply, StepFails;
    ghost var a := ctx.audit;
    ctx.SetStatus(Failed);
    FailsKept(ctx.cfg, a, ctx.audit, node.id, vars);
  }

  lemma FailsKept(cfg: Config, a: Audit, b: Audit, n: string, vars: Env)
    requires n in cfg.def.nodes && StepFails(cfg, a, n, vars) && b.event == a.event && b.st.vars == a.st.vars
    ensures StepFails(cfg, b, n, vars)
  {
  }

  lemma StepMayLeave(cfg: Config, a: Audit, node: Node, vars: Env, to: string)
    requires Stepping(cfg, a, node, vars) && StepsTo(cfg, a, node.id, vars, to) && !MustFail(cfg, node, vars, a.event)
    ensures TransitionLegal(cfg, a, node.id, to, EventName(a.event))
  {
  }

  /** Writing outputs does not change where a step leads. */
  lemma SteppingKept(cfg: Config, a: Audit, b: Audit, node: Node, vars: Env, to: string)
    requires Stepping(cfg, a, node, vars) && StepsTo(cfg, a, node.id, vars, to) && OnlyVariables(a, b)
    ensures Stepping(cfg, b, node, vars)
    ensures !node.ntype.Ai? ==> StepsTo(cfg, b, node.id, vars, to)
  {
  }

  lemma BlockedFails(cfg: Config, a: Audit, b: Audit, node: Node, vars: Env, entered: Env, to: string)
    requires Stepping(cfg, a, node, vars) && StepsTo(cfg, a, node.id, vars, to) && !node.ntype.Ai? && OnlyVariables(a, b)
    requires EnterEnv(cfg, node, vars) == Some(entered)
    requires exists name <- node.output :: OutputBlocked(cfg, node, entered, b.st.vars, name)
    ensures StepFails(cfg, b, node.id, vars)
  {
  }

  /** finishTransition: the outputs first; the node fails when they do. */
  method FinishTransition(ctx: ExecutionContext, node: Node, entered: Env, to: string, ghost vars: Env) returns (out: Outcome)
    requires ctx.Tracked() && Ready(ctx.audit) && Stepping(ctx.cfg, ctx.audit, node, vars)
    requires EnterEnv(ctx.cfg, node, vars) == Some(entered) && StepsTo(ctx.cfg, ctx.audit, node.id, vars, to)
    requires !node.ntype.Ai? && vars == ctx.variables
    modifies ctx
    ensures ctx.Tracked() && Left(ctx.cfg, old(ctx.audit), ctx.audit, node, vars, out) && old(ctx.log) <= ctx.log
    ensures out == StepMoved ==> ctx.currentNode == to && OutputsHold(ctx.cfg, node, node.output.Keys, ctx.variables)
    ensures ctx.clock == old(ctx.clock) && ctx.processedEvents == old(ctx.processedEvents)
    ensures out in {StepMoved, StepFailed}
    ensures AlwaysWrites(ctx.cfg, node, entered, old(ctx.variables)) ==> out == StepMoved
    ensures NeverWrites(ctx.cfg, node, entered, old(ctx.variables)) ==> out == StepFailed
    ensures out == StepMoved ==> ctx.log != [] && ctx.log[|ctx.log| - 1] == Transitioned(node.id, to, EventName(old(ctx.currentEvent)))
    ensures node.output == map[] ==> ctx.variables == old(ctx.variables)
  {
    hide Reach, Legal, Advance, Apply, StepsTo, StepFails, OutputsHold, OutputsValued, OutputBlocked, LeavesInOrder, TransitionLegal, Attributed, AlwaysWrites, NeverWrites;
    ghost var a := ctx.audit;
    var ok := LeaveNode(ctx, node, entered);
    SteppingKept(ctx.cfg, a, ctx.audit, node, vars, to);
    if !ok {
      BlockedFails(ctx.cfg, a, ctx.audit, node, vars, entered, to);
      FailStep(ctx, node, vars);
      return StepFailed;
    }
    var name := if ctx.currentEvent.Some? then ctx.currentEvent.value.name else "";
    StepMayLeave(ctx.cfg, ctx.audit, node, vars, to);
    ghost var b := ctx.audit;
    AssignTransition(ctx, node.id, to, name);
    RouteKept(ctx.cfg, b, ctx.audit, node.id, vars, to);
    out := StepMoved;
  }

  lemma RouteKept(cfg: Config, a: Audit, b: Audit, n: string, vars: Env, to: string)
    requires n in cfg.def.nodes && StepsTo(cfg, a, n, vars, to) && b.event == a.event && b.st.vars == a.st.vars
    ensures StepsTo(cfg, b, n, vars, to)
  {
  }

  method FindEvent(trs: seq<Transition>, name: string) returns (next: Option<string>)
    ensures next == EventNext(trs, name)
  {
    var k := 0;
    while k < |trs|
      invariant k <= |trs| && EventNext(trs, name) == EventNext(trs[k..], name)
    {
      if trs[k].event == name {
        return Some(trs[k].next);
      }
      assert trs[k..][1..] == trs[k + 1..];
      k := k + 1;
    }
    next := None;
  }

  method FindFirst(trs: seq<Transition>) returns (next: string)
    ensures next == FirstNext(trs)
  {
    var k := 0;
    while k < |trs|
      invariant k <= |trs| && FirstNext(trs) == FirstNext(trs[k..])
    {
      if trs[k].next != "" {
        return trs[k].next;
      }
      assert trs[k..][1..] == trs[k + 1..];
      k := k + 1;
    }
    next := "";
  }

  /** The choices of stepSelectTransition in their order. */
  method SelectRoute(cfg: Config, node: Node, name: string, env: Env) returns (to: Option<string>)
    ensures to == StepRoute(cfg, node, name, env)
  {
    if node.ntype in {Condition, Join, Timer} {
      var r := EvalWhenChain(cfg, node.transitions, env);
      if r.Broken? {
        return None;
      }
      if r.next != "" {
        return Some(r.next);
      }
    }
    to := FindEvent(node.transitions, name);
    if to.Some? {
      return;
    }
    if !node.ntype.Condition? && !IsWaitingNode(node) {
      var first := FindFirst(node.transitions);
      if first != "" {
        return Some(first);
      }
    }
  }

  /** How a step that selects a transition ended. */
  ghost predicate SelectedAs(cfg: Config, node: Node, vars: Env, after: Env, e: Option<Event>, log: seq<Occ>, to: string, out: Outcome) {
    && (MustMove(cfg, node, vars, e) ==> out == StepMoved)
    && (MustFail(cfg, node, vars, e) ==> out == StepFailed)
    && (out == StepMoved ==> MoveLogged(cfg, log, node, vars, e, to))
    && (Selecting(node) && !node.ntype.Ai? && node.output == map[] ==> after == vars)
  }

  /** stepSelectTransition. */
  method StepSelect(ctx: ExecutionContext, node: Node) returns (out: Outcome)
    requires ctx.Tracked() && Ready(ctx.audit) && Stepping(ctx.cfg, ctx.audit, node, ctx.variables)
    requires !node.ntype.Ai? && !node.ntype.End? && !node.ntype.Parallel?
    modifies ctx
    ensures ctx.Tracked() && Left(ctx.cfg, old(ctx.audit), ctx.audit, node, old(ctx.variables), out) && old(ctx.log) <= ctx.log
    ensures ctx.clock == old(ctx.clock) && ctx.processedEvents == old(ctx.processedEvents)
    ensures SelectedAs(ctx.cfg, node, old(ctx.variables), ctx.variables, old(ctx.currentEvent), ctx.log, ctx.currentNode, out)
  {
    hide Reach, Legal, Advance, Apply, EnterEnv, StepRoute, AlwaysWrites, NeverWrites;
    var name := if ctx.currentEvent.Some? then ctx.currentEvent.value.name else "";
    var view := EnterNode(ctx.cfg, node, ctx.variables);
    if view.None? {
      FailStep(ctx, node, ctx.variables);
      return StepFailed;
    }
    var to := SelectRoute(ctx.cfg, node, name, view.value);
    if to.None? {
      FailStep(ctx, node, ctx.variables);
      return StepFailed;
    }
    out := FinishTransition(ctx, node, view.value, to.value, ctx.variables);
  }

  /** What the callback of an inference node leads to. */
  lemma InferenceNext(cfg: Config, node: Node, vars: Env, e: Option<Event>)
    requires node.ntype.Ai? && node.ai.Some?
    ensures NextOf(cfg, node, vars, e) ==
      if e.None? || e.value.name != AiEventName(node) then None
      else AiRoute(cfg, node, ParseAiResult(e.value.payload), AiAfter(node, ParseAiResult(e.value.payload), vars))
  {
  }

  lemma NoNextFails(cfg: Config, a: Audit, node: Node, vars: Env)
    requires Stepping(cfg, a, node, vars) && Selecting(node) && NextOf(cfg, node, vars, a.event).None?
    ensures StepFails(cfg, a, node.id, vars) && !Denied(cfg, a)
  {
  }

  lemma CallbackLeads(cfg: Config, node: Node, vars: Env, e: Option<Event>)
    requires node.ntype.Ai? && NextOf(cfg, node, vars, e).Some?
    ensures !MustFail(cfg, node, vars, e)
  {
  }

  lemma SteppingStill(cfg: Config, a: Audit, b: Audit, node: Node, vars: Env)
    requires Stepping(cfg, a, node, vars) && OnlyVariables(a, b)
    ensures Stepping(cfg, b, node, vars)
  {
  }

  /** stepProcessAI: only the callback event is understood here. */
  method StepAi(ctx: ExecutionContext, node: Node) returns (out: Outcome)
    requires ctx.Tracked() && Ready(ctx.audit) && Stepping(ctx.cfg, ctx.audit, node, ctx.variables)
    requires node.ntype.Ai? && node.ai.Some?
    modifies ctx
    ensures ctx.Tracked() && Left(ctx.cfg, old(ctx.audit), ctx.audit, node, old(ctx.variables), out) && old(ctx.log) <= ctx.log
    ensures ctx.clock == old(ctx.clock) && ctx.processedEvents == old(ctx.processedEvents)
    ensures SelectedAs(ctx.cfg, node, old(ctx.variables), ctx.variables, old(ctx.currentEvent), ctx.log, ctx.currentNode, out)
  {
    hide Reach, Legal, Advance, Apply, NextOf, StepFails, TransitionLegal, Attributed, AiRoute, Denied;
    ghost var a, vars := ctx.audit, ctx.variables;
    InferenceNext(ctx.cfg, node, vars, ctx.currentEvent);
    if ctx.currentEvent.None? || ctx.currentEvent.value.name != AiEventName(node) {
      NoNextFails(ctx.cfg, a, node, vars);
      FailStep(ctx, node, vars);
      return StepFailed;
    }
    var name := ctx.currentEvent.value.name;
    var next := ResolveAiNext(ctx, node, ParseAiResult(ctx.currentEvent.value.payload));
    ghost var b := ctx.audit;
    SteppingStill(ctx.cfg, a, b, node, vars);
    if next.None? {
      NoNextFails(ctx.cfg, b, node, vars);
      FailStep(ctx, node, vars);
      return StepFailed;
    }
    CallbackLeads(ctx.cfg, node, vars, b.event);
    StepMayLeave(ctx.cfg, b, node, vars, next.value);
    AssignTransition(ctx, node.id, next.value, name);
    RouteKept(ctx.cfg, b, ctx.audit, node.id, vars, next.value);
    out := StepMoved;
  }

  /** The end node: its outputs are the last thing that can fail. */
  method StepEnd(ctx: ExecutionContext, node: Node) returns (out: Outcome)
    requires ctx.Tracked() && Ready(ctx.audit) && Stepping(ctx.cfg, ctx.audit, node, ctx.variables) && node.ntype.End?
    modifies ctx
    ensures ctx.Tracked() && old(ctx.log) <= ctx.log
    ensures SameBook(old(ctx.audit), ctx.audit) && SameStep(old(ctx.audit), ctx.audit)
    ensures ctx.audit.st == old(ctx.audit.st).(vars := ctx.variables, status := ctx.status)
    ensures (out == StepCompleted && ctx.status == Completed) || (out == StepFailed && ctx.status == Failed)
    ensures out == StepFailed ==> StepFails(ctx.cfg, ctx.audit, node.id, old(ctx.variables))
    ensures ctx.clock == old(ctx.clock) && ctx.processedEvents == old(ctx.processedEvents)
  {
    hide Reach, Legal, Advance, Apply, EnterEnv, AlwaysWrites, NeverWrites, LeavesInOrder, OutputsValued;
    ghost var vars := ctx.variables;
    var view := EnterNode(ctx.cfg, node, ctx.variables);
    var ok := false;
    if view.Some? {
      ok := LeaveNode(ctx, node, view.value);
    }
    if ok {
      ctx.SetStatus(Completed);
      out := StepCompleted;
    } else {
      FailStep(ctx, node, vars);
      out := StepFailed;
    }
  }

  // --------------------------------------------------------------------- step

  /** The effect of one linear step on the observer, by its outcome. */
  ghost predicate Stepped(cfg: Config, a: Audit, b: Audit, out: Outcome) {
    && a.st.node in cfg.def.nodes
    && b.event == a.event && b.waking == a.waking && b.issued == a.issued && b.resolved == a.resolved
    && b.inverses == a.inverses && b.scars == a.scars && b.owed == a.owed == None
    && b.moment == Visited(a.st.node, a.st.vars) && b.steps == a.steps + 1
    && b.st.visits == a.st.visits[a.st.node := VisitsOf(a.st.visits, a.st.node) + 1]
    && b.st == a.st.(visits := b.st.visits, vars := b.st.vars, status := b.st.status, node := b.st.node,
                     scopes := b.st.scopes, waitings := b.st.waitings)
    && (out != StepForked ==> b.st.scopes == a.st.scopes && b.st.waitings == a.st.waitings)
    && (if out == StepMoved then b.landing == None else b.st.node == a.st.node && b.moves == a.moves && b.landing == a.landing)
    && match out
       case StepFailed => b.st.status == Failed && StepFails(cfg, b, a.st.node, a.st.vars)
       case StepCompleted => b.st.status == Completed && cfg.def.nodes[a.st.node].ntype.End?
       case StepMoved => b.st.status == Running && StepsTo(cfg, b, a.st.node, a.st.vars, b.st.node)
       case StepForked =>
         var node := cfg.def.nodes[a.st.node];
         && b.st.status == a.st.status && b.st.vars == a.st.vars
         && node.ntype.Parallel? && ForkDeclared(node)
         && |b.st.scopes| == 1
         && var s := b.st.scopes[0];
            && s == ForkScope(cfg.def, node, s.startedAt)
            && b.st.waitings == if s.timeout > 0 then
                 a.st.waitings[ScopeSlot(node.id) := ScopeTimer(s, VisitsOf(b.st.visits, node.id))]
               else a.st.waitings
  }

  lemma DecidedStepped(cfg: Config, a: Audit, b: Audit, c: Audit, node: Node, out: Outcome)
    requires node.id == a.st.node && node.id in cfg.def.nodes && cfg.def.nodes[node.id] == node
    requires SameBook(a, b) && b.event == a.event && b.waking == a.waking && b.moment == Visited(node.id, a.st.vars) && b.steps == a.steps + 1
    requires b.moves == a.moves && b.landing == a.landing
    requires b.st == a.st.(visits := a.st.visits[node.id := VisitsOf(a.st.visits, node.id) + 1])
    requires Decided(cfg, b, c, node, out)
    ensures Stepped(cfg, a, c, out)
    ensures c.issued == b.issued && c.st.visits == b.st.visits && c.st.executionID == b.st.executionID
  {
    hide ForkScope;
  }

  /** Step on a current node that exists. */
  method StepNode(ctx: ExecutionContext) returns (out: Outcome, cmds: seq<Command>)
    requires ctx.Tracked() && Ready(ctx.audit) && !WornOut(ctx.cfg, ctx.audit, ctx.currentNode)
    requires ctx.scopes == [] && Instance !in ctx.waitings && Poised(ctx.cfg, ctx.audit, ctx.currentNode)
    modifies ctx
    ensures ctx.Tracked() && Stepped(ctx.cfg, old(ctx.audit), ctx.audit, out) && old(ctx.log) <= ctx.log
    ensures old(ctx.log) < ctx.log
    ensures FreshCommands(ctx.cfg, ctx.audit, cmds)
    ensures cmds == NodeCommands(ctx.executionID, ctx.cfg.def.nodes[old(ctx.currentNode)], VisitsOf(ctx.visitCounts, old(ctx.currentNode)))
    ensures ctx.processedEvents == old(ctx.processedEvents) && ctx.clock >= old(ctx.clock)
    ensures LaterSlots(old(ctx.waitings), ctx.waitings, old(ctx.clock))
    ensures ctx.cfg.def.nodes[old(ctx.currentNode)].ntype.Parallel? ==> out in {StepForked, StepFailed}
    ensures SelectedAs(ctx.cfg, ctx.cfg.def.nodes[old(ctx.currentNode)], old(ctx.variables), ctx.variables,
              old(ctx.currentEvent), ctx.log, ctx.currentNode, out)
  {
    hide Reach, Legal, Advance, Apply, Stepped, Decided, SelectedAs;
    var node := ctx.cfg.def.nodes[ctx.currentNode];
    ghost var a := ctx.audit;
    ctx.IdsKnown();
    var visit := ctx.IncrVisit(node.id);
    ghost var b := ctx.audit;
    FreshAfterVisit(ctx.cfg, a, b, node);
    cmds := NodeCommands(ctx.executionID, node, visit);
    out := Decide(ctx, node);
    DecidedStepped(ctx.cfg, a, b, ctx.audit, node, out);
    FreshStable(ctx.cfg, b, ctx.audit, cmds);
  }

  /** The dispatch on the node type. */
  method Decide(ctx: ExecutionContext, node: Node) returns (out: Outcome)
    requires ctx.Tracked() && Ready(ctx.audit) && Stepping(ctx.cfg, ctx.audit, node, ctx.variables)
    modifies ctx
    ensures ctx.Tracked() && Decided(ctx.cfg, old(ctx.audit), ctx.audit, node, out) && old(ctx.log) <= ctx.log
    ensures ctx.processedEvents == old(ctx.processedEvents) && ctx.clock >= old(ctx.clock)
    ensures LaterSlots(old(ctx.waitings), ctx.waitings, old(ctx.clock))
    ensures node.ntype.Parallel? ==> out in {StepForked, StepFailed}
    ensures SelectedAs(ctx.cfg, node, old(ctx.variables), ctx.variables, old(ctx.currentEvent), ctx.log, ctx.currentNode, out)
  {
    hide Reach, Legal, Advance, Apply, ForkScope, SelectedAs, EnterEnv, StepRoute, NextOf, AlwaysWrites, NeverWrites;
    ghost var vars, e := ctx.variables, ctx.currentEvent;
    match node.ntype {
      case End =>
        out := StepEnd(ctx, node);
        NotSelected(ctx.cfg, node, vars, ctx.variables, e, ctx.log, ctx.currentNode, out);
      case Parallel =>
        var ok := StepParallel(ctx, node);
        if ok {
          out := StepForked;
        } else {
          ForkUndenied(ctx.cfg, ctx.audit, node);
          FailStep(ctx, node, ctx.variables);
          out := StepFailed;
        }
        NotSelected(ctx.cfg, node, vars, ctx.variables, e, ctx.log, ctx.currentNode, out);
      case Ai =>
        out := StepAi(ctx, node);
      case _ =>
        out := StepSelect(ctx, node);
    }
  }

  lemma ForkUndenied(cfg: Config, a: Audit, node: Node)
    requires node.ntype.Parallel? && a.st.node == node.id && node.id in cfg.def.nodes && cfg.def.nodes[node.id] == node && a.steps > 0
    ensures !Denied(cfg, a)
  {
  }

  lemma NotSelected(cfg: Config, node: Node, vars: Env, after: Env, e: Option<Event>, log: seq<Occ>, to: string, out: Outcome)
    requires !Selecting(node) && out != StepMoved
    ensures SelectedAs(cfg, node, vars, after, e, log, to, out)
  {
  }

  ghost predicate Decided(cfg: Config, a: Audit, b: Audit, node: Node, out: Outcome) {
    && SameBook(a, b) && SameCourse(a, b) && node.id in cfg.def.nodes
    && (if out == StepMoved then b.landing == None else b.moves == a.moves && b.landing == a.landing)
    && match out
       case StepMoved => Left(cfg, a, b, node, a.st.vars, out)
       case StepFailed => b.st == a.st.(vars := b.st.vars, status := Failed) && StepFails(cfg, b, node.id, a.st.vars)
       case StepCompleted => b.st == a.st.(vars := b.st.vars, status := Completed) && node.ntype.End?
       case StepForked => Forked(cfg, a, b, node) && node.ntype.Parallel? && ForkDeclared(node)
  }
}
