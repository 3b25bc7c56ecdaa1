/** Consuming an inference result under bounded agency (dsl/ai.go). */
module Inference {
  import opened Definition
  import opened Journal
  import opened Protocol
  import opened Frames
  import opened Context
  import opened Contract
  import opened Meaning

  /** The engine has just visited the inference node and holds its callback event. */
  ghost predicate AtInference(cfg: Config, a: Audit, node: Node, result: AiResult) {
    && node.id in cfg.def.nodes && cfg.def.nodes[node.id] == node
    && node.ntype.Ai? && node.ai.Some?
    && a.moment.Visited? && a.moment.node == node.id
    && a.event.Some? && result == ParseAiResult(a.event.value.payload)
  }

  function OnError(cfg: Config, node: Node): Option<string>
    requires node.ai.Some?
  {
    var onError := node.ai.value.onError;
    if onError != "" && onError in cfg.def.nodes then Some(onError) else None
  }

  /** resolveAINext: outputs checked and written in any order, then the route. With candidates
      it is the target of the first transition for the choice when the result is complete and
      chose one of them, else the declared fallback. */
  method ResolveAiNext(ctx: ExecutionContext, node: Node, result: AiResult) returns (next: Option<string>)
    requires ctx.Tracked() && Ready(ctx.audit) && AtInference(ctx.cfg, ctx.audit, node, result)
    modifies ctx
    ensures ctx.Tracked() && OnlyVariables(old(ctx.audit), ctx.audit) && old(ctx.log) <= ctx.log
    ensures ctx.clock == old(ctx.clock) && ctx.processedEvents == old(ctx.processedEvents)
    ensures next == AiRoute(ctx.cfg, node, result, AiAfter(node, result, old(ctx.variables)))
    ensures next == AiRoute(ctx.cfg, node, result, ctx.variables)
    ensures forall to: string ::
      next == Some(to) <==> LeadsTo(ctx.cfg, node, old(ctx.audit).event.value.payload, ctx.variables, to)
    ensures node.ai.value.choose != [] ==> forall to: string ::
      var payload := old(ctx.audit).event.value.payload;
      var good := Complete(node.ai.value, payload);
      next == Some(to) <==>
        || (good && exists k: nat :: Chosen(node, payload, k) && to == node.transitions[k].next)
        || (!(good && exists k: nat :: Chosen(node, payload, k))
            && to == node.ai.value.onError && to != "" && to in ctx.cfg.def.nodes)
    ensures !AiViolates(node, result) ==> forall name <- node.ai.value.outputTypes ::
      name in ctx.variables && ctx.variables[name] == result.output[name]
  {
    hide Reach, Legal, Advance, Apply, LeadsTo, Complete, Chosen;
    ghost var payload := ctx.audit.event.value.payload;
    var good := result.error == "";
    if good {
      good := WriteResults(ctx, node, result);
    }
    if good {
      next := ChooseRoute(ctx.cfg, node, result, ctx.variables);
    } else {
      next := OnError(ctx.cfg, node);
    }
    Resolved(ctx.cfg, node, payload, ctx.variables, next);
  }

  lemma Resolved(cfg: Config, node: Node, payload: map<string, Value>, vars: Env, next: Option<string>)
    requires node.ai.Some? && next == AiRoute(cfg, node, ParseAiResult(payload), vars)
    ensures forall to: string :: next == Some(to) <==> LeadsTo(cfg, node, payload, vars, to)
    ensures node.ai.value.choose != [] ==> forall to: string ::
      var good := Complete(node.ai.value, payload);
      next == Some(to) <==>
        || (good && exists k: nat :: Chosen(node, payload, k) && to == node.transitions[k].next)
        || (!(good && exists k: nat :: Chosen(node, payload, k))
            && to == node.ai.value.onError && to != "" && to in cfg.def.nodes)
  {
    hide LeadsTo, Complete, AiRoute;
    forall to: string
      ensures next == Some(to) <==> LeadsTo(cfg, node, payload, vars, to)
      ensures node.ai.value.choose != [] ==>
        var good := Complete(node.ai.value, payload);
        next == Some(to) <==>
          || (good && exists k: nat :: Chosen(node, payload, k) && to == node.transitions[k].next)
          || (!(good && exists k: nat :: Chosen(node, payload, k))
              && to == node.ai.value.onError && to != "" && to in cfg.def.nodes)
    {
      AiRouteMeaning(cfg, node, payload, vars, to);
      if node.ai.value.choose != [] {
        CandidatesLead(cfg, node, payload, vars, to);
      }
    }
  }

  method ChooseRoute(cfg: Config, node: Node, result: AiResult, vars: Env) returns (next: Option<string>)
    requires node.ai.Some? && result.error == ""
    requires forall name <- node.ai.value.outputTypes :: OutputGiven(node.ai.value, result, name)
    ensures next == AiRoute(cfg, node, result, vars)
  {
    var ai := node.ai.value;
    if ai.choose != [] {
      if result.choice == "" || result.choice !in ai.choose {
        return OnError(cfg, node);
      }
      next := FindCase(node.transitions, result.choice);
      if next.None? {
        return OnError(cfg, node);
      }
      return;
    }
    var route := EvalWhenChain(cfg, node.transitions, vars);
    if route.Broken? || route.next == "" {
      return None;
    }
    next := Some(route.next);
  }

  method FindCase(trs: seq<Transition>, choice: string) returns (next: Option<string>)
    ensures next == CaseNext(trs, choice)
  {
    var k := 0;
    while k < |trs|
      invariant k <= |trs| && CaseNext(trs, choice) == CaseNext(trs[k..], choice)
    {
      if trs[k].choice == choice {
        return Some(trs[k].next);
      }
      assert trs[k..][1..] == trs[k + 1..];
      k := k + 1;
    }
    next := None;
  }

  /** The outputs of the result under the given names. */
  function Given(ai: AiConfig, result: AiResult, names: set<string>): Env {
    map name | name in names && name in result.output :: result.output[name]
  }

  lemma GivenNone(ai: AiConfig, result: AiResult, vars: Env)
    ensures vars + Given(ai, result, ai.outputTypes.Keys - ai.outputTypes.Keys) == vars
  {
  }

  lemma GivenMore(ai: AiConfig, result: AiResult, vars: Env, names: set<string>, name: string)
    requires name in result.output
    ensures vars + Given(ai, result, names + {name}) == (vars + Given(ai, result, names))[name := result.output[name]]
  {
    var given, more := Given(ai, result, names), Given(ai, result, names + {name});
    assert more.Keys == given.Keys + {name};
    assert vars + more == (vars + given)[name := result.output[name]];
  }

  /** The schema-checked outputs; stops at the first that is missing or ill-typed. */
  method WriteResults(ctx: ExecutionContext, node: Node, result: AiResult) returns (good: bool)
    requires ctx.Tracked() && Ready(ctx.audit) && AtInference(ctx.cfg, ctx.audit, node, result)
    modifies ctx
    ensures ctx.Tracked() && OnlyVariables(old(ctx.audit), ctx.audit) && old(ctx.log) <= ctx.log
    ensures ctx.clock == old(ctx.clock) && ctx.processedEvents == old(ctx.processedEvents)
    ensures good <==> forall name <- node.ai.value.outputTypes :: OutputGiven(node.ai.value, result, name)
    ensures good ==> forall name <- node.ai.value.outputTypes ::
      name in ctx.variables && ctx.variables[name] == result.output[name]
    ensures good ==> ctx.variables == old(ctx.variables) + Given(node.ai.value, result, node.ai.value.outputTypes.Keys)
  {
    hide Reach, Legal, Advance, Apply, Given;
    var ai := node.ai.value;
    GivenNone(ai, result, ctx.variables);
    var left := ai.outputTypes.Keys;
    while left != {}
      invariant left <= ai.outputTypes.Keys
      invariant ctx.Tracked() && OnlyVariables(old(ctx.audit), ctx.audit) && old(ctx.log) <= ctx.log
      invariant ctx.clock == old(ctx.clock) && ctx.processedEvents == old(ctx.processedEvents)
      invariant forall name <- ai.outputTypes.Keys - left ::
        OutputGiven(ai, result, name) && name in ctx.variables && ctx.variables[name] == result.output[name]
      invariant ctx.variables == old(ctx.variables) + Given(ai, result, ai.outputTypes.Keys - left)
      decreases left
    {
      var name :| name in left;
      if name !in result.output || !Assignable(ai.outputTypes[name], result.output[name]) {
        assert !OutputGiven(ai, result, name);
        return false;
      }
      GivenMore(ai, result, old(ctx.variables), ai.outputTypes.Keys - left, name);
      assert ai.outputTypes.Keys - (left - {name}) == ai.outputTypes.Keys - left + {name};
      ctx.SetVariable(name, result.output[name]);
      left := left - {name};
    }
    assert ai.outputTypes.Keys - {} == ai.outputTypes.Keys;
    good := true;
  }
}
