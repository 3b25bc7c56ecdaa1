/** The data contract of a node (dsl/contract.go): inputs, outputs, conditions. */
module Contract {
  import opened Definition
  import opened Journal
  import opened Protocol
  import opened Frames
  import opened Context
  import opened Meaning

  /** evalWhenChain. */
  method EvalWhenChain(cfg: Config, trs: seq<Transition>, env: Env) returns (r: Routing)
    ensures r == WhenRoute(cfg, trs, env)
  {
    var hasDefault, defaultNext := false, "";
    var k := 0;
    while k < |trs|
      invariant k <= |trs|
      invariant WhenRoute(cfg, trs, env) == WhenFrom(cfg, trs, env, k)
      invariant DefaultNext(trs) == if hasDefault then defaultNext else DefaultNext(trs[k..])
      invariant !hasDefault ==> defaultNext == ""
    {
      assert trs[k..][1..] == trs[k + 1..];
      if trs[k].when == "" {
        if !hasDefault {
          hasDefault, defaultNext := true, trs[k].next;
        }
      } else {
        match cfg.cond(trs[k].when, env) {
          case None => return Broken;
          case Some(hit) =>
            if hit {
              return Goto(trs[k].next);
            }
        }
      }
      k := k + 1;
    }
    r := Goto(defaultNext);
  }

  /** enterNode: the node's view of the data, or a failure. */
  method EnterNode(cfg: Config, node: Node, vars: Env) returns (view: Option<Env>)
    ensures view == EnterEnv(cfg, node, vars)
    ensures view.Some? ==> Sees(cfg, node, vars, view.value)
    ensures view.None? <==> exists name <- node.input :: cfg.eval(node.input[name], vars).None?
  {
    ViewMeaning(cfg, node, vars);
    var local: Env := map[];
    var left := node.input.Keys;
    while left != {}
      invariant left <= node.input.Keys
      invariant forall name <- node.input.Keys - left :: cfg.eval(node.input[name], vars).Some?
      invariant local == map name | name in node.input && name !in left && cfg.eval(node.input[name], vars).Some? ::
        cfg.eval(node.input[name], vars).value
      decreases left
    {
      var name :| name in left;
      var v := cfg.eval(node.input[name], vars);
      if v.None? {
        assert cfg.eval(node.input[name], vars).None?;
        return None;
      }
      local := local[name := v.value];
      left := left - {name};
    }
    assert local == map name | name in node.input :: cfg.eval(node.input[name], vars).value;
    view := Some(vars + local);
  }

  /** The node at hand, whose outputs may be written now. */
  ghost predicate AtNode(cfg: Config, a: Audit, node: Node, entered: Env) {
    && node.id in cfg.def.nodes && cfg.def.nodes[node.id] == node
    && match a.moment
       case Visited(n, vars) => n == node.id && EnterEnv(cfg, node, vars) == Some(entered)
       case Woken(_, w, vars) => w.node == node.id && EnterEnv(cfg, node, vars) == Some(entered)
       case Nowhere => false
  }

  ghost predicate OutputsHold(cfg: Config, node: Node, names: set<string>, vars: Env) {
    forall name <- names :: name in node.output ==>
      name in vars && (name in cfg.def.varSchema ==> Assignable(cfg.def.varSchema[name], vars[name]))
  }

  // ------------------------------------------------------------ orders of outputs

  lemma {:induction false} WrittenSplit(cfg: Config, node: Node, entered: Env, vars: Env, first: seq<string>, rest: seq<string>)
    ensures Written(cfg, node, entered, vars, first + rest) ==
      match Written(cfg, node, entered, vars, first)
      case None => None
      case Some(mid) => Written(cfg, node, entered, mid, rest)
    decreases |first|
  {
    hide OutputBlocked;
    if first == [] {
      assert first + rest == rest;
    } else if first[0] in node.output && !OutputBlocked(cfg, node, entered, vars, first[0]) {
      assert (first + rest)[1..] == first[1..] + rest;
      WrittenSplit(cfg, node, entered, vars[first[0] := OutputValue(cfg, node, entered, vars, first[0])], first[1..], rest);
    }
  }

  function OutputValue(cfg: Config, node: Node, entered: Env, vars: Env, name: string): Value
    requires name in node.output && !OutputBlocked(cfg, node, entered, vars, name)
  {
    cfg.eval(node.output[name], LeaveEnv(node, entered, vars)).value
  }

  /** The elements of a set in some order. */
  lemma {:induction false} Listing(s: set<string>) returns (order: seq<string>)
    ensures |order| == |s| && forall x: string :: x in order <==> x in s
  {
    if s == {} {
      order := [];
    } else {
      var x :| x in s;
      var rest := Listing(s - {x});
      order := [x] + rest;
    }
  }

  /** Outputs that see the node's own view do not depend on each other. */
  lemma {:induction false} WrittenApart(cfg: Config, node: Node, entered: Env, vars: Env, now: Env, order: seq<string>)
    requires node.input != map[] && forall name <- order :: name in node.output
    ensures Written(cfg, node, entered, now, order).Some? <==> forall name <- order :: !OutputBlocked(cfg, node, entered, vars, name)
    decreases |order|
  {
    if order != [] && !OutputBlocked(cfg, node, entered, now, order[0]) {
      WrittenApart(cfg, node, entered, vars, now[order[0] := OutputValue(cfg, node, entered, now, order[0])], order[1..]);
      assert forall name :: name in order <==> name == order[0] || name in order[1..];
    }
  }

  /** Where outputs cannot depend on each other, they can be written in every order or in
      none: there is at most one of them, or the node has inputs and so a view of its own. */
  lemma WritesDecided(cfg: Config, node: Node, entered: Env, vars: Env)
    requires node.input != map[] || |node.output| <= 1
    ensures AlwaysWrites(cfg, node, entered, vars) <==> !NeverWrites(cfg, node, entered, vars)
  {
    hide OutputBlocked, Written;
    var some := Listing(node.output.Keys);
    assert Order(node, some);
    forall order: seq<string> | Order(node, order)
      ensures Written(cfg, node, entered, vars, order).Some? <==> Written(cfg, node, entered, vars, some).Some?
    {
      if node.input != map[] {
        WrittenApart(cfg, node, entered, vars, vars, order);
        WrittenApart(cfg, node, entered, vars, vars, some);
      } else {
        OneOrder(node, order);
        OneOrder(node, some);
      }
    }
  }

  /** One order of the outputs works and another does not. */
  ghost predicate OrderMatters(cfg: Config, node: Node, entered: Env, vars: Env) {
    exists good: seq<string>, bad: seq<string> :: Order(node, good) && Order(node, bad)
      && Written(cfg, node, entered, vars, good).Some? && Written(cfg, node, entered, vars, bad).None?
  }

  lemma OrdersDecide(cfg: Config, node: Node, entered: Env, vars: Env)
    ensures OrderMatters(cfg, node, entered, vars) <==> !AlwaysWrites(cfg, node, entered, vars) && !NeverWrites(cfg, node, entered, vars)
    ensures !(AlwaysWrites(cfg, node, entered, vars) && NeverWrites(cfg, node, entered, vars))
  {
    hide Written;
    var some := Listing(node.output.Keys);
    assert Order(node, some);
  }

  lemma OneOrder(node: Node, order: seq<string>)
    requires |node.output| <= 1 && Order(node, order)
    ensures node.output == map[] ==> order == []
    ensures forall name <- node.output :: order == [name]
  {
  }

  /** The outputs were written in some order, up to the first that is blocked. */
  ghost predicate LeavesInOrder(cfg: Config, node: Node, entered: Env, before: Env, after: Env, ok: bool) {
    exists order: seq<string> ::
      && Order(node, order)
      && (ok <==> Written(cfg, node, entered, before, order).Some?)
      && (ok ==> Written(cfg, node, entered, before, order) == Some(after))
  }

  lemma LeavesWhere(cfg: Config, node: Node, entered: Env, before: Env, after: Env, ok: bool)
    requires LeavesInOrder(cfg, node, entered, before, after, ok)
    ensures AlwaysWrites(cfg, node, entered, before) ==> ok
    ensures NeverWrites(cfg, node, entered, before) ==> !ok
  {
  }

  /** The variables after a node was left: in some order of its outputs each holds the value of
      its expression, and the others are as before. */
  ghost predicate OutputsValued(cfg: Config, node: Node, entered: Env, before: Env, after: Env) {
    exists order: seq<string> ::
      && Order(node, order) && (forall name <- order :: name in after)
      && (forall k | 0 <= k < |order| :: Valued(cfg, node, entered, before, order, after, k))
      && (forall x <- before :: x !in order ==> x in after && after[x] == before[x])
      && (forall x <- after :: x in before || x in order)
  }

  lemma LeavesValued(cfg: Config, node: Node, entered: Env, before: Env, after: Env)
    requires LeavesInOrder(cfg, node, entered, before, after, true)
    ensures OutputsValued(cfg, node, entered, before, after)
  {
    hide Written, Order, Valued;
    var order: seq<string> :| Order(node, order) && Written(cfg, node, entered, before, order) == Some(after);
    OrderDistinct(node, order);
    WrittenMeaning(cfg, node, entered, before, order, after);
  }

  /** The outputs written so far and those still `left`. */
  ghost predicate WritingOrder(cfg: Config, node: Node, entered: Env, before: Env, now: Env, done: seq<string>, left: set<string>) {
    && Written(cfg, node, entered, before, done) == Some(now) && left <= node.output.Keys
    && |done| == |node.output.Keys - left|
    && forall name: string :: name in done <==> name in node.output && name !in left
  }

  lemma WritingStarts(cfg: Config, node: Node, entered: Env, vars: Env)
    ensures WritingOrder(cfg, node, entered, vars, vars, [], node.output.Keys)
  {
  }

  lemma WritingMore(cfg: Config, node: Node, entered: Env, before: Env, vars: Env, after: Env, done: seq<string>, left: set<string>, name: string)
    requires WritingOrder(cfg, node, entered, before, vars, done, left) && name in left
    requires !OutputBlocked(cfg, node, entered, vars, name) && after == vars[name := OutputValue(cfg, node, entered, vars, name)]
    ensures WritingOrder(cfg, node, entered, before, after, done + [name], left - {name})
  {
    WrittenSplit(cfg, node, entered, before, done, [name]);
    assert node.output.Keys - (left - {name}) == node.output.Keys - left + {name};
    assert Written(cfg, node, entered, after, [name][1..]) == Some(after);
  }

  lemma WritingEnds(cfg: Config, node: Node, entered: Env, before: Env, after: Env, done: seq<string>)
    requires WritingOrder(cfg, node, entered, before, after, done, {})
    ensures LeavesInOrder(cfg, node, entered, before, after, true)
  {
    hide Written;
    assert node.output.Keys - {} == node.output.Keys;
    assert Order(node, done);
  }

  lemma OrderMade(node: Node, done: seq<string>, left: set<string>, name: string, rest: seq<string>)
    requires left <= node.output.Keys && name in left && |done| == |node.output.Keys - left| && |rest| == |left - {name}|
    requires forall x: string :: x in done <==> x in node.output && x !in left
    requires forall x: string :: x in rest <==> x in left - {name}
    ensures Order(node, done + ([name] + rest))
  {
    var order := done + ([name] + rest);
    forall x: string ensures x in order <==> x in done || x == name || x in rest {
    }
    assert node.output.Keys == (node.output.Keys - left) + left;
  }

  lemma WritingStops(cfg: Config, node: Node, entered: Env, before: Env, vars: Env, done: seq<string>, left: set<string>, name: string)
    requires WritingOrder(cfg, node, entered, before, vars, done, left) && name in left && OutputBlocked(cfg, node, entered, vars, name)
    ensures LeavesInOrder(cfg, node, entered, before, vars, false)
  {
    var rest := Listing(left - {name});
    OrderMade(node, done, left, name, rest);
    WrittenSplit(cfg, node, entered, before, done, [name] + rest);
    assert Written(cfg, node, entered, vars, [name] + rest).None?;
    hide Written, OutputBlocked;
  }

  /** leaveNode: the outputs, in any order, each checked against its declared type; it
      stops at the first that fails. */
  method LeaveNode(ctx: ExecutionContext, node: Node, entered: Env) returns (ok: bool)
    requires ctx.Tracked() && Ready(ctx.audit) && AtNode(ctx.cfg, ctx.audit, node, entered)
    modifies ctx
    ensures ctx.Tracked() && OnlyVariables(old(ctx.audit), ctx.audit) && old(ctx.log) <= ctx.log
    ensures ctx.clock == old(ctx.clock) && ctx.processedEvents == old(ctx.processedEvents)
    ensures LeavesInOrder(ctx.cfg, node, entered, old(ctx.variables), ctx.variables, ok)
    ensures ok ==> OutputsValued(ctx.cfg, node, entered, old(ctx.variables), ctx.variables)
    ensures ok ==> OutputsHold(ctx.cfg, node, node.output.Keys, ctx.variables)
    ensures !ok ==> exists name <- node.output :: OutputBlocked(ctx.cfg, node, entered, ctx.variables, name)
    ensures node.output == map[] ==> ok && ctx.log == old(ctx.log) && ctx.audit == old(ctx.audit)
    ensures AlwaysWrites(ctx.cfg, node, entered, old(ctx.variables)) ==> ok
    ensures NeverWrites(ctx.cfg, node, entered, old(ctx.variables)) ==> !ok
  {
    hide Reach, Legal, Advance, Apply, OnlyVariables, AtNode, OutputsHold, OutputBlocked, WritingOrder, LeavesInOrder, AlwaysWrites, NeverWrites, OutputsValued;
    ok := true;
    VariablesRefl(ctx.audit);
    NothingWritten(ctx.cfg, node, ctx.variables);
    ghost var first, done: seq<string> := ctx.variables, [];
    WritingStarts(ctx.cfg, node, entered, first);
    var left := node.output.Keys;
    while left != {}
      invariant left <= node.output.Keys
      invariant ctx.Tracked() && OnlyVariables(old(ctx.audit), ctx.audit) && old(ctx.log) <= ctx.log
      invariant Ready(ctx.audit) && AtNode(ctx.cfg, ctx.audit, node, entered)
      invariant ctx.clock == old(ctx.clock) && ctx.processedEvents == old(ctx.processedEvents)
      invariant WritingOrder(ctx.cfg, node, entered, first, ctx.variables, done, left)
      invariant OutputsHold(ctx.cfg, node, node.output.Keys - left, ctx.variables)
      invariant left == node.output.Keys ==> ctx.log == old(ctx.log) && ctx.audit == old(ctx.audit)
      decreases left
    {
      var name :| name in left;
      ghost var a, vars := ctx.audit, ctx.variables;
      ok := LeaveOne(ctx, node, entered, name);
      if !ok {
        WritingStops(ctx.cfg, node, entered, first, vars, done, left, name);
        LeavesWhere(ctx.cfg, node, entered, first, vars, false);
        return;
      }
      VariablesTrans(old(ctx.audit), a, ctx.audit);
      WrittenMore(ctx.cfg, node, vars, ctx.variables, node.output.Keys - left, name);
      WritingMore(ctx.cfg, node, entered, first, vars, ctx.variables, done, left, name);
      assert node.output.Keys - (left - {name}) == node.output.Keys - left + {name};
      left, done := left - {name}, done + [name];
    }
    assert node.output.Keys - {} == node.output.Keys;
    WritingEnds(ctx.cfg, node, entered, first, ctx.variables, done);
    LeavesWhere(ctx.cfg, node, entered, first, ctx.variables, true);
    LeavesValued(ctx.cfg, node, entered, first, ctx.variables);
  }

  lemma NothingWritten(cfg: Config, node: Node, vars: Env)
    ensures OutputsHold(cfg, node, node.output.Keys - node.output.Keys, vars)
  {
  }

  lemma WrittenMore(cfg: Config, node: Node, vars: Env, after: Env, names: set<string>, name: string)
    requires name in node.output && name in after && after == vars[name := after[name]]
    requires name in cfg.def.varSchema ==> Assignable(cfg.def.varSchema[name], after[name])
    requires OutputsHold(cfg, node, names, vars)
    ensures OutputsHold(cfg, node, names + {name}, after)
  {
  }

  /** One output: evaluated, checked, written. */
  method LeaveOne(ctx: ExecutionContext, node: Node, entered: Env, name: string) returns (ok: bool)
    requires ctx.Tracked() && Ready(ctx.audit) && AtNode(ctx.cfg, ctx.audit, node, entered) && name in node.output
    modifies ctx
    ensures ctx.Tracked() && old(ctx.log) <= ctx.log
    ensures ctx.clock == old(ctx.clock) && ctx.processedEvents == old(ctx.processedEvents)
    ensures ok <==> !old(OutputBlocked(ctx.cfg, node, entered, ctx.variables, name))
    ensures !ok ==> ctx.audit == old(ctx.audit) && ctx.log == old(ctx.log) && ctx.variables == old(ctx.variables)
    ensures ok ==> OnlyVariables(old(ctx.audit), ctx.audit) && Ready(ctx.audit) && AtNode(ctx.cfg, ctx.audit, node, entered)
    ensures ok ==> name in ctx.variables && OutputWrites(ctx.cfg, node, entered, old(ctx.variables), name, ctx.variables[name])
    ensures ok ==> ctx.variables == old(ctx.variables)[name := ctx.variables[name]]
    ensures ok ==> ctx.variables[name] == OutputValue(ctx.cfg, node, entered, old(ctx.variables), name)
  {
    hide Reach, Legal, Advance, Apply;
    var env := if node.input == map[] then ctx.variables else entered;
    var v := ctx.cfg.eval(node.output[name], env);
    if v.None? || (name in ctx.cfg.def.varSchema && !Assignable(ctx.cfg.def.varSchema[name], v.value)) {
      return false;
    }
    WriteOutput(ctx, node, entered, name, v.value);
    ok := true;
  }

  method WriteOutput(ctx: ExecutionContext, node: Node, entered: Env, name: string, v: Value)
    requires ctx.Tracked() && Ready(ctx.audit) && AtNode(ctx.cfg, ctx.audit, node, entered)
    requires OutputWrites(ctx.cfg, node, entered, ctx.variables, name, v)
    modifies ctx
    ensures ctx.Tracked() && OnlyVariables(old(ctx.audit), ctx.audit) && ctx.log == old(ctx.log) + [VariableSet(name, v)]
    ensures ctx.clock == old(ctx.clock) && ctx.processedEvents == old(ctx.processedEvents)
    ensures ctx.variables == old(ctx.variables)[name := v]
  {
    hide Reach, Legal, Advance, Apply;
    assert VariableLegal(ctx.cfg, ctx.audit, name, v);
    ctx.SetVariable(name, v);
  }
}
