/**
 What the rules of the definition language come to, said once more without them: the
 convergence count of a fork and its settings, the route of an inference, the types of
 values.
 */
module Meaning {
  import opened Definition
  import opened Journal
  import opened Joins
  import opened Protocol

  // ----------------------------------------------------------------------- forks

  /** The convergence condition, read off the branches: one completed branch for any, as many
      as required but at least one for n-of-m, every branch done otherwise. */
  lemma SatisfiedMeaning(s: Scope)
    ensures s.mode == Any ==> (Satisfied(s) <==> exists b <- s.branches :: s.branches[b].status == Completed)
    ensures s.mode == NofM ==>
      (Satisfied(s) <==> var n := |set b | b in s.branches && s.branches[b].status == Completed|; 1 <= n && s.required <= n)
    ensures s.mode in {All, Unset} ==>
      (Satisfied(s) <==> s.branches != map[] && forall b <- s.branches :: s.branches[b].done)
  {
    var good := set b | b in s.branches && s.branches[b].status == Completed;
    assert good == SucceededSet(s);
    if b :| b in good {
      assert s.branches[b].status == Completed && s.branches != map[];
    } else {
      assert forall b <- s.branches :: b !in good;
    }
  }

  /** As many branches have completed as the fork's mode asks for, or all are done. */
  ghost predicate Enough(s: Scope) {
    match s.mode
    case Any => exists b <- s.branches :: s.branches[b].status == Completed
    case NofM => var n := |set b | b in s.branches && s.branches[b].status == Completed|; 1 <= n && s.required <= n
    case _ => Over(s)
  }

  ghost predicate Over(s: Scope) {
    s.branches != map[] && forall b <- s.branches :: s.branches[b].done
  }

  ghost predicate FailedFast(s: Scope) {
    s.failFast && exists b <- s.branches :: s.branches[b].status == Failed
  }

  /** The three ends of a fork: it converges, it fails its instance, or it waits. */
  lemma EndsMeaning(s: Scope)
    requires s.branches != map[]
    ensures Converged(s) <==> Enough(s) && !FailedFast(s)
    ensures ForkFails(s) <==> FailedFast(s) || (Over(s) && !Enough(s))
    ensures Settled(s) <==> Enough(s) || Over(s) || FailedFast(s)
  {
    SatisfiedMeaning(s);
    assert AllDone(s) <==> Over(s);
    if b :| b in s.branches && s.branches[b].status == Failed {
      assert b in FailedSet(s);
    } else {
      assert FailedSet(s) == {};
    }
  }

  /** Mode, threshold and timeout: the first that is declared, looking at the fork's own join
      settings, then at those of the join, for the mode at last at the fork settings. */
  predicate Settings(def: ProcessDef, node: Node, join: string, mode: Mode, required: int, timeout: int) {
    var far := if join in def.nodes && def.nodes[join].ntype.Join? then def.nodes[join].join else None;
    && mode == (
         if node.join.Some? && node.join.value.mode != Unset then node.join.value.mode
         else if far.Some? && far.value.mode != Unset then far.value.mode
         else if node.fork.Some? && node.fork.value.mode != Unset then node.fork.value.mode
         else All)
    && required == (
         if node.join.Some? && node.join.value.required != 0 then node.join.value.required
         else if far.Some? && (node.join.None? || far.value.required > 0) then far.value.required
         else 0)
    && timeout == (
         if node.join.Some? && node.join.value.timeout != 0 then node.join.value.timeout
         else if far.Some? then far.value.timeout
         else 0)
  }

  lemma SettingsMeaning(def: ProcessDef, node: Node, join: string)
    ensures var (mode, required, timeout) := Convergence(def, node, join); Settings(def, node, join, mode, required, timeout)
  {
  }

  /** The join a fork is created with: the declared one, else the least common node of its
      branches, if there is one. */
  ghost predicate CreatedWith(def: ProcessDef, node: Node, join: string) {
    if node.fork.Some? && node.fork.value.joinNode != "" then join == node.fork.value.joinNode
    else
      || IsCommonJoin(def, node.id, Starts(node), join)
      || (join == "" && forall v: string :: !IsCommonJoin(def, node.id, Starts(node), v))
  }

  lemma CreatedWithMeaning(def: ProcessDef, node: Node)
    requires node.transitions != []
    ensures CreatedWith(def, node, StaticJoin(def, node))
  {
    assert Starts(node) != [];
  }

  // ------------------------------------------------------------------------ data

  /** The types that accept a value. */
  predicate OfType(t: Type, v: Value) {
    || t == AnyType
    || match v
       case Null => false
       case Boolean(_) => t == BooleanType
       case Number(_) => t == NumberType || t == MoneyType
       case Text(s) => t == StringType || t == DateTimeType || (t.EnumType? && s in t.values)
       case Array(_) => t == ArrayType
       case Object(_) => t == ObjectType
  }

  lemma AssignableMeaning(t: Type, v: Value)
    ensures Assignable(t, v) <==> OfType(t, v)
  {
  }

  /** What a node sees: its inputs, evaluated over the variables, and the variables they do not
      shadow. */
  ghost predicate Sees(cfg: Config, node: Node, vars: Env, view: Env) {
    && view.Keys == vars.Keys + node.input.Keys
    && (forall name <- node.input :: name in view && cfg.eval(node.input[name], vars) == Some(view[name]))
    && forall x <- vars :: x !in node.input ==> x in view && view[x] == vars[x]
  }

  lemma ViewMeaning(cfg: Config, node: Node, vars: Env)
    ensures EnterEnv(cfg, node, vars).Some? ==> Sees(cfg, node, vars, EnterEnv(cfg, node, vars).value)
    ensures EnterEnv(cfg, node, vars).None? <==> exists name <- node.input :: cfg.eval(node.input[name], vars).None?
    ensures forall view: Env :: Sees(cfg, node, vars, view) ==> EnterEnv(cfg, node, vars) == Some(view)
  {
    forall view: Env | Sees(cfg, node, vars, view) ensures EnterEnv(cfg, node, vars) == Some(view) {
      var seen := EnterEnv(cfg, node, vars);
      assert forall name <- node.input :: cfg.eval(node.input[name], vars).Some?;
      assert seen.value.Keys == view.Keys;
      forall x | x in view ensures seen.value[x] == view[x] {
      }
      assert seen.value == view;
    }
  }

  /** The variables as they stand before output `k` of an order is written. */
  function Before(vars: Env, after: Env, order: seq<string>, k: nat): Env
    requires k <= |order| && forall name <- order :: name in after
  {
    if k == 0 then vars else Before(vars, after, order, k - 1)[order[k - 1] := after[order[k - 1]]]
  }

  /** Each output holds the value of its expression, in its declared type: over the node's own
      view when it has inputs, else over the variables as the outputs before it left them. */
  ghost predicate Valued(cfg: Config, node: Node, entered: Env, vars: Env, order: seq<string>, after: Env, k: nat)
    requires k < |order| && forall name <- order :: name in after
  {
    && order[k] in node.output
    && cfg.eval(node.output[order[k]], if node.input == map[] then Before(vars, after, order, k) else entered) == Some(after[order[k]])
    && (order[k] in cfg.def.varSchema ==> OfType(cfg.def.varSchema[order[k]], after[order[k]]))
  }

  lemma {:induction false} WrittenMeaning(cfg: Config, node: Node, entered: Env, vars: Env, order: seq<string>, after: Env)
    requires Written(cfg, node, entered, vars, order) == Some(after)
    requires forall i, j | 0 <= i < j < |order| :: order[i] != order[j]
    ensures forall name <- order :: name in after
    ensures forall k | 0 <= k < |order| :: Valued(cfg, node, entered, vars, order, after, k)
    ensures forall x <- vars :: x !in order ==> x in after && after[x] == vars[x]
    ensures forall x <- after :: x in vars || x in order
    decreases |order|
  {
    if order != [] {
      var h, rest := order[0], order[1..];
      var v := cfg.eval(node.output[h], LeaveEnv(node, entered, vars)).value;
      var mid := vars[h := v];
      assert h !in rest && order == [h] + rest;
      WrittenMeaning(cfg, node, entered, mid, rest, after);
      assert after[h] == v;
      forall k | 0 <= k < |order| ensures Valued(cfg, node, entered, vars, order, after, k) {
        if k == 0 {
          AssignableByValue(cfg, h, v);
        } else {
          assert Valued(cfg, node, entered, mid, rest, after, k - 1);
          BeforeShifts(vars, mid, after, order, k);
        }
      }
    }
  }

  lemma AssignableByValue(cfg: Config, name: string, v: Value)
    ensures name in cfg.def.varSchema ==> (Assignable(cfg.def.varSchema[name], v) <==> OfType(cfg.def.varSchema[name], v))
  {
    if name in cfg.def.varSchema {
      AssignableMeaning(cfg.def.varSchema[name], v);
    }
  }

  lemma {:induction false} BeforeShifts(vars: Env, mid: Env, after: Env, order: seq<string>, k: nat)
    requires 0 < k <= |order| && forall name <- order :: name in after
    requires mid == vars[order[0] := after[order[0]]]
    ensures Before(vars, after, order, k) == Before(mid, after, order[1..], k - 1)
    decreases k
  {
    if k > 1 {
      BeforeShifts(vars, mid, after, order, k - 1);
    }
  }

  /** An order of the outputs lists none of them twice. */
  lemma OrderDistinct(node: Node, order: seq<string>)
    requires Order(node, order)
    ensures forall i, j | 0 <= i < j < |order| :: order[i] != order[j]
  {
    assert (set name | name in order) == node.output.Keys;
    CountedOnce(order);
  }

  lemma {:induction false} CountedOnce(names: seq<string>)
    ensures |set name | name in names| <= |names|
    ensures |set name | name in names| == |names| ==> forall i, j | 0 <= i < j < |names| :: names[i] != names[j]
    decreases |names|
  {
    if names != [] {
      var rest := names[1..];
      CountedOnce(rest);
      var all, some := (set name | name in names), (set name | name in rest);
      assert names == [names[0]] + rest;
      assert all == some + {names[0]};
    }
  }

  // ---------------------------------------------------------------------- routes

  /** Transition `j` has a condition that is true or fails to evaluate. */
  ghost predicate Hits(cfg: Config, trs: seq<Transition>, env: Env, j: nat)
    requires j < |trs|
  {
    trs[j].when != "" && cfg.cond(trs[j].when, env) != Some(false)
  }

  /** The first hit decides: it breaks the route or is taken. Without one the default
      is taken. */
  lemma {:induction false} WhenRouteMeaning(cfg: Config, trs: seq<Transition>, env: Env, k: nat, j: nat)
    requires k <= j <= |trs|
    requires forall i | k <= i < j :: !Hits(cfg, trs, env, i)
    requires j < |trs| ==> Hits(cfg, trs, env, j)
    ensures WhenFrom(cfg, trs, env, k) ==
      if j == |trs| then Goto(DefaultNext(trs))
      else if cfg.cond(trs[j].when, env).None? then Broken
      else Goto(trs[j].next)
    decreases j - k
  {
    if k < j {
      assert !Hits(cfg, trs, env, k);
      WhenRouteMeaning(cfg, trs, env, k + 1, j);
    }
  }

  /** Transition `k` is chosen by its condition: it is the first one to hit and holds, or
      nothing hits and it is the first without a condition. */
  ghost predicate ByCondition(cfg: Config, trs: seq<Transition>, env: Env, k: nat) {
    && k < |trs|
    && (|| (trs[k].when != "" && cfg.cond(trs[k].when, env) == Some(true) && forall j | 0 <= j < k :: !Hits(cfg, trs, env, j))
        || (trs[k].when == "" && (forall j | 0 <= j < k :: trs[j].when != "") && forall j | 0 <= j < |trs| :: !Hits(cfg, trs, env, j)))
  }

  /** A condition fails to evaluate before any other holds. */
  ghost predicate Faults(cfg: Config, trs: seq<Transition>, env: Env, k: nat) {
    && k < |trs| && trs[k].when != "" && cfg.cond(trs[k].when, env).None?
    && forall j | 0 <= j < k :: !Hits(cfg, trs, env, j)
  }

  predicate ByEvent(trs: seq<Transition>, name: string, k: nat) {
    k < |trs| && trs[k].event == name && forall j | 0 <= j < k :: trs[j].event != name
  }

  predicate ByOrder(trs: seq<Transition>, k: nat) {
    k < |trs| && trs[k].next != "" && forall j | 0 <= j < k :: trs[j].next == ""
  }

  predicate Conditional(node: Node) {
    node.ntype in {Condition, Join, Timer}
  }

  /** Transition `k` is the one a linear step takes: chosen by its condition where the node
      looks at conditions, unless it leads nowhere; else by the event; else the first with a
      target, where the node neither waits nor decides by conditions. */
  ghost predicate Taken(cfg: Config, node: Node, name: string, env: Env, k: nat) {
    var trs := node.transitions;
    if Conditional(node) && exists j: nat :: Faults(cfg, trs, env, j) then false
    else if Conditional(node) && exists j: nat :: ByCondition(cfg, trs, env, j) && trs[j].next != "" then
      ByCondition(cfg, trs, env, k)
    else if exists j: nat :: ByEvent(trs, name, j) then ByEvent(trs, name, k)
    else !node.ntype.Condition? && !IsWaitingNode(node) && ByOrder(trs, k)
  }

  /** The route of a step is the target of the transition it takes; it fails when it takes
      none. */
  lemma StepRouteMeaning(cfg: Config, node: Node, name: string, env: Env)
    ensures forall k: nat :: Taken(cfg, node, name, env, k) ==>
      k < |node.transitions| && StepRoute(cfg, node, name, env) == Some(node.transitions[k].next)
    ensures StepRoute(cfg, node, name, env).Some? <==> exists k: nat :: Taken(cfg, node, name, env, k)
  {
    hide Faults, ByCondition, ByEvent, ByOrder, WhenRoute, EventNext, FirstNext;
    var trs := node.transitions;
    ConditionRoute(cfg, trs, env);
    EventRoute(trs, name);
    OrderRoute(trs);
    if Conditional(node) && exists k: nat :: Faults(cfg, trs, env, k) {
    } else if Conditional(node) && exists k: nat :: ByCondition(cfg, trs, env, k) && trs[k].next != "" {
      var k: nat :| ByCondition(cfg, trs, env, k) && trs[k].next != "";
      assert Taken(cfg, node, name, env, k);
    } else if exists k: nat :: ByEvent(trs, name, k) {
      var k: nat :| ByEvent(trs, name, k);
      assert Taken(cfg, node, name, env, k);
    } else if exists k: nat :: ByOrder(trs, k) {
      var k: nat :| ByOrder(trs, k);
      assert Taken(cfg, node, name, env, k) <==> !node.ntype.Condition? && !IsWaitingNode(node);
    }
  }

  lemma ConditionRoute(cfg: Config, trs: seq<Transition>, env: Env)
    ensures WhenRoute(cfg, trs, env).Broken? <==> exists k: nat :: Faults(cfg, trs, env, k)
    ensures forall k: nat :: ByCondition(cfg, trs, env, k) ==> k < |trs| && WhenRoute(cfg, trs, env) == Goto(trs[k].next)
    ensures WhenRoute(cfg, trs, env) == Goto("") || WhenRoute(cfg, trs, env).Broken? || exists k: nat :: ByCondition(cfg, trs, env, k)
  {
    hide WhenFrom;
    var j := FirstHit(cfg, trs, env, 0);
    WhenRouteMeaning(cfg, trs, env, 0, j);
    forall k: nat | Faults(cfg, trs, env, k) ensures k == j {
      assert Hits(cfg, trs, env, k);
    }
    forall k: nat | ByCondition(cfg, trs, env, k) && trs[k].when != "" ensures k == j {
      assert Hits(cfg, trs, env, k);
    }
    if j < |trs| {
      assert cfg.cond(trs[j].when, env).Some? ==> cfg.cond(trs[j].when, env).value;
      if cfg.cond(trs[j].when, env).None? {
        assert Faults(cfg, trs, env, j);
      } else {
        assert ByCondition(cfg, trs, env, j);
      }
    } else {
      DefaultRoute(trs);
      forall k: nat | ByCondition(cfg, trs, env, k) ensures trs[k].when == "" {
        assert !Hits(cfg, trs, env, k);
      }
      if k: nat :| k < |trs| && trs[k].when == "" && forall i | 0 <= i < k :: trs[i].when != "" {
        assert ByCondition(cfg, trs, env, k);
      }
    }
  }

  lemma FirstHit(cfg: Config, trs: seq<Transition>, env: Env, k: nat) returns (j: nat)
    requires k <= |trs| && forall i | 0 <= i < k :: !Hits(cfg, trs, env, i)
    ensures j <= |trs| && (forall i | 0 <= i < j :: !Hits(cfg, trs, env, i)) && (j < |trs| ==> Hits(cfg, trs, env, j))
    decreases |trs| - k
  {
    if k == |trs| || Hits(cfg, trs, env, k) {
      j := k;
    } else {
      j := FirstHit(cfg, trs, env, k + 1);
    }
  }

  lemma {:induction false} DefaultRoute(trs: seq<Transition>)
    ensures forall k | 0 <= k < |trs| && trs[k].when == "" && (forall i | 0 <= i < k :: trs[i].when != "") :: DefaultNext(trs) == trs[k].next
    ensures DefaultNext(trs) == "" || exists k | 0 <= k < |trs| :: trs[k].when == "" && forall i | 0 <= i < k :: trs[i].when != ""
  {
    if trs != [] && trs[0].when != "" {
      DefaultRoute(trs[1..]);
      forall k | 0 <= k < |trs| && trs[k].when == "" && (forall i | 0 <= i < k :: trs[i].when != "") ensures DefaultNext(trs) == trs[k].next {
        assert trs[1..][k - 1] == trs[k] && forall i | 0 <= i < k - 1 :: trs[1..][i] == trs[i + 1];
      }
      if DefaultNext(trs) != "" {
        var k :| 0 <= k < |trs[1..]| && trs[1..][k].when == "" && forall i | 0 <= i < k :: trs[1..][i].when != "";
        assert trs[k + 1].when == "" && forall i | 0 <= i < k + 1 :: i > 0 ==> trs[i] == trs[1..][i - 1];
      }
    }
  }

  lemma {:induction false} EventRoute(trs: seq<Transition>, name: string)
    ensures forall k: nat :: ByEvent(trs, name, k) ==> k < |trs| && EventNext(trs, name) == Some(trs[k].next)
    ensures EventNext(trs, name).Some? <==> exists k: nat :: ByEvent(trs, name, k)
  {
    if trs != [] {
      var rest := trs[1..];
      EventRoute(rest, name);
      forall k: nat ensures ByEvent(trs, name, k) <==> if k == 0 then trs[0].event == name else trs[0].event != name && ByEvent(rest, name, k - 1) {
        assert forall i | 0 <= i < |rest| :: rest[i] == trs[i + 1];
      }
      if trs[0].event == name {
        assert ByEvent(trs, name, 0);
      } else if EventNext(rest, name).Some? {
        var k: nat :| ByEvent(rest, name, k);
        assert ByEvent(trs, name, k + 1);
      }
    }
  }

  lemma {:induction false} OrderRoute(trs: seq<Transition>)
    ensures forall k: nat :: ByOrder(trs, k) ==> k < |trs| && FirstNext(trs) == trs[k].next
    ensures FirstNext(trs) != "" <==> exists k: nat :: ByOrder(trs, k)
  {
    if trs != [] {
      var rest := trs[1..];
      OrderRoute(rest);
      forall k: nat ensures ByOrder(trs, k) <==> if k == 0 then trs[0].next != "" else trs[0].next == "" && ByOrder(rest, k - 1) {
        assert forall i | 0 <= i < |rest| :: rest[i] == trs[i + 1];
      }
      if trs[0].next != "" {
        assert ByOrder(trs, 0);
      } else if FirstNext(rest) != "" {
        var k: nat :| ByOrder(rest, k);
        assert ByOrder(trs, k + 1);
      }
    }
  }

  /** The condition chain by itself: the target of the transition it chooses, nowhere when it
      chooses none. */
  lemma ChainMeaning(cfg: Config, trs: seq<Transition>, env: Env, to: string)
    requires to != ""
    ensures WhenRoute(cfg, trs, env) == Goto(to) <==> exists k: nat :: ByCondition(cfg, trs, env, k) && trs[k].next == to
  {
    hide ByCondition, WhenRoute;
    ConditionRoute(cfg, trs, env);
  }

  /** Where a branch goes by itself: along its conditions at a condition node, else to its first
      target; it stays where there is none. */
  lemma AutoRouteMeaning(cfg: Config, node: Node, view: Option<Env>, to: string)
    requires to != ""
    ensures AutoRoute(cfg, node, view) == Some(to) <==>
      if node.ntype.Condition? then view.Some? && exists k: nat :: ByCondition(cfg, node.transitions, view.value, k) && node.transitions[k].next == to
      else exists k: nat :: ByOrder(node.transitions, k) && node.transitions[k].next == to
  {
    hide ByCondition, WhenRoute, FirstNext, ByOrder;
    if view.Some? {
      ChainMeaning(cfg, node.transitions, view.value, to);
    }
    OrderRoute(node.transitions);
  }

  // ------------------------------------------------------------------- inference

  /** The payload has this text under this name. */
  predicate Says(payload: map<string, Value>, name: string, text: string) {
    name in payload && payload[name] == Text(text)
  }

  /** The payload of a callback reports no error and gives every declared output in its type. */
  predicate Complete(ai: AiConfig, payload: map<string, Value>) {
    && ("error" in payload && payload["error"].Text? ==> payload["error"].s == "")
    && forall name <- ai.outputTypes ::
         && "output" in payload && payload["output"].Object? && name in payload["output"].fields
         && OfType(ai.outputTypes[name], payload["output"].fields[name])
  }

  /** Transition `k` is the first one for the choice of the payload, a declared candidate. */
  ghost predicate Chosen(node: Node, payload: map<string, Value>, k: nat)
    requires node.ai.Some?
  {
    && k < |node.transitions|
    && var choice := node.transitions[k].choice;
       && Says(payload, "choice", choice) && choice != "" && choice in node.ai.value.choose
       && forall j | 0 <= j < k :: node.transitions[j].choice != choice
  }

  /** The outputs of a callback taken over into the variables. */
  ghost predicate TakenOver(ai: AiConfig, payload: map<string, Value>, vars: Env, after: Env) {
    && after.Keys == vars.Keys + ai.outputTypes.Keys
    && (forall name <- ai.outputTypes ::
          "output" in payload && payload["output"].Object? && name in payload["output"].fields && name in after &&
          after[name] == payload["output"].fields[name])
    && forall x <- vars :: x !in ai.outputTypes ==> x in after && after[x] == vars[x]
  }

  lemma {:induction false} CaseRoute(trs: seq<Transition>, choice: string)
    ensures CaseNext(trs, choice).Some? <==> exists k: nat :: k < |trs| && trs[k].choice == choice
    ensures forall k: nat :: k < |trs| && trs[k].choice == choice && (forall j | 0 <= j < k :: trs[j].choice != choice) ==>
      CaseNext(trs, choice) == Some(trs[k].next)
    ensures CaseNext(trs, choice).Some? ==>
      exists k: nat :: k < |trs| && trs[k].choice == choice && (forall j | 0 <= j < k :: trs[j].choice != choice)
  {
    if trs != [] {
      var rest := trs[1..];
      CaseRoute(rest, choice);
      assert forall i | 0 <= i < |rest| :: rest[i] == trs[i + 1];
      if trs[0].choice == choice {
        assert 0 < |trs| && trs[0].choice == choice;
      } else {
        if k: nat :| k < |trs| && trs[k].choice == choice {
          assert rest[k - 1].choice == choice;
        }
        forall k: nat | k < |trs| && trs[k].choice == choice && (forall j | 0 <= j < k :: trs[j].choice != choice)
          ensures CaseNext(trs, choice) == Some(trs[k].next)
        {
          assert rest[k - 1].choice == choice && forall j | 0 <= j < k - 1 :: rest[j].choice != choice;
        }
        if CaseNext(rest, choice).Some? {
          var k: nat :| k < |rest| && rest[k].choice == choice && (forall j | 0 <= j < k :: rest[j].choice != choice);
          assert trs[k + 1].choice == choice;
          assert forall j | 0 <= j < k + 1 :: trs[j].choice != choice;
        }
      }
    }
  }

  lemma CompleteMeaning(ai: AiConfig, payload: map<string, Value>)
    ensures var result := ParseAiResult(payload);
      Complete(ai, payload) <==> result.error == "" && forall name <- ai.outputTypes :: OutputGiven(ai, result, name)
  {
    forall name | name in ai.outputTypes
      ensures "output" in payload && payload["output"].Object? && name in payload["output"].fields ==>
        (Assignable(ai.outputTypes[name], payload["output"].fields[name]) <==> OfType(ai.outputTypes[name], payload["output"].fields[name]))
    {
      if "output" in payload && payload["output"].Object? && name in payload["output"].fields {
        AssignableMeaning(ai.outputTypes[name], payload["output"].fields[name]);
      }
    }
  }

  /** Where a result is refused: it breaks its outputs or names no case of a candidate. */
  lemma ViolatesMeaning(node: Node, payload: map<string, Value>)
    requires node.ai.Some?
    ensures AiViolates(node, ParseAiResult(payload)) <==>
      !Complete(node.ai.value, payload) || (node.ai.value.choose != [] && forall k: nat :: !Chosen(node, payload, k))
  {
    hide Complete, OutputGiven;
    var result := ParseAiResult(payload);
    CompleteMeaning(node.ai.value, payload);
    CaseRoute(node.transitions, result.choice);
    forall k: nat | Chosen(node, payload, k)
      ensures result.choice != "" && result.choice in node.ai.value.choose && CaseNext(node.transitions, result.choice).Some?
    {
    }
    if result.choice != "" && result.choice in node.ai.value.choose && CaseNext(node.transitions, result.choice).Some? {
      var k: nat :| k < |node.transitions| && node.transitions[k].choice == result.choice &&
        (forall j | 0 <= j < k :: node.transitions[j].choice != result.choice);
      assert Chosen(node, payload, k);
    }
  }

  /** Where the payload of a callback leads. A complete result goes where its choice leads, or
      without candidates where the conditions lead; any other goes to the declared fallback. */
  ghost predicate LeadsTo(cfg: Config, node: Node, payload: map<string, Value>, vars: Env, to: string)
    requires node.ai.Some?
  {
    var ai := node.ai.value;
    if !Complete(ai, payload) || (ai.choose != [] && forall k: nat :: !Chosen(node, payload, k)) then
      to == ai.onError && to != "" && to in cfg.def.nodes
    else if ai.choose != [] then exists k: nat :: Chosen(node, payload, k) && to == node.transitions[k].next
    else to != "" && exists k: nat :: ByCondition(cfg, node.transitions, vars, k) && node.transitions[k].next == to
  }

  lemma CandidatesLead(cfg: Config, node: Node, payload: map<string, Value>, vars: Env, to: string)
    requires node.ai.Some? && node.ai.value.choose != []
    ensures
      var good := Complete(node.ai.value, payload);
      LeadsTo(cfg, node, payload, vars, to) <==>
        || (good && exists k: nat :: Chosen(node, payload, k) && to == node.transitions[k].next)
        || (!(good && exists k: nat :: Chosen(node, payload, k))
            && to == node.ai.value.onError && to != "" && to in cfg.def.nodes)
  {
  }

  lemma AiRouteMeaning(cfg: Config, node: Node, payload: map<string, Value>, vars: Env, to: string)
    requires node.ai.Some?
    ensures AiRoute(cfg, node, ParseAiResult(payload), vars) == Some(to) <==> LeadsTo(cfg, node, payload, vars, to)
  {
    hide Complete, WhenRoute, ByCondition, AiViolates;
    ViolatesMeaning(node, payload);
    CaseRoute(node.transitions, ParseAiResult(payload).choice);
    if to != "" {
      ChainMeaning(cfg, node.transitions, vars, to);
    }
    if k: nat :| Chosen(node, payload, k) {
      assert CaseNext(node.transitions, ParseAiResult(payload).choice) == Some(node.transitions[k].next);
    }
  }

  lemma TakenOverMeaning(node: Node, payload: map<string, Value>, vars: Env)
    requires node.ai.Some? && !AiViolates(node, ParseAiResult(payload))
    ensures TakenOver(node.ai.value, payload, vars, AiAfter(node, ParseAiResult(payload), vars))
  {
    var after := AiAfter(node, ParseAiResult(payload), vars);
    var ai := node.ai.value;
    forall name | name in ai.outputTypes
      ensures "output" in payload && payload["output"].Object? && name in payload["output"].fields && name in after &&
        after[name] == payload["output"].fields[name]
    {
      assert OutputGiven(ai, ParseAiResult(payload), name);
    }
  }
}
