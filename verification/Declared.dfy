/**
 What the records of every run owe to the definition, field by field: the commands that are
 issued, the forks that are opened, the nodes an instance or a branch is sent to, the events
 it takes and the variables it writes.
 */
module Declared {
  import opened Definition
  import opened Journal
  import opened Joins
  import opened Protocol
  import opened Runs
  import opened Guarantees
  import opened Meaning

  // ------------------------------------------------------------------ commands

  /** What was issued is in the log. */
  lemma {:induction false} IssuedLogged(cfg: Config, log: seq<Occ>, n: nat, id: CommandId) returns (j: nat)
    requires Reach(cfg, log).Some? && n <= |log| && id in At(cfg, log, n).issued
    ensures j < n && log[j] == CommandIssued(At(cfg, log, n).issued[id])
    decreases n
  {
    hide Reach, Legal, NextState;
    if n == 0 {
      FirstAudit(cfg, log);
      assert false;
    } else {
      AtNext(cfg, log, n - 1);
      if log[n - 1].CommandIssued? && log[n - 1].command.id == id {
        j := n - 1;
      } else {
        j := IssuedLogged(cfg, log, n - 1, id);
      }
    }
  }

  /** Record `j` issues the command `id`, and no earlier one does. */
  ghost predicate FirstIssue(log: seq<Occ>, j: nat, c: Command) {
    && j < |log| && log[j] == CommandIssued(c)
    && forall k | 0 <= k < j :: log[k].CommandIssued? ==> log[k].command.id != c.id
  }

  lemma {:induction false} IssuedFirst(cfg: Config, log: seq<Occ>, i: nat) returns (j: nat)
    requires Reach(cfg, log).Some? && i < |log| && log[i].CommandIssued?
    ensures j <= i && FirstIssue(log, j, log[i].command)
    decreases i
  {
    hide Reach;
    if k :| 0 <= k < i && log[k].CommandIssued? && log[k].command.id == log[i].command.id {
      ReissueIsRedispatch(cfg, log, k, i);
      j := IssuedFirst(cfg, log, k);
    } else {
      j := i;
    }
  }

  /** The command says what effect `e` of node `n` declares. */
  predicate Carries(c: Command, n: string, e: SideEffect) {
    && c.node == n && c.kind == e.kind && c.target == e.target && c.payload == e.payload
    && c.critical == e.critical && c.compensation == e.compensation
  }

  /** The command asks for the inference that node `n` declares, over the variables `vars`. */
  predicate Asks(cfg: Config, c: Command, n: string, vars: Env) {
    && n in cfg.def.nodes && cfg.def.nodes[n].ntype.Ai? && c.node == n
    && var ai := cfg.def.nodes[n].ai;
       && c.kind == (if ai.Some? && ai.value.kind != "" then ai.value.kind else "ai_infer")
       && c.target == (if ai.Some? && ai.value.target != "" then ai.value.target else "llm")
       && cfg.requestPayload(cfg.def.nodes[n], vars, c.id) == Some(c.payload)
       && !c.critical && c.compensation == None
  }

  /** A node's command carries what the effect of its index declares, at the visit the node had
      reached; only an inference node's first may be its request instead. */
  lemma CommandsAsDeclared(cfg: Config, log: seq<Occ>, i: nat)
    requires WellFormed(cfg.def) && Reach(cfg, log).Some? && i < |log| && log[i].CommandIssued? && log[i].command.id.NodeCommand?
    ensures
      var c := log[i].command;
      var NodeCommand(exec, n, visit, k) := c.id;
      exists j: nat :: j <= i && FirstIssue(log, j, c)
        && exec == At(cfg, log, j).st.executionID && visit == VisitsOf(At(cfg, log, j).st.visits, n) && n in cfg.def.nodes
        && (|| (k < |cfg.def.nodes[n].effects| && Carries(c, n, cfg.def.nodes[n].effects[k]))
            || (k == 0 && Asks(cfg, c, n, At(cfg, log, j).st.vars)))
  {
    hide Reach;
    var j := IssuedFirst(cfg, log, i);
    NewlyIssued(cfg, log, j);
  }

  lemma RequestsAsDeclared(cfg: Config, log: seq<Occ>, i: nat)
    requires Reach(cfg, log).Some? && i < |log| && log[i].CommandIssued? && log[i].command.id.BranchRequest?
    ensures
      var c := log[i].command;
      var BranchRequest(exec, n, visit, _) := c.id;
      exists j: nat :: j <= i && FirstIssue(log, j, c)
        && exec == At(cfg, log, j).st.executionID && visit == VisitsOf(At(cfg, log, j).st.visits, n)
        && Asks(cfg, c, n, At(cfg, log, j).st.vars)
  {
    hide Reach;
    var j := IssuedFirst(cfg, log, i);
    NewlyIssued(cfg, log, j);
  }

  lemma NewlyIssued(cfg: Config, log: seq<Occ>, j: nat)
    requires Reach(cfg, log).Some? && j < |log| && log[j].CommandIssued? && FirstIssue(log, j, log[j].command)
    ensures Justified(cfg, At(cfg, log, j), log[j].command)
  {
    hide Reach, Justified;
    AtNext(cfg, log, j);
    var c := log[j].command;
    if c.id in At(cfg, log, j).issued {
      var k := IssuedLogged(cfg, log, j, c.id);
      ReachPrefix(cfg, log, j);
      IssuedUnderOwnId(cfg, log, j, c.id);
      assert false;
    }
  }

  lemma {:induction false} IssuedUnderOwnId(cfg: Config, log: seq<Occ>, n: nat, id: CommandId)
    requires Reach(cfg, log).Some? && n <= |log| && id in At(cfg, log, n).issued
    ensures At(cfg, log, n).issued[id].id == id
    decreases n
  {
    hide Reach, Legal, NextState;
    if n == 0 {
      FirstAudit(cfg, log);
    } else {
      AtNext(cfg, log, n - 1);
      if !(log[n - 1].CommandIssued? && log[n - 1].command.id == id) {
        IssuedUnderOwnId(cfg, log, n - 1, id);
      }
    }
  }

  /** Among the first `n` records, a command of node `node` was issued that declares `e` as its
      inverse. */
  ghost predicate Declares(log: seq<Occ>, n: nat, node: string, id: CommandId, e: SideEffect) {
    exists j | 0 <= j < n && j < |log| :: log[j].CommandIssued? && log[j].command.id == id
      && log[j].command.node == node && log[j].command.compensation == Some(e)
  }

  lemma {:induction false} UndoDeclared(cfg: Config, log: seq<Occ>, n: nat)
    requires Reach(cfg, log).Some? && n <= |log|
    ensures var a := At(cfg, log, n);
      && (a.owed.Some? ==> Declares(log, n, a.owed.value.node, a.owed.value.command, a.owed.value.effect))
      && forall p | 0 <= p < |a.st.undo| :: Declares(log, n, a.st.undo[p].node, a.st.undo[p].command, a.st.undo[p].effect)
    decreases n
  {
    hide Reach, Legal, NextState, InverseOf, Declares;
    if n == 0 {
      FirstAudit(cfg, log);
    } else {
      UndoDeclared(cfg, log, n - 1);
      AtNext(cfg, log, n - 1);
      var a, o, b := At(cfg, log, n - 1), log[n - 1], At(cfg, log, n);
      UndoGrew(cfg, a, o);
      if b.owed.Some? {
        InverseIssued(cfg, a, o.result);
        var j := IssuedLogged(cfg, log, n - 1, o.result.id);
        IssuedUnderOwnId(cfg, log, n - 1, o.result.id);
        DeclaresAt(log, n, j);
      }
      forall p | 0 <= p < |b.st.undo| ensures Declares(log, n, b.st.undo[p].node, b.st.undo[p].command, b.st.undo[p].effect) {
        if p < |a.st.undo| {
          DeclaresLater(log, n - 1, n, a.st.undo[p].node, a.st.undo[p].command, a.st.undo[p].effect);
        } else {
          DeclaresLater(log, n - 1, n, a.owed.value.node, a.owed.value.command, a.owed.value.effect);
        }
      }
    }
  }

  lemma DeclaresAt(log: seq<Occ>, n: nat, j: nat)
    requires j < n && j < |log| && log[j].CommandIssued? && log[j].command.compensation.Some?
    ensures Declares(log, n, log[j].command.node, log[j].command.id, log[j].command.compensation.value)
  {
  }

  lemma DeclaresLater(log: seq<Occ>, m: nat, n: nat, node: string, id: CommandId, e: SideEffect)
    requires Declares(log, m, node, id, e) && m <= n
    ensures Declares(log, n, node, id, e)
  {
  }

  lemma InverseIssued(cfg: Config, a: Audit, r: SideEffectResult)
    requires InverseOf(a, r).Some?
    ensures r.id in a.issued && a.issued[r.id].compensation.Some?
    ensures InverseOf(a, r).value == Inverse(a.issued[r.id].node, r.id, a.issued[r.id].compensation.value)
  {
  }

  /** The stack grows by what is owed only, and entries keep what they are. */
  lemma UndoGrew(cfg: Config, a: Audit, o: Occ)
    requires Legal(cfg, a, o)
    ensures var b := Advance(a, o);
      && (b.owed.Some? ==> o.CommandResult? && b.owed == InverseOf(a, o.result))
      && |a.st.undo| <= |b.st.undo| <= |a.st.undo| + 1
      && (forall p | 0 <= p < |a.st.undo| ::
            b.st.undo[p].node == a.st.undo[p].node && b.st.undo[p].command == a.st.undo[p].command && b.st.undo[p].effect == a.st.undo[p].effect)
      && (|b.st.undo| > |a.st.undo| ==>
            && a.owed.Some?
            && var u, inv := b.st.undo[|a.st.undo|], a.owed.value;
               u.node == inv.node && u.command == inv.command && u.effect == inv.effect)
  {
    hide TransitionLegal, StatusLegal, VariableLegal, PushLegal, BranchLegal, SlotLegal, IssueLegal, Admissible, WakeLegal, WokeLegal, NodeSetLegal, InverseOf;
  }

  /** A compensation carries what the original command declared as its inverse, for the same
      node; it is not critical itself and has no inverse. */
  lemma UndoAsDeclared(cfg: Config, log: seq<Occ>, i: nat)
    requires WellFormed(cfg.def) && Reach(cfg, log).Some? && i < |log| && log[i].CommandIssued? && log[i].command.id.UndoCommand?
    ensures
      var c := log[i].command;
      exists j: nat, e: SideEffect :: j < i && log[j].CommandIssued? && log[j].command.id == c.id.original
        && log[j].command.compensation == Some(e) && c.node == log[j].command.node
        && c.kind == e.kind && c.target == e.target && c.payload == e.payload
        && !c.critical && c.compensation == None
  {
    hide Reach, Declares, Sane;
    var j := IssuedFirst(cfg, log, i);
    NewlyIssued(cfg, log, j);
    UndoDeclared(cfg, log, j);
    var a, c := At(cfg, log, j), log[i].command;
    ReachPrefix(cfg, log, j);
    KeyedUndo(cfg, log[..j]);
    var u := a.st.undo[c.id.position];
    DeclaredBy(log, j, u.node, u.command, u.effect);
    var k: nat :| k < j && log[k].CommandIssued? && log[k].command.id == u.command && log[k].command.node == u.node &&
      log[k].command.compensation == Some(u.effect);
    assert k < i && log[k].CommandIssued? && log[k].command.id == c.id.original && log[k].command.compensation == Some(u.effect);
  }

  lemma KeyedUndo(cfg: Config, log: seq<Occ>)
    requires WellFormed(cfg.def) && Reach(cfg, log).Some?
    ensures UndoKeyed(Reach(cfg, log).value.st)
  {
    hide Reach;
    ReachSane(cfg, log);
  }

  lemma DeclaredBy(log: seq<Occ>, n: nat, node: string, id: CommandId, e: SideEffect)
    requires Declares(log, n, node, id, e)
    ensures exists k: nat ::
      && k < n && k < |log| && log[k].CommandIssued? && log[k].command.id == id && log[k].command.node == node
      && log[k].command.compensation == Some(e)
  {
  }

  // --------------------------------------------------------------------- forks

  /** The scope is the one its fork declares: its branches are the transitions by index, its
      settings the fork's own or those of the join it was created with. Branches move; a join
      that was not known is filled in by the first arrival. */
  ghost predicate ForkedAsDeclared(def: ProcessDef, s: Scope) {
    && s.fork in def.nodes
    && var node := def.nodes[s.fork];
       && node.ntype.Parallel?
       && s.branches.Keys == (set i | 0 <= i < |node.transitions| :: BranchId(s.fork, i))
       && (forall b <- s.branches :: b.index < |node.transitions| && s.branches[b].startNode == node.transitions[b.index].next)
       && (s.failFast <==> node.fork.Some? && node.fork.value.failFast)
       && exists join: string ::
            && CreatedWith(def, node, join)
            && (s.join == join || (join == "" && s.join in def.nodes && def.nodes[s.join].ntype.Join?))
            && Settings(def, node, join, s.mode, s.required, s.timeout)
  }

  lemma FormedAsDeclared(def: ProcessDef, s: Scope)
    requires WellFormed(def) && Formed(def, s)
    ensures ForkedAsDeclared(def, s)
  {
    var node := def.nodes[s.fork];
    var join := StaticJoin(def, node);
    CreatedWithMeaning(def, node);
    SettingsMeaning(def, node, join);
    hide StaticJoin, CreatedWith, Convergence;
    assert Settings(def, node, join, s.mode, s.required, s.timeout);
  }

  /** Every scope of every run is as its fork declares. */
  lemma ForksAsDeclared(cfg: Config, log: seq<Occ>, n: nat)
    requires WellFormed(cfg.def) && Reach(cfg, log).Some? && n <= |log|
    ensures |At(cfg, log, n).st.scopes| <= 1
    ensures forall s <- At(cfg, log, n).st.scopes :: ForkedAsDeclared(cfg.def, s)
  {
    hide Reach, Formed, ForkedAsDeclared, IdsBounded, SagaTracked, SlotsFormed;
    ReachPrefix(cfg, log, n);
    ReachSane(cfg, log[..n]);
    forall s | s in At(cfg, log, n).st.scopes ensures ForkedAsDeclared(cfg.def, s) {
      FormedAsDeclared(cfg.def, s);
    }
  }

  /** A fork is opened at the node the instance stands on, with every branch running at the
      target of its transition. */
  lemma OpensAtStart(cfg: Config, log: seq<Occ>, i: nat)
    requires WellFormed(cfg.def) && Reach(cfg, log).Some? && i < |log| && log[i].ScopePushed?
    ensures At(cfg, log, i).st.scopes == [] && log[i].scope.fork == At(cfg, log, i).st.node
    ensures ForkedAsDeclared(cfg.def, log[i].scope)
    ensures forall b <- log[i].scope.branches ::
      var br := log[i].scope.branches[b];
      br.currentNode == br.startNode && br.status == Running && br.actor == None && !br.done && br.arrivedJoin == ""
  {
    hide Reach, ForkedAsDeclared;
    AtNext(cfg, log, i);
    ForksAsDeclared(cfg, log, i + 1);
    assert At(cfg, log, i + 1).st.scopes == [log[i].scope];
    OpenedFresh(cfg, At(cfg, log, i), log[i].scope);
  }

  lemma OpenedFresh(cfg: Config, a: Audit, s: Scope)
    requires WellFormed(cfg.def) && PushLegal(cfg, a, s)
    ensures s.fork == a.st.node
    ensures forall b <- s.branches ::
      s.branches[b].currentNode == s.branches[b].startNode && s.branches[b].status == Running && s.branches[b].actor == None &&
      !s.branches[b].done && s.branches[b].arrivedJoin == ""
  {
    hide StaticJoin, Convergence;
  }

  // --------------------------------------------------------------------- steps

  /** The last visit, and the variables of that moment. */
  lemma {:induction false} VisitedAt(cfg: Config, log: seq<Occ>, n: nat) returns (j: nat)
    requires Reach(cfg, log).Some? && n <= |log| && At(cfg, log, n).moment.Visited?
    ensures j < n && log[j] == NodeVisited(At(cfg, log, n).moment.node)
    ensures At(cfg, log, j).st.vars == At(cfg, log, n).moment.vars
    decreases n
  {
    hide Reach, Legal;
    if n == 0 {
      FirstAudit(cfg, log);
      assert false;
    } else {
      AtNext(cfg, log, n - 1);
      if log[n - 1].NodeVisited? {
        j := n - 1;
      } else {
        j := VisitedAt(cfg, log, n - 1);
      }
    }
  }

  /** A step out of node `n`, visited with `vars` and driven by the event `name`: its inputs
      evaluated, and it took one of its transitions. */
  ghost predicate Stepped(cfg: Config, n: string, vars: Env, name: string, to: string) {
    && n in cfg.def.nodes
    && var node := cfg.def.nodes[n];
       exists view: Env, k: nat ::
         Sees(cfg, node, vars, view) && k < |node.transitions| && Taken(cfg, node, name, view, k) && node.transitions[k].next == to
  }

  /** An inference of node `n` was answered by `ev`, its callback, and its result leads to `to`. */
  ghost predicate Inferred(cfg: Config, n: string, vars: Env, ev: Event, to: string) {
    && n in cfg.def.nodes && cfg.def.nodes[n].ai.Some?
    && var node := cfg.def.nodes[n];
       && ev.name == (if node.ai.value.event != "" then node.ai.value.event else "ai_result")
       && exists after: Env ::
            && LeadsTo(cfg, node, ev.payload, after, to)
            && (Complete(node.ai.value, ev.payload) && node.ai.value.choose == [] ==> TakenOver(node.ai.value, ev.payload, vars, after))
  }

  lemma RouteTaken(cfg: Config, n: string, vars: Env, e: Option<Event>, to: string)
    requires WellFormed(cfg.def) && n in cfg.def.nodes && NextOf(cfg, cfg.def.nodes[n], vars, e) == Some(to)
    ensures cfg.def.nodes[n].ntype !in {End, Parallel}
    ensures !cfg.def.nodes[n].ntype.Ai? ==> Stepped(cfg, n, vars, EventName(e), to)
    ensures cfg.def.nodes[n].ntype.Ai? ==> e.Some? && Inferred(cfg, n, vars, e.value, to)
  {
    hide StepRoute, AiRoute, AiAfter, AiViolates, Taken, LeadsTo, Complete, Chosen, TakenOver;
    var node := cfg.def.nodes[n];
    if node.ntype.Ai? {
      var payload := e.value.payload;
      var result := ParseAiResult(payload);
      AiRouteMeaning(cfg, node, payload, AiAfter(node, result, vars), to);
      ViolatesMeaning(node, payload);
      if !AiViolates(node, result) {
        TakenOverMeaning(node, payload, vars);
      }
    } else {
      ViewMeaning(cfg, node, vars);
      StepRouteMeaning(cfg, node, EventName(e), EnterEnv(cfg, node, vars).value);
      var k: nat :| Taken(cfg, node, EventName(e), EnterEnv(cfg, node, vars).value, k);
    }
  }

  /** Where a step leads, read off the definition: both ways. */
  lemma NextMeaning(cfg: Config, n: string, vars: Env, e: Option<Event>, to: string)
    requires WellFormed(cfg.def) && n in cfg.def.nodes
    ensures NextOf(cfg, cfg.def.nodes[n], vars, e) == Some(to) <==>
      && cfg.def.nodes[n].ntype !in {End, Parallel}
      && if cfg.def.nodes[n].ntype.Ai? then e.Some? && Inferred(cfg, n, vars, e.value, to)
         else Stepped(cfg, n, vars, EventName(e), to)
  {
    hide Stepped, Inferred, NextOf;
    if NextOf(cfg, cfg.def.nodes[n], vars, e) == Some(to) {
      RouteTaken(cfg, n, vars, e, to);
    }
    if cfg.def.nodes[n].ntype.Ai? && e.Some? && Inferred(cfg, n, vars, e.value, to) {
      InferredNext(cfg, n, vars, e.value, to);
    }
    if cfg.def.nodes[n].ntype !in {End, Parallel, Ai} && Stepped(cfg, n, vars, EventName(e), to) {
      SteppedNext(cfg, n, vars, e, to);
    }
  }

  lemma SteppedNext(cfg: Config, n: string, vars: Env, e: Option<Event>, to: string)
    requires n in cfg.def.nodes && cfg.def.nodes[n].ntype !in {End, Parallel, Ai} && Stepped(cfg, n, vars, EventName(e), to)
    ensures NextOf(cfg, cfg.def.nodes[n], vars, e) == Some(to)
  {
    hide Sees, Taken, StepRoute;
    var node := cfg.def.nodes[n];
    var view: Env, k: nat :| Sees(cfg, node, vars, view) && k < |node.transitions| && Taken(cfg, node, EventName(e), view, k) && node.transitions[k].next == to;
    ViewMeaning(cfg, node, vars);
    StepRouteMeaning(cfg, node, EventName(e), view);
  }

  lemma InferredNext(cfg: Config, n: string, vars: Env, ev: Event, to: string)
    requires n in cfg.def.nodes && cfg.def.nodes[n].ntype.Ai? && Inferred(cfg, n, vars, ev, to)
    ensures NextOf(cfg, cfg.def.nodes[n], vars, Some(ev)) == Some(to)
  {
    hide AiRoute, AiAfter, AiViolates, LeadsTo, Complete, Chosen;
    var node := cfg.def.nodes[n];
    var result := ParseAiResult(ev.payload);
    var after: Env :| LeadsTo(cfg, node, ev.payload, after, to) &&
      (Complete(node.ai.value, ev.payload) && node.ai.value.choose == [] ==> TakenOver(node.ai.value, ev.payload, vars, after));
    var own := AiAfter(node, result, vars);
    ViolatesMeaning(node, ev.payload);
    if Complete(node.ai.value, ev.payload) && node.ai.value.choose == [] {
      TakenOverMeaning(node, ev.payload, vars);
      TakenOverOnce(node.ai.value, ev.payload, vars, after, own);
    } else {
      LeadsAnyhow(cfg, node, ev.payload, after, own, to);
    }
    AiRouteMeaning(cfg, node, ev.payload, own, to);
  }

  lemma TakenOverOnce(ai: AiConfig, payload: map<string, Value>, vars: Env, after: Env, own: Env)
    requires TakenOver(ai, payload, vars, after) && TakenOver(ai, payload, vars, own)
    ensures after == own
  {
    assert after.Keys == own.Keys;
    forall x | x in after ensures after[x] == own[x] {
    }
  }

  /** Only the conditions of a complete result without candidates look at the variables. */
  lemma LeadsAnyhow(cfg: Config, node: Node, payload: map<string, Value>, vars: Env, others: Env, to: string)
    requires node.ai.Some? && !(Complete(node.ai.value, payload) && node.ai.value.choose == [])
    ensures LeadsTo(cfg, node, payload, vars, to) <==> LeadsTo(cfg, node, payload, others, to)
  {
    hide Complete, Chosen;
  }

  /** The node's own deadline: nobody drove it, and it leads to the declared target. */
  ghost predicate Expired(cfg: Config, n: string, log: seq<Occ>, to: string) {
    && n in cfg.def.nodes && cfg.def.nodes[n].deadline.Some? && cfg.def.nodes[n].deadline.value.next == to
    && to in cfg.def.nodes && LastEvent(log).None?
  }

  /** Every linear departure of every run leads where the definition says: at the deadline of the
      node to its target, for an inference where its callback leads, otherwise along the
      transition the node takes, evaluated over the variables it was visited with. */
  lemma StepsAsDeclared(cfg: Config, log: seq<Occ>, i: nat)
    requires WellFormed(cfg.def) && Reach(cfg, log).Some? && i < |log| && log[i].Transitioned?
    ensures log[i].from == At(cfg, log, i).st.node && log[i].from in cfg.def.nodes
    ensures
      var o := log[i];
      || (o.name == "deadline" && Expired(cfg, o.from, log[..i], o.to))
      || exists j: nat ::
           && j < i && log[j] == NodeVisited(o.from) && o.name == EventName(LastEvent(log[..i]))
           && if cfg.def.nodes[o.from].ntype.Ai? then
                LastEvent(log[..i]).Some? && Inferred(cfg, o.from, At(cfg, log, j).st.vars, LastEvent(log[..i]).value, o.to)
              else Stepped(cfg, o.from, At(cfg, log, j).st.vars, o.name, o.to)
  {
    hide Reach, Stepped, Inferred, NextOf, MustFail, Attributed;
    AtNext(cfg, log, i);
    ReachPrefix(cfg, log, i);
    DrivenBy(cfg, log[..i]);
    var a, o := At(cfg, log, i), log[i];
    if a.moment.Visited? {
      var j := VisitedAt(cfg, log, i);
      RouteTaken(cfg, o.from, a.moment.vars, a.event, o.to);
    }
  }

  /** Inferences with candidates, spelled out: the instance goes where the model chose to, along
      the first transition for its choice, when the result reports no error, gives every output
      in its type and chose a candidate that has a case; to the declared fallback otherwise. */
  lemma ChoicesAsDeclared(cfg: Config, log: seq<Occ>, i: nat)
    requires WellFormed(cfg.def) && Reach(cfg, log).Some? && i < |log| && log[i].Transitioned?
    requires log[i].from in cfg.def.nodes && cfg.def.nodes[log[i].from].ntype.Ai?
    requires cfg.def.nodes[log[i].from].ai.value.choose != [] && LastEvent(log[..i]).Some?
    ensures var node, payload := cfg.def.nodes[log[i].from], LastEvent(log[..i]).value.payload;
      var good := Complete(node.ai.value, payload);
      || (good && exists k: nat :: Chosen(node, payload, k) && log[i].to == node.transitions[k].next)
      || (!(good && exists k: nat :: Chosen(node, payload, k)) && log[i].to == node.ai.value.onError && log[i].to in cfg.def.nodes)
  {
    hide Reach, Complete, LeadsTo, Stepped, Taken, Sees;
    StepsAsDeclared(cfg, log, i);
    var node, payload := cfg.def.nodes[log[i].from], LastEvent(log[..i]).value.payload;
    var j: nat :| j < i && Inferred(cfg, log[i].from, At(cfg, log, j).st.vars, LastEvent(log[..i]).value, log[i].to);
    var after: Env :| LeadsTo(cfg, node, payload, after, log[i].to);
    CandidatesLead(cfg, node, payload, after, log[i].to);
  }

  // ------------------------------------------------------------------ branches

  /** A branch left node `n`, visited with `vars`: its inputs evaluated and it took a transition
      that leads somewhere, by its condition, for the event, or as the first of a node that
      neither waits nor decides. */
  ghost predicate BranchStepped(cfg: Config, n: string, vars: Env, e: Option<Event>, to: string) {
    && n in cfg.def.nodes && to != ""
    && var node := cfg.def.nodes[n];
       exists view: Env, k: nat ::
         && Sees(cfg, node, vars, view) && k < |node.transitions| && node.transitions[k].next == to
         && (|| (node.ntype in {Condition, Timer} && ByCondition(cfg, node.transitions, view, k))
             || (e.Some? && !node.ntype.Timer? && ByEvent(node.transitions, e.value.name, k))
             || (!IsWaitingNode(node) && !node.ntype.Condition? && ByOrder(node.transitions, k)))
  }

  lemma BranchRoute(cfg: Config, a: Audit, n: string, vars: Env, to: string)
    requires WellFormed(cfg.def) && n in cfg.def.nodes && BranchLeaves(cfg, a, n, vars, to)
    ensures !cfg.def.nodes[n].ntype.Ai? ==> BranchStepped(cfg, n, vars, a.event, to)
    ensures cfg.def.nodes[n].ntype.Ai? ==> a.event.Some? && Answered(cfg, n, a.st.vars, a.event.value, to)
  {
    hide AiRoute, WhenRoute, EventNext, FirstNext, ByOrder, LeadsTo, Complete;
    var node := cfg.def.nodes[n];
    if node.ntype.Ai? {
      AiRouteMeaning(cfg, node, a.event.value.payload, a.st.vars, to);
    } else {
      ViewMeaning(cfg, node, vars);
      var view := EnterEnv(cfg, node, vars).value;
      assert Sees(cfg, node, vars, view);
      ChainMeaning(cfg, node.transitions, view, to);
      if a.event.Some? && !node.ntype.Timer? && EventNext(node.transitions, a.event.value.name) == Some(to) {
        EventRoute(node.transitions, a.event.value.name);
        var k: nat :| ByEvent(node.transitions, a.event.value.name, k);
        assert node.transitions[k].next == to;
      } else if node.ntype in {Condition, Timer} && WhenRoute(cfg, node.transitions, view) == Goto(to) {
        var k: nat :| ByCondition(cfg, node.transitions, view, k) && node.transitions[k].next == to;
        assert k < |node.transitions|;
      } else {
        OrderRoute(node.transitions);
        var k: nat :| ByOrder(node.transitions, k);
        assert node.transitions[k].next == to;
      }
    }
  }

  /** The callback of node `n` leads to `to`, given the variables with its outputs written. */
  ghost predicate Answered(cfg: Config, n: string, vars: Env, ev: Event, to: string) {
    && n in cfg.def.nodes && cfg.def.nodes[n].ai.Some?
    && var node := cfg.def.nodes[n];
       ev.name == (if node.ai.value.event != "" then node.ai.value.event else "ai_result") && LeadsTo(cfg, node, ev.payload, vars, to)
  }

  /** The node a branch is on before record `i`. */
  ghost function PlaceOf(cfg: Config, log: seq<Occ>, i: nat, b: BranchId): (n: string)
    requires Reach(cfg, log).Some? && i <= |log|
    requires |At(cfg, log, i).st.scopes| == 1 && b in At(cfg, log, i).st.scopes[0].branches
  {
    At(cfg, log, i).st.scopes[0].branches[b].currentNode
  }

  /** Record `i` moves a branch that was on node `from`, driven by `e`. */
  ghost predicate MovesAsDeclared(cfg: Config, log: seq<Occ>, i: nat, from: string, b: BranchState, e: Option<Event>)
    requires Reach(cfg, log).Some? && i <= |log|
  {
    var to := b.currentNode;
    || (e.None? && b.actor == Some(SYSTEM_PRINCIPAL) && exists j: nat ::
          && 0 < j < i && log[j] == Woke(BranchSlot(b.id)) && BranchSlot(b.id) in At(cfg, log, j - 1).st.waitings
          && var n := At(cfg, log, j - 1).st.waitings[BranchSlot(b.id)].node;
             n in cfg.def.nodes && cfg.def.nodes[n].deadline.Some? && cfg.def.nodes[n].deadline.value.next == to)
    || (exists n: string, j: nat ::
          && j < i && log[j] == NodeVisited(n) && n in cfg.def.nodes
          && (n == from || (e.None? && cfg.def.nodes[n].ntype.Timer?))
          && if cfg.def.nodes[n].ntype.Ai? then e.Some? && Answered(cfg, n, At(cfg, log, i).st.vars, e.value, to)
             else BranchStepped(cfg, n, At(cfg, log, j).st.vars, e, to))
  }

  /** The last wake-up, and the slot it served. */
  lemma {:induction false} WokenAt(cfg: Config, log: seq<Occ>, n: nat) returns (j: nat)
    requires Reach(cfg, log).Some? && n <= |log| && At(cfg, log, n).moment.Woken?
    ensures
      var m := At(cfg, log, n).moment;
      && 0 < j < n && log[j] == Woke(m.slot)
      && m.slot in At(cfg, log, j - 1).st.waitings && At(cfg, log, j - 1).st.waitings[m.slot] == m.waiting
    decreases n
  {
    hide Reach, Legal, NextState;
    if n == 0 {
      FirstAudit(cfg, log);
      assert false;
    } else {
      AtNext(cfg, log, n - 1);
      if log[n - 1].Woke? {
        j := n - 1;
        WokenOnce(cfg, log, j);
        AtNext(cfg, log, j - 1);
      } else {
        j := WokenAt(cfg, log, n - 1);
      }
    }
  }

  /** Every move of a branch in every run leads where the definition says: to the target of the
      deadline of the node its slot was served for, at an inference where its callback leads, at
      any other node along a transition it can take, evaluated over the variables it was visited
      with. */
  lemma BranchesAsDeclared(cfg: Config, log: seq<Occ>, i: nat)
    requires WellFormed(cfg.def) && Reach(cfg, log).Some? && i < |log| && log[i].BranchUpdated?
    ensures |At(cfg, log, i).st.scopes| == 1 && log[i].branch.id in At(cfg, log, i).st.scopes[0].branches
    ensures
      var from := PlaceOf(cfg, log, i, log[i].branch.id);
      log[i].branch.currentNode != from ==> MovesAsDeclared(cfg, log, i, from, log[i].branch, LastEvent(log[..i]))
  {
    hide Reach, BranchLeaves, BranchFails, Halts, Settled, ParkedAt, Answered, BranchStepped;
    AtNext(cfg, log, i);
    ReachPrefix(cfg, log, i);
    DrivenBy(cfg, log[..i]);
    var a, b := At(cfg, log, i), log[i].branch;
    var old_ := a.st.scopes[0].branches[b.id];
    if b.currentNode != old_.currentNode {
      assert BranchMoves(cfg, a, old_, b);
      if a.moment.Visited? {
        var j := VisitedAt(cfg, log, i);
        BranchRoute(cfg, a, a.moment.node, a.moment.vars, b.currentNode);
      } else {
        var j := WokenAt(cfg, log, i);
        EscalatesTo(cfg.def, cfg.def.nodes[a.moment.waiting.node], a.moment.waiting);
      }
    }
  }

  lemma EscalatesTo(def: ProcessDef, node: Node, w: WaitingState)
    requires WellFormed(def) && ParkedAt(node, w) && w.next in def.nodes
    ensures node.deadline.Some? && node.deadline.value.next == w.next
  {
  }

  /** The same for inferences with candidates on branches, spelled out. */
  lemma BranchChoicesAsDeclared(cfg: Config, log: seq<Occ>, i: nat)
    requires WellFormed(cfg.def) && Reach(cfg, log).Some? && i < |log| && log[i].BranchUpdated? && LastEvent(log[..i]).Some?
    ensures |At(cfg, log, i).st.scopes| == 1 && log[i].branch.id in At(cfg, log, i).st.scopes[0].branches
    ensures
      var from, to := PlaceOf(cfg, log, i, log[i].branch.id), log[i].branch.currentNode;
      from != to && from in cfg.def.nodes && cfg.def.nodes[from].ntype.Ai? && cfg.def.nodes[from].ai.value.choose != [] ==>
        var node, payload := cfg.def.nodes[from], LastEvent(log[..i]).value.payload;
        var good := Complete(node.ai.value, payload);
        || (good && exists k: nat :: Chosen(node, payload, k) && to == node.transitions[k].next)
        || (!(good && exists k: nat :: Chosen(node, payload, k)) && to == node.ai.value.onError && to in cfg.def.nodes)
  {
    hide Reach, Complete, LeadsTo, BranchStepped;
    BranchesAsDeclared(cfg, log, i);
    var from, to := PlaceOf(cfg, log, i, log[i].branch.id), log[i].branch.currentNode;
    if from != to && from in cfg.def.nodes && cfg.def.nodes[from].ntype.Ai? && cfg.def.nodes[from].ai.value.choose != [] {
      CandidatesLead(cfg, cfg.def.nodes[from], LastEvent(log[..i]).value.payload, At(cfg, log, i).st.vars, to);
    }
  }

  // -------------------------------------------------------------------- events

  /** A node has a use for the event: the callback of an inference, otherwise a transition that
      declares it or has a condition; a timer has none. */
  ghost predicate HasUse(node: Node, name: string) {
    if node.ntype.Ai? then name == (if node.ai.Some? && node.ai.value.event != "" then node.ai.value.event else "ai_result")
    else !node.ntype.Timer? && exists t <- node.transitions :: t.event == name || t.when != ""
  }

  /** Who may decide at a node: somebody of a kind and with an id; at an inference a model with
      its version and that of its prompt. */
  predicate Signed(node: Node, p: Option<Principal>) {
    && p.Some? && p.value.kind != "" && p.value.id != ""
    && (node.ntype.Ai? ==>
          p.value.kind == "model" && p.value.model != "" && p.value.modelVersion != "" && p.value.promptVersion != "")
  }

  lemma HasUseMeaning(node: Node, name: string)
    ensures NodeAccepts(node, name) <==> HasUse(node, name)
  {
    if !node.ntype.Ai? && !node.ntype.Timer? {
      if t :| t in node.transitions && (t.event == name || t.when != "") {
        var k :| 0 <= k < |node.transitions| && node.transitions[k] == t;
      }
    }
  }

  lemma SignedMeaning(node: Node, p: Option<Principal>)
    ensures ValidDecisionPrincipal(node, p) <==> Signed(node, p)
  {
  }

  lemma GateMeaning(def: ProcessDef, n: string, ev: Event)
    ensures GateOpen(def, n, ev) <==>
      (n in def.nodes && def.nodes[n].requirePrincipal && HasUse(def.nodes[n], ev.name) ==> Signed(def.nodes[n], ev.principal))
  {
    if n in def.nodes {
      HasUseMeaning(def.nodes[n], ev.name);
      SignedMeaning(def.nodes[n], ev.principal);
    }
  }

  /** An event is taken only where there is a use for it: by a waiting instance outside forks
      whose waiting node has one, signed where the node requires it; and while a fork is open,
      signed for every waiting branch that has a use for it and requires it. */
  lemma EventsAsDeclared(cfg: Config, log: seq<Occ>, i: nat)
    requires Reach(cfg, log).Some? && i < |log| && log[i].EventConsumed? && log[i].event.Some?
    ensures
      var st, ev := At(cfg, log, i).st, log[i].event.value;
      && st.status in {Pending, Waiting}
      && (st.status == Waiting && st.scopes == [] ==>
            && st.node in cfg.def.nodes && cfg.def.nodes[st.node].ntype in {Approval, Subprocess, Ai}
            && HasUse(cfg.def.nodes[st.node], ev.name)
            && (cfg.def.nodes[st.node].requirePrincipal ==> Signed(cfg.def.nodes[st.node], ev.principal)))
      && forall s <- st.scopes, b <- s.branches ::
           var n := s.branches[b].currentNode;
           s.branches[b].status == Waiting && n in cfg.def.nodes && cfg.def.nodes[n].requirePrincipal && HasUse(cfg.def.nodes[n], ev.name) ==>
             Signed(cfg.def.nodes[n], ev.principal)
  {
    hide Reach, GateOpen, NodeAccepts, HasUse, Signed;
    AtNext(cfg, log, i);
    var a, ev := At(cfg, log, i), log[i].event.value;
    if a.st.status == Waiting && a.st.scopes == [] {
      GateMeaning(cfg.def, a.st.node, ev);
      HasUseMeaning(cfg.def.nodes[a.st.node], ev.name);
      TimersHear(cfg.def.nodes[a.st.node], ev.name);
    }
    forall s, b | s in a.st.scopes && b in s.branches && s.branches[b].status == Waiting
      ensures GateOpen(cfg.def, s.branches[b].currentNode, ev)
    {
      var k :| 0 <= k < |a.st.scopes| && a.st.scopes[k] == s;
      assert a.st.scopes[k].branches[b].status == Waiting;
    }
    forall n: string
      ensures GateOpen(cfg.def, n, ev) <==>
        (n in cfg.def.nodes && cfg.def.nodes[n].requirePrincipal && HasUse(cfg.def.nodes[n], ev.name) ==> Signed(cfg.def.nodes[n], ev.principal))
    {
      GateMeaning(cfg.def, n, ev);
    }
  }

  lemma TimersHear(node: Node, name: string)
    requires HasUse(node, name)
    ensures !node.ntype.Timer?
  {
  }

  /** A linear departure that an event drove, from an approval, subprocess or inference that
      requires a principal, is signed by that event, unless the instance had just been put
      there. */
  lemma DecisionsSigned(cfg: Config, log: seq<Occ>, i: nat)
    requires WellFormed(cfg.def) && Reach(cfg, log).Some? && i < |log| && log[i].Transitioned?
    requires log[i].from in cfg.def.nodes && LastEvent(log[..i]).Some?
    requires cfg.def.nodes[log[i].from].requirePrincipal && cfg.def.nodes[log[i].from].ntype in {Approval, Subprocess, Ai}
    ensures JustLanded(log, i, log[i].from) || Signed(cfg.def.nodes[log[i].from], LastEvent(log[..i]).value.principal)
  {
    hide Reach, Signed, JustLanded, LeftByStep;
    assert Gated(cfg.def, log[i].from);
    DecisionsAttributed(cfg, log, i);
    SignedMeaning(cfg.def.nodes[log[i].from], LastEvent(log[..i]).value.principal);
  }

  // ----------------------------------------------------------------- variables

  /** The value of output `name` of the node: its expression over the node's own view when it has
      inputs, else over the variables as they are; in the declared type. */
  ghost predicate Outputs(cfg: Config, node: Node, seen: Env, now: Env, name: string, v: Value) {
    && name in node.output
    && (exists view: Env :: Sees(cfg, node, seen, view) &&
          cfg.eval(node.output[name], if node.input == map[] then now else view) == Some(v))
    && (name in cfg.def.varSchema ==> OfType(cfg.def.varSchema[name], v))
  }

  /** The value the callback gives for output `name` of an inference, in its declared type. */
  predicate Reports(node: Node, payload: map<string, Value>, name: string, v: Value) {
    && node.ai.Some? && name in node.ai.value.outputTypes && OfType(node.ai.value.outputTypes[name], v)
    && "output" in payload && payload["output"].Object? && name in payload["output"].fields && payload["output"].fields[name] == v
  }

  /** The moment the engine last visited a node or served a wake-up. */
  lemma {:induction false} MomentAt(cfg: Config, log: seq<Occ>, n: nat) returns (j: nat)
    requires Reach(cfg, log).Some? && n <= |log| && !At(cfg, log, n).moment.Nowhere?
    ensures j < n && At(cfg, log, j).st.vars == At(cfg, log, n).moment.vars
    decreases n
  {
    hide Reach, Legal;
    if n == 0 {
      FirstAudit(cfg, log);
      assert false;
    } else {
      AtNext(cfg, log, n - 1);
      if log[n - 1].NodeVisited? || log[n - 1].Woke? {
        j := n - 1;
      } else {
        j := MomentAt(cfg, log, n - 1);
      }
    }
  }

  /** After the start a variable is written by nobody but the summary of a fork, an output of a
      node, or the checked output of an inference. */
  lemma VariablesAsDeclared(cfg: Config, log: seq<Occ>, i: nat)
    requires WellFormed(cfg.def) && Reach(cfg, log).Some? && i < |log| && log[i].VariableSet? && At(cfg, log, i).st.status != Pending
    ensures
      var st, name, v := At(cfg, log, i).st, log[i].name, log[i].value;
      || (name == "parallel_failed" && |st.scopes| == 1 &&
          v == Number(|set b | b in st.scopes[0].branches && st.scopes[0].branches[b].status == Failed|))
      || (exists n: string, j: nat :: j < i && n in cfg.def.nodes && Outputs(cfg, cfg.def.nodes[n], At(cfg, log, j).st.vars, st.vars, name, v))
      || (LastEvent(log[..i]).Some? && exists n: string ::
            n in cfg.def.nodes && cfg.def.nodes[n].ntype.Ai? && Reports(cfg.def.nodes[n], LastEvent(log[..i]).value.payload, name, v))
  {
    hide Reach;
    AtNext(cfg, log, i);
    ReachPrefix(cfg, log, i);
    DrivenBy(cfg, log[..i]);
    var a, name, v := At(cfg, log, i), log[i].name, log[i].value;
    assert |a.st.scopes| == 1 ==>
      FailedSet(a.st.scopes[0]) == set b | b in a.st.scopes[0].branches && a.st.scopes[0].branches[b].status == Failed;
    if !a.moment.Nowhere? {
      var j := MomentAt(cfg, log, i);
      var n := if a.moment.Visited? then a.moment.node else a.moment.waiting.node;
      if n in cfg.def.nodes {
        WriteMeaning(cfg, cfg.def.nodes[n], a, name, v);
      }
    }
  }

  lemma WriteMeaning(cfg: Config, node: Node, a: Audit, name: string, v: Value)
    requires !a.moment.Nowhere?
    ensures var entered := EnterEnv(cfg, node, a.moment.vars);
      entered.Some? && OutputWrites(cfg, node, entered.value, a.st.vars, name, v) ==> Outputs(cfg, node, a.moment.vars, a.st.vars, name, v)
    ensures node.ai.Some? && a.event.Some? ==>
      var result := ParseAiResult(a.event.value.payload);
      OutputGiven(node.ai.value, result, name) && v == result.output[name] ==> Reports(node, a.event.value.payload, name, v)
  {
    ViewMeaning(cfg, node, a.moment.vars);
    if name in cfg.def.varSchema {
      AssignableMeaning(cfg.def.varSchema[name], v);
    }
    if node.ai.Some? && name in node.ai.value.outputTypes {
      AssignableMeaning(node.ai.value.outputTypes[name], v);
    }
  }
}
