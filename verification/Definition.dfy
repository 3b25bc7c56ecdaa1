/**
 The process definition language: nodes, transitions, contracts, and the pure
 routing rules that say where a node leads. The expression engine, the side-effect
 executor and the inference payload builder are arbitrary total functions held by
 `Config`, so every result below holds for all of them.
 */
module Definition {

  datatype Option<+T> = None | Some(value: T)

  // ---------------------------------------------------------------- values

  datatype Value =
    | Null
    | Boolean(b: bool)
    | Number(n: int)
    | Text(s: string)
    | Array(elems: seq<Value>)
    | Object(fields: map<string, Value>)

  type Env = map<string, Value>

  datatype Type =
    | AnyType | StringType | NumberType | BooleanType | ObjectType | ArrayType
    | EnumType(values: seq<string>) | DateTimeType | MoneyType

  predicate Assignable(t: Type, v: Value) {
    match t
    case AnyType => true
    case StringType => v.Text?
    case DateTimeType => v.Text?
    case EnumType(values) => v.Text? && v.s in values
    case NumberType => v.Number?
    case MoneyType => v.Number?
    case BooleanType => v.Boolean?
    case ObjectType => v.Object?
    case ArrayType => v.Array?
  }

  // ------------------------------------------------------------- definition

  datatype NodeType =
    | StartNode | Approval | Condition | Parallel | Subprocess | Action
    | Notification | Timer | Ai | End | Join

  datatype Transition = Transition(event: string, when: string, next: string, choice: string)

  datatype SideEffect = SideEffect(
    kind: string, target: string, payload: string, critical: bool,
    compensation: Option<SideEffect>)

  /** `Unset` is the empty string of the declaration. */
  datatype Mode = Unset | All | Any | NofM

  datatype ForkConfig = ForkConfig(mode: Mode, joinNode: string, failFast: bool)

  /** `timeout` is the parsed duration; absent and malformed ones are 0. */
  datatype JoinConfig = JoinConfig(mode: Mode, required: int, timeout: int)

  /** `after` is the parsed duration, None when it does not parse. */
  datatype Deadline = Deadline(after: Option<int>, next: string)

  datatype AiConfig = AiConfig(
    kind: string, target: string, event: string,
    outputTypes: map<string, Type>, choose: seq<string>, onError: string)

  datatype Node = Node(
    id: string, ntype: NodeType, effects: seq<SideEffect>, transitions: seq<Transition>,
    fork: Option<ForkConfig>, join: Option<JoinConfig>,
    input: map<string, string>, output: map<string, string>,
    duration: Option<int>, deadline: Option<Deadline>,
    requirePrincipal: bool, ai: Option<AiConfig>)

  datatype ProcessDef = ProcessDef(
    nodes: map<string, Node>, startNode: string,
    varSchema: map<string, Type>, varInit: Env)

  /** Map keys are the node ids, the empty id is not a node, inference nodes carry
      their configuration: what every parsed and validated definition satisfies. */
  predicate WellFormed(def: ProcessDef) {
    && "" !in def.nodes
    && (forall n <- def.nodes :: def.nodes[n].id == n)
    && (forall n <- def.nodes :: def.nodes[n].ntype.Ai? ==> def.nodes[n].ai.Some?)
  }

  predicate IsWaitingNode(node: Node) {
    node.ntype in {Approval, Subprocess, Timer, Ai}
  }

  predicate IsDecisionNode(node: Node) {
    node.ntype in {Approval, Subprocess, Ai}
  }

  predicate WaitsAt(def: ProcessDef, n: string) {
    n in def.nodes && IsWaitingNode(def.nodes[n])
  }

  // ------------------------------------------------------------- principals

  datatype Principal = Principal(
    kind: string, id: string, displayName: string,
    model: string, modelVersion: string, promptVersion: string)

  const SYSTEM_PRINCIPAL := Principal("system", "weiyang-runtime", "Weiyang Runtime", "", "", "")

  predicate ValidDecisionPrincipal(node: Node, p: Option<Principal>) {
    && p.Some?
    && p.value.kind != ""
    && p.value.id != ""
    && (node.ntype.Ai? ==>
          && p.value.kind == "model"
          && p.value.model != ""
          && p.value.modelVersion != ""
          && p.value.promptVersion != "")
  }

  /** A node whose decisions must be attributed. */
  predicate Gated(def: ProcessDef, n: string) {
    n in def.nodes && def.nodes[n].requirePrincipal && IsDecisionNode(def.nodes[n])
  }

  // ------------------------------------------------------- events and commands

  datatype Event = Event(id: string, name: string, principal: Option<Principal>, payload: map<string, Value>)

  /** The branch named `fork.bN` of the parallel node `fork`. */
  datatype BranchId = BranchId(fork: string, index: nat)

  /** Keys of the waiting table: "instance", a branch id, or "scope:fork". */
  datatype Slot = Instance | BranchSlot(branch: BranchId) | ScopeSlot(fork: string)

  datatype WaitKind = TimerWait | DeadlineWait | ScopeWait | AiWait

  /** The capacity of the dedup table. */
  const MAX_EVENTS := 4096

  /** Entries of the dedup table: ids chosen by the host and the engine's own
      `wake:slot:kind:visit` keys. */
  datatype Key = External(id: string) | Wake(slot: Slot, kind: WaitKind, visit: nat)

  function KeyOf(id: string): Option<Key> {
    if id == "" then None else Some(External(id))
  }

  /** Command ids: `exec:node:visit:index`, the same with a branch suffix for the
      inference request of a branch, and `undo:index:original`. */
  datatype CommandId =
    | NodeCommand(exec: string, node: string, visit: nat, index: nat)
    | BranchRequest(exec: string, node: string, visit: nat, slot: Slot)
    | UndoCommand(position: nat, original: CommandId)

  datatype Command = Command(
    id: CommandId, node: string, kind: string, target: string, payload: string,
    critical: bool, compensation: Option<SideEffect>)

  datatype ResultStatus = ResultCompleted | ResultFailed | ResultSkipped | ResultOther

  /** What an executor answers; `error` None is Go's nil error. */
  datatype Reply = Reply(status: ResultStatus, error: Option<string>, outcome: map<string, Value>, permanent: bool)

  datatype SideEffectResult = SideEffectResult(
    id: CommandId, status: ResultStatus, errText: string, outcome: map<string, Value>)

  // ----------------------------------------------------------------- config

  /** Everything a runtime is built with. `reply(c, n)` is what the executor answers
      to command `c` on its n-th call, so any stateful executor is one such function. */
  datatype Config = Config(
    def: ProcessDef,
    cond: (string, Env) -> Option<bool>,
    eval: (string, Env) -> Option<Value>,
    reply: (Command, nat) -> Reply,
    requestPayload: (Node, Env, CommandId) -> Option<string>,
    idText: CommandId -> string,
    autoCompensate: bool,
    maxNodeVisits: nat,
    maxRetry: int)
  {
    /** The effective visit limit of a node: 0 selects the default. */
    function Cap(): (c: nat)
      ensures c > 0
    {
      if maxNodeVisits > 0 then maxNodeVisits else 500
    }
  }

  // ---------------------------------------------------------- data contract

  /** The environment a node sees on entry: its inputs shadow the variables.
      None when an input fails to evaluate. */
  function EnterEnv(cfg: Config, node: Node, vars: Env): Option<Env> {
    if forall name <- node.input :: cfg.eval(node.input[name], vars).Some? then
      Some(vars + map name | name in node.input :: cfg.eval(node.input[name], vars).value)
    else
      None
  }

  /** The environment output expressions are evaluated in. Without inputs the view
      aliases the live variables and sees the outputs written before. */
  function LeaveEnv(node: Node, entered: Env, vars: Env): Env {
    if node.input == map[] then vars else entered
  }

  /** `v` is what output `name` of the node writes. */
  predicate OutputWrites(cfg: Config, node: Node, entered: Env, vars: Env, name: string, v: Value) {
    && name in node.output
    && cfg.eval(node.output[name], LeaveEnv(node, entered, vars)) == Some(v)
    && (name in cfg.def.varSchema ==> Assignable(cfg.def.varSchema[name], v))
  }

  /** Output `name` fails to evaluate or has the wrong type. */
  predicate OutputBlocked(cfg: Config, node: Node, entered: Env, vars: Env, name: string) {
    && name in node.output
    && match cfg.eval(node.output[name], LeaveEnv(node, entered, vars))
       case None => true
       case Some(v) => name in cfg.def.varSchema && !Assignable(cfg.def.varSchema[name], v)
  }

  /** The data contract of a node visited with `visited` fails when the variables are
      `vars`: an input does not evaluate, or some output cannot be written. */
  predicate ContractFails(cfg: Config, node: Node, visited: Env, vars: Env) {
    match EnterEnv(cfg, node, visited)
    case None => true
    case Some(entered) => exists name <- node.output :: OutputBlocked(cfg, node, entered, vars, name)
  }

  // ---------------------------------------------------------------- routing

  /** Broken: a condition failed to evaluate. Goto(""): no branch and no default. */
  datatype Routing = Broken | Goto(next: string)

  function DefaultNext(trs: seq<Transition>): string {
    if trs == [] then "" else if trs[0].when == "" then trs[0].next else DefaultNext(trs[1..])
  }

  /** The first true condition, else the first transition without a condition. */
  function WhenRoute(cfg: Config, trs: seq<Transition>, env: Env): Routing {
    WhenFrom(cfg, trs, env, 0)
  }

  function WhenFrom(cfg: Config, trs: seq<Transition>, env: Env, k: nat): Routing
    requires k <= |trs|
    decreases |trs| - k
  {
    if k == |trs| then Goto(DefaultNext(trs))
    else if trs[k].when == "" then WhenFrom(cfg, trs, env, k + 1)
    else match cfg.cond(trs[k].when, env)
         case None => Broken
         case Some(true) => Goto(trs[k].next)
         case Some(false) => WhenFrom(cfg, trs, env, k + 1)
  }

  /** The target of the first transition declared for the event. */
  function EventNext(trs: seq<Transition>, name: string): Option<string> {
    if trs == [] then None
    else if trs[0].event == name then Some(trs[0].next)
    else EventNext(trs[1..], name)
  }

  function FirstNext(trs: seq<Transition>): string {
    if trs == [] then "" else if trs[0].next != "" then trs[0].next else FirstNext(trs[1..])
  }

  function CaseNext(trs: seq<Transition>, choice: string): Option<string> {
    if trs == [] then None
    else if trs[0].choice == choice then Some(trs[0].next)
    else CaseNext(trs[1..], choice)
  }

  /** Where a linear step leaves a node that is not an inference, fork or end node;
      None when the step fails. */
  function StepRoute(cfg: Config, node: Node, name: string, env: Env): Option<string> {
    var byWhen := if node.ntype in {Condition, Join, Timer} then WhenRoute(cfg, node.transitions, env) else Goto("");
    if byWhen.Broken? then None
    else if byWhen.next != "" then Some(byWhen.next)
    else
      var byEvent := EventNext(node.transitions, name);
      if byEvent.Some? then byEvent
      else if !node.ntype.Condition? && !IsWaitingNode(node) && FirstNext(node.transitions) != "" then
        Some(FirstNext(node.transitions))
      else None
  }

  /** Where a branch leaves a node by itself: Some("") stays, None fails. A node without
      a target stays even when its inputs fail. */
  function AutoRoute(cfg: Config, node: Node, view: Option<Env>): Option<string> {
    if !node.ntype.Condition? then Some(FirstNext(node.transitions))
    else if view.None? then None
    else match WhenRoute(cfg, node.transitions, view.value)
         case Broken => None
         case Goto(next) => Some(next)
  }

  predicate ForkDeclared(node: Node) {
    node.transitions != [] && forall i | 0 <= i < |node.transitions| :: node.transitions[i].next != ""
  }

  // -------------------------------------------------------- bounded inference

  datatype AiResult = AiResult(
    choice: string, output: map<string, Value>, error: string, requestId: string,
    model: string, modelVersion: string, promptVersion: string)

  function TextField(payload: map<string, Value>, name: string): string {
    if name in payload && payload[name].Text? then payload[name].s else ""
  }

  function ParseAiResult(payload: map<string, Value>): AiResult {
    AiResult(
      TextField(payload, "choice"),
      if "output" in payload && payload["output"].Object? then payload["output"].fields else map[],
      TextField(payload, "error"),
      TextField(payload, "request_id"),
      TextField(payload, "model"),
      TextField(payload, "model_version"),
      TextField(payload, "prompt_version"))
  }

  function AiEventName(node: Node): string {
    if node.ai.Some? && node.ai.value.event != "" then node.ai.value.event else "ai_result"
  }

  function AiKind(node: Node): string {
    if node.ai.Some? && node.ai.value.kind != "" then node.ai.value.kind else "ai_infer"
  }

  function AiTarget(node: Node): string {
    if node.ai.Some? && node.ai.value.target != "" then node.ai.value.target else "llm"
  }

  predicate OutputGiven(ai: AiConfig, result: AiResult, name: string) {
    && name in ai.outputTypes
    && name in result.output
    && Assignable(ai.outputTypes[name], result.output[name])
  }

  /** The inference failed, broke its output schema or chose outside its candidates. */
  predicate AiViolates(node: Node, result: AiResult)
    requires node.ai.Some?
  {
    var ai := node.ai.value;
    || result.error != ""
    || (exists name <- ai.outputTypes :: !OutputGiven(ai, result, name))
    || (ai.choose != [] &&
        (result.choice == "" || result.choice !in ai.choose || CaseNext(node.transitions, result.choice).None?))
  }

  /** Where an inference result leads, given the variables after its outputs are
      written; None when the node fails. */
  function AiRoute(cfg: Config, node: Node, result: AiResult, vars: Env): Option<string>
    requires node.ai.Some?
  {
    var ai := node.ai.value;
    if AiViolates(node, result) then
      if ai.onError != "" && ai.onError in cfg.def.nodes then Some(ai.onError) else None
    else if ai.choose != [] then
      CaseNext(node.transitions, result.choice)
    else
      match WhenRoute(cfg, node.transitions, vars)
      case Broken => None
      case Goto(next) => if next == "" then None else Some(next)
  }

  /** Whether a parked node has a route for the event. */
  predicate NodeAccepts(node: Node, name: string) {
    if node.ntype.Ai? then name == AiEventName(node)
    else if node.ntype.Timer? then false
    else exists k | 0 <= k < |node.transitions| :: node.transitions[k].event == name || node.transitions[k].when != ""
  }

  // ------------------------------------------------------- steps that are decided

  function EventName(ev: Option<Event>): string {
    if ev.Some? then ev.value.name else ""
  }

  /** The variables after an inference result is taken over: its outputs when it keeps to the
      schema and the candidates. */
  function AiAfter(node: Node, result: AiResult, vars: Env): Env
    requires node.ai.Some?
  {
    if AiViolates(node, result) then vars
    else vars + map name | name in node.ai.value.outputTypes && name in result.output :: result.output[name]
  }

  /** Where a linear step leaves a node visited with `vars`, driven by `e`; None where it does
      not: fork and end nodes, failing inputs, no route, an event that is not the callback. */
  function NextOf(cfg: Config, node: Node, vars: Env, e: Option<Event>): Option<string> {
    match node.ntype
    case End => None
    case Parallel => None
    case Ai =>
      if e.None? || e.value.name != AiEventName(node) || node.ai.None? then None
      else
        var result := ParseAiResult(e.value.payload);
        AiRoute(cfg, node, result, AiAfter(node, result, vars))
    case _ =>
      match EnterEnv(cfg, node, vars)
      case None => None
      case Some(view) => StepRoute(cfg, node, EventName(e), view)
  }

  /** The variables after the outputs were written in this order; None when one of them fails
      to evaluate or has the wrong type when its turn comes. */
  function Written(cfg: Config, node: Node, entered: Env, vars: Env, order: seq<string>): Option<Env>
    decreases |order|
  {
    if order == [] then Some(vars)
    else if order[0] !in node.output || OutputBlocked(cfg, node, entered, vars, order[0]) then None
    else
      var v := cfg.eval(node.output[order[0]], LeaveEnv(node, entered, vars)).value;
      Written(cfg, node, entered, vars[order[0] := v], order[1..])
  }

  /** An order of the node's outputs: each of them once. */
  ghost predicate Order(node: Node, order: seq<string>) {
    && |order| == |node.output|
    && (forall name <- order :: name in node.output)
    && forall name <- node.output :: name in order
  }

  /** The outputs can be written, whatever their order. */
  ghost predicate AlwaysWrites(cfg: Config, node: Node, entered: Env, vars: Env) {
    forall order: seq<string> :: Order(node, order) ==> Written(cfg, node, entered, vars, order).Some?
  }

  /** They cannot, in no order. */
  ghost predicate NeverWrites(cfg: Config, node: Node, entered: Env, vars: Env) {
    forall order: seq<string> :: Order(node, order) ==> Written(cfg, node, entered, vars, order).None?
  }

  /** Nodes a linear step leaves along a route. */
  predicate Selecting(node: Node) {
    node.ntype !in {End, Parallel}
  }

  /** The step leads on: it has a target, and its outputs can be written in every order. The
      outputs of an inference are part of its route. */
  ghost predicate MustMove(cfg: Config, node: Node, vars: Env, e: Option<Event>) {
    && NextOf(cfg, node, vars, e).Some?
    && (!node.ntype.Ai? ==> AlwaysWrites(cfg, node, EnterEnv(cfg, node, vars).value, vars))
  }

  /** The step fails: it has no target, or its outputs can be written in no order. */
  ghost predicate MustFail(cfg: Config, node: Node, vars: Env, e: Option<Event>) {
    && Selecting(node)
    && (|| NextOf(cfg, node, vars, e).None?
        || (!node.ntype.Ai? && NeverWrites(cfg, node, EnterEnv(cfg, node, vars).value, vars)))
  }
}
