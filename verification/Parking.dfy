/**
 Parking at a waiting node (dsl/temporal.go, dsl/runtime.go, dsl/ai.go): registering
 the waiting slot and, at inference nodes, sending the inference request.
 */
module Parking {
  import opened Definition
  import opened Journal
  import opened Protocol
  import opened Runs
  import opened Frames
  import opened Context
  import opened Effects

  /** parseDurationStrict: only positive durations count. */
  function Strict(d: Option<int>): Option<int> {
    if d.Some? && d.value > 0 then d else None
  }

  /** Whether a node registers a slot when parked: a timer with a duration, an inference,
      any other waiting node with a deadline. */
  predicate NeedsSlot(node: Node)
    requires IsWaitingNode(node)
  {
    if node.ntype.Timer? then Strict(node.duration).Some?
    else if node.deadline.None? then node.ntype.Ai?
    else Strict(node.deadline.value.after).Some?
  }

  /** The slot a node registers when parked at time `now`, if any. */
  function SlotFor(node: Node, now: int, visit: nat): (w: Option<WaitingState>)
    requires IsWaitingNode(node)
    ensures w.Some? <==> NeedsSlot(node)
    ensures w.Some? ==> ParkedAt(node, w.value) && w.value.node == node.id
    ensures w.Some? ==> w.value.visit == visit && w.value.request.None?
    ensures w.Some? && w.value.until.Some? ==> w.value.until.value > now
  {
    if node.ntype.Timer? then
      var d := Strict(node.duration);
      if d.None? then None else Some(WaitingState(TimerWait, node.id, Some(now + d.value), visit, "", None))
    else if node.deadline.None? then
      if node.ntype.Ai? then Some(WaitingState(AiWait, node.id, None, visit, "", None)) else None
    else
      var d := Strict(node.deadline.value.after);
      var kind := if node.ntype.Ai? then AiWait else DeadlineWait;
      if d.None? then None
      else Some(WaitingState(kind, node.id, Some(now + d.value), visit, node.deadline.value.next, None))
  }

  lemma SlotTimed(def: ProcessDef, slot: Slot, node: Node, now: int, visit: nat)
    requires IsWaitingNode(node) && !slot.ScopeSlot? && SlotFor(node, now, visit).Some?
    ensures SlotFor(node, now, visit).value.until == DueTime(def, slot, node, now)
  {
  }

  /** Only a positive duration counts; an inference parks without a deadline too. */
  predicate Parks(node: Node) {
    if node.ntype.Timer? then node.duration.Some? && node.duration.value > 0
    else if node.ntype.Ai? && node.deadline.None? then true
    else node.deadline.Some? && node.deadline.value.after.Some? && node.deadline.value.after.value > 0
  }

  /** What a freshly parked slot says, by the type of its node: the due time is the present and
      the declared duration. */
  ghost predicate FreshSlot(node: Node, now: int, visit: nat, w: WaitingState) {
    && w.node == node.id && w.visit == visit && w.request.None?
    && match node.ntype
       case Timer =>
         node.duration.Some? && w == WaitingState(TimerWait, node.id, Some(now + node.duration.value), visit, "", None)
       case Ai =>
         && w.kind == AiWait
         && (node.deadline.None? ==> w.until.None? && w.next == "")
         && (node.deadline.Some? ==>
               node.deadline.value.after.Some? && w.until == Some(now + node.deadline.value.after.value) && w.next == node.deadline.value.next)
       case _ =>
         && w.kind == DeadlineWait && node.deadline.Some? && node.deadline.value.after.Some?
         && w.until == Some(now + node.deadline.value.after.value) && w.next == node.deadline.value.next
  }

  lemma FreshSlotMade(node: Node, now: int, visit: nat)
    requires IsWaitingNode(node)
    ensures SlotFor(node, now, visit).Some? <==> Parks(node)
    ensures SlotFor(node, now, visit).Some? ==> FreshSlot(node, now, visit, SlotFor(node, now, visit).value)
  {
  }

  /** The place that may park: the instance itself outside forks, or a branch of the
      open fork standing at the node. */
  ghost predicate MayPark(cfg: Config, st: State, slot: Slot, node: Node) {
    && node.id in cfg.def.nodes && cfg.def.nodes[node.id] == node && IsWaitingNode(node)
    && match slot
       case Instance => st.scopes == [] && st.node == node.id
       case BranchSlot(b) =>
         |st.scopes| == 1 && b in st.scopes[0].branches && st.scopes[0].branches[b].currentNode == node.id
       case ScopeSlot(_) => false
  }

  /** parkWaiting: a slot already standing for this node keeps its due time. */
  method ParkWaiting(ctx: ExecutionContext, slot: Slot, node: Node)
    requires ctx.Tracked() && Ready(ctx.audit) && MayPark(ctx.cfg, ctx.audit.st, slot, node)
    modifies ctx
    ensures ctx.Tracked() && OnlyParking(old(ctx.audit), ctx.audit, slot) && old(ctx.log) <= ctx.log
    ensures SameBook(old(ctx.audit), ctx.audit) && SameStep(old(ctx.audit), ctx.audit)
    ensures ctx.processedEvents == old(ctx.processedEvents) && ctx.clock >= old(ctx.clock)
    ensures ctx.visitCounts == old(ctx.visitCounts) && ctx.status == old(ctx.status)
    ensures if old(slot in ctx.waitings && ctx.waitings[slot].node == node.id) then ctx.waitings == old(ctx.waitings)
      else
        var w := SlotFor(node, ctx.clock, VisitsOf(old(ctx.visitCounts), node.id));
        ctx.waitings == if w.None? then old(ctx.waitings) else old(ctx.waitings)[slot := w.value]
    ensures !old(slot in ctx.waitings && ctx.waitings[slot].node == node.id) ==>
      if Parks(node) then
        && slot in ctx.waitings && FreshSlot(node, ctx.clock, VisitsOf(old(ctx.visitCounts), node.id), ctx.waitings[slot])
        && ctx.waitings == old(ctx.waitings)[slot := ctx.waitings[slot]]
      else ctx.waitings == old(ctx.waitings)
    ensures LaterSlots(old(ctx.waitings), ctx.waitings, old(ctx.clock))
  {
    hide Reach, Legal, Advance, Apply, SlotFor, NeedsSlot, Strict, ParkedAt, Parks, FreshSlot, DueTime;
    if slot in ctx.waitings && ctx.waitings[slot].node == node.id {
      return;
    }
    var now := ctx.Now();
    var w := SlotFor(node, now, ctx.VisitOf(node.id));
    FreshSlotMade(node, now, ctx.VisitOf(node.id));
    if w.Some? {
      SlotTimed(ctx.cfg.def, slot, node, now, ctx.VisitOf(node.id));
      ctx.SetWaiting(slot, w.value);
    }
  }

  /** The id of the inference request the node sends from this slot now. */
  function RequestNow(ctx: ExecutionContext, node: Node, slot: Slot): CommandId
    reads ctx
  {
    RequestId(ctx.executionID, node.id, ctx.VisitOf(node.id), slot)
  }

  /** emitAIRequest: the request id goes into the slot, the request to the executor. */
  method EmitAiRequest(ctx: ExecutionContext, node: Node, slot: Slot) returns (ok: bool)
    requires ctx.Tracked() && Ready(ctx.audit) && MayPark(ctx.cfg, ctx.audit.st, slot, node) && node.ntype.Ai?
    requires RequestNow(ctx, node, slot) !in ctx.audit.issued
    requires ctx.audit.moment.Visited? && ctx.audit.moment.node == node.id && !InMotion(ctx.audit)
    modifies ctx
    ensures ctx.Tracked() && OnlyParking(old(ctx.audit), ctx.audit, slot) && old(ctx.log) <= ctx.log
    ensures ctx.processedEvents == old(ctx.processedEvents) && ctx.clock == old(ctx.clock)
    ensures ok <==> ctx.cfg.requestPayload(node, old(ctx.variables), old(RequestNow(ctx, node, slot))).Some?
    ensures !ok ==> ctx.status == Failed && ctx.results == old(ctx.results) && ctx.waitings == old(ctx.waitings)
    ensures ok ==> ctx.status == old(ctx.status)
    ensures ok ==> old(RequestNow(ctx, node, slot)) in ctx.audit.issued.Keys * ctx.audit.resolved
    ensures ok && slot in old(ctx.waitings) ==>
      ctx.waitings == old(ctx.waitings)[slot := old(ctx.waitings)[slot].(request := Some(old(RequestNow(ctx, node, slot))))]
    ensures slot !in old(ctx.waitings) ==> ctx.waitings == old(ctx.waitings)
    ensures LaterSlots(old(ctx.waitings), ctx.waitings, old(ctx.clock))
  {
    hide Reach, Legal, Advance, Apply;
    var id := RequestNow(ctx, node, slot);
    var raw := ctx.cfg.requestPayload(node, ctx.variables, id);
    if raw.None? {
      assert RequestFails(ctx.cfg, ctx.audit, node);
      ctx.SetStatus(Failed);
      return false;
    }
    NoteRequest(ctx, node, slot, id);
    SendRequest(ctx, node, slot, raw.value);
    ok := true;
  }

  method SendRequest(ctx: ExecutionContext, node: Node, slot: Slot, payload: string)
    requires ctx.Tracked() && Ready(ctx.audit) && MayPark(ctx.cfg, ctx.audit.st, slot, node) && node.ntype.Ai?
    requires RequestNow(ctx, node, slot) !in ctx.audit.issued
    requires ctx.cfg.requestPayload(node, ctx.variables, RequestNow(ctx, node, slot)) == Some(payload)
    modifies ctx
    ensures ctx.Tracked() && OnlyParking(old(ctx.audit), ctx.audit, slot) && old(ctx.log) <= ctx.log
    ensures ctx.processedEvents == old(ctx.processedEvents) && ctx.clock == old(ctx.clock)
    ensures ctx.status == old(ctx.status) && ctx.waitings == old(ctx.waitings)
    ensures old(RequestNow(ctx, node, slot)) in ctx.audit.issued.Keys * ctx.audit.resolved
  {
    hide Reach, Legal, Advance, Apply;
    ctx.IssuedUnresolved();
    var cmd := Command(RequestNow(ctx, node, slot), node.id, AiKind(node), AiTarget(node), payload, false, None);
    var r := Deliver(ctx, cmd);
  }

  method NoteRequest(ctx: ExecutionContext, node: Node, slot: Slot, id: CommandId)
    requires ctx.Tracked() && Ready(ctx.audit) && MayPark(ctx.cfg, ctx.audit.st, slot, node)
    modifies ctx
    ensures ctx.Tracked() && OnlyParking(old(ctx.audit), ctx.audit, slot) && old(ctx.log) <= ctx.log
    ensures SameBook(old(ctx.audit), ctx.audit) && SameStep(old(ctx.audit), ctx.audit)
    ensures ctx.processedEvents == old(ctx.processedEvents) && ctx.clock == old(ctx.clock)
    ensures ctx.visitCounts == old(ctx.visitCounts) && ctx.status == old(ctx.status)
    ensures ctx.waitings ==
      if slot in old(ctx.waitings) then old(ctx.waitings)[slot := old(ctx.waitings)[slot].(request := Some(id))]
      else old(ctx.waitings)
    ensures LaterSlots(old(ctx.waitings), ctx.waitings, old(ctx.clock))
  {
    hide Reach, Legal, Advance, Apply;
    if slot in ctx.waitings {
      var w := ctx.waitings[slot].(request := Some(id));
      ctx.SetWaiting(slot, w);
    }
  }
}
