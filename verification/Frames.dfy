/** What a group of records leaves alone: relations between two observers. */
module Frames {
  import opened Definition
  import opened Journal
  import opened Protocol

  /** Commands issued whose result is not logged yet. */
  function Open(a: Audit): set<CommandId> {
    a.issued.Keys - a.resolved
  }

  /** No undo entry is owed: always so between two steps of the engine. */
  ghost predicate Ready(a: Audit) {
    a.owed.None?
  }

  /** No command, result or undo entry was recorded. */
  ghost predicate SameBook(a: Audit, b: Audit) {
    && b.issued == a.issued && b.resolved == a.resolved && b.inverses == a.inverses
    && b.scars == a.scars && b.owed == a.owed == None
    && b.st.results == a.st.results && b.st.undo == a.st.undo
  }

  /** The context of a step: what the engine is doing and for which event. */
  ghost predicate SameStep(a: Audit, b: Audit) {
    SameCourse(a, b) && b.moves == a.moves && b.landing == a.landing
  }

  ghost predicate SameCourse(a: Audit, b: Audit) {
    b.event == a.event && b.moment == a.moment && b.popped == a.popped && b.waking == a.waking && b.steps == a.steps
  }

  /** Variables were written, nothing else changed. */
  ghost predicate OnlyVariables(a: Audit, b: Audit) {
    && SameBook(a, b) && SameStep(a, b)
    && b.st == a.st.(vars := b.st.vars)
  }

  lemma VariablesRefl(a: Audit)
    requires Ready(a)
    ensures OnlyVariables(a, a)
  {
  }

  lemma VariablesTrans(a: Audit, b: Audit, c: Audit)
    requires OnlyVariables(a, b) && OnlyVariables(b, c)
    ensures OnlyVariables(a, c)
  {
  }

  lemma VariablesStatus(a: Audit, b: Audit)
    requires OnlyVariables(a, b)
    ensures b.st.status == a.st.status && Ready(b)
  {
  }

  /** Commands were issued and answered, nothing else changed. */
  ghost predicate OnlyCommands(a: Audit, b: Audit) {
    && SameStep(a, b)
    && b.st == a.st.(results := b.st.results, undo := b.st.undo)
    && a.issued.Keys <= b.issued.Keys && Open(b) == Open(a)
    && b.scars == a.scars && b.owed == a.owed == None && a.st.results <= b.st.results
  }

  ghost predicate VisitsGrow(v: map<string, nat>, w: map<string, nat>) {
    forall n: string :: VisitsOf(v, n) <= VisitsOf(w, n)
  }

  /** What every step of the engine keeps: the instance's identity, growing visit
      counts and command books, no open command, no lost inverse. */
  ghost predicate Kept(a: Audit, b: Audit) {
    && b.st.executionID == a.st.executionID && b.st.instanceID == a.st.instanceID
    && VisitsGrow(a.st.visits, b.st.visits)
    && a.issued.Keys <= b.issued.Keys && Open(b) == Open(a)
    && b.scars == a.scars && b.owed == a.owed == None && a.st.results <= b.st.results
  }

  /** Only the given waiting slot, the visit counts and the command results changed;
      the status at most became Failed. */
  ghost predicate OnlyParking(a: Audit, b: Audit, slot: Slot) {
    && Kept(a, b) && b.event == a.event && b.waking == a.waking && b.landing == a.landing
    && b.st == a.st.(status := b.st.status, waitings := b.st.waitings, results := b.st.results, visits := b.st.visits)
    && (b.st.status == a.st.status || b.st.status == Failed)
    && b.st.waitings - {slot} == a.st.waitings - {slot}
  }

  /** Slots registered on the way from `v` to `w` come due only after time `t`. */
  ghost predicate LaterSlots(v: map<Slot, WaitingState>, w: map<Slot, WaitingState>, t: int) {
    forall slot <- w :: w[slot].until.None? || w[slot].until.value > t ||
      (slot in v && v[slot].until == w[slot].until && v[slot].kind == w[slot].kind && v[slot].visit == w[slot].visit)
  }

  lemma LaterSlotsRefl(v: map<Slot, WaitingState>, t: int)
    ensures LaterSlots(v, v, t)
  {
  }

  lemma LaterSlotsTrans(u: map<Slot, WaitingState>, v: map<Slot, WaitingState>, w: map<Slot, WaitingState>, s: int, t: int)
    requires LaterSlots(u, v, s) && LaterSlots(v, w, t) && s <= t
    ensures LaterSlots(u, w, s)
  {
  }

  lemma LaterSlotsSooner(v: map<Slot, WaitingState>, w: map<Slot, WaitingState>, s: int, t: int)
    requires LaterSlots(v, w, t) && s <= t
    ensures LaterSlots(v, w, s)
  {
  }
}
