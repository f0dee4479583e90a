/** Triggers, event tasks and the rule for holding components exclusively
    (eventhandling/Trigger.h, EventTask.h, EventHandler.cc). */
module EventTypes {

  datatype Option<T> = None | Some(value: T)

  /** A trigger object; `id` is its identity.  Components (OSCs) are numbered. */
  datatype Trigger = Trigger(id: nat, osc: nat, deps: seq<nat>, priority: nat, affinity: nat)

  datatype EventType = Software | Interrupt | Oneshot | Periodic | DummyCall

  /** One activation: task object `id` set up for `trigger`.  `serial` numbers activations in the
      order in which they were set up; the source has no such field. */
  datatype EventTask = EventTask(id: nat, trigger: Trigger, kind: EventType, arg: nat, serial: nat)

  /** The components a trigger needs for itself while it runs. */
  function Components(tr: Trigger): set<nat> {
    {tr.osc} + set d | d in tr.deps
  }

  ghost predicate Disjoint(a: Trigger, b: Trigger)
  {
    Components(a) !! Components(b)
  }

  /** No task in the active table uses a component of the trigger. */
  ghost predicate CanLock(active: seq<Option<EventTask>>, tr: Trigger)
  {
    forall c :: 0 <= c < |active| && active[c].Some? ==> Disjoint(tr, active[c].value.trigger)
  }
}
