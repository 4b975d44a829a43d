/** The incremental projection of recorded events to a conversation state. */
module HistoryProjection {
  /** Applying the first events one by one; `apply` stands for the event projection. */
  function Fold<State, Event>(apply: (State, Event) -> State, initial: State, events: seq<Event>): State {
    if events == [] then initial
    else apply(Fold(apply, initial, events[..|events| - 1]), events[|events| - 1])
  }

  class ConversationHistoryProjection<State, Event> {
    const apply: (State, Event) -> State
    const initial: State
    var state: State
    var count: nat
    ghost var applied: seq<Event>

    constructor (apply: (State, Event) -> State, initial: State)
      ensures Valid() && count == 0 && this.apply == apply && this.initial == initial
    {
      this.apply, this.initial, state, count := apply, initial, initial, 0;
      applied := [];
    }

    ghost predicate Valid()
      reads this
    {
      count == |applied| && state == Fold(apply, initial, applied)
    }

    /** One stretch of `project`: it stops when the events are used up or its time is. Whoever
        else projects meanwhile, and however often, no event is applied twice or left out. */
    method Project(events: seq<Event>, turns: nat)
      requires Valid() && applied <= events
      modifies this`state, this`count, this`applied
      ensures Valid() && applied <= events && old(applied) <= applied
      ensures count == if |events| - old(count) <= turns then |events| else old(count) + turns
    {
      var left := turns;
      while count < |events| && left > 0
        invariant Valid() && applied <= events && old(applied) <= applied
        invariant count + left == old(count) + turns
      {
        assert (applied + [events[count]])[..count] == applied;
        applied := applied + [events[count]];
        state := apply(state, events[count]);
        count := count + 1;
        left := left - 1;
      }
    }

    /** The state is that of the whole list exactly when as many events were applied. */
    lemma UpToDate(events: seq<Event>)
      requires Valid() && applied <= events && count >= |events|
      ensures state == Fold(apply, initial, events)
    {
      assert applied == events;
    }
  }
}
