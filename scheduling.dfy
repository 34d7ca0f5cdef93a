/** The delayed-call queue that covid_data_handler.py builds with `sched.scheduler`, seen only
    through what the module uses: `enter`, `cancel`, and the run loop taking a due event off the
    queue before calling its action. Its time ordering is not modelled: the queue is a set. */
module Scheduling {
  import opened Outcomes

  /** The keyword arguments stored with a queued call to `update_data`. The name is optional
      because the re-arming call stores none. */
  datatype TaskArgs = TaskArgs(updateName: Option<string>, repeat: string, updatingCovid: string, updatingNews: string)

  /** A queued call, the handle `enter` returns. `sequence` is the queue's insertion counter,
      which keeps every handle distinct. */
  datatype Event = Event(sequence: nat, delay: int, priority: int, kwargs: TaskArgs)

  class EventQueue {
    var pending: set<Event>
    var counter: nat

    /** Every queued event was numbered before the counter's current value. */
    ghost predicate Valid()
      reads this
    {
      forall e :: e in pending ==> e.sequence < counter
    }

    constructor ()
      ensures Valid() && pending == {} && counter == 0
    {
      pending := {};
      counter := 0;
    }

    /** `enter(delay, priority, action, kwargs=...)`: queue a fresh event and return it. A negative
        delay is accepted; it stands for a time already past. */
    method Enter(delay: int, priority: int, kwargs: TaskArgs) returns (e: Event)
      requires Valid()
      modifies this
      ensures Valid()
      ensures e == Event(old(counter), delay, priority, kwargs)
      ensures e !in old(pending) && pending == old(pending) + {e}
      ensures counter == old(counter) + 1
    {
      e := Event(counter, delay, priority, kwargs);
      pending := pending + {e};
      counter := counter + 1;
    }

    /** `cancel(event)`: dequeue the event; an event no longer queued raises ValueError. */
    method Cancel(e: Event) returns (r: Result<()>)
      requires Valid()
      modifies this
      ensures Valid()
      ensures pending == old(pending) - {e} && counter == old(counter)
      ensures r == if e in old(pending) then Ok(()) else Raised(ValueError)
    {
      if e in pending {
        pending := pending - {e};
        r := Ok(());
      } else {
        r := Raised(ValueError);
      }
    }

    /** The run loop takes a due event off the queue before it calls the event's action. */
    method Pop(e: Event)
      requires Valid() && e in pending
      modifies this
      ensures Valid()
      ensures pending == old(pending) - {e} && counter == old(counter)
    {
      pending := pending - {e};
    }
  }
}
