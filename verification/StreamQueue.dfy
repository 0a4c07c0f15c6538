/**
 The stream queue of a request with the event of its sender, as SendRequestInternal sets them up
 (ECSUtil/ECSConnection.cpp): the objects of SharedQueue take the steps of WakeUp, so no wake-up is
 lost in the code that sets the events.
 */
module StreamQueue {
  import SharedQueue
  import opened WakeUp

  /** The event of the sender: it hears every push once it is set up. */
  class Stream {
    const producers: nat
    const bound: nat
    const queue: SharedQueue.SharedQueue
    const event: SharedQueue.QueueEvent
    ghost var s: State
    ghost var history: seq<Step>

    constructor (producers: nat, bound: nat)
      ensures Valid() && fresh(queue) && fresh(event) && s == Start(producers, bound)
    {
      this.producers, this.bound := producers, bound;
      queue := new SharedQueue.SharedQueue();
      event := new SharedQueue.QueueEvent();
      s, history := Start(producers, bound), [];
    }

    /** The sender's event is linked, enabled for every length, and hears pushes but no pops. */
    predicate SetUp()
      reads this, event
    {
      && event.queues == {queue} && event.enabled && event.allEvents
      && event.flags == {SharedQueue.Push, SharedQueue.InsertAt}
    }

    /** The objects are in the state that the steps so far lead to. */
    ghost predicate Valid()
      reads this, queue, event
    {
      && ValidRun(Start(producers, bound), history) && Exec(Start(producers, bound), history) == s
      && queue.items == s.items && event.signaled == s.signaled
      && if s.consumer.Unlinked? then queue.events == {} && event.queues == {} && !event.signaled
         else queue.events == {event} && SetUp()
    }

    ghost method Record(step: Step)
      requires ValidRun(Start(producers, bound), history) && Exec(Start(producers, bound), history) == s && Enabled(s, step)
      modifies `s, `history
      ensures ValidRun(Start(producers, bound), history) && Exec(Start(producers, bound), history) == s
      ensures s == Apply(old(s), step) && history == old(history) + [step]
    {
      OneMore(Start(producers, bound), history, step);
      s, history := Apply(s, step), history + [step];
    }

    /** The sender links its event and sets it up. */
    method Attach()
      requires Valid() && Enabled(s, Link)
      modifies this, queue, event
      ensures Valid() && s == Apply(old(s), Link)
    {
      event.Link(queue, {queue}, {event});
      event.DisableAllTriggerEvents();
      event.EnableTriggerEvents({SharedQueue.Push, SharedQueue.InsertAt});
      event.SetAllEvents();
      event.Enable(true);
      Record(Link);
    }

    /** A producer that has the write lock: the event fires, then the element goes in. */
    method PushBack(ghost i: nat, x: nat)
      requires Valid() && Enabled(s, Fire(i)) && s.producers[i] == Locked(x)
      modifies this, queue, event
      ensures Valid() && Enabled(Apply(old(s), Fire(i)), Insert(i)) && s == Apply(Apply(old(s), Fire(i)), Insert(i))
      ensures !s.consumer.Unlinked? ==> event.signaled
    {
      hide ValidRun, Exec;
      queue.PushBack(x);
      Record(Fire(i));
      Record(Insert(i));
    }

    /** The test for an empty queue, under the read lock. */
    method IsEmpty() returns (empty: bool)
      requires Valid() && Enabled(s, Test)
      modifies `s, `history
      ensures Valid() && s == Apply(old(s), Test)
      ensures empty <==> s.consumer.Parked?
    {
      hide ValidRun, Exec;
      empty := queue.items == [];
      Record(Test);
    }

    /** The wait ends because of the event. */
    method WakeBySignal()
      requires Valid() && Enabled(s, Signal)
      modifies this, event
      ensures Valid() && s == Apply(old(s), Signal)
    {
      hide ValidRun, Exec;
      event.Wait();
      Record(Signal);
    }

    /** The front element goes out; the sender's own event does not hear it. */
    method PopFront(last: bool)
      requires Valid() && Enabled(s, Pop(last))
      modifies this, queue, event
      ensures Valid() && s == Apply(old(s), Pop(last)) && event.signaled == old(event.signaled)
    {
      hide ValidRun, Exec;
      queue.PopFront();
      Record(Pop(last));
    }

    /** What touches neither the elements nor the event: calls, locks, polls, timeouts. */
    ghost method Pass(step: Step)
      requires Valid() && Enabled(s, step)
      requires step.Push? || step.Count? || step.Abort? || step.Acquire? || step.Timeout? || step.GiveUp? || step.Begin?
      modifies `s, `history
      ensures Valid() && s == Apply(old(s), step)
    {
      hide ValidRun, Exec;
      Record(step);
    }

    /** No wake-up is lost: while the sender is parked and the queue is not empty its event is set. */
    lemma ParkedIsWoken()
      requires Valid() && s.consumer.Parked? && queue.items != []
      ensures event.signaled && Enabled(s, Signal)
    {
      NoLostWakeUp(producers, bound, history);
    }
  }
}
