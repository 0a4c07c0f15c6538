/**
 CSharedQueue and CSharedQueueEvent (ECSUtil/CSharedQueue.h, ECSUtil/CSharedQueue.cpp) as objects
 that know each other: a queue keeps the events it triggers, an event the queues it is linked to.
 Each method is one critical section; what happens between them is the subject of WakeUp.dfy.
 */
module SharedQueue {

  datatype Trigger = Push | InsertAt | ReplaceAt | Delete | Empty | ChangeType | Serialize | Add | ChangeKey | Insert | Pop

  const AllTriggers: set<Trigger> :=
    {Push, InsertAt, ReplaceAt, Delete, Empty, ChangeType, Serialize, Add, ChangeKey, Insert, Pop}

  /** Both sides of every link agree. */
  ghost predicate Symmetric(queues: set<SharedQueue>, events: set<QueueEvent>)
    reads queues, events
  {
    && (forall q :: q in queues ==> q.events <= events)
    && (forall e :: e in events ==> e.queues <= queues)
    && (forall q, e :: q in queues && e in events ==> (e in q.events <==> q in e.queues))
  }

  class QueueEvent {
    var signaled: bool
    var count: nat
    var allEvents: bool
    var enabled: bool
    var flags: set<Trigger>
    var queues: set<SharedQueue>

    constructor ()
      ensures !signaled && count == 0 && !allEvents && !enabled && flags == AllTriggers && queues == {}
    {
      signaled, count, allEvents, enabled, flags, queues := false, 0, false, false, AllTriggers, {};
    }

    /** Whether a trigger on a queue of this length sets the event. */
    predicate Fires(length: nat, t: Trigger)
      reads this
    {
      t in flags && enabled && (allEvents || length <= count)
    }

    /** What a trigger does to the event, which was set before or not. */
    predicate Reacted(before: bool, length: nat, t: Trigger)
      reads this
    {
      && (enabled && t in flags && allEvents ==> signaled)
      && (enabled && t in flags && !allEvents ==> (signaled <==> before || length <= count))
      && (!enabled || t !in flags ==> signaled == before)
    }

    method DisableAllTriggerEvents()
      modifies `flags
      ensures flags == {}
    {
      flags := {};
    }

    method EnableTriggerEvents(more: set<Trigger>)
      modifies `flags
      ensures flags == old(flags) + more
    {
      flags := flags + more;
    }

    method SetAllEvents()
      modifies `allEvents
      ensures allEvents
    {
      allEvents := true;
    }

    method Enable(on: bool)
      modifies `enabled
      ensures enabled == on
    {
      enabled := on;
    }

    /** A wait ends because of the event, which resets itself. */
    method Wait()
      requires signaled
      modifies `signaled
      ensures !signaled
    {
      signaled := false;
    }

    method Link(q: SharedQueue, ghost all: set<SharedQueue>, ghost events: set<QueueEvent>)
      requires Symmetric(all, events) && q in all && this in events
      modifies this`queues, q`events
      ensures Symmetric(all, events)
      ensures queues == old(queues) + {q} && q.events == old(q.events) + {this}
    {
      q.events := q.events + {this};
      queues := queues + {q};
    }

    method UnlinkFrom(q: SharedQueue, ghost all: set<SharedQueue>, ghost events: set<QueueEvent>)
      requires Symmetric(all, events) && q in all && this in events
      modifies this`queues, q`events
      ensures Symmetric(all, events)
      ensures queues == old(queues) - {q} && q.events == old(q.events) - {this}
    {
      q.events := q.events - {this};
      queues := queues - {q};
    }

    /** Unlink from every queue; also what the destructor does. */
    method Unlink(ghost all: set<SharedQueue>, ghost events: set<QueueEvent>)
      requires Symmetric(all, events) && this in events
      modifies this`queues, queues
      ensures Symmetric(all, events) && queues == {}
      ensures forall q :: q in all ==> q.events == old(q.events) - {this} && q.items == old(q.items)
    {
      var todo := queues;
      while todo != {}
        invariant todo <= queues == old(queues)
        invariant forall q :: q in all ==> q.items == old(q.items)
        invariant forall q :: q in all ==> q.events == if q in todo then old(q.events) else old(q.events) - {this}
        decreases |todo|
      {
        var q :| q in todo;
        q.events := q.events - {this};
        todo := todo - {q};
      }
      queues := {};
    }
  }

  class SharedQueue {
    var items: seq<nat>
    var events: set<QueueEvent>

    constructor ()
      ensures items == [] && events == {}
    {
      items, events := [], {};
    }

    method TriggerEvent(length: nat, t: Trigger)
      modifies set e | e in events :: e`signaled
      ensures forall e :: e in events ==> e.signaled == (old(e.signaled) || e.Fires(length, t))
      ensures forall e :: e in events ==> e.Reacted(old(e.signaled), length, t)
    {
      var todo := events;
      while todo != {}
        invariant todo <= events
        invariant forall e :: e in events ==>
          e.signaled == (old(e.signaled) || (e !in todo && e.Fires(length, t)))
        decreases |todo|
      {
        var e :| e in todo;
        if e.Fires(length, t) {
          e.signaled := true;
        }
        todo := todo - {e};
      }
    }

    /** The events fire, with the length before the insertion, and then the element goes in. */
    method PushBack(x: nat)
      modifies `items, set e | e in events :: e`signaled
      ensures items == old(items) + [x]
      ensures forall e :: e in events ==> e.signaled == (old(e.signaled) || e.Fires(|old(items)|, Push))
      ensures forall e :: e in events ==> e.Reacted(old(e.signaled), |old(items)|, Push)
    {
      TriggerEvent(|items|, Push);
      items := items + [x];
    }

    method PushFront(x: nat)
      modifies `items, set e | e in events :: e`signaled
      ensures items == [x] + old(items)
      ensures forall e :: e in events ==> e.signaled == (old(e.signaled) || e.Fires(|old(items)|, Push))
      ensures forall e :: e in events ==> e.Reacted(old(e.signaled), |old(items)|, Push)
    {
      TriggerEvent(|items|, Push);
      items := [x] + items;
    }

    method PopFront()
      requires items != []
      modifies `items, set e | e in events :: e`signaled
      ensures items == old(items)[1..]
      ensures forall e :: e in events ==> e.signaled == (old(e.signaled) || e.Fires(|old(items)|, Pop))
      ensures forall e :: e in events ==> e.Reacted(old(e.signaled), |old(items)|, Pop)
    {
      TriggerEvent(|items|, Pop);
      items := items[1..];
    }

    method PopBack()
      requires items != []
      modifies `items, set e | e in events :: e`signaled
      ensures items == old(items)[..|old(items)| - 1]
      ensures forall e :: e in events ==> e.signaled == (old(e.signaled) || e.Fires(|old(items)|, Pop))
      ensures forall e :: e in events ==> e.Reacted(old(e.signaled), |old(items)|, Pop)
    {
      TriggerEvent(|items|, Pop);
      items := items[..|items| - 1];
    }

    /** Here the events see the length after the change. */
    method Clear()
      modifies `items, set e | e in events :: e`signaled
      ensures items == []
      ensures forall e :: e in events ==> e.signaled == (old(e.signaled) || e.Fires(0, Empty))
      ensures forall e :: e in events ==> e.Reacted(old(e.signaled), 0, Empty)
    {
      items := [];
      TriggerEvent(|items|, Empty);
    }
  }
}
