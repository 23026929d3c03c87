/** The bounded event queue towards the user interface: when events were dropped, the next
    one that gets through tells the interface to reload everything. */
module Events {
  import opened Basics

  const EVENT_QUEUE_CAPACITY: nat := 1024

  /** `Invalidated` is `AppSnapshotInvalidated`; `Other` is any other event. */
  datatype CoreEvent = Invalidated | Ready | Other(kind: nat, entity: Option<string>)

  /** What became of one event offered to the queue. */
  datatype Attempt = Accepted(event: CoreEvent) | Dropped(event: CoreEvent)

  /** Some event was dropped after the last one that was accepted. */
  predicate Owed(log: seq<Attempt>) {
    log != [] && log[|log| - 1].Dropped?
  }

  /** The first event accepted after a dropped one is an invalidation. */
  ghost predicate Honest(log: seq<Attempt>) {
    forall i, j :: 0 <= i < j < |log| && log[i].Dropped? && log[j].Accepted? && (forall k :: i < k < j ==> log[k].Dropped?) ==>
      log[j].event.Invalidated?
  }

  /** The events that got through, in order. */
  function Through(log: seq<Attempt>): seq<CoreEvent> {
    if log == [] then []
    else Through(log[..|log| - 1]) + if log[|log| - 1].Accepted? then [log[|log| - 1].event] else []
  }

  /** One subscription: the queue, the dirty flag, what the consumer has taken, and the
      history of every offer. */
  datatype Channel = Channel(open: bool, queue: seq<CoreEvent>, dirty: bool, taken: seq<CoreEvent>, log: seq<Attempt>)

  /** The consumer takes up to `n` events. */
  function Consumed(c: Channel, n: nat): Channel {
    var m := Min(n, |c.queue|);
    c.(queue := c.queue[m..], taken := c.taken + c.queue[..m])
  }

  /** `try_send`: never waits. */
  function Offered(c: Channel, event: CoreEvent): Channel {
    if |c.queue| < EVENT_QUEUE_CAPACITY then c.(queue := c.queue + [event], log := c.log + [Accepted(event)])
    else c.(dirty := true, log := c.log + [Dropped(event)])
  }

  function Closed(c: Channel): Channel {
    c.(open := false)
  }

  /** `publish_event`: `first` and `second` are how much the consumer takes before each
      attempt; `ended` is the attempt that finds the consumer gone, if any. */
  function Published(c: Channel, event: CoreEvent, first: nat, second: nat, ended: Option<nat>): Channel {
    if !c.open then c
    else if event.Invalidated? || !c.dirty then
      if ended == Some(0) then Closed(Consumed(c, first)) else Offered(Consumed(c, first), event)
    else
      var clean := Consumed(c, first).(dirty := false);
      if ended == Some(0) then Closed(clean)
      else
        var warned := Offered(clean, Invalidated);
        if warned.dirty then warned.(log := warned.log + [Dropped(event)])
        else if ended == Some(1) then Closed(Consumed(warned, second))
        else Offered(Consumed(warned, second), event)
  }

  ghost predicate Good(c: Channel) {
    && |c.queue| <= EVENT_QUEUE_CAPACITY && Honest(c.log)
    && (c.open && Owed(c.log) ==> c.dirty)
    && Through(c.log) == c.taken + c.queue
  }

  const SUBSCRIBED: Channel := Channel(true, [], false, [], [])

  // ---------------------------------------------------------- one subscription

  datatype Step = Publish(event: CoreEvent, first: nat, second: nat, ended: Option<nat>) | Consume(n: nat)

  function After(c: Channel, step: Step): Channel {
    match step
    case Publish(event, first, second, ended) => Published(c, event, first, second, ended)
    case Consume(n) => Consumed(c, n)
  }

  function Run(steps: seq<Step>): Channel {
    if steps == [] then SUBSCRIBED else After(Run(steps[..|steps| - 1]), steps[|steps| - 1])
  }

  /** What the steps publish, in order. */
  function Events(steps: seq<Step>): seq<CoreEvent> {
    if steps == [] then []
    else
      var last := steps[|steps| - 1];
      Events(steps[..|steps| - 1]) + if last.Publish? then [last.event] else []
  }

  /** The consumer is there for all the steps. */
  predicate Lasting(steps: seq<Step>) {
    forall i :: 0 <= i < |steps| && steps[i].Publish? ==> steps[i].ended == None
  }

  lemma Onward(steps: seq<Step>, step: Step)
    ensures Run(steps + [step]) == After(Run(steps), step)
    ensures Events(steps + [step]) == Events(steps) + if step.Publish? then [step.event] else []
  {
    assert (steps + [step])[..|steps|] == steps;
  }

  class EventQueue {
    var open: bool
    var queue: seq<CoreEvent>
    var dirty: bool
    ghost var taken: seq<CoreEvent>
    ghost var log: seq<Attempt>

    constructor ()
      ensures State() == Closed(SUBSCRIBED)
    {
      open, queue, dirty, taken, log := false, [], false, [], [];
    }

    ghost function State(): Channel
      reads this
    {
      Channel(open, queue, dirty, taken, log)
    }

    /** The consumer thread runs for a while. */
    method Consume() returns (ghost n: nat)
      modifies this`queue, this`taken
      ensures State() == Consumed(old(State()), n)
    {
      var m: nat :| m <= |queue|;
      n := m;
      taken := taken + queue[..m];
      queue := queue[m..];
    }

    /** The queue is bounded; an event that finds it full is dropped at once. */
    method TrySend(event: CoreEvent) returns (sent: bool)
      modifies this`queue, this`log
      ensures State().(dirty := dirty || !sent) == Offered(old(State()), event)
      ensures sent <==> |old(queue)| < EVENT_QUEUE_CAPACITY
    {
      sent := |queue| < EVENT_QUEUE_CAPACITY;
      if sent { queue := queue + [event]; }
      log := log + [if sent then Accepted(event) else Dropped(event)];
    }

    /** Publishes one event. The consumer may run before each attempt, or be gone unless it is
        `alive`. */
    method PublishEvent(event: CoreEvent, alive: bool)
      returns (ghost first: nat, ghost second: nat, ghost ended: Option<nat>)
      modifies this
      ensures alive ==> ended == None
      ensures State() == Published(old(State()), event, first, second, ended)
      ensures old(Good(State())) ==> Good(State())
    {
      ghost var before := State();
      first, second, ended := Attempts(event, alive);
      if Good(before) {
        PublishedKeepsGood(before, event, first, second, ended);
      }
    }

    method Attempts(event: CoreEvent, alive: bool) returns (ghost first: nat, ghost second: nat, ghost ended: Option<nat>)
      modifies this
      ensures alive ==> ended == None
      ensures State() == Published(old(State()), event, first, second, ended)
    {
      first, second, ended := 0, 0, None;
      if !open { return; }
      first := Consume();
      ghost var c := State();
      var gone: bool := *;
      if alive { gone := false; }
      if !event.Invalidated? && dirty {
        dirty := false;
        if gone { open := false; return first, 0, Some(0); }
        var warned := TrySend(Invalidated);
        ghost var offered := Offered(c.(dirty := false), Invalidated);
        if !warned {
          dirty := true;
          assert State() == offered;
          log := log + [Dropped(event)];
          return;
        }
        assert State() == offered;
        second := Consume();
        assert State() == Consumed(offered, second);
        gone := *;
        if alive { gone := false; }
        if gone { open := false; return first, second, Some(1); }
      } else if gone {
        open := false;
        return first, second, Some(0);
      }
      var sent := TrySend(event);
      if !sent { dirty := true; }
    }

    method Disconnect()
      modifies this`open
      ensures State() == Closed(old(State()))
    {
      open := false;
    }

    /** Other publishers run for a while. */
    method PublishAll(events: seq<CoreEvent>, alive: bool) returns (ghost steps: seq<Step>)
      requires State() == SUBSCRIBED
      modifies this
      ensures Good(State()) && State() == Run(steps) && Events(steps) == events && (alive ==> Lasting(steps))
    {
      steps := [];
      var i := 0;
      while i < |events|
        invariant i <= |events| && Good(State()) && State() == Run(steps) && Events(steps) == events[..i]
        invariant alive ==> Lasting(steps)
      {
        ghost var first: nat, second: nat, ended: Option<nat>;
        first, second, ended := PublishEvent(events[i], alive);
        assert events[..i + 1] == events[..i] + [events[i]];
        Onward(steps, Publish(events[i], first, second, ended));
        steps := steps + [Publish(events[i], first, second, ended)];
        i := i + 1;
      }
    }

    /** A new subscription starts with an empty queue and a clean flag. Its `CoreReady` is
        published like any other event, after what other threads publish once the sender is
        in place. */
    method Subscribe(others: seq<CoreEvent>, alive: bool) returns (ghost steps: seq<Step>)
      modifies this
      ensures Good(State()) && State() == Run(steps) && Events(steps) == others + [Ready] && (alive ==> Lasting(steps))
    {
      Disconnect();
      dirty := false;
      open, queue, taken, log := true, [], [], [];
      steps := PublishAll(others, alive);
      ghost var first: nat, second: nat, ended: Option<nat>;
      first, second, ended := PublishEvent(Ready, alive);
      Onward(steps, Publish(Ready, first, second, ended));
      steps := steps + [Publish(Ready, first, second, ended)];
    }
  }

  lemma HonestAppend(log: seq<Attempt>, a: Attempt)
    requires Honest(log) && (a.Accepted? && Owed(log) ==> a.event.Invalidated?)
    ensures Honest(log + [a])
  {
    var more := log + [a];
    forall i, j | 0 <= i < j < |more| && more[i].Dropped? && more[j].Accepted? && (forall k :: i < k < j ==> more[k].Dropped?)
      ensures more[j].event.Invalidated?
    {
      if j < |log| {
        assert log[i].Dropped? && log[j].Accepted?;
        assert forall k :: i < k < j ==> log[k] == more[k];
      } else if i < |log| - 1 {
        assert more[|log| - 1].Dropped?;
      }
    }
  }

  lemma OfferedIsGood(c: Channel, event: CoreEvent)
    requires |c.queue| <= EVENT_QUEUE_CAPACITY && Honest(c.log) && Through(c.log) == c.taken + c.queue
    requires Owed(c.log) ==> event.Invalidated? || |c.queue| == EVENT_QUEUE_CAPACITY
    ensures Good(Offered(c, event))
    ensures !Offered(c, event).dirty ==> !Owed(Offered(c, event).log)
  {
    var a := if |c.queue| < EVENT_QUEUE_CAPACITY then Accepted(event) else Dropped(event);
    HonestAppend(c.log, a);
    assert (c.log + [a])[..|c.log|] == c.log;
    assert c.taken + c.queue + [event] == c.taken + (c.queue + [event]);
  }

  lemma DroppedIsGood(c: Channel, event: CoreEvent)
    requires Good(c) && c.dirty
    ensures Good(c.(log := c.log + [Dropped(event)]))
  {
    HonestAppend(c.log, Dropped(event));
    ThroughDropped(c.log, event);
  }

  lemma ThroughDropped(log: seq<Attempt>, event: CoreEvent)
    ensures Through(log + [Dropped(event)]) == Through(log)
  {
    assert (log + [Dropped(event)])[..|log|] == log;
  }

  lemma ConsumedIsGood(c: Channel, n: nat)
    requires Good(c)
    ensures Good(Consumed(c, n))
  {
    var m := Min(n, |c.queue|);
    assert c.taken + c.queue == (c.taken + c.queue[..m]) + c.queue[m..];
  }

  /** Whenever the consumer runs, an event published through the queue keeps it honest: the
      queue stays within its capacity, what got through is what was taken and what waits, in
      order, and the first event accepted after a dropped one is an invalidation. */
  lemma PublishedKeepsGood(c: Channel, event: CoreEvent, first: nat, second: nat, ended: Option<nat>)
    requires Good(c)
    ensures Good(Published(c, event, first, second, ended))
  {
    var now := Consumed(c, first);
    ConsumedIsGood(c, first);
    if c.open {
      if event.Invalidated? || !c.dirty {
        if ended != Some(0) { OfferedIsGood(now, event); }
      } else if ended != Some(0) {
        var clean := now.(dirty := false);
        OfferedIsGood(clean, Invalidated);
        var warned := Offered(clean, Invalidated);
        if warned.dirty {
          DroppedIsGood(warned, event);
        } else {
          ConsumedIsGood(warned, second);
          if ended != Some(1) { OfferedIsGood(Consumed(warned, second), event); }
        }
      }
    }
  }

  /** With a consumer that is there, an event is dropped only into a full queue; while nothing is
      owed, an event that finds room gets in; and after a drop, one that finds room for two gets
      in behind an invalidation, and nothing is owed any more. */
  lemma EventsGetIn(c: Channel, event: CoreEvent, first: nat, second: nat)
    requires c.open && |c.queue| <= EVENT_QUEUE_CAPACITY
    ensures var now := Published(c, event, first, second, None);
            now.open && (now.log != c.log && Owed(now.log) ==> |now.queue| == EVENT_QUEUE_CAPACITY)
    ensures var now, room := Published(c, event, first, second, None), EVENT_QUEUE_CAPACITY - |Consumed(c, first).queue|;
            && (!c.dirty && room > 0 ==> now.log == c.log + [Accepted(event)] && !now.dirty)
            && (c.dirty && event == Invalidated && room > 0 ==> now.log == c.log + [Accepted(event)])
            && (c.dirty && event != Invalidated && room > 1 ==> now.log == c.log + [Accepted(Invalidated), Accepted(event)] && !now.dirty)
  {
  }

  /** The attempt that finds the consumer gone ends the subscription, and nothing is offered to
      it any more. */
  lemma GoneIsForGood(c: Channel, event: CoreEvent, first: nat, second: nat, later: CoreEvent, ended: Option<nat>)
    requires c.open
    ensures var now := Published(c, event, first, second, Some(0));
            !now.open && now.log == c.log && Published(now, later, first, second, ended) == now
    ensures var now := Published(c, event, first, second, Some(1));
            c.dirty && event != Invalidated && |Consumed(c, first).queue| < EVENT_QUEUE_CAPACITY ==>
              !now.open && now.log == c.log + [Accepted(Invalidated)] && Published(now, later, first, second, ended) == now
  {
  }

  /** In one subscription, for every interleaving of publishers and consumer: the queue never
      exceeds its capacity, the consumer sees what was accepted in order, and the first event
      accepted after any dropped one is an invalidation. */
  lemma {:induction false} EveryInterleavingIsHonest(steps: seq<Step>)
    ensures |Run(steps).queue| <= 1024
    ensures Honest(Run(steps).log) && Run(steps).taken <= Through(Run(steps).log)
    ensures Good(Run(steps))
  {
    if steps != [] {
      EveryInterleavingIsHonest(steps[..|steps| - 1]);
      var c := Run(steps[..|steps| - 1]);
      match steps[|steps| - 1]
      case Publish(event, first, second, ended) => PublishedKeepsGood(c, event, first, second, ended);
      case Consume(n) => ConsumedIsGood(c, n);
    }
  }
}
