/** Data connection slots: at most two for each peer and four in all. */
module Slots {
  type Device = nat

  const MAX_PEER_DATA_CONNECTIONS: nat := 2
  const MAX_GLOBAL_DATA_CONNECTIONS: nat := 4

  function Count(slots: map<Device, nat>, peer: Device): nat {
    if peer in slots then slots[peer] else 0
  }

  /** The map counts exactly the live guards: no peer without one has an entry. */
  ghost predicate Counts(slots: map<Device, nat>, live: multiset<Device>) {
    forall p :: (p in slots <==> p in live) && Count(slots, p) == live[p]
  }

  ghost predicate Within(live: multiset<Device>) {
    |live| <= MAX_GLOBAL_DATA_CONNECTIONS && forall p :: live[p] <= MAX_PEER_DATA_CONNECTIONS
  }

  datatype Step = Reserving(peer: Device) | Dropping(peer: Device)

  /** The specification: the multiset of live guards. */
  function After(live: multiset<Device>, step: Step): multiset<Device> {
    match step
    case Reserving(peer) =>
      if |live| < MAX_GLOBAL_DATA_CONNECTIONS && live[peer] < MAX_PEER_DATA_CONNECTIONS then live + multiset{peer} else live
    case Dropping(peer) => live - multiset{peer}
  }

  class DataSlots {
    var slots: map<Device, nat>
    ghost var live: multiset<Device>

    constructor ()
      ensures Valid() && live == multiset{}
    {
      slots, live := map[], multiset{};
    }

    ghost predicate Valid()
      reads this
    {
      Counts(slots, live) && Within(live)
    }

    /** `slots.values().sum()`, one entry after the other. */
    method Total() returns (total: nat)
      requires Valid()
      ensures total == |live|
    {
      total := 0;
      var left := slots.Keys;
      ghost var rest := live;
      while left != {}
        invariant left <= slots.Keys && total + |rest| == |live|
        invariant forall p :: rest[p] == if p in left then live[p] else 0
        decreases |left|
      {
        var peer :| peer in left;
        total := total + slots[peer];
        OneLess(rest, peer);
        rest, left := rest[peer := 0], left - {peer};
      }
      assert rest == multiset{};
    }

    /** A reservation fails only when one of the two limits is reached. */
    method Reserve(peer: Device) returns (ok: bool)
      requires Valid()
      modifies this
      ensures Valid()
      ensures ok <==> |old(live)| < 4 && old(live)[peer] < 2
      ensures live == After(old(live), Reserving(peer)) && (!ok ==> slots == old(slots))
      ensures live == if ok then old(live) + multiset{peer} else old(live)
    {
      var total := Total();
      var peerCount := Count(slots, peer);
      if total >= MAX_GLOBAL_DATA_CONNECTIONS || peerCount >= MAX_PEER_DATA_CONNECTIONS { return false; }
      slots := slots[peer := peerCount + 1];
      live := live + multiset{peer};
      return true;
    }

    /** A guard of `peer` is dropped. The count it decrements is there and positive. */
    method Drop(peer: Device)
      requires Valid() && peer in live
      modifies this
      ensures Valid() && live == After(old(live), Dropping(peer)) == old(live) - multiset{peer}
    {
      if peer in slots {
        assert slots[peer] >= 1;
        slots := slots[peer := slots[peer] - 1];
        if slots[peer] == 0 { slots := slots - {peer}; }
      }
      live := live - multiset{peer};
    }
  }

  lemma OneLess(rest: multiset<Device>, peer: Device)
    ensures |rest[peer := 0]| + rest[peer] == |rest|
  {
    assert rest == rest[peer := 0] + multiset{}[peer := rest[peer]];
    Repeated(peer, rest[peer]);
  }

  lemma {:induction false} Repeated(peer: Device, n: nat)
    ensures |(multiset{})[peer := n]| == n
  {
    if n > 0 {
      Repeated(peer, n - 1);
      assert (multiset{})[peer := n] == (multiset{})[peer := n - 1] + multiset{peer};
    } else {
      assert (multiset{})[peer := 0] == multiset{};
    }
  }

  function Run(steps: seq<Step>): multiset<Device> {
    if steps == [] then multiset{} else After(Run(steps[..|steps| - 1]), steps[|steps| - 1])
  }

  lemma StepKeepsWithin(live: multiset<Device>, step: Step)
    requires Within(live)
    ensures Within(After(live, step))
  {
    match step
    case Reserving(peer) =>
    case Dropping(peer) => assert live - multiset{peer} <= live;
  }

  /** No interleaving of reservations and drops exceeds a limit. */
  lemma {:induction false} EveryInterleavingIsWithin(steps: seq<Step>)
    ensures Within(Run(steps)) && |Run(steps)| <= 4 && forall peer :: Run(steps)[peer] <= 2
  {
    if steps != [] {
      EveryInterleavingIsWithin(steps[..|steps| - 1]);
      StepKeepsWithin(Run(steps[..|steps| - 1]), steps[|steps| - 1]);
    }
  }
}
