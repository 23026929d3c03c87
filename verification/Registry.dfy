/** Which of several simultaneous control connections between two devices survives. */
module Registry {
  import opened Basics

  type Device = nat
  type ConnectionId = nat

  datatype ConnectionKey = ConnectionKey(initiator: Device, connection: ConnectionId)
  {
    /** The derived lexicographic order. */
    predicate Less(other: ConnectionKey) {
      initiator < other.initiator || (initiator == other.initiator && connection < other.connection)
    }

    predicate AtMost(other: ConnectionKey) {
      this == other || Less(other)
    }
  }

  datatype Handle = Handle(key: ConnectionKey, address: nat)

  datatype Registration = Accepted | Rejected(kept: ConnectionId)

  /** The `Retire` command sent to the actor of `key`. */
  datatype Retirement = Retirement(key: ConnectionKey, kept: ConnectionId)

  type Connections = map<Device, Handle>

  function Current(connections: Connections, peer: Device): Option<ConnectionKey> {
    if peer in connections then Some(connections[peer].key) else None
  }

  /** A candidate is turned away only by a key at most its own. */
  predicate Keeps(connections: Connections, peer: Device, key: ConnectionKey) {
    peer in connections && connections[peer].key.AtMost(key)
  }

  function Entered(connections: Connections, peer: Device, candidate: Handle): Connections {
    if Keeps(connections, peer, candidate.key) then connections else connections[peer := candidate]
  }

  function Removed(connections: Connections, peer: Device, key: ConnectionKey): Connections {
    if Current(connections, peer) == Some(key) then connections - {peer} else connections
  }

  class ConnectionRegistry {
    var connections: Connections
    var retirements: seq<Retirement>

    constructor ()
      ensures connections == map[] && retirements == []
    {
      connections, retirements := map[], [];
    }

    method Register(peer: Device, candidate: Handle) returns (registration: Registration)
      modifies this
      ensures connections == Entered(old(connections), peer, candidate)
      ensures registration ==
              if Keeps(old(connections), peer, candidate.key) then Rejected(old(connections)[peer].key.connection) else Accepted
      ensures retirements == old(retirements) +
              if registration == Accepted && peer in old(connections)
              then [Retirement(old(connections)[peer].key, candidate.key.connection)] else []
      ensures registration == Accepted && peer in old(connections) ==> candidate.key.Less(old(connections)[peer].key)
    {
      if peer in connections {
        var current := connections[peer];
        if current.key.AtMost(candidate.key) {
          return Rejected(current.key.connection);
        }
        retirements := retirements + [Retirement(current.key, candidate.key.connection)];
      }
      connections := connections[peer := candidate];
      return Accepted;
    }

    method RemoveIfCurrent(peer: Device, key: ConnectionKey)
      modifies this`connections
      ensures connections == Removed(old(connections), peer, key)
      ensures Current(connections, peer) != Some(key)
      ensures forall other :: other != peer ==> Current(connections, other) == Current(old(connections), other)
    {
      if peer in connections && connections[peer].key == key {
        connections := connections - {peer};
      }
    }

    /** The retired connection is named as the one kept. */
    method RetireIfAddressChanged(peer: Device, address: nat)
      modifies this
      ensures var changed := peer in old(connections) && old(connections)[peer].address != address;
              && connections == (if changed then old(connections) - {peer} else old(connections))
              && retirements == old(retirements) +
                   if changed then [Retirement(old(connections)[peer].key, old(connections)[peer].key.connection)] else []
    {
      if peer in connections && connections[peer].address != address {
        var key := connections[peer].key;
        connections := connections - {peer};
        retirements := retirements + [Retirement(key, key.connection)];
      }
    }
  }

  // ------------------------------------------------------------------ two ends

  datatype End = Left | Right
  {
    function Other(): End { if Left? then Right else Left }
  }

  /** `key` was closed as a duplicate of `kept`. */
  datatype Closure = Closure(key: ConnectionKey, kept: ConnectionKey)

  /** One device's registry entry for the other. `registered` are all keys that ever went
      through `register`, `running` the actors, `retiring` the `Retire` commands not yet
      read, `closures` every duplicate this end decided on, and `gone` the keys whose own
      actor ended or whose delivery timed out. */
  datatype Side = Side(
    connections: Connections, registered: set<ConnectionKey>, running: set<ConnectionKey>,
    retiring: set<Closure>, closures: set<Closure>, gone: set<ConnectionKey>)

  /** A `duplicate_connection` frame on the stream of `closure.key`, not yet read by `to`. */
  datatype Notice = Notice(to: End, closure: Closure)

  /** Two devices, each the peer of the other. */
  datatype Pair = Pair(leftDevice: Device, rightDevice: Device, left: Side, right: Side, notices: set<Notice>)
  {
    function At(end: End): Side { if end.Left? then left else right }

    function With(end: End, side: Side): Pair {
      if end.Left? then this.(left := side) else this.(right := side)
    }

    function Peer(end: End): Device { if end.Left? then rightDevice else leftDevice }

    function CurrentAt(end: End): Option<ConnectionKey> {
      Current(At(end).connections, Peer(end))
    }
  }

  datatype Step =
    | Register(end: End, handle: Handle)
    | Retire(end: End, closure: Closure)
    | Notify(end: End, notice: Notice)
    | ActorEnds(end: End, key: ConnectionKey)
    | GiveUp(end: End, key: ConnectionKey)

  predicate Enabled(p: Pair, step: Step)
  {
    match step
    case Register(end, handle) => handle.key !in p.At(end).registered
    case Retire(end, closure) => closure in p.At(end).retiring && closure.key in p.At(end).running
    case Notify(end, notice) => notice in p.notices && notice.to == end && notice.closure.key in p.At(end).running
    case ActorEnds(end, key) => key in p.At(end).running
    case GiveUp(end, key) => p.CurrentAt(end) == Some(key)
  }

  /** The actor of `key` returns and drops its own registration. */
  function Ended(s: Side, peer: Device, key: ConnectionKey): Side {
    s.(connections := Removed(s.connections, peer, key), running := s.running - {key}, gone := s.gone + {key})
  }

  function AfterRegister(p: Pair, end: End, handle: Handle): Pair {
    var s := p.At(end);
    var known := s.(registered := s.registered + {handle.key}, connections := Entered(s.connections, p.Peer(end), handle));
    match p.CurrentAt(end)
    case None => p.With(end, known.(running := s.running + {handle.key}))
    case Some(current) =>
      if current.AtMost(handle.key) then
        var closure := Closure(handle.key, current);
        var q := p.With(end, known.(closures := s.closures + {closure}));
        q.(notices := p.notices + {Notice(end.Other(), closure)})
      else
        var closure := Closure(current, handle.key);
        p.With(end, known.(running := s.running + {handle.key}, retiring := s.retiring + {closure}, closures := s.closures + {closure}))
  }

  /** The actor of a displaced connection writes the notice and returns. */
  function Retired(s: Side, peer: Device, closure: Closure): Side {
    s.(connections := Removed(s.connections, peer, closure.key), running := s.running - {closure.key}, retiring := s.retiring - {closure})
  }

  function GivenUp(s: Side, peer: Device, key: ConnectionKey): Side {
    s.(connections := Removed(s.connections, peer, key), gone := s.gone + {key})
  }

  function After(p: Pair, step: Step): Pair {
    match step
    case Register(end, handle) => AfterRegister(p, end, handle)
    case Retire(end, closure) =>
      var q := p.With(end, Retired(p.At(end), p.Peer(end), closure));
      q.(notices := p.notices + {Notice(end.Other(), closure)})
    case Notify(end, notice) =>
      var q := p.With(end, Ended(p.At(end), p.Peer(end), notice.closure.key));
      q.(notices := p.notices - {notice})
    case ActorEnds(end, key) => p.With(end, Ended(p.At(end), p.Peer(end), key))
    case GiveUp(end, key) => p.With(end, GivenUp(p.At(end), p.Peer(end), key))
  }

  ghost predicate ClosedAt(s: Side, key: ConnectionKey) {
    exists c :: c in s.closures && c.key == key
  }

  /** A registered key is current unless it was closed as a duplicate or is gone; a duplicate
      gives way to a strictly smaller registered key; a running actor that is not current has
      been told to retire or is gone from the registry. */
  ghost predicate SideGood(s: Side, current: Option<ConnectionKey>) {
    && (forall k :: k in s.registered && k !in s.gone && !ClosedAt(s, k) ==> current == Some(k))
    && (current.Some? ==> current.value in s.registered && current.value !in s.gone && !ClosedAt(s, current.value))
    && (forall c :: c in s.closures ==> c.kept.Less(c.key) && c.key in s.registered && c.kept in s.registered)
    && s.retiring <= s.closures && s.running <= s.registered && s.gone <= s.registered
    && (forall k :: k in s.running ==> current == Some(k) || k in s.gone || exists kept :: Closure(k, kept) in s.retiring)
  }

  ghost predicate Inv(p: Pair) {
    && (forall end: End :: SideGood(p.At(end), p.CurrentAt(end)))
    && (forall n :: n in p.notices ==> n.closure in p.At(n.to.Other()).closures)
  }

  lemma RegisterKeepsSide(p: Pair, end: End, handle: Handle)
    requires SideGood(p.At(end), p.CurrentAt(end)) && handle.key !in p.At(end).registered
    ensures var q := AfterRegister(p, end, handle); SideGood(q.At(end), q.CurrentAt(end))
  {
  }

  lemma EndedKeepsSide(s: Side, peer: Device, key: ConnectionKey)
    requires SideGood(s, Current(s.connections, peer)) && key in s.registered
    ensures SideGood(Ended(s, peer, key), Current(Ended(s, peer, key).connections, peer))
    ensures SideGood(GivenUp(s, peer, key), Current(GivenUp(s, peer, key).connections, peer))
  {
  }

  lemma RetiredKeepsSide(s: Side, peer: Device, closure: Closure)
    requires SideGood(s, Current(s.connections, peer)) && closure in s.retiring
    ensures SideGood(Retired(s, peer, closure), Current(Retired(s, peer, closure).connections, peer))
  {
    assert ClosedAt(s, closure.key);
    forall k | k in s.running && k != closure.key && Current(s.connections, peer) != Some(k) && k !in s.gone
      ensures exists kept :: Closure(k, kept) in s.retiring - {closure}
    {
      var kept :| Closure(k, kept) in s.retiring;
      assert Closure(k, kept) in s.retiring - {closure};
    }
  }

  lemma OneSideChanged(p: Pair, q: Pair, end: End, notice: Option<Notice>)
    requires Inv(p) && SideGood(q.At(end), q.CurrentAt(end)) && p.At(end).closures <= q.At(end).closures
    requires q.At(end.Other()) == p.At(end.Other()) && q.leftDevice == p.leftDevice && q.rightDevice == p.rightDevice
    requires forall n :: n in q.notices ==> n in p.notices || notice == Some(n)
    requires notice.Some? ==> notice.value.to == end.Other() && notice.value.closure in q.At(end).closures
    ensures Inv(q)
  {
    assert SideGood(p.At(end.Other()), p.CurrentAt(end.Other()));
    forall side: End
      ensures SideGood(q.At(side), q.CurrentAt(side))
    {
      assert side == end || side == end.Other();
    }
  }

  lemma StepKeepsInv(p: Pair, step: Step)
    requires Inv(p) && Enabled(p, step)
    ensures Inv(After(p, step))
  {
    var q, end := After(p, step), step.end;
    assert SideGood(p.At(end), p.CurrentAt(end));
    match step
    case Register(_, handle) =>
      RegisterKeepsSide(p, end, handle);
      OneSideChanged(p, q, end, if Keeps(p.At(end).connections, p.Peer(end), handle.key)
                                then Some(Notice(end.Other(), Closure(handle.key, p.CurrentAt(end).value))) else None);
    case Retire(_, closure) =>
      RetiredKeepsSide(p.At(end), p.Peer(end), closure);
      OneSideChanged(p, q, end, Some(Notice(end.Other(), closure)));
    case Notify(_, notice) =>
      EndedKeepsSide(p.At(end), p.Peer(end), notice.closure.key);
      OneSideChanged(p, q, end, None);
    case ActorEnds(_, key) =>
      EndedKeepsSide(p.At(end), p.Peer(end), key);
      OneSideChanged(p, q, end, None);
    case GiveUp(_, key) =>
      EndedKeepsSide(p.At(end), p.Peer(end), key);
      OneSideChanged(p, q, end, None);
  }

  // --------------------------------------------------------------------- runs

  const EMPTY_SIDE: Side := Side(map[], {}, {}, {}, {}, {})

  datatype Run = Run(states: seq<Pair>, steps: seq<Step>)
  {
    /** The two ends register the same attempts, in any order, while actors end and deliveries
        time out as they please. */
    ghost predicate Valid() {
      && |states| == |steps| + 1
      && states[0].left == EMPTY_SIDE && states[0].right == EMPTY_SIDE && states[0].notices == {}
      && forall i :: 0 <= i < |steps| ==> Follows(states[i], steps[i], states[i + 1])
    }

    /** No attempt that either end ever registers has a smaller key. */
    ghost predicate Least(m: ConnectionKey) {
      && |states| > 0
      && var last := states[|states| - 1];
         forall k :: k in last.left.registered + last.right.registered ==> m.AtMost(k)
    }

    /** The actor of `m` at `end` ended by itself, or a delivery over it timed out, before `i`. */
    ghost predicate Lost(i: nat, end: End, m: ConnectionKey) {
      exists j :: 0 <= j < i && j < |steps| && (steps[j] == ActorEnds(end, m) || steps[j] == GiveUp(end, m))
    }
  }

  ghost predicate Follows(p: Pair, step: Step, q: Pair) {
    Enabled(p, step) && q == After(p, step)
  }

  lemma {:induction false} ReachedIsGood(r: Run, i: nat)
    requires r.Valid() && i < |r.states|
    ensures Inv(r.states[i])
  {
    if i > 0 {
      var before := i - 1;
      ReachedIsGood(r, before);
      assert Follows(r.states[before], r.steps[before], r.states[before + 1]);
      StepKeepsInv(r.states[before], r.steps[before]);
    }
  }

  lemma {:induction false} RegisteredForever(r: Run, i: nat, j: nat, end: End)
    requires r.Valid() && i <= j < |r.states|
    ensures r.states[i].At(end).registered <= r.states[j].At(end).registered
    decreases j
  {
    if i < j {
      var before := j - 1;
      RegisteredForever(r, i, before, end);
      assert Follows(r.states[before], r.steps[before], r.states[before + 1]);
    }
  }

  /** Every duplicate notice, and every duplicate either end decides on, names a strictly
      smaller key that was registered. */
  lemma NoticesNameSmallerKeys(r: Run, i: nat, n: Notice)
    requires r.Valid() && i < |r.states| && n in r.states[i].notices
    ensures n.closure.kept.Less(n.closure.key) && n.closure.kept in r.states[i].At(n.to.Other()).registered
  {
    ReachedIsGood(r, i);
    assert SideGood(r.states[i].At(n.to.Other()), r.states[i].CurrentAt(n.to.Other()));
  }

  /** Neither end ever closes the least key as a duplicate, and no notice tells it to. */
  lemma LeastIsNeverClosed(r: Run, i: nat, end: End, m: ConnectionKey)
    requires r.Valid() && r.Least(m) && i < |r.states|
    ensures !ClosedAt(r.states[i].At(end), m)
    ensures forall n :: n in r.states[i].notices ==> n.closure.key != m
  {
    var p := r.states[i];
    ReachedIsGood(r, i);
    forall side: End, c | c in p.At(side).closures
      ensures c.key != m
    {
      assert SideGood(p.At(side), p.CurrentAt(side));
      RegisteredForever(r, i, |r.states| - 1, side);
      assert m.AtMost(c.kept);
    }
  }

  lemma {:induction false} LeastIsNotGone(r: Run, i: nat, end: End, m: ConnectionKey)
    requires r.Valid() && r.Least(m) && i < |r.states| && !r.Lost(i, end, m)
    ensures m !in r.states[i].At(end).gone
  {
    if i > 0 {
      var before := i - 1;
      assert !r.Lost(before, end, m);
      LeastIsNotGone(r, before, end, m);
      LeastIsNeverClosed(r, before, end, m);
      assert Follows(r.states[before], r.steps[before], r.states[before + 1]);
      assert r.steps[before] != ActorEnds(end, m) && r.steps[before] != GiveUp(end, m);
    }
  }

  /** Once registered, the least key is current at that end until its own actor ends. */
  lemma LeastStaysCurrent(r: Run, i: nat, end: End, m: ConnectionKey)
    requires r.Valid() && r.Least(m) && i < |r.states|
    requires m in r.states[i].At(end).registered && !r.Lost(i, end, m)
    ensures r.states[i].CurrentAt(end) == Some(m)
  {
    ReachedIsGood(r, i);
    LeastIsNeverClosed(r, i, end, m);
    LeastIsNotGone(r, i, end, m);
    assert SideGood(r.states[i].At(end), r.states[i].CurrentAt(end));
  }

  /** Whatever the order of registrations, both ends keep the same connection. */
  lemma BothEndsAgree(r: Run, i: nat, m: ConnectionKey)
    requires r.Valid() && r.Least(m) && i < |r.states|
    requires forall end: End :: m in r.states[i].At(end).registered && !r.Lost(i, end, m)
    ensures r.states[i].CurrentAt(Left) == r.states[i].CurrentAt(Right) == Some(m)
    ensures forall end: End, k :: k in r.states[i].At(end).running && k != m ==>
              k in r.states[i].At(end).gone || exists kept :: Closure(k, kept) in r.states[i].At(end).retiring
  {
    LeastStaysCurrent(r, i, Left, m);
    LeastStaysCurrent(r, i, Right, m);
    ReachedIsGood(r, i);
    assert SideGood(r.states[i].At(Left), r.states[i].CurrentAt(Left));
    assert SideGood(r.states[i].At(Right), r.states[i].CurrentAt(Right));
  }

  // -------------------------------------------------------- duplicates come to an end

  /** The current actor runs; the actor of a closed key runs only until it has retired, and is
      retired at most once. */
  ghost predicate Retiring(s: Side, current: Option<ConnectionKey>) {
    && (current.Some? ==> current.value in s.running)
    && (forall c, d :: c in s.closures && d in s.closures && c.key == d.key ==> c == d)
    && (forall c :: c in s.closures && c.key in s.running ==> c in s.retiring)
    && (forall c :: c in s.retiring ==> c in s.closures && (c.key in s.running || c.key in s.gone))
  }

  /** The other end, `s`, has taken the notice about a key: its own actor of that key has ended. */
  predicate Heeded(s: Side, key: ConnectionKey) {
    key in s.registered && key !in s.running
  }

  /** Every duplicate of `end` waits for its retirement, is on its way to the other end, or has
      been heeded there. */
  ghost predicate Told(p: Pair, end: End) {
    forall c :: c in p.At(end).closures ==>
      c in p.At(end).retiring || Notice(end.Other(), c) in p.notices || Heeded(p.At(end.Other()), c.key)
  }

  ghost predicate Ends(p: Pair) {
    forall end: End :: Retiring(p.At(end), p.CurrentAt(end)) && Told(p, end)
  }

  /** No retirement and no notice is left to act on. */
  ghost predicate Quiet(p: Pair) {
    forall step: Step :: step.Retire? || step.Notify? ==> !Enabled(p, step)
  }

  lemma RegisterKeepsRetiring(p: Pair, end: End, handle: Handle)
    requires SideGood(p.At(end), p.CurrentAt(end)) && Retiring(p.At(end), p.CurrentAt(end)) && handle.key !in p.At(end).registered
    ensures var q := AfterRegister(p, end, handle); Retiring(q.At(end), q.CurrentAt(end))
  {
    var s := p.At(end);
    assert p.CurrentAt(end).Some? ==> !ClosedAt(s, p.CurrentAt(end).value);
    assert forall c :: c in s.closures ==> c.key in s.registered;
  }

  lemma StepKeepsRetiring(p: Pair, step: Step)
    requires Inv(p) && Ends(p) && Enabled(p, step)
    ensures var q := After(p, step); Retiring(q.At(step.end), q.CurrentAt(step.end)) && q.At(step.end.Other()) == p.At(step.end.Other())
  {
    var s := p.At(step.end);
    assert SideGood(s, p.CurrentAt(step.end)) && Retiring(s, p.CurrentAt(step.end));
    match step
    case Register(end, handle) => RegisterKeepsRetiring(p, end, handle);
    case Retire(end, closure) => assert forall c :: c in s.retiring && c.key == closure.key ==> c == closure;
    case Notify(end, notice) =>
    case ActorEnds(end, key) =>
    case GiveUp(end, key) => assert !ClosedAt(s, key);
  }

  lemma StepKeepsTold(p: Pair, step: Step, end: End)
    requires Inv(p) && Ends(p) && Enabled(p, step)
    ensures Told(After(p, step), end)
  {
    var q := After(p, step);
    assert Told(p, end) && SideGood(p.At(end), p.CurrentAt(end));
    forall c | c in q.At(end).closures
      ensures c in q.At(end).retiring || Notice(end.Other(), c) in q.notices || Heeded(q.At(end.Other()), c.key)
    {
      assert step.end == end || step.end == end.Other();
    }
  }

  lemma {:induction false} ReachedEnds(r: Run, i: nat)
    requires r.Valid() && i < |r.states|
    ensures Ends(r.states[i])
  {
    if i > 0 {
      var before := i - 1;
      ReachedEnds(r, before);
      ReachedIsGood(r, before);
      var p, step := r.states[before], r.steps[before];
      assert Follows(p, step, r.states[before + 1]);
      StepKeepsRetiring(p, step);
      forall end: End
        ensures Retiring(r.states[i].At(end), r.states[i].CurrentAt(end)) && Told(r.states[i], end)
      {
        StepKeepsTold(p, step, end);
        assert end == step.end || end == step.end.Other();
        assert Retiring(p.At(end), p.CurrentAt(end));
      }
    }
  }

  /** Once nothing is left to act on, no end runs a connection that it closed as a duplicate, and
      the other end has ended its own actor for it too, unless the end that closed it lost that
      actor before it could tell. */
  lemma DuplicatesEnd(r: Run, i: nat, end: End, c: Closure)
    requires r.Valid() && i < |r.states| && Quiet(r.states[i]) && c in r.states[i].At(end).closures
    ensures c.key !in r.states[i].At(end).running
    ensures c.key in r.states[i].At(end.Other()).running ==> c.key in r.states[i].At(end).gone
  {
    ReachedEnds(r, i);
    var p := r.states[i];
    assert Retiring(p.At(end), p.CurrentAt(end)) && Told(p, end);
    assert !Enabled(p, Retire(end, c)) && !Enabled(p, Notify(end.Other(), Notice(end.Other(), c)));
  }

  /** Once nothing is left to act on, an end that has registered the least key and not lost it runs
      nothing else, apart from connections that a delivery already gave up. */
  lemma OneConnectionIsLeft(r: Run, i: nat, end: End, m: ConnectionKey, k: ConnectionKey)
    requires r.Valid() && r.Least(m) && i < |r.states| && Quiet(r.states[i])
    requires m in r.states[i].At(end).registered && !r.Lost(i, end, m) && k in r.states[i].At(end).running
    ensures k == m || k in r.states[i].At(end).gone
  {
    LeastStaysCurrent(r, i, end, m);
    ReachedIsGood(r, i);
    var p := r.states[i];
    assert SideGood(p.At(end), p.CurrentAt(end));
    forall kept
      ensures Closure(k, kept) !in p.At(end).retiring
    {
      assert !Enabled(p, Retire(end, Closure(k, kept)));
    }
  }
}
