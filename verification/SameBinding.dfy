/** When both ends of a binding carry the same id: always, if only one of the two devices
    requests and frames between them arrive in order; not in general. */
module SameBinding {
  import opened Basics
  import opened Bindings
  import opened Network
  import opened Exchange
  import opened Agreement

  /** Frames from one device to another are never handled out of the order in which their
      events were queued. They may still be lost or repeated. */
  ghost predicate InOrder(r: Run) {
    forall i, j, k :: 0 <= i < j < |r.steps| && 0 <= k < |r.states| && SameWay(r, i, j) ==>
      (r.steps[j].event in r.states[k].letters ==> r.steps[i].event in r.states[k].letters)
  }

  /** Steps `i` and `j` deliver frames between the same two devices, in the same direction. */
  ghost predicate SameWay(r: Run, i: nat, j: nat) {
    && i < |r.steps| && j < |r.steps| && |r.states| == |r.steps| + 1 && r.steps[i].Deliver? && r.steps[j].Deliver?
    && r.steps[i].event in r.states[i].letters && r.steps[j].event in r.states[j].letters
    && r.states[i].letters[r.steps[i].event].from == r.states[j].letters[r.steps[j].event].from
    && r.states[i].letters[r.steps[i].event].to == r.states[j].letters[r.steps[j].event].to
  }

  /** The user of `d` never requests a binding of `p`. */
  ghost predicate NeverRequests(r: Run, d: Device, p: Device) {
    forall i :: 0 <= i < |r.steps| && r.steps[i].Act? && r.steps[i].device == d && r.steps[i].call.RequestCall? ==> r.steps[i].call.peer != p
  }

  ghost predicate HasId(n: Net, d: Device, p: Device, b: BindingId) {
    d < |n.nodes| && RowIs(n.nodes[d], p, b)
  }

  /** Step `x` gives the row of `d` for `p` the id `b`: a request by its user, or the delivery
      of a bind event of `p`. */
  ghost predicate GivesId(n: Net, step: Step, d: Device, p: Device, b: BindingId) {
    || (step.Act? && step.device == d && step.call.RequestCall? && step.call.peer == p && step.call.binding == b)
    || (step.Deliver? && step.event in n.letters && n.letters[step.event] == Letter(p, d, Bind(b)))
  }

  lemma CallGivesId(db: Db, call: Call, p: Device, b: BindingId)
    requires RowIs(Local(db, call).db, p, b) && !RowIs(db, p, b)
    ensures call.RequestCall? && call.peer == p && call.binding == b
  {
    match call
    case RequestCall(op, peer, binding, event) =>
    case DecideCall(op, binding, accept, event) =>
    case RemoveCall(op, peer, event) =>
    case SetModeCall(op, peer, mode) =>
    case SubmitCall(op, peer, text, automatic, message, event) => SubmitKeeps(db, op, peer, text, automatic, message, event);
  }

  lemma EventGivesId(db: Db, sender: Device, event: EventId, body: Body, id: EventId, named: bool, p: Device,
                     b: BindingId)
    requires RowIs(Receive(db, sender, event, body, id, named).db, p, b) && !RowIs(db, p, b)
    ensures sender == p && body == Bind(b)
  {
    match body
    case Bind(binding) =>
    case Reply(binding, accepted) =>
    case Unbind(binding) =>
    case Clip(message, conversation, origin, sequence, text, automatic) =>
      ClipKeepsRows(db, sender, event, body, Receipt(id, db.self, event, Some(message)));
  }

  lemma StepGivesId(n: Net, step: Step, d: Device, p: Device, b: BindingId)
    requires Enabled(n, step) && HasId(After(n, step), d, p, b) && !HasId(n, d, p, b)
    ensures GivesId(n, step, d, p, b)
  {
    match step
    case Act(device, call) => if device == d { CallGivesId(n.nodes[d], call, p, b); }
    case Deliver(event, id, named, broken) =>
      var letter := n.letters[event];
      if letter.to == d && !broken { EventGivesId(n.nodes[d], letter.from, event, letter.body, id, named, p, b); }
    case Transmit(event) =>
    case Respond(answer) =>
    case Adjust(device, change) =>
  }

  lemma {:induction false} SomeStepGivesId(r: Run, lo: nat, hi: nat, d: Device, p: Device, b: BindingId)
    returns (x: nat)
    requires r.Valid() && lo <= hi < |r.states| && !HasId(r.states[lo], d, p, b) && HasId(r.states[hi], d, p, b)
    ensures lo <= x < hi && GivesId(r.states[x], r.steps[x], d, p, b)
    decreases hi
  {
    var before := hi - 1;
    assert Follows(r.states[before], r.steps[before], r.states[before + 1]);
    if HasId(r.states[before], d, p, b) {
      x := SomeStepGivesId(r, lo, before, d, p, b);
    } else {
      StepGivesId(r.states[before], r.steps[before], d, p, b);
      x := before;
    }
  }

  /** A binding is requested once, and its bind event is queued by that request. */
  lemma BindIsQueuedByRequest(r: Run, t: nat, k: nat, ask: Ask, b: BindingId, e: EventId)
    requires r.Valid() && Requests(r, t, ask, b) && k < |r.states|
    requires e in r.states[k].letters && r.states[k].letters[e].body == Bind(b)
    ensures t < k && e in r.states[t + 1].letters && e !in r.states[t].letters
  {
    var s := FirstQueued(r, k, e);
    assert Follows(r.states[s], r.steps[s], r.states[s + 1]) && Follows(r.states[t], r.steps[t], r.states[t + 1]);
    RunIsLater(r, s + 1, k);
    CallQueues(r.states[s].nodes[r.steps[s].device], r.steps[s].call);
    CallQueues(r.states[t].nodes[r.steps[t].device], r.steps[t].call);
    assert b !in r.states[s].asks && b in r.states[s + 1].asks && b !in r.states[t].asks && b in r.states[t + 1].asks;
    if s < t {
      RunIsLater(r, s + 1, t);
    } else if t < s {
      RunIsLater(r, t + 1, s);
    }
  }

  /** A step queues at most one event. */
  lemma QueuedAlone(r: Run, t: nat, e: EventId, f: EventId)
    requires r.Valid() && t < |r.steps| && e in r.states[t + 1].letters && f in r.states[t + 1].letters
    requires e != f && f !in r.states[t].letters
    ensures e in r.states[t].letters
  {
    assert Follows(r.states[t], r.steps[t], r.states[t + 1]);
  }

  lemma {:induction false} FirstQueued(r: Run, k: nat, e: EventId) returns (s: nat)
    requires r.Valid() && k < |r.states| && e in r.states[k].letters
    ensures s < k && e !in r.states[s].letters && e in r.states[s + 1].letters && r.steps[s].Act?
    decreases k
  {
    if k == 0 {
      assert false;
    } else {
      var before := k - 1;
      assert Follows(r.states[before], r.steps[before], r.states[before + 1]);
      if e in r.states[before].letters {
        s := FirstQueued(r, before, e);
      } else {
        s := before;
      }
    }
  }

  /** The user of `giver` accepted the binding that its row for the asking device then had. */
  lemma AcceptedRow(r: Run, j: nat, ask: Ask, b: BindingId)
    requires r.Valid() && Accepts(r, j, ask.asked, b) && b in r.states[j].asks && r.states[j].asks[b] == ask
    ensures HasId(r.states[j], ask.asked, ask.asker, b)
  {
    ReachedIsGood(r, j);
    var n := r.states[j];
    assert NodeGood(n, ask.asked);
    var peer := Local(n.nodes[ask.asked], r.steps[j].call).mail.value.to;
    assert PendingInboundFor(n.nodes[ask.asked], peer, b);
    assert RowGrounded(ask.asked, peer, n.nodes[ask.asked].bindings[peer], n.asks, n.consents);
  }

  /** If only `a` ever requests a binding of the other, and frames from `a` to `b` are handled
      in order, then whenever both rows are active they carry the same id. */
  lemma OneRequesterInOrderAgrees(r: Run, i: nat, a: Device, b: Device)
    requires r.Valid() && InOrder(r) && NeverRequests(r, b, a) && i < |r.states| && a < |r.states[i].nodes|
             && b < |r.states[i].nodes|
    requires IsActive(r.states[i].nodes[a].bindings, b) && IsActive(r.states[i].nodes[b].bindings, a)
    ensures r.states[i].nodes[a].bindings[b].binding == r.states[i].nodes[b].bindings[a].binding
  {
    var x, y := r.states[i].nodes[a].bindings[b].binding, r.states[i].nodes[b].bindings[a].binding;
    if x != y {
      var askX, requestedX, acceptedX := ActiveIsRequestedAndAccepted(r, i, a, b);
      var askY, requestedY, acceptedY := ActiveIsRequestedAndAccepted(r, i, b, a);
      assert askX == Ask(a, b) && askY == Ask(a, b);
      if requestedX < requestedY {
        LaterRequestWins(r, i, a, b, requestedX, requestedY, x, y);
      } else {
        EarlierRequestCannotReturn(r, i, a, b, requestedX, acceptedX, requestedY, x, y);
      }
    }
  }

  /** The requester's row has the id of its latest request. */
  lemma LaterRequestWins(r: Run, i: nat, a: Device, b: Device, first: nat, second: nat, x: BindingId, y: BindingId)
    requires r.Valid() && first < second < i < |r.states| && x != y && a != b
    requires Requests(r, first, Ask(a, b), x) && Requests(r, second, Ask(a, b), y)
    ensures !HasId(r.states[i], a, b, x)
  {
    assert Follows(r.states[second], r.steps[second], r.states[second + 1]);
    assert Follows(r.states[first], r.steps[first], r.states[first + 1]);
    AskIsRecorded(r, first, Ask(a, b), x);
    if HasId(r.states[i], a, b, x) {
      var s := SomeStepGivesId(r, second + 1, i, a, b, x);
      RunIsLater(r, first + 1, s);
      GivenIdIsAsked(r, s, a, b, x);
    }
  }

  /** An id comes with a new request of the device itself, or with an older one of its peer. */
  lemma GivenIdIsAsked(r: Run, s: nat, d: Device, p: Device, b: BindingId)
    requires r.Valid() && s < |r.steps| && GivesId(r.states[s], r.steps[s], d, p, b)
    ensures b !in r.states[s].asks || r.states[s].asks[b] == Ask(p, d)
  {
    assert Follows(r.states[s], r.steps[s], r.states[s + 1]);
    ReachedIsGood(r, s);
    forall e | e in r.states[s].letters
      ensures LetterGrounded(r.states[s].letters[e], r.states[s].asks, r.states[s].consents)
    {
    }
  }

  lemma AskIsRecorded(r: Run, t: nat, ask: Ask, b: BindingId)
    requires r.Valid() && Requests(r, t, ask, b)
    ensures b !in r.states[t].asks && b in r.states[t + 1].asks && r.states[t + 1].asks[b] == ask
    ensures HasId(r.states[t + 1], ask.asker, ask.asked, b)
  {
    assert Follows(r.states[t], r.steps[t], r.states[t + 1]);
  }

  /** An id that was requested before the one the other device accepted cannot come back into
      its row: the bind event that carries it would have to overtake. */
  lemma EarlierRequestCannotReturn(r: Run, i: nat, a: Device, b: Device, requested: nat, accepted: nat, earlier: nat,
                                   x: BindingId, y: BindingId)
    requires r.Valid() && InOrder(r) && NeverRequests(r, b, a) && earlier <= requested < accepted < i < |r.states|
             && x != y
    requires Requests(r, requested, Ask(a, b), x) && Accepts(r, accepted, b, x) && Requests(r, earlier, Ask(a, b), y)
    ensures !HasId(r.states[i], b, a, y)
  {
    AskIsRecorded(r, requested, Ask(a, b), x);
    RunIsLater(r, requested + 1, accepted);
    AcceptedRow(r, accepted, Ask(a, b), x);
    var first := SomeStepGivesId(r, 0, accepted, b, a, x);
    if HasId(r.states[i], b, a, y) {
      var second := SomeStepGivesId(r, accepted, i, b, a, y);
      var e, f := r.steps[first].event, r.steps[second].event;
      assert SameWay(r, first, second);
      BindIsQueuedByRequest(r, requested, first, Ask(a, b), x, e);
      BindIsQueuedByRequest(r, earlier, second, Ask(a, b), y, f);
      assert f in r.states[earlier + 1].letters && e in r.states[earlier + 1].letters;
      RunIsLater(r, earlier + 1, requested);
    }
  }

  // ----------------------------------------------------------- not in general

  const LEFT_BINDING: BindingId := 7
  const RIGHT_BINDING: BindingId := 8
  const LEFT_BIND: EventId := 1
  const RIGHT_BIND: EventId := 2

  /** No text has been sent or received yet. */
  predicate Untouched(db: Db) {
    db.sequence == 0 && db.dedup == {} && db.conversations == map[] && db.messages == map[]
  }

  ghost function Last(r: Run): Net
    requires r.Valid()
  {
    r.states[|r.steps|]
  }

  /** The user of `d` requests a binding of `p`, and the bind event is sent. */
  lemma Requesting(r: Run, d: Device, p: Device, op: OperationId, b: BindingId, event: EventId) returns (more: Run)
    requires r.Valid() && d < |Last(r).nodes|
    requires var n := Last(r);
             var db := n.nodes[d];
             && p != d == db.self && p in db.peers && !ActiveWith(db, p) && IdFree(db, p, b) && op !in db.operations
             && event !in n.letters && Key(p, event) !in db.outbox && b !in n.asks
    ensures more.Valid() && more.steps == r.steps + [Act(d, RequestCall(op, p, b, event)), Transmit(event)]
    ensures |more.states| == |r.states| + 2 && r.states <= more.states
    ensures var n, after := Last(r), Last(more);
            var db := n.nodes[d];
            after == n.(nodes := n.nodes[d := db.(bindings := db.bindings[p := Row(b, PendingOutbound, Off, d)],
                                                  operations := db.operations[op := Saved(RequestBinding, BindingIs(b))],
                                                  outbox := db.outbox[Key(p, event) := Bind(b)])],
                        letters := n.letters[event := Letter(d, p, Bind(b))], asks := n.asks[b := Ask(d, p)],
                        sent := n.sent + {event})
  {
    more := Extended(r, Act(d, RequestCall(op, p, b, event)));
    more := Extended(more, Transmit(event));
  }

  /** The bind event `e` arrives. */
  lemma BindArrives(r: Run, e: EventId, id: EventId) returns (more: Run)
    requires r.Valid() && e in Last(r).sent && e in Last(r).letters
    requires var n := Last(r);
             var letter := n.letters[e];
             && letter.body.Bind? && letter.to < |n.nodes|
             && var db := n.nodes[letter.to];
                && letter.from != letter.to == db.self && letter.from in db.peers && !ActiveWith(db, letter.from)
                && IdFree(db, letter.from, letter.body.binding) && Key(letter.from, e) !in db.processed
    ensures more.Valid() && more.steps == r.steps + [Deliver(e, id, true, false)]
    ensures |more.states| == |r.states| + 1 && r.states <= more.states
    ensures var n, after := Last(r), Last(more);
            var letter := n.letters[e];
            var db, receipt := n.nodes[letter.to], Receipt(id, letter.to, e, None);
            after == n.(nodes := n.nodes[letter.to := db.(
                          bindings := db.bindings[letter.from := Row(letter.body.binding, PendingInbound, Off, letter.from)],
                          processed := db.processed[Key(letter.from, e) := receipt])],
                        answers := n.answers + {Stored(e, receipt)})
  {
    more := Extended(r, Deliver(e, id, true, false));
  }

  /** The user of `d` accepts the pending binding of `p`. */
  lemma Accepting(r: Run, d: Device, p: Device, op: OperationId, b: BindingId, event: EventId) returns (more: Run)
    requires r.Valid() && d < |Last(r).nodes|
    requires var n := Last(r);
             && PendingInboundFor(n.nodes[d], p, b) && op !in n.nodes[d].operations && event !in n.letters
             && Key(p, event) !in n.nodes[d].outbox
    ensures more.Valid() && more.steps == r.steps + [Act(d, DecideCall(op, b, true, event))]
    ensures |more.states| == |r.states| + 1 && r.states <= more.states
    ensures var n, after := Last(r), Last(more);
            var db := n.nodes[d];
            after == n.(nodes := n.nodes[d := Settled(db, p, true).(operations := db.operations[op := Saved(DecideBinding, PeerIs(p))],
                                                                    outbox := db.outbox[Key(p, event) := Reply(b, true)])],
                        letters := n.letters[event := Letter(d, p, Reply(b, true))],
                        consents := n.consents + {Consent(d, b)})
  {
    var n := Last(r);
    ReachedIsGood(r, |r.steps|);
    assert NodeGood(n, d);
    more := Extended(r, Act(d, DecideCall(op, b, true, event)));
    var q :| PendingInboundFor(n.nodes[d], q, b) && Decide(n.nodes[d], op, b, true, event).mail == Some(Mail(q, Reply(b, true)));
    assert q == p;
  }

  /** Both devices have requested the other, and sent the request. */
  lemma BothAsked() returns (r: Run)
    ensures r.Valid() && |r.steps| == 6 && forall i :: 0 <= i < 6 ==> !r.steps[i].Deliver?
    ensures var n := Last(r);
            && |n.nodes| == 2 && n.nodes[0].self == 0 && n.nodes[1].self == 1
            && n.nodes[0].bindings == map[1 := Row(LEFT_BINDING, PendingOutbound, Off, 0)]
            && n.nodes[1].bindings == map[0 := Row(RIGHT_BINDING, PendingOutbound, Off, 1)]
            && n.nodes[0].peers == map[1 := Nearby] && n.nodes[1].peers == map[0 := Nearby]
            && n.nodes[0].processed == map[] && n.nodes[1].processed == map[]
            && n.nodes[0].operations.Keys == {0} && n.nodes[1].operations.Keys == {0}
            && n.nodes[0].outbox.Keys == {Key(1, LEFT_BIND)} && n.nodes[1].outbox.Keys == {Key(0, RIGHT_BIND)}
            && n.letters == map[LEFT_BIND := Letter(0, 1, Bind(LEFT_BINDING)), RIGHT_BIND := Letter(1, 0, Bind(RIGHT_BINDING))]
            && n.sent == {LEFT_BIND, RIGHT_BIND} && n.issued == {} && Untouched(n.nodes[0]) && Untouched(n.nodes[1])
  {
    r := Greeted();
    r := Requesting(r, 0, 1, 0, LEFT_BINDING, LEFT_BIND);
    r := Requesting(r, 1, 0, 0, RIGHT_BINDING, RIGHT_BIND);
  }

  /** Each receives the other's request over its own. */
  lemma BothReceived() returns (r: Run)
    ensures r.Valid() && |r.steps| == 8 && (forall i :: 0 <= i < 6 ==> !r.steps[i].Deliver?)
    ensures r.steps[6] == Deliver(LEFT_BIND, 100, true, false) && r.steps[7] == Deliver(RIGHT_BIND, 101, true, false)
    ensures r.states[6].letters == r.states[7].letters == Last(r).letters
    ensures var n := Last(r);
            && |n.nodes| == 2 && n.nodes[0].self == 0 && n.nodes[1].self == 1
            && n.nodes[0].bindings == map[1 := Row(RIGHT_BINDING, PendingInbound, Off, 1)]
            && n.nodes[1].bindings == map[0 := Row(LEFT_BINDING, PendingInbound, Off, 0)]
            && n.nodes[0].peers == map[1 := Nearby] && n.nodes[1].peers == map[0 := Nearby]
            && n.nodes[0].processed.Keys == {Key(1, RIGHT_BIND)} && n.nodes[1].processed.Keys == {Key(0, LEFT_BIND)}
            && n.nodes[0].operations.Keys == {0} && n.nodes[1].operations.Keys == {0}
            && n.nodes[0].outbox.Keys == {Key(1, LEFT_BIND)} && n.nodes[1].outbox.Keys == {Key(0, RIGHT_BIND)}
            && n.letters == map[LEFT_BIND := Letter(0, 1, Bind(LEFT_BINDING)), RIGHT_BIND := Letter(1, 0, Bind(RIGHT_BINDING))]
            && n.issued == {} && Untouched(n.nodes[0]) && Untouched(n.nodes[1])
  {
    r := BothAsked();
    r := BindArrives(r, LEFT_BIND, 100);
    r := BindArrives(r, RIGHT_BIND, 101);
  }

  /** One requester is needed: two crossing requests, with frames in order, end with both rows
      active under different ids once each user has accepted. */
  lemma CrossingRequestsDisagree() returns (r: Run)
    ensures r.Valid() && InOrder(r) && |r.steps| == 10
    ensures var n := Last(r);
            && |n.nodes| == 2 && IsActive(n.nodes[0].bindings, 1) && IsActive(n.nodes[1].bindings, 0)
            && n.nodes[0].bindings[1].binding != n.nodes[1].bindings[0].binding
  {
    r := BothReceived();
    r := Accepting(r, 0, 1, 1, RIGHT_BINDING, 3);
    r := Accepting(r, 1, 0, 1, LEFT_BINDING, 4);
  }

  /** Device 0 requests twice, and the later request arrives first. */
  lemma AskedTwice() returns (r: Run)
    ensures r.Valid() && |r.steps| == 7
    ensures forall i :: 0 <= i < 7 && r.steps[i].Act? ==> r.steps[i].device == 0
    ensures var n := Last(r);
            && |n.nodes| == 2 && n.nodes[0].self == 0 && n.nodes[1].self == 1
            && n.nodes[0].peers == map[1 := Nearby] && n.nodes[1].peers == map[0 := Nearby]
            && n.nodes[0].bindings == map[1 := Row(RIGHT_BINDING, PendingOutbound, Off, 0)]
            && n.nodes[1].bindings == map[0 := Row(RIGHT_BINDING, PendingInbound, Off, 0)]
            && n.nodes[0].processed == map[] && n.nodes[1].processed.Keys == {Key(0, RIGHT_BIND)}
            && n.nodes[1].operations == map[] && n.nodes[1].outbox == map[]
            && n.letters == map[LEFT_BIND := Letter(0, 1, Bind(LEFT_BINDING)), RIGHT_BIND := Letter(0, 1, Bind(RIGHT_BINDING))]
            && n.sent == {LEFT_BIND, RIGHT_BIND}
  {
    r := Greeted();
    r := Requesting(r, 0, 1, 0, LEFT_BINDING, LEFT_BIND);
    r := Requesting(r, 0, 1, 1, RIGHT_BINDING, RIGHT_BIND);
    r := BindArrives(r, RIGHT_BIND, 100);
  }

  /** Device 1 accepts that one. */
  lemma LaterAccepted() returns (r: Run)
    ensures r.Valid() && |r.steps| == 8
    ensures forall i :: 0 <= i < 8 && r.steps[i].Act? && r.steps[i].call.RequestCall? ==> r.steps[i].device == 0
    ensures var n := Last(r);
            && |n.nodes| == 2 && n.nodes[0].self == 0 && n.nodes[1].self == 1 && n.nodes[1].peers.Keys == {0}
            && n.nodes[0].bindings == map[1 := Row(RIGHT_BINDING, PendingOutbound, Off, 0)]
            && n.nodes[1].bindings == map[0 := Row(RIGHT_BINDING, Active, Off, 0)]
            && n.nodes[0].processed == map[] && n.nodes[1].processed.Keys == {Key(0, RIGHT_BIND)}
            && n.nodes[1].operations.Keys == {0} && n.nodes[1].outbox.Keys == {Key(0, 3)}
            && n.letters == map[LEFT_BIND := Letter(0, 1, Bind(LEFT_BINDING)), RIGHT_BIND := Letter(0, 1, Bind(RIGHT_BINDING)),
                                3 := Letter(1, 0, Reply(RIGHT_BINDING, true))]
            && LEFT_BIND in n.sent
  {
    r := AskedTwice();
    r := Accepting(r, 1, 0, 0, RIGHT_BINDING, 3);
  }

  /** Its reply is applied. */
  lemma BothActive() returns (r: Run)
    ensures r.Valid() && |r.steps| == 10
    ensures forall i :: 0 <= i < 10 && r.steps[i].Act? && r.steps[i].call.RequestCall? ==> r.steps[i].device == 0
    ensures var n := Last(r);
            && |n.nodes| == 2 && n.nodes[1].self == 1 && n.nodes[1].peers.Keys == {0}
            && n.nodes[0].bindings == map[1 := Row(RIGHT_BINDING, Active, Off, 0)]
            && n.nodes[1].bindings == map[0 := Row(RIGHT_BINDING, Active, Off, 0)]
            && n.nodes[1].processed.Keys == {Key(0, RIGHT_BIND)}
            && n.nodes[1].operations.Keys == {0} && n.nodes[1].outbox.Keys == {Key(0, 3)}
            && n.letters.Keys == {LEFT_BIND, RIGHT_BIND, 3} && n.letters[LEFT_BIND] == Letter(0, 1, Bind(LEFT_BINDING))
            && LEFT_BIND in n.sent
  {
    r := LaterAccepted();
    r := Extended(r, Transmit(3));
    r := Extended(r, Deliver(3, 101, true, false));
  }

  /** It takes the binding back, and the overtaken request arrives. */
  lemma Overtaken() returns (r: Run)
    ensures r.Valid() && |r.steps| == 12
    ensures forall i :: 0 <= i < 12 && r.steps[i].Act? && r.steps[i].call.RequestCall? ==> r.steps[i].device == 0
    ensures var n := Last(r);
            && |n.nodes| == 2 && n.nodes[0].bindings == map[1 := Row(RIGHT_BINDING, Active, Off, 0)]
            && n.nodes[1].bindings == map[0 := Row(LEFT_BINDING, PendingInbound, Off, 0)]
            && n.nodes[1].operations.Keys == {0, 1} && n.nodes[1].outbox.Keys == {Key(0, 3), Key(0, 4)}
            && n.letters.Keys == {LEFT_BIND, RIGHT_BIND, 3, 4}
  {
    r := BothActive();
    r := Extended(r, Act(1, RemoveCall(1, 0, 4)));
    assert Last(r).nodes[1].bindings == map[0 := Row(RIGHT_BINDING, Removed, Off, 0)];
    r := BindArrives(r, LEFT_BIND, 102);
  }

  /** Order is needed: with one requester only, an overtaken bind event that arrives after the
      other device has taken the binding back ends with both rows active under different ids. */
  lemma OvertakenRequestDisagrees() returns (r: Run)
    ensures r.Valid() && NeverRequests(r, 1, 0) && !InOrder(r) && |r.steps| == 13
    ensures var n := Last(r);
            && |n.nodes| == 2 && IsActive(n.nodes[0].bindings, 1) && IsActive(n.nodes[1].bindings, 0)
            && n.nodes[0].bindings[1].binding != n.nodes[1].bindings[0].binding
  {
    r := Overtaken();
    r := Accepting(r, 1, 0, 2, LEFT_BINDING, 5);
    if InOrder(r) {
      OneRequesterInOrderAgrees(r, 13, 0, 1);
    }
  }
}
