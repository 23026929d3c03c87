/** What a user's decision on a binding settles: nothing of it stays pending, it is taken once,
    and a binding that was rejected never becomes active on either side. */
module Decisions {
  import opened Basics
  import opened Bindings
  import opened Network
  import opened Exchange
  import opened Agreement
  import opened SameBinding

  /** The row of `peer` carries `binding` and waits for a decision or a reply, or is active. */
  predicate Live(db: Db, peer: Device, binding: BindingId) {
    RowIs(db, peer, binding) && db.bindings[peer].state in {PendingInbound, PendingOutbound, Active}
  }

  /** A successful rejection leaves no live row under that id, and a new decision on it finds
      nothing to decide. */
  lemma RejectionSettles(db: Db, op: OperationId, binding: BindingId, event: EventId, again: OperationId, accept: bool,
                         other: EventId)
    requires Consistent(db) && Decide(db, op, binding, false, event).mail.Some?
    requires again != op && SavedResult(db, again, DecideBinding).None?
    ensures var after := Decide(db, op, binding, false, event).db;
            && (forall p :: !Live(after, p, binding))
            && Decide(after, again, binding, accept, other).result == Err(BindingNotFound)
  {
  }

  /** An applied rejecting reply leaves a row that is neither awaited nor active. */
  lemma RejectingReplySettles(db: Db, sender: Device, event: EventId, binding: BindingId, receipt: Receipt)
    requires Key(sender, event) !in db.processed
    requires var done := ReceiveReply(db, sender, event, binding, false, receipt); done.answer.Ok?
    ensures var after := ReceiveReply(db, sender, event, binding, false, receipt).db;
            RowIs(after, sender, binding) && !Live(after, sender, binding)
  {
  }

  // ------------------------------------------------------------------ over runs

  /** Step `j`: the user of `giver` decided on binding `b`, and accepted it or not. */
  ghost predicate Decides(r: Run, j: nat, giver: Device, b: BindingId, accept: bool) {
    && j < |r.steps| && |r.states| == |r.steps| + 1 && r.steps[j].Act? && r.steps[j].device == giver < |r.states[j].nodes|
    && var call := r.steps[j].call;
       && call.DecideCall? && call.binding == b && call.accept == accept
       && Local(r.states[j].nodes[giver], call).mail.Some?
  }

  /** Some row of `d` carries `b` and waits for the user. */
  ghost predicate Undecided(n: Net, d: Device, b: BindingId) {
    d < |n.nodes| && exists p :: PendingInboundFor(n.nodes[d], p, b)
  }

  lemma CallMakesNoneUndecided(db: Db, call: Call, p: Device, b: BindingId)
    requires PendingInboundFor(Local(db, call).db, p, b)
    ensures PendingInboundFor(db, p, b)
  {
    match call
    case RequestCall(op, peer, binding, event) => RequestMakesNoneUndecided(db, op, peer, binding, event, p, b);
    case DecideCall(op, binding, accept, event) =>
    case RemoveCall(op, peer, event) =>
    case SetModeCall(op, peer, mode) =>
    case SubmitCall(op, peer, text, automatic, message, event) => SubmitKeeps(db, op, peer, text, automatic, message, event);
  }

  lemma RequestMakesNoneUndecided(db: Db, op: OperationId, peer: Device, binding: BindingId, event: EventId, p: Device,
                                  b: BindingId)
    requires PendingInboundFor(Request(db, op, peer, binding, event).db, p, b)
    ensures PendingInboundFor(db, p, b)
  {
  }

  lemma EventMakesUndecided(db: Db, sender: Device, event: EventId, body: Body, id: EventId, named: bool, p: Device,
                            b: BindingId)
    requires PendingInboundFor(Receive(db, sender, event, body, id, named).db, p, b) && !PendingInboundFor(db, p, b)
    ensures body == Bind(b) && Key(sender, event) !in db.processed
    ensures Key(sender, event) in Receive(db, sender, event, body, id, named).db.processed
  {
    match body
    case Bind(binding) =>
    case Reply(binding, accepted) =>
    case Unbind(binding) =>
    case Clip(message, conversation, origin, sequence, text, automatic) =>
      ClipKeepsRows(db, sender, event, body, Receipt(id, db.self, event, Some(message)));
  }

  /** Only the application of a bind event of that id makes a row wait for the user. */
  lemma BindMakesUndecided(n: Net, step: Step, d: Device, b: BindingId)
    requires Enabled(n, step) && Undecided(After(n, step), d, b) && !Undecided(n, d, b)
    ensures step.Deliver? && step.event in n.letters && n.letters[step.event].body == Bind(b)
    ensures !Processed(n, step.event) && Processed(After(n, step), step.event)
  {
    var after := After(n, step);
    var p :| PendingInboundFor(after.nodes[d], p, b);
    assert !PendingInboundFor(n.nodes[d], p, b);
    match step
    case Act(device, call) => if device == d { CallMakesNoneUndecided(n.nodes[d], call, p, b); }
    case Deliver(event, id, named, broken) =>
      var letter := n.letters[event];
      if letter.to == d && !broken { EventMakesUndecided(n.nodes[d], letter.from, event, letter.body, id, named, p, b); }
    case Transmit(event) =>
    case Respond(answer) =>
    case Adjust(device, change) =>
  }

  /** A row that waits for the user was made by an earlier application of a bind event. */
  lemma {:induction false} BoundBefore(r: Run, i: nat, d: Device, b: BindingId) returns (x: nat, e: EventId)
    requires r.Valid() && i < |r.states| && Undecided(r.states[i], d, b)
    ensures x < i && r.Applies(x, e) && e in r.states[x].letters && r.states[x].letters[e].body == Bind(b)
    decreases i
  {
    if i == 0 {
      assert false;
    } else {
      var before := i - 1;
      assert Follows(r.states[before], r.steps[before], r.states[before + 1]);
      if Undecided(r.states[before], d, b) {
        x, e := BoundBefore(r, before, d, b);
      } else {
        BindMakesUndecided(r.states[before], r.steps[before], d, b);
        x, e := before, r.steps[before].event;
      }
    }
  }

  /** One id belongs to one bind event. */
  lemma OneBindEvent(r: Run, k: nat, b: BindingId, e: EventId, f: EventId)
    requires r.Valid() && k < |r.states| && e in r.states[k].letters && f in r.states[k].letters
    requires r.states[k].letters[e].body == r.states[k].letters[f].body == Bind(b)
    ensures e == f
  {
    ReachedIsGood(r, k);
    var n := r.states[k];
    assert LetterGrounded(n.letters[e], n.asks, n.consents);
    var t := AskedInRun(r, k, b);
    BindIsQueuedByRequest(r, t, k, n.asks[b], b, e);
    BindIsQueuedByRequest(r, t, k, n.asks[b], b, f);
    if e != f {
      QueuedAlone(r, t, e, f);
    }
  }

  lemma DecisionSettles(r: Run, j: nat, giver: Device, b: BindingId, accept: bool)
    requires r.Valid() && Decides(r, j, giver, b, accept)
    ensures Undecided(r.states[j], giver, b) && !Undecided(r.states[j + 1], giver, b)
  {
    ReachedIsGood(r, j);
    var n := r.states[j];
    assert Follows(n, r.steps[j], r.states[j + 1]);
    assert NodeGood(n, giver);
    var peer := Local(n.nodes[giver], r.steps[j].call).mail.value.to;
    assert PendingInboundFor(n.nodes[giver], peer, b);
  }

  /** What a user has decided never waits for that user again. */
  lemma {:induction false} DecidedForGood(r: Run, j: nat, i: nat, giver: Device, b: BindingId, accept: bool)
    requires r.Valid() && Decides(r, j, giver, b, accept) && j < i < |r.states|
    ensures !Undecided(r.states[i], giver, b)
    decreases i
  {
    DecisionSettles(r, j, giver, b, accept);
    var before := i - 1;
    if before > j {
      DecidedForGood(r, j, before, giver, b, accept);
      assert Follows(r.states[before], r.steps[before], r.states[before + 1]);
      if Undecided(r.states[i], giver, b) {
        BindMakesUndecided(r.states[before], r.steps[before], giver, b);
        var f := r.steps[before].event;
        var x, e := BoundBefore(r, j, giver, b);
        RunIsLater(r, x, before);
        OneBindEvent(r, before, b, e, f);
        AppliedAtMostOnce(r, x, before, e);
      }
    }
  }

  /** A binding is decided once. */
  lemma DecidedOnce(r: Run, j: nat, k: nat, giver: Device, b: BindingId, first: bool, second: bool)
    requires r.Valid() && Decides(r, j, giver, b, first) && Decides(r, k, giver, b, second)
    ensures j == k
  {
    DecisionSettles(r, j, giver, b, first);
    DecisionSettles(r, k, giver, b, second);
    if j < k {
      DecidedForGood(r, j, k, giver, b, first);
    } else if k < j {
      DecidedForGood(r, k, j, giver, b, second);
    }
  }

  /** A binding that its user rejected is active on neither side, at no point of the run. */
  lemma RejectedIsNeverActive(r: Run, j: nat, giver: Device, b: BindingId, i: nat, d: Device, p: Device)
    requires r.Valid() && Decides(r, j, giver, b, false) && i < |r.states| && d < |r.states[i].nodes|
    ensures !(IsActive(r.states[i].nodes[d].bindings, p) && r.states[i].nodes[d].bindings[p].binding == b)
  {
    if IsActive(r.states[i].nodes[d].bindings, p) && r.states[i].nodes[d].bindings[p].binding == b {
      var ask, requested, accepted := ActiveIsRequestedAndAccepted(r, i, d, p);
      assert Decides(r, accepted, ask.asked, b, true);
      DeciderIsAsked(r, j, giver, b, false, ask, requested);
      DecidedOnce(r, j, accepted, giver, b, false, true);
    }
  }

  /** Only the device that was asked decides. */
  lemma DeciderIsAsked(r: Run, j: nat, giver: Device, b: BindingId, accept: bool, ask: Ask, requested: nat)
    requires r.Valid() && Decides(r, j, giver, b, accept) && Requests(r, requested, ask, b)
    ensures giver == ask.asked
  {
    ReachedIsGood(r, j);
    var n := r.states[j];
    assert NodeGood(n, giver);
    var peer := Local(n.nodes[giver], r.steps[j].call).mail.value.to;
    assert PendingInboundFor(n.nodes[giver], peer, b);
    assert RowGrounded(giver, peer, n.nodes[giver].bindings[peer], n.asks, n.consents);
    AskIsRecorded(r, requested, ask, b);
    if requested + 1 <= j {
      RunIsLater(r, requested + 1, j);
    } else {
      RunIsLater(r, j, requested);
    }
  }
}
