/** What a run of the network says about bindings and clipboard writes: an active binding was
    requested and accepted, and a text is written only because the user of the writing device
    chose a receiving mode for that binding. */
module Agreement {
  import opened Basics
  import opened Bindings
  import opened Network
  import opened Exchange

  /** Step `j`: the user of `asker` requested binding `b` of `asked`. */
  ghost predicate Requests(r: Run, j: nat, ask: Ask, b: BindingId) {
    && j < |r.steps| && |r.states| == |r.steps| + 1 && r.steps[j].Act? && r.steps[j].device == ask.asker < |r.states[j].nodes|
    && var call := r.steps[j].call;
       && call.RequestCall? && call.peer == ask.asked && call.binding == b
       && Local(r.states[j].nodes[ask.asker], call).mail == Some(Mail(ask.asked, Bind(b)))
  }

  /** Step `j`: the user of `giver` accepted binding `b`. */
  ghost predicate Accepts(r: Run, j: nat, giver: Device, b: BindingId) {
    && j < |r.steps| && |r.states| == |r.steps| + 1 && r.steps[j].Act? && r.steps[j].device == giver < |r.states[j].nodes|
    && var call := r.steps[j].call;
       && call.DecideCall? && call.binding == b && call.accept
       && Local(r.states[j].nodes[giver], call).mail.Some?
  }

  lemma {:induction false} AskedInRun(r: Run, i: nat, b: BindingId) returns (j: nat)
    requires r.Valid() && i < |r.states| && b in r.states[i].asks
    ensures j < i && Requests(r, j, r.states[i].asks[b], b)
    decreases i
  {
    if i == 0 {
      assert false;
    } else {
      var before := i - 1;
      var n := r.states[before];
      assert Follows(n, r.steps[before], r.states[before + 1]);
      if b in n.asks {
        StepIsLater(n, r.steps[before]);
        j := AskedInRun(r, before, b);
      } else {
        CallQueues(n.nodes[r.steps[before].device], r.steps[before].call);
        j := before;
      }
    }
  }

  lemma {:induction false} ConsentedInRun(r: Run, i: nat, c: Consent) returns (j: nat)
    requires r.Valid() && i < |r.states| && c in r.states[i].consents
    ensures j < i && Accepts(r, j, c.giver, c.binding)
    decreases i
  {
    if i == 0 {
      assert false;
    } else {
      var before := i - 1;
      var n := r.states[before];
      assert Follows(n, r.steps[before], r.states[before + 1]);
      if c in n.consents {
        j := ConsentedInRun(r, before, c);
      } else {
        CallQueues(n.nodes[r.steps[before].device], r.steps[before].call);
        j := before;
      }
    }
  }

  /** A binding active between two devices, on either side, was requested by the user of one
      and later accepted by the user of the other. */
  lemma ActiveIsRequestedAndAccepted(r: Run, i: nat, d: Device, p: Device)
    returns (ask: Ask, requested: nat, accepted: nat)
    requires r.Valid() && i < |r.states| && d < |r.states[i].nodes| && IsActive(r.states[i].nodes[d].bindings, p)
    ensures ask == Ask(d, p) || ask == Ask(p, d)
    ensures requested < accepted < i
    ensures Requests(r, requested, ask, r.states[i].nodes[d].bindings[p].binding)
    ensures Accepts(r, accepted, ask.asked, r.states[i].nodes[d].bindings[p].binding)
  {
    var n := r.states[i];
    ReachedIsGood(r, i);
    assert NodeGood(n, d);
    var row := n.nodes[d].bindings[p];
    assert RowGrounded(d, p, row, n.asks, n.consents);
    ask := n.asks[row.binding];
    accepted := ConsentedInRun(r, i, Consent(ask.asked, row.binding));
    AcceptedIsAsked(r, accepted, ask.asked, row.binding);
    RunIsLater(r, accepted, i);
    requested := AskedInRun(r, accepted, row.binding);
  }

  lemma AcceptedIsAsked(r: Run, j: nat, giver: Device, b: BindingId)
    requires r.Valid() && Accepts(r, j, giver, b)
    ensures b in r.states[j].asks
  {
    ReachedIsGood(r, j);
    var n := r.states[j];
    assert NodeGood(n, giver);
    var peer := Local(n.nodes[giver], r.steps[j].call).mail.value.to;
    assert PendingInboundFor(n.nodes[giver], peer, b);
    assert RowGrounded(giver, peer, n.nodes[giver].bindings[peer], n.asks, n.consents);
  }

  /** In every reachable state a peer is an own device exactly when its binding is active, and
      a clipboard mode other than off needs an active binding. */
  lemma TablesStayConsistent(r: Run, i: nat, d: Device, p: Device)
    requires r.Valid() && i < |r.states| && d < |r.states[i].nodes|
    ensures var db := r.states[i].nodes[d];
            && (p in db.bindings ==> p in db.peers)
            && (p in db.peers ==> (db.peers[p] == OwnDevice <==> IsActive(db.bindings, p)))
            && (p in db.bindings && db.bindings[p].mode != Off ==> IsActive(db.bindings, p))
  {
    ReachedIsGood(r, i);
    assert NodeGood(r.states[i], d);
  }

  // ----------------------------------------------------------------- clipboard

  /** Step `i` hands `w` to the clipboard of `device`, on behalf of `sender`. */
  ghost predicate Writes(r: Run, i: nat, device: Device, sender: Device, w: ClipboardWrite) {
    && i < |r.steps| && |r.states| == |r.steps| + 1 && r.steps[i].Deliver? && r.steps[i].event in r.states[i].letters
    && var letter := r.states[i].letters[r.steps[i].event];
       && letter.to == device < |r.states[i].nodes| && letter.from == sender
       && HandledBy(r.states[i], r.steps[i].event, r.steps[i].id, r.steps[i].named, r.steps[i].broken).write == Some(w)
  }

  lemma WriteIsNew(db: Db, sender: Device, event: EventId, body: Body, id: EventId, named: bool)
    ensures var done := Receive(db, sender, event, body, id, named);
            done.write.Some? ==>
              && body.Clip? && body.automatic && done.write.value == ClipboardWrite(Stamp(sender, body.sequence), body.text)
              && done.write.value.stamp !in db.dedup && done.write.value.stamp in done.db.dedup
              && IsActive(db.bindings, sender) && db.bindings[sender].mode.Receives()
  {
  }

  lemma WriteStamps(r: Run, i: nat, device: Device, sender: Device, w: ClipboardWrite)
    requires r.Valid() && Writes(r, i, device, sender, w)
    ensures w.stamp.origin == sender
    ensures IsActive(r.states[i].nodes[device].bindings, sender)
            && r.states[i].nodes[device].bindings[sender].mode.Receives()
  {
    assert Follows(r.states[i], r.steps[i], r.states[i + 1]);
    var letter := r.states[i].letters[r.steps[i].event];
    WriteIsNew(r.states[i].nodes[device], sender, r.steps[i].event, letter.body, r.steps[i].id, r.steps[i].named);
  }

  /** Step `i`: the user of `device` chose `mode` for its active binding with `peer`. */
  ghost predicate Chooses(r: Run, i: nat, device: Device, peer: Device, mode: Mode) {
    && i < |r.steps| && |r.states| == |r.steps| + 1 && r.steps[i].Act? && r.steps[i].device == device < |r.states[i].nodes|
    && var call := r.steps[i].call;
       && call.SetModeCall? && call.peer == peer && ParseMode(call.mode) == Some(mode)
       && Local(r.states[i].nodes[device], call).result.Ok?
  }

  ghost predicate HasMode(n: Net, d: Device, p: Device, row: Row) {
    d < |n.nodes| && p in n.nodes[d].bindings && n.nodes[d].bindings[p] == row && row.state.Active? && row.mode != Off
  }

  lemma RequestKeepsMode(db: Db, op: OperationId, peer: Device, binding: BindingId, event: EventId, p: Device)
    requires var after := Request(db, op, peer, binding, event).db; IsActive(after.bindings, p)
    ensures p in db.bindings && db.bindings[p] == Request(db, op, peer, binding, event).db.bindings[p]
  {
  }

  lemma CallSetsMode(db: Db, call: Call, p: Device)
    requires var after := Local(db, call).db; IsActive(after.bindings, p) && after.bindings[p].mode != Off
    ensures var after := Local(db, call).db;
            || (p in db.bindings && db.bindings[p] == after.bindings[p])
            || (call.SetModeCall? && call.peer == p && ParseMode(call.mode) == Some(after.bindings[p].mode) && Local(db, call).result.Ok?)
  {
    match call
    case RequestCall(op, peer, binding, event) => RequestKeepsMode(db, op, peer, binding, event, p);
    case DecideCall(op, binding, accept, event) =>
    case RemoveCall(op, peer, event) =>
    case SetModeCall(op, peer, mode) =>
    case SubmitCall(op, peer, text, automatic, message, event) => SubmitKeeps(db, op, peer, text, automatic, message, event);
  }

  lemma EventKeepsMode(db: Db, sender: Device, event: EventId, body: Body, id: EventId, named: bool, p: Device)
    requires var after := Receive(db, sender, event, body, id, named).db;
             IsActive(after.bindings, p) && after.bindings[p].mode != Off
    ensures p in db.bindings && db.bindings[p] == Receive(db, sender, event, body, id, named).db.bindings[p]
  {
    match body
    case Bind(binding) =>
    case Reply(binding, accepted) =>
    case Unbind(binding) =>
    case Clip(message, conversation, origin, sequence, text, automatic) =>
      ClipKeepsRows(db, sender, event, body, Receipt(id, db.self, event, Some(message)));
  }

  lemma ModeComesFromUser(n: Net, step: Step, d: Device, p: Device, row: Row)
    requires Enabled(n, step) && HasMode(After(n, step), d, p, row)
    ensures || HasMode(n, d, p, row)
            || (step.Act? && step.device == d && step.call.SetModeCall? && step.call.peer == p
                && ParseMode(step.call.mode) == Some(row.mode) && Local(n.nodes[d], step.call).result.Ok?)
  {
    match step
    case Act(device, call) => if device == d { CallSetsMode(n.nodes[d], call, p); }
    case Deliver(event, id, named, broken) =>
      var letter := n.letters[event];
      if letter.to == d && !broken { EventKeepsMode(n.nodes[d], letter.from, event, letter.body, id, named, p); }
    case Transmit(event) =>
    case Respond(answer) =>
    case Adjust(device, change) =>
  }

  /** Since the user chose the mode, the row has not changed. */
  lemma {:induction false} ModeSince(r: Run, k: nat, d: Device, p: Device, row: Row) returns (i: nat)
    requires r.Valid() && k < |r.states| && HasMode(r.states[k], d, p, row)
    ensures i < k && Chooses(r, i, d, p, row.mode) && forall j :: i < j <= k ==> HasMode(r.states[j], d, p, row)
    decreases k
  {
    if k == 0 {
      assert false;
    } else {
      var before := k - 1;
      assert Follows(r.states[before], r.steps[before], r.states[before + 1]);
      ModeComesFromUser(r.states[before], r.steps[before], d, p, row);
      if HasMode(r.states[before], d, p, row) {
        i := ModeSince(r, before, d, p, row);
      } else {
        i := before;
      }
    }
  }

  /** Whatever a device writes, its own user had set a receiving mode for that sender, and the
      binding has stayed active with that mode ever since. */
  lemma WriteNeedsUserChoice(r: Run, k: nat, device: Device, sender: Device, w: ClipboardWrite)
    returns (i: nat, row: Row)
    requires r.Valid() && Writes(r, k, device, sender, w)
    ensures w.stamp.origin == sender && row.mode.Receives()
    ensures i < k && Chooses(r, i, device, sender, row.mode) && forall j :: i < j <= k ==> HasMode(r.states[j], device, sender, row)
  {
    WriteStamps(r, k, device, sender, w);
    row := r.states[k].nodes[device].bindings[sender];
    i := ModeSince(r, k, device, sender, row);
  }

  /** The sequence number of the text that step `i` queues on `device`, if it queues one. */
  ghost predicate Submits(r: Run, i: nat, device: Device, sequence: nat) {
    && i < |r.steps| && |r.states| == |r.steps| + 1 && r.steps[i].Act? && r.steps[i].device == device < |r.states[i].nodes|
    && r.steps[i].call.SubmitCall?
    && var done := Local(r.states[i].nodes[device], r.steps[i].call);
       done.mail.Some? && done.mail.value.body.Clip? && done.mail.value.body.sequence == sequence
  }

  /** Texts issued by one device carry strictly increasing sequence numbers. */
  lemma SequencesIncrease(r: Run, i: nat, j: nat, device: Device, first: nat, second: nat)
    requires r.Valid() && i < j && Submits(r, i, device, first) && Submits(r, j, device, second)
    ensures 0 < first < second
  {
    assert Follows(r.states[i], r.steps[i], r.states[i + 1]);
    CallQueues(r.states[i].nodes[device], r.steps[i].call);
    CallQueues(r.states[j].nodes[device], r.steps[j].call);
    RunIsLater(r, i + 1, j);
  }
}
