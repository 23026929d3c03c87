/** Whole runs of the network: exactly-once application, and answers that can be trusted. */
module Exchange {
  import opened Basics
  import opened Bindings
  import opened Network

  ghost predicate Initial(n: Net) {
    && (forall d :: 0 <= d < |n.nodes| ==> n.nodes[d] == EmptyDb(d))
    && n.letters == map[] && n.sent == {} && n.answers == {} && n.asks == map[] && n.consents == {}
    && n.issued == {}
  }

  /** The recipient of `e` has applied it. */
  ghost predicate Processed(n: Net, e: EventId) {
    e in n.letters && n.letters[e].to < |n.nodes| && Key(n.letters[e].from, e) in n.nodes[n.letters[e].to].processed
  }

  ghost function ReceiptOf(n: Net, e: EventId): Receipt
    requires Processed(n, e)
  {
    n.nodes[n.letters[e].to].processed[Key(n.letters[e].from, e)]
  }

  /** The states before and after each step. */
  datatype Run = Run(states: seq<Net>, steps: seq<Step>)
  {
    ghost predicate Valid() {
      && |states| == |steps| + 1 && Initial(states[0])
      && forall i :: 0 <= i < |steps| ==> Follows(states[i], steps[i], states[i + 1])
    }

    /** Step `i` is the one delivery that applied event `e`. */
    ghost predicate Applies(i: nat, e: EventId) {
      && i < |steps| && |states| == |steps| + 1 && steps[i].Deliver? && steps[i].event == e
      && !Processed(states[i], e) && Processed(states[i + 1], e)
    }
  }

  ghost predicate Follows(n: Net, step: Step, after: Net) {
    Enabled(n, step) && after == After(n, step)
  }

  /** A run goes on with any enabled step. */
  lemma Extended(r: Run, step: Step) returns (more: Run)
    requires r.Valid() && Enabled(r.states[|r.steps|], step)
    ensures more.Valid() && more.steps == r.steps + [step]
            && more.states == r.states + [After(r.states[|r.steps|], step)]
  {
    var next := After(r.states[|r.steps|], step);
    more := Run(r.states + [next], r.steps + [step]);
    forall i | 0 <= i < |more.steps|
      ensures Follows(more.states[i], more.steps[i], more.states[i + 1])
    {
      if i < |r.steps| {
        assert Follows(r.states[i], r.steps[i], r.states[i + 1]);
      }
    }
  }

  /** The shortest run after which two devices know each other. */
  lemma Greeted() returns (r: Run)
    ensures r.Valid() && r.steps == [Adjust(0, MeetPeer(1)), Adjust(1, MeetPeer(0))]
    ensures r.states[2] == Net([EmptyDb(0).(peers := map[1 := Nearby]), EmptyDb(1).(peers := map[0 := Nearby])], map[], {}, {}, map[], {}, {})
  {
    var n := Net([EmptyDb(0), EmptyDb(1)], map[], {}, {}, map[], {}, {});
    r := Run([n], []);
    assert Initial(n);
    r := Extended(r, Adjust(0, MeetPeer(1)));
    r := Extended(r, Adjust(1, MeetPeer(0)));
  }

  lemma {:induction false} ReachedIsGood(r: Run, i: nat)
    requires r.Valid() && i < |r.states|
    ensures Inv(r.states[i]) && |r.states[i].nodes| == |r.states[0].nodes|
  {
    if i > 0 {
      var before := i - 1;
      ReachedIsGood(r, before);
      assert Follows(r.states[before], r.steps[before], r.states[before + 1]);
      StepKeepsInv(r.states[before], r.steps[before]);
    }
  }

  /** What no step takes back. */
  ghost predicate Later(n: Net, after: Net) {
    && |after.nodes| == |n.nodes| && Extends(n.letters, after.letters) && n.answers <= after.answers
    && Extends(n.asks, after.asks) && n.consents <= after.consents && n.issued <= after.issued
    && (forall d :: 0 <= d < |n.nodes| ==> DeviceLater(n.nodes[d], after.nodes[d]))
  }

  ghost predicate DeviceLater(db: Db, after: Db) {
    && after.self == db.self && Extends(db.processed, after.processed)
    && db.peers.Keys <= after.peers.Keys && db.sequence <= after.sequence
  }

  lemma CallIsLater(db: Db, call: Call)
    ensures DeviceLater(db, Local(db, call).db)
  {
    match call
    case RequestCall(op, peer, binding, event) => RequestIsLater(db, call);
    case DecideCall(op, binding, accept, event) => DecideIsLater(db, call);
    case RemoveCall(op, peer, event) => RemoveIsLater(db, call);
    case SetModeCall(op, peer, mode) =>
    case SubmitCall(op, peer, text, automatic, message, event) => SubmitIsLater(db, call);
  }

  lemma RequestIsLater(db: Db, call: Call)
    requires call.RequestCall?
    ensures DeviceLater(db, Local(db, call).db)
  {
  }

  lemma DecideIsLater(db: Db, call: Call)
    requires call.DecideCall?
    ensures DeviceLater(db, Local(db, call).db)
  {
  }

  lemma RemoveIsLater(db: Db, call: Call)
    requires call.RemoveCall?
    ensures DeviceLater(db, Local(db, call).db)
  {
  }

  lemma SubmitIsLater(db: Db, call: Call)
    requires call.SubmitCall?
    ensures DeviceLater(db, Local(db, call).db)
  {
  }

  lemma EventIsLater(db: Db, sender: Device, event: EventId, body: Body, id: EventId, named: bool)
    ensures DeviceLater(db, Receive(db, sender, event, body, id, named).db)
  {
    DeliveryIsAtomic(db, sender, event, body, id, named);
    if body.Clip? {
      ClipKeepsRows(db, sender, event, body, Receipt(id, db.self, event, Some(body.message)));
    } else {
      OthersKeepMessages(db, sender, event, body, id, named);
    }
  }

  lemma ActIsLater(n: Net, device: Device, call: Call)
    requires Enabled(n, Act(device, call))
    ensures Later(n, AfterCall(n, device, call))
  {
    CallQueues(n.nodes[device], call);
    CallIsLater(n.nodes[device], call);
  }

  lemma DeliveryIsLater(n: Net, event: EventId, id: EventId, named: bool, broken: bool)
    requires event in n.letters && n.letters[event].to < |n.nodes|
    ensures Later(n, AfterDelivery(n, event, id, named, broken))
  {
    var letter := n.letters[event];
    EventIsLater(n.nodes[letter.to], letter.from, event, letter.body, id, named);
  }

  lemma StepIsLater(n: Net, step: Step)
    requires Enabled(n, step)
    ensures Later(n, After(n, step))
  {
    match step
    case Act(device, call) => ActIsLater(n, device, call);
    case Deliver(event, id, named, broken) => DeliveryIsLater(n, event, id, named, broken);
    case Transmit(event) =>
    case Respond(answer) =>
    case Adjust(device, change) =>
  }

  lemma {:induction false} RunIsLater(r: Run, i: nat, j: nat)
    requires r.Valid() && i <= j < |r.states|
    ensures Later(r.states[i], r.states[j])
    decreases j
  {
    if i < j {
      var before := j - 1;
      RunIsLater(r, i, before);
      assert Follows(r.states[before], r.steps[before], r.states[before + 1]);
      StepIsLater(r.states[before], r.steps[before]);
    }
  }

  // -------------------------------------------------------------- exactly once

  lemma StaysProcessed(r: Run, i: nat, j: nat, e: EventId)
    requires r.Valid() && i <= j < |r.states| && Processed(r.states[i], e)
    ensures Processed(r.states[j], e) && ReceiptOf(r.states[j], e) == ReceiptOf(r.states[i], e)
  {
    RunIsLater(r, i, j);
  }

  lemma UnknownIsUnprocessed(n: Net, e: EventId)
    requires Inv(n)
    ensures e !in n.letters ==> forall d, p :: 0 <= d < |n.nodes| ==> Key(p, e) !in n.nodes[d].processed
  {
    forall d, p | 0 <= d < |n.nodes| && e !in n.letters
      ensures Key(p, e) !in n.nodes[d].processed
    {
      assert NodeGood(n, d);
    }
  }

  lemma OnlyDeliveriesApply(n: Net, step: Step, e: EventId)
    requires Inv(n) && Enabled(n, step) && !Processed(n, e) && Processed(After(n, step), e)
    ensures step.Deliver? && step.event == e
  {
    match step
    case Act(device, call) =>
      CallQueues(n.nodes[device], call);
      UnknownIsUnprocessed(n, e);
    case Deliver(event, id, named, broken) =>
      var letter := n.letters[event];
      DeliveryIsAtomic(n.nodes[letter.to], letter.from, event, letter.body, id, named);
    case Transmit(event) =>
    case Respond(answer) =>
    case Adjust(device, change) =>
  }

  /** A processed event was applied by some earlier delivery. */
  lemma {:induction false} AppliedBefore(r: Run, j: nat, e: EventId) returns (i: nat)
    requires r.Valid() && j < |r.states| && Processed(r.states[j], e)
    ensures i < j && r.Applies(i, e)
    decreases j
  {
    var before := j - 1;
    if j == 0 {
      assert false;
    } else if Processed(r.states[before], e) {
      i := AppliedBefore(r, before, e);
    } else {
      ReachedIsGood(r, before);
      assert Follows(r.states[before], r.steps[before], r.states[before + 1]);
      OnlyDeliveriesApply(r.states[before], r.steps[before], e);
      i := before;
    }
  }

  /** No event is applied twice, however often it is delivered. */
  lemma AppliedAtMostOnce(r: Run, i: nat, j: nat, e: EventId)
    requires r.Valid() && r.Applies(i, e) && r.Applies(j, e)
    ensures i == j
  {
    if i < j {
      StaysProcessed(r, i + 1, j, e);
    } else if j < i {
      StaysProcessed(r, j + 1, i, e);
    }
  }

  /** A delivery that changes its recipient, or writes to its clipboard, is the application
      of that event; every other device stays as it is. */
  lemma EffectsAreApplications(r: Run, i: nat, e: EventId, id: EventId, named: bool, broken: bool)
    requires r.Valid() && i < |r.steps| && r.steps[i] == Deliver(e, id, named, broken)
    ensures r.states[i + 1].nodes != r.states[i].nodes || HandledBy(r.states[i], e, id, named, broken).write.Some? ==> r.Applies(i, e)
    ensures forall d :: 0 <= d < |r.states[i].nodes| && d != r.states[i].letters[e].to ==> r.states[i + 1].nodes[d] == r.states[i].nodes[d]
  {
    var n := r.states[i];
    assert Follows(n, r.steps[i], r.states[i + 1]);
    var letter := n.letters[e];
    DeliveryIsAtomic(n.nodes[letter.to], letter.from, e, letter.body, id, named);
    assert n.nodes[letter.to := n.nodes[letter.to]] == n.nodes;
  }

  /** A stored receipt clears its row, and the event was then applied exactly once, with that
      receipt saved. */
  lemma ClearedIsAppliedOnce(r: Run, k: nat, e: EventId, receipt: Receipt) returns (i: nat)
    requires r.Valid() && k < |r.steps| && r.steps[k] == Respond(Stored(e, receipt))
    ensures i < k && r.Applies(i, e) && (forall j :: r.Applies(j, e) ==> j == i)
    ensures ReceiptOf(r.states[i + 1], e) == receipt
    ensures e in r.states[k].letters
    ensures var letter := r.states[k].letters[e];
            letter.from < |r.states[k + 1].nodes| && Key(letter.to, e) !in r.states[k + 1].nodes[letter.from].outbox
  {
    var n := r.states[k];
    ReachedIsGood(r, k);
    assert Follows(n, r.steps[k], r.states[k + 1]);
    assert AnswerGood(n, Stored(e, receipt));
    i := AppliedBefore(r, k, e);
    forall j | r.Applies(j, e)
      ensures j == i
    {
      AppliedAtMostOnce(r, i, j, e);
    }
    StaysProcessed(r, i + 1, k, e);
    var letter := n.letters[e];
    assert NodeGood(n, letter.from) && NodeGood(n, letter.to);
  }

  /** An answer settles its own row and no other: the row stays exactly if it was there and the
      answer is an error that is worth a retry. */
  lemma AnswerSettlesRow(r: Run, k: nat, answer: Answer)
    requires r.Valid() && k < |r.steps| && r.steps[k] == Respond(answer)
    ensures answer.event in r.states[k].letters
    ensures var letter := r.states[k].letters[answer.event];
            && letter.from < |r.states[k].nodes| == |r.states[k + 1].nodes|
            && var before, after := r.states[k].nodes[letter.from].outbox, r.states[k + 1].nodes[letter.from].outbox;
               && (Key(letter.to, answer.event) in after <==>
                     Key(letter.to, answer.event) in before && answer.Refused? && answer.error == WriteFailed)
               && forall key :: key != Key(letter.to, answer.event) ==>
                    (key in after <==> key in before) && (key in before ==> after[key] == before[key])
  {
    var n := r.states[k];
    ReachedIsGood(r, k);
    assert Follows(n, r.steps[k], r.states[k + 1]);
    assert AnswerGood(n, answer);
    var letter := n.letters[answer.event];
    assert NodeGood(n, letter.from) && NodeGood(n, letter.to);
    if answer.Refused? {
      OnlyWriteFailureIsRetried(answer.error);
    }
  }

  /** A receipt of another device, for another event, or for a text without its message id,
      leaves the row. */
  lemma MisfitReceiptIsIgnored(db: Db, key: Key, receipt: Receipt)
    requires key in db.outbox
    requires receipt.sender != key.peer || receipt.original != key.event || (db.outbox[key].Clip? && receipt.message == None)
    ensures Resolve(db, key, Ok(receipt)) == db
  {
  }

  /** Every later copy changes nothing and is answered with the receipt that was saved first;
      only a bind request can fail its name check before that. */
  lemma RedeliveryRepeatsReceipt(r: Run, i: nat, j: nat, e: EventId, id: EventId, named: bool)
    requires r.Valid() && r.Applies(i, e) && i < j < |r.steps| && r.steps[j] == Deliver(e, id, named, false)
    ensures r.states[j + 1].nodes == r.states[j].nodes && e in r.states[j].letters
    ensures named || !r.states[j].letters[e].body.Bind? ==>
              r.states[j + 1].answers == r.states[j].answers + {Stored(e, ReceiptOf(r.states[i + 1], e))}
  {
    var n := r.states[j];
    StaysProcessed(r, i + 1, j, e);
    ReachedIsGood(r, j);
    assert Follows(n, r.steps[j], r.states[j + 1]);
    var letter := n.letters[e];
    assert NodeGood(n, letter.to) && LetterGrounded(letter, n.asks, n.consents);
    DeliveryIsAtomic(n.nodes[letter.to], letter.from, e, letter.body, id, named);
    assert n.nodes[letter.to := n.nodes[letter.to]] == n.nodes;
  }

  // ------------------------------------------------------------- failed events

  /** A refusal was written by an earlier delivery. */
  lemma {:induction false} RefusedByDelivery(r: Run, k: nat, e: EventId, error: Error) returns (j: nat)
    requires r.Valid() && k < |r.states| && Refused(e, error) in r.states[k].answers
    ensures j < k && r.steps[j].Deliver? && r.steps[j].event == e && Follows(r.states[j], r.steps[j], r.states[j + 1])
    ensures HandledBy(r.states[j], e, r.steps[j].id, r.steps[j].named, r.steps[j].broken).answer == Err(error)
    decreases k
  {
    if k == 0 {
      assert false;
    } else {
      var before := k - 1;
      assert Follows(r.states[before], r.steps[before], r.states[before + 1]);
      if Refused(e, error) in r.states[before].answers {
        j := RefusedByDelivery(r, before, e, error);
      } else {
        j := before;
      }
    }
  }

  lemma {:induction false} DeadForever(r: Run, i: nat, j: nat, e: EventId, error: Error)
    requires r.Valid() && i <= j < |r.states|
    requires Refused(e, error) in r.states[i].answers && Terminal(error) && e in r.states[i].letters
             && r.states[i].letters[e].body.Reply?
    ensures !Processed(r.states[j], e)
  {
    RunIsLater(r, i, j);
    ReachedIsGood(r, j);
    assert AnswerGood(r.states[j], Refused(e, error));
  }

  /** A bind reply whose row was failed by a terminal error is never applied: not before, and
      by no copy that arrives later. */
  lemma FailedReplyIsNeverApplied(r: Run, k: nat, e: EventId, error: Error, i: nat)
    requires r.Valid() && k < |r.steps| && r.steps[k] == Respond(Refused(e, error)) && Terminal(error)
    requires e in r.states[k].letters && r.states[k].letters[e].body.Reply?
    ensures !r.Applies(i, e)
  {
    assert Follows(r.states[k], r.steps[k], r.states[k + 1]);
    if r.Applies(i, e) {
      if i + 1 <= k {
        StaysProcessed(r, i + 1, k, e);
        DeadForever(r, k, k, e, error);
      } else {
        DeadForever(r, k, i + 1, e, error);
      }
    }
  }

  /** The copy delivered at step `i` is acceptable and meets the guard of its kind. */
  ghost predicate GuardHolds(r: Run, i: nat, e: EventId)
    requires r.Valid()
  {
    && i < |r.steps| && r.steps[i].Deliver? && r.steps[i].event == e && !r.steps[i].broken
    && e in r.states[i].letters && r.states[i].letters[e].to < |r.states[i].nodes|
    && var letter := r.states[i].letters[e];
       var db := r.states[i].nodes[letter.to];
       Acceptable(db.self, letter.from, letter.body, r.steps[i].named) && Guard(db, letter.from, letter.body)
  }

  /** Whatever its row's fate, an event is applied in a run exactly when the guard holds at
      one of its deliveries, and then at the first of those. */
  lemma AppliedExactlyAtFirstGuard(r: Run, i: nat, e: EventId)
    requires r.Valid()
    ensures r.Applies(i, e) <==> GuardHolds(r, i, e) && forall j :: 0 <= j < i ==> !GuardHolds(r, j, e)
  {
    forall j: nat | GuardHolds(r, j, e)
      ensures Processed(r.states[j + 1], e)
    {
      GuardApplies(r, j, e);
    }
    if r.Applies(i, e) {
      AppliesNeedsGuard(r, i, e);
      forall j | 0 <= j < i
        ensures !GuardHolds(r, j, e)
      {
        if GuardHolds(r, j, e) {
          StaysProcessed(r, j + 1, i, e);
        }
      }
    } else if GuardHolds(r, i, e) {
      if Processed(r.states[i], e) {
        var first := AppliedBefore(r, i, e);
        AppliesNeedsGuard(r, first, e);
      }
    }
  }

  lemma GuardApplies(r: Run, j: nat, e: EventId)
    requires r.Valid() && GuardHolds(r, j, e)
    ensures Processed(r.states[j + 1], e)
  {
    var n := r.states[j];
    assert Follows(n, r.steps[j], r.states[j + 1]);
    var letter := n.letters[e];
    DeliveryIsAtomic(n.nodes[letter.to], letter.from, e, letter.body, r.steps[j].id, r.steps[j].named);
  }

  lemma AppliesNeedsGuard(r: Run, i: nat, e: EventId)
    requires r.Valid() && r.Applies(i, e)
    ensures GuardHolds(r, i, e)
  {
    var n := r.states[i];
    assert Follows(n, r.steps[i], r.states[i + 1]);
    var letter := n.letters[e];
    DeliveryIsAtomic(n.nodes[letter.to], letter.from, e, letter.body, r.steps[i].id, r.steps[i].named);
  }
}
