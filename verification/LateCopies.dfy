/** A terminal error does not always mean "never applied": a late copy of an unbind or of an
    automatic clipboard text can still be applied after its row was failed, because what it
    needs has arrived in between. What can be said for unbinds, bind requests and plain texts. */
module LateCopies {
  import opened Basics
  import opened Bindings
  import opened Network
  import opened Exchange
  import opened Agreement
  import opened SameBinding

  const BINDING: BindingId := 7
  const BIND_EVENT: EventId := 1
  const UNBIND_EVENT: EventId := 2

  /** Device 0 requests a binding and sends the bind event. */
  lemma Asking() returns (r: Run)
    ensures r.Valid() && |r.steps| == 4 && |r.states[4].nodes| == 2
    ensures r.states[4].nodes[1] == EmptyDb(1).(peers := map[0 := Nearby])
    ensures var db := r.states[4].nodes[0];
            && db.bindings == map[1 := Row(BINDING, PendingOutbound, Off, 0)] && db.operations.Keys == {0}
            && db.outbox == map[Key(1, BIND_EVENT) := Bind(BINDING)]
    ensures r.states[4].letters == map[BIND_EVENT := Letter(0, 1, Bind(BINDING))]
    ensures r.states[4].sent == {BIND_EVENT} && r.states[4].answers == {}
  {
    r := Greeted();
    r := Extended(r, Act(0, RequestCall(0, 1, BINDING, BIND_EVENT)));
    r := Extended(r, Transmit(BIND_EVENT));
  }

  /** It takes the request back and sends that too. */
  lemma BothSent() returns (r: Run)
    ensures r.Valid() && |r.steps| == 6 && |r.states[6].nodes| == 2
    ensures r.states[6].nodes[1] == EmptyDb(1).(peers := map[0 := Nearby])
    ensures r.states[6].letters == map[BIND_EVENT := Letter(0, 1, Bind(BINDING)), UNBIND_EVENT := Letter(0, 1, Unbind(BINDING))]
    ensures r.states[6].sent == {BIND_EVENT, UNBIND_EVENT} && r.states[6].answers == {}
  {
    r := Asking();
    r := Extended(r, Act(0, RemoveCall(1, 1, UNBIND_EVENT)));
    r := Extended(r, Transmit(UNBIND_EVENT));
  }

  /** The unbind overtakes its bind request and is refused; its row is failed. */
  lemma UnbindFailed() returns (r: Run)
    ensures r.Valid() && |r.steps| == 8 && |r.states[8].nodes| == 2
    ensures r.steps[7] == Respond(Refused(UNBIND_EVENT, BindingNotFound))
    ensures r.states[7].letters == r.states[8].letters
    ensures r.states[8].nodes[1] == EmptyDb(1).(peers := map[0 := Nearby])
    ensures r.states[8].letters == map[BIND_EVENT := Letter(0, 1, Bind(BINDING)), UNBIND_EVENT := Letter(0, 1, Unbind(BINDING))]
    ensures r.states[8].sent == {BIND_EVENT, UNBIND_EVENT}
  {
    r := BothSent();
    r := Extended(r, Deliver(UNBIND_EVENT, 100, true, false));
    assert r.states[7].nodes[1] == r.states[6].nodes[1];
    assert r.states[7].answers == {Refused(UNBIND_EVENT, BindingNotFound)};
    r := Extended(r, Respond(Refused(UNBIND_EVENT, BindingNotFound)));
  }

  /** Then the bind request arrives, and a second copy of the unbind is applied. */
  lemma FailedUnbindMayStillBeApplied() returns (r: Run, k: nat, i: nat)
    ensures r.Valid() && k < i < |r.steps|
    ensures UNBIND_EVENT in r.states[k].letters && r.states[k].letters[UNBIND_EVENT].body.Unbind?
    ensures r.steps[k] == Respond(Refused(UNBIND_EVENT, BindingNotFound)) && Terminal(BindingNotFound)
    ensures r.Applies(i, UNBIND_EVENT)
  {
    OnlyWriteFailureIsRetried(BindingNotFound);
    r := UnbindFailed();
    r := Extended(r, Deliver(BIND_EVENT, 101, true, false));
    assert r.states[9].nodes[1].bindings == map[0 := Row(BINDING, PendingInbound, Off, 0)];
    assert Key(0, UNBIND_EVENT) !in r.states[9].nodes[1].processed;
    r := Extended(r, Deliver(UNBIND_EVENT, 102, true, false));
    assert Key(0, UNBIND_EVENT) in r.states[10].nodes[1].processed;
    k, i := 7, 9;
  }

  // ------------------------------------------------------- automatic texts

  const CLIP_EVENT: EventId := 5
  const CLIP_MESSAGE: MessageId := 50
  const CLIP_TEXT: Bytes := [65]
  const CLIP: Body := Clip(CLIP_MESSAGE, Private(0, 1), 0, 1, CLIP_TEXT, true)

  /** The run starts with two crossing requests. */
  ghost predicate Crossed(r: Run) {
    && |r.steps| >= 8 && |r.states| == |r.steps| + 1 && (forall i :: 0 <= i < 6 ==> !r.steps[i].Deliver?)
    && r.steps[6] == Deliver(LEFT_BIND, 100, true, false) && r.steps[7] == Deliver(RIGHT_BIND, 101, true, false)
    && r.states[6].letters == r.states[7].letters ==
       map[LEFT_BIND := Letter(0, 1, Bind(LEFT_BINDING)), RIGHT_BIND := Letter(1, 0, Bind(RIGHT_BINDING))]
  }

  /** Device 1 has been asked, and has not decided yet. */
  predicate Undecided(db: Db) {
    && db.self == 1 && db.peers == map[0 := Nearby] && db.bindings == map[0 := Row(LEFT_BINDING, PendingInbound, Off, 0)]
    && db.processed.Keys == {Key(0, LEFT_BIND)} && db.operations.Keys == {0} && db.outbox.Keys == {Key(0, RIGHT_BIND)}
    && Untouched(db)
  }

  /** Device 0 has accepted the other's request and chosen `mode`. */
  predicate Decided(db: Db, mode: Mode) {
    && db.self == 0 && db.peers == map[1 := OwnDevice] && db.bindings == map[1 := Row(RIGHT_BINDING, Active, mode, 1)]
    && db.outbox.Keys == {Key(1, LEFT_BIND), Key(1, 3)} && db.sequence == 0 && db.dedup == {} && db.messages == map[]
  }

  lemma LeftDecided() returns (r: Run)
    ensures r.Valid() && |r.steps| == 9 && Crossed(r) && !r.steps[8].Deliver?
    ensures var n := Last(r);
            && |n.nodes| == 2 && Decided(n.nodes[0], Off) && Undecided(n.nodes[1]) && n.nodes[0].operations.Keys == {0, 1}
            && n.nodes[0].conversations == map[] && n.letters.Keys == {LEFT_BIND, RIGHT_BIND, 3} && n.issued == {}
  {
    r := BothReceived();
    r := Accepting(r, 0, 1, 1, RIGHT_BINDING, 3);
  }

  lemma Opened() returns (r: Run)
    ensures r.Valid() && |r.steps| == 10 && Crossed(r) && !r.steps[8].Deliver? && !r.steps[9].Deliver?
    ensures var n := Last(r);
            && |n.nodes| == 2 && Decided(n.nodes[0], Off) && Undecided(n.nodes[1]) && n.nodes[0].operations.Keys == {0, 1}
            && n.nodes[0].conversations.Keys == {Private(0, 1)} && n.letters.Keys == {LEFT_BIND, RIGHT_BIND, 3} && n.issued == {}
  {
    r := LeftDecided();
    var n := Last(r);
    r := Extended(r, Adjust(0, OpenThread(1)));
    assert Last(r).nodes[0] == n.nodes[0].(conversations := map[Private(0, 1) := Thread(0, false)]);
  }

  lemma Called(r: Run, d: Device, call: Call) returns (more: Run)
    requires r.Valid() && d < |Last(r).nodes| && Fresh(Last(r), call)
    ensures more.Valid() && more.steps == r.steps + [Act(d, call)] && |more.states| == |r.states| + 1 && r.states <= more.states
    ensures var n, after := Last(r), Last(more);
            var done := Local(n.nodes[d], call);
            && after.nodes == n.nodes[d := done.db] && after.letters == Posted(n.letters, d, call.Event(), done.mail)
            && after.sent == n.sent && after.issued == IssuedBy(n.issued, call)
  {
    more := Extended(r, Act(d, call));
  }

  lemma ModeChosen(db: Db)
    requires Decided(db, Off) && db.operations.Keys == {0, 1}
    ensures var done := ChooseMode(db, 2, 1, "send_only");
            && Decided(done.db, SendOnly) && done.db.operations.Keys == {0, 1, 2} && done.db.conversations == db.conversations
            && done.mail == None
  {
    assert ParseMode("send_only") == Some(SendOnly);
  }

  lemma ReadyToSend() returns (r: Run)
    ensures r.Valid() && |r.steps| == 11 && Crossed(r) && forall i :: 8 <= i < 11 ==> !r.steps[i].Deliver?
    ensures var n := Last(r);
            && |n.nodes| == 2 && Decided(n.nodes[0], SendOnly) && Undecided(n.nodes[1]) && n.nodes[0].operations.Keys == {0, 1, 2}
            && n.nodes[0].conversations.Keys == {Private(0, 1)} && n.letters.Keys == {LEFT_BIND, RIGHT_BIND, 3} && n.issued == {}
  {
    r := Opened();
    var n := Last(r);
    ModeChosen(n.nodes[0]);
    r := Called(r, 0, SetModeCall(2, 1, "send_only"));
  }

  /** It submits an automatic text and sends it. */
  lemma ClipSent() returns (r: Run)
    ensures r.Valid() && |r.steps| == 13 && Crossed(r) && forall i :: 8 <= i < 13 ==> !r.steps[i].Deliver?
    ensures var n := Last(r);
            && |n.nodes| == 2 && n.nodes[0].self == 0 && Undecided(n.nodes[1])
            && n.letters.Keys == {LEFT_BIND, RIGHT_BIND, 3, CLIP_EVENT} && n.letters[CLIP_EVENT] == Letter(0, 1, CLIP)
            && CLIP_EVENT in n.sent
  {
    r := ReadyToSend();
    r := Called(r, 0, SubmitCall(3, 1, CLIP_TEXT, true, CLIP_MESSAGE, CLIP_EVENT));
    r := Extended(r, Transmit(CLIP_EVENT));
  }

  /** The text is refused, because device 1 has not decided, and its row is failed. */
  lemma ClipFailed() returns (r: Run)
    ensures r.Valid() && |r.steps| == 15 && Crossed(r) && forall i :: 8 <= i < 13 ==> !r.steps[i].Deliver?
    ensures r.steps[13] == Deliver(CLIP_EVENT, 102, true, false)
    ensures r.steps[14] == Respond(Refused(CLIP_EVENT, ClipboardBindingRequired))
    ensures r.states[13].letters == r.states[14].letters == Last(r).letters
    ensures var n := Last(r);
            && |n.nodes| == 2 && Undecided(n.nodes[1]) && CLIP_EVENT in n.sent
            && n.letters.Keys == {LEFT_BIND, RIGHT_BIND, 3, CLIP_EVENT} && n.letters[CLIP_EVENT] == Letter(0, 1, CLIP)
  {
    r := ClipSent();
    var n := Last(r);
    r := Extended(r, Deliver(CLIP_EVENT, 102, true, false));
    assert Last(r).nodes[1] == n.nodes[1];
    r := Extended(r, Respond(Refused(CLIP_EVENT, ClipboardBindingRequired)));
  }

  /** Then its user accepts. */
  lemma RightDecided() returns (r: Run)
    ensures r.Valid() && |r.steps| == 16 && Crossed(r) && !r.steps[15].Deliver? && forall i :: 8 <= i < 13 ==> !r.steps[i].Deliver?
    ensures r.steps[13] == Deliver(CLIP_EVENT, 102, true, false)
    ensures r.steps[14] == Respond(Refused(CLIP_EVENT, ClipboardBindingRequired))
    ensures CLIP_EVENT in r.states[14].letters && r.states[14].letters[CLIP_EVENT] == Letter(0, 1, CLIP)
    ensures var n := Last(r);
            && |n.nodes| == 2 && n.nodes[1].self == 1 && n.nodes[1].peers == map[0 := OwnDevice]
            && n.nodes[1].bindings == map[0 := Row(LEFT_BINDING, Active, Off, 0)]
            && n.nodes[1].processed.Keys == {Key(0, LEFT_BIND)} && Untouched(n.nodes[1])
            && CLIP_EVENT in n.letters && n.letters[CLIP_EVENT] == Letter(0, 1, CLIP) && CLIP_EVENT in n.sent
  {
    r := ClipFailed();
    r := Accepting(r, 1, 0, 1, LEFT_BINDING, 4);
  }

  lemma Arrived(r: Run, e: EventId, id: EventId) returns (more: Run)
    requires r.Valid() && e in Last(r).sent && e in Last(r).letters && Last(r).letters[e].to < |Last(r).nodes|
    ensures more.Valid() && more.steps == r.steps + [Deliver(e, id, true, false)]
    ensures |more.states| == |r.states| + 1 && r.states <= more.states
  {
    more := Extended(r, Deliver(e, id, true, false));
  }

  /** The two copies of the text are the only frames after the two bind events. */
  lemma ClipsComeLater(r: Run)
    requires r.Valid() && |r.steps| == 17 && Crossed(r) && (forall i :: 8 <= i < 17 && i != 13 && i != 16 ==> !r.steps[i].Deliver?)
    requires r.steps[13].Deliver? && r.steps[16].Deliver? && r.steps[13].event == r.steps[16].event == CLIP_EVENT
    ensures InOrder(r)
  {
    forall i, j, k | 0 <= i < j < |r.steps| && 0 <= k < |r.states| && SameWay(r, i, j) && r.steps[j].event in r.states[k].letters
      ensures r.steps[i].event in r.states[k].letters
    {
      if k < 6 {
        RunIsLater(r, k, 6);
      } else {
        RunIsLater(r, 6, k);
      }
    }
  }

  lemma LateClip() returns (r: Run)
    ensures r.Valid() && InOrder(r) && |r.steps| == 17 && r.steps[14] == Respond(Refused(CLIP_EVENT, ClipboardBindingRequired))
    ensures CLIP_EVENT in r.states[14].letters && r.states[14].letters[CLIP_EVENT].body.Clip? && r.Applies(16, CLIP_EVENT)
  {
    r := RightDecided();
    assert Key(0, CLIP_EVENT) !in Last(r).nodes[1].processed;
    r := Arrived(r, CLIP_EVENT, 103);
    GuardApplies(r, 16, CLIP_EVENT);
    ClipsComeLater(r);
  }

  /** And a late copy of the failed text is applied; no frame of this run has overtaken another. */
  lemma FailedClipMayStillBeApplied() returns (r: Run, k: nat, i: nat)
    ensures r.Valid() && InOrder(r) && k < i < |r.steps|
    ensures CLIP_EVENT in r.states[k].letters && r.states[k].letters[CLIP_EVENT].body.Clip?
    ensures r.steps[k] == Respond(Refused(CLIP_EVENT, ClipboardBindingRequired)) && Terminal(ClipboardBindingRequired)
    ensures r.Applies(i, CLIP_EVENT)
  {
    OnlyWriteFailureIsRetried(ClipboardBindingRequired);
    r := LateClip();
    k, i := 14, 16;
  }

  // ------------------------------------------------------- what can be said

  /** If frames arrive in order, an unbind whose row was failed by a terminal error is never
      applied: not before, and by no copy that arrives later. */
  lemma FailedUnbindInOrderIsNeverApplied(r: Run, k: nat, e: EventId, error: Error, i: nat)
    requires r.Valid() && InOrder(r) && k < |r.steps| && r.steps[k] == Respond(Refused(e, error)) && Terminal(error)
    requires e in r.states[k].letters && r.states[k].letters[e].body.Unbind?
    ensures !r.Applies(i, e)
  {
    assert Follows(r.states[k], r.steps[k], r.states[k + 1]);
    var j := RefusedByDelivery(r, k, e, error);
    OnlyWriteFailureIsRetried(error);
    RunIsLater(r, j, k);
    var letter := r.states[j].letters[e];
    assert !HasId(r.states[j], letter.to, letter.from, letter.body.binding) && !Processed(r.states[j], e) by {
      ReachedIsGood(r, j);
      assert NodeGood(r.states[j], letter.to);
    }
    if r.Applies(i, e) {
      AppliesNeedsGuard(r, i, e);
      if i < j {
        StaysProcessed(r, i + 1, j, e);
      } else {
        RunIsLater(r, j, i);
        OverdueId(r, j, i, e);
      }
    }
  }

  /** An id that an unbind did not find cannot come up later: its bind event was queued first. */
  lemma OverdueId(r: Run, j: nat, i: nat, e: EventId)
    requires r.Valid() && InOrder(r) && j < i < |r.states| && r.steps[j].Deliver? && r.steps[j].event == e
    requires e in r.states[j].letters && r.states[j].letters[e].body.Unbind?
    requires var letter := r.states[j].letters[e];
             !HasId(r.states[j], letter.to, letter.from, letter.body.binding)
    ensures var letter := r.states[j].letters[e];
            !HasId(r.states[i], letter.to, letter.from, letter.body.binding)
  {
    var letter := r.states[j].letters[e];
    var b := letter.body.binding;
    if HasId(r.states[i], letter.to, letter.from, b) {
      var x := SomeStepGivesId(r, j, i, letter.to, letter.from, b);
      RunIsLater(r, j, x);
      UnbindIsAsked(r, j, e);
      GivenIdIsAsked(r, x, letter.to, letter.from, b);
      assert Follows(r.states[x], r.steps[x], r.states[x + 1]) && b in r.states[x].asks;
      var f := r.steps[x].event;
      assert r.states[x].letters[f] == Letter(letter.from, letter.to, Bind(b));
      assert SameWay(r, j, x);
      ReachedIsGood(r, x);
      assert LetterGrounded(r.states[x].letters[f], r.states[x].asks, r.states[x].consents);
      var t := AskedInRun(r, x, b);
      BindIsQueuedByRequest(r, t, x, Ask(letter.from, letter.to), b, f);
      assert f in r.states[t + 1].letters && e in r.states[t + 1].letters;
      QueuedAlone(r, t, e, f);
      RunIsLater(r, t, x);
      UnbindIsAsked(r, t, e);
      AskIsRecorded(r, t, Ask(letter.from, letter.to), b);
    }
  }

  lemma UnbindIsAsked(r: Run, j: nat, e: EventId)
    requires r.Valid() && j < |r.states| && e in r.states[j].letters && r.states[j].letters[e].body.Unbind?
    ensures r.states[j].letters[e].body.binding in r.states[j].asks
  {
    ReachedIsGood(r, j);
    assert LetterGrounded(r.states[j].letters[e], r.states[j].asks, r.states[j].consents);
  }

  /** Every copy of `e` reaches a device that has met its sender, with the name of the hello. */
  ghost predicate Welcome(r: Run, e: EventId) {
    forall i :: 0 <= i < |r.steps| && |r.states| == |r.steps| + 1 && r.steps[i].Deliver? && r.steps[i].event == e ==>
      r.steps[i].named && e in r.states[i].letters
      && (var letter := r.states[i].letters[e];
          letter.to < |r.states[i].nodes| && letter.from in r.states[i].nodes[letter.to].peers)
  }

  /** A bind request or a text sent by hand, welcome at its recipient, is never failed. */
  lemma WelcomeIsNeverFailed(r: Run, k: nat, e: EventId, error: Error)
    requires r.Valid() && Welcome(r, e) && k < |r.steps| && r.steps[k] == Respond(Refused(e, error))
    requires e in r.states[k].letters
    requires var body := r.states[k].letters[e].body; body.Bind? || (body.Clip? && !body.automatic)
    ensures !Terminal(error)
  {
    assert Follows(r.states[k], r.steps[k], r.states[k + 1]);
    var j := RefusedByDelivery(r, k, e, error);
    RunIsLater(r, j, k);
    OnlyWriteFailureIsRetried(error);
    ReachedIsGood(r, j);
    var n := r.states[j];
    var letter := n.letters[e];
    assert NodeGood(n, letter.to) && LetterGrounded(letter, n.asks, n.consents);
    if letter.body.Bind? {
      var t := AskedInRun(r, j, letter.body.binding);
      assert letter.from != letter.to by {
        ReachedIsGood(r, t);
        assert NodeGood(r.states[t], letter.from);
      }
    }
  }
}
