/** Clipboard texts over whole runs: what a device has stored from a peer is exactly what it
    received from that peer, whatever else reads, deletes, counts or prunes its tables. */
module Clips {
  import opened Basics
  import opened Bindings
  import opened Network
  import opened Exchange
  import opened Agreement
  import opened SameBinding

  ghost predicate IsClip(n: Net, e: EventId) {
    e in n.letters && n.letters[e].body.Clip?
  }

  /** The message row that a clipboard event makes at its recipient. */
  function RowOf(letter: Letter): Message
    requires letter.body.Clip?
  {
    Message(letter.body.conversation, letter.from, letter.body.text, true, false)
  }

  /** Clipboard events are numbered by their sender and have message ids of their own. */
  ghost predicate Numbered(n: Net) {
    && (forall e :: IsClip(n, e) ==>
          && n.letters[e].from < |n.nodes| && n.letters[e].body.sequence <= n.nodes[n.letters[e].from].sequence
          && n.letters[e].body.message in n.issued)
    && (forall e, f :: IsClip(n, e) && IsClip(n, f) && e != f ==>
          && n.letters[e].body.message != n.letters[f].body.message
          && (n.letters[e].from == n.letters[f].from ==> n.letters[e].body.sequence != n.letters[f].body.sequence))
  }

  /** A stored row was issued; if it is a clipboard text, an event stands behind it, which was
      applied here if it came from a peer; and no event stands behind a row of another kind. */
  ghost predicate RowKnown(n: Net, d: Device, m: MessageId, row: Message) {
    && m in n.issued
    && (if row.clip then
          exists e :: IsClip(n, e) && n.letters[e].body.message == m && n.letters[e].from == row.sender
            && (row.sender != d ==> n.letters[e].to == d && Processed(n, e))
        else
          forall e :: IsClip(n, e) ==> n.letters[e].body.message != m)
  }

  ghost predicate RowsKnown(n: Net, d: Device)
    requires d < |n.nodes|
  {
    forall m :: m in n.nodes[d].messages ==> RowKnown(n, d, m, n.nodes[d].messages[m])
  }

  /** The row of a clipboard event is there, with its text. */
  ghost predicate HasRow(db: Db, letter: Letter)
    requires letter.body.Clip?
  {
    letter.body.message in db.messages && db.messages[letter.body.message].(deleted := false) == RowOf(letter)
  }

  ghost predicate Kept(n: Net, e: EventId) {
    IsClip(n, e) && Processed(n, e) ==> HasRow(n.nodes[n.letters[e].to], n.letters[e])
  }

  /** A remembered stamp of a peer belongs to an applied event. */
  ghost predicate StampKnown(n: Net, d: Device, s: Stamp) {
    exists e :: IsClip(n, e) && n.letters[e].to == d && Processed(n, e)
      && s == Stamp(n.letters[e].from, n.letters[e].body.sequence)
  }

  ghost predicate StampsKnown(n: Net, d: Device)
    requires d < |n.nodes|
  {
    forall s :: s in n.nodes[d].dedup && s.origin != d ==> StampKnown(n, d, s)
  }

  /** Nothing is unread that is not there. */
  ghost predicate Countable(db: Db) {
    forall c :: UnreadOf(db, c) <= |Live(db, c)|
  }

  ghost predicate ClipsGood(n: Net) {
    && Numbered(n) && (forall e :: Kept(n, e))
    && (forall d :: 0 <= d < |n.nodes| ==> RowsKnown(n, d) && StampsKnown(n, d) && Countable(n.nodes[d]))
  }

  // ------------------------------------------------------------------ one step

  /** What is known of letters and messages stays known. */
  ghost predicate Grown(n: Net, after: Net) {
    && |after.nodes| == |n.nodes| && Extends(n.letters, after.letters) && n.issued <= after.issued
    && (forall e :: Processed(n, e) ==> Processed(after, e))
    && (forall e :: IsClip(after, e) && e !in n.letters ==> after.letters[e].body.message !in n.issued)
  }

  lemma RowStaysKnown(n: Net, after: Net, d: Device, m: MessageId, row: Message, now: Message)
    requires Grown(n, after) && RowKnown(n, d, m, row) && now.clip == row.clip && now.sender == row.sender
    ensures RowKnown(after, d, m, now)
  {
    if row.clip {
      var e :| IsClip(n, e) && n.letters[e].body.message == m && n.letters[e].from == row.sender
               && (row.sender != d ==> n.letters[e].to == d && Processed(n, e));
      assert IsClip(after, e) && after.letters[e] == n.letters[e];
    } else {
      forall e | IsClip(after, e)
        ensures after.letters[e].body.message != m
      {
        assert e in n.letters ==> IsClip(n, e);
      }
    }
  }

  lemma StampStaysKnown(n: Net, after: Net, d: Device, s: Stamp)
    requires Grown(n, after) && StampKnown(n, d, s)
    ensures StampKnown(after, d, s)
  {
    var e :| IsClip(n, e) && n.letters[e].to == d && Processed(n, e) && s == Stamp(n.letters[e].from, n.letters[e].body.sequence);
    assert IsClip(after, e) && after.letters[e] == n.letters[e];
  }

  lemma NodeStays(n: Net, after: Net, d: Device)
    requires Grown(n, after) && d < |n.nodes| && RowsKnown(n, d) && StampsKnown(n, d)
    requires RowsStay(n.nodes[d], after.nodes[d])
    ensures RowsKnown(after, d) && StampsKnown(after, d)
  {
    forall m | m in after.nodes[d].messages
      ensures RowKnown(after, d, m, after.nodes[d].messages[m])
    {
      RowStaysKnown(n, after, d, m, n.nodes[d].messages[m], after.nodes[d].messages[m]);
    }
    forall s | s in after.nodes[d].dedup && s.origin != d
      ensures StampKnown(after, d, s)
    {
      StampStaysKnown(n, after, d, s);
    }
  }

  /** A node whose rows keep their kind and sender, with no new stamp. */
  ghost predicate RowsStay(db: Db, after: Db) {
    && after.dedup <= db.dedup && after.messages.Keys == db.messages.Keys
    && forall m :: m in db.messages ==> after.messages[m].(deleted := false) == db.messages[m].(deleted := false)
  }

  ghost predicate RowsSurvive(db: Db, after: Db) {
    forall m :: m in db.messages ==>
      m in after.messages && after.messages[m].(deleted := false) == db.messages[m].(deleted := false)
  }

  lemma KeptStays(n: Net, after: Net, e: EventId)
    requires Grown(n, after) && Kept(n, e) && (Processed(after, e) ==> Processed(n, e))
    requires forall d :: 0 <= d < |n.nodes| ==> RowsSurvive(n.nodes[d], after.nodes[d])
    ensures Kept(after, e)
  {
    if IsClip(after, e) && Processed(after, e) {
      assert IsClip(n, e) && after.letters[e] == n.letters[e];
      assert RowsSurvive(n.nodes[n.letters[e].to], after.nodes[n.letters[e].to]);
    }
  }

  /** What remains to be shown when a step changes one node and applies at most one event. */
  lemma OneNodeKeepsClips(n: Net, after: Net, d: Device, e: EventId)
    requires ClipsGood(n) && Grown(n, after) && d < |n.nodes|
    requires forall o :: 0 <= o < |n.nodes| && o != d ==> after.nodes[o] == n.nodes[o]
    requires forall f :: f != e && Processed(after, f) ==> Processed(n, f)
    requires RowsSurvive(n.nodes[d], after.nodes[d]) && Kept(after, e) && Numbered(after)
    requires RowsKnown(after, d) && StampsKnown(after, d) && Countable(after.nodes[d])
    ensures ClipsGood(after)
  {
    forall f
      ensures Kept(after, f)
    {
      if f != e {
        KeptStays(n, after, f);
      }
    }
    forall o | 0 <= o < |n.nodes| && o != d
      ensures RowsKnown(after, o) && StampsKnown(after, o) && Countable(after.nodes[o])
    {
      NodeStays(n, after, o);
    }
  }

  lemma SameCounts(db: Db, after: Db)
    requires Countable(db) && (forall c :: Live(after, c) == Live(db, c) && UnreadOf(after, c) <= UnreadOf(db, c))
    ensures Countable(after)
  {
    forall c
      ensures UnreadOf(after, c) <= |Live(after, c)|
    {
      assert UnreadOf(db, c) <= |Live(db, c)|;
    }
  }

  lemma SameNumbers(n: Net, after: Net)
    requires Numbered(n) && Grown(n, after) && after.letters == n.letters
    requires forall d :: 0 <= d < |n.nodes| ==> after.nodes[d].sequence == n.nodes[d].sequence
    ensures Numbered(after)
  {
    assert forall e :: IsClip(after, e) ==> IsClip(n, e);
  }

  /** What remains to be shown when a step queues nothing, changes one node and applies at
      most event `e`. */
  lemma EventKeepsClips(n: Net, after: Net, d: Device, e: EventId)
    requires ClipsGood(n) && Grown(n, after) && d < |n.nodes| && after.letters == n.letters
    requires forall o :: 0 <= o < |n.nodes| && o != d ==> after.nodes[o] == n.nodes[o]
    requires forall f :: f != e && Processed(after, f) ==> Processed(n, f)
    requires RowsSurvive(n.nodes[d], after.nodes[d]) && after.nodes[d].sequence == n.nodes[d].sequence
    requires RowsKnown(after, d) && StampsKnown(after, d) && Countable(after.nodes[d]) && Kept(after, e)
    ensures ClipsGood(after)
  {
    SameNumbers(n, after);
    OneNodeKeepsClips(n, after, d, e);
  }

  lemma OneQuietNode(n: Net, after: Net, d: Device)
    requires ClipsGood(n) && Grown(n, after) && d < |n.nodes| && after.letters == n.letters
    requires forall o :: 0 <= o < |n.nodes| && o != d ==> after.nodes[o] == n.nodes[o]
    requires forall f :: Processed(after, f) ==> Processed(n, f)
    requires RowsSurvive(n.nodes[d], after.nodes[d]) && after.nodes[d].sequence == n.nodes[d].sequence
    requires RowsKnown(after, d) && StampsKnown(after, d) && Countable(after.nodes[d])
    ensures ClipsGood(after)
  {
    KeptStays(n, after, 0);
    EventKeepsClips(n, after, d, 0);
  }

  // ------------------------------------------------------------------ own calls

  /** A call writes at most its own message row and stamp, with the number it queues. */
  predicate WritesOwn(db: Db, call: Call, done: Done) {
    && done.db.self == db.self && done.db.conversations == db.conversations
    && (done.mail.Some? && done.mail.value.body.Clip? ==> call.SubmitCall?)
    && if call.SubmitCall? && done.mail.Some? then
         var body := done.mail.value.body;
         && body.Clip? && body.sequence == db.sequence + 1 == done.db.sequence && body.message == call.message
         && call.message !in db.messages
         && done.db.messages == db.messages[call.message := Message(body.conversation, db.self, call.text, true, false)]
         && done.db.dedup == db.dedup + {Stamp(db.self, done.db.sequence)}
       else
         done.db.messages == db.messages && done.db.dedup == db.dedup && done.db.sequence == db.sequence
  }

  lemma CallWrites(db: Db, call: Call)
    ensures WritesOwn(db, call, Local(db, call))
  {
    match call
    case RequestCall(op, peer, binding, event) => RequestWrites(db, call);
    case DecideCall(op, binding, accept, event) => DecideWrites(db, call);
    case RemoveCall(op, peer, event) => RemoveWrites(db, call);
    case SetModeCall(op, peer, mode) =>
    case SubmitCall(op, peer, text, automatic, message, event) => SubmitWrites(db, call);
  }

  lemma RequestWrites(db: Db, call: Call)
    requires call.RequestCall?
    ensures WritesOwn(db, call, Local(db, call))
  {
  }

  lemma DecideWrites(db: Db, call: Call)
    requires call.DecideCall?
    ensures WritesOwn(db, call, Local(db, call))
  {
  }

  lemma RemoveWrites(db: Db, call: Call)
    requires call.RemoveCall?
    ensures WritesOwn(db, call, Local(db, call))
  {
  }

  lemma CommitKeeps(db: Db, changed: Db, op: OperationId, kind: OperationKind, result: OperationResult, event: EventId,
                    mail: Option<Mail>)
    ensures var done := Commit(db, changed, op, kind, result, event, mail);
            || done == Failed(db, WriteFailed)
            || (done.mail == mail && done.db == changed.(operations := done.db.operations, outbox := done.db.outbox))
  {
  }

  lemma SubmitWrites(db: Db, call: Call)
    requires call.SubmitCall?
    ensures WritesOwn(db, call, Local(db, call))
  {
    if PrivateOf(db.self, call.peer).Some? {
      var conversation, next := PrivateOf(db.self, call.peer).value, db.sequence + 1;
      var row := Message(conversation, db.self, call.text, true, false);
      CommitKeeps(db, db.(sequence := next, messages := db.messages[call.message := row], dedup := db.dedup + {Stamp(db.self, next)}),
                  call.op, SubmitText, Sent(call.message, call.event, next), call.event,
                  Some(Mail(call.peer, Clip(call.message, conversation, db.self, next, call.text, call.automatic))));
    }
  }

  lemma ActGrows(n: Net, device: Device, call: Call)
    requires Inv(n) && Enabled(n, Act(device, call))
    ensures Grown(n, AfterCall(n, device, call))
    ensures forall e :: Processed(AfterCall(n, device, call), e) ==> Processed(n, e)
  {
    ActIsLater(n, device, call);
    CallWrites(n.nodes[device], call);
    CallQueues(n.nodes[device], call);
    forall e | Processed(AfterCall(n, device, call), e)
      ensures Processed(n, e)
    {
      UnknownIsUnprocessed(n, e);
    }
  }

  lemma ActNumbers(n: Net, device: Device, call: Call)
    requires Inv(n) && Numbered(n) && Enabled(n, Act(device, call))
    ensures Numbered(AfterCall(n, device, call))
  {
    var after := AfterCall(n, device, call);
    ActIsLater(n, device, call);
    CallWrites(n.nodes[device], call);
    OneMoreNumber(n, after, device, call.Event());
  }

  /** Every event but `e` is old, and `e` has the number and message id just issued. */
  lemma OneMoreNumber(n: Net, after: Net, device: Device, e: EventId)
    requires Numbered(n) && Later(n, after) && device < |n.nodes|
    requires forall f :: f in after.letters && f != e ==> f in n.letters
    requires IsClip(after, e) && e !in n.letters ==>
               && after.letters[e].from == device
               && after.letters[e].body.sequence == after.nodes[device].sequence > n.nodes[device].sequence
               && after.letters[e].body.message in after.issued && after.letters[e].body.message !in n.issued
    ensures Numbered(after)
  {
    forall f | IsClip(after, f)
      ensures f in n.letters ==> IsClip(n, f) && after.letters[f] == n.letters[f]
      ensures after.letters[f].from < |after.nodes|
              && after.letters[f].body.sequence <= after.nodes[after.letters[f].from].sequence
              && after.letters[f].body.message in after.issued
    {
      assert f in n.letters ==> IsClip(n, f);
      assert f in n.letters ==> DeviceLater(n.nodes[n.letters[f].from], after.nodes[n.letters[f].from]);
    }
  }

  lemma ActKeepsRows(n: Net, device: Device, call: Call)
    requires Inv(n) && Enabled(n, Act(device, call)) && RowsKnown(n, device) && StampsKnown(n, device)
    ensures RowsKnown(AfterCall(n, device, call), device) && StampsKnown(AfterCall(n, device, call), device)
  {
    var db, after := n.nodes[device], AfterCall(n, device, call);
    ActGrows(n, device, call);
    CallWrites(db, call);
    assert NodeGood(n, device);
    forall m | m in after.nodes[device].messages
      ensures RowKnown(after, device, m, after.nodes[device].messages[m])
    {
      if m in db.messages {
        RowStaysKnown(n, after, device, m, db.messages[m], db.messages[m]);
      } else {
        assert IsClip(after, call.Event());
      }
    }
    forall s | s in after.nodes[device].dedup && s.origin != device
      ensures StampKnown(after, device, s)
    {
      StampStaysKnown(n, after, device, s);
    }
  }

  lemma ActKeepsCounts(db: Db, call: Call)
    requires Countable(db)
    ensures Countable(Local(db, call).db)
  {
    CallWrites(db, call);
    var after := Local(db, call).db;
    forall c
      ensures Live(after, c) == Live(db, c) && UnreadOf(after, c) <= UnreadOf(db, c)
    {
    }
    SameCounts(db, after);
  }

  lemma ActKeepsClips(n: Net, device: Device, call: Call)
    requires Inv(n) && ClipsGood(n) && Enabled(n, Act(device, call))
    ensures ClipsGood(AfterCall(n, device, call))
  {
    var after := AfterCall(n, device, call);
    ActGrows(n, device, call);
    ActNumbers(n, device, call);
    ActKeepsRows(n, device, call);
    ActKeepsCounts(n.nodes[device], call);
    CallWrites(n.nodes[device], call);
    KeptStays(n, after, call.Event());
    OneNodeKeepsClips(n, after, device, call.Event());
  }

  // ----------------------------------------------------------- received events

  lemma DeliveryGrows(n: Net, e: EventId, id: EventId, named: bool, broken: bool)
    requires Inv(n) && e in n.letters && n.letters[e].to < |n.nodes|
    ensures var after := AfterDelivery(n, e, id, named, broken);
            && Grown(n, after) && after.letters == n.letters && (forall f :: f != e && Processed(after, f) ==> Processed(n, f))
            && (forall o :: 0 <= o < |n.nodes| && o != n.letters[e].to ==> after.nodes[o] == n.nodes[o])
  {
    var letter := n.letters[e];
    DeliveryIsLater(n, e, id, named, broken);
    DeliveryIsAtomic(n.nodes[letter.to], letter.from, e, letter.body, id, named);
  }

  /** A clipboard event not yet applied has neither its row nor its stamp at its recipient. */
  lemma UnappliedIsNew(n: Net, e: EventId)
    requires Inv(n) && ClipsGood(n) && IsClip(n, e) && n.letters[e].to < |n.nodes| && !Processed(n, e)
    ensures n.letters[e].from != n.letters[e].to
    ensures n.letters[e].body.message !in n.nodes[n.letters[e].to].messages
    ensures Stamp(n.letters[e].from, n.letters[e].body.sequence) !in n.nodes[n.letters[e].to].dedup
  {
    var letter := n.letters[e];
    var d := letter.to;
    assert LetterGrounded(letter, n.asks, n.consents);
    assert RowsKnown(n, d) && StampsKnown(n, d);
    forall m | m in n.nodes[d].messages
      ensures m != letter.body.message
    {
      assert RowKnown(n, d, m, n.nodes[d].messages[m]);
    }
    forall s | s in n.nodes[d].dedup
      ensures s != Stamp(letter.from, letter.body.sequence)
    {
      assert s.origin == d || StampKnown(n, d, s);
    }
  }

  /** So its application inserts exactly that row and that stamp. */
  lemma ClipIsInserted(n: Net, e: EventId, id: EventId, named: bool)
    requires Inv(n) && ClipsGood(n) && IsClip(n, e) && n.letters[e].to < |n.nodes|
    ensures var letter := n.letters[e];
            var db := n.nodes[letter.to];
            var done := Receive(db, letter.from, e, letter.body, id, named);
            if done.db == db then !Processed(n, e) ==> Key(letter.from, e) !in done.db.processed
            else
              && !Processed(n, e)
              && done.db == ClipInserted(db, letter.body).(processed := done.db.processed)
  {
    var letter := n.letters[e];
    var db := n.nodes[letter.to];
    assert LetterGrounded(letter, n.asks, n.consents) && NodeGood(n, letter.to);
    if !Processed(n, e) {
      UnappliedIsNew(n, e);
    }
  }

  lemma OneMoreRow(db: Db, after: Db, clip: Body)
    requires clip.Clip? && Countable(db) && clip.message !in db.messages && clip.origin != db.self
    requires after == ClipInserted(db, clip).(processed := after.processed)
    ensures Countable(after)
  {
    forall c
      ensures UnreadOf(after, c) <= |Live(after, c)|
    {
      assert UnreadOf(db, c) <= |Live(db, c)|;
      OneMoreLive(db, after, clip, c);
    }
  }

  lemma OneMoreLive(db: Db, after: Db, clip: Body, c: Conversation)
    requires clip.Clip? && clip.message !in db.messages && clip.origin != db.self
    requires after == ClipInserted(db, clip).(processed := after.processed)
    ensures Live(after, c) == Live(db, c) + if c == clip.conversation then {clip.message} else {}
  {
  }

  lemma InsertKeepsRows(n: Net, after: Net, e: EventId)
    requires Grown(n, after) && IsClip(n, e) && Processed(after, e)
    requires var d := n.letters[e].to;
             && d < |n.nodes| && RowsKnown(n, d) && StampsKnown(n, d) && Numbered(n)
             && n.letters[e].body.origin == n.letters[e].from
             && after.nodes[d] == ClipInserted(n.nodes[d], n.letters[e].body).(processed := after.nodes[d].processed)
    ensures RowsKnown(after, n.letters[e].to) && StampsKnown(after, n.letters[e].to)
  {
    var d := n.letters[e].to;
    assert IsClip(after, e) && after.letters[e] == n.letters[e];
    forall m | m in after.nodes[d].messages
      ensures RowKnown(after, d, m, after.nodes[d].messages[m])
    {
      if m in n.nodes[d].messages {
        RowStaysKnown(n, after, d, m, n.nodes[d].messages[m], n.nodes[d].messages[m]);
      }
    }
    forall s | s in after.nodes[d].dedup && s.origin != d
      ensures StampKnown(after, d, s)
    {
      if s in n.nodes[d].dedup {
        StampStaysKnown(n, after, d, s);
      }
    }
  }

  lemma OtherEventStays(db: Db, sender: Device, e: EventId, body: Body, id: EventId, named: bool)
    requires !body.Clip? && Countable(db)
    ensures var after := Receive(db, sender, e, body, id, named).db;
            RowsStay(db, after) && Countable(after) && after.sequence == db.sequence
  {
    var after := Receive(db, sender, e, body, id, named).db;
    DeliveryIsAtomic(db, sender, e, body, id, named);
    OthersKeepMessages(db, sender, e, body, id, named);
    SameCounts(db, after);
  }

  lemma OtherEventKeepsClips(n: Net, e: EventId, id: EventId, named: bool, broken: bool)
    requires Inv(n) && ClipsGood(n) && e in n.letters && n.letters[e].to < |n.nodes| && !n.letters[e].body.Clip?
    ensures ClipsGood(AfterDelivery(n, e, id, named, broken))
  {
    var letter, after := n.letters[e], AfterDelivery(n, e, id, named, broken);
    DeliveryGrows(n, e, id, named, broken);
    OtherEventStays(n.nodes[letter.to], letter.from, e, letter.body, id, named);
    NodeStays(n, after, letter.to);
    EventKeepsClips(n, after, letter.to, e);
  }

  lemma DeliverKeepsClips(n: Net, e: EventId, id: EventId, named: bool, broken: bool)
    requires Inv(n) && ClipsGood(n) && e in n.letters && n.letters[e].to < |n.nodes|
    ensures ClipsGood(AfterDelivery(n, e, id, named, broken))
  {
    var after := AfterDelivery(n, e, id, named, broken);
    assert n.nodes[n.letters[e].to := n.nodes[n.letters[e].to]] == n.nodes;
    if !n.letters[e].body.Clip? {
      OtherEventKeepsClips(n, e, id, named, broken);
    } else if after.nodes != n.nodes {
      NewClipKeepsClips(n, e, id, named);
    } else {
      OutboxKeepsClips(n, after, n.letters[e].to);
    }
  }

  lemma NewClipKeepsClips(n: Net, e: EventId, id: EventId, named: bool)
    requires Inv(n) && ClipsGood(n) && IsClip(n, e) && n.letters[e].to < |n.nodes|
    requires AfterDelivery(n, e, id, named, false).nodes != n.nodes
    ensures ClipsGood(AfterDelivery(n, e, id, named, false))
  {
    var letter, after := n.letters[e], AfterDelivery(n, e, id, named, false);
    DeliveryGrows(n, e, id, named, false);
    NewClipIsWritten(n, e, id, named);
    InsertKeepsRows(n, after, e);
    OneMoreRow(n.nodes[letter.to], after.nodes[letter.to], letter.body);
    EventKeepsClips(n, after, letter.to, e);
  }

  lemma NewClipIsWritten(n: Net, e: EventId, id: EventId, named: bool)
    requires Inv(n) && ClipsGood(n) && IsClip(n, e) && n.letters[e].to < |n.nodes|
    requires AfterDelivery(n, e, id, named, false).nodes != n.nodes
    ensures var letter, after := n.letters[e], AfterDelivery(n, e, id, named, false);
            var db, now := n.nodes[letter.to], after.nodes[letter.to];
            && letter.body.origin == letter.from != db.self == letter.to && letter.body.message !in db.messages
            && now == ClipInserted(db, letter.body).(processed := now.processed)
            && Processed(after, e)
  {
    var letter := n.letters[e];
    assert n.nodes[letter.to := n.nodes[letter.to]] == n.nodes;
    ClipIsInserted(n, e, id, named);
    UnappliedIsNew(n, e);
    assert NodeGood(n, letter.to) && LetterGrounded(letter, n.asks, n.consents);
    DeliveryIsAtomic(n.nodes[letter.to], letter.from, e, letter.body, id, named);
  }

  // ------------------------------------------------------------- other changes

  lemma ChangeKeepsRows(n: Net, d: Device, change: Change)
    requires Inv(n) && ClipsGood(n) && Enabled(n, Adjust(d, change)) && !change.TakeMessage?
    ensures RowsStay(n.nodes[d], Changed(n.nodes[d], change))
  {
  }

  lemma ChangeKeepsCounts(db: Db, change: Change)
    requires Countable(db)
    ensures Countable(Changed(db, change))
  {
    var after := Changed(db, change);
    forall c
      ensures UnreadOf(after, c) <= |Live(after, c)|
    {
      assert UnreadOf(db, c) <= |Live(db, c)|;
      match change {
        case MeetPeer(peer) => assert Live(after, c) == Live(db, c);
        case OpenThread(peer) => assert Live(after, c) == Live(db, c);
        case ReadThread(conversation, later) => ReadCounts(db, conversation, later, c);
        case DeleteThread(conversation) => DeleteCounts(db, conversation, c);
        case TakeMessage(sender, message) => TakeCounts(db, sender, message, c);
        case Prune(stamps) => assert Live(after, c) == Live(db, c);
      }
    }
  }

  lemma Fewer<T>(small: set<T>, large: set<T>)
    requires small <= large
    ensures |small| <= |large|
  {
    assert large == small + (large - small);
  }

  lemma ReadCounts(db: Db, conversation: Conversation, later: set<MessageId>, c: Conversation)
    requires UnreadOf(db, c) <= |Live(db, c)|
    ensures UnreadOf(Read(db, conversation, later), c) <= |Live(Read(db, conversation, later), c)|
  {
    assert Live(Read(db, conversation, later), c) == Live(db, c);
    if later <= Live(db, conversation) {
      Fewer(later, Live(db, conversation));
    }
  }

  lemma DeleteCounts(db: Db, conversation: Conversation, c: Conversation)
    requires UnreadOf(db, c) <= |Live(db, c)|
    ensures UnreadOf(Deleted(db, conversation), c) <= |Live(Deleted(db, conversation), c)|
  {
    if c != conversation {
      assert Live(Deleted(db, conversation), c) == Live(db, c);
    }
  }

  lemma TakeCounts(db: Db, sender: Device, message: MessageId, c: Conversation)
    requires UnreadOf(db, c) <= |Live(db, c)|
    ensures UnreadOf(Taken(db, sender, message), c) <= |Live(Taken(db, sender, message), c)|
  {
    var after := Taken(db, sender, message);
    if after != db && PrivateOf(db.self, sender) == Some(c) {
      assert Live(after, c) == Live(db, c) + {message};
    } else {
      assert Live(after, c) == Live(db, c);
    }
  }

  lemma TakeKeepsRows(n: Net, d: Device, sender: Device, message: MessageId)
    requires Inv(n) && ClipsGood(n) && Enabled(n, Adjust(d, TakeMessage(sender, message)))
    ensures var after := AfterChange(n, d, TakeMessage(sender, message)); RowsKnown(after, d) && StampsKnown(after, d)
  {
    var after := AfterChange(n, d, TakeMessage(sender, message));
    assert Grown(n, after);
    forall m | m in after.nodes[d].messages
      ensures RowKnown(after, d, m, after.nodes[d].messages[m])
    {
      if m in n.nodes[d].messages {
        RowStaysKnown(n, after, d, m, n.nodes[d].messages[m], n.nodes[d].messages[m]);
      } else {
        assert forall e :: IsClip(after, e) ==> IsClip(n, e);
      }
    }
    forall s | s in after.nodes[d].dedup && s.origin != d
      ensures StampKnown(after, d, s)
    {
      StampStaysKnown(n, after, d, s);
    }
  }

  lemma AdjustGrows(n: Net, d: Device, change: Change)
    requires Enabled(n, Adjust(d, change))
    ensures var after := AfterChange(n, d, change);
            && Grown(n, after) && after.letters == n.letters && after.nodes[d] == Changed(n.nodes[d], change)
            && (forall f :: Processed(after, f) ==> Processed(n, f))
            && (forall o :: 0 <= o < |n.nodes| && o != d ==> after.nodes[o] == n.nodes[o])
            && after.nodes[d].sequence == n.nodes[d].sequence
  {
  }

  lemma ChangeSparesRows(db: Db, change: Change)
    ensures RowsSurvive(db, Changed(db, change))
  {
  }

  lemma ChangedNodeStays(n: Net, d: Device, change: Change)
    requires Inv(n) && ClipsGood(n) && Enabled(n, Adjust(d, change))
    ensures var after := AfterChange(n, d, change); RowsKnown(after, d) && StampsKnown(after, d)
  {
    if change.TakeMessage? {
      TakeKeepsRows(n, d, change.sender, change.message);
    } else {
      AdjustGrows(n, d, change);
      ChangeKeepsRows(n, d, change);
      NodeStays(n, AfterChange(n, d, change), d);
    }
  }

  lemma AdjustKeepsClips(n: Net, d: Device, change: Change)
    requires Inv(n) && ClipsGood(n) && Enabled(n, Adjust(d, change))
    ensures ClipsGood(AfterChange(n, d, change))
  {
    AdjustGrows(n, d, change);
    ChangeSparesRows(n.nodes[d], change);
    ChangedNodeStays(n, d, change);
    ChangeKeepsCounts(n.nodes[d], change);
    OneQuietNode(n, AfterChange(n, d, change), d);
  }

  lemma OutboxKeepsClips(n: Net, after: Net, d: Device)
    requires ClipsGood(n) && after.letters == n.letters && after.issued == n.issued && d < |n.nodes| == |after.nodes|
    requires forall o :: 0 <= o < |n.nodes| && o != d ==> after.nodes[o] == n.nodes[o]
    requires after.nodes[d] == n.nodes[d].(outbox := after.nodes[d].outbox)
    ensures ClipsGood(after)
  {
    assert Grown(n, after);
    NodeStays(n, after, d);
    SameCounts(n.nodes[d], after.nodes[d]);
    OneQuietNode(n, after, d);
  }

  lemma StepKeepsClips(n: Net, step: Step)
    requires Inv(n) && ClipsGood(n) && Enabled(n, step)
    ensures ClipsGood(After(n, step))
  {
    match step
    case Act(device, call) => ActKeepsClips(n, device, call);
    case Transmit(event) => OutboxKeepsClips(n, After(n, step), n.letters[event].from);
    case Deliver(event, id, named, broken) => DeliverKeepsClips(n, event, id, named, broken);
    case Respond(answer) => OutboxKeepsClips(n, After(n, step), n.letters[answer.event].from);
    case Adjust(device, change) => AdjustKeepsClips(n, device, change);
  }

  // ---------------------------------------------------------------- whole runs

  lemma {:induction false} ReachedIsClipsGood(r: Run, i: nat)
    requires r.Valid() && i < |r.states|
    ensures ClipsGood(r.states[i])
  {
    if i > 0 {
      var before := i - 1;
      ReachedIsClipsGood(r, before);
      ReachedIsGood(r, before);
      assert Follows(r.states[before], r.steps[before], r.states[before + 1]);
      StepKeepsClips(r.states[before], r.steps[before]);
    }
  }

  /** The clipboard texts of `p` stored on a device, deleted ones included. */
  function StoredFrom(db: Db, p: Device): set<MessageId> {
    set m | m in db.messages && db.messages[m].clip && db.messages[m].sender == p
  }

  /** The clipboard events of `p` that `d` has applied. */
  ghost function AppliedFrom(n: Net, d: Device, p: Device): set<EventId> {
    set e | e in n.letters && n.letters[e].body.Clip? && n.letters[e].from == p && n.letters[e].to == d && Processed(n, e)
  }

  function MessageOf(n: Net, e: EventId): MessageId {
    if e in n.letters && n.letters[e].body.Clip? then n.letters[e].body.message else 0
  }

  /** In every reachable state, whatever was read, deleted or pruned and however often each
      event arrived, the clipboard texts stored from a peer are exactly those of its applied
      events, one row for each event, with its text. */
  lemma StoredIsReceived(r: Run, i: nat, d: Device, p: Device)
    requires r.Valid() && i < |r.states| && d < |r.states[i].nodes| && p != d
    ensures StoredFrom(r.states[i].nodes[d], p) == (set e | e in AppliedFrom(r.states[i], d, p) :: MessageOf(r.states[i], e))
    ensures forall e, f :: e in AppliedFrom(r.states[i], d, p) && f in AppliedFrom(r.states[i], d, p) && e != f ==>
              MessageOf(r.states[i], e) != MessageOf(r.states[i], f)
    ensures forall e :: e in AppliedFrom(r.states[i], d, p) ==> HasRow(r.states[i].nodes[d], r.states[i].letters[e])
  {
    var n := r.states[i];
    ReachedIsClipsGood(r, i);
    forall e | e in AppliedFrom(n, d, p)
      ensures IsClip(n, e) && HasRow(n.nodes[d], n.letters[e]) && MessageOf(n, e) in StoredFrom(n.nodes[d], p)
    {
      assert Kept(n, e);
    }
    forall m | m in StoredFrom(n.nodes[d], p)
      ensures m in (set e | e in AppliedFrom(n, d, p) :: MessageOf(n, e))
    {
      assert RowKnown(n, d, m, n.nodes[d].messages[m]);
      var e :| IsClip(n, e) && n.letters[e].body.message == m && n.letters[e].from == p && n.letters[e].to == d && Processed(n, e);
      assert e in AppliedFrom(n, d, p) && MessageOf(n, e) == m;
    }
  }

  /** In every reachable state a conversation has at most as many unread messages as it has
      undeleted messages of the peer, whatever was read, deleted or received. */
  lemma UnreadAreThere(r: Run, i: nat, d: Device, c: Conversation)
    requires r.Valid() && i < |r.states| && d < |r.states[i].nodes|
    ensures UnreadOf(r.states[i].nodes[d], c) <= |Live(r.states[i].nodes[d], c)|
  {
    ReachedIsClipsGood(r, i);
    assert Countable(r.states[i].nodes[d]);
  }

  /** No text is handed to a clipboard twice, even after the memory of its stamp was pruned. */
  lemma WrittenOnce(r: Run, i: nat, j: nat, device: Device, sender: Device, first: ClipboardWrite, second: ClipboardWrite)
    requires r.Valid() && Writes(r, i, device, sender, first) && Writes(r, j, device, sender, second)
    requires first.stamp == second.stamp
    ensures i == j
  {
    WriteApplies(r, i, device, sender, first);
    WriteApplies(r, j, device, sender, second);
    var e, f := r.steps[i].event, r.steps[j].event;
    var last := if i < j then j else i;
    RunIsLater(r, i, last);
    RunIsLater(r, j, last);
    ReachedIsClipsGood(r, last);
    assert IsClip(r.states[last], e) && IsClip(r.states[last], f);
    AppliedAtMostOnce(r, i, j, e);
  }

  lemma WriteApplies(r: Run, i: nat, device: Device, sender: Device, w: ClipboardWrite)
    requires r.Valid() && Writes(r, i, device, sender, w)
    ensures r.Applies(i, r.steps[i].event) && IsClip(r.states[i], r.steps[i].event)
    ensures r.states[i].letters[r.steps[i].event].from == w.stamp.origin
            && r.states[i].letters[r.steps[i].event].body.sequence == w.stamp.sequence
  {
    var n, step := r.states[i], r.steps[i];
    var letter := n.letters[step.event];
    EffectsAreApplications(r, i, step.event, step.id, step.named, step.broken);
    WriteIsNew(n.nodes[device], sender, step.event, letter.body, step.id, step.named);
  }

  /** What a clipboard event hands to the system clipboard, if anything. */
  function WriteOf(letter: Letter): ClipboardWrite
    requires letter.body.Clip?
  {
    ClipboardWrite(Stamp(letter.from, letter.body.sequence), letter.body.text)
  }

  /** The user of the recipient wants automatic texts of this sender in the clipboard. */
  predicate Wanted(db: Db, sender: Device) {
    IsActive(db.bindings, sender) && db.bindings[sender].mode.Receives()
  }

  lemma WritesExactly(db: Db, sender: Device, e: EventId, clip: Body, receipt: Receipt)
    requires clip.Clip? && GoodClip(db.self, sender, clip) && clip.sequence <= I64_MAX
    requires Key(sender, e) !in db.processed && Stamp(sender, clip.sequence) !in db.dedup
    requires ReceiveClip(db, sender, e, clip, receipt).answer.Ok?
    ensures ReceiveClip(db, sender, e, clip, receipt).write ==
            if clip.automatic && Wanted(db, sender) then Some(ClipboardWrite(Stamp(sender, clip.sequence), clip.text)) else None
  {
  }

  /** The converse: where an automatic text is applied, it is written to the clipboard, with
      exactly its stamp and its text, if and only if the recipient's row for the sender is
      active with a receiving mode. A text sent by hand is never written. */
  lemma AppliedIsWritten(r: Run, i: nat, e: EventId)
    requires r.Valid() && r.Applies(i, e) && IsClip(r.states[i], e)
    ensures var letter := r.states[i].letters[e];
            && letter.to < |r.states[i].nodes|
            && (forall w :: Writes(r, i, letter.to, letter.from, w) <==>
                  letter.body.automatic && Wanted(r.states[i].nodes[letter.to], letter.from) && w == WriteOf(letter))
  {
    var n, step := r.states[i], r.steps[i];
    AppliesNeedsGuard(r, i, e);
    ReachedIsGood(r, i);
    ReachedIsClipsGood(r, i);
    UnappliedIsNew(n, e);
    var letter := n.letters[e];
    var db := n.nodes[letter.to];
    assert NodeGood(n, letter.to) && LetterGrounded(letter, n.asks, n.consents);
    DeliveryIsAtomic(db, letter.from, e, letter.body, step.id, step.named);
    WritesExactly(db, letter.from, e, letter.body, Receipt(step.id, db.self, e, Some(letter.body.message)));
  }

  /** One more text: its row as it was sent, its stamp, one more unread, one more live message. */
  ghost predicate OneMoreText(db: Db, now: Db, letter: Letter)
    requires letter.body.Clip?
  {
    var c := letter.body.conversation;
    && letter.body.message !in db.messages && now.messages == db.messages[letter.body.message := RowOf(letter)]
    && now.conversations == db.conversations[c := Thread(UnreadOf(db, c) + 1, false)]
    && Live(now, c) == Live(db, c) + {letter.body.message}
    && now.dedup == db.dedup + {Stamp(letter.from, letter.body.sequence)}
  }

  lemma InsertedIsCounted(db: Db, now: Db, letter: Letter)
    requires letter.body.Clip? && letter.body.origin == letter.from != db.self && letter.body.message !in db.messages
    requires now == ClipInserted(db, letter.body).(processed := now.processed)
    ensures OneMoreText(db, now, letter)
  {
    OneMoreLive(db, now, letter.body, letter.body.conversation);
  }

  /** Where any text is applied, its row is added as it was sent, its conversation is there with
      one more unread message, and one more message of the peer is live. */
  lemma AppliedIsCounted(r: Run, i: nat, e: EventId)
    requires r.Valid() && r.Applies(i, e) && IsClip(r.states[i], e)
    ensures var letter := r.states[i].letters[e];
            && letter.to < |r.states[i].nodes| == |r.states[i + 1].nodes|
            && OneMoreText(r.states[i].nodes[letter.to], r.states[i + 1].nodes[letter.to], letter)
  {
    var n, step := r.states[i], r.steps[i];
    AppliesNeedsGuard(r, i, e);
    ReachedIsGood(r, i);
    ReachedIsClipsGood(r, i);
    AppliedChanges(r, i, e);
    var letter := n.letters[e];
    NewClipIsWritten(n, e, step.id, step.named);
    InsertedIsCounted(n.nodes[letter.to], r.states[i + 1].nodes[letter.to], letter);
  }

  lemma AppliedChanges(r: Run, i: nat, e: EventId)
    requires r.Valid() && r.Applies(i, e)
    ensures e in r.states[i].letters && r.states[i].letters[e].to < |r.states[i].nodes| && !r.steps[i].broken
    ensures r.states[i + 1] == AfterDelivery(r.states[i], e, r.steps[i].id, r.steps[i].named, false)
    ensures r.states[i + 1].nodes != r.states[i].nodes
  {
    assert Follows(r.states[i], r.steps[i], r.states[i + 1]);
    AppliesNeedsGuard(r, i, e);
  }

  // ---------------------------------------------------------------- what was sent

  /** The submission that queues a text: its own text, marked as it was submitted, and if it is
      automatic, with a sending mode chosen by the user of the sending device. */
  ghost predicate SubmittedAs(n: Net, step: Step, e: EventId, letter: Letter)
    requires letter.body.Clip?
  {
    && step.Act? && step.device == letter.from < |n.nodes| && step.call.SubmitCall?
    && step.call.event == e && step.call.peer == letter.to && step.call.text == letter.body.text
    && step.call.message == letter.body.message && step.call.automatic == letter.body.automatic
    && (letter.body.automatic ==>
          var db := n.nodes[letter.from];
          IsActive(db.bindings, letter.to) && db.bindings[letter.to].mode.Sends())
  }

  lemma SubmitSendsText(db: Db, call: Call)
    requires call.SubmitCall? && Local(db, call).mail.Some?
    ensures var mail := Local(db, call).mail.value;
            && mail.to == call.peer && mail.body.Clip? && mail.body.text == call.text && mail.body.message == call.message
            && mail.body.automatic == call.automatic && mail.body.origin == db.self
            && PrivateOf(db.self, call.peer) == Some(mail.body.conversation)
    ensures call.automatic ==> IsActive(db.bindings, call.peer) && db.bindings[call.peer].mode.Sends()
    ensures var done := Local(db, call);
            && done.db.sequence == done.mail.value.body.sequence == db.sequence + 1
            && done.db.dedup == db.dedup + {Stamp(db.self, db.sequence + 1)}
            && done.db.messages == db.messages[call.message := RowOf(Letter(db.self, call.peer, done.mail.value.body))]
            && done.db.conversations == db.conversations
  {
  }

  lemma {:induction false} SubmittedBefore(r: Run, k: nat, e: EventId) returns (j: nat)
    requires r.Valid() && k < |r.states| && IsClip(r.states[k], e)
    ensures j < k && SubmittedAs(r.states[j], r.steps[j], e, r.states[k].letters[e])
    decreases k
  {
    j := FirstQueued(r, k, e);
    var n := r.states[j];
    assert Follows(n, r.steps[j], r.states[j + 1]);
    RunIsLater(r, j + 1, k);
    CallQueues(n.nodes[r.steps[j].device], r.steps[j].call);
    CallWrites(n.nodes[r.steps[j].device], r.steps[j].call);
    SubmitSendsText(n.nodes[r.steps[j].device], r.steps[j].call);
  }

  /** What reaches a clipboard was submitted, letter for letter, on the sending device, for this
      device, by an automatic submission under a sending mode. */
  lemma WrittenWasSubmitted(r: Run, i: nat, device: Device, sender: Device, w: ClipboardWrite) returns (j: nat)
    requires r.Valid() && Writes(r, i, device, sender, w)
    ensures j < i && r.steps[j].Act? && r.steps[j].device == sender < |r.states[j].nodes|
    ensures var call := r.steps[j].call;
            call.SubmitCall? && call.peer == device && call.text == w.text && call.automatic
    ensures var db := r.states[j].nodes[sender];
            IsActive(db.bindings, device) && db.bindings[device].mode.Sends()
  {
    var n, step := r.states[i], r.steps[i];
    WriteApplies(r, i, device, sender, w);
    j := SubmittedBefore(r, i, step.event);
    WriteIsNew(n.nodes[device], sender, step.event, n.letters[step.event].body, step.id, step.named);
  }

  /** A deleted conversation has nothing live, nothing unread and nothing queued, and everything
      else is as before. */
  lemma DeletedIsGone(db: Db, c: Conversation)
    requires c in db.conversations
    ensures var after := Changed(db, DeleteThread(c));
            && Live(after, c) == {} && UnreadOf(after, c) == 0 && after.messages.Keys == db.messages.Keys
            && (forall k :: k in after.outbox <==> k in db.outbox && !(db.outbox[k].Clip? && db.outbox[k].conversation == c))
            && (forall o :: o != c ==> Live(after, o) == Live(db, o) && UnreadOf(after, o) == UnreadOf(db, o))
  {
    var after := Deleted(db, c);
    forall o | o != c
      ensures Live(after, o) == Live(db, o) && UnreadOf(after, o) == UnreadOf(db, o)
    {
    }
  }

  /** Another message of a peer, under a new id, is live and counted once, and nothing else
      changes; one of a sender who was never met changes nothing. */
  lemma TakenIsCounted(db: Db, sender: Device, message: MessageId, c: Conversation, o: Conversation)
    requires PrivateOf(db.self, sender) == Some(c) && message !in db.messages
    ensures var after, met := Changed(db, TakeMessage(sender, message)), sender in db.peers;
            && Live(after, o) == Live(db, o) + (if met && o == c then {message} else {})
            && UnreadOf(after, o) == UnreadOf(db, o) + (if met && o == c then 1 else 0)
  {
    if sender in db.peers {
      TakenIsLive(db, sender, message, c, o);
    }
  }

  lemma TakenIsLive(db: Db, sender: Device, message: MessageId, c: Conversation, o: Conversation)
    requires PrivateOf(db.self, sender) == Some(c) && sender in db.peers && message !in db.messages
    ensures Live(Taken(db, sender, message), o) == Live(db, o) + (if o == c then {message} else {})
  {
    var rows := Taken(db, sender, message).messages;
    assert rows == db.messages[message := Message(c, sender, [], false, false)];
  }

  /** Opening the conversation with a peer that was met makes it there again, with nothing more or
      less unread, and leaves all messages and every other conversation alone. */
  lemma OpenedIsThere(db: Db, peer: Device, c: Conversation, o: Conversation)
    requires PrivateOf(db.self, peer) == Some(c)
    ensures var after := Changed(db, OpenThread(peer));
            && (c in after.conversations && !after.conversations[c].deleted <==>
                  peer in db.peers || (c in db.conversations && !db.conversations[c].deleted))
            && UnreadOf(after, o) == UnreadOf(db, o) && after.messages == db.messages
            && (o != c ==> (o in after.conversations <==> o in db.conversations))
  {
  }

  /** Reading up to a position leaves unread exactly the live messages after it. */
  lemma ReadIsCounted(db: Db, c: Conversation, later: set<MessageId>, o: Conversation)
    requires c in db.conversations && !db.conversations[c].deleted && later <= Live(db, c)
    ensures var after := Changed(db, ReadThread(c, later));
            && UnreadOf(after, c) == |later| && Live(after, o) == Live(db, o)
            && (o != c ==> UnreadOf(after, o) == UnreadOf(db, o))
  {
  }
}
