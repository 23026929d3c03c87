/** Any number of devices exchanging binding and clipboard events over a network that may
    lose, repeat and reorder every frame, with receipts lost and devices killed at any time.
    A frame once sent stays in `sent`, an answer once written stays in `answers`: either may
    arrive any number of times, or never. */
module Network {
  import opened Basics
  import opened Bindings

  datatype Letter = Letter(from: Device, to: Device, body: Body)

  datatype Answer = Stored(event: EventId, receipt: Receipt) | Refused(event: EventId, error: Error)
  {
    function Outcome(): Result<Receipt, Error> {
      match this
      case Stored(_, receipt) => Ok(receipt)
      case Refused(_, error) => Err(error)
    }
  }

  datatype Ask = Ask(asker: Device, asked: Device)

  datatype Consent = Consent(giver: Device, binding: BindingId)

  type Asks = map<BindingId, Ask>

  /** `letters` remembers every event ever queued, `issued` every message id ever generated;
      `asks` and `consents` remember who requested and who accepted each binding. */
  datatype Net = Net(
    nodes: seq<Db>,
    letters: map<EventId, Letter>,
    sent: set<EventId>,
    answers: set<Answer>,
    asks: Asks,
    consents: set<Consent>,
    issued: set<MessageId>)

  /** `Deliver` is one frame handled by its recipient: `named` says that the requester name
      matches the hello, `broken` that the storage failed. */
  datatype Step =
    | Act(device: Device, call: Call)
    | Transmit(event: EventId)
    | Deliver(event: EventId, id: EventId, named: bool, broken: bool)
    | Respond(answer: Answer)
    | Adjust(device: Device, change: Change)

  /** Generated ids are new. */
  predicate Fresh(n: Net, call: Call) {
    && (!call.SetModeCall? ==> call.Event() !in n.letters)
    && (call.RequestCall? ==> call.binding !in n.asks)
    && (call.SubmitCall? ==> call.message !in n.issued)
  }

  predicate Enabled(n: Net, step: Step) {
    match step
    case Act(device, call) => device < |n.nodes| && Fresh(n, call)
    case Transmit(event) =>
      && event in n.letters && n.letters[event].from < |n.nodes|
      && Key(n.letters[event].to, event) in n.nodes[n.letters[event].from].outbox
    case Deliver(event, _, _, _) => event in n.sent && event in n.letters && n.letters[event].to < |n.nodes|
    case Respond(answer) => answer in n.answers && answer.event in n.letters && n.letters[answer.event].from < |n.nodes|
    case Adjust(device, change) =>
      && device < |n.nodes|
      && (change.MeetPeer? ==> change.peer < |n.nodes| && change.peer != device)
      && (change.TakeMessage? ==> change.message !in n.issued)
  }

  function Posted(letters: map<EventId, Letter>, from: Device, event: EventId, mail: Option<Mail>)
    : map<EventId, Letter>
  {
    if mail.Some? then letters[event := Letter(from, mail.value.to, mail.value.body)] else letters
  }

  function Asked(asks: Asks, from: Device, mail: Option<Mail>): Asks {
    if mail.Some? && mail.value.body.Bind? then asks[mail.value.body.binding := Ask(from, mail.value.to)] else asks
  }

  function Consented(consents: set<Consent>, from: Device, mail: Option<Mail>): set<Consent> {
    if mail.Some? && mail.value.body.Reply? && mail.value.body.accepted
    then consents + {Consent(from, mail.value.body.binding)} else consents
  }

  function IssuedBy(issued: set<MessageId>, call: Call): set<MessageId> {
    if call.SubmitCall? then issued + {call.message} else issued
  }

  function IssuedIn(issued: set<MessageId>, change: Change): set<MessageId> {
    if change.TakeMessage? then issued + {change.message} else issued
  }

  ghost function AfterCall(n: Net, device: Device, call: Call): Net
    requires device < |n.nodes|
  {
    var done := Local(n.nodes[device], call);
    Net(n.nodes[device := done.db], Posted(n.letters, device, call.Event(), done.mail), n.sent, n.answers,
        Asked(n.asks, device, done.mail), Consented(n.consents, device, done.mail), IssuedBy(n.issued, call))
  }

  /** How the recipient of `event` handles it. */
  ghost function HandledBy(n: Net, event: EventId, id: EventId, named: bool, broken: bool): Handled
    requires event in n.letters && n.letters[event].to < |n.nodes|
  {
    var letter := n.letters[event];
    var db := n.nodes[letter.to];
    if broken then Refuse(db, WriteFailed) else Receive(db, letter.from, event, letter.body, id, named)
  }

  function AnswerFrame(event: EventId, outcome: Result<Receipt, Error>): Answer {
    match outcome
    case Ok(receipt) => Stored(event, receipt)
    case Err(error) => Refused(event, error)
  }

  ghost function AfterDelivery(n: Net, event: EventId, id: EventId, named: bool, broken: bool): Net
    requires event in n.letters && n.letters[event].to < |n.nodes|
  {
    var done := HandledBy(n, event, id, named, broken);
    n.(nodes := n.nodes[n.letters[event].to := done.db], answers := n.answers + {AnswerFrame(event, done.answer)})
  }

  ghost function AfterChange(n: Net, device: Device, change: Change): Net
    requires device < |n.nodes|
  {
    n.(nodes := n.nodes[device := Changed(n.nodes[device], change)], issued := IssuedIn(n.issued, change))
  }

  ghost function After(n: Net, step: Step): Net
    requires Enabled(n, step)
  {
    match step
    case Act(device, call) => AfterCall(n, device, call)
    case Transmit(event) => n.(sent := n.sent + {event})
    case Deliver(event, id, named, broken) => AfterDelivery(n, event, id, named, broken)
    case Respond(answer) =>
      var letter := n.letters[answer.event];
      n.(nodes := n.nodes[letter.from := Resolve(n.nodes[letter.from], Key(letter.to, answer.event), answer.Outcome())])
    case Adjust(device, change) => AfterChange(n, device, change)
  }

  // --------------------------------------------------------------- invariants

  /** A row's binding was requested by one side of the other, and an active one was accepted
      by the side that was asked. */
  predicate RowGrounded(d: Device, p: Device, row: Row, asks: Asks, consents: set<Consent>) {
    && row.binding in asks
    && var ask := asks[row.binding];
       && (ask == Ask(d, p) || ask == Ask(p, d))
       && row.requestedBy == ask.asker
       && (row.state.PendingOutbound? ==> ask == Ask(d, p))
       && (row.state.PendingInbound? ==> ask == Ask(p, d))
       && (row.state.Active? ==> Consent(ask.asked, row.binding) in consents)
  }

  ghost predicate RowsGrounded(d: Device, bindings: map<Device, Row>, asks: Asks, consents: set<Consent>) {
    forall p :: p in bindings ==> RowGrounded(d, p, bindings[p], asks, consents)
  }

  predicate LetterGrounded(letter: Letter, asks: Asks, consents: set<Consent>) {
    match letter.body
    case Bind(binding) => binding in asks && asks[binding] == Ask(letter.from, letter.to)
    case Reply(binding, accepted) =>
      binding in asks && asks[binding] == Ask(letter.to, letter.from) && (accepted ==> Consent(letter.from, binding) in consents)
    case Unbind(binding) => binding in asks
    case Clip(_, _, _, sequence, _, _) => sequence <= I64_MAX && GoodClip(letter.to, letter.from, letter.body)
  }

  ghost predicate LettersGrounded(letters: map<EventId, Letter>, asks: Asks, consents: set<Consent>) {
    forall e :: e in letters ==> LetterGrounded(letters[e], asks, consents)
  }

  ghost predicate QueueKnown(d: Device, outbox: map<Key, Body>, letters: map<EventId, Letter>) {
    forall k :: k in outbox ==> k.event in letters && letters[k.event] == Letter(d, k.peer, outbox[k])
  }

  predicate ReceiptKnown(d: Device, key: Key, receipt: Receipt, letters: map<EventId, Letter>) {
    && key.event in letters && letters[key.event].from == key.peer && letters[key.event].to == d
    && ReceiptFits(Key(d, key.event), letters[key.event].body, receipt)
  }

  ghost predicate ReceiptsKnown(d: Device, processed: map<Key, Receipt>, letters: map<EventId, Letter>) {
    forall k :: k in processed ==> ReceiptKnown(d, k, processed[k], letters)
  }

  ghost predicate NodeGood(n: Net, d: Device)
    requires d < |n.nodes|
  {
    var db := n.nodes[d];
    && db.self == d && Consistent(db)
    && RowsGrounded(d, db.bindings, n.asks, n.consents)
    && QueueKnown(d, db.outbox, n.letters)
    && ReceiptsKnown(d, db.processed, n.letters)
  }

  /** `event` is not applied at its recipient and, as a reply, never can be. */
  ghost predicate Dead(db: Db, event: EventId, letter: Letter) {
    Key(letter.from, event) !in db.processed && letter.body.Reply? && !Awaits(db, letter.from, letter.body.binding)
  }

  ghost predicate AnswerGood(n: Net, answer: Answer) {
    && answer.event in n.letters && n.letters[answer.event].to < |n.nodes|
    && var letter := n.letters[answer.event];
       var db := n.nodes[letter.to];
       match answer
       case Stored(event, receipt) => Key(letter.from, event) in db.processed && db.processed[Key(letter.from, event)] == receipt
       case Refused(event, error) => Terminal(error) && letter.body.Reply? ==> Dead(db, event, letter)
  }

  ghost predicate Inv(n: Net) {
    && (forall d :: 0 <= d < |n.nodes| ==> NodeGood(n, d))
    && LettersGrounded(n.letters, n.asks, n.consents)
    && (forall a :: a in n.answers ==> AnswerGood(n, a))
  }

  // ------------------------------------------------------------ growing context

  ghost predicate Extends<K, V>(before: map<K, V>, after: map<K, V>) {
    forall k :: k in before ==> k in after && after[k] == before[k]
  }

  lemma GroundedGrows(d: Device, bindings: map<Device, Row>, asks: Asks, consents: set<Consent>, moreAsks: Asks,
                      moreConsents: set<Consent>)
    requires RowsGrounded(d, bindings, asks, consents) && Extends(asks, moreAsks) && consents <= moreConsents
    ensures RowsGrounded(d, bindings, moreAsks, moreConsents)
  {
    forall p | p in bindings
      ensures RowGrounded(d, p, bindings[p], moreAsks, moreConsents)
    {
      assert RowGrounded(d, p, bindings[p], asks, consents);
    }
  }

  lemma LetterGrows(letter: Letter, asks: Asks, consents: set<Consent>, moreAsks: Asks, moreConsents: set<Consent>)
    requires LetterGrounded(letter, asks, consents) && Extends(asks, moreAsks) && consents <= moreConsents
    ensures LetterGrounded(letter, moreAsks, moreConsents)
  {
  }

  lemma NodeGrows(n: Net, after: Net, d: Device)
    requires d < |n.nodes| && |after.nodes| == |n.nodes| && after.nodes[d] == n.nodes[d] && NodeGood(n, d)
    requires Extends(n.letters, after.letters) && Extends(n.asks, after.asks) && n.consents <= after.consents
    ensures NodeGood(after, d)
  {
    GroundedGrows(d, n.nodes[d].bindings, n.asks, n.consents, after.asks, after.consents);
  }

  /** What remains to be shown when only node `d` and the histories changed. */
  lemma OneNodeChanged(n: Net, after: Net, d: Device)
    requires Inv(n) && d < |n.nodes| && |after.nodes| == |n.nodes|
    requires forall o :: 0 <= o < |n.nodes| && o != d ==> after.nodes[o] == n.nodes[o]
    requires Extends(n.letters, after.letters) && Extends(n.asks, after.asks) && n.consents <= after.consents
    requires NodeGood(after, d) && LettersGrounded(after.letters, after.asks, after.consents)
    requires forall a :: a in after.answers && a !in n.answers ==> AnswerGood(after, a)
    requires forall a :: a in n.answers && n.letters[a.event].to == d ==> AnswerGood(after, a)
    ensures Inv(after)
  {
    forall o | 0 <= o < |after.nodes|
      ensures NodeGood(after, o)
    {
      if o != d {
        NodeGrows(n, after, o);
      }
    }
    forall a | a in after.answers
      ensures AnswerGood(after, a)
    {
      if a in n.answers {
        assert AnswerGood(n, a);
      }
    }
  }

  // --------------------------------------------------------------- local calls

  /** A call queues at most one event, of the kind that belongs to it. */
  predicate QueuesOne(db: Db, call: Call, done: Done) {
    && done.db.self == db.self && done.db.processed == db.processed
    && match done.mail
       case None => done.db.outbox == db.outbox
       case Some(mail) =>
         && !call.SetModeCall? && done.db.outbox == db.outbox[Key(mail.to, call.Event()) := mail.body]
         && match call
            case RequestCall(_, peer, binding, _) => mail == Mail(peer, Bind(binding))
            case DecideCall(_, binding, accept, _) => mail.body == Reply(binding, accept)
            case RemoveCall(_, _, _) => mail.body.Unbind?
            case SetModeCall(_, _, _) => false
            case SubmitCall(_, _, _, _, _, _) => mail.body.Clip? && mail.body.sequence == db.sequence + 1 == done.db.sequence
  }

  lemma CallQueues(db: Db, call: Call)
    ensures QueuesOne(db, call, Local(db, call))
  {
    match call
    case RequestCall(op, peer, binding, event) => RequestQueues(db, call);
    case DecideCall(op, binding, accept, event) => DecideQueues(db, call);
    case RemoveCall(op, peer, event) => RemoveQueues(db, call);
    case SetModeCall(op, peer, mode) =>
    case SubmitCall(op, peer, text, automatic, message, event) => SubmitQueues(db, call);
  }

  lemma RequestQueues(db: Db, call: Call)
    requires call.RequestCall?
    ensures QueuesOne(db, call, Local(db, call))
  {
  }

  lemma DecideQueues(db: Db, call: Call)
    requires call.DecideCall?
    ensures QueuesOne(db, call, Local(db, call))
  {
  }

  lemma RemoveQueues(db: Db, call: Call)
    requires call.RemoveCall?
    ensures QueuesOne(db, call, Local(db, call))
  {
  }

  lemma SubmitQueues(db: Db, call: Call)
    requires call.SubmitCall?
    ensures QueuesOne(db, call, Local(db, call))
  {
  }

  lemma RequestGrounds(db: Db, op: OperationId, peer: Device, binding: BindingId, event: EventId, asks: Asks,
                       consents: set<Consent>)
    requires RowsGrounded(db.self, db.bindings, asks, consents) && binding !in asks
    ensures var done := Request(db, op, peer, binding, event);
            var moreAsks := Asked(asks, db.self, done.mail);
            && RowsGrounded(db.self, done.db.bindings, moreAsks, consents)
            && (done.mail.Some? ==> LetterGrounded(Letter(db.self, done.mail.value.to, done.mail.value.body), moreAsks, consents))
  {
    var done := Request(db, op, peer, binding, event);
    if done.mail.Some? {
      GroundedGrows(db.self, db.bindings, asks, consents, Asked(asks, db.self, done.mail), consents);
    }
  }

  lemma DecideGrounds(db: Db, op: OperationId, binding: BindingId, accept: bool, event: EventId, asks: Asks,
                      consents: set<Consent>)
    requires RowsGrounded(db.self, db.bindings, asks, consents)
    ensures var done := Decide(db, op, binding, accept, event);
            var moreConsents := Consented(consents, db.self, done.mail);
            && RowsGrounded(db.self, done.db.bindings, asks, moreConsents)
            && (done.mail.Some? ==> LetterGrounded(Letter(db.self, done.mail.value.to, done.mail.value.body), asks, moreConsents))
  {
    var done := Decide(db, op, binding, accept, event);
    if done.mail.Some? {
      var peer := done.mail.value.to;
      assert RowGrounded(db.self, peer, db.bindings[peer], asks, consents);
      GroundedGrows(db.self, db.bindings, asks, consents, asks, Consented(consents, db.self, done.mail));
    }
  }

  lemma RemoveGrounds(db: Db, op: OperationId, peer: Device, event: EventId, asks: Asks, consents: set<Consent>)
    requires RowsGrounded(db.self, db.bindings, asks, consents)
    ensures var done := Remove(db, op, peer, event);
            && RowsGrounded(db.self, done.db.bindings, asks, consents)
            && (done.mail.Some? ==> LetterGrounded(Letter(db.self, done.mail.value.to, done.mail.value.body), asks, consents))
  {
  }

  lemma ChooseModeGrounds(db: Db, op: OperationId, peer: Device, mode: string, asks: Asks, consents: set<Consent>)
    requires RowsGrounded(db.self, db.bindings, asks, consents)
    ensures RowsGrounded(db.self, ChooseMode(db, op, peer, mode).db.bindings, asks, consents)
    ensures ChooseMode(db, op, peer, mode).mail.None?
  {
  }

  lemma SubmitGrounds(db: Db, op: OperationId, peer: Device, text: Bytes, automatic: bool, message: MessageId,
                      event: EventId,
                      asks: Asks, consents: set<Consent>)
    ensures var done := Submit(db, op, peer, text, automatic, message, event);
            && done.db.bindings == db.bindings
            && (done.mail.Some? ==> LetterGrounded(Letter(db.self, done.mail.value.to, done.mail.value.body), asks, consents))
  {
  }

  lemma CallGrounds(db: Db, call: Call, asks: Asks, consents: set<Consent>)
    requires RowsGrounded(db.self, db.bindings, asks, consents) && (call.RequestCall? ==> call.binding !in asks)
    ensures var done := Local(db, call);
            var moreAsks, moreConsents := Asked(asks, db.self, done.mail), Consented(consents, db.self, done.mail);
            && RowsGrounded(db.self, done.db.bindings, moreAsks, moreConsents)
            && (done.mail.Some? ==> LetterGrounded(Letter(db.self, done.mail.value.to, done.mail.value.body), moreAsks, moreConsents))
  {
    CallQueues(db, call);
    match call
    case RequestCall(op, peer, binding, event) => RequestGrounds(db, op, peer, binding, event, asks, consents);
    case DecideCall(op, binding, accept, event) => DecideGrounds(db, op, binding, accept, event, asks, consents);
    case RemoveCall(op, peer, event) => RemoveGrounds(db, op, peer, event, asks, consents);
    case SetModeCall(op, peer, mode) => ChooseModeGrounds(db, op, peer, mode, asks, consents);
    case SubmitCall(op, peer, text, automatic, message, event) => SubmitGrounds(db, op, peer, text, automatic, message, event, asks, consents);
  }

  /** Only a request with the very id of the reply could wake it up. */
  lemma CallKeepsDead(db: Db, call: Call, event: EventId, letter: Letter)
    requires Dead(db, event, letter) && (call.RequestCall? ==> call.binding != letter.body.binding)
    ensures Dead(Local(db, call).db, event, letter)
  {
    CallQueues(db, call);
    match call
    case RequestCall(op, peer, binding, id) =>
    case DecideCall(op, binding, accept, id) =>
    case RemoveCall(op, peer, id) =>
    case SetModeCall(op, peer, mode) =>
    case SubmitCall(op, peer, text, automatic, message, id) => SubmitKeeps(db, op, peer, text, automatic, message, id);
  }

  lemma ActKeepsInv(n: Net, device: Device, call: Call)
    requires Inv(n) && Enabled(n, Act(device, call))
    ensures Inv(AfterCall(n, device, call))
  {
    var db, after := n.nodes[device], AfterCall(n, device, call);
    var done := Local(db, call);
    assert NodeGood(n, device);
    CallQueues(db, call);
    CallGrounds(db, call, n.asks, n.consents);
    CallKeepsConsistent(db, call);
    assert Extends(n.asks, after.asks) && Extends(n.letters, after.letters);
    forall e | e in after.letters
      ensures LetterGrounded(after.letters[e], after.asks, after.consents)
    {
      if e in n.letters && after.letters[e] == n.letters[e] {
        LetterGrows(n.letters[e], n.asks, n.consents, after.asks, after.consents);
      }
    }
    assert NodeGood(after, device);
    forall a | a in n.answers && n.letters[a.event].to == device
      ensures AnswerGood(after, a)
    {
      assert AnswerGood(n, a);
      if a.Refused? && Terminal(a.error) && n.letters[a.event].body.Reply? {
        assert LetterGrounded(n.letters[a.event], n.asks, n.consents);
        CallKeepsDead(db, call, a.event, n.letters[a.event]);
      }
    }
    OneNodeChanged(n, after, device);
  }

  // ----------------------------------------------------------- received events

  lemma SettledGrounds(db: Db, peer: Device, accepted: bool, asks: Asks, consents: set<Consent>)
    requires RowsGrounded(db.self, db.bindings, asks, consents) && peer in db.bindings
    requires accepted ==> Consent(asks[db.bindings[peer].binding].asked, db.bindings[peer].binding) in consents
    ensures RowsGrounded(db.self, Settled(db, peer, accepted).bindings, asks, consents)
  {
    assert RowGrounded(db.self, peer, db.bindings[peer], asks, consents);
  }

  lemma DroppedGrounds(db: Db, peer: Device, asks: Asks, consents: set<Consent>)
    requires RowsGrounded(db.self, db.bindings, asks, consents) && peer in db.bindings
    ensures RowsGrounded(db.self, Dropped(db, peer).bindings, asks, consents)
  {
    assert RowGrounded(db.self, peer, db.bindings[peer], asks, consents);
  }

  lemma EventGrounds(db: Db, letter: Letter, event: EventId, id: EventId, named: bool, asks: Asks,
                     consents: set<Consent>)
    requires RowsGrounded(db.self, db.bindings, asks, consents) && LetterGrounded(letter, asks, consents)
             && letter.to == db.self
    ensures RowsGrounded(db.self, Receive(db, letter.from, event, letter.body, id, named).db.bindings, asks, consents)
  {
    match letter.body
    case Bind(binding) =>
    case Reply(binding, accepted) =>
      if Awaits(db, letter.from, binding) {
        assert RowGrounded(db.self, letter.from, db.bindings[letter.from], asks, consents);
        SettledGrounds(db, letter.from, accepted, asks, consents);
      }
    case Unbind(binding) => if RowIs(db, letter.from, binding) { DroppedGrounds(db, letter.from, asks, consents); }
    case Clip(message, conversation, origin, sequence, text, automatic) =>
      ClipKeepsRows(db, letter.from, event, letter.body, Receipt(id, db.self, event, Some(message)));
  }

  lemma EventKeepsDead(db: Db, sender: Device, other: EventId, body: Body, id: EventId, named: bool, event: EventId,
                       letter: Letter)
    requires Dead(db, event, letter) && (Key(sender, other) == Key(letter.from, event) ==> body == letter.body)
    ensures Dead(Receive(db, sender, other, body, id, named).db, event, letter)
  {
    DeliveryIsAtomic(db, sender, other, body, id, named);
    match body
    case Bind(binding) =>
    case Reply(binding, accepted) =>
    case Unbind(binding) =>
    case Clip(message, conversation, origin, sequence, text, automatic) =>
      ClipKeepsRows(db, sender, other, body, Receipt(id, db.self, other, Some(message)));
  }

  /** The answer to one delivery is what the network invariant says about answers. */
  lemma DeliveryAnswers(n: Net, event: EventId, id: EventId, named: bool, broken: bool)
    requires Inv(n) && event in n.letters && n.letters[event].to < |n.nodes|
    ensures var after := AfterDelivery(n, event, id, named, broken);
            && ReceiptsKnown(n.letters[event].to, after.nodes[n.letters[event].to].processed, n.letters)
            && AnswerGood(after, AnswerFrame(event, HandledBy(n, event, id, named, broken).answer))
  {
    var letter := n.letters[event];
    var db := n.nodes[letter.to];
    assert NodeGood(n, letter.to) && LetterGrounded(letter, n.asks, n.consents);
    DeliveryIsAtomic(db, letter.from, event, letter.body, id, named);
    OnlyWriteFailureIsRetried(WriteFailed);
  }

  lemma DeliverKeepsInv(n: Net, event: EventId, id: EventId, named: bool, broken: bool)
    requires Inv(n) && event in n.letters && n.letters[event].to < |n.nodes|
    ensures Inv(AfterDelivery(n, event, id, named, broken))
  {
    var letter := n.letters[event];
    var d := letter.to;
    var db, after := n.nodes[d], AfterDelivery(n, event, id, named, broken);
    assert NodeGood(n, d) && LetterGrounded(letter, n.asks, n.consents);
    DeliveryAnswers(n, event, id, named, broken);
    DeliveryIsAtomic(db, letter.from, event, letter.body, id, named);
    EventKeepsConsistent(db, letter.from, event, letter.body, id, named);
    EventGrounds(db, letter, event, id, named, n.asks, n.consents);
    assert NodeGood(after, d);
    forall a | a in n.answers && n.letters[a.event].to == d
      ensures AnswerGood(after, a)
    {
      assert AnswerGood(n, a);
      if a.Refused? && Terminal(a.error) && n.letters[a.event].body.Reply? && !broken {
        EventKeepsDead(db, letter.from, event, letter.body, id, named, a.event, n.letters[a.event]);
      }
    }
    OneNodeChanged(n, after, d);
  }

  lemma OtherTablesKeepInv(n: Net, after: Net, d: Device)
    requires Inv(n) && d < |n.nodes| == |after.nodes|
    requires after == n.(nodes := n.nodes[d := after.nodes[d]], sent := after.sent, issued := after.issued)
    requires var db, now := n.nodes[d], after.nodes[d];
             && now.self == db.self && Consistent(now) && now.bindings == db.bindings && now.processed == db.processed
             && (forall k :: k in now.outbox ==> k in db.outbox && now.outbox[k] == db.outbox[k])
    ensures Inv(after)
  {
    assert NodeGood(n, d) && NodeGood(after, d);
    forall a | a in n.answers && n.letters[a.event].to == d
      ensures AnswerGood(after, a)
    {
      assert AnswerGood(n, a);
    }
    OneNodeChanged(n, after, d);
  }

  lemma TransmitKeepsInv(n: Net, event: EventId)
    requires Inv(n)
    ensures Inv(n.(sent := n.sent + {event}))
  {
    var after := n.(sent := n.sent + {event});
    forall d | 0 <= d < |n.nodes|
      ensures NodeGood(after, d)
    {
      NodeGrows(n, after, d);
    }
    forall a | a in n.answers
      ensures AnswerGood(after, a)
    {
      assert AnswerGood(n, a);
    }
  }

  lemma RespondKeepsInv(n: Net, answer: Answer)
    requires Inv(n) && Enabled(n, Respond(answer))
    ensures Inv(After(n, Respond(answer)))
  {
    var d := n.letters[answer.event].from;
    assert NodeGood(n, d);
    OtherTablesKeepInv(n, After(n, Respond(answer)), d);
  }

  lemma AdjustKeepsInv(n: Net, device: Device, change: Change)
    requires Inv(n) && device < |n.nodes|
    ensures Inv(AfterChange(n, device, change))
  {
    assert NodeGood(n, device);
    ChangeKeepsConsistent(n.nodes[device], change);
    OtherTablesKeepInv(n, AfterChange(n, device, change), device);
  }

  lemma StepKeepsInv(n: Net, step: Step)
    requires Inv(n) && Enabled(n, step)
    ensures Inv(After(n, step))
  {
    match step
    case Act(device, call) => ActKeepsInv(n, device, call);
    case Deliver(event, id, named, broken) => DeliverKeepsInv(n, event, id, named, broken);
    case Transmit(event) => TransmitKeepsInv(n, event);
    case Respond(answer) => RespondKeepsInv(n, answer);
    case Adjust(device, change) => AdjustKeepsInv(n, device, change);
  }
}
