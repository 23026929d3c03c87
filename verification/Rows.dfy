/** One row of `own_device_bindings` as a state machine: the diagram every call and every received
    event follows, and when a call succeeds. */
module Rows {
  import opened Basics
  import opened Bindings

  /** Why a row changes, seen from the device that holds it. */
  datatype Cause =
    | UserRequests(binding: BindingId)
    | UserDecides(binding: BindingId, accept: bool)
    | UserRemoves
    | UserChooses(mode: Mode)
    | PeerRequests(binding: BindingId)
    | PeerDecides(binding: BindingId, accept: bool)
    | PeerRemoves(binding: BindingId)

  function RowOf(db: Db, peer: Device): Option<Row> {
    if peer in db.bindings then Some(db.bindings[peer]) else None
  }

  /** The diagram. A request of either side starts a row anew unless it is active; a decision
      needs the row that waits for it; a removed or rejected row has no clipboard mode. */
  predicate Follows(self: Device, peer: Device, before: Option<Row>, cause: Cause, after: Row) {
    match cause
    case UserRequests(b) => (before.None? || before.value.state != Active) && after == Row(b, PendingOutbound, Off, self)
    case PeerRequests(b) => (before.None? || before.value.state != Active) && after == Row(b, PendingInbound, Off, peer)
    case UserDecides(b, accept) => Decided(before, b, PendingInbound, accept, after)
    case PeerDecides(b, accept) => Decided(before, b, PendingOutbound, accept, after)
    case UserRemoves => before.Some? && before.value.state !in {Denied, Removed} && Taken(before.value, after)
    case PeerRemoves(b) => before.Some? && before.value.binding == b && Taken(before.value, after)
    case UserChooses(mode) => before.Some? && before.value.state == Active && after == before.value.(mode := mode)
  }

  predicate Decided(before: Option<Row>, binding: BindingId, waiting: State, accept: bool, after: Row) {
    && before.Some? && before.value.binding == binding && before.value.state == waiting
    && after == Row(binding, if accept then Active else Denied, Off, before.value.requestedBy)
  }

  predicate Taken(before: Row, after: Row) {
    after == Row(before.binding, Removed, Off, before.requestedBy)
  }

  /** What becomes of the relation to the peer. */
  function RelationAfter(before: Relation, cause: Cause): Relation {
    match cause
    case UserDecides(_, accept) => if accept then OwnDevice else before
    case PeerDecides(_, accept) => if accept then OwnDevice else before
    case UserRemoves => Known
    case PeerRemoves(_) => Known
    case _ => before
  }

  /** Exactly the row of `peer` moved along the diagram, and only its relation with it. */
  ghost predicate Moved(db: Db, after: Db, peer: Device, cause: Cause) {
    && peer in after.bindings && Follows(db.self, peer, RowOf(db, peer), cause, after.bindings[peer])
    && after.bindings == db.bindings[peer := after.bindings[peer]]
    && after.peers.Keys == db.peers.Keys
    && (forall p :: p in db.peers ==> after.peers[p] == if p == peer then RelationAfter(db.peers[p], cause) else db.peers[p])
  }

  predicate SameRows(db: Db, after: Db) {
    after.bindings == db.bindings && after.peers == db.peers
  }

  /** The event that tells the peer. */
  predicate Tells(cause: Cause, before: Option<Row>, body: Body) {
    match cause
    case UserRequests(b) => body == Bind(b)
    case UserDecides(b, accept) => body == Reply(b, accept)
    case UserRemoves => before.Some? && body == Unbind(before.value.binding)
    case _ => false
  }

  /** What a call is to its row; a text changes none. */
  predicate CauseOf(call: Call, peer: Device, cause: Cause) {
    match call
    case RequestCall(_, p, binding, _) => peer == p && cause == UserRequests(binding)
    case DecideCall(_, binding, accept, _) => cause == UserDecides(binding, accept)
    case RemoveCall(_, p, _) => peer == p && cause == UserRemoves
    case SetModeCall(_, p, mode) => peer == p && ParseMode(mode).Some? && cause == UserChooses(ParseMode(mode).value)
    case SubmitCall(_, _, _, _, _, _) => false
  }

  /** A call that queues a binding event moves one row for its own cause, and tells that peer;
      every other call leaves all rows and relations alone, but for the mode that is chosen. */
  ghost predicate CallMoves(db: Db, call: Call, done: Done) {
    if call.SubmitCall? || (done.mail.None? && !(call.SetModeCall? && done.result.Ok?)) then SameRows(db, done.db)
    else if call.SetModeCall? then
      SavedResult(db, call.op, SetMode).Some? || exists cause :: CauseOf(call, call.peer, cause) && Moved(db, done.db, call.peer, cause)
    else
      var peer := done.mail.value.to;
      exists cause :: CauseOf(call, peer, cause) && Moved(db, done.db, peer, cause) && Tells(cause, RowOf(db, peer), done.mail.value.body)
  }

  lemma CallFollowsDiagram(db: Db, call: Call)
    ensures CallMoves(db, call, Local(db, call))
  {
    match call
    case RequestCall(op, peer, binding, event) => RequestFollows(db, call);
    case DecideCall(op, binding, accept, event) => DecideFollows(db, call);
    case RemoveCall(op, peer, event) => RemoveFollows(db, call);
    case SetModeCall(op, peer, mode) => ChooseFollows(db, call);
    case SubmitCall(op, peer, text, automatic, message, event) => SubmitKeeps(db, op, peer, text, automatic, message, event);
  }

  lemma RequestFollows(db: Db, call: Call)
    requires call.RequestCall?
    ensures CallMoves(db, call, Local(db, call))
  {
    var done := Local(db, call);
    if done.mail.Some? {
      assert CauseOf(call, call.peer, UserRequests(call.binding));
      assert Moved(db, done.db, call.peer, UserRequests(call.binding));
    }
  }

  lemma DecideFollows(db: Db, call: Call)
    requires call.DecideCall?
    ensures CallMoves(db, call, Local(db, call))
  {
    var done := Local(db, call);
    if done.mail.Some? {
      var peer := done.mail.value.to;
      assert PendingInboundFor(db, peer, call.binding);
      assert CauseOf(call, peer, UserDecides(call.binding, call.accept));
      assert Moved(db, done.db, peer, UserDecides(call.binding, call.accept));
    }
  }

  lemma RemoveFollows(db: Db, call: Call)
    requires call.RemoveCall?
    ensures CallMoves(db, call, Local(db, call))
  {
    var done := Local(db, call);
    if done.mail.Some? {
      assert CauseOf(call, call.peer, UserRemoves);
      assert Moved(db, done.db, call.peer, UserRemoves);
    }
  }

  lemma ChooseFollows(db: Db, call: Call)
    requires call.SetModeCall?
    ensures CallMoves(db, call, Local(db, call))
  {
    var done := Local(db, call);
    if done.result.Ok? && SavedResult(db, call.op, SetMode).None? {
      var cause := UserChooses(ParseMode(call.mode).value);
      assert CauseOf(call, call.peer, cause) && Moved(db, done.db, call.peer, cause);
    }
  }

  /** What a received event is to its row. */
  function CauseOfEvent(body: Body): Option<Cause> {
    match body
    case Bind(binding) => Some(PeerRequests(binding))
    case Reply(binding, accepted) => Some(PeerDecides(binding, accepted))
    case Unbind(binding) => Some(PeerRemoves(binding))
    case Clip(_, _, _, _, _, _) => None
  }

  /** A received event that is applied moves the sender's row for its own cause, except that a
      request is noted and nothing else while the row is active; any other delivery, and every
      text, leaves all rows and relations alone. */
  lemma EventFollowsDiagram(db: Db, sender: Device, event: EventId, body: Body, id: EventId, named: bool)
    ensures var done := Receive(db, sender, event, body, id, named);
            if done.db.processed == db.processed || body.Clip? || (body.Bind? && IsActive(db.bindings, sender)) then SameRows(db, done.db)
            else Moved(db, done.db, sender, CauseOfEvent(body).value)
  {
    var done := Receive(db, sender, event, body, id, named);
    DeliveryIsAtomic(db, sender, event, body, id, named);
    match body
    case Bind(binding) => BindFollows(db, sender, event, binding, Receipt(id, db.self, event, None));
    case Reply(binding, accepted) => ReplyFollows(db, sender, event, binding, accepted, Receipt(id, db.self, event, None));
    case Unbind(binding) => UnbindFollows(db, sender, event, binding, Receipt(id, db.self, event, None));
    case Clip(message, conversation, origin, sequence, text, automatic) =>
      ClipKeepsRows(db, sender, event, body, Receipt(id, db.self, event, Some(message)));
  }

  /** Either nothing changed but possibly the saved receipts, or the row moved. */
  ghost predicate MovedOr(db: Db, after: Db, peer: Device, cause: Cause, idle: bool) {
    if after.processed == db.processed || idle then SameRows(db, after) else Moved(db, after, peer, cause)
  }

  lemma BindFollows(db: Db, sender: Device, event: EventId, binding: BindingId, receipt: Receipt)
    ensures MovedOr(db, ReceiveBind(db, sender, event, binding, receipt).db, sender, PeerRequests(binding), IsActive(db.bindings, sender))
  {
  }

  lemma ReplyFollows(db: Db, sender: Device, event: EventId, binding: BindingId, accepted: bool, receipt: Receipt)
    ensures MovedOr(db, ReceiveReply(db, sender, event, binding, accepted, receipt).db, sender, PeerDecides(binding, accepted), false)
  {
    if Awaits(db, sender, binding) {
      SettledMoves(db, sender, binding, accepted);
    }
  }

  lemma SettledMoves(db: Db, peer: Device, binding: BindingId, accepted: bool)
    requires Awaits(db, peer, binding)
    ensures Moved(db, Settled(db, peer, accepted), peer, PeerDecides(binding, accepted))
  {
  }

  lemma UnbindFollows(db: Db, sender: Device, event: EventId, binding: BindingId, receipt: Receipt)
    ensures MovedOr(db, ReceiveUnbind(db, sender, event, binding, receipt).db, sender, PeerRemoves(binding), false)
  {
  }

  /** No other transaction touches a row, and of relations only this: a peer that is met for the
      first time is nearby, and a nearby peer becomes known when its conversation is opened. */
  lemma ChangeFollowsDiagram(db: Db, change: Change)
    ensures var after := Changed(db, change);
            && after.bindings == db.bindings
            && after.peers.Keys == db.peers.Keys + (if change.MeetPeer? then {change.peer} else {})
            && (forall p :: p in after.peers && p !in db.peers ==> after.peers[p] == Nearby)
            && (forall p :: p in db.peers ==>
                  var isOpened := change == OpenThread(p) && p != db.self && db.peers[p] == Nearby;
                  after.peers[p] == if isOpened then Known else db.peers[p])
  {
  }

  // ------------------------------------------------------------ when a call succeeds

  /** Ids generated for this call are new. */
  predicate NewIds(db: Db, call: Call) {
    && (forall k :: k in db.outbox ==> k.event != call.Event()) && call.op !in db.operations
    && (call.RequestCall? ==> forall p :: p in db.bindings ==> db.bindings[p].binding != call.binding)
    && (call.SubmitCall? ==> call.message !in db.messages && Stamp(db.self, db.sequence + 1) !in db.dedup)
  }

  /** What the user can ask for. */
  ghost predicate Possible(db: Db, call: Call) {
    match call
    case RequestCall(_, peer, _, _) => peer in db.peers && peer != db.self
    case DecideCall(_, binding, _, _) => exists p :: p in db.bindings && db.bindings[p].binding == binding && db.bindings[p].state == PendingInbound
    case RemoveCall(_, peer, _) => peer in db.bindings && db.bindings[peer].state !in {Denied, Removed}
    case SetModeCall(_, peer, mode) => ParseMode(mode).Some? && IsActive(db.bindings, peer)
    case SubmitCall(_, peer, text, automatic, _, _) =>
      && 0 < |text| <= MAX_CLIPBOARD_TEXT_BYTES && peer != db.self && db.sequence < I64_MAX
      && PrivateOf(db.self, peer).value in db.conversations
      && (automatic ==> IsActive(db.bindings, peer) && db.bindings[peer].mode in {SendOnly, Bidirectional})
  }

  /** With new ids, a call succeeds exactly when what it asks for is possible, and then it queues
      its event, unless it only chooses a mode or the binding it requests is active already. */
  lemma CallSucceedsExactly(db: Db, call: Call)
    requires NewIds(db, call)
    ensures Local(db, call).result.Ok? <==> Possible(db, call)
    ensures Local(db, call).mail.Some? <==>
              Possible(db, call) && !call.SetModeCall? && !(call.RequestCall? && IsActive(db.bindings, call.peer))
  {
    match call
    case RequestCall(op, peer, binding, event) => RequestSucceeds(db, call);
    case DecideCall(op, binding, accept, event) => DecideSucceeds(db, call);
    case RemoveCall(op, peer, event) => RemoveSucceeds(db, call);
    case SetModeCall(op, peer, mode) =>
    case SubmitCall(op, peer, text, automatic, message, event) => SubmitSucceeds(db, call);
  }

  lemma RequestSucceeds(db: Db, call: Call)
    requires NewIds(db, call) && call.RequestCall?
    ensures Local(db, call).result.Ok? <==> Possible(db, call)
    ensures Local(db, call).mail.Some? <==> Possible(db, call) && !IsActive(db.bindings, call.peer)
  {
  }

  lemma DecideSucceeds(db: Db, call: Call)
    requires NewIds(db, call) && call.DecideCall?
    ensures Local(db, call).result.Ok? <==> Possible(db, call)
    ensures Local(db, call).mail.Some? <==> Possible(db, call)
  {
    if Possible(db, call) {
      var p :| p in db.bindings && db.bindings[p].binding == call.binding && db.bindings[p].state == PendingInbound;
      assert PendingInboundFor(db, p, call.binding);
    }
  }

  lemma RemoveSucceeds(db: Db, call: Call)
    requires NewIds(db, call) && call.RemoveCall?
    ensures Local(db, call).result.Ok? <==> Possible(db, call)
    ensures Local(db, call).mail.Some? <==> Possible(db, call)
  {
    if call.peer in db.bindings {
      match db.bindings[call.peer].state {
        case PendingOutbound => assert Key(call.peer, call.event) !in db.outbox;
        case PendingInbound => assert Key(call.peer, call.event) !in db.outbox;
        case Active => assert Key(call.peer, call.event) !in db.outbox;
        case Denied =>
        case Removed =>
      }
    }
  }

  lemma SubmitSucceeds(db: Db, call: Call)
    requires NewIds(db, call) && call.SubmitCall?
    ensures Local(db, call).result.Ok? <==> Possible(db, call)
    ensures Local(db, call).mail.Some? <==> Possible(db, call)
  {
  }

  /** What the user is told: which binding was asked for, whom a decision was about, and under
      which ids and number a text was sent. */
  lemma CallAnswers(db: Db, call: Call)
    requires NewIds(db, call) && Local(db, call).result.Ok?
    ensures var done, answer := Local(db, call), Local(db, call).result.value;
            && (call.RequestCall? ==> RowOf(done.db, call.peer).Some? && answer == BindingIs(done.db.bindings[call.peer].binding))
            && (call.DecideCall? ==> done.mail.Some? && answer == PeerIs(done.mail.value.to))
            && (call.SubmitCall? ==> answer == Sent(call.message, call.event, db.sequence + 1) && done.db.sequence == db.sequence + 1)
  {
    match call
    case RequestCall(op, peer, binding, event) => RequestAnswers(db, call);
    case DecideCall(op, binding, accept, event) => DecideSucceeds(db, call);
    case RemoveCall(op, peer, event) =>
    case SetModeCall(op, peer, mode) =>
    case SubmitCall(op, peer, text, automatic, message, event) => SubmitSucceeds(db, call);
  }

  lemma RequestAnswers(db: Db, call: Call)
    requires NewIds(db, call) && call.RequestCall? && Local(db, call).result.Ok?
    ensures var done := Local(db, call);
            RowOf(done.db, call.peer).Some? && done.result.value == BindingIs(done.db.bindings[call.peer].binding)
  {
  }

  // -------------------------------------------------------------- what an error says

  /** The fault an error of a call names; the failure to write is for ids that are not new. */
  ghost predicate Blames(db: Db, call: Call, error: Error) {
    match error
    case PeerNotFound =>
      || (call.RequestCall? && (call.peer == db.self || call.peer !in db.peers))
      || (call.SubmitCall? && (call.peer == db.self || PrivateOf(db.self, call.peer).value !in db.conversations))
    case BindingNotFound => (call.DecideCall? || call.RemoveCall?) && !Possible(db, call)
    case InvalidClipboardMode => call.SetModeCall? && forall mode :: call.mode != ModeText(mode)
    case ClipboardBindingRequired =>
      || (call.SetModeCall? && !IsActive(db.bindings, call.peer))
      || (call.SubmitCall? && call.automatic && !(IsActive(db.bindings, call.peer) && db.bindings[call.peer].mode in {SendOnly, Bidirectional}))
    case ClipboardTooLarge => call.SubmitCall? && (call.text == [] || |call.text| > MAX_CLIPBOARD_TEXT_BYTES)
    case ClipboardSequenceExhausted => call.SubmitCall? && db.sequence >= I64_MAX
    case WriteFailed => !NewIds(db, call)
    case InvalidFrame => false
  }

  lemma CallBlamesFault(db: Db, call: Call)
    requires Local(db, call).result.Err?
    ensures Blames(db, call, Local(db, call).result.error)
  {
    match call
    case RequestCall(op, peer, binding, event) => RequestBlames(db, call);
    case DecideCall(op, binding, accept, event) => DecideBlames(db, call);
    case RemoveCall(op, peer, event) => RemoveBlames(db, call);
    case SetModeCall(op, peer, mode) => forall chosen ensures ParseMode(ModeText(chosen)) == Some(chosen) { ModeRoundTrip(chosen, mode); }
    case SubmitCall(op, peer, text, automatic, message, event) => SubmitBlames(db, call);
  }

  lemma RequestBlames(db: Db, call: Call)
    requires call.RequestCall? && Local(db, call).result.Err?
    ensures Blames(db, call, Local(db, call).result.error)
  {
  }

  lemma DecideBlames(db: Db, call: Call)
    requires call.DecideCall? && Local(db, call).result.Err?
    ensures Blames(db, call, Local(db, call).result.error)
  {
    if NewIds(db, call) {
      DecideSucceeds(db, call);
    } else if Possible(db, call) {
      var p :| p in db.bindings && db.bindings[p].binding == call.binding && db.bindings[p].state == PendingInbound;
      assert PendingInboundFor(db, p, call.binding);
    }
  }

  lemma RemoveBlames(db: Db, call: Call)
    requires call.RemoveCall? && Local(db, call).result.Err?
    ensures Blames(db, call, Local(db, call).result.error)
  {
    if call.peer in db.bindings {
      match db.bindings[call.peer].state {
        case Denied => assert !Possible(db, call);
        case Removed => assert !Possible(db, call);
        case _ => assert Local(db, call).result.error == WriteFailed;
      }
    }
  }

  lemma SubmitBlames(db: Db, call: Call)
    requires call.SubmitCall? && Local(db, call).result.Err?
    ensures Blames(db, call, Local(db, call).result.error)
  {
  }

  /** The fault a refusal names to the peer. Only an id that another row has is a failure to
      write, which the peer tries again. */
  ghost predicate Reproaches(db: Db, sender: Device, body: Body, named: bool, error: Error) {
    match error
    case InvalidFrame => body.Bind? && !named
    case WriteFailed => body.Bind? && exists p :: p in db.bindings && p != sender && db.bindings[p].binding == body.binding
    case PeerNotFound =>
      || ((body.Bind? || body.Clip?) && sender !in db.peers)
      || (body.Bind? && sender == db.self) || (body.Clip? && !GoodClip(db.self, sender, body))
    case BindingNotFound =>
      || (body.Reply? && !(RowIs(db, sender, body.binding) && db.bindings[sender].state == PendingOutbound))
      || (body.Unbind? && !RowIs(db, sender, body.binding))
    case ClipboardBindingRequired => body.Clip? && body.automatic && !IsActive(db.bindings, sender)
    case ClipboardTooLarge => body.Clip? && (body.text == [] || |body.text| > MAX_CLIPBOARD_TEXT_BYTES)
    case ClipboardSequenceExhausted => body.Clip? && body.sequence > I64_MAX
    case InvalidClipboardMode => false
  }

  lemma RefusalNamesFault(db: Db, sender: Device, event: EventId, body: Body, id: EventId, named: bool)
    requires Receive(db, sender, event, body, id, named).answer.Err?
    ensures Reproaches(db, sender, body, named, Receive(db, sender, event, body, id, named).answer.error)
  {
    match body
    case Bind(binding) =>
    case Reply(binding, accepted) =>
    case Unbind(binding) =>
    case Clip(message, conversation, origin, sequence, text, automatic) =>
  }

  // ------------------------------------------------------------------------ modes

  function ModeText(mode: Mode): string {
    match mode
    case Off => "off"
    case SendOnly => "send_only"
    case ReceiveOnly => "receive_only"
    case Bidirectional => "bidirectional"
  }

  /** The mode texts are those four and no others. */
  lemma ModeRoundTrip(mode: Mode, text: string)
    ensures ParseMode(ModeText(mode)) == Some(mode)
    ensures ParseMode(text) == Some(mode) ==> text == ModeText(mode)
  {
  }

  // ------------------------------------------------------------------ unfit texts

  /** A text that is empty or too long, that claims another origin, has no number, or belongs to
      another conversation is refused and changes nothing, whatever was received before. */
  lemma UnfitTextIsRefused(db: Db, sender: Device, event: EventId, clip: Body, id: EventId, named: bool)
    requires clip.Clip?
    requires || |clip.text| == 0 || |clip.text| > 1024 * 1024 || clip.origin != sender || clip.sequence == 0
             || sender == db.self || clip.conversation != Private(if sender < db.self then sender else db.self, if sender < db.self then db.self else sender)
    ensures var done := Receive(db, sender, event, clip, id, named); done.answer.Err? && done.db == db && done.write == None
  {
    DeliveryIsAtomic(db, sender, event, clip, id, named);
  }
}
