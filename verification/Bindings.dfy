/** Own-device bindings and text clipboard sync: every storage transaction as a function
    from tables to tables. `BindingStorage` proves the step-by-step transactions equal to
    these functions; `Network` composes them over many devices. */
module Bindings {
  import opened Basics

  type Device = nat
  type EventId = nat
  type BindingId = nat
  type MessageId = nat
  type OperationId = nat

  const MAX_CLIPBOARD_TEXT_BYTES: nat := 1024 * 1024

  datatype Relation = Nearby | Known | OwnDevice

  datatype State = PendingOutbound | PendingInbound | Active | Denied | Removed

  datatype Mode = Off | SendOnly | ReceiveOnly | Bidirectional
  {
    predicate Sends() { SendOnly? || Bidirectional? }
    predicate Receives() { ReceiveOnly? || Bidirectional? }
  }

  function ParseMode(text: string): Option<Mode> {
    if text == "off" then Some(Off)
    else if text == "send_only" then Some(SendOnly)
    else if text == "receive_only" then Some(ReceiveOnly)
    else if text == "bidirectional" then Some(Bidirectional)
    else None
  }

  /** A row of `own_device_bindings`. */
  datatype Row = Row(binding: BindingId, state: State, mode: Mode, requestedBy: Device)

  datatype Conversation = Private(low: Device, high: Device)

  function PrivateOf(a: Device, b: Device): Option<Conversation> {
    if a == b then None else Some(if a < b then Private(a, b) else Private(b, a))
  }

  /** The body of an outgoing event. */
  datatype Body =
    | Bind(binding: BindingId)
    | Reply(binding: BindingId, accepted: bool)
    | Unbind(binding: BindingId)
    | Clip(message: MessageId, conversation: Conversation, origin: Device, sequence: nat, text: Bytes, automatic: bool)

  datatype Mail = Mail(to: Device, body: Body)

  /** The key of an outbox row (recipient, event) and of a processed event (sender, event). */
  datatype Key = Key(peer: Device, event: EventId)

  datatype Receipt = Receipt(id: EventId, sender: Device, original: EventId, message: Option<MessageId>)

  datatype OperationKind = RequestBinding | DecideBinding | RemoveBinding | SetMode | SubmitText

  datatype OperationResult = BindingIs(binding: BindingId) | PeerIs(peer: Device) | Nothing
    | Sent(message: MessageId, event: EventId, sequence: nat)

  datatype Saved = Saved(kind: OperationKind, result: OperationResult)

  datatype Stamp = Stamp(origin: Device, sequence: nat)

  datatype Error = PeerNotFound | BindingNotFound | ClipboardBindingRequired | ClipboardTooLarge
    | ClipboardSequenceExhausted | InvalidClipboardMode | WriteFailed | InvalidFrame

  /** A row of `messages`; `clip` says that its kind is `clipboard_text`. */
  datatype Message = Message(conversation: Conversation, sender: Device, text: Bytes, clip: bool, deleted: bool)

  /** A row of `conversations`. */
  datatype Thread = Thread(unread: nat, deleted: bool)

  /** The tables these transactions touch. `sequence` is `local_profile.clipboard_sequence`;
      `conversations` holds the private ones. */
  datatype Db = Db(
    self: Device,
    peers: map<Device, Relation>,
    bindings: map<Device, Row>,
    outbox: map<Key, Body>,
    processed: map<Key, Receipt>,
    operations: map<OperationId, Saved>,
    sequence: nat,
    dedup: set<Stamp>,
    conversations: map<Conversation, Thread>,
    messages: map<MessageId, Message>)

  function EmptyDb(self: Device): Db {
    Db(self, map[], map[], map[], map[], map[], 0, {}, map[], map[])
  }

  // --------------------------------------------------------- local operations

  datatype Done = Done(db: Db, result: Result<OperationResult, Error>, mail: Option<Mail>)

  function Failed(db: Db, error: Error): Done {
    Done(db, Err(error), None)
  }

  function SavedResult(db: Db, op: OperationId, kind: OperationKind): Option<OperationResult> {
    if op in db.operations && db.operations[op].kind == kind then Some(db.operations[op].result) else None
  }

  /** The end of a transaction: the event goes to the outbox and the result is saved under
      the client operation id. A key already taken rolls everything back. */
  function Commit(db: Db, changed: Db, op: OperationId, kind: OperationKind, result: OperationResult,
                  event: EventId, mail: Option<Mail>): Done
  {
    if op in db.operations || (mail.Some? && Key(mail.value.to, event) in db.outbox) then Failed(db, WriteFailed)
    else
      Done(changed.(operations := db.operations[op := Saved(kind, result)],
                    outbox := if mail.Some? then db.outbox[Key(mail.value.to, event) := mail.value.body] else db.outbox),
           Ok(result), mail)
  }

  predicate ActiveWith(db: Db, peer: Device) {
    IsActive(db.bindings, peer)
  }

  /** The UNIQUE constraint on `binding_id`. */
  predicate IdFree(db: Db, peer: Device, binding: BindingId) {
    forall p :: p in db.bindings && p != peer ==> db.bindings[p].binding != binding
  }

  ghost predicate UniqueIds(bindings: map<Device, Row>) {
    forall p, q :: p in bindings && q in bindings && p != q ==> bindings[p].binding != bindings[q].binding
  }

  function Request(db: Db, op: OperationId, peer: Device, binding: BindingId, event: EventId): Done {
    if peer == db.self then Failed(db, PeerNotFound)
    else match SavedResult(db, op, RequestBinding)
      case Some(saved) => Done(db, Ok(saved), None)
      case None =>
        if peer !in db.peers then Failed(db, PeerNotFound)
        else if ActiveWith(db, peer) then
          Commit(db, db, op, RequestBinding, BindingIs(db.bindings[peer].binding), event, None)
        else if !IdFree(db, peer, binding) then Failed(db, WriteFailed)
        else
          Commit(db, db.(bindings := db.bindings[peer := Row(binding, PendingOutbound, Off, db.self)]),
                 op, RequestBinding, BindingIs(binding), event, Some(Mail(peer, Bind(binding))))
  }

  predicate PendingInboundFor(db: Db, peer: Device, binding: BindingId) {
    peer in db.bindings && db.bindings[peer].binding == binding && db.bindings[peer].state.PendingInbound?
  }

  /** `UPDATE peers SET relation = .. WHERE device_id = ..` */
  function Related(peers: map<Device, Relation>, peer: Device, relation: Relation): map<Device, Relation> {
    if peer in peers then peers[peer := relation] else peers
  }

  function Settled(db: Db, peer: Device, accepted: bool): Db
    requires peer in db.bindings
  {
    db.(bindings := db.bindings[peer := db.bindings[peer].(state := if accepted then Active else Denied, mode := Off)],
        peers := if accepted then Related(db.peers, peer, OwnDevice) else db.peers)
  }

  ghost function Decide(db: Db, op: OperationId, binding: BindingId, accept: bool, event: EventId): Done {
    match SavedResult(db, op, DecideBinding)
    case Some(saved) => Done(db, Ok(saved), None)
    case None =>
      if peer :| PendingInboundFor(db, peer, binding) then
        Commit(db, Settled(db, peer, accept), op, DecideBinding, PeerIs(peer), event, Some(Mail(peer, Reply(binding, accept))))
      else
        Failed(db, BindingNotFound)
  }

  function Remove(db: Db, op: OperationId, peer: Device, event: EventId): Done {
    match SavedResult(db, op, RemoveBinding)
    case Some(saved) => Done(db, Ok(saved), None)
    case None =>
      if peer in db.bindings && db.bindings[peer].state in {Active, PendingOutbound, PendingInbound} then
        Commit(db, Dropped(db, peer), op, RemoveBinding, Nothing, event, Some(Mail(peer, Unbind(db.bindings[peer].binding))))
      else
        Failed(db, BindingNotFound)
  }

  function Dropped(db: Db, peer: Device): Db
    requires peer in db.bindings
  {
    db.(bindings := db.bindings[peer := db.bindings[peer].(state := Removed, mode := Off)],
        peers := Related(db.peers, peer, Known))
  }

  function ChooseMode(db: Db, op: OperationId, peer: Device, mode: string): Done {
    match ParseMode(mode)
    case None => Failed(db, InvalidClipboardMode)
    case Some(chosen) =>
      match SavedResult(db, op, SetMode)
      case Some(saved) => Done(db, Ok(saved), None)
      case None =>
        if ActiveWith(db, peer) then
          Commit(db, db.(bindings := db.bindings[peer := db.bindings[peer].(mode := chosen)]), op, SetMode, Nothing, 0, None)
        else
          Failed(db, ClipboardBindingRequired)
  }

  predicate GoodText(text: Bytes) {
    0 < |text| <= MAX_CLIPBOARD_TEXT_BYTES
  }

  function Submit(db: Db, op: OperationId, peer: Device, text: Bytes, automatic: bool, message: MessageId,
                  event: EventId): Done {
    if !GoodText(text) then Failed(db, ClipboardTooLarge)
    else if PrivateOf(db.self, peer).None? then Failed(db, PeerNotFound)
    else match SavedResult(db, op, SubmitText)
      case Some(saved) => Done(db, Ok(saved), None)
      case None =>
        var conversation := PrivateOf(db.self, peer).value;
        if automatic && !(ActiveWith(db, peer) && db.bindings[peer].mode.Sends()) then Failed(db, ClipboardBindingRequired)
        else if conversation !in db.conversations then Failed(db, PeerNotFound)
        else if db.sequence >= I64_MAX then Failed(db, ClipboardSequenceExhausted)
        else if message in db.messages || Stamp(db.self, db.sequence + 1) in db.dedup then Failed(db, WriteFailed)
        else
          var next := db.sequence + 1;
          Commit(db, db.(sequence := next, messages := db.messages[message := Message(conversation, db.self, text, true, false)],
                            dedup := db.dedup + {Stamp(db.self, next)}),
                 op, SubmitText, Sent(message, event, next), event,
                 Some(Mail(peer, Clip(message, conversation, db.self, next, text, automatic))))
  }

  datatype Call =
    | RequestCall(op: OperationId, peer: Device, binding: BindingId, event: EventId)
    | DecideCall(op: OperationId, binding: BindingId, accept: bool, event: EventId)
    | RemoveCall(op: OperationId, peer: Device, event: EventId)
    | SetModeCall(op: OperationId, peer: Device, mode: string)
    | SubmitCall(op: OperationId, peer: Device, text: Bytes, automatic: bool, message: MessageId, event: EventId)
  {
    function Kind(): OperationKind {
      match this
      case RequestCall(_, _, _, _) => RequestBinding
      case DecideCall(_, _, _, _) => DecideBinding
      case RemoveCall(_, _, _) => RemoveBinding
      case SetModeCall(_, _, _) => SetMode
      case SubmitCall(_, _, _, _, _, _) => SubmitText
    }

    /** The id of the event the call may queue. */
    function Event(): EventId {
      match this
      case RequestCall(_, _, _, event) => event
      case DecideCall(_, _, _, event) => event
      case RemoveCall(_, _, event) => event
      case SetModeCall(_, _, _) => 0
      case SubmitCall(_, _, _, _, _, event) => event
    }

    /** The checks that run before a saved result is looked up. */
    predicate WellFormed(self: Device) {
      match this
      case RequestCall(_, peer, _, _) => peer != self
      case SetModeCall(_, _, mode) => ParseMode(mode).Some?
      case SubmitCall(_, peer, text, _, _, _) => GoodText(text) && peer != self
      case _ => true
    }
  }

  ghost function Local(db: Db, call: Call): Done {
    match call
    case RequestCall(op, peer, binding, event) => Request(db, op, peer, binding, event)
    case DecideCall(op, binding, accept, event) => Decide(db, op, binding, accept, event)
    case RemoveCall(op, peer, event) => Remove(db, op, peer, event)
    case SetModeCall(op, peer, mode) => ChooseMode(db, op, peer, mode)
    case SubmitCall(op, peer, text, automatic, message, event) => Submit(db, op, peer, text, automatic, message, event)
  }

  // ---------------------------------------------------------- received events

  datatype ClipboardWrite = ClipboardWrite(stamp: Stamp, text: Bytes)

  /** What a device does with one received event: its tables, the answer frame, and the
      text it hands to the system clipboard. */
  datatype Handled = Handled(db: Db, answer: Result<Receipt, Error>, write: Option<ClipboardWrite>)

  function Refuse(db: Db, error: Error): Handled {
    Handled(db, Err(error), None)
  }

  /** `insert_processed_event` at the end of a transaction. */
  function Process(db: Db, key: Key, receipt: Receipt, write: Option<ClipboardWrite>): Handled {
    Handled(db.(processed := db.processed[key := receipt]), Ok(receipt), write)
  }

  function ReceiveBind(db: Db, sender: Device, event: EventId, binding: BindingId, receipt: Receipt): Handled {
    var key := Key(sender, event);
    if key in db.processed then Handled(db, Ok(db.processed[key]), None)
    else if sender !in db.peers || sender == db.self then Refuse(db, PeerNotFound)
    else if ActiveWith(db, sender) then Process(db, key, receipt, None)
    else if !IdFree(db, sender, binding) then Refuse(db, WriteFailed)
    else Process(db.(bindings := db.bindings[sender := Row(binding, PendingInbound, Off, sender)]), key, receipt, None)
  }

  predicate RowIs(db: Db, peer: Device, binding: BindingId) {
    peer in db.bindings && db.bindings[peer].binding == binding
  }

  predicate Awaits(db: Db, peer: Device, binding: BindingId) {
    RowIs(db, peer, binding) && db.bindings[peer].state.PendingOutbound?
  }

  function ReceiveReply(db: Db, sender: Device, event: EventId, binding: BindingId, accepted: bool,
                        receipt: Receipt): Handled {
    var key := Key(sender, event);
    if key in db.processed then Handled(db, Ok(db.processed[key]), None)
    else if !Awaits(db, sender, binding) then Refuse(db, BindingNotFound)
    else Process(Settled(db, sender, accepted), key, receipt, None)
  }

  function ReceiveUnbind(db: Db, sender: Device, event: EventId, binding: BindingId, receipt: Receipt): Handled {
    var key := Key(sender, event);
    if key in db.processed then Handled(db, Ok(db.processed[key]), None)
    else if !RowIs(db, sender, binding) then Refuse(db, BindingNotFound)
    else Process(Dropped(db, sender), key, receipt, None)
  }

  predicate GoodClip(self: Device, sender: Device, clip: Body)
    requires clip.Clip?
  {
    && GoodText(clip.text) && clip.origin == sender && clip.sequence != 0
    && PrivateOf(self, sender) == Some(clip.conversation)
  }

  function ReceiveClip(db: Db, sender: Device, event: EventId, clip: Body, receipt: Receipt): Handled
    requires clip.Clip?
  {
    var key := Key(sender, event);
    if !GoodText(clip.text) then Refuse(db, ClipboardTooLarge)
    else if !GoodClip(db.self, sender, clip) then Refuse(db, PeerNotFound)
    else if key in db.processed then Handled(db, Ok(db.processed[key]), None)
    else if sender !in db.peers then Refuse(db, PeerNotFound)
    else if clip.automatic && !ActiveWith(db, sender) then Refuse(db, ClipboardBindingRequired)
    else if Stamp(sender, Min(clip.sequence, I64_MAX)) in db.dedup then Process(db, key, receipt, None)
    else if clip.sequence > I64_MAX then Refuse(db, ClipboardSequenceExhausted)
    else
      Process(ClipInserted(db, clip), key, receipt,
              if clip.automatic && db.bindings[sender].mode.Receives()
              then Some(ClipboardWrite(Stamp(sender, clip.sequence), clip.text)) else None)
  }

  function UnreadOf(db: Db, conversation: Conversation): nat {
    if conversation in db.conversations then db.conversations[conversation].unread else 0
  }

  /** A new clipboard message: one more unread, its text kept, its stamp remembered. */
  function ClipInserted(db: Db, clip: Body): Db
    requires clip.Clip?
  {
    db.(conversations := db.conversations[clip.conversation := Thread(UnreadOf(db, clip.conversation) + 1, false)],
        messages := if clip.message in db.messages then db.messages
                    else db.messages[clip.message := Message(clip.conversation, clip.origin, clip.text, true, false)],
        dedup := db.dedup + {Stamp(clip.origin, clip.sequence)})
  }

  /** The arms of `handle_control_event_value`. `named` says that the requester name of a
      bind request is the name in the hello of this connection. */
  function Receive(db: Db, sender: Device, event: EventId, body: Body, id: EventId, named: bool): Handled {
    match body
    case Bind(binding) =>
      if !named then Refuse(db, InvalidFrame)
      else ReceiveBind(db, sender, event, binding, Receipt(id, db.self, event, None))
    case Reply(binding, accepted) => ReceiveReply(db, sender, event, binding, accepted, Receipt(id, db.self, event, None))
    case Unbind(binding) => ReceiveUnbind(db, sender, event, binding, Receipt(id, db.self, event, None))
    case Clip(message, _, _, _, _, _) => ReceiveClip(db, sender, event, body, Receipt(id, db.self, event, Some(message)))
  }

  /** The checks that run before a saved receipt is looked up. */
  predicate Acceptable(self: Device, sender: Device, body: Body, named: bool) {
    match body
    case Bind(_) => named
    case Clip(_, _, _, _, _, _) => GoodClip(self, sender, body)
    case _ => true
  }

  /** The guard each kind of event has to meet to change the tables, on top of being
      acceptable and new. */
  predicate Guard(db: Db, sender: Device, body: Body) {
    match body
    case Bind(binding) => sender in db.peers && sender != db.self && (ActiveWith(db, sender) || IdFree(db, sender, binding))
    case Reply(binding, _) => Awaits(db, sender, binding)
    case Unbind(binding) => RowIs(db, sender, binding)
    case Clip(_, _, _, sequence, _, automatic) =>
      && sender in db.peers && (automatic ==> ActiveWith(db, sender))
      && (sequence <= I64_MAX || Stamp(sender, I64_MAX) in db.dedup)
  }

  // --------------------------------------------------------------- error codes

  function ErrorCode(error: Error): string {
    match error
    case PeerNotFound => "PEER_UNKNOWN"
    case BindingNotFound => "NOT_FOUND"
    case ClipboardBindingRequired => "CLIPBOARD_BINDING_REQUIRED"
    case ClipboardTooLarge => "CLIPBOARD_TOO_LARGE"
    case ClipboardSequenceExhausted => "INVALID_ARGUMENT"
    case InvalidClipboardMode => "INVALID_ARGUMENT"
    case WriteFailed => "STORAGE_WRITE_FAILED"
    case InvalidFrame => "PROTOCOL_INVALID_FRAME"
  }

  predicate ShouldRetry(code: string) {
    code in ["NOT_READY", "STORAGE_OPEN_FAILED", "STORAGE_MIGRATION_FAILED", "STORAGE_WRITE_FAILED",
             "NETWORK_CONNECTION_LOST", "GROUP_REVISION_CONFLICT"]
  }

  predicate Terminal(error: Error) {
    !ShouldRetry(ErrorCode(error))
  }

  lemma OnlyWriteFailureIsRetried(error: Error)
    ensures Terminal(error) <==> error != WriteFailed
  {
    var codes := ["NOT_READY", "STORAGE_OPEN_FAILED", "STORAGE_MIGRATION_FAILED", "STORAGE_WRITE_FAILED",
                  "NETWORK_CONNECTION_LOST", "GROUP_REVISION_CONFLICT"];
    assert codes[3] == "STORAGE_WRITE_FAILED";
    if error != WriteFailed {
      var code := ErrorCode(error);
      forall i | 0 <= i < |codes|
        ensures codes[i] != code
      {
        assert |codes[i]| != |code| || codes[i][0] != code[0] || codes[i][4] != code[4];
      }
    }
  }

  // -------------------------------------------------------------------- outbox

  /** `apply_outbox_receipt` accepts the receipt for this row. */
  predicate ReceiptFits(key: Key, body: Body, receipt: Receipt) {
    receipt.sender == key.peer && receipt.original == key.event && (body.Clip? ==> receipt.message.Some?)
  }

  /** `run_outbox` after one attempt: a fitting receipt clears the row, a terminal error
      fails it, and anything else leaves it for a retry. */
  function Resolve(db: Db, key: Key, answer: Result<Receipt, Error>): Db {
    if key !in db.outbox then db
    else match answer
      case Ok(receipt) => if ReceiptFits(key, db.outbox[key], receipt) then db.(outbox := db.outbox - {key}) else db
      case Err(error) => if Terminal(error) then db.(outbox := db.outbox - {key}) else db
  }

  // ----------------------------------------------------- what else changes tables

  /** Other transactions on these tables, each past its own replay check: a hello, opening,
      reading and deleting a private conversation, a text message or file offer received from
      a peer, and the pruning of `clipboard_dedup`. */
  datatype Change =
    | MeetPeer(peer: Device)
    | OpenThread(peer: Device)
    | ReadThread(conversation: Conversation, later: set<MessageId>)
    | DeleteThread(conversation: Conversation)
    | TakeMessage(sender: Device, message: MessageId)
    | Prune(stamps: set<Stamp>)

  /** `upsert_nearby_peer` keeps the relation of a peer it knows. */
  function Met(db: Db, peer: Device): Db {
    db.(peers := db.peers[peer := if peer in db.peers then db.peers[peer] else Nearby])
  }

  function Opened(db: Db, peer: Device): Db {
    match PrivateOf(db.self, peer)
    case None => db
    case Some(conversation) =>
      if peer !in db.peers then db
      else
        db.(peers := if db.peers[peer].Nearby? then db.peers[peer := Known] else db.peers,
            conversations := db.conversations[conversation := Thread(UnreadOf(db, conversation), false)])
  }

  /** The messages of a conversation that came from the peer and are not deleted. */
  function Live(db: Db, conversation: Conversation): set<MessageId> {
    set m | m in db.messages && db.messages[m].conversation == conversation
            && db.messages[m].sender != db.self && !db.messages[m].deleted
  }

  /** `mark_conversation_read` counts anew: the live messages of the peer after a position. */
  function Read(db: Db, conversation: Conversation, later: set<MessageId>): Db {
    if conversation in db.conversations && !db.conversations[conversation].deleted && later <= Live(db, conversation) then
      db.(conversations := db.conversations[conversation := Thread(|later|, false)])
    else db
  }

  predicate InThread(body: Body, conversation: Conversation) {
    body.Clip? && body.conversation == conversation
  }

  /** `delete_conversation`: its messages are marked deleted, the events still queued for it
      are dropped, and nothing is unread. */
  function Deleted(db: Db, conversation: Conversation): Db {
    if conversation !in db.conversations then db
    else
      db.(messages := map m | m in db.messages ::
                        if db.messages[m].conversation == conversation then db.messages[m].(deleted := true) else db.messages[m],
          conversations := db.conversations[conversation := Thread(0, true)],
          outbox := map k | k in db.outbox && !InThread(db.outbox[k], conversation) :: db.outbox[k])
  }

  /** A private text message or file offer under a new id: its row and one more unread. */
  function Taken(db: Db, sender: Device, message: MessageId): Db {
    match PrivateOf(db.self, sender)
    case None => db
    case Some(conversation) =>
      if sender !in db.peers || message in db.messages then db
      else
        db.(messages := db.messages[message := Message(conversation, sender, [], false, false)],
            conversations := db.conversations[conversation := Thread(UnreadOf(db, conversation) + 1, false)])
  }

  /** None of these changes touches a binding, a saved receipt or the sequence number, and
      none queues an event. */
  ghost predicate Aside(db: Db, after: Db) {
    && after.self == db.self && after.bindings == db.bindings && after.processed == db.processed
    && after.sequence == db.sequence && db.peers.Keys <= after.peers.Keys
    && forall k :: k in after.outbox ==> k in db.outbox && after.outbox[k] == db.outbox[k]
  }

  ghost function Changed(db: Db, change: Change): Db
    ensures Aside(db, Changed(db, change))
  {
    match change
    case MeetPeer(peer) => Met(db, peer)
    case OpenThread(peer) => Opened(db, peer)
    case ReadThread(conversation, later) => Read(db, conversation, later)
    case DeleteThread(conversation) => Deleted(db, conversation)
    case TakeMessage(sender, message) => Taken(db, sender, message)
    case Prune(stamps) => db.(dedup := db.dedup - stamps)
  }

  // ----------------------------------------------------- one delivery at a time

  /** One delivery either answers from a saved receipt and changes nothing, or refuses and
      changes nothing, or applies the event and saves the receipt it answers with; and it
      applies exactly the acceptable new events whose guard holds. */
  ghost predicate Atomic(db: Db, sender: Device, event: EventId, body: Body, named: bool, done: Handled) {
    var key := Key(sender, event);
    if key in db.processed then
      && done.db == db && done.write == None
      && if Acceptable(db.self, sender, body, named) then done.answer == Ok(db.processed[key]) else done.answer.Err?
    else if Acceptable(db.self, sender, body, named) && Guard(db, sender, body) then
      && done.answer.Ok? && done.db.processed == db.processed[key := done.answer.value]
      && ReceiptFits(Key(db.self, event), body, done.answer.value)
      && done.db.self == db.self && done.db.outbox == db.outbox
    else
      done.answer.Err? && done.db == db && done.write == None
  }

  lemma DeliveryIsAtomic(db: Db, sender: Device, event: EventId, body: Body, id: EventId, named: bool)
    ensures Atomic(db, sender, event, body, named, Receive(db, sender, event, body, id, named))
  {
    match body
    case Bind(binding) => BindIsAtomic(db, sender, event, body, id, named);
    case Reply(binding, accepted) => ReplyIsAtomic(db, sender, event, body, id, named);
    case Unbind(binding) =>
    case Clip(message, conversation, origin, sequence, text, automatic) => ClipIsAtomic(db, sender, event, body, id, named);
  }

  lemma BindIsAtomic(db: Db, sender: Device, event: EventId, body: Body, id: EventId, named: bool)
    requires body.Bind?
    ensures Atomic(db, sender, event, body, named, Receive(db, sender, event, body, id, named))
  {
    var receipt := Receipt(id, db.self, event, None);
    if named {
      assert Receive(db, sender, event, body, id, named) == ReceiveBind(db, sender, event, body.binding, receipt);
    }
  }

  lemma ReplyIsAtomic(db: Db, sender: Device, event: EventId, body: Body, id: EventId, named: bool)
    requires body.Reply?
    ensures Atomic(db, sender, event, body, named, Receive(db, sender, event, body, id, named))
  {
    var receipt := Receipt(id, db.self, event, None);
    assert Receive(db, sender, event, body, id, named) == ReceiveReply(db, sender, event, body.binding, body.accepted, receipt);
  }

  lemma ClipIsAtomic(db: Db, sender: Device, event: EventId, body: Body, id: EventId, named: bool)
    requires body.Clip?
    ensures Atomic(db, sender, event, body, named, Receive(db, sender, event, body, id, named))
  {
    var receipt := Receipt(id, db.self, event, Some(body.message));
    assert Receive(db, sender, event, body, id, named) == ReceiveClip(db, sender, event, body, receipt);
  }

  // ---------------------------------------------------------- table invariants

  predicate IsActive(bindings: map<Device, Row>, peer: Device) {
    peer in bindings && bindings[peer].state.Active?
  }

  /** A peer is an own device exactly when its binding is active, a clipboard mode other than
      off needs an active binding, and no binding id is used twice. */
  ghost predicate Matched(peers: map<Device, Relation>, bindings: map<Device, Row>) {
    && bindings.Keys <= peers.Keys
    && (forall p :: p in peers ==> (peers[p].OwnDevice? <==> IsActive(bindings, p)))
    && (forall p :: p in bindings && bindings[p].mode != Off ==> IsActive(bindings, p))
    && UniqueIds(bindings)
  }

  ghost predicate Consistent(db: Db) {
    Matched(db.peers, db.bindings)
  }

  /** One row written with the relation that belongs to it. */
  lemma RowWritten(peers: map<Device, Relation>, bindings: map<Device, Row>, peer: Device, row: Row,
                   after: map<Device, Relation>)
    requires Matched(peers, bindings) && peer in peers
    requires row.mode != Off ==> row.state.Active?
    requires forall p :: p in bindings && p != peer ==> bindings[p].binding != row.binding
    requires after.Keys == peers.Keys && (after[peer].OwnDevice? <==> row.state.Active?)
    requires forall p :: p in peers && p != peer ==> after[p] == peers[p]
    ensures Matched(after, bindings[peer := row])
  {
  }

  lemma SettledKeeps(db: Db, peer: Device, accepted: bool)
    requires Consistent(db) && peer in db.bindings && !db.bindings[peer].state.Active?
    ensures Consistent(Settled(db, peer, accepted))
  {
    var after := Settled(db, peer, accepted);
    RowWritten(db.peers, db.bindings, peer, after.bindings[peer], after.peers);
  }

  lemma DroppedKeeps(db: Db, peer: Device)
    requires Consistent(db) && peer in db.bindings
    ensures Consistent(Dropped(db, peer))
  {
    var after := Dropped(db, peer);
    RowWritten(db.peers, db.bindings, peer, after.bindings[peer], after.peers);
  }

  lemma RequestKeeps(db: Db, op: OperationId, peer: Device, binding: BindingId, event: EventId)
    requires Consistent(db)
    ensures Consistent(Request(db, op, peer, binding, event).db)
  {
    if peer in db.peers && !ActiveWith(db, peer) && IdFree(db, peer, binding) {
      RowWritten(db.peers, db.bindings, peer, Row(binding, PendingOutbound, Off, db.self), db.peers);
    }
  }

  lemma DecideKeeps(db: Db, op: OperationId, binding: BindingId, accept: bool, event: EventId)
    requires Consistent(db)
    ensures Consistent(Decide(db, op, binding, accept, event).db)
  {
    forall peer | PendingInboundFor(db, peer, binding)
      ensures Consistent(Settled(db, peer, accept))
    {
      SettledKeeps(db, peer, accept);
    }
  }

  lemma RemoveKeeps(db: Db, op: OperationId, peer: Device, event: EventId)
    requires Consistent(db)
    ensures Consistent(Remove(db, op, peer, event).db)
  {
    if peer in db.bindings {
      DroppedKeeps(db, peer);
    }
  }

  lemma ChooseModeKeeps(db: Db, op: OperationId, peer: Device, mode: string)
    requires Consistent(db)
    ensures Consistent(ChooseMode(db, op, peer, mode).db)
  {
    if ActiveWith(db, peer) && ParseMode(mode).Some? {
      RowWritten(db.peers, db.bindings, peer, db.bindings[peer].(mode := ParseMode(mode).value), db.peers);
    }
  }

  lemma SubmitKeeps(db: Db, op: OperationId, peer: Device, text: Bytes, automatic: bool, message: MessageId,
                    event: EventId)
    ensures Submit(db, op, peer, text, automatic, message, event).db.peers == db.peers
    ensures Submit(db, op, peer, text, automatic, message, event).db.bindings == db.bindings
  {
  }

  lemma CallKeepsConsistent(db: Db, call: Call)
    requires Consistent(db)
    ensures Consistent(Local(db, call).db)
  {
    match call
    case RequestCall(op, peer, binding, event) => RequestKeeps(db, op, peer, binding, event);
    case DecideCall(op, binding, accept, event) => DecideKeeps(db, op, binding, accept, event);
    case RemoveCall(op, peer, event) => RemoveKeeps(db, op, peer, event);
    case SetModeCall(op, peer, mode) => ChooseModeKeeps(db, op, peer, mode);
    case SubmitCall(op, peer, text, automatic, message, event) => SubmitKeeps(db, op, peer, text, automatic, message, event);
  }

  lemma EventKeepsConsistent(db: Db, sender: Device, event: EventId, body: Body, id: EventId, named: bool)
    requires Consistent(db)
    ensures Consistent(Receive(db, sender, event, body, id, named).db)
  {
    match body
    case Bind(binding) =>
      if sender in db.peers && !ActiveWith(db, sender) && IdFree(db, sender, binding) {
        RowWritten(db.peers, db.bindings, sender, Row(binding, PendingInbound, Off, sender), db.peers);
      }
    case Reply(binding, accepted) => if Awaits(db, sender, binding) { SettledKeeps(db, sender, accepted); }
    case Unbind(binding) => if RowIs(db, sender, binding) { DroppedKeeps(db, sender); }
    case Clip(message, conversation, origin, sequence, text, automatic) => ClipKeepsRows(db, sender, event, body, Receipt(id, db.self, event, Some(message)));
  }

  lemma ClipKeepsRows(db: Db, sender: Device, event: EventId, clip: Body, receipt: Receipt)
    requires clip.Clip?
    ensures ReceiveClip(db, sender, event, clip, receipt).db.peers == db.peers
    ensures ReceiveClip(db, sender, event, clip, receipt).db.bindings == db.bindings
    ensures ReceiveClip(db, sender, event, clip, receipt).db.sequence == db.sequence
  {
  }

  /** No message, count, stamp or sequence number is touched. */
  ghost predicate SameMessages(db: Db, after: Db) {
    && after.messages == db.messages && after.conversations == db.conversations
    && after.dedup == db.dedup && after.sequence == db.sequence && after.peers.Keys == db.peers.Keys
  }

  lemma BindKeepsMessages(db: Db, sender: Device, event: EventId, binding: BindingId, receipt: Receipt)
    ensures SameMessages(db, ReceiveBind(db, sender, event, binding, receipt).db)
  {
  }

  lemma ReplyKeepsMessages(db: Db, sender: Device, event: EventId, binding: BindingId, accepted: bool, receipt: Receipt)
    ensures SameMessages(db, ReceiveReply(db, sender, event, binding, accepted, receipt).db)
  {
  }

  lemma UnbindKeepsMessages(db: Db, sender: Device, event: EventId, binding: BindingId, receipt: Receipt)
    ensures SameMessages(db, ReceiveUnbind(db, sender, event, binding, receipt).db)
  {
  }

  lemma OthersKeepMessages(db: Db, sender: Device, event: EventId, body: Body, id: EventId, named: bool)
    requires !body.Clip?
    ensures SameMessages(db, Receive(db, sender, event, body, id, named).db)
  {
    var receipt := Receipt(id, db.self, event, None);
    match body
    case Bind(binding) => BindKeepsMessages(db, sender, event, binding, receipt);
    case Reply(binding, accepted) => ReplyKeepsMessages(db, sender, event, binding, accepted, receipt);
    case Unbind(binding) => UnbindKeepsMessages(db, sender, event, binding, receipt);
  }

  lemma ChangeKeepsConsistent(db: Db, change: Change)
    requires Consistent(db)
    ensures Consistent(Changed(db, change))
  {
  }
}
