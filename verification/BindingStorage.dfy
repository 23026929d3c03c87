/** The binding and clipboard transactions as they run: checks in order, tables changed one
    statement after the other on the transaction's copies, one commit at the end. Each is
    proved equal to its function in `Bindings`; an early return rolls back. */
module BindingStorage {
  import opened Basics
  import opened Bindings

  class Storage {
    const self: Device
    var peers: map<Device, Relation>
    var bindings: map<Device, Row>
    var outbox: map<Key, Body>
    var processed: map<Key, Receipt>
    var operations: map<OperationId, Saved>
    var sequence: nat
    var dedup: set<Stamp>
    var conversations: map<Conversation, Thread>
    var messages: map<MessageId, Message>

    constructor (self: Device)
      ensures Tables() == EmptyDb(self)
    {
      this.self := self;
      peers, bindings, outbox, processed, operations := map[], map[], map[], map[], map[];
      sequence, dedup, conversations, messages := 0, {}, map[], map[];
    }

    function Tables(): Db
      reads this
    {
      Db(self, peers, bindings, outbox, processed, operations, sequence, dedup, conversations, messages)
    }

    /** `ids` are the results of `BindingId::generate()` and `EventId::generate()`. */
    method RequestOwnDeviceBinding(op: OperationId, peer: Device, ids: (BindingId, EventId))
      returns (result: Result<OperationResult, Error>)
      modifies this`bindings, this`outbox, this`operations
      ensures var done := Request(old(Tables()), op, peer, ids.0, ids.1);
              Tables() == done.db && result == done.result
    {
      if peer == self { return Err(PeerNotFound); }
      if op in operations && operations[op].kind == RequestBinding {
        return Ok(operations[op].result);
      }
      if peer !in peers { return Err(PeerNotFound); }
      var rows, queue, binding := bindings, outbox, ids.0;
      if peer in rows && rows[peer].state.Active? {
        binding := rows[peer].binding;
      } else {
        if !IdFree(Tables(), peer, binding) { return Err(WriteFailed); }
        rows := rows[peer := Row(binding, PendingOutbound, Off, self)];
        if Key(peer, ids.1) in queue { return Err(WriteFailed); }
        queue := queue[Key(peer, ids.1) := Bind(binding)];
      }
      if op in operations { return Err(WriteFailed); }
      bindings, outbox, operations := rows, queue, operations[op := Saved(RequestBinding, BindingIs(binding))];
      return Ok(BindingIs(binding));
    }

    method ReceiveOwnDeviceBind(sender: Device, event: EventId, binding: BindingId, receipt: Receipt)
      returns (answer: Result<Receipt, Error>)
      modifies this`bindings, this`processed
      ensures var done := ReceiveBind(old(Tables()), sender, event, binding, receipt);
              Tables() == done.db && answer == done.answer
    {
      var key := Key(sender, event);
      if key in processed { return Ok(processed[key]); }
      if sender !in peers || sender == self { return Err(PeerNotFound); }
      var rows := bindings;
      if !(sender in rows && rows[sender].state.Active?) {
        if !IdFree(Tables(), sender, binding) { return Err(WriteFailed); }
        rows := rows[sender := Row(binding, PendingInbound, Off, sender)];
      }
      bindings, processed := rows, processed[key := receipt];
      return Ok(receipt);
    }

    /** The peer whose row waits for this decision: a scan, as `binding_id` is unique. */
    method FindPendingInbound(binding: BindingId) returns (found: Option<Device>)
      requires UniqueIds(bindings)
      ensures found.None? ==> forall peer :: !PendingInboundFor(Tables(), peer, binding)
      ensures found.Some? ==> PendingInboundFor(Tables(), found.value, binding)
    {
      var left := bindings.Keys;
      while left != {}
        invariant left <= bindings.Keys
        invariant forall peer :: peer in bindings && peer !in left ==> !PendingInboundFor(Tables(), peer, binding)
        decreases |left|
      {
        var peer :| peer in left;
        if bindings[peer].binding == binding && bindings[peer].state.PendingInbound? {
          return Some(peer);
        }
        left := left - {peer};
      }
      return None;
    }

    method DecideOwnDeviceBinding(op: OperationId, binding: BindingId, accept: bool, event: EventId)
      returns (result: Result<OperationResult, Error>)
      requires UniqueIds(bindings)
      modifies this`bindings, this`peers, this`outbox, this`operations
      ensures var done := Decide(old(Tables()), op, binding, accept, event);
              Tables() == done.db && result == done.result
    {
      if op in operations && operations[op].kind == DecideBinding {
        return Ok(operations[op].result);
      }
      var found := FindPendingInbound(binding);
      if found.None? { return Err(BindingNotFound); }
      var peer := found.value;
      assert forall other :: PendingInboundFor(Tables(), other, binding) ==> other == peer;
      var rows, relations, queue := bindings, peers, outbox;
      rows := rows[peer := rows[peer].(state := if accept then Active else Denied, mode := Off)];
      if accept && peer in relations {
        relations := relations[peer := OwnDevice];
      }
      if Key(peer, event) in queue { return Err(WriteFailed); }
      queue := queue[Key(peer, event) := Reply(binding, accept)];
      if op in operations { return Err(WriteFailed); }
      bindings, peers, outbox, operations := rows, relations, queue, operations[op := Saved(DecideBinding, PeerIs(peer))];
      return Ok(PeerIs(peer));
    }

    method ReceiveOwnDeviceBindReply(sender: Device, event: EventId, binding: BindingId, accepted: bool,
                                     receipt: Receipt)
      returns (answer: Result<Receipt, Error>)
      modifies this`bindings, this`peers, this`processed
      ensures var done := ReceiveReply(old(Tables()), sender, event, binding, accepted, receipt);
              Tables() == done.db && answer == done.answer
    {
      var key := Key(sender, event);
      if key in processed { return Ok(processed[key]); }
      var rows, relations, changed := bindings, peers, 0;
      if sender in rows && rows[sender].binding == binding && rows[sender].state.PendingOutbound? {
        rows := rows[sender := rows[sender].(state := if accepted then Active else Denied, mode := Off)];
        changed := 1;
      }
      if changed == 0 { return Err(BindingNotFound); }
      if accepted && sender in relations {
        relations := relations[sender := OwnDevice];
      }
      bindings, peers, processed := rows, relations, processed[key := receipt];
      return Ok(receipt);
    }

    method RemoveOwnDeviceBinding(op: OperationId, peer: Device, event: EventId)
      returns (result: Result<OperationResult, Error>)
      modifies this`bindings, this`peers, this`outbox, this`operations
      ensures var done := Remove(old(Tables()), op, peer, event);
              Tables() == done.db && result == done.result
    {
      if op in operations && operations[op].kind == RemoveBinding {
        return Ok(operations[op].result);
      }
      if peer !in bindings || bindings[peer].state !in {Active, PendingOutbound, PendingInbound} {
        return Err(BindingNotFound);
      }
      var binding, rows, relations, queue := bindings[peer].binding, bindings, peers, outbox;
      rows := rows[peer := rows[peer].(state := Removed, mode := Off)];
      if peer in relations {
        relations := relations[peer := Known];
      }
      if Key(peer, event) in queue { return Err(WriteFailed); }
      queue := queue[Key(peer, event) := Unbind(binding)];
      if op in operations { return Err(WriteFailed); }
      bindings, peers, outbox, operations := rows, relations, queue, operations[op := Saved(RemoveBinding, Nothing)];
      return Ok(Nothing);
    }

    method ReceiveOwnDeviceUnbind(sender: Device, event: EventId, binding: BindingId, receipt: Receipt)
      returns (answer: Result<Receipt, Error>)
      modifies this`bindings, this`peers, this`processed
      ensures var done := ReceiveUnbind(old(Tables()), sender, event, binding, receipt);
              Tables() == done.db && answer == done.answer
    {
      var key := Key(sender, event);
      if key in processed { return Ok(processed[key]); }
      var rows, relations, changed := bindings, peers, 0;
      if sender in rows && rows[sender].binding == binding {
        rows := rows[sender := rows[sender].(state := Removed, mode := Off)];
        changed := 1;
      }
      if changed == 0 { return Err(BindingNotFound); }
      if sender in relations {
        relations := relations[sender := Known];
      }
      bindings, peers, processed := rows, relations, processed[key := receipt];
      return Ok(receipt);
    }

    method SetClipboardMode(op: OperationId, peer: Device, mode: string)
      returns (result: Result<OperationResult, Error>)
      modifies this`bindings, this`operations
      ensures var done := ChooseMode(old(Tables()), op, peer, mode);
              Tables() == done.db && result == done.result
    {
      var chosen := ParseMode(mode);
      if chosen.None? { return Err(InvalidClipboardMode); }
      if op in operations && operations[op].kind == SetMode {
        return Ok(operations[op].result);
      }
      var rows, changed := bindings, 0;
      if peer in rows && rows[peer].state.Active? {
        rows := rows[peer := rows[peer].(mode := chosen.value)];
        changed := 1;
      }
      if changed == 0 { return Err(ClipboardBindingRequired); }
      if op in operations { return Err(WriteFailed); }
      bindings, operations := rows, operations[op := Saved(SetMode, Nothing)];
      return Ok(Nothing);
    }

    /** `ids` are the results of `MessageId::generate()` and `EventId::generate()`. */
    method SubmitLocalClipboardText(op: OperationId, peer: Device, text: Bytes, automatic: bool,
                                    ids: (MessageId, EventId))
      returns (result: Result<OperationResult, Error>)
      modifies this`sequence, this`messages, this`dedup, this`outbox, this`operations
      ensures var done := Submit(old(Tables()), op, peer, text, automatic, ids.0, ids.1);
              Tables() == done.db && result == done.result
    {
      if !GoodText(text) { return Err(ClipboardTooLarge); }
      var conversation := PrivateOf(self, peer);
      if conversation.None? { return Err(PeerNotFound); }
      if op in operations && operations[op].kind == SubmitText {
        return Ok(operations[op].result);
      }
      if automatic {
        var mode := if peer in bindings && bindings[peer].state.Active? then Some(bindings[peer].mode) else None;
        if mode != Some(SendOnly) && mode != Some(Bidirectional) { return Err(ClipboardBindingRequired); }
      }
      if conversation.value !in conversations { return Err(PeerNotFound); }
      if sequence >= I64_MAX { return Err(ClipboardSequenceExhausted); }
      var next, message, event := sequence + 1, ids.0, ids.1;
      if message in messages || Stamp(self, next) in dedup || Key(peer, event) in outbox || op in operations {
        return Err(WriteFailed);
      }
      sequence, messages, dedup := next, messages[message := Message(conversation.value, self, text, true, false)], dedup + {Stamp(self, next)};
      outbox := outbox[Key(peer, event) := Clip(message, conversation.value, self, next, text, automatic)];
      operations := operations[op := Saved(SubmitText, Sent(message, event, next))];
      return Ok(Sent(message, event, next));
    }

    method InsertClip(clip: Body)
      requires clip.Clip?
      modifies this`conversations, this`messages, this`dedup
      ensures Tables() == ClipInserted(old(Tables()), clip)
    {
      if clip.conversation !in conversations {
        conversations := conversations[clip.conversation := Thread(0, false)];
      } else {
        conversations := conversations[clip.conversation := conversations[clip.conversation].(deleted := false)];
      }
      if clip.message !in messages {
        messages := messages[clip.message := Message(clip.conversation, clip.origin, clip.text, true, false)];
      }
      dedup := dedup + {Stamp(clip.origin, clip.sequence)};
      conversations := conversations[clip.conversation := Thread(conversations[clip.conversation].unread + 1, false)];
    }

    /** `clipboardWrite` is what the caller hands to the system clipboard. */
    method ReceiveClipboardText(sender: Device, event: EventId, clip: Body, receipt: Receipt)
      returns (answer: Result<Receipt, Error>, clipboardWrite: Option<ClipboardWrite>)
      requires clip.Clip?
      modifies this`conversations, this`messages, this`dedup, this`processed
      ensures var done := ReceiveClip(old(Tables()), sender, event, clip, receipt);
              Tables() == done.db && answer == done.answer && clipboardWrite == done.write
    {
      clipboardWrite := None;
      if !GoodText(clip.text) { return Err(ClipboardTooLarge), None; }
      if clip.origin != sender || clip.sequence == 0 { return Err(PeerNotFound), None; }
      var expected := PrivateOf(self, sender);
      if expected != Some(clip.conversation) { return Err(PeerNotFound), None; }
      var key := Key(sender, event);
      if key in processed { return Ok(processed[key]), None; }
      if sender !in peers { return Err(PeerNotFound), None; }
      var mode := if sender in bindings && bindings[sender].state.Active? then Some(bindings[sender].mode) else None;
      var writeToSystem := clip.automatic && (mode == Some(ReceiveOnly) || mode == Some(Bidirectional));
      if clip.automatic && mode == None { return Err(ClipboardBindingRequired), None; }
      if Stamp(sender, Min(clip.sequence, I64_MAX)) in dedup {
        processed := processed[key := receipt];
        return Ok(receipt), None;
      }
      if clip.sequence > I64_MAX { return Err(ClipboardSequenceExhausted), None; }
      InsertClip(clip);
      processed := processed[key := receipt];
      if writeToSystem {
        clipboardWrite := Some(ClipboardWrite(Stamp(sender, clip.sequence), clip.text));
      }
      return Ok(receipt), clipboardWrite;
    }

    /** `mark_control_event_stored` and the outbox half of `mark_text_delivered`. */
    method ApplyOutboxReceipt(key: Key, body: Body, receipt: Receipt) returns (ok: bool)
      modifies this`outbox
      ensures ok <==> ReceiptFits(key, body, receipt)
      ensures outbox == if ok then old(outbox) - {key} else old(outbox)
    {
      if receipt.sender != key.peer || receipt.original != key.event { return false; }
      if body.Clip? && receipt.message.None? { return false; }
      outbox := outbox - {key};
      return true;
    }

    method MarkOutboxProtocolFailure(key: Key)
      modifies this`outbox
      ensures outbox == old(outbox) - {key}
    {
      if key !in outbox { return; }
      outbox := outbox - {key};
    }

    /** One attempt of `run_outbox` at the row `key`. No answer is a connection that failed
        or timed out. */
    method RunOutboxEntry(key: Key, answer: Option<Result<Receipt, Error>>)
      requires key in outbox
      modifies this`outbox
      ensures Tables() == if answer.Some? then Resolve(old(Tables()), key, answer.value) else old(Tables())
    {
      if answer.None? { return; }
      match answer.value
      case Ok(receipt) => var _ := ApplyOutboxReceipt(key, outbox[key], receipt);
      case Err(error) => if !ShouldRetry(ErrorCode(error)) { MarkOutboxProtocolFailure(key); }
    }
  }
}
