/** Client operations are idempotent: whatever the trace, erasing the replays of operations
    that already succeeded changes nothing, and a replay returns the first result. */
module Replays {
  import opened Basics
  import opened Bindings

  /** One transaction of a device: a client call, or an event from a peer. */
  datatype Input =
    | Called(call: Call)
    | Received(sender: Device, event: EventId, body: Body, id: EventId, named: bool)

  ghost function Step(db: Db, input: Input): Db {
    match input
    case Called(call) => Local(db, call).db
    case Received(sender, event, body, id, named) => Receive(db, sender, event, body, id, named).db
  }

  ghost function Run(db: Db, inputs: seq<Input>): Db {
    if inputs == [] then db else Step(Run(db, inputs[..|inputs| - 1]), inputs[|inputs| - 1])
  }

  ghost function ResultAt(db: Db, inputs: seq<Input>, i: nat): Result<OperationResult, Error>
    requires i < |inputs| && inputs[i].Called?
  {
    Local(Run(db, inputs[..i]), inputs[i].call).result
  }

  predicate SameOperation(a: Input, b: Input) {
    a.Called? && b.Called? && a.call.op == b.call.op && a.call.Kind() == b.call.Kind()
  }

  /** Input `k` repeats the operation id and type of a call that succeeded before it,
      whatever its other arguments are. */
  ghost predicate IsReplay(db: Db, inputs: seq<Input>, k: nat)
    requires k < |inputs|
  {
    exists i :: 0 <= i < k && SameOperation(inputs[i], inputs[k]) && ResultAt(db, inputs, i).Ok?
  }

  ghost function Erased(db: Db, inputs: seq<Input>): seq<Input> {
    if inputs == [] then []
    else
      var last := |inputs| - 1;
      Erased(db, inputs[..last]) + if IsReplay(db, inputs, last) then [] else [inputs[last]]
  }

  ghost predicate Remembers(db: Db, input: Input, result: OperationResult) {
    input.Called? && input.call.op in db.operations && db.operations[input.call.op] == Saved(input.call.Kind(), result)
  }

  lemma ReplayChangesNothing(db: Db, call: Call, result: OperationResult)
    requires Remembers(db, Called(call), result)
    ensures Local(db, call).db == db
    ensures call.WellFormed(db.self) ==> Local(db, call).result == Ok(result)
  {
  }

  lemma SuccessIsRemembered(db: Db, call: Call)
    requires Local(db, call).result.Ok?
    ensures Remembers(Local(db, call).db, Called(call), Local(db, call).result.value)
  {
    match call
    case RequestCall(op, peer, binding, event) => RequestIsRemembered(db, call);
    case DecideCall(op, binding, accept, event) =>
    case RemoveCall(op, peer, event) =>
    case SetModeCall(op, peer, mode) =>
    case SubmitCall(op, peer, text, automatic, message, event) => SubmitIsRemembered(db, call);
  }

  lemma RequestIsRemembered(db: Db, call: Call)
    requires call.RequestCall? && Local(db, call).result.Ok?
    ensures Remembers(Local(db, call).db, Called(call), Local(db, call).result.value)
  {
  }

  lemma SubmitIsRemembered(db: Db, call: Call)
    requires call.SubmitCall? && Local(db, call).result.Ok?
    ensures Remembers(Local(db, call).db, Called(call), Local(db, call).result.value)
  {
  }

  lemma RememberedForever(db: Db, input: Input, earlier: Input, result: OperationResult)
    requires Remembers(db, earlier, result)
    ensures Remembers(Step(db, input), earlier, result)
  {
    match input
    case Called(call) => CallKeepsOperations(db, call);
    case Received(sender, event, body, id, named) => EventKeepsOperations(db, sender, event, body, id, named);
  }

  lemma CallKeepsOperations(db: Db, call: Call)
    ensures forall op :: op in db.operations ==> op in Local(db, call).db.operations && Local(db, call).db.operations[op] == db.operations[op]
    ensures Local(db, call).db.self == db.self
  {
  }

  lemma EventKeepsOperations(db: Db, sender: Device, event: EventId, body: Body, id: EventId, named: bool)
    ensures Receive(db, sender, event, body, id, named).db.operations == db.operations
    ensures Receive(db, sender, event, body, id, named).db.self == db.self
  {
  }

  lemma {:induction false} RunKeepsSelf(db: Db, inputs: seq<Input>)
    ensures Run(db, inputs).self == db.self
  {
    if inputs != [] {
      var last := |inputs| - 1;
      RunKeepsSelf(db, inputs[..last]);
      match inputs[last]
      case Called(call) => CallKeepsOperations(Run(db, inputs[..last]), call);
      case Received(sender, event, body, id, named) => EventKeepsOperations(Run(db, inputs[..last]), sender, event, body, id, named);
    }
  }

  lemma {:induction false} SuccessRemembered(db: Db, inputs: seq<Input>, i: nat, k: nat)
    requires i < k <= |inputs| && inputs[i].Called? && ResultAt(db, inputs, i).Ok?
    ensures Remembers(Run(db, inputs[..k]), inputs[i], ResultAt(db, inputs, i).value)
    decreases k
  {
    var before := k - 1;
    assert inputs[..k][..before] == inputs[..before];
    if i == before {
      SuccessIsRemembered(Run(db, inputs[..i]), inputs[i].call);
    } else {
      SuccessRemembered(db, inputs, i, before);
      RememberedForever(Run(db, inputs[..before]), inputs[before], inputs[i], ResultAt(db, inputs, i).value);
    }
  }

  /** A well-formed replay returns what the first successful call of that operation returned. */
  lemma ReplayReturnsFirstResult(db: Db, inputs: seq<Input>, i: nat, k: nat)
    requires i < k < |inputs| && SameOperation(inputs[i], inputs[k]) && ResultAt(db, inputs, i).Ok?
    requires inputs[k].call.WellFormed(db.self)
    ensures ResultAt(db, inputs, k) == ResultAt(db, inputs, i)
  {
    SuccessRemembered(db, inputs, i, k);
    RunKeepsSelf(db, inputs[..k]);
    ReplayChangesNothing(Run(db, inputs[..k]), inputs[k].call, ResultAt(db, inputs, i).value);
  }

  /** Erasing every replay, even one with other arguments, leaves all tables the same. */
  lemma {:induction false} ErasingReplaysChangesNothing(db: Db, inputs: seq<Input>)
    ensures Run(db, Erased(db, inputs)) == Run(db, inputs)
  {
    if inputs != [] {
      var last := |inputs| - 1;
      ErasingReplaysChangesNothing(db, inputs[..last]);
      var kept := Erased(db, inputs[..last]);
      if IsReplay(db, inputs, last) {
        var i :| 0 <= i < last && SameOperation(inputs[i], inputs[last]) && ResultAt(db, inputs, i).Ok?;
        SuccessRemembered(db, inputs, i, last);
        ReplayChangesNothing(Run(db, inputs[..last]), inputs[last].call, ResultAt(db, inputs, i).value);
        assert Erased(db, inputs) == kept;
      } else {
        assert (kept + [inputs[last]])[..|kept|] == kept;
      }
    }
  }
}
