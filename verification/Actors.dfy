/** Two connection actors on one stream, each delivering its own events while it serves the
    other's. `Handle` is what one incoming frame does to an actor; `ConnectionActor` is the
    delivery loop that runs it frame by frame. */
module Actors {
  import opened Basics

  type EventId = nat

  /** An outbox row: a `completed` receipt is sent without waiting for an answer. */
  datatype Entry = Entry(event: EventId, needsReceipt: bool)

  /** `Receipt` is a stored receipt, with an id of its own; `Error` is a `protocol_error`
      frame that names the event it refuses. */
  datatype Frame =
    | Event(event: EventId)
    | Completed(event: EventId)
    | Receipt(event: EventId, own: EventId)
    | Error(event: EventId)
    | Ping(id: nat)
    | Pong(id: nat)

  datatype Verdict = Verdict(event: EventId, accepted: bool)

  /** What handling a frame comes to. `Refuses` is an error with a protocol code, which is told
      to the peer. `Breaks` is any other error, a failed write of the answer included: nothing
      is told, and the actor ends. */
  datatype Fate = Stores | Refuses | Breaks

  /** `written` are the frames on the way to the peer. `pings` bounds how often the actor may
      still find itself idle long enough to ping. `served` are the peer's events this actor
      answered, `noted` its `completed` receipts, `results` the answers to its own events.
      `broke` is the frame this actor could not finish and ended on; `quit` says that it ended
      on its own. */
  datatype Actor = Actor(
    todo: seq<Entry>, waiting: Option<EventId>, pendingPing: Option<nat>, pings: nat, written: seq<Frame>,
    served: seq<Verdict>, results: seq<Verdict>, noted: seq<Verdict>, broke: Option<Frame>, quit: bool, failed: bool)

  function FirstFrame(entry: Entry): Frame {
    if entry.needsReceipt then Event(entry.event) else Completed(entry.event)
  }

  /** The frame of the next command is written; the actor waits if it needs an answer. */
  function Begin(a: Actor): Actor
    requires a.todo != []
  {
    var entry := a.todo[0];
    a.(todo := a.todo[1..], written := a.written + [FirstFrame(entry)],
       waiting := if entry.needsReceipt then Some(entry.event) else a.waiting)
  }

  /** `id` is a new id. */
  function SendPing(a: Actor, id: nat): Actor
    requires a.pings > 0
  {
    a.(pings := a.pings - 1, written := a.written + [Ping(id)], pendingPing := Some(id))
  }

  /** The actor ends between two frames: its receipt is overdue, it idled too long, it is told
      to stop or to retire, its stream fails, or its own outbox row cannot be marked. */
  function Abandoned(a: Actor): Actor {
    a.(quit := true, failed := true)
  }

  /** What reading one frame writes; `own` is the id of the receipt. An idle actor answers a
      refused `completed` receipt, or a receipt it does not await, with an error frame that
      names that frame. */
  function Reply(a: Actor, frame: Frame, fate: Fate, own: EventId): seq<Frame> {
    match frame
    case Event(e) => if fate.Breaks? then [] else [if fate.Stores? then Receipt(e, own) else Error(e)]
    case Completed(e) => if fate.Refuses? && a.waiting.None? then [Error(e)] else []
    case Receipt(e, id) => if fate.Breaks? || a.waiting.Some? then [] else [Error(id)]
    case Error(e) => []
    case Ping(id) => if fate.Breaks? then [] else [Pong(id)]
    case Pong(id) => []
  }

  function Answered(a: Actor, e: EventId, accepted: bool): Actor {
    a.(waiting := None, results := a.results + [Verdict(e, accepted)])
  }

  function BrokenBy(a: Actor, frame: Frame): Actor {
    a.(broke := Some(frame), failed := true)
  }

  /** What reading one frame changes. A waiting actor fails on a `completed` receipt that it
      refuses, on its own receipt if it cannot be applied, and on a receipt for another event;
      any actor fails on an error frame or a pong that it does not await. */
  function Noticed(a: Actor, frame: Frame, fate: Fate): Actor {
    match frame
    case Event(e) =>
      if fate.Breaks? then BrokenBy(a, frame) else a.(served := a.served + [Verdict(e, fate.Stores?)])
    case Completed(e) =>
      a.(noted := a.noted + [Verdict(e, fate.Stores?)], failed := fate.Breaks? || (fate.Refuses? && a.waiting.Some?))
    case Receipt(e, id) =>
      if a.waiting != Some(e) then a.(failed := fate.Breaks? || a.waiting.Some?)
      else if fate.Stores? then Answered(a, e, true) else BrokenBy(a, frame)
    case Error(e) => if a.waiting == Some(e) then Answered(a, e, false) else a.(failed := true)
    case Ping(id) => if fate.Breaks? then BrokenBy(a, frame) else a
    case Pong(id) => a.(pendingPing := None, failed := a.pendingPing != Some(id))
  }

  function Handle(a: Actor, frame: Frame, fate: Fate, own: EventId): Actor {
    Noticed(a, frame, fate).(written := a.written + Reply(a, frame, fate, own))
  }

  /** One frame read: what handling it comes to, and the id of its receipt. */
  datatype Reading = Reading(fate: Fate, own: EventId)

  function HandleAll(a: Actor, frames: seq<Frame>, readings: seq<Reading>): Actor
    requires |readings| == |frames|
  {
    if frames == [] then a
    else
      var last := |frames| - 1;
      Handle(HandleAll(a, frames[..last], readings[..last]), frames[last], readings[last].fate, readings[last].own)
  }

  /** `GaveUp`: the receipt is overdue, or the row of a `completed` receipt cannot be marked. */
  datatype Outcome = Delivered | RefusedByPeer | Broken | GaveUp

  /** While the actor waits, a frame ends the wait only if it is the awaited answer, and a
      stored receipt only if it can be applied. */
  lemma HandleWhileWaiting(a: Actor, frame: Frame, fate: Fate, own: EventId, e: EventId)
    requires a.waiting == Some(e) && !a.failed
    ensures var now := Handle(a, frame, fate, own);
            || now.failed
            || (now.waiting == Some(e) && now.results == a.results)
            || ((frame == Error(e) || (frame.Receipt? && frame.event == e && fate.Stores?)) && now.waiting == None
                && now.results == a.results + [Verdict(e, frame.Receipt?)])
  {
  }

  /** `answer` names the frame it answers: a receipt the event it stores, an error the frame it
      refuses, a pong its ping. */
  predicate AnswerTo(answer: Frame, frame: Frame) {
    match frame
    case Event(e) => (answer.Receipt? && answer.event == e) || answer == Error(e)
    case Completed(e) => answer == Error(e)
    case Receipt(_, own) => answer == Error(own)
    case Ping(id) => answer == Pong(id)
    case _ => false
  }

  /** The actor takes the frame without a word: a `completed` receipt it stores, or the answer it
      waits for. */
  predicate TakenQuietly(a: Actor, frame: Frame, fate: Fate) {
    match frame
    case Completed(_) => fate.Stores?
    case Receipt(e, _) => a.waiting == Some(e) && fate.Stores?
    case Error(e) => a.waiting == Some(e)
    case Pong(id) => a.pendingPing == Some(id)
    case _ => false
  }

  /** No frame goes unnoticed: an actor that reads on has either answered it with one frame that
      names it, or taken what it awaited; and an event is stored exactly if the answer is a
      receipt. */
  lemma NothingGoesUnnoticed(a: Actor, frame: Frame, fate: Fate, own: EventId)
    requires !a.failed && !Handle(a, frame, fate, own).failed
    ensures var now := Handle(a, frame, fate, own);
            if TakenQuietly(a, frame, fate) then now.written == a.written
            else |now.written| == |a.written| + 1 && now.written[..|a.written|] == a.written && AnswerTo(now.written[|a.written|], frame)
    ensures var now := Handle(a, frame, fate, own);
            now.served == if frame.Event? then a.served + [Verdict(frame.event, now.written[|a.written|].Receipt?)] else a.served
  {
    match frame
    case Completed(e) =>
    case _ =>
  }

  class ConnectionActor {
    var todo: seq<Entry>
    var waiting: Option<EventId>
    var pendingPing: Option<nat>
    var pings: nat
    var written: seq<Frame>
    var served: seq<Verdict>
    var results: seq<Verdict>
    var noted: seq<Verdict>
    var broke: Option<Frame>
    var quit: bool
    var failed: bool

    constructor (todo: seq<Entry>, pings: nat)
      ensures State() == Fresh(todo, pings)
    {
      this.todo, this.pings := todo, pings;
      waiting, pendingPing, written, served, results, noted := None, None, [], [], [], [];
      broke, quit, failed := None, false, false;
    }

    function State(): Actor
      reads this
    {
      Actor(todo, waiting, pendingPing, pings, written, served, results, noted, broke, quit, failed)
    }

    /** One frame read. Storage may refuse what it carries, and anything else may go wrong. */
    method HandleActorFrame(frame: Frame) returns (ghost reading: Reading)
      requires !failed
      modifies this
      ensures State() == Handle(old(State()), frame, reading.fate, reading.own)
    {
      var fate: Fate, id: EventId := *, *;
      reading := Reading(fate, id);
      match frame
      case Event(e) =>
        if fate == Breaks {
          broke, failed := Some(frame), true;
        } else {
          served := served + [Verdict(e, fate == Stores)];
          if fate == Stores { written := written + [Receipt(e, id)]; } else { written := written + [Error(e)]; }
        }
      case Completed(e) =>
        noted := noted + [Verdict(e, fate == Stores)];
        if fate != Stores {
          if fate == Breaks || waiting.Some? { failed := true; } else { written := written + [Error(e)]; }
        }
      case Receipt(e, other) =>
        if waiting == Some(e) {
          if fate == Stores {
            waiting, results := None, results + [Verdict(e, true)];
          } else {
            broke, failed := Some(frame), true;
          }
        } else if waiting.Some? || fate == Breaks {
          failed := true;
        } else {
          written := written + [Error(other)];
        }
      case Error(e) =>
        if waiting == Some(e) {
          waiting, results := None, results + [Verdict(e, false)];
        } else {
          failed := true;
        }
      case Ping(p) =>
        if fate == Breaks { broke, failed := Some(frame), true; } else { written := written + [Pong(p)]; }
      case Pong(p) =>
        if pendingPing != Some(p) { failed := true; }
        pendingPing := None;
    }

    method Abandon()
      modifies this`quit, this`failed
      ensures State() == Abandoned(old(State()))
    {
      quit, failed := true, true;
    }

    /** Writes the next event, then reads frames until its own answer arrives, serving
        everything else in between, or gives up. `used` counts the frames read from
        `incoming`; `calm` says that those come in time and that the row can be marked, so that
        nothing but their end is left to give up on. */
    method DeliverOutboxBidirectional(incoming: seq<Frame>, calm: bool)
      returns (outcome: Outcome, used: nat, ghost readings: seq<Reading>)
      requires todo != [] && waiting == None && !failed
      modifies this
      ensures used <= |incoming| && |readings| == used
      ensures var now := HandleAll(Begin(old(State())), incoming[..used], readings);
              State() == if outcome == GaveUp then Abandoned(now) else now
      ensures outcome == Broken || outcome == GaveUp <==> failed
      ensures calm && outcome == GaveUp ==> used == |incoming| && old(todo)[0].needsReceipt
      ensures outcome == Delivered || outcome == RefusedByPeer ==> waiting == None
      ensures old(todo)[0].needsReceipt && (outcome == Delivered || outcome == RefusedByPeer) ==>
                results == old(results) + [Verdict(old(todo)[0].event, outcome == Delivered)]
    {
      var entry := todo[0];
      used, readings := 0, [];
      todo := todo[1..];
      if !entry.needsReceipt {
        written := written + [Completed(entry.event)];
        var marked: bool := *;
        if marked || calm { return Delivered, 0, []; }
        Abandon();
        return GaveUp, 0, [];
      }
      written, waiting := written + [Event(entry.event)], Some(entry.event);
      ghost var begun := State();
      var overdue := false;
      while used < |incoming| && !overdue
        invariant used <= |incoming| && |readings| == used && (calm ==> !overdue)
        invariant State() == HandleAll(begun, incoming[..used], readings)
        invariant waiting == Some(entry.event) && !failed && results == old(results)
        decreases |incoming| - used, !overdue
      {
        var frame := incoming[used];
        assert incoming[..used + 1][..used] == incoming[..used];
        ghost var before := State();
        ghost var reading := HandleActorFrame(frame);
        HandleWhileWaiting(before, frame, reading.fate, reading.own, entry.event);
        assert (readings + [reading])[..used] == readings;
        used, readings := used + 1, readings + [reading];
        if failed { return Broken, used, readings; }
        if waiting.None? {
          return if frame.Receipt? then Delivered else RefusedByPeer, used, readings;
        }
        overdue := *;
        if calm { overdue := false; }
      }
      Abandon();
      return GaveUp, used, readings;
    }
  }

  function Fresh(todo: seq<Entry>, pings: nat): Actor {
    Actor(todo, None, None, pings, [], [], [], [], None, false, false)
  }

  // --------------------------------------------------------------- two actors

  datatype End = Left | Right
  {
    function Other(): End { if Left? then Right else Left }
  }

  datatype Pair = Pair(left: Actor, right: Actor)
  {
    function At(end: End): Actor { if end.Left? then left else right }

    function With(end: End, own: Actor, peer: Actor): Pair {
      if end.Left? then Pair(own, peer) else Pair(peer, own)
    }
  }

  /** `HangUp`: the peer has ended, and this actor finds the stream closed. */
  datatype Step =
    | Start(end: End)
    | Idle(end: End, id: nat)
    | Read(end: End, reading: Reading)
    | Abandon(end: End)
    | HangUp(end: End)

  predicate Enabled(p: Pair, step: Step) {
    var a := p.At(step.end);
    !a.failed && match step
      case Start(_) => a.waiting.None? && a.todo != []
      case Idle(_, _) => a.waiting.None? && a.pendingPing.None? && a.pings > 0
      case Read(end, _) => p.At(end.Other()).written != []
      case Abandon(_) => true
      case HangUp(end) => p.At(end.Other()).failed
  }

  function Unread(a: Actor): Actor
    requires a.written != []
  {
    a.(written := a.written[1..])
  }

  function After(p: Pair, step: Step): Pair
    requires Enabled(p, step)
  {
    var a, b := p.At(step.end), p.At(step.end.Other());
    match step
    case Start(end) => p.With(end, Begin(a), b)
    case Idle(end, id) => p.With(end, SendPing(a, id), b)
    case Read(end, reading) => p.With(end, Handle(a, b.written[0], reading.fate, reading.own), Unread(b))
    case Abandon(end) => p.With(end, Abandoned(a), b)
    case HangUp(end) => p.With(end, a.(failed := true), b)
  }

  /** The frames on the way, sorted by kind and each kind in order. An error frame answers one
      of the reader's events `ids` or, as a stray, names something else. */
  datatype View = View(asks: seq<EventId>, answers: seq<Verdict>, pings: seq<nat>, pongs: seq<nat>, completions: seq<EventId>,
                       strays: seq<EventId>)

  function Behind(v: View, frame: Frame, ids: seq<EventId>): View {
    match frame
    case Event(e) => v.(asks := v.asks + [e])
    case Completed(e) => v.(completions := v.completions + [e])
    case Receipt(e, _) => v.(answers := v.answers + [Verdict(e, true)])
    case Error(e) => if e in ids then v.(answers := v.answers + [Verdict(e, false)]) else v.(strays := v.strays + [e])
    case Ping(id) => v.(pings := v.pings + [id])
    case Pong(id) => v.(pongs := v.pongs + [id])
  }

  function Ahead(frame: Frame, v: View, ids: seq<EventId>): View {
    match frame
    case Event(e) => v.(asks := [e] + v.asks)
    case Completed(e) => v.(completions := [e] + v.completions)
    case Receipt(e, _) => v.(answers := [Verdict(e, true)] + v.answers)
    case Error(e) => if e in ids then v.(answers := [Verdict(e, false)] + v.answers) else v.(strays := [e] + v.strays)
    case Ping(id) => v.(pings := [id] + v.pings)
    case Pong(id) => v.(pongs := [id] + v.pongs)
  }

  function ViewOf(frames: seq<Frame>, ids: seq<EventId>): View {
    if frames == [] then View([], [], [], [], [], []) else Ahead(frames[0], ViewOf(frames[1..], ids), ids)
  }

  lemma AheadBehind(v: View, first: Frame, last: Frame, ids: seq<EventId>)
    ensures Ahead(first, Behind(v, last, ids), ids) == Behind(Ahead(first, v, ids), last, ids)
  {
  }

  lemma {:induction false} ViewAppend(frames: seq<Frame>, frame: Frame, ids: seq<EventId>)
    ensures ViewOf(frames + [frame], ids) == Behind(ViewOf(frames, ids), frame, ids)
  {
    if frames == [] {
      assert frames + [frame] == [frame];
    } else {
      ViewAppend(frames[1..], frame, ids);
      assert (frames + [frame])[1..] == frames[1..] + [frame];
      AheadBehind(ViewOf(frames[1..], ids), frames[0], frame, ids);
    }
  }

  function Asked(todo: seq<Entry>): seq<EventId> {
    if todo == [] then [] else (if todo[0].needsReceipt then [todo[0].event] else []) + Asked(todo[1..])
  }

  function Noted(todo: seq<Entry>): seq<EventId> {
    if todo == [] then [] else (if todo[0].needsReceipt then [] else [todo[0].event]) + Noted(todo[1..])
  }

  /** The ids of one outbox differ; what matters is that no event shares its id with a
      `completed` receipt. */
  predicate Apart(given: seq<Entry>) {
    forall e :: e in Asked(given) ==> e !in Noted(given)
  }

  function Names(verdicts: seq<Verdict>): (r: seq<EventId>)
    ensures |r| == |verdicts| && forall i :: 0 <= i < |r| ==> r[i] == verdicts[i].event
  {
    seq(|verdicts|, i requires 0 <= i < |verdicts| => verdicts[i].event)
  }

  lemma NamesAppend(verdicts: seq<Verdict>, v: Verdict)
    ensures Names(verdicts + [v]) == Names(verdicts) + [v.event]
  {
  }

  /** The answer that its own actor could not apply. */
  predicate Unapplied(a: Actor, e: EventId) {
    a.failed && a.broke.Some? && a.broke.value.Receipt? && a.broke.value.event == e
  }

  /** The delivery of actor `a` to peer `b`: it waits for one answer exactly when its event or
      the answer to it is on the way, and never both, unless the one that read it ended on it;
      the peer has answered what `a` has results for, and at most the one in flight besides. */
  ghost predicate Delivering(a: Actor, out: View, b: Actor, back: View) {
    match a.waiting
    case None => out.asks == [] && back.answers == [] && b.served == a.results
    case Some(e) =>
      || (out.asks == [e] && back.answers == [] && b.served == a.results)
      || (out.asks == [] && |back.answers| == 1 && back.answers[0].event == e && b.served == a.results + back.answers)
      || (out.asks == [] && back.answers == [] && b.failed && b.broke == Some(Event(e)) && b.served == a.results)
      || (out.asks == [] && back.answers == [] && Unapplied(a, e) && b.served == a.results + [Verdict(e, true)])
  }

  ghost predicate Pinging(a: Actor, out: View, b: Actor, back: View) {
    match a.pendingPing
    case None => out.pings == [] && back.pongs == []
    case Some(id) =>
      || (out.pings == [id] && back.pongs == [])
      || (out.pings == [] && back.pongs == [id])
      || (out.pings == [] && back.pongs == [] && b.failed && b.broke == Some(Ping(id)))
  }

  function Awaited(a: Actor): seq<EventId> {
    if a.waiting.Some? then [a.waiting.value] else []
  }

  /** Everything `a` was given is done, in flight or still to do, in order. */
  ghost predicate InOrder(a: Actor, out: View, b: Actor, given: seq<Entry>) {
    && Asked(given) == Names(a.results) + Awaited(a) + Asked(a.todo)
    && Noted(given) == Names(b.noted) + out.completions + Noted(a.todo)
  }

  ghost predicate Good(a: Actor, out: View, b: Actor, back: View, given: seq<Entry>) {
    Delivering(a, out, b, back) && Pinging(a, out, b, back) && InOrder(a, out, b, given)
  }

  /** The actor has refused a `completed` receipt of its peer. */
  ghost predicate Refused(a: Actor) {
    exists v :: v in a.noted && !v.accepted
  }

  /** The actor has met one of the causes that end a connection. */
  ghost predicate Troubled(a: Actor) {
    Refused(a) || a.broke.Some? || a.quit
  }

  /** Whoever ended did so after some cause, which ends an actor at once or is a refusal; a stray
      error frame names a refusal; and a refusal has ended an actor or its error frame is still
      on the way to `a`. */
  ghost predicate Traced(a: Actor, b: Actor, back: View) {
    && (a.failed ==> Troubled(a) || Troubled(b))
    && (b.broke.Some? || b.quit ==> b.failed)
    && (forall e :: e in back.strays ==> Verdict(e, false) in b.noted)
    && (Refused(b) ==> a.failed || b.failed || back.strays != [])
  }

  ghost predicate Sound(a: Actor, b: Actor, mine: seq<Entry>, yours: seq<Entry>) {
    var out, back := ViewOf(a.written, Asked(yours)), ViewOf(b.written, Asked(mine));
    && Good(a, out, b, back, mine) && Good(b, back, a, out, yours) && Traced(a, b, back) && Traced(b, a, out)
  }

  ghost predicate Inv(p: Pair, left: seq<Entry>, right: seq<Entry>) {
    Sound(p.left, p.right, left, right)
  }

  lemma Regroup(first: seq<EventId>, e: EventId, rest: seq<EventId>)
    ensures first + ([e] + rest) == first + [e] + rest
  {
  }

  /** The next command is written: on its own side, and as its peer sees it. */
  lemma BeginKeeps(a: Actor, out: View, b: Actor, back: View, mine: seq<Entry>, yours: seq<Entry>)
    requires Good(a, out, b, back, mine) && Good(b, back, a, out, yours) && a.todo != [] && a.waiting.None?
    ensures var now := Behind(out, FirstFrame(a.todo[0]), Asked(yours));
            && Good(Begin(a), now, b, back, mine) && Good(b, back, Begin(a), now, yours) && now.strays == out.strays
  {
    var e, rest := a.todo[0].event, a.todo[1..];
    var names, done := Names(a.results), Names(b.noted) + out.completions;
    assert names + [] == names;
    if a.todo[0].needsReceipt {
      assert Noted(a.todo) == Noted(rest);
      Regroup(names, e, Asked(rest));
    } else {
      assert Asked(a.todo) == Asked(rest);
      Regroup(done, e, Noted(rest));
      assert done + [e] == Names(b.noted) + (out.completions + [e]);
    }
  }

  lemma PingKeeps(a: Actor, out: View, b: Actor, back: View, mine: seq<Entry>, yours: seq<Entry>, id: nat)
    requires Good(a, out, b, back, mine) && Good(b, back, a, out, yours) && a.pings > 0 && a.pendingPing.None?
    ensures var now := Behind(out, Ping(id), Asked(yours));
            Good(SendPing(a, id), now, b, back, mine) && Good(b, back, SendPing(a, id), now, yours) && now.strays == out.strays
  {
  }

  /** The view of the frames written once `reply` is added. */
  function With(out: View, reply: seq<Frame>, ids: seq<EventId>): View {
    if reply == [] then out else Behind(out, reply[0], ids)
  }

  /** The frame is an answer to one of the reader's events `ids`. */
  predicate Answers(frame: Frame, ids: seq<EventId>) {
    frame.Receipt? || (frame.Error? && frame.event in ids)
  }

  /** An answer that is read can only be the awaited one. */
  lemma AnswerKeepsOwn(a: Actor, out: View, b: Actor, back: View, mine: seq<Entry>, frame: Frame, fate: Fate,
                       rest: seq<Frame>)
    requires Answers(frame, Asked(mine)) && Good(a, out, b, Ahead(frame, back, Asked(mine)), mine) && !a.failed
    ensures a.waiting == Some(frame.event)
    ensures Good(Noticed(a, frame, fate), out, b.(written := rest), back, mine)
  {
    var v := Verdict(frame.event, frame.Receipt?);
    assert Ahead(frame, back, Asked(mine)).answers == [v] + back.answers;
    assert Ahead(frame, back, Asked(mine)).answers[0] == v;
    NamesShift(a.results, v, Asked(a.todo));
  }

  lemma NamesShift(results: seq<Verdict>, v: Verdict, later: seq<EventId>)
    ensures Names(results) + [v.event] + later == Names(results + [v]) + [] + later
  {
    NamesAppend(results, v);
    assert Names(results) + [v.event] == Names(results + [v]) + [];
  }

  lemma AwaitedIsAsked(a: Actor, out: View, b: Actor, mine: seq<Entry>)
    requires InOrder(a, out, b, mine) && a.waiting.Some?
    ensures a.waiting.value in Asked(mine)
  {
    assert Asked(mine)[|a.results|] == a.waiting.value;
  }

  lemma OtherKeepsOwn(a: Actor, out: View, b: Actor, back: View, mine: seq<Entry>, frame: Frame, fate: Fate,
                      rest: seq<Frame>)
    requires !Answers(frame, Asked(mine)) && Good(a, out, b, Ahead(frame, back, Asked(mine)), mine) && !a.failed
    ensures frame.Error? ==> a.waiting != Some(frame.event)
    ensures frame.Pong? ==> a.pendingPing == Some(frame.id)
    ensures Good(Noticed(a, frame, fate), out, b.(written := rest), back, mine)
  {
    if frame.Error? && a.waiting.Some? {
      AwaitedIsAsked(a, out, b, mine);
    } else if frame.Pong? {
      assert Ahead(frame, back, Asked(mine)).pongs[0] == frame.id;
    }
  }

  /** The reader's own deliveries. A stored receipt or a pong can only be the one it awaits,
      and an error frame too, unless it is a stray. */
  lemma ReadKeepsOwn(a: Actor, out: View, b: Actor, back: View, mine: seq<Entry>, ids: seq<EventId>, frame: Frame,
                     reading: Reading, rest: seq<Frame>)
    requires Good(a, out, b, Ahead(frame, back, Asked(mine)), mine) && !a.failed
    ensures Answers(frame, Asked(mine)) ==> a.waiting == Some(frame.event)
    ensures frame.Error? && frame.event !in Asked(mine) ==> a.waiting != Some(frame.event)
    ensures frame.Pong? ==> a.pendingPing == Some(frame.id)
    ensures var reply := Reply(a, frame, reading.fate, reading.own);
            Good(Handle(a, frame, reading.fate, reading.own), With(out, reply, ids), b.(written := rest), back, mine)
  {
    if Answers(frame, Asked(mine)) {
      AnswerKeepsOwn(a, out, b, back, mine, frame, reading.fate, rest);
    } else {
      OtherKeepsOwn(a, out, b, back, mine, frame, reading.fate, rest);
    }
    ReplyIsAside(Noticed(a, frame, reading.fate), out, b.(written := rest), back, mine, ids,
                 Reply(a, frame, reading.fate, reading.own));
  }

  /** Receipts, error frames and pongs are no part of the writer's own deliveries. */
  lemma ReplyIsAside(a: Actor, out: View, b: Actor, back: View, mine: seq<Entry>, ids: seq<EventId>, reply: seq<Frame>)
    requires Good(a, out, b, back, mine)
    requires reply != [] ==> reply[0].Receipt? || reply[0].Error? || reply[0].Pong?
    ensures Good(a.(written := a.written + reply), With(out, reply, ids), b, back, mine)
  {
  }

  /** The deliveries of the one whose frame was read. */
  lemma ReadKeepsPeer(a: Actor, out: View, b: Actor, back: View, yours: seq<Entry>, ids: seq<EventId>, frame: Frame,
                      reading: Reading, rest: seq<Frame>)
    requires Good(b, Ahead(frame, back, ids), a, out, yours) && Apart(yours) && !a.failed
    requires frame.Receipt? ==> a.waiting == Some(frame.event)
    ensures PeerKept(a, out, b, back, yours, frame, reading, rest)
  {
    match frame
    case Event(e) => ServeKeepsPeer(a, out, b, back, yours, ids, e, reading, rest);
    case Completed(e) => NoteKeepsPeer(a, out, b, back, yours, ids, e, reading, rest);
    case Ping(id) => PongKeepsPeer(a, out, b, back, yours, ids, id, reading, rest);
    case _ => AnswerKeepsPeer(a, out, b, back, yours, ids, frame, reading, rest);
  }

  /** Answers and pongs are no part of their writer's own deliveries, and are not answered. */
  lemma AnswerKeepsPeer(a: Actor, out: View, b: Actor, back: View, yours: seq<Entry>, ids: seq<EventId>, frame: Frame,
                        reading: Reading, rest: seq<Frame>)
    requires frame.Receipt? || frame.Error? || frame.Pong?
    requires Good(b, Ahead(frame, back, ids), a, out, yours) && !a.failed
    requires frame.Receipt? ==> a.waiting == Some(frame.event)
    ensures PeerKept(a, out, b, back, yours, frame, reading, rest)
  {
    var now := Handle(a, frame, reading.fate, reading.own);
    assert Reply(a, frame, reading.fate, reading.own) == [] && now.served == a.served && now.noted == a.noted;
    SameToPeer(a, now, out, b, Ahead(frame, back, ids), back, yours, rest);
  }

  lemma SameToPeer(a: Actor, now: Actor, out: View, b: Actor, before: View, back: View, yours: seq<Entry>, rest: seq<Frame>)
    requires Good(b, before, a, out, yours) && !a.failed && now.served == a.served && now.noted == a.noted
    requires back.asks == before.asks && back.pings == before.pings && back.completions == before.completions
    ensures Good(b.(written := rest), back, now, out, yours)
  {
  }

  ghost predicate PeerKept(a: Actor, out: View, b: Actor, back: View, yours: seq<Entry>, frame: Frame, reading: Reading,
                           rest: seq<Frame>)
  {
    var now := With(out, Reply(a, frame, reading.fate, reading.own), Asked(yours));
    && Good(b.(written := rest), back, Handle(a, frame, reading.fate, reading.own), now, yours)
    && now.strays == Strays(a, out, frame, reading)
  }

  lemma ServeKeepsPeer(a: Actor, out: View, b: Actor, back: View, yours: seq<Entry>, ids: seq<EventId>, e: EventId,
                       reading: Reading, rest: seq<Frame>)
    requires Good(b, Ahead(Event(e), back, ids), a, out, yours) && !a.failed
    ensures PeerKept(a, out, b, back, yours, Event(e), reading, rest)
  {
    assert Ahead(Event(e), back, ids).asks[0] == e;
    assert Asked(yours)[|b.results|] == e;
  }

  lemma PongKeepsPeer(a: Actor, out: View, b: Actor, back: View, yours: seq<Entry>, ids: seq<EventId>, id: nat,
                      reading: Reading, rest: seq<Frame>)
    requires Good(b, Ahead(Ping(id), back, ids), a, out, yours) && !a.failed
    ensures PeerKept(a, out, b, back, yours, Ping(id), reading, rest)
  {
    assert Ahead(Ping(id), back, ids).pings[0] == id;
    var now := Handle(a, Ping(id), reading.fate, reading.own);
    OrderKept(b, Ahead(Ping(id), back, ids), a, b.(written := rest), back, now, yours);
    assert now.served == a.served && now.waiting == a.waiting;
  }

  lemma OrderKept(b: Actor, before: View, a: Actor, same: Actor, back: View, now: Actor, yours: seq<Entry>)
    requires InOrder(b, before, a, yours) && now.noted == a.noted && back.completions == before.completions
    requires same.results == b.results && same.waiting == b.waiting && same.todo == b.todo
    ensures InOrder(same, back, now, yours)
  {
  }

  lemma NoteKeepsPeer(a: Actor, out: View, b: Actor, back: View, yours: seq<Entry>, ids: seq<EventId>, e: EventId,
                      reading: Reading, rest: seq<Frame>)
    requires Good(b, Ahead(Completed(e), back, ids), a, out, yours) && Apart(yours) && !a.failed
    ensures PeerKept(a, out, b, back, yours, Completed(e), reading, rest)
  {
    var v := Verdict(e, reading.fate.Stores?);
    NamesAppend(a.noted, v);
    Regroup(Names(a.noted), e, back.completions);
    assert Noted(yours)[|a.noted|] == e;
  }

  /** Only an idle actor that refuses a `completed` receipt writes a stray. */
  function Strays(a: Actor, out: View, frame: Frame, reading: Reading): seq<EventId> {
    out.strays + if frame.Completed? && reading.fate.Refuses? && a.waiting.None? then [frame.event] else []
  }

  lemma ReadTraces(a: Actor, b: Actor, back: View, out: View, frame: Frame, ids: seq<EventId>, reading: Reading,
                   rest: seq<Frame>)
    requires Traced(a, b, Ahead(frame, back, ids)) && Traced(b, a, out) && !a.failed
    requires Answers(frame, ids) ==> a.waiting == Some(frame.event)
    requires frame.Error? && frame.event !in ids ==> a.waiting != Some(frame.event)
    requires frame.Pong? ==> a.pendingPing == Some(frame.id)
    ensures var now := Handle(a, frame, reading.fate, reading.own);
            && Traced(now, b.(written := rest), back)
            && Traced(b.(written := rest), now, out.(strays := Strays(a, out, frame, reading)))
  {
    var now := Handle(a, frame, reading.fate, reading.own);
    assert forall v :: v in a.noted ==> v in now.noted;
    if frame.Completed? {
      var v := Verdict(frame.event, reading.fate.Stores?);
      assert v in now.noted;
      assert forall w :: w in now.noted ==> w in a.noted || w == v;
    }
  }

  lemma HandleWrites(a: Actor, frame: Frame, reading: Reading, ids: seq<EventId>)
    ensures var reply := Reply(a, frame, reading.fate, reading.own);
            ViewOf(Handle(a, frame, reading.fate, reading.own).written, ids) == With(ViewOf(a.written, ids), reply, ids)
  {
    var reply := Reply(a, frame, reading.fate, reading.own);
    if reply == [] {
      assert a.written + reply == a.written;
    } else {
      assert reply == [reply[0]];
      ViewAppend(a.written, reply[0], ids);
    }
  }

  lemma ReadKeepsSound(a: Actor, b: Actor, mine: seq<Entry>, yours: seq<Entry>, reading: Reading)
    requires Sound(a, b, mine, yours) && Apart(yours) && b.written != [] && !a.failed
    ensures Sound(Handle(a, b.written[0], reading.fate, reading.own), Unread(b), mine, yours)
  {
    var frame, rest := b.written[0], b.written[1..];
    var out, back := ViewOf(a.written, Asked(yours)), ViewOf(rest, Asked(mine));
    assert ViewOf(b.written, Asked(mine)) == Ahead(frame, back, Asked(mine));
    ReadKeepsOwn(a, out, b, back, mine, Asked(yours), frame, reading, rest);
    ReadKeepsPeer(a, out, b, back, yours, Asked(mine), frame, reading, rest);
    ReadTraces(a, b, back, out, frame, Asked(mine), reading, rest);
    HandleWrites(a, frame, reading, Asked(yours));
  }

  lemma StartKeepsSound(a: Actor, b: Actor, mine: seq<Entry>, yours: seq<Entry>)
    requires Sound(a, b, mine, yours) && a.todo != [] && a.waiting.None?
    ensures Sound(Begin(a), b, mine, yours)
  {
    ViewAppend(a.written, FirstFrame(a.todo[0]), Asked(yours));
    BeginKeeps(a, ViewOf(a.written, Asked(yours)), b, ViewOf(b.written, Asked(mine)), mine, yours);
  }

  lemma IdleKeepsSound(a: Actor, b: Actor, mine: seq<Entry>, yours: seq<Entry>, id: nat)
    requires Sound(a, b, mine, yours) && a.pings > 0 && a.pendingPing.None?
    ensures Sound(SendPing(a, id), b, mine, yours)
  {
    ViewAppend(a.written, Ping(id), Asked(yours));
    PingKeeps(a, ViewOf(a.written, Asked(yours)), b, ViewOf(b.written, Asked(mine)), mine, yours, id);
  }

  lemma AbandonKeepsSound(a: Actor, b: Actor, mine: seq<Entry>, yours: seq<Entry>)
    requires Sound(a, b, mine, yours)
    ensures Sound(Abandoned(a), b, mine, yours)
  {
  }

  lemma HangUpKeepsSound(a: Actor, b: Actor, mine: seq<Entry>, yours: seq<Entry>)
    requires Sound(a, b, mine, yours) && b.failed
    ensures Sound(a.(failed := true), b, mine, yours)
  {
  }

  lemma StepKeepsSound(a: Actor, b: Actor, mine: seq<Entry>, yours: seq<Entry>, p: Pair, step: Step)
    requires Sound(a, b, mine, yours) && Apart(yours) && Enabled(p, step) && p.At(step.end) == a && p.At(step.end.Other()) == b
    ensures Sound(After(p, step).At(step.end), After(p, step).At(step.end.Other()), mine, yours)
  {
    match step
    case Start(_) => StartKeepsSound(a, b, mine, yours);
    case Idle(_, id) => IdleKeepsSound(a, b, mine, yours, id);
    case Read(_, reading) => ReadKeepsSound(a, b, mine, yours, reading);
    case Abandon(_) => AbandonKeepsSound(a, b, mine, yours);
    case HangUp(_) => HangUpKeepsSound(a, b, mine, yours);
  }

  lemma StepKeepsInv(p: Pair, step: Step, left: seq<Entry>, right: seq<Entry>)
    requires Inv(p, left, right) && Apart(left) && Apart(right) && Enabled(p, step)
    ensures Inv(After(p, step), left, right)
  {
    if step.end.Left? {
      StepKeepsSound(p.left, p.right, left, right, p, step);
    } else {
      StepKeepsSound(p.right, p.left, right, left, p, step);
    }
  }

  // ------------------------------------------------------------------ measure

  function TodoWeight(todo: seq<Entry>): nat {
    if todo == [] then 0 else 3 + TodoWeight(todo[1..])
  }

  /** Reading an event, a `completed` receipt or a ping can write one more frame. */
  function FrameWeight(frame: Frame): nat {
    if frame.Event? || frame.Ping? || frame.Completed? then 2 else 1
  }

  function FramesWeight(frames: seq<Frame>): nat {
    if frames == [] then 0 else FrameWeight(frames[0]) + FramesWeight(frames[1..])
  }

  function Weight(a: Actor): nat {
    TodoWeight(a.todo) + FramesWeight(a.written) + 3 * a.pings + if a.failed then 0 else 1
  }

  /** A bound for the number of steps two actors can still take. */
  function StepsLeft(p: Pair): nat {
    Weight(p.left) + Weight(p.right)
  }

  lemma {:induction false} WeightAppend(frames: seq<Frame>, frame: Frame)
    ensures FramesWeight(frames + [frame]) == FramesWeight(frames) + FrameWeight(frame)
  {
    if frames == [] {
      assert frames + [frame] == [frame];
    } else {
      WeightAppend(frames[1..], frame);
      assert (frames + [frame])[1..] == frames[1..] + [frame];
    }
  }

  /** Reading a frame costs at least one; with nobody failing, exactly one, and one more for
      an accepted `completed` receipt. */
  lemma HandleCosts(a: Actor, frame: Frame, reading: Reading)
    requires !a.failed && (frame.Receipt? ==> a.waiting.Some?)
    ensures var now := Handle(a, frame, reading.fate, reading.own);
            && Weight(now) < Weight(a) + FrameWeight(frame)
            && (!now.failed && (frame.Completed? ==> reading.fate.Stores?) ==>
                  Weight(now) + 1 + |now.noted| == Weight(a) + FrameWeight(frame) + |a.noted|)
  {
    var reply := Reply(a, frame, reading.fate, reading.own);
    if reply == [] {
      assert a.written + reply == a.written;
    } else {
      assert reply == [reply[0]];
      WeightAppend(a.written, reply[0]);
    }
  }

  /** `StepsLeft` and what was noted together: an exact count while nothing is refused. */
  function Total(p: Pair): nat {
    StepsLeft(p) + |p.left.noted| + |p.right.noted|
  }

  /** What one step of actor `a` with peer `b` does to the counts. */
  ghost predicate Costs(a: Actor, b: Actor, now: Actor, peer: Actor) {
    && Weight(now) + Weight(peer) < Weight(a) + Weight(b) && peer.failed == b.failed && peer.noted == b.noted
    && (a.failed ==> now.failed) && (Refused(a) ==> Refused(now))
    && (!Refused(now) && !now.failed ==>
          Weight(now) + Weight(peer) + |now.noted| + 1 == Weight(a) + Weight(b) + |a.noted|)
  }

  lemma StartCosts(a: Actor, b: Actor)
    requires a.todo != []
    ensures Costs(a, b, Begin(a), b)
  {
    WeightAppend(a.written, FirstFrame(a.todo[0]));
  }

  lemma IdleCosts(a: Actor, b: Actor, id: nat)
    requires a.pings > 0
    ensures Costs(a, b, SendPing(a, id), b)
  {
    WeightAppend(a.written, Ping(id));
  }

  lemma EndingCosts(a: Actor, b: Actor)
    requires !a.failed
    ensures Costs(a, b, Abandoned(a), b) && Costs(a, b, a.(failed := true), b)
  {
  }

  lemma HandleNotes(a: Actor, frame: Frame, reading: Reading)
    ensures var now := Handle(a, frame, reading.fate, reading.own);
            && (Refused(a) ==> Refused(now)) && (frame.Completed? && !reading.fate.Stores? ==> Refused(now))
  {
    var now := Handle(a, frame, reading.fate, reading.own);
    assert forall v :: v in a.noted ==> v in now.noted;
    if frame.Completed? {
      assert Verdict(frame.event, reading.fate.Stores?) in now.noted;
    }
  }

  lemma ReadCosts(a: Actor, b: Actor, mine: seq<Entry>, yours: seq<Entry>, reading: Reading)
    requires Sound(a, b, mine, yours) && b.written != [] && !a.failed
    ensures Costs(a, b, Handle(a, b.written[0], reading.fate, reading.own), Unread(b))
  {
    var frame := b.written[0];
    FrameIsExpected(a, b, mine, yours);
    HandleCosts(a, frame, reading);
    HandleNotes(a, frame, reading);
  }

  /** The frame that comes next is, as an answer, the awaited one. */
  lemma FrameIsExpected(a: Actor, b: Actor, mine: seq<Entry>, yours: seq<Entry>)
    requires Sound(a, b, mine, yours) && b.written != [] && !a.failed
    ensures var frame := b.written[0];
            && (frame.Receipt? ==> a.waiting == Some(frame.event))
            && (frame.Error? ==> a.waiting == Some(frame.event) || Verdict(frame.event, false) in b.noted)
  {
    var frame, back := b.written[0], ViewOf(b.written[1..], Asked(mine));
    assert ViewOf(b.written, Asked(mine)) == Ahead(frame, back, Asked(mine));
    if Answers(frame, Asked(mine)) {
      AnswerKeepsOwn(a, ViewOf(a.written, Asked(yours)), b, back, mine, frame, Stores, b.written[1..]);
    } else if frame.Error? {
      assert frame.event in Ahead(frame, back, Asked(mine)).strays;
    }
  }

  lemma StepCosts(p: Pair, step: Step, left: seq<Entry>, right: seq<Entry>)
    requires Inv(p, left, right) && Enabled(p, step)
    ensures Costs(p.At(step.end), p.At(step.end.Other()), After(p, step).At(step.end), After(p, step).At(step.end.Other()))
  {
    match step
    case Start(end) => StartCosts(p.At(end), p.At(end.Other()));
    case Idle(end, id) => IdleCosts(p.At(end), p.At(end.Other()), id);
    case Read(end, reading) =>
      if end.Left? {
        ReadCosts(p.left, p.right, left, right, reading);
      } else {
        ReadCosts(p.right, p.left, right, left, reading);
      }
    case Abandon(end) => EndingCosts(p.At(end), p.At(end.Other()));
    case HangUp(end) => EndingCosts(p.At(end), p.At(end.Other()));
  }

  /** With nothing on the way, nobody waits, and whoever has something left can go on. */
  lemma QuietIsFree(a: Actor, b: Actor, mine: seq<Entry>, yours: seq<Entry>)
    requires Sound(a, b, mine, yours) && a.written == [] && b.written == [] && !a.failed && !b.failed
    ensures a.waiting.None? && a.pendingPing.None?
    ensures Weight(a) == 1 || a.todo != [] || a.pings > 0
  {
  }

  /** As long as no actor has ended and something is left to do, some step forward is possible:
      the actors never wait for each other. */
  lemma NeverStuck(p: Pair, left: seq<Entry>, right: seq<Entry>) returns (step: Step)
    requires Inv(p, left, right) && !p.left.failed && !p.right.failed && StepsLeft(p) > 2
    ensures Enabled(p, step) && (step.Start? || step.Idle? || step.Read?)
  {
    if p.right.written != [] {
      step := Read(Left, Reading(Stores, 0));
    } else if p.left.written != [] {
      step := Read(Right, Reading(Stores, 0));
    } else {
      QuietIsFree(p.left, p.right, left, right);
      QuietIsFree(p.right, p.left, right, left);
      step := QuietStep(p);
    }
  }

  lemma QuietStep(p: Pair) returns (step: Step)
    requires !p.left.failed && !p.right.failed && Weight(p.left) + Weight(p.right) > 2
    requires p.left.waiting.None? && p.left.pendingPing.None? && p.right.waiting.None? && p.right.pendingPing.None?
    requires Weight(p.left) == 1 || p.left.todo != [] || p.left.pings > 0
    requires Weight(p.right) == 1 || p.right.todo != [] || p.right.pings > 0
    ensures Enabled(p, step) && (step.Start? || step.Idle?)
  {
    var end := if p.left.todo != [] || p.left.pings > 0 then Left else Right;
    step := if p.At(end).todo != [] then Start(end) else Idle(end, 0);
  }

  // --------------------------------------------------------------------- runs

  datatype Run = Run(states: seq<Pair>, steps: seq<Step>)
  {
    ghost predicate Valid(left: seq<Entry>, right: seq<Entry>) {
      && |states| == |steps| + 1 && Apart(left) && Apart(right)
      && (exists i: nat, j: nat :: states[0] == Pair(Fresh(left, i), Fresh(right, j)))
      && forall i :: 0 <= i < |steps| ==> Follows(states[i], steps[i], states[i + 1])
    }

    /** One of the first `n` steps is a cause. */
    ghost predicate Disturbed(n: nat) {
      exists i :: 0 <= i < n && i < |steps| && i < |states| && Disturbs(states[i], steps[i])
    }
  }

  /** The causes: an event or a ping that ends its reader without an answer, a `completed` receipt
      that storage does not take, an awaited receipt that cannot be applied, and an actor that
      ends on its own. */
  predicate Disturbs(p: Pair, step: Step) {
    match step
    case Abandon(_) => true
    case Read(end, reading) =>
      var incoming := p.At(end.Other()).written;
      incoming != [] && (match incoming[0]
        case Event(_) => reading.fate.Breaks?
        case Ping(_) => reading.fate.Breaks?
        case Completed(_) => !reading.fate.Stores?
        case Receipt(_, _) => !reading.fate.Stores?
        case _ => false)
    case _ => false
  }

  ghost predicate Follows(p: Pair, step: Step, q: Pair) {
    Enabled(p, step) && q == After(p, step)
  }

  /** In every interleaving, whatever goes wrong: each direction has at most one event waiting
      for its answer, and exactly one frame, the event or its answer, is on the way for it,
      unless its reader has ended on it; an actor ends only after one of the causes; and the
      run is bounded. */
  lemma {:induction false} ReachedIsGood(r: Run, left: seq<Entry>, right: seq<Entry>, i: nat)
    requires r.Valid(left, right) && i < |r.states|
    ensures Inv(r.states[i], left, right)
    ensures StepsLeft(r.states[i]) + i <= StepsLeft(r.states[0])
  {
    if i > 0 {
      var before := i - 1;
      ReachedIsGood(r, left, right, before);
      assert Follows(r.states[before], r.steps[before], r.states[before + 1]);
      StepKeepsInv(r.states[before], r.steps[before], left, right);
      StepCosts(r.states[before], r.steps[before], left, right);
    }
  }

  /** No stored receipt reaches an actor that is not waiting for that event. An error frame
      that is not awaited names a `completed` receipt of the reader, which the peer refused. */
  lemma AnswersAreAwaited(r: Run, left: seq<Entry>, right: seq<Entry>, i: nat, end: End, reading: Reading)
    requires r.Valid(left, right) && i < |r.steps| && r.steps[i] == Read(end, reading)
    requires r.states[i].At(end.Other()).written != []
    ensures var a, b := r.states[i].At(end), r.states[i].At(end.Other());
            var frame := b.written[0];
            && (frame.Receipt? ==> a.waiting == Some(frame.event))
            && (frame.Error? ==> a.waiting == Some(frame.event) || Verdict(frame.event, false) in b.noted)
  {
    ReachedIsGood(r, left, right, i);
    var p := r.states[i];
    assert Follows(p, r.steps[i], r.states[i + 1]);
    if end.Left? {
      FrameIsExpected(p.left, p.right, left, right);
    } else {
      FrameIsExpected(p.right, p.left, right, left);
    }
  }

  lemma AnsweredWereServed(a: Actor, out: View, b: Actor, back: View, given: seq<Entry>)
    requires Good(a, out, b, back, given)
    ensures a.results <= b.served && |b.served| <= |a.results| + 1 && Names(a.results) <= Asked(given)
  {
  }

  /** Whatever goes wrong, an actor has results for what its peer has answered, in order, up to
      one event. */
  lemma ResultsAreServed(r: Run, left: seq<Entry>, right: seq<Entry>, i: nat, end: End)
    requires r.Valid(left, right) && i < |r.states|
    ensures var a, b := r.states[i].At(end), r.states[i].At(end.Other());
            a.results <= b.served && |b.served| <= |a.results| + 1 && Names(a.results) <= Asked(if end.Left? then left else right)
  {
    ReachedIsGood(r, left, right, i);
    var p := r.states[i];
    var out, back := ViewOf(p.left.written, Asked(right)), ViewOf(p.right.written, Asked(left));
    if end.Left? {
      AnsweredWereServed(p.left, out, p.right, back, left);
    } else {
      AnsweredWereServed(p.right, back, p.left, out, right);
    }
  }

  /** While nothing is refused and nobody has ended, every step counts for one. */
  lemma {:induction false} ExactCount(r: Run, left: seq<Entry>, right: seq<Entry>, i: nat)
    requires r.Valid(left, right) && i < |r.states|
    requires !Refused(r.states[i].left) && !Refused(r.states[i].right)
    requires !r.states[i].left.failed && !r.states[i].right.failed
    ensures Total(r.states[i]) + i == StepsLeft(r.states[0])
  {
    if i > 0 {
      var before := i - 1;
      ReachedIsGood(r, left, right, before);
      assert Follows(r.states[before], r.steps[before], r.states[before + 1]);
      StepCosts(r.states[before], r.steps[before], left, right);
      ExactCount(r, left, right, before);
    }
  }

  lemma NothingLeft(a: Actor, b: Actor, mine: seq<Entry>, yours: seq<Entry>)
    requires Sound(a, b, mine, yours) && Weight(a) == Weight(b) == 1 && !a.failed && !b.failed
    ensures Names(a.results) == Asked(mine) && a.results == b.served && Names(b.noted) == Noted(mine) && !Refused(b)
  {
    assert a.written == [] && b.written == [] && a.todo == [];
    assert a.waiting.None?;
    assert Names(a.results) + [] + [] == Names(a.results);
    assert Names(b.noted) + [] + [] == Names(b.noted);
  }

  /** Nothing can happen any more, except that an actor gives up. */
  ghost predicate Stuck(p: Pair) {
    forall step: Step :: !step.Abandon? ==> !Enabled(p, step)
  }

  /** Two stuck actors have both ended, or both have nothing left to do. */
  lemma StuckTogether(p: Pair, left: seq<Entry>, right: seq<Entry>)
    requires Inv(p, left, right) && Stuck(p)
    ensures p.left.failed == p.right.failed
    ensures !p.left.failed ==> StepsLeft(p) == 2
  {
    assert !Enabled(p, HangUp(Left)) && !Enabled(p, HangUp(Right));
    if !p.left.failed && StepsLeft(p) > 2 {
      var step := NeverStuck(p, left, right);
      assert false;
    }
  }

  lemma ReadTroubles(a: Actor, b: Actor, mine: seq<Entry>, yours: seq<Entry>, p: Pair, step: Step)
    requires Sound(a, b, mine, yours) && Enabled(p, step) && step.Read?
    requires p.At(step.end) == a && p.At(step.end.Other()) == b
    ensures Troubled(Handle(a, b.written[0], step.reading.fate, step.reading.own)) <==> Troubled(a) || Disturbs(p, step)
  {
    var frame := b.written[0];
    var now := Handle(a, frame, step.reading.fate, step.reading.own);
    FrameIsExpected(a, b, mine, yours);
    HandleNotes(a, frame, step.reading);
    if Refused(now) && !Refused(a) {
      var v :| v in now.noted && !v.accepted;
      assert v !in a.noted;
    }
  }

  lemma StepTroubles(p: Pair, step: Step, left: seq<Entry>, right: seq<Entry>)
    requires Inv(p, left, right) && Enabled(p, step)
    ensures var q := After(p, step);
            Troubled(q.left) || Troubled(q.right) <==> Troubled(p.left) || Troubled(p.right) || Disturbs(p, step)
  {
    if step.Read? {
      if step.end.Left? {
        ReadTroubles(p.left, p.right, left, right, p, step);
      } else {
        ReadTroubles(p.right, p.left, right, left, p, step);
      }
    }
  }

  /** An actor is troubled exactly when some step so far was a cause. */
  lemma {:induction false} TroubleHasACause(r: Run, left: seq<Entry>, right: seq<Entry>, i: nat)
    requires r.Valid(left, right) && i < |r.states|
    ensures Troubled(r.states[i].left) || Troubled(r.states[i].right) <==> r.Disturbed(i)
  {
    if i > 0 {
      var before := i - 1;
      TroubleHasACause(r, left, right, before);
      ReachedIsGood(r, left, right, before);
      assert Follows(r.states[before], r.steps[before], r.states[before + 1]);
      StepTroubles(r.states[before], r.steps[before], left, right);
      assert r.Disturbed(i) <==> r.Disturbed(before) || Disturbs(r.states[before], r.steps[before]);
    }
  }

  /** A run that got stuck has lost its connection, on both sides, exactly when one of its
      steps was a cause. Otherwise it has delivered everything: each event of either side,
      in its order, has exactly the answer the other side gave it, and every `completed`
      receipt was taken. Every such run has the same number of steps. */
  lemma EveryInterleavingCompletes(r: Run, left: seq<Entry>, right: seq<Entry>)
    requires r.Valid(left, right) && Stuck(r.states[|r.steps|])
    ensures var p := r.states[|r.steps|];
            && p.left.failed == p.right.failed && (p.left.failed <==> r.Disturbed(|r.steps|))
            && (!p.left.failed ==>
                  && Names(p.left.results) == Asked(left) && p.left.results == p.right.served && Names(p.right.noted) == Noted(left)
                  && Names(p.right.results) == Asked(right) && p.right.results == p.left.served && Names(p.left.noted) == Noted(right)
                  && !Refused(p.left) && !Refused(p.right)
                  && |r.steps| + |Noted(left)| + |Noted(right)| + 2 == StepsLeft(r.states[0]))
  {
    var p := r.states[|r.steps|];
    ReachedIsGood(r, left, right, |r.steps|);
    StuckTogether(p, left, right);
    TroubleHasACause(r, left, right, |r.steps|);
    if !p.left.failed {
      NothingLeft(p.left, p.right, left, right);
      NothingLeft(p.right, p.left, right, left);
      ExactCount(r, left, right, |r.steps|);
    }
  }

  // ------------------------------------------------------------- a lost connection

  const FINISHED: EventId := 1
  const NEWS: EventId := 2

  lemma Onward(r: Run, left: seq<Entry>, right: seq<Entry>, step: Step) returns (more: Run)
    requires r.Valid(left, right) && Enabled(r.states[|r.steps|], step)
    ensures more.Valid(left, right)
    ensures more == Run(r.states + [After(r.states[|r.steps|], step)], r.steps + [step])
  {
    more := Run(r.states + [After(r.states[|r.steps|], step)], r.steps + [step]);
    forall i | 0 <= i < |more.steps|
      ensures Follows(more.states[i], more.steps[i], more.states[i + 1])
    {
      if i < |r.steps| {
        assert Follows(r.states[i], r.steps[i], r.states[i + 1]);
      }
    }
  }

  lemma Beginning(left: seq<Entry>) returns (r: Run)
    requires left == [Entry(FINISHED, false), Entry(NEWS, true)]
    ensures r.Valid(left, []) && r == Run([Pair(Fresh(left, 0), Fresh([], 0))], [])
  {
    var rest := left[1..];
    assert rest == [Entry(NEWS, true)] && rest[1..] == [];
    assert Asked(rest[1..]) == [] && Noted(rest[1..]) == [];
    assert Asked(rest) == [NEWS] && Noted(rest) == [];
    r := Run([Pair(Fresh(left, 0), Fresh([], 0))], []);
  }

  /** The left side writes both. */
  lemma BothWritten(left: seq<Entry>) returns (r: Run)
    requires left == [Entry(FINISHED, false), Entry(NEWS, true)]
    ensures r.Valid(left, [])
    ensures var p := r.states[|r.steps|];
            && p.left == Fresh([], 0).(written := [Completed(FINISHED), Event(NEWS)], waiting := Some(NEWS))
            && p.right == Fresh([], 0)
  {
    r := Beginning(left);
    r := Onward(r, left, [], Start(Left));
    r := Onward(r, left, [], Start(Left));
    assert r.states[2].left.written == [Completed(FINISHED), Event(NEWS)];
  }

  /** The right side, idle, refuses the receipt. */
  lemma ReceiptRefused(left: seq<Entry>) returns (r: Run)
    requires left == [Entry(FINISHED, false), Entry(NEWS, true)]
    ensures r.Valid(left, [])
    ensures var p := r.states[|r.steps|];
            && p.left == Fresh([], 0).(written := [Event(NEWS)], waiting := Some(NEWS))
            && p.right == Fresh([], 0).(written := [Error(FINISHED)], noted := [Verdict(FINISHED, false)])
  {
    r := BothWritten(left);
    r := Onward(r, left, [], Read(Right, Reading(Refuses, 0)));
    var p := r.states[|r.steps|];
    assert p.left.written == [Event(NEWS)] && p.right.written == [Error(FINISHED)] && p.right.noted == [Verdict(FINISHED, false)];
  }

  /** And stores the event. */
  lemma EventStored(left: seq<Entry>) returns (r: Run)
    requires left == [Entry(FINISHED, false), Entry(NEWS, true)]
    ensures r.Valid(left, [])
    ensures var p := r.states[|r.steps|];
            && p.left == Fresh([], 0).(waiting := Some(NEWS))
            && p.right == Fresh([], 0).(written := [Error(FINISHED), Receipt(NEWS, 9)], noted := [Verdict(FINISHED, false)],
                                        served := [Verdict(NEWS, true)])
  {
    r := ReceiptRefused(left);
    r := Onward(r, left, [], Read(Right, Reading(Stores, 9)));
    var p := r.states[|r.steps|];
    assert p.left.written == [] && p.right.written == [Error(FINISHED), Receipt(NEWS, 9)];
    assert p.right.served == [Verdict(NEWS, true)];
  }

  /** A refused `completed` receipt does cost the connection: the left side reports a finished
      transfer that the right no longer knows, and sends an event. The right, idle, answers the
      receipt with an error frame, and stores the event; the left finds the error frame while
      it waits, ends, and never reads the stored receipt. */
  lemma RefusedReceiptEndsConnection() returns (r: Run, left: seq<Entry>)
    ensures left == [Entry(FINISHED, false), Entry(NEWS, true)] && r.Valid(left, []) && Stuck(r.states[|r.steps|])
    ensures var p := r.states[|r.steps|];
            && p.left.failed && p.right.failed && p.right.noted == [Verdict(FINISHED, false)]
            && p.right.served == [Verdict(NEWS, true)] && p.left.results == []
  {
    left := [Entry(FINISHED, false), Entry(NEWS, true)];
    r := EventStored(left);
    r := Onward(r, left, [], Read(Left, Reading(Stores, 0)));
    r := Onward(r, left, [], HangUp(Right));
  }

  /** The left side has one event, and writes it. */
  lemma NewsWritten() returns (r: Run, left: seq<Entry>)
    ensures left == [Entry(NEWS, true)] && r.Valid(left, [])
    ensures var p := r.states[|r.steps|];
            p.left == Fresh([], 0).(written := [Event(NEWS)], waiting := Some(NEWS)) && p.right == Fresh([], 0)
  {
    left := [Entry(NEWS, true)];
    assert left[1..] == [] && Asked(left[1..]) == [] && Noted(left[1..]) == [];
    assert Asked(left) == [NEWS] && Noted(left) == [];
    r := Run([Pair(Fresh(left, 0), Fresh([], 0))], []);
    r := Onward(r, left, [], Start(Left));
  }

  /** Without a cause the event is answered, and then nothing is left to do. */
  lemma NewsDelivered() returns (r: Run, left: seq<Entry>)
    ensures left == [Entry(NEWS, true)] && r.Valid(left, []) && Stuck(r.states[|r.steps|])
    ensures var p := r.states[|r.steps|];
            !p.left.failed && !p.right.failed && p.left.results == p.right.served == [Verdict(NEWS, true)]
  {
    r, left := NewsWritten();
    r := Onward(r, left, [], Read(Right, Reading(Stores, 9)));
    var p := r.states[|r.steps|];
    assert p.right.written == [Receipt(NEWS, 9)] && p.right.served == [Verdict(NEWS, true)];
    r := Onward(r, left, [], Read(Left, Reading(Stores, 0)));
    p := r.states[|r.steps|];
    assert p.left.results == [Verdict(NEWS, true)] && p.left.written == [] && p.right.written == [];
  }

  /** An event can cost the connection without any refusal: its handling fails with an error that
      has no protocol code, the right ends without an answer, and the left finds the stream
      closed. */
  lemma UncodedFailureEndsConnection() returns (r: Run, left: seq<Entry>)
    ensures r.Valid(left, []) && Stuck(r.states[|r.steps|])
    ensures var p := r.states[|r.steps|];
            && p.left.failed && p.right.failed && p.right.broke == Some(Event(NEWS)) && !p.left.quit && !p.right.quit
            && p.left.noted == [] && p.right.noted == [] && p.right.served == [] && p.left.results == []
  {
    r, left := NewsWritten();
    r := Onward(r, left, [], Read(Right, Reading(Breaks, 0)));
    r := Onward(r, left, [], HangUp(Left));
  }

  /** So can its receipt: the right has stored the event, but the left cannot apply the receipt it
      waits for, because the row is gone or cannot be written, and ends without a result. */
  lemma UnappliedReceiptEndsConnection() returns (r: Run, left: seq<Entry>)
    ensures r.Valid(left, []) && Stuck(r.states[|r.steps|])
    ensures var p := r.states[|r.steps|];
            && p.left.failed && p.right.failed && p.left.broke.Some? && p.left.broke.value.Receipt? && !p.left.quit && !p.right.quit
            && p.left.noted == [] && p.right.noted == [] && p.right.served == [Verdict(NEWS, true)] && p.left.results == []
  {
    r, left := NewsWritten();
    r := Onward(r, left, [], Read(Right, Reading(Stores, 9)));
    var p := r.states[|r.steps|];
    assert p.right.written == [Receipt(NEWS, 9)] && p.right.served == [Verdict(NEWS, true)];
    r := Onward(r, left, [], Read(Left, Reading(Refuses, 0)));
    r := Onward(r, left, [], HangUp(Right));
  }
}
