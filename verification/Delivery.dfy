/** Whole runs of one transfer: any number of connections, each cut at any byte or killed
    at any point, restarts, and publishing passes that stop anywhere. */
module Delivery {
  import opened Basics
  import opened Transfer
  import opened Publish
  import opened Lockstep
  import opened ReceiveTransfer
  import Sending = SendTransfer

  /** Both ends of one transfer between two events: the receiver's disk, the offsets the
      sender believes in, and whether the receiver has closed the transfer. */
  datatype World = World(disk: Disk, sender: Offsets, completed: bool)

  function Link(m: seq<Entry>, s: Offsets, d: Disk, src: map<EntryId, Bytes>, fin: Token): Session {
    Session(Unsent(m, s), s, Expected(m, d.offsets), d, src, fin)
  }

  ghost predicate TablesAgree(m: seq<Entry>, s: Offsets, r: Offsets) {
    forall e :: e in m && e.kind.File? ==> Off(s, e.id) == Off(r, e.id)
  }

  lemma LinkReady(m: seq<Entry>, s: Offsets, d: Disk, src: map<EntryId, Bytes>, fin: Token)
    requires ValidEntries(m) && OffsetsFit(m, s) && Sound(m, d, src)
    requires fin == EndFrame(m, s) || fin == Changed
    ensures Link(m, s, d, src, fin).Ready()
  {
    var l := Link(m, s, d, src, fin);
    UnsentMembers(m, s);
    ExpectedMembers(m, d.offsets);
    ExpectedDistinct(m, d.offsets);
    forall j | 0 <= j < |l.wanted|
      ensures l.Resumable(l.wanted[j])
    {
      assert l.wanted[j] in l.wanted;
      assert EntrySound(l.wanted[j], d, src);
    }
    forall i, j | 0 <= i < |l.pending| && 0 <= j < |l.wanted| && l.pending[i].id == l.wanted[j].id
      ensures l.pending[i] == l.wanted[j]
    {
      assert l.pending[i] in l.pending && l.wanted[j] in l.wanted;
    }
    forall i | 0 <= i < |l.pending|
      ensures Off(s, l.pending[i].id) != l.pending[i].size
    {
      assert l.pending[i] in l.pending;
    }
    forall i, j | 0 <= i < j < |l.wanted|
      ensures l.wanted[i].partial != l.wanted[j].partial
    {
      assert l.wanted[i] in l.wanted && l.wanted[j] in l.wanted;
    }
  }

  lemma PathsApart(m: seq<Entry>, a: Entry, b: Entry)
    requires DistinctEntries(m) && a in m && b in m && a.kind.File? && b.kind.File?
    ensures a.destination != b.partial && (a != b ==> a.partial != b.partial && a.id != b.id)
  {
    var i, j :| 0 <= i < |m| && 0 <= j < |m| && m[i] == a && m[j] == b;
  }

  /** Whatever cuts a connection, every partial keeps `recorded <= length <= size` and is a
      prefix of the source. */
  lemma ReceivingKeepsSound(m: seq<Entry>, s: Offsets, src: map<EntryId, Bytes>, fin: Token, d: Disk,
                            tokens: seq<Token>, k: nat, a: Disk, clean: bool)
    requires ValidEntries(m) && OffsetsFit(m, s) && Sound(m, d, src)
    requires fin == EndFrame(m, s) || fin == Changed
    requires Link(m, s, d, src, fin).Ready() && tokens <= Link(m, s, d, src, fin).Stream()
    requires ReceivedUpTo(m, d, tokens, k, a, clean)
    ensures Sound(m, a, src)
  {
    var l := Link(m, s, d, src, fin);
    assert tokens[..k] == l.Stream()[..k];
    var rx, rest := l.After(k), l.Stream()[k..];
    assert rx == After(m, d, tokens, k);
    l.StaysInStep(k);
    forall e | e in m && e.kind.File?
      ensures EntrySound(e, a, src)
    {
      EntryKeepsSound(m, l, rx, rest, a, e);
    }
  }

  lemma EntryKeepsSound(m: seq<Entry>, l: Session, rx: Rx, rest: seq<Token>, a: Disk, e: Entry)
    requires DistinctEntries(m) && l.Ready() && l.InStep(rx, rest) && !rx.phase.Refused?
    requires l.wanted == Expected(m, l.d.offsets) && e in m && e.kind.File? && EntrySound(e, l.d, l.src)
    requires a.files == rx.files && a.published == l.d.published && Recorded(m, l.d, rx.phase, a.offsets)
    ensures EntrySound(e, a, l.src)
  {
    ExpectedMembers(m, l.d.offsets);
    forall j | 0 <= j < |l.wanted|
      ensures e.destination != l.wanted[j].partial
      ensures e !in l.wanted ==> e.partial != l.wanted[j].partial
    {
      assert l.wanted[j] in l.wanted;
      PathsApart(m, e, l.wanted[j]);
    }
    l.Elsewhere(rx, rest, e.destination);
    if e in l.wanted {
      var j :| 0 <= j < |l.wanted| && l.wanted[j] == e;
      assert l.Resumable(e);
      l.Holding(rx, rest, j);
    } else {
      l.Elsewhere(rx, rest, e.partial);
    }
  }

  // --------------------------------------------------------------------- runs

  /** One connection over some prefix of what the sender writes. */
  ghost predicate Connected(m: seq<Entry>, src: map<EntryId, Bytes>, w: World, a: World, fin: Token,
                            tokens: seq<Token>, k: nat, mid: Disk, outcome: Outcome) {
    && (fin == EndFrame(m, w.sender) || fin == Changed)
    && Link(m, w.sender, w.disk, src, fin).Ready()
    && tokens <= Link(m, w.sender, w.disk, src, fin).Stream()
    && ConnectionResult(m, w.disk, tokens, k, mid, a.disk, outcome)
    && a.sender == w.sender && (a.completed <==> outcome == Completed)
  }

  /** Whatever `SendTransfer` puts on the stream, and any part of it that arrives, is what
      `Connected` lets the receiver read. */
  lemma WrittenIsConnected(m: seq<Entry>, s: Offsets, src: map<EntryId, Bytes>, d: Disk, out: seq<Token>,
                           arrived: seq<Token>)
    returns (fin: Token)
    requires ValidEntries(m) && OffsetsFit(m, s) && Sound(m, d, src) && Sendable(Unsent(m, s), s, src)
    requires out <= SentBody(m, s, src) + [EndFrame(m, s)] || out == SentBody(m, s, src) + [Changed]
    requires arrived <= out
    ensures fin == EndFrame(m, s) || fin == Changed
    ensures Link(m, s, d, src, fin).Ready() && arrived <= Link(m, s, d, src, fin).Stream()
    ensures out == SentBody(m, s, src) + [EndFrame(m, s)] ==> fin == EndFrame(m, s)
  {
    fin := if out <= SentBody(m, s, src) + [EndFrame(m, s)] then EndFrame(m, s) else Changed;
    LinkReady(m, s, d, src, fin);
    assert out <= Link(m, s, d, src, fin).Stream();
  }

  ghost predicate Connection(m: seq<Entry>, src: map<EntryId, Bytes>, w: World, a: World) {
    && !w.completed && OffsetsFit(m, w.sender)
    && exists fin, tokens, k, mid, outcome :: Connected(m, src, w, a, fin, tokens, k, mid, outcome)
  }

  /** The sender learns or forgets offsets: any table within the entries' sizes. */
  ghost predicate SenderRecords(m: seq<Entry>, w: World, a: World) {
    a == w.(sender := a.sender) && OffsetsFit(m, a.sender)
  }

  /** A start-up pass, which may be killed before its commit. */
  ghost predicate Restart(m: seq<Entry>, w: World, a: World) {
    && !w.completed && !a.completed && a.sender == w.sender
    && Cut(m, w.disk, a.disk.files) && a.disk.published == w.disk.published
    && (a.disk.offsets == w.disk.offsets || a.disk.offsets == Reconciled(m, w.disk))
  }

  ghost predicate Next(m: seq<Entry>, src: map<EntryId, Bytes>, w: World, a: World) {
    Connection(m, src, w, a) || SenderRecords(m, w, a) || Restart(m, w, a)
  }

  /** Acceptance opened a partial for each file, created empty or found with the beginning of
      the source, recorded its length, and took no destination. */
  ghost predicate Accepting(m: seq<Entry>, src: map<EntryId, Bytes>, w: World) {
    && !w.completed && w.disk.published == {}
    && forall e :: e in m && e.kind.File? ==>
         && e.id in src && |src[e.id]| == e.size && e.destination !in w.disk.files
         && e.partial in w.disk.files && w.disk.files[e.partial] <= src[e.id]
         && Off(w.disk.offsets, e.id) == |w.disk.files[e.partial]|
  }

  ghost predicate Run(m: seq<Entry>, src: map<EntryId, Bytes>, run: seq<World>) {
    && run != [] && Accepting(m, src, run[0])
    && forall i :: 0 <= i < |run| - 1 ==> Next(m, src, run[i], run[i + 1])
  }

  ghost predicate Good(m: seq<Entry>, src: map<EntryId, Bytes>, w: World) {
    Sound(m, w.disk, src) && (w.completed ==> Delivered(m, w.disk, src))
  }

  /** Recorded offsets never go down. */
  ghost predicate NothingForgotten(m: seq<Entry>, b: Offsets, a: Offsets) {
    forall e :: e in m && e.kind.File? ==> Off(b, e.id) <= Off(a, e.id)
  }

  lemma SoundOffsetsFit(m: seq<Entry>, d: Disk, src: map<EntryId, Bytes>)
    requires Sound(m, d, src)
    ensures OffsetsFit(m, d.offsets)
  {
    forall e | e in m && e.kind.File?
      ensures Off(d.offsets, e.id) <= e.size
    {
      assert EntrySound(e, d, src);
    }
  }

  lemma ReceivingKeepsOffsets(m: seq<Entry>, b: Disk, tokens: seq<Token>, k: nat, mid: Disk, clean: bool)
    requires ReceivedUpTo(m, b, tokens, k, mid, clean)
    ensures NothingForgotten(m, b.offsets, mid.offsets)
  {
    var wanted := Wanted(m, b);
    forall e | e in m && e.kind.File?
      ensures Off(b.offsets, e.id) <= Off(mid.offsets, e.id)
    {
      if e in wanted {
        var j :| 0 <= j < |wanted| && wanted[j] == e;
      }
    }
  }

  lemma RelocatingKeepsOffsets(m: seq<Entry>, b: Disk, a: Disk)
    requires Relocated(m, b, a)
    ensures NothingForgotten(m, b.offsets, a.offsets)
  {
    forall e | e in m && e.kind.File?
      ensures Off(b.offsets, e.id) <= Off(a.offsets, e.id)
    {
      var i :| 0 <= i < |m| && m[i] == e;
    }
  }

  lemma ConnectionKeepsGood(m: seq<Entry>, src: map<EntryId, Bytes>, w: World, a: World, fin: Token,
                            tokens: seq<Token>, k: nat, mid: Disk, outcome: Outcome)
    requires ValidEntries(m) && Good(m, src, w) && OffsetsFit(m, w.sender)
    requires Connected(m, src, w, a, fin, tokens, k, mid, outcome)
    ensures Good(m, src, a) && NothingForgotten(m, w.disk.offsets, a.disk.offsets)
    ensures ReadToEnd(m, w.disk, tokens, k) ==> Sound(m, mid, src) && AllRecorded(m, mid)
  {
    var clean := outcome != Killed && outcome != Failed;
    ReceivingKeepsSound(m, w.sender, src, fin, w.disk, tokens, k, mid, clean);
    ReceivingKeepsOffsets(m, w.disk, tokens, k, mid, clean);
    if ReadToEnd(m, w.disk, tokens, k) {
      PublishKeepsSound(m, mid, a.disk, src);
      RelocatingKeepsOffsets(m, mid, a.disk);
      if outcome == Completed {
        PublishedIsDelivered(m, a.disk, src);
      }
    }
  }

  lemma NextKeepsGood(m: seq<Entry>, src: map<EntryId, Bytes>, w: World, a: World)
    requires ValidEntries(m) && Good(m, src, w) && Next(m, src, w, a)
    ensures Good(m, src, a) && NothingForgotten(m, w.disk.offsets, a.disk.offsets)
    ensures w.completed ==> a.completed && a.disk == w.disk
  {
    if Connection(m, src, w, a) {
      var fin, tokens, k, mid, outcome :| Connected(m, src, w, a, fin, tokens, k, mid, outcome);
      ConnectionKeepsGood(m, src, w, a, fin, tokens, k, mid, outcome);
    } else if Restart(m, w, a) {
      RestartKeepsSound(m, w.disk, a.disk, src);
    }
  }

  /** Over any run, every partial is a prefix of its source that covers the recorded offset,
      each file is in exactly one place, nothing recorded is fetched again, and a transfer
      that counts as completed has delivered every file byte for byte, for good. */
  lemma {:induction false} RunStaysSound(m: seq<Entry>, src: map<EntryId, Bytes>, run: seq<World>, i: nat)
    requires ValidEntries(m) && Run(m, src, run) && i < |run|
    ensures Sound(m, run[i].disk, src)
    ensures run[i].completed ==> Delivered(m, run[i].disk, src)
    ensures i > 0 ==> NothingForgotten(m, run[i - 1].disk.offsets, run[i].disk.offsets)
    ensures i > 0 && run[i - 1].completed ==> run[i].completed && run[i].disk == run[i - 1].disk
  {
    if i == 0 {
      var d := run[0].disk;
      forall e | e in m && e.kind.File?
        ensures EntrySound(e, d, src)
      {
        assert e.partial in d.files;
      }
    } else {
      var before := i - 1;
      RunStaysSound(m, src, run, before);
      assert Next(m, src, run[before], run[before + 1]);
      NextKeepsGood(m, src, run[before], run[i]);
    }
  }

  // ------------------------------------------------------------ acceptance

  lemma SameListsSameTables(m: seq<Entry>, s: Offsets, r: Offsets, pending: seq<Entry>, wanted: seq<Entry>)
    requires OffsetsFit(m, s) && OffsetsFit(m, r)
    requires pending == Unsent(m, s) && wanted == Expected(m, r) && |pending| == |wanted|
    requires forall j :: 0 <= j < |wanted| ==> pending[j] == wanted[j] && Off(s, pending[j].id) == Off(r, wanted[j].id)
    ensures TablesAgree(m, s, r)
  {
    UnsentMembers(m, s);
    ExpectedMembers(m, r);
    assert pending == wanted;
    forall e | e in m && e.kind.File?
      ensures Off(s, e.id) == Off(r, e.id)
    {
      if e in pending {
        var j :| 0 <= j < |pending| && pending[j] == e;
      }
    }
  }

  /** An accepted final frame means both sides had the same offsets for every file. */
  lemma AcceptedMeansAgree(m: seq<Entry>, s: Offsets, src: map<EntryId, Bytes>, fin: Token, d: Disk, k: nat)
    requires OffsetsFit(m, s) && OffsetsFit(m, d.offsets)
    requires Link(m, s, d, src, fin).Ready() && k <= |Link(m, s, d, src, fin).Stream()|
    requires Link(m, s, d, src, fin).After(k).phase.Accepted?
    ensures fin.End? && TablesAgree(m, s, d.offsets)
  {
    var l := Link(m, s, d, src, fin);
    l.StaysInStep(k);
    assert l.InStep(l.After(k), l.Stream()[k..]);
    SameListsSameTables(m, s, d.offsets, l.pending, l.wanted);
  }

  lemma AgreeMeansAccepted(m: seq<Entry>, s: Offsets, src: map<EntryId, Bytes>, d: Disk, k: nat)
    requires OffsetsFit(m, s) && TablesAgree(m, s, d.offsets)
    requires Link(m, s, d, src, EndFrame(m, s)).Ready() && k <= |Link(m, s, d, src, EndFrame(m, s)).Stream()|
    ensures var l := Link(m, s, d, src, EndFrame(m, s));
            !l.After(k).phase.Refused? && (k == |l.Stream()| ==> l.After(k).phase.Accepted?)
  {
    var l := Link(m, s, d, src, EndFrame(m, s));
    FiltersAgree(m, s, d.offsets);
    UnsentMembers(m, s);
    forall j | 0 <= j < |l.wanted|
      ensures Off(s, l.pending[j].id) == Off(d.offsets, l.wanted[j].id)
    {
      assert l.pending[j] in l.pending;
    }
    l.NeverRefuses(k);
  }

  /** A connection that reads a whole stream undisturbed completes exactly when the two tables
      agree on every file; and then every file is delivered. */
  lemma CompletesExactlyWhenTablesAgree(m: seq<Entry>, src: map<EntryId, Bytes>, w: World, a: World,
                                        tokens: seq<Token>, k: nat, mid: Disk, outcome: Outcome)
    requires ValidEntries(m) && Good(m, src, w) && OffsetsFit(m, w.sender)
    requires Connected(m, src, w, a, EndFrame(m, w.sender), tokens, k, mid, outcome)
    requires tokens == Link(m, w.sender, w.disk, src, EndFrame(m, w.sender)).Stream()
    requires Undisturbed(m, w.disk, tokens, k, outcome)
    ensures outcome == Completed <==> TablesAgree(m, w.sender, w.disk.offsets)
    ensures a.completed ==> Delivered(m, a.disk, src)
  {
    var s, fin := w.sender, EndFrame(m, w.sender);
    var l := Link(m, s, w.disk, src, fin);
    SoundOffsetsFit(m, w.disk, src);
    ConnectionKeepsGood(m, src, w, a, fin, tokens, k, mid, outcome);
    if outcome == Completed {
      AcceptedMeansAgree(m, s, src, fin, w.disk, k);
    } else if TablesAgree(m, s, w.disk.offsets) {
      AgreeMeansAccepted(m, s, src, w.disk, k);
      if outcome == Rejected {
        SoundIsPublishable(m, mid, src);
      } else if k < |tokens| {
        FeedNext(l.wanted, w.disk, l.Stream(), k);
        AgreeMeansAccepted(m, s, src, w.disk, k + 1);
      }
      assert false;
    }
  }

  /** A receiver that has been cut off anywhere is completed by one undisturbed connection
      over all that a sender writes that has taken over its offsets. */
  lemma ResumingCompletes(m: seq<Entry>, src: map<EntryId, Bytes>, run: seq<World>, i: nat, w: World, a: World,
                          tokens: seq<Token>, k: nat, mid: Disk, outcome: Outcome)
    requires ValidEntries(m) && Run(m, src, run) && i < |run|
    requires w == run[i].(sender := run[i].disk.offsets)
    requires Connected(m, src, w, a, EndFrame(m, w.sender), tokens, k, mid, outcome)
    requires tokens == Link(m, w.sender, w.disk, src, EndFrame(m, w.sender)).Stream()
    requires Undisturbed(m, w.disk, tokens, k, outcome)
    ensures a.completed && Delivered(m, a.disk, src)
  {
    RunStaysSound(m, src, run, i);
    SoundOffsetsFit(m, w.disk, src);
    CompletesExactlyWhenTablesAgree(m, src, w, a, tokens, k, mid, outcome);
  }

  /** The receiver itself, left alone with everything the sender writes, completes exactly when
      the two tables agree on every file, and then has delivered every file. */
  method ReceiveAll(r: Receiver, tokens: seq<Token>, ghost src: map<EntryId, Bytes>, ghost s: Offsets)
    returns (outcome: Outcome)
    requires r.calm && !r.completed && ValidEntries(r.manifest) && Sound(r.manifest, r.State(), src) && OffsetsFit(r.manifest, s)
    requires Sendable(Unsent(r.manifest, s), s, src) && tokens == SentBody(r.manifest, s, src) + [EndFrame(r.manifest, s)]
    modifies r
    ensures r.completed <==> TablesAgree(r.manifest, s, old(r.offsets))
    ensures r.completed ==> Delivered(r.manifest, r.State(), src)
  {
    ghost var w := World(r.State(), s, false);
    SoundOffsetsFit(r.manifest, r.State(), src);
    LinkReady(r.manifest, s, r.State(), src, EndFrame(r.manifest, s));
    ghost var mid, k;
    var reports;
    outcome, reports, k, mid := r.ReceiveTransfer(tokens);
    CompletesExactlyWhenTablesAgree(r.manifest, src, w, World(r.State(), s, r.completed), tokens, k, mid, outcome);
  }

  /** Without the final frame nothing is accepted: neither what comes before it nor the frame
      that says a source has changed. */
  lemma UnfinishedIsNotAccepted(m: seq<Entry>, s: Offsets, src: map<EntryId, Bytes>, d: Disk, tokens: seq<Token>, k: nat)
    requires ValidEntries(m) && OffsetsFit(m, s) && Sound(m, d, src) && Sendable(Unsent(m, s), s, src)
    requires tokens <= SentBody(m, s, src) + [Changed] && k <= |tokens|
    ensures !ReadToEnd(m, d, tokens, k)
  {
    LinkReady(m, s, d, src, Changed);
    SoundOffsetsFit(m, d, src);
    var l := Link(m, s, d, src, Changed);
    assert tokens[..k] == l.Stream()[..k];
    if l.After(k).phase.Accepted? {
      AcceptedMeansAgree(m, s, src, Changed, d, k);
    }
  }

  /** Sender and receiver together, both left alone: the transfer is closed exactly when no source
      has changed at either check and the two tables agree on every file; and then every file is
      delivered. */
  method SendAndReceive(r: Receiver, s: Offsets, now: Sending.Sources, later: Sending.Sources, ghost src: map<EntryId, Bytes>)
    returns (sent: Sending.SendOutcome, outcome: Outcome)
    requires r.calm && !r.completed && ValidEntries(r.manifest) && Sound(r.manifest, r.State(), src)
    requires OffsetsFit(r.manifest, s) && Sending.Faithful(r.manifest, now, src)
    modifies r
    ensures r.completed <==>
              && Sending.AllUnchanged(r.manifest, now) && Sending.AllUnchanged(r.manifest, later)
              && TablesAgree(r.manifest, s, old(r.offsets))
    ensures r.completed ==> Delivered(r.manifest, r.State(), src)
    ensures Sending.AllUnchanged(r.manifest, now) && !Sending.AllUnchanged(r.manifest, later) && TablesAgree(r.manifest, s, old(r.offsets)) ==>
              sent == Sending.SourceLost && outcome == SourceChanged
  {
    var m := r.manifest;
    ghost var w := World(r.State(), s, false);
    SoundOffsetsFit(m, r.State(), src);
    var out, total, reports;
    sent, out, total, reports := Sending.SendTransfer(m, s, now, later, true, src);
    if sent == Sending.Sent {
      outcome := ReceiveAll(r, out, src, s);
      return;
    }
    ghost var mid, k;
    outcome, reports, k, mid := r.ReceiveTransfer(out);
    if !Sending.AllUnchanged(m, now) {
      assert out <= SentBody(m, s, src);
    }
    UnfinishedIsNotAccepted(m, s, src, w.disk, out, k);
    if TablesAgree(m, s, w.disk.offsets) && Sending.AllUnchanged(m, now) {
      ChangeIsAnnounced(m, s, src, w.disk, out, k);
    }
  }

  lemma AcceptedFromBetween(wanted: seq<Entry>, d: Disk, tokens: seq<Token>, last: Token)
    requires FeedAll(wanted, d, tokens + [last]).phase.Accepted?
    ensures FeedAll(wanted, d, tokens).phase.Between?
  {
    var all, k := tokens + [last], |tokens|;
    assert all[..k + 1] == all && all[..k] == tokens;
    FeedNext(wanted, d, all, k);
  }

  /** With equal tables the receiver takes everything before the frame that says a source has
      changed, and stands between two entries there. */
  lemma ChangeIsReached(m: seq<Entry>, s: Offsets, src: map<EntryId, Bytes>, d: Disk, body: seq<Token>, k: nat)
    requires ValidEntries(m) && OffsetsFit(m, s) && Sound(m, d, src) && Sendable(Unsent(m, s), s, src)
    requires TablesAgree(m, s, d.offsets) && body == SentBody(m, s, src) && k <= |body|
    ensures !After(m, d, body, k).phase.Refused? && (k == |body| ==> After(m, d, body, k).phase.Between?)
  {
    var fin := EndFrame(m, s);
    LinkReady(m, s, d, src, fin);
    var stream := Link(m, s, d, src, fin).Stream();
    assert stream == body + [fin];
    AgreeMeansAccepted(m, s, src, d, k);
    AgreeMeansAccepted(m, s, src, d, |stream|);
    assert stream[..|stream|] == stream && stream[..k] == body[..k] && body[..|body|] == body;
    AcceptedFromBetween(Wanted(m, d), d, body, fin);
  }

  lemma ChangeIsAnnounced(m: seq<Entry>, s: Offsets, src: map<EntryId, Bytes>, d: Disk, tokens: seq<Token>, k: nat)
    requires ValidEntries(m) && OffsetsFit(m, s) && Sound(m, d, src) && Sendable(Unsent(m, s), s, src)
    requires TablesAgree(m, s, d.offsets) && tokens == SentBody(m, s, src) + [Changed] && k <= |tokens|
    requires !After(m, d, tokens, k).phase.Refused? && (k == |tokens| || RefusedAt(m, d, tokens, k))
    ensures Announced(m, d, tokens, k)
  {
    var body := SentBody(m, s, src);
    ChangeIsReached(m, s, src, d, body, |body|);
    assert tokens[..|body|] == body[..|body|];
    FeedNext(Wanted(m, d), d, tokens, |body|);
    if k < |body| {
      ChangeIsReached(m, s, src, d, body, k + 1);
      assert tokens[..k + 1] == body[..k + 1];
      FeedNext(Wanted(m, d), d, tokens, k);
    }
  }

  /** A wanted file whose partial is gone keeps every connection from completing, whatever is
      sent: the receiver opens partials and never creates them again. */
  lemma MissingPartialNeverCompletes(m: seq<Entry>, d: Disk, tokens: seq<Token>, k: nat, e: Entry)
    requires e in m && e.kind.File? && Off(d.offsets, e.id) < e.size && e.partial !in d.files && k <= |tokens|
    ensures !ReadToEnd(m, d, tokens, k)
  {
    PassedHadPartials(Wanted(m, d), d, tokens[..k]);
    ExpectedMembers(m, d.offsets);
    var j :| 0 <= j < |Wanted(m, d)| && Wanted(m, d)[j] == e;
  }
}
