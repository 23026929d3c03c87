/** The receiving side of a data connection: chunked reads and writes, offsets recorded
    from time to time, then publishing. A process kill is a return with outcome `Killed`
    between any two effects that survive it. */
module ReceiveTransfer {
  import opened Basics
  import opened Transfer
  import opened Publish

  const DATA_BUFFER_BYTES: nat := 1024 * 1024
  const OFFSET_PERSIST_BYTES: nat := 64 * 1024 * 1024

  /** The most that is ever received and not recorded. */
  const MAX_LOSS: nat := OFFSET_PERSIST_BYTES + DATA_BUFFER_BYTES

  datatype Flow = FlowGoesOn | FlowBroken | FlowFailed | FlowKilled

  datatype EntryOutcome = EntryDone | EntryCut | EntryFailed | EntryKilled

  /** How a connection ends. `Interrupted`: the stream stopped and every received byte is
      recorded. `Failed`: a file could not be opened or flushed. `Rejected`: the validation
      before publishing failed. `IoFailed`: publishing stopped at an I/O error. */
  datatype Outcome = Completed | Interrupted | Failed | Refusal | SourceChanged | Rejected | IoFailed | Killed

  /** Progress values that always go up, each above `lo` and at most `hi`. */
  ghost predicate Climbs(reports: seq<nat>, lo: nat, hi: nat) {
    && lo <= hi
    && (forall i :: 0 <= i < |reports| ==> lo < reports[i] <= hi)
    && (forall i, j :: 0 <= i < j < |reports| ==> reports[i] < reports[j])
  }

  /** What the receiver waits for, given its disk at the start of the connection. */
  function Wanted(m: seq<Entry>, b: Disk): seq<Entry> {
    Expected(m, b.offsets)
  }

  /** The automaton after `k` tokens. */
  function After(m: seq<Entry>, b: Disk, tokens: seq<Token>, k: nat): Rx
    requires k <= |tokens|
  {
    FeedAll(Wanted(m, b), b, tokens[..k])
  }

  function MissingOf(m: seq<Entry>, b: Disk, n: nat): int
    requires n <= |Wanted(m, b)|
  {
    Missing(Wanted(m, b)[..n], b.offsets)
  }

  /** Only wanted entries get new offsets, between the old one and the bytes held, and at most
      `MAX_LOSS` short of those. */
  ghost predicate Recorded(m: seq<Entry>, b: Disk, phase: Phase, a: Offsets) {
    var wanted := Wanted(m, b);
    && (forall j :: 0 <= j < |wanted| ==> Off(b.offsets, wanted[j].id) <= Off(a, wanted[j].id) <= Held(wanted, b.offsets, phase, j) <= Off(a, wanted[j].id) + MAX_LOSS)
    && (forall e :: e in m && e !in wanted ==> Off(a, e.id) == Off(b.offsets, e.id))
  }

  /** Every byte held is recorded, so a resumed transfer fetches none of them again. */
  ghost predicate RecordedExactly(m: seq<Entry>, b: Disk, phase: Phase, a: Offsets) {
    var wanted := Wanted(m, b);
    && (forall j :: 0 <= j < |wanted| ==> Off(a, wanted[j].id) == Held(wanted, b.offsets, phase, j))
    && (forall e :: e in m && e !in wanted ==> Off(a, e.id) == Off(b.offsets, e.id))
  }

  /** The disk after a receiver consumed exactly the first `k` tokens; `clean` when every
      byte it holds is recorded. */
  ghost predicate ReceivedUpTo(m: seq<Entry>, b: Disk, tokens: seq<Token>, k: nat, a: Disk, clean: bool) {
    && k <= |tokens|
    && var rx := After(m, b, tokens, k);
       && !rx.phase.Refused?
       && a.files == rx.files && a.published == b.published
       && Recorded(m, b, rx.phase, a.offsets)
       && (clean ==> RecordedExactly(m, b, rx.phase, a.offsets))
  }

  ghost predicate ReadToEnd(m: seq<Entry>, b: Disk, tokens: seq<Token>, k: nat) {
    k <= |tokens| && After(m, b, tokens, k).phase.Accepted?
  }

  /** The automaton refuses the token after the first `k`. */
  ghost predicate RefusedAt(m: seq<Entry>, b: Disk, tokens: seq<Token>, k: nat) {
    k < |tokens| && Feed(Wanted(m, b), b, After(m, b, tokens, k), tokens[k]).phase.Refused?
  }

  /** What one connection over `tokens` may leave behind. `k` tokens had an effect on disk,
      `mid` is the disk before publishing. Publishing starts only after the final frame was
      accepted, with every byte of every file on disk and recorded. */
  ghost predicate ConnectionResult(m: seq<Entry>, b: Disk, tokens: seq<Token>, k: nat, mid: Disk, a: Disk,
                                   outcome: Outcome) {
    && ReceivedUpTo(m, b, tokens, k, mid, outcome != Killed && outcome != Failed)
    && (if ReadToEnd(m, b, tokens, k) then
          AllRecorded(m, mid) && Relocated(m, mid, a) && outcome in {Completed, Rejected, IoFailed, Killed}
        else
          a == mid && outcome in {Interrupted, Failed, Refusal, SourceChanged, Killed})
    && (outcome == Refusal || outcome == SourceChanged ==> RefusedAt(m, b, tokens, k) && (outcome == SourceChanged <==> tokens[k].Changed?))
    && (outcome == Rejected ==> a == mid && !Publishable(m, mid))
    && (outcome == Completed ==> AllPublished(m, a))
  }

  /** The next frame says that a source of the sender has changed. */
  ghost predicate Announced(m: seq<Entry>, b: Disk, tokens: seq<Token>, k: nat) {
    k < |tokens| && tokens[k].Changed? && After(m, b, tokens, k).phase.Between?
  }

  /** Nothing but the tables and the tokens themselves ended the connection: it was read to the
      last token, or to one that the automaton refuses, and told why if the sender said so. */
  ghost predicate Undisturbed(m: seq<Entry>, b: Disk, tokens: seq<Token>, k: nat, outcome: Outcome) {
    if ReadToEnd(m, b, tokens, k) then outcome in {Completed, Rejected}
    else outcome != Killed && (k == |tokens| || RefusedAt(m, b, tokens, k)) && (Announced(m, b, tokens, k) ==> outcome == SourceChanged)
  }

  /** Between two frames: `next` entries are complete and recorded. */
  ghost predicate OnTrack(m: seq<Entry>, b: Disk, tokens: seq<Token>, pos: nat, next: nat, received: int, a: Disk) {
    && pos <= |tokens| && next <= |Wanted(m, b)|
    && After(m, b, tokens, pos).phase == Between(next)
    && After(m, b, tokens, pos).files == a.files
    && After(m, b, tokens, pos).received == received
    && received == MissingOf(m, b, next)
    && a.published == b.published
    && RecordedExactly(m, b, Between(next), a.offsets)
  }

  /** Only the offset of `id` changed, by no more than `used` and by not much less. */
  ghost predicate OnlyAdvanced(id: EntryId, used: nat, b: Offsets, a: Offsets) {
    && Off(b, id) <= Off(a, id) <= Off(b, id) + used <= Off(a, id) + MAX_LOSS
    && forall other :: other != id ==> Off(a, other) == Off(b, other)
  }

  /** No byte follows at `pos`. */
  predicate StreamEnds(tokens: seq<Token>, pos: nat) {
    pos >= |tokens| || !tokens[pos].Raw?
  }

  /** What the outside does to the receiver before its next effect: nothing, a failed
      operation or a request to stop, or the end of the process. */
  datatype Fate = GoesOn | Fails | Kills

  /** `calm` says that nothing from outside happens to this receiver. */
  class Receiver {
    const manifest: seq<Entry>
    const calm: bool
    var files: map<Path, Bytes>
    var offsets: Offsets
    var published: set<EntryId>
    var completed: bool

    constructor (manifest: seq<Entry>, files: map<Path, Bytes>, offsets: Offsets, calm: bool)
      ensures this.manifest == manifest && this.calm == calm && !completed
      ensures State() == Transfer.Disk(files, offsets, {})
    {
      this.manifest, this.calm := manifest, calm;
      this.files, this.offsets, this.published, this.completed := files, offsets, {}, false;
    }

    ghost function State(): Disk
      reads this
    {
      Transfer.Disk(files, offsets, published)
    }

    /** What happens before the next effect. */
    method Next() returns (fate: Fate)
      ensures calm ==> fate == GoesOn
    {
      fate := *;
      if calm { fate := GoesOn; }
    }

    /** Flushes the file, then records `offset` if it lies between the recorded one and the size. */
    method PersistSafeOffset(e: Entry, offset: nat) returns (ok: bool)
      modifies this`offsets
      ensures calm ==> (ok <==> Off(old(offsets), e.id) <= offset <= e.size)
      ensures ok ==> Off(old(offsets), e.id) <= offset <= e.size && offsets == old(offsets)[e.id := offset]
      ensures !ok ==> offsets == old(offsets)
    {
      var fate := Next();
      if fate != GoesOn || !(Off(offsets, e.id) <= offset <= e.size) {
        return false;
      }
      offsets := offsets[e.id := offset];
      return true;
    }

    /** Records the offset after a while, and at the latest when `OFFSET_PERSIST_BYTES` are not
        recorded. */
    method PersistIfDue(e: Entry, offset: nat, lastPersisted: nat) returns (ok: bool, persisted: nat)
      requires Off(offsets, e.id) == lastPersisted <= offset <= e.size
      modifies this`offsets
      ensures Off(offsets, e.id) == persisted && lastPersisted <= persisted <= offset
      ensures forall other :: other != e.id ==> Off(offsets, other) == Off(old(offsets), other)
      ensures if ok then offset < persisted + OFFSET_PERSIST_BYTES else persisted == lastPersisted
      ensures calm ==> ok
    {
      var due: bool := *;
      if !due && offset - lastPersisted < OFFSET_PERSIST_BYTES {
        return true, lastPersisted;
      }
      ok := PersistSafeOffset(e, offset);
      persisted := if ok then offset else lastPersisted;
    }

    /** Reads once and writes what was read, in as many `file.write` calls as it takes. The
        stop flag, end of stream, a failed read and a failed write all break the flow. */
    method TakeChunk(e: Entry, tokens: seq<Token>, from: nat, chunk: nat)
      returns (flow: Flow, count: nat)
      requires from <= |tokens| && 0 < chunk && e.partial in files
      modifies this`files
      ensures count <= chunk && from + count <= |tokens| && AllRaw(tokens[from..from + count])
      ensures files == old(files)[e.partial := old(files)[e.partial] + BytesOf(tokens[from..from + count])]
      ensures flow == FlowGoesOn ==> 0 < count
      ensures calm && flow != FlowGoesOn ==> flow == FlowBroken && count == 0 && StreamEnds(tokens, from)
    {
      count := 0;
      ghost var content := files[e.partial];
      assert content + BytesOf(tokens[from..from + 0]) == content;
      var fate := Next();
      if fate == Kills { return FlowKilled, 0; }
      if fate == Fails || from == |tokens| || !tokens[from].Raw? {
        return FlowBroken, 0;
      }
      assert tokens[from..from + 1][0].Raw?;
      var read: nat :| 1 <= read <= chunk && from + read <= |tokens| && AllRaw(tokens[from..from + read]);
      var buffer := tokens[from..from + read];
      while count < read
        invariant count <= read && e.partial in files && AllRaw(tokens[from..from + count])
        invariant files == old(files)[e.partial := content + BytesOf(tokens[from..from + count])]
      {
        fate := Next();
        if fate == Kills { return FlowKilled, count; }
        if fate == Fails { return FlowBroken, count; }
        var written: nat :| 1 <= written <= read - count;
        Grown(tokens, from, count, read, written, content);
        files := files[e.partial := files[e.partial] + BytesOf(buffer[count..count + written])];
        count := count + written;
      }
      return FlowGoesOn, count;
    }

    /** A progress event after a while. */
    method ReportIfDue(reports: seq<nat>, ghost base: nat, ghost before: nat, now: nat) returns (all: seq<nat>)
      requires Climbs(reports, base, before) && before < now
      ensures Climbs(all, base, now)
    {
      var due: bool := *;
      ClimbsOn(reports, base, before, now);
      all := if due then reports + [now] else reports;
    }

    /** The receive loop of one entry: chunks, offsets recorded from time to time, progress
        events. Whatever ends the loop, `used` bytes of the stream are in the partial file. */
    method StreamEntry(e: Entry, tokens: seq<Token>, pos: nat, length: nat, base: nat)
      returns (flow: Flow, used: nat, reports: seq<nat>)
      requires pos <= |tokens| && Off(offsets, e.id) + length == e.size && e.partial in files
      requires base + length <= I64_MAX
      modifies this`files, this`offsets
      ensures used <= length && pos + used <= |tokens| && AllRaw(tokens[pos..pos + used])
      ensures files == old(files)[e.partial := old(files)[e.partial] + BytesOf(tokens[pos..pos + used])]
      ensures OnlyAdvanced(e.id, used, old(offsets), offsets)
      ensures flow == FlowGoesOn ==> used == length
      ensures calm && flow != FlowGoesOn ==> flow == FlowBroken && used < length && StreamEnds(tokens, pos + used)
      ensures Climbs(reports, base, base + length)
    {
      var start := Off(offsets, e.id);
      var offset: nat, remaining: nat, lastPersisted: nat := start, length, start;
      used, reports := 0, [];
      ghost var content := files[e.partial];
      assert content + BytesOf(tokens[pos..pos + 0]) == content;
      while remaining > 0
        invariant remaining + used == length && offset == start + used && pos + used <= |tokens|
        invariant AllRaw(tokens[pos..pos + used])
        invariant files == old(files)[e.partial := content + BytesOf(tokens[pos..pos + used])]
        invariant OnlyAdvanced(e.id, used, old(offsets), offsets)
        invariant start <= lastPersisted <= offset <= lastPersisted + OFFSET_PERSIST_BYTES
        invariant Off(offsets, e.id) == lastPersisted
        invariant Climbs(reports, base, base + used)
      {
        ghost var before := base + used;
        var count;
        flow, count := TakeChunk(e, tokens, pos + used, Min(remaining, DATA_BUFFER_BYTES));
        var sum := used + count;
        AppendRaw(tokens, pos, used, count, sum, content);
        offset, remaining, used := offset + count, remaining - count, sum;
        if flow != FlowGoesOn { return; }
        var ok;
        ok, lastPersisted := PersistIfDue(e, offset, lastPersisted);
        if !ok { return FlowFailed, used, reports; }
        reports := ReportIfDue(reports, base, before, SaturatingAdd(base, SaturatingSub(offset, start)));
      }
      return FlowGoesOn, used, reports;
    }

    /** Receives the missing bytes of one entry into its partial file. `used` counts the
        bytes of the stream that reached the file; `began` says that the file was opened
        and truncated to the recorded offset. */
    method ReceiveEntry(e: Entry, tokens: seq<Token>, pos: nat, length: nat, base: nat)
      returns (outcome: EntryOutcome, used: nat, ghost began: bool, reports: seq<nat>)
      requires pos <= |tokens| && Off(offsets, e.id) + length == e.size
      requires base + length <= I64_MAX
      modifies this`files, this`offsets
      ensures used <= length && pos + used <= |tokens| && AllRaw(tokens[pos..pos + used])
      ensures !began ==> State() == old(State()) && used == 0 && outcome != EntryDone && outcome != EntryCut
      ensures began ==> e.id !in published && e.partial in old(files) && e.partial in files
      ensures began ==> files == old(files)[e.partial := SetLen(old(files)[e.partial], Off(old(offsets), e.id)) + BytesOf(tokens[pos..pos + used])]
      ensures OnlyAdvanced(e.id, used, old(offsets), offsets)
      ensures outcome == EntryCut || outcome == EntryDone ==> Off(offsets, e.id) == Off(old(offsets), e.id) + used
      ensures outcome == EntryDone ==> used == length
      ensures calm && outcome != EntryDone ==>
                || (outcome == EntryFailed && !began && (e.id in published || e.partial !in files))
                || (outcome == EntryCut && used < length && StreamEnds(tokens, pos + used))
      ensures Climbs(reports, base, base + length)
    {
      used, began, reports := 0, false, [];
      if e.id in published || e.partial !in files {
        return EntryFailed, 0, false, [];
      }
      var fate := Next();
      if fate == Kills { return EntryKilled, 0, false, []; }
      if fate == Fails { return EntryFailed, 0, false, []; }
      var start := Off(offsets, e.id);
      files := files[e.partial := SetLen(files[e.partial], start)];
      began := true;
      var flow;
      flow, used, reports := StreamEntry(e, tokens, pos, length, base);
      if flow == FlowKilled { return EntryKilled, used, true, reports; }
      if flow == FlowFailed { return EntryFailed, used, true, reports; }
      var ok := PersistSafeOffset(e, start + used);
      outcome := if !ok then EntryFailed else if flow == FlowBroken then EntryCut else EntryDone;
    }

    /** The check of one entry that runs before any file is renamed. */
    method ValidateEntry(e: Entry) returns (ok: bool)
      ensures ok <==> EntryPublishable(e, State())
    {
      if e.id in published {
        return Complete(files, e.destination, e.size);
      }
      var destinationComplete := Complete(files, e.destination, e.size);
      if destinationComplete && e.partial !in files {
        return true;
      }
      if e.partial !in files || |files[e.partial]| != e.size || e.destination in files {
        return false;
      }
      return true;
    }

    /** The validation loop. */
    method ValidateAll() returns (ok: bool)
      ensures ok <==> Publishable(manifest, State())
    {
      var i := 0;
      while i < |manifest|
        invariant i <= |manifest|
        invariant forall j :: 0 <= j < i && manifest[j].kind.File? ==> EntryPublishable(manifest[j], State())
      {
        if manifest[i].kind.File? {
          ok := ValidateEntry(manifest[i]);
          if !ok { return false; }
        }
        i := i + 1;
      }
      return true;
    }

    /** Renames one partial, unless an earlier pass already did, and clears its `partial_ref`. */
    method PublishEntry(e: Entry) returns (outcome: Outcome)
      requires e.partial != e.destination && e.id !in published && EntryPublishable(e, State())
      modifies this`files, this`published
      ensures outcome in {Completed, IoFailed, Killed}
      ensures Renamed(e, old(State()), State()) || files == old(files)
      ensures published == old(published) || (published == old(published) + {e.id} && Placed(e, files))
      ensures outcome == Completed ==> e.id in published
      ensures calm ==> outcome == Completed
    {
      var fate := Next();
      if fate == Kills { return Killed; }
      if fate == Fails { return IoFailed; }
      if !(Complete(files, e.destination, e.size) && e.partial !in files) {
        files := (files - {e.partial})[e.destination := files[e.partial]];
      }
      fate := Next();
      if fate == Kills { return Killed; }
      if fate == Fails { return IoFailed; }
      published := published + {e.id};
      return Completed;
    }

    /** Validates every file, then renames them one by one and clears each `partial_ref`. */
    method PublishReceivedFiles() returns (outcome: Outcome)
      requires ValidEntries(manifest)
      modifies this`files, this`published
      ensures outcome in {Completed, Rejected, IoFailed, Killed}
      ensures outcome == Rejected ==> State() == old(State()) && !Publishable(manifest, State())
      ensures Relocated(manifest, old(State()), State())
      ensures outcome == Completed ==> Publishable(manifest, old(State())) && AllPublished(manifest, State())
      ensures calm ==> outcome in {Completed, Rejected}
    {
      var ok := ValidateAll();
      if !ok { return Rejected; }
      var i := 0;
      ghost var before := State();
      while i < |manifest|
        invariant i <= |manifest| && PublishedFirst(manifest, i, before, State())
      {
        if manifest[i].kind.File? && manifest[i].id !in published {
          ghost var mid := State();
          outcome := PublishEntry(manifest[i]);
          PublishOne(manifest, i, before, mid, State());
          if outcome != Completed { return; }
        } else {
          PublishSkip(manifest, i, before, State());
        }
        i := i + 1;
      }
      return Completed;
    }

    /** The transfer row: every entry is recorded as complete and the transfer is closed. */
    method CompleteReceiveTransfer()
      modifies this`offsets, this`completed
      ensures completed && offsets == Finished(manifest, old(offsets))
    {
      completed := true;
      offsets := Finished(manifest, offsets);
    }

    /** The `data_entry` arm: the header matches entry `next`, whose bytes follow. */
    method ReceiveNext(ghost b: Disk, e: Entry, tokens: seq<Token>, pos: nat, ghost next: nat, ghost received: int,
                       base: nat)
      returns (ended: Option<Outcome>, used: nat, reports: seq<nat>, ghost k: nat)
      requires ValidEntries(manifest) && OnTrack(manifest, b, tokens, pos, next, received, State())
      requires next < |Wanted(manifest, b)| && e == Wanted(manifest, b)[next]
      requires pos < |tokens| && Off(b.offsets, e.id) == Off(offsets, e.id) < e.size
      requires tokens[pos] == Head(e.id, Off(offsets, e.id), e.size - Off(offsets, e.id))
      requires base + e.size - Off(b.offsets, e.id) <= I64_MAX
      modifies this`files, this`offsets
      ensures used <= e.size - Off(b.offsets, e.id)
      ensures Climbs(reports, base, base + e.size - Off(b.offsets, e.id))
      ensures ended == None ==>
                && used == e.size - Off(b.offsets, e.id) && k == pos + 1 + used
                && OnTrack(manifest, b, tokens, k, next + 1, received + used, State())
      ensures ended != None ==>
                && ended.value in {Interrupted, Failed, Killed}
                && ReceivedUpTo(manifest, b, tokens, k, State(), ended.value == Interrupted)
                && !ReadToEnd(manifest, b, tokens, k)
                && (calm ==> Undisturbed(manifest, b, tokens, k, ended.value))
    {
      ghost var start := State();
      ghost var began;
      var length := e.size - Off(offsets, e.id);
      var result;
      result, used, began, reports := ReceiveEntry(e, tokens, pos + 1, length, base);
      k := if began then pos + 1 + used else pos;
      if began {
        EntryLanded(manifest, b, tokens, pos, next, received, used, start, State());
        EntryCutShort(manifest, b, tokens, pos, next, received, used, start);
      } else {
        TrackStops(manifest, b, tokens, pos, next, received, State());
      }
      ended := match result
        case EntryDone => None
        case EntryCut => Some(Interrupted)
        case EntryFailed => Some(Failed)
        case EntryKilled => Some(Killed);
    }

    /** The `data_entry` arm: the header must name the next wanted entry, its recorded offset
        and all of its missing bytes. */
    method ReceiveHeader(ghost b: Disk, wanted: seq<Entry>, tokens: seq<Token>, pos: nat, next: nat,
                         ghost received: nat, base: nat)
      returns (ended: Option<Outcome>, used: nat, reports: seq<nat>, ghost k: nat, ghost sum: nat)
      requires ValidEntries(manifest) && OnTrack(manifest, b, tokens, pos, next, received, State())
      requires wanted == Wanted(manifest, b) && pos < |tokens| && tokens[pos].Head?
      requires base + Missing(wanted, b.offsets) - received <= TotalSize(manifest)
      modifies this`files, this`offsets
      ensures ended == None ==>
                && next < |wanted| && sum == received + used <= Missing(wanted, b.offsets)
                && k == pos + 1 + used && OnTrack(manifest, b, tokens, k, next + 1, sum, State())
                && Climbs(reports, base, base + used)
      ensures ended != None ==>
                && ended.value in {Refusal, Interrupted, Failed, Killed}
                && ReceivedUpTo(manifest, b, tokens, k, State(), ended.value != Killed && ended.value != Failed)
                && !ReadToEnd(manifest, b, tokens, k)
                && (ended.value == Refusal ==> RefusedAt(manifest, b, tokens, k) && tokens[k].Head?)
                && (calm ==> Undisturbed(manifest, b, tokens, k, ended.value))
                && Climbs(reports, base, TotalSize(manifest))
    {
      TrackStops(manifest, b, tokens, pos, next, received, State());
      MissingPrefix(wanted, next, b.offsets) by { ExpectedMembers(manifest, b.offsets); }
      var id, offset, length := tokens[pos].id, tokens[pos].offset, tokens[pos].length;
      RefusesOtherHeader(manifest, b, tokens, pos, next, received, State());
      if next == |wanted| {
        return Some(Refusal), 0, [], pos, 0;
      }
      NextFits(manifest, b, tokens, pos, next, received, State());
      if id != wanted[next].id || offset != Off(offsets, id) || offset + length != wanted[next].size {
        return Some(Refusal), 0, [], pos, 0;
      }
      ended, used, reports, k := ReceiveNext(b, wanted[next], tokens, pos, next, received, base);
      sum := received + used;
    }

    /** Publishes the files and closes the transfer. */
    method FinishReceive() returns (outcome: Outcome)
      requires ValidEntries(manifest) && AllRecorded(manifest, State()) && !completed
      modifies this
      ensures outcome in {Completed, Rejected, IoFailed, Killed}
      ensures outcome == Rejected ==> State() == old(State()) && !Publishable(manifest, State())
      ensures Relocated(manifest, old(State()), State())
      ensures completed <==> outcome == Completed
      ensures outcome == Completed ==> AllPublished(manifest, State())
      ensures calm ==> outcome in {Completed, Rejected}
    {
      outcome := PublishReceivedFiles();
      if outcome != Completed { return; }
      var fate := Next();
      if fate == Kills { return Killed; }
      if fate == Fails { return IoFailed; }
      FinishedAt(manifest, offsets);
      CompleteReceiveTransfer();
    }

    /** The offset one entry resumes from, cutting its partial if it is longer. */
    method ReconcileEntry(e: Entry) returns (offset: nat)
      modifies this`files
      ensures offset == SafeOffset(e, old(State()))
      ensures || files == old(files)
              || (e.partial in old(files) && offset <= |old(files)[e.partial]|
                  && files == old(files)[e.partial := old(files)[e.partial][..offset]])
      ensures Trimmed(e, old(State()), files)
    {
      if Complete(files, e.destination, e.size) {
        return e.size;
      }
      if e.id in published {
        return 0;
      }
      var actual := Min(if e.partial in files then |files[e.partial]| else 0, e.size);
      var safe := Min(Min(Off(offsets, e.id), e.size), actual);
      if actual > safe {
        files := files[e.partial := SetLen(files[e.partial], safe)];
      }
      return safe;
    }

    /** Start-up after a crash: every unfinished entry falls back to the bytes that are both
        recorded and on disk, and its partial is cut to that length. The files change one by
        one; the table changes in a single commit at the end. */
    method ReconcileInterruptedTransfers() returns (committed: bool)
      requires ValidEntries(manifest) && !completed
      modifies this`files, this`offsets
      ensures Cut(manifest, old(State()), State().files)
      ensures if committed then offsets == Reconciled(manifest, old(State())) else offsets == old(offsets)
      ensures committed ==> TrimmedUpTo(manifest, |manifest|, old(State()), files)
      ensures calm ==> committed
    {
      var i: nat, safe: Offsets := 0, offsets;
      ghost var before := State();
      assert manifest[..0] == [];
      while i < |manifest|
        invariant offsets == before.offsets && published == before.published
        invariant Reconciling(manifest, i, before, files, safe) && TrimmedUpTo(manifest, i, before, files)
      {
        var fate := Next();
        if fate != GoesOn { return false; }
        var e, after := manifest[i], i + 1;
        if e.kind.File? {
          ghost var mid := files;
          var offset := ReconcileEntry(e);
          ReconcilingFile(manifest, i, after, before, mid, files, safe, offset);
          safe := safe[e.id := offset];
        } else {
          ReconcilingDirectory(manifest, i, after, before, files, safe);
        }
        i := after;
      }
      assert manifest[..|manifest|] == manifest;
      offsets := safe;
      return true;
    }

    /** The other arms: the final frame must count what was received, and nothing else may
        stand between two entries. */
    method ReceiveLast(ghost b: Disk, wanted: seq<Entry>, expectedBytes: int, tokens: seq<Token>, pos: nat, next: nat,
                       received: nat)
      returns (ended: Option<Outcome>)
      requires ValidEntries(manifest) && OffsetsFit(manifest, b.offsets)
      requires OnTrack(manifest, b, tokens, pos, next, received, State())
      requires wanted == Wanted(manifest, b) && expectedBytes == Missing(wanted, b.offsets)
      requires pos < |tokens| && !tokens[pos].Head?
      ensures ended == None ==>
                && ReceivedUpTo(manifest, b, tokens, pos + 1, State(), true) && ReadToEnd(manifest, b, tokens, pos + 1)
                && AllRecorded(manifest, State())
      ensures ended != None ==>
                && ended.value in {Refusal, SourceChanged} && RefusedAt(manifest, b, tokens, pos)
                && (ended.value == SourceChanged <==> tokens[pos].Changed?)
    {
      RefusesUnfit(manifest, b, tokens, pos, next, received, State());
      match tokens[pos]
      case End(count, totalSent) =>
        if count != |wanted| || totalSent != expectedBytes || next != |wanted| || received != expectedBytes {
          return Some(Refusal);
        }
        EndAccepted(manifest, b, tokens, pos, received, State());
        return None;
      case Changed =>
        return Some(SourceChanged);
      case _ =>
        return Some(Refusal);
    }

    /** The frame loop, up to an accepted final frame (`None`) or whatever stops it first. */
    method ReceiveFrames(tokens: seq<Token>)
      returns (ended: Option<Outcome>, reports: seq<nat>, ghost k: nat)
      requires ValidEntries(manifest) && OffsetsFit(manifest, offsets)
      modifies this`files, this`offsets
      ensures ReceivedUpTo(manifest, old(State()), tokens, k, State(),
                           ended == None || (ended.value != Killed && ended.value != Failed))
      ensures ended == None ==> ReadToEnd(manifest, old(State()), tokens, k) && AllRecorded(manifest, State())
      ensures ended != None ==>
                && !ReadToEnd(manifest, old(State()), tokens, k) && ended.value in {Interrupted, Failed, Refusal, SourceChanged, Killed}
                && (ended.value == Refusal || ended.value == SourceChanged ==>
                      RefusedAt(manifest, old(State()), tokens, k) && (ended.value == SourceChanged <==> tokens[k].Changed?))
                && (calm ==> Undisturbed(manifest, old(State()), tokens, k, ended.value))
      ensures Climbs(reports, Resumed(manifest, old(offsets)), TotalSize(manifest))
    {
      ghost var b := State();
      var wanted := Expected(manifest, offsets);
      var expectedBytes := Missing(wanted, offsets);
      MissingBound(manifest, offsets);
      var initial: nat := SaturatingSub(TotalSize(manifest), expectedBytes);
      var next: nat, received: nat, pos: nat := 0, 0, 0;
      reports := [];
      TrackStarts(manifest, b, tokens);
      while true
        invariant OnTrack(manifest, b, tokens, pos, next, received, State())
        invariant Climbs(reports, initial, initial + received) && received <= expectedBytes
        decreases |tokens| - pos
      {
        TrackStops(manifest, b, tokens, pos, next, received, State());
        var fate := Next();
        if fate != GoesOn || pos == |tokens| {
          return Some(if fate == Kills then Killed else Interrupted), reports, pos;
        }
        if !tokens[pos].Head? {
          ended := ReceiveLast(b, wanted, expectedBytes, tokens, pos, next, received);
          return ended, reports, if ended == None then pos + 1 else pos;
        }
        var used, more;
        ghost var sum;
        ended, used, more, k, sum := ReceiveHeader(b, wanted, tokens, pos, next, received, initial + received);
        ClimbsTogether(reports, more, initial, initial + received, if ended == None then initial + received + used else TotalSize(manifest));
        reports := reports + more;
        if ended != None { return; }
        pos, next, received := pos + 1 + used, next + 1, received + used;
        assert pos == k && received == sum && OnTrack(manifest, b, tokens, pos, next, received, State());
      }
    }

    /** One data connection over the frames and bytes that arrive before it is cut. `k`
        counts the tokens whose effect is on disk, and `mid` is the disk when the stream
        was done with, before publishing. */
    method ReceiveTransfer(tokens: seq<Token>)
      returns (outcome: Outcome, reports: seq<nat>, ghost k: nat, ghost mid: Disk)
      requires ValidEntries(manifest) && OffsetsFit(manifest, offsets) && !completed
      modifies this
      ensures ConnectionResult(manifest, old(State()), tokens, k, mid, State(), outcome)
      ensures calm ==> Undisturbed(manifest, old(State()), tokens, k, outcome)
      ensures completed <==> outcome == Completed
      ensures outcome == Completed ==> forall e :: e in manifest && e.kind.File? ==> Fills(e, files)
      ensures outcome == Completed ==> reports != [] && reports[|reports| - 1] == TotalSize(manifest)
      ensures Climbs(if outcome == Completed then reports[..|reports| - 1] else reports, Resumed(manifest, old(offsets)), TotalSize(manifest))
    {
      var ended;
      ended, reports, k := ReceiveFrames(tokens);
      mid := State();
      if ended != None {
        return ended.value, reports, k, mid;
      }
      outcome := FinishReceive();
      if outcome == Completed {
        reports := reports + [TotalSize(manifest)];
      }
    }
  }

  /** The bytes already on disk when a connection starts, as progress reports count them. */
  function Resumed(m: seq<Entry>, offsets: Offsets): nat {
    SaturatingSub(TotalSize(m), Missing(Expected(m, offsets), offsets))
  }

  lemma TrackStarts(m: seq<Entry>, b: Disk, tokens: seq<Token>)
    ensures OnTrack(m, b, tokens, 0, 0, 0, b)
  {
    assert tokens[..0] == [] && Wanted(m, b)[..0] == [];
  }

  lemma NextFits(m: seq<Entry>, b: Disk, tokens: seq<Token>, pos: nat, next: nat, received: int, a: Disk)
    requires DistinctEntries(m) && OnTrack(m, b, tokens, pos, next, received, a) && next < |Wanted(m, b)|
    ensures var wanted := Wanted(m, b);
            var e := wanted[next];
            && Off(a.offsets, e.id) == Off(b.offsets, e.id) < e.size
            && received + e.size - Off(b.offsets, e.id) <= Missing(wanted, b.offsets)
  {
    var wanted := Wanted(m, b);
    ExpectedMembers(m, b.offsets);
    assert wanted[next] in wanted;
    MissingNext(wanted, next, b.offsets);
    MissingPrefix(wanted, next + 1, b.offsets);
  }

  lemma ClimbsWithin(reports: seq<nat>, lo: nat, mid: nat, hi: nat)
    requires Climbs(reports, lo, mid) && mid <= hi
    ensures Climbs(reports, lo, hi)
  {
  }

  lemma ClimbsTogether(first: seq<nat>, second: seq<nat>, lo: nat, mid: nat, hi: nat)
    requires Climbs(first, lo, mid) && Climbs(second, mid, hi)
    ensures Climbs(first + second, lo, hi)
  {
  }

  /** The final frame is accepted only when every file of the transfer is recorded in full. */
  lemma EndAccepted(m: seq<Entry>, b: Disk, tokens: seq<Token>, pos: nat, received: int, a: Disk)
    requires OffsetsFit(m, b.offsets) && pos < |tokens|
    requires OnTrack(m, b, tokens, pos, |Wanted(m, b)|, received, a)
    requires tokens[pos] == End(|Wanted(m, b)|, Missing(Wanted(m, b), b.offsets))
    ensures ReceivedUpTo(m, b, tokens, pos + 1, a, true) && ReadToEnd(m, b, tokens, pos + 1)
    ensures AllRecorded(m, a)
  {
    var wanted := Wanted(m, b);
    FeedNext(wanted, b, tokens, pos);
    assert wanted[..|wanted|] == wanted;
    TrackStops(m, b, tokens, pos, |wanted|, received, a);
    ExpectedMembers(m, b.offsets);
    forall i | 0 <= i < |m| && m[i].kind.File?
      ensures Off(a.offsets, m[i].id) == m[i].size
    {
      assert m[i] in m;
    }
  }

  /** Between two frames the automaton refuses everything but a header and the right final frame. */
  lemma RefusesUnfit(m: seq<Entry>, b: Disk, tokens: seq<Token>, pos: nat, next: nat, received: int, a: Disk)
    requires OnTrack(m, b, tokens, pos, next, received, a) && pos < |tokens| && !tokens[pos].Head?
    ensures var wanted := Wanted(m, b);
            var bytes := Missing(wanted, b.offsets);
            RefusedAt(m, b, tokens, pos) || (tokens[pos] == End(|wanted|, bytes) && next == |wanted| && received == bytes)
  {
  }

  /** Nor is any header accepted but that of the next entry. */
  lemma RefusesOtherHeader(m: seq<Entry>, b: Disk, tokens: seq<Token>, pos: nat, next: nat, received: int, a: Disk)
    requires OnTrack(m, b, tokens, pos, next, received, a) && pos < |tokens| && tokens[pos].Head?
    ensures var wanted := Wanted(m, b);
            || RefusedAt(m, b, tokens, pos)
            || (next < |wanted| && tokens[pos].id == wanted[next].id && tokens[pos].offset == Off(b.offsets, wanted[next].id)
                && tokens[pos].offset + tokens[pos].length == wanted[next].size)
  {
  }

  /** Stopping between two frames loses nothing. */
  lemma TrackStops(m: seq<Entry>, b: Disk, tokens: seq<Token>, pos: nat, next: nat, received: int, a: Disk)
    requires OnTrack(m, b, tokens, pos, next, received, a)
    ensures ReceivedUpTo(m, b, tokens, pos, a, true) && !ReadToEnd(m, b, tokens, pos)
  {
    var wanted := Wanted(m, b);
    ExpectedMembers(m, b.offsets);
    forall j | 0 <= j < |wanted|
      ensures Off(b.offsets, wanted[j].id) <= Held(wanted, b.offsets, Between(next), j)
    {
      assert wanted[j] in wanted;
    }
  }

  /** The disk after a header and `used` of its bytes, however much of it was recorded. */
  lemma EntryLanded(m: seq<Entry>, b: Disk, tokens: seq<Token>, pos: nat, next: nat, received: int, used: nat,
                    start: Disk, a: Disk)
    requires ValidEntries(m) && OnTrack(m, b, tokens, pos, next, received, start) && next < |Wanted(m, b)|
    requires pos + 1 + used <= |tokens| && AllRaw(tokens[pos + 1..pos + 1 + used])
    requires var e := Wanted(m, b)[next];
             var off := Off(b.offsets, e.id);
             && off < e.size && used <= e.size - off && tokens[pos] == Head(e.id, off, e.size - off)
             && e.id !in b.published && e.partial in start.files
             && a.files == start.files[e.partial := SetLen(start.files[e.partial], off) + BytesOf(tokens[pos + 1..pos + 1 + used])]
             && a.published == b.published && OnlyAdvanced(e.id, used, start.offsets, a.offsets)
    ensures var e := Wanted(m, b)[next];
            var clean := Off(a.offsets, e.id) == Off(b.offsets, e.id) + used;
            && (clean && used == e.size - Off(b.offsets, e.id) ==>
                  OnTrack(m, b, tokens, pos + 1 + used, next + 1, received + used, a))
            && ReceivedUpTo(m, b, tokens, pos + 1 + used, a, clean)
            && !ReadToEnd(m, b, tokens, pos + 1 + used)
  {
    var wanted := Wanted(m, b);
    FeedEntry(wanted, b, tokens, pos, pos + 1 + used, Rx(start.files, Between(next), received), next, wanted[next].size - Off(b.offsets, wanted[next].id));
    RecordEntry(m, b, next, used, start.offsets, a.offsets);
    MissingNext(wanted, next, b.offsets);
  }

  /** Where the bytes of an unfinished entry stop: the tokens are over, or the next one is not
      a byte and is refused. An entry without its partial file is refused at its header. */
  lemma EntryCutShort(m: seq<Entry>, b: Disk, tokens: seq<Token>, pos: nat, next: nat, received: int, used: nat,
                      start: Disk)
    requires ValidEntries(m) && OnTrack(m, b, tokens, pos, next, received, start) && next < |Wanted(m, b)|
    requires pos + 1 + used <= |tokens| && AllRaw(tokens[pos + 1..pos + 1 + used])
    requires var e := Wanted(m, b)[next];
             var off := Off(b.offsets, e.id);
             && off < e.size && used <= e.size - off && tokens[pos] == Head(e.id, off, e.size - off)
             && e.id !in b.published && e.partial in start.files
    ensures var e := Wanted(m, b)[next];
            used < e.size - Off(b.offsets, e.id) && StreamEnds(tokens, pos + 1 + used) ==>
              && (pos + 1 + used == |tokens| || RefusedAt(m, b, tokens, pos + 1 + used))
              && !Announced(m, b, tokens, pos + 1 + used)
  {
    var wanted := Wanted(m, b);
    FeedEntry(wanted, b, tokens, pos, pos + 1 + used, Rx(start.files, Between(next), received), next, wanted[next].size - Off(b.offsets, wanted[next].id));
  }

  /** A matching header opens the partial file and cuts it to the recorded offset. */
  lemma FeedHeader(wanted: seq<Entry>, d: Disk, tokens: seq<Token>, pos: nat, rx: Rx, n: nat, length: nat)
    requires pos < |tokens|
    requires rx == FeedAll(wanted, d, tokens[..pos]) && rx.phase == Between(n) && n < |wanted|
    requires tokens[pos] == Head(wanted[n].id, Off(d.offsets, wanted[n].id), length)
    requires Off(d.offsets, wanted[n].id) + length == wanted[n].size && 0 < length
    requires wanted[n].id !in d.published && wanted[n].partial in rx.files
    ensures FeedAll(wanted, d, tokens[..pos + 1])
         == Rx(rx.files[wanted[n].partial := SetLen(rx.files[wanted[n].partial], Off(d.offsets, wanted[n].id))], Inside(n, length), rx.received)
  {
    FeedNext(wanted, d, tokens, pos);
  }

  lemma Overwritten(files: map<Path, Bytes>, p: Path, content: Bytes, data: Bytes)
    ensures files[p := content][p := files[p := content][p] + data] == files[p := content + data]
  {
  }

  /** A header and the bytes up to `end`, as the automaton reads them. */
  lemma FeedEntry(wanted: seq<Entry>, d: Disk, tokens: seq<Token>, pos: nat, end: nat, rx: Rx, n: nat, length: nat)
    requires pos < end <= |tokens| && AllRaw(tokens[pos + 1..end])
    requires rx == FeedAll(wanted, d, tokens[..pos]) && rx.phase == Between(n) && n < |wanted|
    requires tokens[pos] == Head(wanted[n].id, Off(d.offsets, wanted[n].id), length)
    requires Off(d.offsets, wanted[n].id) + length == wanted[n].size && 0 < length && end - pos - 1 <= length
    requires wanted[n].id !in d.published && wanted[n].partial in rx.files
    ensures var content := SetLen(rx.files[wanted[n].partial], Off(d.offsets, wanted[n].id));
            var used := end - pos - 1;
            var now := FeedAll(wanted, d, tokens[..end]);
            && now.files == rx.files[wanted[n].partial := content + BytesOf(tokens[pos + 1..end])]
            && now.phase == (if used < length then Inside(n, length - used) else Between(n + 1))
            && now.received == (if used < length then rx.received else rx.received + length)
  {
    FeedHeader(wanted, d, tokens, pos, rx, n, length);
    FeedRaws(wanted, d, tokens, pos + 1, end, FeedAll(wanted, d, tokens[..pos + 1]));
    Overwritten(rx.files, wanted[n].partial, SetLen(rx.files[wanted[n].partial], Off(d.offsets, wanted[n].id)),
                BytesOf(tokens[pos + 1..end]));
  }

  /** Recording `used` more bytes of entry `next` keeps the table within what is held. */
  lemma RecordEntry(m: seq<Entry>, b: Disk, next: nat, used: nat, mid: Offsets, a: Offsets)
    requires DistinctEntries(m) && next < |Wanted(m, b)| && RecordedExactly(m, b, Between(next), mid)
    requires used <= Wanted(m, b)[next].size - Off(b.offsets, Wanted(m, b)[next].id)
    requires OnlyAdvanced(Wanted(m, b)[next].id, used, mid, a)
    ensures var e := Wanted(m, b)[next];
            var left := e.size - Off(b.offsets, e.id) - used;
            var phase := if left > 0 then Inside(next, left) else Between(next + 1);
            && Recorded(m, b, phase, a)
            && (Off(a, e.id) == Off(b.offsets, e.id) + used ==> RecordedExactly(m, b, phase, a))
  {
    var wanted := Wanted(m, b);
    var e := wanted[next];
    OthersAreOther(m, b, next);
    var left := e.size - Off(b.offsets, e.id) - used;
    var phase := if left > 0 then Inside(next, left) else Between(next + 1);
    forall j | 0 <= j < |wanted|
      ensures Off(b.offsets, wanted[j].id) <= Off(a, wanted[j].id) <= Held(wanted, b.offsets, phase, j) <= Off(a, wanted[j].id) + MAX_LOSS
      ensures j != next ==> Off(a, wanted[j].id) == Held(wanted, b.offsets, phase, j)
    {
    }
  }

  /** No other entry has the id of the wanted entry `next`. */
  lemma OthersAreOther(m: seq<Entry>, b: Disk, next: nat)
    requires DistinctEntries(m) && next < |Wanted(m, b)|
    ensures var wanted := Wanted(m, b);
            && (forall j :: 0 <= j < |wanted| ==> Off(b.offsets, wanted[j].id) < wanted[j].size)
            && (forall j :: 0 <= j < |wanted| && j != next ==> wanted[j].id != wanted[next].id)
            && (forall e :: e in m && e !in wanted ==> e.id != wanted[next].id)
  {
    ExpectedDistinct(m, b.offsets);
    ExpectedMembers(m, b.offsets);
    var wanted := Wanted(m, b);
    forall j | 0 <= j < |wanted|
      ensures Off(b.offsets, wanted[j].id) < wanted[j].size
    {
      assert wanted[j] in wanted;
    }
    forall o | o in m && o !in wanted
      ensures o.id != wanted[next].id
    {
      assert wanted[next] in wanted;
      var i, j :| 0 <= i < |m| && 0 <= j < |m| && m[i] == o && m[j] == wanted[next];
    }
  }

  /** Writing `written` more bytes of what was read extends the consumed part of the stream. */
  lemma Grown(tokens: seq<Token>, from: nat, count: nat, read: nat, written: nat, content: Bytes)
    requires from + read <= |tokens| && count + written <= read && AllRaw(tokens[from..from + read])
    ensures AllRaw(tokens[from..from + count]) && AllRaw(tokens[from..from + count + written])
    ensures AllRaw(tokens[from..from + read][count..count + written])
    ensures (content + BytesOf(tokens[from..from + count])) + BytesOf(tokens[from..from + read][count..count + written])
         == content + BytesOf(tokens[from..from + count + written])
  {
    var all := tokens[from..from + read];
    assert tokens[from..from + count] == all[..count];
    assert tokens[from..from + count + written] == all[..count + written];
    assert BytesOf(all[..count + written]) == BytesOf(all[..count]) + BytesOf(all[count..count + written]);
  }

  lemma AppendRaw(tokens: seq<Token>, pos: nat, used: nat, count: nat, sum: nat, content: Bytes)
    requires sum == used + count && pos + sum <= |tokens|
    requires AllRaw(tokens[pos..pos + used]) && AllRaw(tokens[pos + used..pos + used + count])
    ensures AllRaw(tokens[pos..pos + sum])
    ensures (content + BytesOf(tokens[pos..pos + used])) + BytesOf(tokens[pos + used..pos + used + count])
         == content + BytesOf(tokens[pos..pos + sum])
  {
    var first, second := tokens[pos..pos + used], tokens[pos + used..pos + used + count];
    assert tokens[pos..pos + sum] == first + second;
    assert BytesOf(first + second) == BytesOf(first) + BytesOf(second);
  }

  lemma ClimbsOn(reports: seq<nat>, lo: nat, mid: nat, hi: nat)
    requires Climbs(reports, lo, mid) && mid < hi
    ensures Climbs(reports + [hi], lo, hi)
  {
  }
}
