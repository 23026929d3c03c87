/** The sending side of a data connection. */
module SendTransfer {
  import opened Basics
  import opened Transfer
  import ReceiveTransfer

  /** The file behind an entry's `source_ref` at some moment. */
  datatype SourceFile = SourceFile(data: Bytes, modified: int)

  type Sources = map<EntryId, SourceFile>

  /** `ensure_source_unchanged`: the file exists with the size and time of the offer. */
  predicate Unchanged(e: Entry, sources: Sources) {
    e.id in sources && |sources[e.id].data| == e.size && sources[e.id].modified == e.modified
  }

  ghost predicate AllUnchanged(m: seq<Entry>, sources: Sources) {
    forall e :: e in m && e.kind.File? ==> Unchanged(e, sources)
  }

  /** A file with the size and time of the offer still has the bytes of the offer. */
  ghost predicate Faithful(m: seq<Entry>, sources: Sources, src: map<EntryId, Bytes>) {
    forall e :: e in m && e.kind.File? ==>
      e.id in src && |src[e.id]| == e.size && (Unchanged(e, sources) ==> sources[e.id].data == src[e.id])
  }

  datatype SendOutcome = Sent | SourceLost | Stopped

  function Recorded(m: seq<Entry>, offsets: Offsets): nat {
    if m == [] then 0 else (if m[0].kind.File? then Off(offsets, m[0].id) else 0) + Recorded(m[1..], offsets)
  }

  lemma FaithfulIsSendable(m: seq<Entry>, offsets: Offsets, sources: Sources, src: map<EntryId, Bytes>)
    requires OffsetsFit(m, offsets) && Faithful(m, sources, src)
    ensures Sendable(Unsent(m, offsets), offsets, src)
  {
    UnsentMembers(m, offsets);
  }

  lemma {:induction false} RecordedAndMissing(m: seq<Entry>, offsets: Offsets)
    requires OffsetsFit(m, offsets)
    ensures Recorded(m, offsets) + Missing(Unsent(m, offsets), offsets) == TotalSize(m)
    ensures 0 <= Missing(Unsent(m, offsets), offsets)
  {
    if m != [] {
      assert forall e :: e in m[1..] ==> e in m;
      assert m[0] in m;
      RecordedAndMissing(m[1..], offsets);
      var rest := Unsent(m[1..], offsets);
      if m[0].kind.File? && Off(offsets, m[0].id) != m[0].size {
        assert Unsent(m, offsets) == [m[0]] + rest && Unsent(m, offsets)[1..] == rest;
      } else {
        assert Unsent(m, offsets) == rest;
      }
    }
  }

  /** Whether something from outside stops the sender before its next effect: a request to stop,
      or a source or a stream that fails. `calm` says that nothing does. */
  method Stops(calm: bool) returns (stop: bool)
    ensures calm ==> !stop
  {
    stop := *;
    if calm { stop := false; }
  }

  /** Writes the missing bytes of one entry, buffer by buffer. */
  method SendEntry(e: Entry, data: Bytes, offset: nat, base: nat, calm: bool)
    returns (out: seq<Token>, done: bool, sent: nat, reports: seq<nat>)
    requires |data| == e.size && offset <= e.size && base + e.size - offset <= I64_MAX
    ensures out <= Raws(data[offset..]) && sent == |out|
    ensures done ==> out == Raws(data[offset..])
    ensures calm ==> done
    ensures ReceiveTransfer.Climbs(reports, base, base + sent)
  {
    var remaining := e.size - offset;
    out, sent, reports := [], 0, [];
    while remaining > 0
      invariant 0 <= remaining <= e.size - offset && sent == e.size - offset - remaining
      invariant out == Raws(data[offset..])[..sent]
      invariant ReceiveTransfer.Climbs(reports, base, base + sent)
    {
      var stop := Stops(calm);
      if stop { return out, false, sent, reports; }
      var chunk := Min(remaining, ReceiveTransfer.DATA_BUFFER_BYTES);
      out := out + Raws(data[offset + sent..offset + sent + chunk]);
      remaining, sent := remaining - chunk, sent + chunk;
      var report: bool := *;
      if report {
        reports := reports + [SaturatingAdd(base, sent)];
      }
    }
    return out, true, sent, reports;
  }

  /** The second check of every source, after the last byte. */
  method SourcesKept(m: seq<Entry>, later: Sources) returns (kept: bool)
    ensures kept <==> AllUnchanged(m, later)
    ensures kept <==> forall j :: 0 <= j < |m| && m[j].kind.File? ==>
                        m[j].id in later && |later[m[j].id].data| == m[j].size && later[m[j].id].modified == m[j].modified
  {
    var i := 0;
    while i < |m|
      invariant i <= |m|
      invariant forall j :: 0 <= j < i && m[j].kind.File? ==> Unchanged(m[j], later)
    {
      if m[i].kind.File? && !Unchanged(m[i], later) { return false; }
      i := i + 1;
    }
    return true;
  }

  /** The header of row `i` and its missing bytes. */
  method SendNext(m: seq<Entry>, offsets: Offsets, data: Bytes, i: nat, after: nat, out: seq<Token>,
                  sentEntries: nat, totalSent: nat, base: nat, calm: bool, ghost src: map<EntryId, Bytes>)
    returns (done: bool, next: seq<Token>, count: nat, sum: nat, reports: seq<nat>)
    requires after == i + 1 <= |m| && Sendable(Unsent(m, offsets), offsets, src)
             && OnTrack(m, offsets, src, i, out, sentEntries, totalSent)
    requires m[i].kind.File? && Off(offsets, m[i].id) != m[i].size && m[i].id in src && data == src[m[i].id]
    requires base + Missing(Unsent(m, offsets), offsets) - totalSent <= I64_MAX
    ensures totalSent <= sum <= Missing(Unsent(m, offsets), offsets)
    ensures next <= SentBody(m, offsets, src)
    ensures done ==> OnTrack(m, offsets, src, after, next, count, sum)
    ensures calm ==> done
    ensures ReceiveTransfer.Climbs(reports, base, base + sum - totalSent)
  {
    Within(m, offsets, src, i, out, sentEntries, totalSent);
    var e, offset := m[i], Off(offsets, m[i].id);
    var stop := Stops(calm);
    if stop {
      WrittenSoFar(m, offsets, src, i, out, sentEntries, totalSent);
      return false, out, sentEntries, totalSent, [];
    }
    var bytes, sent;
    bytes, done, sent, reports := SendEntry(e, data, offset, base, calm);
    next := out + [Head(e.id, offset, e.size - offset)] + bytes;
    count, sum := sentEntries + 1, totalSent + sent;
    EntrySent(m, offsets, src, i, after, out, sentEntries, totalSent, bytes, next, count, sum);
  }

  lemma WrittenSoFar(m: seq<Entry>, offsets: Offsets, src: map<EntryId, Bytes>, i: nat, out: seq<Token>, sentEntries: nat,
                     totalSent: nat)
    requires i <= |m| && Sendable(Unsent(m, offsets), offsets, src)
             && OnTrack(m, offsets, src, i, out, sentEntries, totalSent)
    ensures out <= SentBody(m, offsets, src)
  {
  }

  ghost predicate KeptUpTo(m: seq<Entry>, i: nat, sources: Sources) {
    i <= |m| && forall j :: 0 <= j < i && m[j].kind.File? ==> Unchanged(m[j], sources)
  }

  lemma KeptNext(m: seq<Entry>, i: nat, after: nat, sources: Sources)
    requires after == i + 1 <= |m| && KeptUpTo(m, i, sources) && (m[i].kind.File? ==> Unchanged(m[i], sources))
    ensures KeptUpTo(m, after, sources)
  {
  }

  lemma TrackStarts(m: seq<Entry>, offsets: Offsets, src: map<EntryId, Bytes>)
    requires Sendable(Unsent(m, offsets), offsets, src) && OffsetsFit(m, offsets)
    ensures OnTrack(m, offsets, src, 0, [], 0, 0)
  {
    RecordedAndMissing(m, offsets);
    assert m[0..] == m;
  }

  /** The index of the first file whose source has changed. */
  function FirstChanged(m: seq<Entry>, sources: Sources): (i: nat)
    ensures i <= |m|
  {
    if m == [] || (m[0].kind.File? && !Unchanged(m[0], sources)) then 0 else 1 + FirstChanged(m[1..], sources)
  }

  lemma {:induction false} FirstChangedAt(m: seq<Entry>, i: nat, sources: Sources)
    requires KeptUpTo(m, i, sources) && i < |m| && m[i].kind.File? && !Unchanged(m[i], sources)
    ensures FirstChanged(m, sources) == i && !AllUnchanged(m, sources)
  {
    assert m[i] in m;
    if i > 0 {
      assert forall j :: 0 <= j < i - 1 ==> m[1..][j] == m[j + 1];
      FirstChangedAt(m[1..], i - 1, sources);
    }
  }

  /** One row of the entry loop, whose source is unchanged. */
  method SendRow(m: seq<Entry>, offsets: Offsets, now: Sources, i: nat, after: nat, out: seq<Token>,
                 sentEntries: nat, totalSent: nat, base: nat, calm: bool, ghost src: map<EntryId, Bytes>)
    returns (done: bool, next: seq<Token>, count: nat, sum: nat, reports: seq<nat>)
    requires after == i + 1 <= |m| && Sendable(Unsent(m, offsets), offsets, src)
             && OnTrack(m, offsets, src, i, out, sentEntries, totalSent)
    requires Faithful(m, now, src) && (m[i].kind.File? ==> Unchanged(m[i], now))
    requires base + Missing(Unsent(m, offsets), offsets) - totalSent <= I64_MAX
    ensures totalSent <= sum <= Missing(Unsent(m, offsets), offsets) && next <= SentBody(m, offsets, src)
    ensures done ==> OnTrack(m, offsets, src, after, next, count, sum)
    ensures calm ==> done
    ensures ReceiveTransfer.Climbs(reports, base, base + sum - totalSent)
  {
    var e := m[i];
    assert e in m;
    if e.kind.File? && Off(offsets, e.id) != e.size {
      done, next, count, sum, reports := SendNext(m, offsets, now[e.id].data, i, after, out, sentEntries, totalSent, base, calm, src);
    } else {
      EntrySkipped(m, offsets, src, i, after, out, sentEntries, totalSent);
      return true, out, sentEntries, totalSent, [];
    }
  }

  /** The entry loop: headers and bytes of every entry with unsent bytes. */
  method SendEntries(m: seq<Entry>, offsets: Offsets, now: Sources, calm: bool, ghost src: map<EntryId, Bytes>)
    returns (outcome: SendOutcome, out: seq<Token>, sentEntries: nat, totalSent: nat, reports: seq<nat>)
    requires TotalSize(m) <= I64_MAX && OffsetsFit(m, offsets) && Faithful(m, now, src)
    requires Sendable(Unsent(m, offsets), offsets, src)
    ensures out <= SentBody(m, offsets, src)
    ensures outcome == Sent ==> AllUnchanged(m, now) && OnTrack(m, offsets, src, |m|, out, sentEntries, totalSent)
    ensures outcome == SourceLost ==>
              !AllUnchanged(m, now) && OnTrack(m, offsets, src, FirstChanged(m, now), out, sentEntries, totalSent)
    ensures calm ==> outcome != Stopped
    ensures ReceiveTransfer.Climbs(reports, Recorded(m, offsets), TotalSize(m))
  {
    RecordedAndMissing(m, offsets);
    var initial := Recorded(m, offsets);
    out, sentEntries, totalSent, reports := [], 0, 0, [];
    var i: nat, progress := 0, initial;
    TrackStarts(m, offsets, src);
    while i < |m|
      invariant i <= |m| && OnTrack(m, offsets, src, i, out, sentEntries, totalSent)
      invariant progress == initial + totalSent && ReceiveTransfer.Climbs(reports, initial, progress)
      invariant KeptUpTo(m, i, now)
    {
      var e, after := m[i], i + 1;
      if e.kind.File? && !Unchanged(e, now) {
        FirstChangedAt(m, i, now);
        ReceiveTransfer.ClimbsWithin(reports, initial, progress, TotalSize(m));
        return SourceLost, out, sentEntries, totalSent, reports;
      }
      KeptNext(m, i, after, now);
      var done, sum, more;
      done, out, sentEntries, sum, more := SendRow(m, offsets, now, i, after, out, sentEntries, totalSent, progress, calm, src);
      var reached := initial + sum;
      ReceiveTransfer.ClimbsTogether(reports, more, initial, progress, reached);
      i, totalSent, progress, reports := after, sum, reached, reports + more;
      if !done {
        ReceiveTransfer.ClimbsWithin(reports, initial, progress, TotalSize(m));
        return Stopped, out, sentEntries, totalSent, reports;
      }
    }
    ReceiveTransfer.ClimbsWithin(reports, initial, progress, TotalSize(m));
    return Sent, out, sentEntries, totalSent, reports;
  }

  /** One connection as the sender sees it: `now` are the sources while it sends, `later` the
      sources when it checks them again. `out` is what reaches the stream. A calm sender stops
      for nothing but a changed source. */
  method SendTransfer(m: seq<Entry>, offsets: Offsets, now: Sources, later: Sources, calm: bool,
                      ghost src: map<EntryId, Bytes>)
    returns (outcome: SendOutcome, out: seq<Token>, totalSent: nat, reports: seq<nat>)
    requires TotalSize(m) <= I64_MAX && OffsetsFit(m, offsets) && Faithful(m, now, src)
    ensures Sendable(Unsent(m, offsets), offsets, src)
    ensures out <= SentBody(m, offsets, src) + [EndFrame(m, offsets)] || out == SentBody(m, offsets, src) + [Changed]
    ensures outcome == Sent ==>
              && AllUnchanged(m, now) && AllUnchanged(m, later)
              && out == SentBody(m, offsets, src) + [EndFrame(m, offsets)]
              && totalSent == TotalSize(m) - Recorded(m, offsets)
    ensures outcome == SourceLost ==> !AllUnchanged(m, now) || !AllUnchanged(m, later)
    ensures calm && AllUnchanged(m, now) && AllUnchanged(m, later) ==> outcome == Sent
    ensures calm && AllUnchanged(m, now) && !AllUnchanged(m, later) ==>
              outcome == SourceLost && out == SentBody(m, offsets, src) + [Changed]
    ensures calm && !AllUnchanged(m, now) ==>
              outcome == SourceLost && WrittenUpTo(m, offsets, src, FirstChanged(m, now), out)
    ensures ReceiveTransfer.Climbs(reports, Recorded(m, offsets), TotalSize(m))
  {
    FaithfulIsSendable(m, offsets, now, src);
    RecordedAndMissing(m, offsets);
    var sentEntries;
    outcome, out, sentEntries, totalSent, reports := SendEntries(m, offsets, now, calm, src);
    if outcome != Sent { return; }
    AllWritten(m, offsets, src, out, sentEntries, totalSent);
    var kept := SourcesKept(m, later);
    var stop := Stops(calm);
    if !kept {
      return SourceLost, if stop then out else out + [Changed], totalSent, reports;
    }
    if stop {
      return Stopped, out, totalSent, reports;
    }
    return Sent, out + [End(sentEntries, totalSent)], totalSent, reports;
  }

  /** Everything before row `i` was written, and nothing from it on. */
  ghost predicate WrittenUpTo(m: seq<Entry>, offsets: Offsets, src: map<EntryId, Bytes>, i: nat, out: seq<Token>)
    requires i <= |m| && Sendable(Unsent(m, offsets), offsets, src)
  {
    Sendable(Todo(m, offsets, i), offsets, src) && out + Body(Todo(m, offsets, i), offsets, src) == SentBody(m, offsets, src)
  }

  function Todo(m: seq<Entry>, offsets: Offsets, i: nat): seq<Entry>
    requires i <= |m|
  {
    Unsent(m[i..], offsets)
  }

  /** The sender has handled the first `i` rows: what it wrote, then what the rest will
      write, is the whole stream. */
  ghost predicate OnTrack(m: seq<Entry>, offsets: Offsets, src: map<EntryId, Bytes>, i: nat, out: seq<Token>,
                          sentEntries: nat, totalSent: nat)
    requires i <= |m| && Sendable(Unsent(m, offsets), offsets, src)
  {
    var todo := Todo(m, offsets, i);
    && OffsetsFit(m[i..], offsets) && Sendable(todo, offsets, src)
    && out + Body(todo, offsets, src) == SentBody(m, offsets, src)
    && sentEntries + |todo| == |Unsent(m, offsets)|
    && totalSent + Missing(todo, offsets) == Missing(Unsent(m, offsets), offsets)
    && totalSent <= Missing(Unsent(m, offsets), offsets)
  }

  lemma AllWritten(m: seq<Entry>, offsets: Offsets, src: map<EntryId, Bytes>, out: seq<Token>, sentEntries: nat,
                   totalSent: nat)
    requires Sendable(Unsent(m, offsets), offsets, src) && OnTrack(m, offsets, src, |m|, out, sentEntries, totalSent)
    ensures out == SentBody(m, offsets, src) && End(sentEntries, totalSent) == EndFrame(m, offsets)
  {
    assert m[|m|..] == [];
  }

  lemma Within(m: seq<Entry>, offsets: Offsets, src: map<EntryId, Bytes>, i: nat, out: seq<Token>, sentEntries: nat,
               totalSent: nat)
    requires i < |m| && Sendable(Unsent(m, offsets), offsets, src)
             && OnTrack(m, offsets, src, i, out, sentEntries, totalSent)
    requires m[i].kind.File? && Off(offsets, m[i].id) != m[i].size
    ensures m[i].id in src && |src[m[i].id]| == m[i].size && Off(offsets, m[i].id) <= m[i].size
    ensures totalSent + m[i].size - Off(offsets, m[i].id) <= Missing(Unsent(m, offsets), offsets)
  {
    UnsentStep(m, i, offsets);
    BodyStep(m[i], Unsent(m[i + 1..], offsets), offsets, src);
  }

  lemma EntrySkipped(m: seq<Entry>, offsets: Offsets, src: map<EntryId, Bytes>, i: nat, after: nat, out: seq<Token>,
                     sentEntries: nat, totalSent: nat)
    requires after == i + 1 <= |m|
    requires Sendable(Unsent(m, offsets), offsets, src) && OnTrack(m, offsets, src, i, out, sentEntries, totalSent)
    requires !m[i].kind.File? || Off(offsets, m[i].id) == m[i].size
    ensures OnTrack(m, offsets, src, after, out, sentEntries, totalSent)
  {
    UnsentStep(m, i, offsets);
  }

  /** `data` is what was written of the entry's missing bytes. */
  lemma EntrySent(m: seq<Entry>, offsets: Offsets, src: map<EntryId, Bytes>, i: nat, after: nat, out: seq<Token>,
                  sentEntries: nat, totalSent: nat,
                  data: seq<Token>, next: seq<Token>, count: nat, sum: nat)
    requires after == i + 1 <= |m| && count == sentEntries + 1 && sum == totalSent + |data|
    requires Sendable(Unsent(m, offsets), offsets, src) && OnTrack(m, offsets, src, i, out, sentEntries, totalSent)
    requires m[i].kind.File? && Off(offsets, m[i].id) != m[i].size
    requires m[i].id in src && Off(offsets, m[i].id) <= m[i].size == |src[m[i].id]|
    requires data <= Raws(src[m[i].id][Off(offsets, m[i].id)..])
    requires next == out + [Head(m[i].id, Off(offsets, m[i].id), m[i].size - Off(offsets, m[i].id))] + data
    ensures next <= SentBody(m, offsets, src) && sum <= Missing(Unsent(m, offsets), offsets)
    ensures data == Raws(src[m[i].id][Off(offsets, m[i].id)..]) ==> OnTrack(m, offsets, src, after, next, count, sum)
  {
    var e := m[i];
    var off, rest := Off(offsets, e.id), Todo(m, offsets, after);
    UnsentStep(m, i, offsets);
    BodyStep(e, rest, offsets, src);
    var head, raws, more, all := Head(e.id, off, e.size - off), Raws(src[e.id][off..]), Body(rest, offsets, src), SentBody(m, offsets, src);
    assert Todo(m, offsets, i) == [e] + rest;
    assert out + ([head] + raws + more) == all;
    PrefixInside(out, head, data, raws, more, all);
  }

  lemma UnsentStep(m: seq<Entry>, i: nat, offsets: Offsets)
    requires i < |m| && OffsetsFit(m[i..], offsets)
    ensures OffsetsFit(m[i + 1..], offsets) && m[i] in m[i..]
    ensures Unsent(m[i..], offsets)
         == (if m[i].kind.File? && Off(offsets, m[i].id) != m[i].size then [m[i]] + Unsent(m[i + 1..], offsets)
             else Unsent(m[i + 1..], offsets))
    ensures 0 <= Missing(Unsent(m[i + 1..], offsets), offsets) <= Missing(Unsent(m[i..], offsets), offsets)
  {
    assert m[i..][1..] == m[i + 1..] && m[i..][0] == m[i];
    assert forall e :: e in m[i + 1..] ==> e in m[i..];
    RecordedAndMissing(m[i + 1..], offsets);
    var rest := Unsent(m[i + 1..], offsets);
    assert ([m[i]] + rest)[1..] == rest;
  }

  lemma SendableTail(list: seq<Entry>, offsets: Offsets, src: map<EntryId, Bytes>)
    requires list != [] && Sendable(list, offsets, src)
    ensures Sendable(list[1..], offsets, src) && list[0] in list
  {
    forall o | o in list[1..]
      ensures o.id in src && |src[o.id]| == o.size && Off(offsets, o.id) <= o.size
    {
      assert o in list;
    }
  }

  lemma BodyStep(e: Entry, rest: seq<Entry>, offsets: Offsets, src: map<EntryId, Bytes>)
    requires Sendable([e] + rest, offsets, src)
    ensures Sendable(rest, offsets, src) && e.id in src && |src[e.id]| == e.size && Off(offsets, e.id) <= e.size
    ensures Body([e] + rest, offsets, src)
         == [Head(e.id, Off(offsets, e.id), e.size - Off(offsets, e.id))] + Raws(src[e.id][Off(offsets, e.id)..]) + Body(rest, offsets, src)
    ensures Missing([e] + rest, offsets) == e.size - Off(offsets, e.id) + Missing(rest, offsets)
  {
    var list := [e] + rest;
    assert list[1..] == rest;
    SendableTail(list, offsets, src);
    HeadAndRaws(list, e, rest, Off(offsets, e.id), e.size - Off(offsets, e.id), offsets, src);
  }

  lemma HeadAndRaws(list: seq<Entry>, e: Entry, rest: seq<Entry>, off: nat, length: nat, offsets: Offsets,
                    src: map<EntryId, Bytes>)
    requires list != [] && Sendable(list, offsets, src) && e == list[0] && rest == list[1..]
             && Sendable(rest, offsets, src)
    requires e.id in src && off == Off(offsets, e.id) && off + length == e.size == |src[e.id]|
    ensures Body(list, offsets, src) == [Head(e.id, off, length)] + Raws(src[e.id][off..]) + Body(rest, offsets, src)
  {
    var head, raws, more := [Head(e.id, off, length)], Raws(src[e.id][off..]), Body(rest, offsets, src);
    assert RawTail(list, length, offsets, src) == raws + more;
    assert head + (raws + more) == head + raws + more;
  }

  lemma PrefixInside(out: seq<Token>, head: Token, data: seq<Token>, whole: seq<Token>, rest: seq<Token>,
                     body: seq<Token>)
    requires data <= whole && out + ([head] + whole + rest) == body
    ensures out + [head] + data <= body
    ensures data == whole ==> (out + [head] + data) + rest == body
  {
    assert out + ([head] + whole + rest) == (out + [head] + data) + (whole[|data|..] + rest);
  }
}
