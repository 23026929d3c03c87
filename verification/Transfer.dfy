/** The entries of one transfer, the byte stream of a data connection, and what
    a receiver does with that stream one token at a time.

    The token automaton `Feed` is the simple form. `Receiver` (ReceiveTransfer.dfy)
    is the chunked, crash-prone form that refines it, and `SendTransfer`
    (SendTransfer.dfy) produces the stream.
 */
module Transfer {
  import opened Basics

  type EntryId = nat

  datatype EntryKind = File | Directory

  /** The columns of a `transfer_entries` row that never change once an offer is accepted. */
  datatype Entry = Entry(id: EntryId, kind: EntryKind, size: nat, modified: int, destination: Path, partial: Path)

  type Offsets = map<EntryId, nat>

  /** The `persisted_offset` column, whose default is 0. */
  function Off(offsets: Offsets, id: EntryId): nat {
    if id in offsets then offsets[id] else 0
  }

  /** What survives a process kill on the receiving side: the file system, the
      `persisted_offset` column, and the rows whose `partial_ref` is NULL because
      the file was published. */
  datatype Disk = Disk(files: map<Path, Bytes>, offsets: Offsets, published: set<EntryId>)

  // ---------------------------------------------------------------- manifests

  ghost predicate DistinctEntries(m: seq<Entry>) {
    && (forall i, j :: 0 <= i < j < |m| ==> m[i].id != m[j].id)
    && (forall i, j :: 0 <= i < j < |m| && m[i].kind.File? && m[j].kind.File? ==>
          m[i].partial != m[j].partial && m[i].destination != m[j].destination)
    && (forall i, j :: 0 <= i < |m| && 0 <= j < |m| && m[i].kind.File? && m[j].kind.File? ==>
          m[i].partial != m[j].destination)
  }

  function TotalSize(m: seq<Entry>): nat {
    if m == [] then 0 else (if m[0].kind.File? then m[0].size else 0) + TotalSize(m[1..])
  }

  /** What acceptance guarantees about a manifest: `Manifest` and `ReceivePaths` prove it. */
  ghost predicate ValidEntries(m: seq<Entry>) {
    DistinctEntries(m) && TotalSize(m) <= I64_MAX
  }

  /** The sender's filter: `persisted_offset == size` is skipped. */
  function Unsent(m: seq<Entry>, offsets: Offsets): seq<Entry> {
    if m == [] then []
    else (if m[0].kind.File? && Off(offsets, m[0].id) != m[0].size then [m[0]] else []) + Unsent(m[1..], offsets)
  }

  /** The receiver's filter: `persisted_offset < size` is expected. */
  function Expected(m: seq<Entry>, offsets: Offsets): seq<Entry> {
    if m == [] then []
    else (if m[0].kind.File? && Off(offsets, m[0].id) < m[0].size then [m[0]] else []) + Expected(m[1..], offsets)
  }

  /** The bytes of `list` still to be transferred. */
  function Missing(list: seq<Entry>, offsets: Offsets): int {
    if list == [] then 0 else list[0].size - Off(offsets, list[0].id) + Missing(list[1..], offsets)
  }

  ghost predicate OffsetsFit(m: seq<Entry>, offsets: Offsets) {
    forall e :: e in m && e.kind.File? ==> Off(offsets, e.id) <= e.size
  }

  lemma {:induction false} ExpectedMembers(m: seq<Entry>, offsets: Offsets)
    ensures forall e :: e in Expected(m, offsets) <==> e in m && e.kind.File? && Off(offsets, e.id) < e.size
  {
    if m != [] {
      ExpectedMembers(m[1..], offsets);
      assert forall e :: e in m <==> e == m[0] || e in m[1..];
    }
  }

  ghost predicate Apart(e: Entry, o: Entry) {
    && e.id != o.id
    && (e.kind.File? && o.kind.File? ==>
          e.partial != o.partial && e.destination != o.destination && e.partial != o.destination && e.destination != o.partial)
  }

  lemma ConsDistinct(e: Entry, rest: seq<Entry>)
    requires DistinctEntries(rest) && (e.kind.File? ==> e.partial != e.destination)
    requires forall j :: 0 <= j < |rest| ==> Apart(e, rest[j])
    ensures DistinctEntries([e] + rest)
  {
    var all := [e] + rest;
    forall i, j | 0 <= i < j < |all|
      ensures Apart(all[i], all[j])
    {
      assert all[j] == rest[j - 1];
      if i > 0 {
        assert all[i] == rest[i - 1];
      }
    }
  }

  lemma {:induction false} ExpectedDistinct(m: seq<Entry>, offsets: Offsets)
    requires DistinctEntries(m)
    ensures DistinctEntries(Expected(m, offsets))
  {
    if m != [] {
      ExpectedDistinct(m[1..], offsets);
      ExpectedMembers(m[1..], offsets);
      var rest := Expected(m[1..], offsets);
      if m[0].kind.File? && Off(offsets, m[0].id) < m[0].size {
        forall j | 0 <= j < |rest|
          ensures Apart(m[0], rest[j])
        {
          assert rest[j] in rest;
          var i :| 0 <= i < |m[1..]| && m[1..][i] == rest[j];
          assert m[i + 1] == rest[j];
        }
        ConsDistinct(m[0], rest);
      } else {
        assert Expected(m, offsets) == rest;
      }
    }
  }

  /** On tables that respect the `persisted_offset <= size` CHECK, the two filters agree
      whenever the tables agree on files. */
  lemma {:induction false} FiltersAgree(m: seq<Entry>, s: Offsets, r: Offsets)
    requires OffsetsFit(m, s)
    requires forall e :: e in m && e.kind.File? ==> Off(s, e.id) == Off(r, e.id)
    ensures Unsent(m, s) == Expected(m, r)
  {
    if m != [] {
      assert m[0] in m && forall e :: e in m[1..] ==> e in m;
      FiltersAgree(m[1..], s, r);
    }
  }

  lemma {:induction false} UnsentMembers(m: seq<Entry>, offsets: Offsets)
    ensures forall e :: e in Unsent(m, offsets) <==> e in m && e.kind.File? && Off(offsets, e.id) != e.size
  {
    if m != [] {
      UnsentMembers(m[1..], offsets);
      assert forall e :: e in m <==> e == m[0] || e in m[1..];
    }
  }

  lemma {:induction false} MissingBound(m: seq<Entry>, offsets: Offsets)
    ensures 0 <= Missing(Expected(m, offsets), offsets) <= TotalSize(m)
  {
    if m != [] {
      MissingBound(m[1..], offsets);
      var rest := Expected(m[1..], offsets);
      if m[0].kind.File? && Off(offsets, m[0].id) < m[0].size {
        assert Expected(m, offsets) == [m[0]] + rest;
        assert Expected(m, offsets)[1..] == rest;
      } else {
        assert Expected(m, offsets) == rest;
      }
    }
  }

  lemma {:induction false} MissingAppend(a: seq<Entry>, b: seq<Entry>, offsets: Offsets)
    ensures Missing(a + b, offsets) == Missing(a, offsets) + Missing(b, offsets)
  {
    if a == [] {
      assert a + b == b;
    } else {
      MissingAppend(a[1..], b, offsets);
      assert (a + b)[1..] == a[1..] + b;
    }
  }

  lemma MissingNext(list: seq<Entry>, n: nat, offsets: Offsets)
    requires n < |list|
    ensures Missing(list[..n + 1], offsets) == Missing(list[..n], offsets) + list[n].size - Off(offsets, list[n].id)
  {
    assert list[..n + 1] == list[..n] + [list[n]];
    MissingAppend(list[..n], [list[n]], offsets);
    assert Missing([list[n]], offsets) == list[n].size - Off(offsets, list[n].id);
  }

  lemma {:induction false} MissingPrefix(list: seq<Entry>, n: nat, offsets: Offsets)
    requires n <= |list| && forall e :: e in list ==> Off(offsets, e.id) <= e.size
    ensures 0 <= Missing(list[..n], offsets) <= Missing(list, offsets)
    decreases |list| - n, n
  {
    if n == |list| {
      assert list[..n] == list;
      if n > 0 {
        MissingNext(list, n - 1, offsets);
        var shorter := list[..n - 1];
        MissingPrefix(shorter, n - 1, offsets);
      }
    } else {
      MissingNext(list, n, offsets);
      MissingPrefix(list, n + 1, offsets);
      assert list[n] in list;
      MissingPrefix(list[..n], n, offsets);
    }
  }

  /** `persisted_offset = size` on every row of the transfer. */
  function Finished(m: seq<Entry>, offsets: Offsets): Offsets {
    if m == [] then offsets else Finished(m[1..], offsets)[m[0].id := m[0].size]
  }

  lemma {:induction false} FinishedAt(m: seq<Entry>, offsets: Offsets)
    requires DistinctEntries(m)
    ensures forall e :: e in m ==> Off(Finished(m, offsets), e.id) == e.size
  {
    if m != [] {
      FinishedAt(m[1..], offsets);
      forall e | e in m
        ensures Off(Finished(m, offsets), e.id) == e.size
      {
        if e != m[0] {
          assert e in m[1..];
          var j :| 0 <= j < |m[1..]| && m[1..][j] == e;
          assert m[j + 1].id != m[0].id;
        }
      }
    }
  }

  // ------------------------------------------------------------------- stream

  /** One frame of a data connection, or one byte of an entry's contents. A connection
      cut inside a frame reads the same as a cut just before it, so a cut at any byte
      is a prefix of the token sequence. `Other` is any frame whose version, type or
      transfer id is wrong. */
  datatype Token =
    | Head(id: EntryId, offset: nat, length: nat)
    | Raw(b: Octet)
    | End(count: nat, total: int)
    | Changed
    | Other

  function Raws(data: Bytes): (r: seq<Token>)
    ensures |r| == |data| && forall i :: 0 <= i < |r| ==> r[i] == Raw(data[i])
  {
    seq(|data|, i requires 0 <= i < |data| => Raw(data[i]))
  }

  predicate AllRaw(tokens: seq<Token>) {
    forall i :: 0 <= i < |tokens| ==> tokens[i].Raw?
  }

  function BytesOf(tokens: seq<Token>): (r: Bytes)
    requires AllRaw(tokens)
    ensures |r| == |tokens| && forall i :: 0 <= i < |r| ==> r[i] == tokens[i].b
  {
    seq(|tokens|, i requires 0 <= i < |tokens| => tokens[i].b)
  }

  ghost predicate Sendable(list: seq<Entry>, offsets: Offsets, src: map<EntryId, Bytes>) {
    forall e :: e in list ==> e.id in src && |src[e.id]| == e.size && Off(offsets, e.id) <= e.size
  }

  /** The header and the unsent bytes of each entry of `list`, in order. */
  ghost function Body(list: seq<Entry>, offsets: Offsets, src: map<EntryId, Bytes>): seq<Token>
    requires Sendable(list, offsets, src)
    decreases list, 1
  {
    if list == [] then []
    else
      var e := list[0];
      var off := Off(offsets, e.id);
      [Head(e.id, off, e.size - off)] + RawTail(list, e.size - off, offsets, src)
  }

  /** The last `remaining` bytes of the first entry of `list`, then the other entries. */
  ghost function RawTail(list: seq<Entry>, remaining: nat, offsets: Offsets, src: map<EntryId, Bytes>): seq<Token>
    requires Sendable(list, offsets, src)
    requires list != [] && remaining <= list[0].size
    decreases list, 0
  {
    Raws(src[list[0].id][list[0].size - remaining..]) + Body(list[1..], offsets, src)
  }

  /** Everything a sender with table `offsets` writes before its final frame. */
  ghost function SentBody(m: seq<Entry>, offsets: Offsets, src: map<EntryId, Bytes>): seq<Token>
    requires Sendable(Unsent(m, offsets), offsets, src)
  {
    Body(Unsent(m, offsets), offsets, src)
  }

  /** The final frame of a sender whose sources did not change. */
  function EndFrame(m: seq<Entry>, offsets: Offsets): Token {
    End(|Unsent(m, offsets)|, Missing(Unsent(m, offsets), offsets))
  }

  // ---------------------------------------------------------------- automaton

  datatype Phase = Between(next: nat) | Inside(next: nat, remaining: nat) | Accepted | Refused

  datatype Rx = Rx(files: map<Path, Bytes>, phase: Phase, received: int)

  /** `File::set_len`: truncates, or extends with zero bytes. */
  function SetLen(data: Bytes, n: nat): (r: Bytes)
    ensures |r| == n
    ensures n <= |data| ==> r == data[..n]
  {
    if n <= |data| then data[..n] else data + seq(n - |data|, _ => 0)
  }

  /** One token read by a receiver that writes every byte as soon as it arrives.
      `disk` is the state at the start of the connection. */
  function Feed(expected: seq<Entry>, disk: Disk, rx: Rx, t: Token): Rx {
    match (rx.phase, t)
    case (Between(k), Head(id, offset, length)) =>
      if k < |expected| && id == expected[k].id && offset == Off(disk.offsets, id)
         && offset + length == expected[k].size
         && id !in disk.published && expected[k].partial in rx.files then
        rx.(files := rx.files[expected[k].partial := SetLen(rx.files[expected[k].partial], offset)],
            phase := if length == 0 then Between(k + 1) else Inside(k, length))
      else
        rx.(phase := Refused)
    case (Inside(k, remaining), Raw(b)) =>
      if k < |expected| && expected[k].partial in rx.files && remaining > 0 then
        rx.(files := rx.files[expected[k].partial := rx.files[expected[k].partial] + [b]],
            phase := if remaining == 1 then Between(k + 1) else Inside(k, remaining - 1),
            received := if remaining == 1 then rx.received + expected[k].size - Off(disk.offsets, expected[k].id)
                        else rx.received)
      else
        rx.(phase := Refused)
    case (Between(k), End(count, total)) =>
      var bytes := Missing(expected, disk.offsets);
      if k == |expected| && count == |expected| && total == bytes && rx.received == bytes then
        rx.(phase := Accepted)
      else
        rx.(phase := Refused)
    case _ => rx.(phase := Refused)
  }

  function FeedAll(expected: seq<Entry>, disk: Disk, tokens: seq<Token>): Rx {
    if tokens == [] then Rx(disk.files, Between(0), 0)
    else Feed(expected, disk, FeedAll(expected, disk, tokens[..|tokens| - 1]), tokens[|tokens| - 1])
  }

  lemma FeedNext(expected: seq<Entry>, disk: Disk, tokens: seq<Token>, k: nat)
    requires k < |tokens|
    ensures FeedAll(expected, disk, tokens[..k + 1])
         == Feed(expected, disk, FeedAll(expected, disk, tokens[..k]), tokens[k])
  {
    assert tokens[..k + 1][..k] == tokens[..k];
  }

  /** How many bytes of the wanted entry `j` the receiver holds in a given phase. */
  function Held(wanted: seq<Entry>, offsets: Offsets, phase: Phase, j: nat): int
    requires j < |wanted|
  {
    match phase
    case Between(n) => if j < n then wanted[j].size else Off(offsets, wanted[j].id)
    case Inside(n, remaining) =>
      if j < n then wanted[j].size
      else if j == n then wanted[j].size - remaining
      else Off(offsets, wanted[j].id)
    case Accepted => wanted[j].size
    case Refused => Off(offsets, wanted[j].id)
  }

  /** The state after `data` has arrived inside the entry that `rx` is inside. */
  function Landed(expected: seq<Entry>, disk: Disk, rx: Rx, data: Bytes): Rx
    requires rx.phase.Inside? && |data| <= rx.phase.remaining && rx.phase.next < |expected|
    requires expected[rx.phase.next].partial in rx.files
  {
    var e := expected[rx.phase.next];
    Rx(rx.files[e.partial := rx.files[e.partial] + data],
       if |data| < rx.phase.remaining then Inside(rx.phase.next, rx.phase.remaining - |data|) else Between(rx.phase.next + 1),
       if |data| < rx.phase.remaining then rx.received else rx.received + e.size - Off(disk.offsets, e.id))
  }

  lemma LandedNext(expected: seq<Entry>, disk: Disk, rx: Rx, data: Bytes, b: Octet)
    requires rx.phase.Inside? && |data| < rx.phase.remaining && rx.phase.next < |expected|
    requires expected[rx.phase.next].partial in rx.files
    ensures Feed(expected, disk, Landed(expected, disk, rx, data), Raw(b)) == Landed(expected, disk, rx, data + [b])
  {
    var p := expected[rx.phase.next].partial;
    assert (rx.files[p] + data) + [b] == rx.files[p] + (data + [b]);
  }

  /** A run of bytes inside an entry lands in its partial file in one piece. */
  lemma {:induction false} FeedMany(expected: seq<Entry>, disk: Disk, prefix: seq<Token>, raws: seq<Token>, rx: Rx)
    requires AllRaw(raws) && rx == FeedAll(expected, disk, prefix)
    requires rx.phase.Inside? && |raws| <= rx.phase.remaining && 0 < rx.phase.remaining && rx.phase.next < |expected|
    requires expected[rx.phase.next].partial in rx.files
    ensures FeedAll(expected, disk, prefix + raws) == Landed(expected, disk, rx, BytesOf(raws))
    decreases |raws|
  {
    if raws == [] {
      LandedNothing(expected, disk, rx);
      assert prefix + raws == prefix && BytesOf(raws) == [];
    } else {
      var shorter, last := raws[..|raws| - 1], raws[|raws| - 1];
      assert raws == shorter + [last];
      RawInit(shorter, last);
      FeedMany(expected, disk, prefix, shorter, rx);
      assert (prefix + raws)[..|prefix + raws| - 1] == prefix + shorter;
      LandedNext(expected, disk, rx, BytesOf(shorter), last.b);
    }
  }

  lemma FeedRaws(expected: seq<Entry>, disk: Disk, tokens: seq<Token>, k: nat, end: nat, rx: Rx)
    requires k <= end <= |tokens| && AllRaw(tokens[k..end])
    requires rx == FeedAll(expected, disk, tokens[..k])
    requires rx.phase.Inside? && end - k <= rx.phase.remaining && 0 < rx.phase.remaining && rx.phase.next < |expected|
    requires expected[rx.phase.next].partial in rx.files
    ensures FeedAll(expected, disk, tokens[..end]) == Landed(expected, disk, rx, BytesOf(tokens[k..end]))
  {
    assert tokens[..end] == tokens[..k] + tokens[k..end];
    FeedMany(expected, disk, tokens[..k], tokens[k..end], rx);
  }

  lemma RawInit(shorter: seq<Token>, t: Token)
    requires AllRaw(shorter + [t])
    ensures AllRaw(shorter) && t.Raw? && BytesOf(shorter + [t]) == BytesOf(shorter) + [t.b]
  {
    forall i | 0 <= i < |shorter|
      ensures shorter[i].Raw?
    {
      assert shorter[i] == (shorter + [t])[i];
    }
    assert (shorter + [t])[|shorter|] == t;
  }

  lemma LandedNothing(expected: seq<Entry>, disk: Disk, rx: Rx)
    requires rx.phase.Inside? && 0 < rx.phase.remaining && rx.phase.next < |expected|
    requires expected[rx.phase.next].partial in rx.files
    ensures Landed(expected, disk, rx, []) == rx
  {
    var p := expected[rx.phase.next].partial;
    assert rx.files[p] + [] == rx.files[p];
    assert rx.files[p := rx.files[p]] == rx.files;
  }

  /** Every entry the receiver has passed had its partial file when the connection began. */
  lemma {:induction false} PassedHadPartials(expected: seq<Entry>, disk: Disk, tokens: seq<Token>)
    ensures var rx := FeedAll(expected, disk, tokens);
            && rx.files.Keys == disk.files.Keys
            && (rx.phase.Between? ==> rx.phase.next <= |expected| && HadPartials(expected, disk, rx.phase.next))
            && (rx.phase.Inside? ==> rx.phase.next < |expected| && HadPartials(expected, disk, rx.phase.next + 1))
            && (rx.phase.Accepted? ==> HadPartials(expected, disk, |expected|))
  {
    if tokens != [] {
      PassedHadPartials(expected, disk, tokens[..|tokens| - 1]);
    }
  }

  predicate HadPartials(expected: seq<Entry>, disk: Disk, n: nat)
    requires n <= |expected|
  {
    forall j :: 0 <= j < n ==> expected[j].partial in disk.files
  }
}
