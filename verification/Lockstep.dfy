/** A sender's stream read by the token automaton: which entry each byte belongs to,
    what the partial files hold after any cut, and when the final frame is accepted. */
module Lockstep {
  import opened Basics
  import opened Transfer

  /** The two sides of one data connection: what the sender will send (`pending`, table
      `s`), what the receiver waits for (`wanted`, disk `d`), the sources, and the frame
      the sender ends with. */
  datatype Session = Session(
    pending: seq<Entry>, s: Offsets, wanted: seq<Entry>, d: Disk, src: map<EntryId, Bytes>, fin: Token)
  {
    ghost predicate Ready() {
      && Sendable(pending, s, src)
      && (forall i :: 0 <= i < |pending| ==> Off(s, pending[i].id) != pending[i].size)
      && (forall j :: 0 <= j < |wanted| ==> Resumable(wanted[j]))
      && (forall i, j :: 0 <= i < j < |wanted| ==> wanted[i].partial != wanted[j].partial)
      && (forall i, j :: 0 <= i < |pending| && 0 <= j < |wanted| && pending[i].id == wanted[j].id ==> pending[i] == wanted[j])
      && (fin == End(|pending|, Missing(pending, s)) || fin == Changed)
    }

    /** A wanted entry has a partial file that starts with the bytes already recorded. */
    ghost predicate Resumable(e: Entry) {
      && e.id in src && |src[e.id]| == e.size && e.id !in d.published
      && Off(d.offsets, e.id) < e.size && e.partial in d.files
      && Off(d.offsets, e.id) <= |d.files[e.partial]| && d.files[e.partial] <= src[e.id]
    }

    ghost function Stream(): seq<Token>
      requires Ready()
    {
      Body(pending, s, src) + [fin]
    }

    /** The receiver after the first `k` tokens. */
    ghost function After(k: nat): Rx
      requires Ready() && k <= |Stream()|
    {
      FeedAll(wanted, d, Stream()[..k])
    }

    /** The first `n` entries of both sides are the same, with the same offsets. */
    ghost predicate Agree(n: nat) {
      && n <= |pending| && n <= |wanted|
      && forall j :: 0 <= j < n ==>
           pending[j] == wanted[j] && Off(s, pending[j].id) == Off(d.offsets, wanted[j].id)
    }

    /** The file system once the first `n` wanted entries are complete. */
    ghost function Filled(n: nat): map<Path, Bytes>
      requires Ready() && n <= |wanted|
    {
      if n == 0 then d.files else Filled(n - 1)[wanted[n - 1].partial := src[wanted[n - 1].id]]
    }

    lemma {:induction false} FilledAt(n: nat, j: nat)
      requires Ready() && n <= |wanted| && j < |wanted|
      ensures Filled(n).Keys == d.files.Keys
      ensures Filled(n)[wanted[j].partial] == if j < n then src[wanted[j].id] else d.files[wanted[j].partial]
    {
      if n > 0 {
        FilledAt(n - 1, j);
        assert wanted[n - 1].partial in d.files;
      }
    }

    lemma {:induction false} FilledElsewhere(n: nat, p: Path)
      requires Ready() && n <= |wanted|
      requires forall j :: 0 <= j < |wanted| ==> p != wanted[j].partial
      ensures p in Filled(n) <==> p in d.files
      ensures p in d.files ==> Filled(n)[p] == d.files[p]
    {
      if n > 0 {
        FilledElsewhere(n - 1, p);
      }
    }

    /** What the sender still has to write from entry `n` on. */
    ghost function From(n: nat): seq<Token>
      requires Ready() && n <= |pending|
    {
      Body(pending[n..], s, src) + [fin]
    }

    /** What it still has to write with `remaining` bytes of entry `n` to go. */
    ghost function Within(n: nat, remaining: nat): seq<Token>
      requires Ready() && n < |pending| && remaining <= pending[n].size
    {
      RawTail(pending[n..], remaining, s, src) + [fin]
    }

    /** The file system with `remaining` bytes of entry `n` to go. */
    ghost function Partly(n: nat, remaining: nat): map<Path, Bytes>
      requires Ready() && n < |wanted| && remaining <= wanted[n].size
    {
      assert Resumable(wanted[n]);
      Filled(n)[wanted[n].partial := src[wanted[n].id][..wanted[n].size - remaining]]
    }

    ghost function Counted(n: nat): int
      requires n <= |wanted|
    {
      Missing(wanted[..n], d.offsets)
    }

    /** `rx` is at the same place as the sender, in front of the tokens `rest`. */
    ghost predicate InStep(rx: Rx, rest: seq<Token>)
      requires Ready()
    {
      match rx.phase
      case Between(n) =>
        && Agree(n) && rx.files == Filled(n)
        && rx.received == Counted(n)
        && rest == From(n)
      case Inside(n, remaining) =>
        && Agree(n + 1)
        && 0 < remaining <= wanted[n].size - Off(d.offsets, wanted[n].id)
        && rx.files == Partly(n, remaining)
        && rx.received == Counted(n)
        && rest == Within(n, remaining)
      case Accepted =>
        && rest == [] && fin == End(|pending|, Missing(pending, s))
        && |pending| == |wanted| && Agree(|wanted|) && rx.files == Filled(|wanted|)
        && rx.received == Counted(|wanted|)
      case Refused => true
    }

    lemma HeadComesNext(n: nat)
      requires Ready() && n < |pending|
      ensures var e := pending[n];
              && Off(s, e.id) <= e.size
              && From(n) == [Head(e.id, Off(s, e.id), e.size - Off(s, e.id))] + Within(n, e.size - Off(s, e.id))
    {
      assert pending[n..][0] == pending[n] && pending[n] in pending;
    }

    lemma RawComesNext(n: nat, remaining: nat, less: nat)
      requires Ready() && n < |pending| && less + 1 == remaining <= pending[n].size
      ensures |src[pending[n].id]| == pending[n].size
      ensures Within(n, remaining) == [Raw(src[pending[n].id][pending[n].size - remaining])] + Within(n, less)
    {
      assert pending[n..][0] == pending[n] && pending[n] in pending;
      var data := src[pending[n].id];
      var tail, shorter := data[|data| - remaining..], data[|data| - less..];
      assert tail == [tail[0]] + shorter;
      assert Raws(tail) == [Raw(tail[0])] + Raws(shorter);
    }

    lemma NothingLeft(n: nat, after: nat)
      requires Ready() && n < |pending| && after == n + 1
      ensures Within(n, 0) == From(after)
    {
      assert pending[n..][0] == pending[n] && pending[n] in pending;
      assert pending[n..][1..] == pending[after..];
      var data := src[pending[n].id];
      assert Raws(data[|data|..]) == [];
    }

    lemma FeedHead(rx: Rx, n: nat, e: Entry, off: nat, length: nat)
      requires Ready() && n < |wanted| && wanted[n] == e && off == Off(d.offsets, e.id) && off + length == e.size
      requires rx.phase == Between(n) && rx.files == Filled(n)
      ensures 0 < length
      ensures Feed(wanted, d, rx, Head(e.id, off, length)) == Rx(Partly(n, length), Inside(n, length), rx.received)
    {
      assert Resumable(e);
      FilledAt(n, n);
      assert SetLen(d.files[e.partial], off) == src[e.id][..off];
    }

    lemma ReadHead(rx: Rx, rest: seq<Token>, next: Rx, more: seq<Token>)
      requires rest != [] && next == Feed(wanted, d, rx, rest[0]) && more == rest[1..]
      requires Ready() && InStep(rx, rest)
      requires rx.phase.Between? && rx.phase.next < |pending|
      ensures InStep(next, more)
      ensures Agree(rx.phase.next + 1) ==> next.phase.Inside?
    {
      var n := rx.phase.next;
      HeadComesNext(n);
      var e := pending[n];
      var off := Off(s, e.id);
      if n < |wanted| && wanted[n].id == e.id && off == Off(d.offsets, e.id) {
        var length := e.size - off;
        FeedHead(rx, n, e, off, length);
        assert more == Within(n, length);
      }
    }

    /** The next byte of the source extends the partial file by that byte. */
    lemma FeedByte(rx: Rx, n: nat, remaining: nat, less: nat)
      requires Ready() && rx.phase == Inside(n, remaining) && n < |wanted|
      requires less + 1 == remaining <= wanted[n].size && rx.files == Partly(n, remaining)
      ensures |src[wanted[n].id]| == wanted[n].size
      ensures var next := Feed(wanted, d, rx, Raw(src[wanted[n].id][wanted[n].size - remaining]));
              && next.files == Partly(n, less)
              && next.phase == (if less == 0 then Between(n + 1) else Inside(n, less))
              && next.received == (if less == 0 then rx.received + wanted[n].size - Off(d.offsets, wanted[n].id) else rx.received)
    {
      var e := wanted[n];
      assert Resumable(e);
      var data, cut := src[e.id], e.size - remaining;
      assert data[..cut] + [data[cut]] == data[..e.size - less];
    }

    lemma ReadLastRaw(rx: Rx, rest: seq<Token>, next: Rx, more: seq<Token>)
      requires rest != [] && next == Feed(wanted, d, rx, rest[0]) && more == rest[1..]
      requires Ready() && InStep(rx, rest)
      requires rx.phase.Inside? && rx.phase.remaining == 1
      ensures InStep(next, more)
      ensures next.phase.Between?
    {
      var n := rx.phase.next;
      var after := n + 1;
      RawComesNext(n, 1, 0);
      NothingLeft(n, after);
      FeedByte(rx, n, 1, 0);
      MissingNext(wanted, n, d.offsets);
      assert src[wanted[n].id][..wanted[n].size] == src[wanted[n].id];
      assert Partly(n, 0) == Filled(after);
      assert more == From(after);
    }

    lemma ReadMoreRaw(rx: Rx, rest: seq<Token>, next: Rx, more: seq<Token>)
      requires rest != [] && next == Feed(wanted, d, rx, rest[0]) && more == rest[1..]
      requires Ready() && InStep(rx, rest)
      requires rx.phase.Inside? && rx.phase.remaining > 1
      ensures InStep(next, more)
      ensures next.phase.Inside?
    {
      var n, remaining := rx.phase.next, rx.phase.remaining;
      var less := remaining - 1;
      RawComesNext(n, remaining, less);
      FeedByte(rx, n, remaining, less);
      assert more == Within(n, less);
    }

    lemma ReadRaw(rx: Rx, rest: seq<Token>, next: Rx, more: seq<Token>)
      requires rest != [] && next == Feed(wanted, d, rx, rest[0]) && more == rest[1..]
      requires Ready() && InStep(rx, rest) && rx.phase.Inside?
      ensures InStep(next, more)
      ensures !next.phase.Refused?
    {
      if rx.phase.remaining == 1 { ReadLastRaw(rx, rest, next, more); } else { ReadMoreRaw(rx, rest, next, more); }
    }

    lemma ReadFinal(rx: Rx, rest: seq<Token>, next: Rx, more: seq<Token>)
      requires rest != [] && next == Feed(wanted, d, rx, rest[0]) && more == rest[1..]
      requires Ready() && InStep(rx, rest)
      requires rx.phase.Between? && rx.phase.next == |pending|
      ensures InStep(next, more)
      ensures |wanted| == |pending| && fin.End? ==> next.phase.Accepted?
    {
      assert pending[|pending|..] == [];
      assert rest == [fin];
      assert wanted[..|wanted|] == wanted;
      if |wanted| == |pending| {
        SameMissing(|wanted|);
        assert pending[..|pending|] == pending;
      }
    }

    lemma {:induction false} SameMissing(n: nat)
      requires Agree(n)
      ensures Missing(pending[..n], s) == Missing(wanted[..n], d.offsets)
    {
      if n > 0 {
        SameMissing(n - 1);
        assert pending[..n] == pending[..n - 1] + [pending[n - 1]];
        assert wanted[..n] == wanted[..n - 1] + [wanted[n - 1]];
        MissingAppend(pending[..n - 1], [pending[n - 1]], s);
        MissingAppend(wanted[..n - 1], [wanted[n - 1]], d.offsets);
      }
    }

    /** After any cut, receiver and sender are in step unless the receiver has refused. */
    lemma {:induction false} StaysInStep(k: nat)
      requires Ready() && k <= |Stream()|
      ensures InStep(After(k), Stream()[k..])
    {
      if k == 0 {
        assert Stream()[..0] == [] && wanted[..0] == [] && pending[0..] == pending;
        assert Stream()[0..] == Stream();
      } else {
        StaysInStep(k - 1);
        var rx, rest := After(k - 1), Stream()[k - 1..];
        FeedNext(wanted, d, Stream(), k - 1);
        var next, more := After(k), Stream()[k..];
        assert rest[0] == Stream()[k - 1] && rest[1..] == more;
        match rx.phase
        case Between(n) => if n < |pending| { ReadHead(rx, rest, next, more); } else { ReadFinal(rx, rest, next, more); }
        case Inside(n, remaining) => ReadRaw(rx, rest, next, more);
        case Accepted => assert false;
        case Refused =>
      }
    }

    /** Two sides with the same entries and offsets never refuse one another. */
    lemma {:induction false} NeverRefuses(k: nat)
      requires Ready() && |pending| == |wanted| && Agree(|wanted|) && fin.End? && k <= |Stream()|
      ensures !After(k).phase.Refused?
      ensures k == |Stream()| ==> After(k).phase.Accepted?
    {
      if k == 0 {
        assert Stream()[..0] == [];
      } else {
        NeverRefuses(k - 1);
        StaysInStep(k - 1);
        StaysInStep(k);
        var rx, rest := After(k - 1), Stream()[k - 1..];
        FeedNext(wanted, d, Stream(), k - 1);
        var next, more := After(k), Stream()[k..];
        assert rest[0] == Stream()[k - 1] && rest[1..] == more;
        match rx.phase
        case Between(n) => if n < |pending| { ReadHead(rx, rest, next, more); } else { ReadFinal(rx, rest, next, more); }
        case Inside(n, remaining) => ReadRaw(rx, rest, next, more);
        case Accepted => assert false;
      }
    }

    /** Files that no wanted entry uses as its partial are as before. */
    lemma Elsewhere(rx: Rx, rest: seq<Token>, p: Path)
      requires Ready() && InStep(rx, rest) && !rx.phase.Refused?
      requires forall j :: 0 <= j < |wanted| ==> p != wanted[j].partial
      ensures (p in rx.files <==> p in d.files) && (p in d.files ==> rx.files[p] == d.files[p])
    {
      match rx.phase
      case Between(n) => FilledElsewhere(n, p);
      case Inside(n, remaining) => FilledElsewhere(n, p);
      case Accepted => FilledElsewhere(|wanted|, p);
    }

    /** The partial of a wanted entry is a prefix of its source with at least the bytes the
        receiver counts as held. */
    lemma Holding(rx: Rx, rest: seq<Token>, j: nat)
      requires Ready() && InStep(rx, rest) && !rx.phase.Refused? && j < |wanted|
      ensures wanted[j].partial in rx.files && rx.files[wanted[j].partial] <= src[wanted[j].id]
      ensures Held(wanted, d.offsets, rx.phase, j) <= |rx.files[wanted[j].partial]|
    {
      assert Resumable(wanted[j]);
      match rx.phase
      case Between(n) => FilledAt(n, j);
      case Inside(n, remaining) =>
        assert Resumable(wanted[n]);
        FilledAt(n, j);
        assert j != n ==> wanted[j].partial != wanted[n].partial;
      case Accepted => FilledAt(|wanted|, j);
    }
  }
}
