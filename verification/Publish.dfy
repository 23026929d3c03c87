/** What publishing received files may do to the disk, whatever interrupts it. */
module Publish {
  import opened Basics
  import opened Transfer

  /** The file of an entry is in exactly one place. A partial holds a prefix of the source
      that is at least as long as the recorded offset; a published file equals the source. */
  ghost predicate EntrySound(e: Entry, d: Disk, src: map<EntryId, Bytes>) {
    && e.id in src && |src[e.id]| == e.size
    && if e.partial in d.files then
         && e.id !in d.published
         && e.destination !in d.files
         && Off(d.offsets, e.id) <= |d.files[e.partial]|
         && d.files[e.partial] <= src[e.id]
       else
         && e.destination in d.files
         && d.files[e.destination] == src[e.id]
         && Off(d.offsets, e.id) == e.size
  }

  ghost predicate Sound(m: seq<Entry>, d: Disk, src: map<EntryId, Bytes>) {
    forall e :: e in m && e.kind.File? ==> EntrySound(e, d, src)
  }

  predicate Complete(files: map<Path, Bytes>, p: Path, size: nat) {
    p in files && |files[p]| == size
  }

  /** The entry passes the validation that runs before any file is renamed. */
  predicate EntryPublishable(e: Entry, d: Disk) {
    if e.id in d.published then Complete(d.files, e.destination, e.size)
    else
      || (Complete(d.files, e.destination, e.size) && e.partial !in d.files)
      || (Complete(d.files, e.partial, e.size) && e.destination !in d.files)
  }

  ghost predicate Publishable(m: seq<Entry>, d: Disk) {
    forall i :: 0 <= i < |m| && m[i].kind.File? ==> EntryPublishable(m[i], d)
  }

  /** Neither place of the entry changed. */
  ghost predicate Stayed(e: Entry, b: Disk, a: Disk) {
    && (e.partial in a.files <==> e.partial in b.files)
    && (e.partial in b.files ==> a.files[e.partial] == b.files[e.partial])
    && (e.destination in a.files <==> e.destination in b.files)
    && (e.destination in b.files ==> a.files[e.destination] == b.files[e.destination])
  }

  /** A complete partial became a destination that did not exist, byte for byte. */
  ghost predicate Moved(e: Entry, b: Disk, a: Disk) {
    && e.id !in b.published
    && Complete(b.files, e.partial, e.size) && e.destination !in b.files
    && e.partial !in a.files && e.destination in a.files
    && a.files[e.destination] == b.files[e.partial]
  }

  /** `partial_ref` is cleared only once the file is in its destination and nowhere else. */
  ghost predicate MarkSound(e: Entry, b: Disk, a: Disk) {
    && (e.id in b.published ==> e.id in a.published)
    && (e.id in a.published ==>
          e.id in b.published || (e.partial !in a.files && Complete(a.files, e.destination, e.size)))
  }

  ghost predicate Owned(m: seq<Entry>, p: Path) {
    exists i :: 0 <= i < |m| && m[i].kind.File? && (p == m[i].partial || p == m[i].destination)
  }

  ghost predicate OthersUntouched(m: seq<Entry>, b: map<Path, Bytes>, a: map<Path, Bytes>) {
    forall p :: !Owned(m, p) ==> (p in a <==> p in b) && (p in b ==> a[p] == b[p])
  }

  /** `fs::rename(partial, destination)` onto a free name. */
  ghost predicate Renamed(e: Entry, b: Disk, a: Disk) {
    && Complete(b.files, e.partial, e.size) && e.destination !in b.files
    && a.files == (b.files - {e.partial})[e.destination := b.files[e.partial]]
  }

  ghost predicate Placed(e: Entry, files: map<Path, Bytes>) {
    e.partial !in files && Complete(files, e.destination, e.size)
  }

  /** The second loop after `i` entries: they are published, the others are untouched. */
  ghost predicate PublishedFirst(m: seq<Entry>, i: nat, b: Disk, a: Disk) {
    && i <= |m| && Relocated(m, b, a)
    && (forall j :: 0 <= j < i && m[j].kind.File? ==> m[j].id in a.published && Complete(a.files, m[j].destination, m[j].size))
    && (forall j :: i <= j < |m| && m[j].kind.File? ==> Stayed(m[j], b, a) && (m[j].id in a.published <==> m[j].id in b.published))
  }

  /** Everything a publishing pass may have done when it stops, at whatever point. */
  ghost predicate Relocated(m: seq<Entry>, b: Disk, a: Disk) {
    && OthersUntouched(m, b.files, a.files)
    && forall i :: 0 <= i < |m| && m[i].kind.File? ==>
         && Off(a.offsets, m[i].id) == Off(b.offsets, m[i].id)
         && (Stayed(m[i], b, a) || Moved(m[i], b, a))
         && MarkSound(m[i], b, a)
  }

  /** Every file is at its destination, its row is marked, and no partial is left. */
  ghost predicate AllPublished(m: seq<Entry>, d: Disk) {
    forall i :: 0 <= i < |m| && m[i].kind.File? ==>
      m[i].id in d.published && Complete(d.files, m[i].destination, m[i].size)
  }

  ghost predicate AllRecorded(m: seq<Entry>, d: Disk) {
    forall i :: 0 <= i < |m| && m[i].kind.File? ==> Off(d.offsets, m[i].id) == m[i].size
  }

  /** The receiver's promise: every destination holds the source and no partial is left. */
  ghost predicate Delivered(m: seq<Entry>, d: Disk, src: map<EntryId, Bytes>) {
    forall e :: e in m && e.kind.File? ==>
      e.id in src && e.destination in d.files && d.files[e.destination] == src[e.id] && e.partial !in d.files
  }

  /** Publishing entry `i`, cut anywhere, keeps what is known of all the others. */
  lemma PublishOne(m: seq<Entry>, i: nat, b: Disk, mid: Disk, a: Disk)
    requires DistinctEntries(m) && i < |m| && m[i].kind.File? && m[i].id !in b.published
    requires PublishedFirst(m, i, b, mid)
    requires a.offsets == mid.offsets && (a.files == mid.files || Renamed(m[i], mid, a))
    requires a.published == mid.published || (a.published == mid.published + {m[i].id} && Placed(m[i], a.files))
    ensures Relocated(m, b, a)
    ensures m[i].id in a.published ==> PublishedFirst(m, i + 1, b, a)
  {
    assert m[i].id !in mid.published;
    forall j | 0 <= j < |m| && m[j].kind.File? && j != i
      ensures Stayed(m[j], mid, a) && (m[j].id in a.published <==> m[j].id in mid.published)
    {
      assert m[j].partial != m[i].partial && m[j].destination != m[i].destination;
    }
    forall p | !Owned(m, p)
      ensures (p in a.files <==> p in mid.files) && (p in mid.files ==> a.files[p] == mid.files[p])
    {
      assert p != m[i].partial && p != m[i].destination;
    }
  }

  /** A directory, or a file whose row is already marked, needs nothing. */
  lemma PublishSkip(m: seq<Entry>, i: nat, b: Disk, mid: Disk)
    requires i < |m| && PublishedFirst(m, i, b, mid)
    requires m[i].kind.File? ==> m[i].id in mid.published && EntryPublishable(m[i], b)
    ensures PublishedFirst(m, i + 1, b, mid)
  {
  }

  /** A pass that stops anywhere leaves every file in exactly one place, with the
      source's bytes, provided it started with every byte recorded. */
  lemma PublishKeepsSound(m: seq<Entry>, b: Disk, a: Disk, src: map<EntryId, Bytes>)
    requires Sound(m, b, src) && AllRecorded(m, b) && Relocated(m, b, a)
    ensures Sound(m, a, src) && AllRecorded(m, a)
  {
    forall e | e in m && e.kind.File?
      ensures EntrySound(e, a, src)
    {
      var i :| 0 <= i < |m| && m[i] == e;
      assert EntrySound(e, b, src);
      assert MarkSound(e, b, a);
      if Moved(e, b, a) {
        assert b.files[e.partial] == src[e.id];
      } else {
        assert Stayed(e, b, a);
      }
    }
  }

  /** With every byte recorded, the validation never refuses a sound disk, however many
      earlier passes were cut short. */
  lemma SoundIsPublishable(m: seq<Entry>, d: Disk, src: map<EntryId, Bytes>)
    requires Sound(m, d, src) && AllRecorded(m, d)
    ensures Publishable(m, d)
  {
    forall i | 0 <= i < |m| && m[i].kind.File?
      ensures EntryPublishable(m[i], d)
    {
      assert EntrySound(m[i], d, src);
    }
  }

  lemma PublishedIsDelivered(m: seq<Entry>, d: Disk, src: map<EntryId, Bytes>)
    requires Sound(m, d, src) && AllPublished(m, d)
    ensures Delivered(m, d, src)
  {
    forall e | e in m && e.kind.File?
      ensures e.id in src && e.destination in d.files && d.files[e.destination] == src[e.id] && e.partial !in d.files
    {
      var i :| 0 <= i < |m| && m[i] == e;
      assert EntrySound(e, d, src);
    }
  }

  /** Any number of passes, each stopped anywhere. */
  ghost predicate Passes(m: seq<Entry>, disks: seq<Disk>) {
    |disks| > 0 && forall i :: 0 <= i < |disks| - 1 ==> Relocated(m, disks[i], disks[i + 1])
  }

  /** After any number of interrupted passes every file is in exactly one place with its bytes,
      the next pass cannot be refused, and a pass that gets to its end has delivered. */
  lemma {:induction false} RerunsFinish(m: seq<Entry>, disks: seq<Disk>, src: map<EntryId, Bytes>, k: nat)
    requires Passes(m, disks) && k < |disks| && Sound(m, disks[0], src) && AllRecorded(m, disks[0])
    ensures Sound(m, disks[k], src) && AllRecorded(m, disks[k]) && Publishable(m, disks[k])
    ensures AllPublished(m, disks[k]) ==> Delivered(m, disks[k], src)
  {
    if k > 0 {
      var before := k - 1;
      RerunsFinish(m, disks, src, before);
      assert Relocated(m, disks[before], disks[before + 1]);
      PublishKeepsSound(m, disks[before], disks[k], src);
    }
    SoundIsPublishable(m, disks[k], src);
    if AllPublished(m, disks[k]) {
      PublishedIsDelivered(m, disks[k], src);
    }
  }

  // ----------------------------------------------------------------- start-up

  /** The offset an entry resumes from after a restart. */
  function SafeOffset(e: Entry, d: Disk): nat {
    if Complete(d.files, e.destination, e.size) then e.size
    else if e.id in d.published then 0
    else Min(Min(Off(d.offsets, e.id), e.size), Min(if e.partial in d.files then |d.files[e.partial]| else 0, e.size))
  }

  function Reconciled(m: seq<Entry>, d: Disk): Offsets {
    if m == [] then d.offsets
    else
      var rest := Reconciled(m[..|m| - 1], d);
      if m[|m| - 1].kind.File? then rest[m[|m| - 1].id := SafeOffset(m[|m| - 1], d)] else rest
  }

  lemma ReconciledAppend(m: seq<Entry>, e: Entry, d: Disk)
    ensures Reconciled(m + [e], d)
         == if e.kind.File? then Reconciled(m, d)[e.id := SafeOffset(e, d)] else Reconciled(m, d)
  {
    assert (m + [e])[..|m|] == m;
  }

  lemma {:induction false} ReconciledAt(m: seq<Entry>, d: Disk, e: Entry)
    requires DistinctEntries(m) && e in m && e.kind.File?
    ensures Off(Reconciled(m, d), e.id) == SafeOffset(e, d)
  {
    var last := |m| - 1;
    if e != m[last] {
      var j :| 0 <= j < |m| && m[j] == e;
      assert m[..last][j] == e;
      ReconciledAt(m[..last], d, e);
    }
  }

  ghost predicate SamePlaces(e: Entry, b: map<Path, Bytes>, a: map<Path, Bytes>) {
    && (e.partial in a <==> e.partial in b) && (e.partial in b ==> a[e.partial] == b[e.partial])
    && (e.destination in a <==> e.destination in b) && (e.destination in b ==> a[e.destination] == b[e.destination])
  }

  lemma SameSafeOffset(e: Entry, b: Disk, files: map<Path, Bytes>)
    requires SamePlaces(e, b.files, files)
    ensures SafeOffset(e, b) == SafeOffset(e, b.(files := files))
  {
  }

  /** Partials may have been cut back to their safe offset; nothing else changed. */
  ghost predicate Cut(m: seq<Entry>, b: Disk, files: map<Path, Bytes>) {
    && OthersUntouched(m, b.files, files)
    && forall i :: 0 <= i < |m| && m[i].kind.File? ==>
         || SamePlaces(m[i], b.files, files)
         || (&& m[i].partial in b.files && m[i].partial in files
             && SafeOffset(m[i], b) <= |b.files[m[i].partial]|
             && files[m[i].partial] == b.files[m[i].partial][..SafeOffset(m[i], b)]
             && (m[i].destination in files <==> m[i].destination in b.files)
             && (m[i].destination in b.files ==> files[m[i].destination] == b.files[m[i].destination]))
  }

  lemma CutOne(m: seq<Entry>, i: nat, b: Disk, mid: map<Path, Bytes>, files: map<Path, Bytes>)
    requires DistinctEntries(m) && i < |m| && m[i].kind.File?
    requires Cut(m, b, mid) && SamePlaces(m[i], b.files, mid)
    requires || files == mid
             || (m[i].partial in mid && SafeOffset(m[i], b) <= |mid[m[i].partial]|
                 && files == mid[m[i].partial := mid[m[i].partial][..SafeOffset(m[i], b)]])
    ensures Cut(m, b, files)
    ensures forall j :: 0 <= j < |m| && j != i && m[j].kind.File? ==> SamePlaces(m[j], mid, files)
  {
    forall j | 0 <= j < |m| && m[j].kind.File? && j != i
      ensures SamePlaces(m[j], mid, files)
    {
      assert m[j].partial != m[i].partial && m[j].destination != m[i].partial;
    }
    assert Owned(m, m[i].partial);
  }

  /** The bytes of an entry's partial, none if there is no such file. */
  function Remains(e: Entry, files: map<Path, Bytes>): Bytes {
    if e.partial in files then files[e.partial] else []
  }

  /** The partial of an entry is left with the bytes that are recorded afterwards, unless the
      entry is settled or its partial holds no more than that, up to its size. */
  predicate Trimmed(e: Entry, b: Disk, files: map<Path, Bytes>) {
    Remains(e, files) ==
    if Complete(b.files, e.destination, e.size) || e.id in b.published || Min(|Remains(e, b.files)|, e.size) <= Off(b.offsets, e.id)
    then Remains(e, b.files)
    else Remains(e, b.files)[..Off(b.offsets, e.id)]
  }

  /** The first `i` files are trimmed. */
  ghost predicate TrimmedUpTo(m: seq<Entry>, i: nat, b: Disk, files: map<Path, Bytes>)
    requires i <= |m|
  {
    forall j :: 0 <= j < i && m[j].kind.File? ==> Trimmed(m[j], b, files)
  }

  /** The start-up pass after `i` entries: `safe` are their offsets, the files of the others
      are untouched. */
  ghost predicate Reconciling(m: seq<Entry>, i: nat, b: Disk, files: map<Path, Bytes>, safe: Offsets) {
    && i <= |m| && Cut(m, b, files) && safe == Reconciled(m[..i], b)
    && forall j :: i <= j < |m| && m[j].kind.File? ==> SamePlaces(m[j], b.files, files)
  }

  lemma ReconcilingFile(m: seq<Entry>, i: nat, after: nat, b: Disk, mid: map<Path, Bytes>, files: map<Path, Bytes>,
                        safe: Offsets, offset: nat)
    requires DistinctEntries(m) && after == i + 1 <= |m| && m[i].kind.File? && Reconciling(m, i, b, mid, safe)
    requires offset == SafeOffset(m[i], b.(files := mid))
    requires || files == mid
             || (m[i].partial in mid && offset <= |mid[m[i].partial]| && files == mid[m[i].partial := mid[m[i].partial][..offset]])
    requires TrimmedUpTo(m, i, b, mid) && Trimmed(m[i], b.(files := mid), files)
    ensures Reconciling(m, after, b, files, safe[m[i].id := offset]) && TrimmedUpTo(m, after, b, files)
  {
    SameSafeOffset(m[i], b, mid);
    CutOne(m, i, b, mid, files);
    assert m[..after] == m[..i] + [m[i]];
    ReconciledAppend(m[..i], m[i], b);
  }

  lemma ReconcilingDirectory(m: seq<Entry>, i: nat, after: nat, b: Disk, files: map<Path, Bytes>, safe: Offsets)
    requires after == i + 1 <= |m| && !m[i].kind.File? && Reconciling(m, i, b, files, safe) && TrimmedUpTo(m, i, b, files)
    ensures Reconciling(m, after, b, files, safe) && TrimmedUpTo(m, after, b, files)
  {
    assert m[..after] == m[..i] + [m[i]];
    ReconciledAppend(m[..i], m[i], b);
  }

  /** A restart keeps every file sound, whether or not its commit was reached. */
  lemma RestartKeepsSound(m: seq<Entry>, b: Disk, a: Disk, src: map<EntryId, Bytes>)
    requires DistinctEntries(m) && Sound(m, b, src) && Cut(m, b, a.files) && a.published == b.published
    requires a.offsets == b.offsets || a.offsets == Reconciled(m, b)
    ensures Sound(m, a, src)
    ensures forall e :: e in m && e.kind.File? ==> Off(a.offsets, e.id) == Off(b.offsets, e.id)
  {
    forall e | e in m && e.kind.File?
      ensures EntrySound(e, a, src) && Off(a.offsets, e.id) == Off(b.offsets, e.id)
    {
      assert EntrySound(e, b, src);
      ReconciledAt(m, b, e);
      var i :| 0 <= i < |m| && m[i] == e;
    }
  }

  /** `x` is the smallest of three numbers. */
  predicate Smallest(x: nat, a: nat, b: nat, c: nat) {
    x <= a && x <= b && x <= c && (x == a || x == b || x == c)
  }

  /** The destination of an entry is there with as many bytes as the entry has. */
  predicate Fills(e: Entry, files: map<Path, Bytes>) {
    e.destination in files && |files[e.destination]| == e.size
  }

  /** On any disk whatever: a committed restart records a file whose destination is complete in
      full, a published one whose destination is not as missing altogether, and any other with
      the smallest of its old offset, its size and the bytes still in its partial. */
  lemma RestartIsExact(m: seq<Entry>, b: Disk, a: Disk, e: Entry)
    requires DistinctEntries(m) && a.offsets == Reconciled(m, b) && e in m && e.kind.File?
    ensures Fills(e, b.files) ==> Off(a.offsets, e.id) == e.size
    ensures !Fills(e, b.files) && e.id in b.published ==> Off(a.offsets, e.id) == 0
    ensures !Fills(e, b.files) && e.id !in b.published ==>
              Smallest(Off(a.offsets, e.id), Off(b.offsets, e.id), e.size, |Remains(e, b.files)|)
  {
    ReconciledAt(m, b, e);
  }

  /** What is on disk of an entry is its source or the beginning of it, in one place at most;
      nothing is said about what is recorded. */
  ghost predicate Intact(e: Entry, d: Disk, src: map<EntryId, Bytes>) {
    && e.id in src && |src[e.id]| == e.size
    && if e.destination in d.files then e.partial !in d.files && d.files[e.destination] == src[e.id]
       else e.id !in d.published && Remains(e, d.files) <= src[e.id]
  }

  /** A restart repairs the offsets of a disk whose bytes are right, whatever was recorded: where
      there is a file afterwards the entry is sound, and where its partial is gone nothing is
      recorded. */
  lemma RestartRepairs(m: seq<Entry>, b: Disk, a: Disk, src: map<EntryId, Bytes>, e: Entry)
    requires DistinctEntries(m) && e in m && e.kind.File? && Intact(e, b, src)
    requires Cut(m, b, a.files) && a.published == b.published && a.offsets == Reconciled(m, b)
    ensures e.partial in a.files || e.destination in a.files ==> EntrySound(e, a, src)
    ensures e.partial !in a.files && e.destination !in a.files ==> Off(a.offsets, e.id) == 0
  {
    ReconciledAt(m, b, e);
    var i :| 0 <= i < |m| && m[i] == e;
  }
}
