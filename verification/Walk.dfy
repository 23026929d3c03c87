/** The breadth-first folder walk: what it lists, in which order, and that it always passes
    the hierarchy checks of the manifest builder. */
module Walk {
  import opened Basics
  import opened Paths
  import opened Manifest

  /** What `symlink_metadata` finds at a path. `Special` is neither file nor directory;
      `source` is the canonical path of a file. */
  datatype Node =
    | FileNode(source: string, size: nat, modified: int)
    | DirNode(modified: int, children: seq<Child>)
    | Symlink
    | Special

  datatype Child = Child(name: string, node: Node)

  /** What a file system guarantees of a directory, and canonical paths of files. */
  predicate Natural(node: Node) {
    match node
    case FileNode(source, _, _) => source != ""
    case DirNode(_, children) => NaturalChildren(children)
    case _ => true
  }

  predicate NaturalChildren(children: seq<Child>) {
    && (forall i :: 0 <= i < |children| ==> children[i].name != "" && '/' !in children[i].name && Natural(children[i].node))
    && (forall i, j :: 0 <= i < j < |children| ==> children[i].name != children[j].name)
  }

  function PathOf(directory: string, name: string): string {
    directory + "/" + name
  }

  /** The entry of one child, unless it is skipped. */
  function Own(directory: string, child: Child): Option<SourceItem> {
    match child.node
    case FileNode(source, size, modified) => Some(SourceItem(FileItem, Some(source), PathOf(directory, child.name), size, modified))
    case DirNode(modified, _) => Some(SourceItem(DirectoryItem, None, PathOf(directory, child.name), 0, modified))
    case _ => None
  }

  /** Everything reachable from the children without following symbolic links, listed depth
      first: the simple form of the walk. */
  function Reach(directory: string, children: seq<Child>): seq<SourceItem>
    decreases children
  {
    if children == [] then []
    else
      var child := children[0];
      (match Own(directory, child) case Some(item) => [item] case None => [])
      + (if child.node.DirNode? then Reach(PathOf(directory, child.name), child.node.children) else [])
      + Reach(directory, children[1..])
  }

  function RootItem(name: string, source: string, modified: int): SourceItem {
    SourceItem(DirectoryItem, Some(source), name, 0, modified)
  }

  /** A directory still to be read, with its relative path. */
  datatype Pending = Pending(path: string, children: seq<Child>)

  function Waiting(queue: seq<Pending>): seq<SourceItem> {
    if queue == [] then [] else Reach(queue[0].path, queue[0].children) + Waiting(queue[1..])
  }

  function Weight(children: seq<Child>): nat
    decreases children
  {
    if children == [] then 0
    else 1 + (if children[0].node.DirNode? then 1 + Weight(children[0].node.children) else 0) + Weight(children[1..])
  }

  function QueueWeight(queue: seq<Pending>): nat {
    if queue == [] then 0 else 1 + Weight(queue[0].children) + QueueWeight(queue[1..])
  }

  lemma {:induction false} WaitingAppend(queue: seq<Pending>, p: Pending)
    ensures Waiting(queue + [p]) == Waiting(queue) + Reach(p.path, p.children)
    ensures QueueWeight(queue + [p]) == QueueWeight(queue) + 1 + Weight(p.children)
  {
    if queue == [] {
      assert queue + [p] == [p];
    } else {
      WaitingAppend(queue[1..], p);
      assert (queue + [p])[1..] == queue[1..] + [p];
    }
  }

  // ---------------------------------------------------------------- every path once

  predicate Under(prefix: string, path: string) {
    path == prefix || prefix + "/" <= path
  }

  /** Different names of one directory never lead to the same path. */
  lemma NoClash(directory: string, a: string, b: string, path: string)
    requires '/' !in a && '/' !in b && Under(PathOf(directory, a), path) && Under(PathOf(directory, b), path)
    ensures a == b
  {
    var start := |directory| + 1;
    assert PathOf(directory, a) <= path && PathOf(directory, b) <= path;
    assert path[start..start + |a|] == a && path[start..start + |b|] == b;
    NotShorter(directory, a, b, path);
    NotShorter(directory, b, a, path);
  }

  lemma NotShorter(directory: string, a: string, b: string, path: string)
    requires '/' !in b && Under(PathOf(directory, a), path) && Under(PathOf(directory, b), path)
    ensures |b| <= |a|
  {
    var end := |directory| + 1 + |a|;
    assert end < |path| ==> path == PathOf(directory, a) || path[end] == '/';
  }

  ghost predicate BelowSome(directory: string, children: seq<Child>, path: string) {
    exists i :: 0 <= i < |children| && Under(PathOf(directory, children[i].name), path)
  }

  /** What the first child contributes: itself, then what is below it. */
  function First(directory: string, child: Child): seq<SourceItem> {
    (match Own(directory, child) case Some(item) => [item] case None => [])
    + (if child.node.DirNode? then Reach(PathOf(directory, child.name), child.node.children) else [])
  }

  lemma FirstIsUnder(directory: string, child: Child)
    requires child.node.DirNode? ==>
               forall x :: x in Reach(PathOf(directory, child.name), child.node.children) ==>
                 BelowSome(PathOf(directory, child.name), child.node.children, x.path)
    ensures forall x :: x in First(directory, child) ==> Under(PathOf(directory, child.name), x.path)
  {
    var own := PathOf(directory, child.name);
    forall x | x in First(directory, child)
      ensures Under(own, x.path)
    {
      if child.node.DirNode? && x in Reach(own, child.node.children) {
        var i :| 0 <= i < |child.node.children| && Under(PathOf(own, child.node.children[i].name), x.path);
        assert own + "/" <= x.path;
      }
    }
  }

  lemma {:induction false} ReachIsBelow(directory: string, children: seq<Child>)
    ensures forall item :: item in Reach(directory, children) ==> BelowSome(directory, children, item.path)
    decreases children
  {
    if children != [] {
      var child := children[0];
      ReachIsBelow(directory, children[1..]);
      if child.node.DirNode? {
        ReachIsBelow(PathOf(directory, child.name), child.node.children);
      }
      FirstIsUnder(directory, child);
      assert Reach(directory, children) == First(directory, child) + Reach(directory, children[1..]);
      forall item | item in Reach(directory, children)
        ensures BelowSome(directory, children, item.path)
      {
        if item in Reach(directory, children[1..]) {
          var i :| 0 <= i < |children[1..]| && Under(PathOf(directory, children[1..][i].name), item.path);
          assert children[i + 1] == children[1..][i];
        } else {
          assert item in First(directory, child);
          assert Under(PathOf(directory, children[0].name), item.path);
        }
      }
    }
  }

  ghost predicate PathsDiffer(items: seq<SourceItem>) {
    forall i, j :: 0 <= i < j < |items| ==> items[i].path != items[j].path
  }

  lemma DifferTogether(a: seq<SourceItem>, b: seq<SourceItem>)
    requires PathsDiffer(a) && PathsDiffer(b)
    requires forall x, y :: x in a && y in b ==> x.path != y.path
    ensures PathsDiffer(a + b)
  {
    forall i, j | 0 <= i < j < |a + b|
      ensures (a + b)[i].path != (a + b)[j].path
    {
      if i < |a| <= j {
        assert a[i] in a && b[j - |a|] in b;
      }
    }
  }

  /** Nothing under the first child is below one of the others. */
  lemma FirstIsApart(directory: string, children: seq<Child>, x: string, y: string)
    requires NaturalChildren(children) && children != []
    requires Under(PathOf(directory, children[0].name), x) && BelowSome(directory, children[1..], y)
    ensures x != y
  {
    var i :| 0 <= i < |children[1..]| && Under(PathOf(directory, children[1..][i].name), y);
    assert children[1..][i] == children[i + 1];
    if x == y {
      NoClash(directory, children[0].name, children[i + 1].name, x);
    }
  }

  lemma FirstDiffers(directory: string, child: Child)
    requires child.node.DirNode? ==> PathsDiffer(Reach(PathOf(directory, child.name), child.node.children))
    ensures PathsDiffer(First(directory, child))
  {
    var own := PathOf(directory, child.name);
    if child.node.DirNode? {
      var sub := Reach(own, child.node.children);
      ReachIsBelow(own, child.node.children);
      forall y | y in sub
        ensures own + "/" <= y.path
      {
        var i :| 0 <= i < |child.node.children| && Under(PathOf(own, child.node.children[i].name), y.path);
      }
      DifferTogether([Own(directory, child).value], sub);
    }
  }

  lemma {:induction false} ReachDiffers(directory: string, children: seq<Child>)
    requires NaturalChildren(children)
    ensures PathsDiffer(Reach(directory, children))
    decreases children
  {
    if children != [] {
      var child := children[0];
      assert forall i :: 0 <= i < |children[1..]| ==> children[1..][i] == children[i + 1];
      ReachDiffers(directory, children[1..]);
      ReachIsBelow(directory, children[1..]);
      if child.node.DirNode? {
        ReachDiffers(PathOf(directory, child.name), child.node.children);
      }
      FirstDiffers(directory, child);
      if child.node.DirNode? {
        ReachIsBelow(PathOf(directory, child.name), child.node.children);
      }
      FirstIsUnder(directory, child);
      var first, rest := First(directory, child), Reach(directory, children[1..]);
      forall x, y | x in first && y in rest
        ensures x.path != y.path
      {
        FirstIsApart(directory, children, x.path, y.path);
      }
      DifferTogether(first, rest);
    }
  }

  lemma {:induction false} Twice(items: seq<SourceItem>, x: SourceItem)
    ensures multiset(items)[x] >= 2 <==> exists i, j :: 0 <= i < j < |items| && items[i] == items[j] == x
    decreases |items|
  {
    if items != [] {
      var last := |items| - 1;
      var init := items[..last];
      Twice(init, x);
      assert items == init + [items[last]];
      if exists i, j :: 0 <= i < j < |items| && items[i] == items[j] == x {
        var i, j :| 0 <= i < j < |items| && items[i] == items[j] == x;
        if j == last {
          assert init[i] == x;
          assert x in multiset(init);
        } else {
          assert init[i] == init[j] == x;
        }
      }
      if multiset(items)[x] >= 2 && !(exists i, j :: 0 <= i < j < |init| && init[i] == init[j] == x) {
        assert x in init;
        var i :| 0 <= i < |init| && init[i] == x;
        assert items[i] == items[last] == x;
      }
    }
  }

  lemma ReorderedDiffer(a: seq<SourceItem>, b: seq<SourceItem>)
    requires multiset(a) == multiset(b) && PathsDiffer(b)
    ensures PathsDiffer(a)
  {
    forall i, j | 0 <= i < j < |a|
      ensures a[i].path != a[j].path
    {
      if a[i] == a[j] {
        Twice(a, a[i]);
        Twice(b, a[i]);
      } else {
        assert a[i] in multiset(a) && a[j] in multiset(a);
        var k, l :| 0 <= k < |b| && 0 <= l < |b| && b[k] == a[i] && b[l] == a[j];
      }
    }
  }

  // ------------------------------------------------------------------- the walk

  /** Every item starts at the display name, and every one but the first follows its parent. */
  ghost predicate Ordered(name: string, sources: seq<SourceItem>) {
    forall i :: 0 <= i < |sources| ==>
      && Split(sources[i].path)[0] == name
      && (i > 0 ==> Parent(sources[i].path).Some? && Listed(sources, i, Parent(sources[i].path).value))
  }

  ghost predicate Known(name: string, sources: seq<SourceItem>, directory: Pending) {
    && NaturalChildren(directory.children) && Split(directory.path)[0] == name
    && Listed(sources, |sources|, directory.path)
  }

  ghost predicate AllKnown(name: string, sources: seq<SourceItem>, queue: seq<Pending>) {
    forall k :: 0 <= k < |queue| ==> Known(name, sources, queue[k])
  }

  lemma ListedStays(sources: seq<SourceItem>, n: nat, item: SourceItem, path: string)
    requires n <= |sources| && Listed(sources, n, path)
    ensures Listed(sources + [item], n, path) && Listed(sources + [item], |sources| + 1, path)
  {
    var j :| 0 <= j < n && sources[j].path == path;
    assert (sources + [item])[j].path == path;
  }

  /** A new item of a known directory keeps the order. */
  lemma ItemKeepsOrder(name: string, sources: seq<SourceItem>, queue: seq<Pending>, directory: Pending, child: Child,
                       item: SourceItem)
    requires Ordered(name, sources) && AllKnown(name, sources, queue) && Known(name, sources, directory)
    requires '/' !in child.name && Own(directory.path, child) == Some(item)
    ensures Ordered(name, sources + [item]) && AllKnown(name, sources + [item], queue)
            && Known(name, sources + [item], directory)
    ensures Split(item.path)[0] == name && Listed(sources + [item], |sources| + 1, item.path)
  {
    var more := sources + [item];
    ChildPath(directory.path, child.name);
    assert Split(item.path)[0] == name;
    ListedStays(sources, |sources|, item, directory.path);
    assert more[|sources|] == item;
    forall i | 0 <= i < |more|
      ensures Split(more[i].path)[0] == name && (i > 0 ==> Parent(more[i].path).Some? && Listed(more, i, Parent(more[i].path).value))
    {
      if i < |sources| {
        assert more[i] == sources[i];
        if i > 0 { ListedStays(sources, i, item, Parent(sources[i].path).value); }
      }
    }
    forall k | 0 <= k < |queue|
      ensures Known(name, more, queue[k])
    {
      assert Known(name, sources, queue[k]);
      ListedStays(sources, |sources|, item, queue[k].path);
    }
  }

  /** What is listed and what the queue still holds. */
  function Ledger(sources: seq<SourceItem>, queue: seq<Pending>): multiset<SourceItem> {
    multiset(sources) + multiset(Waiting(queue))
  }

  function ListedWith(directory: string, child: Child, sources: seq<SourceItem>): seq<SourceItem> {
    match Own(directory, child) case Some(item) => sources + [item] case None => sources
  }

  function QueuedWith(directory: string, child: Child, queue: seq<Pending>): seq<Pending> {
    if child.node.DirNode? then queue + [Pending(PathOf(directory, child.name), child.node.children)] else queue
  }

  /** One child moves from what is left of its directory to the list or the queue. */
  lemma ChildMoves(directory: string, children: seq<Child>, k: nat, next: nat, sources: seq<SourceItem>,
                   queue: seq<Pending>)
    requires next == k + 1 <= |children|
    ensures var child := children[k];
            var after, later := ListedWith(directory, child, sources), QueuedWith(directory, child, queue);
            && Ledger(sources, queue) + multiset(Reach(directory, children[k..]))
               == Ledger(after, later) + multiset(Reach(directory, children[next..]))
            && QueueWeight(later) + Weight(children[next..]) <= QueueWeight(queue) + Weight(children[k..])
  {
    var child := children[k];
    assert children[k..][0] == child && children[k..][1..] == children[next..];
    var rest := Reach(directory, children[next..]);
    assert Reach(directory, children[k..]) == First(directory, child) + rest;
    if child.node.DirNode? {
      WaitingAppend(queue, Pending(PathOf(directory, child.name), child.node.children));
    }
  }

  /** The walk of one directory after `k` children. */
  ghost predicate Reading(name: string, directory: Pending, listed: seq<SourceItem>, waiting: seq<Pending>,
                          k: nat, sources: seq<SourceItem>, queue: seq<Pending>)
  {
    && k <= |directory.children| && listed <= sources
    && Ordered(name, sources) && AllKnown(name, sources, queue) && Known(name, sources, directory)
    && Ledger(sources, queue) + multiset(Reach(directory.path, directory.children[k..]))
       == Ledger(listed, waiting) + multiset(Reach(directory.path, directory.children))
    && QueueWeight(queue) + Weight(directory.children[k..]) <= QueueWeight(waiting) + Weight(directory.children)
  }

  lemma ReadingStarts(name: string, directory: Pending, listed: seq<SourceItem>, waiting: seq<Pending>)
    requires Ordered(name, listed) && AllKnown(name, listed, waiting) && Known(name, listed, directory)
    ensures Reading(name, directory, listed, waiting, 0, listed, waiting)
  {
    assert directory.children[0..] == directory.children;
  }

  /** No more is listed than there is. */
  lemma ReadingCounts(name: string, directory: Pending, listed: seq<SourceItem>, waiting: seq<Pending>,
                      k: nat, sources: seq<SourceItem>, queue: seq<Pending>)
    requires Reading(name, directory, listed, waiting, k, sources, queue)
    ensures |sources| <= |listed| + |Waiting(waiting)| + |Reach(directory.path, directory.children)|
  {
    var left, all := multiset(Reach(directory.path, directory.children[k..])), multiset(Reach(directory.path, directory.children));
    assert |Ledger(sources, queue) + left| == |sources| + |Waiting(queue)| + |left|;
    assert |Ledger(listed, waiting) + all| == |listed| + |Waiting(waiting)| + |Reach(directory.path, directory.children)|;
  }

  lemma ReadingGoesOn(name: string, directory: Pending, listed: seq<SourceItem>, waiting: seq<Pending>,
                      k: nat, after: nat, sources: seq<SourceItem>, queue: seq<Pending>)
    requires Reading(name, directory, listed, waiting, k, sources, queue) && after == k + 1 <= |directory.children|
    ensures var child := directory.children[k];
            Reading(name, directory, listed, waiting, after, ListedWith(directory.path, child, sources), QueuedWith(directory.path, child, queue))
  {
    ChildMoves(directory.path, directory.children, k, after, sources, queue);
    ChildKnown(name, sources, queue, directory, directory.children[k]);
  }

  /** Listing a child of a known directory, and queueing it if it is one, keeps the order. */
  lemma ChildKnown(name: string, sources: seq<SourceItem>, queue: seq<Pending>, directory: Pending, child: Child)
    requires Ordered(name, sources) && AllKnown(name, sources, queue) && Known(name, sources, directory)
    requires '/' !in child.name && Natural(child.node)
    ensures var more, later := ListedWith(directory.path, child, sources), QueuedWith(directory.path, child, queue);
            Ordered(name, more) && AllKnown(name, more, later) && Known(name, more, directory)
  {
    if Own(directory.path, child).Some? {
      ItemKeepsOrder(name, sources, queue, directory, child, Own(directory.path, child).value);
    }
  }

  lemma ReadingEnds(name: string, directory: Pending, listed: seq<SourceItem>, waiting: seq<Pending>,
                    sources: seq<SourceItem>, queue: seq<Pending>)
    requires Reading(name, directory, listed, waiting, |directory.children|, sources, queue)
    ensures ReadingDone(name, directory, listed, waiting, sources, queue) && listed <= sources
    ensures QueueWeight(queue) <= QueueWeight(waiting) + Weight(directory.children)
  {
    assert directory.children[|directory.children|..] == [];
  }

  lemma ReadingLimit(name: string, directory: Pending, listed: seq<SourceItem>, waiting: seq<Pending>,
                     k: nat, sources: seq<SourceItem>, queue: seq<Pending>, files: nat)
    requires Reading(name, directory, listed, waiting, k, sources, queue) && files <= |sources|
    requires |sources| >= MAX_MANIFEST_ENTRIES || files >= MAX_FILE_ENTRIES
    ensures MAX_FILE_ENTRIES <= |listed| + |Waiting(waiting)| + |Reach(directory.path, directory.children)|
  {
    ReadingCounts(name, directory, listed, waiting, k, sources, queue);
  }

  /** One child: a directory is listed and queued, a file is listed within its limit, anything
      else is skipped. */
  method TakeChild(directory: string, child: Child, listed: seq<SourceItem>, files: nat, waiting: seq<Pending>, calm: bool)
    returns (failure: Option<ManifestError>, sources: seq<SourceItem>, fileCount: nat, queue: seq<Pending>)
    ensures failure == None ==>
              && sources == ListedWith(directory, child, listed) && queue == QueuedWith(directory, child, waiting)
              && fileCount == files + if child.node.FileNode? then 1 else 0
    ensures failure in {None, Some(EntryLimit), Some(SourceUnavailable)} && (calm ==> failure != Some(SourceUnavailable))
    ensures failure == Some(EntryLimit) <==>
              |listed| >= MAX_MANIFEST_ENTRIES || (failure != Some(SourceUnavailable) && child.node.FileNode? && files >= MAX_FILE_ENTRIES)
  {
    sources, fileCount, queue := listed, files, waiting;
    if |sources| >= MAX_MANIFEST_ENTRIES { return Some(EntryLimit), sources, fileCount, queue; }
    var unavailable: bool := *;
    if unavailable && !calm { return Some(SourceUnavailable), sources, fileCount, queue; }
    var path := PathOf(directory, child.name);
    match child.node {
      case DirNode(modified, grandchildren) =>
        sources := sources + [SourceItem(DirectoryItem, None, path, 0, modified)];
        queue := queue + [Pending(path, grandchildren)];
      case FileNode(source, size, modified) =>
        if fileCount >= MAX_FILE_ENTRIES { return Some(EntryLimit), sources, fileCount, queue; }
        fileCount := fileCount + 1;
        sources := sources + [SourceItem(FileItem, Some(source), path, size, modified)];
      case _ =>
    }
    failure := None;
  }

  /** The inner loop: lists the children of one directory and queues its subdirectories. */
  method ReadDirectory(name: string, directory: Pending, listed: seq<SourceItem>, files: nat, waiting: seq<Pending>,
                       calm: bool)
    returns (failure: Option<ManifestError>, sources: seq<SourceItem>, fileCount: nat, queue: seq<Pending>)
    requires Ordered(name, listed) && AllKnown(name, listed, waiting) && Known(name, listed, directory)
    requires files <= |listed|
    ensures failure in {None, Some(EntryLimit), Some(SourceUnavailable)}
    ensures calm ==> failure != Some(SourceUnavailable)
    ensures failure == Some(EntryLimit) ==>
              MAX_FILE_ENTRIES <= |listed| + |Waiting(waiting)| + |Reach(directory.path, directory.children)|
    ensures failure == None ==>
              && fileCount <= |sources| && ReadingDone(name, directory, listed, waiting, sources, queue)
              && listed <= sources && QueueWeight(queue) <= QueueWeight(waiting) + Weight(directory.children)
  {
    sources, fileCount, queue := listed, files, waiting;
    var k: nat, children := 0, directory.children;
    ReadingStarts(name, directory, listed, waiting);
    while k < |children|
      invariant Reading(name, directory, listed, waiting, k, sources, queue) && fileCount <= |sources|
    {
      var after := k + 1;
      ReadingGoesOn(name, directory, listed, waiting, k, after, sources, queue);
      ghost var soFar, known, counted := sources, queue, fileCount;
      failure, sources, fileCount, queue := TakeChild(directory.path, children[k], sources, fileCount, queue, calm);
      if failure.Some? {
        if failure == Some(EntryLimit) {
          ReadingLimit(name, directory, listed, waiting, k, soFar, known, counted);
        }
        return;
      }
      k := after;
    }
    ReadingEnds(name, directory, listed, waiting, sources, queue);
    return None, sources, fileCount, queue;
  }

  /** Everything of the directory is listed or queued. */
  ghost predicate ReadingDone(name: string, directory: Pending, listed: seq<SourceItem>, waiting: seq<Pending>,
                              sources: seq<SourceItem>, queue: seq<Pending>)
  {
    && Ordered(name, sources) && AllKnown(name, sources, queue)
    && Ledger(sources, queue) == Ledger(listed, waiting) + multiset(Reach(directory.path, directory.children))
  }

  /** The walk so far: what is listed and what is queued is everything. */
  ghost predicate Walking(name: string, all: seq<SourceItem>, sources: seq<SourceItem>, queue: seq<Pending>) {
    Ordered(name, sources) && AllKnown(name, sources, queue) && Ledger(sources, queue) == multiset(all)
  }

  lemma WalkStarts(name: string, root: SourceItem, children: seq<Child>)
    requires root.path == name && '/' !in name && NaturalChildren(children)
    ensures Walking(name, [root] + Reach(name, children), [root], [Pending(name, children)])
  {
    assert Listed([root], 1, name) && Split(name) == [name];
    assert Waiting([Pending(name, children)]) == Reach(name, children) + [];
  }

  lemma WalkGoesOn(name: string, all: seq<SourceItem>, listed: seq<SourceItem>, waiting: seq<Pending>,
                   sources: seq<SourceItem>, queue: seq<Pending>)
    requires waiting != [] && Walking(name, all, listed, waiting)
    requires ReadingDone(name, waiting[0], listed, waiting[1..], sources, queue)
    ensures Walking(name, all, sources, queue)
  {
    assert Waiting(waiting) == Reach(waiting[0].path, waiting[0].children) + Waiting(waiting[1..]);
  }

  lemma WalkCounts(name: string, all: seq<SourceItem>, sources: seq<SourceItem>, queue: seq<Pending>)
    requires Walking(name, all, sources, queue) && queue != []
    ensures |sources| + |Waiting(queue[1..])| + |Reach(queue[0].path, queue[0].children)| == |all|
  {
    assert |Ledger(sources, queue)| == |sources| + |Waiting(queue)|;
    assert Waiting(queue) == Reach(queue[0].path, queue[0].children) + Waiting(queue[1..]);
  }

  /** The worklist loop. `children` are in the order the walk sorts them. A calm walk of a folder
      with fewer than 10,000 entries always ends with the list. */
  method ListFolder(name: string, root: SourceItem, children: seq<Child>, calm: bool)
    returns (failure: Option<ManifestError>, sources: seq<SourceItem>)
    requires root.path == name && '/' !in name && NaturalChildren(children)
    ensures failure in {None, Some(EntryLimit), Some(SourceUnavailable)}
    ensures calm && |Reach(name, children)| + 1 < MAX_FILE_ENTRIES ==> failure == None
    ensures failure == None ==>
              && multiset(sources) == multiset([root] + Reach(name, children))
              && Ordered(name, sources) && PathsDiffer(sources) && sources[0] == root
  {
    sources := [root];
    var fileCount: nat, queue := 0, [Pending(name, children)];
    ghost var all := [root] + Reach(name, children);
    WalkStarts(name, root, children);
    while queue != []
      invariant Walking(name, all, sources, queue) && [root] <= sources && fileCount <= |sources|
      decreases QueueWeight(queue)
    {
      ghost var listed, waiting := sources, queue;
      WalkCounts(name, all, sources, queue);
      failure, sources, fileCount, queue := ReadDirectory(name, queue[0], sources, fileCount, queue[1..], calm);
      if failure.Some? { return; }
      WalkGoesOn(name, all, listed, waiting, sources, queue);
    }
    failure := None;
    RootDiffers(name, root, children);
    ReorderedDiffer(sources, [root] + Reach(name, children));
  }

  lemma RootDiffers(name: string, root: SourceItem, children: seq<Child>)
    requires root.path == name && NaturalChildren(children)
    ensures PathsDiffer([root] + Reach(name, children))
  {
    ReachDiffers(name, children);
    ReachIsBelow(name, children);
    forall y | y in Reach(name, children)
      ensures y.path != name
    {
      var i :| 0 <= i < |children| && Under(PathOf(name, children[i].name), y.path);
    }
    DifferTogether([root], Reach(name, children));
  }

  /** A list in which parents come first and no path repeats passes every hierarchy check. */
  lemma WalkIsHierarchical(name: string, sources: seq<SourceItem>)
    requires sources != [] && Ordered(name, sources) && PathsDiffer(sources)
    requires sources[0].path == name && '/' !in name && sources[0].kind.DirectoryItem?
    ensures Hierarchical(Folder, name, sources)
  {
    forall i | 0 <= i < |sources|
      ensures Placed(name, sources, i)
    {
    }
  }

  /** The manifest of a list, with ids generated in order. */
  function BuiltFrom(kind: MessageKind, name: string, sources: seq<SourceItem>, generate: nat -> nat): TransferManifest {
    Built(kind, name, sources, seq(|sources|, i requires 0 <= i < |sources| => generate(i)))
  }

  lemma {:induction false} ReachIsSourced(directory: string, children: seq<Child>)
    requires NaturalChildren(children)
    ensures forall item :: item in Reach(directory, children) ==> HasSource(item)
    decreases children
  {
    if children != [] {
      var child := children[0];
      assert forall i :: 0 <= i < |children[1..]| ==> children[1..][i] == children[i + 1];
      ReachIsSourced(directory, children[1..]);
      if child.node.DirNode? {
        ReachIsSourced(PathOf(directory, child.name), child.node.children);
      }
    }
  }

  lemma ListIsSourced(sources: seq<SourceItem>, root: SourceItem, directory: string, children: seq<Child>)
    requires NaturalChildren(children) && HasSource(root)
    requires multiset(sources) == multiset([root] + Reach(directory, children))
    ensures AllSourced(sources)
  {
    ReachIsSourced(directory, children);
    forall i | 0 <= i < |sources|
      ensures HasSource(sources[i])
    {
      assert sources[i] in multiset(sources);
    }
  }

  /** Lists a folder and builds its manifest. On success the entries are exactly the root and
      everything reachable from it without symbolic links, each once, parents first; and the
      builder never objects to their hierarchy. */
  method EnumerateFolder(name: string, source: string, modified: int, children: seq<Child>,
                         generate: nat -> nat, fits: TransferManifest -> bool, calm: bool)
    returns (result: Result<TransferManifest, ManifestError>, ghost listed: seq<SourceItem>)
    requires '/' !in name && source != "" && NaturalChildren(children)
    requires forall i: nat, j: nat :: i != j ==> generate(i) != generate(j)
    ensures result.Err? ==> result.error !in {InvalidHierarchy, SymbolicLink, InvalidMessageKind}
    ensures result.Ok? ==>
              && ValidManifest(result.value, fits) && result.value.name == name && result.value.kind == Folder
              && multiset(SourcesOf(result.value.entries)) == multiset([RootItem(name, source, modified)] + Reach(name, children))
              && Ordered(name, SourcesOf(result.value.entries)) && PathsDiffer(SourcesOf(result.value.entries))
    ensures calm && |Reach(name, children)| + 1 < MAX_FILE_ENTRIES ==>
              && multiset(listed) == multiset([RootItem(name, source, modified)] + Reach(name, children))
              && (result.Ok? <==> Acceptable(Folder, name, listed) && fits(BuiltFrom(Folder, name, listed, generate)))
  {
    var failure, sources := ListFolder(name, RootItem(name, source, modified), children, calm);
    listed := sources;
    if failure.Some? { return Err(failure.value), listed; }
    ListIsSourced(sources, RootItem(name, source, modified), name, children);
    WalkIsHierarchical(name, sources);
    var ids := seq(|sources|, i requires 0 <= i < |sources| => generate(i));
    result := BuildManifest(Folder, name, sources, ids, fits);
    if result.Ok? {
      RemoteSources(Folder, name, sources, ids);
    }
  }

  /** `enumerate_path`: `node` is what `symlink_metadata` finds at the chosen path, `name` its
      last component and `source` its canonical path. */
  method EnumeratePath(node: Node, kind: MessageKind, name: string, source: string, generate: nat -> nat,
                       fits: TransferManifest -> bool, calm: bool)
    returns (result: Result<TransferManifest, ManifestError>, ghost listed: seq<SourceItem>)
    requires '/' !in name && source != "" && Natural(node)
    requires forall i: nat, j: nat :: i != j ==> generate(i) != generate(j)
    ensures result != Err(InvalidHierarchy)
    ensures result == Err(SymbolicLink) <==> node.Symlink?
    ensures result == Err(InvalidMessageKind) <==> !node.Symlink? && !(KindOk(kind) && if kind.Folder? then node.DirNode? else node.FileNode?)
    ensures result.Ok? ==> KindOk(kind) && (if kind.Folder? then node.DirNode? else node.FileNode?) && ValidManifest(result.value, fits)
    ensures result.Ok? ==>
              multiset(SourcesOf(result.value.entries)) ==
              if kind.Folder? then multiset([RootItem(name, source, node.modified)] + Reach(name, node.children))
              else multiset{SourceItem(FileItem, Some(source), name, node.size, node.modified)}
    ensures KindOk(kind) && calm && (if kind.Folder? then node.DirNode? && |Reach(name, node.children)| + 1 < MAX_FILE_ENTRIES else node.FileNode?) ==>
              && multiset(listed) == (if kind.Folder? then multiset([RootItem(name, source, node.modified)] + Reach(name, node.children))
                                      else multiset{SourceItem(FileItem, Some(source), name, node.size, node.modified)})
              && (result.Ok? <==> Acceptable(kind, name, listed) && fits(BuiltFrom(kind, name, listed, generate)))
  {
    listed := [];
    if node.Symlink? { return Err(SymbolicLink), listed; }
    match kind
    case File | Image | ClipboardImage =>
      if !node.FileNode? { return Err(InvalidMessageKind), listed; }
      var sources := [SourceItem(FileItem, Some(source), name, node.size, node.modified)];
      listed := sources;
      assert Placed(name, sources, 0);
      assert seq(1, i requires 0 <= i < 1 => generate(i)) == [generate(0)];
      result := BuildManifest(kind, name, sources, [generate(0)], fits);
      if result.Ok? { RemoteSources(kind, name, sources, [generate(0)]); }
    case Folder =>
      if !node.DirNode? { return Err(InvalidMessageKind), listed; }
      result, listed := EnumerateFolder(name, source, node.modified, node.children, generate, fits, calm);
    case _ =>
      return Err(InvalidMessageKind), listed;
  }
}
