/** What "reachable" means for the folder walk: a chain of names, each in the directory before it,
    none of them a symbolic link. */
module Reachable {
  import opened Basics
  import opened Paths
  import opened Manifest
  import opened Walk

  /** The chain `names`, from a directory with these children, ends at `node`; everything on the
      way is a directory. */
  ghost predicate Leads(children: seq<Child>, names: seq<string>, node: Node)
    decreases |names|
  {
    && names != []
    && exists i :: 0 <= i < |children| && children[i].name == names[0] && Continues(children[i].node, names, node)
  }

  ghost predicate Continues(first: Node, names: seq<string>, node: Node)
    requires names != []
    decreases |names|, 0
  {
    if |names| == 1 then first == node else first.DirNode? && Leads(first.children, names[1..], node)
  }

  function PathTo(directory: string, names: seq<string>): string
    decreases |names|
  {
    if names == [] then directory else PathTo(directory + "/" + names[0], names[1..])
  }

  /** The entry that stands for a file or directory at `path`: its kind, its own size and time,
      and for a file its canonical path. */
  predicate Describes(item: SourceItem, path: string, node: Node) {
    && item.path == path
    && match node
       case FileNode(source, size, modified) =>
         item.kind == FileItem && item.source == Some(source) && item.size == size && item.modified == modified
       case DirNode(modified, _) => item.kind == DirectoryItem && item.source == None && item.size == 0 && item.modified == modified
       case _ => false
  }

  /** Everything listed is reachable, and described as it is. */
  lemma {:induction false} ListedIsReachable(directory: string, children: seq<Child>, item: SourceItem)
    returns (names: seq<string>, node: Node)
    requires item in Reach(directory, children)
    ensures Leads(children, names, node) && Describes(item, PathTo(directory, names), node)
    decreases children
  {
    var child, own := children[0], PathOf(directory, children[0].name);
    assert Reach(directory, children) == First(directory, child) + Reach(directory, children[1..]);
    if Own(directory, child) == Some(item) {
      names, node := [child.name], child.node;
      assert Continues(child.node, names, node);
      assert PathTo(own, names[1..]) == own;
    } else if child.node.DirNode? && item in Reach(own, child.node.children) {
      var rest;
      rest, node := ListedIsReachable(own, child.node.children, item);
      names := [child.name] + rest;
      assert names[1..] == rest;
      assert Continues(child.node, names, node);
    } else {
      names, node := ListedIsReachable(directory, children[1..], item);
      LeadsLater(children, names, node);
    }
  }

  lemma LeadsLater(children: seq<Child>, names: seq<string>, node: Node)
    requires children != [] && Leads(children[1..], names, node)
    ensures Leads(children, names, node)
  {
    var i :| 0 <= i < |children[1..]| && children[1..][i].name == names[0] && Continues(children[1..][i].node, names, node);
    assert children[i + 1] == children[1..][i];
  }

  /** And every file and directory that is reachable is listed. */
  lemma {:induction false} ReachableIsListed(directory: string, children: seq<Child>, names: seq<string>, node: Node)
    returns (item: SourceItem)
    requires Leads(children, names, node) && (node.FileNode? || node.DirNode?)
    ensures item in Reach(directory, children) && Describes(item, PathTo(directory, names), node)
    decreases |names|, children
  {
    var child, own := children[0], PathOf(directory, children[0].name);
    assert Reach(directory, children) == First(directory, child) + Reach(directory, children[1..]);
    var i :| 0 <= i < |children| && children[i].name == names[0] && Continues(children[i].node, names, node);
    if i > 0 {
      assert children[1..][i - 1] == children[i];
      item := ReachableIsListed(directory, children[1..], names, node);
    } else if |names| == 1 {
      item := Own(directory, child).value;
      assert names[1..] == [] && PathTo(own, names[1..]) == own;
    } else {
      item := ReachableIsListed(own, child.node.children, names[1..], node);
    }
  }
}
