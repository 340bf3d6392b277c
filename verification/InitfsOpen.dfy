/** Opening a path: the walk over an image finds what the path names in the tree. */
module InitfsOpen {
  import opened Prelude
  import opened Results
  import opened Bytes
  import opened InitfsTypes
  import opened InitfsBuilder
  import opened InitfsReader
  import opened InitfsRoundTrip

  datatype Errno = EACCES | EBADF | EIO | ENOENT | EOPNOTSUPP | EXDEV
  type Reply<+T> = Result<T, Errno>

  type Name = seq<byte>

  const SLASH: byte := 0x2f
  const DOT: Name := [0x2e]
  const DOT_DOT: Name := [0x2e, 0x2e]

  // ---------------------------------------------------------------- paths

  /** Length of the part before the first slash. */
  function Head(path: seq<byte>): (k: nat)
    ensures k <= |path| && SLASH !in path[..k] && (k < |path| ==> path[k] == SLASH)
  {
    if path == [] || path[0] == SLASH then 0
    else
      assert path == [path[0]] + path[1..];
      1 + Head(path[1..])
  }

  /** The non-empty parts between slashes. */
  function Components(path: seq<byte>): seq<Name>
    decreases |path|
  {
    if path == [] then []
    else if path[0] == SLASH then Components(path[1..])
    else [path[..Head(path)]] + Components(path[Head(path)..])
  }

  function Join(names: seq<Name>): seq<byte> {
    if names == [] then [] else [SLASH] + names[0] + Join(names[1..])
  }

  ghost predicate Proper(name: Name) { name != [] && SLASH !in name }

  lemma {:induction false} HeadOfName(name: Name, rest: seq<byte>)
    requires SLASH !in name && (rest == [] || rest[0] == SLASH)
    ensures Head(name + rest) == |name|
    decreases name
  {
    if name == [] {
      assert name + rest == rest;
    } else {
      assert name[0] in name && (name + rest)[1..] == name[1..] + rest;
      HeadOfName(name[1..], rest);
    }
  }

  lemma FirstComponent(name: Name, rest: seq<byte>)
    requires Proper(name) && (rest == [] || rest[0] == SLASH)
    ensures Components([SLASH] + name + rest) == [name] + Components(rest)
  {
    var path := name + rest;
    assert [SLASH] + name + rest == [SLASH] + path && ([SLASH] + path)[1..] == path;
    HeadOfName(name, rest);
    assert path[0] == name[0] && name[0] in name;
    assert path[..|name|] == name && path[|name|..] == rest;
  }

  /** Joining names with slashes and taking the path apart again. */
  lemma {:induction false} ComponentsOfJoin(names: seq<Name>)
    requires forall n | n in names :: Proper(n)
    ensures Components(Join(names)) == names
    decreases names
  {
    if names != [] {
      assert names[0] in names && Proper(names[0]);
      FirstComponent(names[0], Join(names[1..]));
      ComponentsOfJoin(names[1..]);
    }
  }

  // ---------------------------------------------------------------- the walk over an image

  /** The first entry with this name, from entry `idx` on. */
  function Find(img: seq<byte>, h: InodeHeader, name: Name, idx: nat): Reply<nat>
    decreases if Entries(img, h).Some? then |Entries(img, h).value| - idx else 0
  {
    match GetEntry(img, h, idx)
    case None => Err(EIO)
    case Some(None) => Err(ENOENT)
    case Some(Some(d)) =>
      match NameOf(img, d)
      case None => Err(EIO)
      case Some(n) => if n == name then Ok(d.inode) else Find(img, h, name, idx + 1)
  }

  function DropLast(names: seq<Name>): (r: seq<Name>)
    ensures |r| <= |names|
  {
    if names == [] then [] else names[..|names| - 1]
  }

  /** One named component down from inode `id`. */
  function Descend(img: seq<byte>, id: nat, name: Name): Reply<nat>
    requires Mounted(img)
  {
    match GetInode(img, id)
    case None => Err(EIO)
    case Some(h) =>
      match KindOf(h)
      case DirKind => Find(img, h, name, 0)
      case LinkKind => Err(EOPNOTSUPP)
      case _ => Err(ENOENT)
  }

  function Walk(img: seq<byte>, id: nat, names: seq<Name>): Reply<nat>
    requires Mounted(img)
    decreases |names|
  {
    if names == [] then Ok(id)
    else if names[0] == DOT then Walk(img, id, names[1..])
    else if names[0] == DOT_DOT then Walk(img, id, DropLast(names[1..]))
    else match Descend(img, id, names[0])
      case Err(e) => Err(e)
      case Ok(next) => Walk(img, next, names[1..])
  }

  /** The inode a path opens, links being refused unless the caller wants the link itself. */
  function Open(img: seq<byte>, names: seq<Name>, wantsLink: bool): Reply<nat>
    requires Mounted(img)
  {
    match Walk(img, RootInode(img), names)
    case Err(e) => Err(e)
    case Ok(id) =>
      match GetInode(img, id)
      case None => Err(EIO)
      case Some(h) => if KindOf(h) == LinkKind && !wantsLink then Err(EXDEV) else Ok(id)
  }

  // ---------------------------------------------------------------- the same on trees

  function Child(es: seq<Entry>, name: Name, k: nat): Option<Node>
    decreases |es| - k
  {
    if k >= |es| then None else if es[k].name == name then Some(es[k].node) else Child(es, name, k + 1)
  }

  /** What a path of plain names leads to. */
  function Resolve(n: Node, names: seq<Name>): Reply<Node>
    decreases |names|
  {
    if names == [] then Ok(n)
    else match n
      case Link(_) => Err(EOPNOTSUPP)
      case File(_, _) => Err(ENOENT)
      case Dir(es) =>
        match Child(es, names[0], 0)
        case None => Err(ENOENT)
        case Some(c) => Resolve(c, names[1..])
  }

  /** The names the walk really follows: `.` is skipped, `..` cancels the path's last component. */
  function Followed(names: seq<Name>): (r: seq<Name>)
    ensures |r| <= |names|
    decreases |names|
  {
    if names == [] then []
    else if names[0] == DOT then Followed(names[1..])
    else if names[0] == DOT_DOT then Followed(DropLast(names[1..]))
    else [names[0]] + Followed(names[1..])
  }

  ghost predicate Plain(names: seq<Name>) { DOT !in names && DOT_DOT !in names }

  lemma {:induction false} FollowedIffPlain(names: seq<Name>)
    ensures Followed(names) == names <==> Plain(names)
    decreases |names|
  {
    if names != [] {
      FollowedIffPlain(names[1..]);
      assert names == [names[0]] + names[1..];
    }
  }

  /** A `..` does not undo the name before it: it removes the last name after it. */
  lemma {:induction false} DotDotDropsLast(before: seq<Name>, after: seq<Name>)
    requires Plain(before)
    ensures Followed(before + [DOT_DOT] + after) == before + Followed(DropLast(after))
    decreases before
  {
    var all := before + [DOT_DOT] + after;
    if before == [] {
      assert all[1..] == after;
    } else {
      DotDotDropsLast(before[1..], after);
      assert before[0] in before && all[1..] == before[1..] + [DOT_DOT] + after;
    }
  }

  /** What `..` is meant to do: each one undoes the name before it, if there is one. */
  function Lexical(names: seq<Name>): (r: seq<Name>)
    ensures |r| <= |names|
    decreases |names|
  {
    if names == [] then []
    else
      var last, done := names[|names| - 1], Lexical(names[..|names| - 1]);
      if last == DOT then done else if last == DOT_DOT then DropLast(done) else done + [last]
  }

  lemma {:induction false} LexicalPlain(before: seq<Name>, after: seq<Name>)
    requires Plain(after)
    ensures Lexical(before + after) == Lexical(before) + after
    decreases |after|
  {
    if after == [] {
      assert before + after == before;
    } else {
      var k := |after| - 1;
      LexicalPlain(before, after[..k]);
      assert after[k] in after && (before + after)[..|before| + k] == before + after[..k];
      assert after == after[..k] + [after[k]];
    }
  }

  lemma LexicalDotDot(before: seq<Name>, after: seq<Name>)
    requires Plain(before) && Plain(after)
    ensures Lexical(before + [DOT_DOT] + after) == DropLast(before) + after
  {
    LexicalPlain(before + [DOT_DOT], after);
    assert (before + [DOT_DOT])[..|before|] == before;
    LexicalPlain([], before);
    assert [] + before == before;
  }

  lemma PlainPrefix(names: seq<Name>)
    requires Plain(names)
    ensures Followed(DropLast(names)) == DropLast(names)
  {
    FollowedIffPlain(DropLast(names));
  }

  /** Dropping the last of `after` and dropping the last of `before` come to the same. */
  lemma {:induction false} SameDrop(x: Name, after: seq<Name>)
    ensures [x] + DropLast(after) == after <==> after != [] && forall n | n in after :: n == x
    decreases |after|
  {
    var whole := [x] + DropLast(after);
    if after != [] {
      if whole == after {
        assert forall i | 0 < i < |after| :: after[i] == DropLast(after)[i - 1];
        AllEqual(x, after, |after|);
      }
      if forall n | n in after :: n == x {
        assert forall i | 0 <= i < |after| :: after[i] in after;
        assert whole == after;
      }
    }
  }

  lemma {:induction false} AllEqual(x: Name, names: seq<Name>, k: nat)
    requires k <= |names| && (names != [] ==> names[0] == x) && forall i | 0 < i < |names| :: names[i] == names[i - 1]
    ensures forall i | 0 <= i < k :: names[i] == x
    decreases k
  {
    if k > 1 {
      AllEqual(x, names, k - 1);
      assert names[k - 1] == names[k - 2];
    }
  }

  lemma DropsAgreeIff(before: seq<Name>, after: seq<Name>)
    ensures
      before + DropLast(after) == DropLast(before) + after <==>
        if before == [] || after == [] then before == after
        else forall n | n in after :: n == before[|before| - 1]
  {
    if before != [] {
      var front, x := DropLast(before), before[|before| - 1];
      assert before + DropLast(after) == front + ([x] + DropLast(after));
      SamePrefix(front, [x] + DropLast(after), after);
      SameDrop(x, after);
    }
  }

  /**
   Exactly when one `..` among plain names does what it is meant to: when it stands alone, or
   when every name after it repeats the name before it.
   */
  lemma DotDotRightIff(before: seq<Name>, after: seq<Name>)
    requires Plain(before) && Plain(after)
    ensures
      var names := before + [DOT_DOT] + after;
      Followed(names) == Lexical(names) <==>
        if before == [] || after == [] then before == after
        else forall n | n in after :: n == before[|before| - 1]
  {
    DotDotDropsLast(before, after);
    LexicalDotDot(before, after);
    PlainPrefix(after);
    DropsAgreeIff(before, after);
  }

  lemma SamePrefix(p: seq<Name>, a: seq<Name>, b: seq<Name>)
    ensures p + a == p + b <==> a == b
  {
    assert (p + a)[|p|..] == a && (p + b)[|p|..] == b;
  }

  // ---------------------------------------------------------------- the walk follows the tree

  lemma FindStep(img: seq<byte>, h: InodeHeader, ds: seq<DirEntry>, name: Name, k: nat)
    requires Entries(img, h) == Some(ds) && k <= |ds|
    ensures
      Find(img, h, name, k) ==
        if k == |ds| then Err(ENOENT)
        else match NameOf(img, ds[k])
          case None => Err(EIO)
          case Some(n) => if n == name then Ok(ds[k].inode) else Find(img, h, name, k + 1)
  {}

  /** At an entry whose name reads back, the search stops exactly if it is the name sought. */
  lemma FindHere(img: seq<byte>, h: InodeHeader, ds: seq<DirEntry>, k: nat, found: Name, name: Name)
    requires Entries(img, h) == Some(ds) && k < |ds| && NameOf(img, ds[k]) == Some(found)
    ensures Find(img, h, name, k) == if found == name then Ok(ds[k].inode) else Find(img, h, name, k + 1)
  {
    FindStep(img, h, ds, name, k);
  }

  lemma NamedAndShown(img: seq<byte>, d: DirEntry, e: Entry)
    requires Mounted(img) && ShowsEntry(img, d, e)
    ensures NameOf(img, d) == Some(e.name) && Shows(img, d.inode, e.node)
  {}

  /** The `j`-th record reads back as the `j`-th entry. */
  ghost predicate Shown(img: seq<byte>, ds: seq<DirEntry>, es: seq<Entry>, j: nat)
    requires Mounted(img) && |ds| == |es| && j < |es|
  {
    ShowsEntry(img, ds[j], es[j])
  }

  lemma {:induction false} FindsChild(img: seq<byte>, h: InodeHeader, ds: seq<DirEntry>, es: seq<Entry>, name: Name, k: nat)
    requires Mounted(img) && Entries(img, h) == Some(ds) && |ds| == |es| && k <= |es|
    requires forall j: nat {:trigger Shown(img, ds, es, j)} | j < |es| :: Shown(img, ds, es, j)
    ensures
      match Child(es, name, k)
      case None => Find(img, h, name, k) == Err(ENOENT)
      case Some(c) => Find(img, h, name, k).Ok? && Shows(img, Find(img, h, name, k).value, c)
    decreases |es| - k
  {
    if k == |es| {
      FindStep(img, h, ds, name, k);
    } else {
      assert Shown(img, ds, es, k);
      NamedAndShown(img, ds[k], es[k]);
      FindHere(img, h, ds, k, es[k].name, name);
      if es[k].name != name { FindsChild(img, h, ds, es, name, k + 1); }
    }
  }

  lemma DescendsAlike(img: seq<byte>, id: nat, n: Node, name: Name)
    requires Mounted(img) && Shows(img, id, n)
    ensures
      match Resolve(n, [name])
      case Err(e) => Descend(img, id, name) == Err(e)
      case Ok(c) => Descend(img, id, name).Ok? && Shows(img, Descend(img, id, name).value, c)
  {
    assert [name][1..] == [];
    if n.Dir? {
      var ds := RecordsOf(img, id, n.entries);
      FindsChild(img, GetInode(img, id).value, ds, n.entries, name, 0);
    }
  }

  lemma ResolveStep(n: Node, names: seq<Name>)
    requires names != []
    ensures
      Resolve(n, names) ==
        match Resolve(n, [names[0]])
        case Err(e) => Err(e)
        case Ok(c) => Resolve(c, names[1..])
  {
    assert [names[0]][1..] == [];
  }

  /** Whatever inode shows a node, the walk ends at an inode that shows what the names lead to. */
  lemma {:induction false} WalkResolves(img: seq<byte>, id: nat, n: Node, names: seq<Name>)
    requires Mounted(img) && Shows(img, id, n)
    ensures
      match Resolve(n, Followed(names))
      case Err(e) => Walk(img, id, names) == Err(e)
      case Ok(m) => Walk(img, id, names).Ok? && Shows(img, Walk(img, id, names).value, m)
    decreases |names|
  {
    if names != [] {
      if names[0] == DOT {
        WalkResolves(img, id, n, names[1..]);
      } else if names[0] == DOT_DOT {
        WalkResolves(img, id, n, DropLast(names[1..]));
      } else {
        var rest := Followed(names[1..]);
        assert Followed(names) == [names[0]] + rest && ([names[0]] + rest)[1..] == rest;
        ResolveStep(n, Followed(names));
        DescendsAlike(img, id, n, names[0]);
        if Resolve(n, [names[0]]).Ok? {
          WalkResolves(img, Descend(img, id, names[0]).value, Resolve(n, [names[0]]).value, names[1..]);
        }
      }
    }
  }

  /** What opening a path in a tree should give: the node, or why not. */
  function OpenNode(root: Node, names: seq<Name>, wantsLink: bool): Reply<Node> {
    match Resolve(root, names)
    case Err(e) => Err(e)
    case Ok(m) => if m.Link? && !wantsLink then Err(EXDEV) else Ok(m)
  }

  /** Opening gives an inode that shows the node, or the very same error. */
  ghost predicate Agrees(img: seq<byte>, got: Reply<nat>, expected: Reply<Node>)
    requires Mounted(img)
  {
    match expected
    case Err(e) => got == Err(e)
    case Ok(m) => got.Ok? && Shows(img, got.value, m)
  }

  lemma OpenResolves(img: seq<byte>, root: Node, names: seq<Name>, wantsLink: bool)
    requires Mounted(img) && Shows(img, RootInode(img), root)
    ensures Agrees(img, Open(img, names, wantsLink), OpenNode(root, Followed(names), wantsLink))
  {
    WalkResolves(img, RootInode(img), root, names);
  }

  /**
   In the image built from a tree, every path made of proper names other than `.` and `..` opens
   what it names in the tree, and fails exactly as it should where it names nothing.
   */
  lemma BuiltPathsOpen(img: seq<byte>, inodes: seq<InodeHeader>, table: nat, bootstrap: seq<byte>, entry: nat, root: Node, names: seq<Name>, wantsLink: bool)
    requires Complete(img, inodes, table, bootstrap, entry, root) && entry < U64 && |img| < U32
    requires Plain(names) && forall n | n in names :: Proper(n)
    ensures Mounted(img)
    ensures Agrees(img, Open(img, Components(Join(names)), wantsLink), OpenNode(root, names, wantsLink))
  {
    RootShown(img, inodes, table, bootstrap, entry, root);
    ComponentsOfJoin(names);
    FollowedIffPlain(names);
    OpenResolves(img, root, names, wantsLink);
  }

  // ---------------------------------------------------------------- the scheme

  /** `Iter`: the entries of a directory, one by one. */
  class Iter {
    const img: seq<byte>
    const dir: InodeHeader
    var idx: nat

    constructor (img: seq<byte>, dir: InodeHeader)
      ensures this.img == img && this.dir == dir && idx == 0
    {
      this.img, this.dir, idx := img, dir, 0;
    }

    method Next() returns (r: Option<Reply<DirEntry>>)
      modifies this
      ensures idx == old(idx) + 1
      ensures
        r == match GetEntry(img, dir, old(idx))
             case None => Some(Err(EIO))
             case Some(None) => None
             case Some(Some(d)) => Some(Ok(d))
    {
      var entry := GetEntry(img, dir, idx);
      idx := idx + 1;
      match entry
      case None => r := Some(Err(EIO));
      case Some(None) => r := None;
      case Some(Some(d)) => r := Some(Ok(d));
    }
  }

  datatype Handle = NodeHandle(inode: nat, filename: seq<byte>) | SchemeRoot

  class InitFsScheme {
    const fs: seq<byte>
    var handles: map<nat, Handle>
    var nextId: nat

    ghost predicate Valid()
      reads this
    {
      Mounted(fs) && forall id | id in handles :: id <= nextId
    }

    constructor (bytes: seq<byte>)
      requires Accepts(bytes, Some(PAGE))
      ensures Valid() && fs == bytes && handles == map[]
    {
      fs, handles, nextId := bytes, map[], 0;
    }

    /** The loop over one directory. */
    method Lookup(dir: InodeHeader, name: Name) returns (r: Reply<nat>)
      ensures r == Find(fs, dir, name, 0)
    {
      var entries := new Iter(fs, dir);
      while true
        invariant fresh(entries) && entries.img == fs && entries.dir == dir
        invariant Find(fs, dir, name, entries.idx) == Find(fs, dir, name, 0)
        decreases if Entries(fs, dir).Some? then |Entries(fs, dir).value| - entries.idx else 0
      {
        var next := entries.Next();
        match next {
          case None => return Err(ENOENT);
          case Some(Err(e)) => return Err(e);
          case Some(Ok(d)) =>
            var found := NameOf(fs, d);
            if found.None? { return Err(EIO); }
            if found.value == name { return Ok(d.inode); }
        }
      }
    }

    /** The component loop: the front is consumed, and `..` takes one off the back. */
    method Follow(names: seq<Name>) returns (r: Reply<nat>)
      requires Valid()
      ensures r == Walk(fs, RootInode(fs), names)
    {
      var current, components := RootInode(fs), names;
      while components != []
        invariant Walk(fs, current, components) == Walk(fs, RootInode(fs), names)
        decreases |components|
      {
        var component := components[0];
        components := components[1..];
        if component == DOT { continue; }
        if component == DOT_DOT {
          components := DropLast(components);
          continue;
        }
        var inode := GetInode(fs, current);
        if inode.None? { return Err(EIO); }
        match KindOf(inode.value) {
          case DirKind =>
            var found := Lookup(inode.value, component);
            if found.Err? { return found; }
            current := found.value;
          case LinkKind => return Err(EOPNOTSUPP);
          case FileKind(_) => return Err(ENOENT);
          case Unknown => return Err(ENOENT);
        }
      }
      r := Ok(current);
    }

    /** Opens a path below the scheme root under a new handle. */
    method Openat(dirfd: nat, path: seq<byte>, statNofollow: bool, symlink: bool) returns (r: Reply<nat>)
      requires Valid()
      modifies this
      ensures Valid()
      ensures
        if dirfd !in old(handles) then r == Err(EBADF) && handles == old(handles)
        else if old(handles)[dirfd] != SchemeRoot then r == Err(EACCES) && handles == old(handles)
        else match Open(fs, Components(path), statNofollow || symlink)
          case Err(e) => r == Err(e) && handles == old(handles)
          case Ok(inode) =>
            && r.Ok? && r.value !in old(handles)
            && handles == old(handles)[r.value := NodeHandle(inode, path)]
    {
      if dirfd !in handles { return Err(EBADF); }
      if handles[dirfd] != SchemeRoot { return Err(EACCES); }
      var found := Follow(Components(path));
      if found.Err? { return found; }
      var inode := GetInode(fs, found.value);
      if inode.None? { return Err(EIO); }
      if KindOf(inode.value) == LinkKind && !statNofollow && !symlink { return Err(EXDEV); }
      nextId := nextId + 1;
      handles := handles[nextId := NodeHandle(found.value, path)];
      r := Ok(nextId);
    }
  }
}
