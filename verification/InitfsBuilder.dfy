/** The image builder: a bump allocator over a file, and a recursive tree writer. */
module InitfsBuilder {
  import opened Prelude
  import opened Bytes
  import opened InitfsTypes
  import opened InitfsImage

  const CHUNK := 8192

  /** The next multiple of the page size. */
  function RoundUp(n: nat): (r: nat)
    ensures n <= r < n + PAGE && r % PAGE == 0
  {
    if n % PAGE == 0 then n else n + (PAGE - n % PAGE)
  }

  lemma RoundUpAligned(base: nat, n: nat)
    requires base % PAGE == 0
    ensures RoundUp(base + n) == base + RoundUp(n)
  {
    assert (base + n) % PAGE == n % PAGE;
  }

  // ---------------------------------------------------------------- what a tree needs

  /** Pages taken by the first `k` entries: each node, then its name. */
  ghost function EntriesRoom(es: seq<Entry>, k: nat): nat
    requires k <= |es|
    decreases es, k
  {
    if k == 0 then 0 else EntriesRoom(es, k - 1) + Room(es[k - 1].node) + RoundUp(|es[k - 1].name|)
  }

  ghost function Room(n: Node): nat
    decreases n
  {
    match n
    case File(data, _) => RoundUp(|data|)
    case Link(target) => RoundUp(|target|)
    case Dir(es) => RoundUp(DIR_ENTRY_SIZE * |es|) + EntriesRoom(es, |es|)
  }

  /** Inodes taken by everything below a node. */
  ghost function EntriesCount(es: seq<Entry>, k: nat): nat
    requires k <= |es|
    decreases es, k
  {
    if k == 0 then 0 else EntriesCount(es, k - 1) + Below(es[k - 1].node) + 1
  }

  ghost function Below(n: Node): nat
    decreases n
  {
    match n
    case Dir(es) => EntriesCount(es, |es|)
    case _ => 0
  }

  /** Directories and names are short enough for 16-bit counts. */
  ghost predicate Countable(n: Node)
    decreases n
  {
    match n
    case Dir(es) => |es| < U16 && forall k: nat {:trigger EntryCountable(es, k)} | k < |es| :: EntryCountable(es, k)
    case _ => true
  }

  ghost predicate EntryCountable(es: seq<Entry>, k: nat)
    requires k < |es|
    decreases es
  {
    |es[k].name| < U16 && Countable(es[k].node)
  }

  lemma {:induction false} RoomGrows(es: seq<Entry>, j: nat, k: nat)
    requires j <= k <= |es|
    ensures EntriesRoom(es, j) <= EntriesRoom(es, k) && EntriesCount(es, j) <= EntriesCount(es, k)
    decreases k
  {
    if j < k { RoomGrows(es, j, k - 1); }
  }

  ghost function EntryRoom(es: seq<Entry>, k: nat): nat
    requires k < |es|
  {
    Room(es[k].node) + RoundUp(|es[k].name|)
  }

  ghost function EntryCount(es: seq<Entry>, k: nat): nat
    requires k < |es|
  {
    Below(es[k].node) + 1
  }

  lemma NextRoom(es: seq<Entry>, k: nat)
    requires k < |es|
    ensures EntriesRoom(es, k + 1) == EntriesRoom(es, k) + EntryRoom(es, k) <= EntriesRoom(es, |es|)
    ensures EntriesCount(es, k + 1) == EntriesCount(es, k) + EntryCount(es, k) <= EntriesCount(es, |es|)
  {
    RoomGrows(es, k + 1, |es|);
  }

  // ---------------------------------------------------------------- the builder

  lemma AtJoin(img: seq<byte>, img': seq<byte>, at: nat, a: seq<byte>, b: seq<byte>)
    requires At(img, at, a) && img <= img' && At(img', at + |a|, b)
    ensures At(img', at, a + b)
  {
    if a != [] {
      AgreeAt(img, img', 0, at, a);
      assert b != [] ==> img'[at..at + |a| + |b|] == img'[at..at + |a|] + img'[at + |a|..at + |a| + |b|];
      assert b == [] ==> a + b == a;
    } else {
      assert a + b == b;
    }
  }

  /** If the reserved pages end below 4 GiB no chunk offset overflows, because the header comes first. */
  lemma ChunksFit(start: nat, size: nat, turns: nat)
    requires start % PAGE == 0 && PAGE <= start && start + RoundUp(size) < U32 && CHUNK * turns < size
    ensures start + CHUNK * turns < U32 && CHUNK * turns + CHUNK < U32
  {}

  /** The lower bound of where a node is stored may be lowered. */
  lemma StoredLower(img: seq<byte>, inodes: seq<InodeHeader>, n: Node, w: Extent, lo: nat, lower: nat, hi: nat)
    requires Stored(img, inodes, n, w, lo, hi) && lower <= lo
    ensures Stored(img, inodes, n, w, lower, hi)
  {}

  ghost predicate EntriesCountable(es: seq<Entry>, n: nat)
    requires n <= |es|
  {
    forall k: nat {:trigger EntryCountable(es, k)} | k < n :: EntryCountable(es, k)
  }

  /** The bytes before `end` stay. */
  ghost predicate SameUpTo(img: seq<byte>, img': seq<byte>, end: nat) {
    |img| <= |img'| && forall i | 0 <= i < |img| && i < end :: img'[i] == img[i]
  }

  lemma StillSame(img: seq<byte>, img1: seq<byte>, img2: seq<byte>, end: nat, at: nat)
    requires SameUpTo(img, img1, end) && end <= at && |img1| <= |img2|
    requires forall i | 0 <= i < |img1| && !(at <= i < at + DIR_ENTRY_SIZE) :: img2[i] == img1[i]
    ensures SameUpTo(img, img2, end)
  {}

  lemma SameIsPrefix(img: seq<byte>, img': seq<byte>, end: nat)
    requires SameUpTo(img, img', end) && |img| <= end
    ensures img <= img'
  {}

  /** Adding an entry leaves those before it stored. */
  lemma NextEntry(img: seq<byte>, img': seq<byte>, inodes: seq<InodeHeader>, inodes': seq<InodeHeader>, es: seq<Entry>, n: nat, table: nat, hi: nat, hi': nat)
    requires n < |es| && EntriesStored(img, inodes, es, n, table, hi) && |img| <= |img'| && inodes <= inodes' && hi <= hi'
    requires var at := RecordAt(table, n); forall i | 0 <= i < |img| && !(at <= i < at + DIR_ENTRY_SIZE) :: img'[i] == img[i]
    requires EntryStored(img', inodes', es, n, table, hi')
    ensures EntriesStored(img', inodes', es, n + 1, table, hi')
  {
    forall k: nat | k < n ensures EntryStored(img', inodes', es, k, table, hi') {
      assert EntryStored(img, inodes, es, k, table, hi);
      var at := RecordAt(table, k);
      assert at + 8 <= RecordAt(table, n);
      assert img'[at..at + 8] == img[at..at + 8];
      EntryStoredFrame(img, img', inodes, inodes', es, k, table, hi, hi');
    }
  }

  ghost predicate InodeFits(h: InodeHeader) { h.code < 4 && h.extent.size < U32 && h.extent.offset < U32 }

  class ImageBuilder {
    const maxSize: nat
    var offset: nat
    var image: seq<byte>
    var inodes: seq<InodeHeader>

    /** Everything written lies below the page-aligned offset. */
    ghost predicate Valid()
      reads this
    {
      && offset % PAGE == 0 && offset <= maxSize && |image| <= offset && |inodes| <= U16
      && forall i | 0 <= i < |inodes| :: InodeFits(inodes[i])
    }

    /** Within the limit and below 4 GiB. */
    ghost predicate Within(end: nat) { end <= maxSize && end < U32 }

    constructor (maxSize: nat)
      ensures Valid() && this.maxSize == maxSize && offset == 0 && image == [] && inodes == []
    {
      this.maxSize := maxSize;
      offset, image, inodes := 0, [], [];
    }

    /** Reserves whole pages, in order, as long as they end within the limit. */
    method BumpAlloc(size: nat) returns (r: Option<nat>)
      requires Valid()
      modifies this`offset
      ensures Valid()
      ensures r == if old(offset) + RoundUp(size) <= maxSize then Some(old(offset)) else None
      ensures offset == old(offset) + if r.Some? then RoundUp(size) else 0
    {
      var end := RoundUp(offset + size);
      RoundUpAligned(offset, size);
      if end > maxSize { return None; }
      r := Some(offset);
      offset := end;
    }

    /** Bytes were added behind the old image, at the old offset, and nothing else changed. */
    twostate predicate Appended(data: seq<byte>, w: Extent)
      reads this
    {
      && Valid() && old(image) <= image && inodes == old(inodes)
      && w == Extent(|data|, old(offset)) && w.size < U32 && w.offset < U32
      && offset == old(offset) + RoundUp(|data|)
      && At(image, w.offset, data)
    }

    /** A file goes in chunk by chunk. */
    method AllocateAndWriteFile(data: seq<byte>) returns (r: Option<Extent>)
      requires Valid()
      modifies this
      ensures r.Some? ==> Appended(data, r.value)
      ensures PAGE <= old(offset) && Within(old(offset) + RoundUp(|data|)) ==> r.Some?
    {
      var size := |data|;
      if size >= U32 { return None; }
      var start := BumpAlloc(size);
      if start.None? || start.value >= U32 { return None; }
      var relative := 0;
      ghost var turns := 0;
      while relative < size
        invariant 0 <= turns && relative == CHUNK * turns
        invariant old(image) <= image && |image| <= start.value + Min(relative, size)
        invariant At(image, start.value, data[..Min(relative, size)])
        invariant offset == old(offset) + RoundUp(size) && inodes == old(inodes)
        decreases size - relative
      {
        if PAGE <= start.value && start.value + RoundUp(size) < U32 { ChunksFit(start.value, size, turns); }
        if start.value + relative >= U32 || relative + CHUNK >= U32 { return None; }
        WriteChunk(start.value, data, relative);
        relative := relative + CHUNK;
        turns := turns + 1;
      }
      assert data[..size] == data;
      r := Some(Extent(size, start.value));
    }

    method WriteChunk(start: nat, data: seq<byte>, relative: nat)
      requires relative < |data| && |image| <= start + relative && At(image, start, data[..relative])
      modifies this`image
      ensures old(image) <= image && |image| <= start + Min(relative + CHUNK, |data|)
      ensures At(image, start, data[..Min(relative + CHUNK, |data|)])
    {
      var chunk := data[relative..relative + Min(CHUNK, |data| - relative)];
      OverlayBehind(image, start + relative, chunk);
      image := Overlay(image, start + relative, chunk);
      AtJoin(old(image), image, start, data[..relative], chunk);
      assert data[..relative] + chunk == data[..Min(relative + CHUNK, |data|)];
    }

    method AllocateAndWriteLink(target: seq<byte>) returns (r: Option<Extent>)
      requires Valid()
      modifies this
      ensures r.Some? ==> Appended(target, r.value)
      ensures Within(old(offset) + RoundUp(|target|)) ==> r.Some?
    {
      if |target| >= U32 { return None; }
      var start := BumpAlloc(|target|);
      if start.None? || start.value >= U32 { return None; }
      OverlayBehind(image, start.value, target);
      image := Overlay(image, start.value, target);
      r := Some(Extent(|target|, start.value));
    }

    /** The next free inode number, which must be a 16-bit number. */
    method AllocateInode(ty: InodeType, w: Extent) returns (r: Option<nat>)
      requires Valid() && w.size < U32 && w.offset < U32
      modifies this`inodes
      ensures r.Some? <==> |old(inodes)| < U16
      ensures r.Some? ==> Valid() && r.value == |old(inodes)| && inodes == old(inodes) + [InodeHeader(TypeCode(ty), w)]
    {
      var inode := |inodes|;
      inodes := inodes + [InodeHeader(TypeCode(ty), w)];
      if inode >= U16 { return None; }
      r := Some(inode);
    }

    /** The node and all below it were added behind the old image. */
    twostate predicate Planted(n: Node, w: Extent)
      reads this
    {
      && Valid() && old(image) <= image && old(inodes) <= inodes
      && offset == old(offset) + Room(n) && |inodes| == |old(inodes)| + Below(n)
      && Countable(n)
      && Stored(image, inodes, n, w, old(offset), offset)
    }

    /** There is room for this much, and 32-bit offsets reach it. */
    ghost predicate Ample(room: nat, count: nat)
      reads this
    {
      PAGE <= offset && Within(offset + room) && |inodes| + count <= U16
    }

    method AllocateAndWriteNode(n: Node) returns (r: Option<Extent>)
      requires Valid()
      modifies this
      ensures r.Some? ==> Planted(n, r.value)
      ensures old(Ample(Room(n), Below(n))) && Countable(n) ==> r.Some?
      decreases n
    {
      match n {
        case File(data, _) => r := AllocateAndWriteFile(data);
        case Link(target) => r := AllocateAndWriteLink(target);
        case Dir(es) => r := AllocateAndWriteDir(es);
      }
    }

    /** The name of an entry, at the current offset. */
    method AllocateAndWriteName(name: seq<byte>) returns (r: Option<nat>)
      requires Valid()
      modifies this
      ensures r.Some? ==>
                && Valid() && old(image) <= image && inodes == old(inodes) && |name| < U16 && r.value == old(offset) < U32
                && offset == old(offset) + RoundUp(|name|) && At(image, r.value, name)
      ensures Within(old(offset) + RoundUp(|name|)) && |name| < U16 ==> r.Some?
    {
      if |name| >= U16 { return None; }
      r := BumpAlloc(|name|);
      if r.None? || r.value >= U32 { return None; }
      OverlayBehind(image, r.value, name);
      image := Overlay(image, r.value, name);
    }

    /** Only the eight bytes of the entry's record differ within the old image. */
    twostate predicate Entered(es: seq<Entry>, k: nat, table: nat)
      requires k < |es|
      reads this
    {
      && Valid() && |old(image)| <= |image| && old(inodes) <= inodes
      && (forall i | 0 <= i < |old(image)| && !(RecordAt(table, k) <= i < RecordAt(table, k) + DIR_ENTRY_SIZE) :: image[i] == old(image)[i])
      && offset == old(offset) + Room(es[k].node) + RoundUp(|es[k].name|)
      && |inodes| == |old(inodes)| + Below(es[k].node) + 1
      && EntryCountable(es, k)
      && EntryStored(image, inodes, es, k, table, offset)
    }

    /** One turn of the directory loop: the node, its inode, its name, and the record. */
    method AddEntry(es: seq<Entry>, k: nat, table: nat) returns (ok: bool)
      requires Valid() && k < |es| && TableEnd(table, es) <= offset
      modifies this
      ensures ok ==> Entered(es, k, table)
      ensures old(Ample(Room(es[k].node) + RoundUp(|es[k].name|), Below(es[k].node) + 1)) && EntryCountable(es, k) ==> ok
      decreases es, 0
    {
      var e, at := es[k], RecordAt(table, k);
      ghost var lo := TableEnd(table, es);
      var w := AllocateAndWriteNode(e.node);
      if w.None? { return false; }
      ghost var img1, inodes1, off1 := image, inodes, offset;
      var inode := AllocateInode(TypeOf(e.node), w.value);
      if inode.None? { return false; }
      var nameOffset := AllocateAndWriteName(e.name);
      if nameOffset.None? { return false; }
      ghost var img2 := image;
      if at >= U32 { return false; }
      var record := DirEntry(inode.value, |e.name|, nameOffset.value);
      image := Overlay(image, at, DirEntryBytes(record));
      DirEntryRoundTrip(image, at, record);
      assert AgreeFrom(img2, image, lo);
      AgreeAt(img2, image, lo, nameOffset.value, e.name);
      assert AgreeFrom(img1, image, old(offset));
      StoredFrame(img1, image, inodes1, inodes, e.node, w.value, old(offset), off1, offset);
      StoredLower(image, inodes, e.node, w.value, old(offset), lo, offset);
      ok := true;
    }

    /** Entry `k` joins the entries before it; the bytes before the table stay as they were in `img`. */
    method AddNext(es: seq<Entry>, k: nat, table: nat, ghost img: seq<byte>) returns (ok: bool)
      requires Valid() && k < |es| && TableEnd(table, es) <= offset
      requires SameUpTo(img, image, table) && EntriesCountable(es, k) && EntriesStored(image, inodes, es, k, table, offset)
      modifies this
      ensures ok ==> Valid() && old(inodes) <= inodes && SameUpTo(img, image, table)
      ensures ok ==> EntriesCountable(es, k + 1) && EntriesStored(image, inodes, es, k + 1, table, offset)
      ensures ok ==> offset == old(offset) + EntryRoom(es, k) && |inodes| == |old(inodes)| + EntryCount(es, k)
      ensures old(Ample(EntryRoom(es, k), EntryCount(es, k))) && EntryCountable(es, k) ==> ok
      decreases es, 1
    {
      ok := AddEntry(es, k, table);
      if ok {
        StillSame(img, old(image), image, table, RecordAt(table, k));
        NextEntry(old(image), image, old(inodes), inodes, es, k, table, old(offset), offset);
      }
    }

    /** The loop over a directory's entries, once its table has been reserved. */
    method FillTable(es: seq<Entry>, table: nat) returns (ok: bool)
      requires Valid() && |image| <= table && TableEnd(table, es) <= offset
      modifies this
      ensures ok ==>
                && Valid() && old(image) <= image && old(inodes) <= inodes
                && offset == old(offset) + EntriesRoom(es, |es|) && |inodes| == |old(inodes)| + EntriesCount(es, |es|)
                && EntriesCountable(es, |es|) && EntriesStored(image, inodes, es, |es|, table, offset)
      ensures old(Ample(EntriesRoom(es, |es|), EntriesCount(es, |es|))) && EntriesCountable(es, |es|) ==> ok
      decreases es, 2
    {
      for k := 0 to |es|
        invariant Valid() && old(inodes) <= inodes && SameUpTo(old(image), image, table)
        invariant offset == old(offset) + EntriesRoom(es, k) && |inodes| == |old(inodes)| + EntriesCount(es, k)
        invariant EntriesCountable(es, k) && EntriesStored(image, inodes, es, k, table, offset)
      {
        NextRoom(es, k);
        assert EntriesCountable(es, |es|) ==> EntryCountable(es, k);
        var fitted := AddNext(es, k, table, old(image));
        if !fitted { return false; }
      }
      SameIsPrefix(old(image), image, table);
      ok := true;
    }

    method AllocateAndWriteDir(es: seq<Entry>) returns (r: Option<Extent>)
      requires Valid()
      modifies this
      ensures r.Some? ==> Planted(Dir(es), r.value)
      ensures old(Ample(Room(Dir(es)), Below(Dir(es)))) && Countable(Dir(es)) ==> r.Some?
      decreases es, 3
    {
      if |es| >= U16 { return None; }
      var length := DIR_ENTRY_SIZE * |es|;
      var table := BumpAlloc(length);
      if table.None? || table.value >= U32 { return None; }
      var ok := FillTable(es, table.value);
      if !ok { return None; }
      r := Some(Extent(length, table.value));
    }

    /** The tree, and the inode of its root as the last one. */
    method AllocateContents(es: seq<Entry>) returns (r: Option<nat>)
      requires Valid()
      modifies this
      ensures r.Some? ==>
                && Valid() && old(image) <= image
                && offset == old(offset) + Room(Dir(es)) && |inodes| == |old(inodes)| + Below(Dir(es)) + 1 && r.value == |inodes| - 1
                && Countable(Dir(es)) && inodes[r.value].code == TypeCode(Directory)
                && Stored(image, inodes, Dir(es), inodes[r.value].extent, old(offset), offset)
      ensures old(Ample(Room(Dir(es)), Below(Dir(es)) + 1)) && Countable(Dir(es)) ==> r.Some?
    {
      var w := AllocateAndWriteDir(es);
      if w.None? { return None; }
      ghost var ins := inodes;
      r := AllocateInode(Directory, w.value);
      if r.None? { return None; }
      StoredFrame(image, image, ins, inodes, Dir(es), w.value, old(offset), offset, offset);
    }

    /** The inode table comes last and ends the image. */
    method WriteInodeTable() returns (r: Option<nat>)
      requires Valid()
      modifies this
      ensures r.Some? ==>
                && Valid() && old(image) <= image && inodes == old(inodes) && |inodes| < U16 && r.value == old(offset) < U32
                && offset == old(offset) + RoundUp(INODE_SIZE * |inodes|)
                && TableAt(image, inodes, |inodes|, r.value)
                && (inodes != [] ==> |image| == r.value + INODE_SIZE * |inodes|)
      ensures r.Some? <==>
                && |old(inodes)| < U16 && old(offset) + RoundUp(INODE_SIZE * |old(inodes)|) <= maxSize
                && TableReachable(old(offset), |old(inodes)|)
    {
      if |inodes| >= U16 { return None; }
      r := BumpAlloc(INODE_SIZE * |inodes|);
      if r.None? || r.value >= U32 { return None; }
      for i := 0 to |inodes|
        invariant Valid() && old(image) <= image && inodes == old(inodes) && r.value == old(offset)
        invariant offset == old(offset) + RoundUp(INODE_SIZE * |inodes|)
        invariant TableAt(image, inodes, i, r.value)
        invariant if i == 0 then |image| <= r.value else |image| == r.value + INODE_SIZE * i && r.value + INODE_SIZE * (i - 1) < U32
      {
        var at := r.value + INODE_SIZE * i;
        assert INODE_SIZE * i <= INODE_SIZE * (|inodes| - 1);
        if at >= U32 { return None; }
        OverlayBehind(image, at, InodeBytes(inodes[i]));
        NextInode(image, inodes, i, r.value);
        image := Overlay(image, at, InodeBytes(inodes[i]));
      }
    }
  }

  /** 32-bit offsets reach the start of each of the `n` records of an inode table at `table`. */
  ghost predicate TableReachable(table: nat, n: nat) {
    table < U32 && (n > 0 ==> table + INODE_SIZE * (n - 1) < U32)
  }

  /** The first `k` inodes stand in the table. */
  ghost predicate TableAt(img: seq<byte>, inodes: seq<InodeHeader>, k: nat, table: nat)
    requires k <= |inodes|
  {
    forall i | 0 <= i < k :: At(img, table + INODE_SIZE * i, InodeBytes(inodes[i]))
  }

  lemma NextInode(img: seq<byte>, inodes: seq<InodeHeader>, k: nat, table: nat)
    requires k < |inodes| && TableAt(img, inodes, k, table) && |img| <= table + INODE_SIZE * k
    ensures TableAt(Overlay(img, table + INODE_SIZE * k, InodeBytes(inodes[k])), inodes, k + 1, table)
  {
    var img' := Overlay(img, table + INODE_SIZE * k, InodeBytes(inodes[k]));
    OverlayBehind(img, table + INODE_SIZE * k, InodeBytes(inodes[k]));
    forall i | 0 <= i < k ensures At(img', table + INODE_SIZE * i, InodeBytes(inodes[i])) {
      AgreeAt(img, img', 0, table + INODE_SIZE * i, InodeBytes(inodes[i]));
    }
  }

  // ---------------------------------------------------------------- a whole image

  /** The header describes the table at the image's end, and the last inode is the stored root. */
  ghost predicate Complete(img: seq<byte>, inodes: seq<InodeHeader>, table: nat, bootstrap: seq<byte>, entry: nat, root: Node) {
    && 0 < |inodes| < U16 && (forall i | 0 <= i < |inodes| :: InodeFits(inodes[i]))
    && PAGE <= table < U32 && |img| == table + INODE_SIZE * |inodes|
    && At(img, 0, HeaderBytes(Header(table, |img|, PAGE, |inodes| - 1, |inodes|, entry)))
    && At(img, PAGE, bootstrap)
    && TableAt(img, inodes, |inodes|, table)
    && inodes[|inodes| - 1].code == TypeCode(TypeOf(root))
    && Stored(img, inodes, root, inodes[|inodes| - 1].extent, PAGE, table)
  }

  /** Pages the tree and the inode table reserve. */
  ghost function ContentsRoom(root: Node): nat { Room(root) + RoundUp(INODE_SIZE * (Below(root) + 1)) }

  /** Where the inode table starts, and where the image ends. */
  ghost function TableOffset(bootstrap: seq<byte>, root: Node): nat { PAGE + RoundUp(|bootstrap|) + Room(root) }
  ghost function ImageLength(bootstrap: seq<byte>, root: Node): nat { TableOffset(bootstrap, root) + INODE_SIZE * (Below(root) + 1) }

  /** Directories, names and inodes are countable in 16 bits and the tree fits behind `offset`. */
  ghost predicate Placeable(maxSize: nat, offset: nat, root: Node) {
    && Countable(root) && Below(root) + 1 < U16
    && offset + ContentsRoom(root) <= maxSize
    && TableReachable(offset + Room(root), Below(root) + 1)
  }

  ghost predicate Buildable(maxSize: nat, bootstrap: seq<byte>, root: Node) {
    Placeable(maxSize, PAGE + RoundUp(|bootstrap|), root)
  }

  /** All but the header is in place. */
  ghost predicate Headless(img: seq<byte>, inodes: seq<InodeHeader>, table: nat, bootstrap: seq<byte>, root: Node) {
    && 0 < |inodes| < U16 && (forall i | 0 <= i < |inodes| :: InodeFits(inodes[i]))
    && PAGE <= table < U32 && |img| == table + INODE_SIZE * |inodes|
    && At(img, PAGE, bootstrap) && TableAt(img, inodes, |inodes|, table)
    && inodes[|inodes| - 1].code == TypeCode(TypeOf(root))
    && Stored(img, inodes, root, inodes[|inodes| - 1].extent, PAGE, table)
  }

  /** Writing the header on its own page disturbs nothing. */
  lemma HeaderFinishes(img: seq<byte>, inodes: seq<InodeHeader>, table: nat, bootstrap: seq<byte>, entry: nat, root: Node)
    requires Headless(img, inodes, table, bootstrap, root)
    ensures
      var h := HeaderBytes(Header(table, |img|, PAGE, |inodes| - 1, |inodes|, entry));
      Complete(Overlay(img, 0, h), inodes, table, bootstrap, entry, root) && |Overlay(img, 0, h)| == |img|
  {
    var img' := Overlay(img, 0, HeaderBytes(Header(table, |img|, PAGE, |inodes| - 1, |inodes|, entry)));
    assert AgreeFrom(img, img', PAGE);
    AgreeAt(img, img', PAGE, PAGE, bootstrap);
    forall i | 0 <= i < |inodes| ensures At(img', table + INODE_SIZE * i, InodeBytes(inodes[i])) {
      AgreeAt(img, img', PAGE, table + INODE_SIZE * i, InodeBytes(inodes[i]));
    }
    StoredFrame(img, img', inodes, inodes, root, inodes[|inodes| - 1].extent, PAGE, table, table);
  }

  /** Bootstrap code and tree stay in place as the image grows by the inode table. */
  lemma TableFinishes(img1: seq<byte>, img2: seq<byte>, img: seq<byte>, inodes: seq<InodeHeader>, lo: nat, table: nat, bootstrap: seq<byte>, root: Node)
    requires 0 < |inodes| < U16 && (forall i | 0 <= i < |inodes| :: InodeFits(inodes[i]))
    requires PAGE <= lo && PAGE <= table < U32 && |img| == table + INODE_SIZE * |inodes|
    requires img1 <= img2 <= img && At(img1, PAGE, bootstrap) && TableAt(img, inodes, |inodes|, table)
    requires inodes[|inodes| - 1].code == TypeCode(TypeOf(root))
    requires Stored(img2, inodes, root, inodes[|inodes| - 1].extent, lo, table)
    ensures Headless(img, inodes, table, bootstrap, root)
  {
    AgreeAt(img1, img, 0, PAGE, bootstrap);
    StoredFrame(img2, img, inodes, inodes, root, inodes[|inodes| - 1].extent, lo, table, table);
    StoredLower(img, inodes, root, inodes[|inodes| - 1].extent, lo, PAGE, table);
  }

  /** The tree and the inode table, once the bootstrap code is in place. */
  method WriteContents(b: ImageBuilder, ghost bootstrap: seq<byte>, root: seq<Entry>) returns (r: Option<nat>)
    requires b.Valid() && PAGE <= b.offset && At(b.image, PAGE, bootstrap) && b.inodes == []
    modifies b
    ensures r.Some? ==> Headless(b.image, b.inodes, r.value, bootstrap, Dir(root)) && |b.image| <= b.maxSize
    ensures r.Some? ==> r.value == old(b.offset) + Room(Dir(root)) && |b.inodes| == Below(Dir(root)) + 1
    ensures r.Some? <==> Placeable(b.maxSize, old(b.offset), Dir(root))
  {
    var rootInode := b.AllocateContents(root);
    if rootInode.None? { return None; }
    ghost var img2, extent := b.image, b.inodes[|b.inodes| - 1].extent;
    assert Stored(img2, b.inodes, Dir(root), extent, old(b.offset), b.offset);
    r := b.WriteInodeTable();
    if r.None? { return None; }
    assert Stored(img2, b.inodes, Dir(root), extent, old(b.offset), r.value);
    TableFinishes(old(b.image), img2, b.image, b.inodes, old(b.offset), r.value, bootstrap, Dir(root));
  }

  /** The header's page, left empty, and the bootstrap code behind it. */
  method WriteBootstrap(b: ImageBuilder, bootstrap: seq<byte>) returns (ok: bool)
    requires b.Valid() && b.offset == 0 && b.image == [] && b.inodes == []
    modifies b
    ensures ok ==> b.Valid() && b.offset == PAGE + RoundUp(|bootstrap|) && b.inodes == [] && At(b.image, PAGE, bootstrap)
    ensures b.Within(PAGE + RoundUp(|bootstrap|)) ==> ok
  {
    var header := b.BumpAlloc(PAGE);
    if header.None? { return false; }
    var boot := b.AllocateAndWriteFile(bootstrap);
    ok := boot.Some?;
  }

  /**
   Builds the image of a directory.  It succeeds exactly when every directory and name is countable
   in 16 bits, the inodes are too, the pages fit the limit, and 32-bit offsets reach every inode.
   */
  method BuildInitfs(maxSize: nat, bootstrap: seq<byte>, entry: nat, root: seq<Entry>)
    returns (r: Option<seq<byte>>, ghost inodes: seq<InodeHeader>, ghost table: nat)
    ensures r.Some? ==> Complete(r.value, inodes, table, bootstrap, entry, Dir(root)) && |r.value| <= maxSize
    ensures r.Some? <==> Buildable(maxSize, bootstrap, Dir(root))
    ensures r.Some? ==> |r.value| == ImageLength(bootstrap, Dir(root))
  {
    inodes, table := [], 0;
    var b := new ImageBuilder(maxSize);
    var ok := WriteBootstrap(b, bootstrap);
    if !ok { return None, [], 0; }
    var t := WriteContents(b, bootstrap, root);
    if t.None? { return None, [], 0; }
    inodes, table := b.inodes, t.value;
    HeaderFinishes(b.image, inodes, table, bootstrap, entry, Dir(root));
    var h := Header(t.value, |b.image|, PAGE, |b.inodes| - 1, |b.inodes|, entry);
    r := Some(Overlay(b.image, 0, HeaderBytes(h)));
  }
}
