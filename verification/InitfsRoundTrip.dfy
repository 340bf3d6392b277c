/** Reading a built image gives the tree back. */
module InitfsRoundTrip {
  import opened Prelude
  import opened Bytes
  import opened InitfsTypes
  import opened InitfsImage
  import opened InitfsBuilder
  import opened InitfsReader

  // ---------------------------------------------------------------- what the reader shows

  /** Through the reader's eyes, inode `id` is the node `n`, names and all. */
  ghost predicate Shows(img: seq<byte>, id: nat, n: Node)
    requires Mounted(img)
    decreases n
  {
    && GetInode(img, id).Some?
    && var h := GetInode(img, id).value;
       match n
       case File(data, executable) => KindOf(h) == FileKind(executable) && Data(img, h) == Some(data)
       case Link(target) => KindOf(h) == LinkKind && Data(img, h) == Some(target)
       case Dir(es) =>
         && KindOf(h) == DirKind
         && Entries(img, h).Some?
         && |Entries(img, h).value| == |es|
         && forall k | 0 <= k < |es| :: ShowsEntry(img, Entries(img, h).value[k], es[k])
  }

  ghost predicate ShowsEntry(img: seq<byte>, d: DirEntry, e: Entry)
    requires Mounted(img)
    decreases e
  {
    NameOf(img, d) == Some(e.name) && Shows(img, d.inode, e.node)
  }

  // ---------------------------------------------------------------- stored means shown

  lemma CompleteHeader(img: seq<byte>, inodes: seq<InodeHeader>, table: nat, bootstrap: seq<byte>, entry: nat, root: Node)
    requires Complete(img, inodes, table, bootstrap, entry, root) && entry < U64
    ensures HEADER_SIZE <= |img| && img[..8] == MAGIC
    ensures HeaderFrom(img) == Header(table, |img|, PAGE, |inodes| - 1, |inodes|, entry)
  {
    HeaderRoundTrip(img, Header(table, |img|, PAGE, |inodes| - 1, |inodes|, entry));
  }

  lemma CompleteMounts(img: seq<byte>, inodes: seq<InodeHeader>, table: nat, bootstrap: seq<byte>, entry: nat, root: Node)
    requires Complete(img, inodes, table, bootstrap, entry, root) && entry < U64
    ensures Accepts(img, Some(PAGE)) <==> |img| < U32
    ensures Mounted(img) ==> RootInode(img) == |inodes| - 1 && Tabled(img, inodes)
  {
    CompleteHeader(img, inodes, table, bootstrap, entry, root);
    if Mounted(img) {
      forall i: nat | i < |inodes| ensures GetInode(img, i) == Some(inodes[i]) {
        assert InodeFits(inodes[i]) && At(img, table + INODE_SIZE * i, InodeBytes(inodes[i]));
        InodeRoundTrip(img, table + INODE_SIZE * i, inodes[i]);
      }
    }
  }

  lemma CodeRoundTrip(n: Node, h: InodeHeader)
    requires h.code == TypeCode(TypeOf(n))
    ensures
      KindOf(h) == match n case File(_, executable) => FileKind(executable) case Dir(_) => DirKind case Link(_) => LinkKind
  {}

  lemma DataShown(img: seq<byte>, h: InodeHeader, data: seq<byte>)
    requires h.extent.size == |data| && h.extent.offset + |data| <= |img| && At(img, h.extent.offset, data)
    ensures Data(img, h) == Some(data)
  {
    assert data == [] ==> img[h.extent.offset..h.extent.offset + |data|] == [];
  }

  lemma RecordsShown(img: seq<byte>, start: nat, count: nat, k: nat)
    requires start + 8 * count <= |img| && k < count
    ensures
      var ds := Records(img[start..start + 8 * count]);
      |ds| == count && ds[k] == DirEntryFrom(img, start + 8 * k)
  {
    var data := img[start..start + 8 * count];
    assert |data| / 8 == count;
    var from := 8 * k;
    AtPart(img, start, data, from, data[from..from + 8]);
    SameEntry(img, start + from, data, from);
  }

  /** The inode table of the mounted image is `inodes`. */
  ghost predicate Tabled(img: seq<byte>, inodes: seq<InodeHeader>) {
    Mounted(img) && forall i: nat | i < |inodes| :: GetInode(img, i) == Some(inodes[i])
  }

  lemma LeafShows(img: seq<byte>, inodes: seq<InodeHeader>, n: Node, id: nat, lo: nat, hi: nat)
    requires Tabled(img, inodes) && id < |inodes| && hi <= |img| && !n.Dir?
    requires inodes[id].code == TypeCode(TypeOf(n)) && Stored(img, inodes, n, inodes[id].extent, lo, hi)
    ensures Shows(img, id, n)
  {
    CodeRoundTrip(n, inodes[id]);
    DataShown(img, inodes[id], if n.File? then n.data else n.target);
  }

  /** The records of a stored directory are those the reader slices out of its data. */
  lemma TableShown(img: seq<byte>, h: InodeHeader, count: nat)
    requires h.extent.size == 8 * count && h.extent.offset + 8 * count <= |img|
    ensures
      && Entries(img, h).Some? && |Entries(img, h).value| == count
      && forall k: nat | k < count :: Entries(img, h).value[k] == DirEntryFrom(img, RecordAt(h.extent.offset, k))
  {
    forall k: nat | k < count
      ensures Entries(img, h).value[k] == DirEntryFrom(img, RecordAt(h.extent.offset, k))
    {
      RecordsShown(img, h.extent.offset, count, k);
    }
  }

  lemma {:induction false} StoredShows(img: seq<byte>, inodes: seq<InodeHeader>, n: Node, id: nat, lo: nat, hi: nat)
    requires Tabled(img, inodes) && id < |inodes| && hi <= |img|
    requires inodes[id].code == TypeCode(TypeOf(n)) && Stored(img, inodes, n, inodes[id].extent, lo, hi)
    ensures Shows(img, id, n)
    decreases n
  {
    if n.Dir? {
      var es, h := n.entries, inodes[id];
      CodeRoundTrip(n, h);
      TableShown(img, h, |es|);
      forall k: nat | k < |es| ensures ShowsEntry(img, Entries(img, h).value[k], es[k]) {
        assert EntryStored(img, inodes, es, k, h.extent.offset, hi);
        EntryShown(img, inodes, es, k, h.extent.offset, hi);
      }
      assert GetInode(img, id) == Some(h);
    } else {
      LeafShows(img, inodes, n, id, lo, hi);
    }
  }

  lemma {:induction false} EntryShown(img: seq<byte>, inodes: seq<InodeHeader>, es: seq<Entry>, k: nat, table: nat, hi: nat)
    requires Tabled(img, inodes) && hi <= |img| && k < |es| && EntryStored(img, inodes, es, k, table, hi)
    ensures ShowsEntry(img, DirEntryFrom(img, RecordAt(table, k)), es[k])
    decreases es
  {
    StoredShows(img, inodes, es[k].node, DirEntryFrom(img, RecordAt(table, k)).inode, TableEnd(table, es), hi);
  }

  // ---------------------------------------------------------------- shown means read back

  /** Levels of a tree. */
  ghost function Height(n: Node): nat
    decreases n
  {
    match n
    case Dir(es) => 1 + EntriesHeight(es, |es|)
    case _ => 1
  }

  ghost function EntriesHeight(es: seq<Entry>, k: nat): nat
    requires k <= |es|
    decreases es, k
  {
    if k == 0 then 0
    else
      var below, here := EntriesHeight(es, k - 1), Height(es[k - 1].node);
      if below <= here then here else below
  }

  lemma {:induction false} HeightBounds(es: seq<Entry>, k: nat, n: nat)
    requires k < n <= |es|
    ensures Height(es[k].node) <= EntriesHeight(es, n)
    decreases n
  {
    if k < n - 1 { HeightBounds(es, k, n - 1); }
  }

  lemma ReadDir(img: seq<byte>, id: nat, es: seq<Entry>, depth: nat)
    requires Mounted(img) && 0 < depth && GetInode(img, id).Some? && KindOf(GetInode(img, id).value) == DirKind
    requires Entries(img, GetInode(img, id).value).Some?
    requires ReadEntries(img, Entries(img, GetInode(img, id).value).value, depth - 1) == Some(es)
    ensures ReadTree(img, id, depth) == Some(Dir(es))
  {}

  lemma ReadLeaf(img: seq<byte>, id: nat, n: Node, depth: nat)
    requires Mounted(img) && 0 < depth && !n.Dir? && Shows(img, id, n)
    ensures ReadTree(img, id, depth) == Some(n)
  {}

  ghost function RecordsOf(img: seq<byte>, id: nat, es: seq<Entry>): (ds: seq<DirEntry>)
    requires Mounted(img) && Shows(img, id, Dir(es))
    ensures |ds| == |es| && forall k | 0 <= k < |es| :: ShowsEntry(img, ds[k], es[k])
  {
    Entries(img, GetInode(img, id).value).value
  }

  lemma {:induction false} EntriesRead(img: seq<byte>, ds: seq<DirEntry>, es: seq<Entry>, k: nat, depth: nat)
    requires Mounted(img) && |ds| == |es| && k <= |es|
    requires forall j | 0 <= j < |es| :: NameOf(img, ds[j]) == Some(es[j].name)
    requires forall j | 0 <= j < |es| :: ReadTree(img, ds[j].inode, depth) == Some(es[j].node)
    ensures ReadEntries(img, ds[k..], depth) == Some(es[k..])
    decreases |es| - k
  {
    if k < |es| {
      EntriesRead(img, ds, es, k + 1, depth);
      assert ds[k..][1..] == ds[k + 1..];
      assert es[k..] == [es[k]] + es[k + 1..];
    }
  }

  lemma {:induction false} EntryReads(img: seq<byte>, d: DirEntry, e: Entry, depth: nat)
    requires Mounted(img) && ShowsEntry(img, d, e) && Height(e.node) <= depth
    ensures NameOf(img, d) == Some(e.name) && ReadTree(img, d.inode, depth) == Some(e.node)
    decreases e
  {
    ShownReads(img, d.inode, e.node, depth);
  }

  lemma {:induction false} ShownReads(img: seq<byte>, id: nat, n: Node, depth: nat)
    requires Mounted(img) && Shows(img, id, n) && Height(n) <= depth
    ensures ReadTree(img, id, depth) == Some(n)
    decreases n
  {
    if n.Dir? {
      var es, ds := n.entries, RecordsOf(img, id, n.entries);
      forall k | 0 <= k < |es|
        ensures NameOf(img, ds[k]) == Some(es[k].name) && ReadTree(img, ds[k].inode, depth - 1) == Some(es[k].node)
      {
        HeightBounds(es, k, |es|);
        EntryReads(img, ds[k], es[k], depth - 1);
      }
      ShownDirReads(img, id, es, depth);
    } else {
      ReadLeaf(img, id, n, depth);
    }
  }

  lemma ShownDirReads(img: seq<byte>, id: nat, es: seq<Entry>, depth: nat)
    requires Mounted(img) && 0 < depth && Shows(img, id, Dir(es))
    requires
      var ds := RecordsOf(img, id, es);
      forall k | 0 <= k < |es| ::
        NameOf(img, ds[k]) == Some(es[k].name) && ReadTree(img, ds[k].inode, depth - 1) == Some(es[k].node)
    ensures ReadTree(img, id, depth) == Some(Dir(es))
  {
    var ds := RecordsOf(img, id, es);
    EntriesRead(img, ds, es, 0, depth - 1);
    assert ds[0..] == ds && es[0..] == es;
    ReadDir(img, id, es, depth);
  }

  // ---------------------------------------------------------------- the round trip

  lemma RootShown(img: seq<byte>, inodes: seq<InodeHeader>, table: nat, bootstrap: seq<byte>, entry: nat, root: Node)
    requires Complete(img, inodes, table, bootstrap, entry, root) && entry < U64 && |img| < U32
    ensures Mounted(img) && Shows(img, RootInode(img), root)
  {
    CompleteMounts(img, inodes, table, bootstrap, entry, root);
    StoredShows(img, inodes, root, |inodes| - 1, PAGE, table);
  }

  /**
   The reader accepts a complete image exactly when its length is a 32-bit number, and then reads
   back the very tree, from any depth bound that reaches its leaves.
   */
  lemma ImageRoundTrip(img: seq<byte>, inodes: seq<InodeHeader>, table: nat, bootstrap: seq<byte>, entry: nat, root: Node, depth: nat)
    requires Complete(img, inodes, table, bootstrap, entry, root) && entry < U64 && Height(root) <= depth
    ensures Accepts(img, Some(PAGE)) <==> |img| < U32
    ensures |img| < U32 ==>
              && Mounted(img) && Shows(img, RootInode(img), root)
              && ReadTree(img, RootInode(img), depth) == Some(root)
  {
    CompleteMounts(img, inodes, table, bootstrap, entry, root);
    if |img| < U32 {
      RootShown(img, inodes, table, bootstrap, entry, root);
      ShownReads(img, RootInode(img), root, depth);
    }
  }

  /**
   Building and then reading.  What the builder returns is accepted exactly when its length is a
   32-bit number, and then every tree comes back unchanged; a 32-bit limit makes sure of that.
   */
  method BuildAndRead(maxSize: nat, bootstrap: seq<byte>, entry: nat, root: seq<Entry>) returns (r: Option<seq<byte>>)
    requires entry < U64
    ensures r.Some? <==> Buildable(maxSize, bootstrap, Dir(root))
    ensures r.Some? ==>
              && |r.value| == ImageLength(bootstrap, Dir(root)) <= maxSize
              && (Accepts(r.value, Some(PAGE)) <==> |r.value| < U32)
              && (|r.value| < U32 ==>
                    && Mounted(r.value) && Shows(r.value, RootInode(r.value), Dir(root))
                    && ReadTree(r.value, RootInode(r.value), Height(Dir(root))) == Some(Dir(root)))
  {
    ghost var inodes, table;
    r, inodes, table := BuildInitfs(maxSize, bootstrap, entry, root);
    if r.Some? {
      ImageRoundTrip(r.value, inodes, table, bootstrap, entry, Dir(root), Height(Dir(root)));
    }
  }

  // ---------------------------------------------------------------- an image nobody accepts

  /** The `k`-th two-letter name. */
  function Letters(k: nat): seq<byte>
    requires k < 676
  {
    [(97 + k / 26) as byte, (97 + k % 26) as byte]
  }

  lemma LettersDiffer(j: nat, k: nat)
    requires j < 676 && k < 676 && j != k
    ensures Letters(j) != Letters(k)
  {
    assert j == 26 * (j / 26) + j % 26 && k == 26 * (k / 26) + k % 26;
    assert Letters(j)[0] == Letters(k)[0] ==> j / 26 == k / 26;
  }

  function EmptyFiles(n: nat): (es: seq<Entry>)
    requires n <= 676
    ensures |es| == n
  {
    seq(n, k requires 0 <= k < n => Entry(Letters(k), File([], false)))
  }

  lemma {:induction false} EmptyFilesRoom(n: nat, k: nat)
    requires k <= n <= 676
    ensures EntriesRoom(EmptyFiles(n), k) == PAGE * k && EntriesCount(EmptyFiles(n), k) == k
    decreases k
  {
    if k > 0 {
      EmptyFilesRoom(n, k - 1);
      assert EmptyFiles(n)[k - 1] == Entry(Letters(k - 1), File([], false));
      assert RoundUp(0) == 0 && RoundUp(2) == PAGE;
    }
  }

  lemma EmptyFilesDir(n: nat)
    requires n <= 676
    ensures var d := Dir(EmptyFiles(n)); Countable(d) && Below(d) == n && Room(d) == RoundUp(DIR_ENTRY_SIZE * n) + PAGE * n
  {
    var es := EmptyFiles(n);
    EmptyFilesRoom(n, n);
    forall k: nat | k < n ensures EntryCountable(es, k) { assert es[k] == Entry(Letters(k), File([], false)); }
  }

  lemma EmptyFilesNamed(n: nat)
    requires n <= 676
    ensures forall j, k | 0 <= j < k < n :: EmptyFiles(n)[j].name != EmptyFiles(n)[k].name
  {
    forall j, k | 0 <= j < k < n ensures EmptyFiles(n)[j].name != EmptyFiles(n)[k].name { LettersDiffer(j, k); }
  }

  /**
   341 empty files of different names, behind a bootstrap file that leaves just one page below
   4 GiB for the inode table: the last inode starts below 4 GiB and ends above, so the image is
   built but not accepted.
   */
  lemma OversizedIsBuilt(bootstrap: seq<byte>, n: nat)
    requires n == 341 && |bootstrap| == U32 - PAGE * (n + 3)
    ensures Buildable(2 * U32, bootstrap, Dir(EmptyFiles(n))) && ImageLength(bootstrap, Dir(EmptyFiles(n))) == U32 + 8
    ensures forall j, k | 0 <= j < k < n :: EmptyFiles(n)[j].name != EmptyFiles(n)[k].name
  {
    EmptyFilesNamed(n);
    EmptyFilesDir(n);
    assert RoundUp(DIR_ENTRY_SIZE * n) == PAGE && RoundUp(|bootstrap|) == |bootstrap|;
    assert RoundUp(INODE_SIZE * (n + 1)) == 2 * PAGE;
  }
}
