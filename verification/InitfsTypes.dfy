/** The records of an initfs image and the trees it holds. */
module InitfsTypes {
  import opened Prelude
  import opened Bytes

  // ---------------------------------------------------------------- source trees

  datatype Node =
    | File(data: seq<byte>, executable: bool)
    | Dir(entries: seq<Entry>)
    | Link(target: seq<byte>)

  datatype Entry = Entry(name: seq<byte>, node: Node)

  // ---------------------------------------------------------------- records

  const PAGE := 4096

  const MAGIC: seq<byte> := [0x52, 0x65, 0x64, 0x6f, 0x78, 0x46, 0x74, 0x77]

  datatype InodeType = RegularFile | ExecutableFile | Directory | Symlink

  function TypeCode(t: InodeType): nat {
    match t case RegularFile => 0 case ExecutableFile => 1 case Directory => 2 case Symlink => 3
  }

  function TypeOfCode(n: nat): Option<InodeType> {
    if n == 0 then Some(RegularFile)
    else if n == 1 then Some(ExecutableFile)
    else if n == 2 then Some(Directory)
    else if n == 3 then Some(Symlink)
    else None
  }

  function TypeOf(n: Node): InodeType {
    match n
    case File(_, executable) => if executable then ExecutableFile else RegularFile
    case Dir(_) => Directory
    case Link(_) => Symlink
  }

  /** Where something was written. */
  datatype Extent = Extent(size: nat, offset: nat)

  datatype InodeHeader = InodeHeader(code: nat, extent: Extent)
  datatype DirEntry = DirEntry(inode: nat, nameLen: nat, nameOffset: nat)
  datatype Header = Header(tableOffset: nat, initfsSize: nat, pageSize: nat, rootInode: nat, inodeCount: nat, bootstrapEntry: nat)

  const INODE_SIZE := 12
  const DIR_ENTRY_SIZE := 8
  const HEADER_SIZE := 34

  // ---------------------------------------------------------------- bytes

  /** The `k`-byte number at `at`. */
  function Num(img: seq<byte>, at: nat, k: nat): nat
    requires at + k <= |img|
  {
    UnLe(img[at..at + k])
  }

  function InodeBytes(h: InodeHeader): (s: seq<byte>)
    ensures |s| == INODE_SIZE
  {
    Le(h.code, 4) + Le(h.extent.size, 4) + Le(h.extent.offset, 4)
  }

  function InodeFrom(img: seq<byte>, at: nat): InodeHeader
    requires at + INODE_SIZE <= |img|
  {
    InodeHeader(Num(img, at, 4), Extent(Num(img, at + 4, 4), Num(img, at + 8, 4)))
  }

  function DirEntryBytes(d: DirEntry): (s: seq<byte>)
    ensures |s| == DIR_ENTRY_SIZE
  {
    Le(d.inode, 2) + Le(d.nameLen, 2) + Le(d.nameOffset, 4)
  }

  function DirEntryFrom(img: seq<byte>, at: nat): DirEntry
    requires at + DIR_ENTRY_SIZE <= |img|
  {
    DirEntry(Num(img, at, 2), Num(img, at + 2, 2), Num(img, at + 4, 4))
  }

  function HeaderBytes(h: Header): (s: seq<byte>)
    ensures |s| == HEADER_SIZE
  {
    MAGIC + Le(h.tableOffset, 4) + Le(h.initfsSize, 8) + Le(h.pageSize, 2) + Le(h.rootInode, 2) + Le(h.inodeCount, 2) + Le(h.bootstrapEntry, 8)
  }

  function HeaderFrom(img: seq<byte>): Header
    requires HEADER_SIZE <= |img|
  {
    Header(Num(img, 8, 4), Num(img, 12, 8), Num(img, 20, 2), Num(img, 22, 2), Num(img, 24, 2), Num(img, 26, 8))
  }

  /** `data` stands in the image at `at`; nothing stands anywhere. */
  ghost predicate At(img: seq<byte>, at: nat, data: seq<byte>) {
    data == [] || (at + |data| <= |img| && img[at..at + |data|] == data)
  }

  lemma NumAt(img: seq<byte>, at: nat, n: nat, k: nat)
    requires At(img, at, Le(n, k)) && n < Range(k) && 0 < k
    ensures at + k <= |img| && Num(img, at, k) == n
  {
    UnLeOfLe(n, k);
  }

  /** A part of what stands somewhere stands there too. */
  lemma AtPart(img: seq<byte>, at: nat, data: seq<byte>, from: nat, part: seq<byte>)
    requires At(img, at, data) && from + |part| <= |data| && data[from..from + |part|] == part
    ensures At(img, at + from, part)
  {
    if part != [] {
      var whole := img[at..at + |data|];
      assert whole == data;
      forall i | 0 <= i < |part| ensures img[at + from + i] == part[i] {
        assert img[at + from + i] == whole[from + i];
        assert data[from..from + |part|][i] == data[from + i];
      }
    }
  }

  lemma InodeRoundTrip(img: seq<byte>, at: nat, h: InodeHeader)
    requires At(img, at, InodeBytes(h)) && h.code < U32 && h.extent.size < U32 && h.extent.offset < U32
    ensures at + INODE_SIZE <= |img| && InodeFrom(img, at) == h
  {
    var s := InodeBytes(h);
    Ranges();
    AtPart(img, at, s, 0, Le(h.code, 4));
    AtPart(img, at, s, 4, Le(h.extent.size, 4));
    AtPart(img, at, s, 8, Le(h.extent.offset, 4));
    NumAt(img, at, h.code, 4);
    NumAt(img, at + 4, h.extent.size, 4);
    NumAt(img, at + 8, h.extent.offset, 4);
  }

  lemma DirEntryRoundTrip(img: seq<byte>, at: nat, d: DirEntry)
    requires At(img, at, DirEntryBytes(d)) && d.inode < U16 && d.nameLen < U16 && d.nameOffset < U32
    ensures at + DIR_ENTRY_SIZE <= |img| && DirEntryFrom(img, at) == d
  {
    var s := DirEntryBytes(d);
    Ranges();
    AtPart(img, at, s, 0, Le(d.inode, 2));
    AtPart(img, at, s, 2, Le(d.nameLen, 2));
    AtPart(img, at, s, 4, Le(d.nameOffset, 4));
    NumAt(img, at, d.inode, 2);
    NumAt(img, at + 2, d.nameLen, 2);
    NumAt(img, at + 4, d.nameOffset, 4);
  }

  ghost predicate HeaderFits(h: Header) {
    && h.tableOffset < U32 && h.initfsSize < U64 && h.pageSize < U16
    && h.rootInode < U16 && h.inodeCount < U16 && h.bootstrapEntry < U64
  }

  /** The number at one field of the header. */
  lemma HeaderField(img: seq<byte>, s: seq<byte>, at: nat, n: nat, k: nat)
    requires At(img, 0, s) && 0 < k && at + k <= |s| && s[at..at + k] == Le(n, k) && n < Range(k)
    ensures at + k <= |img| && Num(img, at, k) == n
  {
    AtPart(img, 0, s, at, Le(n, k));
    NumAt(img, at, n, k);
  }

  lemma HeaderRoundTrip(img: seq<byte>, h: Header)
    requires At(img, 0, HeaderBytes(h)) && HeaderFits(h)
    ensures HEADER_SIZE <= |img| && img[..8] == MAGIC && HeaderFrom(img) == h
  {
    var s := HeaderBytes(h);
    Ranges();
    HeaderParts(h);
    HeaderField(img, s, 8, h.tableOffset, 4);
    HeaderField(img, s, 12, h.initfsSize, 8);
    HeaderField(img, s, 20, h.pageSize, 2);
    HeaderField(img, s, 22, h.rootInode, 2);
    HeaderField(img, s, 24, h.inodeCount, 2);
    HeaderField(img, s, 26, h.bootstrapEntry, 8);
    AtPart(img, 0, s, 0, MAGIC);
  }

  lemma HeaderParts(h: Header)
    ensures
      var s := HeaderBytes(h);
      && s[..8] == MAGIC && s[8..12] == Le(h.tableOffset, 4) && s[12..20] == Le(h.initfsSize, 8)
      && s[20..22] == Le(h.pageSize, 2) && s[22..24] == Le(h.rootInode, 2) && s[24..26] == Le(h.inodeCount, 2)
      && s[26..34] == Le(h.bootstrapEntry, 8)
  {}
}
