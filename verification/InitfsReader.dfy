/** The reader: validation, inode lookup and slicing over an immutable image. */
module InitfsReader {
  import opened Prelude
  import opened Bytes
  import opened InitfsTypes

  /** `InitFs::new`: the header is there, and the inode table lies inside the image. */
  predicate Accepts(img: seq<byte>, requiredPage: Option<nat>) {
    && HEADER_SIZE <= |img| < U32
    && img[..8] == MAGIC
    && var h := HeaderFrom(img);
       && HEADER_SIZE <= h.tableOffset
       && h.tableOffset + INODE_SIZE * h.inodeCount <= |img|
       && (requiredPage.Some? ==> h.pageSize == requiredPage.value)
  }

  predicate Mounted(img: seq<byte>) { Accepts(img, None) }

  function RootInode(img: seq<byte>): nat
    requires Mounted(img)
  {
    HeaderFrom(img).rootInode
  }

  function GetInode(img: seq<byte>, id: nat): Option<InodeHeader>
    requires Mounted(img)
  {
    var h := HeaderFrom(img);
    if id < h.inodeCount then
      assert INODE_SIZE * id + INODE_SIZE <= INODE_SIZE * h.inodeCount;
      Some(InodeFrom(img, h.tableOffset + INODE_SIZE * id))
    else None
  }

  /** `base.get(start..end)`. */
  function Stretch(img: seq<byte>, start: nat, length: nat): Option<seq<byte>> {
    if start + length <= |img| then Some(img[start..start + length]) else None
  }

  function Data(img: seq<byte>, h: InodeHeader): Option<seq<byte>> {
    Stretch(img, h.extent.offset, h.extent.size)
  }

  /** The entries of a directory's data, as many whole records as it holds. */
  function Records(data: seq<byte>): (r: seq<DirEntry>)
    ensures |r| == |data| / DIR_ENTRY_SIZE
  {
    seq(|data| / DIR_ENTRY_SIZE, i requires 0 <= i < |data| / DIR_ENTRY_SIZE => DirEntryFrom(data, DIR_ENTRY_SIZE * i))
  }

  function Entries(img: seq<byte>, h: InodeHeader): Option<seq<DirEntry>> {
    if Data(img, h).Some? then Some(Records(Data(img, h).value)) else None
  }

  /** `get_entry`: an error, the end of the directory, or an entry. */
  function GetEntry(img: seq<byte>, h: InodeHeader, idx: nat): Option<Option<DirEntry>> {
    match Entries(img, h)
    case None => None
    case Some(ds) => Some(if idx < |ds| then Some(ds[idx]) else None)
  }

  function NameOf(img: seq<byte>, d: DirEntry): Option<seq<byte>> {
    Stretch(img, d.nameOffset, d.nameLen)
  }

  /** What `kind` makes of an inode. */
  datatype Kind = FileKind(executable: bool) | DirKind | LinkKind | Unknown

  function KindOf(h: InodeHeader): Kind {
    match TypeOfCode(h.code)
    case Some(RegularFile) => FileKind(false)
    case Some(ExecutableFile) => FileKind(true)
    case Some(Directory) => DirKind
    case Some(Symlink) => LinkKind
    case None => Unknown
  }

  // ---------------------------------------------------------------- reading a tree back

  /** The tree below an inode, read at most `depth` levels deep. */
  function ReadTree(img: seq<byte>, id: nat, depth: nat): Option<Node>
    requires Mounted(img)
    decreases depth, 1, 0
  {
    if depth == 0 || GetInode(img, id).None? then None
    else
      var h := GetInode(img, id).value;
      match KindOf(h)
      case FileKind(executable) => if Data(img, h).Some? then Some(File(Data(img, h).value, executable)) else None
      case LinkKind => if Data(img, h).Some? then Some(Link(Data(img, h).value)) else None
      case DirKind =>
        if Entries(img, h).None? then None
        else
          var ds := Entries(img, h).value;
          var es := ReadEntries(img, ds, depth - 1);
          if es.Some? then Some(Dir(es.value)) else None
      case Unknown => None
  }

  function ReadEntries(img: seq<byte>, ds: seq<DirEntry>, depth: nat): Option<seq<Entry>>
    requires Mounted(img)
    decreases depth, 2, |ds|
  {
    if ds == [] then Some([])
    else
      var name, node, rest := NameOf(img, ds[0]), ReadTree(img, ds[0].inode, depth), ReadEntries(img, ds[1..], depth);
      if name.Some? && node.Some? && rest.Some? then Some([Entry(name.value, node.value)] + rest.value) else None
  }
}
