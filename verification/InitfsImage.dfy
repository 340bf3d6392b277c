/** What it means that a tree is stored in an image, and which writes leave it stored. */
module InitfsImage {
  import opened Prelude
  import opened Bytes
  import opened InitfsTypes

  /**
   The extent holds the node: a file's or link's bytes, or a directory's entry table, whose
   entries lead to names and nodes between the table's end and `hi`.
   */
  ghost predicate Stored(img: seq<byte>, inodes: seq<InodeHeader>, n: Node, w: Extent, lo: nat, hi: nat)
    decreases n
  {
    && lo <= w.offset && w.offset + w.size <= hi
    && w.size < U32 && w.offset < U32
    && match n
       case File(data, _) => w.size == |data| && At(img, w.offset, data)
       case Link(target) => w.size == |target| && At(img, w.offset, target)
       case Dir(es) => w.size == DIR_ENTRY_SIZE * |es| && EntriesStored(img, inodes, es, |es|, w.offset, hi)
  }

  /** The first `n` entries of a directory whose table is at `table`. */
  ghost predicate EntriesStored(img: seq<byte>, inodes: seq<InodeHeader>, es: seq<Entry>, n: nat, table: nat, hi: nat)
    requires n <= |es|
    decreases es, 1
  {
    forall k: nat {:trigger EntryStored(img, inodes, es, k, table, hi)} | k < n :: EntryStored(img, inodes, es, k, table, hi)
  }

  ghost predicate EntryStored(img: seq<byte>, inodes: seq<InodeHeader>, es: seq<Entry>, k: nat, table: nat, hi: nat)
    requires k < |es|
    decreases es, 0
  {
    var e, at, lo := es[k], RecordAt(table, k), TableEnd(table, es);
    && at + DIR_ENTRY_SIZE <= |img|
    && var d := DirEntryFrom(img, at);
       && d.nameLen == |e.name| && lo <= d.nameOffset && d.nameOffset + |e.name| <= hi && At(img, d.nameOffset, e.name)
       && d.inode < |inodes|
       && inodes[d.inode].code == TypeCode(TypeOf(e.node))
       && Stored(img, inodes, e.node, inodes[d.inode].extent, lo, hi)
  }

  function RecordAt(table: nat, k: nat): nat { table + DIR_ENTRY_SIZE * k }
  function TableEnd(table: nat, es: seq<Entry>): nat { table + DIR_ENTRY_SIZE * |es| }

  // ---------------------------------------------------------------- what preserves it

  /** The second image is no shorter and has the same bytes from `lo` on. */
  ghost predicate AgreeFrom(img: seq<byte>, img': seq<byte>, lo: nat) {
    && |img| <= |img'|
    && forall i | lo <= i < |img| :: img'[i] == img[i]
  }

  lemma AgreeAt(img: seq<byte>, img': seq<byte>, lo: nat, at: nat, data: seq<byte>)
    requires AgreeFrom(img, img', lo) && lo <= at && At(img, at, data)
    ensures At(img', at, data)
  {
    if data != [] {
      assert img'[at..at + |data|] == img[at..at + |data|];
    }
  }

  lemma {:induction false} StoredFrame(img: seq<byte>, img': seq<byte>, inodes: seq<InodeHeader>, inodes': seq<InodeHeader>, n: Node, w: Extent, lo: nat, hi: nat, hi': nat)
    requires Stored(img, inodes, n, w, lo, hi)
    requires AgreeFrom(img, img', lo) && inodes <= inodes' && hi <= hi'
    ensures Stored(img', inodes', n, w, lo, hi')
    decreases n
  {
    match n
    case File(data, _) => AgreeAt(img, img', lo, w.offset, data);
    case Link(target) => AgreeAt(img, img', lo, w.offset, target);
    case Dir(es) =>
      forall k: nat | k < |es| ensures EntryStored(img', inodes', es, k, w.offset, hi') {
        assert EntryStored(img, inodes, es, k, w.offset, hi);
        var at := RecordAt(w.offset, k);
        AgreeAt(img, img', lo, at, img[at..at + 8]);
        EntryStoredFrame(img, img', inodes, inodes', es, k, w.offset, hi, hi');
      }
  }

  lemma {:induction false} EntryStoredFrame(img: seq<byte>, img': seq<byte>, inodes: seq<InodeHeader>, inodes': seq<InodeHeader>, es: seq<Entry>, k: nat, table: nat, hi: nat, hi': nat)
    requires k < |es| && EntryStored(img, inodes, es, k, table, hi)
    requires AgreeFrom(img, img', TableEnd(table, es)) && inodes <= inodes' && hi <= hi'
    requires var at := RecordAt(table, k); img'[at..at + 8] == img[at..at + 8]
    ensures EntryStored(img', inodes', es, k, table, hi')
    decreases es
  {
    var at, lo := RecordAt(table, k), TableEnd(table, es);
    var d := DirEntryFrom(img, at);
    SameEntry(img, at, img', at);
    AgreeAt(img, img', lo, d.nameOffset, es[k].name);
    StoredFrame(img, img', inodes, inodes', es[k].node, inodes[d.inode].extent, lo, hi, hi');
  }

  /** A record's meaning depends on its eight bytes only. */
  lemma SameEntry(img: seq<byte>, at: nat, img': seq<byte>, at': nat)
    requires at + 8 <= |img| && at' + 8 <= |img'| && img'[at'..at' + 8] == img[at..at + 8]
    ensures DirEntryFrom(img', at') == DirEntryFrom(img, at)
  {
    var s := img[at..at + 8];
    AtPart(img, at, s, 0, s[0..2]);
    AtPart(img', at', s, 0, s[0..2]);
    AtPart(img, at, s, 2, s[2..4]);
    AtPart(img', at', s, 2, s[2..4]);
    AtPart(img, at, s, 4, s[4..8]);
    AtPart(img', at', s, 4, s[4..8]);
  }

  // ---------------------------------------------------------------- writing at an offset

  /** `write_all_at`: a gap is filled with zeros, and writing nothing does not extend the file. */
  function Overlay(img: seq<byte>, at: nat, data: seq<byte>): (r: seq<byte>)
    ensures |img| <= |r|
    ensures At(r, at, data)
    ensures data != [] ==> |r| == if |img| < at + |data| then at + |data| else |img|
    ensures forall i | 0 <= i < |img| && !(at <= i < at + |data|) :: r[i] == img[i]
  {
    if data == [] then img
    else if |img| <= at then img + Zeros(at - |img|) + data
    else if |img| <= at + |data| then img[..at] + data
    else img[..at] + data + img[at + |data|..]
  }

  function Zeros(k: nat): (s: seq<byte>)
    ensures |s| == k
  {
    seq(k, _ => 0 as byte)
  }

  /** Writing behind the end of the image keeps all of it as a prefix. */
  lemma OverlayBehind(img: seq<byte>, at: nat, data: seq<byte>)
    requires |img| <= at
    ensures img <= Overlay(img, at, data)
  {}
}
