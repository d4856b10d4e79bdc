/** The icon writer: a header, one directory entry per frame, then the frames. */
module Ico {
  import opened Wrappers

  type Byte = b: int | 0 <= b < 256

  /** A frame: its side in pixels and its PNG bytes. */
  datatype Frame = Frame(size: int, data: seq<Byte>)

  function LE16(v: nat): (s: seq<Byte>)
    requires v < 0x1_0000
    ensures |s| == 2
  {
    [v % 256, v / 256]
  }

  function LE32(v: nat): (s: seq<Byte>)
    requires v < 0x1_0000_0000
    ensures |s| == 4
  {
    LE16(v % 0x1_0000) + LE16(v / 0x1_0000)
  }

  function ReadLE16(s: seq<Byte>, k: nat): nat
    requires k + 2 <= |s|
  {
    var low: int, high: int := s[k], s[k + 1];
    low + 256 * high
  }

  function ReadLE32(s: seq<Byte>, k: nat): nat
    requires k + 4 <= |s|
  {
    ReadLE16(s, k) + 0x1_0000 * ReadLE16(s, k + 2)
  }

  lemma ReadWritten16(before: seq<Byte>, v: nat, after: seq<Byte>)
    requires v < 0x1_0000
    ensures ReadLE16(before + LE16(v) + after, |before|) == v
  {
  }

  lemma ReadWritten32(before: seq<Byte>, v: nat, after: seq<Byte>)
    requires v < 0x1_0000_0000
    ensures ReadLE32(before + LE32(v) + after, |before|) == v
  {
    var low, high := LE16(v % 0x1_0000), LE16(v / 0x1_0000);
    assert before + LE32(v) + after == before + low + (high + after);
    ReadWritten16(before, v % 0x1_0000, high + after);
    assert before + LE32(v) + after == (before + low) + high + after;
    ReadWritten16(before + low, v / 0x1_0000, after);
  }

  // ---- the layout ----------------------------------------------------------------

  /** The side as stored; 256 does not fit a byte and is stored as 0. */
  function SizeByte(size: int): int {
    if size < 256 then size else 0
  }

  predicate EntryFits(f: Frame, offset: nat) {
    f.size >= 0 && |f.data| < 0x1_0000_0000 && offset < 0x1_0000_0000
  }

  function Entry(f: Frame, offset: nat): (e: seq<Byte>)
    requires EntryFits(f, offset)
    ensures |e| == 16
  {
    [SizeByte(f.size), SizeByte(f.size), 0, 0] + LE16(1) + LE16(32) + LE32(|f.data|) + LE32(offset)
  }

  function Data(frames: seq<Frame>): seq<Byte> {
    if frames == [] then [] else Data(frames[..|frames| - 1]) + frames[|frames| - 1].data
  }

  /** Where the data of frame `i` begins. */
  function Start(frames: seq<Frame>, i: nat): nat
    requires i <= |frames|
  {
    6 + 16 * |frames| + |Data(frames[..i])|
  }

  predicate EntriesFit(frames: seq<Frame>, n: nat)
    requires n <= |frames|
  {
    forall i | 0 <= i < n :: EntryFits(frames[i], Start(frames, i))
  }

  /** What the integer fields of the format can hold. */
  predicate Fits(frames: seq<Frame>) {
    |frames| < 0x1_0000 && EntriesFit(frames, |frames|)
  }

  /** The directory of the first `i` frames. */
  function Directory(frames: seq<Frame>, i: nat): (d: seq<Byte>)
    requires i <= |frames| && EntriesFit(frames, i)
    ensures |d| == 16 * i
  {
    if i == 0 then [] else Directory(frames, i - 1) + Entry(frames[i - 1], Start(frames, i - 1))
  }

  function Header(n: nat): (h: seq<Byte>)
    requires n < 0x1_0000
    ensures |h| == 6
  {
    LE16(0) + LE16(1) + LE16(n)
  }

  function File(frames: seq<Frame>): seq<Byte>
    requires Fits(frames)
  {
    Header(|frames|) + Directory(frames, |frames|) + Data(frames)
  }

  // ---- reading it back -------------------------------------------------------------

  datatype EntryView = EntryView(width: nat, height: nat, colors: nat, reserved: nat, planes: nat, bits: nat,
                                 length: nat, offset: nat)

  function Side(b: Byte): nat {
    if b == 0 then 256 else b
  }

  function Count(file: seq<Byte>): nat
    requires |file| >= 6
  {
    ReadLE16(file, 4)
  }

  function ReadEntry(file: seq<Byte>, i: nat): EntryView
    requires 6 + 16 * (i + 1) <= |file|
  {
    var k := 6 + 16 * i;
    EntryView(Side(file[k]), Side(file[k + 1]), file[k + 2], file[k + 3], ReadLE16(file, k + 4), ReadLE16(file, k + 6),
              ReadLE32(file, k + 8), ReadLE32(file, k + 12))
  }

  lemma {:induction false} DirectoryAt(frames: seq<Frame>, n: nat, i: nat)
    requires Fits(frames) && i < n <= |frames|
    ensures Directory(frames, n)[16 * i..16 * (i + 1)] == Entry(frames[i], Start(frames, i))
  {
    if i < n - 1 {
      DirectoryAt(frames, n - 1, i);
      var front := Directory(frames, n - 1);
      assert Directory(frames, n)[16 * i..16 * (i + 1)] == front[16 * i..16 * (i + 1)];
    }
  }

  lemma {:induction false} DataAt(frames: seq<Frame>, i: nat)
    requires i < |frames|
    ensures |Data(frames[..i])| + |frames[i].data| <= |Data(frames)|
    ensures Data(frames)[|Data(frames[..i])|..][..|frames[i].data|] == frames[i].data
  {
    var n := |frames| - 1;
    if i < n {
      DataAt(frames[..n], i);
      assert frames[..n][..i] == frames[..i];
    } else {
      assert Data(frames) == Data(frames[..i]) + frames[i].data;
    }
  }

  /** Every field of a written entry reads back as it was meant. */
  lemma EntryReadsBack(before: seq<Byte>, f: Frame, offset: nat, after: seq<Byte>, i: nat)
    requires EntryFits(f, offset) && |before| == 6 + 16 * i
    ensures var v := ReadEntry(before + Entry(f, offset) + after, i);
            && v.width == v.height == Side(SizeByte(f.size))
            && v.colors == 0 && v.reserved == 0 && v.planes == 1 && v.bits == 32
            && v.length == |f.data| && v.offset == offset
  {
    var e := Entry(f, offset);
    var file := before + e + after;
    var top := [SizeByte(f.size), SizeByte(f.size), 0, 0];
    assert file == (before + top) + LE16(1) + (LE16(32) + LE32(|f.data|) + LE32(offset) + after);
    ReadWritten16(before + top, 1, LE16(32) + LE32(|f.data|) + LE32(offset) + after);
    assert file == (before + top + LE16(1)) + LE16(32) + (LE32(|f.data|) + LE32(offset) + after);
    ReadWritten16(before + top + LE16(1), 32, LE32(|f.data|) + LE32(offset) + after);
    assert file == (before + top + LE16(1) + LE16(32)) + LE32(|f.data|) + (LE32(offset) + after);
    ReadWritten32(before + top + LE16(1) + LE16(32), |f.data|, LE32(offset) + after);
    assert file == (before + top + LE16(1) + LE16(32) + LE32(|f.data|)) + LE32(offset) + after;
    ReadWritten32(before + top + LE16(1) + LE16(32) + LE32(|f.data|), offset, after);
  }

  lemma FileSize(frames: seq<Frame>)
    requires Fits(frames)
    ensures |File(frames)| == 6 + 16 * |frames| + |Data(frames)|
  {
  }

  /** The header reads back: an icon file and the number of frames. */
  lemma HeaderReadsBack(frames: seq<Frame>)
    requires Fits(frames)
    ensures |File(frames)| >= 6 && Count(File(frames)) == |frames|
    ensures ReadLE16(File(frames), 0) == 0 && ReadLE16(File(frames), 2) == 1
  {
    var rest := Directory(frames, |frames|) + Data(frames);
    var top := LE16(0) + LE16(1);
    assert File(frames) == top + LE16(|frames|) + rest;
    ReadWritten16(top, |frames|, rest);
    ReadWritten16([], 0, LE16(1) + LE16(|frames|) + rest);
    assert File(frames) == [] + LE16(0) + (LE16(1) + LE16(|frames|) + rest);
    ReadWritten16(LE16(0), 1, LE16(|frames|) + rest);
    assert File(frames) == LE16(0) + LE16(1) + (LE16(|frames|) + rest);
  }

  lemma FileAround(frames: seq<Frame>, i: nat) returns (before: seq<Byte>, after: seq<Byte>)
    requires Fits(frames) && i < |frames|
    ensures File(frames) == before + Entry(frames[i], Start(frames, i)) + after && |before| == 6 + 16 * i
  {
    var d := Directory(frames, |frames|);
    DirectoryAt(frames, |frames|, i);
    before, after := Header(|frames|) + d[..16 * i], d[16 * (i + 1)..] + Data(frames);
    Around(Header(|frames|), d, Data(frames), 16 * i, 16 * (i + 1));
  }

  lemma Around(a: seq<Byte>, d: seq<Byte>, c: seq<Byte>, k: nat, m: nat)
    requires k <= m <= |d|
    ensures a + d + c == (a + d[..k]) + d[k..m] + (d[m..] + c)
  {
    assert d == d[..k] + d[k..m] + d[m..];
  }

  lemma DataInFile(frames: seq<Frame>, i: nat)
    requires Fits(frames) && i < |frames|
    ensures Start(frames, i) + |frames[i].data| <= |File(frames)|
    ensures File(frames)[Start(frames, i)..Start(frames, i) + |frames[i].data|] == frames[i].data
  {
    DataAt(frames, i);
    FileSize(frames);
    var top := Header(|frames|) + Directory(frames, |frames|);
    var from, n := |Data(frames[..i])|, |frames[i].data|;
    assert File(frames) == top + Data(frames);
    assert (top + Data(frames))[|top| + from..|top| + from + n] == Data(frames)[from..][..n];
  }

  /** Each directory entry leads to exactly the bytes of its frame. Its size is
      the frame's exactly for sizes from 1 to 256. */
  lemma FrameReadsBack(frames: seq<Frame>, i: nat)
    requires Fits(frames) && i < |frames|
    ensures |File(frames)| >= 6 + 16 * |frames|
    ensures var v := ReadEntry(File(frames), i);
            && v.offset == Start(frames, i) && v.length == |frames[i].data| && v.planes == 1 && v.bits == 32
            && v.offset + v.length <= |File(frames)|
            && File(frames)[v.offset..v.offset + v.length] == frames[i].data
            && (v.width == v.height == frames[i].size <==> 1 <= frames[i].size <= 256)
  {
    FileSize(frames);
    DataInFile(frames, i);
    var before, after := FileAround(frames, i);
    EntryReadsBack(before, frames[i], Start(frames, i), after, i);
  }

  /** The data regions follow each other without gap or overlap, from the end
      of the directory to the end of the file. */
  lemma RegionsAreContiguous(frames: seq<Frame>, i: nat)
    requires Fits(frames) && i < |frames|
    ensures Start(frames, 0) == 6 + 16 * |frames|
    ensures Start(frames, i + 1) == Start(frames, i) + |frames[i].data|
    ensures Start(frames, |frames|) == |File(frames)|
  {
    assert frames[..i + 1][..i] == frames[..i];
    assert frames[..|frames|] == frames;
    FileSize(frames);
  }

  // ---- the writer --------------------------------------------------------------------

  /** The buffer with some bytes overwritten. */
  function Patched(b: seq<Byte>, k: nat, s: seq<Byte>): (r: seq<Byte>)
    requires k + |s| <= |b|
    ensures |r| == |b|
  {
    b[..k] + s + b[k + |s|..]
  }

  method WriteUInt8(b: array<Byte>, v: int, k: nat) returns (ok: bool)
    requires k < b.Length
    modifies b
    ensures ok == (0 <= v < 256)
    ensures b[..] == if ok then Patched(old(b[..]), k, [v]) else old(b[..])
  {
    if v < 0 || v >= 256 {
      return false;
    }
    b[k] := v;
    ok := true;
  }

  method WriteUInt16LE(b: array<Byte>, v: nat, k: nat) returns (ok: bool)
    requires k + 2 <= b.Length
    modifies b
    ensures ok == (v < 0x1_0000)
    ensures b[..] == if ok then Patched(old(b[..]), k, LE16(v)) else old(b[..])
  {
    if v >= 0x1_0000 {
      return false;
    }
    b[k], b[k + 1] := v % 256, v / 256;
    ok := true;
  }

  method WriteUInt32LE(b: array<Byte>, v: nat, k: nat) returns (ok: bool)
    requires k + 4 <= b.Length
    modifies b
    ensures ok == (v < 0x1_0000_0000)
    ensures b[..] == if ok then Patched(old(b[..]), k, LE32(v)) else old(b[..])
  {
    if v >= 0x1_0000_0000 {
      return false;
    }
    ghost var was := b[..];
    ok := WriteUInt16LE(b, v % 0x1_0000, k);
    ok := WriteUInt16LE(b, v / 0x1_0000, k + 2);
    PatchTwice(was, k, LE16(v % 0x1_0000), LE16(v / 0x1_0000));
  }

  lemma PatchTwice(b: seq<Byte>, k: nat, s: seq<Byte>, t: seq<Byte>)
    requires k + |s| + |t| <= |b|
    ensures Patched(Patched(b, k, s), k + |s|, t) == Patched(b, k, s + t)
  {
  }

  /** The first half of a directory entry: sides, palette, planes, bits. */
  method WriteShape(b: array<Byte>, side: int, k: nat) returns (ok: bool)
    requires k + 16 <= b.Length && side < 256
    modifies b
    ensures ok == (side >= 0)
    ensures ok ==> b[..] == Patched(old(b[..]), k, [side, side, 0, 0] + LE16(1) + LE16(32))
  {
    ghost var was := b[..];
    ok := WriteUInt8(b, side, k);
    if !ok { return; }
    ok := WriteUInt8(b, side, k + 1);
    PatchTwice(was, k, [side], [side]);
    ok := WriteUInt8(b, 0, k + 2);
    PatchTwice(was, k, [side] + [side], [0]);
    ok := WriteUInt8(b, 0, k + 3);
    PatchTwice(was, k, [side] + [side] + [0], [0]);
    ok := WriteUInt16LE(b, 1, k + 4);
    ghost var top := [side] + [side] + [0] + [0];
    PatchTwice(was, k, top, LE16(1));
    ok := WriteUInt16LE(b, 32, k + 6);
    PatchTwice(was, k, top + LE16(1), LE16(32));
    assert top == [side, side, 0, 0];
  }

  /** One directory entry. */
  method WriteEntry(b: array<Byte>, f: Frame, dataOffset: nat, k: nat) returns (ok: bool)
    requires k + 16 <= b.Length
    modifies b
    ensures ok == EntryFits(f, dataOffset)
    ensures ok ==> b[..] == Patched(old(b[..]), k, Entry(f, dataOffset))
  {
    ghost var was := b[..];
    var side := if f.size < 256 then f.size else 0;
    ok := WriteShape(b, side, k);
    if !ok { return; }
    ghost var shape: seq<Byte> := [side, side, 0, 0] + LE16(1) + LE16(32);
    ok := WriteUInt32LE(b, |f.data|, k + 8);
    if !ok { return; }
    PatchTwice(was, k, shape, LE32(|f.data|));
    ok := WriteUInt32LE(b, dataOffset, k + 12);
    if ok {
      PatchTwice(was, k, shape + LE32(|f.data|), LE32(dataOffset));
    }
  }

  method WriteHeader(n: nat) returns (header: Option<array<Byte>>)
    ensures header.Some? <==> n < 0x1_0000
    ensures header.Some? ==> fresh(header.value) && header.value[..] == Header(n)
  {
    var b := new Byte[6](_ => 0);
    ghost var was := b[..];
    var ok := WriteUInt16LE(b, 0, 0);
    ok := WriteUInt16LE(b, 1, 2);
    PatchTwice(was, 0, LE16(0), LE16(1));
    ok := WriteUInt16LE(b, n, 4);
    if !ok {
      return None;
    }
    PatchTwice(was, 0, LE16(0) + LE16(1), LE16(n));
    header := Some(b);
  }

  /** Succeeds exactly when every number fits its field. */
  method BuildIco(frames: seq<Frame>) returns (file: Option<seq<Byte>>)
    ensures file == if Fits(frames) then Some(File(frames)) else None
  {
    var n := |frames|;
    var header := WriteHeader(n);
    if header.None? {
      return None;
    }
    var directory := new Byte[16 * n](_ => 0);
    var dataOffset := 6 + 16 * n;
    for i := 0 to n
      invariant dataOffset == Start(frames, i)
      invariant EntriesFit(frames, i) && directory[..16 * i] == Directory(frames, i)
      invariant header.value[..] == Header(n)
    {
      var ok := WriteEntry(directory, frames[i], dataOffset, 16 * i);
      if !ok {
        assert !EntryFits(frames[i], Start(frames, i));
        return None;
      }
      assert frames[..i + 1][..i] == frames[..i];
      dataOffset := dataOffset + |frames[i].data|;
    }
    assert directory[..] == directory[..16 * n];
    file := Some(header.value[..] + directory[..] + Data(frames));
  }
}
