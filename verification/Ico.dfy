/** The ICO container: a header, one directory entry per image, and the payloads. */
module Ico {
  import opened Wrappers
  import opened Text

  type Image = (int, seq<Byte>)

  // ----- little-endian fields -----

  function Le16(n: nat): (b: seq<Byte>)
    requires n < 0x1_0000
    ensures |b| == 2
  {
    [n % 256, n / 256]
  }

  function Le32(n: nat): (b: seq<Byte>)
    requires n < 0x1_0000_0000
    ensures |b| == 4
  {
    [n % 256, n / 256 % 256, n / 0x1_0000 % 256, n / 0x100_0000]
  }

  function Get16(f: seq<Byte>, i: nat): nat
    requires i + 2 <= |f|
  {
    var low: nat, high: nat := f[i], f[i + 1];
    low + 256 * high
  }

  function Get32(f: seq<Byte>, i: nat): nat
    requires i + 4 <= |f|
  {
    var a: nat, b: nat, c: nat, d: nat := f[i], f[i + 1], f[i + 2], f[i + 3];
    a + 256 * b + 0x1_0000 * c + 0x100_0000 * d
  }

  // ----- pack_ico -----

  function TotalLength(images: seq<Image>): nat {
    if |images| == 0 then 0 else TotalLength(images[..|images| - 1]) + |images[|images| - 1].1|
  }

  /** Where the payload of image `i` begins. */
  function OffsetOf(images: seq<Image>, i: nat): nat
    requires i <= |images|
  {
    6 + 16 * |images| + TotalLength(images[..i])
  }

  /** The fields of one directory entry fit their widths. */
  predicate EntryFits(size: int, length: nat, offset: nat) {
    0 <= size < 256 && length < 0x1_0000_0000 && offset < 0x1_0000_0000
  }

  function EntryBytes(size: int, length: nat, offset: nat): (b: seq<Byte>)
    requires EntryFits(size, length, offset)
    ensures |b| == 16
  {
    [size as Byte, size as Byte, 0, 0] + Le16(1) + Le16(32) + Le32(length) + Le32(offset)
  }

  /** `struct.pack` accepts every field. */
  predicate Packs(images: seq<Image>) {
    && |images| < 0x1_0000
    && forall i :: 0 <= i < |images| ==> EntryFits(images[i].0, |images[i].1|, OffsetOf(images, i))
  }

  function Entries(images: seq<Image>, n: nat): (b: seq<Byte>)
    requires Packs(images) && n <= |images|
    ensures |b| == 16 * n
  {
    if n == 0 then []
    else Entries(images, n - 1) + EntryBytes(images[n - 1].0, |images[n - 1].1|, OffsetOf(images, n - 1))
  }

  function Payloads(images: seq<Image>): (b: seq<Byte>)
    ensures |b| == TotalLength(images)
  {
    if |images| == 0 then [] else Payloads(images[..|images| - 1]) + images[|images| - 1].1
  }

  function Header(count: nat): (b: seq<Byte>)
    requires count < 0x1_0000
    ensures |b| == 6
  {
    Le16(0) + Le16(1) + Le16(count)
  }

  function File(images: seq<Image>): (b: seq<Byte>)
    requires Packs(images)
    ensures |b| == OffsetOf(images, |images|)
  {
    assert images[..|images|] == images;
    Header(|images|) + Entries(images, |images|) + Payloads(images)
  }

  /** `pack_ico`: nothing stands for the error of a field out of range. */
  method PackIco(images: seq<Image>) returns (file: Option<seq<Byte>>)
    ensures file == if Packs(images) then Some(File(images)) else None
  {
    if |images| >= 0x1_0000 {
      return None;
    }
    var offset := 6 + 16 * |images|;
    var entries: seq<Byte>, payloads: seq<Byte> := [], [];
    for i := 0 to |images|
      invariant offset == OffsetOf(images, i)
      invariant forall k :: 0 <= k < i ==> EntryFits(images[k].0, |images[k].1|, OffsetOf(images, k))
      invariant payloads == Payloads(images[..i])
      invariant Packs(images) ==> entries == Entries(images, i)
    {
      OneMorePayload(images, i);
      var (size, data) := images[i];
      if !EntryFits(size, |data|, offset) {
        return None;
      }
      entries := entries + EntryBytes(size, |data|, offset);
      payloads := payloads + data;
      offset := offset + |data|;
    }
    assert images[..|images|] == images;
    return Some(Header(|images|) + entries + payloads);
  }

  lemma OneMorePayload(images: seq<Image>, i: nat)
    requires i < |images|
    ensures OffsetOf(images, i + 1) == OffsetOf(images, i) + |images[i].1|
    ensures Payloads(images[..i + 1]) == Payloads(images[..i]) + images[i].1
  {
    assert images[..i + 1][..i] == images[..i];
  }

  // ----- an ICO reader -----

  /** A width byte of 0 stands for 256. */
  function WidthOf(b: Byte): int {
    if b == 0 then 256 else b
  }

  function ReadEntry(f: seq<Byte>, i: nat): Option<Image> {
    var at := 6 + 16 * i;
    if at + 16 > |f| then None
    else
      var length, offset := Get32(f, at + 8), Get32(f, at + 12);
      if offset + length > |f| then None else Some((WidthOf(f[at]), f[offset..offset + length]))
  }

  function ReadEntries(f: seq<Byte>, n: nat): Option<seq<Image>> {
    if n == 0 then Some([])
    else
      match (ReadEntries(f, n - 1), ReadEntry(f, n - 1))
      case (Some(images), Some(image)) => Some(images + [image])
      case _ => None
  }

  function ReadIco(f: seq<Byte>): Option<seq<Image>> {
    if |f| < 6 || Get16(f, 0) != 0 || Get16(f, 2) != 1 then None else ReadEntries(f, Get16(f, 4))
  }

  // ----- the round trip -----

  lemma Le16Get(n: nat, f: seq<Byte>, i: nat)
    requires n < 0x1_0000 && i + 2 <= |f| && f[i..i + 2] == Le16(n)
    ensures Get16(f, i) == n
  {
    assert f[i] == f[i..i + 2][0] && f[i + 1] == f[i..i + 2][1];
  }

  lemma Le32Get(n: nat, f: seq<Byte>, i: nat)
    requires n < 0x1_0000_0000 && i + 4 <= |f| && f[i..i + 4] == Le32(n)
    ensures Get32(f, i) == n
  {
    var b := f[i..i + 4];
    assert f[i] == b[0] && f[i + 1] == b[1] && f[i + 2] == b[2] && f[i + 3] == b[3];
    assert n / 0x1_0000 == n / 256 / 256 && n / 0x100_0000 == n / 256 / 256 / 256;
  }

  lemma {:induction false} EntryInEntries(images: seq<Image>, n: nat, i: nat)
    requires Packs(images) && i < n <= |images|
    ensures Entries(images, n)[16 * i..16 * i + 16]
         == EntryBytes(images[i].0, |images[i].1|, OffsetOf(images, i))
  {
    if i < n - 1 {
      EntryInEntries(images, n - 1, i);
      assert Entries(images, n)[16 * i..16 * i + 16] == Entries(images, n - 1)[16 * i..16 * i + 16];
    }
  }

  lemma {:induction false} PayloadInPayloads(images: seq<Image>, i: nat)
    requires i < |images|
    ensures TotalLength(images[..i]) + |images[i].1| <= TotalLength(images)
    ensures Payloads(images)[TotalLength(images[..i])..TotalLength(images[..i]) + |images[i].1|] == images[i].1
  {
    var n := |images| - 1;
    if i < n {
      PayloadInPayloads(images[..n], i);
      assert images[..n][..i] == images[..i];
    }
  }

  /** Payloads lie behind the directory, in order, without gaps, up to the end of the file. */
  lemma PayloadsTile(images: seq<Image>, i: nat)
    requires Packs(images) && i < |images|
    ensures OffsetOf(images, 0) == 6 + 16 * |images|
    ensures OffsetOf(images, i + 1) == OffsetOf(images, i) + |images[i].1|
    ensures OffsetOf(images, i + 1) <= OffsetOf(images, |images|) == |File(images)|
    ensures File(images)[OffsetOf(images, i)..OffsetOf(images, i + 1)] == images[i].1
  {
    PayloadInPayloads(images, i);
    assert images[..i + 1][..i] == images[..i];
    assert images[..|images|] == images;
    var front := Header(|images|) + Entries(images, |images|);
    var a, b := TotalLength(images[..i]), TotalLength(images[..i]) + |images[i].1|;
    assert File(images) == front + Payloads(images);
    assert File(images)[|front| + a..|front| + b] == Payloads(images)[a..b];
  }

  lemma EntryFields(images: seq<Image>, i: nat)
    requires Packs(images) && i < |images|
    ensures var f, at := File(images), 6 + 16 * i;
         at + 16 <= |f| && f[at] == images[i].0
         && Get32(f, at + 8) == |images[i].1| && Get32(f, at + 12) == OffsetOf(images, i)
  {
    var f, entries := File(images), Entries(images, |images|);
    EntryInEntries(images, |images|, i);
    InnerSlice(Header(|images|), entries, Payloads(images), f, 16 * i, 16 * i + 16);
    FieldsOfEntry(f, 6 + 16 * i, images[i].0, |images[i].1|, OffsetOf(images, i));
  }

  /** A slice of the middle part, seen from the whole. */
  lemma InnerSlice(a: seq<Byte>, b: seq<Byte>, c: seq<Byte>, f: seq<Byte>, i: nat, j: nat)
    requires f == a + b + c && i <= j <= |b|
    ensures |a| + j <= |f| && f[|a| + i..|a| + j] == b[i..j]
  {
  }

  lemma FieldsOfEntry(f: seq<Byte>, at: nat, size: int, length: nat, offset: nat)
    requires at + 16 <= |f| && EntryFits(size, length, offset) && f[at..at + 16] == EntryBytes(size, length, offset)
    ensures f[at] == size && Get32(f, at + 8) == length && Get32(f, at + 12) == offset
  {
    var e := EntryBytes(size, length, offset);
    assert f[at] == e[0];
    assert e[8..12] == Le32(length) && e[12..16] == Le32(offset);
    SubSlice(f, at, e, 8, 12);
    SubSlice(f, at, e, 12, 16);
    Le32Get(length, f, at + 8);
    Le32Get(offset, f, at + 12);
  }

  lemma SubSlice(f: seq<Byte>, at: nat, e: seq<Byte>, i: nat, j: nat)
    requires at + |e| <= |f| && f[at..at + |e|] == e && i <= j <= |e|
    ensures f[at + i..at + j] == e[i..j]
  {
    assert forall k :: 0 <= k < |e| ==> e[k] == f[at + k];
  }

  /** The image as a reader sees it. */
  function Seen(image: Image): Image {
    (if image.0 == 0 then 256 else image.0, image.1)
  }

  lemma EntryReadsBack(images: seq<Image>, i: nat)
    requires Packs(images) && i < |images|
    ensures ReadEntry(File(images), i) == Some(Seen(images[i]))
  {
    EntryFields(images, i);
    PayloadsTile(images, i);
  }

  lemma {:induction false} EntriesOneByOne(f: seq<Byte>, images: seq<Image>, n: nat)
    requires n <= |images| && forall i :: 0 <= i < n ==> ReadEntry(f, i) == Some(Seen(images[i]))
    ensures ReadEntries(f, n).Some?
    ensures var found := ReadEntries(f, n).value;
         |found| == n && forall i :: 0 <= i < n ==> found[i] == Seen(images[i])
  {
    if n > 0 {
      EntriesOneByOne(f, images, n - 1);
    }
  }

  lemma EntriesReadBack(images: seq<Image>)
    requires Packs(images)
    ensures ReadEntries(File(images), |images|).Some?
    ensures var found := ReadEntries(File(images), |images|).value;
         |found| == |images| && forall i :: 0 <= i < |images| ==> found[i] == Seen(images[i])
  {
    forall i | 0 <= i < |images|
      ensures ReadEntry(File(images), i) == Some(Seen(images[i]))
    {
      EntryReadsBack(images, i);
    }
    EntriesOneByOne(File(images), images, |images|);
  }

  lemma HeaderReadsBack(images: seq<Image>)
    requires Packs(images)
    ensures var f := File(images);
         |f| >= 6 && Get16(f, 0) == 0 && Get16(f, 2) == 1 && Get16(f, 4) == |images|
  {
    var f, h := File(images), Header(|images|);
    assert f[..6] == h;
    assert f[0..2] == h[0..2] == Le16(0) && f[2..4] == h[2..4] == Le16(1) && f[4..6] == h[4..6] == Le16(|images|);
    Le16Get(0, f, 0);
    Le16Get(1, f, 2);
    Le16Get(|images|, f, 4);
  }

  /**
   Reading a packed file gives every image back, with size 0 read as 256; so it gives the
   images themselves exactly when none has size 0.
   */
  lemma ReadPacked(images: seq<Image>)
    requires Packs(images)
    ensures ReadIco(File(images)).Some? && |ReadIco(File(images)).value| == |images|
    ensures forall i :: 0 <= i < |images| ==> ReadIco(File(images)).value[i] == Seen(images[i])
    ensures ReadIco(File(images)) == Some(images) <==> forall i :: 0 <= i < |images| ==> images[i].0 != 0
  {
    HeaderReadsBack(images);
    EntriesReadBack(images);
    var found := ReadIco(File(images)).value;
    if forall i :: 0 <= i < |images| ==> images[i].0 != 0 {
      assert found == images;
    }
  }
}
