/**
 * The ICO container writer of the icon script (scripts/gen_icon.py,
 * `build_ico`): a 6-byte ICONDIR header, one 16-byte ICONDIRENTRY per
 * image, then the PNG images back to back, every field little-endian. The
 * drawing of the icons and the file output are not part of this model.
 *
 * The byte encoders are total: a field keeps the low bytes of its value,
 * which is what `struct.pack` writes whenever it does not raise. When it
 * would raise (a value out of its field's range) is the `Packable`
 * precondition of `BuildIco`.
 */
module GenIcon {
  import opened Json

  newtype byte = x: int | 0 <= x < 256

  /** One `(size, png_bytes)` pair. */
  datatype Image = Image(size: int, png: seq<byte>)

  function Pow256(width: nat): (p: nat)
    ensures p >= 1
  {
    if width == 0 then 1 else 256 * Pow256(width - 1)
  }

  /** An unsigned field of `width` bytes, least significant first, as
      `struct.pack` writes `B`, `H` and `I` under `<`. */
  function LittleEndian(x: nat, width: nat): (bs: seq<byte>)
    ensures |bs| == width
  {
    if width == 0 then [] else [(x % 256) as byte] + LittleEndian(x / 256, width - 1)
  }

  /** The value of little-endian bytes, as a reader of the file takes it. */
  function FromLittleEndian(bs: seq<byte>): nat
  {
    if bs == [] then 0 else bs[0] as nat + 256 * FromLittleEndian(bs[1..])
  }

  /** A value that fits its field reads back as itself. */
  lemma {:induction false} LittleEndianRoundTrip(x: nat, width: nat)
    requires x < Pow256(width)
    ensures FromLittleEndian(LittleEndian(x, width)) == x
  {
    if width > 0 {
      assert x / 256 < Pow256(width - 1);
      var bs := LittleEndian(x, width);
      assert bs[1..] == LittleEndian(x / 256, width - 1);
      LittleEndianRoundTrip(x / 256, width - 1);
    }
  }

  const U16Limit := 0x1_0000
  const U32Limit := 0x1_0000_0000

  /** The width and height byte: 0 stands for 256 and above. */
  function Dimension(size: int): (b: byte)
    ensures size >= 256 ==> b == 0
    ensures 0 <= size < 256 ==> b as int == size
  {
    var w := if size >= 256 then 0 else size;
    (w % 256) as byte
  }

  /** Total PNG length of the images. */
  function TotalLength(images: seq<Image>): nat
  {
    if images == [] then 0
    else TotalLength(images[..|images| - 1]) + |images[|images| - 1].png|
  }

  /** Where the image data starts: after the header and the directory. */
  function DataStart(count: nat): nat
  {
    6 + 16 * count
  }

  /** The offset written into entry `i`: the data start plus the lengths of
      the images before it. */
  function Offset(images: seq<Image>, i: nat): nat
    requires i <= |images|
  {
    DataStart(|images|) + TotalLength(images[..i])
  }

  /** Every field fits its `struct` code: fewer than 65536 images, and for
      every image a size that is not negative and a length and an offset
      below 2^32. Otherwise `struct.pack` raises. */
  predicate Packable(images: seq<Image>)
  {
    |images| < U16Limit && EntriesFit(images, DataStart(|images|))
  }

  /** The entry fields of `images` fit when their data starts at `start`. */
  predicate EntriesFit(images: seq<Image>, start: nat)
  {
    images == [] ||
    var n := |images| - 1;
    && EntriesFit(images[..n], start)
    && images[n].size >= 0
    && |images[n].png| < U32Limit
    && start + TotalLength(images[..n]) < U32Limit
  }

  lemma {:induction false} EntriesFitPrefix(images: seq<Image>, start: nat, k: nat)
    requires EntriesFit(images, start) && k <= |images|
    ensures EntriesFit(images[..k], start)
    decreases |images|
  {
    if k < |images| {
      var n := |images| - 1;
      assert images[..n][..k] == images[..k];
      EntriesFitPrefix(images[..n], start, k);
    } else {
      assert images[..k] == images;
    }
  }

  /** The recursive fit condition says what its name promises about every
      image: a size that is not negative, and a length and an offset below
      2^32. */
  lemma {:induction false} EntriesFitMeans(images: seq<Image>, start: nat, i: nat)
    requires EntriesFit(images, start) && i < |images|
    ensures images[i].size >= 0 && |images[i].png| < U32Limit
    ensures start + TotalLength(images[..i]) < U32Limit
    decreases |images|
  {
    var n := |images| - 1;
    if i < n {
      assert images[..n][..i] == images[..i];
      EntriesFitMeans(images[..n], start, i);
    }
  }

  /** `struct.pack("<HHH", 0, 1, count)`. */
  function Header(count: nat): (bs: seq<byte>)
    ensures |bs| == 6
  {
    LittleEndian(0, 2) + LittleEndian(1, 2) + LittleEndian(count, 2)
  }

  /** `struct.pack("<BBBBHHII", w, h, 0, 0, 1, 32, len(png), offset)`: the
      planes and bit-count fields are written out as their two
      little-endian bytes. */
  function Entry(image: Image, offset: nat): (bs: seq<byte>)
    ensures |bs| == 16
  {
    [Dimension(image.size), Dimension(image.size), 0, 0, 1, 0, 32, 0]
    + LittleEndian(|image.png|, 4) + LittleEndian(offset, 4)
  }

  /** The directory entries of `images`, whose data starts at `start`. */
  function Entries(images: seq<Image>, start: nat): (bs: seq<byte>)
    ensures |bs| == 16 * |images|
  {
    if images == [] then []
    else
      var n := |images| - 1;
      Entries(images[..n], start) + Entry(images[n], start + TotalLength(images[..n]))
  }

  /** The PNG images back to back. */
  function ImageData(images: seq<Image>): (bs: seq<byte>)
    ensures |bs| == TotalLength(images)
  {
    if images == [] then []
    else ImageData(images[..|images| - 1]) + images[|images| - 1].png
  }

  /** The whole file `build_ico` returns. */
  function IcoBytes(images: seq<Image>): (bs: seq<byte>)
  {
    Header(|images|) + Entries(images, DataStart(|images|)) + ImageData(images)
  }

  /** `build_ico`: the header, then the loop that writes one entry per image
      and moves the running offset past that image. */
  method BuildIco(images: seq<Image>) returns (ico: seq<byte>)
    requires Packable(images)
    ensures ico == IcoBytes(images)
    ensures |ico| == 6 + 16 * |images| + TotalLength(images)
  {
    var count := |images|;
    var header := LittleEndian(0, 2) + LittleEndian(1, 2) + LittleEndian(count, 2);
    var entriesSize := 16 * count;
    var offset: nat := 6 + entriesSize;
    var entries: seq<byte> := [];
    var imageData: seq<byte> := [];
    var i := 0;
    while i < count
      invariant i <= count && Built(images, i, offset, entries, imageData)
    {
      var image := images[i];
      var entry := Entry(image, offset);
      BuildStep(images, i, offset, entries, imageData);
      entries := entries + entry;
      imageData := imageData + image.png;
      offset := offset + |image.png|;
      i := i + 1;
    }
    assert images[..i] == images;
    ico := header + entries + imageData;
  }

  /** What the loop of `build_ico` has written after `i` images. */
  predicate Built(images: seq<Image>, i: nat, offset: nat, entries: seq<byte>, imageData: seq<byte>)
  {
    && i <= |images|
    && offset == Offset(images, i)
    && entries == Entries(images[..i], DataStart(|images|))
    && imageData == ImageData(images[..i])
  }

  /** One turn of the loop: the prefix grows by image `i`. */
  lemma BuildStep(images: seq<Image>, i: nat, offset: nat, entries: seq<byte>, imageData: seq<byte>)
    requires i < |images| && Built(images, i, offset, entries, imageData)
    ensures Built(images, i + 1, offset + |images[i].png|, entries + Entry(images[i], offset), imageData + images[i].png)
  {
    assert images[..i + 1][..i] == images[..i];
  }

  lemma {:induction false} TotalLengthPrefix(images: seq<Image>, i: nat)
    requires i <= |images|
    ensures TotalLength(images[..i]) <= TotalLength(images)
    decreases |images|
  {
    if i < |images| {
      var n := |images| - 1;
      assert images[..n][..i] == images[..i];
      TotalLengthPrefix(images[..n], i);
    } else {
      assert images[..i] == images;
    }
  }

  /** The header is 00 00 01 00 and the image count as a 16-bit number. */
  lemma IcoHeader(images: seq<Image>)
    requires Packable(images)
    ensures IcoBytes(images)[..6] == [0, 0, 1, 0, (|images| % 256) as byte, (|images| / 256) as byte]
  {
    var n := |images|;
    assert n / 256 < 256;
    assert LittleEndian(n, 2) == [(n % 256) as byte] + LittleEndian(n / 256, 1);
    assert IcoBytes(images)[..6] == Header(n);
  }

  /** The entries of `prefix` followed by one more image: one more entry,
      whose offset is past the images of `prefix`. */
  lemma EntriesSnoc(prefix: seq<Image>, image: Image, start: nat)
    ensures Entries(prefix + [image], start) == Entries(prefix, start) + Entry(image, start + TotalLength(prefix))
  {
    var s := prefix + [image];
    assert s[..|s| - 1] == prefix;
  }

  /** The entries of a prefix of the images are a prefix of the entries. */
  lemma {:induction false} EntriesPrefix(images: seq<Image>, start: nat, k: nat)
    requires k <= |images|
    ensures Entries(images[..k], start) == Entries(images, start)[..16 * k]
    decreases |images|
  {
    if k < |images| {
      var n := |images| - 1;
      assert images == images[..n] + [images[n]];
      EntriesSnoc(images[..n], images[n], start);
      assert images[..n][..k] == images[..k];
      EntriesPrefix(images[..n], start, k);
      TakeOfAppend(Entries(images[..n], start), Entry(images[n], start + TotalLength(images[..n])), 16 * k);
    } else {
      assert images[..k] == images;
    }
  }

  /** Entry `i` of the directory block sits 16 * i bytes into it. */
  lemma EntriesAt(images: seq<Image>, start: nat, i: nat)
    requires i < |images|
    ensures Entries(images, start)[16 * i .. 16 * i + 16] == Entry(images[i], start + TotalLength(images[..i]))
  {
    EntriesPrefix(images, start, i + 1);
    EntriesLast(images, start, i);
    var whole, before := Entries(images, start), Entries(images[..i], start);
    assert |whole| == 16 * |images| && |before| == 16 * i;
    ChunkAfterPrefix(Entries(images, start), Entries(images[..i], start),
      Entry(images[i], start + TotalLength(images[..i])), 16 * (i + 1));
  }

  /** The entries of the first `i + 1` images end with the entry of image `i`. */
  lemma EntriesLast(images: seq<Image>, start: nat, i: nat)
    requires i < |images|
    ensures Entries(images[..i + 1], start)
            == Entries(images[..i], start) + Entry(images[i], start + TotalLength(images[..i]))
  {
    assert images[..i + 1] == images[..i] + [images[i]];
    EntriesSnoc(images[..i], images[i], start);
  }

  lemma ChunkAfterPrefix<T>(whole: seq<T>, before: seq<T>, e: seq<T>, hi: nat)
    requires |before| + |e| == hi <= |whole| && whole[..hi] == before + e
    ensures whole[|before| .. hi] == e
  {
    TakeThenSlice(whole, |before|, hi);
    AppendTail(before, e);
  }

  /** Image `i` sits in the data block after the images before it. */
  lemma {:induction false} ImageDataAt(images: seq<Image>, i: nat)
    requires i < |images|
    ensures TotalLength(images[..i]) + |images[i].png| <= TotalLength(images)
    ensures ImageData(images)[TotalLength(images[..i]) .. TotalLength(images[..i]) + |images[i].png|] == images[i].png
    decreases |images|
  {
    var n := |images| - 1;
    var last := images[n].png;
    var rest := ImageData(images[..n]);
    assert ImageData(images) == rest + last;
    if i < n {
      assert images[..n][..i] == images[..i];
      ImageDataAt(images[..n], i);
      var lo := TotalLength(images[..i]);
      SliceBefore(rest, last, lo, lo + |images[i].png|);
    } else {
      assert images[..i] == images[..n];
      AppendTail(rest, last);
    }
  }

  /** Entry `i` of the file holds image `i`'s dimension bytes, the fixed
      palette/reserved/planes/bpp fields, its length and its offset. */
  lemma IcoEntry(images: seq<Image>, i: nat)
    requires i < |images|
    ensures var ico := IcoBytes(images);
            && 6 + 16 * i + 16 <= |ico|
            && ico[6 + 16 * i .. 6 + 16 * i + 16] == Entry(images[i], Offset(images, i))
  {
    var start := DataStart(|images|);
    var offset := Offset(images, i);
    assert offset == start + TotalLength(images[..i]);
    EntriesAt(images, start, i);
    var entries := Entries(images, start);
    assert |entries| == 16 * |images|;
    assert entries[16 * i .. 16 * i + 16] == Entry(images[i], offset);
    ChunkInFile(Header(|images|), Entries(images, start), ImageData(images), i, Entry(images[i], offset));
  }

  /** Chunk `i` of the directory block is the 16 bytes at 6 + 16 * i of the file. */
  lemma ChunkInFile(header: seq<byte>, entries: seq<byte>, data: seq<byte>, i: nat, e: seq<byte>)
    requires |header| == 6 && 16 * i + 16 <= |entries| && entries[16 * i .. 16 * i + 16] == e
    ensures 6 + 16 * i + 16 <= |header + entries + data|
    ensures (header + entries + data)[6 + 16 * i .. 6 + 16 * i + 16] == e
  {
    var at := 6 + 16 * i;
    SliceBefore(header + entries, data, at, at + 16);
    SliceAfter(header, entries, at, at + 16);
  }

  /** Image `i`'s bytes sit at the offset its entry records. */
  lemma IcoImage(images: seq<Image>, i: nat)
    requires i < |images|
    ensures var ico := IcoBytes(images);
            && Offset(images, i) + |images[i].png| <= |ico|
            && ico[Offset(images, i) .. Offset(images, i) + |images[i].png|] == images[i].png
  {
    var before := TotalLength(images[..i]);
    ImageDataAt(images, i);
    var head, data := Header(|images|) + Entries(images, DataStart(|images|)), ImageData(images);
    assert IcoBytes(images) == head + data;
    assert Offset(images, i) == |head| + before;
    SliceInTail(head, data, before, images[i].png);
  }

  /** Bytes found at `lo` in `b` are found at `|a| + lo` in `a + b`. */
  lemma SliceInTail(a: seq<byte>, b: seq<byte>, lo: nat, x: seq<byte>)
    requires lo + |x| <= |b| && b[lo .. lo + |x|] == x
    ensures (a + b)[|a| + lo .. |a| + lo + |x|] == x
  {
    SliceAfter(a, b, |a| + lo, |a| + lo + |x|);
  }

  lemma SliceBefore<T>(a: seq<T>, b: seq<T>, lo: nat, hi: nat)
    requires lo <= hi <= |a|
    ensures (a + b)[lo..hi] == a[lo..hi]
  {
  }

  lemma SliceAfter<T>(a: seq<T>, b: seq<T>, lo: nat, hi: nat)
    requires |a| <= lo <= hi <= |a| + |b|
    ensures (a + b)[lo..hi] == b[lo - |a| .. hi - |a|]
  {
  }

  lemma TakeOfAppend<T>(a: seq<T>, b: seq<T>, m: nat)
    requires m <= |a|
    ensures (a + b)[..m] == a[..m]
  {
  }

  lemma TakeThenSlice<T>(s: seq<T>, lo: nat, hi: nat)
    requires lo <= hi <= |s|
    ensures s[..hi][lo..hi] == s[lo..hi]
  {
  }

  lemma AppendTail<T>(a: seq<T>, b: seq<T>)
    ensures (a + b)[|a| .. |a| + |b|] == b
  {
  }

  lemma SliceOfSlice<T>(s: seq<T>, lo: nat, hi: nat, a: nat, b: nat)
    requires lo <= hi <= |s| && a <= b <= hi - lo
    ensures s[lo..hi][a..b] == s[lo + a .. lo + b]
  {
    var x, y := s[lo..hi][a..b], s[lo + a .. lo + b];
    forall k | 0 <= k < |x|
      ensures x[k] == y[k]
    {
      assert x[k] == s[lo..hi][a + k] == s[lo + a + k];
    }
  }

  /** What a reader finds through entry `i`: its recorded length and offset,
      and the bytes they delimit when those lie inside the file. */
  function ReadImage(ico: seq<byte>, i: nat): Option<seq<byte>>
  {
    var at := 6 + 16 * i;
    if at + 16 > |ico| then None
    else
      var length := FromLittleEndian(ico[at + 8 .. at + 12]);
      var offset := FromLittleEndian(ico[at + 12 .. at + 16]);
      if offset + length <= |ico| then Some(ico[offset .. offset + length]) else None
  }

  /** The image count a reader finds in the header. */
  function ReadCount(ico: seq<byte>): Option<nat>
  {
    if |ico| < 6 then None else Some(FromLittleEndian(ico[4..6]))
  }

  /** Reading the written file back through its directory gives every image
      as it was given, and the count of images. */
  lemma DirectoryRoundTrip(images: seq<Image>, i: nat)
    requires Packable(images) && i < |images|
    ensures ReadCount(IcoBytes(images)) == Some(|images|)
    ensures ReadImage(IcoBytes(images), i) == Some(images[i].png)
  {
    ReadCountRoundTrip(images);
    ReadImageRoundTrip(images, i);
  }

  lemma ReadCountRoundTrip(images: seq<Image>)
    requires Packable(images)
    ensures ReadCount(IcoBytes(images)) == Some(|images|)
  {
    var ico := IcoBytes(images);
    assert ico[4..6] == LittleEndian(|images|, 2) by {
      assert ico[..6] == Header(|images|);
      assert ico[4..6] == Header(|images|)[4..6];
    }
    LittleEndianRoundTrip(|images|, 2);
  }

  lemma ReadImageRoundTrip(images: seq<Image>, i: nat)
    requires Packable(images) && i < |images|
    ensures ReadImage(IcoBytes(images), i) == Some(images[i].png)
  {
    var offset := Offset(images, i);
    EntriesFitMeans(images, DataStart(|images|), i);
    IcoEntry(images, i);
    IcoImage(images, i);
    EntryLengthAndOffset(images[i], offset);
    ReadThroughEntry(IcoBytes(images), i, Entry(images[i], offset), images[i].png, offset);
  }

  /** A reader that finds entry bytes `e` at slot `i`, recording the length
      and offset of `png`, which lie at that offset, reads `png` back. */
  lemma ReadThroughEntry(ico: seq<byte>, i: nat, e: seq<byte>, png: seq<byte>, offset: nat)
    requires 6 + 16 * i + 16 <= |ico| && ico[6 + 16 * i .. 6 + 16 * i + 16] == e
    requires FromLittleEndian(e[8..12]) == |png| && FromLittleEndian(e[12..16]) == offset
    requires offset + |png| <= |ico| && ico[offset .. offset + |png|] == png
    ensures ReadImage(ico, i) == Some(png)
  {
    var at := 6 + 16 * i;
    SliceOfSlice(ico, at, at + 16, 8, 12);
    SliceOfSlice(ico, at, at + 16, 12, 16);
  }

  /** The last eight bytes of an entry read back as the length and offset
      when both fit in 32 bits. */
  lemma EntryLengthAndOffset(image: Image, offset: nat)
    requires |image.png| < U32Limit && offset < U32Limit
    ensures FromLittleEndian(Entry(image, offset)[8..12]) == |image.png|
    ensures FromLittleEndian(Entry(image, offset)[12..16]) == offset
  {
    var e := Entry(image, offset);
    assert e[8..12] == LittleEndian(|image.png|, 4);
    assert e[12..16] == LittleEndian(offset, 4);
    LittleEndianRoundTrip(|image.png|, 4);
    LittleEndianRoundTrip(offset, 4);
  }

  /** The fixed fields of every entry, as a reader takes them: the width
      and height byte (0 for 256 pixels and up), palette and reserved 0, one
      colour plane, 32 bits per pixel. */
  lemma EntryFixedFields(image: Image, offset: nat)
    requires image.size >= 0
    ensures var e := Entry(image, offset);
            && e[0] as int == e[1] as int == (if image.size >= 256 then 0 else image.size)
            && e[2] == 0 && e[3] == 0
            && FromLittleEndian(e[4..6]) == 1 && FromLittleEndian(e[6..8]) == 32
  {
    var e := Entry(image, offset);
    assert e[4..6] == LittleEndian(1, 2);
    assert e[6..8] == LittleEndian(32, 2);
    LittleEndianRoundTrip(1, 2);
    LittleEndianRoundTrip(32, 2);
  }
}
