/** The snapshot file of the state: a header of fixed-size length, the header, and the bytes
    of every tree one after the other. */
module Snapshot {
  import opened Common
  import opened LittleEndian

  const VERSION := 1
  const LENGTH_SIZE := 32

  datatype Error = EOF | BadHeader | BadVersion

  datatype TreeHeader = TreeHeader(name: string, size: uint32, parent: string, root: Bytes)

  datatype Header = Header(version: int, root: Bytes, chainId: string, height: uint32, trees: seq<TreeHeader>)

  /** The encoding of headers. */
  datatype Codec = Codec(encode: Header -> Bytes, decode: Bytes -> Option<Header>)

  ghost predicate Inverse(codec: Codec) {
    forall h :: codec.decode(codec.encode(h)) == Some(h)
  }

  // ------------------------------------------------ what a file means

  function Concat(parts: seq<Bytes>): Bytes {
    if parts == [] then [] else Concat(parts[..|parts| - 1]) + parts[|parts| - 1]
  }

  function Image(codec: Codec, h: Header, body: Bytes): Bytes {
    var header := codec.encode(h);
    Encode(LENGTH_SIZE, |header| % TWO32) + header + body
  }

  function Sizes(trees: seq<TreeHeader>, k: nat): nat
    requires k <= |trees|
  {
    if k == 0 then 0 else Sizes(trees, k - 1) + trees[k - 1].size
  }

  /** The part of a file from a position on, of at most some length. */
  function Part(file: Bytes, pos: nat, length: nat): (b: Bytes)
    ensures |b| <= length
  {
    if pos >= |file| then [] else if pos + length <= |file| then file[pos..pos + length] else file[pos..]
  }

  function TreeBytes(file: Bytes, headerSize: nat, trees: seq<TreeHeader>, k: nat): Bytes
    requires k < |trees|
  {
    Part(file, LENGTH_SIZE + headerSize + Sizes(trees, k), trees[k].size)
  }

  /** A header that lists the sizes of some trees as the writer counts them. */
  predicate Lists(trees: seq<TreeHeader>, contents: seq<Bytes>) {
    |trees| == |contents| && forall i :: 0 <= i < |trees| ==> trees[i].size == |contents[i]| % TWO32
  }

  predicate Small(contents: seq<Bytes>, k: nat)
    requires k <= |contents|
  {
    forall i :: 0 <= i < k ==> |contents[i]| < TWO32
  }

  lemma {:induction false} ConcatTake(contents: seq<Bytes>, k: nat)
    requires k < |contents|
    ensures |Concat(contents[..k])| + |contents[k]| <= |Concat(contents)|
    ensures Concat(contents)[|Concat(contents[..k])|..][..|contents[k]|] == contents[k]
    decreases |contents|
  {
    var n := |contents| - 1;
    if k < n {
      ConcatTake(contents[..n], k);
      assert contents[..n][..k] == contents[..k];
      var before := Concat(contents[..n]);
      var at := |Concat(contents[..k])|;
      assert Concat(contents) == before + contents[n];
      assert Concat(contents)[at..][..|contents[k]|] == before[at..][..|contents[k]|];
    }
  }

  lemma {:induction false} SizesAre(trees: seq<TreeHeader>, contents: seq<Bytes>, k: nat)
    requires Lists(trees, contents) && k <= |contents| && Small(contents, k)
    ensures Sizes(trees, k) == |Concat(contents[..k])|
  {
    if k > 0 {
      SizesAre(trees, contents, k - 1);
      assert contents[..k][..k - 1] == contents[..k - 1];
    }
  }

  lemma PartAfter(a: Bytes, b: Bytes, at: nat, length: nat)
    ensures Part(a + b, |a| + at, length) == Part(b, at, length)
  {
  }

  lemma PartOfConcat(contents: seq<Bytes>, k: nat)
    requires k < |contents|
    ensures Part(Concat(contents), |Concat(contents[..k])|, |contents[k]|) == contents[k]
  {
    hide Concat;
    ConcatTake(contents, k);
    var all, at, n := Concat(contents), |Concat(contents[..k])|, |contents[k]|;
    assert all[at..][..n] == all[at..at + n];
  }

  /** Whatever the trees are, a file gives them all back exactly if each is below 2^32 bytes. */
  lemma ImageReadsBackIffSmall(codec: Codec, h: Header, contents: seq<Bytes>)
    requires Lists(h.trees, contents) && |codec.encode(h)| < TWO32
    ensures Small(contents, |contents|) <==>
            forall k :: 0 <= k < |contents| ==> TreeBytes(Image(codec, h, Concat(contents)), |codec.encode(h)|, h.trees, k) == contents[k]
  {
    hide Encode, Concat, Image, Part;
    var file, size := Image(codec, h, Concat(contents)), |codec.encode(h)|;
    if Small(contents, |contents|) {
      forall k | 0 <= k < |contents| ensures TreeBytes(file, size, h.trees, k) == contents[k] {
        ImageReadsBack(codec, h, contents, k);
      }
    } else {
      var k :| 0 <= k < |contents| && |contents[k]| >= TWO32;
      assert |TreeBytes(file, size, h.trees, k)| <= h.trees[k].size < TWO32;
    }
  }

  lemma ImageReadsBack(codec: Codec, h: Header, contents: seq<Bytes>, k: nat)
    requires Lists(h.trees, contents) && |codec.encode(h)| < TWO32 && k < |contents| && Small(contents, |contents|)
    ensures TreeBytes(Image(codec, h, Concat(contents)), |codec.encode(h)|, h.trees, k) == contents[k]
  {
    hide Encode, Concat, Part, Sizes;
    SizesAre(h.trees, contents, k);
    PartOfConcat(contents, k);
    assert h.trees[k].size == |contents[k]|;
    var head := Encode(LENGTH_SIZE, |codec.encode(h)|) + codec.encode(h);
    PartAfter(head, Concat(contents), Sizes(h.trees, k), h.trees[k].size);
  }

  lemma {:induction false} EncodePrefix(length: nat, more: nat, n: nat)
    requires length <= more
    ensures Encode(more, n)[..length] == Encode(length, n)
    decreases length
  {
    if length > 0 {
      EncodePrefix(length - 1, more - 1, n / 256);
      assert Encode(more, n)[..length] == [(n % 256) as byte] + Encode(more - 1, n / 256)[..length - 1];
    }
  }

  /** The first four bytes of the length are the length. */
  lemma LengthReadsBack(n: uint32)
    ensures Decode(Encode(LENGTH_SIZE, n)[..4]) == n
  {
    hide Encode, Decode, Pow256;
    EncodePrefix(4, LENGTH_SIZE, n);
    DecodeEncode(4, n);
    Pow256Of4();
  }

  lemma Pow256Of4()
    ensures Pow256(4) == TWO32
  {
    assert Pow256(2) == 256 * 256;
  }

  // ------------------------------------------------ writing

  class Writer {
    const codec: Codec
    var header: Header
    var currentTree: nat
    var file: Bytes
    var locked: bool
    /** The bytes written to each tree. */
    ghost var contents: seq<Bytes>

    constructor (codec: Codec, root: Bytes, chainId: string, height: uint32)
      ensures Valid() && this.codec == codec && !locked && contents == []
      ensures header == Header(VERSION, root, chainId, height, [])
    {
      this.codec := codec;
      header := Header(VERSION, root, chainId, height, []);
      currentTree, file, locked, contents := 0, [], false, [];
    }

    ghost predicate Valid()
      reads this
    {
      && file == Concat(contents) && Lists(header.trees, contents) && header.version == VERSION
      && |contents| == if locked then currentTree + 1 else currentTree
    }

    /** Starts a tree; no other can start until it ends. */
    method AddTree(name: string, parent: string, root: Bytes)
      requires Valid() && !locked
      modifies this
      ensures Valid() && locked && contents == old(contents) + [[]]
      ensures header == old(header).(trees := old(header).trees + [TreeHeader(name, 0, parent, root)])
    {
      locked := true;
      header := header.(trees := header.trees + [TreeHeader(name, 0, parent, root)]);
      contents := contents + [[]];
      assert contents[..|contents| - 1] == old(contents);
    }

    /** Writes a chunk of the current tree. */
    method Write(b: Bytes)
      requires Valid() && locked
      modifies this`header, this`file, this`contents
      ensures Valid() && locked
      ensures contents == old(contents)[currentTree := old(contents)[currentTree] + b]
      ensures header == old(header).(trees := header.trees) && |header.trees| == |old(header).trees|
      ensures forall i :: 0 <= i < |header.trees| ==> header.trees[i] == old(header).trees[i].(size := header.trees[i].size)
    {
      hide Concat;
      ghost var last := contents[currentTree];
      WriteAtEnd(contents, b);
      file := file + b;
      var tree := header.trees[currentTree];
      header := header.(trees := header.trees[currentTree := tree.(size := Add32(tree.size, |b| % TWO32))]);
      contents := contents[currentTree := last + b];
      assert Add32(|last| % TWO32, |b| % TWO32) == |last + b| % TWO32;
    }

    method EndTree()
      requires Valid() && locked
      modifies this`currentTree, this`locked
      ensures Valid() && !locked
    {
      currentTree := currentTree + 1;
      locked := false;
    }

    /** The final file: the length of the header, the header and what was written. */
    method Save() returns (image: Bytes)
      requires Valid() && !locked
      ensures image == Image(codec, header, Concat(contents)) && Lists(header.trees, contents)
    {
      var buf := codec.encode(header);
      image := Encode(LENGTH_SIZE, |buf| % TWO32);
      image := image + buf;
      image := image + file;
    }
  }

  lemma WriteAtEnd(contents: seq<Bytes>, b: Bytes)
    requires contents != []
    ensures var n := |contents| - 1;
            Concat(contents[n := contents[n] + b]) == Concat(contents) + b
  {
    var n := |contents| - 1;
    assert contents[n := contents[n] + b][..n] == contents[..n];
  }

  // ------------------------------------------------ reading

  class Reader {
    const codec: Codec
    const file: Bytes
    var header: Header
    var headerSize: uint32
    var currentTree: int
    /** The position in the file, and what may still be read of the current tree. */
    var pos: nat
    var remaining: nat

    constructor (codec: Codec, file: Bytes)
      ensures this.codec == codec && this.file == file && currentTree == 0
    {
      this.codec, this.file := codec, file;
      header := Header(0, [], "", 0, []);
      headerSize, currentTree, pos, remaining := 0, 0, 0, 0;
    }

    /** The current tree is the k-th one and none of it was read yet. */
    predicate At(k: nat)
      reads this
    {
      k < |header.trees| && currentTree == k &&
      pos == LENGTH_SIZE + headerSize + Sizes(header.trees, k) && remaining == header.trees[k].size
    }

    /** Reads the header and goes to the first tree; a file without trees ends here. */
    method Open() returns (err: Option<Error>)
      requires currentTree == 0
      modifies this
      ensures |file| < LENGTH_SIZE ==> err == Some(EOF)
      ensures |file| >= LENGTH_SIZE ==>
                && headerSize == Decode(file[..4])
                && match codec.decode(Part(file, LENGTH_SIZE, headerSize))
                   case None => err == Some(BadHeader)
                   case Some(h) =>
                     && header == h
                     && if h.version != VERSION then err == Some(BadVersion)
                        else if h.trees == [] then err == Some(EOF) else err.None? && At(0)
    {
      if |file| < LENGTH_SIZE {
        return Some(EOF);
      }
      DecodeBound(file[..4]);
      Pow256Of4();
      headerSize := Decode(file[..4]);
      var h := codec.decode(Part(file, LENGTH_SIZE, headerSize));
      if h.None? {
        return Some(BadHeader);
      }
      header := h.value;
      if header.version != VERSION {
        return Some(BadVersion);
      }
      currentTree := currentTree - 1;
      err := FetchNextTree();
    }

    /** Goes to the start of the next tree, found by adding up the sizes before it. */
    method FetchNextTree() returns (err: Option<Error>)
      requires currentTree >= -1
      modifies this`currentTree, this`pos, this`remaining
      ensures old(currentTree) >= |header.trees| - 1 ==>
                err == Some(EOF) && currentTree == old(currentTree) && pos == old(pos) && remaining == old(remaining)
      ensures old(currentTree) < |header.trees| - 1 ==> err.None? && At(old(currentTree) + 1)
    {
      if currentTree >= |header.trees| - 1 {
        return Some(EOF);
      }
      currentTree := currentTree + 1;
      var seek := LENGTH_SIZE + headerSize;
      for i := 0 to currentTree
        invariant seek == LENGTH_SIZE + headerSize + Sizes(header.trees, i)
      {
        seek := seek + header.trees[i].size;
      }
      pos, remaining := seek, header.trees[currentTree].size;
      return None;
    }

    /** Reads what is left of the current tree; nothing left is the end. */
    method ReadAll() returns (r: Result<Bytes, Error>)
      modifies this`pos, this`remaining
      ensures var b := Part(file, old(pos), old(remaining));
              && pos == old(pos) + |b| && remaining == old(remaining) - |b|
              && r == if b == [] then Err(EOF) else Ok(b)
    {
      var b := Part(file, pos, remaining);
      pos, remaining := pos + |b|, remaining - |b|;
      if b == [] {
        return Err(EOF);
      }
      return Ok(b);
    }
  }

  function NonEmpty(parts: seq<Bytes>): seq<Bytes> {
    if parts == [] then []
    else
      var n := |parts| - 1;
      NonEmpty(parts[..n]) + if parts[n] == [] then [] else [parts[n]]
  }

  /** Round trip: reading a saved file gives the header and, in order, the bytes of every
      tree that is not empty, however they were written. */
  method ReadSaved(codec: Codec, image: Bytes, ghost h: Header, ghost contents: seq<Bytes>) returns (header: Header, trees: seq<Bytes>)
    requires Inverse(codec) && h.version == VERSION && Lists(h.trees, contents) && Small(contents, |contents|)
    requires |codec.encode(h)| < TWO32 && image == Image(codec, h, Concat(contents))
    ensures header == h && trees == NonEmpty(contents)
  {
    hide Encode, Concat, Decode, NonEmpty, Part, Image;
    var reader := new Reader(codec, image);
    OpensWith(codec, h, Concat(contents));
    NoParts();
    var err := reader.Open();
    header, trees := reader.header, [];
    ghost var k := 0;
    while err.None?
      invariant reader.header == h && reader.headerSize == |codec.encode(h)|
      invariant 0 <= k <= |contents| && trees == NonEmpty(contents[..k])
      invariant if err.None? then reader.At(k) else k == |contents|
      decreases |contents| - k
    {
      ImageReadsBack(codec, h, contents, k);
      NonEmptyMore(contents, k);
      var r := reader.ReadAll();
      if r.Ok? {
        trees := trees + [r.value];
      }
      err := reader.FetchNextTree();
      k := k + 1;
    }
    assert contents[..k] == contents;
  }

  lemma NoParts()
    ensures NonEmpty([]) == []
  {
  }

  lemma NonEmptyMore(contents: seq<Bytes>, k: nat)
    requires k < |contents|
    ensures NonEmpty(contents[..k + 1]) == NonEmpty(contents[..k]) + if contents[k] == [] then [] else [contents[k]]
  {
    assert contents[..k + 1][..k] == contents[..k];
  }

  /** The header of an image reads back. */
  lemma OpensWith(codec: Codec, h: Header, body: Bytes)
    requires Inverse(codec) && |codec.encode(h)| < TWO32
    ensures var image := Image(codec, h, body);
            && |image| >= LENGTH_SIZE && Decode(image[..4]) == |codec.encode(h)|
            && codec.decode(Part(image, LENGTH_SIZE, |codec.encode(h)|)) == Some(h)
  {
    hide Encode, Decode;
    var header := codec.encode(h);
    var length := Encode(LENGTH_SIZE, |header|);
    LengthReadsBack(|header|);
    assert Image(codec, h, body)[..4] == length[..4];
    assert Image(codec, h, body) == length + (header + body);
    PartAfter(length, header + body, 0, |header|);
    assert Part(header + body, 0, |header|) == header;
  }
}
