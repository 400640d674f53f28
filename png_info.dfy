/** The `tEXt` chunk reader of `getPngMetadata`: it checks the PNG
    signature, walks the chunk stream (PNG Specification, Second Edition,
    section 5.3: a 4-byte big-endian length, a 4-byte type, the data and a
    4-byte CRC) and collects each `tEXt` chunk's keyword and text (section
    11.3.4.3) into a dictionary.  The reader's two ways of not finishing
    become explicit results. */
module PngInfo {
  import opened Js

  newtype byte = x: int | 0 <= x < 256

  /** The first four bytes of the PNG signature, read as one big-endian word. */
  const Signature: int := 0x89504e47

  /** The chunk type "tEXt". */
  const TextType: seq<byte> := [0x74, 0x45, 0x58, 0x74]

  datatype Metadata =
    | NotPng                              // the signature check failed
    | TextChunks(chunks: map<string, string>)
    | ReadPastEnd(offset: nat)            // `getUint32` at `offset` threw a RangeError
    | UnterminatedKeyword(offset: nat)    // the keyword scan of the chunk at `offset` never stops

  /** `DataView.getUint32(offset)`: four bytes, big-endian. */
  function U32(data: seq<byte>, offset: nat): (r: nat)
    requires offset + 4 <= |data|
    ensures r < 0x1_0000_0000
  {
    ((data[offset] as int * 256 + data[offset + 1] as int) * 256 + data[offset + 2] as int) * 256 + data[offset + 3] as int
  }

  /** `String.fromCharCode(...bytes)`: one character per byte. */
  function Latin1(bytes: seq<byte>): (s: string)
    ensures |s| == |bytes| && forall i :: 0 <= i < |bytes| ==> s[i] as int == bytes[i] as int
  {
    seq(|bytes|, i requires 0 <= i < |bytes| => (bytes[i] as int) as char)
  }

  /** The first zero byte at or after `from`, if the buffer has one. */
  function KeywordEnd(data: seq<byte>, from: nat): (r: Option<nat>)
    ensures r.Some? ==> from <= r.value < |data| && data[r.value] == 0
    ensures forall k :: from <= k < |data| && (r.None? || k < r.value) ==> data[k] != 0
    decreases |data| - from
  {
    if from >= |data| then None
    else if data[from] == 0 then Some(from)
    else KeywordEnd(data, from + 1)
  }

  /** The scan that stops at `e` has found the first zero byte. */
  lemma KeywordEndAt(data: seq<byte>, from: nat, e: nat)
    requires from <= e <= |data|
    requires forall k :: from <= k < e ==> data[k] != 0
    requires e < |data| ==> data[e] == 0
    ensures KeywordEnd(data, from) == if e < |data| then Some(e) else None
  {
  }

  datatype ChunkHeader = ChunkHeader(offset: nat, length: nat, kind: seq<byte>)

  /** The header read at `offset`: the length word and the (clamped) type bytes. */
  function HeaderAt(data: seq<byte>, offset: nat): (c: ChunkHeader)
    requires offset + 4 <= |data|
    ensures c.offset == offset && c.length == U32(data, offset)
    ensures c.kind == TextType ==> offset + 8 <= |data|
  {
    ChunkHeader(offset, U32(data, offset), Slice(data, offset + 4, offset + 8))
  }

  datatype Scan = Scanned(chunks: map<string, string>) | Unterminated(offset: nat)

  /** The effect of one chunk on the dictionary: a `tEXt` chunk stores its
      text under its keyword, where the keyword runs from the data start
      to the first zero byte and the text from that byte + 1 to the end of
      the chunk's data; any other chunk leaves the dictionary alone. */
  function AddChunk(data: seq<byte>, c: ChunkHeader, acc: map<string, string>): (r: Scan)
    ensures r.Scanned? ==> acc.Keys <= r.chunks.Keys
    ensures r.Unterminated? ==> r.offset == c.offset && c.kind == TextType
  {
    if c.kind != TextType then Scanned(acc)
    else match TextEntry(data, c)
      case None => Unterminated(c.offset)
      case Some(entry) => Scanned(SetProperty(acc, entry.keyword, entry.text))
  }

  datatype Entry = Entry(keyword: string, text: string)

  /** The keyword and text of a `tEXt` chunk, if its keyword ends. */
  function TextEntry(data: seq<byte>, c: ChunkHeader): (r: Option<Entry>)
    ensures r.None? <==> forall k :: c.offset + 8 <= k < |data| ==> data[k] != 0
  {
    match KeywordEnd(data, c.offset + 8)
    case None => None
    case Some(e) => Some(Entry(Latin1(Slice(data, c.offset + 8, e)), Latin1(Slice(data, e + 1, c.offset + 8 + c.length))))
  }

  /** The chunk loop from `offset`, one chunk at a time. */
  function Walk(data: seq<byte>, offset: nat, acc: map<string, string>): (r: Metadata)
    ensures r.ReadPastEnd? ==> offset <= r.offset < |data| < r.offset + 4
    ensures r.UnterminatedKeyword? ==> offset <= r.offset && r.offset + 8 <= |data|
    decreases |data| - offset, 1
  {
    if offset >= |data| then TextChunks(acc)
    else if offset + 4 > |data| then ReadPastEnd(offset)
    else Continue(data, offset, AddChunk(data, HeaderAt(data, offset), acc))
  }

  /** After the chunk at `offset` was read into `s`: stop on an unterminated
      keyword, otherwise go on to the next chunk, 12 + length bytes further
      (length word, type and CRC around the data). */
  function Continue(data: seq<byte>, offset: nat, s: Scan): (r: Metadata)
    requires offset + 4 <= |data|
    ensures r.ReadPastEnd? ==> offset < r.offset < |data| < r.offset + 4
    ensures r.UnterminatedKeyword? && s.Scanned? ==> offset < r.offset && r.offset + 8 <= |data|
    ensures r.UnterminatedKeyword? && s.Unterminated? ==> r.offset == s.offset
    decreases |data| - offset, 0
  {
    match s
    case Unterminated(o) => UnterminatedKeyword(o)
    case Scanned(m) => Walk(data, offset + 12 + U32(data, offset), m)
  }

  /** What `getPngMetadata` resolves with for the file's bytes. */
  function PngMetadata(data: seq<byte>): (r: Metadata)
    ensures r.ReadPastEnd? ==> r.offset <= |data| < r.offset + 4
    ensures r.UnterminatedKeyword? ==> 8 <= r.offset && r.offset + 8 <= |data|
  {
    if |data| < 4 then ReadPastEnd(0)
    else if U32(data, 0) != Signature then NotPng
    else Walk(data, 8, map[])
  }

  // ---------------------------------------------------------------------
  // The loop as the source runs it

  /** The keyword scan: steps from `from` until a zero byte.  Where the
      buffer has none, JavaScript reads `undefined`, which is never 0, and
      the scan runs forever; here it stops at the end and says so. */
  method ScanKeyword(data: seq<byte>, from: nat) returns (e: Option<nat>)
    ensures e == KeywordEnd(data, from)
  {
    var k := from;
    while k < |data| && data[k] != 0
      invariant from <= k
      invariant forall j :: from <= j < k && j < |data| ==> data[j] != 0
      decreases |data| - k
    {
      k := k + 1;
    }
    if k < |data| {
      KeywordEndAt(data, from, k);
      return Some(k);
    }
    if from <= |data| {
      KeywordEndAt(data, from, |data|);
    }
    return None;
  }

  /** One pass of the loop body: reads the chunk header at `offset` and, for
      a `tEXt` chunk, stores its keyword and text. */
  method ReadChunk(data: seq<byte>, offset: nat, chunks: map<string, string>) returns (s: Scan)
    requires offset + 4 <= |data|
    ensures s == AddChunk(data, HeaderAt(data, offset), chunks)
  {
    var length := U32(data, offset);
    var kind := Slice(data, offset + 4, offset + 8);
    if kind != TextType {
      return Scanned(chunks);
    }
    var entry := ReadText(data, ChunkHeader(offset, length, kind));
    if entry.None? {
      return Unterminated(offset);
    }
    s := Scanned(SetProperty(chunks, entry.value.keyword, entry.value.text));
  }

  /** The body of a `tEXt` chunk: the keyword up to the first zero byte, the
      text from there to the end of the chunk's data. */
  method ReadText(data: seq<byte>, c: ChunkHeader) returns (entry: Option<Entry>)
    ensures entry == TextEntry(data, c)
  {
    var keywordEnd := ScanKeyword(data, c.offset + 8);
    if keywordEnd.None? {
      return None;
    }
    var keyword := Latin1(Slice(data, c.offset + 8, keywordEnd.value));
    var text := Latin1(Slice(data, keywordEnd.value + 1, c.offset + 8 + c.length));
    return Some(Entry(keyword, text));
  }

  method GetPngMetadata(data: seq<byte>) returns (r: Metadata)
    ensures r == PngMetadata(data)
  {
    if |data| < 4 {
      return ReadPastEnd(0);
    }
    if U32(data, 0) != Signature {
      return NotPng;
    }
    r := ReadChunks(data);
  }

  /** The chunk loop, from offset 8 with an empty dictionary. */
  method ReadChunks(data: seq<byte>) returns (r: Metadata)
    ensures r == Walk(data, 8, map[])
  {
    var offset: nat := 8;
    var chunks: map<string, string> := map[];
    while offset < |data|
      invariant Walk(data, offset, chunks) == Walk(data, 8, map[])
      decreases |data| - offset
    {
      if offset + 4 > |data| {
        return ReadPastEnd(offset);
      }
      var length := U32(data, offset);
      var scan := ReadChunk(data, offset, chunks);
      if scan.Unterminated? {
        return UnterminatedKeyword(scan.offset);
      }
      chunks := scan.chunks;
      offset := offset + 12 + length;
    }
    return TextChunks(chunks);
  }

  // ---------------------------------------------------------------------
  // The signature

  lemma Base256(hi: int, lo: int)
    requires 0 <= lo < 256
    ensures (hi * 256 + lo) / 256 == hi && (hi * 256 + lo) % 256 == lo
  {
  }

  /** The check compares exactly the first four signature bytes. */
  lemma SignatureBytes(data: seq<byte>)
    requires |data| >= 4
    ensures U32(data, 0) == Signature <==> data[..4] == [0x89, 0x50, 0x4E, 0x47]
  {
    var a, b, c, d := data[0] as int, data[1] as int, data[2] as int, data[3] as int;
    var v := ((a * 256 + b) * 256 + c) * 256 + d;
    assert U32(data, 0) == v;
    Base256((a * 256 + b) * 256 + c, d);
    Base256(a * 256 + b, c);
    Base256(a, b);
    if v == Signature {
      assert d == Signature % 256 == 0x47;
      assert c == (Signature / 256) % 256 == 0x4E;
      assert b == (Signature / 65536) % 256 == 0x50;
      assert a == Signature / 16777216 == 0x89;
      assert data[..4] == [data[0], data[1], data[2], data[3]];
    }
  }

  /** No dictionary without the signature: a buffer whose first four bytes
      are not 89 50 4E 47 is rejected or unreadable. */
  lemma NoTextWithoutSignature(data: seq<byte>)
    ensures PngMetadata(data).NotPng? <==> |data| >= 4 && data[..4] != [0x89, 0x50, 0x4E, 0x47]
    ensures (|data| >= 4 && data[..4] != [0x89, 0x50, 0x4E, 0x47]) ==> !PngMetadata(data).TextChunks?
  {
    if |data| >= 4 {
      SignatureBytes(data);
      if U32(data, 0) == Signature {
        WalkNeverNotPng(data, 8, map[]);
      }
    }
  }

  lemma {:induction false} WalkNeverNotPng(data: seq<byte>, offset: nat, acc: map<string, string>)
    ensures !Walk(data, offset, acc).NotPng?
    decreases |data| - offset
  {
    if offset < |data| && offset + 4 <= |data| {
      var c := HeaderAt(data, offset);
      match AddChunk(data, c, acc)
      case Unterminated(o) =>
      case Scanned(m) => WalkNeverNotPng(data, offset + 12 + c.length, m);
    }
  }

  // ---------------------------------------------------------------------
  // The chunk layout, as an independent description of the walk

  /** The headers the walk visits from `offset`, and the offset whose length
      word could not be read, if the walk stops there. */
  datatype Layout = Layout(chunks: seq<ChunkHeader>, truncatedAt: Option<nat>)

  /** Visited offsets start at `offset`, each next one is `12 + length`
      past the previous one, so they strictly increase; every header is
      read inside the buffer. */
  function ChunkLayout(data: seq<byte>, offset: nat): Layout
    decreases |data| - offset
  {
    if offset >= |data| then Layout([], None)
    else if offset + 4 > |data| then Layout([], Some(offset))
    else
      var c := HeaderAt(data, offset);
      var rest := ChunkLayout(data, offset + 12 + c.length);
      Layout([c] + rest.chunks, rest.truncatedAt)
  }

  /** The `i`-th visited header lies at or after `offset` (the first one at
      `offset` itself), is read inside the buffer, and is the header found
      at its own offset. */
  lemma {:induction false} LayoutHeader(data: seq<byte>, offset: nat, i: nat)
    requires i < |ChunkLayout(data, offset).chunks|
    ensures var c := ChunkLayout(data, offset).chunks[i];
      && offset <= c.offset && c.offset + 4 <= |data| && c == HeaderAt(data, c.offset)
      && (i == 0 ==> c.offset == offset)
    decreases i
  {
    var c := HeaderAt(data, offset);
    var next := offset + 12 + c.length;
    var rest := ChunkLayout(data, next).chunks;
    assert ChunkLayout(data, offset).chunks == [c] + rest;
    if i > 0 {
      LayoutHeader(data, next, i - 1);
    }
  }

  /** Each visited header after the first is `12 + length` bytes past the
      previous one. */
  lemma {:induction false} LayoutStep(data: seq<byte>, offset: nat, i: nat)
    requires 0 < i < |ChunkLayout(data, offset).chunks|
    ensures var cs := ChunkLayout(data, offset).chunks;
      cs[i].offset == cs[i - 1].offset + 12 + cs[i - 1].length
    decreases i
  {
    var c := HeaderAt(data, offset);
    var next := offset + 12 + c.length;
    var rest := ChunkLayout(data, next).chunks;
    assert ChunkLayout(data, offset).chunks == [c] + rest;
    if i > 1 {
      LayoutStep(data, next, i - 1);
    } else {
      LayoutHeader(data, next, 0);
    }
  }

  /** The walk stops for want of a length word only at an offset less than
      four bytes before the end. */
  lemma {:induction false} ChunkLayoutTruncation(data: seq<byte>, offset: nat)
    ensures var t := ChunkLayout(data, offset).truncatedAt;
      t.Some? ==> offset <= t.value < |data| < t.value + 4
    decreases |data| - offset
  {
    if offset < |data| && offset + 4 <= |data| {
      ChunkLayoutTruncation(data, offset + 12 + U32(data, offset));
    }
  }

  /** Visited offsets strictly increase. */
  lemma LayoutOffsetsIncrease(data: seq<byte>, offset: nat, i: nat, j: nat)
    requires i < j < |ChunkLayout(data, offset).chunks|
    ensures ChunkLayout(data, offset).chunks[i].offset + 12 <= ChunkLayout(data, offset).chunks[j].offset
    decreases j - i
  {
    LayoutStep(data, offset, j);
    if j > i + 1 {
      LayoutOffsetsIncrease(data, offset, i, j - 1);
    }
  }

  /** Folds the chunks into the dictionary, left to right. */
  function Collect(data: seq<byte>, cs: seq<ChunkHeader>, acc: map<string, string>): (r: Scan)
    ensures r.Scanned? ==> acc.Keys <= r.chunks.Keys
    decreases |cs|
  {
    if |cs| == 0 then Scanned(acc)
    else match AddChunk(data, cs[0], acc)
      case Unterminated(o) => Unterminated(o)
      case Scanned(m) => Collect(data, cs[1..], m)
  }

  /** The walk is the fold of its chunk layout, then the truncation error. */
  function FromLayout(data: seq<byte>, layout: Layout, acc: map<string, string>): Metadata {
    match Collect(data, layout.chunks, acc)
    case Unterminated(o) => UnterminatedKeyword(o)
    case Scanned(m) => if layout.truncatedAt.Some? then ReadPastEnd(layout.truncatedAt.value) else TextChunks(m)
  }

  lemma {:induction false} WalkIsLayoutFold(data: seq<byte>, offset: nat, acc: map<string, string>)
    ensures Walk(data, offset, acc) == FromLayout(data, ChunkLayout(data, offset), acc)
    decreases |data| - offset
  {
    if offset < |data| && offset + 4 <= |data| {
      var c := HeaderAt(data, offset);
      var rest := ChunkLayout(data, offset + 12 + c.length);
      var cs := [c] + rest.chunks;
      assert ChunkLayout(data, offset) == Layout(cs, rest.truncatedAt);
      assert cs[0] == c && cs[1..] == rest.chunks;
      match AddChunk(data, c, acc)
      case Unterminated(o) =>
        assert Collect(data, cs, acc) == Unterminated(o);
      case Scanned(m) =>
        assert Collect(data, cs, acc) == Collect(data, rest.chunks, m);
        WalkIsLayoutFold(data, offset + 12 + c.length, m);
    }
  }

  lemma {:induction false} CollectAppend(data: seq<byte>, a: seq<ChunkHeader>, c: ChunkHeader, acc: map<string, string>)
    ensures Collect(data, a + [c], acc) ==
      match Collect(data, a, acc)
      case Unterminated(o) => Unterminated(o)
      case Scanned(m) => AddChunk(data, c, m)
    decreases |a|
  {
    if |a| == 0 {
      assert a + [c] == [c];
    } else {
      assert (a + [c])[1..] == a[1..] + [c];
      match AddChunk(data, a[0], acc)
      case Unterminated(o) =>
      case Scanned(m) => CollectAppend(data, a[1..], c, m);
    }
  }

  /** Chunks that are not `tEXt` have no effect on the dictionary. */
  lemma {:induction false} OtherChunksIgnored(data: seq<byte>, a: seq<ChunkHeader>, c: ChunkHeader, b: seq<ChunkHeader>, acc: map<string, string>)
    requires c.kind != TextType
    ensures Collect(data, a + [c] + b, acc) == Collect(data, a + b, acc)
    decreases |a|
  {
    if |a| == 0 {
      assert a + [c] + b == [c] + b;
      assert ([c] + b)[1..] == b;
      assert a + b == b;
    } else {
      assert (a + [c] + b)[1..] == a[1..] + [c] + b;
      assert (a + b)[1..] == a[1..] + b;
      match AddChunk(data, a[0], acc)
      case Unterminated(o) =>
      case Scanned(m) => OtherChunksIgnored(data, a[1..], c, b, m);
    }
  }

  /** The last `tEXt` chunk wins: when it is the final chunk folded, its
      text is what the dictionary holds under its keyword. */
  lemma LastTextChunkWins(data: seq<byte>, a: seq<ChunkHeader>, c: ChunkHeader, acc: map<string, string>)
    requires c.kind == TextType
    requires Collect(data, a + [c], acc).Scanned?
    ensures KeywordEnd(data, c.offset + 8).Some?
    ensures var e := KeywordEnd(data, c.offset + 8).value;
      var keyword := Latin1(data[c.offset + 8..e]);
      keyword != ProtoKey ==>
        keyword in Collect(data, a + [c], acc).chunks &&
        Collect(data, a + [c], acc).chunks[keyword] == Latin1(Slice(data, e + 1, c.offset + 8 + c.length))
  {
    CollectAppend(data, a, c, acc);
  }

  /** Every key of the resulting dictionary was there before or is the
      keyword of a `tEXt` chunk. */
  lemma {:induction false} CollectKeys(data: seq<byte>, cs: seq<ChunkHeader>, acc: map<string, string>)
    requires Collect(data, cs, acc).Scanned?
    ensures forall k :: k in Collect(data, cs, acc).chunks ==>
      k in acc || exists i :: 0 <= i < |cs| && IsKeywordOf(data, cs[i], k)
    decreases |cs|
  {
    if |cs| > 0 {
      var m := AddChunk(data, cs[0], acc).chunks;
      CollectKeys(data, cs[1..], m);
      forall k | k in Collect(data, cs, acc).chunks
        ensures k in acc || exists i :: 0 <= i < |cs| && IsKeywordOf(data, cs[i], k)
      {
        if k !in m {
          var i :| 0 <= i < |cs[1..]| && IsKeywordOf(data, cs[1..][i], k);
          assert IsKeywordOf(data, cs[i + 1], k);
        } else if k !in acc {
          assert IsKeywordOf(data, cs[0], k);
        }
      }
    }
  }

  /** `k` is the keyword of the `tEXt` chunk `c`. */
  predicate IsKeywordOf(data: seq<byte>, c: ChunkHeader, k: string) {
    c.kind == TextType && KeywordEnd(data, c.offset + 8).Some?
    && k == Latin1(data[c.offset + 8..KeywordEnd(data, c.offset + 8).value])
  }
}
