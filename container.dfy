/**
 * The INX container: a magic header, a length-prefixed JSON section, and a
 * texture section of length-prefixed, tagged blobs. Every integer field is
 * big-endian.
 */
module Container {
  import opened Results
  import opened Bytes

  /** "TRNSRTS\0" */
  const Magic: seq<byte> := [0x54, 0x52, 0x4E, 0x53, 0x52, 0x54, 0x53, 0x00]
  /** "TEX_SECT" */
  const TexSect: seq<byte> := [0x54, 0x45, 0x58, 0x5F, 0x53, 0x45, 0x43, 0x54]
  /** The format tag of a PNG texture. */
  const PngTextureEncoding: nat := 0

  /** One `write` call: literal bytes, or `value.to_bytes(width, "big")`. */
  datatype Chunk = Raw(bytes: seq<byte>) | Int(value: nat, width: nat)

  /** The bytes on disk after a run of writes, and whether every write happened. */
  datatype Emitted = Emitted(bytes: seq<byte>, complete: bool)

  /**
   * Performs the writes in order; the first integer too wide for its field
   * raises, so nothing from it onwards reaches the file.
   */
  function Emit(chunks: seq<Chunk>): (e: Emitted)
  {
    if chunks == [] then Emitted([], true)
    else
      var rest := Emit(chunks[1..]);
      match chunks[0]
      case Raw(b) => Emitted(b + rest.bytes, rest.complete)
      case Int(v, w) =>
        match IntToBytes(v, w)
        case None => Emitted([], false)
        case Some(b) => Emitted(b + rest.bytes, rest.complete)
  }

  /** Whether a single write succeeds: an integer must fit its field. */
  predicate ChunkFits(c: Chunk) {
    c.Int? ==> c.value < Pow256(c.width)
  }

  /** The bytes a single successful write puts on disk. */
  function ChunkBytes(c: Chunk): seq<byte>
    requires ChunkFits(c)
  {
    match c
    case Raw(b) => b
    case Int(v, w) => ToBytesBE(v, w)
  }

  /** The writes all happen exactly when every integer fits its field. */
  lemma {:induction false} EmitCompleteIff(chunks: seq<Chunk>)
    ensures Emit(chunks).complete <==> forall i :: 0 <= i < |chunks| ==> ChunkFits(chunks[i])
  {
    if chunks != [] {
      EmitCompleteIff(chunks[1..]);
      assert forall i :: 1 <= i < |chunks| ==> chunks[i] == chunks[1..][i - 1];
    }
  }

  lemma {:induction false} EmitCons(c: Chunk, rest: seq<Chunk>)
    ensures Emit([c] + rest) ==
      if ChunkFits(c) then Emitted(ChunkBytes(c) + Emit(rest).bytes, Emit(rest).complete) else Emitted([], false)
  {
    assert ([c] + rest)[0] == c && ([c] + rest)[1..] == rest;
  }

  /** Writes run one after another: a failed first run ends the whole run. */
  lemma {:induction false} EmitAppend(a: seq<Chunk>, b: seq<Chunk>)
    ensures Emit(a + b) ==
      if Emit(a).complete then Emitted(Emit(a).bytes + Emit(b).bytes, Emit(b).complete) else Emit(a)
  {
    if a == [] {
      assert a + b == b;
    } else {
      assert a == [a[0]] + a[1..];
      assert a + b == [a[0]] + (a[1..] + b);
      EmitCons(a[0], a[1..]);
      EmitCons(a[0], a[1..] + b);
      EmitAppend(a[1..], b);
    }
  }

  /**
   * The bytes of a run of writes concatenated in order, the last write last
   * (a write that would raise contributes nothing).
   */
  function AllBytes(cs: seq<Chunk>): seq<byte>
    decreases |cs|
  {
    if cs == [] then []
    else
      var last := cs[|cs| - 1];
      AllBytes(cs[..|cs| - 1]) + (if ChunkFits(last) then ChunkBytes(last) else [])
  }

  lemma {:induction false} AllBytesCons(c: Chunk, cs: seq<Chunk>)
    requires ChunkFits(c)
    ensures AllBytes([c] + cs) == ChunkBytes(c) + AllBytes(cs)
    decreases |cs|
  {
    if cs == [] {
      assert ([c] + cs)[..0] == [];
    } else {
      var s, n := [c] + cs, |cs|;
      var init, last := cs[..n - 1], cs[n - 1];
      assert s[..n] == [c] + init && s[n] == last;
      AllBytesCons(c, init);
    }
  }

  /**
   * The file after a run of writes holds the bytes of its longest prefix of
   * writes that succeed, and the run completes exactly when that prefix is
   * the whole run.
   */
  lemma {:induction false} EmitWritesFittingPrefix(chunks: seq<Chunk>, k: nat)
    requires k <= |chunks|
    requires forall i :: 0 <= i < k ==> ChunkFits(chunks[i])
    requires k < |chunks| ==> !ChunkFits(chunks[k])
    ensures Emit(chunks) == Emitted(AllBytes(chunks[..k]), k == |chunks|)
  {
    assert chunks[..0] == [];
    if chunks != [] {
      var c, rest := chunks[0], chunks[1..];
      assert chunks == [c] + rest;
      EmitCons(c, rest);
      if k > 0 {
        assert forall i :: 0 <= i < k - 1 ==> rest[i] == chunks[i + 1];
        EmitWritesFittingPrefix(rest, k - 1);
        assert chunks[..k] == [c] + rest[..k - 1];
        AllBytesCons(c, rest[..k - 1]);
      }
    }
  }

  /** The header writes: magic, JSON length, JSON, section marker, texture count. */
  function HeaderChunks(json: seq<byte>, count: nat): seq<Chunk> {
    [Raw(Magic), Int(|json|, 4), Raw(json), Raw(TexSect), Int(count, 4)]
  }

  /** The writes for one texture: its length, its format tag, its bytes. */
  function TextureChunks(blob: seq<byte>): seq<Chunk> {
    [Int(|blob|, 4), Int(PngTextureEncoding, 1), Raw(blob)]
  }

  /**
   * Of the header writes only the two length fields can raise, each exactly
   * when its value needs more than four bytes.
   */
  lemma HeaderChunksFit(json: seq<byte>, count: nat)
    ensures var r := HeaderChunks(json, count);
      && ChunkFits(r[0]) && ChunkFits(r[2]) && ChunkFits(r[3])
      && (ChunkFits(r[1]) <==> |json| < Two32)
      && (ChunkFits(r[4]) <==> count < Two32)
  {
    Pow256Four();
  }

  /** Of a texture's writes only the length can raise, exactly when the blob has 2^32 bytes or more. */
  lemma TextureChunksFit(blob: seq<byte>)
    ensures var r := TextureChunks(blob);
      ChunkFits(r[1]) && ChunkFits(r[2]) && (ChunkFits(r[0]) <==> |blob| < Two32)
  {
    Pow256Four();
  }

  function TexturesChunks(blobs: seq<seq<byte>>): (r: seq<Chunk>)
    ensures |r| == 3 * |blobs|
  {
    if blobs == [] then [] else TextureChunks(blobs[0]) + TexturesChunks(blobs[1..])
  }

  /** The texture writes for a run of blobs are those of its two halves. */
  lemma {:induction false} TexturesChunksAppend(a: seq<seq<byte>>, b: seq<seq<byte>>)
    ensures TexturesChunks(a + b) == TexturesChunks(a) + TexturesChunks(b)
  {
    if a == [] {
      assert a + b == b;
    } else {
      assert (a + b)[1..] == a[1..] + b;
      TexturesChunksAppend(a[1..], b);
    }
  }

  /**
   * One more write after a run of successful ones: it either adds its bytes,
   * or raises, and then nothing after it is written either.
   */
  lemma {:induction false} EmitStep(done: seq<Chunk>, c: Chunk, rest: seq<Chunk>)
    requires Emit(done).complete
    ensures ChunkFits(c) ==> Emit(done + [c]) == Emitted(Emit(done).bytes + ChunkBytes(c), true)
    ensures !ChunkFits(c) ==> Emit(done + [c] + rest) == Emitted(Emit(done).bytes, false)
  {
    EmitCons(c, []);
    EmitAppend(done, [c]);
    EmitCons(c, rest);
    assert done + [c] + rest == done + ([c] + rest);
    EmitAppend(done, [c] + rest);
  }

  /**
   * The writes around texture i: those before it, its own three, and those
   * after it.
   */
  lemma {:induction false} TexturesChunksAround(blobs: seq<seq<byte>>, i: int)
    requires 0 <= i < |blobs|
    ensures TexturesChunks(blobs[..i + 1]) == TexturesChunks(blobs[..i]) + TextureChunks(blobs[i])
    ensures TexturesChunks(blobs) == TexturesChunks(blobs[..i + 1]) + TexturesChunks(blobs[i + 1..])
  {
    assert blobs[..i] + [blobs[i]] == blobs[..i + 1];
    assert blobs[..i + 1] + blobs[i + 1..] == blobs;
    TexturesChunksAppend(blobs[..i], [blobs[i]]);
    TexturesChunksAppend(blobs[..i + 1], blobs[i + 1..]);
    TexturesChunksSingle(blobs[i]);
  }

  lemma {:induction false} TexturesChunksSingle(blob: seq<byte>)
    ensures TexturesChunks([blob]) == TextureChunks(blob)
  {
    assert [blob][1..] == [];
    assert TexturesChunks([blob]) == TextureChunks(blob) + TexturesChunks([]);
  }

  /** Every write the exporter makes, in order. */
  function Layout(json: seq<byte>, blobs: seq<seq<byte>>): seq<Chunk> {
    HeaderChunks(json, |blobs|) + TexturesChunks(blobs)
  }

  /** Five header writes, then three per texture. */
  lemma LayoutSize(json: seq<byte>, blobs: seq<seq<byte>>)
    ensures |Layout(json, blobs)| == 5 + 3 * |blobs|
  {
  }

  /**
   * All writes, cut around texture i: those made before its record, the
   * record, and those after it.
   */
  lemma {:induction false} LayoutAround(json: seq<byte>, blobs: seq<seq<byte>>, i: int)
    requires 0 <= i < |blobs|
    ensures var header := HeaderChunks(json, |blobs|);
      && header + TexturesChunks(blobs[..i + 1]) == header + TexturesChunks(blobs[..i]) + TextureChunks(blobs[i])
      && Layout(json, blobs) == header + TexturesChunks(blobs[..i]) + TextureChunks(blobs[i]) + TexturesChunks(blobs[i + 1..])
  {
    TexturesChunksAround(blobs, i);
    var header := HeaderChunks(json, |blobs|);
    var before, record, after := TexturesChunks(blobs[..i]), TextureChunks(blobs[i]), TexturesChunks(blobs[i + 1..]);
    assert header + (before + record) == header + before + record;
    assert header + (before + record + after) == header + before + record + after;
  }

  /** Every length the container stores fits its 4-byte field. */
  predicate Fits(json: seq<byte>, blobs: seq<seq<byte>>) {
    && |json| < Two32
    && |blobs| < Two32
    && forall i :: 0 <= i < |blobs| ==> |blobs[i]| < Two32
  }

  function U32(n: nat): (b: seq<byte>)
    requires n < Two32
    ensures |b| == 4 && FromBytesBE(b) == n
  {
    Pow256Four();
    ToBytesBEDecodes(n, 4);
    ToBytesBE(n, 4)
  }

  /** The texture section after its count: length, tag 0 and bytes per blob. */
  function TexturesBytes(blobs: seq<seq<byte>>): (r: seq<byte>)
    requires forall i :: 0 <= i < |blobs| ==> |blobs[i]| < Two32
  {
    if blobs == [] then []
    else U32(|blobs[0]|) + [PngTextureEncoding] + blobs[0] + TexturesBytes(blobs[1..])
  }

  /** The whole container for a JSON text and the texture blobs in layer order. */
  function ContainerBytes(json: seq<byte>, blobs: seq<seq<byte>>): (r: seq<byte>)
    requires Fits(json, blobs)
  {
    Magic + U32(|json|) + json + TexSect + U32(|blobs|) + TexturesBytes(blobs)
  }

  /** Σ (5 + |blob|): four length bytes, one tag byte and the blob, per texture. */
  function TexturesSize(blobs: seq<seq<byte>>): nat {
    if blobs == [] then 0 else 5 + |blobs[0]| + TexturesSize(blobs[1..])
  }

  /** The container is 24 bytes of fixed fields, the JSON, and the texture records. */
  lemma {:induction false} ContainerLength(json: seq<byte>, blobs: seq<seq<byte>>)
    requires Fits(json, blobs)
    ensures |ContainerBytes(json, blobs)| == 24 + |json| + TexturesSize(blobs)
  {
    TexturesBytesLength(blobs);
  }

  lemma {:induction false} TexturesBytesLength(blobs: seq<seq<byte>>)
    requires forall i :: 0 <= i < |blobs| ==> |blobs[i]| < Two32
    ensures |TexturesBytes(blobs)| == TexturesSize(blobs)
  {
    if blobs != [] {
      TexturesBytesLength(blobs[1..]);
    }
  }

  lemma {:induction false} TexturesEmit(blobs: seq<seq<byte>>)
    requires forall i :: 0 <= i < |blobs| ==> |blobs[i]| < Two32
    ensures Emit(TexturesChunks(blobs)) == Emitted(TexturesBytes(blobs), true)
  {
    Pow256Four();
    if blobs != [] {
      TexturesEmit(blobs[1..]);
      EmitAppend(TextureChunks(blobs[0]), TexturesChunks(blobs[1..]));
      EmitCons(Raw(blobs[0]), []);
      EmitCons(Int(PngTextureEncoding, 1), [Raw(blobs[0])]);
      EmitCons(Int(|blobs[0]|, 4), [Int(PngTextureEncoding, 1), Raw(blobs[0])]);
      assert ToBytesBE(PngTextureEncoding, 1) == [PngTextureEncoding];
      assert Emit(TextureChunks(blobs[0])).bytes == U32(|blobs[0]|) + ([PngTextureEncoding] + (blobs[0] + []));
    }
  }

  lemma {:induction false} HeaderEmit(json: seq<byte>, count: nat)
    requires |json| < Two32 && count < Two32
    ensures Emit(HeaderChunks(json, count)) == Emitted(Magic + U32(|json|) + json + TexSect + U32(count), true)
  {
    Pow256Four();
    var r4: seq<Chunk> := [Int(count, 4)];
    var r3 := [Raw(TexSect)] + r4;
    var r2 := [Raw(json)] + r3;
    var r1 := [Int(|json|, 4)] + r2;
    assert HeaderChunks(json, count) == [Raw(Magic)] + r1;
    EmitCons(Int(count, 4), []);
    assert r4 == [Int(count, 4)] + [];
    EmitCons(Raw(TexSect), r4);
    EmitCons(Raw(json), r3);
    EmitCons(Int(|json|, 4), r2);
    EmitCons(Raw(Magic), r1);
    assert Magic + (U32(|json|) + (json + (TexSect + (U32(count) + [])))) ==
      Magic + U32(|json|) + json + TexSect + U32(count);
  }

  /**
   * The header writes when the JSON length, or else the texture count,
   * does not fit: the writes stop just before that field.
   */
  lemma {:induction false} HeaderOverflow(json: seq<byte>, blobs: seq<seq<byte>>)
    ensures |json| >= Two32 ==> Emit(Layout(json, blobs)) == Emitted(Magic, false)
    ensures |json| < Two32 && |blobs| >= Two32 ==>
      Emit(Layout(json, blobs)) == Emitted(Magic + U32(|json|) + json + TexSect, false)
  {
    Pow256Four();
    var t := TexturesChunks(blobs);
    var l := Layout(json, blobs);
    var r4 := [Int(|blobs|, 4)] + t;
    var r3 := [Raw(TexSect)] + r4;
    var r2 := [Raw(json)] + r3;
    var r1 := [Int(|json|, 4)] + r2;
    assert l == [Raw(Magic)] + r1;
    EmitCons(Raw(Magic), r1);
    EmitCons(Int(|json|, 4), r2);
    if |json| < Two32 && |blobs| >= Two32 {
      EmitCons(Raw(json), r3);
      EmitCons(Raw(TexSect), r4);
      EmitCons(Int(|blobs|, 4), t);
      assert Magic + (U32(|json|) + (json + (TexSect + []))) == Magic + U32(|json|) + json + TexSect;
    }
  }

  /** A length that does not fit makes one of the writes raise. */
  lemma {:induction false} LayoutIncompleteUnlessFits(json: seq<byte>, blobs: seq<seq<byte>>)
    requires !Fits(json, blobs)
    ensures !Emit(Layout(json, blobs)).complete
  {
    Pow256Four();
    var l := Layout(json, blobs);
    EmitCompleteIff(l);
    if |json| >= Two32 {
      assert l[1] == Int(|json|, 4);
    } else if |blobs| >= Two32 {
      assert l[4] == Int(|blobs|, 4);
    } else {
      var i :| 0 <= i < |blobs| && |blobs[i]| >= Two32;
      TexturesChunkAt(blobs, i);
      assert l[5 + 3 * i] == Int(|blobs[i]|, 4);
    }
  }

  /**
   * The writes complete exactly when every length fits, and then put
   * exactly the container on disk.
   */
  lemma {:induction false} LayoutEmitsContainer(json: seq<byte>, blobs: seq<seq<byte>>)
    ensures Emit(Layout(json, blobs)).complete <==> Fits(json, blobs)
    ensures Fits(json, blobs) ==> Emit(Layout(json, blobs)).bytes == ContainerBytes(json, blobs)
  {
    if !Fits(json, blobs) {
      LayoutIncompleteUnlessFits(json, blobs);
    } else {
      HeaderEmit(json, |blobs|);
      TexturesEmit(blobs);
      EmitAppend(HeaderChunks(json, |blobs|), TexturesChunks(blobs));
    }
  }

  lemma {:induction false} TexturesChunkAt(blobs: seq<seq<byte>>, i: int)
    requires 0 <= i < |blobs|
    ensures TexturesChunks(blobs)[3 * i] == Int(|blobs[i]|, 4)
  {
    if i > 0 {
      TexturesChunkAt(blobs[1..], i - 1);
    }
  }

  /** What a reader recovers from a container. */
  datatype Contents = Contents(json: seq<byte>, blobs: seq<seq<byte>>)

  /**
   * Reference reader for the texture section: `count` records of a 4-byte
   * length, a PNG tag and that many bytes, with nothing left over.
   */
  function ReadTextures(b: seq<byte>, count: nat): (r: Option<seq<seq<byte>>>)
    ensures r.Some? ==> |r.value| == count
    decreases count
  {
    if count == 0 then (if b == [] then Some([]) else None)
    else if |b| < 5 then None
    else
      var n := FromBytesBE(b[..4]);
      if b[4] != PngTextureEncoding || |b| < 5 + n then None
      else
        match ReadTextures(b[5 + n..], count - 1)
        case None => None
        case Some(rest) => Some([b[5..5 + n]] + rest)
  }

  /** Reference reader for a whole container. */
  function ReadContainer(b: seq<byte>): Option<Contents> {
    if |b| < 12 || b[..8] != Magic then None
    else
      var n := FromBytesBE(b[8..12]);
      if |b| < 24 + n || b[12 + n..20 + n] != TexSect then None
      else
        match ReadTextures(b[24 + n..], FromBytesBE(b[20 + n..24 + n]))
        case None => None
        case Some(blobs) => Some(Contents(b[12..12 + n], blobs))
  }

  lemma {:induction false} ReadTexturesRoundTrip(blobs: seq<seq<byte>>)
    requires forall i :: 0 <= i < |blobs| ==> |blobs[i]| < Two32
    ensures ReadTextures(TexturesBytes(blobs), |blobs|) == Some(blobs)
  {
    if blobs != [] {
      var b := TexturesBytes(blobs);
      var n := |blobs[0]|;
      assert b[..4] == U32(n);
      assert b[4] == PngTextureEncoding;
      assert b[5..5 + n] == blobs[0];
      assert b[5 + n..] == TexturesBytes(blobs[1..]);
      ReadTexturesRoundTrip(blobs[1..]);
      assert [blobs[0]] + blobs[1..] == blobs;
    }
  }

  /** Splitting a written container on its length fields recovers the JSON and every blob. */
  lemma {:induction false} ContainerRoundTrip(json: seq<byte>, blobs: seq<seq<byte>>)
    requires Fits(json, blobs)
    ensures ReadContainer(ContainerBytes(json, blobs)) == Some(Contents(json, blobs))
  {
    var b := ContainerBytes(json, blobs);
    var n := |json|;
    assert b[..8] == Magic;
    assert b[8..12] == U32(n);
    assert b[12..12 + n] == json;
    assert b[12 + n..20 + n] == TexSect;
    assert b[20 + n..24 + n] == U32(|blobs|);
    assert b[24 + n..] == TexturesBytes(blobs);
    ReadTexturesRoundTrip(blobs);
  }

  lemma {:induction false} ReadTexturesExact(b: seq<byte>, count: nat)
    requires ReadTextures(b, count).Some?
    ensures var blobs := ReadTextures(b, count).value;
      (forall i :: 0 <= i < |blobs| ==> |blobs[i]| < Two32) && TexturesBytes(blobs) == b
    decreases count
  {
    var blobs := ReadTextures(b, count).value;
    if count > 0 {
      var n := FromBytesBE(b[..4]);
      ReadTexturesHead(b, count);
      var blob, tail := b[5..5 + n], b[5 + n..];
      var rest := ReadTextures(tail, count - 1).value;
      ReadTexturesExact(tail, count - 1);
      RecordBytes(b, n);
      assert blobs[0] == blob && blobs[1..] == rest;
    }
  }

  /** A non-empty read takes one record off the front and reads the rest. */
  lemma ReadTexturesHead(b: seq<byte>, count: nat)
    requires count > 0 && ReadTextures(b, count).Some?
    ensures var n := FromBytesBE(b[..4]);
      && 5 + n <= |b| && b[4] == PngTextureEncoding
      && ReadTextures(b[5 + n..], count - 1).Some?
      && ReadTextures(b, count).value == [b[5..5 + n]] + ReadTextures(b[5 + n..], count - 1).value
  {
  }

  /** A record read back is the record the writer would produce. */
  lemma RecordBytes(b: seq<byte>, n: nat)
    requires 5 + n <= |b| && FromBytesBE(b[..4]) == n && b[4] == PngTextureEncoding
    ensures n < Two32 && U32(n) + [PngTextureEncoding] + b[5..5 + n] + b[5 + n..] == b
  {
    Pow256Four();
    U32RoundTrip(0, b[..4]);
    assert b[4..5] == [PngTextureEncoding];
    calc {
      U32(n) + [PngTextureEncoding] + b[5..5 + n] + b[5 + n..];
      b[..4] + b[4..5] + b[5..5 + n] + b[5 + n..];
      { PrefixSplit(b, 4, 5); }
      b[..5] + b[5..5 + n] + b[5 + n..];
      { PrefixSplit(b, 5, 5 + n); }
      b[..5 + n] + b[5 + n..];
      { assert b == b[..5 + n] + b[5 + n..]; }
      b;
    }
  }

  /** What a successful read has checked, field by field. */
  lemma {:induction false} ReadContainerFields(b: seq<byte>)
    requires ReadContainer(b).Some?
    ensures var n := FromBytesBE(b[8..12]);
      && |b| >= 24 + n
      && b[..8] == Magic
      && b[12 + n..20 + n] == TexSect
      && ReadContainer(b).value.json == b[12..12 + n]
      && ReadTextures(b[24 + n..], FromBytesBE(b[20 + n..24 + n])) == Some(ReadContainer(b).value.blobs)
  {
  }

  /** The reader accepts nothing but containers the writer produces. */
  lemma {:induction false} ReadContainerExact(b: seq<byte>)
    requires ReadContainer(b).Some?
    ensures var c := ReadContainer(b).value;
      Fits(c.json, c.blobs) && ContainerBytes(c.json, c.blobs) == b
  {
    var c := ReadContainer(b).value;
    var jsonLen := b[8..12];
    var n := FromBytesBE(jsonLen);
    var countField := b[20 + n..24 + n];
    var texts := b[24 + n..];
    ReadContainerFields(b);
    ReadTexturesExact(texts, FromBytesBE(countField));
    U32RoundTrip(0, jsonLen);
    U32RoundTrip(0, countField);
    assert U32(|c.json|) == jsonLen;
    assert U32(|c.blobs|) == countField;
    calc {
      ContainerBytes(c.json, c.blobs);
      b[..8] + b[8..12] + b[12..12 + n] + b[12 + n..20 + n] + countField + texts;
      { PrefixSplit(b, 8, 12); }
      b[..12] + b[12..12 + n] + b[12 + n..20 + n] + countField + texts;
      { PrefixSplit(b, 12, 12 + n); }
      b[..12 + n] + b[12 + n..20 + n] + countField + texts;
      { PrefixSplit(b, 12 + n, 20 + n); }
      b[..20 + n] + b[20 + n..24 + n] + texts;
      { PrefixSplit(b, 20 + n, 24 + n); }
      b[..24 + n] + b[24 + n..];
      { assert b == b[..24 + n] + b[24 + n..]; }
      b;
    }
  }

  lemma PrefixSplit(s: seq<byte>, i: int, j: int)
    requires 0 <= i <= j <= |s|
    ensures s[..j] == s[..i] + s[i..j]
  {
  }
}
