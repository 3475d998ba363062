/**
 * The exporter object: it captures the document centre, the top-level
 * layers and the metadata, and `Save` writes the INX container to the
 * destination with successive writes.
 */
module Inx {
  import opened Results
  import opened Bytes
  import opened Layers
  import opened Geometry
  import opened ColorSpace
  import opened Scene
  import opened Container

  /** The blob stored for each layer: its pixels encoded after the colour-space check. */
  function Textures(layers: seq<Layer>, encodePng: Layer -> seq<byte>): (r: seq<seq<byte>>)
    ensures |r| == |layers|
    ensures forall i :: 0 <= i < |layers| ==> r[i] == encodePng(Normalize(layers[i]))
  {
    seq(|layers|, i requires 0 <= i < |layers| => encodePng(Normalize(layers[i])))
  }

  /** Blob k is the first whose length does not fit a 4-byte field. */
  predicate FirstOversized(blobs: seq<seq<byte>>, k: int) {
    && 0 <= k < |blobs|
    && |blobs[k]| >= Two32
    && forall j :: 0 <= j < k ==> |blobs[j]| < Two32
  }

  /** Layers 0..k have been through the colour-space check, the rest are as they were. */
  predicate ConvertedThrough(before: seq<Layer>, after: seq<Layer>, k: int) {
    && |after| == |before|
    && (forall j :: 0 <= j <= k && j < |before| ==> after[j] == Normalize(before[j]))
    && (forall j :: 0 <= j < |before| && k < j ==> after[j] == before[j])
  }

  /** The template's shape with some metadata and some children filled in. */
  predicate HasTemplateShape(p: Puppet) {
    var t := TemplatePuppet();
    p == t.(meta := p.meta, nodes := t.nodes.(children := p.nodes.children))
  }

  class InxDocument {
    const docCenterX: real
    const docCenterY: real
    const meta: Meta
    /** The top-level layers; the colour-space check rewrites their colour fields. */
    var nodes: seq<Layer>
    /** The puppet document that `Save` fills in and serialises. */
    var puppet: Puppet
    /** The contents of the destination file. */
    var destination: seq<byte>

    ghost predicate Valid()
      reads this
    {
      HasTemplateShape(puppet)
    }

    constructor (width: int, height: int, topLevelNodes: seq<Layer>, meta: Meta, destination: seq<byte>)
      ensures Valid()
      ensures 2.0 * docCenterX == width as real && 2.0 * docCenterY == height as real
      ensures nodes == topLevelNodes && this.meta == meta && this.destination == destination
      ensures puppet == TemplatePuppet()
    {
      var center := DocCenter(width, height);
      docCenterX, docCenterY := center.0, center.1;
      nodes := topLevelNodes;
      this.meta := meta;
      puppet := TemplatePuppet();
      this.destination := destination;
    }

    /** One `write` call on the destination; an integer too wide for its field raises. */
    method Write(c: Chunk) returns (ok: bool)
      modifies this`destination
      ensures ok == ChunkFits(c)
      ensures destination == if ok then old(destination) + ChunkBytes(c) else old(destination)
    {
      ok := ChunkFits(c);
      if ok {
        destination := destination + ChunkBytes(c);
      }
    }

    /**
     * Builds the scene graph, then writes the container. An unknown blend
     * mode fails before the destination is opened, leaving everything as it
     * was. Otherwise the destination holds exactly the bytes written before
     * the first length that does not fit its field, or, when every length
     * fits, the whole container, which the reference reader splits back into
     * the JSON text and every layer's blob; every layer has then been
     * converted to the reference colour space.
     */
    method Save(encodeJson: Puppet -> AsciiString, encodePng: Layer -> seq<byte>) returns (outcome: Outcome<ExportError>)
      requires Valid()
      modifies this
      ensures Valid()
      ensures var built := BuildPuppet(old(nodes), meta, docCenterX, docCenterY);
        built.Failure? ==>
          && outcome == Fail(built.error)
          && nodes == old(nodes) && puppet == old(puppet) && destination == old(destination)
      ensures var built := BuildPuppet(old(nodes), meta, docCenterX, docCenterY);
        built.Success? ==>
          var json := EncodeAscii(encodeJson(built.value));
          var blobs := Textures(old(nodes), encodePng);
          var written := Emit(Layout(json, blobs));
          && puppet == built.value
          && destination == written.bytes
          && (outcome.Pass? <==> Fits(json, blobs))
          && (outcome.Fail? ==> outcome.error.Overflow? && outcome.error.value >= Two32)
          && (outcome.Pass? ==>
                && destination == ContainerBytes(json, blobs)
                && ReadContainer(destination) == Some(Contents(json, blobs))
                && nodes == NormalizeAll(old(nodes)))
          // a header overflow comes before any layer is converted
          && (|json| >= Two32 || |old(nodes)| >= Two32 ==> outcome.Fail? && nodes == old(nodes))
          // an oversized blob stops the loop right after its layer's conversion
          && (outcome.Fail? && |json| < Two32 && |old(nodes)| < Two32 ==>
                exists k :: FirstOversized(blobs, k) && ConvertedThrough(old(nodes), nodes, k))
          && |nodes| == |old(nodes)|
          && forall i :: 0 <= i < |nodes| ==> nodes[i] == old(nodes)[i] || nodes[i] == Normalize(old(nodes)[i])
    {
      var parts := BuildParts(nodes, 0, docCenterX, docCenterY);
      if parts.Failure? {
        return Fail(parts.error);
      }
      puppet := puppet.(nodes := puppet.nodes.(children := parts.value));
      puppet := puppet.(meta := Some(meta));

      destination := [];  // opened with "wb"
      var text := encodeJson(puppet);
      var json := EncodeAscii(text);
      ghost var blobs := Textures(nodes, encodePng);
      LayoutEmitsContainer(json, blobs);
      outcome := WriteHeader(text, |nodes|, blobs);
      if outcome.Fail? {
        return;
      }
      outcome := WriteTextures(json, blobs, encodePng);
      if outcome.Pass? {
        ContainerRoundTrip(json, blobs);
      }
    }

    /**
     * The writes before the texture records: magic, JSON length, JSON,
     * section marker, texture count.
     */
    method WriteHeader(text: AsciiString, count: nat, ghost blobs: seq<seq<byte>>) returns (outcome: Outcome<ExportError>)
      requires destination == [] && |blobs| == count
      modifies this`destination
      ensures outcome.Pass? <==> |text| < Two32 && count < Two32
      ensures var json := EncodeAscii(text);
        outcome.Pass? ==> Emit(HeaderChunks(json, count)) == Emitted(destination, true)
      ensures outcome.Fail? ==>
        && outcome.error.Overflow? && outcome.error.value >= Two32
        && destination == Emit(Layout(EncodeAscii(text), blobs)).bytes
        && !Emit(Layout(EncodeAscii(text), blobs)).complete
    {
      var json := EncodeAscii(text);
      Pow256Four();
      HeaderOverflow(json, blobs);

      var ok := Write(Raw(Magic));
      assert destination == Magic;
      ok := Write(Int(|text|, 4));
      if !ok {
        return Fail(Overflow(|text|));
      }
      assert destination == Magic + U32(|json|);
      ok := Write(Raw(json));
      ok := Write(Raw(TexSect));
      assert destination == Magic + U32(|json|) + json + TexSect;
      ok := Write(Int(count, 4));
      if !ok {
        return Fail(Overflow(count));
      }
      HeaderEmit(json, count);
      return Pass;
    }

    /**
     * The texture records: for each layer in order, the colour-space check,
     * then the blob's record.
     */
    method WriteTextures(json: seq<byte>, ghost blobs: seq<seq<byte>>, encodePng: Layer -> seq<byte>)
      returns (outcome: Outcome<ExportError>)
      requires |blobs| == |nodes| && forall j :: 0 <= j < |nodes| ==> blobs[j] == encodePng(Normalize(nodes[j]))
      requires Emit(HeaderChunks(json, |blobs|)) == Emitted(destination, true)
      modifies this`nodes, this`destination
      ensures |nodes| == |old(nodes)|
      ensures outcome.Pass? ==> nodes == NormalizeAll(old(nodes)) && Emit(Layout(json, blobs)) == Emitted(destination, true)
      ensures outcome.Fail? ==>
        && outcome.error.Overflow? && outcome.error.value >= Two32
        && destination == Emit(Layout(json, blobs)).bytes
        && !Emit(Layout(json, blobs)).complete
        && exists k :: FirstOversized(blobs, k) && ConvertedThrough(old(nodes), nodes, k)
    {
      ghost var header := HeaderChunks(json, |blobs|);
      assert blobs[..0] == [] && header + TexturesChunks([]) == header;
      var i := 0;
      while i < |nodes|
        invariant 0 <= i <= |nodes| == |old(nodes)| == |blobs|
        invariant forall j :: 0 <= j < i ==> nodes[j] == Normalize(old(nodes)[j])
        invariant forall j :: i <= j < |nodes| ==> nodes[j] == old(nodes)[j]
        invariant forall j :: 0 <= j < i ==> |blobs[j]| < Two32
        invariant Emit(header + TexturesChunks(blobs[..i])) == Emitted(destination, true)
      {
        var ok, size := ExportLayer(i, json, blobs, encodePng);
        if !ok {
          assert FirstOversized(blobs, i) && ConvertedThrough(old(nodes), nodes, i);
          return Fail(Overflow(size));
        }
        i := i + 1;
      }
      assert blobs[..i] == blobs;
      return Pass;
    }

    /**
     * One pass of the texture loop, for layer i: the colour-space check, then
     * the layer's record. A blob too long for its length field stops the
     * writes, and the file is then what every write up to that point produced.
     */
    method ExportLayer(i: nat, json: seq<byte>, ghost blobs: seq<seq<byte>>, encodePng: Layer -> seq<byte>)
      returns (ok: bool, size: nat)
      requires i < |nodes| == |blobs|
      requires blobs[i] == encodePng(Normalize(nodes[i]))
      requires Emit(HeaderChunks(json, |blobs|) + TexturesChunks(blobs[..i])) == Emitted(destination, true)
      modifies this`nodes, this`destination
      ensures nodes == old(nodes)[i := Normalize(old(nodes)[i])]
      ensures size == |blobs[i]| && (ok <==> size < Two32)
      ensures ok ==> Emit(HeaderChunks(json, |blobs|) + TexturesChunks(blobs[..i + 1])) == Emitted(destination, true)
      ensures !ok ==> destination == Emit(Layout(json, blobs)).bytes && !Emit(Layout(json, blobs)).complete
    {
      ConvertToSrgb(i);
      var blob := encodePng(nodes[i]);
      size := |blob|;
      LayoutAround(json, blobs, i);
      ghost var done := HeaderChunks(json, |blobs|) + TexturesChunks(blobs[..i]);
      ok := WriteTexture(blob, done, TexturesChunks(blobs[i + 1..]));
    }

    /**
     * The colour-space check on layer i: a layer that is not sRGB is
     * converted in place to the reference model, depth and profile.
     */
    method ConvertToSrgb(i: nat)
      requires i < |nodes|
      modifies this`nodes
      ensures nodes == old(nodes)[i := Normalize(old(nodes)[i])]
    {
      if !IsSrgb(nodes[i]) {
        nodes := nodes[i := nodes[i].(colorModel := SrgbModel, colorDepth := SrgbDepth, colorProfile := SrgbProfile)];
      }
    }

    /** One texture record: the blob's length, the PNG tag, the blob. */
    method WriteTexture(blob: seq<byte>, ghost done: seq<Chunk>, ghost rest: seq<Chunk>) returns (ok: bool)
      requires Emit(done) == Emitted(destination, true)
      modifies this`destination
      ensures ok <==> |blob| < Two32
      ensures ok ==> Emit(done + TextureChunks(blob)) == Emitted(destination, true)
      ensures !ok ==> Emit(done + TextureChunks(blob) + rest) == Emitted(destination, false)
    {
      Pow256Four();
      ghost var tail := [Int(PngTextureEncoding, 1), Raw(blob)] + rest;
      ok := Write(Int(|blob|, 4));
      EmitStep(done, Int(|blob|, 4), tail);
      if !ok {
        assert done + TextureChunks(blob) + rest == done + [Int(|blob|, 4)] + tail;
        return;
      }
      ghost var d := done + [Int(|blob|, 4)];
      var tagged := Write(Int(PngTextureEncoding, 1));
      EmitStep(d, Int(PngTextureEncoding, 1), []);
      d := d + [Int(PngTextureEncoding, 1)];
      var stored := Write(Raw(blob));
      EmitStep(d, Raw(blob), []);
      assert d + [Raw(blob)] == done + TextureChunks(blob);
    }
  }
}
