# INX export model

This project models the core of the Krita INX exporter (`krita-inx-export/inxdocument.py`).
The exporter turns a Krita document into an Inochi2D puppet file (INX). It builds a
JSON scene graph: one fixed Root node, plus one textured quad ("Part") for each
top-level layer. Each Part is positioned relative to the document centre and carries the
layer's name, blend mode and opacity. The exporter then writes a binary container:

- the magic `TRNSRTS\0`;
- the JSON length as a 4-byte big-endian integer, then the JSON text;
- the marker `TEX_SECT`, then the texture count as a 4-byte big-endian integer;
- one record per layer: the blob length as a 4-byte big-endian integer, an encoding
  tag byte (0 = PNG), then the blob.

Before a layer's pixels are encoded, any layer that is not 8-bit RGBA in the
`sRGB-elle-V2-srgbtrc.icc` profile is converted to it in place.

Modules, one per concern of the source:

- `Results`: Option, Result and Outcome wrappers.
- `Bytes`: big-endian `int.to_bytes` / `int.from_bytes` and ASCII encoding.
- `Layers`: the layer as the exporter sees it: name, bounds, opacity, blend-mode key and colour space.
- `Geometry`: document centre, quad vertices and translation of a Part.
- `BlendTable`: the host-key to puppet blend-name table and its lookup.
- `ColorSpace`: the sRGB check and the conversion's effect on a layer's colour fields.
- `Scene`: the metadata, Part, Root node and puppet records, and how they are built from the layers.
- `Container`: the sequence of writes the exporter issues, the bytes they produce (or the
  point where an integer too wide for its field stops them), and a reference reader that
  splits a container back into its JSON text and blobs.
- `Inx`: the `InxDocument` class. Its constructor captures the document, and `Save` fills
  in the puppet and writes the container to the destination. The layers, the puppet and
  the destination are fields that `Save` updates.

The blend table is written as in the source, including the duplicated key `"lighter color"`.
A Dafny map display, like a Python dict literal, keeps the later entry, so `"lighter color"`
resolves to `"LighterColor"`, and no key maps to `"Lighten"`
(`BlendTable.LighterColorResolved`).

## Model

| member | source | states |
|---|---|---|
| Bytes.IntToBytes | krita-inx-export/inxdocument.py:156 | `n.to_bytes(length, "big")` succeeds exactly when n < 256^length; it then gives `length` bytes that decode back to n (otherwise OverflowError) |
| Bytes.ToBytesBEDecodes | krita-inx-export/inxdocument.py:156 | decoding the big-endian encoding of any n that fits returns n |
| Bytes.FromBytesBEEncodes | krita-inx-export/inxdocument.py:156 | re-encoding the value of any byte string at its own width gives back the same bytes |
| Bytes.U32RoundTrip | krita-inx-export/inxdocument.py:156-159 | the 4-byte length and count fields round-trip in both directions for every value below 2^32 |
| Bytes.EncodeAscii | krita-inx-export/inxdocument.py:150-157 | the encoded JSON has one byte per character, equal to its code, so the written length equals `len(json_data)` |
| Geometry.DocCenter | krita-inx-export/inxdocument.py:89-90 | the centre is half the document width and height |
| Geometry.QuadVerts | krita-inx-export/inxdocument.py:103-106 | eight coordinates of a quad centred on the origin: point-symmetric, as wide and tall as the layer's bounds, corners ordered (-,-),(-,+),(+,-),(+,+) |
| Geometry.Translation | krita-inx-export/inxdocument.py:108-112 | the Part's offset plus the document centre is the centre of the layer's bounds; depth is 0 |
| Geometry.QuadCoversBox | krita-inx-export/inxdocument.py:103-112 | each vertex moved by the translation and the document centre lands on the corner of the layer's bounds named by its UV coordinate |
| Geometry.ZeroSizeQuad | krita-inx-export/inxdocument.py:103-106 | an empty layer gives a degenerate quad at the origin |
| Geometry.GeometryExample | krita-inx-export/inxdocument.py:89-112 | a 40x60 layer at (10,20) in a 200x100 document gets translation [-70,0,0] and vertices ±20, ±30 |
| BlendTable.LookupBlendMode | krita-inx-export/inxdocument.py:132 | the lookup succeeds exactly for keys in the table and yields that key's non-empty puppet name; a missing key fails with that key (KeyError) |
| BlendTable.BlendModesNonEmpty | krita-inx-export/inxdocument.py:17-46 | every puppet blend name in the table is non-empty |
| BlendTable.LighterColorResolved | krita-inx-export/inxdocument.py:25-30 | the duplicated key `"lighter color"` maps to `"LighterColor"` (the later entry); no key maps to `"Lighten"`; the key `"lighten"` is not in the table |
| ColorSpace.LowerChar | krita-inx-export/inxdocument.py:173 | an upper-case ASCII letter becomes its own lower-case form (code + 32); every other character is unchanged |
| ColorSpace.Lower | krita-inx-export/inxdocument.py:173 | `lower()` applied character by character, keeping the length |
| ColorSpace.LowerEqualIff | krita-inx-export/inxdocument.py:173 | two strings are equal after `lower()` exactly when they have the same length and each pair of characters is equal or the same ASCII letter in the other case |
| ColorSpace.IsSrgbIff | krita-inx-export/inxdocument.py:170-174 | for every layer, the sRGB test passes exactly when the model is "RGBA", the depth "U8", and the profile has the reference's length with each character equal to the reference character or the same letter in the other case |
| ColorSpace.Normalize | krita-inx-export/inxdocument.py:170-177 | an sRGB layer is unchanged; any other gets exactly RGBA/U8/the reference profile; name, bounds, opacity and blend mode never change |
| ColorSpace.NormalizeIsSrgb | krita-inx-export/inxdocument.py:170-177 | after the check every layer passes the sRGB test |
| ColorSpace.NormalizeFixesExactlySrgb | krita-inx-export/inxdocument.py:170-177 | the conversion leaves a layer unchanged if and only if it is already sRGB |
| ColorSpace.NormalizeIdempotent | krita-inx-export/inxdocument.py:170-177 | converting twice is the same as converting once |
| ColorSpace.ProfileCaseInsensitive | krita-inx-export/inxdocument.py:170-174 | the profile comparison ignores case: an upper-case spelling of the reference profile counts as sRGB and is not converted |
| ColorSpace.NormalizeAll | krita-inx-export/inxdocument.py:161-177 | after the texture loop layer i is layer i after its own check, for every i |
| ColorSpace.NormalizeAllIsSrgb | krita-inx-export/inxdocument.py:161-177 | after the texture loop every layer passes the sRGB test |
| Scene.DefaultMeta | krita-inx-export/inxdocument.py:49-61 | the default metadata: the encoder's version tag, thumbnail NO_TEXTURE, rights null, pixels not preserved, every text field empty |
| Scene.TemplatePuppet | krita-inx-export/inxdocument.py:65-86 | the template has no metadata yet, physics 1000 pixels per meter and gravity 9.8, and a Root node with id MAX_UINT-1, name "Root", enabled, zsort 0, zero translation and rotation, unit scale, not locked, no children |
| Scene.PartUuid | krita-inx-export/inxdocument.py:115 | the id of the Part at index i plus i is MAX_UINT-2 |
| Scene.PartOpacity | krita-inx-export/inxdocument.py:137 | the Part opacity times 255 is the layer opacity, so 0..255 maps into [0,1] with 0 to 0 and 255 to 1 |
| Scene.SerializePart | krita-inx-export/inxdocument.py:95-138 | a Part is built exactly when the layer's blend key is in the table, otherwise it fails with UnsupportedBlendMode(key); on success it holds the id MAX_UINT-2-index, the layer name, textures [index, NO_TEXTURE, NO_TEXTURE], the mapped blend name, the opacity fraction, the quad and the translation, plus the fixed fields: enabled, zsort 0, not locked to root, tint [1,1,1], screen tint [0,0,0], emission strength 1 and mask threshold 0.5 |
| Scene.BuildParts | krita-inx-export/inxdocument.py:140-142 | the children list is built exactly when every layer's blend key is in the table, with one Part per layer |
| Scene.BuildPartsAt | krita-inx-export/inxdocument.py:140-142 | child j is the Part serialised from layer j at index start+j |
| Scene.BuildPartsFailsAtFirst | krita-inx-export/inxdocument.py:132-142 | when layer k is the first with an unknown blend key, the build fails with that layer's key |
| Scene.BuildPuppet | krita-inx-export/inxdocument.py:140-144 | the puppet is built exactly when the children are, and is then the template with those children and the document's metadata |
| Scene.PuppetIdentifiers | krita-inx-export/inxdocument.py:65-142 | Root has id MAX_UINT-1; Part i has MAX_UINT-2-i; Part ids strictly decrease, are distinct from Root's and from NO_TEXTURE; Part i references texture i and two empty slots |
| Scene.PartsFollowLayers | krita-inx-export/inxdocument.py:95-142 | Part i carries layer i's name, mapped blend name, opacity, quad, default UVs and indices, and translation |
| Scene.EmptyDocument | krita-inx-export/inxdocument.py:65-144 | a document with no layers gives the template with no children and the document's metadata |
| Container.EmitWritesFittingPrefix | krita-inx-export/inxdocument.py:154-202 | the file after a run of writes (`Emit`) holds the concatenated bytes of the longest prefix of writes whose integers fit, and the run completes exactly when that prefix is the whole run |
| Container.EmitStep | krita-inx-export/inxdocument.py:154-202 | after a run of successful writes, one more write either appends its bytes, or raises, and then nothing after it reaches the file |
| Container.HeaderChunksFit | krita-inx-export/inxdocument.py:154-159 | of the header writes (`HeaderChunks`) only the JSON length and the texture count can raise, each exactly when its value needs more than four bytes |
| Container.TextureChunksFit | krita-inx-export/inxdocument.py:200-202 | of a texture's writes (`TextureChunks`) only the length can raise, exactly when the blob has 2^32 bytes or more; the one-byte tag 0 always fits |
| Container.LayoutSize | krita-inx-export/inxdocument.py:154-202 | the export (`Layout`) makes five header writes and three per layer |
| Container.EmitCompleteIff | krita-inx-export/inxdocument.py:149-202 | all writes are performed exactly when every integer fits its field |
| Container.EmitAppend | krita-inx-export/inxdocument.py:154-202 | writing two runs of writes in sequence is writing the first, then (if it completed) the second after its bytes |
| Container.TexturesChunksAppend | krita-inx-export/inxdocument.py:161-202 | the texture records of two lists of layers are those of the first followed by those of the second |
| Container.HeaderEmit | krita-inx-export/inxdocument.py:154-159 | when both lengths fit, the header writes produce magic, JSON length, JSON, marker, count |
| Container.HeaderOverflow | krita-inx-export/inxdocument.py:154-159 | JSON of 2^32 bytes or more stops the export after the magic; a count of 2^32 or more stops it after the marker |
| Container.LayoutIncompleteUnlessFits | krita-inx-export/inxdocument.py:154-202 | if the JSON, the count or any blob is too long for its 4-byte field, the export does not complete |
| Container.LayoutEmitsContainer | krita-inx-export/inxdocument.py:154-202 | the export completes exactly when every length fits, and its bytes are then exactly the container layout |
| Container.ContainerLength | krita-inx-export/inxdocument.py:155-202 | the container is 24 bytes of framing plus the JSON plus 5 bytes and the blob for each texture |
| Container.TexturesEmit | krita-inx-export/inxdocument.py:200-202 | the texture writes produce length, PNG tag 0 and blob for each layer in order |
| Container.ReadTexturesRoundTrip | krita-inx-export/inxdocument.py:161-202 | reading the texture section back gives the blobs written |
| Container.ContainerRoundTrip | krita-inx-export/inxdocument.py:154-202 | reading a written container gives back its JSON text and every blob, in layer order |
| Container.ReadTexturesExact | krita-inx-export/inxdocument.py:200-202 | any texture section the reader accepts is exactly the records of the blobs it returns |
| Container.ReadContainerFields | krita-inx-export/inxdocument.py:155-159 | an accepted container starts with the magic and has the marker and the count right after the JSON |
| Container.ReadContainerExact | krita-inx-export/inxdocument.py:154-202 | any byte string the reader accepts is exactly the container of the JSON and blobs it returns |
| Inx.Textures | krita-inx-export/inxdocument.py:161-198 | blob i is the encoding of layer i after its colour-space check |
| Inx.InxDocument.constructor | krita-inx-export/inxdocument.py:88-92 | the exporter captures half the document size as its centre, the top-level layers and the metadata, and starts from the template puppet |
| Inx.InxDocument.Write | krita-inx-export/inxdocument.py:155-159 | one write appends the chunk's bytes, or fails and appends nothing when its integer does not fit |
| Inx.InxDocument.Save | krita-inx-export/inxdocument.py:94-202 | an unknown blend key fails with that key before anything is written or changed; otherwise the puppet is built; the destination holds exactly the writes made before the first overflow; success holds exactly when every length fits, and the file is then the full container, which reads back to the JSON and every layer's blob, with every layer through its colour-space check (hence sRGB, by `NormalizeAllIsSrgb`); a JSON or count overflow fails with no layer converted; a blob overflow fails at the first oversized blob k with layers 0..k converted and the rest untouched |
| Inx.InxDocument.WriteHeader | krita-inx-export/inxdocument.py:149-159 | the header writes pass exactly when the JSON length and the texture count both fit 4 bytes; otherwise they stop at the first that does not, with the file as it then stands |
| Inx.InxDocument.WriteTextures | krita-inx-export/inxdocument.py:161-202 | layers are converted and written one by one in order; on success every layer is converted and all records are written; on overflow the file is the writes so far, blob k is the first oversized one, layers 0..k are converted and the rest untouched |
| Inx.InxDocument.ExportLayer | krita-inx-export/inxdocument.py:161-202 | one pass of the loop: exactly layer i is converted, then its record is written when the blob length fits, otherwise the writes stop with the file as the export left it |
| Inx.InxDocument.ConvertToSrgb | krita-inx-export/inxdocument.py:170-177 | the check converts exactly layer i and no other |
| Inx.InxDocument.WriteTexture | krita-inx-export/inxdocument.py:200-202 | one texture record is written when the blob length fits 4 bytes; otherwise the writes stop there |

## Left out

- `kritainxexport.py` (the menu action and file dialog) is not part of this model.
- Host calls are not modelled. `bounds()`, `name()`, `opacity()`, `blendingMode()`, `colorModel()`,
  `colorDepth()` and `colorProfile()` become fields of a `Layer` value. `topLevelNodes()`,
  `width()` and `height()` become constructor arguments.
- `setColorSpace` is modelled by its effect on the three colour fields. The pixel conversion it performs is not modelled.
  Its return value, which the source ignores, is not modelled either: the conversion always takes
  effect, so "every layer is sRGB afterwards" holds under that assumption. A conversion that fails is not modelled.
- Pixel readout, the ARGB32-to-premultiplied conversion and PNG encoding (Qt) are one opaque
  parameter, `encodePng: Layer -> seq<byte>`. A failure inside them is not modelled. Neither is the
  premultiplication loop that the source leaves commented out.
- Inx.Textures: a blob is a function of the layer's record alone, so two layers with identical
  records get identical blobs even when their pixels differ. No property of the model relies on this.
- `json.dumps` is an opaque parameter, `encodeJson: Puppet -> AsciiString`. Its default output is
  ASCII, so its length in characters is its length in bytes. The constant JSON fields `param`,
  `automation`, `animations` (null) and `groups` (empty) are not represented in `Puppet`, nor is the
  constant `"type"` key of each node (`"Node"` for Root, `"Part"` for a Part).
- The file is the in-memory byte sequence `destination`. `open(..., "wb")` truncates it to empty.
  Flushing, closing and I/O errors are not modelled.
- Coordinates, opacity and physics constants are exact reals. Floating-point rounding of `/ 2`
  and `/ 255.0` is not modelled.
- ColorSpace.Lower: lower-cases ASCII letters only, whereas Python's `str.lower()` also folds non-ASCII
  letters. Profile names are ASCII.
- Inx.InxDocument.Save: the source's `puppet` is a class attribute shared by every exporter
  instance, and a default `Meta()` is shared by every call that omits it. The model gives each
  instance its own puppet and a metadata value, so cross-instance aliasing is not captured.
- Inx.InxDocument.Save: layers are values in a sequence field. That the conversion also changes
  the host's own layer objects, seen by other holders, is not captured.
- The number of distinct keys in the blend table (27 keys after the duplicate) is not stated as a lemma.

Edge behaviour the model takes from the code:

- An unknown blend mode raises before the file is opened.
- A length that does not fit 4 bytes raises `OverflowError` after the earlier writes, leaving a partial file.
- `"lighter color"` maps to `"LighterColor"`.
