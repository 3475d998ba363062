/**
 * The puppet scene graph: a fixed Root node whose children are one Part
 * node per top-level layer, plus the puppet metadata.
 */
module Scene {
  import opened Results
  import opened Layers
  import opened Geometry
  import opened BlendTable

  const MaxUint: int := 4294967295
  /** The texture-slot value that means "no texture". */
  const NoTexture: int := MaxUint
  const RootUuid: int := MaxUint - 1
  const MetaVersion: string := "v0.7.2-97-gc2aaa18"
  const DefaultTint: seq<real> := [1.0, 1.0, 1.0]
  const DefaultScreenTint: seq<real> := [0.0, 0.0, 0.0]

  datatype Physics = Physics(pixelsPerMeter: real, gravity: real)
  const DefaultPhysics: Physics := Physics(1000.0, 9.8)

  /**
   * Puppet metadata. Field names are the JSON keys the encoder emits,
   * including the key spelled `thumbailId`.
   */
  datatype Meta = Meta(
    name: string,
    version: string,
    rigger: string,
    artist: string,
    rights: Option<string>,
    copyright: string,
    licenseURL: string,
    contact: string,
    reference: string,
    thumbailId: int,
    preservePixels: bool)

  /**
   * The metadata record a fresh `Meta()` holds: the encoder's own format
   * version, no thumbnail, no rights, every text field empty.
   */
  function DefaultMeta(): (m: Meta)
    ensures m.version == MetaVersion && m.thumbailId == NoTexture && m.rights.None? && !m.preservePixels
    ensures m.name == m.rigger == m.artist == m.copyright == m.licenseURL == m.contact == m.reference == ""
  {
    Meta("", MetaVersion, "", "", None, "", "", "", "", NoTexture, false)
  }

  datatype Transform = Transform(trans: seq<real>, rot: seq<real>, scale: seq<real>)

  datatype Mesh = Mesh(verts: seq<real>, uvs: seq<real>, indices: seq<nat>)

  datatype Part = Part(
    uuid: int,
    name: string,
    enabled: bool,
    zsort: real,
    transform: Transform,
    lockToRoot: bool,
    mesh: Mesh,
    textures: seq<int>,
    blendMode: string,
    tint: seq<real>,
    screenTint: seq<real>,
    emissionStrength: real,
    maskThreshold: real,
    opacity: real)

  datatype RootNode = RootNode(
    uuid: int,
    name: string,
    enabled: bool,
    zsort: real,
    transform: Transform,
    lockToRoot: bool,
    children: seq<Part>)

  /**
   * The puppet document. `meta` is None while it still holds the template's
   * empty placeholder. The `param`, `automation` and `animations` fields
   * (always null) and `groups` (always empty) are constants of the JSON
   * text and are not represented.
   */
  datatype Puppet = Puppet(meta: Option<Meta>, physics: Physics, nodes: RootNode)

  const IdentityRot: seq<real> := [0.0, 0.0, 0.0]
  const IdentityScale: seq<real> := [1.0, 1.0]

  /**
   * The template every export starts from: no metadata yet, the default
   * physics, and an enabled, unlocked Root node at the origin with identity
   * rotation and scale and no children.
   */
  function TemplatePuppet(): (p: Puppet)
    ensures p.meta.None? && p.physics.pixelsPerMeter == 1000.0 && p.physics.gravity == 9.8
    ensures var root := p.nodes;
      && root.uuid == MaxUint - 1 && root.name == "Root" && root.enabled && root.zsort == 0.0 && !root.lockToRoot
      && root.transform == Transform([0.0, 0.0, 0.0], [0.0, 0.0, 0.0], [1.0, 1.0])
      && root.children == []
  {
    Puppet(None, DefaultPhysics,
      RootNode(RootUuid, "Root", true, 0.0, Transform([0.0, 0.0, 0.0], IdentityRot, IdentityScale), false, []))
  }

  /** The identifier of the Part built for the layer at `index`. */
  function PartUuid(index: int): (u: int)
    ensures u + index == MaxUint - 2
  {
    (MaxUint - 2) - index
  }

  /** Part opacity from a host opacity: the fraction of 255. */
  function PartOpacity(opacity: int): (r: real)
    ensures r * 255.0 == opacity as real
    ensures 0 <= opacity <= 255 ==> 0.0 <= r <= 1.0
    ensures opacity == 0 ==> r == 0.0
    ensures opacity == 255 ==> r == 1.0
  {
    opacity as real / 255.0
  }

  datatype ExportError =
    | UnsupportedBlendMode(key: string)   // KeyError from the blend table
    | Overflow(value: nat)                // OverflowError from int.to_bytes

  /** The Part node for `layer` at position `index`, or the blend-table failure. */
  function SerializePart(layer: Layer, index: int, cx: real, cy: real): (r: Result<Part, ExportError>)
    ensures r.Failure? <==> layer.blendMode !in BlendModes
    ensures r.Failure? ==> r.error == UnsupportedBlendMode(layer.blendMode)
    ensures r.Success? ==>
      var p := r.value;
      && p.uuid == PartUuid(index)
      && p.name == layer.name
      && p.textures == [index, NoTexture, NoTexture]
      && p.blendMode == BlendModes[layer.blendMode]
      && p.opacity == PartOpacity(layer.opacity)
      && p.mesh == Mesh(QuadVerts(layer.bounds), DefaultUvs, DefaultIndices)
      && p.transform == Transform(Translation(layer.bounds, cx, cy), IdentityRot, IdentityScale)
    // the fields every Part carries unchanged
    ensures r.Success? ==>
      var p := r.value;
      && p.enabled && p.zsort == 0.0 && !p.lockToRoot
      && p.tint == [1.0, 1.0, 1.0] && p.screenTint == [0.0, 0.0, 0.0]
      && p.emissionStrength == 1.0 && p.maskThreshold == 0.5
  {
    match LookupBlendMode(layer.blendMode)
    case Failure(key) => Failure(UnsupportedBlendMode(key))
    case Success(blend) =>
      Success(Part(
        PartUuid(index),
        layer.name,
        true,
        0.0,
        Transform(Translation(layer.bounds, cx, cy), IdentityRot, IdentityScale),
        false,
        Mesh(QuadVerts(layer.bounds), DefaultUvs, DefaultIndices),
        [index, NoTexture, NoTexture],
        blend,
        DefaultTint,
        DefaultScreenTint,
        1.0,
        0.5,
        PartOpacity(layer.opacity)))
  }

  /** `k` is the first layer whose blend mode is not in the table. */
  predicate FirstUnsupported(layers: seq<Layer>, k: int) {
    && 0 <= k < |layers|
    && layers[k].blendMode !in BlendModes
    && forall j :: 0 <= j < k ==> layers[j].blendMode in BlendModes
  }

  /**
   * The children list `[serialize(node, i) for i, node in enumerate(nodes)]`
   * for the layers numbered from `start`. It succeeds exactly when every
   * layer's blend mode is in the table, with one Part per layer.
   */
  function BuildParts(layers: seq<Layer>, start: int, cx: real, cy: real): (r: Result<seq<Part>, ExportError>)
    ensures r.Success? <==> forall j :: 0 <= j < |layers| ==> layers[j].blendMode in BlendModes
    ensures r.Success? ==> |r.value| == |layers|
    decreases |layers|
  {
    if layers == [] then Success([])
    else
      match SerializePart(layers[0], start, cx, cy)
      case Failure(e) => Failure(e)
      case Success(p) =>
        match BuildParts(layers[1..], start + 1, cx, cy)
        case Failure(e) => Failure(e)
        case Success(ps) =>
          assert forall j :: 1 <= j < |layers| ==> layers[j] == layers[1..][j - 1];
          Success([p] + ps)
  }

  /** Part j of the children is the Part built for layer j at position start + j. */
  lemma {:induction false} BuildPartsAt(layers: seq<Layer>, start: int, cx: real, cy: real, j: int)
    requires BuildParts(layers, start, cx, cy).Success?
    requires 0 <= j < |layers|
    ensures SerializePart(layers[j], start + j, cx, cy) == Success(BuildParts(layers, start, cx, cy).value[j])
  {
    var p := SerializePart(layers[0], start, cx, cy);
    if j > 0 {
      var ps := BuildParts(layers[1..], start + 1, cx, cy);
      assert BuildParts(layers, start, cx, cy) == Success([p.value] + ps.value);
      BuildPartsAt(layers[1..], start + 1, cx, cy, j - 1);
      assert layers[1..][j - 1] == layers[j];
    }
  }

  /** The comprehension raises the KeyError of the first unsupported layer. */
  lemma {:induction false} BuildPartsFailsAtFirst(layers: seq<Layer>, start: int, cx: real, cy: real, k: int)
    requires FirstUnsupported(layers, k)
    ensures BuildParts(layers, start, cx, cy) == Failure(UnsupportedBlendMode(layers[k].blendMode))
  {
    if k > 0 {
      assert FirstUnsupported(layers[1..], k - 1);
      BuildPartsFailsAtFirst(layers[1..], start + 1, cx, cy, k - 1);
    }
  }

  /** The document's puppet: the template with its children and metadata filled in. */
  function BuildPuppet(layers: seq<Layer>, meta: Meta, cx: real, cy: real): (r: Result<Puppet, ExportError>)
    ensures r.Success? <==> BuildParts(layers, 0, cx, cy).Success?
    ensures r.Success? ==>
      r.value == TemplatePuppet().(meta := Some(meta), nodes := TemplatePuppet().nodes.(children := BuildParts(layers, 0, cx, cy).value))
  {
    match BuildParts(layers, 0, cx, cy)
    case Failure(e) => Failure(e)
    case Success(parts) =>
      var t := TemplatePuppet();
      Success(t.(meta := Some(meta), nodes := t.nodes.(children := parts)))
  }

  /**
   * Identifiers of a built document: Root has MAX_UINT - 1, the Part for
   * layer i has MAX_UINT - 2 - i, so Part identifiers strictly decrease in
   * layer order, are pairwise distinct, and none is Root's or NO_TEXTURE.
   * Slot 0 of Part i's textures is i and the other two slots are empty.
   */
  lemma {:induction false} PuppetIdentifiers(layers: seq<Layer>, meta: Meta, cx: real, cy: real)
    requires BuildPuppet(layers, meta, cx, cy).Success?
    ensures var p := BuildPuppet(layers, meta, cx, cy).value;
      && p.nodes.uuid == MaxUint - 1
      && |p.nodes.children| == |layers|
      && (forall i :: 0 <= i < |layers| ==>
            && p.nodes.children[i].uuid == MaxUint - 2 - i
            && p.nodes.children[i].uuid != p.nodes.uuid
            && p.nodes.children[i].uuid != NoTexture
            && p.nodes.children[i].textures == [i, NoTexture, NoTexture])
      && (forall i, j :: 0 <= i < j < |layers| ==> p.nodes.children[i].uuid > p.nodes.children[j].uuid)
  {
    var p := BuildPuppet(layers, meta, cx, cy).value;
    var parts := BuildParts(layers, 0, cx, cy).value;
    assert p.nodes.children == parts;
    forall i | 0 <= i < |layers|
      ensures parts[i].uuid == MaxUint - 2 - i && parts[i].textures == [i, NoTexture, NoTexture]
    {
      BuildPartsAt(layers, 0, cx, cy, i);
    }
  }

  /**
   * Part i of a built document is layer i's own Part: its name, blend name,
   * opacity, quad and translation come from layer i and no other.
   */
  lemma {:induction false} PartsFollowLayers(layers: seq<Layer>, meta: Meta, cx: real, cy: real, i: int)
    requires BuildPuppet(layers, meta, cx, cy).Success?
    requires 0 <= i < |layers|
    ensures var part := BuildPuppet(layers, meta, cx, cy).value.nodes.children[i];
      && part.name == layers[i].name
      && part.blendMode == BlendModes[layers[i].blendMode]
      && part.opacity * 255.0 == layers[i].opacity as real
      && part.mesh.verts == QuadVerts(layers[i].bounds)
      && part.mesh.uvs == [0.0, 0.0, 0.0, 1.0, 1.0, 0.0, 1.0, 1.0]
      && part.mesh.indices == [0, 1, 2, 2, 1, 3]
      && part.transform.trans == Translation(layers[i].bounds, cx, cy)
  {
    BuildPartsAt(layers, 0, cx, cy, i);
  }

  /** A document without layers gives a Root node without children. */
  lemma EmptyDocument(meta: Meta, cx: real, cy: real)
    ensures BuildPuppet([], meta, cx, cy) == Success(TemplatePuppet().(meta := Some(meta)))
  {
  }
}
