/**
 * The table from the host's blending-mode identifiers to the blend-mode
 * names of the INX scene graph.
 */
module BlendTable {
  import opened Results

  /**
   * The table as written, in its order. "lighter color" appears twice; in
   * a map display, as in a Python dict literal, the later entry is the one
   * that remains.
   */
  const BlendModes: map<string, string> := map[
    "pass through" := "PassThrough",
    "normal" := "Normal",
    "dissolve" := "Dissolve",
    "darken" := "Darken",
    "multiply" := "Multiply",
    "burn" := "ColorBurn",
    "linear_burn" := "LinearBurn",
    "darker color" := "DarkerColor",
    "lighter color" := "Lighten",
    "screen" := "Screen",
    "dodge" := "ColorDodge",
    "linear_dodge" := "LinearDodge",
    "lighter color" := "LighterColor",
    "overlay" := "Overlay",
    "soft_light" := "SoftLight",
    "hard_light" := "HardLight",
    "vivid_light" := "VividLight",
    "linear light" := "LinearLight",
    "pin_light" := "PinLight",
    "hard mix" := "HardMix",
    "diff" := "Difference",
    "exclusion" := "Exclusion",
    "subtract" := "Subtract",
    "divide" := "Divide",
    "hue" := "Hue",
    "saturation" := "Saturation",
    "color" := "Color",
    "luminize" := "Luminosity"
  ]

  /** `BLEND_MODES[key]`: a missing key is a lookup error, never a default. */
  function LookupBlendMode(key: string): (r: Result<string, string>)
    ensures r.Success? <==> key in BlendModes
    ensures r.Success? ==> r.value == BlendModes[key] && r.value != ""
    ensures r.Failure? ==> r.error == key
  {
    if key in BlendModes then
      BlendModesNonEmpty();
      Success(BlendModes[key])
    else Failure(key)
  }

  /** Every entry names a non-empty canonical blend mode. */
  lemma BlendModesNonEmpty()
    ensures forall k :: k in BlendModes ==> BlendModes[k] != ""
  {
  }

  /**
   * The duplicate key resolves to its later entry, so no key yields
   * "Lighten"; keys are matched exactly.
   */
  lemma LighterColorResolved()
    ensures LookupBlendMode("lighter color") == Success("LighterColor")
    ensures forall k :: k in BlendModes ==> BlendModes[k] != "Lighten"
    ensures LookupBlendMode("lighten").Failure?
  {
  }
}
