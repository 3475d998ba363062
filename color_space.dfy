/**
 * The colour-space check made before a layer's pixels are read, and the
 * in-place conversion applied to a layer that fails it.
 */
module ColorSpace {
  import opened Layers

  const SrgbModel: string := "RGBA"
  const SrgbDepth: string := "U8"
  const SrgbProfile: string := "sRGB-elle-V2-srgbtrc.icc"

  /** An ASCII upper-case letter becomes its own lower-case form; anything else is kept. */
  function LowerChar(c: char): (r: char)
    ensures 'A' <= c <= 'Z' ==> 'a' <= r <= 'z' && r as int == c as int + 32
    ensures !('A' <= c <= 'Z') ==> r == c
  {
    if 'A' <= c <= 'Z' then (c as int - 'A' as int + 'a' as int) as char else c
  }

  /** `str.lower()` on ASCII text: each upper-case letter becomes lower-case. */
  function Lower(s: string): (r: string)
    ensures |r| == |s|
    ensures forall i :: 0 <= i < |s| ==> r[i] == LowerChar(s[i])
  {
    seq(|s|, i requires 0 <= i < |s| => LowerChar(s[i]))
  }

  /** The same character, or the same ASCII letter in the other case. */
  predicate SameIgnoringCase(c: char, d: char) {
    || c == d
    || ('A' <= c <= 'Z' && d as int == c as int + 32)
    || ('A' <= d <= 'Z' && c as int == d as int + 32)
  }

  /** Equal length, and equal character by character up to ASCII letter case. */
  predicate MatchesIgnoringCase(s: string, t: string) {
    |s| == |t| && forall i :: 0 <= i < |s| ==> SameIgnoringCase(s[i], t[i])
  }

  /** Comparing after `lower()` is comparing up to letter case. */
  lemma LowerEqualIff(s: string, t: string)
    ensures Lower(s) == Lower(t) <==> MatchesIgnoringCase(s, t)
  {
    if MatchesIgnoringCase(s, t) {
      assert forall i :: 0 <= i < |s| ==> Lower(s)[i] == Lower(t)[i];
    }
    if Lower(s) == Lower(t) {
      assert forall i :: 0 <= i < |s| ==> LowerChar(s[i]) == LowerChar(t[i]) by {
        forall i | 0 <= i < |s| ensures LowerChar(s[i]) == LowerChar(t[i]) {
          assert Lower(s)[i] == Lower(t)[i];
        }
      }
    }
  }

  /** Model "RGBA", depth "U8", and the reference profile after `lower()` on both sides. */
  predicate IsSrgb(l: Layer) {
    && l.colorModel == SrgbModel
    && l.colorDepth == SrgbDepth
    && Lower(l.colorProfile) == Lower(SrgbProfile)
  }

  /**
   * What the check accepts, for every layer: model "RGBA", depth "U8", and a
   * profile of the reference's length whose every character is the reference
   * character or the same letter in the other case.
   */
  lemma IsSrgbIff(l: Layer)
    ensures IsSrgb(l) <==>
      l.colorModel == SrgbModel && l.colorDepth == SrgbDepth && MatchesIgnoringCase(l.colorProfile, SrgbProfile)
  {
    LowerEqualIff(l.colorProfile, SrgbProfile);
  }

  /**
   * The layer after the check: left alone when it is already sRGB, otherwise
   * given exactly the reference model, depth and profile.
   */
  function Normalize(l: Layer): (r: Layer)
    ensures IsSrgb(l) ==> r == l
    ensures !IsSrgb(l) ==> r.colorModel == SrgbModel && r.colorDepth == SrgbDepth && r.colorProfile == SrgbProfile
    // only the colour fields may change
    ensures r.name == l.name && r.bounds == l.bounds && r.opacity == l.opacity && r.blendMode == l.blendMode
  {
    if IsSrgb(l) then l
    else l.(colorModel := SrgbModel, colorDepth := SrgbDepth, colorProfile := SrgbProfile)
  }

  /** After the check every layer is sRGB. */
  lemma NormalizeIsSrgb(l: Layer)
    ensures IsSrgb(Normalize(l))
  {
  }

  /** A layer is left unchanged exactly when it is already sRGB. */
  lemma NormalizeFixesExactlySrgb(l: Layer)
    ensures Normalize(l) == l <==> IsSrgb(l)
  {
  }

  /** Normalising twice is normalising once. */
  lemma NormalizeIdempotent(l: Layer)
    ensures Normalize(Normalize(l)) == Normalize(l)
  {
    NormalizeIsSrgb(l);
  }

  /** The profile comparison ignores letter case. */
  lemma ProfileCaseInsensitive(l: Layer)
    requires l.colorModel == "RGBA" && l.colorDepth == "U8"
    requires l.colorProfile == "SRGB-ELLE-V2-SRGBTRC.ICC"
    ensures IsSrgb(l) && Normalize(l) == l
  {
  }

  /** Every layer after its own check, in order. */
  function NormalizeAll(layers: seq<Layer>): (r: seq<Layer>)
    ensures |r| == |layers|
    ensures forall i :: 0 <= i < |layers| ==> r[i] == Normalize(layers[i])
  {
    seq(|layers|, i requires 0 <= i < |layers| => Normalize(layers[i]))
  }

  /** After the texture loop every layer is sRGB. */
  lemma NormalizeAllIsSrgb(layers: seq<Layer>)
    ensures forall i :: 0 <= i < |layers| ==> IsSrgb(NormalizeAll(layers)[i])
  {
    forall i | 0 <= i < |layers| ensures IsSrgb(NormalizeAll(layers)[i]) {
      NormalizeIsSrgb(layers[i]);
    }
  }
}
