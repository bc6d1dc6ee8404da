/** The settings of the depth-of-field video effect item: its two
    enumerations, its plain settings and the animated scalars, sampled at
    the current frame, with the minimum and maximum each animation admits. */
module DepthOfFieldEffect {

  datatype BlurType = Gaussian | Lens

  datatype FocusMode = Spherical | Planar

  /** The item's settings that are not animated. */
  datatype ItemSettings = ItemSettings(blurType: BlurType, mode: FocusMode, fixSize: bool)

  /** The values of the eight animated scalars at one frame. */
  datatype Sample = Sample(
    focusDistance: real,
    focusRange: real,
    nearBlurScale: real,
    farBlurScale: real,
    maxBlur: real,
    bokehBrightness: real,
    bokehEdge: real,
    bokehQuality: real)

  /** Every sampled value lies within the bounds its animation declares. */
  predicate InRange(s: Sample)
  {
    0.0 <= s.focusDistance <= 100000.0 &&
    0.0 <= s.focusRange <= 100000.0 &&
    0.0 <= s.nearBlurScale <= 1.0 &&
    0.0 <= s.farBlurScale <= 1.0 &&
    0.0 <= s.maxBlur <= 500.0 &&
    0.0 <= s.bokehBrightness <= 1000.0 &&
    0.0 <= s.bokehEdge <= 20.0 &&
    1.0 <= s.bokehQuality <= 512.0
  }

  /** A freshly created item: Gaussian blur, planar focus, size not fixed. */
  const DefaultItem := ItemSettings(Gaussian, Planar, false)

  /** The initial value of every animation of a freshly created item. */
  const DefaultSample := Sample(1000.0, 0.0, 0.01, 0.01, 20.0, 100.0, 2.0, 16.0)

  lemma DefaultsInRange()
    ensures InRange(DefaultSample)
    ensures DefaultItem.blurType == Gaussian && !DefaultItem.fixSize
  {
  }
}
