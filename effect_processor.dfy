/** The depth-of-field processor: each frame it turns the camera-to-item
    distance into a blur amount and configures whichever of its two blur
    nodes the item selects; its output image is the selected node's output. */
module EffectProcessor {
  import opened Graphics
  import opened DepthOfFieldEffect
  import opened CustomLensEffect

  /** C#'s `Math.Min` on two (non-NaN) values. */
  function Min(a: real, b: real): (m: real)
    ensures m <= a && m <= b && (m == a || m == b)
  {
    if a <= b then a else b
  }

  /** Distances below this edge of the focus band are too near. */
  function NearBoundary(s: Sample): real
  {
    s.focusDistance - s.focusRange / 2.0
  }

  /** Distances above this edge of the focus band are too far. */
  function FarBoundary(s: Sample): real
  {
    s.focusDistance + s.focusRange / 2.0
  }

  /** The blur amount before the cap: zero inside the focus band, growing
      linearly with the distance outside it, the near and far sides scaled
      separately. */
  function UncappedBlur(distance: real, s: Sample): real
  {
    if distance < NearBoundary(s) then (NearBoundary(s) - distance) * s.nearBlurScale
    else if distance > FarBoundary(s) then (distance - FarBoundary(s)) * s.farBlurScale
    else 0.0
  }

  /** The blur amount for an item at `distance` from the camera: the uncapped
      amount, capped at `maxBlur`. */
  function BlurAmount(distance: real, s: Sample): (r: real)
    ensures r <= s.maxBlur
    ensures NearBoundary(s) <= distance <= FarBoundary(s) ==> r == Min(0.0, s.maxBlur)
  {
    Min(UncappedBlur(distance, s), s.maxBlur)
  }

  /** Inside the focus band, boundaries included, the item is sharp. */
  lemma SharpInFocusBand(distance: real, s: Sample)
    requires s.maxBlur >= 0.0
    requires NearBoundary(s) <= distance <= FarBoundary(s)
    ensures BlurAmount(distance, s) == 0.0
  {
  }

  /** With the declared minimums of the scales and the cap, blur is never
      negative. */
  lemma BlurNonNegative(distance: real, s: Sample)
    requires s.nearBlurScale >= 0.0 && s.farBlurScale >= 0.0 && s.maxBlur >= 0.0
    ensures 0.0 <= BlurAmount(distance, s) <= s.maxBlur
  {
    if distance < NearBoundary(s) {
      var gap := NearBoundary(s) - distance;
      assert UncappedBlur(distance, s) == gap * s.nearBlurScale;
      NonNegativeProduct(gap, s.nearBlurScale);
    } else if distance > FarBoundary(s) {
      var gap := distance - FarBoundary(s);
      assert UncappedBlur(distance, s) == gap * s.farBlurScale;
      NonNegativeProduct(gap, s.farBlurScale);
    }
    assert UncappedBlur(distance, s) >= 0.0;
  }

  lemma NonNegativeProduct(a: real, b: real)
    requires a >= 0.0 && b >= 0.0
    ensures a * b >= 0.0
  {
  }

  lemma ScaledOrder(a: real, b: real, k: real)
    requires a <= b && k >= 0.0
    ensures a * k <= b * k
  {
    NonNegativeProduct(b - a, k);
  }

  /** On and beyond the far edge of a non-negative band, the uncapped blur
      is the far scale times the distance past that edge. */
  lemma FarSideClosedForm(d: real, s: Sample)
    requires s.focusRange >= 0.0 && FarBoundary(s) <= d
    ensures UncappedBlur(d, s) == (d - FarBoundary(s)) * s.farBlurScale
  {
    if d == FarBoundary(s) {
      assert d - FarBoundary(s) == 0.0;
    } else {
      assert NearBoundary(s) <= FarBoundary(s) < d;
    }
  }

  /** On and before the near edge of a non-negative band, the uncapped blur
      is the near scale times the distance short of that edge. */
  lemma NearSideClosedForm(d: real, s: Sample)
    requires s.focusRange >= 0.0 && d <= NearBoundary(s)
    ensures UncappedBlur(d, s) == (NearBoundary(s) - d) * s.nearBlurScale
  {
    if d == NearBoundary(s) {
      assert NearBoundary(s) - d == 0.0;
      assert d <= FarBoundary(s);
    }
  }

  /** Capping keeps the order of the amounts. */
  lemma MinMonotone(a: real, b: real, c: real)
    requires a <= b
    ensures Min(a, c) <= Min(b, c)
  {
  }

  /** Outside the band, blur never shrinks as the item moves further from it,
      on either side. */
  lemma BlurGrowsAwayFromBand(d1: real, d2: real, s: Sample)
    requires s.nearBlurScale >= 0.0 && s.farBlurScale >= 0.0 && s.focusRange >= 0.0
    requires FarBoundary(s) <= d1 <= d2 || d2 <= d1 <= NearBoundary(s)
    ensures BlurAmount(d1, s) <= BlurAmount(d2, s)
  {
    if FarBoundary(s) <= d1 <= d2 {
      FarSideClosedForm(d1, s);
      FarSideClosedForm(d2, s);
      ScaledOrder(d1 - FarBoundary(s), d2 - FarBoundary(s), s.farBlurScale);
    } else {
      NearSideClosedForm(d1, s);
      NearSideClosedForm(d2, s);
      ScaledOrder(NearBoundary(s) - d1, NearBoundary(s) - d2, s.nearBlurScale);
    }
    MinMonotone(UncappedBlur(d1, s), UncappedBlur(d2, s), s.maxBlur);
  }

  /** With a zero focus range, an item beyond the focus distance takes the far
      branch: the near scale plays no part. */
  lemma FarBranchAtZeroRange(distance: real, s: Sample, nearScale: real)
    requires s.focusRange == 0.0 && distance > s.focusDistance
    ensures BlurAmount(distance, s) == Min((distance - s.focusDistance) * s.farBlurScale, s.maxBlur)
    ensures BlurAmount(distance, s.(nearBlurScale := nearScale)) == BlurAmount(distance, s)
  {
  }

  /** An item at 1500 with the default settings (focus at 1000, zero range,
      far scale 0.01, cap 20) gets a blur of 5. */
  lemma DefaultFarExample()
    ensures BlurAmount(1500.0, DefaultSample) == 5.0
  {
  }

  /** Amounts below this are too faint for a Gaussian pass. */
  const DeadZone: real := 0.1

  /** The standard deviation handed to the Gaussian primitive: amounts in the
      dead zone are snapped to zero, the rest pass unchanged. */
  function GaussianDeviation(amount: real): (sd: real)
    ensures sd == 0.0 <==> amount < DeadZone
    ensures sd != 0.0 ==> sd == amount
  {
    if amount < DeadZone then 0.0 else amount
  }

  lemma DeadZoneExample()
    ensures GaussianDeviation(0.05) == 0.0
  {
  }

  /** A fixed size makes the Gaussian primitive's border hard. */
  function BorderModeFor(fixSize: bool): (m: BorderMode)
    ensures m == Hard <==> fixSize
  {
    if fixSize then Hard else Soft
  }

  /** The writes the lens branch performs, in order: radius, brightness (the
      percentage as a fraction), edge strength, quality. */
  function LensWrites(amount: real, s: Sample): (ws: seq<Write>)
    ensures |ws| == PropertyCount
    ensures forall k :: 0 <= k < |ws| ==> ws[k].property.Index() == k
  {
    [Write(Radius, amount), Write(Brightness, s.bokehBrightness / 100.0),
     Write(EdgeStrength, s.bokehEdge), Write(Quality, s.bokehQuality)]
  }

  /** The lens branch overwrites every field, so the old buffer leaves no trace. */
  lemma LensWritesSetAllFields(b: ConstantBuffer, amount: real, s: Sample)
    ensures ApplyWrites(b, LensWrites(amount, s))
         == ConstantBuffer(amount, s.bokehBrightness / 100.0, s.bokehEdge, s.bokehQuality)
  {
    var ws := LensWrites(amount, s);
    var b1 := b.Set(Radius, amount);
    var b2 := b1.Set(Brightness, s.bokehBrightness / 100.0);
    var b3 := b2.Set(EdgeStrength, s.bokehEdge);
    var b4 := b3.Set(Quality, s.bokehQuality);
    assert ws[1..][1..] == ws[2..] && ws[2..][1..] == ws[3..] && ws[3..][1..] == [];
    calc {
      ApplyWrites(b, ws);
      ApplyWrites(b1, ws[1..]);
      ApplyWrites(b2, ws[2..]);
      ApplyWrites(b3, ws[3..]);
      ApplyWrites(b4, []);
    }
  }

  /** The scene data the host passes through the processor untouched. */
  datatype Vector3 = Vector3(x: real, y: real, z: real)
  datatype DrawDescription = DrawDescription(camera: seq<real>, draw: Vector3)

  /** What the host hands to `Update` each frame. */
  datatype EffectDescription = EffectDescription(drawDescription: DrawDescription, frame: int, duration: int, fps: int)

  /** The runtime's Gaussian blur primitive: the parameters the processor sets. */
  class GaussianBlur {
    const output: Image
    var input: Option<Image>
    var standardDeviation: real
    var borderMode: BorderMode

    constructor (output: Image, standardDeviation: real, borderMode: BorderMode)
      ensures this.output == output && input == None
      ensures this.standardDeviation == standardDeviation && this.borderMode == borderMode
    {
      this.output := output;
      input := None;
      this.standardDeviation := standardDeviation;
      this.borderMode := borderMode;
    }

    /** `SetInput(0, image, true)`: bind the primitive's only input. */
    method SetInput(image: Image)
      modifies this`input
      ensures input == Some(image)
    {
      input := Some(image);
    }
  }

  class Processor {
    /** The image bound by the host, if any. */
    var input: Option<Image>
    const gaussian: GaussianBlur
    const lens: LensEffect
    const gaussianOutput: Image
    const lensOutput: Image

    /** Both nodes are created up front and their output handles kept; the
        runtime supplies the handles and the Gaussian primitive's defaults. */
    constructor (gaussianImage: Image, lensImage: Image, initialDeviation: real, initialBorder: BorderMode)
      ensures input == None
      ensures fresh(gaussian) && fresh(lens) && fresh(lens.impl)
      ensures gaussianOutput == gaussian.output == gaussianImage
      ensures lensOutput == lens.output == lensImage
      ensures gaussian.input == None && lens.input == None
      ensures gaussian.standardDeviation == initialDeviation && gaussian.borderMode == initialBorder
      ensures !lens.fixSize
      ensures lens.impl.constants == ZeroBuffer && !lens.impl.drawInfoBound && lens.impl.pushed == []
    {
      input := None;
      gaussian := new GaussianBlur(gaussianImage, initialDeviation, initialBorder);
      gaussianOutput := gaussianImage;
      lens := new LensEffect(lensImage);
      lensOutput := lensImage;
    }

    /** The combined output: the Gaussian node's when Gaussian is selected,
        the lens node's otherwise. */
    function Output(blurType: BlurType): (img: Image)
      ensures img == gaussianOutput || img == lensOutput
      ensures gaussianOutput != lensOutput ==> (img == gaussianOutput <==> blurType == Gaussian)
    {
      if blurType == Gaussian then gaussianOutput else lensOutput
    }

    /** One frame: with no input bound nothing happens; otherwise only the
        selected node is configured from the blur amount at `distance`. The
        draw description is passed through on every path. */
    method Update(desc: EffectDescription, distance: real, item: ItemSettings, s: Sample)
      returns (result: DrawDescription)
      requires distance >= 0.0
      modifies gaussian, lens, lens.impl
      ensures result == desc.drawDescription
      ensures input == None ==> unchanged(gaussian, lens, lens.impl)
      ensures input.Some? && item.blurType == Gaussian ==>
        && gaussian.input == input
        && gaussian.standardDeviation == GaussianDeviation(BlurAmount(distance, s))
        && gaussian.borderMode == BorderModeFor(item.fixSize)
        && unchanged(lens, lens.impl)
      ensures input.Some? && item.blurType == Lens ==>
        && unchanged(gaussian)
        && lens.input == input
        && lens.fixSize == item.fixSize
        && lens.impl.constants
           == ConstantBuffer(BlurAmount(distance, s), s.bokehBrightness / 100.0, s.bokehEdge, s.bokehQuality)
        && lens.impl.drawInfoBound == old(lens.impl.drawInfoBound)
        && lens.impl.pushed == old(lens.impl.pushed) +
           if lens.impl.drawInfoBound then Pushes(old(lens.impl.constants), LensWrites(BlurAmount(distance, s), s))
           else []
      ensures input.Some? && item.blurType == Lens ==>
        && lens.impl.constants.radius <= s.maxBlur
        && (InRange(s) ==> 0.0 <= lens.impl.constants.radius)
    {
      if input == None {
        return desc.drawDescription;
      }
      var image := input.value;
      var amount := BlurAmount(distance, s);
      if item.blurType == Gaussian {
        gaussian.SetInput(image);
        gaussian.standardDeviation := GaussianDeviation(amount);
        gaussian.borderMode := BorderModeFor(item.fixSize);
      } else {
        ghost var b0 := lens.impl.constants;
        ghost var log0 := lens.impl.pushed;
        lens.SetInput(image);
        lens.SetRadius(amount);
        lens.SetBrightness(s.bokehBrightness / 100.0);
        lens.SetEdgeStrength(s.bokehEdge);
        lens.SetQuality(s.bokehQuality);
        lens.fixSize := item.fixSize;
        ghost var ws := LensWrites(amount, s);
        PushesCons(b0, ws[0], ws[1..]);
        PushesCons(b0.Set(Radius, amount), ws[1], ws[2..]);
        PushesCons(b0.Set(Radius, amount).Set(Brightness, s.bokehBrightness / 100.0), ws[2], ws[3..]);
        assert ws == [ws[0]] + ws[1..] && ws[1..] == [ws[1]] + ws[2..] && ws[2..] == [ws[2]] + ws[3..];
        assert ws[3..] == [ws[3]];
        if InRange(s) {
          BlurNonNegative(distance, s);
        }
      }
      return desc.drawDescription;
    }

    method SetInput(image: Option<Image>)
      modifies this`input
      ensures input == image
    {
      input := image;
    }

    method ClearInput()
      modifies this`input
      ensures input == None
    {
      input := None;
    }
  }
}
