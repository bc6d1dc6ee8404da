/** The custom lens-blur node: a four-field constant buffer kept in step with
    the node's properties and pushed to the device on every property write,
    and the two region-of-interest maps the effect-graph runtime queries
    before each draw. */
module CustomLensEffect {
  import opened Graphics

  /** The node's four float properties, in the order of their indices. */
  datatype Property = Radius | Brightness | EdgeStrength | Quality
  {
    /** The index the property is registered under with the runtime. */
    function Index(): (i: nat)
      ensures i < PropertyCount
    {
      match this
      case Radius => 0
      case Brightness => 1
      case EdgeStrength => 2
      case Quality => 3
    }
  }

  const PropertyCount: nat := 4

  /** The property registered under index `i`, if any. */
  function PropertyAt(i: nat): (p: Option<Property>)
    ensures p.Some? <==> i < PropertyCount
    ensures p.Some? ==> p.value.Index() == i
  {
    if i == 0 then Some(Radius)
    else if i == 1 then Some(Brightness)
    else if i == 2 then Some(EdgeStrength)
    else if i == 3 then Some(Quality)
    else None
  }

  /** Index and property determine each other. */
  lemma IndexRoundTrip(p: Property)
    ensures PropertyAt(p.Index()) == Some(p)
  {
  }

  /** The pixel shader's constant buffer, laid out as the shader reads it. */
  datatype ConstantBuffer = ConstantBuffer(radius: real, brightness: real, edgeStrength: real, quality: real)
  {
    /** The field that backs property `p`. */
    function Get(p: Property): real
    {
      match p
      case Radius => radius
      case Brightness => brightness
      case EdgeStrength => edgeStrength
      case Quality => quality
    }

    /** The buffer with the field of `p` replaced by `v`. */
    function Set(p: Property, v: real): (b: ConstantBuffer)
      ensures b.Get(p) == v
      ensures forall q :: q != p ==> b.Get(q) == Get(q)
    {
      match p
      case Radius => this.(radius := v)
      case Brightness => this.(brightness := v)
      case EdgeStrength => this.(edgeStrength := v)
      case Quality => this.(quality := v)
    }
  }

  /** What C# yields for `default(ConstantBuffer)`. */
  const ZeroBuffer := ConstantBuffer(0.0, 0.0, 0.0, 0.0)

  /** One property write: which property, and the value written. */
  datatype Write = Write(property: Property, value: real)

  /** The buffer after the writes `ws`, performed from first to last. */
  function ApplyWrites(b: ConstantBuffer, ws: seq<Write>): ConstantBuffer
    decreases |ws|
  {
    if ws == [] then b else ApplyWrites(b.Set(ws[0].property, ws[0].value), ws[1..])
  }

  /** The snapshots pushed to the device by the writes `ws`: each write pushes
      the whole buffer as it stands right after that write. */
  function Pushes(b: ConstantBuffer, ws: seq<Write>): seq<ConstantBuffer>
    decreases |ws|
  {
    if ws == [] then []
    else
      var next := b.Set(ws[0].property, ws[0].value);
      [next] + Pushes(next, ws[1..])
  }

  /** One write followed by more: its snapshot comes first. */
  lemma PushesCons(b: ConstantBuffer, w: Write, ws: seq<Write>)
    ensures Pushes(b, [w] + ws) == [b.Set(w.property, w.value)] + Pushes(b.Set(w.property, w.value), ws)
  {
    assert ([w] + ws)[1..] == ws;
  }

  /** Writes are not batched: there is one snapshot per write, and snapshot
      `k` is the buffer with the first `k + 1` writes applied. */
  lemma {:induction false} PushesOnePerWrite(b: ConstantBuffer, ws: seq<Write>)
    ensures |Pushes(b, ws)| == |ws|
    ensures forall k :: 0 <= k < |ws| ==> Pushes(b, ws)[k] == ApplyWrites(b, ws[..k + 1])
    decreases |ws|
  {
    if ws != [] {
      var next := b.Set(ws[0].property, ws[0].value);
      PushesOnePerWrite(next, ws[1..]);
      forall k | 0 <= k < |ws|
        ensures Pushes(b, ws)[k] == ApplyWrites(b, ws[..k + 1])
      {
        assert ws[..k + 1][0] == ws[0];
        assert ws[..k + 1][1..] == ws[1..][..k];
        if k > 0 {
          assert Pushes(b, ws)[k] == Pushes(next, ws[1..])[k - 1];
        }
      }
    }
  }

  /** The last snapshot pushed is the final buffer. */
  lemma LastPushIsFinalBuffer(b: ConstantBuffer, ws: seq<Write>)
    requires ws != []
    ensures |Pushes(b, ws)| == |ws| && Pushes(b, ws)[|ws| - 1] == ApplyWrites(b, ws)
  {
    PushesOnePerWrite(b, ws);
    assert ws[..|ws|] == ws;
  }

  /** `(int)Math.Ceiling(x)`: the least integer not below `x`. */
  function Ceil(x: real): (r: int)
    ensures r as real - 1.0 < x <= r as real
  {
    if x.Floor as real == x then x.Floor else x.Floor + 1
  }

  /** `rect` with every edge moved `margin` outward. */
  function Inflate(rect: RawRect, margin: int): RawRect
  {
    RawRect(rect.left - margin, rect.top - margin, rect.right + margin, rect.bottom + margin)
  }

  /** Inflating by a non-negative margin never loses coverage. */
  lemma InflateCovers(rect: RawRect, margin: int)
    requires margin >= 0
    ensures Contains(Inflate(rect, margin), rect)
  {
  }

  /** Inflating twice is inflating once by the summed margins. */
  lemma InflateTwice(rect: RawRect, a: int, b: int)
    ensures Inflate(Inflate(rect, a), b) == Inflate(rect, a + b)
  {
  }

  /** The inner effect implementation: the constant buffer, the draw
      information the runtime binds, and the log of every buffer handed to
      `SetPixelShaderConstantBuffer`. */
  class LensEffectImpl {
    var constants: ConstantBuffer
    /** Whether the runtime has bound `drawInformation` (it is null before). */
    var drawInfoBound: bool
    var pushed: seq<ConstantBuffer>

    constructor ()
      ensures constants == ZeroBuffer && !drawInfoBound && pushed == []
    {
      constants := ZeroBuffer;
      drawInfoBound := false;
      pushed := [];
    }

    /** The runtime binds the draw information (done by the base class). */
    method SetDrawInfo()
      modifies this`drawInfoBound
      ensures drawInfoBound
    {
      drawInfoBound := true;
    }

    /** `UpdateConstants`: push the whole buffer, if draw information is bound. */
    method UpdateConstants()
      modifies this`pushed
      ensures pushed == old(pushed) + if drawInfoBound then [constants] else []
    {
      if drawInfoBound {
        pushed := pushed + [constants];
      }
    }

    /** A property setter of the implementation: write the one field, then push. */
    method SetProperty(p: Property, value: real)
      modifies this`constants, this`pushed
      ensures constants == old(constants).Set(p, value)
      ensures pushed == old(pushed) + if drawInfoBound then [constants] else []
    {
      constants := constants.Set(p, value);
      UpdateConstants();
    }

    /** The runtime's `MapInputRectsToOutputRect` query: the output grows by
        `ceil(Radius)` on every side of the first input rectangle; the opaque
        part of the output is the default rectangle. */
    method MapInputRectsToOutputRect(inputRects: seq<RawRect>, inputOpaqueSubRects: seq<RawRect>)
      returns (outputRect: RawRect, outputOpaqueSubRect: RawRect)
      requires |inputRects| >= 1
      ensures outputRect == Inflate(inputRects[0], Ceil(constants.radius))
      ensures outputOpaqueSubRect == DefaultRect
    {
      var range := Ceil(constants.radius);
      outputRect := RawRect(inputRects[0].left - range, inputRects[0].top - range,
                            inputRects[0].right + range, inputRects[0].bottom + range);
      outputOpaqueSubRect := DefaultRect;
    }

    /** The runtime's `MapOutputRectToInputRects` query: slot 0 receives the
        requested output grown by `ceil(Radius)` on every side; no other slot
        is written. */
    method MapOutputRectToInputRects(outputRect: RawRect, inputRects: array<RawRect>)
      requires inputRects.Length >= 1
      modifies inputRects
      ensures inputRects[0] == Inflate(outputRect, Ceil(constants.radius))
      ensures forall i :: 1 <= i < inputRects.Length ==> inputRects[i] == old(inputRects[i])
    {
      var range := Ceil(constants.radius);
      inputRects[0] := RawRect(outputRect.left - range, outputRect.top - range,
                               outputRect.right + range, outputRect.bottom + range);
    }
  }

  /** For a non-negative radius, asking for the input that produces the output
      computed from a rectangle gives back a rectangle covering it. */
  lemma MapsRoundTripCover(radius: real, rect: RawRect)
    requires radius >= 0.0
    ensures Contains(Inflate(Inflate(rect, Ceil(radius)), Ceil(radius)), rect)
  {
    InflateTwice(rect, Ceil(radius), Ceil(radius));
    InflateCovers(rect, 2 * Ceil(radius));
  }

  /** With a zero radius both maps are the identity. */
  lemma ZeroRadiusIdentity(rect: RawRect)
    ensures Inflate(rect, Ceil(0.0)) == rect
  {
  }

  /** A radius of 12.4 grows (0, 0, 100, 100) to (-13, -13, 113, 113). */
  lemma RadiusExample()
    ensures Inflate(RawRect(0, 0, 100, 100), Ceil(12.4)) == RawRect(-13, -13, 113, 113)
  {
    assert Ceil(12.4) == 13;
  }

  /** The node the processor owns: its stable output image, its bound input,
      the stored fix-size flag and the effect implementation. Each property
      setter forwards to the runtime's `SetValue` with the property's index. */
  class LensEffect {
    const impl: LensEffectImpl
    const output: Image
    var input: Option<Image>
    /** Stored only: the lens node attaches no behaviour to it. */
    var fixSize: bool

    constructor (output: Image)
      ensures this.output == output && input == None && !fixSize
      ensures fresh(impl) && impl.constants == ZeroBuffer && !impl.drawInfoBound && impl.pushed == []
    {
      this.output := output;
      impl := new LensEffectImpl();
      input := None;
      fixSize := false;
    }

    /** The runtime's `SetValue(index, value)`: dispatch to the implementation
        property registered under `index`. */
    method SetValue(index: nat, value: real)
      requires index < PropertyCount
      modifies impl`constants, impl`pushed
      ensures impl.constants == old(impl.constants).Set(PropertyAt(index).value, value)
      ensures impl.pushed == old(impl.pushed) + if impl.drawInfoBound then [impl.constants] else []
    {
      impl.SetProperty(PropertyAt(index).value, value);
    }

    method SetRadius(value: real)
      modifies impl`constants, impl`pushed
      ensures impl.constants == old(impl.constants).Set(Radius, value)
      ensures impl.pushed == old(impl.pushed) + if impl.drawInfoBound then [impl.constants] else []
    {
      SetValue(0, value);
    }

    method SetBrightness(value: real)
      modifies impl`constants, impl`pushed
      ensures impl.constants == old(impl.constants).Set(Brightness, value)
      ensures impl.pushed == old(impl.pushed) + if impl.drawInfoBound then [impl.constants] else []
    {
      SetValue(1, value);
    }

    method SetEdgeStrength(value: real)
      modifies impl`constants, impl`pushed
      ensures impl.constants == old(impl.constants).Set(EdgeStrength, value)
      ensures impl.pushed == old(impl.pushed) + if impl.drawInfoBound then [impl.constants] else []
    {
      SetValue(2, value);
    }

    method SetQuality(value: real)
      modifies impl`constants, impl`pushed
      ensures impl.constants == old(impl.constants).Set(Quality, value)
      ensures impl.pushed == old(impl.pushed) + if impl.drawInfoBound then [impl.constants] else []
    {
      SetValue(3, value);
    }

    /** `SetInput(0, image, true)`: bind the node's only input. */
    method SetInput(image: Image)
      modifies this`input
      ensures input == Some(image)
    {
      input := Some(image);
    }
  }
}
