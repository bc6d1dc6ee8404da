# Z-axis depth of field, modelled in Dafny

A video-effect plugin that blurs one image layer according to how far the
item sits from the camera's focus. Each frame the effect processor turns the
camera-to-item distance into a blur amount (zero inside a focus band, linear
outside it, capped at `maxBlur`) and configures one of two blur nodes, chosen
by the item's blur type:

- the runtime's Gaussian blur primitive, given a standard deviation with a
  dead zone below 0.1 and a border mode taken from the fix-size setting;
- a custom lens-blur node whose four float properties (radius, brightness,
  edge strength, quality) live in a constant buffer that is pushed to the
  device after every single property write, and which answers the runtime's
  two region-of-interest queries by growing rectangles by `ceil(radius)`.

Files (one module each):

- `graphics.dfy` (`Graphics`): runtime value types: `Option`, image handles,
  integer rectangles with `Contains`, the Gaussian border mode.
- `depth_of_field_effect.dfy` (`DepthOfFieldEffect`): the item's enumerations,
  its plain settings, one frame's sample of the animated scalars and the range
  each animation declares.
- `custom_lens_effect.dfy` (`CustomLensEffect`): the constant buffer, the
  property index mapping, the push log and its specification (`Pushes`,
  `ApplyWrites`), integer ceiling, the rectangle maps, and the two classes
  of the lens node (the outer node and its inner implementation).
- `effect_processor.dfy` (`EffectProcessor`): the blur amount and its
  properties, the dead zone, the border mode, the Gaussian node and the
  processor class with `Output`, `Update`, `SetInput` and `ClearInput`.

The processor and both nodes are classes whose fields the methods update in
place; the push log of the lens node is a `seq` field that grows by one
snapshot per property write. The pure parts (blur amount, dead zone, selectors,
rectangle arithmetic) are functions with lemmas.

The push in `UpdateConstants` goes through `drawInformation?.`, so it happens
only once the runtime has bound the draw information (done by the base class,
which is not part of this model). The model keeps that as the flag
`drawInfoBound`: while it is false a property write changes the buffer and
pushes nothing.

Both rectangle maps grow the rectangle by `ceil(Radius)` on every side
whatever the fix-size setting, and both read `inputRects[0]` without a length
check; the model does the same, so both maps require at least one input
rectangle. The item's own description of the fix-size setting
(Z_DepthofField/Z_DepthofFieldEffect.cs:32) says that turning it on keeps the
item's size; in Lens mode nothing reads the setting.

## Model

| member | source | states |
|---|---|---|
| DepthOfFieldEffect.DefaultsInRange | Z_DepthofField/Z_DepthofFieldEffect.cs:24-68 | the initial value of every animation lies within its declared range; a new item uses Gaussian blur with the size not fixed |
| EffectProcessor.Min | Z_DepthofField/Z_DepthofFieldEffectProcessor.cs:63 | the result is one of its arguments and neither exceeds it |
| EffectProcessor.BlurAmount | Z_DepthofField/Z_DepthofFieldEffectProcessor.cs:58-63 | the blur (the helper `UncappedBlur`, lines 58-62, capped by `Min`) never exceeds `maxBlur`; inside the focus band, both edges included, it is `min(0, maxBlur)` |
| EffectProcessor.FarSideClosedForm | Z_DepthofField/Z_DepthofFieldEffectProcessor.cs:59-62 | for a non-negative range, on and beyond the far edge the uncapped blur is `(d - farBoundary) * farScale`, the edge itself included |
| EffectProcessor.NearSideClosedForm | Z_DepthofField/Z_DepthofFieldEffectProcessor.cs:59-61 | for a non-negative range, on and before the near edge the uncapped blur is `(nearBoundary - d) * nearScale`, the edge itself included |
| EffectProcessor.SharpInFocusBand | Z_DepthofField/Z_DepthofFieldEffectProcessor.cs:58-63 | with `maxBlur >= 0`, every distance from `focus - range/2` to `focus + range/2` inclusive gives blur exactly 0 |
| EffectProcessor.BlurNonNegative | Z_DepthofField/Z_DepthofFieldEffectProcessor.cs:59-63 | with non-negative scales and cap, the blur lies in `[0, maxBlur]` for every distance |
| EffectProcessor.BlurGrowsAwayFromBand | Z_DepthofField/Z_DepthofFieldEffectProcessor.cs:59-63 | outside the band the blur never decreases as the item moves away from the band, on the near side and on the far side |
| EffectProcessor.FarBranchAtZeroRange | Z_DepthofField/Z_DepthofFieldEffectProcessor.cs:59-63 | with a zero range and the item beyond the focus distance the blur is `min((d - focus) * farScale, maxBlur)` and does not depend on the near scale |
| EffectProcessor.DefaultFarExample | Z_DepthofField/Z_DepthofFieldEffectProcessor.cs:55-63 | an item at 1500 with the default animation values (focus 1000, range 0, far scale 0.01, cap 20) gets blur 5 |
| EffectProcessor.GaussianDeviation | Z_DepthofField/Z_DepthofFieldEffectProcessor.cs:69 | the standard deviation is 0 exactly when the amount is below 0.1, and otherwise equals the amount |
| EffectProcessor.DeadZoneExample | Z_DepthofField/Z_DepthofFieldEffectProcessor.cs:69 | an amount of 0.05 gives standard deviation 0 |
| EffectProcessor.BorderModeFor | Z_DepthofField/Z_DepthofFieldEffectProcessor.cs:70 | the border mode is Hard exactly when the size is fixed |
| EffectProcessor.LensWrites | Z_DepthofField/Z_DepthofFieldEffectProcessor.cs:76-79 | the lens branch writes four properties, the k-th write going to the property with index k |
| EffectProcessor.LensWritesSetAllFields | Z_DepthofField/Z_DepthofFieldEffectProcessor.cs:76-79 | after the lens branch's writes the buffer holds (amount, brightness / 100, edge, quality) whatever it held before |
| EffectProcessor.GaussianBlur.constructor | Z_DepthofField/Z_DepthofFieldEffectProcessor.cs:31-32 | a new Gaussian node has the runtime's output handle and initial parameters and no input |
| EffectProcessor.GaussianBlur.SetInput | Z_DepthofField/Z_DepthofFieldEffectProcessor.cs:68 | binds the node's input to the image |
| EffectProcessor.Processor.constructor | Z_DepthofField/Z_DepthofFieldEffectProcessor.cs:25-36 | both nodes are created at once and their output handles kept; no input is bound anywhere; the Gaussian node has the runtime's initial deviation and border mode; the lens node's fix-size flag is off, its buffer is all zeros, no draw information is bound and nothing is pushed |
| EffectProcessor.Processor.Output | Z_DepthofField/Z_DepthofFieldEffectProcessor.cs:38 | the output is one of the two node outputs, and (for distinct handles) the Gaussian one exactly when the blur type is Gaussian |
| EffectProcessor.Processor.Update | Z_DepthofField/Z_DepthofFieldEffectProcessor.cs:40-84 | returns the draw description on every path; with no input neither node changes; in Gaussian mode only the Gaussian node changes: its input, the dead-zoned deviation and the border mode; in Lens mode only the lens node changes: its input, fix-size flag, buffer `(amount, brightness/100, edge, quality)`, and, when draw information is bound, exactly the four snapshots `Pushes` gives; the radius stays within `maxBlur` and, for in-range samples, is non-negative |
| EffectProcessor.Processor.SetInput | Z_DepthofField/Z_DepthofFieldEffectProcessor.cs:86 | the bound input becomes the given image (or none) |
| EffectProcessor.Processor.ClearInput | Z_DepthofField/Z_DepthofFieldEffectProcessor.cs:87 | no input is bound afterwards |
| CustomLensEffect.Property.Index | Z_DepthofField/Z_DepthofFieldCustomLensEffect.cs:57-60 | every property is registered under an index below 4 |
| CustomLensEffect.PropertyAt | Z_DepthofField/Z_DepthofFieldCustomLensEffect.cs:57-60 | an index names a property exactly when it is below 4, and the property named has that index (0 radius, 1 brightness, 2 edge strength, 3 quality) |
| CustomLensEffect.IndexRoundTrip | Z_DepthofField/Z_DepthofFieldCustomLensEffect.cs:15-18 | looking up a property's index gives back that property |
| CustomLensEffect.ConstantBuffer.Set | Z_DepthofField/Z_DepthofFieldCustomLensEffect.cs:57-60 | writing one property sets its field to the value and leaves the other three fields unchanged, as read back through the getters (`ConstantBuffer.Get`) |
| CustomLensEffect.PushesOnePerWrite | Z_DepthofField/Z_DepthofFieldCustomLensEffect.cs:57-60 | a run of writes pushes one snapshot per write (`Pushes`), and snapshot k is the whole buffer with the first k + 1 writes already applied (`ApplyWrites`) |
| CustomLensEffect.LastPushIsFinalBuffer | Z_DepthofField/Z_DepthofFieldCustomLensEffect.cs:57-60 | the last snapshot pushed is the buffer after all the writes |
| CustomLensEffect.Ceil | Z_DepthofField/Z_DepthofFieldCustomLensEffect.cs:35 | the result is the least integer not below the radius |
| CustomLensEffect.InflateCovers | Z_DepthofField/Z_DepthofFieldCustomLensEffect.cs:35-36 | growing a rectangle by a non-negative margin (`Inflate`, the arithmetic of lines 36 and 43) gives a rectangle that contains it |
| CustomLensEffect.InflateTwice | Z_DepthofField/Z_DepthofFieldCustomLensEffect.cs:35-43 | growing by a and then by b is growing by a + b |
| CustomLensEffect.MapsRoundTripCover | Z_DepthofField/Z_DepthofFieldCustomLensEffect.cs:33-44 | for a non-negative radius, input-from-output applied to output-from-input gives a rectangle containing the original |
| CustomLensEffect.ZeroRadiusIdentity | Z_DepthofField/Z_DepthofFieldCustomLensEffect.cs:35-43 | with radius 0 both maps return the rectangle unchanged |
| CustomLensEffect.RadiusExample | Z_DepthofField/Z_DepthofFieldCustomLensEffect.cs:35-36 | radius 12.4 maps (0, 0, 100, 100) to (-13, -13, 113, 113) |
| CustomLensEffect.LensEffectImpl.constructor | Z_DepthofField/Z_DepthofFieldCustomLensEffect.cs:26-29 | a new implementation has an all-zero buffer, no draw information and an empty push log |
| CustomLensEffect.LensEffectImpl.SetDrawInfo | Z_DepthofField/Z_DepthofFieldCustomLensEffect.cs:31 | after the runtime binds draw information, pushes reach the device |
| CustomLensEffect.LensEffectImpl.UpdateConstants | Z_DepthofField/Z_DepthofFieldCustomLensEffect.cs:31 | appends the whole current buffer to the push log when draw information is bound, and nothing otherwise |
| CustomLensEffect.LensEffectImpl.SetProperty | Z_DepthofField/Z_DepthofFieldCustomLensEffect.cs:57-60 | writes only the property's field, then pushes the already-updated buffer once (when draw information is bound) |
| CustomLensEffect.LensEffectImpl.MapInputRectsToOutputRect | Z_DepthofField/Z_DepthofFieldCustomLensEffect.cs:33-38 | the output is the first input rectangle grown by `ceil(radius)` on every side; the opaque sub-rectangle is the default rectangle |
| CustomLensEffect.LensEffectImpl.MapOutputRectToInputRects | Z_DepthofField/Z_DepthofFieldCustomLensEffect.cs:40-44 | slot 0 becomes the requested output grown by `ceil(radius)` on every side; every other slot is left as it was |
| CustomLensEffect.LensEffect.constructor | Z_DepthofField/Z_DepthofFieldCustomLensEffect.cs:20 | a new node has its output handle, no input, and a fresh implementation with an all-zero buffer and no pushes |
| CustomLensEffect.LensEffect.SetValue | Z_DepthofField/Z_DepthofFieldCustomLensEffect.cs:15-18 | a write to index i reaches the implementation property registered under i |
| CustomLensEffect.LensEffect.SetRadius | Z_DepthofField/Z_DepthofFieldCustomLensEffect.cs:15 | writes the radius field only, with one push |
| CustomLensEffect.LensEffect.SetBrightness | Z_DepthofField/Z_DepthofFieldCustomLensEffect.cs:16 | writes the brightness field only, with one push |
| CustomLensEffect.LensEffect.SetEdgeStrength | Z_DepthofField/Z_DepthofFieldCustomLensEffect.cs:17 | writes the edge-strength field only, with one push |
| CustomLensEffect.LensEffect.SetQuality | Z_DepthofField/Z_DepthofFieldCustomLensEffect.cs:18 | writes the quality field only, with one push |
| CustomLensEffect.LensEffect.SetInput | Z_DepthofField/Z_DepthofFieldEffectProcessor.cs:75 | binds the node's input to the image |

## Left out

- Distance evaluation (camera matrix inversion with the identity fallback, transforming the eye point, spherical or planar distance) is floating-point linear algebra; `Update` takes the distance as a non-negative real parameter.
- 32-bit floats are modelled as reals: no rounding, no NaN or infinity; the dead-zone constant `0.1f` is modelled as exactly 0.1.
- `(int)Math.Ceiling` and the rectangle edges are unbounded integers: an overflow of 32-bit edges is not modelled.
- Sampling the animations at a frame is done by the host; `Update` receives the sampled values as a `Sample`, so the frame, duration and frame rate in `EffectDescription` are carried but not used.
- Loading the shader binary from an assembly resource (and the empty-bytes fallback when it is missing) is resource I/O and is not modelled.
- The Gaussian primitive's optimization setting, its initial parameter values (taken as constructor parameters) and the runtime's `SetValue` plumbing behind its properties are library behaviour; the model writes the fields directly.
- `SetInput(0, image, true)` is modelled as binding the single input; the input index and the invalidation flag are runtime concerns.
- The lens node's fix-size flag is stored only: nothing in the lens node reads it.
- The processor does not keep a reference to the item: `Update` and `Output` receive the item's settings (`ItemSettings`) and the sampled values on every call instead of reading them through `_item`.
- `Dispose` and its ordering are resource management and are not modelled.
- The item's UI metadata (labels, sliders, export, animatable list) is not modelled; the declared animation ranges appear as the predicate `InRange`.
