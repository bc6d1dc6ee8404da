/** Value types that the depth-of-field nodes exchange with the Direct2D
    effect-graph runtime: optional values, image handles, integer
    rectangles and the Gaussian primitive's border mode. */
module Graphics {

  datatype Option<T> = None | Some(value: T)

  /** An opaque handle to an image resource owned by the runtime. */
  datatype Image = Image(id: nat)

  /** An integer rectangle given by its four edges (Vortice `RawRect`). */
  datatype RawRect = RawRect(left: int, top: int, right: int, bottom: int)

  /** What C# yields for `default(RawRect)`: every edge zero. */
  const DefaultRect := RawRect(0, 0, 0, 0)

  /** `outer` covers `inner`: each edge of `outer` lies on or beyond the
      corresponding edge of `inner`. */
  predicate Contains(outer: RawRect, inner: RawRect)
  {
    outer.left <= inner.left && outer.top <= inner.top &&
    inner.right <= outer.right && inner.bottom <= outer.bottom
  }

  /** Border handling of the runtime's Gaussian blur primitive. */
  datatype BorderMode = Soft | Hard
}
