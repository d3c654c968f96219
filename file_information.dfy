/** The job-file information card: its bounds record and its size/info view toggle. */
module FileInformation {

  /** The two faces of the card. */
  datatype FileInfoView = Size | Info

  /** The view a card starts in. */
  const DefaultView: FileInfoView := Size

  /** Extent of the job along one axis. */
  datatype AxisBounds = AxisBounds(size: real, min: real, max: real)

  /** Extent of the job along X, Y and Z. */
  datatype FileBounds = FileBounds(x: AxisBounds, y: AxisBounds, z: AxisBounds)

  /**
   * `toggleView`: the view to emit, the other one. The card only emits it; the
   * owner of the view decides whether to apply it.
   */
  function ToggleView(current: FileInfoView): (next: FileInfoView)
    ensures next != current
  {
    if current == Size then Info else Size
  }

  /** Toggling is an involution: applying the emitted view and toggling again returns the original. */
  lemma ToggleInvolution(v: FileInfoView)
    ensures ToggleView(ToggleView(v)) == v
  {
  }
}
