/** The job-file command bar: the closed set of file actions and the history picker's filter. */
module FileCommand {
  import opened Wrappers

  /** The actions the bar can emit. */
  datatype FileCommandAction = Load | Reload | Clear | SelectPrevious

  /**
   * `onPreviousSelect`: the path to emit for the picked history value, at
   * most one per change; the empty placeholder emits nothing.
   */
  function OnPreviousSelect(value: string): (emitted: Option<string>)
    ensures emitted.Some? <==> value != ""
    ensures emitted.Some? ==> emitted.value == value
  {
    if value != "" then Some(value) else None
  }
}
