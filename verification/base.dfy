/** Small shared vocabulary: optional values, the Python exceptions the core can
    raise, and the "both overrides, None keeps" rule used by every per-axis
    setter of the system. */
module Base {

  datatype Option<+T> = None | Some(value: T)

  /** The exceptions the modelled code can raise (they propagate uncaught). */
  datatype Error =
    | ValueError          // contradictory options, failed broadcasting
    | IndexError          // a 2-D error array with fewer than two rows
    | NameError           // an envelope side left unbound (error array neither 1-D nor 2-D)
    | AttributeError      // a colorbar link that has no set_mappable, or a gesture never started

  datatype Result<+T> = Ok(value: T) | Err(error: Error)

  /** The settings rule shared by `set_autoscale_on`, `set_zoom_response` and
      `set_pan_response`: a given `both` wins over the per-axis argument, and
      an argument that ends up None keeps the current setting. */
  function Override<T>(both: Option<T>, one: Option<T>, current: T): (r: T)
    ensures both.Some? ==> r == both.value
    ensures both.None? && one.Some? ==> r == one.value
    ensures both.None? && one.None? ==> r == current
  {
    match (both, one)
    case (Some(b), _) => b
    case (None, Some(v)) => v
    case (None, None) => current
  }

  /** The per-axis argument after `both` has overridden it. */
  function Effective<T>(both: Option<T>, one: Option<T>): (r: Option<T>)
    ensures both.Some? ==> r == both
    ensures both.None? ==> r == one
  {
    if both.Some? then both else one
  }
}
