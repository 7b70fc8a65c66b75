/** An optional value: the model of a TypeScript field or argument that may be `undefined`. */
module Optional {

  datatype Option<+T> = None | Some(value: T) {

    /** The value, or `default` when absent: the `??` operator. */
    function GetOr(default: T): T {
      match this
      case Some(v) => v
      case None => default
    }
  }

  /** `x ?? 0`, the fallback the calculators use for every optional rate and amount. */
  function Or0(x: Option<real>): real {
    x.GetOr(0.0)
  }
}
