/** Scalar values as they travel through the WordPress option store and
    into the form-encoded telemetry body. */
module Values {

  /** The conventional Some/None datatype. */
  datatype Option<+T> = None | Some(value: T)

  /** A scalar the plugin reads from the option store or from a foreign
      call and places in the telemetry payload. `get_option` answers
      `false` for an option that was never written, hence `VBool`. */
  datatype Value = VStr(s: string) | VInt(i: int) | VBool(b: bool)

  /** What `get_option` yields for a stored timestamp: the integer when one
      was written, `false` otherwise. */
  function StoredTime(t: Option<int>): (v: Value)
    ensures t.None? <==> v == VBool(false)
    ensures t.Some? ==> v.VInt? && v.i == t.value
  {
    match t
    case None => VBool(false)
    case Some(x) => VInt(x)
  }
}
