/** A field of the request payload that may be missing. */
module Optional {

  datatype Option<+T> = None | Some(value: T) {

    /** `data.get(key, default)`: the field's value, or the default when it is missing. */
    function GetOr(default: T): T
    {
      match this
      case Some(v) => v
      case None => default
    }
  }
}
