/** An optional value: a JavaScript property or storage entry that may be absent. */
module Optional {

  datatype Option<T> = None | Some(value: T) {

    /** The value when present, otherwise the given default. */
    function GetOr(default: T): (r: T)
      ensures Some? ==> r == value
      ensures None? ==> r == default
    {
      match this
      case Some(v) => v
      case None => default
    }
  }
}
