/** Result types shared by every module. */
module Options {

  /** A nullable column, an optional argument, or a lookup that may find no row. */
  datatype Option<+T> = None | Some(value: T) {
    function GetOr(default: T): T { if Some? then value else default }
  }

  /** A value, or the exception the program raises instead. */
  datatype Result<+T, +E> = Ok(value: T) | Err(error: E)
}
