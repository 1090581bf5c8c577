/** The two result shapes shared by every module. */
module Options {

  datatype Option<+T> = None | Some(value: T) {
    function GetOr(fallback: T): T {
      if Some? then value else fallback
    }
  }

  /** A refused call: the source throws, and the model says that nothing was written. */
  datatype Result<+T> = Ok(value: T) | Refused
}
