/** The Option datatype shared by the other modules. */
module Wrappers {

  /** A value that may be absent: a missing header, an unset `req.user`,
      a token the verifier rejects. */
  datatype Option<+T> = None | Some(value: T)
}
