/** The two result shapes shared by the modules. */
module Wrappers {
  datatype Option<+T> = None | Some(value: T)

  /** How an API call ends: it takes effect and says so, it is refused without effect, or it takes
      effect and the reply is lost. */
  datatype Net = Reliable | Refused | ReplyLost
}
