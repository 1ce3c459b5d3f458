/** The two modes in which the hardware service can run. */
module Modes {
  datatype Scope = User | System

  function Other(s: Scope): Scope {
    if s.User? then System else User
  }
}
