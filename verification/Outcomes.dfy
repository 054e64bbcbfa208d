/** What an external call can do to its caller, and the two result types used throughout. */
module Outcomes {

  /** The fate of one call to the store, to NetBird or to the local daemon.
      Done:    it took effect and the caller is told so.
      Refused: it had no effect and the caller sees an error.
      Lost:    it took effect, but the caller sees an error (a timeout, a cancelled context). */
  datatype Fate = Done | Refused | Lost {
    predicate Applied() { !Refused? }
  }

  datatype Option<+T> = None | Some(value: T)

  function Bit(b: bool): nat { if b then 1 else 0 }
}
