/**
 * The record shared between the event path and the query path: the
 * selected mode and the host's musical position.
 */
module SharedState {
  import opened ModeTable

  /**
   * The shared record. The source wraps it in a mutex; this model has a
   * single sequential owner, so the fields are plain fields.
   */
  class FLChen {
    var mode: byte
    /** The host's position in quarter notes (an `f64` in the source; only stored and read). */
    var time: real

    /** The mode is one the table can produce (the initial 0 included). */
    ghost predicate Valid()
      reads this
    {
      mode < ModeCount
    }

    /** The initial record: mode 0, position 0. */
    constructor ()
      ensures mode == 0 && time == 0.0
      ensures Valid()
    {
      mode := 0;
      time := 0.0;
    }
  }
}
