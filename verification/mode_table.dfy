/**
 * The fixed table that maps a MIDI note code (the second byte of a note
 * event) to one of the plugin's nine modes.
 */
module ModeTable {
  import opened Wrappers

  /** An unsigned 8-bit value (Rust `u8`). */
  type byte = x: int | 0 <= x < 256

  /** The three data bytes of a MIDI event (Rust `[u8; 3]`). */
  type Payload = s: seq<byte> | |s| == 3 witness [0, 0, 0]

  /** The codes that select a mode, in mode order: `Codes[m]` selects mode `m`. */
  const Codes: seq<byte> := [69, 71, 72, 74, 76, 77, 79, 81, 83]

  /** The number of modes; every mode the table produces lies below it. */
  const ModeCount: nat := 9

  /** The mode a code selects, or `None` for a code outside the table. */
  function ModeFor(code: byte): (r: Option<byte>)
    ensures r.Some? <==> code in Codes
    ensures r.Some? ==> r.value < ModeCount == |Codes| && Codes[r.value] == code
  {
    match code
    case 69 => Some(0)
    case 71 => Some(1)
    case 72 => Some(2)
    case 74 => Some(3)
    case 76 => Some(4)
    case 77 => Some(5)
    case 79 => Some(6)
    case 81 => Some(7)
    case 83 => Some(8)
    case _ => None
  }

  /** Each of the nine codes selects exactly its own mode. */
  lemma ModeForCode(m: nat)
    requires m < |Codes|
    ensures ModeFor(Codes[m]) == Some(m)
  {
  }

  /** Different codes never select the same mode. */
  lemma ModeForInjective(a: byte, b: byte)
    requires ModeFor(a).Some? && ModeFor(a) == ModeFor(b)
    ensures a == b
  {
  }
}
