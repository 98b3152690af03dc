/**
 * The rules by which incoming events change the mode: one MIDI payload at
 * a time, and a whole batch folded in order.
 */
module EventRouter {
  import opened Wrappers
  import opened ModeTable

  /** An event the host delivers; only MIDI events carry a payload the plugin reads. */
  datatype Event = Midi(data: Payload) | SysEx(payload: seq<byte>) | Deprecated

  /** The mode after one MIDI payload: its `data[1]` looked up in the table, the old mode if absent. */
  function MidiStep(mode: byte, data: Payload): (m: byte)
    ensures data[1] in Codes ==> m < |Codes| && Codes[m] == data[1]
    ensures data[1] !in Codes ==> m == mode
  {
    match ModeFor(data[1])
    case Some(v) => v
    case None => mode
  }

  /** The mode after one event of any kind. */
  function EventStep(mode: byte, e: Event): byte
  {
    match e
    case Midi(data) => MidiStep(mode, data)
    case _ => mode
  }

  /** Whether an event sets the mode: a MIDI event whose code is in the table. */
  predicate Selects(e: Event)
  {
    e.Midi? && e.data[1] in Codes
  }

  /** The mode after a batch of events, processed first to last. */
  function FoldMode(mode: byte, events: seq<Event>): byte
    decreases |events|
  {
    if events == [] then mode
    else EventStep(FoldMode(mode, events[..|events| - 1]), events[|events| - 1])
  }

  /** The MIDI events of a batch, in their order. */
  function MidiOnly(events: seq<Event>): (r: seq<Event>)
    ensures forall i :: 0 <= i < |r| ==> r[i].Midi?
    ensures |r| <= |events|
    decreases |events|
  {
    if events == [] then []
    else if events[|events| - 1].Midi? then MidiOnly(events[..|events| - 1]) + [events[|events| - 1]]
    else MidiOnly(events[..|events| - 1])
  }

  /** Only the code byte of a payload matters; the other two bytes cannot affect the mode. */
  lemma MidiStepReadsCodeOnly(mode: byte, d: Payload, d': Payload)
    requires d[1] == d'[1]
    ensures MidiStep(mode, d) == MidiStep(mode, d')
  {
  }

  /** Applying the same payload twice gives the mode applying it once gives. */
  lemma MidiStepIdempotent(mode: byte, d: Payload)
    ensures MidiStep(MidiStep(mode, d), d) == MidiStep(mode, d)
  {
  }

  /** A batch split in two is the second part processed after the first. */
  lemma {:induction false} FoldModeAppend(mode: byte, a: seq<Event>, b: seq<Event>)
    ensures FoldMode(mode, a + b) == FoldMode(FoldMode(mode, a), b)
    decreases |b|
  {
    if b == [] {
      assert a + b == a;
    } else {
      var b' := b[..|b| - 1];
      assert (a + b)[..|a + b| - 1] == a + b';
      assert (a + b)[|a + b| - 1] == b[|b| - 1];
      FoldModeAppend(mode, a, b');
    }
  }

  /** A batch in which no event selects a mode leaves the mode as it was. */
  lemma {:induction false} FoldModeNoSelection(mode: byte, events: seq<Event>)
    requires forall j :: 0 <= j < |events| ==> !Selects(events[j])
    ensures FoldMode(mode, events) == mode
    decreases |events|
  {
    if events != [] {
      var init := events[..|events| - 1];
      assert forall j :: 0 <= j < |init| ==> init[j] == events[j];
      FoldModeNoSelection(mode, init);
    }
  }

  /**
   * After a batch, the mode is the one selected by the last event that
   * selects a mode, whatever came before it.
   */
  lemma {:induction false} FoldModeLastSelection(mode: byte, events: seq<Event>, i: nat)
    requires i < |events| && Selects(events[i])
    requires forall j :: i < j < |events| ==> !Selects(events[j])
    ensures ModeFor(events[i].data[1]).Some?
    ensures FoldMode(mode, events) == ModeFor(events[i].data[1]).value
  {
    var head, tail := events[..i + 1], events[i + 1..];
    assert events == head + tail;
    FoldModeAppend(mode, head, tail);
    assert head[..|head| - 1] == events[..i];
    var before := FoldMode(mode, events[..i]);
    assert FoldMode(mode, head) == MidiStep(before, events[i].data);
    assert forall j :: 0 <= j < |tail| ==> tail[j] == events[i + 1 + j];
    FoldModeNoSelection(FoldMode(mode, head), tail);
    var v := ModeFor(events[i].data[1]).value;
    ModeForCode(v);
  }

  /** Events other than MIDI have no effect: dropping them gives the same mode. */
  lemma {:induction false} FoldModeIgnoresNonMidi(mode: byte, events: seq<Event>)
    ensures FoldMode(mode, MidiOnly(events)) == FoldMode(mode, events)
    decreases |events|
  {
    if events != [] {
      var init, last := events[..|events| - 1], events[|events| - 1];
      FoldModeIgnoresNonMidi(mode, init);
      if last.Midi? {
        var r := MidiOnly(init) + [last];
        assert r[..|r| - 1] == MidiOnly(init);
      }
    }
  }

  /** A mode the table can produce stays one after any batch. */
  lemma {:induction false} FoldModeInRange(mode: byte, events: seq<Event>)
    requires mode < ModeCount
    ensures FoldMode(mode, events) < ModeCount
    decreases |events|
  {
    if events != [] {
      FoldModeInRange(mode, events[..|events| - 1]);
    }
  }

  /** Processing the same batch a second time does not change the mode again. */
  lemma {:induction false} FoldModeIdempotent(mode: byte, events: seq<Event>)
    ensures FoldMode(FoldMode(mode, events), events) == FoldMode(mode, events)
  {
    var after := FoldMode(mode, events);
    if i :| 0 <= i < |events| && Selects(events[i]) {
      var k := LastSelecting(events, i);
      FoldModeLastSelection(mode, events, k);
      FoldModeLastSelection(after, events, k);
    } else {
      FoldModeNoSelection(after, events);
    }
  }

  /** The position of the last selecting event at or after `i`. */
  lemma {:induction false} LastSelecting(events: seq<Event>, i: nat) returns (k: nat)
    requires i < |events| && Selects(events[i])
    ensures i <= k < |events| && Selects(events[k])
    ensures forall j :: k < j < |events| ==> !Selects(events[j])
    decreases |events| - i
  {
    if j :| i < j < |events| && Selects(events[j]) {
      k := LastSelecting(events, j);
    } else {
      k := i;
    }
  }
}
