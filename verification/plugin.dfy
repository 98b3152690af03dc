/**
 * The plugin object the host drives: it routes MIDI events and the host's
 * position into the shared record, and answers the host's capability query.
 */
module Plugin {
  import opened Wrappers
  import opened ModeTable
  import opened SharedState
  import opened EventRouter
  import opened QueryBridge

  /** The capabilities a host may ask a plugin about. */
  datatype Capability =
    | SendEvents | SendMidiEvent | ReceiveEvents | ReceiveMidiEvent | ReceiveTimeInfo
    | Offline | MidiProgramNames | Bypass | ReceiveSysExEvent
    | MidiSingleNoteTuningChange | MidiKeyBasedInstrumentControl | Other(name: string)

  /** A plugin's answer to a capability query. */
  datatype Supported = Yes | Maybe | No

  /** The plugin says it receives MIDI events and is unsure about everything else. */
  function CanDo(query: Capability): (r: Supported)
    ensures r == Yes <==> query == ReceiveMidiEvent
    ensures r != No
  {
    match query
    case ReceiveMidiEvent => Yes
    case _ => Maybe
  }

  class VstFLChen {
    /** The record shared with the control surface's callback. */
    const flChen: FLChen

    ghost predicate Valid()
      reads this, flChen
    {
      flChen.Valid()
    }

    /** A fresh plugin: the shared record starts at mode 0, position 0. */
    constructor ()
      ensures fresh(flChen)
      ensures flChen.mode == 0 && flChen.time == 0.0
      ensures Valid()
    {
      flChen := new FLChen();
    }

    /** Sets the mode from the payload's code byte when the table knows it; the position is kept. */
    method ProcessMidiEvent(data: Payload)
      requires Valid()
      modifies flChen
      ensures Valid()
      ensures flChen.mode == MidiStep(old(flChen.mode), data)
      ensures flChen.time == old(flChen.time)
    {
      match data[1]
      case 69 => flChen.mode := 0;
      case 71 => flChen.mode := 1;
      case 72 => flChen.mode := 2;
      case 74 => flChen.mode := 3;
      case 76 => flChen.mode := 4;
      case 77 => flChen.mode := 5;
      case 79 => flChen.mode := 6;
      case 81 => flChen.mode := 7;
      case 83 => flChen.mode := 8;
      case _ =>
    }

    /** Feeds each MIDI event of the batch, in order, to `ProcessMidiEvent`; skips the others. */
    method ProcessEvents(events: seq<Event>)
      requires Valid()
      modifies flChen
      ensures Valid()
      ensures flChen.mode == FoldMode(old(flChen.mode), events)
      ensures flChen.time == old(flChen.time)
    {
      for i := 0 to |events|
        invariant Valid()
        invariant flChen.mode == FoldMode(old(flChen.mode), events[..i])
        invariant flChen.time == old(flChen.time)
      {
        assert events[..i + 1][..i] == events[..i];
        match events[i]
        case Midi(data) => ProcessMidiEvent(data);
        case _ =>
      }
      assert events[..|events|] == events;
    }

    /** Stores the host's position (quarter notes) for this cycle; the mode is kept. */
    method Process(ppqPos: real)
      modifies flChen
      ensures flChen.time == ppqPos
      ensures flChen.mode == old(flChen.mode)
    {
      flChen.time := ppqPos;
    }
  }

  /**
   * A session: a plugin and its control-surface callback share one record.
   * Note 72 selects mode 2, the host reports position 3.5, and the callback
   * then answers "2" to `getMode`, the position's text to `getTime`, and
   * nothing to the unknown command `getVolume`.
   */
  method Session(showTime: real -> string)
  {
    var plugin := new VstFLChen();
    var callback := new JavascriptCallback(plugin.flChen, showTime);
    var batch := [Midi([144, 72, 100]), Deprecated];
    plugin.ProcessEvents(batch);
    assert plugin.flChen.mode == 2 by {
      FoldModeLastSelection(0, batch, 0);
      ModeForCode(2);
    }
    plugin.Process(3.5);
    var reply := callback.Call("getMode");
    assert "" + "getMode" + "" == "getMode";
    RespondGetMode("", "", 2, 3.5, showTime);
    assert reply == DecimalText(2) == "2";
    reply := callback.Call("getTime");
    assert "" + "getTime" + "" == "getTime";
    RespondGetTime("", "", 2, 3.5, showTime);
    assert reply == showTime(3.5);
    reply := callback.Call("getVolume");
    assert "" + "getVolume" + "" == "getVolume";
    RespondOther("", "getVolume", "", 2, 3.5, showTime);
    assert reply == "";
  }
}
