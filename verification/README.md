# FL-Chen state core in Dafny

FL-Chen is a VST instrument plugin whose control surface is a web page. The plugin keeps one
small record, `FLChen { mode, time }`, shared between two paths:

- the host's real-time calls, which write to it: each MIDI note event may select one of nine
  modes, and each audio cycle stores the host's musical position (in quarter notes);
- the control surface's text callback, which reads it: the command `getMode` is answered with
  the mode in decimal, `getTime` with the position's text, anything else with the empty string.

The plugin also answers the host's capability query: it receives MIDI events, and it is
unsure about everything else.

Layout, one module per component:

- `wrappers.dfy` (`Wrappers`): the `Option` type.
- `mode_table.dfy` (`ModeTable`): the nine-entry table from note code to mode (`Codes`, `ModeFor`).
- `shared_state.dfy` (`SharedState`): the `FLChen` record as a class with its initial value.
- `event_router.dfy` (`EventRouter`): host events, plus the specification functions `MidiStep`
  (one payload) and `FoldMode` (a batch, in order), and the lemmas about batches.
- `query_bridge.dfy` (`QueryBridge`): whitespace tokenising as Rust's `split_whitespace` does,
  decimal text, the reply function `Respond`, and the callback object `JavascriptCallback`.
- `plugin.dfy` (`Plugin`): the plugin object `VstFLChen` and its methods `ProcessMidiEvent`,
  `ProcessEvents` and `Process`; `CanDo`; and a `Session` method. `Session` wires a plugin and a
  callback to one record: note 72, then position 3.5, then `getMode` is answered `"2"`,
  `getTime` with the position's text, and `getVolume` with `""`.

The plugin and the callback hold the same `FLChen` object (a `const` field in each), as the source
shares one `Arc<Mutex<FLChen>>`. The host's position is a parameter of `Process` and not a call
to the host. The position is a `real`, because the model only stores and reads it.

## Model

| member | source | states |
|---|---|---|
| `ModeTable.ModeFor` | src/lib.rs:94-104 | a code gets a mode exactly when it is one of 69, 71, 72, 74, 76, 77, 79, 81, 83; the mode is below 9 and is that code's position in the table |
| `ModeTable.ModeForCode` | src/lib.rs:95-103 | each of the nine codes selects its own mode: 69→0, 71→1, … 83→8 |
| `ModeTable.ModeForInjective` | src/lib.rs:95-103 | two codes that select the same mode are the same code |
| `SharedState.FLChen.constructor` | src/lib.rs:112-117 | the record starts with mode 0 and position 0 |
| `EventRouter.MidiStep` | src/lib.rs:92-106 | a known code in `data[1]` sets the mode that the table gives it; any other code leaves the mode unchanged |
| `EventRouter.MidiStepReadsCodeOnly` | src/lib.rs:94 | two payloads with the same `data[1]` give the same mode: `data[0]` and `data[2]` are never read |
| `EventRouter.MidiStepIdempotent` | src/lib.rs:94-105 | applying the same payload twice gives the same mode as applying it once |
| `EventRouter.FoldModeAppend` | src/lib.rs:139-146 | processing a batch `a + b` is processing `a` and then `b` |
| `EventRouter.FoldModeNoSelection` | src/lib.rs:139-146 | a batch with no MIDI event carrying a known code leaves the mode as it was |
| `EventRouter.FoldModeLastSelection` | src/lib.rs:139-146 | after a batch, the mode is the one selected by the last MIDI event with a known code, whatever the starting mode |
| `EventRouter.FoldModeIgnoresNonMidi` | src/lib.rs:140-144 | dropping the non-MIDI events from a batch does not change the resulting mode |
| `EventRouter.FoldModeInRange` | src/lib.rs:139-146 | a mode in 0..8 stays in 0..8 after any batch |
| `EventRouter.FoldModeIdempotent` | src/lib.rs:139-146 | processing the same batch twice gives the same mode as processing it once |
| `QueryBridge.Word` | src/lib.rs:62 | the result is the longest whitespace-free prefix of the input |
| `QueryBridge.FirstToken` | src/lib.rs:62-64 | there is no token exactly when the line is empty or all whitespace; a token is non-empty and holds no whitespace |
| `QueryBridge.FirstTokenOf` | src/lib.rs:62-64 | for any leading whitespace and any trailing text that is empty or starts with whitespace, the first token is the word between them |
| `QueryBridge.WordOf` | src/lib.rs:62 | a whitespace-free word followed by nothing or by whitespace is read whole |
| `QueryBridge.DecimalText` | src/lib.rs:71 | the text is non-empty, all decimal digits, with no leading zero |
| `QueryBridge.DecimalRoundTrip` | src/lib.rs:71 | the decimal text reads back as the number it was made from |
| `QueryBridge.ModeTextOneDigit` | src/lib.rs:70-71 | a mode in 0..8 is written as a single digit that denotes it |
| `QueryBridge.Respond` | src/lib.rs:64-80 | `getMode` as first token gives the mode's decimal text, `getTime` the position's text; any other first token, or none, gives `""` |
| `QueryBridge.RespondGetMode` | src/lib.rs:62-72 | a line whose first word is `getMode` is answered with the mode's decimal text, which reads back as the mode, whatever words follow |
| `QueryBridge.RespondGetTime` | src/lib.rs:62-76 | a line whose first word is `getTime` is answered with the position's text, whatever words follow |
| `QueryBridge.RespondOther` | src/lib.rs:77-80 | a line whose first word is neither `getMode` nor `getTime` is answered with `""`, whatever follows |
| `QueryBridge.RespondBlank` | src/lib.rs:64 | an empty or all-whitespace line is answered with `""` |
| `QueryBridge.JavascriptCallback.constructor` | src/lib.rs:59-61 | the callback holds the given shared record |
| `QueryBridge.JavascriptCallback.Call` | src/lib.rs:61-81 | the reply is `Respond` of the line and the record's current mode and position; with a valid mode, `getMode` gets one character |
| `Plugin.CanDo` | src/lib.rs:166-171 | the answer is `Yes` exactly for `ReceiveMidiEvent`, and never `No` |
| `Plugin.VstFLChen.constructor` | src/lib.rs:111-124 | a new plugin owns a fresh record with mode 0 and position 0 |
| `Plugin.VstFLChen.ProcessMidiEvent` | src/lib.rs:92-106 | the new mode is `MidiStep` of the old mode and the payload; the position is unchanged; the mode stays in 0..8 |
| `Plugin.VstFLChen.ProcessEvents` | src/lib.rs:139-146 | the new mode is `FoldMode` of the old mode and the batch, in order; the position is unchanged; the mode stays in 0..8 |
| `Plugin.VstFLChen.Process` | src/lib.rs:148-152 | the position becomes the host's position and the mode is unchanged (the last write wins) |

## Left out

- The mutex around the record (`lock().unwrap()` and lock poisoning, src/lib.rs:66, 93, 149): the model has one sequential owner, so it does not capture interleavings between the two paths.
- The host time query `get_time_info(...).unwrap()` (src/lib.rs:150): it is a foreign call that can panic. `Process` takes the host's `ppq_pos` as a parameter instead, and the panic when the host has no time info is not modelled.
- Rust's `f64` display formatting for `getTime` (src/lib.rs:75): it is library-defined floating-point formatting. The callback takes it as a function `showTime`, and positions are `real`s, not 64-bit floats.
- `get_html`, `inline_script` and `inline_style` (src/lib.rs:16-51): they are string templates over the `style.css` and `bundle.js` assets, and those assets are not part of this model.
- `get_info`, `set_sample_rate` and the unused `sample_rate` field, `get_editor` and `plugin_main!` (src/lib.rs:126-137, 154-164, 174): static metadata, host ABI plumbing and calls into the GUI library.
- The fields of a MIDI event other than its three data bytes (delta frames, note length and so on): the source's pattern ignores them.
- `Plugin.Session` checks `getVolume` without trailing words. Trailing words are covered for every line by `QueryBridge.RespondOther`.
