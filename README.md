# MIDI hotkey remapper — a Dafny model

The system is a note-effect plugin that remaps MIDI notes. A hotkey table maps a
trigger note number to an ordered list of output notes. Each note has a number and a
velocity. The host calls `process` once per processing block. `process` reads
the block's events one at a time and handles each one as follows:

- A note-on or note-off whose note is a trigger is replaced by one queued event per
  output note, in table order. Each queued event keeps the trigger's timing, voice
  and channel. A note-on takes its velocity from the output note; a note-off always
  takes velocity 0.0.
- A note-on or note-off whose note is not a trigger is sent to the host at once,
  unchanged.
- Any other event is dropped.

Once the input is used up, the queue is sent to the host in FIFO order and is left
empty. The host therefore sees every forwarded event first, in input order, and then
every expansion, in input order. No queued event survives into the next block.

Modules:

- `Wrappers`, `MachineInts`: `Option`/`Result` and the `u8`/`u32`/`i32` types of the
  source, as bounded newtypes.
- `Hotkey` (`src/hotkey.rs`): the table types, the lookup, and the loader's typing
  step. `Load` turns a parsed configuration document into a table. It fails with a
  `ConfigError` when any key or output note does not fit in a `u8`, and then returns
  no partial table. A key that occurs twice keeps its last value. `Dump` writes a
  table back out as a document.
- `Host`: the plugin host's boundary. It holds the event type, the process status,
  and a process context whose `pending` input is read with `NextEvent` and whose
  `sent` output grows with `SendEvent`.
- `Queues`: the FIFO queue, which offers add, remove-front and size.
- `Remap` (`src/lib.rs`, pure part): what a block sends, as functions of the input
  events and the table (`TranslateEvent`, `Forwarded`, `Queued`, `BlockOutput`),
  with the lemmas about them.
- `Plugin` (`src/lib.rs`, imperative part): the `MidiHotkey` object with its
  `hotkeyMap` and `eventQueue` fields. `Process` runs both loops of the source and is
  proved to send exactly `Forwarded(...) + Flushed(queue + Queued(...))`.
  Starting from an empty queue, this is `BlockOutput`.

Two behaviours of the source worth noting:

- Events that are neither note-on nor note-off are dropped (`src/lib.rs:148`).
- Note numbers and trigger keys are `u8` values, 0–255 (`src/hotkey.rs:7`,
  `src/hotkey.rs:17`).

## Model

| member | source | states |
|---|---|---|
| `Hotkey.Lookup` | src/lib.rs:89-91 | the lookup hits exactly when the note is a key of the table, and then yields that key's one entry |
| `Hotkey.ConvertOutputs` | src/hotkey.rs:10-19 | an output list is accepted exactly when every note number is a byte; the typed list has the same length, notes and velocities in the same order; a rejection names the entry's key and an out-of-range note |
| `Hotkey.Load` | src/hotkey.rs:22-25 | a document yields a table exactly when every key and every output note is a byte; otherwise it yields an error and no table |
| `Hotkey.LastEntryWins` | src/hotkey.rs:7 | appending an entry for a key sets that key's outputs to the entry's notes, in order, and leaves every other key's entry as it was (the last duplicate wins) |
| `Hotkey.DumpOutputs` | src/hotkey.rs:27-29 | writing an output list keeps its length, order, note numbers and velocities |
| `Hotkey.LoadDump` | src/hotkey.rs:22-29 | writing a table out and loading the document back gives the same table |
| `Remap.Expansion` | src/lib.rs:94-103 | one queued event per output note, in the order of the list; each copies the trigger's kind, timing, voice id and channel and takes the output's note; velocity is the output's for a note-on and 0.0 for a note-off |
| `Remap.TranslateEvent` | src/lib.rs:80-149 | an event is dropped exactly when it is not a note-on or note-off; it is forwarded exactly when it is a note event whose note is not a key; otherwise it expands to one event per configured output, in order, copying timing, voice id and channel, with velocity 0.0 for a note-off whatever the input or configured velocity |
| `Remap.BlockOutputOrder` | src/lib.rs:79-171 | for input `a + b`, the host receives `a`'s forwarded events, then `b`'s, then `a`'s expansions, then `b`'s: forwarded events come first, and an earlier input's outputs precede a later input's |
| `Remap.ForwardedMembers` | src/lib.rs:105-145 | an event is sent at once exactly when it is an input note event whose note is not a key of the table |
| `Remap.BlockOutputLength` | src/lib.rs:89-171 | the number of events sent is one per unmapped note event plus the length of the output list for each mapped note event |
| `Remap.OnlyNoteEventsSent` | src/lib.rs:148 | every event the host receives is a note-on or a note-off |
| `Remap.OtherEventsIgnored` | src/lib.rs:148 | removing every non-note event from the input changes neither what is forwarded nor what is queued |
| `Remap.UnmappedBlockPassesThrough` | src/lib.rs:105-145 | when no note event of a block is a trigger, nothing is queued, and the host receives the block's note events unchanged and in order |
| `Remap.EmptyEntryAbsorbs` | src/lib.rs:94-103 | a note event whose trigger has an empty output list makes the block send nothing |
| `Remap.ExampleBlock` | src/lib.rs:79-171 | with 60 mapped to 62 and 64 at 0.8 and 61 unmapped, the input note-on 60 at time 0 and note-on 61 at time 5 send note-on 61 at time 5, then note-ons 62 and 64 at time 0 with velocity 0.8 |
| `Queues.Queue.constructor` | src/lib.rs:44 | a new queue is empty |
| `Queues.Queue.Add` | src/lib.rs:95-102 | adding appends the element at the back |
| `Queues.Queue.Remove` | src/lib.rs:154 | removing from a non-empty queue returns the front element and drops it; from an empty queue it is an error and changes nothing |
| `Queues.Queue.Size` | src/lib.rs:153 | the size is the number of queued elements |
| `Host.ProcessContext.NextEvent` | src/lib.rs:79 | yields the next unread input event and consumes it, or `None` once the input is exhausted |
| `Host.ProcessContext.SendEvent` | src/lib.rs:106-112 | appends the event to what the host has received |
| `Plugin.MidiHotkey.constructor` | src/lib.rs:39-47 | the plugin holds the given table and a fresh, empty queue |
| `Plugin.MidiHotkey.QueueExpansion` | src/lib.rs:127-136 | the queue grows by exactly the trigger's expansion, in output order |
| `Plugin.MidiHotkey.HandleEvent` | src/lib.rs:80-149 | an event whose translation is forward is sent at once; an event that expands has its expansion queued; otherwise nothing is sent or queued |
| `Plugin.MidiHotkey.ReadInput` | src/lib.rs:79-150 | consumes the whole input; the host receives exactly `Forwarded` of it, in input order, and the queue grows by exactly `Queued` of it |
| `Plugin.MidiHotkey.FlushQueue` | src/lib.rs:152-171 | the host receives every queued event in FIFO order, each converted with its kind and fields unchanged, and the queue ends empty |
| `Plugin.MidiHotkey.Process` | src/lib.rs:71-173 | returns `Normal`; consumes the whole input; leaves the queue empty and the table unchanged; sends the forwarded events, then the previous queue contents, then the block's expansions. From an empty queue, it sends exactly `BlockOutput`, so no event carries over between blocks |

## Left out

- JSON text: parsing and printing the configuration (`from_json`, `to_json`) are done
  by serde_json and are not modelled. `Load` and `Dump` work on the parsed document
  (`RawEntry` lists). The only schema errors modelled are keys and notes outside the
  `u8` range. Missing fields and values of the wrong JSON type are not modelled.
- Hotkey.Load: the source panics on a malformed document. The model returns
  `Err(ConfigError)` instead, and the caller decides what to do.
- Hotkey.Dump: the source writes keys in hash-map iteration order. The model writes
  them in ascending order. Keys are unique, so the order does not change the table
  that is loaded back from the document.
- Velocity is an `f32` in the source and a `real` here. `process` only copies it or
  sets it to 0.0. Rounding of configured values to `f32` is not modelled.
- Hotkey.LoadDump: this is a round trip on the parsed document only. It does not
  cover non-finite velocities. A configured velocity too large for an `f32` becomes
  infinity, is written out as `null`, and is then rejected when loaded again.
- Reading the configuration file from disk (`src/util.rs`) is I/O, so
  `Plugin.MidiHotkey.constructor` takes the already-loaded table.
- Plugin metadata, parameters, the CLAP/VST3 exports, audio buffers and the
  `params` accessor belong to the host layer, so they are not modelled.
- Host event kinds other than note-on and note-off are modelled as one opaque
  `Other` variant. The source only ever drops them.
- The `queues` crate's internals are not modelled; the queue is a sequence.
  `add` returns a `Result` that the source ignores, so `Add` returns nothing.
- The source's `process` is one function body. The model splits it into
  `ReadInput` (the read loop, lines 79-150), `HandleEvent` (one iteration of that
  loop), `QueueExpansion` (the two inner `for` loops, lines 94-103 and 127-136) and
  `FlushQueue` (lines 152-171). Their statements are the source's.
