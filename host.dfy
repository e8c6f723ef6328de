/**
 * The boundary the plugin host provides to `process`: the events of one
 * block, handed out one at a time, and a sink that accepts events in the
 * order they are sent.  Everything else the host does (audio buffers,
 * parameters, plugin registration) is outside this model.
 */
module Host {
  import opened Wrappers
  import opened MachineInts

  /**
   * A host event.  `NoteOn` and `NoteOff` carry the fields the remapper
   * reads and writes; every other kind of event the host can deliver
   * (pressure, controllers, pitch bend, ...) is `Other`, with its payload
   * left opaque.
   */
  datatype NoteEvent =
    | NoteOn(timing: uint32, voiceId: Option<int32>, channel: uint8, note: uint8, velocity: real)
    | NoteOff(timing: uint32, voiceId: Option<int32>, channel: uint8, note: uint8, velocity: real)
    | Other(timing: uint32, payload: int)

  /** What `process` reports to the host at the end of a block. */
  datatype ProcessStatus = Error(message: string) | Normal | Tail(samples: uint32) | KeepAlive

  /** The per-block process context: unread input events and the events sent so far. */
  class ProcessContext {
    var pending: seq<NoteEvent>
    var sent: seq<NoteEvent>

    constructor (input: seq<NoteEvent>)
      ensures pending == input && sent == []
    {
      pending := input;
      sent := [];
    }

    /** Hands out the next input event of the block, or `None` once all are read. */
    method NextEvent() returns (r: Option<NoteEvent>)
      modifies this
      ensures old(pending) == [] ==> r == None && pending == []
      ensures old(pending) != [] ==> r == Some(old(pending)[0]) && pending == old(pending)[1..]
      ensures sent == old(sent)
    {
      if pending == [] {
        r := None;
      } else {
        r := Some(pending[0]);
        pending := pending[1..];
      }
    }

    /** Passes one event on to the host; the sink accepts every event. */
    method SendEvent(e: NoteEvent)
      modifies this
      ensures sent == old(sent) + [e]
      ensures pending == old(pending)
    {
      sent := sent + [e];
    }
  }
}
