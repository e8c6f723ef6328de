/**
 * The plugin object: the hotkey table it was built with and the queue it
 * defers expanded events in.  `Process` runs once per processing block.
 */
module Plugin {
  import opened Wrappers
  import opened MachineInts
  import opened Hotkey
  import opened Remap
  import opened Queues
  import Host

  class MidiHotkey {
    var hotkeyMap: HotkeyMap
    var eventQueue: Queue<MidiNoteEvent>

    /** A plugin with the given (already loaded) table and an empty queue. */
    constructor (table: HotkeyMap)
      ensures hotkeyMap == table
      ensures fresh(eventQueue) && eventQueue.items == []
    {
      hotkeyMap := table;
      eventQueue := new Queue();
    }

    /**
     * Queues one event per output note, in order, for a note event whose
     * note is a trigger.
     */
    method QueueExpansion(kind: MidiEventType, timing: uint32, voiceId: Option<int32>, channel: uint8,
                          outputs: seq<Note>)
      modifies eventQueue
      ensures eventQueue.items == old(eventQueue.items) + Expansion(kind, timing, voiceId, channel, outputs)
    {
      var i := 0;
      while i < |outputs|
        invariant 0 <= i <= |outputs|
        invariant eventQueue.items + Expansion(kind, timing, voiceId, channel, outputs[i..]) ==
          old(eventQueue.items) + Expansion(kind, timing, voiceId, channel, outputs)
      {
        var out := outputs[i];
        var velocity := if kind == NoteOn then out.velocity else 0.0;
        var event := MidiNoteEvent(kind, timing, voiceId, channel, out.note, velocity);
        ghost var items := eventQueue.items;
        ExpansionFirst(kind, timing, voiceId, channel, outputs[i..]);
        assert outputs[i..][1..] == outputs[i + 1..];
        eventQueue.Add(event);
        AppendAssoc(items, [event], Expansion(kind, timing, voiceId, channel, outputs[i + 1..]));
        i := i + 1;
      }
    }

    /**
     * Handles one input event: an unmapped note event is sent at once, a
     * mapped one has its expansion queued, any other event is dropped.
     */
    method HandleEvent(context: Host.ProcessContext, event: Host.NoteEvent)
      modifies eventQueue, context
      ensures context.pending == old(context.pending)
      ensures context.sent == old(context.sent) + SentNow(hotkeyMap, event)
      ensures eventQueue.items == old(eventQueue.items) + Deferred(hotkeyMap, event)
    {
      match event {
        case NoteOn(timing, voiceId, channel, note, velocity) =>
          var hk := Lookup(hotkeyMap, note);
          match hk {
            case Some(entry) =>
              QueueExpansion(NoteOn, timing, voiceId, channel, entry.outputs);
            case None =>
              context.SendEvent(Host.NoteOn(timing, voiceId, channel, note, velocity));
          }
        case NoteOff(timing, voiceId, channel, note, velocity) =>
          var hk := Lookup(hotkeyMap, note);
          match hk {
            case Some(entry) =>
              QueueExpansion(NoteOff, timing, voiceId, channel, entry.outputs);
            case None =>
              context.SendEvent(Host.NoteOff(timing, voiceId, channel, note, velocity));
          }
        case Other(_, _) =>
      }
    }

    /** Sends every queued event to the host, oldest first, leaving the queue empty. */
    method FlushQueue(context: Host.ProcessContext)
      modifies eventQueue, context
      ensures context.pending == old(context.pending)
      ensures context.sent == old(context.sent) + Flushed(old(eventQueue.items))
      ensures eventQueue.items == []
    {
      var size := eventQueue.Size();
      while size > 0
        invariant size == |eventQueue.items|
        invariant context.pending == old(context.pending)
        invariant context.sent + Flushed(eventQueue.items) == old(context.sent) + Flushed(old(eventQueue.items))
        decreases size
      {
        ghost var sent, items := context.sent, eventQueue.items;
        var r := eventQueue.Remove();
        var event := r.value;
        assert items == [event] + eventQueue.items;
        FlushedFirst(event, eventQueue.items);
        match event.eventType {
          case NoteOn =>
            context.SendEvent(Host.NoteOn(event.timing, event.voiceId, event.channel, event.note, event.velocity));
          case NoteOff =>
            context.SendEvent(Host.NoteOff(event.timing, event.voiceId, event.channel, event.note, event.velocity));
        }
        AppendAssoc(sent, [ToNoteEvent(event)], Flushed(eventQueue.items));
        size := eventQueue.Size();
      }
    }

    /**
     * The first phase of a block: reads every input event, forwarding
     * unmapped note events at once and queueing the expansions of mapped ones.
     */
    method ReadInput(context: Host.ProcessContext)
      modifies eventQueue, context
      ensures context.pending == []
      ensures context.sent == old(context.sent) + Forwarded(hotkeyMap, old(context.pending))
      ensures eventQueue.items == old(eventQueue.items) + Queued(hotkeyMap, old(context.pending))
    {
      while true
        invariant context.sent + Forwarded(hotkeyMap, context.pending) ==
          old(context.sent) + Forwarded(hotkeyMap, old(context.pending))
        invariant eventQueue.items + Queued(hotkeyMap, context.pending) ==
          old(eventQueue.items) + Queued(hotkeyMap, old(context.pending))
        decreases |context.pending|
      {
        ghost var pending := context.pending;
        var next := context.NextEvent();
        if next.None? {
          break;
        }
        var event := next.value;
        ghost var rest := context.pending;
        ghost var items, sent := eventQueue.items, context.sent;
        assert pending == [event] + rest;
        ReadFirst(hotkeyMap, event, rest);
        HandleEvent(context, event);
        AppendAssoc(items, Deferred(hotkeyMap, event), Queued(hotkeyMap, rest));
        AppendAssoc(sent, SentNow(hotkeyMap, event), Forwarded(hotkeyMap, rest));
      }
    }

    /**
     * One processing block: read every input event, forwarding unmapped note
     * events at once and queueing the expansions of mapped ones; then send
     * the queue's contents in FIFO order, leaving it empty.
     */
    method Process(context: Host.ProcessContext) returns (status: Host.ProcessStatus)
      modifies eventQueue, context
      ensures status == Host.Normal
      ensures hotkeyMap == old(hotkeyMap) && eventQueue == old(eventQueue)
      ensures context.pending == []
      ensures eventQueue.items == []
      ensures context.sent == old(context.sent) + Forwarded(hotkeyMap, old(context.pending))
                              + Flushed(old(eventQueue.items) + Queued(hotkeyMap, old(context.pending)))
      ensures old(eventQueue.items) == [] ==>
        context.sent == old(context.sent) + BlockOutput(hotkeyMap, old(context.pending))
    {
      ReadInput(context);
      FlushQueue(context);
      FlushedAppend(old(eventQueue.items), Queued(hotkeyMap, old(context.pending)));
      status := Host.Normal;
    }
  }
}
