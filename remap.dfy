/**
 * What one processing block does, as functions of the block's input events
 * and the hotkey table.
 *
 * Each input event is translated on its own: a note event whose note is a
 * trigger expands into one queued event per configured output, a note event
 * whose note is not a trigger is forwarded to the host at once, and any other
 * event is dropped.  After the whole input has been read, the queued events
 * are sent in the order they were queued.  So the host sees every forwarded
 * event first, in input order, and then every expansion, in input order.
 */
module Remap {
  import opened Wrappers
  import opened MachineInts
  import opened Hotkey
  import Host

  /** The kind of a queued event. */
  datatype MidiEventType = NoteOn | NoteOff

  /** A queued event: a note on or off with every field the host event needs. */
  datatype MidiNoteEvent = MidiNoteEvent(
    eventType: MidiEventType,
    timing: uint32,
    voiceId: Option<int32>,
    channel: uint8,
    note: uint8,
    velocity: real)

  /** What the remapper does with one input event. */
  datatype Translation =
    | Forward                            // send the input event unchanged, now
    | Expand(events: seq<MidiNoteEvent>) // queue these events, in this order
    | Drop                               // neither send nor queue anything

  /** The velocity a queued event takes from its output note: note-offs are always 0.0. */
  function OutputVelocity(kind: MidiEventType, out: Note): real
  {
    match kind
    case NoteOn => out.velocity
    case NoteOff => 0.0
  }

  /**
   * The events queued for one triggering note event: one per output note, in
   * the order of `outputs`, each keeping the trigger's timing, voice and channel.
   */
  function Expansion(kind: MidiEventType, timing: uint32, voiceId: Option<int32>, channel: uint8,
                     outputs: seq<Note>): (r: seq<MidiNoteEvent>)
    ensures |r| == |outputs|
    ensures forall i :: 0 <= i < |r| ==>
      r[i].eventType == kind && r[i].timing == timing && r[i].voiceId == voiceId &&
      r[i].channel == channel && r[i].note == outputs[i].note
    ensures forall i :: 0 <= i < |r| ==>
      r[i].velocity == if kind == NoteOn then outputs[i].velocity else 0.0
  {
    if outputs == [] then []
    else
      [MidiNoteEvent(kind, timing, voiceId, channel, outputs[0].note, OutputVelocity(kind, outputs[0]))]
      + Expansion(kind, timing, voiceId, channel, outputs[1..])
  }

  lemma ExpansionFirst(kind: MidiEventType, timing: uint32, voiceId: Option<int32>, channel: uint8,
                       outputs: seq<Note>)
    requires outputs != []
    ensures Expansion(kind, timing, voiceId, channel, outputs) ==
      [MidiNoteEvent(kind, timing, voiceId, channel, outputs[0].note, if kind == NoteOn then outputs[0].velocity else 0.0)]
      + Expansion(kind, timing, voiceId, channel, outputs[1..])
  {
  }

  /** The note events are the ones the table is consulted for. */
  predicate IsNoteEvent(e: Host.NoteEvent)
  {
    e.NoteOn? || e.NoteOff?
  }

  /** How one input event is handled. */
  function TranslateEvent(m: HotkeyMap, e: Host.NoteEvent): (t: Translation)
    ensures t.Drop? <==> !IsNoteEvent(e)
    ensures t.Forward? <==> IsNoteEvent(e) && e.note !in m.hotkeys
    ensures t.Expand? ==>
      IsNoteEvent(e) && e.note in m.hotkeys && |t.events| == |m.hotkeys[e.note].outputs|
    ensures t.Expand? ==> forall i :: 0 <= i < |t.events| ==>
      var out := m.hotkeys[e.note].outputs[i];
      t.events[i] == MidiNoteEvent(if e.NoteOn? then NoteOn else NoteOff,
                                   e.timing, e.voiceId, e.channel, out.note,
                                   if e.NoteOn? then out.velocity else 0.0)
  {
    match e
    case NoteOn(timing, voiceId, channel, note, _) =>
      (match Lookup(m, note)
       case Some(entry) => Expand(Expansion(NoteOn, timing, voiceId, channel, entry.outputs))
       case None => Forward)
    case NoteOff(timing, voiceId, channel, note, _) =>
      (match Lookup(m, note)
       case Some(entry) => Expand(Expansion(NoteOff, timing, voiceId, channel, entry.outputs))
       case None => Forward)
    case Other(_, _) => Drop
  }

  /** What reading `e` sends at once: `e` itself when it is forwarded, nothing otherwise. */
  function SentNow(m: HotkeyMap, e: Host.NoteEvent): seq<Host.NoteEvent>
  {
    if TranslateEvent(m, e).Forward? then [e] else []
  }

  /** What reading `e` adds to the queue: its expansion, if it has one. */
  function Deferred(m: HotkeyMap, e: Host.NoteEvent): seq<MidiNoteEvent>
  {
    var t := TranslateEvent(m, e);
    if t.Expand? then t.events else []
  }

  /** The events of `input` that are sent as they are read, in input order. */
  function Forwarded(m: HotkeyMap, input: seq<Host.NoteEvent>): seq<Host.NoteEvent>
  {
    if input == [] then [] else SentNow(m, input[0]) + Forwarded(m, input[1..])
  }

  /** The events queued while `input` is read, in the order they are queued. */
  function Queued(m: HotkeyMap, input: seq<Host.NoteEvent>): seq<MidiNoteEvent>
  {
    if input == [] then [] else Deferred(m, input[0]) + Queued(m, input[1..])
  }

  /** The host event sent for a queued event when the queue is flushed. */
  function ToNoteEvent(q: MidiNoteEvent): Host.NoteEvent
  {
    match q.eventType
    case NoteOn => Host.NoteOn(q.timing, q.voiceId, q.channel, q.note, q.velocity)
    case NoteOff => Host.NoteOff(q.timing, q.voiceId, q.channel, q.note, q.velocity)
  }

  /** The host events a flush sends, in queue order. */
  function Flushed(q: seq<MidiNoteEvent>): seq<Host.NoteEvent>
  {
    seq(|q|, i requires 0 <= i < |q| => ToNoteEvent(q[i]))
  }

  /** Everything one block sends to the host, starting from an empty queue. */
  function BlockOutput(m: HotkeyMap, input: seq<Host.NoteEvent>): seq<Host.NoteEvent>
  {
    Forwarded(m, input) + Flushed(Queued(m, input))
  }

  // ---------------------------------------------------------------------
  // Ordering
  // ---------------------------------------------------------------------

  lemma {:induction false} ForwardedAppend(m: HotkeyMap, a: seq<Host.NoteEvent>, b: seq<Host.NoteEvent>)
    ensures Forwarded(m, a + b) == Forwarded(m, a) + Forwarded(m, b)
  {
    if a == [] {
      assert a + b == b;
    } else {
      assert (a + b)[0] == a[0];
      assert (a + b)[1..] == a[1..] + b;
      ForwardedAppend(m, a[1..], b);
    }
  }

  lemma {:induction false} QueuedAppend(m: HotkeyMap, a: seq<Host.NoteEvent>, b: seq<Host.NoteEvent>)
    ensures Queued(m, a + b) == Queued(m, a) + Queued(m, b)
  {
    if a == [] {
      assert a + b == b;
    } else {
      assert (a + b)[0] == a[0];
      assert (a + b)[1..] == a[1..] + b;
      QueuedAppend(m, a[1..], b);
    }
  }

  /** Reading `e` and then `rest`: `e`'s share comes first. */
  lemma ReadFirst(m: HotkeyMap, e: Host.NoteEvent, rest: seq<Host.NoteEvent>)
    ensures Forwarded(m, [e] + rest) == SentNow(m, e) + Forwarded(m, rest)
    ensures Queued(m, [e] + rest) == Deferred(m, e) + Queued(m, rest)
  {
    assert ([e] + rest)[0] == e && ([e] + rest)[1..] == rest;
  }

  lemma AppendAssoc<T>(a: seq<T>, b: seq<T>, c: seq<T>)
    ensures (a + b) + c == a + (b + c)
  {
  }

  lemma FlushedFirst(q: MidiNoteEvent, rest: seq<MidiNoteEvent>)
    ensures Flushed([q] + rest) == [ToNoteEvent(q)] + Flushed(rest)
  {
  }

  lemma FlushedAppend(a: seq<MidiNoteEvent>, b: seq<MidiNoteEvent>)
    ensures Flushed(a + b) == Flushed(a) + Flushed(b)
  {
  }

  /**
   * The block's output for input `a + b`: all events forwarded from `a`, then
   * from `b`, then all expansions of `a`'s events, then those of `b`'s.  An
   * earlier input's expansion is sent before a later input's, and every
   * forwarded event before every expansion.
   */
  lemma BlockOutputOrder(m: HotkeyMap, a: seq<Host.NoteEvent>, b: seq<Host.NoteEvent>)
    ensures BlockOutput(m, a + b) ==
      Forwarded(m, a) + Forwarded(m, b) + Flushed(Queued(m, a)) + Flushed(Queued(m, b))
  {
    ForwardedAppend(m, a, b);
    QueuedAppend(m, a, b);
    FlushedAppend(Queued(m, a), Queued(m, b));
  }

  /** A forwarded event is exactly an input note event whose note is not a trigger. */
  lemma {:induction false} ForwardedMembers(m: HotkeyMap, input: seq<Host.NoteEvent>, e: Host.NoteEvent)
    ensures e in Forwarded(m, input) <==> e in input && IsNoteEvent(e) && e.note !in m.hotkeys
  {
    if input != [] {
      ForwardedMembers(m, input[1..], e);
      assert input == [input[0]] + input[1..];
    }
  }

  // ---------------------------------------------------------------------
  // What is sent, and how much
  // ---------------------------------------------------------------------

  /** How many events the host receives because of input event `e`. */
  function Weight(m: HotkeyMap, e: Host.NoteEvent): nat
  {
    if !IsNoteEvent(e) then 0
    else if e.note in m.hotkeys then |m.hotkeys[e.note].outputs|
    else 1
  }

  function TotalWeight(m: HotkeyMap, input: seq<Host.NoteEvent>): nat
  {
    if input == [] then 0 else Weight(m, input[0]) + TotalWeight(m, input[1..])
  }

  /**
   * A block sends one event per unmapped note event plus, per mapped note
   * event, one per configured output (an empty output list sends nothing).
   */
  lemma {:induction false} BlockOutputLength(m: HotkeyMap, input: seq<Host.NoteEvent>)
    ensures |BlockOutput(m, input)| == TotalWeight(m, input)
  {
    if input != [] {
      BlockOutputLength(m, input[1..]);
    }
  }

  /** Only note-on and note-off events reach the host; every other kind is dropped. */
  lemma {:induction false} OnlyNoteEventsSent(m: HotkeyMap, input: seq<Host.NoteEvent>)
    ensures forall e :: e in BlockOutput(m, input) ==> IsNoteEvent(e)
  {
    forall e | e in Forwarded(m, input) ensures IsNoteEvent(e) {
      ForwardedMembers(m, input, e);
    }
  }

  /** The note events of a sequence, in order. */
  function NoteEventsOf(input: seq<Host.NoteEvent>): (r: seq<Host.NoteEvent>)
    ensures forall e :: e in r ==> IsNoteEvent(e)
  {
    if input == [] then []
    else (if IsNoteEvent(input[0]) then [input[0]] else []) + NoteEventsOf(input[1..])
  }

  /** Events other than note-on and note-off have no effect on the block's output. */
  lemma {:induction false} OtherEventsIgnored(m: HotkeyMap, input: seq<Host.NoteEvent>)
    ensures Forwarded(m, input) == Forwarded(m, NoteEventsOf(input))
    ensures Queued(m, input) == Queued(m, NoteEventsOf(input))
  {
    if input != [] {
      OtherEventsIgnored(m, input[1..]);
      var head := if IsNoteEvent(input[0]) then [input[0]] else [];
      ForwardedAppend(m, head, NoteEventsOf(input[1..]));
      QueuedAppend(m, head, NoteEventsOf(input[1..]));
    }
  }

  /**
   * A block none of whose note events is a trigger queues nothing and passes
   * its note events through unchanged and in order.
   */
  lemma {:induction false} UnmappedBlockPassesThrough(m: HotkeyMap, input: seq<Host.NoteEvent>)
    requires forall i :: 0 <= i < |input| && IsNoteEvent(input[i]) ==> input[i].note !in m.hotkeys
    ensures Queued(m, input) == []
    ensures BlockOutput(m, input) == NoteEventsOf(input)
  {
    if input != [] {
      UnmappedBlockPassesThrough(m, input[1..]);
    }
  }

  /** A trigger mapped to an empty output list absorbs its note event. */
  lemma EmptyEntryAbsorbs(m: HotkeyMap, e: Host.NoteEvent)
    requires IsNoteEvent(e) && e.note in m.hotkeys && m.hotkeys[e.note].outputs == []
    ensures BlockOutput(m, [e]) == []
  {
    assert Forwarded(m, [e]) == [] + Forwarded(m, []);
    assert Queued(m, [e]) == [] + Queued(m, []);
  }

  /**
   * The two-event example: 60 is mapped to notes 62 and 64 at velocity 0.8,
   * 61 is not mapped.  The unmapped 61 reaches the host first, then the two
   * outputs of 60, with 60's timing.
   */
  lemma ExampleBlock(voice: Option<int32>, channel: uint8, v60: real, v61: real)
    ensures var m := HotkeyMap(map[60 := HotkeyEntry([Note(62, 0.8), Note(64, 0.8)])]);
      BlockOutput(m, [Host.NoteOn(0, voice, channel, 60, v60), Host.NoteOn(5, voice, channel, 61, v61)]) ==
      [Host.NoteOn(5, voice, channel, 61, v61),
       Host.NoteOn(0, voice, channel, 62, 0.8),
       Host.NoteOn(0, voice, channel, 64, 0.8)]
  {
    var outs := [Note(62, 0.8), Note(64, 0.8)];
    var m := HotkeyMap(map[60 := HotkeyEntry(outs)]);
    var e60 := Host.NoteOn(0, voice, channel, 60, v60);
    var e61 := Host.NoteOn(5, voice, channel, 61, v61);
    var q := [MidiNoteEvent(NoteOn, 0, voice, channel, 62, 0.8), MidiNoteEvent(NoteOn, 0, voice, channel, 64, 0.8)];
    assert Expansion(NoteOn, 0, voice, channel, outs) == q;
    assert SentNow(m, e60) == [] && Deferred(m, e60) == q;
    assert 61 !in m.hotkeys;
    assert SentNow(m, e61) == [e61] && Deferred(m, e61) == [];
    ReadFirst(m, e61, []);
    assert [e60, e61] == [e60] + [e61];
    ReadFirst(m, e60, [e61]);
    assert Flushed(q) == [Host.NoteOn(0, voice, channel, 62, 0.8), Host.NoteOn(0, voice, channel, 64, 0.8)];
  }
}
