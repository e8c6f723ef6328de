/**
 * The hotkey table: for each trigger note number, the ordered list of notes
 * it is replaced by.  The table is immutable once loaded.
 *
 * The configuration text itself (JSON) is not modelled.  What is modelled is
 * the typing step that the loader performs on the parsed document: every
 * trigger key and every output note number must fit in a `u8`, a bad value
 * makes the whole load fail (there is no partial table), and a key that
 * occurs twice keeps the value seen last.
 */
module Hotkey {
  import opened Wrappers
  import opened MachineInts

  /** One output note: a note number and the velocity it is played with. */
  datatype Note = Note(note: uint8, velocity: real)

  /** What a trigger expands into; the order of `outputs` is the fan-out order. */
  datatype HotkeyEntry = HotkeyEntry(outputs: seq<Note>)

  /** The table.  A `map` holds at most one entry per trigger key. */
  datatype HotkeyMap = HotkeyMap(hotkeys: map<uint8, HotkeyEntry>)

  /** The table lookup that `process` performs for every note event. */
  function Lookup(m: HotkeyMap, trigger: uint8): (r: Option<HotkeyEntry>)
    ensures r.Some? <==> trigger in m.hotkeys
    ensures r.Some? ==> r.value == m.hotkeys[trigger]
  {
    if trigger in m.hotkeys then Some(m.hotkeys[trigger]) else None
  }

  // ---------------------------------------------------------------------
  // The parsed configuration document, before its numbers are typed.
  // ---------------------------------------------------------------------

  /** An output note as it appears in the document: numbers not yet checked. */
  datatype RawNote = RawNote(note: int, velocity: real)

  /** One `key: {outputs: [...]}` member of the document's `hotkeys` object. */
  datatype RawEntry = RawEntry(key: int, outputs: seq<RawNote>)

  /** Why a document does not describe a table. */
  datatype ConfigError =
    | KeyOutOfRange(key: int)
    | NoteOutOfRange(key: int, note: int)

  predicate IsByte(x: int) { 0 <= x < 0x100 }

  /** Every key and every output note of the document fits in a `u8`. */
  predicate WellFormed(doc: seq<RawEntry>)
  {
    forall i :: 0 <= i < |doc| ==> EntryWellFormed(doc[i])
  }

  predicate EntryWellFormed(e: RawEntry)
  {
    IsByte(e.key) && forall j :: 0 <= j < |e.outputs| ==> IsByte(e.outputs[j].note)
  }

  /** Types an entry's output list, failing on the first note number that is not a byte. */
  function ConvertOutputs(key: int, raw: seq<RawNote>): (r: Result<seq<Note>, ConfigError>)
    ensures r.Ok? <==> forall j :: 0 <= j < |raw| ==> IsByte(raw[j].note)
    ensures r.Ok? ==> |r.value| == |raw|
    ensures r.Ok? ==> forall j :: 0 <= j < |raw| ==>
      r.value[j].note as int == raw[j].note && r.value[j].velocity == raw[j].velocity
    ensures r.Err? ==> r.error.NoteOutOfRange? && r.error.key == key && !IsByte(r.error.note)
  {
    if raw == [] then Ok([])
    else if !IsByte(raw[0].note) then Err(NoteOutOfRange(key, raw[0].note))
    else
      match ConvertOutputs(key, raw[1..])
      case Err(e) => Err(e)
      case Ok(rest) => Ok([Note(raw[0].note as uint8, raw[0].velocity)] + rest)
  }

  /** Inserts the document's entries, in document order, into `acc`. */
  function LoadInto(acc: map<uint8, HotkeyEntry>, doc: seq<RawEntry>): Result<HotkeyMap, ConfigError>
    decreases |doc|
  {
    if doc == [] then Ok(HotkeyMap(acc))
    else if !IsByte(doc[0].key) then Err(KeyOutOfRange(doc[0].key))
    else
      match ConvertOutputs(doc[0].key, doc[0].outputs)
      case Err(e) => Err(e)
      case Ok(outputs) => LoadInto(acc[doc[0].key as uint8 := HotkeyEntry(outputs)], doc[1..])
  }

  /** Builds the table from a parsed document, or reports why it cannot. */
  function Load(doc: seq<RawEntry>): (r: Result<HotkeyMap, ConfigError>)
    ensures r.Ok? <==> WellFormed(doc)
  {
    LoadIntoOk(map[], doc);
    LoadInto(map[], doc)
  }

  lemma {:induction false} LoadIntoOk(acc: map<uint8, HotkeyEntry>, doc: seq<RawEntry>)
    ensures LoadInto(acc, doc).Ok? <==> WellFormed(doc)
    decreases |doc|
  {
    if doc != [] {
      if IsByte(doc[0].key) && ConvertOutputs(doc[0].key, doc[0].outputs).Ok? {
        var outputs := ConvertOutputs(doc[0].key, doc[0].outputs).value;
        LoadIntoOk(acc[doc[0].key as uint8 := HotkeyEntry(outputs)], doc[1..]);
      }
      assert WellFormed(doc) <==> EntryWellFormed(doc[0]) && WellFormed(doc[1..]) by {
        if EntryWellFormed(doc[0]) && WellFormed(doc[1..]) {
          forall i | 0 <= i < |doc| ensures EntryWellFormed(doc[i]) {
            if i > 0 { assert doc[i] == doc[1..][i - 1]; }
          }
        }
      }
    }
  }

  /** Loading the document `a + b` is loading `a`, then inserting `b`'s entries on top. */
  lemma {:induction false} LoadIntoAppend(acc: map<uint8, HotkeyEntry>, a: seq<RawEntry>, b: seq<RawEntry>)
    ensures LoadInto(acc, a + b) ==
      match LoadInto(acc, a)
      case Ok(m) => LoadInto(m.hotkeys, b)
      case Err(e) => Err(e)
    decreases |a|
  {
    if a == [] {
      assert a + b == b;
    } else {
      assert (a + b)[0] == a[0];
      assert (a + b)[1..] == a[1..] + b;
      if IsByte(a[0].key) && ConvertOutputs(a[0].key, a[0].outputs).Ok? {
        var outputs := ConvertOutputs(a[0].key, a[0].outputs).value;
        LoadIntoAppend(acc[a[0].key as uint8 := HotkeyEntry(outputs)], a[1..], b);
      }
    }
  }

  /**
   * Duplicate keys: appending an entry for a key that is already present
   * replaces that key's outputs, so the entry seen last wins; every other
   * key keeps its entry.
   */
  lemma LastEntryWins(doc: seq<RawEntry>, e: RawEntry)
    requires Load(doc).Ok? && EntryWellFormed(e)
    ensures Load(doc + [e]).Ok?
    ensures var m := Load(doc + [e]).value.hotkeys;
      e.key as uint8 in m &&
      |m[e.key as uint8].outputs| == |e.outputs| &&
      (forall j :: 0 <= j < |e.outputs| ==>
        m[e.key as uint8].outputs[j].note as int == e.outputs[j].note &&
        m[e.key as uint8].outputs[j].velocity == e.outputs[j].velocity) &&
      (forall k :: k in Load(doc).value.hotkeys && k as int != e.key ==>
        k in m && m[k] == Load(doc).value.hotkeys[k]) &&
      (forall k :: k in m ==> k in Load(doc).value.hotkeys || k as int == e.key)
  {
    LoadIntoAppend(map[], doc, [e]);
  }

  // ---------------------------------------------------------------------
  // Writing a table back out as a document.
  // ---------------------------------------------------------------------

  function DumpOutputs(outputs: seq<Note>): (r: seq<RawNote>)
    ensures |r| == |outputs|
    ensures forall j :: 0 <= j < |r| ==>
      r[j].note == outputs[j].note as int && r[j].velocity == outputs[j].velocity
  {
    if outputs == [] then []
    else [RawNote(outputs[0].note as int, outputs[0].velocity)] + DumpOutputs(outputs[1..])
  }

  /** The entries of `m` whose key is at least `k`, in ascending key order. */
  function DumpFrom(m: map<uint8, HotkeyEntry>, k: nat): seq<RawEntry>
    decreases 0x100 - k
  {
    if k >= 0x100 then []
    else
      var rest := DumpFrom(m, k + 1);
      if k as uint8 in m then [RawEntry(k, DumpOutputs(m[k as uint8].outputs))] + rest else rest
  }

  /** The document the table is written out as (one entry per key, ascending). */
  function Dump(m: HotkeyMap): seq<RawEntry>
  {
    DumpFrom(m.hotkeys, 0)
  }

  lemma ConvertDumpedOutputs(key: int, outputs: seq<Note>)
    ensures ConvertOutputs(key, DumpOutputs(outputs)) == Ok(outputs)
  {
    var r := ConvertOutputs(key, DumpOutputs(outputs));
    assert r.value == outputs;
  }

  /** The keys of `m` that are at least `k`, with their entries. */
  function From(m: map<uint8, HotkeyEntry>, k: nat): map<uint8, HotkeyEntry>
  {
    map j | j in m && j as int >= k :: m[j]
  }

  lemma {:induction false} LoadDumpFrom(acc: map<uint8, HotkeyEntry>, m: map<uint8, HotkeyEntry>, k: nat)
    ensures LoadInto(acc, DumpFrom(m, k)) == Ok(HotkeyMap(acc + From(m, k)))
    decreases 0x100 - k
  {
    if k >= 0x100 {
      assert From(m, k) == map[];
      assert acc + From(m, k) == acc;
    } else if k as uint8 in m {
      LoadDumpPresent(acc, m, k);
      LoadDumpFrom(acc[k as uint8 := m[k as uint8]], m, k + 1);
    } else {
      LoadDumpFrom(acc, m, k + 1);
      assert From(m, k + 1) == From(m, k);
    }
  }

  /** One step of `LoadDumpFrom`: the entry for a present key `k` is loaded back as it was. */
  lemma LoadDumpPresent(acc: map<uint8, HotkeyEntry>, m: map<uint8, HotkeyEntry>, k: nat)
    requires k < 0x100 && k as uint8 in m
    ensures LoadInto(acc, DumpFrom(m, k)) == LoadInto(acc[k as uint8 := m[k as uint8]], DumpFrom(m, k + 1))
    ensures acc[k as uint8 := m[k as uint8]] + From(m, k + 1) == acc + From(m, k)
  {
    var key := k as uint8;
    var rest := DumpFrom(m, k + 1);
    var doc := [RawEntry(k, DumpOutputs(m[key].outputs))] + rest;
    assert DumpFrom(m, k) == doc;
    assert doc[0].key == k && doc[1..] == rest;
    ConvertDumpedOutputs(k, m[key].outputs);
    FromStep(m, k);
  }

  lemma FromStep(m: map<uint8, HotkeyEntry>, k: nat)
    requires k < 0x100 && k as uint8 in m
    ensures From(m, k) == From(m, k + 1)[k as uint8 := m[k as uint8]]
    ensures k as uint8 !in From(m, k + 1)
  {
  }

  /** Writing a table out and loading it back gives the same table. */
  lemma LoadDump(m: HotkeyMap)
    ensures Load(Dump(m)) == Ok(m)
  {
    LoadDumpFrom(map[], m.hotkeys, 0);
    assert map[] + From(m.hotkeys, 0) == m.hotkeys;
  }
}
