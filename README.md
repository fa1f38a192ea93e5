# Sound variation data structures (PreSonus Plug-In Extensions)

A plug-in reports its sound variations (articulations such as key-switched
sample layers) to the host through the structures in `ipslsoundvariation.h`.
The only code with behaviour in that header is two fixed-capacity,
append-only buffers, each a `count` field in front of a fixed array:

- `SoundActivationSequence`: the events (notes, controllers, program changes)
  that activate a variation, at most 8 (`kMaxItems`). `addItem`, `addNote`,
  `addController` and `addProgramChange` write slot `count` and increment it
  while `count < kMaxItems`; on a full sequence they do nothing. `clear` sets
  `count` to 0.
- `ScoreSymbolList`: notation symbols suggested for a variation, at most 4,
  with `addSymbol` and `clear` working the same way.

Around them sit the tagged item `SoundActivationSequenceItem` (an integer
type tag beside a union of note, controller and program change), the default
values of `SoundVariationData` and `SoundVariationFolderData`, and the flag
bits.

The project has two modules:

- `BoundedBuffer` (`bounded_buffer.dfy`) is the value-level specification of
  such a buffer: `Buffer(count, slots)` with `Add`, `Clear` and `AddAll` (a
  run of appends), and the lemmas about them: the bound on `count`, the
  append at `count`, the no-op on a full buffer, the untouched prefix, and
  clear-then-refill.
- `SoundVariation` (`sound_variation.dfy`) holds the source's own entities.
  The two buffers are classes over an `array` and a `count` field. Each
  method's `ensures` ties the new state (`State()`, that is `count` and every
  slot) to `BoundedBuffer.Add` or `BoundedBuffer.Clear` of the old state. It
  also spells out the three cases: the bound, the write at the old `count`,
  and the full-buffer no-op. The item is a datatype that keeps the integer tag
  beside a payload with one constructor per union member. `WellTagged` says
  whether the tag announces the member that holds the data. The variation and
  folder records are classes whose constructors give the default values.

The protocol around these structures has a catalog, activation-sequence
matching, momentary variations, and an observer. In the header these are
pure-virtual interfaces (`ISoundVariationList`, `ISoundVariationObserver`,
`ISoundVariationInfo`, `ISoundVariationController`). No implementation
exists there, so none is modelled; the model follows the code that is there.

## Model

| member | source | states |
|---|---|---|
| `BoundedBuffer.Add` | ipslsoundvariation.h:152-156 | an append keeps `0 <= count <= capacity`; below capacity the visible items become the old ones followed by the new item; on a full buffer nothing changes |
| `BoundedBuffer.Clear` | ipslsoundvariation.h:149 | clearing leaves no visible items and does not touch the slots |
| `BoundedBuffer.AddAll` | ipslsoundvariation.h:152-187 | any run of appends keeps the buffer valid, keeps its capacity and never lowers `count` |
| `BoundedBuffer.AddWritesOneSlot` | ipslsoundvariation.h:154-155 | an append below capacity increments `count` by one and writes slot `count` and no other slot |
| `BoundedBuffer.AddAllContents` | ipslsoundvariation.h:140-187 | after any run of appends, `count` is the old count plus as many new items as fit (so never above capacity) and the items are the old ones followed by that many of the new ones, in order |
| `BoundedBuffer.AddAllWhenFull` | ipslsoundvariation.h:152-187 | once `count` equals the capacity, no run of appends changes `count` or any slot |
| `BoundedBuffer.AddAllKeepsPrefix` | ipslsoundvariation.h:152-187 | appends never change a slot below the `count` they started from |
| `BoundedBuffer.ClearIdempotent` | ipslsoundvariation.h:149 | clearing twice gives the same state as clearing once |
| `BoundedBuffer.ClearThenAddAll` | ipslsoundvariation.h:149-156 | a cleared buffer refilled by a run of appends holds exactly the first `capacity` appended items, whatever it held before |
| `SoundVariation.KindOfType` | ipslsoundvariation.h:64-81 | the tags 0, 1 and 2 announce a note, 3 a controller, 4 a program change, and any other integer announces no member |
| `SoundVariation.DefaultItemIsNoteAtZero` | ipslsoundvariation.h:121 | a default item is a well-tagged note event (`kNoteEvent`) at pitch 0 |
| `SoundVariation.NoteItemWellTagged` | ipslsoundvariation.h:159-166 | the item `addNote` writes carries the given note, and it is well tagged if and only if the caller's unchecked tag is one of the three note tags |
| `SoundVariation.ControllerItemWellTagged` | ipslsoundvariation.h:170-177 | the item `addController` writes has tag `kControlEvent`, carries the given number and value, and is well tagged |
| `SoundVariation.ProgramChangeItemWellTagged` | ipslsoundvariation.h:180-187 | the item `addProgramChange` writes has tag `kProgramChange`, carries the given value, and is well tagged |
| `SoundVariation.SoundActivationSequence.GetMaxItems` | ipslsoundvariation.h:140-141 | reports the capacity 8 |
| `SoundVariation.SoundActivationSequence.WithinMaxItems` | ipslsoundvariation.h:140-144 | in a valid sequence the capacity `GetMaxItems()` reports equals the length of the item array and of the abstract state's slots, and `0 <= count <= GetMaxItems()` |
| `SoundVariation.SoundActivationSequence.constructor` | ipslsoundvariation.h:143-146 | a new sequence is valid and empty (`count == 0`), and each of its eight slots holds a default item |
| `SoundVariation.SoundActivationSequence.Clear` | ipslsoundvariation.h:149 | `count` becomes 0 whatever it was, and the slots keep their contents |
| `SoundVariation.SoundActivationSequence.AddItem` | ipslsoundvariation.h:152-156 | below capacity: slot `old count` becomes the given item, tag included, `count` grows by one, and the items before it are unchanged; when full: `count` and every slot are unchanged; always `0 <= count <= 8` |
| `SoundVariation.SoundActivationSequence.AddNote` | ipslsoundvariation.h:159-166 | as `AddItem`, with the written item being the note under the caller's tag, stored as given (default `kNoteEvent`) |
| `SoundVariation.SoundActivationSequence.AddController` | ipslsoundvariation.h:170-177 | as `AddItem`, with the written item being the controller under tag `kControlEvent` (3) |
| `SoundVariation.SoundActivationSequence.AddProgramChange` | ipslsoundvariation.h:180-187 | as `AddItem`, with the written item being the program change under tag `kProgramChange` (4) |
| `SoundVariation.ScoreSymbolList.GetMaxItems` | ipslsoundvariation.h:201-202 | reports the capacity 4 |
| `SoundVariation.ScoreSymbolList.WithinMaxItems` | ipslsoundvariation.h:201-205 | in a valid list the capacity `GetMaxItems()` reports equals the length of the symbol array and of the abstract state's slots, and `0 <= count <= GetMaxItems()` |
| `SoundVariation.ScoreSymbolList.constructor` | ipslsoundvariation.h:204-207 | a new list is valid and empty (`count == 0`); no slot value is promised |
| `SoundVariation.ScoreSymbolList.Clear` | ipslsoundvariation.h:208 | `count` becomes 0 whatever it was, and the slots keep their contents |
| `SoundVariation.ScoreSymbolList.AddSymbol` | ipslsoundvariation.h:210-214 | below capacity: slot `old count` becomes the symbol, `count` grows by one, and the earlier symbols are unchanged; when full: `count` and every slot are unchanged; always `0 <= count <= 4` |
| `SoundVariation.VariationFlagsIndependent` | ipslsoundvariation.h:251-260 | `kIsMomentary` and `kIsDefault` are disjoint bits: setting either one sets it and leaves whether the other is set unchanged |
| `SoundVariation.SoundVariationData.constructor` | ipslsoundvariation.h:235-262 | a new variation has the given identifier (-1 by default), colour 0, trigger pitch -1, no flags (neither momentary nor default), an empty title, and a fresh empty activation sequence and score-symbol list |
| `SoundVariation.SoundVariationFolderData.constructor` | ipslsoundvariation.h:276-289 | a new folder has an empty title, colour 0 and no flags (in particular not `kAddTitleToVariations`) |

## Left out

- `Note::velocity` is a float and is not modelled; a `Note` carries only its pitch.
- The union's raw bytes are not modelled. The payload is the member last written. Stale bytes of another member are not kept. Neither is the `placeHoder[16]` member. Neither is what reading a member other than the one last written would give.
- `String128` titles are modelled as unbounded `seq<char>`; only their being empty after construction is stated.
- `ColorSpec` is an SDK type; the model treats it as an opaque unsigned 32-bit word and states only its default of 0.
- `flags` is a signed 32-bit field. It is modelled by its 32-bit pattern (`bv32`), since only bit tests matter.
- C++ copies these structures by value. The model gives `SoundVariationData` references to its embedded sequence and symbol list. Copying and the absence of aliasing between copies are not modelled.
- `count` is a public field that a caller could set outside `0..kMaxItems` (undefined behaviour in C++). The methods require the class invariant `0 <= count <= kMaxItems` instead.
- `SoundVariationPresetInfo` is two plain strings with no behaviour.
- The interfaces (`ISoundVariationList`, `ISoundVariationObserver`, `ISoundVariationInfo`, `ISoundVariationController`) are declared without implementations. Variation matching, momentary activation, key-switch disabling, folder balance (a comment on implementers of `beginFolder`/`endFolder`) and change notification are therefore not modelled.
- `Vst3SoundVariationEvent` and `Vst2SoundVariationEvent` are wire layouts whose type ids are multi-character literals with implementation-defined values. They have no decoding logic.
- The `SymbolID` constants, `kGetSoundVariationController` and `PlugCanDos` are constants with no behaviour.
- ipslinstrumentcontroller.h, ipslviewrendering.h, ipslwaylandframe.h, ipslviewscaling.h and ipslspeakerinfo.h are interfaces, constants and UI/windowing plumbing and are not part of this model.
