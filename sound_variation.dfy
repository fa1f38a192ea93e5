/** The data structures a plug-in fills to report its sound variations
    (articulations) to the host: activation-sequence items, the bounded
    activation sequence, the bounded score-symbol list, and the variation and
    folder records with their default values and flag bits. */
module SoundVariation {
  import opened BoundedBuffer

  // Fixed-width integers of the host SDK.
  newtype int16 = x: int | -0x8000 <= x < 0x8000
  newtype int32 = x: int | -0x8000_0000 <= x < 0x8000_0000
  newtype uint32 = x: int | 0 <= x < 0x1_0000_0000

  type Pitch = int16
  type CCNumber = int16
  type CCValue = int16
  type VariationID = int32
  type ScoreSymbolID = uint32
  /** The host SDK's colour word; only its default value 0 matters here. */
  type ColorSpec = uint32

  datatype Option<T> = None | Some(value: T)

  // ---------------------------------------------------------------------------
  // SoundActivationSequenceItem

  /** Item type tags (`SoundActivationSequenceItem::ItemTypes`). */
  const kNoteEvent: int32 := 0
  const kNoteOnEvent: int32 := 1
  const kNoteOffEvent: int32 := 2
  const kControlEvent: int32 := 3
  const kProgramChange: int32 := 4

  /** A note; its float velocity is not part of this model. */
  datatype Note = Note(pitch: Pitch)
  datatype Controller = Controller(number: CCNumber, value: CCValue)
  datatype ProgramChange = ProgramChange(value: CCValue)

  /** The member of the item's union that was last written. */
  datatype ItemPayload =
    | NotePayload(note: Note)
    | ControllerPayload(controller: Controller)
    | ProgramChangePayload(programChange: ProgramChange)

  /** One item of an activation sequence: an integer type tag stored beside
      the union, exactly as the structure keeps it; nothing ties the two. */
  datatype SoundActivationSequenceItem =
    SoundActivationSequenceItem(itemType: int32, payload: ItemPayload)

  /** The union member each tag selects. */
  datatype ItemKind = IsNote | IsController | IsProgramChange

  /** Which union member a tag announces: the three note tags a note, the
      controller tag a controller, the program-change tag a program change;
      any other integer announces none. */
  function KindOfType(t: int32): (k: Option<ItemKind>)
    ensures k.Some? <==> kNoteEvent <= t <= kProgramChange
    ensures k == Some(IsNote) <==> t == kNoteEvent || t == kNoteOnEvent || t == kNoteOffEvent
    ensures k == Some(IsController) <==> t == kControlEvent
    ensures k == Some(IsProgramChange) <==> t == kProgramChange
  {
    if t == kNoteEvent || t == kNoteOnEvent || t == kNoteOffEvent then Some(IsNote)
    else if t == kControlEvent then Some(IsController)
    else if t == kProgramChange then Some(IsProgramChange)
    else None
  }

  function KindOfPayload(p: ItemPayload): ItemKind
  {
    match p
    case NotePayload(_) => IsNote
    case ControllerPayload(_) => IsController
    case ProgramChangePayload(_) => IsProgramChange
  }

  /** The tag announces the union member that actually holds the data. */
  predicate WellTagged(item: SoundActivationSequenceItem)
  {
    KindOfType(item.itemType) == Some(KindOfPayload(item.payload))
  }

  /** The default item: a note event at pitch 0. */
  const DefaultItem := SoundActivationSequenceItem(kNoteEvent, NotePayload(Note(0)))

  /** The slot `addNote` writes: the caller's tag, stored as given, and the note. */
  function NoteItem(note: Note, itemType: int32): SoundActivationSequenceItem
  {
    SoundActivationSequenceItem(itemType, NotePayload(note))
  }

  /** The slot `addController` writes. */
  function ControllerItem(controller: Controller): SoundActivationSequenceItem
  {
    SoundActivationSequenceItem(kControlEvent, ControllerPayload(controller))
  }

  /** The slot `addProgramChange` writes. */
  function ProgramChangeItem(value: CCValue): SoundActivationSequenceItem
  {
    SoundActivationSequenceItem(kProgramChange, ProgramChangePayload(ProgramChange(value)))
  }

  /** A default item is a well-tagged note event at pitch 0. */
  lemma DefaultItemIsNoteAtZero()
    ensures DefaultItem.itemType == kNoteEvent && WellTagged(DefaultItem)
    ensures DefaultItem.payload.NotePayload? && DefaultItem.payload.note.pitch == 0
  {
  }

  /** `addNote` does not check its tag: the item it writes is well tagged
      exactly when the caller passed one of the three note tags. */
  lemma NoteItemWellTagged(note: Note, itemType: int32)
    ensures WellTagged(NoteItem(note, itemType)) <==>
      itemType == kNoteEvent || itemType == kNoteOnEvent || itemType == kNoteOffEvent
    ensures NoteItem(note, itemType).payload.note == note
  {
  }

  /** `addController` always writes a well-tagged controller item carrying
      the given number and value. */
  lemma ControllerItemWellTagged(controller: Controller)
    ensures WellTagged(ControllerItem(controller))
    ensures ControllerItem(controller).itemType == kControlEvent
    ensures ControllerItem(controller).payload.controller == controller
  {
  }

  /** `addProgramChange` always writes a well-tagged program-change item
      carrying the given value. */
  lemma ProgramChangeItemWellTagged(value: CCValue)
    ensures WellTagged(ProgramChangeItem(value))
    ensures ProgramChangeItem(value).itemType == kProgramChange
    ensures ProgramChangeItem(value).payload.programChange.value == value
  {
  }

  // ---------------------------------------------------------------------------
  // SoundActivationSequence

  /** The events that activate a variation: at most eight items, appended in
      the order the host must send them. */
  class SoundActivationSequence {
    static const kMaxItems: int := 8

    var count: int
    const items: array<SoundActivationSequenceItem>

    /** The capacity, 8. */
    static function GetMaxItems(): (r: int)
      ensures r == 8
    {
      kMaxItems
    }

    ghost predicate Valid()
      reads this
    {
      items.Length == kMaxItems && 0 <= count <= kMaxItems
    }

    /** `count` and all eight slots. */
    ghost function State(): (b: Buffer<SoundActivationSequenceItem>)
      reads this, items
      requires Valid()
      ensures BoundedBuffer.Valid(b) && |b.slots| == GetMaxItems()
    {
      Buffer(count, items[..])
    }

    /** The capacity `GetMaxItems()` reports is the length of the array, and
        `count` never exceeds it. */
    lemma WithinMaxItems()
      requires Valid()
      ensures 0 <= count <= GetMaxItems() == items.Length == |State().slots|
    {
    }

    /** The items of the sequence. */
    ghost function Contents(): seq<SoundActivationSequenceItem>
      reads this, items
      requires Valid()
    {
      BoundedBuffer.Contents(State())
    }

    /** An empty sequence whose eight slots each hold a default item. */
    constructor ()
      ensures Valid() && fresh(items)
      ensures count == 0 && Contents() == []
      ensures forall i :: 0 <= i < kMaxItems ==> items[i] == DefaultItem
    {
      count := 0;
      items := new SoundActivationSequenceItem[kMaxItems](_ => DefaultItem);
    }

    /** Remove all items; the slots keep their stale contents. */
    method Clear()
      requires Valid()
      modifies this
      ensures Valid() && count == 0 && Contents() == []
      ensures State() == BoundedBuffer.Clear(old(State()))
    {
      count := 0;
    }

    /** Append `item`, tag included, unless the sequence is full. */
    method AddItem(item: SoundActivationSequenceItem)
      requires Valid()
      modifies this, items
      ensures Valid()
      ensures State() == Add(old(State()), item)
      ensures old(count) < kMaxItems ==>
        count == old(count) + 1 && items[old(count)] == item &&
        Contents() == old(Contents()) + [item]
      ensures old(count) == kMaxItems ==> count == old(count) && items[..] == old(items[..])
    {
      if count < kMaxItems {
        items[count] := item;
        count := count + 1;
      }
    }

    /** Append a note under the caller's tag (a plain note event unless
        another tag is given), unless the sequence is full. */
    method AddNote(note: Note, itemType: int32 := kNoteEvent)
      requires Valid()
      modifies this, items
      ensures Valid()
      ensures State() == Add(old(State()), NoteItem(note, itemType))
      ensures old(count) < kMaxItems ==>
        count == old(count) + 1 && items[old(count)] == NoteItem(note, itemType) &&
        Contents() == old(Contents()) + [NoteItem(note, itemType)]
      ensures old(count) == kMaxItems ==> count == old(count) && items[..] == old(items[..])
    {
      if count < kMaxItems {
        items[count] := items[count].(itemType := itemType, payload := NotePayload(note));
        count := count + 1;
      }
    }

    /** Append a controller event, unless the sequence is full. */
    method AddController(controller: Controller)
      requires Valid()
      modifies this, items
      ensures Valid()
      ensures State() == Add(old(State()), ControllerItem(controller))
      ensures old(count) < kMaxItems ==>
        count == old(count) + 1 && items[old(count)] == ControllerItem(controller) &&
        Contents() == old(Contents()) + [ControllerItem(controller)]
      ensures old(count) == kMaxItems ==> count == old(count) && items[..] == old(items[..])
    {
      if count < kMaxItems {
        items[count] := items[count].(itemType := kControlEvent, payload := ControllerPayload(controller));
        count := count + 1;
      }
    }

    /** Append a program change, unless the sequence is full. */
    method AddProgramChange(value: CCValue)
      requires Valid()
      modifies this, items
      ensures Valid()
      ensures State() == Add(old(State()), ProgramChangeItem(value))
      ensures old(count) < kMaxItems ==>
        count == old(count) + 1 && items[old(count)] == ProgramChangeItem(value) &&
        Contents() == old(Contents()) + [ProgramChangeItem(value)]
      ensures old(count) == kMaxItems ==> count == old(count) && items[..] == old(items[..])
    {
      if count < kMaxItems {
        items[count] := items[count].(itemType := kProgramChange,
                                      payload := ProgramChangePayload(ProgramChange(value)));
        count := count + 1;
      }
    }
  }

  // ---------------------------------------------------------------------------
  // ScoreSymbolList

  /** The notation symbols suggested for a variation: at most four. */
  class ScoreSymbolList {
    static const kMaxItems: int := 4

    var count: int
    const symbols: array<ScoreSymbolID>

    /** The capacity, 4. */
    static function GetMaxItems(): (r: int)
      ensures r == 4
    {
      kMaxItems
    }

    ghost predicate Valid()
      reads this
    {
      symbols.Length == kMaxItems && 0 <= count <= kMaxItems
    }

    /** `count` and all four slots. */
    ghost function State(): (b: Buffer<ScoreSymbolID>)
      reads this, symbols
      requires Valid()
      ensures BoundedBuffer.Valid(b) && |b.slots| == GetMaxItems()
    {
      Buffer(count, symbols[..])
    }

    /** The capacity `GetMaxItems()` reports is the length of the array, and
        `count` never exceeds it. */
    lemma WithinMaxItems()
      requires Valid()
      ensures 0 <= count <= GetMaxItems() == symbols.Length == |State().slots|
    {
    }

    /** The symbols of the list. */
    ghost function Contents(): seq<ScoreSymbolID>
      reads this, symbols
      requires Valid()
    {
      BoundedBuffer.Contents(State())
    }

    /** An empty list; the slot values are not promised. */
    constructor ()
      ensures Valid() && fresh(symbols)
      ensures count == 0 && Contents() == []
    {
      count := 0;
      symbols := new ScoreSymbolID[kMaxItems];
    }

    /** Remove all symbols; the slots keep their stale contents. */
    method Clear()
      requires Valid()
      modifies this
      ensures Valid() && count == 0 && Contents() == []
      ensures State() == BoundedBuffer.Clear(old(State()))
    {
      count := 0;
    }

    /** Append `symbol` unless the list is full. */
    method AddSymbol(symbol: ScoreSymbolID)
      requires Valid()
      modifies this, symbols
      ensures Valid()
      ensures State() == Add(old(State()), symbol)
      ensures old(count) < kMaxItems ==>
        count == old(count) + 1 && symbols[old(count)] == symbol &&
        Contents() == old(Contents()) + [symbol]
      ensures old(count) == kMaxItems ==> count == old(count) && symbols[..] == old(symbols[..])
    {
      if count < kMaxItems {
        symbols[count] := symbol;
        count := count + 1;
      }
    }
  }

  // ---------------------------------------------------------------------------
  // Flags

  /** `SoundVariationData::Flags`. */
  const kIsMomentary: bv32 := 0x1
  const kIsDefault: bv32 := 0x2

  /** `SoundVariationFolderData::Flags`. */
  const kAddTitleToVariations: bv32 := 0x1

  predicate HasFlag(flags: bv32, flag: bv32)
  {
    flags & flag != 0
  }

  /** The two variation flags are disjoint bits: setting one sets it and
      never changes whether the other is set. */
  lemma VariationFlagsIndependent(flags: bv32)
    ensures kIsMomentary & kIsDefault == 0
    ensures HasFlag(flags | kIsMomentary, kIsMomentary) && HasFlag(flags | kIsDefault, kIsDefault)
    ensures HasFlag(flags | kIsMomentary, kIsDefault) == HasFlag(flags, kIsDefault)
    ensures HasFlag(flags | kIsDefault, kIsMomentary) == HasFlag(flags, kIsMomentary)
  {
    assert HasFlag(flags | kIsMomentary, kIsDefault) == HasFlag(flags, kIsDefault);
  }

  // ---------------------------------------------------------------------------
  // SoundVariationData and SoundVariationFolderData

  /** One variation as the plug-in reports it. The activation sequence and
      the score symbols are embedded buffers the plug-in fills in place. */
  class SoundVariationData {
    var identifier: VariationID
    /** The displayed name; its 128-character bound is not modelled. */
    var title: seq<char>
    const activationSequence: SoundActivationSequence
    var color: ColorSpec
    var triggerPitch: Pitch
    const scoreSymbols: ScoreSymbolList
    var flags: bv32

    ghost predicate Valid()
      reads this, activationSequence, scoreSymbols
    {
      activationSequence.Valid() && scoreSymbols.Valid()
    }

    /** A variation with the given identifier (-1 when none is given), no
        colour, no trigger pitch, no flags, an empty title, an empty
        activation sequence and no score symbols. */
    constructor (id: VariationID := -1)
      ensures Valid()
      ensures identifier == id && title == [] && color == 0 && triggerPitch == -1 && flags == 0
      ensures !HasFlag(flags, kIsMomentary) && !HasFlag(flags, kIsDefault)
      ensures fresh(activationSequence) && fresh(activationSequence.items)
      ensures fresh(scoreSymbols) && fresh(scoreSymbols.symbols)
      ensures activationSequence.Contents() == [] && scoreSymbols.Contents() == []
    {
      identifier := id;
      title := [];
      activationSequence := new SoundActivationSequence();
      color := 0;
      triggerPitch := -1;
      scoreSymbols := new ScoreSymbolList();
      flags := 0;
    }
  }

  /** A folder of variations as the plug-in reports it. */
  class SoundVariationFolderData {
    /** The displayed name; its 128-character bound is not modelled. */
    var title: seq<char>
    var color: ColorSpec
    var flags: bv32

    /** A folder with an empty title, no colour and no flags. */
    constructor ()
      ensures title == [] && color == 0 && flags == 0
      ensures !HasFlag(flags, kAddTitleToVariations)
    {
      title := [];
      color := 0;
      flags := 0;
    }
  }
}
