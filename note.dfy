/** The key/octave state of a Hydrogen note and the integer pitch arithmetic
    built on it (class `H2Core::Note`, libs/hydrogen/include/hydrogen/basics/note.h). */
module H2Core {

  import opened CInt

  const KEY_MIN: int := 0
  const KEY_MAX: int := 11
  const OCTAVE_MIN: int := -3
  const OCTAVE_MAX: int := 3
  const OCTAVE_OFFSET: int := 3
  const KEYS_PER_OCTAVE: int := 12

  // ---------------------------------------------------------------------------
  // Keys

  /** The twelve keys of an octave; `C` is KEY_MIN and each next key is one more. */
  datatype Key = C | Cs | D | Ef | E | F | Fs | G | Af | A | Bf | B

  /** The integer value of a key enumerator. */
  function Ordinal(k: Key): (n: int)
    ensures KEY_MIN <= n <= KEY_MAX
  {
    match k
    case C => 0
    case Cs => 1
    case D => 2
    case Ef => 3
    case E => 4
    case F => 5
    case Fs => 6
    case G => 7
    case Af => 8
    case A => 9
    case Bf => 10
    case B => 11
  }

  predicate KeyInRange(n: int) {
    KEY_MIN <= n <= KEY_MAX
  }

  predicate OctaveInRange(o: int) {
    OCTAVE_MIN <= o <= OCTAVE_MAX
  }

  /** The cast `(Key)n` of an in-range integer to the enumerator with that value. */
  function KeyOf(n: int): (k: Key)
    requires KeyInRange(n)
    ensures Ordinal(k) == n
  {
    if n == 0 then C
    else if n == 1 then Cs
    else if n == 2 then D
    else if n == 3 then Ef
    else if n == 4 then E
    else if n == 5 then F
    else if n == 6 then Fs
    else if n == 7 then G
    else if n == 8 then Af
    else if n == 9 then A
    else if n == 10 then Bf
    else B
  }

  /** Distinct enumerators have distinct values. */
  lemma OrdinalInjective(a: Key, b: Key)
    requires Ordinal(a) == Ordinal(b)
    ensures a == b
  {
  }

  /** Casting an enumerator's value back gives the enumerator. */
  lemma KeyOfOrdinal(k: Key)
    ensures KeyOf(Ordinal(k)) == k
  {
  }

  // ---------------------------------------------------------------------------
  // The instrument a note plays

  /** The collaborator a note refers to without owning it; only its MIDI out
      note is read here. */
  class Instrument {
    var midiOutNote: Int32

    constructor (midiOutNote: Int32)
      ensures this.midiOutNote == midiOutNote
    {
      this.midiOutNote := midiOutNote;
    }
  }

  // ---------------------------------------------------------------------------
  // The modelled fields of a note, as a value

  datatype NoteState = NoteState(
    instrument: Instrument?,
    position: UInt32,
    length: Int32,
    key: Key,
    octave: Int32,
    humanizeDelay: Int32,
    patternIdx: Int32,
    midiMsg: Int32,
    noteOff: bool,
    justRecorded: bool)

  /** The note's invariant: its octave lies in OCTAVE_MIN..OCTAVE_MAX (its key
      lies in KEY_MIN..KEY_MAX by the type of the field). */
  predicate ValidState(s: NoteState) {
    OctaveInRange(s.octave)
  }

  /** The key after the guarded write `if (candidate in range) key = (Key)candidate`. */
  function GuardedKey(current: Key, candidate: int): (k: Key)
    ensures Ordinal(k) == candidate <==> KeyInRange(candidate)
    ensures k != current ==> Ordinal(k) == candidate
  {
    if KEY_MIN <= candidate <= KEY_MAX then KeyOf(candidate) else current
  }

  /** The octave after the guarded write `if (candidate in range) octave = candidate`. */
  function GuardedOctave(current: Int32, candidate: Int32): (o: Int32)
    ensures OctaveInRange(candidate) ==> o == candidate
    ensures !OctaveInRange(candidate) ==> o == current
    ensures o != current ==> o == candidate
    ensures OctaveInRange(current) ==> OctaveInRange(o)
  {
    if OCTAVE_MIN <= candidate <= OCTAVE_MAX then candidate else current
  }

  /** `set_key_octave(key, octave)`: key and octave are each written only when
      in range, independently of each other; nothing else changes. */
  function WithKeyOctave(s: NoteState, key: Int32, octave: Int32): (t: NoteState)
    ensures KeyInRange(key) ==> Ordinal(t.key) == key
    ensures !KeyInRange(key) ==> t.key == s.key
    ensures OctaveInRange(octave) ==> t.octave == octave
    ensures !OctaveInRange(octave) ==> t.octave == s.octave
    ensures t.(key := s.key, octave := s.octave) == s
    ensures ValidState(s) ==> ValidState(t)
  {
    s.(key := GuardedKey(s.key, key), octave := GuardedOctave(s.octave, octave))
  }

  /** `set_midi_info(key, octave, msg)`: the same guarded key/octave write as
      `set_key_octave`, and the MIDI message is written unconditionally. */
  function WithMidiInfo(s: NoteState, key: Int32, octave: Int32, msg: Int32): (t: NoteState)
    ensures t == WithKeyOctave(s, key, octave).(midiMsg := msg)
    ensures t.midiMsg == msg
    ensures ValidState(s) ==> ValidState(t)
  {
    s.(key := GuardedKey(s.key, key), octave := GuardedOctave(s.octave, octave), midiMsg := msg)
  }

  // ---------------------------------------------------------------------------
  // Pitch arithmetic

  /** `get_notekey_pitch()`: the semitone offset `octave * 12 + key`. It encodes
      key and octave uniquely: Euclidean division by 12 recovers both. */
  function NotekeyPitch(key: Key, octave: int): (p: int)
    ensures p % KEYS_PER_OCTAVE == Ordinal(key)
    ensures p / KEYS_PER_OCTAVE == octave
    ensures OctaveInRange(octave) ==> -36 <= p <= 47
  {
    octave * KEYS_PER_OCTAVE + Ordinal(key)
  }

  /** `get_midi_key()`: the MIDI note number, the pitch shifted up by three
      octaves and recentred on the instrument's MIDI out note. */
  function MidiKey(key: Key, octave: int, midiOutNote: int): (m: int)
    ensures m == NotekeyPitch(key, octave) + OCTAVE_OFFSET * KEYS_PER_OCTAVE + midiOutNote - 60
    ensures OctaveInRange(octave) ==> midiOutNote - 60 <= m <= midiOutNote + 23
  {
    (octave + OCTAVE_OFFSET) * KEYS_PER_OCTAVE + Ordinal(key) + midiOutNote - 60
  }

  /** Under the invariant, evaluating `get_midi_key()` left to right in 32-bit
      `int` overflows nowhere as long as the MIDI out note lies in
      INT_MIN + 60 .. INT_MAX - 83 (in particular for every MIDI note 0..127). */
  lemma MidiKeyNoOverflow(s: NoteState, midiOutNote: Int32)
    requires ValidState(s)
    requires INT_MIN + 60 <= midiOutNote <= INT_MAX - 83
    ensures InInt32(s.octave + OCTAVE_OFFSET)
    ensures InInt32((s.octave + OCTAVE_OFFSET) * KEYS_PER_OCTAVE)
    ensures InInt32((s.octave + OCTAVE_OFFSET) * KEYS_PER_OCTAVE + Ordinal(s.key))
    ensures InInt32((s.octave + OCTAVE_OFFSET) * KEYS_PER_OCTAVE + Ordinal(s.key) + midiOutNote)
    ensures InInt32(MidiKey(s.key, s.octave, midiOutNote))
  {
  }

  /** `match(instrument, key, octave)`: a note only ever matches an in-range
      key, and then exactly the pitch built from that key and octave. */
  predicate Matches(s: NoteState, instrument: Instrument?, key: int, octave: int)
    ensures Matches(s, instrument, key, octave) ==> KeyInRange(key)
    ensures Matches(s, instrument, key, octave) ==>
              NotekeyPitch(s.key, s.octave) == octave * KEYS_PER_OCTAVE + key
  {
    s.instrument == instrument && Ordinal(s.key) == key && s.octave == octave
  }

  /** For an in-range key, `match` is "same instrument and same pitch". */
  lemma MatchIsSamePitch(s: NoteState, instrument: Instrument?, key: int, octave: int)
    requires KeyInRange(key)
    ensures Matches(s, instrument, key, octave)
        <==> s.instrument == instrument && NotekeyPitch(s.key, s.octave) == NotekeyPitch(KeyOf(key), octave)
  {
    var p := NotekeyPitch(s.key, s.octave);
    var q := NotekeyPitch(KeyOf(key), octave);
    if p == q {
      assert Ordinal(s.key) == p % KEYS_PER_OCTAVE == q % KEYS_PER_OCTAVE == key;
      assert s.octave == p / KEYS_PER_OCTAVE == q / KEYS_PER_OCTAVE == octave;
    }
  }

  /** Right after `set_key_octave(key, octave)` on a valid note, the note matches
      its own instrument with `key` and `octave` exactly when both were in range. */
  lemma MatchAfterSetKeyOctave(s: NoteState, key: Int32, octave: Int32)
    requires ValidState(s)
    ensures Matches(WithKeyOctave(s, key, octave), s.instrument, key, octave)
        <==> KeyInRange(key) && OctaveInRange(octave)
  {
  }

  // ---------------------------------------------------------------------------
  // The note's mutators, and any sequence of calls to them

  /** One call of a mutator of the note that this model covers. */
  datatype Call =
    | SetPosition(position: Int32)
    | SetLength(length: Int32)
    | SetNoteOff(noteOff: bool)
    | SetPatternIdx(idx: Int32)
    | SetJustRecorded(val: bool)
    | SetHumanizeDelay(delay: Int32)
    | SetKeyOctave(key: Int32, octave: Int32)
    | SetMidiInfo(key: Int32, octave: Int32, msg: Int32)

  /** The effect of one call on the note's fields. */
  function Apply(s: NoteState, c: Call): (t: NoteState)
    ensures ValidState(s) ==> ValidState(t)
    ensures t.instrument == s.instrument
  {
    match c
    case SetPosition(p) => s.(position := ToUnsigned(p))
    case SetLength(n) => s.(length := n)
    case SetNoteOff(b) => s.(noteOff := b)
    case SetPatternIdx(i) => s.(patternIdx := i)
    case SetJustRecorded(b) => s.(justRecorded := b)
    case SetHumanizeDelay(d) => s.(humanizeDelay := d)
    case SetKeyOctave(k, o) => WithKeyOctave(s, k, o)
    case SetMidiInfo(k, o, m) => WithMidiInfo(s, k, o, m)
  }

  /** The effect of a sequence of calls, first to last. The invariant holds
      after every sequence of calls, and the instrument never changes. */
  function Replay(s: NoteState, calls: seq<Call>): (t: NoteState)
    ensures ValidState(s) ==> ValidState(t)
    ensures t.instrument == s.instrument
    decreases |calls|
  {
    if calls == [] then s else Replay(Apply(s, calls[0]), calls[1..])
  }

  predicate ChangesKeyOctave(c: Call) {
    c.SetKeyOctave? || c.SetMidiInfo?
  }

  /** Only `set_key_octave` and `set_midi_info` change key and octave, so a call
      sequence without them leaves the pitch alone. */
  lemma {:induction false} ReplayKeepsKeyOctave(s: NoteState, calls: seq<Call>)
    requires forall i :: 0 <= i < |calls| ==> !ChangesKeyOctave(calls[i])
    ensures Replay(s, calls).key == s.key && Replay(s, calls).octave == s.octave
    decreases |calls|
  {
    if calls != [] {
      ReplayKeepsKeyOctave(Apply(s, calls[0]), calls[1..]);
    }
  }

  // ---------------------------------------------------------------------------
  // The note object

  /** A note: an event that plays its instrument at a key and octave. The
      floating-point fields of the original class are not part of this model. */
  class Note {
    var instrument: Instrument?
    var position: UInt32
    var length: Int32
    var key: Key
    var octave: Int32
    var humanizeDelay: Int32
    var patternIdx: Int32
    var midiMsg: Int32
    var noteOff: bool
    var justRecorded: bool

    /** The modelled fields as a value. */
    function Fields(): (s: NoteState)
      reads this
    {
      NoteState(instrument, position, length, key, octave,
                humanizeDelay, patternIdx, midiMsg, noteOff, justRecorded)
    }

    ghost predicate Valid()
      reads this
    {
      ValidState(Fields())
    }

    /** Creates a note of `instrument` at `position` with the given key and
        octave; the fields the constructor is not given are left unspecified. */
    constructor (instrument: Instrument?, position: Int32, length: Int32, key: Key, octave: Int32)
      requires OctaveInRange(octave)
      ensures Valid()
      ensures this.instrument == instrument && GetPosition() == position && this.length == length
      ensures this.key == key && this.octave == octave
    {
      this.instrument := instrument;
      this.position := ToUnsigned(position);
      this.length := length;
      this.key := key;
      this.octave := octave;
      new;
      SignedRoundTrip(position);
    }

    /** `get_position()`: the stored `unsigned` read back as `int`. */
    function GetPosition(): (p: Int32)
      reads this
      ensures (p - position) % UINT_RANGE == 0
      ensures position <= INT_MAX ==> p == position
    {
      ToSigned(position)
    }

    method SetPosition(position: Int32)
      modifies this
      ensures Fields() == old(Fields()).(position := ToUnsigned(position))
      ensures Fields() == Apply(old(Fields()), Call.SetPosition(position))
      ensures GetPosition() == position
    {
      this.position := ToUnsigned(position);
      SignedRoundTrip(position);
    }

    method SetLength(length: Int32)
      modifies this
      ensures Fields() == old(Fields()).(length := length)
      ensures Fields() == Apply(old(Fields()), Call.SetLength(length))
    {
      this.length := length;
    }

    method SetNoteOff(noteOff: bool)
      modifies this
      ensures Fields() == old(Fields()).(noteOff := noteOff)
      ensures Fields() == Apply(old(Fields()), Call.SetNoteOff(noteOff))
    {
      this.noteOff := noteOff;
    }

    method SetPatternIdx(idx: Int32)
      modifies this
      ensures Fields() == old(Fields()).(patternIdx := idx)
      ensures Fields() == Apply(old(Fields()), Call.SetPatternIdx(idx))
    {
      patternIdx := idx;
    }

    method SetJustRecorded(val: bool)
      modifies this
      ensures Fields() == old(Fields()).(justRecorded := val)
      ensures Fields() == Apply(old(Fields()), Call.SetJustRecorded(val))
    {
      justRecorded := val;
    }

    method SetHumanizeDelay(delay: Int32)
      modifies this
      ensures Fields() == old(Fields()).(humanizeDelay := delay)
      ensures Fields() == Apply(old(Fields()), Call.SetHumanizeDelay(delay))
    {
      humanizeDelay := delay;
    }

    /** `set_key_octave(int key, int octave)`. */
    method SetKeyOctave(key: Int32, octave: Int32)
      modifies this
      ensures Fields() == WithKeyOctave(old(Fields()), key, octave)
      ensures old(Valid()) ==> Valid()
      ensures KeyInRange(key) && OctaveInRange(octave) ==> Match(instrument, key, octave)
    {
      if KEY_MIN <= key <= KEY_MAX {
        this.key := KeyOf(key);
      }
      if OCTAVE_MIN <= octave <= OCTAVE_MAX {
        this.octave := octave;
      }
    }

    /** `set_midi_info(int key, int octave, int msg)`. */
    method SetMidiInfo(key: Int32, octave: Int32, msg: Int32)
      modifies this
      ensures Fields() == WithMidiInfo(old(Fields()), key, octave, msg)
      ensures old(Valid()) ==> Valid()
    {
      if KEY_MIN <= key <= KEY_MAX {
        this.key := KeyOf(key);
      }
      if OCTAVE_MIN <= octave <= OCTAVE_MAX {
        this.octave := octave;
      }
      midiMsg := msg;
    }

    /** `get_midi_key()`; it dereferences the instrument. */
    function GetMidiKey(): (m: int)
      requires instrument != null
      reads this, instrument
      ensures m == GetNotekeyPitch() + OCTAVE_OFFSET * KEYS_PER_OCTAVE + instrument.midiOutNote - 60
      ensures OctaveInRange(octave) ==>
                instrument.midiOutNote - 60 <= m <= instrument.midiOutNote + 23
    {
      MidiKey(key, octave, instrument.midiOutNote)
    }

    /** `get_notekey_pitch()`. */
    function GetNotekeyPitch(): (p: int)
      reads this
      ensures p % KEYS_PER_OCTAVE == Ordinal(key) && p / KEYS_PER_OCTAVE == octave
      ensures OctaveInRange(octave) ==> -36 <= p <= 47
    {
      NotekeyPitch(key, octave)
    }

    /** `match(instrument, key, octave)`: compares the instrument by identity. */
    predicate Match(instrument: Instrument?, key: int, octave: int)
      reads this
      ensures Match(instrument, key, octave) ==> instrument == this.instrument && KeyInRange(key)
      ensures KeyInRange(key) ==>
                (Match(instrument, key, octave) <==>
                   instrument == this.instrument && GetNotekeyPitch() == NotekeyPitch(KeyOf(key), octave))
    {
      Matches(Fields(), instrument, key, octave)
    }
  }
}
