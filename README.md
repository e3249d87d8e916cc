# Hydrogen note: key, octave and integer pitch

A model of the integer state of `H2Core::Note`, the class that represents one
note event in the Hydrogen drum machine, and of the integer pitch arithmetic
built on it. A note plays an instrument (which it refers to but does not own)
at a key (one of the twelve semitones C..B, enumerated 0..11) and an octave
(-3..3). The model covers:

- the guarded writes `set_key_octave(int, int)` and `set_midi_info`: key and
  octave are each written only when in range, independently of each other, and
  `set_midi_info` also writes the MIDI message unconditionally;
- the derived values `get_midi_key` and `get_notekey_pitch`, and the identity
  predicate `match`;
- the plain integer and boolean fields with their setters (position, length,
  pattern index, humanize delay, note-off, just-recorded) and the MIDI message,
  which has no setter of its own (`set_midi_msg` is commented out) and is
  written only by `set_midi_info`, so that "nothing else changes" can be stated.

Layout:

- `cint.dfy`, module `CInt`: 32-bit `int` and `unsigned` and the conversions
  between them, used for the `unsigned` position field that is set from an `int`.
- `note.dfy`, module `H2Core`: the `Key` enumeration; `NoteState`, the modelled
  fields as a value, with the pure functions that give the effect of each
  mutator (`WithKeyOctave`, `WithMidiInfo`, `Apply`, `Replay`) and the pitch
  functions (`NotekeyPitch`, `MidiKey`, `Matches`) with the lemmas relating
  them; and the classes `Instrument` and `Note`. Each mutating method of
  `Note` changes `this` only and is proved to leave `Fields()` equal to the
  corresponding pure function of the old fields. The query functions
  `Note.GetMidiKey`, `Note.GetNotekeyPitch` and `Note.Match` are the pure
  functions applied to the note's fields; `GetMidiKey` requires a non-null
  instrument, because the original dereferences it.

Modelling decisions:

- `Key` is a datatype whose constructors carry the enumerator names; `Ordinal`
  gives an enumerator's value and `KeyOf` is the cast `(Key)n`, which the
  original performs only after checking that `n` is in range.
- The note's `int` fields and the `int` parameters of its setters are 32-bit
  values (`CInt.Int32`). The pitch functions `NotekeyPitch`, `MidiKey`,
  `Note.GetNotekeyPitch` and `Note.GetMidiKey` compute with unbounded integers,
  and `Matches` and `Note.Match` take unbounded key and octave arguments; the
  32-bit evaluation of `get_midi_key` is treated by `MidiKeyNoOverflow`. The position is stored as
  `unsigned` (`CInt.UInt32`, the conversion is modulo 2^32) and `get_position`
  reads it back as `int` assuming two's complement; both directions together
  give back the value that was set.
- The instrument is modelled only by its MIDI out note, read by
  `get_midi_key`; `match` compares the instrument by identity, as the original
  compares pointers.
- The original constructor takes the instrument, position, velocity, pans,
  length and pitch, and has no key or octave arguments; its body, which
  initialises key and octave, is not part of the header. The model's
  constructor takes the instrument, position and length, and takes key and
  octave as parameters standing for that unseen initialisation, which is
  assumed to put the octave in range (hence its requirement on the octave).
  Every other field is left unspecified rather than given invented defaults.
- The header comment of `set_midi_info` (note.h:181) says the MIDI message is
  set "only if within acceptable range", but the code (note.h:188) writes it
  unconditionally; the model follows the code.

## Model

| member | source | states |
|---|---|---|
| `H2Core.Ordinal` | libs/hydrogen/include/hydrogen/basics/note.h:63 | every key enumerator has a value in KEY_MIN..KEY_MAX (0..11) |
| `H2Core.KeyOf` | libs/hydrogen/include/hydrogen/basics/note.h:177 | the cast `(Key)n` of an in-range integer yields the enumerator whose value is `n` |
| `H2Core.OrdinalInjective` | libs/hydrogen/include/hydrogen/basics/note.h:63 | distinct enumerators have distinct values |
| `H2Core.KeyOfOrdinal` | libs/hydrogen/include/hydrogen/basics/note.h:63 | casting an enumerator's value back gives the same enumerator |
| `CInt.ToUnsigned` | libs/hydrogen/include/hydrogen/basics/note.h:111 | storing an `int` into the `unsigned` position gives the unsigned value congruent to it modulo 2^32, unchanged when non-negative |
| `CInt.ToSigned` | libs/hydrogen/include/hydrogen/basics/note.h:113 | reading the `unsigned` position as `int` gives the 32-bit value congruent to it modulo 2^32 |
| `CInt.SignedRoundTrip` | libs/hydrogen/include/hydrogen/basics/note.h:111-113 | `get_position()` after `set_position(p)` returns `p` for every 32-bit `p` |
| `H2Core.GuardedKey` | libs/hydrogen/include/hydrogen/basics/note.h:177 | the key after the guarded write has the candidate's value exactly when the candidate is in 0..11, and changes only to the candidate |
| `H2Core.GuardedOctave` | libs/hydrogen/include/hydrogen/basics/note.h:178 | the octave after the guarded write equals the candidate when the candidate is in -3..3 and is unchanged otherwise; it stays in -3..3 if it was |
| `H2Core.WithKeyOctave` | libs/hydrogen/include/hydrogen/basics/note.h:176-179 | key becomes `key` when 0 <= key <= 11 and is unchanged otherwise; independently, octave becomes `octave` when -3 <= octave <= 3 and is unchanged otherwise; no other field changes; the invariant is preserved |
| `H2Core.WithMidiInfo` | libs/hydrogen/include/hydrogen/basics/note.h:185-189 | the same guarded key/octave write as `set_key_octave`, with the MIDI message set to `msg` unconditionally; the invariant is preserved |
| `H2Core.NotekeyPitch` | libs/hydrogen/include/hydrogen/basics/note.h:160 | `octave * 12 + key` encodes key and octave uniquely (Euclidean division by 12 recovers the key as remainder and the octave as quotient) and lies in -36..47 for an in-range octave |
| `H2Core.MidiKey` | libs/hydrogen/include/hydrogen/basics/note.h:156 | the MIDI key is the note-key pitch plus 36 plus the MIDI out note minus 60, and lies in midiOutNote - 60 .. midiOutNote + 23 for an in-range octave |
| `H2Core.MidiKeyNoOverflow` | libs/hydrogen/include/hydrogen/basics/note.h:156 | on a valid note, every intermediate of the left-to-right 32-bit evaluation of `get_midi_key` (`octave + 3`, its product with 12, plus the key, plus the MIDI out note, minus 60) fits in `int` when the MIDI out note lies in INT_MIN + 60 .. INT_MAX - 83 |
| `H2Core.Matches` | libs/hydrogen/include/hydrogen/basics/note.h:207 | `match` holds only for an in-range key, and then the note's pitch is `octave * 12 + key` of the arguments |
| `H2Core.ValidState` | libs/hydrogen/include/hydrogen/basics/note.h:230-231 | the documented ranges of the key (0..11, by its type) and the octave (-3..3) |
| `H2Core.MatchIsSamePitch` | libs/hydrogen/include/hydrogen/basics/note.h:207 | for an in-range key, `match(i, key, octave)` holds exactly when the instrument is `i` and the note-key pitch equals that of `key` and `octave` |
| `H2Core.MatchAfterSetKeyOctave` | libs/hydrogen/include/hydrogen/basics/note.h:176-179 | on a valid note, right after `set_key_octave(key, octave)` the note matches its own instrument with `key` and `octave` exactly when both were in range |
| `H2Core.Apply` | libs/hydrogen/include/hydrogen/basics/note.h:111-189 | every covered mutator preserves the invariant (octave in -3..3, key in 0..11) and leaves the instrument unchanged |
| `H2Core.Replay` | libs/hydrogen/include/hydrogen/basics/note.h:230-231 | after any sequence of the covered calls (the `Call` datatype) on a valid note, key and octave are still in range and the instrument is the same |
| `H2Core.ReplayKeepsKeyOctave` | libs/hydrogen/include/hydrogen/basics/note.h:131-145 | a sequence of calls that contains neither `set_key_octave` nor `set_midi_info` leaves key and octave unchanged |
| `H2Core.Instrument.constructor` | libs/hydrogen/include/hydrogen/basics/note.h:156 | an instrument carries the MIDI out note that `get_midi_key` reads through `get_midi_out_note()` |
| `H2Core.Note.Valid` | libs/hydrogen/include/hydrogen/basics/note.h:230-231 | the note's fields satisfy the documented ranges |
| `H2Core.Note.GetPosition` | libs/hydrogen/include/hydrogen/basics/note.h:113 | the stored `unsigned` position is read back as the `int` congruent to it modulo 2^32, unchanged when it is at most INT_MAX |
| `H2Core.Note.GetMidiKey` | libs/hydrogen/include/hydrogen/basics/note.h:156 | for a non-null instrument, the MIDI key is the note-key pitch plus 36 plus the instrument's MIDI out note minus 60, within midiOutNote - 60 .. midiOutNote + 23 for an in-range octave |
| `H2Core.Note.GetNotekeyPitch` | libs/hydrogen/include/hydrogen/basics/note.h:160 | the note-key pitch gives back the note's key as remainder and octave as quotient of division by 12, and lies in -36..47 for an in-range octave |
| `H2Core.Note.Match` | libs/hydrogen/include/hydrogen/basics/note.h:207 | a match implies the same instrument (by identity) and an in-range key; for an in-range key, a match is exactly same instrument and same note-key pitch |
| `H2Core.Note.constructor` | libs/hydrogen/include/hydrogen/basics/note.h:75-83 | a new note holds the given instrument, position and length; the original constructor has no key or octave arguments, so the model's key and in-range octave parameters stand for the initialisation its unseen body performs; the invariant holds |
| `H2Core.Note.SetPosition` | libs/hydrogen/include/hydrogen/basics/note.h:111 | only the position changes; it is stored as `unsigned` and `get_position` then returns the value set |
| `H2Core.Note.SetLength` | libs/hydrogen/include/hydrogen/basics/note.h:131 | only the length changes, and it becomes the value set |
| `H2Core.Note.SetNoteOff` | libs/hydrogen/include/hydrogen/basics/note.h:135 | only the note-off flag changes, and it becomes the value set |
| `H2Core.Note.SetPatternIdx` | libs/hydrogen/include/hydrogen/basics/note.h:139 | only the pattern index changes, and it becomes the value set |
| `H2Core.Note.SetJustRecorded` | libs/hydrogen/include/hydrogen/basics/note.h:141 | only the just-recorded flag changes, and it becomes the value set |
| `H2Core.Note.SetHumanizeDelay` | libs/hydrogen/include/hydrogen/basics/note.h:144 | only the humanize delay changes, and it becomes the value set |
| `H2Core.Note.SetKeyOctave` | libs/hydrogen/include/hydrogen/basics/note.h:176-179 | the note's fields afterwards are `WithKeyOctave` of its fields before; the invariant is preserved; with both arguments in range the note then matches its instrument, key and octave |
| `H2Core.Note.SetMidiInfo` | libs/hydrogen/include/hydrogen/basics/note.h:185-189 | the note's fields afterwards are `WithMidiInfo` of its fields before; the invariant is preserved |

## Left out

- Floating-point fields and operations: velocity, pans, lead/lag, pitch, cut-off, resonance, sample position and the four filter buffers; `set_velocity`, `set_pan_l`, `set_pan_r`, `set_lead_lag` (declared only, bodies not in the header), `get_midi_velocity`, `get_total_pitch`, `update_sample_position`, `compute_lr_values` and the float getters, because they are floating-point numerics.
- `get_notekey_pitch` returns `float` in the original; the model returns the integer it is computed from, which converts to `float` exactly since it is far below 2^24 in magnitude.
- `release_adsr` and `get_adsr_value`: they only forward to the envelope class, which is not part of this model.
- `save_to`, `load_from`, `key_to_string`, `set_key_octave(const QString&)`, `dump`, `set_instrument`, the copy constructor and the destructor: their bodies are not in the header and they depend on XML, Qt strings and logging.
- Plain getters (`get_length`, `get_key`, `get_octave`, ...) are not separate members: each returns its field, which the model reads directly; `get_position` is `Note.GetPosition`.
- The instrument is only its MIDI out note; its other state and its own operations are not part of this model.
- H2Core.MidiKey: the model computes with unbounded integers. `MidiKeyNoOverflow` shows that no step of the original's 32-bit evaluation overflows on a valid note whose MIDI out note lies in INT_MIN + 60 .. INT_MAX - 83. Outside that range only some notes overflow: above it, high pitches (key B in octave 3 first) overflow; below it, low pitches (key C in octave -3 first) do. Which notes overflow there is not modelled.
