/**
 * MIDI event translation: one host MIDI message becomes at most one engine
 * call. Only note-on and note-off are transposed by the instance's octave
 * offset; a note-on with velocity 0 is a note-off (MIDI 1.0 Detailed
 * Specification, Note On / Note Off); pitch bend is rebuilt from its two
 * 7-bit bytes and centred.
 */
module Midi {
  import opened CText
  import opened Engine

  const NOTE_OFF: bv8 := 0x80
  const NOTE_ON: bv8 := 0x90
  const POLY_AFTERTOUCH: bv8 := 0xA0
  const CONTROL_CHANGE: bv8 := 0xB0
  const PROGRAM_CHANGE: bv8 := 0xC0
  const CHANNEL_AFTERTOUCH: bv8 := 0xD0
  const PITCH_BEND: bv8 := 0xE0

  /** The lowest and highest MIDI note numbers. */
  const LOWEST_NOTE := 0
  const HIGHEST_NOTE := 127

  /** The status nibble: msg[0] & 0xF0. */
  function Status(b: bv8): bv8 { b & 0xF0 }

  /** The channel nibble: msg[0] & 0x0F. */
  function Channel(b: bv8): (c: int)
    ensures 0 <= c < 16
  {
    (b & 0x0F) as int
  }

  /** The second data byte; a two-byte message reads as if it were 0. */
  function Data2(msg: seq<bv8>): bv8 {
    if |msg| > 2 then msg[2] else 0
  }

  /** data1 moved by whole octaves, then clamped into the MIDI note range. */
  function TransposeNote(data1: int, octave: int): (n: int)
    ensures LOWEST_NOTE <= n <= HIGHEST_NOTE
    ensures LOWEST_NOTE <= data1 + 12 * octave <= HIGHEST_NOTE ==> n == data1 + 12 * octave
    ensures data1 + 12 * octave < LOWEST_NOTE ==> n == LOWEST_NOTE
    ensures data1 + 12 * octave > HIGHEST_NOTE ==> n == HIGHEST_NOTE
  {
    var note := data1 + octave * 12;
    if note < LOWEST_NOTE then LOWEST_NOTE else if note > HIGHEST_NOTE then HIGHEST_NOTE else note
  }

  /** ((data2 << 7) | data1) - 8192, computed on the promoted int as C does. */
  function Bend(data1: bv8, data2: bv8): (v: int)
    ensures data1 < 0x80 ==> v == (data2 as int) * 128 + (data1 as int) - 8192
  {
    BendBits(data1, data2);
    ((((data2 as bv16) << 7) | (data1 as bv16)) as int) - 8192
  }

  /** With a 7-bit low byte, the shift-or is a shift-add. */
  lemma BendBits(data1: bv8, data2: bv8)
    ensures data1 < 0x80 ==> (((data2 as bv16) << 7) | (data1 as bv16)) as int == (data2 as int) * 128 + (data1 as int)
  {
    if data1 < 0x80 {
      assert ((data2 as bv16) << 7) | (data1 as bv16) == ((data2 as bv16) << 7) + (data1 as bv16);
      assert ((data2 as bv16) << 7) == (data2 as bv16) * 128;
    }
  }

  /** v2_on_midi once an engine exists: the engine call a message makes, if any. */
  function TranslateMidi(msg: seq<bv8>, octave: int): (r: Option<EngineCall>)
    ensures |msg| < 2 ==> r.None?
    ensures r.Some? ==> Status(msg[0]) in {NOTE_OFF, NOTE_ON, POLY_AFTERTOUCH, CONTROL_CHANGE,
                                           PROGRAM_CHANGE, CHANNEL_AFTERTOUCH, PITCH_BEND}
    ensures r.Some? && (r.value.PlayNote? || r.value.ReleaseNote?) ==>
              r.value.channel == Channel(msg[0]) && r.value.note == TransposeNote(msg[1] as int, octave)
    ensures r.Some? && r.value.PolyAftertouch? ==> r.value.note == msg[1] as int
  {
    if |msg| < 2 then None
    else
      var status := Status(msg[0]);
      var channel := Channel(msg[0]);
      var data1 := msg[1] as int;
      var data2 := Data2(msg);
      var note := if status == NOTE_ON || status == NOTE_OFF then TransposeNote(data1, octave) else data1;
      if status == NOTE_ON then
        if data2 > 0 then Some(PlayNote(channel, note, data2 as int, 0))
        else Some(ReleaseNote(channel, note, 0))
      else if status == NOTE_OFF then Some(ReleaseNote(channel, note, data2 as int))
      else if status == CONTROL_CHANGE then Some(ChannelController(channel, data1, data2 as int))
      else if status == PITCH_BEND then Some(PitchBend(channel, Bend(msg[1], data2)))
      else if status == CHANNEL_AFTERTOUCH then Some(ChannelAftertouch(channel, data1))
      else if status == POLY_AFTERTOUCH then Some(PolyAftertouch(channel, data1, data2 as int))
      else if status == PROGRAM_CHANGE then Some(ProgramChange(channel, data1))
      else None
  }

  // ---------------------------------------------------------------------
  // Properties of the translation
  // ---------------------------------------------------------------------

  /** The statuses passed straight through: each yields its own engine call
   *  on the message's channel, with the data bytes as written (a two-byte
   *  message reading data2 as 0) and pitch bend rebuilt and centred. */
  lemma PassThroughCalls(msg: seq<bv8>, octave: int)
    requires |msg| >= 2
    ensures var st, ch, d1, d2 := Status(msg[0]), Channel(msg[0]), msg[1] as int, Data2(msg);
      && (st == CONTROL_CHANGE ==> TranslateMidi(msg, octave) == Some(ChannelController(ch, d1, d2 as int)))
      && (st == POLY_AFTERTOUCH ==> TranslateMidi(msg, octave) == Some(PolyAftertouch(ch, d1, d2 as int)))
      && (st == CHANNEL_AFTERTOUCH ==> TranslateMidi(msg, octave) == Some(ChannelAftertouch(ch, d1)))
      && (st == PROGRAM_CHANGE ==> TranslateMidi(msg, octave) == Some(ProgramChange(ch, d1)))
      && (st == PITCH_BEND ==> TranslateMidi(msg, octave) == Some(PitchBend(ch, Bend(msg[1], d2))))
  {
  }

  /** A note-on with velocity 0 releases the same transposed note a note-off
   *  with release velocity 0 on the same channel releases. */
  lemma NoteOnZeroVelocityIsNoteOff(on: bv8, off: bv8, data1: bv8, octave: int)
    requires Status(on) == NOTE_ON && Status(off) == NOTE_OFF && Channel(on) == Channel(off)
    ensures TranslateMidi([on, data1, 0], octave) == TranslateMidi([off, data1, 0], octave)
    ensures TranslateMidi([on, data1, 0], octave)
         == Some(ReleaseNote(Channel(on), TransposeNote(data1 as int, octave), 0))
  {
  }

  /** A two-byte message acts as the three-byte message whose data2 is 0. */
  lemma TwoByteMessageHasZeroData2(msg: seq<bv8>, octave: int)
    requires |msg| == 2
    ensures TranslateMidi(msg, octave) == TranslateMidi(msg + [0], octave)
  {
    assert (msg + [0])[..2] == msg;
  }

  /** The octave offset reaches note-on and note-off only: every other message
   *  translates the same whatever the offset. */
  lemma OnlyNotesAreTransposed(msg: seq<bv8>, octave1: int, octave2: int)
    requires |msg| >= 2 && Status(msg[0]) != NOTE_ON && Status(msg[0]) != NOTE_OFF
    ensures TranslateMidi(msg, octave1) == TranslateMidi(msg, octave2)
  {
  }

  /** A note-on with a velocity plays the transposed, clamped note. */
  lemma NoteOnPlaysTransposedNote(msg: seq<bv8>, octave: int)
    requires |msg| >= 3 && Status(msg[0]) == NOTE_ON && msg[2] > 0
    ensures TranslateMidi(msg, octave)
         == Some(PlayNote(Channel(msg[0]), TransposeNote(msg[1] as int, octave), msg[2] as int, 0))
  {
  }

  /** (data1 = 0, data2 = 64) is the centre of the bend range. */
  lemma PitchBendCentre(status: bv8, octave: int)
    requires Status(status) == PITCH_BEND
    ensures TranslateMidi([status, 0, 64], octave) == Some(PitchBend(Channel(status), 0))
  {
  }

  /** For 7-bit data bytes the bend value spans exactly [-8192, 8191]. */
  lemma PitchBendRange(data1: bv8, data2: bv8)
    requires data1 < 0x80 && data2 < 0x80
    ensures -8192 <= Bend(data1, data2) <= 8191
    ensures Bend(0, 0) == -8192 && Bend(0x7F, 0x7F) == 8191
  {
  }

  /** A note-off releases the transposed note on its channel with data2 as
   *  the release velocity (0 for a two-byte message). */
  lemma NoteOffReleases(msg: seq<bv8>, octave: int)
    requires |msg| >= 2 && Status(msg[0]) == NOTE_OFF
    ensures TranslateMidi(msg, octave) ==
              Some(ReleaseNote(Channel(msg[0]), TransposeNote(msg[1] as int, octave), Data2(msg) as int))
  {
  }

  /** The release of a held note uses the offset current at release time, so
   *  an offset change between the two events releases a different key. */
  lemma ReleaseFollowsCurrentOctave(on: bv8, off: bv8, data1: bv8, velocity: bv8, octave1: int, octave2: int)
    requires Status(on) == NOTE_ON && Status(off) == NOTE_OFF && velocity > 0
    requires 0 <= data1 as int + 12 * octave1 <= 127 && 0 <= data1 as int + 12 * octave2 <= 127
    requires octave1 != octave2
    ensures TranslateMidi([on, data1, velocity], octave1).value.note
         != TranslateMidi([off, data1, 0], octave2).value.note
  {
  }
}
