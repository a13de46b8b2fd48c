/** The per-message transform of the MIDI loopback: every message from the
    controller is either forwarded as is, observed by the main knob to move
    the selected track up or down, or rewritten from a pedal control change
    into a note whose number identifies the selected track.

    The transform is a pure step: it takes the configuration, the current
    track and one message, and returns the message to forward together with
    the next track. */
module Midi {

  import opened Options

  /** Status byte of a control change on the first MIDI channel. */
  const ControlChannel: int := 176

  /** Status byte of a note on the tenth MIDI channel, used for rewritten pedal events. */
  const NoteChannel: int := 153

  /** Main-knob values strictly above this advance the track; all others retreat. */
  const MainKnobThreshold: int := 64

  /** A message as the transport delivers it. The source works on plain
      integers and never range-checks them, so neither does the model. */
  type Message = seq<int>

  /** A logical control: a status byte and a controller number. */
  datatype Address = Address(channel: int, number: int)

  /** The configuration of one pipeline, fixed when it is constructed. */
  datatype Config = Config(
    mainKnob: Address,
    pedal: Address,
    minTrack: int,
    maxTrack: int,
    minTrackNote: int,
    intercept: bool)

  /** The mutable part of a pipeline: the currently selected track. */
  datatype TrackState = TrackState(track: int)

  /** The outcome of one step: the message to forward and the next state. */
  datatype Transformed = Transformed(out: Message, next: TrackState)

  /** The first three bytes of a message, once unpacked. */
  datatype Triple = Triple(channel: int, note: int, velocity: int)

  function Min(a: int, b: int): (r: int) { if a <= b then a else b }

  function Max(a: int, b: int): (r: int) { if a >= b then a else b }

  /** The track lies within the configured bounds. */
  predicate InBounds(c: Config, s: TrackState) {
    c.minTrack <= s.track <= c.maxTrack
  }

  /** A message that the transform examines and whose first two bytes name `a`. */
  predicate Addressed(c: Config, m: Message, a: Address) {
    c.intercept && |m| >= 3 && m[0] == a.channel && m[1] == a.number
  }

  predicate IsMainKnob(c: Config, m: Message) { Addressed(c, m, c.mainKnob) }

  predicate IsPedal(c: Config, m: Message) { Addressed(c, m, c.pedal) }

  /** Builds a pipeline as its constructor does: both controls live on the
      control channel, and the track starts at the lower bound. */
  function Configure(mainKnob: int, pedal: int, minTrack: int, maxTrack: int,
                     minTrackNote: int, intercept: bool): (r: (Config, TrackState))
    ensures r.0.mainKnob.channel == ControlChannel && r.0.pedal.channel == ControlChannel
    ensures r.0.mainKnob.number == mainKnob && r.0.pedal.number == pedal
    ensures r.0.intercept == intercept
    ensures r.0.maxTrack == maxTrack && r.0.minTrackNote == minTrackNote
    ensures r.1.track == r.0.minTrack == minTrack
    ensures minTrack <= maxTrack ==> InBounds(r.0, r.1)
  {
    (Config(Address(ControlChannel, mainKnob), Address(ControlChannel, pedal),
            minTrack, maxTrack, minTrackNote, intercept),
     TrackState(minTrack))
  }

  /** Unpacks the first three bytes; fails, as the source's tuple unpacking
      does, on a message with fewer than three. */
  function Decompose(m: Message): (r: Option<Triple>)
    ensures r.Some? <==> |m| >= 3
    ensures r.Some? ==> m[..3] == [r.value.channel, r.value.note, r.value.velocity]
  {
    if |m| < 3 then None else Some(Triple(m[0], m[1], m[2]))
  }

  /** Moves the track one step up or down; a step that would pass the bound
      on that side stops at the bound instead. */
  function ShiftTrack(c: Config, s: TrackState, up: bool): (r: TrackState)
    ensures InBounds(c, s) ==> InBounds(c, r)
    ensures up ==> r.track <= c.maxTrack && r.track <= s.track + 1
    ensures up && s.track < c.maxTrack ==> r.track == s.track + 1
    ensures up && s.track >= c.maxTrack ==> r.track == c.maxTrack
    ensures !up ==> r.track >= c.minTrack && r.track >= s.track - 1
    ensures !up && s.track > c.minTrack ==> r.track == s.track - 1
    ensures !up && s.track <= c.minTrack ==> r.track == c.minTrack
  {
    if up then TrackState(Min(c.maxTrack, s.track + 1))
    else TrackState(Max(c.minTrack, s.track - 1))
  }

  /** The note a pedal press plays on track `s`: the lowest track plays the
      base note and each track above it one semitone higher. */
  function PedalNote(c: Config, s: TrackState): (r: int)
    ensures TrackOfNote(c, r) == s.track
    ensures InBounds(c, s) ==> c.minTrackNote <= r <= c.minTrackNote + (c.maxTrack - c.minTrack)
  {
    c.minTrackNote + (s.track - c.minTrack)
  }

  /** The track a rewritten pedal note stands for, the inverse of `PedalNote`. */
  function TrackOfNote(c: Config, note: int): (t: int) {
    note - c.minTrackNote + c.minTrack
  }

  /** One message through the transform. With interception off, or when the
      message is too short to unpack, it is forwarded untouched. Otherwise a
      main-knob message shifts the track first, and a pedal message is then
      replaced by a note on the note channel for the (possibly just shifted)
      track, keeping the pedal's value as velocity. */
  function Intercept(c: Config, s: TrackState, m: Message): (r: Transformed)
    ensures r.next != s ==> IsMainKnob(c, m)
    ensures !IsPedal(c, m) ==> r.out == m
    ensures IsPedal(c, m) ==> r.out == [NoteChannel, PedalNote(c, r.next), m[2]]
    ensures IsMainKnob(c, m) ==> r.next == ShiftTrack(c, s, m[2] > MainKnobThreshold)
    ensures InBounds(c, s) ==> InBounds(c, r.next)
  {
    if !c.intercept then Transformed(m, s)
    else
      match Decompose(m)
      case None =>
        // the unpacking error is caught and the original message forwarded
        Transformed(m, s)
      case Some(t) =>
        var a := Address(t.channel, t.note);
        var s' := if a == c.mainKnob then ShiftTrack(c, s, t.velocity > MainKnobThreshold) else s;
        if a == c.pedal then Transformed([NoteChannel, PedalNote(c, s'), t.velocity], s')
        else Transformed(m, s')
  }

  /** With interception off, every message is forwarded byte for byte and
      the track is left alone, even for messages on the configured controls. */
  lemma NotInterceptedIsIdentity(c: Config, s: TrackState, m: Message)
    requires !c.intercept
    ensures Intercept(c, s, m) == Transformed(m, s)
  {
  }

  /** A main-knob value above 64 advances the track, clamped at the upper
      bound; any other value retreats it, clamped at the lower bound. The
      knob's own message is forwarded unchanged. */
  lemma MainKnobShifts(c: Config, s: TrackState, m: Message)
    requires IsMainKnob(c, m) && c.mainKnob != c.pedal
    ensures Intercept(c, s, m).out == m
    ensures Intercept(c, s, m).next.track ==
      if m[2] > 64 then Min(c.maxTrack, s.track + 1) else Max(c.minTrack, s.track - 1)
  {
  }

  /** The threshold is exclusive on the advance side: 65 advances, while 64
      and 0 both retreat. */
  lemma ThresholdBoundary(c: Config, s: TrackState)
    requires c.intercept && InBounds(c, s)
    ensures s.track < c.maxTrack ==>
      Intercept(c, s, [c.mainKnob.channel, c.mainKnob.number, 65]).next.track == s.track + 1
    ensures s.track > c.minTrack ==>
      Intercept(c, s, [c.mainKnob.channel, c.mainKnob.number, 64]).next.track == s.track - 1
    ensures s.track > c.minTrack ==>
      Intercept(c, s, [c.mainKnob.channel, c.mainKnob.number, 0]).next.track == s.track - 1
  {
  }

  /** A pedal message, with any extra bytes, becomes exactly the three-byte
      note for the current track with the pedal's value, and the track stays. */
  lemma PedalRemap(c: Config, s: TrackState, m: Message)
    requires IsPedal(c, m) && c.mainKnob != c.pedal
    ensures Intercept(c, s, m) ==
      Transformed([NoteChannel, c.minTrackNote + (s.track - c.minTrack), m[2]], s)
  {
  }

  /** A message of three or more bytes on neither control comes back
      identical, extra bytes included, and the track stays. */
  lemma UnaddressedPassesThrough(c: Config, s: TrackState, m: Message)
    requires !IsMainKnob(c, m) && !IsPedal(c, m)
    ensures Intercept(c, s, m) == Transformed(m, s)
  {
  }

  /** A message too short to unpack is forwarded unchanged and cannot
      disturb the track: the failure leaves nothing half-applied. */
  lemma ShortMessageFailsOpen(c: Config, s: TrackState, m: Message)
    requires |m| < 3
    ensures Intercept(c, s, m) == Transformed(m, s)
  {
  }

  /** When both controls share one address, the shift happens first and the
      pedal note is that of the track just selected. */
  lemma CoincidentAddresses(c: Config, s: TrackState, m: Message)
    requires IsMainKnob(c, m) && c.mainKnob == c.pedal
    ensures Intercept(c, s, m).next == ShiftTrack(c, s, m[2] > MainKnobThreshold)
    ensures Intercept(c, s, m).out ==
      [NoteChannel, PedalNote(c, ShiftTrack(c, s, m[2] > MainKnobThreshold)), m[2]]
  {
  }

  /** Pedal notes tell tracks apart: two tracks give the same note only if
      they are the same track. */
  lemma PedalNoteInjective(c: Config, s: TrackState, t: TrackState)
    requires PedalNote(c, s) == PedalNote(c, t)
    ensures s == t
  {
  }

  /** The example from the default configuration: with tracks 1 to 8 and
      base note 36, a pedal press on track 3 plays note 38. */
  lemma PedalExample()
    ensures Intercept(Configure(29, 127, 1, 8, 36, true).0, TrackState(3), [176, 127, 100]).out
      == [153, 38, 100]
  {
  }
}
