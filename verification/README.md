# MIDI loopback with track selection, modelled in Dafny

The program sits between a MIDI controller and a loopback port. It relays
messages in both directions. In the controller-to-loopback direction it
rewrites some of them:

- a turn of the main knob (a control change on status byte 176) moves a
  selected track up (value above 64) or down (any other value), clamped to
  `[min_track, max_track]`; the knob's own message is still forwarded;
- a pedal control change is replaced by a note on status byte 153 whose
  number is `min_track_note + (track - min_track)`, velocity kept;
- everything else, and every message too short to unpack, is forwarded
  byte for byte.

The loopback-to-controller direction has interception switched off and
forwards everything unchanged.

Files:

- `options.dfy`: `Option`, used for the port lookup and the unpacking.
- `midi.dfy` (module `Midi`): the constants, the configuration and track
  state, and `Intercept`, the pure step `(config, track, message) ->
  (message out, next track)`, with `ShiftTrack` and `PedalNote`.
- `pipeline.dfy` (module `Pipeline`): a pipeline's callback as a fold over
  the event stream, one output per event in arrival order (`Run`), the
  same fold as a loop (`Dispatch`), and the lemmas about whole streams.
  These cover the track bound, the pass-through direction, and clamping.
- `ports.dfy` (module `Ports`): `GetPort`, the first listed port whose
  name contains a fragment.

Points of the code's behaviour worth noting:

- Messages longer than three bytes are examined by their first three
  bytes. A four-byte message on the pedal address becomes a three-byte note (the extra bytes are dropped). A four-byte
  main-knob message moves the track and is forwarded with its extra bytes.
- The code never checks `min_track <= max_track`. The bound lemmas take it
  as a hypothesis. With inverted bounds the range is empty, so the starting
  track `min_track` already lies outside it, and the first advance moves the
  track down to `max_track`.
- The pedal note is not range-checked against the 0–127 MIDI data range.
  `PedalNote` only bounds it by the configured note span.

## Model

| member | source | states |
|---|---|---|
| Midi.Configure | midi.py:27-33 | both controls are addressed on the control channel 176 with the given controller numbers; the bounds, base note and intercept flag are stored as given; the track starts at `min_track`, which is in bounds whenever `min_track <= max_track` |
| Midi.Decompose | midi.py:69 | unpacking succeeds exactly when the message has at least three bytes, and then yields its first three bytes |
| Midi.ShiftTrack | midi.py:89-94 | a shift keeps an in-bounds track in bounds; advancing moves up by exactly one below `max_track` and lands on `max_track` from `max_track` or above; retreating moves down by exactly one above `min_track` and lands on `min_track` from `min_track` or below (a clamp, never a wrap-around) |
| Midi.PedalNote | midi.py:78 | the note maps back to the track it was computed from (`TrackOfNote` is its inverse); for an in-bounds track it lies in `[min_track_note, min_track_note + max_track - min_track]` |
| Midi.Intercept | midi.py:64-84 | only a main-knob message can change the track, and it changes it exactly as `ShiftTrack` with direction `value > 64`; every message that is not a pedal message is forwarded unchanged; a pedal message becomes `[153, note of the resulting track, value]`; the track stays in bounds |
| Midi.NotInterceptedIsIdentity | midi.py:66-67 | with interception off, every message, even one on a configured control, is returned unchanged and the track is untouched |
| Midi.MainKnobShifts | midi.py:71-73 | a main-knob message is forwarded unchanged; the track becomes `min(max_track, track+1)` for a value above 64, else `max(min_track, track-1)` |
| Midi.ThresholdBoundary | midi.py:10 | the threshold 64 is exclusive on the advance side: value 65 advances, while values 64 and 0 both retreat |
| Midi.PedalRemap | midi.py:75-79 | a pedal message, extra bytes and all, becomes exactly `[153, min_track_note + (track - min_track), value]` and the track stays |
| Midi.UnaddressedPassesThrough | midi.py:69-81 | a message on neither control comes back identical, extra bytes included, with the track unchanged |
| Midi.ShortMessageFailsOpen | midi.py:82-84 | a message shorter than three bytes fails to unpack, is returned unchanged, and leaves the track unchanged |
| Midi.CoincidentAddresses | midi.py:71-79 | when both controls share an address, the shift is applied first and the pedal note is that of the shifted track |
| Midi.PedalNoteInjective | midi.py:78 | distinct tracks give distinct pedal notes |
| Midi.PedalExample | midi.py:75-79 | with tracks from 1 and base note 36, a pedal press of 100 on track 3 becomes `[153, 38, 100]` |
| Pipeline.Run | midi.py:58-62 | the callback emits exactly one message per event, and an in-bounds track stays in bounds across the whole stream |
| Pipeline.Dispatch | midi.py:58-62 | handling the events one at a time and appending each sent message gives the same sent stream and final track as the fold `Run` |
| Pipeline.RunAppend | midi.py:58-62 | processing a stream in two consecutive parts, the second starting from the state the first left, equals processing it whole |
| Pipeline.RunInOrder | midi.py:58-62 | the i-th message sent is the transform of the i-th event taken in the state left by the events before it, so nothing is reordered |
| Pipeline.TrackAlwaysInBounds | midi.py:89-94 | starting at `min_track` with `min_track <= max_track`, the track is within the bounds after every prefix of every message stream |
| Pipeline.PassThroughRun | midi.py:66-67 | a pipeline without interception forwards every message of the stream byte for byte and never moves its track |
| Pipeline.QuietStreamKeepsTrack | midi.py:71-73 | a stream containing no main-knob message leaves the track unchanged |
| Pipeline.AdvancesSaturate | midi.py:89-94 | n advancing knob events from a track at most `max_track` reach `min(max_track, track + n)` |
| Pipeline.RetreatsSaturate | midi.py:89-94 | n retreating knob events from a track at least `min_track` reach `max(min_track, track - n)` |
| Pipeline.TimingIrrelevant | midi.py:58-61 | the events' delta times have no effect: streams with the same messages give the same output and final track |
| Pipeline.ClampExample | midi.py:89-94 | with tracks 1 to 8, twenty advancing knob events from track 1 end at track 8 |
| Pipeline.EndToEndScenario | midi.py:64-84 | with the default configuration, five knob events of value 100 from track 1 select track 6, and the following pedal press of 127 is sent as `[153, 41, 127]` |
| Ports.Contains | midi.py:99 | the substring test holds exactly when the fragment occurs in the name at some position |
| Ports.FindFrom | midi.py:98-101 | scanning from a position returns the first port at or after it whose name contains the fragment, and returns None exactly when none does |
| Ports.GetPort | midi.py:97-101 | the result is the index and name of a listed port that contains the fragment, with no earlier port containing it; it is None exactly when no port contains the fragment |
| Ports.GetPortIsFirstMatch | midi.py:97-101 | any port that contains the fragment, with no earlier port containing it, is the one returned |
| Ports.EmptyFragmentSelectsFirst | midi.py:99 | the empty fragment is contained in every name, so it selects port 0 of any non-empty listing |
| Ports.GetPortExample | midi.py:97-101 | in a listing with another device first, the default source fragment `Minilab3 MIDI` selects port 1 |

## Left out

- The rtmidi objects, port opening and closing, `ignore_types`, callback registration and the `with` lifecycle (midi.py:34-56) are foreign I/O and resource handling. The port listing is a parameter of `GetPort` instead.
- Sending (midi.py:62, 86-87) is modelled only as the sequence of sent messages, not as a transport.
- Logging (midi.py:39-40, 60, 77, 83, 95), including the "Activating track" message for a non-zero pedal value, has no effect on behaviour.
- `main` (midi.py:104-189), covering argument parsing, log levels, the idle loop and the keyboard interrupt, is command-line plumbing. Its defaults (knob 29, pedal 127, tracks 1 to 8, base note 36) appear only in the example lemmas.
- The two pipelines run concurrently in the source. They share no mutable state, so each is modelled as its own fold with its own track.
- The failure of the constructor when a port name is not found (midi.py:37-38) is not modelled. Only `GetPort`'s `None` result is.
- Python exceptions other than the failed unpacking of a short message are not modelled. On integer messages nothing else in the guarded block can raise.
