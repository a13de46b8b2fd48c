/** One pipeline as the transport drives it: each arriving event is run
    through the transform and the result sent on, one output per input, in
    arrival order, with the track carried from one event to the next.

    The intercepting pipeline (controller to loopback) and the pass-through
    pipeline (loopback to controller) share no mutable state, so each is a
    separate fold over its own event stream. */
module Pipeline {

  import opened Midi

  /** A raw arrival as the transport reports it: the message bytes and the
      time since the previous message, which the handler ignores. */
  datatype Event = Event(message: Message, deltaTime: real)

  /** The messages sent on, in order, and the track after the last event. */
  datatype Batch = Batch(outs: seq<Message>, final: TrackState)

  /** The messages carried by a stream of events. */
  function Messages(evs: seq<Event>): (ms: seq<Message>)
    ensures |ms| == |evs|
    ensures forall i :: 0 <= i < |evs| ==> ms[i] == evs[i].message
  {
    seq(|evs|, i requires 0 <= i < |evs| => evs[i].message)
  }

  /** The handler applied to every event of `evs` in turn, starting from `s`. */
  function Run(c: Config, s: TrackState, evs: seq<Event>): (r: Batch)
    ensures |r.outs| == |evs|
    ensures InBounds(c, s) ==> InBounds(c, r.final)
  {
    if |evs| == 0 then Batch([], s)
    else
      var p := Run(c, s, evs[..|evs| - 1]);
      var t := Intercept(c, p.final, evs[|evs| - 1].message);
      Batch(p.outs + [t.out], t.next)
  }

  /** The handler loop as the transport runs it: one event at a time, the
      transformed message appended to what has been sent so far. */
  method Dispatch(c: Config, s: TrackState, evs: seq<Event>) returns (sent: seq<Message>, final: TrackState)
    ensures sent == Run(c, s, evs).outs
    ensures final == Run(c, s, evs).final
    ensures |sent| == |evs|
    ensures InBounds(c, s) ==> InBounds(c, final)
  {
    sent := [];
    final := s;
    var i := 0;
    while i < |evs|
      invariant 0 <= i <= |evs|
      invariant Batch(sent, final) == Run(c, s, evs[..i])
    {
      assert evs[..i + 1][..i] == evs[..i];
      var t := Intercept(c, final, evs[i].message);
      sent := sent + [t.out];
      final := t.next;
      i := i + 1;
    }
    assert evs[..i] == evs;
  }

  /** Running a stream in two parts is running it whole. */
  lemma {:induction false} RunAppend(c: Config, s: TrackState, a: seq<Event>, b: seq<Event>)
    ensures Run(c, s, a + b) ==
      Batch(Run(c, s, a).outs + Run(c, Run(c, s, a).final, b).outs, Run(c, Run(c, s, a).final, b).final)
    decreases |b|
  {
    if |b| == 0 {
      assert a + b == a;
    } else {
      var b' := b[..|b| - 1];
      assert (a + b)[..|a + b| - 1] == a + b';
      RunAppend(c, s, a, b');
    }
  }

  /** The `i`-th message sent is the transform of the `i`-th event, taken
      in the state left by all events before it. */
  lemma {:induction false} RunInOrder(c: Config, s: TrackState, evs: seq<Event>, i: int)
    requires 0 <= i < |evs|
    ensures Run(c, s, evs).outs[i] == Intercept(c, Run(c, s, evs[..i]).final, evs[i].message).out
    decreases |evs|
  {
    if i < |evs| - 1 {
      var init := evs[..|evs| - 1];
      RunInOrder(c, s, init, i);
      assert init[..i] == evs[..i];
    } else {
      assert evs[..|evs| - 1] == evs[..i];
    }
  }

  /** Starting at the lowest track of a well-formed range, the track stays in
      range after every prefix of every stream. */
  lemma TrackAlwaysInBounds(c: Config, evs: seq<Event>)
    requires c.minTrack <= c.maxTrack
    ensures forall i :: 0 <= i <= |evs| ==>
      InBounds(c, Run(c, TrackState(c.minTrack), evs[..i]).final)
  {
  }

  /** The pass-through pipeline sends every message exactly as it arrived
      and never moves its track. */
  lemma {:induction false} PassThroughRun(c: Config, s: TrackState, evs: seq<Event>)
    requires !c.intercept
    ensures Run(c, s, evs) == Batch(Messages(evs), s)
  {
    if |evs| > 0 {
      var init := evs[..|evs| - 1];
      PassThroughRun(c, s, init);
      assert Messages(evs) == Messages(init) + [evs[|evs| - 1].message];
    }
  }

  /** A stream with no main-knob message leaves the track where it was. */
  lemma {:induction false} QuietStreamKeepsTrack(c: Config, s: TrackState, evs: seq<Event>)
    requires forall i :: 0 <= i < |evs| ==> !IsMainKnob(c, evs[i].message)
    ensures Run(c, s, evs).final == s
  {
    if |evs| > 0 {
      QuietStreamKeepsTrack(c, s, evs[..|evs| - 1]);
    }
  }

  /** `n` advancing main-knob events from an in-range track reach
      `min(maxTrack, track + n)`: the track climbs one per event and then
      stays at the top. */
  lemma {:induction false} AdvancesSaturate(c: Config, s: TrackState, evs: seq<Event>)
    requires s.track <= c.maxTrack
    requires forall i :: 0 <= i < |evs| ==>
      IsMainKnob(c, evs[i].message) && evs[i].message[2] > MainKnobThreshold
    ensures Run(c, s, evs).final.track == Min(c.maxTrack, s.track + |evs|)
  {
    if |evs| > 0 {
      AdvancesSaturate(c, s, evs[..|evs| - 1]);
    }
  }

  /** `n` retreating main-knob events from an in-range track reach
      `max(minTrack, track - n)`. */
  lemma {:induction false} RetreatsSaturate(c: Config, s: TrackState, evs: seq<Event>)
    requires s.track >= c.minTrack
    requires forall i :: 0 <= i < |evs| ==>
      IsMainKnob(c, evs[i].message) && evs[i].message[2] <= MainKnobThreshold
    ensures Run(c, s, evs).final.track == Max(c.minTrack, s.track - |evs|)
  {
    if |evs| > 0 {
      RetreatsSaturate(c, s, evs[..|evs| - 1]);
    }
  }

  /** The time stamps of the events play no part: two streams carrying the
      same messages give the same output and the same final track. */
  lemma {:induction false} TimingIrrelevant(c: Config, s: TrackState, a: seq<Event>, b: seq<Event>)
    requires Messages(a) == Messages(b)
    ensures Run(c, s, a) == Run(c, s, b)
  {
    if |a| > 0 {
      var a', b' := a[..|a| - 1], b[..|b| - 1];
      assert Messages(a') == Messages(b') by {
        forall i | 0 <= i < |a'| ensures a'[i].message == b'[i].message {
          assert Messages(a)[i] == Messages(b)[i];
        }
      }
      assert a[|a| - 1].message == Messages(a)[|a| - 1] == Messages(b)[|b| - 1] == b[|b| - 1].message;
      TimingIrrelevant(c, s, a', b');
    }
  }

  /** With tracks 1 to 8, twenty advancing turns from track 1 stop at track 8. */
  lemma ClampExample()
    ensures
      var c := Configure(29, 127, 1, 8, 36, true).0;
      Run(c, TrackState(1), seq(20, _ => Event([176, 29, 100], 0.0))).final == TrackState(8)
  {
    var c := Configure(29, 127, 1, 8, 36, true).0;
    var evs := seq(20, _ => Event([176, 29, 100], 0.0));
    assert forall i :: 0 <= i < |evs| ==> evs[i] == Event([176, 29, 100], 0.0);
    AdvancesSaturate(c, TrackState(1), evs);
  }

  /** The default session: from track 1 of 8, five advancing turns of knob 29
      select track 6, and the pedal on controller 127 then plays note 41. */
  lemma EndToEndScenario()
    ensures
      var c := Configure(29, 127, 1, 8, 36, true).0;
      var knob := Event([176, 29, 100], 0.0);
      var r := Run(c, TrackState(1), [knob, knob, knob, knob, knob, Event([176, 127, 127], 0.0)]);
      r.final == TrackState(6) && r.outs[5] == [153, 41, 127]
  {
    var c := Configure(29, 127, 1, 8, 36, true).0;
    var knob := Event([176, 29, 100], 0.0);
    var evs := [knob, knob, knob, knob, knob, Event([176, 127, 127], 0.0)];
    AdvancesSaturate(c, TrackState(1), evs[..5]);
    assert evs[..|evs| - 1] == evs[..5];
  }
}
