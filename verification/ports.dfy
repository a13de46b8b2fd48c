/** Port lookup by name: the first port, in the order the transport lists
    them, whose name contains the requested fragment. */
module Ports {

  import opened Options

  /** A port as the lookup reports it: its position in the listing and its name. */
  datatype Port = Port(index: nat, name: string)

  /** `fragment` occurs in `s` starting at position `k`. */
  ghost predicate OccursAt(fragment: string, s: string, k: int) {
    0 <= k && k + |fragment| <= |s| && s[k..k + |fragment|] == fragment
  }

  /** `fragment` is a substring of `s`; the empty string is a substring of every string. */
  ghost predicate IsSubstring(fragment: string, s: string) {
    exists k :: OccursAt(fragment, s, k)
  }

  /** Substring test, trying each start position from the left. */
  function Contains(s: string, fragment: string): (r: bool)
    ensures r <==> IsSubstring(fragment, s)
  {
    if |fragment| > |s| then false
    else if s[..|fragment|] == fragment then
      assert OccursAt(fragment, s, 0);
      true
    else if |s| == 0 then false
    else
      var r := Contains(s[1..], fragment);
      ShiftOccurrence(fragment, s);
      r
  }

  /** Past the first position, `fragment` occurs in `s` exactly where it
      occurs, one place earlier, in `s[1..]`. */
  lemma ShiftOccurrence(fragment: string, s: string)
    requires |s| > 0 && !OccursAt(fragment, s, 0)
    ensures IsSubstring(fragment, s) <==> IsSubstring(fragment, s[1..])
  {
    if IsSubstring(fragment, s) {
      var k :| OccursAt(fragment, s, k);
      assert k > 0;
      assert s[1..][k - 1..k - 1 + |fragment|] == s[k..k + |fragment|];
      assert OccursAt(fragment, s[1..], k - 1);
    }
    if IsSubstring(fragment, s[1..]) {
      var k :| OccursAt(fragment, s[1..], k);
      assert s[1..][k..k + |fragment|] == s[k + 1..k + 1 + |fragment|];
      assert OccursAt(fragment, s, k + 1);
    }
  }

  /** The first port from position `from` on whose name contains `fragment`. */
  function FindFrom(ports: seq<string>, fragment: string, from: nat): (r: Option<Port>)
    requires from <= |ports|
    ensures r.Some? ==> from <= r.value.index < |ports| && r.value.name == ports[r.value.index]
    ensures r.Some? ==> IsSubstring(fragment, r.value.name)
    ensures r.Some? ==> forall j :: from <= j < r.value.index ==> !IsSubstring(fragment, ports[j])
    ensures r.None? <==> forall j :: from <= j < |ports| ==> !IsSubstring(fragment, ports[j])
    decreases |ports| - from
  {
    if from == |ports| then None
    else if Contains(ports[from], fragment) then Some(Port(from, ports[from]))
    else FindFrom(ports, fragment, from + 1)
  }

  /** The first listed port whose name contains `fragment`, or `None` when
      no name does. */
  function GetPort(ports: seq<string>, fragment: string): (r: Option<Port>)
    ensures r.Some? ==> r.value.index < |ports| && r.value.name == ports[r.value.index]
    ensures r.Some? ==> IsSubstring(fragment, r.value.name)
    ensures r.Some? ==> forall j :: 0 <= j < r.value.index ==> !IsSubstring(fragment, ports[j])
    ensures r.None? <==> forall j :: 0 <= j < |ports| ==> !IsSubstring(fragment, ports[j])
  {
    FindFrom(ports, fragment, 0)
  }

  /** The lookup is determined by its contract: any port that contains the
      fragment while none before it does is the one returned. */
  lemma GetPortIsFirstMatch(ports: seq<string>, fragment: string, i: nat)
    requires i < |ports| && IsSubstring(fragment, ports[i])
    requires forall j :: 0 <= j < i ==> !IsSubstring(fragment, ports[j])
    ensures GetPort(ports, fragment) == Some(Port(i, ports[i]))
  {
  }

  /** An empty fragment is contained in every name, so it selects the first
      port whenever there is one. */
  lemma EmptyFragmentSelectsFirst(ports: seq<string>)
    requires |ports| > 0
    ensures GetPort(ports, "") == Some(Port(0, ports[0]))
  {
  }

  /** The default source port name is found in a listing that names it
      after another device. */
  lemma GetPortExample()
    ensures GetPort(["Midi Through Port-0", "Minilab3 MIDI 1"], "Minilab3 MIDI")
      == Some(Port(1, "Minilab3 MIDI 1"))
  {
    var ports := ["Midi Through Port-0", "Minilab3 MIDI 1"];
    assert OccursAt("Minilab3 MIDI", ports[1], 0);
    assert !IsSubstring("Minilab3 MIDI", ports[0]) by {
      var name, fragment := ports[0], "Minilab3 MIDI";
      forall k ensures !OccursAt(fragment, name, k) {
        if k == 0 {
          assert name[k..k + |fragment|][2] != fragment[2];
        } else if 0 < k && k + |fragment| <= |name| {
          assert name[k..k + |fragment|][0] != fragment[0];
        }
      }
    }
    GetPortIsFirstMatch(ports, "Minilab3 MIDI", 1);
  }
}
