/** The zone tracker's own state and how a "Subscribed" zone list selects
    the zone to follow. */
module Tracker {
  import opened Common

  /** A zone as the transport service reports it. */
  datatype Zone = Zone(zoneId: string, displayName: string, state: string)

  /** The tracker: the zone followed (if any), its id and its last seen
      playback state. */
  datatype TrackerState = TrackerState(zone: Option<Zone>, zoneId: string, lastState: string)

  /** A tracker as created on pairing. */
  const Fresh: TrackerState := TrackerState(None, "", "")

  /** The tracker after adopting zone `z`. */
  function Follow(z: Zone): (t: TrackerState)
    ensures t.zone == Some(z) && t.zoneId == z.zoneId && t.lastState == z.state
  {
    TrackerState(Some(z), z.zoneId, z.state)
  }

  /** Walks a "Subscribed" zone list front to back, adopting every zone
      whose display name equals `name`. The tracker it ends with is the one
      it started from or follows some zone of the list bearing that name. */
  function Scan(t: TrackerState, zones: seq<Zone>, name: string): (r: TrackerState)
    ensures r == t || exists k :: 0 <= k < |zones| && zones[k].displayName == name && r == Follow(zones[k])
    decreases |zones|
  {
    if |zones| == 0 then t
    else
      var next := if zones[0].displayName == name then Follow(zones[0]) else t;
      var r := Scan(next, zones[1..], name);
      assert r != next ==> exists k :: 0 <= k < |zones| && zones[k].displayName == name && r == Follow(zones[k]) by {
        if r != next {
          var j :| 0 <= j < |zones[1..]| && zones[1..][j].displayName == name && r == Follow(zones[1..][j]);
          assert zones[j + 1] == zones[1..][j];
        }
      }
      r
  }

  /** No zone of the list is named `name`. */
  predicate NoMatch(zones: seq<Zone>, name: string)
  {
    forall j :: 0 <= j < |zones| ==> zones[j].displayName != name
  }

  /** `k` is the last position of the list holding a zone named `name`. */
  predicate IsLastMatch(zones: seq<Zone>, name: string, k: int)
  {
    && 0 <= k < |zones|
    && zones[k].displayName == name
    && forall j :: k < j < |zones| ==> zones[j].displayName != name
  }

  /** Without a matching zone the scan leaves the tracker as it was. */
  lemma {:induction false} ScanWithoutMatch(t: TrackerState, zones: seq<Zone>, name: string)
    requires NoMatch(zones, name)
    ensures Scan(t, zones, name) == t
    decreases |zones|
  {
    if |zones| > 0 {
      assert zones[0].displayName != name;
      ScanWithoutMatch(t, zones[1..], name);
    }
  }

  /** The scan ends up following the last zone named `name`. */
  lemma {:induction false} ScanFollowsLastMatch(t: TrackerState, zones: seq<Zone>, name: string, k: int)
    requires IsLastMatch(zones, name, k)
    ensures Scan(t, zones, name) == Follow(zones[k])
    decreases |zones|
  {
    if k == 0 {
      assert NoMatch(zones[1..], name) by {
        forall j | 0 <= j < |zones[1..]|
          ensures zones[1..][j].displayName != name
        {
          assert zones[1..][j] == zones[j + 1];
        }
      }
      ScanWithoutMatch(Follow(zones[0]), zones[1..], name);
    } else {
      var next := if zones[0].displayName == name then Follow(zones[0]) else t;
      assert IsLastMatch(zones[1..], name, k - 1) by {
        forall j | k - 1 < j < |zones[1..]|
          ensures zones[1..][j].displayName != name
        {
          assert zones[1..][j] == zones[j + 1];
        }
      }
      ScanFollowsLastMatch(next, zones[1..], name, k - 1);
    }
  }
}
