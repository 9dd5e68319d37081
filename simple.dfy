/**
 * The simple trial monitor (`simple.py`) together with the lifecycle every
 * monitor shares (`core.py`): it records the waypoint index of every
 * MISSION_CURRENT message it hears, and at the end of the mission judges the
 * trial good when every waypoint was visited and the vehicle came back to
 * within three metres of home. The distance to home is an input: how it is
 * computed from two coordinates is not part of this model.
 */
module Simple {
  import opened Wrappers
  import opened Ardu

  /** `DIST_APPROX_SAME`: two positions this close, in metres, count as the same. */
  const DistApproxSame: real := 3.0

  /** The state of the monitor's connection to the vehicle. */
  datatype Link = NoConnection | Live | Closed

  /** The indices seen in a stream of MISSION_CURRENT messages. */
  function Seen(seqNums: seq<int>): (r: set<int>)
    ensures forall x :: x in r <==> exists i :: 0 <= i < |seqNums| && seqNums[i] == x
  {
    if seqNums == [] then {}
    else
      var prefix := seqNums[..|seqNums| - 1];
      assert forall i :: 0 <= i < |prefix| ==> prefix[i] == seqNums[i];
      Seen(prefix) + {seqNums[|seqNums| - 1]}
  }

  /** The verdict of a trial: all waypoints, and nothing but them, were visited, and the vehicle ended at home. */
  predicate Verdict(m: Mission, visited: set<int>, distance: real) {
    visited == Waypoints(m) && distance < DistApproxSame
  }

  /**
   * Exact equality is demanded: a waypoint missed, or an index outside the
   * mission visited, both fail the waypoint check.
   */
  lemma VisitedAllExactly(m: Mission, visited: set<int>)
    ensures visited == Waypoints(m) <==>
      && (forall i :: 0 <= i < Len(m) ==> i in visited)
      && (forall x :: x in visited ==> 0 <= x < Len(m))
  {
    WaypointsAreIndices(m);
    if (forall i :: 0 <= i < Len(m) ==> i in visited) && (forall x :: x in visited ==> 0 <= x < Len(m)) {
      assert forall x :: x in visited <==> x in Waypoints(m);
    }
  }

  class SimpleMonitorStatus {
    var reachedHome: bool
    var visitedAllWps: bool

    /** Both flags start false. */
    constructor ()
      ensures !reachedHome && !visitedAllWps
      ensures !IsOk()
    {
      reachedHome, visitedAllWps := false, false;
    }

    /** `is_ok`: the trial is good only if both checks passed. */
    function IsOk(): (ok: bool)
      reads this
      ensures ok ==> reachedHome
      ensures ok ==> visitedAllWps
      ensures reachedHome && visitedAllWps ==> ok
    {
      reachedHome && visitedAllWps
    }
  }

  class SimpleMonitor {
    const mission: Mission
    const status: SimpleMonitorStatus
    var urlMavlink: Option<string>
    var link: Link
    var visited: set<int>

    /** `SimpleMonitor(mission=...)`: a fresh status, no URL, no connection, nothing visited. */
    constructor (mission: Mission)
      ensures this.mission == mission && fresh(status)
      ensures !status.reachedHome && !status.visitedAllWps
      ensures urlMavlink == None && link == NoConnection && visited == {}
    {
      this.mission := mission;
      status := new SimpleMonitorStatus();
      urlMavlink, link, visited := None, NoConnection, {};
    }

    /** `Monitor.is_ok`: the monitor's verdict is its status's verdict. */
    function IsOk(): (ok: bool)
      reads this, status
      ensures ok <==> status.reachedHome && status.visitedAllWps
    {
      status.IsOk()
    }

    /** `attach_to`: remember the MAVLink URL to connect to. */
    method AttachTo(url: string)
      modifies this
      ensures urlMavlink == Some(url)
      ensures link == old(link) && visited == old(visited)
    {
      urlMavlink := Some(url);
    }

    /**
     * `open`: connecting needs a non-empty URL from an earlier `attach_to`
     * (the assertion fails otherwise); once connected, the waypoint listener
     * is installed.
     */
    method Open() returns (ok: bool)
      modifies this
      ensures ok <==> old(urlMavlink).Some? && old(urlMavlink).value != ""
      ensures link == if ok then Live else old(link)
      ensures urlMavlink == old(urlMavlink) && visited == old(visited)
    {
      if urlMavlink.None? || urlMavlink.value == "" {
        return false;
      }
      link := Live;
      ok := true;
    }

    /** `listener_waypoint`: a MISSION_CURRENT message adds its index; nothing is ever removed. */
    method OnMissionCurrent(seqNum: int)
      modifies this
      ensures visited == if old(link) == Live then old(visited) + {seqNum} else old(visited)
      ensures old(visited) <= visited
      ensures link == old(link) && urlMavlink == old(urlMavlink)
    {
      if link == Live {
        visited := visited + {seqNum};
      }
    }

    /**
     * `notify_mission_end`: each flag is set when its check passes and left
     * as it was otherwise. Without a connection, reading the vehicle's
     * position fails before either check.
     */
    method NotifyMissionEnd(distance: real) returns (ok: bool)
      modifies status
      ensures ok <==> link != NoConnection
      ensures ok ==> status.visitedAllWps == (old(status.visitedAllWps) || visited == Waypoints(mission))
      ensures ok ==> status.reachedHome == (old(status.reachedHome) || distance < DistApproxSame)
      ensures !ok ==> unchanged(status)
    {
      if link == NoConnection {
        return false;
      }
      if visited == Waypoints(mission) {
        status.visitedAllWps := true;
      }
      if distance < DistApproxSame {
        status.reachedHome := true;
      }
      ok := true;
    }

    /** `close`: only an opened connection is closed. */
    method Close()
      modifies this
      ensures link == if old(link) == NoConnection then NoConnection else Closed
      ensures urlMavlink == old(urlMavlink) && visited == old(visited)
    {
      if link != NoConnection {
        link := Closed;
      }
    }

    /** `__enter__`: open, and hand back the monitor itself. */
    method Enter() returns (r: Option<SimpleMonitor>)
      modifies this
      ensures r.Some? <==> old(urlMavlink).Some? && old(urlMavlink).value != ""
      ensures r.Some? ==> r.value == this && link == Live
      ensures r.None? ==> link == old(link)
      ensures urlMavlink == old(urlMavlink) && visited == old(visited)
    {
      var ok := Open();
      r := if ok then Some(this) else None;
    }

    /** `__exit__`: close whatever the reason for leaving; an exception is never suppressed. */
    method Exit(failed: bool) returns (suppressed: bool)
      modifies this
      ensures !suppressed
      ensures link == if old(link) == NoConnection then NoConnection else Closed
      ensures urlMavlink == old(urlMavlink) && visited == old(visited)
    {
      Close();
      suppressed := false;
    }
  }

  /**
   * One monitored trial: attach to `url`, enter the monitor's scope, hear the
   * MISSION_CURRENT indices `seqNums` in order, notify the end of the
   * mission with the final distance to home, leave the scope and ask for
   * the verdict. When the monitor cannot be opened the trial is not good.
   */
  method MonitorTrial(mission: Mission, url: string, seqNums: seq<int>, distance: real) returns (ok: bool)
    ensures ok <==> url != "" && Verdict(mission, Seen(seqNums), distance)
  {
    var monitor := new SimpleMonitor(mission);
    monitor.AttachTo(url);
    var entered := monitor.Enter();
    if entered.None? {
      return false;
    }
    for i := 0 to |seqNums|
      invariant monitor.link == Live
      invariant monitor.visited == Seen(seqNums[..i])
      invariant !monitor.status.reachedHome && !monitor.status.visitedAllWps
    {
      assert seqNums[..i + 1][..i] == seqNums[..i];
      monitor.OnMissionCurrent(seqNums[i]);
    }
    assert seqNums[..|seqNums|] == seqNums;
    var _ := monitor.NotifyMissionEnd(distance);
    var _ := monitor.Exit(false);
    ok := monitor.IsOk();
  }
}
