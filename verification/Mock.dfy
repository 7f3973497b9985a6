/** The mock robot: a first-order plant that moves toward its target on every read. */
module Mock {
  import opened Types
  import Tick

  datatype Plant = Plant(actual: JointArray, target: JointArray, connected: bool, initialized: bool, lastUpdate: nat)

  const TAU: real := 0.04

  /** The fraction of the gap closed by a read. */
  function Alpha(lastUpdate: nat, now: nat): real {
    var dt := if lastUpdate == 0 then 0.005 else Tick.Seconds((now - lastUpdate) % Tick.UINT64);
    Clamp(dt / TAU, 0.0, 1.0)
  }

  function Toward(x: real, target: real, alpha: real): real {
    x + alpha * (target - x)
  }

  function AfterRead(p: Plant, now: nat): Plant {
    p.(actual := seq(DOF, i requires 0 <= i < DOF => Toward(p.actual[i], p.target[i], Alpha(p.lastUpdate, now))),
       lastUpdate := now)
  }

  /** What a read reports. */
  function Reported(p: Plant): RobotState {
    RobotState(p.actual, true, true, if p.connected then Connected else NotConnected, false)
  }

  predicate Accepts(p: Plant) {
    p.connected && p.initialized
  }

  class MockBackend {
    const initialPose: JointArray
    var connected: bool
    var initialized: bool
    var qActual: JointArray
    var qTarget: JointArray
    var lastUpdate: nat

    ghost function State(): Plant
      reads this
    {
      Plant(qActual, qTarget, connected, initialized, lastUpdate)
    }

    constructor (initialPose: JointArray)
      ensures this.initialPose == initialPose && State() == Plant(ZERO6, ZERO6, false, false, 0)
    {
      this.initialPose := initialPose;
      connected, initialized, qActual, qTarget, lastUpdate := false, false, ZERO6, ZERO6, 0;
    }

    method Connect() returns (ok: bool)
      modifies this
      ensures ok && State() == old(State()).(connected := true)
    {
      connected := true;
      return true;
    }

    method Initialize(now: nat) returns (ok: bool)
      modifies this
      ensures ok && State() == Plant(initialPose, initialPose, old(connected), true, now)
    {
      qActual := initialPose;
      qTarget := initialPose;
      initialized := true;
      lastUpdate := now;
      return true;
    }

    method ReadState(now: nat) returns (ok: bool, state: RobotState)
      modifies this
      ensures ok && State() == AfterRead(old(State()), now) && state == Reported(State())
    {
      var alpha := Alpha(lastUpdate, now);
      lastUpdate := now;
      var out := qActual;
      for i := 0 to DOF
        invariant forall j :: 0 <= j < i ==> out[j] == Toward(qActual[j], qTarget[j], alpha)
        invariant forall j :: i <= j < DOF ==> out[j] == qActual[j]
      {
        out := out[i := Toward(out[i], qTarget[i], alpha)];
      }
      qActual := out;
      return true, RobotState(qActual, true, true, if connected then Connected else NotConnected, false);
    }

    method SendServoJ(q: JointArray) returns (ok: bool)
      modifies this
      ensures ok == (old(connected) && old(initialized)) && State() == old(State()).(target := q)
    {
      qTarget := q;
      return connected && initialized;
    }

    method Stop() returns (ok: bool)
      modifies this
      ensures ok && State() == old(State()).(target := old(qActual))
    {
      qTarget := qActual;
      return true;
    }
  }

  /** A read after 40 ms or more finds the joint at its target, an earlier one has closed the part of the gap
      that the elapsed time is of 40 ms, and the first one ever an eighth of it. */
  lemma ReadTable(p: Plant, now: nat, j: nat)
    requires j < DOF && (p.lastUpdate == 0 || p.lastUpdate <= now < p.lastUpdate + 0x1_0000_0000_0000_0000)
    ensures
      var gap, left := p.target[j] - p.actual[j], p.target[j] - AfterRead(p, now).actual[j];
      var elapsed: int := now - p.lastUpdate;
      && Reported(p) == RobotState(p.actual, true, true, if p.connected then Connected else NotConnected, false)
      && (Accepts(p) <==> p.connected && p.initialized)
      && AfterRead(p, now).lastUpdate == now
      && (p.lastUpdate == 0 ==> left == 0.875 * gap)
      && (p.lastUpdate != 0 && 40_000_000 <= elapsed ==> left == 0.0)
      && (p.lastUpdate != 0 && elapsed <= 40_000_000 ==> left == (1.0 - elapsed as real / 40000000.0) * gap)
  {
    var a := Alpha(p.lastUpdate, now);
    assert AfterRead(p, now).actual[j] == Toward(p.actual[j], p.target[j], a);
    GapLeft(p.actual[j], p.target[j], a);
    if p.lastUpdate != 0 {
      assert Tick.Seconds((now - p.lastUpdate) % Tick.UINT64) == (now - p.lastUpdate) as real / 1000000000.0;
    }
    hide Toward;
  }

  lemma GapLeft(x: real, target: real, alpha: real)
    ensures target - Toward(x, target, alpha) == (1.0 - alpha) * (target - x)
  {}
}
