/**
 * The coordinates panel: three work-coordinate and three machine-coordinate
 * registers. Zeroing writes work registers only; "go to" changes nothing.
 */
module CoordinatesPanel {

  datatype Axis = X | Y | Z

  /** The targets of the "go to" buttons. */
  datatype GoToTarget = GoX | GoY | GoZ | GoXY

  /** A snapshot of the six registers. */
  datatype Registers = Registers(
    workX: real, workY: real, workZ: real,
    machineX: real, machineY: real, machineZ: real)

  /** The registers a freshly created panel shows: work Z is 25, everything else 0. */
  const Initial := Registers(0.0, 0.0, 25.0, 0.0, 0.0, 0.0)

  function Work(r: Registers, a: Axis): real
  {
    match a
    case X => r.workX
    case Y => r.workY
    case Z => r.workZ
  }

  function Machine(r: Registers, a: Axis): real
  {
    match a
    case X => r.machineX
    case Y => r.machineY
    case Z => r.machineZ
  }

  /** Two snapshots agree exactly when all six registers agree. */
  lemma RegistersExtensional(r: Registers, s: Registers)
    requires forall a :: Work(r, a) == Work(s, a) && Machine(r, a) == Machine(s, a)
    ensures r == s
  {
    assert Work(r, X) == Work(s, X) && Work(r, Y) == Work(s, Y) && Work(r, Z) == Work(s, Z);
    assert Machine(r, X) == Machine(s, X) && Machine(r, Y) == Machine(s, Y) && Machine(r, Z) == Machine(s, Z);
  }

  /** Zeroing one axis: its work register becomes 0 and no other register moves. */
  function Zeroed(r: Registers, a: Axis): (z: Registers)
    ensures Work(z, a) == 0.0
    ensures forall b :: b != a ==> Work(z, b) == Work(r, b)
    ensures forall b :: Machine(z, b) == Machine(r, b)
  {
    match a
    case X => r.(workX := 0.0)
    case Y => r.(workY := 0.0)
    case Z => r.(workZ := 0.0)
  }

  /** Zeroing all axes: every work register becomes 0, machine registers stay. */
  function AllZeroed(r: Registers): (z: Registers)
    ensures forall a :: Work(z, a) == 0.0 && Machine(z, a) == Machine(r, a)
  {
    r.(workX := 0.0, workY := 0.0, workZ := 0.0)
  }

  /** Zeroing an axis twice is zeroing it once. */
  lemma ZeroedIdempotent(r: Registers, a: Axis)
    ensures Zeroed(Zeroed(r, a), a) == Zeroed(r, a)
  {
    RegistersExtensional(Zeroed(Zeroed(r, a), a), Zeroed(r, a));
  }

  /** Zeroing two axes gives the same registers in either order. */
  lemma ZeroedCommutes(r: Registers, a: Axis, b: Axis)
    ensures Zeroed(Zeroed(r, a), b) == Zeroed(Zeroed(r, b), a)
  {
    RegistersExtensional(Zeroed(Zeroed(r, a), b), Zeroed(Zeroed(r, b), a));
  }

  /** Zeroing all axes is zeroing X, then Y, then Z. */
  lemma AllZeroedIsEachAxis(r: Registers)
    ensures AllZeroed(r) == Zeroed(Zeroed(Zeroed(r, X), Y), Z)
  {
    RegistersExtensional(AllZeroed(r), Zeroed(Zeroed(Zeroed(r, X), Y), Z));
  }

  /** The panel component. */
  class CoordinatesPanel {
    var workX: real
    var workY: real
    var workZ: real
    var machineX: real
    var machineY: real
    var machineZ: real

    function Snapshot(): Registers
      reads this
    {
      Registers(workX, workY, workZ, machineX, machineY, machineZ)
    }

    constructor ()
      ensures Snapshot() == Initial
    {
      workX, workY, workZ := 0.0, 0.0, 25.0;
      machineX, machineY, machineZ := 0.0, 0.0, 0.0;
    }

    /** `zeroAxis`. */
    method ZeroAxis(a: Axis)
      modifies this
      ensures Snapshot() == Zeroed(old(Snapshot()), a)
    {
      if a == X { workX := 0.0; }
      if a == Y { workY := 0.0; }
      if a == Z { workZ := 0.0; }
    }

    /** `zeroAll`. */
    method ZeroAll()
      modifies this
      ensures Snapshot() == AllZeroed(old(Snapshot()))
    {
      workX := 0.0;
      workY := 0.0;
      workZ := 0.0;
    }

    /** `goTo`: a placeholder with no effect on any register. */
    method GoTo(which: GoToTarget)
      ensures Snapshot() == old(Snapshot())
    {
    }
  }

  /** Zeroing Y on a fresh panel: work Y reads 0, work X/Z and the machine registers are as before. */
  method ZeroYExample()
  {
    var panel := new CoordinatesPanel();
    panel.ZeroAxis(Y);
    assert panel.Snapshot() == Registers(0.0, 0.0, 25.0, 0.0, 0.0, 0.0);
    panel.GoTo(GoXY);
    panel.ZeroAll();
    assert panel.workZ == 0.0 && panel.machineZ == 0.0;
  }
}
