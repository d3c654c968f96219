/**
 * Per-machine configuration: work area, steps per millimetre and the tool
 * library, with lookup of a tool by its number. Millimetre quantities are
 * kept as opaque `real` constants.
 */
module Profiles {
  import opened Wrappers
  import Search

  newtype u8 = x: int | 0 <= x < 0x100

  /** Work envelope in millimetres. */
  datatype WorkArea = WorkArea(xMm: real, yMm: real, zMm: real)

  /** Steps per millimetre per axis; `a` is the optional bed-extension axis. */
  datatype StepsPerMm = StepsPerMm(x: real, y: real, z: real, a: Option<real>)

  /** One entry of the tool library. */
  datatype ToolEntry = ToolEntry(number: u8, description: string, lengthOffsetMm: Option<real>)

  /** A machine profile. */
  datatype MachineProfile = MachineProfile(
    name: string,
    workArea: WorkArea,
    stepsPerMm: StepsPerMm,
    tools: seq<ToolEntry>)

  /** `StepsPerMm::default()`: 80 steps/mm on X, Y and Z, and no A axis. */
  function DefaultStepsPerMm(): (s: StepsPerMm)
    ensures s.a == None
    ensures s.x == s.y == s.z == 80.0
  {
    StepsPerMm(80.0, 80.0, 80.0, None)
  }

  /** The profile of the PROVerXL 4030: a 24-inch cube of travel, default steps, no tools. */
  function Proverxl4030(): (p: MachineProfile)
    ensures p.name == "PROVerXL 4030"
    ensures p.stepsPerMm == DefaultStepsPerMm()
    ensures p.tools == []
  {
    MachineProfile("PROVerXL 4030", WorkArea(609.6, 609.6, 609.6), DefaultStepsPerMm(), [])
  }

  /** The search predicate of a lookup: the tool carries this number. */
  function HasNumber(number: u8): ToolEntry -> bool
  {
    (t: ToolEntry) => t.number == number
  }

  /**
   * `MachineProfile::tool`: the first tool in the library with the given
   * number, or none when no tool has it.
   */
  function Tool(p: MachineProfile, number: u8): (r: Option<ToolEntry>)
    ensures r.Some? ==> r.value.number == number && r.value in p.tools
    ensures r.None? <==> forall t :: t in p.tools ==> t.number != number
    ensures r.Some? ==> exists i :: 0 <= i < |p.tools| && p.tools[i] == r.value &&
                                    forall j :: 0 <= j < i ==> p.tools[j].number != number
  {
    Search.Find(p.tools, HasNumber(number))
  }

  /** `tools.push(t)`: the profile with one more tool at the end of the library. */
  function PushTool(p: MachineProfile, t: ToolEntry): (q: MachineProfile)
    ensures q.tools == p.tools + [t]
    ensures q.name == p.name && q.workArea == p.workArea && q.stepsPerMm == p.stepsPerMm
  {
    p.(tools := p.tools + [t])
  }

  /**
   * Adding a tool never hides an earlier one: lookup after a push finds the
   * old answer if there was one, else the new tool if its number matches.
   */
  lemma ToolAfterPush(p: MachineProfile, t: ToolEntry, number: u8)
    ensures Tool(PushTool(p, t), number) ==
      if Tool(p, number).Some? then Tool(p, number)
      else if t.number == number then Some(t)
      else None
  {
    Search.FindAppend(p.tools, t, HasNumber(number));
  }

  /** The PROVerXL 4030 has an empty tool library: every lookup finds nothing. */
  lemma ProverxlHasNoTools(number: u8)
    ensures Tool(Proverxl4030(), number) == None
  {
  }

  /** After pushing tool 1 onto the PROVerXL 4030, tool 1 is found and tool 2 is not. */
  lemma ToolLookupExample()
    ensures var p := PushTool(Proverxl4030(), ToolEntry(1, "6mm endmill", Some(45.2)));
            Tool(p, 1) == Some(ToolEntry(1, "6mm endmill", Some(45.2))) && Tool(p, 2) == None
  {
    var t := ToolEntry(1, "6mm endmill", Some(45.2));
    ToolAfterPush(Proverxl4030(), t, 1);
    ToolAfterPush(Proverxl4030(), t, 2);
  }
}
