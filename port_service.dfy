/**
 * The port registry: the list of serial ports last fetched from the backend,
 * a loading flag, the last error, and the current selection.
 */
module PortRegistry {
  import opened Wrappers
  import opened GrblPort

  /** What the backend's port listing settled with: a list (possibly null), or a failure message. */
  datatype ListOutcome = Listed(list: Option<seq<PortInfo>>) | ListFailed(message: string)

  /** `list ?? []`. */
  function OrEmpty(list: Option<seq<PortInfo>>): seq<PortInfo>
  {
    match list
    case Some(l) => l
    case None => []
  }

  /** `selectedDisplay`: nothing when no port is selected; otherwise its title, or its name when the title is empty. */
  function DisplayOf(selected: Option<PortInfo>): (r: Option<string>)
    ensures r.None? <==> selected.None?
    ensures selected.Some? && selected.value.title != "" ==> r == Some(selected.value.title)
    ensures selected.Some? && selected.value.title == "" ==> r == Some(selected.value.name)
  {
    match selected
    case None => None
    case Some(p) => Some(if p.title != "" then p.title else p.name)
  }

  /**
   * For a port as the serial library lists it, the display is its full title,
   * which begins with the port's name.
   */
  lemma DisplayOfListedPort(p: SerialPortInfo)
    ensures DisplayOf(Some(Describe(p))) == Some(Describe(p).title)
    ensures p.portName <= DisplayOf(Some(Describe(p))).value
  {
    TitleExtendsName(p.portName, p.portType);
  }

  /** The registry service. */
  class PortService {
    var ports: seq<PortInfo>
    var loading: bool
    var error: Option<string>
    var selected: Option<PortInfo>

    constructor ()
      ensures ports == [] && !loading && error == None && selected == None
    {
      ports, loading, error, selected := [], false, None, None;
    }

    /** `selectedDisplay`: one of the selected port's own strings, or nothing when none is selected. */
    function SelectedDisplay(): (shown: Option<string>)
      reads this
      ensures shown.Some? <==> selected.Some?
      ensures shown.Some? ==> shown.value == selected.value.title || shown.value == selected.value.name
    {
      DisplayOf(selected)
    }

    /** The first half of `refreshPorts`, before the backend answers. */
    method BeginRefresh()
      modifies this
      ensures error == None && ports == [] && loading
      ensures selected == old(selected)
    {
      error := None;
      ports := [];
      loading := true;
    }

    /**
     * The second half of `refreshPorts`, once the backend has answered: the
     * listed ports are held and returned, or the failure message is kept and
     * nothing is returned; either way loading ends.
     */
    method CompleteRefresh(outcome: ListOutcome) returns (list: seq<PortInfo>)
      modifies this
      ensures !loading && selected == old(selected)
      ensures outcome.Listed? ==> list == OrEmpty(outcome.list) && ports == list && error == old(error)
      ensures outcome.ListFailed? ==> list == [] && ports == old(ports) && error == Some(outcome.message)
    {
      match outcome {
        case Listed(l) =>
          list := OrEmpty(l);
          ports := list;
        case ListFailed(message) =>
          error := Some(message);
          list := [];
      }
      loading := false;
    }

    /**
     * `refreshPorts` as one step: afterwards the held list is what was
     * returned, loading is over, the error reflects this refresh only, and
     * the selection is untouched.
     */
    method RefreshPorts(outcome: ListOutcome) returns (list: seq<PortInfo>)
      modifies this
      ensures ports == list && !loading && selected == old(selected)
      ensures outcome.Listed? ==> list == OrEmpty(outcome.list) && error == None
      ensures outcome.ListFailed? ==> list == [] && error == Some(outcome.message)
    {
      BeginRefresh();
      list := CompleteRefresh(outcome);
    }

    /** `setSelected`: any port, or none, with no check against the list. */
    method SetSelected(port: Option<PortInfo>)
      modifies this
      ensures selected == port
      ensures ports == old(ports) && loading == old(loading) && error == old(error)
    {
      selected := port;
    }

    /** `clearError`. */
    method ClearError()
      modifies this
      ensures error == None
      ensures ports == old(ports) && loading == old(loading) && selected == old(selected)
    {
      error := None;
    }
  }
}
