/**
 * The port picker: after each refresh it reconciles the registry's selection
 * with the new list, and it turns the user's choice of a name into a selection.
 */
module PortSelect {
  import opened Wrappers
  import Search
  import opened GrblPort
  import opened PortRegistry

  /** The search predicate of the picker: the port has this name. */
  function NameIs(name: string): PortInfo -> bool
  {
    (p: PortInfo) => p.name == name
  }

  /** `list.some(p => p.name === name)`. */
  predicate IsListed(list: seq<PortInfo>, name: string)
  {
    Search.Any(list, NameIs(name))
  }

  /** `list.find(p => p.name === name) ?? null`: the first listed port with that name. */
  function FindPort(list: seq<PortInfo>, name: string): (r: Option<PortInfo>)
    ensures r.Some? ==> r.value.name == name && r.value in list
    ensures r.None? <==> !IsListed(list, name)
    ensures r.Some? ==> exists i :: 0 <= i < |list| && list[i] == r.value &&
                                    forall j :: 0 <= j < i ==> list[j].name != name
  {
    Search.Find(list, NameIs(name))
  }

  /**
   * The selection after a refresh returned `list`: kept when it is still
   * listed, otherwise replaced by the first port of a non-empty list, and
   * otherwise (empty list) left as it was, even when it has vanished.
   */
  function Reconciled(current: Option<PortInfo>, list: seq<PortInfo>): (r: Option<PortInfo>)
    ensures current.Some? && IsListed(list, current.value.name) ==> r == current
    ensures r != current ==> |list| > 0 && r == Some(list[0])
    ensures |list| > 0 ==> r.Some? && IsListed(list, r.value.name)
    ensures list == [] ==> r == current
  {
    if current.None? || !IsListed(list, current.value.name) then
      if |list| > 0 then Some(list[0]) else current
    else current
  }

  /** Reconciling twice against the same list changes nothing more. */
  lemma ReconcileIdempotent(current: Option<PortInfo>, list: seq<PortInfo>)
    ensures Reconciled(Reconciled(current, list), list) == Reconciled(current, list)
  {
  }

  /** The picker component, bound to the registry service. */
  class PortSelect {
    const service: PortService

    constructor (service: PortService)
      ensures this.service == service
    {
      this.service := service;
    }

    /**
     * `ngOnInit`: refresh the list, then reconcile the selection with what the
     * refresh returned; after a non-empty listing a listed port is selected.
     */
    method OnInit(outcome: ListOutcome)
      modifies service
      ensures service.ports == (if outcome.Listed? then OrEmpty(outcome.list) else [])
      ensures !service.loading
      ensures service.error == (if outcome.Listed? then None else Some(outcome.message))
      ensures service.selected == Reconciled(old(service.selected), service.ports)
      ensures service.ports != [] ==> service.selected.Some? && IsListed(service.ports, service.selected.value.name)
    {
      var list := service.RefreshPorts(outcome);
      var current := service.selected;
      if current.None? || !IsListed(list, current.value.name) {
        if |list| > 0 {
          service.SetSelected(Some(list[0]));
        }
      }
    }

    /**
     * `onPortChange`: an empty choice (the placeholder) changes nothing;
     * otherwise the selection becomes the first listed port with that name,
     * or none when no listed port has it.
     */
    method OnPortChange(value: string)
      modifies service
      ensures value == "" ==> service.selected == old(service.selected)
      ensures value != "" ==> service.selected == FindPort(old(service.ports), value)
      ensures service.ports == old(service.ports) && service.loading == old(service.loading)
      ensures service.error == old(service.error)
    {
      if value == "" {
        return;
      }
      var port := FindPort(service.ports, value);
      service.SetSelected(port);
    }
  }
}
