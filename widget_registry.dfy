/*
 * The widget registry: the providers registered by id, a configuration per
 * registered widget, and the ordered list of widgets currently shown.
 */
module WidgetRegistry {
  import opened Common

  /** A provider object, by identity; the model never looks inside one. */
  type Provider = nat

  predicate NoDuplicates<T(==)>(s: seq<T>)
  {
    forall i, j :: 0 <= i < j < |s| ==> s[i] != s[j]
  }

  /** `QList::removeAll`: every occurrence of `x` goes, the rest keeps its order. */
  function RemoveAll(s: seq<string>, x: string): (r: seq<string>)
    ensures x !in r
    ensures forall y :: y != x ==> (y in r <==> y in s)
    ensures x !in s ==> r == s
    ensures NoDuplicates(s) ==> NoDuplicates(r)
  {
    if |s| == 0 then []
    else if s[0] == x then RemoveAll(s[1..], x)
    else
      assert NoDuplicates(s) ==> s[0] !in s[1..];
      [s[0]] + RemoveAll(s[1..], x)
  }

  datatype Signal =
    | WidgetsChanged
    | ActiveWidgetsChanged
    | WidgetActivated(id: string)
    | WidgetDeactivated(id: string)
    | WidgetConfigChanged(id: string, config: map<string, Value>)

  class Registry {
    var providers: map<string, Provider>
    var configurations: map<string, map<string, Value>>
    var activeWidgets: seq<string>
    var signals: seq<Signal>

    /** Only registered widgets are active or configured, and none is active twice. */
    ghost predicate Valid()
      reads this
    {
      (forall w :: w in activeWidgets ==> w in providers)
      && NoDuplicates(activeWidgets)
      && configurations.Keys <= providers.Keys
    }

    constructor()
      ensures Valid()
      ensures providers == map[] && configurations == map[] && activeWidgets == [] && signals == []
    {
      providers := map[];
      configurations := map[];
      activeWidgets := [];
      signals := [];
    }

    /** `isWidgetActive`. */
    function IsWidgetActive(id: string): bool
      reads this
    {
      id in activeWidgets
    }

    /** `getWidget`: the provider, or null. */
    function GetWidget(id: string): (r: Option<Provider>)
      reads this
      ensures r.Some? <==> id in providers
    {
      if id in providers then Some(providers[id]) else None
    }

    /** `getWidgetConfig`: the stored configuration, or an empty map. */
    function GetWidgetConfig(id: string): (r: map<string, Value>)
      reads this
      ensures id !in configurations ==> r == map[]
    {
      if id in configurations then configurations[id] else map[]
    }

    /** `registerWidget`: refused for a taken id or a null provider. */
    method RegisterWidget(id: string, provider: Option<Provider>)
      requires Valid()
      modifies this
      ensures Valid()
      ensures id in old(providers) || provider.None? ==>
        providers == old(providers) && signals == old(signals)
      ensures id !in old(providers) && provider.Some? ==>
        providers == old(providers)[id := provider.value] && signals == old(signals) + [WidgetsChanged]
      ensures configurations == old(configurations) && activeWidgets == old(activeWidgets)
    {
      if id in providers {
        return;
      }
      if provider.None? {
        return;
      }
      providers := providers[id := provider.value];
      signals := signals + [WidgetsChanged];
    }

    /** `unregisterWidget`: drop the provider, its configuration and its place in the active list. */
    method UnregisterWidget(id: string)
      requires Valid()
      modifies this
      ensures Valid()
      ensures id !in old(providers) ==>
        providers == old(providers) && configurations == old(configurations)
        && activeWidgets == old(activeWidgets) && signals == old(signals)
      ensures id in old(providers) ==>
        providers == old(providers) - {id} && configurations == old(configurations) - {id}
        && activeWidgets == RemoveAll(old(activeWidgets), id)
        && signals == old(signals) + [WidgetsChanged, ActiveWidgetsChanged]
    {
      if id !in providers {
        return;
      }
      providers := providers - {id};
      configurations := configurations - {id};
      activeWidgets := RemoveAll(activeWidgets, id);
      signals := signals + [WidgetsChanged, ActiveWidgetsChanged];
    }

    /** `activateWidget`: append a registered, inactive widget; otherwise nothing happens. */
    method ActivateWidget(id: string)
      requires Valid()
      modifies this
      ensures Valid()
      ensures id in providers && id !in old(activeWidgets) ==>
        activeWidgets == old(activeWidgets) + [id]
        && signals == old(signals) + [WidgetActivated(id), ActiveWidgetsChanged]
      ensures id !in providers || id in old(activeWidgets) ==>
        activeWidgets == old(activeWidgets) && signals == old(signals)
      ensures providers == old(providers) && configurations == old(configurations)
    {
      if id !in providers {
        return;
      }
      if id in activeWidgets {
        return;
      }
      activeWidgets := activeWidgets + [id];
      signals := signals + [WidgetActivated(id), ActiveWidgetsChanged];
    }

    /** `deactivateWidget`: remove an active widget; nothing happens for an inactive one. */
    method DeactivateWidget(id: string)
      requires Valid()
      modifies this
      ensures Valid()
      ensures id in old(activeWidgets) ==>
        activeWidgets == RemoveAll(old(activeWidgets), id)
        && signals == old(signals) + [WidgetDeactivated(id), ActiveWidgetsChanged]
      ensures id !in old(activeWidgets) ==> activeWidgets == old(activeWidgets) && signals == old(signals)
      ensures !IsWidgetActive(id)
      ensures providers == old(providers) && configurations == old(configurations)
    {
      if id !in activeWidgets {
        return;
      }
      activeWidgets := RemoveAll(activeWidgets, id);
      signals := signals + [WidgetDeactivated(id), ActiveWidgetsChanged];
    }

    /** `toggleWidget`: a registered widget changes between shown and hidden. */
    method ToggleWidget(id: string)
      requires Valid()
      modifies this
      ensures Valid()
      ensures id in providers ==> IsWidgetActive(id) == !old(IsWidgetActive(id))
      ensures id in old(activeWidgets) ==>
        activeWidgets == RemoveAll(old(activeWidgets), id)
        && signals == old(signals) + [WidgetDeactivated(id), ActiveWidgetsChanged]
      ensures id in providers && id !in old(activeWidgets) ==>
        activeWidgets == old(activeWidgets) + [id]
        && signals == old(signals) + [WidgetActivated(id), ActiveWidgetsChanged]
      ensures id !in providers ==> activeWidgets == old(activeWidgets) && signals == old(signals)
      ensures forall w :: w != id ==> (IsWidgetActive(w) <==> old(IsWidgetActive(w)))
      ensures providers == old(providers) && configurations == old(configurations)
    {
      if IsWidgetActive(id) {
        DeactivateWidget(id);
      } else {
        ActivateWidget(id);
      }
    }

    /** `setWidgetConfig`: store the configuration of a registered widget; others are refused. */
    method SetWidgetConfig(id: string, config: map<string, Value>)
      requires Valid()
      modifies this
      ensures Valid()
      ensures id in providers ==>
        configurations == old(configurations)[id := config] && GetWidgetConfig(id) == config
        && signals == old(signals) + [WidgetConfigChanged(id, config)]
      ensures id !in providers ==> configurations == old(configurations) && signals == old(signals)
      ensures providers == old(providers) && activeWidgets == old(activeWidgets)
    {
      if id !in providers {
        return;
      }
      configurations := configurations[id := config];
      signals := signals + [WidgetConfigChanged(id, config)];
    }

    /** `clear`: forget every widget. */
    method Clear()
      modifies this
      ensures Valid()
      ensures providers == map[] && configurations == map[] && activeWidgets == []
      ensures signals == old(signals) + [WidgetsChanged, ActiveWidgetsChanged]
    {
      providers := map[];
      configurations := map[];
      activeWidgets := [];
      signals := signals + [WidgetsChanged, ActiveWidgetsChanged];
    }
  }

  /** Activating a widget a second time changes nothing. */
  method ActivateTwice(registry: Registry, id: string)
    requires registry.Valid()
    modifies registry
    ensures registry.Valid()
    ensures id in registry.providers && id !in old(registry.activeWidgets) ==>
      registry.activeWidgets == old(registry.activeWidgets) + [id]
    ensures id !in registry.providers || id in old(registry.activeWidgets) ==>
      registry.activeWidgets == old(registry.activeWidgets)
  {
    registry.ActivateWidget(id);
    registry.ActivateWidget(id);
  }
}
