/** The tab manager and its event bus. The bus keeps, per event name, the listeners in the order
    they were registered; a listener is known by its identity only, and what it does when called
    is reduced to whether it throws. Calls to listeners are recorded as a list of deliveries. */
module Tabs {
  import opened Wrappers
  import opened Seqs

  /** A callback function, by identity (`===`). */
  type Listener = nat

  /** The data an event carries. */
  datatype Payload =
    | NoData
    | Switching(from: string, to: string)
    | TabEvent(tabName: string)
    | Switched(from: string, to: string, activeTab: string)

  /** One call `callback(data)`; `threw`: the callback threw and the bus logged the error. */
  datatype Delivery = Delivery(listener: Listener, data: Payload, threw: bool)

  /** Whether a listener throws when called with some data. */
  type Reaction = (Listener, Payload) -> bool

  /** `emit(event, data)` on a list of listeners: each one is called, in order. */
  function Deliver(ls: seq<Listener>, data: Payload, react: Reaction): (ds: seq<Delivery>)
    ensures |ds| == |ls|
    ensures forall i :: 0 <= i < |ls| ==> ds[i] == Delivery(ls[i], data, react(ls[i], data))
  {
    seq(|ls|, i requires 0 <= i < |ls| => Delivery(ls[i], data, react(ls[i], data)))
  }

  /** `list.filter(cb => cb !== callback)`. */
  function Without(ls: seq<Listener>, callback: Listener): seq<Listener> {
    Filter(ls, (cb: Listener) => cb != callback)
  }

  /** Removing a listener drops every occurrence of it, keeps every other listener and keeps
      their order. */
  lemma {:induction false} WithoutSpec(ls: seq<Listener>, callback: Listener)
    ensures callback !in Without(ls, callback)
    ensures forall x :: x in Without(ls, callback) <==> x in ls && x != callback
    ensures IsSubsequence(Without(ls, callback), ls)
  {
    FilterIsSubsequence(ls, (cb: Listener) => cb != callback);
  }

  /** `off` undoes an `on` of a listener that was not registered. */
  lemma {:induction false} OffUndoesOn(ls: seq<Listener>, callback: Listener)
    requires callback !in ls
    ensures Without(ls + [callback], callback) == ls
  {
    var p := (cb: Listener) => cb != callback;
    FilterAppend(ls, [callback], p);
    FilterKeepsAll(ls, p);
    assert Filter([callback], p) == [];
  }

  class EventBus {
    var events: map<string, seq<Listener>>

    constructor()
      ensures events == map[]
    {
      events := map[];
    }

    /** The listeners of an event; an event never listened to has none. */
    function Listeners(event: string): seq<Listener>
      reads this
    {
      if event in events then events[event] else []
    }

    /** `on(event, callback)`: the callback goes last in that event's list, which is created if
        absent; no other event changes. */
    method On(event: string, callback: Listener)
      modifies this
      ensures events == old(events)[event := old(Listeners(event)) + [callback]]
      ensures Listeners(event) == old(Listeners(event)) + [callback]
      ensures forall e :: e != event ==> Listeners(e) == old(Listeners(e))
    {
      if event !in events {
        events := events[event := []];
      }
      events := events[event := events[event] + [callback]];
    }

    /** `off(event, callback)`: every occurrence of the callback leaves that event's list; an
        event never listened to is left alone. */
    method Off(event: string, callback: Listener)
      modifies this
      ensures event !in old(events) ==> events == old(events)
      ensures event in old(events) ==> events == old(events)[event := Without(old(events)[event], callback)]
      ensures Listeners(event) == Without(old(Listeners(event)), callback)
      ensures forall e :: e != event ==> Listeners(e) == old(Listeners(e))
    {
      if event !in events {
        return;
      }
      events := events[event := Without(events[event], callback)];
    }

    /** `emit(event, data)`: every listener of the event is called with the data, in
        registration order; one that throws is logged and the next one is still called. */
    method Emit(event: string, data: Payload, react: Reaction) returns (deliveries: seq<Delivery>)
      ensures |deliveries| == |Listeners(event)|
      ensures forall i :: 0 <= i < |deliveries| ==>
        deliveries[i] == Delivery(Listeners(event)[i], data, react(Listeners(event)[i], data))
    {
      deliveries := [];
      if event in events {
        var ls := events[event];
        for i := 0 to |ls|
          invariant |deliveries| == i
          invariant forall k :: 0 <= k < i ==> deliveries[k] == Delivery(ls[k], data, react(ls[k], data))
        {
          var threw := react(ls[i], data);
          deliveries := deliveries + [Delivery(ls[i], data, threw)];
        }
      }
    }

    /** `clear()`: no event has a listener any more. */
    method Clear()
      modifies this
      ensures events == map[]
      ensures forall e :: Listeners(e) == []
    {
      events := map[];
    }
  }

  /** The three tabs `tabConfig` describes. */
  predicate IsTab(name: string) {
    name == "dashboard" || name == "indienstein" || name == "infospace"
  }

  const BeforeTabSwitch := "tabManager:beforeTabSwitch"
  const AfterTabSwitch := "tabManager:afterTabSwitch"
  const TabActivated := "tab:activated"
  const TabDeactivated := "tab:deactivated"
  const ActiveTabKey := "indienstein_active_tab"

  /** One `eventBus.emit(event, data)`. */
  datatype Emission = Emission(event: string, data: Payload)

  /** The module instance behind a tab. */
  datatype Module = DashboardModule | InfoSpaceModule | UiModule

  /** The listeners' calls for a list of emissions, made in order on a bus in state `events`. */
  function Dispatch(events: map<string, seq<Listener>>, es: seq<Emission>, react: Reaction): seq<Delivery>
    decreases |es|
  {
    if |es| == 0 then []
    else
      var e := es[|es| - 1];
      Dispatch(events, es[..|es| - 1], react)
        + Deliver(if e.event in events then events[e.event] else [], e.data, react)
  }

  /** `activateTab(tab)`: the tab's module, if any, is initialised; `tab:activated` is sent
      unless that initialisation threw. */
  function Activation(tab: string, modules: map<string, Module>, initThrows: string -> bool): seq<Emission> {
    if tab in modules && initThrows(tab) then [] else [Emission(TabActivated, TabEvent(tab))]
  }

  /** What a switch from `from` to `to` emits, in order. The `afterTabSwitch` data is built after
      `activeTab` has become `to`, so its `from` is `to` as well. */
  function SwitchEmissions(from: string, to: string, modules: map<string, Module>, initThrows: string -> bool)
    : seq<Emission>
  {
    [Emission(BeforeTabSwitch, Switching(from, to)), Emission(TabDeactivated, TabEvent(from))]
      + Activation(to, modules, initThrows)
      + [Emission(AfterTabSwitch, Switched(to, to, to))]
  }

  /** A switch announces itself first and last: `beforeTabSwitch` with the old and the new tab,
      and `afterTabSwitch` with the new tab in all three fields. */
  lemma {:induction false} SwitchEmissionsSpec(from: string, to: string, modules: map<string, Module>,
    initThrows: string -> bool)
    ensures var es := SwitchEmissions(from, to, modules, initThrows);
      && (|es| == 4 || |es| == 3)
      && es[0] == Emission(BeforeTabSwitch, Switching(from, to))
      && es[1] == Emission(TabDeactivated, TabEvent(from))
      && es[|es| - 1].event == AfterTabSwitch
      && es[|es| - 1].data.from == to && es[|es| - 1].data.to == to && es[|es| - 1].data.activeTab == to
      && (Emission(TabActivated, TabEvent(to)) in es <==> !(to in modules && initThrows(to)))
  {
    var es := SwitchEmissions(from, to, modules, initThrows);
    var a := Activation(to, modules, initThrows);
    assert es == [es[0], es[1]] + a + [es[|es| - 1]];
    assert BeforeTabSwitch != TabActivated && TabDeactivated != TabActivated && AfterTabSwitch != TabActivated by {
      assert |BeforeTabSwitch| == 26 && |TabDeactivated| == 15 && |AfterTabSwitch| == 25 && |TabActivated| == 13;
    }
  }

  class TabManager {
    var activeTab: string
    var modules: map<string, Module>
    const bus: EventBus
    /** What localStorage holds under `indienstein_active_tab`. */
    var savedTab: Option<string>

    /** The active tab is one of the three, and only the three tabs can have a module. */
    predicate Valid()
      reads this
    {
      IsTab(activeTab) && forall t :: t in modules ==> IsTab(t)
    }

    constructor(savedTab: Option<string>)
      ensures Valid() && activeTab == "dashboard" && modules == map[]
      ensures this.savedTab == savedTab && fresh(bus) && bus.events == map[]
    {
      activeTab := "dashboard";
      modules := map[];
      bus := new EventBus();
      this.savedTab := savedTab;
    }

    /** `initializeModules()`: each module whose class is loaded is attached to its tab; the
        Indienstein tab takes the global UI instance, if there is one. */
    method InitializeModules(hasDashboard: bool, hasInfoSpace: bool, hasUi: bool)
      requires Valid()
      modifies this
      ensures Valid() && activeTab == old(activeTab) && savedTab == old(savedTab)
      ensures modules.Keys == old(modules.Keys)
        + (if hasDashboard then {"dashboard"} else {})
        + (if hasInfoSpace then {"infospace"} else {})
        + (if hasUi then {"indienstein"} else {})
      ensures hasDashboard ==> modules["dashboard"] == DashboardModule
      ensures hasInfoSpace ==> modules["infospace"] == InfoSpaceModule
      ensures hasUi ==> modules["indienstein"] == UiModule
    {
      if hasDashboard {
        modules := modules["dashboard" := DashboardModule];
      }
      if hasInfoSpace {
        modules := modules["infospace" := InfoSpaceModule];
      }
      if hasUi {
        modules := modules["indienstein" := UiModule];
      }
    }

    /** `getModule(tabName)`: the module, or `null`. */
    function GetModule(tabName: string): (m: Option<Module>)
      reads this
      requires Valid()
      ensures m.Some? <==> tabName in modules
      ensures !IsTab(tabName) ==> m.None?
    {
      if tabName in modules then Some(modules[tabName]) else None
    }

    /** `switchTab(tabName)`: an unknown tab or the active one changes nothing and emits nothing;
        any other becomes active, is saved as the preference, and the switch is announced on the
        bus. `initThrows(t)` says whether the module of tab `t` throws when initialised. */
    method SwitchTab(tabName: string, react: Reaction, initThrows: string -> bool)
      returns (emitted: seq<Emission>, deliveries: seq<Delivery>)
      requires Valid()
      modifies this
      ensures Valid() && modules == old(modules)
      ensures !IsTab(tabName) || tabName == old(activeTab) ==>
        && emitted == [] && deliveries == []
        && activeTab == old(activeTab) && savedTab == old(savedTab)
      ensures IsTab(tabName) && tabName != old(activeTab) ==>
        && activeTab == tabName && savedTab == Some(tabName)
        && emitted == SwitchEmissions(old(activeTab), tabName, modules, initThrows)
      ensures deliveries == Dispatch(bus.events, emitted, react)
    {
      emitted, deliveries := [], [];
      if !IsTab(tabName) {
        return;
      }
      if activeTab == tabName {
        return;
      }
      var from := activeTab;
      emitted, deliveries := Leave(from, tabName, react, initThrows);
      activeTab := tabName;
      savedTab := Some(activeTab);
      emitted, deliveries := Fire(emitted, deliveries, Emission(AfterTabSwitch, Switched(activeTab, tabName, activeTab)), react);
    }

    /** The part of a switch before `activeTab` changes: `beforeTabSwitch`, `deactivateTab(from)`
        and `activateTab(to)`. */
    method Leave(from: string, to: string, react: Reaction, initThrows: string -> bool)
      returns (emitted: seq<Emission>, deliveries: seq<Delivery>)
      ensures emitted == [Emission(BeforeTabSwitch, Switching(from, to)), Emission(TabDeactivated, TabEvent(from))]
        + Activation(to, modules, initThrows)
      ensures deliveries == Dispatch(bus.events, emitted, react)
    {
      emitted, deliveries := Fire([], [], Emission(BeforeTabSwitch, Switching(from, to)), react);
      emitted, deliveries := Fire(emitted, deliveries, Emission(TabDeactivated, TabEvent(from)), react);
      if to in modules && initThrows(to) {
        assert emitted + [] == emitted;
      } else {
        emitted, deliveries := Fire(emitted, deliveries, Emission(TabActivated, TabEvent(to)), react);
      }
    }

    /** One `emit` on the bus, recorded after the earlier ones. */
    method Fire(emitted: seq<Emission>, deliveries: seq<Delivery>, e: Emission, react: Reaction)
      returns (emitted': seq<Emission>, deliveries': seq<Delivery>)
      requires deliveries == Dispatch(bus.events, emitted, react)
      ensures emitted' == emitted + [e]
      ensures deliveries' == Dispatch(bus.events, emitted', react)
    {
      var ds := bus.Emit(e.event, e.data, react);
      emitted' := emitted + [e];
      assert emitted'[..|emitted'| - 1] == emitted;
      deliveries' := deliveries + ds;
    }

    /** `loadUserPreferences()`: switch to the saved tab when it is one of the three. */
    method LoadUserPreferences(react: Reaction, initThrows: string -> bool)
      returns (emitted: seq<Emission>, deliveries: seq<Delivery>)
      requires Valid()
      modifies this
      ensures Valid() && modules == old(modules)
      ensures activeTab == if old(savedTab).Some? && IsTab(old(savedTab).value) then old(savedTab).value else old(activeTab)
      ensures savedTab == old(savedTab)
    {
      emitted, deliveries := [], [];
      if savedTab.Some? && savedTab.value != "" && IsTab(savedTab.value) {
        emitted, deliveries := SwitchTab(savedTab.value, react, initThrows);
      }
    }
  }
}
