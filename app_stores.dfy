/**
 * The three small application stores: UI state with the cross-app action bus,
 * the plugin store (enabled and pinned modules), and the settings store.
 */
module AppStores {
  import opened Wrappers
  import Js

  datatype UIActionType = OpenAddSensor | OpenAddSection | OpenScheduleEditor

  /** One dispatched action: its sequence number, kind and optional payload. */
  datatype UIAction = UIAction(id: int, kind: UIActionType, payload: Js.Value)

  /** `useUIStore`. */
  class UIStore {
    var sidebarCollapsed: bool
    var actionSeq: int
    var lastAction: Option<UIAction>
    /** Ids of every action dispatched so far, oldest first. */
    ghost var dispatched: seq<int>

    /** The bus invariant: actions are numbered 1, 2, ... and the last one is the latest number. */
    ghost predicate Valid()
      reads this
    {
      && actionSeq == |dispatched|
      && (forall i :: 0 <= i < |dispatched| ==> dispatched[i] == i + 1)
      && (lastAction.Some? ==> lastAction.value.id == actionSeq && actionSeq >= 1)
    }

    constructor ()
      ensures Valid()
      ensures !sidebarCollapsed && actionSeq == 0 && lastAction == None && dispatched == []
    {
      sidebarCollapsed := false;
      actionSeq := 0;
      lastAction := None;
      dispatched := [];
    }

    /** `toggleSidebar()`. */
    method ToggleSidebar()
      requires Valid()
      modifies this`sidebarCollapsed
      ensures Valid()
      ensures sidebarCollapsed == !old(sidebarCollapsed)
    {
      sidebarCollapsed := !sidebarCollapsed;
    }

    /** `dispatchAction(type, payload)`: number the action one above the previous one and publish it. */
    method DispatchAction(kind: UIActionType, payload: Js.Value)
      requires Valid()
      modifies this`actionSeq, this`lastAction, this`dispatched
      ensures Valid()
      ensures actionSeq == old(actionSeq) + 1
      ensures lastAction == Some(UIAction(actionSeq, kind, payload))
      ensures dispatched == old(dispatched) + [actionSeq]
      ensures forall i :: 0 <= i < |old(dispatched)| ==> dispatched[i] < lastAction.value.id
    {
      actionSeq := actionSeq + 1;
      lastAction := Some(UIAction(actionSeq, kind, payload));
      dispatched := dispatched + [actionSeq];
    }

    /** `clearAction()`: the consumer acknowledges; the counter is kept. */
    method ClearAction()
      requires Valid()
      modifies this`lastAction
      ensures Valid()
      ensures lastAction == None
    {
      lastAction := None;
    }
  }

  /**
   * In a store that keeps the bus invariant, the ids of the dispatched actions
   * strictly increase in dispatch order, so no two actions share an id, and the
   * action on the bus carries the largest id handed out.
   */
  lemma DispatchedIdsIncrease(ui: UIStore)
    requires ui.Valid()
    ensures forall i, j :: 0 <= i < j < |ui.dispatched| ==> ui.dispatched[i] < ui.dispatched[j]
    ensures ui.lastAction.Some? ==>
      ui.lastAction.value.id in ui.dispatched &&
      forall i :: 0 <= i < |ui.dispatched| ==> ui.dispatched[i] <= ui.lastAction.value.id
  {
    if ui.lastAction.Some? {
      assert ui.dispatched[|ui.dispatched| - 1] == ui.lastAction.value.id;
    }
  }

  /** Two dispatches in a row: the second action's id is above the first's. */
  method DispatchTwice(ui: UIStore, first: UIActionType, second: UIActionType) returns (a: UIAction, b: UIAction)
    requires ui.Valid()
    modifies ui
    ensures ui.Valid()
    ensures a.kind == first && b.kind == second && a.id < b.id
    ensures ui.lastAction == Some(b)
  {
    ui.DispatchAction(first, Js.Undefined);
    a := ui.lastAction.value;
    ui.DispatchAction(second, Js.Undefined);
    b := ui.lastAction.value;
  }

  /** `{ ...m, [id]: enabled }`: set one key, keep the others. */
  function SetFlag(m: map<string, bool>, id: string, enabled: bool): (r: map<string, bool>)
    ensures r.Keys == m.Keys + {id}
    ensures r[id] == enabled
    ensures forall k :: k in m && k != id ==> r[k] == m[k]
  {
    m[id := enabled]
  }

  /** `m[id]` read as a boolean: an absent key is `undefined`, which is falsy. */
  function Flag(m: map<string, bool>, id: string): bool {
    id in m && m[id]
  }

  /** `{ ...m, [id]: !m[id] }`: flip one flag, keep the others. */
  function ToggleFlag(m: map<string, bool>, id: string): (r: map<string, bool>)
    ensures r.Keys == m.Keys + {id}
    ensures Flag(r, id) == !Flag(m, id)
    ensures forall k :: k != id ==> Flag(r, k) == Flag(m, k) && (k in r <==> k in m)
  {
    m[id := !Flag(m, id)]
  }

  /** Toggling a pin twice restores every flag's truth value (an absent pin becomes an explicit false). */
  lemma ToggleTwiceRestoresFlags(m: map<string, bool>, id: string)
    ensures forall k :: Flag(ToggleFlag(ToggleFlag(m, id), id), k) == Flag(m, k)
    ensures id in m ==> ToggleFlag(ToggleFlag(m, id), id) == m
  {
  }

  /** `usePluginStore` (the persisted pins are loaded by the caller). */
  class PluginStore {
    var enabledModules: map<string, bool>
    var pinnedModules: map<string, bool>

    constructor (storedPins: map<string, bool>)
      ensures enabledModules == map[] && pinnedModules == storedPins
    {
      enabledModules := map[];
      pinnedModules := storedPins;
    }

    /** `setModuleEnabled(id, enabled)`. */
    method SetModuleEnabled(id: string, enabled: bool)
      modifies this`enabledModules
      ensures enabledModules == SetFlag(old(enabledModules), id, enabled)
    {
      enabledModules := SetFlag(enabledModules, id, enabled);
    }

    /** `togglePinned(id)`. */
    method TogglePinned(id: string)
      modifies this`pinnedModules
      ensures pinnedModules == ToggleFlag(old(pinnedModules), id)
    {
      pinnedModules := ToggleFlag(pinnedModules, id);
    }
  }

  datatype ThemeMode = Light | Dark
  datatype Lang = En | Ar

  function ThemeName(t: ThemeMode): string {
    match t
    case Light => "light"
    case Dark => "dark"
  }

  function LangName(l: Lang): string {
    match l
    case En => "en"
    case Ar => "ar"
  }

  /**
   * The start-up value `stored || fallback`: the stored string when it is
   * non-empty (the cast to the union type is unchecked), else the default.
   */
  function StoredOr(stored: Option<string>, fallback: string): (r: string)
    ensures stored.Some? && stored.value != "" ==> r == stored.value
    ensures stored.None? || stored.value == "" ==> r == fallback
  {
    if stored.Some? && stored.value != "" then stored.value else fallback
  }

  /** `useSettingsStore`; fields hold the names as the source stores them. */
  class SettingsStore {
    var theme: string
    var lang: string

    constructor (storedTheme: Option<string>, storedLang: Option<string>)
      ensures theme == StoredOr(storedTheme, "light") && lang == StoredOr(storedLang, "en")
    {
      theme := StoredOr(storedTheme, "light");
      lang := StoredOr(storedLang, "en");
    }

    /** `setTheme(t)`. */
    method SetTheme(t: ThemeMode)
      modifies this`theme
      ensures theme == ThemeName(t)
    {
      theme := ThemeName(t);
    }

    /** `setLang(l)`. */
    method SetLang(l: Lang)
      modifies this`lang
      ensures lang == LangName(l)
    {
      lang := LangName(l);
    }
  }
}
