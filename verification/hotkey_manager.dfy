/** The global hotkey table of `HotkeyManager`: a map from action name to key combination,
    persisted in the widget's settings, and registered with the OS keyboard hook. The hook is
    abstracted as the set of combinations currently registered; `accepts` says which
    combination strings the hook library can register. */
module Hotkeys {
  import opened Wrappers

  /** The actions that have an `_on_<action>` handler, in the order `start` registers them. */
  const Actions: seq<string> := ["play_pause", "next_track", "prev_track", "volume_up", "volume_down"]

  const DefaultHotkeys: map<string, string> := map[
    "play_pause" := "ctrl+alt+p",
    "next_track" := "ctrl+alt+n",
    "prev_track" := "ctrl+alt+b",
    "volume_up" := "ctrl+alt+up",
    "volume_down" := "ctrl+alt+down"]

  /** `getattr(self, f'_on_{action}')` succeeds. */
  predicate HasHandler(action: string) {
    action in Actions
  }

  /** The default table binds every handled action, and no two of them to the same combination. */
  lemma DefaultTable()
    ensures DefaultHotkeys.Keys == set a | a in Actions
    ensures forall a, b :: a in DefaultHotkeys && b in DefaultHotkeys && a != b ==>
      DefaultHotkeys[a] != DefaultHotkeys[b]
  {
  }

  /** The combinations `start` registers from the `i`-th action on: one per action, in order,
      up to the first action that is missing from the table or whose combination the hook refuses
      (the exception ends the remaining registrations). */
  function StartRegistrations(hotkeys: map<string, string>, accepts: string -> bool, i: nat): (r: set<string>)
    requires i <= |Actions|
    ensures r <= hotkeys.Values
    decreases |Actions| - i
  {
    if i == |Actions| then {}
    else if Actions[i] in hotkeys && accepts(hotkeys[Actions[i]]) then
      {hotkeys[Actions[i]]} + StartRegistrations(hotkeys, accepts, i + 1)
    else {}
  }

  /** `start` registers only combinations that the table binds to one of the actions it visits. */
  lemma {:induction false} StartRegistersOnlyBindings(hotkeys: map<string, string>, accepts: string -> bool, i: nat)
    requires i <= |Actions|
    ensures forall c :: c in StartRegistrations(hotkeys, accepts, i) ==>
      exists j :: i <= j < |Actions| && Actions[j] in hotkeys && hotkeys[Actions[j]] == c && accepts(c)
    decreases |Actions| - i
  {
    if i < |Actions| && Actions[i] in hotkeys && accepts(hotkeys[Actions[i]]) {
      StartRegistersOnlyBindings(hotkeys, accepts, i + 1);
    }
  }

  /** When every action is bound and every combination accepted, `start` registers all of them. */
  lemma {:induction false} StartRegistersAll(hotkeys: map<string, string>, accepts: string -> bool, i: nat)
    requires i <= |Actions|
    requires forall j :: i <= j < |Actions| ==> Actions[j] in hotkeys && accepts(hotkeys[Actions[j]])
    ensures StartRegistrations(hotkeys, accepts, i) == set j | i <= j < |Actions| :: hotkeys[Actions[j]]
    decreases |Actions| - i
  {
    if i < |Actions| {
      StartRegistersAll(hotkeys, accepts, i + 1);
      var rest := set j | i + 1 <= j < |Actions| :: hotkeys[Actions[j]];
      var all := set j | i <= j < |Actions| :: hotkeys[Actions[j]];
      assert all == {hotkeys[Actions[i]]} + rest;
    }
  }

  /** When action `k` is missing from the table or its combination is refused, `start` stops
      there: it registers the combinations of the actions before `k` and none after. */
  lemma {:induction false} StartStopsAtFirstFailure(hotkeys: map<string, string>, accepts: string -> bool,
                                                    i: nat, k: nat)
    requires i <= k < |Actions|
    requires forall j :: i <= j < k ==> Actions[j] in hotkeys && accepts(hotkeys[Actions[j]])
    requires !(Actions[k] in hotkeys && accepts(hotkeys[Actions[k]]))
    ensures StartRegistrations(hotkeys, accepts, i) == set j | i <= j < k :: hotkeys[Actions[j]]
    decreases k - i
  {
    if i < k {
      StartStopsAtFirstFailure(hotkeys, accepts, i + 1, k);
      var rest := set j | i + 1 <= j < k :: hotkeys[Actions[j]];
      var all := set j | i <= j < k :: hotkeys[Actions[j]];
      assert all == {hotkeys[Actions[i]]} + rest;
    }
  }

  /** With the default table and a hook that accepts every default combination, `start`
      registers exactly the five default combinations. */
  lemma StartRegistersDefaults(accepts: string -> bool)
    requires forall a :: a in DefaultHotkeys ==> accepts(DefaultHotkeys[a])
    ensures StartRegistrations(DefaultHotkeys, accepts, 0) == DefaultHotkeys.Values
  {
    DefaultTable();
    StartRegistersAll(DefaultHotkeys, accepts, 0);
    var r := StartRegistrations(DefaultHotkeys, accepts, 0);
    assert r == set j | 0 <= j < |Actions| :: DefaultHotkeys[Actions[j]];
    forall c | c in DefaultHotkeys.Values ensures c in r {
      var a :| a in DefaultHotkeys && DefaultHotkeys[a] == c;
      var j :| 0 <= j < |Actions| && Actions[j] == a;
    }
  }

  /** The old binding of `action` can be unhooked: there is none, or it is registered. */
  predicate CanUnbind(hotkeys: map<string, string>, registered: set<string>, action: string) {
    action in hotkeys ==> hotkeys[action] in registered
  }

  /** The registered set once the old binding of `action` (if any) is unhooked. */
  function Unbound(hotkeys: map<string, string>, registered: set<string>, action: string): set<string> {
    if action in hotkeys then registered - {hotkeys[action]} else registered
  }

  class HotkeyManager {
    /** `self.hotkeys`. */
    var hotkeys: map<string, string>
    /** The `'hotkeys'` entry of the widget's settings store; `None` when nothing was saved. */
    var savedHotkeys: Option<map<string, string>>
    /** The combinations the OS keyboard hook currently listens for. */
    var registered: set<string>

    /** The saved entry and the table in memory agree. */
    predicate Persisted()
      reads this
    {
      savedHotkeys == Some(hotkeys)
    }

    /** `__init__`: an empty table, then `load_hotkey_settings`. */
    constructor (saved: Option<map<string, string>>)
      ensures savedHotkeys == saved && registered == {}
      ensures hotkeys == (if saved.Some? then saved.value else DefaultHotkeys)
    {
      hotkeys := map[];
      savedHotkeys := saved;
      registered := {};
      new;
      LoadHotkeySettings();
    }

    /** `load_hotkey_settings`: the saved table replaces the one in memory; with nothing saved,
        the default table does. */
    method LoadHotkeySettings()
      modifies this`hotkeys
      ensures savedHotkeys.None? ==> hotkeys == DefaultHotkeys
      ensures savedHotkeys.Some? ==> hotkeys == savedHotkeys.value
    {
      if savedHotkeys.Some? {
        hotkeys := savedHotkeys.value;
      } else {
        hotkeys := DefaultHotkeys;
      }
    }

    /** `save_hotkey_settings`: the whole table is written to the settings store. */
    method SaveHotkeySettings()
      modifies this`savedHotkeys
      ensures Persisted()
    {
      savedHotkeys := Some(hotkeys);
    }

    /** Registers one action's combination, as one `keyboard.add_hotkey` line of `start`. */
    method RegisterAction(action: string, accepts: string -> bool) returns (ok: bool)
      modifies this`registered
      ensures ok == (action in hotkeys && accepts(hotkeys[action]))
      ensures registered == if ok then old(registered) + {hotkeys[action]} else old(registered)
    {
      ok := action in hotkeys && accepts(hotkeys[action]);
      if ok {
        registered := registered + {hotkeys[action]};
      }
    }

    /** `start`: registers the five actions in order; the first missing entry or refused
        combination raises and the remaining ones are not registered. */
    method Start(accepts: string -> bool)
      modifies this`registered
      ensures registered == old(registered) + StartRegistrations(hotkeys, accepts, 0)
    {
      // After each registration that succeeded, what is registered plus what the remaining
      // lines would register is what the whole of `start` registers.
      var ok := RegisterAction(Actions[0], accepts);
      if !ok { return; }
      assert registered + StartRegistrations(hotkeys, accepts, 1)
          == old(registered) + StartRegistrations(hotkeys, accepts, 0);
      ok := RegisterAction(Actions[1], accepts);
      if !ok { return; }
      assert registered + StartRegistrations(hotkeys, accepts, 2)
          == old(registered) + StartRegistrations(hotkeys, accepts, 0);
      ok := RegisterAction(Actions[2], accepts);
      if !ok { return; }
      assert registered + StartRegistrations(hotkeys, accepts, 3)
          == old(registered) + StartRegistrations(hotkeys, accepts, 0);
      ok := RegisterAction(Actions[3], accepts);
      if !ok { return; }
      assert registered + StartRegistrations(hotkeys, accepts, 4)
          == old(registered) + StartRegistrations(hotkeys, accepts, 0);
      ok := RegisterAction(Actions[4], accepts);
    }

    /** `stop`: `keyboard.unhook_all` drops every registration. */
    method Stop()
      modifies this`registered
      ensures registered == {}
    {
      registered := {};
    }

    /** `update_hotkey`: unhook the old combination of `action` if it has one, hook the new
        one to the action's handler, then record and persist it. The table changes only when
        every step succeeds; a step that fails after the unhook leaves the old combination
        unregistered while the table still names it. */
    method UpdateHotkey(action: string, newHotkey: string, accepts: string -> bool) returns (ok: bool)
      modifies this`hotkeys, this`savedHotkeys, this`registered
      ensures ok <==> CanUnbind(old(hotkeys), old(registered), action) && HasHandler(action) && accepts(newHotkey)
      ensures ok ==>
        && hotkeys == old(hotkeys)[action := newHotkey]
        && (forall a :: a != action ==> (a in hotkeys <==> a in old(hotkeys)))
        && (forall a :: a != action && a in hotkeys ==> hotkeys[a] == old(hotkeys)[a])
        && Persisted()
        && registered == Unbound(old(hotkeys), old(registered), action) + {newHotkey}
      ensures !ok ==>
        && hotkeys == old(hotkeys) && savedHotkeys == old(savedHotkeys)
        && registered == (if CanUnbind(old(hotkeys), old(registered), action)
                          then Unbound(old(hotkeys), old(registered), action) else old(registered))
      ensures old(Persisted()) ==> Persisted()
    {
      if action in hotkeys {
        if hotkeys[action] !in registered {
          return false;
        }
        registered := registered - {hotkeys[action]};
      }
      if !HasHandler(action) || !accepts(newHotkey) {
        return false;
      }
      registered := registered + {newHotkey};
      hotkeys := hotkeys[action := newHotkey];
      SaveHotkeySettings();
      return true;
    }
  }
}
