/**
 * The plugin's settings: `saveSettings`, which whitelists and coerces the
 * submitted payment-settings form, and `isConfigured`, which decides whether a
 * journal has entered its Stripe account.
 */
module Settings {
  import opened Optional
  import opened Php

  /** A stored setting: the three credentials are text, `testMode` a flag. */
  datatype Setting = Text(s: string) | Flag(b: bool)

  predicate IsTextKey(name: string) {
    name == "accountName" || name == "clientId" || name == "secret"
  }

  /** The four names `saveSettings` accepts; every other parameter is ignored. */
  predicate IsSettingKey(name: string) {
    IsTextKey(name) || name == "testMode"
  }

  /** The `switch` on one submitted parameter: its stored form, or nothing. */
  function Coerce(name: string, v: Value): Option<Setting> {
    if IsTextKey(name) then Some(Text(ToPhpString(v)))
    else if name == "testMode" then Some(Flag(v == Str("true")))
    else None
  }

  /**
   * `$saveParams` after the first loop over the submitted parameters, in
   * submission order (a later parameter of the same name overwrites).
   */
  function FilterParams(params: seq<(string, Value)>): map<string, Setting> {
    if params == [] then map[]
    else
      var saved := FilterParams(params[..|params| - 1]);
      var (name, v) := params[|params| - 1];
      match Coerce(name, v)
      case None => saved
      case Some(s) => saved[name := s]
  }

  /** Only whitelisted names are kept, and every submitted whitelisted name is. */
  lemma {:induction false} FilterParamsKeys(params: seq<(string, Value)>)
    ensures forall name :: name in FilterParams(params) <==>
      IsSettingKey(name) && exists i :: 0 <= i < |params| && params[i].0 == name
  {
    if params != [] {
      var prefix := params[..|params| - 1];
      FilterParamsKeys(prefix);
      forall name ensures name in FilterParams(params) <==>
        IsSettingKey(name) && exists i :: 0 <= i < |params| && params[i].0 == name
      {
        if name in FilterParams(params) && params[|params| - 1].0 != name {
          var i :| 0 <= i < |prefix| && prefix[i].0 == name;
          assert params[i].0 == name;
        }
        if IsSettingKey(name) && (exists i :: 0 <= i < |params| && params[i].0 == name) {
          var i :| 0 <= i < |params| && params[i].0 == name;
          if i < |prefix| {
            assert prefix[i].0 == name;
          }
        }
      }
    }
  }

  /**
   * The value kept for a whitelisted name is its last submitted value,
   * coerced: the credentials as PHP strings, `testMode` true exactly when the
   * submitted value is the string "true".
   */
  lemma {:induction false} FilterParamsValue(params: seq<(string, Value)>, i: nat)
    requires i < |params| && IsSettingKey(params[i].0)
    requires forall j :: i < j < |params| ==> params[j].0 != params[i].0
    ensures params[i].0 in FilterParams(params)
    ensures IsTextKey(params[i].0) ==> FilterParams(params)[params[i].0] == Text(ToPhpString(params[i].1))
    ensures params[i].0 == "testMode" ==> FilterParams(params)[params[i].0] == Flag(params[i].1 == Str("true"))
  {
    if i < |params| - 1 {
      var prefix := params[..|params| - 1];
      FilterParamsValue(prefix, i);
    }
  }

  /** The first loop of `saveSettings`: whitelist and coerce the submitted parameters. */
  method FilterSubmitted(params: seq<(string, Value)>) returns (saveParams: map<string, Setting>)
    ensures saveParams == FilterParams(params)
  {
    saveParams := map[];
    for n := 0 to |params|
      invariant saveParams == FilterParams(params[..n])
    {
      assert params[..n + 1][..n] == params[..n];
      var (name, v) := params[n];
      match Coerce(name, v) {
        case None =>
        case Some(s) => saveParams := saveParams[name := s];
      }
    }
    assert params[..|params|] == params;
  }

  /** PHP's `$value == ''` for a stored setting (`null` when absent). */
  predicate LooselyEmpty(stored: Option<Setting>) {
    match stored
    case None => true
    case Some(Text(s)) => s == ""
    case Some(Flag(b)) => !b
  }

  /** The plugin settings store: journal id to setting name to value. */
  type Store = map<int, map<string, Setting>>

  /** The settings stored for one journal. */
  function Scope(store: Store, contextId: int): map<string, Setting> {
    if contextId in store then store[contextId] else map[]
  }

  /** `getSetting`: the stored value, or null. */
  function Lookup(store: Store, contextId: int, name: string): Option<Setting> {
    if name in Scope(store, contextId) then Some(Scope(store, contextId)[name]) else None
  }

  /** `isConfigured`: false without a journal, false when its account name is empty, else true. */
  function IsConfigured(store: Store, context: Option<int>): (r: bool)
    ensures context.None? ==> !r
    ensures context.Some? ==> (r <==> !LooselyEmpty(Lookup(store, context.value, "accountName")))
  {
    if context.None? then false
    else if LooselyEmpty(Lookup(store, context.value, "accountName")) then false
    else true
  }

  /** The store after writing every entry of `saved` under one journal. */
  function WriteAll(store: Store, contextId: int, saved: map<string, Setting>): Store {
    if saved == map[] then store else store[contextId := Scope(store, contextId) + saved]
  }

  /** The settings collection the settings form passes in (`$updatedSettings`). */
  class UpdatedSettings {
    var items: map<string, Setting>

    constructor (items: map<string, Setting>)
      ensures this.items == items
    {
      this.items := items;
    }

    /** `Collection::put`. */
    method Put(name: string, v: Setting)
      modifies this
      ensures items == old(items)[name := v]
    {
      items := items[name := v];
    }
  }

  /** The plugin, with the settings it reads through `getSetting` and writes through `updateSetting`. */
  class StripePlugin {
    var settings: Store

    constructor (settings: Store)
      ensures this.settings == settings
    {
      this.settings := settings;
    }

    /** `updateSetting`: only the one journal's one name changes. */
    method UpdateSetting(contextId: int, name: string, v: Setting)
      modifies this
      ensures settings == old(settings)[contextId := Scope(old(settings), contextId)[name := v]]
    {
      settings := settings[contextId := Scope(settings, contextId)[name := v]];
    }

    /**
     * `saveSettings`: each filtered setting is written, with the same value, to
     * this journal's stored settings and to `updated`; nothing else changes.
     */
    method SaveSettings(params: seq<(string, Value)>, contextId: int, updated: UpdatedSettings)
      modifies this, updated
      ensures updated.items == old(updated.items) + FilterParams(params)
      ensures settings == WriteAll(old(settings), contextId, FilterParams(params))
    {
      var saveParams := FilterSubmitted(params);
      var pending := saveParams.Keys;
      ghost var done: map<string, Setting> := map[];
      MergeNothing(updated.items);
      while pending != {}
        invariant pending !! done.Keys && pending + done.Keys == saveParams.Keys
        invariant forall name :: name in done ==> done[name] == saveParams[name]
        invariant updated.items == old(updated.items) + done
        invariant settings == WriteAll(old(settings), contextId, done)
        decreases pending
      {
        var name :| name in pending;
        var v := saveParams[name];
        MergeStep(old(updated.items), done, name, v);
        WriteAllStep(old(settings), contextId, done, name, v);
        UpdateSetting(contextId, name, v);
        updated.Put(name, v);
        pending := pending - {name};
        done := done[name := v];
      }
      SameEntries(done, saveParams);
    }
  }

  lemma WriteAllStep(store: Store, contextId: int, saved: map<string, Setting>, name: string, v: Setting)
    ensures var written := WriteAll(store, contextId, saved);
      written[contextId := Scope(written, contextId)[name := v]] == WriteAll(store, contextId, saved[name := v])
  {
    var scope := Scope(store, contextId);
    assert saved[name := v] != map[] by { assert name in saved[name := v]; }
    if saved == map[] {
      assert scope[name := v] == scope + saved[name := v];
    } else {
      assert (scope + saved)[name := v] == scope + saved[name := v];
    }
  }

  lemma MergeStep(items: map<string, Setting>, done: map<string, Setting>, name: string, v: Setting)
    ensures (items + done)[name := v] == items + done[name := v]
  {
  }

  lemma MergeNothing(items: map<string, Setting>)
    ensures items + map[] == items
  {
  }

  lemma SameEntries(done: map<string, Setting>, saveParams: map<string, Setting>)
    requires done.Keys == saveParams.Keys
    requires forall name :: name in done ==> done[name] == saveParams[name]
    ensures done == saveParams
  {
  }

  /**
   * After `saveSettings`, a journal is configured exactly when the account
   * name it last submitted is a non-empty string.
   */
  lemma {:induction false} SavedAccountNameDecidesConfigured(store: Store, contextId: int, params: seq<(string, Value)>, i: nat)
    requires i < |params| && params[i].0 == "accountName"
    requires forall j :: i < j < |params| ==> params[j].0 != "accountName"
    ensures IsConfigured(WriteAll(store, contextId, FilterParams(params)), Some(contextId))
      <==> ToPhpString(params[i].1) != ""
  {
    FilterParamsValue(params, i);
  }

  /** Without a submitted account name, `saveSettings` leaves the configured state as it was. */
  lemma {:induction false} UnsubmittedAccountNameKeepsConfigured(store: Store, contextId: int, params: seq<(string, Value)>)
    requires forall j :: 0 <= j < |params| ==> params[j].0 != "accountName"
    ensures IsConfigured(WriteAll(store, contextId, FilterParams(params)), Some(contextId))
      == IsConfigured(store, Some(contextId))
  {
    FilterParamsKeys(params);
  }
}
