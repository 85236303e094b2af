/**
 * The "app_prefs" SharedPreferences file shared by LanguageHelper and
 * SettingsActivity. Its contents are a value (one map per stored type) so
 * that the getters are functions; a PrefStore object holds the value and
 * its methods are the editor operations that reassign it.
 */
module Prefs {

  datatype Prefs = Prefs(strings: map<string, string>, bools: map<string, bool>, floats: map<string, real>)

  /** getString(key, default). */
  function GetString(p: Prefs, key: string, default: string): (r: string)
    ensures key in p.strings ==> r == p.strings[key]
    ensures key !in p.strings ==> r == default
  {
    if key in p.strings then p.strings[key] else default
  }

  /** getBoolean(key, default). */
  function GetBool(p: Prefs, key: string, default: bool): (r: bool)
    ensures key in p.bools ==> r == p.bools[key]
    ensures key !in p.bools ==> r == default
  {
    if key in p.bools then p.bools[key] else default
  }

  /** getFloat(key, default). */
  function GetFloat(p: Prefs, key: string, default: real): (r: real)
    ensures key in p.floats ==> r == p.floats[key]
    ensures key !in p.floats ==> r == default
  {
    if key in p.floats then p.floats[key] else default
  }

  function PutString(p: Prefs, key: string, value: string): (r: Prefs)
    ensures GetString(r, key, "") == value && r.bools == p.bools && r.floats == p.floats
    ensures forall k :: k != key ==> (k in r.strings <==> k in p.strings)
    ensures forall k :: k != key && k in p.strings ==> r.strings[k] == p.strings[k]
  {
    p.(strings := p.strings[key := value])
  }

  function PutBool(p: Prefs, key: string, value: bool): (r: Prefs)
    ensures GetBool(r, key, !value) == value && r.strings == p.strings && r.floats == p.floats
    ensures forall k :: k != key ==> (k in r.bools <==> k in p.bools)
    ensures forall k :: k != key && k in p.bools ==> r.bools[k] == p.bools[k]
  {
    p.(bools := p.bools[key := value])
  }

  function PutFloat(p: Prefs, key: string, value: real): (r: Prefs)
    ensures GetFloat(r, key, value + 1.0) == value && r.strings == p.strings && r.bools == p.bools
    ensures forall k :: k != key ==> (k in r.floats <==> k in p.floats)
    ensures forall k :: k != key && k in p.floats ==> r.floats[k] == p.floats[k]
  {
    p.(floats := p.floats[key := value])
  }

  /** remove(key): the key is gone whatever type it held. */
  function Remove(p: Prefs, key: string): (r: Prefs)
    ensures key !in r.strings && key !in r.bools && key !in r.floats
    ensures forall k :: k != key ==> (k in r.bools <==> k in p.bools) && (k in r.floats <==> k in p.floats)
    ensures forall k :: k != key && k in p.bools ==> r.bools[k] == p.bools[k]
    ensures forall k :: k != key && k in p.floats ==> r.floats[k] == p.floats[k]
    ensures forall k :: k != key ==> (k in r.strings <==> k in p.strings)
    ensures forall k :: k != key && k in p.strings ==> r.strings[k] == p.strings[k]
  {
    Prefs(p.strings - {key}, p.bools - {key}, p.floats - {key})
  }

  /** The preference file: the editor operations reassign its contents. */
  class PrefStore {
    var contents: Prefs

    constructor (initial: Prefs)
      ensures contents == initial
    {
      contents := initial;
    }

    method PutStringEntry(key: string, value: string)
      modifies this
      ensures contents == PutString(old(contents), key, value)
    {
      contents := PutString(contents, key, value);
    }

    method PutBoolEntry(key: string, value: bool)
      modifies this
      ensures contents == PutBool(old(contents), key, value)
    {
      contents := PutBool(contents, key, value);
    }

    method PutFloatEntry(key: string, value: real)
      modifies this
      ensures contents == PutFloat(old(contents), key, value)
    {
      contents := PutFloat(contents, key, value);
    }

    method RemoveEntry(key: string)
      modifies this
      ensures contents == Remove(old(contents), key)
    {
      contents := Remove(contents, key);
    }
  }
}
