/**
 * The translation stub `t(key, fallback)`: dictionary value, else the
 * fallback, else the key itself (each tested for truthiness).
 */
module I18n {
  import opened Wrappers
  import Js

  /** The dictionary's own entries. */
  const Dict: map<string, string> := map["cta.getStarted" := "Get started"]

  /**
   * What `dict[key] || fallback || key` evaluates to. `dict` is a plain object
   * literal, so a key naming an `Object.prototype` member reads that inherited
   * member (a function, or for `__proto__` the prototype object itself); either
   * is truthy and is returned instead of a string.
   */
  datatype Translation = Text(s: string) | InheritedMember(name: string)

  /** `t(key, fallback)` exactly as written, prototype lookup included. */
  function TAsWritten(key: string, fallback: Option<string>): (r: Translation)
    ensures r.InheritedMember? <==> key !in Dict && key in Js.ObjectPrototypeMembers
  {
    if key in Dict && Dict[key] != "" then Text(Dict[key])
    else if key in Js.ObjectPrototypeMembers then InheritedMember(key)
    else if fallback.Some? && fallback.value != "" then Text(fallback.value)
    else Text(key)
  }

  /** The counterexample: `t('constructor')` yields `Object`, not a string. */
  lemma ConstructorKeyIsNotTranslated()
    ensures TAsWritten("constructor", None) == InheritedMember("constructor")
    ensures TAsWritten("toString", Some("Text")) == InheritedMember("toString")
  {
  }

  /** `t(key, fallback)` over the dictionary's own entries only: always a string. */
  function T(key: string, fallback: Option<string>): (r: string)
    ensures key in Dict ==> r == Dict[key]
    ensures key !in Dict && fallback.Some? && fallback.value != "" ==> r == fallback.value
    ensures key !in Dict && (fallback.None? || fallback.value == "") ==> r == key
    ensures r != "" || (key == "" && key !in Dict)
  {
    if key in Dict && Dict[key] != "" then Dict[key]
    else if fallback.Some? && fallback.value != "" then fallback.value
    else key
  }

  /** The corrected `T` agrees with the code on every key that is not an inherited member name. */
  lemma TAgreesWithSource(key: string, fallback: Option<string>)
    requires key !in Js.ObjectPrototypeMembers
    ensures TAsWritten(key, fallback) == Text(T(key, fallback))
  {
  }

  /** The documented cases: a known key, an unknown key with and without a fallback, an empty fallback. */
  lemma Examples()
    ensures T("cta.getStarted", None) == "Get started"
    ensures T("cta.getStarted", Some("Start")) == "Get started"
    ensures T("nav.home", Some("Home")) == "Home"
    ensures T("nav.home", None) == "nav.home"
    ensures T("nav.home", Some("")) == "nav.home"
  {
  }
}
