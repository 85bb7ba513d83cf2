/**
 * The two lookup helpers every model object uses to read a field from a JSON
 * object (custom_components/garo_wallbox/garo/utils.py). Both are pure: the
 * object is a value and is never changed.
 */
module Utils {
  import opened Wrappers

  /** `read_value`: the value under `key`, or `default` when the key is absent. */
  function ReadValue<V>(json: map<string, V>, key: string, default: V): (r: V)
    ensures key in json ==> r == json[key]
    ensures key !in json ==> r == default
  {
    if key in json then json[key] else default
  }

  /**
   * `read_enum`: decode the value under `key` with the enum's by-value lookup
   * `decode`; an absent key or a value no member carries (the lookup's
   * exception is caught and logged) gives `default`.
   */
  function ReadEnum<V, E>(json: map<string, V>, key: string, decode: V -> Option<E>, default: E): (r: E)
    ensures key !in json ==> r == default
    ensures key in json && decode(json[key]).Some? ==> r == decode(json[key]).value
    ensures key in json && decode(json[key]).None? ==> r == default
  {
    if key !in json then default
    else
      match decode(json[key])
      case Some(e) => e
      case None => default
  }
}
