/**
 * The few PHP notions the client's decision logic depends on: the values it
 * inspects, `empty()`, reading a `$_POST` field, and reading a property of a
 * decoded JSON object.
 */
module Php {

  /**
   * A PHP value as far as the client looks at it. `Other` stands for every
   * value the client never compares by content (numbers, arrays, objects,
   * `WP_Error` instances).
   */
  datatype Value = Null | Bool(b: bool) | Str(s: string) | Other

  /** A decoded JSON object: its properties by name. */
  type Object = map<string, Value>

  /**
   * The submitted form fields (`$_POST`), each taken to be a string. PHP
   * also accepts array-valued fields (`download[]=x`); those are not part
   * of this model.
   */
  type Post = map<string, string>

  /**
   * PHP's `empty()` on a string: true for "" and for "0" only, so at most
   * one character long.
   */
  predicate Empty(s: string)
    ensures Empty(s) ==> |s| <= 1
    ensures Empty(s) && s != "" ==> s[0] == '0'
  {
    s == "" || s == "0"
  }

  /**
   * `$_POST[key]`. An unset field reads as null in PHP; every use of such a
   * field in the client (`empty()`, `urlencode()`, a strict comparison made
   * only after an `empty()` guard) treats null exactly as "", so it is read
   * as "" here.
   */
  function Posted(post: Post, key: string): (s: string)
    ensures key in post ==> s == post[key]
    ensures key !in post ==> s == ""
  {
    if key in post then post[key] else ""
  }

  /** `$object->key`: an undefined property reads as null. */
  function Prop(obj: Object, key: string): Value
  {
    if key in obj then obj[key] else Null
  }

  /** `isset($object->key)`: defined and not null. */
  predicate IsSet(obj: Object, key: string)
  {
    Prop(obj, key) != Null
  }
}
