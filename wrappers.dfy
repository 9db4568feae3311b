/**
 * Small value wrappers shared by every module.
 *
 * `Option` models a TypeScript optional property (`x?: T`) or a value that
 * may be `undefined`/`null`; `Update` models one key of an object literal
 * used in a spread (`{...o, ...data}`): the key is either absent from the
 * literal (`Keep`) or present with some value (`Put`), and a present key
 * overrides the old value even when that value is `undefined`.
 */
module Wrappers {

  datatype Option<T> = None | Some(value: T) {
    function GetOr(default: T): (r: T)
      ensures Some? ==> r == value
      ensures None? ==> r == default
    {
      match this
      case Some(v) => v
      case None => default
    }
  }

  datatype Update<T> = Keep | Put(value: T) {
    /** The value a spread leaves in place of `prev`. */
    function Over(prev: T): (r: T)
      ensures Keep? ==> r == prev
      ensures Put? ==> r == value
    {
      match this
      case Keep => prev
      case Put(v) => v
    }
  }

  /** JavaScript truthiness of an optional string: `undefined` and `""` are falsy. */
  predicate Truthy(s: Option<string>) {
    s.Some? && s.value != ""
  }

  /** `a || b` on optional strings. */
  function OrElse(a: Option<string>, b: string): (r: string)
    ensures Truthy(a) ==> r == a.value
    ensures !Truthy(a) ==> r == b
  {
    if Truthy(a) then a.value else b
  }

  /** `s || d` on a plain string. */
  function StrOr(s: string, d: string): (r: string)
    ensures s != "" ==> r == s
    ensures s == "" ==> r == d
  {
    if s != "" then s else d
  }
}
