/** Optional values: JavaScript's `undefined`/`null` and a read that would throw. */
module Wrappers {

  datatype Option<+T> = None | Some(value: T) {

    /** The value, or `default` when absent (JavaScript's `v || default` on a present object). */
    function GetOr(default: T): T {
      match this
      case Some(v) => v
      case None => default
    }
  }

  /** An optional string written into a template literal: a missing one prints as "undefined". */
  function TemplateText(s: Option<string>): (t: string)
    ensures s.Some? ==> t == s.value
    ensures s.None? ==> t == "undefined"
  {
    s.GetOr("undefined")
  }
}
