/**
 * Shared value types: an optional value (a JavaScript `null`/`undefined`
 * or a Python `None` on the None side) and the outcome of one asynchronous
 * server request, which either succeeds with a parsed body or fails.
 */
module Common {

  datatype Option<+T> = None | Some(value: T) {
    function GetOr(default: T): T {
      match this
      case Some(v) => v
      case None => default
    }
  }

  /** The answer to one request: `done(body)` or `fail(...)` in jQuery terms. */
  datatype Reply<+T> = Ok(body: T) | Fail

  /** `$.extend(target, source)` on plain objects: a shallow merge in which
      every key of `source` overrides, and every other key of `target` is
      kept. */
  function Extend<V>(target: map<string, V>, source: map<string, V>): (r: map<string, V>)
    ensures r.Keys == target.Keys + source.Keys
    ensures forall k :: k in source ==> r[k] == source[k]
    ensures forall k :: k in target && k !in source ==> r[k] == target[k]
  {
    target + source
  }
}
