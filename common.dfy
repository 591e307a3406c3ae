/** Small shared vocabulary: optional values and JavaScript truthiness of
    optional strings, as the request handlers test their parameters. */
module Common {

  datatype Option<+T> = None | Some(value: T) {
    function GetOr(default: T): T {
      match this
      case Some(v) => v
      case None => default
    }
  }

  /** `if (s)` in JavaScript on a string that may be null or undefined:
      absent and the empty string are both falsy. */
  predicate Filled(s: Option<string>) {
    s.Some? && s.value != ""
  }

  /** `s || fallback`: the fallback replaces an absent or empty string. */
  function OrDefault(s: Option<string>, fallback: string): (r: string)
    ensures Filled(s) ==> r == s.value
    ensures !Filled(s) ==> r == fallback
  {
    if Filled(s) then s.value else fallback
  }

  function Min(a: int, b: int): int {
    if a <= b then a else b
  }
}
