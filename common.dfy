/** Small value types and string helpers shared by the request and logger models. */
module Common {

  /** `undefined` (None) or a present value (Some). */
  datatype Option<+T> = None | Some(value: T) {
    /** The `x = default` of a destructuring assignment: the default applies only when the field is absent. */
    function GetOr(default: T): T {
      match this
      case Some(v) => v
      case None => default
    }
  }

  /** A value or the error that a promise rejects with / an action throws. */
  datatype Result<+R, +E> = Ok(value: R) | Err(error: E)

  /** `s.endsWith(suffix)`. */
  predicate EndsWith(s: string, suffix: string) {
    |suffix| <= |s| && s[|s| - |suffix|..] == suffix
  }

  /** `s.startsWith(prefix)`. */
  predicate StartsWith(s: string, prefix: string) {
    |prefix| <= |s| && s[..|prefix|] == prefix
  }

  /** ASCII lower-casing of one character. */
  function LowerChar(c: char): char {
    if 'A' <= c <= 'Z' then (c as int + 32) as char else c
  }

  /**
   * `s.toLowerCase()` restricted to ASCII letters. Only ever compared with
   * all-ASCII literals ("content-type", "get"), for which no other character
   * lower-cases to a matching letter.
   */
  function Lower(s: string): string {
    seq(|s|, i requires 0 <= i < |s| => LowerChar(s[i]))
  }
}
