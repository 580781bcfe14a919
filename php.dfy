/**
 * The few PHP value rules the plugin's control flow depends on:
 * the truthiness of strings and the loose `>` between a publish-date
 * argument (a boolean flag or a Unix timestamp) and an integer.
 */
module Php {

  /** `(bool) $s` for a PHP string: only "" and "0" are false. */
  predicate TruthyString(s: string)
  {
    s != "" && s != "0"
  }

  /**
   * The `$post_date` argument of needs_updating: the site passes the
   * boolean `true`, a post passes `false`, and the date lookup yields a
   * Unix timestamp (or `false` when there is no post).
   */
  datatype DateArg = Flag(b: bool) | Stamp(t: int)

  /** `! $post_date`. */
  predicate Falsy(d: DateArg)
  {
    d == Flag(false) || d == Stamp(0)
  }

  /**
   * PHP's loose `$post_date > $n` for an integer `$n`: a boolean operand
   * makes both sides compare as booleans, so `true > $n` holds exactly
   * when `$n` is 0 and `false > $n` never holds.
   */
  predicate Gt(d: DateArg, n: int)
  {
    match d
    case Flag(b) => b && n == 0
    case Stamp(t) => t > n
  }
}
