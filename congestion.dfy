/**
 * The congestion colour lookup of the route service: a fixed table from
 * congestion level to display colour, and the truthiness test through which
 * the normaliser applies it.
 */
module Congestion {
  import opened Wrappers

  /** The colour table, keyed by level: 0 is grey, 1 to 7 run from indigo (least crowded) to red. */
  function ColorTable(level: int): (c: Option<string>)
    ensures c.Some? <==> 0 <= level <= 7
    ensures c.Some? ==> |c.value| == 7 && c.value[0] == '#'
  {
    match level
    case 0 => Some("#dddddd")
    case 1 => Some("#6366f1")
    case 2 => Some("#3b82f6")
    case 3 => Some("#06b6d4")
    case 4 => Some("#22c55e")
    case 5 => Some("#eab308")
    case 6 => Some("#f97316")
    case 7 => Some("#ef4444")
    case _ => None
  }

  /**
   * The colour given to the section leaving a stop: the table entry, looked
   * up only when the level is truthy (JavaScript treats `null` and `0` as falsy).
   */
  function NextSectionColor(level: Option<int>): (c: Option<string>)
    ensures c.Some? <==> level.Some? && 1 <= level.value <= 7
    ensures c.Some? ==> c == ColorTable(level.value)
  {
    if level.Some? && level.value != 0 then ColorTable(level.value) else None
  }

  /** Level 0 has a table entry, yet the truthiness test gives it no colour, exactly as `null`. */
  lemma ZeroLevelHasNoColor()
    ensures ColorTable(0).Some?
    ensures NextSectionColor(Some(0)) == NextSectionColor(None) == None
  {
  }
}
