/**
 * The three closed policy axes of a scan set (depth, detectability, risk),
 * their defaults, and the duration table attached to depth.
 */
module Policy {

  /** Unsigned 32-bit and 64-bit integers, as the configuration stores them. */
  newtype u32 = x: int | 0 <= x < 0x1_0000_0000
  newtype u64 = x: int | 0 <= x < 0x1_0000_0000_0000_0000

  /** How thorough a scan is meant to be; it drives the duration estimate. */
  datatype Depth = Low | Medium | High | Deep
  {
    /** The value used when a configuration omits `depth`. */
    static function Default(): Depth
    {
      Low
    }

    /**
     * The estimated duration of a scan of this depth, in minutes; total over
     * all depths. `DurationTable` states the table entry by entry.
     */
    function EstimatedDurationMinutes(): (minutes: u32)
      ensures 30 <= minutes <= 240
    {
      match this
      case Low => 30
      case Medium => 60
      case High => 120
      case Deep => 240
    }
  }

  /** How conspicuous the scan behaviour is meant to be. */
  datatype Detectability = Stealth | Guided | Aggressive
  {
    /** The value used when a configuration omits `detectability`. */
    static function Default(): Detectability
    {
      Guided
    }
  }

  /** Tolerance for adverse outcomes; used for both the target and the operator axis. */
  datatype Risk = Conservative | Balanced | Assertive | Minimal | Moderate | Elevated

  /** The value used when a configuration omits `target_risk` or `operator_risk`. */
  function DefaultRiskBalanced(): Risk
  {
    Balanced
  }

  /** The duration table, entry by entry. */
  lemma DurationTable()
    ensures Low.EstimatedDurationMinutes() == 30
    ensures Medium.EstimatedDurationMinutes() == 60
    ensures High.EstimatedDurationMinutes() == 120
    ensures Deep.EstimatedDurationMinutes() == 240
  {
  }

  /**
   * The estimate identifies the depth it came from. This is a consequence of
   * the four table values being distinct, not a promise the program makes.
   */
  lemma DurationDeterminesDepth(d1: Depth, d2: Depth)
    ensures d1.EstimatedDurationMinutes() == d2.EstimatedDurationMinutes() <==> d1 == d2
  {
  }
}
