/** Severity levels of dlog and the default level-to-label mapping
    (the `logLevelFormatter` a Frontend starts with). */
module Levels {
  import opened Wrappers

  const DDEBUG: int := 1000
  const DWARNING: int := 2000
  const DERROR: int := 5000
  const DFATAL: int := 7000
  const DCRITICAL: int := 9000

  /** The five named levels, in declaration order. */
  const NamedLevels: seq<int> := [DDEBUG, DWARNING, DERROR, DFATAL, DCRITICAL]

  predicate IsNamedLevel(level: int) {
    level in NamedLevels
  }

  /** The named levels are strictly increasing, so gating by `<=` orders them
      DEBUG < WARNING < ERROR < FATAL < CRITICAL. */
  lemma NamedLevelsStrictlyIncreasing()
    ensures forall i, j :: 0 <= i < j < |NamedLevels| ==> NamedLevels[i] < NamedLevels[j]
  {
  }

  /** The text the default label function writes into the stream for `level`:
      a three-letter label for a named level, nothing for any other level.
      Every label is three letters long. */
  function LevelLabel(level: int): (r: string)
    ensures r != [] <==> IsNamedLevel(level)
    ensures r != [] ==> |r| == 3
  {
    if level == DDEBUG then "DBG"
    else if level == DWARNING then "WRN"
    else if level == DERROR then "ERR"
    else if level == DFATAL then "FAT"
    else if level == DCRITICAL then "CRT"
    else ""
  }

  /** Reads a label back into its level; the partner of `LevelLabel`. */
  function LevelOfLabel(text: string): (r: Option<int>)
    ensures r.Some? ==> IsNamedLevel(r.value)
  {
    if text == "DBG" then Some(DDEBUG)
    else if text == "WRN" then Some(DWARNING)
    else if text == "ERR" then Some(DERROR)
    else if text == "FAT" then Some(DFATAL)
    else if text == "CRT" then Some(DCRITICAL)
    else None
  }

  /** Writing a label and reading it back gives the level exactly when the
      level is a named one, and every label that reads back names that level. */
  lemma LabelRoundTrip(level: int, text: string)
    ensures LevelOfLabel(LevelLabel(level)) == Some(level) <==> IsNamedLevel(level)
    ensures LevelOfLabel(text) == Some(level) ==> LevelLabel(level) == text
  {
  }

  /** Distinct levels never share a non-empty label. */
  lemma LabelsDistinct(a: int, b: int)
    requires a != b && LevelLabel(a) != []
    ensures LevelLabel(a) != LevelLabel(b)
  {
    LabelRoundTrip(a, LevelLabel(b));
  }
}
