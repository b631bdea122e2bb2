/** The merge stage recorded in an index entry's flags word. */
module ConflictFlags {

  /** Go's `ConflictFlag` is an unsigned integer; any value can be stored,
      four of them are named. */
  newtype ConflictFlag = x: int | 0 <= x

  const NoConflict: ConflictFlag := 0
  const LowestCommonAncestorCommit: ConflictFlag := 1
  const CurrentCommit: ConflictFlag := 2
  const AnotherCommit: ConflictFlag := 3

  /** The value is one of the four named stages. */
  predicate IsNamed(c: ConflictFlag) {
    c == NoConflict || c == LowestCommonAncestorCommit || c == CurrentCommit || c == AnotherCommit
  }

  /** `ConflictFlag.String`: a name for every named stage, "undefined" for
      everything else. */
  function String(c: ConflictFlag): (s: string)
    ensures s == "undefined" <==> !IsNamed(c)
    ensures s == "undefined" <==> c > 3
  {
    match c
    case 0 => "no conflict"
    case 1 => "lowest common ancestor commit"
    case 2 => "current commit"
    case 3 => "another commit"
    case _ => "undefined"
  }

  /** The named stages are exactly the values below 4, and they have four
      different names, so a name identifies its stage. */
  lemma NamesIdentifyStages(c: ConflictFlag, d: ConflictFlag)
    requires IsNamed(c) && String(c) == String(d)
    ensures c == d
  {
  }
}
