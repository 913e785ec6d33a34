/** The three difficulty tiers and their ordered list of labels. */
module Levels {
  import opened Wrappers

  datatype Tier = Easy | Medium | Hard

  /** The order of the levels; a tier's position in this list is its index. */
  const DifficultyLevels: seq<string> := ["Easy", "Medium", "Hard"]

  function Index(t: Tier): (i: nat)
    ensures i < |DifficultyLevels|
  {
    match t
    case Easy => 0
    case Medium => 1
    case Hard => 2
  }

  function FromIndex(i: nat): (t: Tier)
    requires i < |DifficultyLevels|
    ensures Index(t) == i
  {
    if i == 0 then Easy else if i == 1 then Medium else Hard
  }

  /** The label under which a tier is passed around. */
  function Label(t: Tier): string
  {
    DifficultyLevels[Index(t)]
  }

  /**
   * Position of the first occurrence of `x` in `xs`, or None when `x` does
   * not occur (where the list lookup of the original raises an error).
   */
  function IndexOf<T(==)>(xs: seq<T>, x: T): (r: Option<nat>)
    ensures r.None? <==> x !in xs
    ensures r.Some? ==> r.value < |xs| && xs[r.value] == x
    ensures r.Some? ==> forall j :: 0 <= j < r.value ==> xs[j] != x
  {
    if xs == [] then None
    else if xs[0] == x then Some(0)
    else
      match IndexOf(xs[1..], x)
      case None => None
      case Some(i) => Some(i + 1)
  }

  /** Reads a label back into a tier, by its position in the list of levels. */
  function ParseTier(s: string): (r: Option<Tier>)
    ensures r.None? <==> s !in DifficultyLevels
    ensures r.Some? ==> Label(r.value) == s
  {
    match IndexOf(DifficultyLevels, s)
    case None => None
    case Some(i) => Some(FromIndex(i))
  }

  /** Labels and tiers are in one-to-one correspondence. */
  lemma ParseLabel(t: Tier)
    ensures ParseTier(Label(t)) == Some(t)
  {
  }
}
