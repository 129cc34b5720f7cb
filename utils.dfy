/** The grade conversion of utils.py, another revision of the grade conversion: an if/elif chain whose
    grade starts as "F", so every name outside the table is an F. */
module Utils {
  import Format

  function TierToGradeSm5(tier: string): (g: string)
    ensures g in {"F", "D", "C", "B", "A", "AA", "AAA", "AAAA"}
    ensures tier in Format.Sm5Grades ==> g == Format.Sm5Grades[tier]
    ensures tier !in Format.Sm5Grades ==> g == "F"
  {
    var grade := "F";
    if tier == "Failed" then grade
    else if tier == "Tier07" then "D"
    else if tier == "Tier06" then "C"
    else if tier == "Tier05" then "B"
    else if tier == "Tier04" then "A"
    else if tier == "Tier03" then "AA"
    else if tier == "Tier02" then "AAA"
    else if tier == "Tier01" then "AAAA"
    else grade
  }

  /** Only a failure or an unknown name gives F; the rest agree with the "?" revision. */
  lemma AgreesWithFallbackRevision(tier: string)
    ensures TierToGradeSm5(tier) == "F" <==> tier == "Failed" || Format.TierToGradeSm5(tier) == "?"
    ensures Format.TierToGradeSm5(tier) != "?" ==> TierToGradeSm5(tier) == Format.TierToGradeSm5(tier)
  {
  }
}
