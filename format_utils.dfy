/** Grade tables of format_utils.py, a revision without the "?" fallback. */
module FormatUtils {
  import opened Records
  import Format

  /** StepMania 5 default grades. */
  const Sm5Grades: map<string, string> := map[
    "Failed" := "F",
    "Tier07" := "D",
    "Tier06" := "C",
    "Tier05" := "B",
    "Tier04" := "A",
    "Tier03" := "AA",
    "Tier02" := "AAA",
    "Tier01" := "AAAA"
  ]

  /** ITG / Simply Love grades. */
  const ItgGrades: map<string, string> := map[
    "Failed" := "F",
    "Tier17" := "D",
    "Tier16" := "C-",
    "Tier15" := "C",
    "Tier14" := "C+",
    "Tier13" := "B-",
    "Tier12" := "B",
    "Tier11" := "B+",
    "Tier10" := "A-",
    "Tier09" := "A",
    "Tier08" := "A+",
    "Tier07" := "S-",
    "Tier06" := "S",
    "Tier05" := "S+",
    "Tier04" := "★",
    "Tier03" := "★★",
    "Tier02" := "★★★",
    "Tier01" := "★★★★"
  ]

  /** The SM5 grade of a tier name; a name the table lacks raises a lookup error. */
  function TierToGradeSm5(tier: string): (r: Result<string>)
    ensures r.Err? <==> tier !in Sm5Grades
    ensures r.Err? ==> r.error == UnknownTier(tier)
    ensures r.Ok? ==> r.value == Format.TierToGradeSm5(tier)
  {
    if tier in Sm5Grades then Ok(Sm5Grades[tier]) else Err(UnknownTier(tier))
  }

  /** The ITG grade of a tier name; a name the table lacks raises a lookup error. */
  function TierToGradeItg(tier: string): (r: Result<string>)
    ensures r.Err? <==> tier !in ItgGrades
    ensures r.Err? ==> r.error == UnknownTier(tier)
    ensures r.Ok? ==> r.value == Format.TierToGradeItg(tier)
  {
    if tier in ItgGrades then Ok(ItgGrades[tier]) else Err(UnknownTier(tier))
  }

  /** The tables are those of smtracker/utils/format.py: the same keys, the same grades. */
  lemma SameTables(tier: string)
    ensures tier in Sm5Grades <==> tier in Format.Sm5Grades
    ensures tier in ItgGrades <==> tier in Format.ItgGrades
  {
  }
}
