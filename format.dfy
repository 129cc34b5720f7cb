/** Grade tables and the grading-system dispatch of smtracker/utils/format.py. A tier
    name missing from a table gets the sentinel grade "?". */
module Format {
  import opened Records
  import Score

  /** StepMania 5 default grades. */
  const Sm5Grades: map<string, string> := map[
    "Failed" := "F",
    "Tier07" := "D",
    "Tier06" := "C",
    "Tier05" := "B",
    "Tier04" := "A",
    "Tier03" := "AA",
    "Tier02" := "AAA",
    "Tier01" := "AAAA"
  ]

  /** ITG / Simply Love grades. */
  const ItgGrades: map<string, string> := map[
    "Failed" := "F",
    "Tier17" := "D",
    "Tier16" := "C-",
    "Tier15" := "C",
    "Tier14" := "C+",
    "Tier13" := "B-",
    "Tier12" := "B",
    "Tier11" := "B+",
    "Tier10" := "A-",
    "Tier09" := "A",
    "Tier08" := "A+",
    "Tier07" := "S-",
    "Tier06" := "S",
    "Tier05" := "S+",
    "Tier04" := "★",
    "Tier03" := "★★",
    "Tier02" := "★★★",
    "Tier01" := "★★★★"
  ]

  /** The SM5 grade of a tier name; "?", and only then, when the table lacks it. */
  function TierToGradeSm5(tier: string): (g: string)
    ensures tier in Sm5Grades ==> g == Sm5Grades[tier]
    ensures g == "?" <==> tier !in Sm5Grades
  {
    if tier in Sm5Grades then Sm5Grades[tier] else "?"
  }

  /** The ITG grade of a tier name; "?", and only then, when the table lacks it. */
  function TierToGradeItg(tier: string): (g: string)
    ensures tier in ItgGrades ==> g == ItgGrades[tier]
    ensures g == "?" <==> tier !in ItgGrades
  {
    if tier in ItgGrades then ItgGrades[tier] else "?"
  }

  /** The SM5 table: Failed and Tier07..Tier01 give F, D, C, B, A, AA, AAA, AAAA. */
  lemma Sm5Table()
    ensures TierToGradeSm5("Failed") == "F"
    ensures TierToGradeSm5("Tier07") == "D"
    ensures TierToGradeSm5("Tier06") == "C"
    ensures TierToGradeSm5("Tier05") == "B"
    ensures TierToGradeSm5("Tier04") == "A"
    ensures TierToGradeSm5("Tier03") == "AA"
    ensures TierToGradeSm5("Tier02") == "AAA"
    ensures TierToGradeSm5("Tier01") == "AAAA"
  {
  }

  /** Distinct SM5 tiers have distinct grades. */
  lemma Sm5Injective(a: string, b: string)
    requires a in Sm5Grades && b in Sm5Grades && a != b
    ensures Sm5Grades[a] != Sm5Grades[b]
  {
  }

  /** Every rank the SM5 calculator can produce names an entry of the table. */
  lemma Sm5RankGraded(k: nat)
    requires 1 <= k <= 7
    ensures Ranked(k).Name() in Sm5Grades
  {
    RankNamesLow();
  }

  /** Every tier the SM5 calculator produces has a real grade. */
  lemma Sm5CoversCalculator(step: Step)
    requires Score.CalculateTierSm5(step).Ok?
    ensures TierToGradeSm5(Score.CalculateTierSm5(step).value.Name()) != "?"
  {
    var t := Score.CalculateTierSm5(step).value;
    if t.Ranked? {
      Sm5RankGraded(t.rank);
    } else {
      Sm5Table();
    }
  }

  /** The ITG table, lower grades: Failed and Tier17..Tier14 give F, D, C-, C, C+. */
  lemma ItgTable()
    ensures TierToGradeItg("Failed") == "F"
    ensures TierToGradeItg("Tier17") == "D"
    ensures TierToGradeItg("Tier16") == "C-"
    ensures TierToGradeItg("Tier15") == "C"
    ensures TierToGradeItg("Tier14") == "C+"
  {
  }

  /** The ITG table, middle grades: Tier13..Tier08 give B-, B, B+, A-, A, A+. */
  lemma ItgTableMiddle()
    ensures TierToGradeItg("Tier13") == "B-"
    ensures TierToGradeItg("Tier12") == "B"
    ensures TierToGradeItg("Tier11") == "B+"
    ensures TierToGradeItg("Tier10") == "A-"
    ensures TierToGradeItg("Tier09") == "A"
    ensures TierToGradeItg("Tier08") == "A+"
  {
  }

  /** The ITG table, top grades: Tier07..Tier01 give S-, S, S+ and one to four stars. */
  lemma ItgTableTop()
    ensures TierToGradeItg("Tier07") == "S-"
    ensures TierToGradeItg("Tier06") == "S"
    ensures TierToGradeItg("Tier05") == "S+"
    ensures TierToGradeItg("Tier04") == "★"
    ensures TierToGradeItg("Tier03") == "★★"
    ensures TierToGradeItg("Tier02") == "★★★"
    ensures TierToGradeItg("Tier01") == "★★★★"
  {
  }

  /** Distinct ITG tiers have distinct grades. */
  lemma ItgInjective(a: string, b: string)
    requires a in ItgGrades && b in ItgGrades && a != b
    ensures ItgGrades[a] != ItgGrades[b]
  {
  }

  /** Every rank the ITG calculator can produce names an entry of the table. */
  lemma ItgRankGraded(k: nat)
    requires 1 <= k <= 17
    ensures Ranked(k).Name() in ItgGrades
  {
    if k < 10 {
      RankNamesLow();
    } else {
      RankNamesHigh();
    }
  }

  /** Every tier the ITG calculator produces has a real grade. */
  lemma ItgCoversCalculator(step: Step)
    requires Score.CalculateTierItg(step).Ok?
    ensures TierToGradeItg(Score.CalculateTierItg(step).value.Name()) != "?"
  {
    var t := Score.CalculateTierItg(step).value;
    if t.Ranked? {
      ItgRankGraded(t.rank);
    } else {
      ItgTable();
    }
  }

  /** The names of ranks 1 to 9, spelled out. */
  lemma RankNamesLow()
    ensures Ranked(1).Name() == "Tier01"
    ensures Ranked(2).Name() == "Tier02"
    ensures Ranked(3).Name() == "Tier03"
    ensures Ranked(4).Name() == "Tier04"
    ensures Ranked(5).Name() == "Tier05"
    ensures Ranked(6).Name() == "Tier06"
    ensures Ranked(7).Name() == "Tier07"
    ensures Ranked(8).Name() == "Tier08"
    ensures Ranked(9).Name() == "Tier09"
  {
  }

  /** The names of ranks 10 to 17, spelled out. */
  lemma RankNamesHigh()
    ensures Ranked(10).Name() == "Tier10"
    ensures Ranked(11).Name() == "Tier11"
    ensures Ranked(12).Name() == "Tier12"
    ensures Ranked(13).Name() == "Tier13"
    ensures Ranked(14).Name() == "Tier14"
    ensures Ranked(15).Name() == "Tier15"
    ensures Ranked(16).Name() == "Tier16"
    ensures Ranked(17).Name() == "Tier17"
  {
  }

  /** The grade of a step's best score under a grading system, "sm5" or "itg"; any
      other system name is an error. A calculated grade is never the sentinel. */
  function HighscoreGrade(step: Step, system: string): (r: Result<string>)
    ensures r.Err? && r.error.UnknownSystem? <==> system != "sm5" && system != "itg"
    ensures r.Ok? ==> r.value != "?"
    ensures system == "sm5" ==> (r.Ok? <==> Score.CalculateTierSm5(step).Ok?)
    ensures system == "itg" ==> (r.Ok? <==> Score.CalculateTierItg(step).Ok?)
  {
    if system == "sm5" then
      match Score.CalculateTierSm5(step)
      case Err(e) => Err(e)
      case Ok(t) => Sm5CoversCalculator(step); Ok(TierToGradeSm5(t.Name()))
    else if system == "itg" then
      match Score.CalculateTierItg(step)
      case Err(e) => Err(e)
      case Ok(t) => ItgCoversCalculator(step); Ok(TierToGradeItg(t.Name()))
    else Err(UnknownSystem(system))
  }

  /** "sm5" grades through the SM5 tier and table, "itg" through the ITG ones. */
  lemma HighscoreGradeDispatch(step: Step)
    ensures Score.CalculateTierSm5(step).Ok? ==>
      HighscoreGrade(step, "sm5") == Ok(TierToGradeSm5(Score.CalculateTierSm5(step).value.Name()))
    ensures Score.CalculateTierItg(step).Ok? ==>
      HighscoreGrade(step, "itg") == Ok(TierToGradeItg(Score.CalculateTierItg(step).value.Name()))
  {
  }

  /** A recorded failure grades F in both systems, whatever the counts. */
  lemma HighscoreGradeFailed(step: Step)
    requires step.grade == "Failed"
    ensures HighscoreGrade(step, "sm5") == Ok("F")
    ensures HighscoreGrade(step, "itg") == Ok("F")
  {
    Sm5Table();
    ItgTable();
  }
}
