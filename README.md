# smtracker scoring and grading, modelled in Dafny

smtracker reads a StepMania `Stats.xml` profile and shows, for each chart ("step")
with a best score, a tier, a score and a display grade. This project models the
engine behind that. It takes one high score's judgment counts (Miss, W5..W1, mines
hit, held and let-go holds), the grade the game recorded and the chart's difficulty,
and computes:

- a tier under five grading systems: StepMania 5, ITG/Simply Love, DDR SuperNOVA2,
  DDR A and beatmania IIDX;
- the DDR SuperNOVA2 and DDR A money scores and the IIDX EX score;
- the display grade of a tier name under the four revisions of the grade tables found
  in the repository: SM5 in all four, ITG in the three that have an ITG table.

Modules, one per source file:

| module | file | models |
|---|---|---|
| `Records` | (shared) | judgment counts, the step record, tiers and their names, the error kinds |
| `Score` | `score.dfy` | `smtracker/utils/score.py` |
| `Format` | `format.dfy` | `smtracker/utils/format.py` (grade tables with a `"?"` fallback, `highscore_grade`) |
| `FormatUtils` | `format_utils.dfy` | `format_utils.py` (tables that raise on an unknown tier) |
| `UtilsFormat` | `utils_format.dfy` | `utils/format.py` (tables that raise on an unknown tier) |
| `Utils` | `utils.dfy` | `utils.py` (an if/elif chain that defaults to `"F"`) |

How the Python maps to the model:

- Raised exceptions become `Result.Err` values:
  - `ZeroDivisionError` on a zero note count becomes `DivisionByZero`;
  - SuperNOVA2's unbound `tier` becomes `UnknownDifficulty`;
  - the `KeyError` of the raising tables becomes `UnknownTier`;
  - `exit(1)` in `highscore_grade` becomes `UnknownSystem`.
- Tiers are `Failed` or `Ranked(k)`. `Tier.Name()` spells them exactly as the source does
  (`"Failed"`, `"Tier01"`, …). The grade functions take arbitrary strings, as the
  source's do.
- A ratio test `points / max >= 0.93` becomes `100 * points >= 93 * max`.
  `Score.ReachedIffRatio` proves this equals the exact rational comparison whenever
  `max > 0`.
- The if/elif threshold chains are `Score.FirstReached` over the chain's cutoff table,
  written in the source's order. Two tests sit outside it, as in the source's own
  structure: SuperNOVA2's fixed 990000/950000 tests ahead of the per-difficulty bands
  (`Score.Supernova2TierOfScore`), and SM5's split of a full ratio into Tier01 and Tier02
  by the W2 count (`Score.Sm5TierOfPoints`).
- DDR scores are exact reals. Python's `round` (round half to even) is
  `Score.RoundHalfEven`, applied to `score / 10` and multiplied back by 10.

Behaviour worth noting:

- A SuperNOVA2 score of at least 950000 gets Tier01 or Tier02 whatever the difficulty.
  Only a lower score with an unknown difficulty is an error (`Score.Supernova2TierOfScore`).
- The DDR scores use Python's `round`, which rounds half to even; there is no floor.
- Every cutoff table in `score.py` strictly decreases (`Score.CutoffsDescending`), so no
  two tiers share a cutoff.
- The repository has no SuperNOVA2, DDR A or IIDX grade tables and no judgment-name
  tables, so none are modelled.
- `format_utils.py` and `utils/format.py` raise `KeyError` on an unknown tier,
  `smtracker/utils/format.py` returns `"?"`, and `utils.py` returns `"F"`. Each revision
  is modelled as written.

## Model

| member | source | states |
|---|---|---|
| `Records.Tier.Name` | smtracker/utils/score.py:71-86 | the name is six characters, "Failed" or "Tier" and two digits; the first character tells Failed from a rank |
| `Records.NameInjective` | smtracker/utils/score.py:137-170 | distinct tiers (ranks below 100) have distinct tier names |
| `Score.ReachedIffRatio` | smtracker/utils/score.py:135-170 | with `max > 0`, `den*points >= c*max` holds exactly when the rational `points/max` is at least `c/den` |
| `Score.FirstReached` | smtracker/utils/score.py:137-170 | the chosen band is the first cutoff reached, and every earlier cutoff is not reached: an if/elif chain of closed lower bounds |
| `Score.FirstReachedRatio` | smtracker/utils/score.py:135-170 | the same band choice stated on the exact ratio `points/max` |
| `Score.FirstReachedMonotone` | smtracker/utils/score.py:137-170 | a ratio at least as large never selects a later band |
| `Score.DescendingPairs` | smtracker/utils/score.py:303-332 | in a table that decreases step by step, every earlier cutoff is above every later one |
| `Score.FirstReachedAtCutoff` | smtracker/utils/score.py:137-170 | in a strictly decreasing table, a ratio exactly at cutoff k lands in band k (closed lower bounds) |
| `Score.Sm5NoteCount` | smtracker/utils/score.py:55-57 | the SM5 note count: the six tap judgments, mines left out; zero exactly when no tap was judged |
| `Score.Sm5Points` | smtracker/utils/score.py:44-67 | the points under weights Miss −8, W5 −4, W4 0, W3 1, W2 2, W1 2; between −8 and 2 per note |
| `Score.Sm5MaxPoints` | smtracker/utils/score.py:59-60 | the maximum is 2 per note: no score earns more, a score earns it exactly when every note is W1 or W2, and it is zero exactly when there are no notes |
| `Score.CalculateTierSm5` | smtracker/utils/score.py:29-87 | recorded "Failed" gives Failed whatever the counts, and no other input does; a zero note count is DivisionByZero; otherwise a rank 1..7 |
| `Score.Sm5TierOfPoints` | smtracker/utils/score.py:71-86 | rank 1..7, and rank 1 or 2 exactly when the points reach the maximum |
| `Score.Sm5RatioAtMostOne` | smtracker/utils/score.py:55-69 | the SM5 ratio is at most 1, and equals 1 exactly when there is no Miss, W5, W4 or W3 |
| `Score.Sm5Tier01Iff` | smtracker/utils/score.py:71-76 | Tier01 exactly when there are notes and all of them are W1 |
| `Score.Sm5Tier02Iff` | smtracker/utils/score.py:71-76 | Tier02 exactly when there are notes, all W1 or W2, with at least one W2 |
| `Score.Sm5Monotone` | smtracker/utils/score.py:69-86 | a ratio at least as large never gives a worse tier, except that equal full ratios may split into Tier01 and Tier02 |
| `Score.ItgNoteCount` | smtracker/utils/score.py:117-119 | the ITG note count: taps plus held and let-go holds, mines left out; zero exactly when nothing was judged |
| `Score.ItgPoints` | smtracker/utils/score.py:100-133 | the points under weights Miss −12, W5 −6, W4 0, W3 2, W2 4, W1 5, Held 5, LetGo 0, HitMine −6; at most 5 per note, and a mine costs at most 6 |
| `Score.ItgMaxPoints` | smtracker/utils/score.py:121-122 | the maximum is 5 per note: no score earns more, a score earns it exactly when every tap is W1, every hold is held and no mine is hit, and it is zero exactly when there are no notes |
| `Score.CalculateTierItg` | smtracker/utils/score.py:90-171 | Failed exactly on recorded "Failed"; DivisionByZero exactly on zero notes counting holds; otherwise a rank 1..17 |
| `Score.ItgMineAndHoldAccounting` | smtracker/utils/score.py:117-133 | a hit mine costs 6 points and adds no note; held and let-go holds each add a note |
| `Score.ItgTier01Iff` | smtracker/utils/score.py:117-138 | the ITG ratio is at most 1; Tier01 exactly when it equals 1; which is exactly all notes W1 or Held, with no mine hit and no let-go |
| `Score.ItgMonotone` | smtracker/utils/score.py:135-170 | a ratio at least as large never gives a worse ITG tier |
| `Score.RoundHalfEven` | smtracker/utils/score.py:207 | the result is within 1/2 of the input, and on a tie it is even (Python 3 `round`) |
| `Score.RoundHalfEvenBounds` | smtracker/utils/score.py:207 | rounding never crosses an integer bound, and an integer rounds to itself |
| `Score.DdrNoteCount` | smtracker/utils/score.py:179-181 | the DDR note count: taps plus hold outcomes; zero exactly when nothing was judged |
| `Score.CalculateDdrStepValue` | smtracker/utils/score.py:176-184 | DivisionByZero exactly when there are no notes counting holds; otherwise a positive value whose note-count multiple is 1,000,000 |
| `Score.RoundToTen` | smtracker/utils/score.py:206-207 | a multiple of 10 within 5 of the raw score |
| `Score.RoundToTenBounds` | smtracker/utils/score.py:206-207 | rounding to tens never crosses a multiple of 10 |
| `Score.Supernova2Raw` | smtracker/utils/score.py:202-204 | the unrounded SuperNOVA2 sum; with no W2 or W3 it is exactly v per W1 or held hold (its upper bound is `Score.RawAtMostMillion`) |
| `Score.CalculateScoreSupernova2` | smtracker/utils/score.py:187-208 | DivisionByZero exactly on zero notes; otherwise a multiple of 10 |
| `Score.DdraRaw` | smtracker/utils/score.py:226-229 | the unrounded DDR A sum; with no W2, W3 or W4 it is exactly v per W1 or held hold (its upper bound is `Score.RawAtMostMillion`) |
| `Score.CalculateScoreDdra` | smtracker/utils/score.py:211-233 | DivisionByZero exactly on zero notes; otherwise a multiple of 10 |
| `Score.DdrScoresPerfect` | smtracker/utils/score.py:202-233 | every note W1 or Held scores exactly 1,000,000 under both DDR systems |
| `Score.DdrScoresAtMostMillion` | smtracker/utils/score.py:202-233 | neither DDR score ever exceeds 1,000,000 |
| `Score.WeightedAtMostTotal` | smtracker/utils/score.py:202-229 | with every judgment worth at most the step value, both DDR weighted sums are at most the value times the note count |
| `Score.RawAtMostMillion` | smtracker/utils/score.py:202-229 | each raw DDR score, before rounding, is at most 1,000,000 |
| `Score.DdraScoreUnclamped` | smtracker/utils/score.py:226-232 | scores are not clamped: 200,000 W4 notes score -1,800,000 under DDR A |
| `Score.Supernova2Band` | smtracker/utils/score.py:258-286 | a band exists exactly for Beginner, Easy, Medium, Hard and Challenge |
| `Score.Supernova2TierOfScore` | smtracker/utils/score.py:250-287 | at least 990000 is Tier01 and at least 950000 is Tier02 on any difficulty; an error exactly below 950000 with an unknown difficulty; otherwise a rank 1..6 |
| `Score.CalculateTierSupernova2` | smtracker/utils/score.py:236-287 | Failed exactly on recorded "Failed"; an error is zero notes or an unknown difficulty; with a known difficulty, a tier exactly when there are notes; ranks 1..6 |
| `Score.Supernova2Monotone` | smtracker/utils/score.py:251-286 | on one difficulty, a higher score never gives a worse tier |
| `Score.Supernova2HarderBandsStricter` | smtracker/utils/score.py:258-286 | the same score never ranks better on Medium than on Easy, or on Hard than on Medium |
| `Score.Supernova2PairedBands` | smtracker/utils/score.py:258-278 | Beginner ranks as Easy and Challenge as Hard |
| `Score.BandsCompare` | smtracker/utils/score.py:260-285 | a chain whose cutoffs are each no higher than another's never selects a later band |
| `Score.DdraTierOfScore` | smtracker/utils/score.py:303-333 | rank 1..15; the score reaches its rank's cutoff and falls below the one before |
| `Score.CalculateTierDdra` | smtracker/utils/score.py:290-333 | Failed exactly on recorded "Failed"; DivisionByZero exactly on zero notes; otherwise a rank 1..15 |
| `Score.DdraMonotone` | smtracker/utils/score.py:303-332 | a higher DDR A score never gives a worse tier |
| `Score.CalculateScoreIidx` | smtracker/utils/score.py:340-353 | the EX score is at most the maximum, and equals it exactly when all notes are W1 |
| `Score.IidxMaxPoints` | smtracker/utils/score.py:373-374 | the maximum EX score, two per tap: even, and zero exactly when no tap was judged |
| `Score.CalculateTierIidx` | smtracker/utils/score.py:356-400 | never Failed; DivisionByZero exactly on zero tap notes; otherwise a rank 1..8 |
| `Score.IidxIgnoresGrade` | smtracker/utils/score.py:366-382 | the IIDX tier is the same whatever grade was recorded, "Failed" included |
| `Score.IidxTier01Iff` | smtracker/utils/score.py:377-384 | Tier01 exactly when the EX ratio is at least 8/9 |
| `Score.IidxMonotone` | smtracker/utils/score.py:383-398 | a higher EX ratio never gives a worse IIDX tier |
| `Score.CutoffsDescending` | smtracker/utils/score.py:69-398 | the SM5, ITG, IIDX and DDR A cutoff tables and the three SuperNOVA2 difficulty bands strictly decrease, so every band can be reached |
| `Score.ItgCutoffsClosed` | smtracker/utils/score.py:137-170 | a ratio exactly at an ITG cutoff gets that cutoff's tier |
| `Format.TierToGradeSm5` | smtracker/utils/format.py:23-36 | a tier in the table gets its grade; the result is "?" exactly when the tier is not in the table |
| `Format.TierToGradeItg` | smtracker/utils/format.py:39-62 | a tier in the table gets its grade; the result is "?" exactly when the tier is not in the table |
| `Format.Sm5Table` | smtracker/utils/format.py:25-32 | Failed→F, Tier07→D, Tier06→C, Tier05→B, Tier04→A, Tier03→AA, Tier02→AAA, Tier01→AAAA |
| `Format.Sm5Injective` | smtracker/utils/format.py:25-32 | distinct SM5 tiers have distinct grades |
| `Format.Sm5RankGraded` | smtracker/utils/format.py:25-32 | the names of ranks 1..7 are all in the SM5 table |
| `Format.Sm5CoversCalculator` | smtracker/utils/format.py:25-36 | every tier the SM5 calculator produces has a grade other than "?" |
| `Format.ItgTable` | smtracker/utils/format.py:41-45 | Failed→F, Tier17→D, Tier16→C-, Tier15→C, Tier14→C+ |
| `Format.ItgTableMiddle` | smtracker/utils/format.py:46-51 | Tier13→B-, Tier12→B, Tier11→B+, Tier10→A-, Tier09→A, Tier08→A+ |
| `Format.ItgTableTop` | smtracker/utils/format.py:52-58 | Tier07→S-, Tier06→S, Tier05→S+, Tier04..Tier01→one to four stars |
| `Format.ItgInjective` | smtracker/utils/format.py:41-58 | distinct ITG tiers have distinct grades |
| `Format.ItgRankGraded` | smtracker/utils/format.py:41-58 | the names of ranks 1..17 are all in the ITG table |
| `Format.ItgCoversCalculator` | smtracker/utils/format.py:41-62 | every tier the ITG calculator produces has a grade other than "?" |
| `Format.HighscoreGrade` | smtracker/utils/format.py:65-75 | an unknown system name is an error, and a known one never is for that reason; "sm5" and "itg" give a grade exactly when their tier calculator gives a tier; a grade is never "?" |
| `Format.HighscoreGradeDispatch` | smtracker/utils/format.py:68-71 | "sm5" is the SM5 grade of the SM5 tier, and "itg" the ITG grade of the ITG tier |
| `Format.HighscoreGradeFailed` | smtracker/utils/format.py:65-75 | a recorded failure grades F under both systems, whatever the counts |
| `FormatUtils.TierToGradeSm5` | format_utils.py:27-37 | an error exactly when the tier is not in the table; on a known tier, the same grade as the "?" revision |
| `FormatUtils.TierToGradeItg` | format_utils.py:39-59 | an error exactly when the tier is not in the table; on a known tier, the same grade as the "?" revision |
| `FormatUtils.SameTables` | format_utils.py:29-58 | both tables have the same tiers as those of `smtracker/utils/format.py` |
| `UtilsFormat.TierToGradeSm5` | utils/format.py:6-16 | an error exactly when the tier is not in the table; on a known tier, the same grade as the "?" revision |
| `UtilsFormat.TierToGradeItg` | utils/format.py:19-39 | an error exactly when the tier is not in the table; on a known tier, the same grade as the "?" revision |
| `UtilsFormat.SameTables` | utils/format.py:8-38 | both tables have the same tiers as those of `smtracker/utils/format.py` |
| `UtilsFormat.FailedIsF` | utils/format.py:8-21 | Failed maps to F in both tables |
| `Utils.TierToGradeSm5` | utils.py:17-36 | the grade is one of F, D, C, B, A, AA, AAA, AAAA; known tiers map as in the table; any other string gives F |
| `Utils.AgreesWithFallbackRevision` | utils.py:19-36 | F comes exactly from Failed or from an unknown tier; every known tier agrees with the "?" revision |

## Left out

- Reading `Stats.xml` is not modelled: `highscore_stat`, `highscore_timings` and
  `highscore_holds` are replaced by the fields of `Records.Step`. The repository's
  `smtracker/utils/parse.py` returns the timings as a list and defines neither
  `highscore_holds` nor the `calculate_tier_*` functions that `highscore_grade` calls
  through the name `parse`. The model takes named fields and routes `highscore_grade`
  to the calculators of `score.py`.
- A chart without a `Difficulty` attribute (a `KeyError`) is not modelled: the
  difficulty is always a string.
- Floating point is not modelled. Python's `/` and the literals `0.93`, `8/9` and `5/3`
  are IEEE-754 doubles, while the model is exact. They can differ only when the exact
  ratio is within rounding distance of a cutoff, or lands on a `.5` when rounding a
  DDR score.
- `exit(1)` and the message that `highscore_grade` prints for an unknown system become
  the `UnknownSystem` error.
- The Qt, HTML and plain-text outputs, the command line and packaging are presentation
  and I/O, outside the scoring engine.
- Records.NameInjective: proved for ranks below 100 only. Two digits spell a rank, and
  no calculator produces a rank above 17.
