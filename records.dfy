/** The values one scored step hands to the scoring engine: its judgment counts, its
    recorded grade and difficulty, the tiers the calculators produce and the ways a
    calculation can fail. */
module Records {

  /** Why a calculation produced no value. */
  datatype Error =
    | DivisionByZero                          // a note count or maximum of zero (ZeroDivisionError)
    | UnknownDifficulty(difficulty: string)   // a SuperNOVA2 tier left unassigned
    | UnknownTier(tier: string)               // a grade table without a fallback (KeyError)
    | UnknownSystem(system: string)           // an unsupported grading system name

  datatype Result<T> = Ok(value: T) | Err(error: Error)

  datatype Option<T> = None | Some(value: T)

  /** Tap-note judgments of a high score, worst to best, plus mines hit. */
  datatype Timings = Timings(miss: nat, w5: nat, w4: nat, w3: nat, w2: nat, w1: nat, hitMine: nat)

  /** Hold-note outcomes of a high score. */
  datatype Holds = Holds(held: nat, letGo: nat)

  /** One chart's best score: the grade the game recorded, the chart's difficulty name,
      and its judgment counts. */
  datatype Step = Step(grade: string, difficulty: string, timings: Timings, holds: Holds)

  /** A tier: the recorded failure, or a rank where 1 is best. */
  datatype Tier = Failed | Ranked(rank: nat) {

    /** The tier's name as the grade tables spell it: "Failed", "Tier01", "Tier02", ... */
    function Name(): (n: string)
      ensures |n| == 6
      ensures n[0] == if Failed? then 'F' else 'T'
    {
      match this
      case Failed => "Failed"
      case Ranked(k) => "Tier" + [DigitChar((k / 10) % 10), DigitChar(k % 10)]
    }
  }

  function DigitChar(d: nat): (c: char)
    requires d < 10
    ensures '0' <= c <= '9'
  {
    ('0' as int + d) as char
  }

  lemma DigitCharInjective(a: nat, b: nat)
    requires a < 10 && b < 10 && DigitChar(a) == DigitChar(b)
    ensures a == b
  {
  }

  /** Names of distinct tiers of rank below 100 are distinct. */
  lemma NameInjective(s: Tier, t: Tier)
    requires s.Ranked? ==> s.rank < 100
    requires t.Ranked? ==> t.rank < 100
    requires s.Name() == t.Name()
    ensures s == t
  {
    if s.Ranked? && t.Ranked? {
      var k, l := s.rank, t.rank;
      assert s.Name()[4] == t.Name()[4] && s.Name()[5] == t.Name()[5];
      DigitCharInjective((k / 10) % 10, (l / 10) % 10);
      DigitCharInjective(k % 10, l % 10);
    }
  }
}
