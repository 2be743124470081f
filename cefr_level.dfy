/** The eight-label CEFR mapping of the 0-20 score (`get_cefr_level`) and the evaluation
    step comparing the levels of an original and a simplified text (`calculate_levels`). */
module CefrLevel {
  import opened PyValues

  /** The labels `get_cefr_level` returns, from easiest to hardest; two of them name the
      border between two CEFR levels. */
  datatype Label = A1 | A2 | A2B1 | B1 | B2 | C1 | C1C2 | C2
  {
    /** The string returned for the label. */
    function Name(): string
    {
      match this
      case A1 => "A1"
      case A2 => "A2"
      case A2B1 => "A2 bis B1"
      case B1 => "B1"
      case B2 => "B2"
      case C1 => "C1"
      case C1C2 => "C1 bis C2"
      case C2 => "C2"
    }

    /** The label's position from easiest (0) to hardest (7). */
    function Rank(): int
    {
      match this
      case A1 => 0
      case A2 => 1
      case A2B1 => 2
      case B1 => 3
      case B2 => 4
      case C1 => 5
      case C1C2 => 6
      case C2 => 7
    }
  }

  /** The lower bounds of the first seven labels, each included in its label. */
  const LabelThresholds: seq<real> := [18.3, 17.7, 17.5, 15.7, 13.7, 12.4, 12.2]

  /** `get_cefr_level`: each branch tests a lower and an upper bound, and the last one
      `score < 12.2`; a score failing every test would give `None`. */
  function GetCefrLevel(score: real): (r: Option<Label>)
    ensures r.Some?
  {
    if score >= 18.3 then Some(A1)
    else if score >= 17.7 && score < 18.3 then Some(A2)
    else if score >= 17.5 && score < 17.7 then Some(A2B1)
    else if score >= 15.7 && score < 17.5 then Some(B1)
    else if score >= 13.7 && score < 15.7 then Some(B2)
    else if score >= 12.4 && score < 13.7 then Some(C1)
    else if score >= 12.2 && score < 12.4 then Some(C1C2)
    else if score < 12.2 then Some(C2)
    else None
  }

  /** The same chain with only the lower bounds. */
  function LowerBoundChain(score: real): Label
  {
    if score >= 18.3 then A1
    else if score >= 17.7 then A2
    else if score >= 17.5 then A2B1
    else if score >= 15.7 then B1
    else if score >= 13.7 then B2
    else if score >= 12.4 then C1
    else if score >= 12.2 then C1C2
    else C2
  }

  /** Every upper-bound test repeats the failed test of the branch before it: dropping them
      changes nothing. */
  lemma UpperBoundsRedundant(score: real)
    ensures GetCefrLevel(score) == Some(LowerBoundChain(score))
  {
  }

  /** Boundary values belong to the easier label. */
  lemma BoundariesLowerInclusive()
    ensures GetCefrLevel(18.3) == Some(A1) && GetCefrLevel(17.7) == Some(A2)
    ensures GetCefrLevel(17.5) == Some(A2B1) && GetCefrLevel(15.7) == Some(B1)
    ensures GetCefrLevel(13.7) == Some(B2) && GetCefrLevel(12.4) == Some(C1)
    ensures GetCefrLevel(12.2) == Some(C1C2)
  {
  }

  /** The label's rank is the number of thresholds the score falls below. */
  lemma LevelCountsThresholds(score: real)
    ensures forall k :: 0 <= k < |LabelThresholds| ==> (k < GetCefrLevel(score).value.Rank() <==> score < LabelThresholds[k])
  {
  }

  /** A higher score never gives a harder label. */
  lemma LevelMonotone(lower: real, higher: real)
    requires lower <= higher
    ensures GetCefrLevel(higher).value.Rank() <= GetCefrLevel(lower).value.Rank()
  {
  }

  /** The `cefr_rank` dictionary of `calculate_levels`. */
  const CefrRank: map<string, int> :=
    map["A1" := 0, "A2" := 1, "A2 bis B1" := 2, "B1" := 3, "B2" := 4, "C1" := 5, "C1 bis C2" := 6, "C2" := 7]

  /** `cefr_rank[level]`: a `KeyError` for `None` or an unknown label. */
  function RankOf(level: Option<Label>): Result<int, PyError>
  {
    match level
    case None => Err(KeyError)
    case Some(l) => if l.Name() in CefrRank then Ok(CefrRank[l.Name()]) else Err(KeyError)
  }

  /** The dictionary holds every label, at the label's rank. */
  lemma RankOfLabel(l: Label)
    ensures RankOf(Some(l)) == Ok(l.Rank())
  {
  }

  /** The dictionary `calculate_levels` returns. */
  datatype Levels = Levels(originalLevel: Option<Label>, simplifiedLevel: Option<Label>, levelImprovement: int)

  /** `calculate_levels`: both labels and the drop in rank from the original to the
      simplified text. The score difference it computes is never used. */
  function CalculateLevels(originalScore: real, simplifiedScore: real): Result<Levels, PyError>
  {
    var originalCefr := GetCefrLevel(originalScore);
    var simplifiedCefr := GetCefrLevel(simplifiedScore);
    match RankOf(originalCefr)
    case Err(e) => Err(e)
    case Ok(originalRank) =>
      match RankOf(simplifiedCefr)
      case Err(e) => Err(e)
      case Ok(simplifiedRank) => Ok(Levels(originalCefr, simplifiedCefr, originalRank - simplifiedRank))
  }

  /** `calculate_levels` never fails; it returns the labels of both scores and the rank
      difference, which lies in -7..7, is not negative when the simplified text scores at
      least as high, and is 0 when both scores get the same label. */
  lemma CalculateLevelsOutcome(originalScore: real, simplifiedScore: real)
    ensures var r := CalculateLevels(originalScore, simplifiedScore);
            && r.Ok?
            && r.value.originalLevel == GetCefrLevel(originalScore)
            && r.value.simplifiedLevel == GetCefrLevel(simplifiedScore)
            && r.value.levelImprovement
               == GetCefrLevel(originalScore).value.Rank() - GetCefrLevel(simplifiedScore).value.Rank()
            && -7 <= r.value.levelImprovement <= 7
            && (simplifiedScore >= originalScore ==> r.value.levelImprovement >= 0)
            && (GetCefrLevel(originalScore) == GetCefrLevel(simplifiedScore) ==> r.value.levelImprovement == 0)
  {
    RankOfLabel(GetCefrLevel(originalScore).value);
    RankOfLabel(GetCefrLevel(simplifiedScore).value);
    if simplifiedScore >= originalScore {
      LevelMonotone(originalScore, simplifiedScore);
    }
  }
}
