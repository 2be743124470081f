/** The arithmetic of the promptflow evaluation: the cost estimates of the two evaluation
    flows, the aggregation of per-line results into run metrics, and the run configuration
    built by the notebook helpers. Token counts are inputs; the metrics a flow logs are
    returned next to its result. */
module Evaluation {
  import opened PyValues

  /** The dictionary `estimate_cost` of the evaluation flow returns, one field per key. */
  datatype CostReport = CostReport(
    instructionsCost: real,
    promptCost: real,
    completionCost: real,
    totalCost: real,
    scoreImprovementRatio: int,
    levelImprovementRatio: int)

  /** `estimate_cost` of the evaluation flow, given the token counts of the original text,
      the simplified text and the full prompt. The instruction tokens are the prompt's
      tokens minus the original text's; both ratios are rounded and divide by the total
      cost in thousandths, which fails for a total cost of 0. The total token count it
      also computes is never used. */
  function EstimateCost(originalToken: nat, simplifiedToken: nat, promptToken: nat,
                        prompt1kTokenCost: real, completion1kTokenCost: real,
                        scoreImprovement: real, levelImprovement: int): Result<CostReport, PyError>
  {
    var instructionsToken := promptToken - originalToken;
    var instructionsCost := (instructionsToken as real / 1000.0) * prompt1kTokenCost;
    var promptCost := (promptToken as real / 1000.0) * prompt1kTokenCost;
    var completionCost := (simplifiedToken as real / 1000.0) * completion1kTokenCost;
    var totalCost := promptCost + completionCost;
    if totalCost * 1000.0 == 0.0 then Err(ZeroDivisionError)
    else
      var scoreImprovementRatio := RoundHalfEven((scoreImprovement / 20.0) / (totalCost * 1000.0));
      var levelImprovementRatio := RoundHalfEven((levelImprovement as real / 7.0) / (totalCost * 1000.0));
      Ok(CostReport(instructionsCost, promptCost, completionCost, totalCost, scoreImprovementRatio, levelImprovementRatio))
  }

  /** The estimate fails exactly when the total cost is 0. Otherwise the total is the prompt
      cost plus the completion cost, the prompt cost splits into the instructions' cost and
      the original text's cost, the instructions never cost more than the prompt at a
      non-negative price, and each ratio is within one half of the exact quotient, so it is
      not negative when the improvement is not negative and the cost is positive. */
  lemma EstimateCostOutcome(originalToken: nat, simplifiedToken: nat, promptToken: nat,
                            prompt1kTokenCost: real, completion1kTokenCost: real,
                            scoreImprovement: real, levelImprovement: int)
    ensures var r := EstimateCost(originalToken, simplifiedToken, promptToken, prompt1kTokenCost, completion1kTokenCost,
                                  scoreImprovement, levelImprovement);
            var total := promptToken as real * prompt1kTokenCost + simplifiedToken as real * completion1kTokenCost;
            && (r.Err? <==> total == 0.0)
            && (r.Err? ==> r.error == ZeroDivisionError)
            && (r.Ok? ==>
                  && r.value.totalCost == r.value.promptCost + r.value.completionCost
                  && r.value.totalCost * 1000.0 == total
                  && r.value.promptCost == r.value.instructionsCost + originalToken as real / 1000.0 * prompt1kTokenCost
                  && (prompt1kTokenCost >= 0.0 ==> r.value.instructionsCost <= r.value.promptCost)
                  && (scoreImprovement / 20.0) / total - 0.5 <= r.value.scoreImprovementRatio as real
                  && r.value.scoreImprovementRatio as real <= (scoreImprovement / 20.0) / total + 0.5
                  && (levelImprovement as real / 7.0) / total - 0.5 <= r.value.levelImprovementRatio as real
                  && r.value.levelImprovementRatio as real <= (levelImprovement as real / 7.0) / total + 0.5
                  && (scoreImprovement >= 0.0 && total > 0.0 ==> r.value.scoreImprovementRatio >= 0)
                  && (levelImprovement >= 0 && total > 0.0 ==> r.value.levelImprovementRatio >= 0))
  {
    var promptCost := (promptToken as real / 1000.0) * prompt1kTokenCost;
    var completionCost := (simplifiedToken as real / 1000.0) * completion1kTokenCost;
    var total := promptToken as real * prompt1kTokenCost + simplifiedToken as real * completion1kTokenCost;
    assert (promptCost + completionCost) * 1000.0 == total;
    if total > 0.0 {
      QuotientNonNegative(scoreImprovement / 20.0, total);
      QuotientNonNegative(levelImprovement as real / 7.0, total);
    }
  }

  /** A non-negative amount over a positive cost rounds to a non-negative integer. */
  lemma QuotientNonNegative(x: real, total: real)
    requires total > 0.0
    ensures x >= 0.0 ==> RoundHalfEven(x / total) >= 0
  {
    if x >= 0.0 {
      assert x / total >= 0.0;
    }
  }

  /** The per-1000-token input prices of the Einfache Sprache evaluation flow, in US dollars. */
  const InputTokenPrice1k: map<string, real> :=
    map["gpt-4-turbo" := 0.01, "gpt-4" := 0.03, "gpt-4-32k" := 0.06, "gpt-4o" := 0.005, "gpt-3.5-turbo" := 0.0005]

  /** The per-1000-token output prices of the same flow. */
  const OutputTokenPrice1k: map<string, real> :=
    map["gpt-4-turbo" := 0.03, "gpt-4" := 0.06, "gpt-4-32k" := 0.12, "gpt-4o" := 0.015, "gpt-3.5-turbo" := 0.0015]

  /** Both tables price the same models, and every price is positive. */
  lemma PricesPositive()
    ensures InputTokenPrice1k.Keys == OutputTokenPrice1k.Keys
    ensures forall m :: m in InputTokenPrice1k ==> InputTokenPrice1k[m] > 0.0
    ensures forall m :: m in OutputTokenPrice1k ==> OutputTokenPrice1k[m] > 0.0
  {
  }

  /** The dictionary `estimate_cost` of the Einfache Sprache flow returns. */
  datatype CostValue = CostValue(cost: real, value: real)

  /** `estimate_cost` of the Einfache Sprache flow: input tokens are the prompt's plus the
      original text's, output tokens the simplified text's; a model missing from the price
      tables raises `KeyError`; the value for money is the score improvement per dollar,
      or 0 when the cost is 0. */
  function EstimateCostValue(originalTokens: nat, simplifiedTokens: nat, promptTokens: nat, model: string,
                             scoreOriginal: real, scoreSimplified: real): Result<CostValue, PyError>
  {
    var inputTokensUsed := promptTokens + originalTokens;
    var outputTokensUsed := simplifiedTokens;
    if model !in InputTokenPrice1k || model !in OutputTokenPrice1k then Err(KeyError)
    else
      var estimatedCost := (inputTokensUsed as real / 1000.0) * InputTokenPrice1k[model]
                           + (outputTokensUsed as real / 1000.0) * OutputTokenPrice1k[model];
      var scoreImprovement := scoreSimplified - scoreOriginal;
      var valueForMoney := if estimatedCost != 0.0 then scoreImprovement / estimatedCost else 0.0;
      Ok(CostValue(estimatedCost, valueForMoney))
  }

  /** The estimate fails with `KeyError` exactly for an unknown model. Otherwise the cost is
      not negative, and 0 only when no token is used; the value times the cost is the score
      improvement when the cost is not 0, the value is 0 when it is, and an improvement
      gives a non-negative value. */
  lemma EstimateCostValueOutcome(originalTokens: nat, simplifiedTokens: nat, promptTokens: nat, model: string,
                                 scoreOriginal: real, scoreSimplified: real)
    ensures var r := EstimateCostValue(originalTokens, simplifiedTokens, promptTokens, model, scoreOriginal, scoreSimplified);
            && (r.Err? <==> model !in InputTokenPrice1k)
            && (r.Err? ==> r.error == KeyError)
            && (r.Ok? ==>
                  && r.value.cost >= 0.0
                  && (r.value.cost == 0.0 <==> originalTokens + simplifiedTokens + promptTokens == 0)
                  && (r.value.cost != 0.0 ==> r.value.value * r.value.cost == scoreSimplified - scoreOriginal)
                  && (r.value.cost == 0.0 ==> r.value.value == 0.0)
                  && (scoreSimplified >= scoreOriginal ==> r.value.value >= 0.0))
  {
    PricesPositive();
    var r := EstimateCostValue(originalTokens, simplifiedTokens, promptTokens, model, scoreOriginal, scoreSimplified);
    if r.Ok? && r.value.cost != 0.0 {
      var c := r.value.cost;
      assert r.value.value == (scoreSimplified - scoreOriginal) / c;
      if scoreSimplified >= scoreOriginal {
        assert (scoreSimplified - scoreOriginal) / c >= 0.0;
      }
    }
  }

  /** A metric written with `log_metric`. */
  datatype Metric = Metric(key: string, value: real)

  /** The dictionary `aggregate` of the evaluation flow returns. */
  datatype Aggregates = Aggregates(avgScoreOriginal: real, avgScoreSimplified: real, estimatedCost: real, valueForMoney: real)

  /** `sum(xs) / len(xs)`, with Python's error for an empty list. */
  function Average(xs: seq<real>): Result<real, PyError>
  {
    if |xs| == 0 then Err(ZeroDivisionError) else Ok(Mean(xs))
  }

  /** `aggregate` of the evaluation flow: the averages of both score lists, the total of the
      estimated costs and the average value for money, and the four metrics it logs. */
  function Aggregate(scoresOriginal: seq<real>, scoresSimplified: seq<real>, estimatedCost: seq<real>,
                     valueForMoney: seq<real>): Result<(Aggregates, seq<Metric>), PyError>
  {
    match Average(scoresOriginal)
    case Err(e) => Err(e)
    case Ok(avgScoreOriginal) =>
      match Average(scoresSimplified)
      case Err(e) => Err(e)
      case Ok(avgScoreSimplified) =>
        var totalEstimatedCost := Sum(estimatedCost);
        match Average(valueForMoney)
        case Err(e) => Err(e)
        case Ok(avgValueForMoney) =>
          var logged := [Metric("avg_original", avgScoreOriginal), Metric("avg_simplified", avgScoreSimplified),
                         Metric("total_estimated_cost", totalEstimatedCost), Metric("avg_value_for_money", avgValueForMoney)];
          Ok((Aggregates(avgScoreOriginal, avgScoreSimplified, totalEstimatedCost, avgValueForMoney), logged))
  }

  /** The average fails exactly for an empty list; otherwise it times the length is the sum,
      and it lies between any bounds of the elements. */
  lemma AverageSpec(xs: seq<real>, lo: real, hi: real)
    ensures Average(xs).Err? <==> xs == []
    ensures Average(xs).Err? ==> Average(xs).error == ZeroDivisionError
    ensures Average(xs).Ok? ==> Average(xs).value * |xs| as real == Sum(xs)
    ensures Average(xs).Ok? && (forall i :: 0 <= i < |xs| ==> lo <= xs[i] <= hi) ==> lo <= Average(xs).value <= hi
  {
    if xs != [] && forall i :: 0 <= i < |xs| ==> lo <= xs[i] <= hi {
      MeanBetweenBounds(xs, lo, hi);
    }
  }

  /** Every score the same gives that score as the average. */
  lemma AverageOfConstant(xs: seq<real>, c: real)
    requires xs != []
    requires forall i :: 0 <= i < |xs| ==> xs[i] == c
    ensures Average(xs) == Ok(c)
  {
    AverageSpec(xs, c, c);
  }

  /** `aggregate` fails with `ZeroDivisionError` exactly when a list it averages is empty;
      the cost is summed, not averaged, so an empty cost list is fine. The four logged
      values are the four returned ones. */
  lemma AggregateOutcome(scoresOriginal: seq<real>, scoresSimplified: seq<real>, estimatedCost: seq<real>,
                         valueForMoney: seq<real>)
    ensures var r := Aggregate(scoresOriginal, scoresSimplified, estimatedCost, valueForMoney);
            && (r.Err? <==> scoresOriginal == [] || scoresSimplified == [] || valueForMoney == [])
            && (r.Err? ==> r.error == ZeroDivisionError)
            && (r.Ok? ==>
                  && Ok(r.value.0.avgScoreOriginal) == Average(scoresOriginal)
                  && Ok(r.value.0.avgScoreSimplified) == Average(scoresSimplified)
                  && r.value.0.estimatedCost == Sum(estimatedCost)
                  && Ok(r.value.0.valueForMoney) == Average(valueForMoney)
                  && r.value.1 == [Metric("avg_original", r.value.0.avgScoreOriginal),
                                   Metric("avg_simplified", r.value.0.avgScoreSimplified),
                                   Metric("total_estimated_cost", r.value.0.estimatedCost),
                                   Metric("avg_value_for_money", r.value.0.valueForMoney)])
  {
  }

  /** `aggregate` of the Einfache Sprache flow: the average score, logged as "avg". */
  function AggregateScores(scores: seq<real>): Result<(real, seq<Metric>), PyError>
  {
    match Average(scores)
    case Err(e) => Err(e)
    case Ok(avgScore) => Ok((avgScore, [Metric("avg", avgScore)]))
  }

  /** It fails exactly for an empty list; otherwise the result is the average, lies between
      any bounds of the scores, and is the one value logged. */
  lemma AggregateScoresOutcome(scores: seq<real>, lo: real, hi: real)
    ensures var r := AggregateScores(scores);
            && (r.Err? <==> scores == [])
            && (r.Err? ==> r.error == ZeroDivisionError)
            && (r.Ok? ==>
                  && r.value.0 * |scores| as real == Sum(scores)
                  && r.value.1 == [Metric("avg", r.value.0)]
                  && ((forall i :: 0 <= i < |scores| ==> lo <= scores[i] <= hi) ==> lo <= r.value.0 <= hi))
  {
    AverageSpec(scores, lo, hi);
    if scores != [] {
      var avg := Average(scores).value;
      assert AggregateScores(scores) == Ok((avg, [Metric("avg", avg)]));
    }
  }

  /** The characters `create_flow_config` removes from a variant name. */
  predicate IsTemplateChar(c: char)
  {
    c == '$' || c == '{' || c == '}'
  }

  /** `re.sub(r"[\$\{\}]", "", s)`. */
  function DropTemplateChars(s: string): (r: string)
    ensures |r| <= |s|
    ensures forall i :: 0 <= i < |r| ==> !IsTemplateChar(r[i])
  {
    if s == [] then []
    else (if IsTemplateChar(s[0]) then [] else [s[0]]) + DropTemplateChars(s[1..])
  }

  /** A name without '$', '{' and '}' is kept as it is. */
  lemma {:induction false} DropTemplateCharsPlain(s: string)
    requires forall i :: 0 <= i < |s| ==> !IsTemplateChar(s[i])
    ensures DropTemplateChars(s) == s
  {
    if s != [] {
      DropTemplateCharsPlain(s[1..]);
    }
  }

  /** Removal keeps every other character: it commutes with concatenation. */
  lemma {:induction false} DropTemplateCharsConcat(a: string, b: string)
    ensures DropTemplateChars(a + b) == DropTemplateChars(a) + DropTemplateChars(b)
  {
    if a == [] {
      assert a + b == b;
    } else {
      assert (a + b)[0] == a[0];
      assert (a + b)[1..] == a[1..] + b;
      DropTemplateCharsConcat(a[1..], b);
    }
  }

  /** The run configuration `create_flow_config` returns. */
  datatype FlowConfig = FlowConfig(
    model: string,
    displayName: string,
    runName: string,
    flowPath: string,
    dataPath: string,
    variant: Option<string>,
    columnMapping: map<string, string>)

  /** `variant or "default"` with the template characters removed. */
  function VariantName(variant: Option<string>): string
  {
    var v := if NoVariant(variant) then "default" else variant.value;
    DropTemplateChars(v)
  }

  /** `create_flow_config`. */
  function CreateFlowConfig(model: string, variant: Option<string>, flowPath: string, dataPath: string): FlowConfig
  {
    var variantStr := VariantName(variant);
    FlowConfig(
      model,
      "Simplify ES " + model + " " + variantStr,
      "run_simplify_es_" + model + "_" + variantStr,
      flowPath,
      dataPath,
      if NoVariant(variant) then None else variant,
      map["original_text" := "${data.original_text}", "model" := model])
  }

  /** The argument defaults of `create_flow_config`. */
  const DefaultModel := "gpt-4o"
  const DefaultFlowPath := "../flow-simplify-es"
  const DefaultDataPath := "../test_data.jsonl"

  /** The name of the evaluation run of a configuration, as `execute_eval_run` builds it. */
  function EvalRunName(cfg: FlowConfig): string
  {
    "eval_" + cfg.runName
  }

  /** No variant was given: `variant` is `None` or empty, which Python treats as false. */
  predicate NoVariant(variant: Option<string>)
  {
    variant == None || variant == Some("")
  }

  /** Without a variant the name is "default". */
  lemma DefaultVariantName(variant: Option<string>)
    requires NoVariant(variant)
    ensures VariantName(variant) == "default"
  {
    DropTemplateCharsPlain("default");
  }

  /** The variant name has no template characters; it is "default" without a variant, and
      otherwise the variant with those characters removed, which is the variant itself when
      it has none. */
  lemma VariantNameSpec(variant: Option<string>)
    ensures forall i :: 0 <= i < |VariantName(variant)| ==> !IsTemplateChar(VariantName(variant)[i])
    ensures NoVariant(variant) ==> VariantName(variant) == "default"
    ensures !NoVariant(variant) ==> VariantName(variant) == DropTemplateChars(variant.value)
    ensures !NoVariant(variant) && (forall i :: 0 <= i < |variant.value| ==> !IsTemplateChar(variant.value[i])) ==>
              VariantName(variant) == variant.value
  {
    if NoVariant(variant) {
      DefaultVariantName(variant);
    } else if forall i :: 0 <= i < |variant.value| ==> !IsTemplateChar(variant.value[i]) {
      DropTemplateCharsPlain(variant.value);
    }
  }

  /** The configuration stores the variant exactly when one is given, passes the model and
      the paths on, and maps the original text to the flow input and the model to the
      model. */
  lemma CreateFlowConfigFields(model: string, variant: Option<string>, flowPath: string, dataPath: string)
    ensures var cfg := CreateFlowConfig(model, variant, flowPath, dataPath);
            && (cfg.variant == None <==> NoVariant(variant))
            && (!NoVariant(variant) ==> cfg.variant == variant)
            && cfg.model == model && cfg.flowPath == flowPath && cfg.dataPath == dataPath
            && cfg.columnMapping.Keys == {"original_text", "model"}
            && cfg.columnMapping["model"] == model
            && cfg.columnMapping["original_text"] == "${data.original_text}"
  {
  }

  /** The run and its display are named after the model and the variant name. */
  lemma CreateFlowConfigNames(model: string, variant: Option<string>, flowPath: string, dataPath: string)
    ensures var cfg := CreateFlowConfig(model, variant, flowPath, dataPath);
            && cfg.runName == "run_simplify_es_" + model + "_" + VariantName(variant)
            && cfg.displayName == "Simplify ES " + model + " " + VariantName(variant)
  {
  }

  /** With the argument defaults, the run is "run_simplify_es_gpt-4o_default". */
  lemma DefaultRunName()
    ensures CreateFlowConfig(DefaultModel, None, DefaultFlowPath, DefaultDataPath).runName == "run_simplify_es_gpt-4o_default"
  {
    CreateFlowConfigNames(DefaultModel, None, DefaultFlowPath, DefaultDataPath);
    DefaultVariantName(None);
    var model, variantStr := DefaultModel, "default";
    assert "run_simplify_es_" + model + "_" + variantStr == "run_simplify_es_gpt-4o_default";
  }

  /** Its evaluation run is "eval_run_simplify_es_gpt-4o_default". */
  lemma DefaultEvalRunName()
    ensures EvalRunName(CreateFlowConfig(DefaultModel, None, DefaultFlowPath, DefaultDataPath)) == "eval_run_simplify_es_gpt-4o_default"
  {
    var cfg := CreateFlowConfig(DefaultModel, None, DefaultFlowPath, DefaultDataPath);
    var runName := "run_simplify_es_gpt-4o_default";
    DefaultRunName();
    assert EvalRunName(cfg) == "eval_" + runName;
    EvalPrefix(runName);
  }

  /** The evaluation run's name of the default run, on a variable. */
  lemma EvalPrefix(runName: string)
    requires runName == "run_simplify_es_gpt-4o_default"
    ensures "eval_" + runName == "eval_run_simplify_es_gpt-4o_default"
  {
  }

  /** A variant written as a template reference, "${summarize.variant_1}", is named
      "summarize.variant_1". */
  lemma TemplateReferenceVariant()
    ensures VariantName(Some("${summarize.variant_1}")) == "summarize.variant_1"
  {
    var inner := "summarize.variant_1";
    var opening, closing := "${", "}";
    var s := opening + (inner + closing);
    assert s == "${summarize.variant_1}";
    TemplateReferenceName(opening, inner, closing);
    assert VariantName(Some(s)) == DropTemplateChars(s);
  }

  /** Removing the template characters from a template reference leaves the name inside. */
  lemma TemplateReferenceName(opening: string, inner: string, closing: string)
    requires opening == "${" && closing == "}"
    requires forall i :: 0 <= i < |inner| ==> !IsTemplateChar(inner[i])
    ensures DropTemplateChars(opening + (inner + closing)) == inner
  {
    assert DropTemplateChars(opening) == [] by {
      assert opening[1..] == "{";
      assert opening[1..][1..] == [];
    }
    assert DropTemplateChars(closing) == [] by {
      assert closing[1..] == [];
    }
    DropTemplateCharsPlain(inner);
    DropTemplateCharsConcat(inner, closing);
    DropTemplateCharsConcat(opening, inner + closing);
  }
}
