/**
 * Investment risk evaluation: enter a company, an amount and a time horizon, and
 * receive a fixed assessment with an overall level, five category levels, key risks
 * and an investment recommendation.
 */
module EvaluacionRiesgos {
  import opened Text
  import opened Wrappers
  import opened Findings

  /** A category; `level` is the string the helpers receive (`'low' | 'medium' | 'high'` in the fixture). */
  datatype RiskCategory = RiskCategory(score: int, level: string, factors: seq<string>)

  /** A key risk; its texts and time frame are not modelled. */
  datatype KeyRisk = KeyRisk(probability: int, impact: int)

  /** The recommendation; its reasoning is not modelled, its conditions are counted, and the maximum investment (a floating-point product) is left out. */
  datatype InvestmentRecommendation = InvestmentRecommendation(recommendation: string, confidence: int, conditions: nat)

  datatype RiskAssessment = RiskAssessment(
    companyName: string,
    overallRisk: string,
    riskScore: int,
    financial: RiskCategory,
    legal: RiskCategory,
    operational: RiskCategory,
    market: RiskCategory,
    regulatory: RiskCategory,
    keyRisks: seq<KeyRisk>,
    investmentRecommendation: InvestmentRecommendation)

  /** The factor lists of the five fixed categories. */
  const FinancialFactors: seq<string> := [
    "Ratio de endeudamiento elevado (78%)",
    "Flujo de caja positivo pero variable",
    "Dependencia de pocos clientes grandes",
    "Márgenes de rentabilidad en declive"]
  const LegalFactors: seq<string> := [
    "Estructura legal sólida",
    "Cumplimiento regulatorio adecuado",
    "Pocos litigios pendientes",
    "Contratos bien estructurados"]
  const OperationalFactors: seq<string> := [
    "Dependencia de personal clave",
    "Sistemas tecnológicos obsoletos",
    "Procesos operativos eficientes",
    "Cadena de suministro vulnerable"]
  const MarketFactors: seq<string> := [
    "Mercado altamente competitivo",
    "Cambios tecnológicos disruptivos",
    "Concentración de clientes",
    "Presión sobre precios"]
  const RegulatoryFactors: seq<string> := [
    "Cumplimiento normativo actualizado",
    "Licencias y permisos vigentes",
    "Políticas de compliance implementadas",
    "Riesgo regulatorio bajo"]

  /** The fixed assessment, made out to the company name captured when the analysis started. */
  function MockAssessment(companyName: string): (a: RiskAssessment)
    ensures a.companyName == companyName
    ensures a.overallRisk == "medium" && a.riskScore == 68
    ensures a.investmentRecommendation.recommendation == "caution"
  {
    RiskAssessment(
      companyName,
      "medium",
      68,
      RiskCategory(72, "medium", FinancialFactors),
      RiskCategory(85, "low", LegalFactors),
      RiskCategory(65, "medium", OperationalFactors),
      RiskCategory(58, "high", MarketFactors),
      RiskCategory(78, "low", RegulatoryFactors),
      [KeyRisk(35, 85), KeyRisk(70, 60), KeyRisk(25, 75), KeyRisk(80, 55)],
      InvestmentRecommendation("caution", 75, 5))
  }

  /** `getRiskColor`: low green, medium yellow, high red, anything else gray. */
  function RiskColor(level: string): (t: Tone)
    ensures t == Green <==> level == "low"
    ensures t == Yellow <==> level == "medium"
    ensures t == Red <==> level == "high"
    ensures t == Gray <==> level !in {"low", "medium", "high"}
  {
    if level == "low" then Green
    else if level == "medium" then Yellow
    else if level == "high" then Red
    else Gray
  }

  /** `getRiskBg`: the same mapping for the overall panel's background and border. */
  function RiskBg(level: string): (t: Tone)
    ensures t == Green <==> level == "low"
    ensures t == Yellow <==> level == "medium"
    ensures t == Red <==> level == "high"
    ensures t == Gray <==> level !in {"low", "medium", "high"}
  {
    if level == "low" then Green
    else if level == "medium" then Yellow
    else if level == "high" then Red
    else Gray
  }

  /** The inline label "Bajo"/"Medio"/"Alto", whose last branch takes every other string. */
  function LevelLabel(level: string): (r: string)
    ensures r == "Bajo" <==> level == "low"
    ensures r == "Medio" <==> level == "medium"
    ensures r == "Alto" <==> level !in {"low", "medium"}
  {
    if level == "low" then "Bajo" else if level == "medium" then "Medio" else "Alto"
  }

  /** The inline colour of a category badge, whose last branch takes every other string. */
  function BadgeTone(level: string): (t: Tone)
    ensures t == Green <==> level == "low"
    ensures t == Yellow <==> level == "medium"
    ensures t == Red <==> level !in {"low", "medium"}
    ensures t != Gray
  {
    if level == "low" then Green else if level == "medium" then Yellow else Red
  }

  /** For the three levels the type allows, every colour and the label name the same band. */
  lemma KnownLevelsAgree(level: string)
    requires level in {"low", "medium", "high"}
    ensures RiskColor(level) != Gray
    ensures RiskBg(level) == RiskColor(level) && BadgeTone(level) == RiskColor(level)
    ensures LevelLabel(level) ==
      if RiskColor(level) == Green then "Bajo" else if RiskColor(level) == Yellow then "Medio" else "Alto"
  {
  }

  /** Any other string is coloured gray by the helpers but labelled "Alto" on a red badge. */
  lemma UnknownLevelFallbacks(level: string)
    requires level !in {"low", "medium", "high"}
    ensures RiskColor(level) == Gray && RiskBg(level) == Gray
    ensures LevelLabel(level) == "Alto" && BadgeTone(level) == Red
  {
  }

  /** `getRecommendationColor`: invest green, caution yellow, avoid red, anything else gray. */
  function RecommendationColor(recommendation: string): (t: Tone)
    ensures t == Green <==> recommendation == "invest"
    ensures t == Yellow <==> recommendation == "caution"
    ensures t == Red <==> recommendation == "avoid"
    ensures t == Gray <==> recommendation !in {"invest", "caution", "avoid"}
  {
    if recommendation == "invest" then Green
    else if recommendation == "caution" then Yellow
    else if recommendation == "avoid" then Red
    else Gray
  }

  /** The inline recommendation label, whose last branch takes every other string. */
  function RecommendationLabel(recommendation: string): (r: string)
    ensures recommendation == "invest" <==> r == "INVERTIR"
    ensures recommendation == "caution" <==> r == "PROCEDER CON CAUTELA"
    ensures recommendation !in {"invest", "caution"} <==> r == "EVITAR INVERSIÓN"
  {
    if recommendation == "invest" then "INVERTIR"
    else if recommendation == "caution" then "PROCEDER CON CAUTELA"
    else "EVITAR INVERSIÓN"
  }

  /** The fixed assessment is shown as medium risk with a "proceed with caution" recommendation. */
  lemma MockAssessmentLabels(companyName: string)
    ensures var a := MockAssessment(companyName);
      && LevelLabel(a.overallRisk) == "Medio" && RiskColor(a.overallRisk) == Yellow
      && RecommendationLabel(a.investmentRecommendation.recommendation) == "PROCEDER CON CAUTELA"
      && RecommendationColor(a.investmentRecommendation.recommendation) == Yellow
  {
  }

  /** `factors.slice(0, 2)`: the factors a category card lists. */
  function TopFactors(factors: seq<string>): (r: seq<string>)
    ensures |r| == if |factors| < 2 then |factors| else 2
    ensures forall i | 0 <= i < |r| :: r[i] == factors[i]
  {
    if |factors| < 2 then factors else factors[..2]
  }

  /** The category cards in the order `Object.entries` lists the categories. */
  function CategoryCards(a: RiskAssessment): (cards: seq<RiskCategory>)
    ensures |cards| == 5
  {
    [a.financial, a.legal, a.operational, a.market, a.regulatory]
  }

  /** Every card of the fixed assessment lists exactly its first two factors. */
  lemma MockCardsShowTwoFactors(companyName: string)
    ensures forall i | 0 <= i < 5 ::
      var c := CategoryCards(MockAssessment(companyName))[i];
      |TopFactors(c.factors)| == 2 && TopFactors(c.factors) == c.factors[..2]
  {
  }

  /** The evaluation form, its analysis flag and the assessment on screen. */
  class Evaluation {
    var companyName: string
    var investmentAmount: string
    var timeHorizon: string
    var isAnalyzing: bool
    var assessment: Option<RiskAssessment>
    /** The company names captured by timers that have not fired yet, oldest first. */
    var pending: seq<string>

    /** Analysis is shown only while a timer is outstanding. */
    ghost predicate Valid()
      reads this
    {
      isAnalyzing ==> pending != []
    }

    constructor ()
      ensures Valid()
      ensures companyName == [] && investmentAmount == [] && timeHorizon == []
      ensures !isAnalyzing && assessment == None && pending == []
    {
      companyName := [];
      investmentAmount := [];
      timeHorizon := [];
      isAnalyzing := false;
      assessment := None;
      pending := [];
    }

    method SetCompanyName(value: string)
      requires Valid()
      modifies this`companyName
      ensures Valid() && companyName == value
    {
      companyName := value;
    }

    method SetInvestmentAmount(value: string)
      requires Valid()
      modifies this`investmentAmount
      ensures Valid() && investmentAmount == value
    {
      investmentAmount := value;
    }

    method SetTimeHorizon(value: string)
      requires Valid()
      modifies this`timeHorizon
      ensures Valid() && timeHorizon == value
    {
      timeHorizon := value;
    }

    /** The three inputs are all non-blank: `handleAnalyze`'s guard. */
    predicate FormComplete()
      reads this
    {
      !IsBlank(companyName) && !IsBlank(investmentAmount) && !IsBlank(timeHorizon)
    }

    /** The form is shown exactly when there is no assessment; its button adds "not analysing" to the guard. */
    predicate ShowsForm()
      reads this
    {
      assessment.None?
    }

    predicate AnalyzeButtonEnabled()
      reads this
    {
      ShowsForm() && FormComplete() && !isAnalyzing
    }

    /** `handleAnalyze`: an incomplete form changes nothing; otherwise a timer captures the company name. */
    method HandleAnalyze()
      requires Valid()
      modifies this
      ensures Valid()
      ensures companyName == old(companyName) && investmentAmount == old(investmentAmount)
      ensures timeHorizon == old(timeHorizon) && assessment == old(assessment)
      ensures !old(FormComplete()) ==> isAnalyzing == old(isAnalyzing) && pending == old(pending)
      ensures old(FormComplete()) ==> isAnalyzing && pending == old(pending) + [old(companyName)]
    {
      if IsBlank(companyName) || IsBlank(investmentAmount) || IsBlank(timeHorizon) {
        return;
      }
      isAnalyzing := true;
      pending := pending + [companyName];
    }

    /** The oldest timer fires: the assessment for the name it captured is installed and analysis ends. */
    method AnalyzeTimerFires()
      requires Valid() && pending != []
      modifies this
      ensures Valid()
      ensures assessment == Some(MockAssessment(old(pending[0])))
      ensures !isAnalyzing && pending == old(pending[1..])
      ensures companyName == old(companyName) && investmentAmount == old(investmentAmount)
      ensures timeHorizon == old(timeHorizon)
      ensures !ShowsForm()
    {
      assessment := Some(MockAssessment(pending[0]));
      isAnalyzing := false;
      pending := pending[1..];
    }

    /** "Nueva Evaluación": the assessment and all three inputs are cleared. */
    method NewEvaluation()
      requires Valid()
      modifies this
      ensures Valid()
      ensures assessment == None && companyName == [] && investmentAmount == [] && timeHorizon == []
      ensures isAnalyzing == old(isAnalyzing) && pending == old(pending)
      ensures ShowsForm() && !FormComplete()
    {
      assessment := None;
      companyName := [];
      investmentAmount := [];
      timeHorizon := [];
    }
  }
}
