/**
 * Due diligence: enter a company name and receive a fixed report with an overall
 * score, four category scores, key findings and recommendations.
 */
module DueDiligence {
  import opened Text
  import opened Wrappers
  import opened Findings

  datatype CategoryStatus = Pass | Warning | Fail

  datatype CategoryResult = CategoryResult(score: int, status: CategoryStatus, issues: nat)

  datatype CategoryKey = LegalArea | FinancialArea | OperationalArea | RegulatoryArea

  /** The heading of a category card. */
  function CategoryTitle(key: CategoryKey): string {
    match key
    case LegalArea => "Legal"
    case FinancialArea => "Financiero"
    case OperationalArea => "Operacional"
    case RegulatoryArea => "Regulatorio"
  }

  datatype FindingType = Positive | Negative | Neutral

  /** A key finding; its category, title and description are not modelled. */
  datatype KeyFinding = KeyFinding(kind: FindingType, impact: Level)

  /** A report; the recommendations are counted, their texts are not modelled. */
  datatype Report = Report(
    companyName: string,
    riskScore: int,
    legal: CategoryResult,
    financial: CategoryResult,
    operational: CategoryResult,
    regulatory: CategoryResult,
    keyFindings: seq<KeyFinding>,
    recommendations: nat)

  /** The fixed report, made out to the company name captured when the run started. */
  function MockReport(companyName: string): (r: Report)
    ensures r.companyName == companyName
    ensures r.riskScore == 72 && |r.keyFindings| == 6 && r.recommendations == 6
  {
    Report(
      companyName,
      72,
      CategoryResult(85, Pass, 2),
      CategoryResult(68, Warning, 4),
      CategoryResult(78, Pass, 3),
      CategoryResult(58, Warning, 6),
      [KeyFinding(Positive, Medium), KeyFinding(Negative, High), KeyFinding(Negative, High),
       KeyFinding(Neutral, Medium), KeyFinding(Negative, Medium), KeyFinding(Positive, High)],
      6)
  }

  /** The category cards in the order `Object.entries` lists the categories. */
  function CategoryCards(r: Report): (cards: seq<(CategoryKey, CategoryResult)>)
    ensures |cards| == 4
    ensures forall i, j | 0 <= i < j < 4 :: cards[i].0 != cards[j].0
  {
    [(LegalArea, r.legal), (FinancialArea, r.financial), (OperationalArea, r.operational), (RegulatoryArea, r.regulatory)]
  }

  /** The overall score and every category score use the same 80/60 banding. */
  lemma MockReportTones(companyName: string)
    ensures ScoreTone(MockReport(companyName).riskScore) == Yellow
    ensures ScoreTone(MockReport(companyName).legal.score) == Green
    ensures ScoreTone(MockReport(companyName).financial.score) == Yellow
    ensures ScoreTone(MockReport(companyName).operational.score) == Yellow
    ensures ScoreTone(MockReport(companyName).regulatory.score) == Red
  {
  }

  /** The card line "n problema(s) identificado(s)". */
  function IssuesLabel(n: nat): (r: string)
    ensures |r| > |NatToString(n)| && r[..|NatToString(n)|] == NatToString(n)
  {
    NatToString(n) + " problema" + PluralSuffix(n) + " identificado" + PluralSuffix(n)
  }

  /** Both nouns of the issue line are plural exactly when the count is not one. */
  lemma IssuesLabelPlural(n: nat)
    ensures |IssuesLabel(n)| > 0
    ensures IssuesLabel(n)[|IssuesLabel(n)| - 1] == 's' <==> n != 1
    ensures n == 1 ==> IssuesLabel(n) == "1 problema identificado"
  {
    if n == 1 {
      assert NatToString(1) == "1";
    }
  }

  class Investigation {
    var companyName: string
    var isProcessing: bool
    var report: Option<Report>
    /** The company names captured by timers that have not fired yet, oldest first. */
    var pending: seq<string>

    /**
     * Every report is the fixed one made out to a non-blank name, every captured name is
     * non-blank, and processing is shown only while a timer is outstanding.
     */
    ghost predicate Valid()
      reads this
    {
      && (report.Some? ==> report.value == MockReport(report.value.companyName) && !IsBlank(report.value.companyName))
      && (forall k | 0 <= k < |pending| :: !IsBlank(pending[k]))
      && (isProcessing ==> pending != [])
    }

    constructor ()
      ensures Valid()
      ensures companyName == [] && !isProcessing && report == None && pending == []
    {
      companyName := [];
      isProcessing := false;
      report := None;
      pending := [];
    }

    /** The name input's `onChange`. */
    method SetCompanyName(value: string)
      requires Valid()
      modifies this`companyName
      ensures Valid() && companyName == value
    {
      companyName := value;
    }

    /** The input form is shown exactly when there is no report; its button needs a non-blank name and no run in progress. */
    predicate ShowsForm()
      reads this
    {
      report.None?
    }

    predicate StartButtonEnabled()
      reads this
    {
      ShowsForm() && !IsBlank(companyName) && !isProcessing
    }

    /** `handleStartDueDiligence`: a blank name changes nothing; otherwise a timer captures the name. */
    method HandleStart()
      requires Valid()
      modifies this
      ensures Valid()
      ensures companyName == old(companyName) && report == old(report)
      ensures IsBlank(old(companyName)) ==> isProcessing == old(isProcessing) && pending == old(pending)
      ensures !IsBlank(old(companyName)) ==> isProcessing && pending == old(pending) + [old(companyName)]
    {
      if IsBlank(companyName) {
        return;
      }
      isProcessing := true;
      pending := pending + [companyName];
    }

    /** The oldest timer fires: the report for the name it captured is installed and processing ends. */
    method ProcessTimerFires()
      requires Valid() && pending != []
      modifies this
      ensures Valid()
      ensures report == Some(MockReport(old(pending[0])))
      ensures !isProcessing && pending == old(pending[1..]) && companyName == old(companyName)
      ensures !ShowsForm()
    {
      report := Some(MockReport(pending[0]));
      isProcessing := false;
      pending := pending[1..];
    }

    /** "Nuevo Análisis": the report and the company name are cleared. */
    method NewAnalysis()
      requires Valid()
      modifies this
      ensures Valid()
      ensures report == None && companyName == []
      ensures isProcessing == old(isProcessing) && pending == old(pending)
      ensures ShowsForm() && !StartButtonEnabled()
    {
      report := None;
      companyName := [];
    }
  }
}
