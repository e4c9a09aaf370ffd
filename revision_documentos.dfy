/**
 * Document review: choose a document and receive a fixed review with a score out of
 * 100, a list of issues and a list of suggestions.
 */
module RevisionDocumentos {
  import opened Wrappers
  import opened Findings

  datatype IssueType = Error | Warning | Info

  /** An issue; its title, description and location are not modelled. */
  datatype Issue = Issue(kind: IssueType)

  function KindOf(i: Issue): IssueType { i.kind }

  /**
   * The figures the fixed summary sentence states: the score out of 100, the number of
   * areas to improve, of critical errors and of important warnings.
   */
  datatype SummaryClaims = SummaryClaims(score: nat, areas: nat, errors: nat, warnings: nat)

  /** A review; the suggestions are counted, their texts are not modelled. */
  datatype AnalysisResult = AnalysisResult(score: int, issues: seq<Issue>, suggestions: nat, summary: SummaryClaims)

  const MockResult: AnalysisResult := AnalysisResult(
    78,
    [Issue(Error), Issue(Warning), Issue(Warning), Issue(Info)],
    5,
    SummaryClaims(78, 4, 1, 2))

  /** The number of issues of one type. */
  function CountOf(issues: seq<Issue>, kind: IssueType): (n: nat)
    ensures n <= |issues|
  {
    |Select(issues, KindOf, kind)|
  }

  /** The summary's figures agree with the result it summarises. */
  predicate SummaryMatches(r: AnalysisResult) {
    && r.summary.score == r.score
    && r.summary.areas == |r.issues|
    && r.summary.errors == CountOf(r.issues, Error)
    && r.summary.warnings == CountOf(r.issues, Warning)
  }

  /** The fixed review's summary states its own score, issue count, errors and warnings correctly. */
  lemma MockSummaryMatches()
    ensures SummaryMatches(MockResult)
    ensures MockResult.score == 78 && |MockResult.issues| == 4
  {
    var xs := MockResult.issues;
    assert xs[1..][1..][1..] == xs[3..];
    assert Select(xs[3..], KindOf, Warning) == [];
    assert Select(xs[2..], KindOf, Warning) == [xs[2]];
    assert Select(xs[1..], KindOf, Warning) == [xs[1], xs[2]];
    assert Select(xs[3..], KindOf, Error) == [];
    assert Select(xs[2..], KindOf, Error) == [];
    assert Select(xs[1..], KindOf, Error) == [];
  }

  /** The colour of the progress bar, written inline next to `getScoreColor`. */
  function BarTone(score: int): (t: Tone)
    ensures t == Green <==> score >= 80
    ensures t == Yellow <==> 60 <= score < 80
    ensures t == Red <==> score < 60
  {
    if score >= 80 then Green else if score >= 60 then Yellow else Red
  }

  /** The score text (`getScoreColor`) and the progress bar always fall in the same band. */
  lemma BarAgreesWithScoreText(score: int)
    ensures BarTone(score) == ScoreTone(score)
  {
  }

  /** The fixed review's score of 78 is shown in the middle band. */
  lemma MockScoreIsYellow()
    ensures ScoreTone(MockResult.score) == Yellow && BarTone(MockResult.score) == Yellow
  {
  }

  class DocumentReview {
    var selectedFile: Option<File>
    var isAnalyzing: bool
    var analysisResult: Option<AnalysisResult>
    /** The number of analysis timers that have not fired yet. */
    var pending: nat

    /** Only the fixed review is ever installed, and analysis is shown only while a timer is outstanding. */
    ghost predicate Valid()
      reads this
    {
      && (analysisResult.Some? ==> analysisResult.value == MockResult)
      && (isAnalyzing ==> pending > 0)
    }

    constructor ()
      ensures Valid()
      ensures selectedFile == None && !isAnalyzing && analysisResult == None && pending == 0
    {
      selectedFile := None;
      isAnalyzing := false;
      analysisResult := None;
      pending := 0;
    }

    /** `handleFileSelect`: a file is stored and any previous review cleared. */
    method HandleFileSelect(file: Option<File>)
      requires Valid()
      modifies this
      ensures Valid()
      ensures isAnalyzing == old(isAnalyzing) && pending == old(pending)
      ensures file.None? ==> selectedFile == old(selectedFile) && analysisResult == old(analysisResult)
      ensures file.Some? ==> selectedFile == file && analysisResult == None
    {
      if file.Some? {
        selectedFile := file;
        analysisResult := None;
      }
    }

    /** `handleAnalyze`: without a file nothing happens; otherwise analysis starts a timer. */
    method HandleAnalyze()
      requires Valid()
      modifies this
      ensures Valid()
      ensures selectedFile == old(selectedFile) && analysisResult == old(analysisResult)
      ensures old(selectedFile).None? ==> isAnalyzing == old(isAnalyzing) && pending == old(pending)
      ensures old(selectedFile).Some? ==> isAnalyzing && pending == old(pending) + 1
    {
      if selectedFile.None? {
        return;
      }
      isAnalyzing := true;
      pending := pending + 1;
    }

    /** An analysis timer fires: the fixed review is installed and analysis ends. */
    method AnalyzeTimerFires()
      requires Valid() && pending > 0
      modifies this
      ensures Valid()
      ensures analysisResult == Some(MockResult) && !isAnalyzing && pending == old(pending) - 1
      ensures selectedFile == old(selectedFile)
      ensures !ShowsAnalyzeButton()
    {
      analysisResult := Some(MockResult);
      isAnalyzing := false;
      pending := pending - 1;
    }

    /** The analyze button is shown with a file selected and no review, and enabled unless analysing. */
    predicate ShowsAnalyzeButton()
      reads this
    {
      selectedFile.Some? && analysisResult.None?
    }

    predicate AnalyzeButtonEnabled()
      reads this
    {
      ShowsAnalyzeButton() && !isAnalyzing
    }

    /** Any review on screen has a summary that matches it. */
    lemma ShownSummaryMatches()
      requires Valid() && analysisResult.Some?
      ensures SummaryMatches(analysisResult.value)
    {
      MockSummaryMatches();
    }

    /** "Analizar Otro Documento": file and review cleared. */
    method AnalyzeAnother()
      requires Valid()
      modifies this
      ensures Valid()
      ensures selectedFile == None && analysisResult == None
      ensures isAnalyzing == old(isAnalyzing) && pending == old(pending)
    {
      selectedFile := None;
      analysisResult := None;
    }
  }
}
