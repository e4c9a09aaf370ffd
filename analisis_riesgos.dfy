/**
 * Clause risk analysis: choose a contract file, receive a fixed list of risky clauses,
 * and view them all or only those of one risk level.
 */
module AnalisisRiesgos {
  import opened Wrappers
  import opened Findings

  /** A risky clause; its texts (clause, type, description, impact, mitigation, location) are not modelled. */
  datatype RiskClause = RiskClause(id: string, riskLevel: Level)

  function LevelOf(c: RiskClause): Level { c.riskLevel }

  /** The value of the filter buttons: `all` or one level. */
  datatype RiskFilter = All | Only(level: Level)

  /** The list every analysis installs. */
  const MockRisks: seq<RiskClause> := [
    RiskClause("1", High),
    RiskClause("2", High),
    RiskClause("3", Medium),
    RiskClause("4", Medium),
    RiskClause("5", Medium),
    RiskClause("6", Low)
  ]

  /** `filteredRisks`: every clause under `all`, otherwise the clauses of the chosen level. */
  function FilteredRisks(clauses: seq<RiskClause>, filter: RiskFilter): (r: seq<RiskClause>)
    ensures filter == All ==> r == clauses
    ensures filter.Only? ==> forall i | 0 <= i < |r| :: r[i].riskLevel == filter.level
    ensures |r| <= |clauses|
  {
    match filter
    case All => clauses
    case Only(level) => Select(clauses, LevelOf, level)
  }

  /**
   * A level filter keeps the original order and loses no clause of its level: the view is
   * a subsequence of the list holding each such clause as often as the list does.
   */
  lemma LevelFilterExact(clauses: seq<RiskClause>, level: Level, c: RiskClause)
    ensures IsSubsequence(FilteredRisks(clauses, Only(level)), clauses)
    ensures multiset(FilteredRisks(clauses, Only(level)))[c]
      == if c.riskLevel == level then multiset(clauses)[c] else 0
  {
    SelectIsSubsequence(clauses, LevelOf, level);
    SelectMultiplicity(clauses, LevelOf, level, c);
  }

  /** `riskStats`: the number of clauses of each level and in total. */
  datatype RiskStats = RiskStats(high: nat, medium: nat, low: nat, total: nat)

  function RiskStatsOf(clauses: seq<RiskClause>): (s: RiskStats)
    ensures s.total == |clauses|
    ensures s.high + s.medium + s.low == s.total
  {
    LevelCountsPartition(clauses, LevelOf);
    RiskStats(|Select(clauses, LevelOf, High)|, |Select(clauses, LevelOf, Medium)|,
              |Select(clauses, LevelOf, Low)|, |clauses|)
  }

  /** The count printed on a filter button. */
  function ButtonCount(stats: RiskStats, filter: RiskFilter): nat {
    match filter
    case All => stats.total
    case Only(High) => stats.high
    case Only(Medium) => stats.medium
    case Only(Low) => stats.low
  }

  /** Each filter button's count is the length of the list that filter shows. */
  lemma ButtonCountMatchesView(clauses: seq<RiskClause>, filter: RiskFilter)
    ensures ButtonCount(RiskStatsOf(clauses), filter) == |FilteredRisks(clauses, filter)|
  {
  }

  lemma MockHighClauses()
    ensures Select(MockRisks, LevelOf, High) == MockRisks[..2]
  {
    var m := MockRisks;
    assert m[1..][1..] == m[2..];
    assert Select(m[5..], LevelOf, High) == [];
    assert Select(m[4..], LevelOf, High) == [];
    assert Select(m[3..], LevelOf, High) == [];
    assert Select(m[2..], LevelOf, High) == [];
  }

  lemma MockMediumClauses()
    ensures Select(MockRisks, LevelOf, Medium) == MockRisks[2..5]
  {
    var m := MockRisks;
    assert m[1..][1..][1..][1..][1..] == m[5..];
    assert Select(m[5..], LevelOf, Medium) == [];
    assert Select(m[4..], LevelOf, Medium) == [m[4]];
    assert Select(m[3..], LevelOf, Medium) == [m[3], m[4]];
    assert Select(m[2..], LevelOf, Medium) == [m[2], m[3], m[4]];
  }

  /** The fixture holds two high, three medium and one low clause. */
  lemma MockStats()
    ensures RiskStatsOf(MockRisks) == RiskStats(2, 3, 1, 6)
  {
    MockHighClauses();
    MockMediumClauses();
  }

  /** With the fixture installed, every filter shows at least one clause. */
  lemma MockNeverEmptyView(filter: RiskFilter)
    ensures FilteredRisks(MockRisks, filter) != []
  {
    MockStats();
    ButtonCountMatchesView(MockRisks, filter);
  }

  class RiskAnalyzer {
    var selectedFile: Option<File>
    var isAnalyzing: bool
    var riskClauses: seq<RiskClause>
    var filterRisk: RiskFilter
    /** The number of analysis timers that have not fired yet. */
    var pending: nat

    /** The list is empty or the fixture, and analysis is shown only while a timer is outstanding. */
    ghost predicate Valid()
      reads this
    {
      && (riskClauses == [] || riskClauses == MockRisks)
      && (isAnalyzing ==> pending > 0)
    }

    constructor ()
      ensures Valid()
      ensures selectedFile == None && !isAnalyzing && riskClauses == [] && filterRisk == All && pending == 0
    {
      selectedFile := None;
      isAnalyzing := false;
      riskClauses := [];
      filterRisk := All;
      pending := 0;
    }

    /** `handleFileSelect`: a file is stored and the clauses cleared; the filter is left as it was. */
    method HandleFileSelect(file: Option<File>)
      requires Valid()
      modifies this
      ensures Valid()
      ensures isAnalyzing == old(isAnalyzing) && pending == old(pending) && filterRisk == old(filterRisk)
      ensures file.None? ==> selectedFile == old(selectedFile) && riskClauses == old(riskClauses)
      ensures file.Some? ==> selectedFile == file && riskClauses == []
    {
      if file.Some? {
        selectedFile := file;
        riskClauses := [];
      }
    }

    /** `handleAnalyze`: without a file nothing happens; otherwise analysis starts a timer. */
    method HandleAnalyze()
      requires Valid()
      modifies this
      ensures Valid()
      ensures selectedFile == old(selectedFile) && riskClauses == old(riskClauses) && filterRisk == old(filterRisk)
      ensures old(selectedFile).None? ==> isAnalyzing == old(isAnalyzing) && pending == old(pending)
      ensures old(selectedFile).Some? ==> isAnalyzing && pending == old(pending) + 1
    {
      if selectedFile.None? {
        return;
      }
      isAnalyzing := true;
      pending := pending + 1;
    }

    /** An analysis timer fires: the fixture is installed and analysis ends. */
    method AnalyzeTimerFires()
      requires Valid() && pending > 0
      modifies this
      ensures Valid()
      ensures riskClauses == MockRisks && !isAnalyzing && pending == old(pending) - 1
      ensures selectedFile == old(selectedFile) && filterRisk == old(filterRisk)
      ensures ShowsResults() && !ShowsAnalyzeButton()
    {
      riskClauses := MockRisks;
      isAnalyzing := false;
      pending := pending - 1;
    }

    /** A filter button sets the filter. */
    method SetFilterRisk(filter: RiskFilter)
      requires Valid()
      modifies this`filterRisk
      ensures Valid() && filterRisk == filter
    {
      filterRisk := filter;
    }

    /** The analyze button is shown with a file selected and no clauses, and enabled unless analysing. */
    predicate ShowsAnalyzeButton()
      reads this
    {
      selectedFile.Some? && riskClauses == []
    }

    predicate AnalyzeButtonEnabled()
      reads this
    {
      ShowsAnalyzeButton() && !isAnalyzing
    }

    /** The results panel is shown exactly when there are clauses. */
    predicate ShowsResults()
      reads this
    {
      riskClauses != []
    }

    /** Inside the results, the "no risks of this level" message appears exactly when the view is empty. */
    predicate ShowsNoRisksMessage()
      reads this
    {
      ShowsResults() && FilteredRisks(riskClauses, filterRisk) == []
    }

    /** With only the fixture ever installed, the "no risks" message never appears. */
    lemma NoRisksMessageNeverShown()
      requires Valid()
      ensures !ShowsNoRisksMessage()
    {
      if riskClauses != [] {
        MockNeverEmptyView(filterRisk);
      }
    }
  }
}
