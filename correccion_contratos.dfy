/**
 * Contract correction: choose a contract file, receive a fixed list of suggested
 * corrections, and mark corrections as applied or not.
 */
module CorreccionContratos {
  import opened Wrappers
  import opened Findings

  datatype Kind = Grammar | Legal | Structure | Risk

  /** A suggested correction; its texts and clause location are not modelled. */
  datatype Correction = Correction(id: string, kind: Kind, severity: Level)

  function SeverityOf(c: Correction): Level { c.severity }

  /** The list every processing run installs. */
  const MockCorrections: seq<Correction> := [
    Correction("1", Legal, High),
    Correction("2", Risk, High),
    Correction("3", Structure, Medium),
    Correction("4", Grammar, Low),
    Correction("5", Legal, Medium)
  ]

  /** The ids of a list of corrections. */
  function Ids(cs: seq<Correction>): set<string> {
    set i | 0 <= i < |cs| :: cs[i].id
  }

  lemma IdsUnfold(cs: seq<Correction>)
    requires cs != []
    ensures Ids(cs) == {cs[0].id} + Ids(cs[1..])
  {
    forall x | x in Ids(cs) ensures x in {cs[0].id} + Ids(cs[1..]) {
      var k :| 0 <= k < |cs| && cs[k].id == x;
      if k > 0 { assert cs[1..][k - 1] == cs[k]; }
    }
    forall x | x in Ids(cs[1..]) ensures x in Ids(cs) {
      var k :| 0 <= k < |cs| - 1 && cs[1..][k].id == x;
      assert cs[k + 1].id == x;
    }
  }

  /** A list never has more ids than corrections. */
  lemma {:induction false} IdsCardinality(cs: seq<Correction>)
    ensures |Ids(cs)| <= |cs|
  {
    if cs != [] {
      IdsUnfold(cs);
      IdsCardinality(cs[1..]);
    }
  }

  /** `toggleCorrection`'s new set: the membership of `id` flips and every other id keeps its own. */
  function Toggled(applied: set<string>, id: string): (r: set<string>)
    ensures id in r <==> id !in applied
    ensures forall x | x != id :: x in r <==> x in applied
  {
    if id in applied then applied - {id} else applied + {id}
  }

  /** Toggling the same id twice restores the applied set. */
  lemma ToggleTwice(applied: set<string>, id: string)
    ensures Toggled(Toggled(applied, id), id) == applied
  {
    var r := Toggled(Toggled(applied, id), id);
    assert forall x :: x in r <==> x in applied;
  }

  /** Toggling keeps the applied set inside any id set that contains the toggled id. */
  lemma ToggleStaysWithin(applied: set<string>, id: string, ids: set<string>)
    requires applied <= ids && id in ids
    ensures Toggled(applied, id) <= ids
  {
  }

  /** The number of corrections of a severity, as the three summary counters show it. */
  function SeverityCount(cs: seq<Correction>, level: Level): (n: nat)
    ensures n <= |cs|
  {
    |Select(cs, SeverityOf, level)|
  }

  /** The three severity counters add up to the length of the list. */
  lemma SeverityCountsSum(cs: seq<Correction>)
    ensures SeverityCount(cs, High) + SeverityCount(cs, Medium) + SeverityCount(cs, Low) == |cs|
  {
    LevelCountsPartition(cs, SeverityOf);
  }

  /** The fixture has two high, two medium and one low correction. */
  lemma MockSeverityCounts()
    ensures SeverityCount(MockCorrections, High) == 2
    ensures SeverityCount(MockCorrections, Medium) == 2
    ensures SeverityCount(MockCorrections, Low) == 1
  {
    var m := MockCorrections;
    assert m[1..][1..][1..][1..] == m[4..];
    assert Select(m[4..], SeverityOf, Medium) == [m[4]];
    assert Select(m[3..], SeverityOf, Medium) == [m[4]];
    assert Select(m[2..], SeverityOf, Medium) == [m[2], m[4]];
    assert Select(m[1..], SeverityOf, Medium) == [m[2], m[4]];
  }

  predicate DistinctIds(cs: seq<Correction>) {
    forall i, j | 0 <= i < j < |cs| :: cs[i].id != cs[j].id
  }

  /** With distinct ids every correction contributes its own id. */
  lemma {:induction false} DistinctIdsCount(cs: seq<Correction>)
    requires DistinctIds(cs)
    ensures |Ids(cs)| == |cs|
  {
    if cs != [] {
      assert DistinctIds(cs[1..]) by {
        forall i, j | 0 <= i < j < |cs| - 1 ensures cs[1..][i].id != cs[1..][j].id {
          assert cs[1..][i] == cs[i + 1] && cs[1..][j] == cs[j + 1];
        }
      }
      DistinctIdsCount(cs[1..]);
      IdsUnfold(cs);
      assert cs[0].id !in Ids(cs[1..]) by {
        forall k | 0 <= k < |cs| - 1 ensures cs[1..][k].id != cs[0].id {
          assert cs[1..][k] == cs[k + 1];
        }
      }
    }
  }

  /** The fixture's ids are distinct, so the applied counter can reach the list length. */
  lemma MockIdsDistinct()
    ensures DistinctIds(MockCorrections)
    ensures |Ids(MockCorrections)| == |MockCorrections|
  {
    DistinctIdsCount(MockCorrections);
  }

  class Corrector {
    var selectedFile: Option<File>
    var isProcessing: bool
    var corrections: seq<Correction>
    var appliedCorrections: set<string>
    /** The number of processing timers that have not fired yet. */
    var pending: nat

    /**
     * The list is empty or the fixture, every applied id belongs to a listed
     * correction, and processing is shown only while a timer is outstanding.
     */
    ghost predicate Valid()
      reads this
    {
      && (corrections == [] || corrections == MockCorrections)
      && appliedCorrections <= Ids(corrections)
      && (isProcessing ==> pending > 0)
    }

    constructor ()
      ensures Valid()
      ensures selectedFile == None && !isProcessing && corrections == [] && appliedCorrections == {} && pending == 0
    {
      selectedFile := None;
      isProcessing := false;
      corrections := [];
      appliedCorrections := {};
      pending := 0;
    }

    /** `handleFileSelect`: no file changes nothing; a file is stored and the previous results cleared. */
    method HandleFileSelect(file: Option<File>)
      requires Valid()
      modifies this
      ensures Valid()
      ensures isProcessing == old(isProcessing) && pending == old(pending)
      ensures file.None? ==>
        selectedFile == old(selectedFile) && corrections == old(corrections)
        && appliedCorrections == old(appliedCorrections)
      ensures file.Some? ==> selectedFile == file && corrections == [] && appliedCorrections == {}
    {
      if file.Some? {
        selectedFile := file;
        corrections := [];
        appliedCorrections := {};
      }
    }

    /** The process button is shown with a file selected and no corrections, and enabled unless processing. */
    predicate ShowsProcessButton()
      reads this
    {
      selectedFile.Some? && corrections == []
    }

    predicate ProcessButtonEnabled()
      reads this
    {
      ShowsProcessButton() && !isProcessing
    }

    /** The results panel is shown exactly when there are corrections. */
    predicate ShowsResults()
      reads this
    {
      corrections != []
    }

    /** `handleProcess`: without a file nothing happens; otherwise processing starts a timer. */
    method HandleProcess()
      requires Valid()
      modifies this
      ensures Valid()
      ensures selectedFile == old(selectedFile) && corrections == old(corrections)
      ensures appliedCorrections == old(appliedCorrections)
      ensures old(selectedFile).None? ==> isProcessing == old(isProcessing) && pending == old(pending)
      ensures old(selectedFile).Some? ==> isProcessing && pending == old(pending) + 1
    {
      if selectedFile.None? {
        return;
      }
      isProcessing := true;
      pending := pending + 1;
    }

    /** A processing timer fires: the fixture list is installed and processing ends; the applied set is kept. */
    method ProcessTimerFires()
      requires Valid() && pending > 0
      modifies this
      ensures Valid()
      ensures corrections == MockCorrections && !isProcessing && pending == old(pending) - 1
      ensures selectedFile == old(selectedFile) && appliedCorrections == old(appliedCorrections)
      ensures ShowsResults() && !ShowsProcessButton()
    {
      if corrections == [] {
        assert appliedCorrections == {};
      }
      corrections := MockCorrections;
      isProcessing := false;
      pending := pending - 1;
    }

    /** The apply button of the `i`-th listed correction toggles that correction's id. */
    method ToggleCorrection(i: nat)
      requires Valid() && i < |corrections|
      modifies this`appliedCorrections
      ensures Valid()
      ensures appliedCorrections == Toggled(old(appliedCorrections), corrections[i].id)
    {
      assert corrections[i].id in Ids(corrections);
      ToggleStaysWithin(appliedCorrections, corrections[i].id, Ids(corrections));
      appliedCorrections := Toggled(appliedCorrections, corrections[i].id);
    }

    /** The "Aplicadas" counter: the size of the applied set, never more than the listed corrections. */
    function AppliedCount(): (n: nat)
      requires Valid()
      reads this
      ensures n <= |corrections|
    {
      SubsetCardinality(appliedCorrections, Ids(corrections));
      IdsCardinality(corrections);
      |appliedCorrections|
    }

    /** "Procesar Otro Contrato": file, corrections and applied set are cleared. */
    method ProcessAnother()
      requires Valid()
      modifies this
      ensures Valid()
      ensures selectedFile == None && corrections == [] && appliedCorrections == {}
      ensures isProcessing == old(isProcessing) && pending == old(pending)
    {
      selectedFile := None;
      corrections := [];
      appliedCorrections := {};
    }
  }

  lemma SubsetCardinality(a: set<string>, b: set<string>)
    requires a <= b
    ensures |a| <= |b|
  {
    if a != {} {
      var x :| x in a;
      SubsetCardinality(a - {x}, b - {x});
    }
  }
}
