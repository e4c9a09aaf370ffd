/**
 * Data extraction: choose one or more documents, receive a fixed table of extracted
 * fields with confidences, and view all fields or those of one name.
 */
module ExtraccionDatos {
  import opened Wrappers
  import opened Text
  import opened Findings

  /** An extracted field; its value, source document and page are not modelled. */
  datatype ExtractedField = ExtractedField(fieldName: string, confidence: int)

  /** An extraction result; its summary (contract types, dates, value, parties) is not modelled. */
  datatype ExtractedData = ExtractedData(fileName: string, totalDocuments: nat, extractedFields: seq<ExtractedField>)

  function FieldNameOf(f: ExtractedField): string { f.fieldName }

  /** The fields every extraction installs. */
  const MockFields: seq<ExtractedField> := [
    ExtractedField("Nombre del Contrato", 98),
    ExtractedField("Contratante", 95),
    ExtractedField("Contratista", 97),
    ExtractedField("Fecha de Inicio", 99),
    ExtractedField("Fecha de Término", 99),
    ExtractedField("Valor del Contrato", 96),
    ExtractedField("Forma de Pago", 92),
    ExtractedField("Jurisdicción", 94),
    ExtractedField("Cláusula de Confidencialidad", 89),
    ExtractedField("Penalidades", 91),
    ExtractedField("Garantías", 93),
    ExtractedField("Renovación Automática", 87)
  ]

  const DocumentsSuffix: string := " documentos"

  /** The result's name: the single document's own name, or the count followed by " documentos". */
  function FileNameFor(files: seq<File>): (r: string)
    requires |files| >= 1
    ensures |files| == 1 ==> r == files[0].name
    ensures |files| > 1 ==> |r| > |DocumentsSuffix| && r[|r| - |DocumentsSuffix|..] == DocumentsSuffix
  {
    if |files| > 1 then NatToString(|files|) + DocumentsSuffix else files[0].name
  }

  /** For several documents the name ends in " documentos" and its leading digits read back as the count. */
  lemma FileNameReadsBackCount(files: seq<File>)
    requires |files| > 1
    ensures var r := FileNameFor(files);
      && |r| > |DocumentsSuffix|
      && r[|r| - |DocumentsSuffix|..] == DocumentsSuffix
      && (forall i | 0 <= i < |r| - |DocumentsSuffix| :: '0' <= r[i] <= '9')
      && ParseDecimal(r[..|r| - |DocumentsSuffix|]) == |files|
  {
    var r := FileNameFor(files);
    var digits := NatToString(|files|);
    assert r[..|r| - |DocumentsSuffix|] == digits;
    ParseNatToString(|files|);
  }

  /** The result built from the documents captured when extraction started. */
  function ExtractionResult(files: seq<File>): (d: ExtractedData)
    requires |files| >= 1
    ensures d.totalDocuments == |files| && d.extractedFields == MockFields
    ensures |files| == 1 ==> d.fileName == files[0].name
  {
    ExtractedData(FileNameFor(files), |files|, MockFields)
  }

  /** The confidence band: at least 95 high, at least 85 medium, otherwise low. */
  function ConfidenceBand(confidence: int): (l: Level)
    ensures l == High <==> confidence >= 95
    ensures l == Medium <==> 85 <= confidence < 95
    ensures l == Low <==> confidence < 85
  {
    if confidence >= 95 then High else if confidence >= 85 then Medium else Low
  }

  function BandTone(l: Level): Tone {
    match l
    case High => Green
    case Medium => Yellow
    case Low => Red
  }

  function BandLabel(l: Level): string {
    match l
    case High => "Alta"
    case Medium => "Media"
    case Low => "Baja"
  }

  /** `getConfidenceColor`: the colour of the percentage text. */
  function ConfidenceColor(confidence: int): (t: Tone)
    ensures t == Green <==> confidence >= 95
    ensures t == Yellow <==> 85 <= confidence < 95
    ensures t == Red <==> confidence < 85
  {
    if confidence >= 95 then Green else if confidence >= 85 then Yellow else Red
  }

  /** `getConfidenceBadge`: the colour of the badge behind the label. */
  function ConfidenceBadge(confidence: int): (t: Tone)
    ensures t == Green <==> confidence >= 95
    ensures t == Yellow <==> 85 <= confidence < 95
    ensures t == Red <==> confidence < 85
  {
    if confidence >= 95 then Green else if confidence >= 85 then Yellow else Red
  }

  /** The badge's label, written inline in the table. */
  function ConfidenceLabel(confidence: int): (r: string)
    ensures r == "Alta" <==> confidence >= 95
    ensures r == "Media" <==> 85 <= confidence < 95
    ensures r == "Baja" <==> confidence < 85
  {
    if confidence >= 95 then "Alta" else if confidence >= 85 then "Media" else "Baja"
  }

  /** Text colour, badge colour and label always name the same band. */
  lemma ConfidenceHelpersAgree(confidence: int)
    ensures ConfidenceColor(confidence) == BandTone(ConfidenceBand(confidence))
    ensures ConfidenceBadge(confidence) == BandTone(ConfidenceBand(confidence))
    ensures ConfidenceLabel(confidence) == BandLabel(ConfidenceBand(confidence))
  {
  }

  predicate NoDuplicates(xs: seq<string>) {
    forall i, j | 0 <= i < j < |xs| :: xs[i] != xs[j]
  }

  /** The position of the first occurrence of `x`. */
  function FirstIndex(xs: seq<string>, x: string): (i: nat)
    requires x in xs
    ensures i < |xs| && xs[i] == x
    ensures forall j | 0 <= j < i :: xs[j] != x
  {
    if xs[0] == x then 0 else 1 + FirstIndex(xs[1..], x)
  }

  /** Appending keeps the first occurrence of anything already present. */
  lemma FirstIndexOfPrefix(p: seq<string>, last: string, y: string)
    requires y in p
    ensures y in p + [last] && FirstIndex(p + [last], y) == FirstIndex(p, y)
  {
    var xs := p + [last];
    var k := FirstIndex(p, y);
    assert xs[k] == y;
  }

  /** `[...new Set(xs)]`: the distinct values in order of first occurrence. */
  function Dedup(xs: seq<string>): (r: seq<string>)
    ensures NoDuplicates(r)
    ensures forall x :: x in r <==> x in xs
  {
    if xs == [] then []
    else
      var p := xs[..|xs| - 1];
      var last := xs[|xs| - 1];
      assert xs == p + [last];
      var r := Dedup(p);
      if last in r then r else r + [last]
  }

  /** The distinct values come out ordered by where each first occurs. */
  lemma {:induction false} DedupFirstOccurrenceOrder(xs: seq<string>)
    ensures forall i, j | 0 <= i < j < |Dedup(xs)| ::
      FirstIndex(xs, Dedup(xs)[i]) < FirstIndex(xs, Dedup(xs)[j])
  {
    if xs != [] {
      var p := xs[..|xs| - 1];
      var last := xs[|xs| - 1];
      assert xs == p + [last];
      DedupFirstOccurrenceOrder(p);
      var rp := Dedup(p);
      var r := Dedup(xs);
      forall k | 0 <= k < |rp| ensures FirstIndex(xs, rp[k]) == FirstIndex(p, rp[k]) {
        FirstIndexOfPrefix(p, last, rp[k]);
      }
      if last !in rp {
        assert r == rp + [last];
        assert FirstIndex(xs, last) == |xs| - 1;
      }
    }
  }

  /** The field names in table order. */
  function FieldNames(fields: seq<ExtractedField>): (r: seq<string>)
    ensures |r| == |fields| && forall i | 0 <= i < |r| :: r[i] == fields[i].fieldName
  {
    seq(|fields|, i requires 0 <= i < |fields| => fields[i].fieldName)
  }

  /** `uniqueFieldNames`: the options of the field filter. */
  function UniqueFieldNames(data: Option<ExtractedData>): (r: seq<string>)
    ensures NoDuplicates(r)
    ensures data.None? ==> r == []
    ensures data.Some? ==> forall x :: x in r <==> exists i | 0 <= i < |data.value.extractedFields| ::
      data.value.extractedFields[i].fieldName == x
  {
    if data.None? then [] else
      var names := FieldNames(data.value.extractedFields);
      assert forall x :: x in names <==> exists i | 0 <= i < |names| :: names[i] == x;
      Dedup(names)
  }

  /** `filteredFields`: nothing without data, every field under "all", otherwise the fields of that name. */
  function FilteredFields(data: Option<ExtractedData>, filterField: string): (r: seq<ExtractedField>)
    ensures data.None? ==> r == []
    ensures data.Some? && filterField == "all" ==> r == data.value.extractedFields
    ensures data.Some? && filterField != "all" ==> |r| <= |data.value.extractedFields|
    ensures filterField != "all" ==> forall i | 0 <= i < |r| :: r[i].fieldName == filterField
  {
    if data.None? then []
    else if filterField == "all" then data.value.extractedFields
    else Select(data.value.extractedFields, FieldNameOf, filterField)
  }

  /** A name filter keeps table order and loses no field of that name. */
  lemma NameFilterExact(data: ExtractedData, name: string, f: ExtractedField)
    requires name != "all"
    ensures IsSubsequence(FilteredFields(Some(data), name), data.extractedFields)
    ensures multiset(FilteredFields(Some(data), name))[f]
      == if f.fieldName == name then multiset(data.extractedFields)[f] else 0
  {
    SelectIsSubsequence(data.extractedFields, FieldNameOf, name);
    SelectMultiplicity(data.extractedFields, FieldNameOf, name, f);
  }

  /** Every option the filter offers shows at least one row (a field called "all" aside). */
  lemma FilterOptionNeverEmpty(data: ExtractedData, name: string)
    requires name in UniqueFieldNames(Some(data)) && name != "all"
    ensures FilteredFields(Some(data), name) != []
  {
    var i :| 0 <= i < |data.extractedFields| && data.extractedFields[i].fieldName == name;
    var f := data.extractedFields[i];
    NameFilterExact(data, name, f);
    assert f in multiset(data.extractedFields);
  }

  /** The selected-documents preview lists at most the first five names. */
  function PreviewNames(files: seq<File>): (r: seq<string>)
    ensures |r| == if |files| < 5 then |files| else 5
    ensures forall i | 0 <= i < |r| :: r[i] == files[i].name
  {
    var k := if |files| < 5 then |files| else 5;
    seq(k, i requires 0 <= i < k => files[i].name)
  }

  /** The "... y n más" line: present exactly when there are more than five documents. */
  function MoreCount(files: seq<File>): (r: Option<nat>)
    ensures r.Some? <==> |files| > 5
  {
    if |files| > 5 then Some(|files| - 5) else None
  }

  /** Listed names plus the "más" count account for every selected document exactly once. */
  lemma PreviewAccountsForAll(files: seq<File>)
    ensures |PreviewNames(files)| + (if MoreCount(files).Some? then MoreCount(files).value else 0) == |files|
  {
  }

  class Extractor {
    var selectedFiles: Option<seq<File>>
    var isProcessing: bool
    var extractedData: Option<ExtractedData>
    var filterField: string
    /** The document lists captured by extraction timers that have not fired yet, oldest first. */
    var pending: seq<seq<File>>

    /** A stored selection is never empty, and processing is shown only while a timer is outstanding. */
    ghost predicate Valid()
      reads this
    {
      && (selectedFiles.Some? ==> |selectedFiles.value| >= 1)
      && (forall k | 0 <= k < |pending| :: |pending[k]| >= 1)
      && (isProcessing ==> pending != [])
    }

    constructor ()
      ensures Valid()
      ensures selectedFiles == None && !isProcessing && extractedData == None && filterField == "all" && pending == []
    {
      selectedFiles := None;
      isProcessing := false;
      extractedData := None;
      filterField := "all";
      pending := [];
    }

    /** `handleFileSelect`: no list or an empty list changes nothing; otherwise it is stored and the data cleared. */
    method HandleFileSelect(files: Option<seq<File>>)
      requires Valid()
      modifies this
      ensures Valid()
      ensures isProcessing == old(isProcessing) && pending == old(pending) && filterField == old(filterField)
      ensures files.None? || files.value == [] ==>
        selectedFiles == old(selectedFiles) && extractedData == old(extractedData)
      ensures files.Some? && files.value != [] ==> selectedFiles == files && extractedData == None
    {
      if files.Some? && |files.value| > 0 {
        selectedFiles := files;
        extractedData := None;
      }
    }

    /** `handleExtraction`: without documents nothing happens; otherwise a timer captures the current list. */
    method HandleExtraction()
      requires Valid()
      modifies this
      ensures Valid()
      ensures selectedFiles == old(selectedFiles) && extractedData == old(extractedData) && filterField == old(filterField)
      ensures old(selectedFiles).None? ==> isProcessing == old(isProcessing) && pending == old(pending)
      ensures old(selectedFiles).Some? ==> isProcessing && pending == old(pending) + [old(selectedFiles).value]
    {
      if selectedFiles.None? {
        return;
      }
      isProcessing := true;
      pending := pending + [selectedFiles.value];
    }

    /** The oldest extraction timer fires: the result for the list it captured is installed. */
    method ExtractionTimerFires()
      requires Valid() && pending != []
      modifies this
      ensures Valid()
      ensures extractedData == Some(ExtractionResult(old(pending[0])))
      ensures !isProcessing && pending == old(pending[1..])
      ensures selectedFiles == old(selectedFiles) && filterField == old(filterField)
      ensures ShowsResults() && !ShowsProcessButton()
    {
      extractedData := Some(ExtractionResult(pending[0]));
      isProcessing := false;
      pending := pending[1..];
    }

    /** The field filter's `onChange`. */
    method SetFilterField(value: string)
      requires Valid()
      modifies this`filterField
      ensures Valid() && filterField == value
    {
      filterField := value;
    }

    /** The process button is shown with documents selected and no data, and enabled unless processing. */
    predicate ShowsProcessButton()
      reads this
    {
      selectedFiles.Some? && extractedData.None?
    }

    predicate ProcessButtonEnabled()
      reads this
    {
      ShowsProcessButton() && !isProcessing
    }

    predicate ShowsResults()
      reads this
    {
      extractedData.Some?
    }

    /** "Nueva Extracción": documents and data cleared, filter back to "all". */
    method Reset()
      requires Valid()
      modifies this
      ensures Valid()
      ensures selectedFiles == None && extractedData == None && filterField == "all"
      ensures isProcessing == old(isProcessing) && pending == old(pending)
    {
      selectedFiles := None;
      extractedData := None;
      filterField := "all";
    }
  }
}
