/**
 * Specialised consultancy: pick one of six legal specialties, describe the case, and
 * three seconds later receive the canned analysis for that specialty and query.
 */
module ConsultoriaEspecializada {
  import opened Wrappers
  import opened Text

  /** A catalogue entry; its icon, description, areas and colour are not modelled. */
  datatype Specialty = Specialty(id: string, nombre: string)

  const Catalogue: seq<Specialty> := [
    Specialty("laboral", "Derecho Laboral"),
    Specialty("corporativo", "Derecho Corporativo"),
    Specialty("penal", "Derecho Penal"),
    Specialty("civil", "Derecho Civil"),
    Specialty("regulatorio", "Derecho Regulatorio"),
    Specialty("financiero", "Derecho Financiero")
  ]

  predicate IsCatalogueId(id: string) {
    exists i | 0 <= i < |Catalogue| :: Catalogue[i].id == id
  }

  /** The six ids are pairwise distinct. */
  lemma CatalogueIdsDistinct()
    ensures forall i, j | 0 <= i < j < |Catalogue| :: Catalogue[i].id != Catalogue[j].id
  {
  }

  /** `catalogue.find(e => e.id === id)`: the first entry with that id, if any. */
  function Find(catalogue: seq<Specialty>, id: string): (r: Option<Specialty>)
    ensures r.None? <==> forall i | 0 <= i < |catalogue| :: catalogue[i].id != id
    ensures r.Some? ==> exists i | 0 <= i < |catalogue| ::
      catalogue[i] == r.value && r.value.id == id && forall j | 0 <= j < i :: catalogue[j].id != id
  {
    if catalogue == [] then None
    else if catalogue[0].id == id then Some(catalogue[0])
    else
      var r := Find(catalogue[1..], id);
      assert r.Some? ==> exists i | 1 <= i < |catalogue| ::
        catalogue[i] == r.value && r.value.id == id && forall j | 0 <= j < i :: catalogue[j].id != id
      by {
        if r.Some? {
          var k :| 0 <= k < |catalogue| - 1 && catalogue[1..][k] == r.value && r.value.id == id
            && forall j | 0 <= j < k :: catalogue[1..][j].id != id;
          assert forall j | 0 <= j < k + 1 :: catalogue[j].id != id by {
            forall j | 0 <= j < k + 1 ensures catalogue[j].id != id {
              if j > 0 { assert catalogue[j] == catalogue[1..][j - 1]; }
            }
          }
        }
      }
      r
  }

  /** Every id the specialty buttons can select is found, and finds its own entry. */
  lemma {:induction false} LookupSucceeds(i: nat)
    requires i < |Catalogue|
    ensures Find(Catalogue, Catalogue[i].id) == Some(Catalogue[i])
  {
    CatalogueIdsDistinct();
    var r := Find(Catalogue, Catalogue[i].id);
    assert r.Some?;
    var k :| 0 <= k < |Catalogue| && Catalogue[k] == r.value && r.value.id == Catalogue[i].id
      && forall j | 0 <= j < k :: Catalogue[j].id != Catalogue[i].id;
    assert k == i;
  }

  const DismissalKeywords: seq<string> := ["despido", "terminación"]
  const MergerKeywords: seq<string> := ["fusión", "adquisición"]

  /** The first line of each fixed analysis; the sections after it are not modelled. */
  const DismissalText: string := "**ANÁLISIS ESPECIALIZADO - DERECHO LABORAL**"
  const MergerText: string := "**ANÁLISIS ESPECIALIZADO - DERECHO CORPORATIVO**"
  const CriminalText: string := "**ANÁLISIS ESPECIALIZADO - DERECHO PENAL**"

  const GeneralHeading: string := "**ANÁLISIS ESPECIALIZADO - "

  /** The generic analysis, whose heading and first sentence embed the specialty name. */
  function GeneralText(nombre: string): string {
    GeneralHeading + ToUpper(nombre) + "**\n\nBasado en tu consulta y mi especialización en "
      + ToLower(nombre) + ", he realizado un análisis preliminar considerando:"
  }

  /** The generic analysis starts with its heading followed by the upper-cased specialty name. */
  lemma GeneralTextHeading(nombre: string)
    ensures |GeneralText(nombre)| >= |GeneralHeading| + |nombre|
    ensures GeneralText(nombre)[..|GeneralHeading| + |nombre|] == GeneralHeading + ToUpper(nombre)
  {
    var h := GeneralHeading + ToUpper(nombre);
    assert GeneralText(nombre) == h + (GeneralText(nombre)[|h|..]);
  }

  /**
   * What the reply generator yields: a text, or the ReferenceError thrown where the
   * `laboral` and `corporativo` cases break out of the switch to the fall-through
   * `return respuestaGenerada || ...`, whose name is not in scope there.
   */
  datatype Outcome = Answered(text: string) | ReferenceError

  /** `generarRespuestaEspecializada(especialidad, consulta)` as written. */
  function GenerarRespuestaEspecializada(especialidad: Specialty, consulta: string): (o: Outcome)
    ensures var lowered := ToLower(consulta);
      && (especialidad.id == "laboral" ==>
            (o == Answered(DismissalText) <==> MentionsAny(lowered, DismissalKeywords))
            && (o == ReferenceError <==> !MentionsAny(lowered, DismissalKeywords)))
      && (especialidad.id == "corporativo" ==>
            (o == Answered(MergerText) <==> MentionsAny(lowered, MergerKeywords))
            && (o == ReferenceError <==> !MentionsAny(lowered, MergerKeywords)))
      && (especialidad.id == "penal" ==> o == Answered(CriminalText))
      && (especialidad.id !in {"laboral", "corporativo", "penal"} ==> o == Answered(GeneralText(especialidad.nombre)))
  {
    var lowered := ToLower(consulta);
    if especialidad.id == "laboral" then
      if MentionsAny(lowered, DismissalKeywords) then Answered(DismissalText) else ReferenceError
    else if especialidad.id == "corporativo" then
      if MentionsAny(lowered, MergerKeywords) then Answered(MergerText) else ReferenceError
    else if especialidad.id == "penal" then
      Answered(CriminalText)
    else
      Answered(GeneralText(especialidad.nombre))
  }

  /** The criminal-law answer does not depend on the query. */
  lemma CriminalIgnoresQuery(q1: string, q2: string)
    ensures GenerarRespuestaEspecializada(Catalogue[2], q1) == GenerarRespuestaEspecializada(Catalogue[2], q2)
  {
  }

  /** Civil, regulatory and financial law get the generic text headed by their upper-cased name. */
  lemma GenericSpecialties(i: nat, consulta: string)
    requires 3 <= i < |Catalogue|
    ensures GenerarRespuestaEspecializada(Catalogue[i], consulta) == Answered(GeneralText(Catalogue[i].nombre))
  {
  }

  /** A labour query without a dismissal keyword reaches the out-of-scope name. */
  lemma LabourQueryWithoutKeywordFails()
    ensures GenerarRespuestaEspecializada(Catalogue[0], "hola") == ReferenceError
  {
    assert ToLower("hola") == "hola";
  }

  /** The fall-back answer the last line of the generator evidently meant to give. */
  function FallbackText(nombre: string): string {
    "Análisis especializado en " + nombre + " para tu consulta específica."
  }

  /**
   * The generator as evidently intended: where the written version throws, the
   * fall-back answer is returned; everywhere else the two agree.
   */
  function GenerarRespuestaCorregida(especialidad: Specialty, consulta: string): (r: string)
    ensures GenerarRespuestaEspecializada(especialidad, consulta) == Answered(r)
      || (GenerarRespuestaEspecializada(especialidad, consulta) == ReferenceError
          && r == FallbackText(especialidad.nombre))
  {
    match GenerarRespuestaEspecializada(especialidad, consulta)
    case Answered(text) => text
    case ReferenceError => FallbackText(especialidad.nombre)
  }

  /** What a consultation timer remembers: the selected specialty id and the query at submission. */
  datatype Request = Request(specialtyId: string, consulta: string)

  /** The callback's `especialidades.find(...)`, which the catalogue invariant makes total. */
  function LookUp(id: string): (s: Specialty)
    requires IsCatalogueId(id)
    ensures s.id == id && exists i | 0 <= i < |Catalogue| :: Catalogue[i] == s
  {
    var i :| 0 <= i < |Catalogue| && Catalogue[i].id == id;
    LookupSucceeds(i);
    Find(Catalogue, id).value
  }

  /** The timer callback as written: look the specialty up, then generate the answer. */
  function Respond(request: Request): (o: Outcome)
    requires IsCatalogueId(request.specialtyId)
    ensures o.ReferenceError? ==> request.specialtyId == "laboral" || request.specialtyId == "corporativo"
  {
    GenerarRespuestaEspecializada(LookUp(request.specialtyId), request.consulta)
  }

  /** The timer callback with the corrected generator. */
  function RespondCorregida(request: Request): (r: string)
    requires IsCatalogueId(request.specialtyId)
    ensures Respond(request).Answered? ==> r == Respond(request).text
    ensures Respond(request).ReferenceError? ==> r == FallbackText(LookUp(request.specialtyId).nombre)
  {
    GenerarRespuestaCorregida(LookUp(request.specialtyId), request.consulta)
  }

  /** A request for catalogue entry `i` is answered as entry `i` dictates, by both callbacks. */
  lemma RespondUsesSelectedSpecialty(i: nat, consulta: string)
    requires i < |Catalogue|
    ensures IsCatalogueId(Catalogue[i].id)
    ensures Respond(Request(Catalogue[i].id, consulta)) == GenerarRespuestaEspecializada(Catalogue[i], consulta)
    ensures RespondCorregida(Request(Catalogue[i].id, consulta)) == GenerarRespuestaCorregida(Catalogue[i], consulta)
  {
    assert Catalogue[i].id == Catalogue[i].id;
    LookupSucceeds(i);
  }

  /** The timer of a labour query without a dismissal keyword throws as written, and gets the fall-back once corrected. */
  lemma LabourRequestFails(consulta: string)
    requires !MentionsAny(ToLower(consulta), DismissalKeywords)
    ensures IsCatalogueId(Catalogue[0].id)
    ensures Respond(Request(Catalogue[0].id, consulta)) == ReferenceError
    ensures RespondCorregida(Request(Catalogue[0].id, consulta)) == FallbackText("Derecho Laboral")
  {
    RespondUsesSelectedSpecialty(0, consulta);
  }

  class Consultoria {
    var especialidadSeleccionada: Option<string>
    var consulta: string
    var respuesta: string
    var isLoading: bool
    /** The requests of consultation timers that have not fired yet, oldest first. */
    var pending: seq<Request>

    /** Only catalogue ids are ever selected, so every lookup a timer makes succeeds. */
    ghost predicate Valid()
      reads this
    {
      && (especialidadSeleccionada.Some? ==> IsCatalogueId(especialidadSeleccionada.value))
      && (forall k | 0 <= k < |pending| :: IsCatalogueId(pending[k].specialtyId))
    }

    /**
     * Loading is shown only while a consultation timer is outstanding, so some timer
     * will clear it. The corrected callback keeps this; the callback as written breaks it.
     */
    predicate LoadingOnlyWhilePending()
      reads this
    {
      isLoading ==> pending != []
    }

    constructor ()
      ensures Valid() && LoadingOnlyWhilePending()
      ensures especialidadSeleccionada == None && consulta == [] && respuesta == [] && !isLoading && pending == []
    {
      especialidadSeleccionada := None;
      consulta := [];
      respuesta := [];
      isLoading := false;
      pending := [];
    }

    /** A click on the button of catalogue entry `i` selects its id. */
    method SelectEspecialidad(i: nat)
      requires Valid() && i < |Catalogue|
      modifies this`especialidadSeleccionada
      ensures Valid() && especialidadSeleccionada == Some(Catalogue[i].id)
    {
      especialidadSeleccionada := Some(Catalogue[i].id);
    }

    /** The text area's `onChange`. */
    method SetConsulta(value: string)
      requires Valid()
      modifies this`consulta
      ensures Valid() && consulta == value
    {
      consulta := value;
    }

    /** The query form is shown once a specialty is selected; its button needs a non-blank query and no answer pending. */
    predicate SubmitButtonEnabled()
      reads this
    {
      especialidadSeleccionada.Some? && !IsBlank(consulta) && !isLoading
    }

    /** The answer panel is shown exactly when the stored answer is non-empty. */
    predicate ShowsAnswer()
      reads this
    {
      respuesta != []
    }

    /**
     * `handleConsulta`: without a selected specialty or with a blank query nothing
     * happens; otherwise loading is set and a timer remembers the id and the query.
     */
    method HandleConsulta()
      requires Valid()
      modifies this
      ensures Valid()
      ensures old(LoadingOnlyWhilePending()) ==> LoadingOnlyWhilePending()
      ensures especialidadSeleccionada == old(especialidadSeleccionada) && consulta == old(consulta)
      ensures respuesta == old(respuesta)
      ensures old(especialidadSeleccionada).None? || IsBlank(old(consulta)) ==>
        isLoading == old(isLoading) && pending == old(pending)
      ensures old(especialidadSeleccionada).Some? && !IsBlank(old(consulta)) ==>
        isLoading && pending == old(pending) + [Request(old(especialidadSeleccionada).value, old(consulta))]
    {
      if especialidadSeleccionada.None? || IsBlank(consulta) {
        return;
      }
      var request := Request(especialidadSeleccionada.value, consulta);
      assert IsCatalogueId(request.specialtyId);
      isLoading := true;
      pending := pending + [request];
    }

    /**
     * The oldest consultation timer fires, as written. Where the generator answers, the
     * answer is stored and loading cleared. Where it throws, the callback stops before
     * either update, so loading stays as it was, with one timer fewer to clear it.
     */
    method ConsultaTimerFiresAsWritten()
      requires Valid() && pending != []
      modifies this
      ensures Valid()
      ensures pending == old(pending[1..])
      ensures especialidadSeleccionada == old(especialidadSeleccionada) && consulta == old(consulta)
      ensures Respond(old(pending[0])).Answered? ==>
        respuesta == Respond(old(pending[0])).text && !isLoading
      ensures Respond(old(pending[0])).ReferenceError? ==>
        respuesta == old(respuesta) && isLoading == old(isLoading)
    {
      var request := pending[0];
      pending := pending[1..];
      match Respond(request)
      case Answered(text) =>
        respuesta := text;
        isLoading := false;
      case ReferenceError =>
    }

    /**
     * The oldest consultation timer fires, with the corrected generator: the answer is
     * stored and loading cleared. Where the generator as written succeeds, the stored
     * answer is the one it gives.
     */
    method ConsultaTimerFires()
      requires Valid() && pending != []
      modifies this
      ensures Valid() && LoadingOnlyWhilePending()
      ensures pending == old(pending[1..])
      ensures especialidadSeleccionada == old(especialidadSeleccionada) && consulta == old(consulta)
      ensures respuesta == RespondCorregida(old(pending[0])) && !isLoading
      ensures Respond(old(pending[0])).Answered? ==> respuesta == Respond(old(pending[0])).text
    {
      var request := pending[0];
      pending := pending[1..];
      respuesta := RespondCorregida(request);
      isLoading := false;
    }
  }

  /** Selecting labour law and submitting a non-blank query leaves one labour request pending. */
  method SubmitLabourQuery(query: string) returns (c: Consultoria)
    requires !IsBlank(query)
    ensures fresh(c) && c.Valid() && c.LoadingOnlyWhilePending()
    ensures c.isLoading && c.pending == [Request(Catalogue[0].id, query)]
    ensures c.consulta == query && c.especialidadSeleccionada == Some(Catalogue[0].id) && c.respuesta == []
  {
    c := new Consultoria();
    c.SelectEspecialidad(0);
    c.SetConsulta(query);
    c.HandleConsulta();
  }

  /**
   * As written, a labour query without a dismissal keyword leaves the component loading
   * for good: no timer is left to clear the flag, and the disabled button blocks a retry.
   */
  method LabourQueryStaysLoading(query: string) returns (c: Consultoria)
    requires !IsBlank(query) && !MentionsAny(ToLower(query), DismissalKeywords)
    ensures c.Valid() && !c.LoadingOnlyWhilePending()
    ensures c.isLoading && c.pending == [] && !c.SubmitButtonEnabled()
    ensures c.respuesta == [] && !c.ShowsAnswer()
  {
    c := SubmitLabourQuery(query);
    LabourRequestFails(query);
    c.ConsultaTimerFiresAsWritten();
  }

  /**
   * With the corrected generator, the same query shows the fall-back answer and
   * re-enables submission.
   */
  method LabourQueryGetsFallback(query: string) returns (c: Consultoria)
    requires !IsBlank(query) && !MentionsAny(ToLower(query), DismissalKeywords)
    ensures c.Valid() && c.LoadingOnlyWhilePending()
    ensures c.respuesta == FallbackText("Derecho Laboral") && c.ShowsAnswer()
    ensures !c.isLoading && c.pending == [] && c.SubmitButtonEnabled()
  {
    c := SubmitLabourQuery(query);
    LabourRequestFails(query);
    c.ConsultaTimerFires();
  }
}
