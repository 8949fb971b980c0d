/** The administrator's docente listing: for each docente, the highest
    academic degree and the current job, plus the list of areas offered as
    a filter. The database queries are replaced by the rows they return. */
module AdminController {
  import opened PyValues
  import opened Records
  import opened StableSort

  /** `niveles_prioridad.get(f.nivel, 0)`: an exact match on the stored level. */
  function Prioridad(nivel: Option<string>): int {
    match nivel
    case None => 0
    case Some(n) =>
      if n == "doctorado" then 3
      else if n == "maestria" then 2
      else if n == "licenciatura" || n == "especialidad" then 1
      else 0
  }

  function PrioridadDe(f: Formacion): int {
    Prioridad(f.nivel)
  }

  /** `nivel_maximo`: `None` without formaciones, otherwise the level of the
      head of the formaciones sorted by descending priority. The inner
      `Option` is the level column itself, which may be `NULL`. */
  function NivelMaximo(formaciones: seq<Formacion>): (r: Option<Option<string>>)
    ensures r.None? <==> |formaciones| == 0
    ensures r.Some? ==>
              exists i :: 0 <= i < |formaciones| && r.value == formaciones[i].nivel
                && forall j :: 0 <= j < |formaciones| ==> PrioridadDe(formaciones[j]) <= PrioridadDe(formaciones[i])
  {
    if |formaciones| == 0 then None
    else
      SortDescHead(formaciones, PrioridadDe);
      Some(SortDesc(formaciones, PrioridadDe)[0].nivel)
  }

  /** The highest level is absent exactly when there are no formaciones;
      otherwise it is the level of the first formación, in list order,
      whose priority no other formación exceeds. */
  lemma NivelMaximoIsFirstHighest(formaciones: seq<Formacion>)
    ensures NivelMaximo(formaciones).None? <==> |formaciones| == 0
    ensures |formaciones| > 0 ==>
              exists i :: 0 <= i < |formaciones| && NivelMaximo(formaciones) == Some(formaciones[i].nivel)
                && (forall j :: 0 <= j < |formaciones| ==> PrioridadDe(formaciones[j]) <= PrioridadDe(formaciones[i]))
                && (forall j :: 0 <= j < i ==> PrioridadDe(formaciones[j]) < PrioridadDe(formaciones[i]))
  {
    if |formaciones| > 0 {
      SortDescHead(formaciones, PrioridadDe);
    }
  }

  /** A docente holding a doctorate has `'doctorado'` as highest level. */
  lemma DoctoradoWins(formaciones: seq<Formacion>, k: nat)
    requires k < |formaciones| && formaciones[k].nivel == Some("doctorado")
    ensures NivelMaximo(formaciones) == Some(Some("doctorado"))
  {
    NivelMaximoIsFirstHighest(formaciones);
    var i :| 0 <= i < |formaciones| && NivelMaximo(formaciones) == Some(formaciones[i].nivel)
             && (forall j :: 0 <= j < |formaciones| ==> PrioridadDe(formaciones[j]) <= PrioridadDe(formaciones[i]));
    assert PrioridadDe(formaciones[k]) == 3;
  }

  /** `nivel_maximo = None; if formaciones: ... formaciones_ordenadas[0].nivel`. */
  method CalcularNivelMaximo(formaciones: seq<Formacion>) returns (nivelMaximo: Option<Option<string>>)
    ensures nivelMaximo == NivelMaximo(formaciones)
  {
    nivelMaximo := None;
    if |formaciones| > 0 {
      var ordenadas := SortDesc(formaciones, PrioridadDe);
      SortDescSorted(formaciones, PrioridadDe);
      nivelMaximo := Some(ordenadas[0].nivel);
    }
  }

  /** The first current employment, or `None`. */
  function FirstActual(empleos: seq<Empleo>): (r: Option<Empleo>)
    ensures r.None? <==> forall i :: 0 <= i < |empleos| ==> !empleos[i].actual
    ensures r.Some? ==> exists i :: 0 <= i < |empleos| && empleos[i] == r.value && empleos[i].actual
                                    && forall j :: 0 <= j < i ==> !empleos[j].actual
  {
    if |empleos| == 0 then None
    else if empleos[0].actual then Some(empleos[0])
    else
      var r := FirstActual(empleos[1..]);
      assert forall i :: 1 <= i < |empleos| ==> empleos[i] == empleos[1..][i - 1];
      if r.Some? then
        var i :| 0 <= i < |empleos[1..]| && empleos[1..][i] == r.value && empleos[1..][i].actual
                 && forall j :: 0 <= j < i ==> !empleos[1..][j].actual;
        assert empleos[i + 1] == r.value;
        r
      else r
  }

  /** `for empleo in docente.empleos: if empleo.actual: ...; break`. */
  method EmpleoActual(empleos: seq<Empleo>) returns (empleoActual: Option<Empleo>)
    ensures empleoActual == FirstActual(empleos)
  {
    empleoActual := None;
    var k := 0;
    while k < |empleos|
      invariant 0 <= k <= |empleos|
      invariant FirstActual(empleos) == FirstActual(empleos[k..])
    {
      if empleos[k].actual {
        empleoActual := Some(empleos[k]);
        break;
      }
      assert empleos[k..][1..] == empleos[k + 1..];
      k := k + 1;
    }
  }

  /** A docente with the records the listing reads. */
  datatype DocenteFila = DocenteFila(docente: Docente, formaciones: seq<Formacion>, empleos: seq<Empleo>)

  /** One entry of `docentes_con_nivel`. */
  datatype Entrada = Entrada(docente: Docente, nivelMaximo: Option<Option<string>>, empleoActual: Option<Empleo>)

  /** The loop building `docentes_con_nivel`: one entry per docente, in the
      query's order. */
  method DocentesConNivel(docentes: seq<DocenteFila>) returns (entradas: seq<Entrada>)
    ensures |entradas| == |docentes|
    ensures forall i :: 0 <= i < |docentes| ==>
              entradas[i] == Entrada(docentes[i].docente, NivelMaximo(docentes[i].formaciones),
                                     FirstActual(docentes[i].empleos))
  {
    entradas := [];
    for k := 0 to |docentes|
      invariant |entradas| == k
      invariant forall i :: 0 <= i < k ==>
                  entradas[i] == Entrada(docentes[i].docente, NivelMaximo(docentes[i].formaciones),
                                         FirstActual(docentes[i].empleos))
    {
      var d := docentes[k];
      var nivelMaximo := CalcularNivelMaximo(d.formaciones);
      var empleoActual := EmpleoActual(d.empleos);
      entradas := entradas + [Entrada(d.docente, nivelMaximo, empleoActual)];
    }
  }

  /** `[area[0] for area in areas if area[0]]`: the truthy areas, in order. */
  function AreasDisponibles(areas: seq<Option<string>>): (r: seq<string>)
    ensures forall i :: 0 <= i < |r| ==> r[i] != ""
  {
    TruthyTexts(areas)
  }

  /** An area is offered exactly when it is a truthy value of the query. */
  lemma {:induction false} AreasDisponiblesIff(areas: seq<Option<string>>, a: string)
    ensures a in AreasDisponibles(areas) <==> a != "" && Some(a) in areas
    decreases |areas|
  {
    if |areas| > 0 {
      var init := areas[..|areas| - 1];
      AreasDisponiblesIff(init, a);
      assert areas == init + [areas[|areas| - 1]];
    }
  }
}
