/** The two rule-based parts of the CV assistant: recognising a request to
    generate a CV, and the plain-text summary of a docente's CV that is sent
    to the language model as context. */
module ChatbotService {
  import opened PyValues
  import opened Dates
  import opened Records
  import opened StableSort

  // ------------------------------------------------------------------
  // Intent detection
  // ------------------------------------------------------------------

  /** The words that mark a question as a request to generate a CV. */
  const KEYWORDS: seq<string> :=
    ["genera", "generar", "crear", "crea", "cv", "curriculum", "reporte", "documento", "pdf", "word", "descargar"]

  /** `any(p in text for p in palabras)`. */
  function AnyOccurs(text: string, palabras: seq<string>): (r: bool)
    ensures r <==> exists k :: 0 <= k < |palabras| && Contains(text, palabras[k])
  {
    if |palabras| == 0 then false
    else AnyOccurs(text, palabras[..|palabras| - 1]) || Contains(text, palabras[|palabras| - 1])
  }

  /** `_detectar_intencion_generar_cv`: some keyword is a substring of the
      lower-cased question. */
  function DetectarIntencion(pregunta: string): (r: bool)
    ensures r <==> exists k :: 0 <= k < |KEYWORDS| && Contains(Lower(pregunta), KEYWORDS[k])
  {
    AnyOccurs(Lower(pregunta), KEYWORDS)
  }

  /** The keywords are lower case, so lowering leaves them unchanged. */
  lemma KeywordsAreLowerCase(k: nat)
    requires k < |KEYWORDS|
    ensures Lower(KEYWORDS[k]) == KEYWORDS[k]
  {
    var w := KEYWORDS[k];
    forall i | 0 <= i < |w|
      ensures !('A' <= w[i] <= 'Z')
    {
    }
  }

  /** A question holding a keyword anywhere, in any ASCII case of the
      surrounding text, is a request to generate a CV. */
  lemma KeywordDetected(pre: string, k: nat, post: string)
    requires k < |KEYWORDS|
    ensures DetectarIntencion(pre + KEYWORDS[k] + post)
  {
    var w := KEYWORDS[k];
    var s := pre + w + post;
    KeywordsAreLowerCase(k);
    assert Lower(s)[|pre|..|pre| + |w|] == Lower(w);
    assert OccursAt(Lower(s), w, |pre|);
  }

  /** Detection ignores ASCII case: questions that lower-case alike are
      classified alike. */
  lemma DetectionIgnoresCase(a: string, b: string)
    requires Lower(a) == Lower(b)
    ensures DetectarIntencion(a) == DetectarIntencion(b)
  {
  }

  /** A question without any keyword, even after lowering, is not a request. */
  lemma NoKeywordNoIntent(pregunta: string)
    requires forall k :: 0 <= k < |KEYWORDS| ==> !Contains(Lower(pregunta), KEYWORDS[k])
    ensures !DetectarIntencion(pregunta)
  {
  }

  // ------------------------------------------------------------------
  // Building the context text
  // ------------------------------------------------------------------

  /** `xs[:n]`. */
  function Take<T>(xs: seq<T>, n: nat): (r: seq<T>)
    ensures |r| <= n && |r| <= |xs|
    ensures r == xs[..|r|]
    ensures |xs| <= n ==> r == xs
    ensures |xs| >= n ==> |r| == n
  {
    if |xs| <= n then xs else xs[..n]
  }

  /** The lines `line(x)` for each `x` of `xs`, in order. */
  function Concat<T>(xs: seq<T>, line: T -> string): string {
    if |xs| == 0 then "" else Concat(xs[..|xs| - 1], line) + line(xs[|xs| - 1])
  }

  /** A category with entries lists at most its first `n`; an empty one
      prints its "No hay ..." line. */
  function Listing<T>(xs: seq<T>, n: nat, line: T -> string, none: string): string {
    if |xs| > 0 then Concat(Take(xs, n), line) else none
  }

  /** The header line of a category, with the category's full count. */
  function Encabezado(titulo: string, total: nat): string {
    "\n" + titulo + " (" + IntToString(total) + " total):\n"
  }

  /** `f"{d.year if d else alt}"`. */
  function YearOr(d: Option<Date>, alt: string): string {
    match d
    case None => alt
    case Some(date) => YearText(date)
  }

  function FormacionLinea(f: Formacion): string {
    "- " + Str(OrElse(f.gradoObtenido, f.nivel)) + " - " + Str(f.institucion) + " (" + YearOr(f.fechaFin, "En curso") + ")\n"
  }

  /** The sort key `x.anio or 0`. */
  function AnioKey(a: Articulo): int {
    match a.anio
    case None => 0
    case Some(y) => y
  }

  function ArticuloLineas(a: Articulo): string {
    "- [" + (if IntTruthy(a.anio) then IntToString(a.anio.value) else "N/A") + "] " + Str(a.titulo) + "\n"
    + IfTruthy(a.revista, "  Revista: ", "\n")
    + IfTruthy(a.doi, "  DOI: ", "\n")
  }

  /** The end of an employment period: `'Actual'` for a current job,
      otherwise the end year or `'N/A'`. */
  function PeriodoFin(e: Empleo): string {
    if e.actual then "Actual" else YearOr(e.fechaFin, "N/A")
  }

  function EmpleoLinea(e: Empleo): string {
    "- " + Str(e.puesto) + " en " + Str(e.institucion) + " (" + YearOr(e.fechaInicio, "N/A") + " - " + PeriodoFin(e) + ")\n"
  }

  function CongresoLinea(c: Congreso): string {
    "- " + Str(OrElse(c.tituloPonencia, c.nombreCongreso)) + " (" + YearOr(c.fecha, "N/A") + ")\n"
  }

  function CursoLinea(c: Curso): string {
    "- " + Str(c.nombreCurso) + " - " + Or(c.nivel, "N/A") + "\n"
  }

  const NO_FORMACION := "No hay formación académica registrada.\n"
  const NO_ARTICULOS := "No hay artículos registrados aún.\n"
  const NO_EMPLEOS := "No hay experiencia laboral registrada.\n"
  const NO_CONGRESOS := "No hay congresos registrados.\n"
  const NO_CURSOS := "No hay cursos registrados.\n"

  /** The articles listed: the ten with the latest year, latest first. */
  function Mostrados(articulos: seq<Articulo>): seq<Articulo> {
    Take(SortDesc(articulos, AnioKey), 10)
  }

  /** The line counting the articles beyond the tenth. */
  function MasArticulos(articulos: seq<Articulo>): string {
    if |articulos| > 10 then "\n... y " + IntToString(|articulos| - 10) + " artículos más\n" else ""
  }

  function ArticulosTexto(articulos: seq<Articulo>): string {
    if |articulos| > 0 then Concat(Mostrados(articulos), ArticuloLineas) + MasArticulos(articulos)
    else NO_ARTICULOS
  }

  function DatosPersonales(email: string, d: Docente): string {
    "\nDATOS PERSONALES:\n- Nombre: " + Or(d.nombreCompleto, "No especificado")
    + "\n- Email: " + email
    + "\n- ORCID ID: " + Or(d.orcid, "No configurado")
    + "\n- CVU: " + Or(d.cvu, "No configurado") + "\n"
  }

  /** The whole context text `_construir_contexto_cv` returns. */
  function Contexto(email: string, d: Docente, articulos: seq<Articulo>, formaciones: seq<Formacion>,
                    empleos: seq<Empleo>, congresos: seq<Congreso>, cursos: seq<Curso>): string
  {
    DatosPersonales(email, d)
    + Encabezado("FORMACIÓN ACADÉMICA", |formaciones|) + Listing(formaciones, 5, FormacionLinea, NO_FORMACION)
    + Encabezado("ARTÍCULOS CIENTÍFICOS", |articulos|) + ArticulosTexto(articulos)
    + Encabezado("EXPERIENCIA LABORAL", |empleos|) + Listing(empleos, 5, EmpleoLinea, NO_EMPLEOS)
    + Encabezado("CONGRESOS", |congresos|) + Listing(congresos, 5, CongresoLinea, NO_CONGRESOS)
    + Encabezado("CURSOS IMPARTIDOS", |cursos|) + Listing(cursos, 5, CursoLinea, NO_CURSOS)
  }

  /** `for x in xs: contexto += line(x)`. */
  method AppendLines<T>(contexto: string, xs: seq<T>, line: T -> string) returns (out: string)
    ensures out == contexto + Concat(xs, line)
  {
    out := contexto;
    for k := 0 to |xs|
      invariant out == contexto + Concat(xs[..k], line)
    {
      assert xs[..k + 1][..k] == xs[..k];
      out := out + line(xs[k]);
    }
    assert xs[..|xs|] == xs;
  }

  /** One category: its first `n` entries, or its "No hay ..." line. */
  method AppendListing<T>(contexto: string, xs: seq<T>, n: nat, line: T -> string, none: string)
    returns (out: string)
    ensures out == contexto + Listing(xs, n, line, none)
  {
    if |xs| > 0 {
      out := AppendLines(contexto, xs[..if |xs| <= n then |xs| else n], line);
    } else {
      out := contexto + none;
    }
  }

  /** The articles category: sorted by year, the first ten, then the count
      of the rest. */
  method AppendArticulos(contexto: string, articulos: seq<Articulo>) returns (out: string)
    ensures out == contexto + ArticulosTexto(articulos)
  {
    if |articulos| > 0 {
      var ordenados := SortDesc(articulos, AnioKey);
      out := AppendLines(contexto, Take(ordenados, 10), ArticuloLineas);
      ghost var listado := out;
      if |articulos| > 10 {
        var mas := "\n... y " + IntToString(|articulos| - 10) + " artículos más\n";
        out := out + mas;
      }
      assert out == listado + MasArticulos(articulos);
      StringAssoc(contexto, Concat(Mostrados(articulos), ArticuloLineas), MasArticulos(articulos));
    } else {
      out := contexto + NO_ARTICULOS;
    }
  }



  /** `_construir_contexto_cv`, appending category by category. */
  method ConstruirContexto(email: string, d: Docente, articulos: seq<Articulo>, formaciones: seq<Formacion>,
                           empleos: seq<Empleo>, congresos: seq<Congreso>, cursos: seq<Curso>)
    returns (contexto: string)
    ensures contexto == Contexto(email, d, articulos, formaciones, empleos, congresos, cursos)
  {
    contexto := DatosPersonales(email, d) + Encabezado("FORMACIÓN ACADÉMICA", |formaciones|);
    contexto := AppendListing(contexto, formaciones, 5, FormacionLinea, NO_FORMACION);
    contexto := contexto + Encabezado("ARTÍCULOS CIENTÍFICOS", |articulos|);
    contexto := AppendArticulos(contexto, articulos);
    contexto := contexto + Encabezado("EXPERIENCIA LABORAL", |empleos|);
    contexto := AppendListing(contexto, empleos, 5, EmpleoLinea, NO_EMPLEOS);
    contexto := contexto + Encabezado("CONGRESOS", |congresos|);
    contexto := AppendListing(contexto, congresos, 5, CongresoLinea, NO_CONGRESOS);
    contexto := contexto + Encabezado("CURSOS IMPARTIDOS", |cursos|);
    contexto := AppendListing(contexto, cursos, 5, CursoLinea, NO_CURSOS);
  }

  // ------------------------------------------------------------------
  // Properties of the context
  // ------------------------------------------------------------------

  /** Every entry line starts with `"- "`. */
  ghost predicate EntryLines<T(!new)>(line: T -> string) {
    forall x :: IsPrefix("- ", line(x))
  }

  lemma {:induction false} ConcatStartsWithEntry<T(!new)>(xs: seq<T>, line: T -> string)
    requires |xs| > 0 && EntryLines(line)
    ensures IsPrefix("- ", Concat(xs, line))
    decreases |xs|
  {
    if |xs| > 1 {
      ConcatStartsWithEntry(xs[..|xs| - 1], line);
      var c := Concat(xs[..|xs| - 1], line);
      assert (c + line(xs[|xs| - 1]))[..2] == c[..2];
    } else {
      assert Concat(xs, line) == "" + line(xs[0]);
    }
  }

  /** A category shows its "No hay ..." line exactly when it is empty. */
  lemma NoHayIffEmpty<T(!new)>(xs: seq<T>, n: nat, line: T -> string, none: string)
    requires n > 0 && EntryLines(line)
    requires |none| >= 1 && none[0] != '-'
    ensures Listing(xs, n, line, none) == none <==> |xs| == 0
  {
    if |xs| > 0 {
      ConcatStartsWithEntry(Take(xs, n), line);
    }
  }

  /** The per-category line builders all start their entries with `"- "`. */
  lemma EntryLinesOfCategories()
    ensures EntryLines(FormacionLinea) && EntryLines(EmpleoLinea)
    ensures EntryLines(CongresoLinea) && EntryLines(CursoLinea) && EntryLines(ArticuloLineas)
  {
  }

  /** Each of the four short categories lists its entries in input order,
      at most five of them, and all of them when there are at most five. */
  lemma ListsAtMostFive<T>(xs: seq<T>, line: T -> string, none: string)
    requires |xs| > 0
    ensures exists m :: 1 <= m <= 5 && m <= |xs| && (|xs| <= 5 ==> m == |xs|)
                        && Listing(xs, 5, line, none) == Concat(xs[..m], line)
  {
    var m := |Take(xs, 5)|;
    assert Listing(xs, 5, line, none) == Concat(xs[..m], line);
  }

  /** The articles listed are at most ten, in descending year order, all
      taken from the input; any article with a later year than a listed one
      is listed too; with ten articles or fewer every article is listed. */
  lemma MostradosAreLatest(articulos: seq<Articulo>)
    ensures |Mostrados(articulos)| == if |articulos| <= 10 then |articulos| else 10
    ensures Descending(Mostrados(articulos), AnioKey)
    ensures forall i :: 0 <= i < |Mostrados(articulos)| ==> Mostrados(articulos)[i] in articulos
    ensures forall a, i ::
              (a in articulos && 0 <= i < |Mostrados(articulos)| && AnioKey(a) > AnioKey(Mostrados(articulos)[i]))
              ==> a in Mostrados(articulos)
    ensures |articulos| <= 10 ==> multiset(Mostrados(articulos)) == multiset(articulos)
  {
    var r := SortDesc(articulos, AnioKey);
    SortDescSorted(articulos, AnioKey);
    var m := Mostrados(articulos);
    assert m == r[..|m|];
    forall i | 0 <= i < |m|
      ensures m[i] in articulos
    {
      assert m[i] == r[i];
      assert r[i] in multiset(articulos);
    }
    forall a, i | a in articulos && 0 <= i < |m| && AnioKey(a) > AnioKey(m[i])
      ensures a in m
    {
      assert a in multiset(r);
      LaterIsListed(r, |m|, a, i);
    }
  }

  /** In a list sorted by descending year, an element with a later year
      than the one at `i` comes before it, so inside any prefix past `i`. */
  lemma LaterIsListed(r: seq<Articulo>, n: nat, a: Articulo, i: nat)
    requires Descending(r, AnioKey) && a in r
    requires i < n <= |r| && AnioKey(a) > AnioKey(r[i])
    ensures a in r[..n]
  {
    var j :| 0 <= j < |r| && r[j] == a;
    assert j < i;
    assert r[..n][j] == a;
  }

  /** The "... y N artículos más" line appears exactly when there are more
      than ten articles, and the listed articles plus N are all of them. */
  lemma EveryArticleAccounted(articulos: seq<Articulo>)
    ensures MasArticulos(articulos) != "" <==> |articulos| > 10
    ensures |articulos| > 10 ==>
              MasArticulos(articulos) == "\n... y " + IntToString(|articulos| - |Mostrados(articulos)|) + " artículos más\n"
  {
    SortDescSorted(articulos, AnioKey);
  }

  /** A job period ends in `'Actual'` exactly for a current job. */
  lemma ActualIffCurrent(e: Empleo)
    ensures PeriodoFin(e) == "Actual" <==> e.actual
  {
    if !e.actual && e.fechaFin.Some? {
      var y := YearText(e.fechaFin.value);
      assert IsDigit(y[0]);
      assert !IsDigit("Actual"[0]);
    }
  }
}
