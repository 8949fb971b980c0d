/** `CVPDFGenerator`: the template-based PDF CV. `generar_pdf` picks a
    template by name and names the file; `_generar_plantilla_conacyt` builds
    the story from a dictionary of section flags, in its own section order
    (projects before courses), with numbered citations and the academic
    degrees sorted by end date. */
module CvPdfGenerator {
  import opened PyValues
  import opened Dates
  import opened Records
  import opened Story
  import opened StableSort

  /** The flag key `secciones.get(...)` reads for a section. */
  function FlagKey(section: Section): string {
    match section
    case DatosGenerales => "datos_generales"
    case FormacionAcademica => "formacion_academica"
    case ExperienciaLaboral => "experiencia_laboral"
    case ArticulosCientificos => "articulos_cientificos"
    case LibrosCapitulos => "libros_capitulos"
    case CongresosPonencias => "congresos_ponencias"
    case CursosImpartidos => "cursos_impartidos"
    case ProyectosInvestigacion => "proyectos_investigacion"
    case TesisDirigidas => "tesis_dirigidas"
    case DesarrollosTecnologicos => "desarrollos_tecnologicos"
  }

  /** The order of the sections in the CONACYT story. */
  const CONACYT_ORDER: seq<Section> := [
    DatosGenerales, FormacionAcademica, ExperienciaLaboral, ArticulosCientificos, LibrosCapitulos,
    CongresosPonencias, ProyectosInvestigacion, CursosImpartidos, TesisDirigidas, DesarrollosTecnologicos]

  /** `secciones.get(key)` is truthy; each value is held as its truthiness. */
  predicate Flag(secciones: map<string, bool>, key: string) {
    key in secciones && secciones[key]
  }

  /** A section is in the story when its flag is set and, for a record
      section, when the records fetched for it are not empty. */
  predicate Visible(section: Section, recs: CvRecords, secciones: map<string, bool>) {
    Flag(secciones, FlagKey(section)) && Populated(section, recs)
  }

  function VisibleIn(recs: CvRecords, secciones: map<string, bool>): Section -> bool {
    section => Visible(section, recs, secciones)
  }

  /** The sections the story shows, in the order it shows them. */
  function ConacytSections(recs: CvRecords, secciones: map<string, bool>): seq<Section> {
    Filter(CONACYT_ORDER, VisibleIn(recs, secciones))
  }

  function ConacytTitle(section: Section): string {
    match section
    case DatosGenerales => "DATOS GENERALES"
    case FormacionAcademica => "FORMACIÓN ACADÉMICA"
    case ExperienciaLaboral => "EXPERIENCIA LABORAL"
    case ArticulosCientificos => "ARTÍCULOS CIENTÍFICOS"
    case LibrosCapitulos => "LIBROS Y CAPÍTULOS"
    case CongresosPonencias => "CONGRESOS Y PONENCIAS"
    case CursosImpartidos => "CURSOS IMPARTIDOS"
    case ProyectosInvestigacion => "PROYECTOS DE INVESTIGACIÓN"
    case TesisDirigidas => "TESIS DIRIGIDAS"
    case DesarrollosTecnologicos => "DESARROLLOS TECNOLÓGICOS"
  }

  // ------------------------------------------------------------------
  // Header and personal data
  // ------------------------------------------------------------------

  /** The `info_lines` under the name: one per truthy email, CVU and ORCID. */
  function InfoLines(d: Docente): seq<string> {
    (if Truthy(d.correoPrincipal) then ["Email: " + d.correoPrincipal.value] else [])
    + (if Truthy(d.cvu) then ["CVU: " + d.cvu.value] else [])
    + (if Truthy(d.orcid) then ["ORCID: " + d.orcid.value] else [])
  }

  function Subtitles(lines: seq<string>): (bs: seq<Block>)
    ensures |bs| == |lines|
    ensures forall i :: 0 <= i < |lines| ==> bs[i] == Subtitle(lines[i])
  {
    if |lines| == 0 then [] else Subtitles(lines[..|lines| - 1]) + [Subtitle(lines[|lines| - 1])]
  }

  /** The name (or 'Sin nombre'), the info lines and a 0.5 cm spacer. */
  function ConacytHeader(d: Docente): seq<Block> {
    [Title(Or(d.nombreCompleto, "Sin nombre"))] + Subtitles(InfoLines(d)) + [Spacer(Cm(5))]
  }

  /** The rows of the DATOS GENERALES table. */
  function DatosRows(d: Docente): seq<(string, string)> {
    [ ("CURP:", Or(d.curp, "No especificado")),
      ("RFC:", Or(d.rfc, "No especificado")),
      ("Nacionalidad:", Or(d.nacionalidad, "No especificado")) ]
    + (if d.fechaNacimiento.Some? then [("Fecha de Nacimiento:", DayMonthYearText(d.fechaNacimiento.value))] else [])
  }

  // ------------------------------------------------------------------
  // Entries: one paragraph and one spacer per record
  // ------------------------------------------------------------------

  const WIDE_GAP := Spacer(Cm(3))
  const NARROW_GAP := Spacer(Cm(2))

  /** `f"{x.anio or 'S/F'}"`. */
  function AnioText(anio: Option<int>): string {
    if IntTruthy(anio) then IntToString(anio.value) else "S/F"
  }

  function FormacionConacyt(i: nat, g: Formacion): seq<Block> {
    var texto :=
      "<b>" + Upper(Or(g.nivel, "N/A")) + "</b> - " + Or(g.gradoObtenido, "Sin título") + "<br/>"
      + Or(g.institucion, "Sin institución") + ", " + Or(g.pais, "Sin país") + "<br/>"
      + (if g.fechaInicio.Some? && g.fechaFin.Some?
         then IntToString(g.fechaInicio.value.year) + " - " + IntToString(g.fechaFin.value.year)
         else "");
    [Para(texto), WIDE_GAP]
  }

  function EmpleoConacyt(i: nat, e: Empleo): seq<Block> {
    var inicio := if e.fechaInicio.Some? then MonthYearText(e.fechaInicio.value) else "N/A";
    var fin := if e.fechaFin.Some? then MonthYearText(e.fechaFin.value) else "Actualidad";
    var texto :=
      "<b>" + Or(e.puesto, "Sin puesto") + "</b><br/>"
      + Or(e.institucion, "Sin institución") + "<br/>"
      + inicio + " - " + fin;
    [Para(texto), WIDE_GAP]
  }

  /** The citation number, authors and year that open an article or book entry. */
  function CitationHead(i: nat, autores: Option<string>, anio: Option<int>): string {
    IntToString(i) + ". " + Or(autores, "Sin autores") + ". (" + AnioText(anio) + "). "
  }

  function ArticuloConacyt(i: nat, a: Articulo): seq<Block> {
    var texto :=
      CitationHead(i, a.autores, a.anio)
      + "<b>" + Str(a.titulo) + "</b>. "
      + IfTruthy(a.revista, "<i>", "</i>. ")
      + IfTruthy(a.volumen, "Vol. ", "")
      + IfTruthy(a.numero, "(", ")")
      + IfTruthy(a.paginas, ", pp. ", ". ")
      + IfTruthy(a.doi, "DOI: ", "");
    [Para(texto), NARROW_GAP]
  }

  function LibroConacyt(i: nat, l: Libro): seq<Block> {
    var texto :=
      CitationHead(i, l.autores, l.anio)
      + "<b>" + Str(l.titulo) + "</b>. "
      + IfTruthy(l.editorial, "", ". ")
      + IfTruthy(l.pais, "", ". ")
      + IfTruthy(l.isbn, "ISBN: ", "");
    [Para(texto), NARROW_GAP]
  }

  /** A congress entry; `monthName` is the locale's `%B`. */
  function CongresoConacyt(monthName: Month -> string, i: nat, c: Congreso): seq<Block> {
    var texto :=
      IntToString(i) + ". <b>" + Str(c.nombreCongreso) + "</b>. "
      + IfTruthy(c.tituloPonencia, "Ponencia: ", ". ")
      + (if Truthy(c.ciudad) && Truthy(c.pais) then c.ciudad.value + ", " + c.pais.value + ". " else "")
      + (if c.fecha.Some? then monthName(c.fecha.value.month) + " " + YearText(c.fecha.value) else "");
    [Para(texto), NARROW_GAP]
  }

  function CongresoEntry(monthName: Month -> string): (nat, Congreso) -> seq<Block> {
    (i: nat, c: Congreso) => CongresoConacyt(monthName, i, c)
  }

  function ProyectoConacyt(i: nat, p: Proyecto): seq<Block> {
    var texto :=
      "<b>" + Str(p.nombreProyecto) + "</b><br/>"
      + IfTruthy(p.objetivoGeneral, "", "<br/>")
      + IfTruthy(p.financiamiento, "Financiamiento: ", "");
    [Para(texto), WIDE_GAP]
  }

  function CursoConacyt(i: nat, c: Curso): seq<Block> {
    var texto :=
      "<b>" + Str(c.nombreCurso) + "</b><br/>"
      + IfTruthy(c.programaEducativo, "", "<br/>")
      + (if c.fechaInicio.Some? && c.fechaFin.Some?
         then MonthYearText(c.fechaInicio.value) + " - " + MonthYearText(c.fechaFin.value)
         else "");
    [Para(texto), WIDE_GAP]
  }

  function TesisConacyt(i: nat, t: Tesis): seq<Block> {
    var texto :=
      "<b>" + Str(t.titulo) + "</b><br/>"
      + IfTruthy(t.estudianteNombre, "Tesista: ", "<br/>")
      + IfTruthy(t.nivel, "Nivel: ", "");
    [Para(texto), WIDE_GAP]
  }

  function DesarrolloConacyt(i: nat, d: Desarrollo): seq<Block> {
    var texto :=
      "<b>" + Str(d.nombre) + "</b><br/>"
      + IfTruthy(d.tipo, "Tipo: ", "<br/>")
      + IfTruthy(d.descripcion, "", "");
    [Para(texto), WIDE_GAP]
  }

  // ------------------------------------------------------------------
  // Sorting the degrees by end date
  // ------------------------------------------------------------------

  /** The sort key `x.fecha_fin or ''`: the end date, as an integer that
      orders like the dates; undated records all share one key. */
  function FinKey(g: Formacion): int {
    if g.fechaFin.Some? then Key(g.fechaFin.value) else 0
  }

  /** Some records have an end date and some do not: the sort then compares
      a date with `''`, which raises TypeError. */
  predicate Mixed(fs: seq<Formacion>) {
    (exists i :: 0 <= i < |fs| && fs[i].fechaFin.Some?) && (exists j :: 0 <= j < |fs| && fs[j].fechaFin.None?)
  }

  const SORT_ERROR := "TypeError: '<' not supported between instances of 'datetime.date' and 'str'"

  /** `sorted(formaciones, key=lambda x: x.fecha_fin or '', reverse=True)`. */
  function SortFormaciones(fs: seq<Formacion>): (r: Result<seq<Formacion>>)
    ensures r.Success? ==> multiset(r.value) == multiset(fs)
  {
    if Mixed(fs) then Failure(SORT_ERROR)
    else
      SortDescSorted(fs, FinKey);
      Success(SortDesc(fs, FinKey))
  }

  // ------------------------------------------------------------------
  // The CONACYT story
  // ------------------------------------------------------------------

  /** The entries of one section, after its heading. */
  function ConacytBody(section: Section, d: Docente, recs: CvRecords, monthName: Month -> string): seq<Block> {
    match section
    case DatosGenerales => [Table(DatosRows(d)), Spacer(Cm(4))]
    case FormacionAcademica => Each(SortDesc(recs.formaciones, FinKey), FormacionConacyt)
    case ExperienciaLaboral => Each(recs.empleos, EmpleoConacyt)
    case ArticulosCientificos => Each(recs.articulos, ArticuloConacyt)
    case LibrosCapitulos => Each(recs.libros, LibroConacyt)
    case CongresosPonencias => Each(recs.congresos, CongresoEntry(monthName))
    case ProyectosInvestigacion => Each(recs.proyectos, ProyectoConacyt)
    case CursosImpartidos => Each(recs.cursos, CursoConacyt)
    case TesisDirigidas => Each(recs.tesis, TesisConacyt)
    case DesarrollosTecnologicos => Each(recs.desarrollos, DesarrolloConacyt)
  }

  /** A section's heading and entries when it is visible, nothing otherwise. */
  function ConacytPart(section: Section, d: Docente, recs: CvRecords, secciones: map<string, bool>,
                       monthName: Month -> string): seq<Block> {
    if Visible(section, recs, secciones) then [Heading(ConacytTitle(section))] + ConacytBody(section, d, recs, monthName)
    else []
  }

  function ConacytPartOf(d: Docente, recs: CvRecords, secciones: map<string, bool>, monthName: Month -> string)
    : Section -> seq<Block>
  {
    section => ConacytPart(section, d, recs, secciones, monthName)
  }

  /** The blocks `_generar_plantilla_conacyt` appends, in the order it appends them. */
  function ConacytBlocks(d: Docente, recs: CvRecords, secciones: map<string, bool>, monthName: Month -> string)
    : seq<Block>
  {
    ConacytHeader(d)
    + ConacytPart(DatosGenerales, d, recs, secciones, monthName)
    + ConacytPart(FormacionAcademica, d, recs, secciones, monthName)
    + ConacytPart(ExperienciaLaboral, d, recs, secciones, monthName)
    + ConacytPart(ArticulosCientificos, d, recs, secciones, monthName)
    + ConacytPart(LibrosCapitulos, d, recs, secciones, monthName)
    + ConacytPart(CongresosPonencias, d, recs, secciones, monthName)
    + ConacytPart(ProyectosInvestigacion, d, recs, secciones, monthName)
    + ConacytPart(CursosImpartidos, d, recs, secciones, monthName)
    + ConacytPart(TesisDirigidas, d, recs, secciones, monthName)
    + ConacytPart(DesarrollosTecnologicos, d, recs, secciones, monthName)
  }

  /** The sort raises exactly when the degrees are shown and mix dated and
      undated records. */
  predicate SortFails(recs: CvRecords, secciones: map<string, bool>) {
    Visible(FormacionAcademica, recs, secciones) && Mixed(recs.formaciones)
  }

  /** What `_generar_plantilla_conacyt` returns, or the error it raises. */
  function ConacytStory(d: Docente, recs: CvRecords, secciones: map<string, bool>, monthName: Month -> string)
    : (r: Result<seq<Block>>)
    ensures r.Failure? <==> Visible(FormacionAcademica, recs, secciones) && Mixed(recs.formaciones)
    ensures r.Failure? ==> r.error == SORT_ERROR
  {
    if SortFails(recs, secciones) then Failure(SORT_ERROR) else Success(ConacytBlocks(d, recs, secciones, monthName))
  }

  /** The story of a template: the three known names share the CONACYT
      builder; any other name leaves the story empty. */
  function TemplateStory(plantilla: string, d: Docente, recs: CvRecords, secciones: map<string, bool>,
                         monthName: Month -> string): (r: Result<seq<Block>>)
    ensures plantilla != "conacyt" && plantilla != "profesional" && plantilla != "academico" ==> r == Success([])
    ensures r.Failure? ==> r.error == SORT_ERROR && Mixed(recs.formaciones)
  {
    if plantilla == "conacyt" || plantilla == "profesional" || plantilla == "academico"
    then ConacytStory(d, recs, secciones, monthName)
    else Success([])
  }

  // ------------------------------------------------------------------
  // The file name
  // ------------------------------------------------------------------

  type Hour = h: nat | h < 24
  type Minute = m: nat | m < 60

  /** `datetime.now()`, to the second. */
  datatype Timestamp = Timestamp(date: Date, hour: Hour, minute: Minute, second: Minute)

  /** `strftime('%Y%m%d_%H%M%S')`. */
  function TimestampText(t: Timestamp): string {
    YearText(t.date) + Pad2(t.date.month) + Pad2(t.date.day) + "_" + Pad2(t.hour) + Pad2(t.minute) + Pad2(t.second)
  }

  /** `f"CV_{docente.id}_{timestamp}.pdf"`. */
  function FileName(id: int, t: Timestamp): (r: string)
    ensures IsPrefix("CV_", r) && |r| > 7 && r[|r| - 4..] == ".pdf"
  {
    "CV_" + IntToString(id) + "_" + TimestampText(t) + ".pdf"
  }

  /** The docente id a generated file name carries: the integer between
      `CV_` and the next `_`. */
  function IdOfFileName(name: string): Option<int> {
    if IsPrefix("CV_", name) then
      var rest := name[3..];
      var k := Find(rest, '_');
      if k < 0 then None else ParseInt(rest[..k])
    else None
  }

  // ------------------------------------------------------------------
  // Properties
  // ------------------------------------------------------------------

  /** A template name other than the three known ones yields an empty
      story; the two delegating templates yield the CONACYT story. */
  lemma TemplatesShareConacyt(plantilla: string, d: Docente, recs: CvRecords, secciones: map<string, bool>,
                              monthName: Month -> string)
    ensures plantilla == "profesional" || plantilla == "academico"
            ==> TemplateStory(plantilla, d, recs, secciones, monthName) == ConacytStory(d, recs, secciones, monthName)
    ensures plantilla != "conacyt" && plantilla != "profesional" && plantilla != "academico"
            ==> TemplateStory(plantilla, d, recs, secciones, monthName) == Success([])
  {
  }

  /** An info line is shown for the CVU exactly when the CVU is truthy, and
      likewise for the email and the ORCID. */
  lemma InfoLineIff(d: Docente)
    ensures |InfoLines(d)| <= 3
    ensures (exists l :: l in InfoLines(d) && IsPrefix("Email: ", l)) <==> Truthy(d.correoPrincipal)
    ensures (exists l :: l in InfoLines(d) && IsPrefix("CVU: ", l)) <==> Truthy(d.cvu)
    ensures (exists l :: l in InfoLines(d) && IsPrefix("ORCID: ", l)) <==> Truthy(d.orcid)
  {
    var lines := InfoLines(d);
    forall l | l in lines
      ensures IsPrefix("Email: ", l) <==> Truthy(d.correoPrincipal) && l == "Email: " + d.correoPrincipal.value
      ensures IsPrefix("CVU: ", l) <==> Truthy(d.cvu) && l == "CVU: " + d.cvu.value
      ensures IsPrefix("ORCID: ", l) <==> Truthy(d.orcid) && l == "ORCID: " + d.orcid.value
    {
      assert l[0] == 'E' || l[0] == 'C' || l[0] == 'O';
    }
    if Truthy(d.correoPrincipal) {
      var l := "Email: " + d.correoPrincipal.value;
      assert l in lines && l[..7] == "Email: ";
    }
    if Truthy(d.cvu) {
      var l := "CVU: " + d.cvu.value;
      assert l in lines && l[..5] == "CVU: ";
    }
    if Truthy(d.orcid) {
      var l := "ORCID: " + d.orcid.value;
      assert l in lines && l[..7] == "ORCID: ";
    }
  }

  /** The personal-data table has three rows, and a fourth exactly when the
      birth date is known; no cell is left empty. */
  lemma DatosTableRows(d: Docente)
    ensures |DatosRows(d)| == (if d.fechaNacimiento.Some? then 4 else 3)
    ensures DatosRows(d)[0].0 == "CURP:" && DatosRows(d)[1].0 == "RFC:" && DatosRows(d)[2].0 == "Nacionalidad:"
    ensures forall i :: 0 <= i < |DatosRows(d)| ==> DatosRows(d)[i].1 != ""
  {
    var rows := DatosRows(d);
    if d.fechaNacimiento.Some? {
      assert rows[3].1 == DayMonthYearText(d.fechaNacimiento.value);
    }
  }

  /** In a numbered section whose entries open with their number, the entry
      for `xs[k]` sits at position `2k` and carries the number `k + 1`. */
  lemma NumberedFromOne<T>(xs: seq<T>, f: (nat, T) -> seq<Block>, head: (nat, T) -> string, k: nat)
    requires forall i, x :: |f(i, x)| == 2 && f(i, x)[0].Para? && IsPrefix(head(i, x), f(i, x)[0].text)
    requires k < |xs|
    ensures |Each(xs, f)| == 2 * |xs|
    ensures Each(xs, f)[2 * k].Para? && IsPrefix(head(k + 1, xs[k]), Each(xs, f)[2 * k].text)
  {
    EachPairAt(xs, f, k);
  }

  function ArticuloHead(i: nat, a: Articulo): string {
    CitationHead(i, a.autores, a.anio)
  }

  function LibroHead(i: nat, l: Libro): string {
    CitationHead(i, l.autores, l.anio)
  }

  function CongresoHead(i: nat, c: Congreso): string {
    IntToString(i) + ". "
  }

  /** Articles are cited `k. autores. (año). ` from 1, with 'Sin autores' and
      'S/F' standing in for missing authors and year. */
  lemma ArticlesNumberedFromOne(arts: seq<Articulo>, k: nat)
    requires k < |arts|
    ensures |Each(arts, ArticuloConacyt)| == 2 * |arts|
    ensures Each(arts, ArticuloConacyt)[2 * k].Para?
    ensures IsPrefix(IntToString(k + 1) + ". " + Or(arts[k].autores, "Sin autores") + ". (" + AnioText(arts[k].anio) + "). ",
                     Each(arts, ArticuloConacyt)[2 * k].text)
  {
    forall i, a ensures IsPrefix(ArticuloHead(i, a), ArticuloConacyt(i, a)[0].text) {
      var h := ArticuloHead(i, a);
      assert ArticuloConacyt(i, a)[0].text[..|h|] == h;
    }
    NumberedFromOne(arts, ArticuloConacyt, ArticuloHead, k);
  }

  lemma BooksNumberedFromOne(libros: seq<Libro>, k: nat)
    requires k < |libros|
    ensures |Each(libros, LibroConacyt)| == 2 * |libros|
    ensures Each(libros, LibroConacyt)[2 * k].Para?
    ensures IsPrefix(IntToString(k + 1) + ". " + Or(libros[k].autores, "Sin autores") + ". (" + AnioText(libros[k].anio) + "). ",
                     Each(libros, LibroConacyt)[2 * k].text)
  {
    forall i, l ensures IsPrefix(LibroHead(i, l), LibroConacyt(i, l)[0].text) {
      var h := LibroHead(i, l);
      assert LibroConacyt(i, l)[0].text[..|h|] == h;
    }
    NumberedFromOne(libros, LibroConacyt, LibroHead, k);
  }

  lemma CongressesNumberedFromOne(monthName: Month -> string, congresos: seq<Congreso>, k: nat)
    requires k < |congresos|
    ensures |Each(congresos, CongresoEntry(monthName))| == 2 * |congresos|
    ensures Each(congresos, CongresoEntry(monthName))[2 * k].Para?
    ensures IsPrefix(IntToString(k + 1) + ". ", Each(congresos, CongresoEntry(monthName))[2 * k].text)
  {
    var f := CongresoEntry(monthName);
    forall i, c ensures |f(i, c)| == 2 && f(i, c)[0].Para? && IsPrefix(CongresoHead(i, c), f(i, c)[0].text) {
      var h := CongresoHead(i, c);
      assert f(i, c)[0].text[..|h|] == h;
    }
    NumberedFromOne(congresos, f, CongresoHead, k);
  }

  /** `%m/%Y` and `%Y` end with a digit. */
  lemma DateTextsEndInDigit(d: Date)
    ensures |MonthYearText(d)| > 0 && IsDigit(MonthYearText(d)[|MonthYearText(d)| - 1])
    ensures |YearText(d)| > 0 && IsDigit(YearText(d)[|YearText(d)| - 1])
  {
  }

  /** An employment entry ends in 'Actualidad' exactly when the end date is missing. */
  lemma EmpleoEndsInActualidad(i: nat, e: Empleo)
    ensures var t := EmpleoConacyt(i, e)[0].text;
            |t| >= 10 && (t[|t| - 10..] == "Actualidad" <==> e.fechaFin.None?)
  {
    var t := EmpleoConacyt(i, e)[0].text;
    if e.fechaFin.Some? {
      var m := MonthYearText(e.fechaFin.value);
      DateTextsEndInDigit(e.fechaFin.value);
      assert t[|t| - 1] == m[|m| - 1];
      assert t[|t| - 10..][9] == t[|t| - 1];
    }
  }

  /** A degree entry ends in the year range when both dates are known, and
      right after the location line otherwise. */
  lemma FormacionYearsOnlyWithBothDates(i: nat, g: Formacion)
    ensures var t := FormacionConacyt(i, g)[0].text;
            |t| >= 5 && (t[|t| - 5..] == "<br/>" <==> !(g.fechaInicio.Some? && g.fechaFin.Some?))
  {
    var t := FormacionConacyt(i, g)[0].text;
    if g.fechaInicio.Some? && g.fechaFin.Some? {
      var y := IntToString(g.fechaFin.value.year);
      assert IsDigit(y[|y| - 1]);
      assert t[|t| - 1] == y[|y| - 1];
      assert t[|t| - 5..][4] == t[|t| - 1];
    }
  }

  /** A course entry ends in its `%m/%Y - %m/%Y` period when both dates are
      known, and right after the name or programme line otherwise. */
  lemma CursoPeriodOnlyWithBothDates(i: nat, c: Curso)
    ensures var t := CursoConacyt(i, c)[0].text;
            |t| >= 5 && (t[|t| - 5..] == "<br/>" <==> !(c.fechaInicio.Some? && c.fechaFin.Some?))
  {
    var t := CursoConacyt(i, c)[0].text;
    if c.fechaInicio.Some? && c.fechaFin.Some? {
      var m := MonthYearText(c.fechaFin.value);
      DateTextsEndInDigit(c.fechaFin.value);
      assert t[|t| - 1] == m[|m| - 1];
      assert t[|t| - 5..][4] == t[|t| - 1];
    } else if Truthy(c.programaEducativo) {
      assert t == "<b>" + Str(c.nombreCurso) + "</b><br/>" + c.programaEducativo.value + "<br/>";
    }
  }

  /** With every end date known, the degrees come out latest end date first,
      as a permutation of the input. */
  lemma DatedFormacionesLatestFirst(fs: seq<Formacion>)
    requires forall i :: 0 <= i < |fs| ==> fs[i].fechaFin.Some?
    ensures SortFormaciones(fs).Success?
    ensures var r := SortFormaciones(fs).value;
            |r| == |fs| && multiset(r) == multiset(fs)
            && (forall i :: 0 <= i < |r| ==> r[i].fechaFin.Some?)
            && (forall i, j :: 0 <= i < j < |r| ==> !Before(r[i].fechaFin.value, r[j].fechaFin.value))
  {
    SortDescSorted(fs, FinKey);
    var r := SortDesc(fs, FinKey);
    forall i | 0 <= i < |r|
      ensures r[i].fechaFin.Some?
    {
      assert r[i] in multiset(fs);
      var m :| 0 <= m < |fs| && fs[m] == r[i];
    }
    forall i, j | 0 <= i < j < |r|
      ensures !Before(r[i].fechaFin.value, r[j].fechaFin.value)
    {
      KeyOrdersLikeDates(r[i].fechaFin.value, r[j].fechaFin.value);
    }
  }

  /** Degrees that end on the same date keep their input order. */
  lemma SameEndDateKeepsOrder(fs: seq<Formacion>, fin: Date)
    requires !Mixed(fs)
    ensures WithKey(SortFormaciones(fs).value, FinKey, Key(fin)) == WithKey(fs, FinKey, Key(fin))
  {
    SortDescStable(fs, FinKey, Key(fin));
  }

  /** With no end date known, every key is `''` and the order is unchanged. */
  lemma UndatedFormacionesKeepOrder(fs: seq<Formacion>)
    requires forall i :: 0 <= i < |fs| ==> fs[i].fechaFin.None?
    ensures SortFormaciones(fs) == Success(fs)
  {
    SortDescOfEqualKeys(fs, FinKey, 0);
  }

  /** The story fails only through the sort: when the degrees are shown and
      some, but not all, have an end date. */
  lemma StoryFailsOnlyOnMixedDates(d: Docente, recs: CvRecords, secciones: map<string, bool>, monthName: Month -> string)
    ensures ConacytStory(d, recs, secciones, monthName).Failure?
            <==> Flag(secciones, "formacion_academica")
                 && (exists i :: 0 <= i < |recs.formaciones| && recs.formaciones[i].fechaFin.Some?)
                 && (exists j :: 0 <= j < |recs.formaciones| && recs.formaciones[j].fechaFin.None?)
  {
  }

  /** `str(n)` never holds an underscore. */
  lemma IntToStringHasNoUnderscore(n: int)
    ensures forall i :: 0 <= i < |IntToString(n)| ==> IntToString(n)[i] != '_'
  {
    var s := IntToString(n);
    if n < 0 {
      var digits := NatToDigits(-n);
      assert s == "-" + digits;
      forall i | 1 <= i < |s|
        ensures s[i] != '_'
      {
        assert s[i] == digits[i - 1];
      }
    }
  }

  /** The file name carries the docente's id: it reads back from between
      `CV_` and the next underscore. */
  lemma FileNameCarriesId(id: int, t: Timestamp)
    ensures IsPrefix("CV_", FileName(id, t))
    ensures IdOfFileName(FileName(id, t)) == Some(id)
  {
    var s, tail := IntToString(id), "_" + TimestampText(t) + ".pdf";
    assert FileName(id, t) == "CV_" + (s + tail);
    IntToStringHasNoUnderscore(id);
    IdBeforeUnderscore(s, tail);
    ParseIntOfIntToString(id);
  }

  lemma IdBeforeUnderscore(s: string, tail: string)
    requires forall i :: 0 <= i < |s| ==> s[i] != '_'
    requires |tail| > 0 && tail[0] == '_'
    ensures IsPrefix("CV_", "CV_" + (s + tail))
    ensures IdOfFileName("CV_" + (s + tail)) == ParseInt(s)
  {
    var name := "CV_" + (s + tail);
    assert name[..3] == "CV_";
    var rest := name[3..];
    assert rest == s + tail;
    var k := Find(rest, '_');
    assert rest[|s|] == '_';
    assert k == |s|;
    assert rest[..k] == s;
  }

  // ------------------------------------------------------------------
  // Section order and headings
  // ------------------------------------------------------------------

  /** Position of a section in CONACYT_ORDER. */
  function ConacytRank(section: Section): (k: int)
    ensures 0 <= k < |CONACYT_ORDER| && CONACYT_ORDER[k] == section
  {
    match section
    case DatosGenerales => 0
    case FormacionAcademica => 1
    case ExperienciaLaboral => 2
    case ArticulosCientificos => 3
    case LibrosCapitulos => 4
    case CongresosPonencias => 5
    case ProyectosInvestigacion => 6
    case CursosImpartidos => 7
    case TesisDirigidas => 8
    case DesarrollosTecnologicos => 9
  }

  /** The sections of the story follow CONACYT_ORDER, in which research
      projects come before the courses taught. */
  lemma ConacytSectionsInOrder(recs: CvRecords, secciones: map<string, bool>)
    ensures Increasing(ConacytSections(recs, secciones), ConacytRank)
    ensures ConacytRank(ProyectosInvestigacion) < ConacytRank(CursosImpartidos)
  {
    ConacytOrderIncreasing();
    FilterKeepsOrder(CONACYT_ORDER, VisibleIn(recs, secciones), ConacytRank);
  }

  lemma ConacytOrderIncreasing()
    ensures Increasing(CONACYT_ORDER, ConacytRank)
  {
    forall i, j | 0 <= i < j < |CONACYT_ORDER|
      ensures ConacytRank(CONACYT_ORDER[i]) < ConacytRank(CONACYT_ORDER[j])
    {
      assert ConacytRank(CONACYT_ORDER[i]) == i && ConacytRank(CONACYT_ORDER[j]) == j;
    }
  }

  lemma ConacytHeaderHasNoHeadings(d: Docente)
    ensures Headings(ConacytHeader(d)) == []
  {
    var subs := Subtitles(InfoLines(d));
    assert NoHeadings(subs);
    var header := [Title(Or(d.nombreCompleto, "Sin nombre"))] + subs + [Spacer(Cm(5))];
    assert NoHeadings(header);
    HeadingsOfNoHeadings(header);
  }

  /** The story is the header followed by the part of every section, in CONACYT_ORDER. */
  lemma ConacytFollowsOrder(d: Docente, recs: CvRecords, secciones: map<string, bool>, monthName: Month -> string)
    ensures ConacytBlocks(d, recs, secciones, monthName)
            == ConacytHeader(d) + Parts(CONACYT_ORDER, ConacytPartOf(d, recs, secciones, monthName))
  {
    PartsOfTen(CONACYT_ORDER, ConacytPartOf(d, recs, secciones, monthName), ConacytHeader(d));
  }


  lemma ConacytBodyHasNoHeadings(section: Section, d: Docente, recs: CvRecords, monthName: Month -> string)
    ensures NoHeadings(ConacytBody(section, d, recs, monthName))
  {
    match section
    case DatosGenerales =>
    case FormacionAcademica => EachHasNoHeadings(SortDesc(recs.formaciones, FinKey), FormacionConacyt);
    case ExperienciaLaboral => EachHasNoHeadings(recs.empleos, EmpleoConacyt);
    case ArticulosCientificos => EachHasNoHeadings(recs.articulos, ArticuloConacyt);
    case LibrosCapitulos => EachHasNoHeadings(recs.libros, LibroConacyt);
    case CongresosPonencias => EachHasNoHeadings(recs.congresos, CongresoEntry(monthName));
    case ProyectosInvestigacion => EachHasNoHeadings(recs.proyectos, ProyectoConacyt);
    case CursosImpartidos => EachHasNoHeadings(recs.cursos, CursoConacyt);
    case TesisDirigidas => EachHasNoHeadings(recs.tesis, TesisConacyt);
    case DesarrollosTecnologicos => EachHasNoHeadings(recs.desarrollos, DesarrolloConacyt);
  }

  /** A visible section contributes exactly its own heading. */
  lemma ConacytPartHeadings(section: Section, d: Docente, recs: CvRecords, secciones: map<string, bool>,
                            monthName: Month -> string)
    ensures Headings(ConacytPart(section, d, recs, secciones, monthName))
            == (if Visible(section, recs, secciones) then [ConacytTitle(section)] else [])
  {
    if Visible(section, recs, secciones) {
      var body := ConacytBody(section, d, recs, monthName);
      ConacytBodyHasNoHeadings(section, d, recs, monthName);
      HeadingsOfNoHeadings(body);
      HeadingsAppend([Heading(ConacytTitle(section))], body);
      assert [Heading(ConacytTitle(section))][..0] == [];
    }
  }

  /** The headings of the story are the titles of the visible sections, in
      CONACYT_ORDER: a section heading appears exactly when its flag is set
      and, for a record section, its records are not empty. */
  lemma ConacytHeadings(d: Docente, recs: CvRecords, secciones: map<string, bool>, monthName: Month -> string)
    ensures Headings(ConacytBlocks(d, recs, secciones, monthName))
            == Titles(ConacytSections(recs, secciones), ConacytTitle)
  {
    ConacytFollowsOrder(d, recs, secciones, monthName);
    ConacytHeadingsOf(CONACYT_ORDER, d, recs, secciones, monthName);
  }

  lemma ConacytHeadingsOf(order: seq<Section>, d: Docente, recs: CvRecords, secciones: map<string, bool>,
                          monthName: Month -> string)
    ensures Headings(ConacytHeader(d) + Parts(order, ConacytPartOf(d, recs, secciones, monthName)))
            == Titles(Filter(order, VisibleIn(recs, secciones)), ConacytTitle)
  {
    var header, part := ConacytHeader(d), ConacytPartOf(d, recs, secciones, monthName);
    forall section: Section
      ensures Headings(part(section)) == (if VisibleIn(recs, secciones)(section) then [ConacytTitle(section)] else [])
    {
      ConacytPartHeadings(section, d, recs, secciones, monthName);
    }
    PartsHeadings(order, part, VisibleIn(recs, secciones), ConacytTitle);
    ConacytHeaderHasNoHeadings(d);
    HeadingsAppend(header, Parts(order, part));
  }

  // ------------------------------------------------------------------
  // The generator
  // ------------------------------------------------------------------

  /** `info_lines`, collected one truthy field at a time. */
  method CollectInfoLines(docente: Docente) returns (infoLines: seq<string>)
    ensures infoLines == InfoLines(docente)
  {
    infoLines := [];
    if Truthy(docente.correoPrincipal) {
      infoLines := infoLines + ["Email: " + docente.correoPrincipal.value];
    }
    if Truthy(docente.cvu) {
      infoLines := infoLines + ["CVU: " + docente.cvu.value];
    }
    if Truthy(docente.orcid) {
      infoLines := infoLines + ["ORCID: " + docente.orcid.value];
    }
  }

  /** The name, the info lines and the spacer that open the story. */
  method EmitConacytHeader(docente: Docente) returns (story: seq<Block>)
    ensures story == ConacytHeader(docente)
  {
    story := [Title(Or(docente.nombreCompleto, "Sin nombre"))];
    var infoLines := CollectInfoLines(docente);
    ghost var before := story;
    for j := 0 to |infoLines|
      invariant story == before + Subtitles(infoLines[..j])
    {
      assert infoLines[..j + 1][..j] == infoLines[..j];
      story := story + [Subtitle(infoLines[j])];
    }
    assert infoLines[..|infoLines|] == infoLines;
    story := story + [Spacer(Cm(5))];
  }

  /** The DATOS GENERALES block: the heading, the table and a spacer. */
  method EmitDatosConacyt(story: seq<Block>, docente: Docente, recs: CvRecords, secciones: map<string, bool>,
                          monthName: Month -> string)
    returns (out: seq<Block>)
    ensures out == story + ConacytPart(DatosGenerales, docente, recs, secciones, monthName)
  {
    out := story;
    if Flag(secciones, "datos_generales") {
      out := out + [Heading("DATOS GENERALES")];
      var data := [
        ("CURP:", Or(docente.curp, "No especificado")),
        ("RFC:", Or(docente.rfc, "No especificado")),
        ("Nacionalidad:", Or(docente.nacionalidad, "No especificado"))];
      if docente.fechaNacimiento.Some? {
        data := data + [("Fecha de Nacimiento:", DayMonthYearText(docente.fechaNacimiento.value))];
      }
      assert data == DatosRows(docente);
      out := out + [Table(data)];
      out := out + [Spacer(Cm(4))];
    }
  }

  /** The FORMACIÓN ACADÉMICA block, whose sort may raise. */
  method EmitFormaciones(story: seq<Block>, docente: Docente, recs: CvRecords, secciones: map<string, bool>,
                         monthName: Month -> string)
    returns (out: Result<seq<Block>>)
    ensures out == if SortFails(recs, secciones) then Failure(SORT_ERROR)
                   else Success(story + ConacytPart(FormacionAcademica, docente, recs, secciones, monthName))
  {
    if Flag(secciones, "formacion_academica") {
      var formaciones := recs.formaciones;
      if |formaciones| > 0 {
        var sorted := SortFormaciones(formaciones);
        if sorted.Failure? {
          return Failure(sorted.error);
        }
        var s := AppendSection(story, true, "FORMACIÓN ACADÉMICA", sorted.value, FormacionConacyt,
                               ConacytPart(FormacionAcademica, docente, recs, secciones, monthName));
        return Success(s);
      }
    }
    assert !Visible(FormacionAcademica, recs, secciones);
    assert story + ConacytPart(FormacionAcademica, docente, recs, secciones, monthName) == story;
    return Success(story);
  }

  /** One `if secciones.get(...)` block of a section that cannot fail. */
  method EmitConacytSection(story: seq<Block>, section: Section, docente: Docente, recs: CvRecords,
                            secciones: map<string, bool>, monthName: Month -> string)
    returns (out: seq<Block>)
    requires section != FormacionAcademica
    ensures out == story + ConacytPart(section, docente, recs, secciones, monthName)
  {
    match section
    case DatosGenerales =>
      out := EmitDatosConacyt(story, docente, recs, secciones, monthName);
    case ExperienciaLaboral =>
      out := AppendSection(story, Flag(secciones, "experiencia_laboral") && |recs.empleos| > 0, "EXPERIENCIA LABORAL", recs.empleos, EmpleoConacyt,
                           ConacytPart(ExperienciaLaboral, docente, recs, secciones, monthName));
    case ArticulosCientificos =>
      out := AppendSection(story, Flag(secciones, "articulos_cientificos") && |recs.articulos| > 0, "ARTÍCULOS CIENTÍFICOS", recs.articulos, ArticuloConacyt,
                           ConacytPart(ArticulosCientificos, docente, recs, secciones, monthName));
    case LibrosCapitulos =>
      out := AppendSection(story, Flag(secciones, "libros_capitulos") && |recs.libros| > 0, "LIBROS Y CAPÍTULOS", recs.libros, LibroConacyt,
                           ConacytPart(LibrosCapitulos, docente, recs, secciones, monthName));
    case CongresosPonencias =>
      out := AppendSection(story, Flag(secciones, "congresos_ponencias") && |recs.congresos| > 0, "CONGRESOS Y PONENCIAS", recs.congresos, CongresoEntry(monthName),
                           ConacytPart(CongresosPonencias, docente, recs, secciones, monthName));
    case ProyectosInvestigacion =>
      out := AppendSection(story, Flag(secciones, "proyectos_investigacion") && |recs.proyectos| > 0, "PROYECTOS DE INVESTIGACIÓN", recs.proyectos, ProyectoConacyt,
                           ConacytPart(ProyectosInvestigacion, docente, recs, secciones, monthName));
    case CursosImpartidos =>
      out := AppendSection(story, Flag(secciones, "cursos_impartidos") && |recs.cursos| > 0, "CURSOS IMPARTIDOS", recs.cursos, CursoConacyt,
                           ConacytPart(CursosImpartidos, docente, recs, secciones, monthName));
    case TesisDirigidas =>
      out := AppendSection(story, Flag(secciones, "tesis_dirigidas") && |recs.tesis| > 0, "TESIS DIRIGIDAS", recs.tesis, TesisConacyt,
                           ConacytPart(TesisDirigidas, docente, recs, secciones, monthName));
    case DesarrollosTecnologicos =>
      out := AppendSection(story, Flag(secciones, "desarrollos_tecnologicos") && |recs.desarrollos| > 0, "DESARROLLOS TECNOLÓGICOS", recs.desarrollos, DesarrolloConacyt,
                           ConacytPart(DesarrollosTecnologicos, docente, recs, secciones, monthName));
  }

  /** `_generar_plantilla_conacyt`: the story, or the error the degree sort raises. */
  method GenerarPlantillaConacyt(docente: Docente, secciones: map<string, bool>, recs: CvRecords,
                                 monthName: Month -> string)
    returns (r: Result<seq<Block>>)
    ensures r == ConacytStory(docente, recs, secciones, monthName)
  {
    var story := EmitConacytHeader(docente);
    story := EmitConacytSection(story, DatosGenerales, docente, recs, secciones, monthName);
    var withFormaciones := EmitFormaciones(story, docente, recs, secciones, monthName);
    if withFormaciones.Failure? {
      return Failure(withFormaciones.error);
    }
    story := withFormaciones.value;
    story := EmitConacytSection(story, ExperienciaLaboral, docente, recs, secciones, monthName);
    story := EmitConacytSection(story, ArticulosCientificos, docente, recs, secciones, monthName);
    story := EmitConacytSection(story, LibrosCapitulos, docente, recs, secciones, monthName);
    story := EmitConacytSection(story, CongresosPonencias, docente, recs, secciones, monthName);
    story := EmitConacytSection(story, ProyectosInvestigacion, docente, recs, secciones, monthName);
    story := EmitConacytSection(story, CursosImpartidos, docente, recs, secciones, monthName);
    story := EmitConacytSection(story, TesisDirigidas, docente, recs, secciones, monthName);
    story := EmitConacytSection(story, DesarrollosTecnologicos, docente, recs, secciones, monthName);
    return Success(story);
  }

  /** `_generar_plantilla_profesional`: the CONACYT story. */
  method GenerarPlantillaProfesional(docente: Docente, secciones: map<string, bool>, recs: CvRecords,
                                     monthName: Month -> string)
    returns (r: Result<seq<Block>>)
    ensures r == ConacytStory(docente, recs, secciones, monthName)
  {
    r := GenerarPlantillaConacyt(docente, secciones, recs, monthName);
  }

  /** `_generar_plantilla_academica`: the CONACYT story. */
  method GenerarPlantillaAcademica(docente: Docente, secciones: map<string, bool>, recs: CvRecords,
                                   monthName: Month -> string)
    returns (r: Result<seq<Block>>)
    ensures r == ConacytStory(docente, recs, secciones, monthName)
  {
    r := GenerarPlantillaConacyt(docente, secciones, recs, monthName);
  }

  /** What `generar_pdf` hands on: the file name it returns and the story it builds the file from. */
  datatype GeneratedPdf = GeneratedPdf(filename: string, story: seq<Block>)

  /** `generar_pdf`: names the file after the docente and the time, and
      builds the story of the chosen template. */
  method GenerarPdf(docente: Docente, secciones: map<string, bool>, plantilla: string, recs: CvRecords,
                    monthName: Month -> string, now: Timestamp)
    returns (r: Result<GeneratedPdf>)
    ensures r.Success? <==> TemplateStory(plantilla, docente, recs, secciones, monthName).Success?
    ensures r.Success? ==> r.value == GeneratedPdf(FileName(docente.id, now),
                                                   TemplateStory(plantilla, docente, recs, secciones, monthName).value)
    ensures r.Failure? ==> r.error == TemplateStory(plantilla, docente, recs, secciones, monthName).error
  {
    var filename := "CV_" + IntToString(docente.id) + "_" + TimestampText(now) + ".pdf";
    var story: Result<seq<Block>> := Success([]);
    if plantilla == "conacyt" {
      story := GenerarPlantillaConacyt(docente, secciones, recs, monthName);
    } else if plantilla == "profesional" {
      story := GenerarPlantillaProfesional(docente, secciones, recs, monthName);
    } else if plantilla == "academico" {
      story := GenerarPlantillaAcademica(docente, secciones, recs, monthName);
    }
    if story.Failure? {
      return Failure(story.error);
    }
    return Success(GeneratedPdf(filename, story.value));
  }
}
