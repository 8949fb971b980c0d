/** `CVGeneratorService`: composes a docente's CV as a reportlab story
    (`generar_pdf`) or as python-docx paragraphs (`generar_word`).
    Both walk the same fixed section order; a section is emitted when it is
    selected and, except for the personal data, when its collection is non-empty. */
module CvGeneratorService {
  import opened PyValues
  import opened Dates
  import opened Records
  import opened Story

  /** The sections shown when the caller selects none. */
  const DEFAULT_SECTIONS: seq<string> := [
    "datos_generales", "experiencia_laboral", "formacion_academica", "articulos", "libros",
    "congresos", "cursos", "proyectos", "tesis", "desarrollos"]

  /** The id a caller selects a section by. */
  function Id(section: Section): string {
    match section
    case DatosGenerales => "datos_generales"
    case FormacionAcademica => "formacion_academica"
    case ExperienciaLaboral => "experiencia_laboral"
    case ArticulosCientificos => "articulos"
    case LibrosCapitulos => "libros"
    case CongresosPonencias => "congresos"
    case CursosImpartidos => "cursos"
    case ProyectosInvestigacion => "proyectos"
    case TesisDirigidas => "tesis"
    case DesarrollosTecnologicos => "desarrollos"
  }

  /** The order in which both generators emit the sections. */
  const SECTION_ORDER: seq<Section> := [
    DatosGenerales, FormacionAcademica, ExperienciaLaboral, ArticulosCientificos, LibrosCapitulos,
    CongresosPonencias, CursosImpartidos, ProyectosInvestigacion, TesisDirigidas, DesarrollosTecnologicos]

  // ------------------------------------------------------------------
  // Helpers
  // ------------------------------------------------------------------

  /** `_include`: membership in the selection, or in the defaults when the
      selection is `None` or empty. */
  function Include(section: string, selected: Option<seq<string>>): (r: bool)
    ensures selected.Some? && |selected.value| > 0 ==> (r <==> section in selected.value)
    ensures selected.None? || |selected.value| == 0 ==> (r <==> section in DEFAULT_SECTIONS)
  {
    section in (if selected.None? || |selected.value| == 0 then DEFAULT_SECTIONS else selected.value)
  }

  /** `_format_date`. */
  function FormatDate(value: Option<Date>): (r: string)
    ensures r == "Sin fecha" <==> value.None?
    ensures value.Some? ==> r == IsoText(value.value)
  {
    if value.Some? then IsoText(value.value) else "Sin fecha"
  }

  /** The text after `" - "` in a period: never empty, and "Actualidad"
      exactly when the period has no end date. */
  function PeriodEnd(fin: Option<Date>): (r: string)
    ensures r != ""
    ensures r == "Actualidad" <==> fin.None?
  {
    if fin.Some? then IsoText(fin.value) else "Actualidad"
  }

  /** `_format_period`. */
  function FormatPeriod(inicio: Option<Date>, fin: Option<Date>): string {
    FormatDate(inicio) + " - " + PeriodEnd(fin)
  }

  /** A period is the start text, `" - "`, and an end text that is never
      empty; 'Sin fecha' and 'Actualidad' stand in for missing dates. */
  lemma FormatPeriodShape(inicio: Option<Date>, fin: Option<Date>)
    ensures var r, k := FormatPeriod(inicio, fin), |FormatDate(inicio)|;
            |r| > k + 3 && r[..k] == FormatDate(inicio) && r[k..k + 3] == " - " && r[k + 3..] == PeriodEnd(fin)
    ensures inicio.None? ==> FormatPeriod(inicio, fin)[..12] == "Sin fecha - "
    ensures fin.None? ==> FormatPeriod(inicio, fin)[|FormatPeriod(inicio, fin)| - 10..] == "Actualidad"
  {
    var r := FormatPeriod(inicio, fin);
    var a, b := FormatDate(inicio), PeriodEnd(fin);
    StringAssoc(a, " - ", b);
  }

  /** `_docente_contact`: the email and the nationality, each replaced by
      its placeholder when falsy; neither is ever empty. */
  function DocenteContact(d: Docente): (r: (string, string))
    ensures r.0 != "" && r.1 != ""
    ensures Truthy(d.correoPrincipal) ==> r.0 == d.correoPrincipal.value
    ensures !Truthy(d.correoPrincipal) ==> r.0 == "Correo no registrado"
    ensures Truthy(d.nacionalidad) ==> r.1 == d.nacionalidad.value
    ensures !Truthy(d.nacionalidad) ==> r.1 == "Nacionalidad no registrada"
  {
    (Or(d.correoPrincipal, "Correo no registrado"), Or(d.nacionalidad, "Nacionalidad no registrada"))
  }

  /** `', '.join(filter(None, [ciudad, pais]))`. */
  function Ubicacion(c: Congreso): string {
    Join(", ", TruthyTexts([c.ciudad, c.pais]))
  }

  function IfYear(anio: Option<int>, prefix: string): string {
    if IntTruthy(anio) then prefix + IntToString(anio.value) else ""
  }

  // ------------------------------------------------------------------
  // Which sections appear
  // ------------------------------------------------------------------

  predicate Visible(section: Section, recs: CvRecords, selected: Option<seq<string>>) {
    Include(Id(section), selected) && Populated(section, recs)
  }

  function VisibleIn(recs: CvRecords, selected: Option<seq<string>>): Section -> bool {
    section => Visible(section, recs, selected)
  }

  /** The sections a generated CV contains, in the order it contains them. */
  function Sections(recs: CvRecords, selected: Option<seq<string>>): seq<Section> {
    Filter(SECTION_ORDER, VisibleIn(recs, selected))
  }

  // ------------------------------------------------------------------
  // PDF entries (one `Paragraph` and one `Spacer` per record)
  // ------------------------------------------------------------------

  const ENTRY_GAP := Spacer(Inch(8))

  function FormacionPdf(i: nat, g: Formacion): seq<Block> {
    var cuerpo :=
      "<b>" + Str(OrElse(g.gradoObtenido, g.nivel)) + "</b> - "
      + Or(g.institucion, "Institución no registrada")
      + IfTruthy(g.pais, " (", ")")
      + "<br/>" + FormatPeriod(g.fechaInicio, g.fechaFin)
      + IfTruthy(g.areaConocimiento, "<br/>Área: ", "");
    [Para(cuerpo), ENTRY_GAP]
  }

  function EmpleoPdf(i: nat, e: Empleo): seq<Block> {
    var cuerpo :=
      "<b>" + Str(e.puesto) + "</b> · " + Str(e.institucion)
      + "<br/>" + FormatPeriod(e.fechaInicio, e.fechaFin)
      + IfTruthy(e.logros, "<br/>Logros: ", "");
    [Para(cuerpo), ENTRY_GAP]
  }

  /** The number printed before an article's title. */
  function ArticuloPdfHead(i: nat, a: Articulo): string {
    "<b>" + IntToString(i) + ". " + Str(a.titulo) + "</b>"
  }

  /** What follows the title: journal, year, DOI and authors when present. */
  function ArticuloPdfDetails(a: Articulo): string {
    IfTruthy(a.revista, "<br/>", "")
    + IfYear(a.anio, ", ")
    + IfTruthy(a.doi, "<br/>DOI: ", "")
    + IfTruthy(a.autores, "<br/>Autores: ", "")
  }

  function ArticuloPdf(i: nat, a: Articulo): seq<Block> {
    [Para(ArticuloPdfHead(i, a) + ArticuloPdfDetails(a)), ENTRY_GAP]
  }

  function LibroPdf(i: nat, l: Libro): seq<Block> {
    var cuerpo :=
      "<b>" + Str(l.titulo) + "</b>"
      + IfTruthy(l.tituloCapitulo, " · Capítulo: ", "")
      + "<br/>" + Or(l.editorial, "Editorial no registrada")
      + IfYear(l.anio, ", ")
      + IfTruthy(l.isbn, "<br/>ISBN: ", "");
    [Para(cuerpo), ENTRY_GAP]
  }

  function CongresoPdf(i: nat, c: Congreso): seq<Block> {
    var ubicacion := Ubicacion(c);
    var cuerpo :=
      "<b>" + Str(c.nombreCongreso) + "</b>"
      + IfTruthy(c.tituloPonencia, "<br/>Ponencia: ", "")
      + (if c.fecha.Some? then "<br/>" + FormatDate(c.fecha) else "")
      + (if ubicacion != "" then " · " + ubicacion else "");
    [Para(cuerpo), ENTRY_GAP]
  }

  function CursoPdf(i: nat, c: Curso): seq<Block> {
    var cuerpo :=
      "<b>" + Str(c.nombreCurso) + "</b>"
      + IfTruthy(c.programaEducativo, " · ", "")
      + "<br/>" + FormatPeriod(c.fechaInicio, c.fechaFin);
    [Para(cuerpo), ENTRY_GAP]
  }

  function ProyectoPdf(i: nat, p: Proyecto): seq<Block> {
    var cuerpo :=
      "<b>" + Str(p.nombreProyecto) + "</b>"
      + IfTruthy(p.lineaInvestigacion, " · Línea: ", "")
      + "<br/>" + FormatPeriod(p.fechaInicio, p.fechaFin)
      + IfTruthy(p.estado, " · Estado: ", "")
      + IfTruthy(p.objetivoGeneral, "<br/>Objetivo: ", "");
    [Para(cuerpo), ENTRY_GAP]
  }

  function TesisPdf(i: nat, t: Tesis): seq<Block> {
    var cuerpo :=
      "<b>" + Str(t.titulo) + "</b>"
      + IfTruthy(t.estudianteNombre, " · Estudiante: ", "")
      + IfTruthy(t.nivel, "<br/>Nivel: ", "")
      + "<br/>" + Or(t.institucion, "Institución no registrada")
      + " · " + FormatPeriod(t.fechaInicio, t.fechaFin)
      + IfTruthy(t.estado, " · Estado: ", "");
    [Para(cuerpo), ENTRY_GAP]
  }

  function DesarrolloPdf(i: nat, d: Desarrollo): seq<Block> {
    var cuerpo :=
      "<b>" + Str(d.nombre) + "</b>"
      + IfTruthy(d.tipo, " · Tipo: ", "")
      + IfTruthy(d.nivelMadurez, "<br/>Nivel de madurez: ", "")
      + IfTruthy(d.descripcion, "<br/>", "");
    [Para(cuerpo), ENTRY_GAP]
  }

  // ------------------------------------------------------------------
  // PDF document
  // ------------------------------------------------------------------

  /** The title block, contact lines and spacer emitted before any section. */
  function PdfHeader(d: Docente): seq<Block> {
    var (correo, nacionalidad) := DocenteContact(d);
    [Title(Or(d.nombreCompleto, "Docente")), Para(correo)]
    + (if Truthy(d.orcid) then [Para("ORCID: " + d.orcid.value)] else [])
    + [Para("Nacionalidad: " + nacionalidad), Spacer(Inch(30))]
  }

  /** The four identifier lines of DATOS GENERALES. */
  function DatosPdf(d: Docente): seq<string> {
    [ "<b>CVU:</b> " + Or(d.cvu, "Sin capturar"),
      "<b>RFC:</b> " + Or(d.rfc, "Sin capturar"),
      "<b>CURP:</b> " + Or(d.curp, "Sin capturar"),
      "<b>Researcher ID:</b> " + Or(d.researcherId, "Sin capturar") ]
  }

  function PdfTitle(section: Section): string {
    match section
    case DatosGenerales => "DATOS GENERALES"
    case FormacionAcademica => "FORMACIÓN ACADÉMICA"
    case ExperienciaLaboral => "EXPERIENCIA LABORAL"
    case ArticulosCientificos => "ARTÍCULOS CIENTÍFICOS"
    case LibrosCapitulos => "LIBROS Y CAPÍTULOS"
    case CongresosPonencias => "CONGRESOS Y PONENCIAS"
    case CursosImpartidos => "CURSOS IMPARTIDOS"
    case ProyectosInvestigacion => "PROYECTOS DE INVESTIGACIÓN"
    case TesisDirigidas => "TESIS DIRIGIDAS"
    case DesarrollosTecnologicos => "DESARROLLOS TECNOLÓGICOS"
  }

  function Paras(lines: seq<string>): (bs: seq<Block>)
    ensures |bs| == |lines|
    ensures forall i :: 0 <= i < |lines| ==> bs[i] == Para(lines[i])
  {
    if |lines| == 0 then [] else Paras(lines[..|lines| - 1]) + [Para(lines[|lines| - 1])]
  }

  /** The blocks of one section: its heading, then its entries. */
  function PdfSection(section: Section, d: Docente, recs: CvRecords): seq<Block> {
    [Heading(PdfTitle(section))] + PdfBody(section, d, recs)
  }

  /** The entries of one section, after its heading. */
  function PdfBody(section: Section, d: Docente, recs: CvRecords): seq<Block> {
    match section
    case DatosGenerales => Paras(DatosPdf(d)) + [Spacer(Inch(20))]
    case FormacionAcademica => Each(recs.formaciones, FormacionPdf)
    case ExperienciaLaboral => Each(recs.empleos, EmpleoPdf)
    case ArticulosCientificos => Each(recs.articulos, ArticuloPdf)
    case LibrosCapitulos => Each(recs.libros, LibroPdf)
    case CongresosPonencias => Each(recs.congresos, CongresoPdf)
    case CursosImpartidos => Each(recs.cursos, CursoPdf)
    case ProyectosInvestigacion => Each(recs.proyectos, ProyectoPdf)
    case TesisDirigidas => Each(recs.tesis, TesisPdf)
    case DesarrollosTecnologicos => Each(recs.desarrollos, DesarrolloPdf)
  }

  /** A section's blocks when it is visible, nothing otherwise. */
  function PdfPart(section: Section, d: Docente, recs: CvRecords, selected: Option<seq<string>>): seq<Block> {
    if Visible(section, recs, selected) then PdfSection(section, d, recs) else []
  }

  function PdfPartOf(d: Docente, recs: CvRecords, selected: Option<seq<string>>): Section -> seq<Block> {
    section => PdfPart(section, d, recs, selected)
  }

  /** The story `generar_pdf` builds: the header, then one block per section, in the
      order the source writes them; each block is empty unless the section is visible. */
  function PdfStory(d: Docente, recs: CvRecords, selected: Option<seq<string>>): (r: seq<Block>)
    ensures PdfHeader(d) <= r
  {
    PdfHeader(d)
    + PdfPart(DatosGenerales, d, recs, selected)
    + PdfPart(FormacionAcademica, d, recs, selected)
    + PdfPart(ExperienciaLaboral, d, recs, selected)
    + PdfPart(ArticulosCientificos, d, recs, selected)
    + PdfPart(LibrosCapitulos, d, recs, selected)
    + PdfPart(CongresosPonencias, d, recs, selected)
    + PdfPart(CursosImpartidos, d, recs, selected)
    + PdfPart(ProyectosInvestigacion, d, recs, selected)
    + PdfPart(TesisDirigidas, d, recs, selected)
    + PdfPart(DesarrollosTecnologicos, d, recs, selected)
  }

  // ------------------------------------------------------------------
  // Word entries (one paragraph per present field)
  // ------------------------------------------------------------------

  function ParaIf(o: Option<string>, prefix: string): seq<Block> {
    if Truthy(o) then [Para(prefix + o.value)] else []
  }

  function YearParaIf(anio: Option<int>): seq<Block> {
    if IntTruthy(anio) then [Para("Año: " + IntToString(anio.value))] else []
  }

  function FormacionWord(i: nat, g: Formacion): (bs: seq<Block>)
    ensures NoHeadings(bs)
  {
    [ Para(Str(OrElse(g.gradoObtenido, g.nivel)) + " - " + Or(g.institucion, "Institución no registrada")),
      Para("Periodo: " + FormatPeriod(g.fechaInicio, g.fechaFin)) ]
    + ParaIf(g.areaConocimiento, "Área: ")
  }

  function EmpleoWord(i: nat, e: Empleo): (bs: seq<Block>)
    ensures NoHeadings(bs)
  {
    [ Para(Str(e.puesto) + " · " + Str(e.institucion)),
      Para("Periodo: " + FormatPeriod(e.fechaInicio, e.fechaFin)) ]
    + ParaIf(e.logros, "Logros: ")
  }

  function ArticuloWord(i: nat, a: Articulo): (bs: seq<Block>)
    ensures NoHeadings(bs)
  {
    [ListItem(Numbered, TextOrEmpty(a.titulo))]
    + ParaIf(a.revista, "Revista: ")
    + YearParaIf(a.anio)
    + ParaIf(a.doi, "DOI: ")
    + ParaIf(a.autores, "Autores: ")
  }

  function LibroWord(i: nat, l: Libro): (bs: seq<Block>)
    ensures NoHeadings(bs)
  {
    [ListItem(Numbered, TextOrEmpty(l.titulo))]
    + ParaIf(l.tituloCapitulo, "Capítulo: ")
    + ParaIf(l.editorial, "Editorial: ")
    + YearParaIf(l.anio)
    + ParaIf(l.isbn, "ISBN: ")
  }

  function CongresoWord(i: nat, c: Congreso): (bs: seq<Block>)
    ensures NoHeadings(bs)
  {
    var ubicacion := Ubicacion(c);
    [ListItem(Bulleted, TextOrEmpty(c.nombreCongreso))]
    + ParaIf(c.tituloPonencia, "Ponencia: ")
    + (if c.fecha.Some? then [Para("Fecha: " + FormatDate(c.fecha))] else [])
    + (if ubicacion != "" then [Para("Ubicación: " + ubicacion)] else [])
  }

  function CursoWord(i: nat, c: Curso): (bs: seq<Block>)
    ensures NoHeadings(bs)
  {
    [ListItem(Bulleted, TextOrEmpty(c.nombreCurso))]
    + ParaIf(c.programaEducativo, "Programa: ")
    + [Para("Periodo: " + FormatPeriod(c.fechaInicio, c.fechaFin))]
  }

  function ProyectoWord(i: nat, p: Proyecto): (bs: seq<Block>)
    ensures NoHeadings(bs)
  {
    [ListItem(Numbered, TextOrEmpty(p.nombreProyecto))]
    + ParaIf(p.lineaInvestigacion, "Línea: ")
    + ParaIf(p.estado, "Estado: ")
    + [Para("Periodo: " + FormatPeriod(p.fechaInicio, p.fechaFin))]
    + ParaIf(p.objetivoGeneral, "Objetivo: ")
  }

  function TesisWord(i: nat, t: Tesis): (bs: seq<Block>)
    ensures NoHeadings(bs)
  {
    [ListItem(Bulleted, TextOrEmpty(t.titulo))]
    + ParaIf(t.estudianteNombre, "Estudiante: ")
    + [ Para("Institución: " + Or(t.institucion, "No registrada")),
        Para("Periodo: " + FormatPeriod(t.fechaInicio, t.fechaFin)) ]
    + ParaIf(t.estado, "Estado: ")
  }

  function DesarrolloWord(i: nat, d: Desarrollo): (bs: seq<Block>)
    ensures NoHeadings(bs)
  {
    [ListItem(Bulleted, TextOrEmpty(d.nombre))]
    + ParaIf(d.tipo, "Tipo: ")
    + ParaIf(d.nivelMadurez, "Nivel de madurez: ")
    + ParaIf(d.descripcion, "")
  }

  // ------------------------------------------------------------------
  // Word document
  // ------------------------------------------------------------------

  /** The heading-0 name and the centred contact paragraphs; Word puts the
      nationality before the ORCID line, the PDF after it. */
  function WordHeader(d: Docente): seq<Block> {
    var (correo, nacionalidad) := DocenteContact(d);
    [Title(Or(d.nombreCompleto, "Docente")), Para(correo), Para("Nacionalidad: " + nacionalidad)]
    + (if Truthy(d.orcid) then [Para("ORCID: " + d.orcid.value)] else [])
  }

  function DatosWord(d: Docente): seq<string> {
    [ "CVU: " + Or(d.cvu, "Sin capturar"),
      "RFC: " + Or(d.rfc, "Sin capturar"),
      "CURP: " + Or(d.curp, "Sin capturar"),
      "Researcher ID: " + Or(d.researcherId, "Sin capturar") ]
  }

  function WordTitle(section: Section): string {
    match section
    case DatosGenerales => "Datos Generales"
    case FormacionAcademica => "Formación Académica"
    case ExperienciaLaboral => "Experiencia Laboral"
    case ArticulosCientificos => "Artículos Científicos"
    case LibrosCapitulos => "Libros y Capítulos"
    case CongresosPonencias => "Congresos y Ponencias"
    case CursosImpartidos => "Cursos Impartidos"
    case ProyectosInvestigacion => "Proyectos de Investigación"
    case TesisDirigidas => "Tesis Dirigidas"
    case DesarrollosTecnologicos => "Desarrollos Tecnológicos"
  }

  /** The blocks of one section: its heading, then its entries. */
  function WordSection(section: Section, d: Docente, recs: CvRecords): seq<Block> {
    [Heading(WordTitle(section))] + WordBody(section, d, recs)
  }

  /** The entries of one section, after its heading. */
  function WordBody(section: Section, d: Docente, recs: CvRecords): seq<Block> {
    match section
    case DatosGenerales => Paras(DatosWord(d))
    case FormacionAcademica => Each(recs.formaciones, FormacionWord)
    case ExperienciaLaboral => Each(recs.empleos, EmpleoWord)
    case ArticulosCientificos => Each(recs.articulos, ArticuloWord)
    case LibrosCapitulos => Each(recs.libros, LibroWord)
    case CongresosPonencias => Each(recs.congresos, CongresoWord)
    case CursosImpartidos => Each(recs.cursos, CursoWord)
    case ProyectosInvestigacion => Each(recs.proyectos, ProyectoWord)
    case TesisDirigidas => Each(recs.tesis, TesisWord)
    case DesarrollosTecnologicos => Each(recs.desarrollos, DesarrolloWord)
  }

  function WordPart(section: Section, d: Docente, recs: CvRecords, selected: Option<seq<string>>): seq<Block> {
    if Visible(section, recs, selected) then WordSection(section, d, recs) else []
  }

  function WordPartOf(d: Docente, recs: CvRecords, selected: Option<seq<string>>): Section -> seq<Block> {
    section => WordPart(section, d, recs, selected)
  }

  /** The paragraphs `generar_word` adds: the header, then one block per section, in the
      order the source writes them; each block is empty unless the section is visible. */
  function WordDocument(d: Docente, recs: CvRecords, selected: Option<seq<string>>): (r: seq<Block>)
    ensures WordHeader(d) <= r
  {
    WordHeader(d)
    + WordPart(DatosGenerales, d, recs, selected)
    + WordPart(FormacionAcademica, d, recs, selected)
    + WordPart(ExperienciaLaboral, d, recs, selected)
    + WordPart(ArticulosCientificos, d, recs, selected)
    + WordPart(LibrosCapitulos, d, recs, selected)
    + WordPart(CongresosPonencias, d, recs, selected)
    + WordPart(CursosImpartidos, d, recs, selected)
    + WordPart(ProyectosInvestigacion, d, recs, selected)
    + WordPart(TesisDirigidas, d, recs, selected)
    + WordPart(DesarrollosTecnologicos, d, recs, selected)
  }

  // ------------------------------------------------------------------
  // What the generated documents contain
  // ------------------------------------------------------------------

  /** Every section id appears in the defaults. */
  lemma DefaultsCoverEverySection(section: Section)
    ensures Id(section) in DEFAULT_SECTIONS
  {
    match section
    case DatosGenerales => assert DEFAULT_SECTIONS[0] == Id(section);
    case FormacionAcademica => assert DEFAULT_SECTIONS[2] == Id(section);
    case ExperienciaLaboral => assert DEFAULT_SECTIONS[1] == Id(section);
    case ArticulosCientificos => assert DEFAULT_SECTIONS[3] == Id(section);
    case LibrosCapitulos => assert DEFAULT_SECTIONS[4] == Id(section);
    case CongresosPonencias => assert DEFAULT_SECTIONS[5] == Id(section);
    case CursosImpartidos => assert DEFAULT_SECTIONS[6] == Id(section);
    case ProyectosInvestigacion => assert DEFAULT_SECTIONS[7] == Id(section);
    case TesisDirigidas => assert DEFAULT_SECTIONS[8] == Id(section);
    case DesarrollosTecnologicos => assert DEFAULT_SECTIONS[9] == Id(section);
  }

  lemma EverySectionIsOrdered(section: Section)
    ensures section in SECTION_ORDER
  {
    match section
    case DatosGenerales => assert SECTION_ORDER[0] == section;
    case FormacionAcademica => assert SECTION_ORDER[1] == section;
    case ExperienciaLaboral => assert SECTION_ORDER[2] == section;
    case ArticulosCientificos => assert SECTION_ORDER[3] == section;
    case LibrosCapitulos => assert SECTION_ORDER[4] == section;
    case CongresosPonencias => assert SECTION_ORDER[5] == section;
    case CursosImpartidos => assert SECTION_ORDER[6] == section;
    case ProyectosInvestigacion => assert SECTION_ORDER[7] == section;
    case TesisDirigidas => assert SECTION_ORDER[8] == section;
    case DesarrollosTecnologicos => assert SECTION_ORDER[9] == section;
  }

  /** A section is in the CV exactly when it is selected (or the selection
      is absent or empty) and, for a record section, it has records. */
  lemma SectionShownIff(section: Section, recs: CvRecords, selected: Option<seq<string>>)
    ensures section in Sections(recs, selected)
        <==> Include(Id(section), selected) && Populated(section, recs)
  {
    EverySectionIsOrdered(section);
  }

  /** With no selection, or an empty one, every section that has content is shown. */
  lemma NoSelectionShowsAll(section: Section, recs: CvRecords, selected: Option<seq<string>>)
    requires selected.None? || |selected.value| == 0
    ensures section in Sections(recs, selected) <==> Populated(section, recs)
  {
    SectionShownIff(section, recs, selected);
    DefaultsCoverEverySection(section);
  }

  /** An id that names no section changes nothing in a non-empty selection. */
  lemma UnknownIdIgnored(section: Section, xs: seq<string>, unknown: string)
    requires |xs| > 0
    requires forall s: Section :: Id(s) != unknown
    ensures Include(Id(section), Some(xs + [unknown])) == Include(Id(section), Some(xs))
  {
    assert Id(section) in xs + [unknown] <==> Id(section) in xs;
  }

  /** A non-empty selection of unknown ids yields a CV with only its header. */
  lemma UnknownSelectionShowsNothing(d: Docente, recs: CvRecords, xs: seq<string>)
    requires |xs| > 0
    requires forall s: Section, i :: 0 <= i < |xs| ==> Id(s) != xs[i]
    ensures Sections(recs, Some(xs)) == []
    ensures PdfStory(d, recs, Some(xs)) == PdfHeader(d)
    ensures WordDocument(d, recs, Some(xs)) == WordHeader(d)
  {
    UnknownSelectionHidesAll(recs, xs);
    var r := Sections(recs, Some(xs));
    if |r| > 0 {
      SectionShownIff(r[0], recs, Some(xs));
      assert false;
    }
    UnknownSelectionPdf(d, recs, xs);
    UnknownSelectionWord(d, recs, xs);
  }

  lemma UnknownSelectionHidesAll(recs: CvRecords, xs: seq<string>)
    requires |xs| > 0
    requires forall s: Section, i :: 0 <= i < |xs| ==> Id(s) != xs[i]
    ensures forall s: Section :: !Visible(s, recs, Some(xs))
  {
    forall s: Section
      ensures !Visible(s, recs, Some(xs))
    {
      assert Id(s) !in xs;
    }
  }

  lemma UnknownSelectionPdf(d: Docente, recs: CvRecords, xs: seq<string>)
    requires forall s: Section :: !Visible(s, recs, Some(xs))
    ensures PdfStory(d, recs, Some(xs)) == PdfHeader(d)
  {
    PdfStoryFollowsSectionOrder(d, recs, Some(xs));
    PartsOfNothing(SECTION_ORDER, PdfPartOf(d, recs, Some(xs)));
  }

  lemma UnknownSelectionWord(d: Docente, recs: CvRecords, xs: seq<string>)
    requires forall s: Section :: !Visible(s, recs, Some(xs))
    ensures WordDocument(d, recs, Some(xs)) == WordHeader(d)
  {
    WordDocumentFollowsSectionOrder(d, recs, Some(xs));
    PartsOfNothing(SECTION_ORDER, WordPartOf(d, recs, Some(xs)));
  }

  /** Position of a section in SECTION_ORDER. */
  function Rank(section: Section): (k: int)
    ensures 0 <= k < |SECTION_ORDER| && SECTION_ORDER[k] == section
  {
    match section
    case DatosGenerales => 0
    case FormacionAcademica => 1
    case ExperienciaLaboral => 2
    case ArticulosCientificos => 3
    case LibrosCapitulos => 4
    case CongresosPonencias => 5
    case CursosImpartidos => 6
    case ProyectosInvestigacion => 7
    case TesisDirigidas => 8
    case DesarrollosTecnologicos => 9
  }

  /** The sections of a CV never repeat and follow SECTION_ORDER. */
  lemma SectionsInOrder(recs: CvRecords, selected: Option<seq<string>>)
    ensures Increasing(Sections(recs, selected), Rank)
  {
    forall i, j | 0 <= i < j < |SECTION_ORDER|
      ensures Rank(SECTION_ORDER[i]) < Rank(SECTION_ORDER[j])
    {
      assert Rank(SECTION_ORDER[i]) == i && Rank(SECTION_ORDER[j]) == j;
    }
    FilterKeepsOrder(SECTION_ORDER, VisibleIn(recs, selected), Rank);
  }

  lemma ParasHaveNoHeadings(lines: seq<string>)
    ensures NoHeadings(Paras(lines))
  {
  }

  lemma PdfBodyHasNoHeadings(section: Section, d: Docente, recs: CvRecords)
    ensures NoHeadings(PdfBody(section, d, recs))
  {
    match section
    case DatosGenerales => ParasHaveNoHeadings(DatosPdf(d));
    case FormacionAcademica => EachHasNoHeadings(recs.formaciones, FormacionPdf);
    case ExperienciaLaboral => EachHasNoHeadings(recs.empleos, EmpleoPdf);
    case ArticulosCientificos => EachHasNoHeadings(recs.articulos, ArticuloPdf);
    case LibrosCapitulos => EachHasNoHeadings(recs.libros, LibroPdf);
    case CongresosPonencias => EachHasNoHeadings(recs.congresos, CongresoPdf);
    case CursosImpartidos => EachHasNoHeadings(recs.cursos, CursoPdf);
    case ProyectosInvestigacion => EachHasNoHeadings(recs.proyectos, ProyectoPdf);
    case TesisDirigidas => EachHasNoHeadings(recs.tesis, TesisPdf);
    case DesarrollosTecnologicos => EachHasNoHeadings(recs.desarrollos, DesarrolloPdf);
  }

  /** Each section contributes exactly its own heading. */
  lemma PdfSectionHeadings(section: Section, d: Docente, recs: CvRecords)
    ensures Headings(PdfSection(section, d, recs)) == [PdfTitle(section)]
  {
    var body := PdfBody(section, d, recs);
    PdfBodyHasNoHeadings(section, d, recs);
    HeadingsOfNoHeadings(body);
    HeadingsAppend([Heading(PdfTitle(section))], body);
    assert [Heading(PdfTitle(section))][..0] == [];
  }

  lemma WordBodyHasNoHeadings(section: Section, d: Docente, recs: CvRecords)
    ensures NoHeadings(WordBody(section, d, recs))
  {
    match section
    case DatosGenerales => ParasHaveNoHeadings(DatosWord(d));
    case FormacionAcademica => EachHasNoHeadings(recs.formaciones, FormacionWord);
    case ExperienciaLaboral => EachHasNoHeadings(recs.empleos, EmpleoWord);
    case ArticulosCientificos => EachHasNoHeadings(recs.articulos, ArticuloWord);
    case LibrosCapitulos => EachHasNoHeadings(recs.libros, LibroWord);
    case CongresosPonencias => EachHasNoHeadings(recs.congresos, CongresoWord);
    case CursosImpartidos => EachHasNoHeadings(recs.cursos, CursoWord);
    case ProyectosInvestigacion => EachHasNoHeadings(recs.proyectos, ProyectoWord);
    case TesisDirigidas => EachHasNoHeadings(recs.tesis, TesisWord);
    case DesarrollosTecnologicos => EachHasNoHeadings(recs.desarrollos, DesarrolloWord);
  }

  /** Each section contributes exactly its own heading. */
  lemma WordSectionHeadings(section: Section, d: Docente, recs: CvRecords)
    ensures Headings(WordSection(section, d, recs)) == [WordTitle(section)]
  {
    var body := WordBody(section, d, recs);
    WordBodyHasNoHeadings(section, d, recs);
    HeadingsOfNoHeadings(body);
    HeadingsAppend([Heading(WordTitle(section))], body);
    assert [Heading(WordTitle(section))][..0] == [];
  }

  /** The headings of a PDF CV are the titles of its sections, in order. */
  lemma PdfHeadingsAreSectionTitles(d: Docente, recs: CvRecords, selected: Option<seq<string>>)
    ensures Headings(PdfStory(d, recs, selected)) == Titles(Sections(recs, selected), PdfTitle)
  {
    PdfStoryFollowsSectionOrder(d, recs, selected);
    PdfHeadingsOf(SECTION_ORDER, d, recs, selected);
  }

  lemma PdfHeadingsOf(order: seq<Section>, d: Docente, recs: CvRecords, selected: Option<seq<string>>)
    ensures Headings(PdfHeader(d) + Parts(order, PdfPartOf(d, recs, selected))) == Titles(Filter(order, VisibleIn(recs, selected)), PdfTitle)
  {
    var header, parts := PdfHeader(d), Parts(order, PdfPartOf(d, recs, selected));
    forall s: Section
      ensures Headings(PdfPartOf(d, recs, selected)(s)) == (if VisibleIn(recs, selected)(s) then [PdfTitle(s)] else [])
    {
      if Visible(s, recs, selected) {
        PdfSectionHeadings(s, d, recs);
      }
    }
    PartsHeadings(order, PdfPartOf(d, recs, selected), VisibleIn(recs, selected), PdfTitle);
    HeadersHaveNoHeadings(d);
    HeadingsAppend(header, parts);
  }

  /** The headings of a Word CV are the titles of the same sections, in the same order. */
  lemma WordHeadingsAreSectionTitles(d: Docente, recs: CvRecords, selected: Option<seq<string>>)
    ensures Headings(WordDocument(d, recs, selected)) == Titles(Sections(recs, selected), WordTitle)
  {
    WordDocumentFollowsSectionOrder(d, recs, selected);
    WordHeadingsOf(SECTION_ORDER, d, recs, selected);
  }

  lemma WordHeadingsOf(order: seq<Section>, d: Docente, recs: CvRecords, selected: Option<seq<string>>)
    ensures Headings(WordHeader(d) + Parts(order, WordPartOf(d, recs, selected))) == Titles(Filter(order, VisibleIn(recs, selected)), WordTitle)
  {
    var header, parts := WordHeader(d), Parts(order, WordPartOf(d, recs, selected));
    forall s: Section
      ensures Headings(WordPartOf(d, recs, selected)(s)) == (if VisibleIn(recs, selected)(s) then [WordTitle(s)] else [])
    {
      if Visible(s, recs, selected) {
        WordSectionHeadings(s, d, recs);
      }
    }
    PartsHeadings(order, WordPartOf(d, recs, selected), VisibleIn(recs, selected), WordTitle);
    HeadersHaveNoHeadings(d);
    HeadingsAppend(header, parts);
  }

  lemma HeadersHaveNoHeadings(d: Docente)
    ensures Headings(PdfHeader(d)) == [] && Headings(WordHeader(d)) == []
  {
    HeadingsOfNoHeadings(PdfHeader(d));
    HeadingsOfNoHeadings(WordHeader(d));
  }

  /** Both formats carry the same header lines; the PDF adds a spacer and
      puts the ORCID line before the nationality. */
  lemma HeadersCarrySameLines(d: Docente)
    ensures multiset(PdfHeader(d)) == multiset(WordHeader(d)) + multiset{Spacer(Inch(30))}
    ensures |WordHeader(d)| == (if Truthy(d.orcid) then 4 else 3)
    ensures PdfHeader(d)[0] == WordHeader(d)[0] == Title(Or(d.nombreCompleto, "Docente"))
  {
  }

  /** In the PDF, the `k`-th article (0-based) is the paragraph at `2k`, and
      its text opens with the number `k + 1` and the title in bold. */
  lemma ArticlesNumberedFromOne(arts: seq<Articulo>, k: nat)
    requires k < |arts|
    ensures |Each(arts, ArticuloPdf)| == 2 * |arts|
    ensures Each(arts, ArticuloPdf)[2 * k].Para?
    ensures IsPrefix("<b>" + IntToString(k + 1) + ". " + Str(arts[k].titulo) + "</b>", Each(arts, ArticuloPdf)[2 * k].text)
    ensures Each(arts, ArticuloPdf)[2 * k + 1] == ENTRY_GAP
  {
    EachPairAt(arts, ArticuloPdf, k);
    var head, details := ArticuloPdfHead(k + 1, arts[k]), ArticuloPdfDetails(arts[k]);
    assert (head + details)[..|head|] == head;
  }

  /** A Word paragraph that reports a DOI. */
  predicate HasDoiLine(bs: seq<Block>) {
    exists j :: 0 <= j < |bs| && bs[j].Para? && IsPrefix("DOI: ", bs[j].text)
  }

  /** A Word article entry has a DOI paragraph exactly when the DOI is set,
      and that paragraph carries it. */
  lemma ArticuloWordDoi(i: nat, a: Articulo)
    ensures HasDoiLine(ArticuloWord(i, a)) <==> Truthy(a.doi)
    ensures Truthy(a.doi) ==> Para("DOI: " + a.doi.value) in ArticuloWord(i, a)
  {
    var bs := ArticuloWord(i, a);
    var pre := [ListItem(Numbered, TextOrEmpty(a.titulo))] + ParaIf(a.revista, "Revista: ") + YearParaIf(a.anio);
    var post := ParaIf(a.autores, "Autores: ");
    assert bs == pre + ParaIf(a.doi, "DOI: ") + post;
    if Truthy(a.doi) {
      var line := "DOI: " + a.doi.value;
      assert bs[|pre|] == Para(line);
      assert line[..5] == "DOI: ";
    } else {
      assert bs == pre + post;
      forall j | 0 <= j < |bs| && bs[j].Para?
        ensures !IsPrefix("DOI: ", bs[j].text)
      {
        var t := bs[j].text;
        if j < |pre| {
          assert j > 0;
          if Truthy(a.revista) && j == 1 {
            assert t[0] == 'R';
          } else {
            assert t[..5] == "Año: "[..5];
          }
        } else {
          assert t[..5] == "Autor";
        }
      }
    }
  }

  /** A PDF article entry carries a DOI line exactly when the DOI is set:
      otherwise it reads as if the article had no DOI at all. */
  lemma ArticuloPdfDoi(a: Articulo)
    ensures Truthy(a.doi) <==> ArticuloPdfDetails(a) != ArticuloPdfDetails(a.(doi := None))
    ensures Truthy(a.doi) ==> Contains(ArticuloPdfDetails(a), "<br/>DOI: " + a.doi.value)
  {
    var pre := IfTruthy(a.revista, "<br/>", "") + IfYear(a.anio, ", ");
    var post := IfTruthy(a.autores, "<br/>Autores: ", "");
    assert ArticuloPdfDetails(a.(doi := None)) == pre + post;
    if Truthy(a.doi) {
      var line := "<br/>DOI: " + a.doi.value;
      assert ArticuloPdfDetails(a) == pre + line + post;
      MiddleOccurs(pre, line, post);
    } else {
      assert ArticuloPdfDetails(a) == pre + "" + post;
    }
  }

  /** `y` occurs in `x + y + z` right after `x`. */
  lemma MiddleOccurs(x: string, y: string, z: string)
    ensures OccursAt(x + y + z, y, |x|)
    ensures |y| > 0 ==> x + y + z != x + z
  {
    var s := x + y + z;
    assert s[|x|..|x| + |y|] == y;
  }

  /** A book entry, in either format, carries an ISBN line exactly when the
      ISBN is set, as its last line; otherwise it reads as if the book had
      no ISBN. */
  lemma LibroIsbn(i: nat, l: Libro)
    ensures Truthy(l.isbn) ==> LibroPdf(i, l)[0] == Para(LibroPdf(i, l.(isbn := None))[0].text + "<br/>ISBN: " + l.isbn.value)
    ensures Truthy(l.isbn) ==> LibroWord(i, l) == LibroWord(i, l.(isbn := None)) + [Para("ISBN: " + l.isbn.value)]
    ensures !Truthy(l.isbn) ==> LibroPdf(i, l) == LibroPdf(i, l.(isbn := None)) && LibroWord(i, l) == LibroWord(i, l.(isbn := None))
  {
  }

  /** A job entry, in either format, carries a Logros line exactly when
      `logros` is set, as its last line; otherwise it reads as if there were
      none. */
  lemma EmpleoLogros(i: nat, e: Empleo)
    ensures Truthy(e.logros) ==> EmpleoPdf(i, e)[0] == Para(EmpleoPdf(i, e.(logros := None))[0].text + "<br/>Logros: " + e.logros.value)
    ensures Truthy(e.logros) ==> EmpleoWord(i, e) == EmpleoWord(i, e.(logros := None)) + [Para("Logros: " + e.logros.value)]
    ensures !Truthy(e.logros) ==> EmpleoPdf(i, e) == EmpleoPdf(i, e.(logros := None)) && EmpleoWord(i, e) == EmpleoWord(i, e.(logros := None))
  {
  }

  /** The four identifiers of DATOS GENERALES, in the order they are listed. */
  function IdFields(d: Docente): seq<Option<string>> {
    [d.cvu, d.rfc, d.curp, d.researcherId]
  }

  const PDF_ID_LABELS: seq<string> := ["<b>CVU:</b> ", "<b>RFC:</b> ", "<b>CURP:</b> ", "<b>Researcher ID:</b> "]
  const WORD_ID_LABELS: seq<string> := ["CVU: ", "RFC: ", "CURP: ", "Researcher ID: "]

  /** `tag + x` determines `x`. */
  lemma LabelCancels(tag: string, x: string, y: string)
    ensures tag + x == tag + y <==> x == y
  {
    if tag + x == tag + y {
      assert (tag + x)[|tag|..] == x && (tag + y)[|tag|..] == y;
    }
  }

  /** An identifier line reads 'Sin capturar' exactly when the identifier
      is unset (or is that very text), and shows the identifier otherwise. */
  lemma DatosPlaceholder(d: Docente, k: nat)
    requires k < 4
    ensures DatosPdf(d)[k] == PDF_ID_LABELS[k] + "Sin capturar"
            <==> !Truthy(IdFields(d)[k]) || IdFields(d)[k].value == "Sin capturar"
    ensures DatosWord(d)[k] == WORD_ID_LABELS[k] + "Sin capturar"
            <==> !Truthy(IdFields(d)[k]) || IdFields(d)[k].value == "Sin capturar"
    ensures Truthy(IdFields(d)[k]) ==>
              DatosPdf(d)[k] == PDF_ID_LABELS[k] + IdFields(d)[k].value
              && DatosWord(d)[k] == WORD_ID_LABELS[k] + IdFields(d)[k].value
  {
    var shown := Or(IdFields(d)[k], "Sin capturar");
    assert DatosPdf(d)[k] == PDF_ID_LABELS[k] + shown;
    assert DatosWord(d)[k] == WORD_ID_LABELS[k] + shown;
    LabelCancels(PDF_ID_LABELS[k], shown, "Sin capturar");
    LabelCancels(WORD_ID_LABELS[k], shown, "Sin capturar");
  }

  // ------------------------------------------------------------------
  // The generators
  // ------------------------------------------------------------------

  /** The sections appear in SECTION_ORDER. */
  lemma PdfStoryFollowsSectionOrder(d: Docente, recs: CvRecords, selected: Option<seq<string>>)
    ensures PdfStory(d, recs, selected) == PdfHeader(d) + Parts(SECTION_ORDER, PdfPartOf(d, recs, selected))
  {
    PartsOfTen(SECTION_ORDER, PdfPartOf(d, recs, selected), PdfHeader(d));
  }


  /** Once every section of SECTION_ORDER has been appended, the story is complete. */
  lemma WordDocumentFollowsSectionOrder(d: Docente, recs: CvRecords, selected: Option<seq<string>>)
    ensures WordDocument(d, recs, selected) == WordHeader(d) + Parts(SECTION_ORDER, WordPartOf(d, recs, selected))
  {
    PartsOfTen(SECTION_ORDER, WordPartOf(d, recs, selected), WordHeader(d));
  }


  /** The name, contact lines and spacer `generar_pdf` starts the story with. */
  method EmitPdfHeader(docente: Docente) returns (story: seq<Block>)
    ensures story == PdfHeader(docente)
  {
    var (correo, nacionalidad) := DocenteContact(docente);
    story := [Title(Or(docente.nombreCompleto, "Docente"))];
    story := story + [Para(correo)];
    if Truthy(docente.orcid) {
      story := story + [Para("ORCID: " + docente.orcid.value)];
    }
    story := story + [Para("Nacionalidad: " + nacionalidad)];
    story := story + [Spacer(Inch(30))];
  }

  /** The DATOS GENERALES block of `generar_pdf`: the heading, the four
      identifier lines and a spacer. */
  method EmitDatosPdf(story: seq<Block>, docente: Docente, recs: CvRecords, sections: Option<seq<string>>)
    returns (out: seq<Block>)
    ensures out == story + PdfPart(DatosGenerales, docente, recs, sections)
  {
    out := story;
    if Include(Id(DatosGenerales), sections) {
      var heading := [Heading("DATOS GENERALES")];
      var datos := DatosPdf(docente);
      out := AppendParas(out + heading, datos);
      out := out + [Spacer(Inch(20))];
      AppendAssoc(story, heading, Paras(datos));
      AppendAssoc(story + heading, Paras(datos), [Spacer(Inch(20))]);
      AppendAssoc(story, heading, Paras(datos) + [Spacer(Inch(20))]);
    }
  }

  /** `for linea in lineas: story.append(Paragraph(linea))`. */
  method AppendParas(story: seq<Block>, lines: seq<string>) returns (out: seq<Block>)
    ensures out == story + Paras(lines)
  {
    out := story;
    for j := 0 to |lines|
      invariant out == story + Paras(lines[..j])
    {
      assert lines[..j + 1][..j] == lines[..j];
      out := out + [Para(lines[j])];
    }
    assert lines[..|lines|] == lines;
  }

  /** One section block of `generar_pdf`: `if self._include(...)` (and, for
      a record section, `and records`) adds the heading and the entries. */
  method EmitPdfSection(story: seq<Block>, section: Section, docente: Docente, recs: CvRecords,
                        sections: Option<seq<string>>)
    returns (out: seq<Block>)
    ensures out == story + PdfPart(section, docente, recs, sections)
  {
    match section
    case DatosGenerales =>
      out := EmitDatosPdf(story, docente, recs, sections);
    case FormacionAcademica =>
      out := AppendSection(story, Include(Id(FormacionAcademica), sections) && |recs.formaciones| > 0, "FORMACIÓN ACADÉMICA", recs.formaciones, FormacionPdf,
                         PdfPart(FormacionAcademica, docente, recs, sections));
    case ExperienciaLaboral =>
      out := AppendSection(story, Include(Id(ExperienciaLaboral), sections) && |recs.empleos| > 0, "EXPERIENCIA LABORAL", recs.empleos, EmpleoPdf,
                         PdfPart(ExperienciaLaboral, docente, recs, sections));
    case ArticulosCientificos =>
      out := AppendSection(story, Include(Id(ArticulosCientificos), sections) && |recs.articulos| > 0, "ARTÍCULOS CIENTÍFICOS", recs.articulos, ArticuloPdf,
                         PdfPart(ArticulosCientificos, docente, recs, sections));
    case LibrosCapitulos =>
      out := AppendSection(story, Include(Id(LibrosCapitulos), sections) && |recs.libros| > 0, "LIBROS Y CAPÍTULOS", recs.libros, LibroPdf,
                         PdfPart(LibrosCapitulos, docente, recs, sections));
    case CongresosPonencias =>
      out := AppendSection(story, Include(Id(CongresosPonencias), sections) && |recs.congresos| > 0, "CONGRESOS Y PONENCIAS", recs.congresos, CongresoPdf,
                         PdfPart(CongresosPonencias, docente, recs, sections));
    case CursosImpartidos =>
      out := AppendSection(story, Include(Id(CursosImpartidos), sections) && |recs.cursos| > 0, "CURSOS IMPARTIDOS", recs.cursos, CursoPdf,
                         PdfPart(CursosImpartidos, docente, recs, sections));
    case ProyectosInvestigacion =>
      out := AppendSection(story, Include(Id(ProyectosInvestigacion), sections) && |recs.proyectos| > 0, "PROYECTOS DE INVESTIGACIÓN", recs.proyectos, ProyectoPdf,
                         PdfPart(ProyectosInvestigacion, docente, recs, sections));
    case TesisDirigidas =>
      out := AppendSection(story, Include(Id(TesisDirigidas), sections) && |recs.tesis| > 0, "TESIS DIRIGIDAS", recs.tesis, TesisPdf,
                         PdfPart(TesisDirigidas, docente, recs, sections));
    case DesarrollosTecnologicos =>
      out := AppendSection(story, Include(Id(DesarrollosTecnologicos), sections) && |recs.desarrollos| > 0, "DESARROLLOS TECNOLÓGICOS", recs.desarrollos, DesarrolloPdf,
                         PdfPart(DesarrollosTecnologicos, docente, recs, sections));
  }

  /** `generar_pdf`: appends the header, then each selected, non-empty section
      with one paragraph and one spacer per record. `tipoCv` is accepted and
      never read. */
  method GenerarPdf(
    docente: Docente,
    formaciones: seq<Formacion>,
    empleos: seq<Empleo>,
    articulos: seq<Articulo>,
    libros: seq<Libro>,
    congresos: seq<Congreso>,
    cursos: seq<Curso>,
    proyectos: seq<Proyecto>,
    tesis: seq<Tesis>,
    desarrollos: seq<Desarrollo>,
    tipoCv: string,
    sections: Option<seq<string>>)
    returns (story: seq<Block>)
    ensures story == PdfStory(docente, CvRecords(formaciones, empleos, articulos, libros, congresos, cursos, proyectos, tesis, desarrollos), sections)
  {
    var recs := CvRecords(formaciones, empleos, articulos, libros, congresos, cursos, proyectos, tesis, desarrollos);
    story := EmitPdfHeader(docente);
    story := EmitPdfSection(story, DatosGenerales, docente, recs, sections);
    story := EmitPdfSection(story, FormacionAcademica, docente, recs, sections);
    story := EmitPdfSection(story, ExperienciaLaboral, docente, recs, sections);
    story := EmitPdfSection(story, ArticulosCientificos, docente, recs, sections);
    story := EmitPdfSection(story, LibrosCapitulos, docente, recs, sections);
    story := EmitPdfSection(story, CongresosPonencias, docente, recs, sections);
    story := EmitPdfSection(story, CursosImpartidos, docente, recs, sections);
    story := EmitPdfSection(story, ProyectosInvestigacion, docente, recs, sections);
    story := EmitPdfSection(story, TesisDirigidas, docente, recs, sections);
    story := EmitPdfSection(story, DesarrollosTecnologicos, docente, recs, sections);
  }

  /** The name and contact paragraphs `generar_word` starts the document with. */
  method EmitWordHeader(docente: Docente) returns (doc: seq<Block>)
    ensures doc == WordHeader(docente)
  {
    var (correo, nacionalidad) := DocenteContact(docente);
    doc := [Title(Or(docente.nombreCompleto, "Docente"))];
    doc := doc + [Para(correo)];
    doc := doc + [Para("Nacionalidad: " + nacionalidad)];
    if Truthy(docente.orcid) {
      doc := doc + [Para("ORCID: " + docente.orcid.value)];
    }
  }

  /** The "Datos Generales" block of `generar_word`. */
  method EmitDatosWord(story: seq<Block>, docente: Docente, recs: CvRecords, sections: Option<seq<string>>)
    returns (out: seq<Block>)
    ensures out == story + WordPart(DatosGenerales, docente, recs, sections)
  {
    out := story;
    if Include(Id(DatosGenerales), sections) {
      out := out + [Heading("Datos Generales")];
      out := out + [Para("CVU: " + Or(docente.cvu, "Sin capturar"))];
      out := out + [Para("RFC: " + Or(docente.rfc, "Sin capturar"))];
      out := out + [Para("CURP: " + Or(docente.curp, "Sin capturar"))];
      out := out + [Para("Researcher ID: " + Or(docente.researcherId, "Sin capturar"))];
      ghost var lines := DatosWord(docente);
      assert Paras(lines) == [Para(lines[0]), Para(lines[1]), Para(lines[2]), Para(lines[3])];
      assert out == story + ([Heading("Datos Generales")] + Paras(lines));
    }
  }

  /** One section block of `generar_word`. */
  method EmitWordSection(story: seq<Block>, section: Section, docente: Docente, recs: CvRecords,
                         sections: Option<seq<string>>)
    returns (out: seq<Block>)
    ensures out == story + WordPart(section, docente, recs, sections)
  {
    match section
    case DatosGenerales =>
      out := EmitDatosWord(story, docente, recs, sections);
    case FormacionAcademica =>
      out := AppendSection(story, Include(Id(FormacionAcademica), sections) && |recs.formaciones| > 0, "Formación Académica", recs.formaciones, FormacionWord,
                         WordPart(FormacionAcademica, docente, recs, sections));
    case ExperienciaLaboral =>
      out := AppendSection(story, Include(Id(ExperienciaLaboral), sections) && |recs.empleos| > 0, "Experiencia Laboral", recs.empleos, EmpleoWord,
                         WordPart(ExperienciaLaboral, docente, recs, sections));
    case ArticulosCientificos =>
      out := AppendSection(story, Include(Id(ArticulosCientificos), sections) && |recs.articulos| > 0, "Artículos Científicos", recs.articulos, ArticuloWord,
                         WordPart(ArticulosCientificos, docente, recs, sections));
    case LibrosCapitulos =>
      out := AppendSection(story, Include(Id(LibrosCapitulos), sections) && |recs.libros| > 0, "Libros y Capítulos", recs.libros, LibroWord,
                         WordPart(LibrosCapitulos, docente, recs, sections));
    case CongresosPonencias =>
      out := AppendSection(story, Include(Id(CongresosPonencias), sections) && |recs.congresos| > 0, "Congresos y Ponencias", recs.congresos, CongresoWord,
                         WordPart(CongresosPonencias, docente, recs, sections));
    case CursosImpartidos =>
      out := AppendSection(story, Include(Id(CursosImpartidos), sections) && |recs.cursos| > 0, "Cursos Impartidos", recs.cursos, CursoWord,
                         WordPart(CursosImpartidos, docente, recs, sections));
    case ProyectosInvestigacion =>
      out := AppendSection(story, Include(Id(ProyectosInvestigacion), sections) && |recs.proyectos| > 0, "Proyectos de Investigación", recs.proyectos, ProyectoWord,
                         WordPart(ProyectosInvestigacion, docente, recs, sections));
    case TesisDirigidas =>
      out := AppendSection(story, Include(Id(TesisDirigidas), sections) && |recs.tesis| > 0, "Tesis Dirigidas", recs.tesis, TesisWord,
                         WordPart(TesisDirigidas, docente, recs, sections));
    case DesarrollosTecnologicos =>
      out := AppendSection(story, Include(Id(DesarrollosTecnologicos), sections) && |recs.desarrollos| > 0, "Desarrollos Tecnológicos", recs.desarrollos, DesarrolloWord,
                         WordPart(DesarrollosTecnologicos, docente, recs, sections));
  }

  /** `generar_word`: adds the header paragraphs, then each selected, non-empty
      section with one list paragraph per record followed by one paragraph per
      present field. `tipoCv` is accepted and never read. */
  method GenerarWord(
    docente: Docente,
    formaciones: seq<Formacion>,
    empleos: seq<Empleo>,
    articulos: seq<Articulo>,
    libros: seq<Libro>,
    congresos: seq<Congreso>,
    cursos: seq<Curso>,
    proyectos: seq<Proyecto>,
    tesis: seq<Tesis>,
    desarrollos: seq<Desarrollo>,
    tipoCv: string,
    sections: Option<seq<string>>)
    returns (doc: seq<Block>)
    ensures doc == WordDocument(docente, CvRecords(formaciones, empleos, articulos, libros, congresos, cursos, proyectos, tesis, desarrollos), sections)
  {
    var recs := CvRecords(formaciones, empleos, articulos, libros, congresos, cursos, proyectos, tesis, desarrollos);
    doc := EmitWordHeader(docente);
    doc := EmitWordSection(doc, DatosGenerales, docente, recs, sections);
    doc := EmitWordSection(doc, FormacionAcademica, docente, recs, sections);
    doc := EmitWordSection(doc, ExperienciaLaboral, docente, recs, sections);
    doc := EmitWordSection(doc, ArticulosCientificos, docente, recs, sections);
    doc := EmitWordSection(doc, LibrosCapitulos, docente, recs, sections);
    doc := EmitWordSection(doc, CongresosPonencias, docente, recs, sections);
    doc := EmitWordSection(doc, CursosImpartidos, docente, recs, sections);
    doc := EmitWordSection(doc, ProyectosInvestigacion, docente, recs, sections);
    doc := EmitWordSection(doc, TesisDirigidas, docente, recs, sections);
    doc := EmitWordSection(doc, DesarrollosTecnologicos, docente, recs, sections);
  }
}
