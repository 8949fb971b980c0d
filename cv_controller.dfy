/** The `generar` route of the CV blueprint: which response a request gets,
    how the download is named, and how the fetched records are bound to the
    generator's parameters. */
module CvController {
  import opened PyValues
  import opened Records
  import opened Story
  import CvGeneratorService

  // ------------------------------------------------------------------
  // Binding arguments to the generator's parameters
  // ------------------------------------------------------------------

  /** A value handed to `generar_pdf`/`generar_word`, as Python sees it:
      `None`, a string, or a list of records of one kind. */
  datatype Arg =
    | NoneArg
    | Text(s: string)
    | FormacionRows(formaciones: seq<Formacion>)
    | EmpleoRows(empleos: seq<Empleo>)
    | ArticuloRows(articulos: seq<Articulo>)
    | LibroRows(libros: seq<Libro>)
    | CongresoRows(congresos: seq<Congreso>)
    | CursoRows(cursos: seq<Curso>)
    | ProyectoRows(proyectos: seq<Proyecto>)
    | TesisRows(tesis: seq<Tesis>)
    | DesarrolloRows(desarrollos: seq<Desarrollo>)

  /** The generator's parameters after `docente`, in declaration order. */
  const PARAMS: seq<string> := [
    "formaciones", "empleos", "articulos", "libros", "congresos", "cursos",
    "proyectos", "tesis", "desarrollos", "tipo_cv", "sections"]

  /** Their defaults: `None` everywhere but `tipo_cv='academico'`. */
  const DEFAULTS: seq<Arg> := [
    NoneArg, NoneArg, NoneArg, NoneArg, NoneArg, NoneArg,
    NoneArg, NoneArg, NoneArg, Text("academico"), NoneArg]

  /** The first nine parameters hold record lists, one section each. */
  const RECORD_SLOTS := 9

  /** Python's positional binding: the i-th argument goes to the i-th
      parameter, the parameters left over take their defaults. */
  function Bind(positional: seq<Arg>): (b: seq<Arg>)
    requires |positional| <= |DEFAULTS|
    ensures |b| == |PARAMS|
    ensures forall i :: 0 <= i < |positional| ==> b[i] == positional[i]
    ensures forall i :: |positional| <= i < |b| ==> b[i] == DEFAULTS[i]
  {
    positional + DEFAULTS[|positional|..]
  }

  /** Python's keyword binding: each parameter takes the argument given under
      its name, or its default. */
  function BindKeywords(kw: map<string, Arg>): (b: seq<Arg>)
    ensures |b| == |PARAMS|
    ensures forall i :: 0 <= i < |b| ==> b[i] == (if PARAMS[i] in kw then kw[PARAMS[i]] else DEFAULTS[i])
  {
    seq(|PARAMS|, i requires 0 <= i < |PARAMS| => if PARAMS[i] in kw then kw[PARAMS[i]] else DEFAULTS[i])
  }

  /** `bool(a)`: `None`, `''` and an empty list are falsy. */
  predicate ArgTruthy(a: Arg) {
    match a
    case NoneArg => false
    case Text(s) => s != ""
    case FormacionRows(xs) => |xs| > 0
    case EmpleoRows(xs) => |xs| > 0
    case ArticuloRows(xs) => |xs| > 0
    case LibroRows(xs) => |xs| > 0
    case CongresoRows(xs) => |xs| > 0
    case CursoRows(xs) => |xs| > 0
    case ProyectoRows(xs) => |xs| > 0
    case TesisRows(xs) => |xs| > 0
    case DesarrolloRows(xs) => |xs| > 0
  }

  /** Record parameter `i` holds a list of the records it is named after. */
  predicate OwnKind(i: nat, a: Arg) {
    match a
    case FormacionRows(_) => i == 0
    case EmpleoRows(_) => i == 1
    case ArticuloRows(_) => i == 2
    case LibroRows(_) => i == 3
    case CongresoRows(_) => i == 4
    case CursoRows(_) => i == 5
    case ProyectoRows(_) => i == 6
    case TesisRows(_) => i == 7
    case DesarrolloRows(_) => i == 8
    case _ => false
  }

  /** The generator gets past record parameter `i`: the value is falsy, so
      the section is skipped, or it holds the records the section reads. */
  predicate Usable(i: nat, a: Arg) {
    !ArgTruthy(a) || OwnKind(i, a)
  }

  /** The records the generator reads from a binding; a parameter holding
      anything but its own kind of list contributes an empty list. */
  function RecordsOf(b: seq<Arg>): CvRecords
    requires |b| == |PARAMS|
  {
    CvRecords(
      if b[0].FormacionRows? then b[0].formaciones else [],
      if b[1].EmpleoRows? then b[1].empleos else [],
      if b[2].ArticuloRows? then b[2].articulos else [],
      if b[3].LibroRows? then b[3].libros else [],
      if b[4].CongresoRows? then b[4].congresos else [],
      if b[5].CursoRows? then b[5].cursos else [],
      if b[6].ProyectoRows? then b[6].proyectos else [],
      if b[7].TesisRows? then b[7].tesis else [],
      if b[8].DesarrolloRows? then b[8].desarrollos else [])
  }

  /** The exception the generator raises when a section loop reads a record
      attribute off a value of another kind (a character of a string, say). */
  const ATTRIBUTE_ERROR := "AttributeError"

  /** `generar_pdf` (or `generar_word` when `word`) called with binding `b`
      and no `sections`: every section is selected, so a truthy record
      parameter of the wrong kind raises; otherwise the story of the records. */
  function Generate(word: bool, d: Docente, b: seq<Arg>): Result<seq<Block>>
    requires |b| == |PARAMS| && b[10] == NoneArg
  {
    if exists i :: 0 <= i < RECORD_SLOTS && !Usable(i, b[i]) then Failure(ATTRIBUTE_ERROR)
    else if word then Success(CvGeneratorService.WordDocument(d, RecordsOf(b), None))
    else Success(CvGeneratorService.PdfStory(d, RecordsOf(b), None))
  }

  // ------------------------------------------------------------------
  // The route
  // ------------------------------------------------------------------

  /** What the controller fetches for the docente: every record kind except
      research projects. */
  datatype Fetched = Fetched(
    formaciones: seq<Formacion>,
    empleos: seq<Empleo>,
    articulos: seq<Articulo>,
    libros: seq<Libro>,
    congresos: seq<Congreso>,
    cursos: seq<Curso>,
    tesis: seq<Tesis>,
    desarrollos: seq<Desarrollo>)

  /** The call as written: eight lists and `tipo_cv`, positionally. */
  function PositionalArgs(f: Fetched, tipoCv: string): seq<Arg> {
    [FormacionRows(f.formaciones), EmpleoRows(f.empleos), ArticuloRows(f.articulos), LibroRows(f.libros),
     CongresoRows(f.congresos), CursoRows(f.cursos), TesisRows(f.tesis), DesarrolloRows(f.desarrollos),
     Text(tipoCv)]
  }

  /** The call as intended: each list under its own parameter name. */
  function KeywordArgs(f: Fetched, tipoCv: string): map<string, Arg> {
    map["formaciones" := FormacionRows(f.formaciones), "empleos" := EmpleoRows(f.empleos),
        "articulos" := ArticuloRows(f.articulos), "libros" := LibroRows(f.libros),
        "congresos" := CongresoRows(f.congresos), "cursos" := CursoRows(f.cursos),
        "tesis" := TesisRows(f.tesis), "desarrollos" := DesarrolloRows(f.desarrollos),
        "tipo_cv" := Text(tipoCv)]
  }

  datatype Wiring = AsWritten | ByKeyword

  function Wire(w: Wiring, f: Fetched, tipoCv: string): (b: seq<Arg>)
    ensures |b| == |PARAMS| && b[10] == NoneArg
  {
    match w
    case AsWritten => Bind(PositionalArgs(f, tipoCv))
    case ByKeyword => BindKeywords(KeywordArgs(f, tipoCv))
  }

  /** The responses the route can give. */
  datatype Response =
    | RedirectToPerfil                      // flash 'Por favor completa tu perfil primero'
    | SendFile(story: seq<Block>, mimetype: string, downloadName: string)
    | RedirectToGenerar(flash: string)      // the generator raised
    | RenderForm                            // the form page

  const PDF_MIME := "application/pdf"
  const DOCX_MIME := "application/vnd.openxmlformats-officedocument.wordprocessingml.document"

  /** `request.form.get(key, default)`. */
  function FormGet(form: map<string, string>, key: string, default: string): string {
    if key in form then form[key] else default
  }

  /** `nombre_archivo`: the name with spaces replaced by `_`, or `'CV'`. */
  function NombreArchivo(d: Docente): string {
    if Truthy(d.nombreCompleto) then ReplaceChar(d.nombreCompleto.value, ' ', '_') else "CV"
  }

  /** `generar`, with the generator wired as `w`. */
  function Generar(w: Wiring, docente: Option<Docente>, isPost: bool, form: map<string, string>, f: Fetched)
    : Response
  {
    if docente.None? then RedirectToPerfil
    else if !isPost then RenderForm
    else
      var d := docente.value;
      var formato := FormGet(form, "formato", "pdf");
      var tipoCv := FormGet(form, "tipo_cv", "academico");
      if formato == "pdf" || formato == "word" then
        var out := Generate(formato == "word", d, Wire(w, f, tipoCv));
        if out.Failure? then RedirectToGenerar("Error al generar CV: " + out.error)
        else if formato == "pdf" then SendFile(out.value, PDF_MIME, "CV_" + NombreArchivo(d) + ".pdf")
        else SendFile(out.value, DOCX_MIME, "CV_" + NombreArchivo(d) + ".docx")
      else RenderForm
  }

  // ------------------------------------------------------------------
  // Properties
  // ------------------------------------------------------------------

  /** The download name keeps every character of the name but turns each
      space into `_`; with no name it is `CV`. */
  lemma DownloadNameReplacesSpaces(d: Docente)
    ensures ' ' !in NombreArchivo(d)
    ensures |NombreArchivo(d)| > 0
    ensures Truthy(d.nombreCompleto) ==> |NombreArchivo(d)| == |d.nombreCompleto.value|
    ensures Truthy(d.nombreCompleto) ==>
              forall i :: 0 <= i < |d.nombreCompleto.value| && d.nombreCompleto.value[i] != ' ' ==>
                NombreArchivo(d)[i] == d.nombreCompleto.value[i]
    ensures !Truthy(d.nombreCompleto) ==> NombreArchivo(d) == "CV"
  {
  }

  /** A download is the story under the format's MIME type and extension. */
  lemma DownloadMatchesFormat(w: Wiring, docente: Option<Docente>, form: map<string, string>, f: Fetched)
    requires Generar(w, docente, true, form, f).SendFile?
    ensures docente.Some?
    ensures var r := Generar(w, docente, true, form, f);
            var base := "CV_" + NombreArchivo(docente.value);
            (FormGet(form, "formato", "pdf") == "pdf" && r.mimetype == PDF_MIME && r.downloadName == base + ".pdf")
            || (FormGet(form, "formato", "pdf") == "word" && r.mimetype == DOCX_MIME && r.downloadName == base + ".docx")
  {
  }

  /** Without a docente profile nothing is generated. */
  lemma NoDocenteRedirects(w: Wiring, isPost: bool, form: map<string, string>, f: Fetched)
    ensures Generar(w, None, isPost, form, f) == RedirectToPerfil
  {
  }

  /** A format other than `pdf` and `word` produces no file: the form page is shown. */
  lemma UnknownFormatShowsForm(w: Wiring, d: Docente, form: map<string, string>, f: Fetched)
    requires FormGet(form, "formato", "pdf") != "pdf" && FormGet(form, "formato", "pdf") != "word"
    ensures Generar(w, Some(d), true, form, f) == RenderForm
  {
  }

  /** A generator error becomes a flash message and a redirect, never a download. */
  lemma ErrorRedirects(w: Wiring, d: Docente, form: map<string, string>, f: Fetched)
    requires FormGet(form, "formato", "pdf") in {"pdf", "word"}
    requires Generate(FormGet(form, "formato", "pdf") == "word", d, Wire(w, f, FormGet(form, "tipo_cv", "academico"))).Failure?
    ensures Generar(w, Some(d), true, form, f) == RedirectToGenerar("Error al generar CV: " + ATTRIBUTE_ERROR)
  {
    var formato := FormGet(form, "formato", "pdf");
    var out := Generate(formato == "word", d, Wire(w, f, FormGet(form, "tipo_cv", "academico")));
    assert out.error == ATTRIBUTE_ERROR;
    assert formato == "pdf" || formato == "word";
  }

  /** As written, the theses land in `proyectos`, the developments in
      `tesis`, `tipo_cv` in `desarrollos`, and `tipo_cv` keeps its default. */
  lemma PositionalWiringShifts(f: Fetched, tipoCv: string)
    ensures var b := Wire(AsWritten, f, tipoCv);
            PARAMS[6] == "proyectos" && b[6] == TesisRows(f.tesis)
            && PARAMS[7] == "tesis" && b[7] == DesarrolloRows(f.desarrollos)
            && PARAMS[8] == "desarrollos" && b[8] == Text(tipoCv)
            && PARAMS[9] == "tipo_cv" && b[9] == Text("academico")
  {
  }

  /** As written, a request with a non-empty `tipo_cv` (every choice of the
      form, and the default) never downloads: `desarrollos` is a string and
      its loop reads `.nombre` off a character. */
  lemma AsWrittenNeverDownloads(d: Docente, form: map<string, string>, f: Fetched)
    requires FormGet(form, "tipo_cv", "academico") != ""
    ensures !Generar(AsWritten, Some(d), true, form, f).SendFile?
  {
    var tipoCv := FormGet(form, "tipo_cv", "academico");
    var b := Wire(AsWritten, f, tipoCv);
    assert b[8] == Text(tipoCv) && !Usable(8, b[8]);
    assert Generate(true, d, b).Failure? && Generate(false, d, b).Failure?;
  }

  /** The keyword call binds each list to its own parameter and leaves
      `proyectos` and `sections` at `None`. */
  lemma KeywordWiringBinds(f: Fetched, tipoCv: string)
    ensures Wire(ByKeyword, f, tipoCv)
            == [FormacionRows(f.formaciones), EmpleoRows(f.empleos), ArticuloRows(f.articulos), LibroRows(f.libros),
                CongresoRows(f.congresos), CursoRows(f.cursos), NoneArg, TesisRows(f.tesis),
                DesarrolloRows(f.desarrollos), Text(tipoCv), NoneArg]
  {
    var kw := KeywordArgs(f, tipoCv);
    assert PARAMS[6] !in kw && PARAMS[10] !in kw;
  }

  /** The story the generator builds from the keyword binding. */
  lemma KeywordBindingGenerates(word: bool, d: Docente, f: Fetched, tipoCv: string)
    ensures var recs := CvRecords(f.formaciones, f.empleos, f.articulos, f.libros, f.congresos, f.cursos,
                                  [], f.tesis, f.desarrollos);
            Generate(word, d, Wire(ByKeyword, f, tipoCv))
              == Success(if word then CvGeneratorService.WordDocument(d, recs, None)
                         else CvGeneratorService.PdfStory(d, recs, None))
  {
    KeywordBindingUsable(f, tipoCv);
    GenerateWhenUsable(word, d, Wire(ByKeyword, f, tipoCv));
  }

  /** Every record parameter of the keyword binding is usable, and the
      generator reads the fetched lists from it. */
  lemma KeywordBindingUsable(f: Fetched, tipoCv: string)
    ensures var b := Wire(ByKeyword, f, tipoCv);
            (forall i :: 0 <= i < RECORD_SLOTS ==> Usable(i, b[i]))
            && RecordsOf(b) == CvRecords(f.formaciones, f.empleos, f.articulos, f.libros, f.congresos,
                                         f.cursos, [], f.tesis, f.desarrollos)
  {
    KeywordWiringBinds(f, tipoCv);
  }

  /** A binding whose record parameters are all usable generates the story
      of the records read from it. */
  lemma GenerateWhenUsable(word: bool, d: Docente, b: seq<Arg>)
    requires |b| == |PARAMS| && b[10] == NoneArg
    requires forall i :: 0 <= i < RECORD_SLOTS ==> Usable(i, b[i])
    ensures Generate(word, d, b)
            == Success(if word then CvGeneratorService.WordDocument(d, RecordsOf(b), None)
                       else CvGeneratorService.PdfStory(d, RecordsOf(b), None))
  {
  }

  /** With keyword arguments every list reaches its own parameter, and the
      download is the generator's story of the fetched records (no projects). */
  lemma KeywordWiringDownloadsStory(d: Docente, form: map<string, string>, f: Fetched)
    requires FormGet(form, "formato", "pdf") in {"pdf", "word"}
    ensures var recs := CvRecords(f.formaciones, f.empleos, f.articulos, f.libros, f.congresos, f.cursos,
                                  [], f.tesis, f.desarrollos);
            var base := "CV_" + NombreArchivo(d);
            Generar(ByKeyword, Some(d), true, form, f)
              == if FormGet(form, "formato", "pdf") == "pdf"
                 then SendFile(CvGeneratorService.PdfStory(d, recs, None), PDF_MIME, base + ".pdf")
                 else SendFile(CvGeneratorService.WordDocument(d, recs, None), DOCX_MIME, base + ".docx")
  {
    var formato := FormGet(form, "formato", "pdf");
    KeywordBindingGenerates(formato == "word", d, f, FormGet(form, "tipo_cv", "academico"));
  }
}
