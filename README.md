# Mentor-GT CV engine, modelled in Dafny

Mentor-GT is a Flask application for teaching staff ("docentes"). They keep
their academic record in it: formación, empleos, artículos, libros,
congresos, cursos, proyectos, tesis and desarrollos. From that record the
application produces a curriculum vitae as PDF or Word. This project models
the logic at the centre of the application and proves what it promises.

- **CV composition** (`CvGeneratorService`).
  - Section selection with its default list, and the date texts.
  - The reportlab story and the docx document, each as a sequence of
    `Block`s built by imperative append loops.
  - Each loop is proved equal to a specification function.
- **CONACYT template** (`CvPdfGenerator`).
  - Template dispatch; the `secciones` flags and their own section order.
  - Numbered citations; the sort of formaciones by end date, including the
    error it raises on mixed dated and undated records.
  - The `CV_{id}_{timestamp}.pdf` file name.
- **CV download** (`CvController`).
  - Download name and MIME type.
  - The argument wiring from the controller to the generator, stated as a
    parameter binding.
- **Publication import** (`SyncController`).
  - The deduplicating `_agregar_publicaciones` loop over a store that is
    updated in place.
  - The per-source totals of `sync_todas`.
- **Chatbot** (`ChatbotService`).
  - Keyword intent detection.
  - The bounded context text built for the language model.
- **External APIs** (`ApiExternaService`).
  - The ORCID work-list normaliser.
  - The early-return guards of the fetchers.
- **Administration** (`AdminController`): the highest degree and current job
  of each docente, and the area filter.
- **Report** (`ReporteService`): the per-year publication histogram and the
  counts.
- **Settings** (`Configuracion`): the typed key/value store with its
  `obtener` / `establecer` round trips.
- **Validators** (`Validators`): email, ORCID, DOI and year. Each regular
  expression is stated as a set of strings, and the check is proved to
  accept exactly that set.
- **Helpers** (`Helpers`): `truncate_text`, `allowed_file`, `format_date`.

Shared modules:

- `PyValues`: Python truthiness, `x or y`, `str(int)` / `int(str)`, ASCII
  `lower`/`upper`, `strip`, substring search.
- `Dates`: dates and their `strftime` texts.
- `Records`: the entity rows.
- `Story`: blocks and the generic lemmas about concatenated parts.
- `StableSort`: Python's stable `sorted(..., reverse=True)`, as an insertion
  sort proved sorted, a permutation and stable.

The database, HTTP, the language model and the renderers are replaced by
values passed in. The `## Left out` section says how.

## Model

| member | source | states |
|---|---|---|
| CvGeneratorService.FormatDate | app/services/cv_generator_service.py:36-38 | `'Sin fecha'` exactly when the date is missing; otherwise the `%Y-%m-%d` text |
| CvGeneratorService.Include | app/services/cv_generator_service.py:31-33 | a non-empty selection includes exactly its members; `None` or an empty one includes exactly `DEFAULT_SECTIONS` |
| CvGeneratorService.PeriodEnd | app/services/cv_generator_service.py:40-43 | the end of a period is never empty, and is `'Actualidad'` exactly when the end date is missing |
| CvGeneratorService.FormatPeriodShape | app/services/cv_generator_service.py:39-43 | a period is the start text, `' - '` and a never-empty end; a missing start reads `Sin fecha - ` and a missing end `Actualidad` |
| CvGeneratorService.DocenteContact | app/services/cv_generator_service.py:45-49 | the email and nationality, or their placeholders when falsy; neither is ever empty |
| CvGeneratorService.DefaultsCoverEverySection | app/services/cv_generator_service.py:15-26 | every section of the generator is in `DEFAULT_SECTIONS` |
| CvGeneratorService.SectionShownIff | app/services/cv_generator_service.py:32-33 | a section is shown iff `_include` selects it and its collection is non-empty (datos generales needs only the selection) |
| CvGeneratorService.NoSelectionShowsAll | app/services/cv_generator_service.py:32-33 | with `sections` `None` or empty, every non-empty section is shown |
| CvGeneratorService.UnknownIdIgnored | app/services/cv_generator_service.py:32-33 | adding an identifier no section has to a non-empty selection changes no section's inclusion |
| CvGeneratorService.UnknownSelectionShowsNothing | app/services/cv_generator_service.py:32-33 | a non-empty selection of unknown identifiers yields only the header, in PDF and in Word |
| CvGeneratorService.SectionsInOrder | app/services/cv_generator_service.py:100-238 | the shown sections are in the code's fixed order, whatever the order of `sections` |
| CvGeneratorService.PdfHeadingsAreSectionTitles | app/services/cv_generator_service.py:100-238 | the PDF story's headings are exactly the titles of the shown sections, in order |
| CvGeneratorService.WordHeadingsAreSectionTitles | app/services/cv_generator_service.py:277-379 | the Word document's headings are exactly the titles of the shown sections, in order |
| CvGeneratorService.PdfSectionHeadings | app/services/cv_generator_service.py:101-238 | each emitted PDF section carries exactly one heading, its title |
| CvGeneratorService.WordSectionHeadings | app/services/cv_generator_service.py:274-379 | each emitted Word section carries exactly one heading, its title |
| CvGeneratorService.HeadersHaveNoHeadings | app/services/cv_generator_service.py:92-98 | the header before the sections adds no section heading, in PDF or Word |
| CvGeneratorService.HeadersCarrySameLines | app/services/cv_generator_service.py:92-98 | PDF and Word headers carry the same lines; the name or `'Docente'` comes first; the ORCID line is present only when set |
| CvGeneratorService.ArticlesNumberedFromOne | app/services/cv_generator_service.py:139-152 | the k-th article's paragraph starts with `k+1. title`, in input order, and is followed by a spacer |
| CvGeneratorService.ArticuloWordDoi | app/services/cv_generator_service.py:309-310 | a Word article has a `DOI:` line iff its DOI is truthy |
| CvGeneratorService.ArticuloPdfDoi | app/services/cv_generator_service.py:147-148 | a PDF article differs from the same article without DOI iff its DOI is truthy, and then carries `<br/>DOI: ` with it, so no `DOI: None` is printed |
| CvGeneratorService.LibroIsbn | app/services/cv_generator_service.py:164-165 | a book carries its ISBN line, last, iff the ISBN is truthy, in PDF (cv_generator_service.py:164-165) and Word (:324-325) |
| CvGeneratorService.EmpleoLogros | app/services/cv_generator_service.py:133-134 | a job carries its Logros line, last, iff `logros` is truthy, in PDF and Word (:298-299) |
| CvGeneratorService.DatosPlaceholder | app/services/cv_generator_service.py:103-108 | each CVU, RFC, CURP and Researcher ID line reads `Sin capturar` iff the field is falsy (or holds that text), in PDF and Word (:279-282) |
| CvGeneratorService.PdfStoryFollowsSectionOrder | app/services/cv_generator_service.py:92-238 | the PDF story is the header followed by each section's part, in the fixed order |
| CvGeneratorService.WordDocumentFollowsSectionOrder | app/services/cv_generator_service.py:262-379 | the Word document is the header followed by each section's part, in the fixed order |
| CvGeneratorService.PdfStory | app/services/cv_generator_service.py:92-98 | the PDF story opens with the header, before any section |
| CvGeneratorService.WordDocument | app/services/cv_generator_service.py:262-272 | the Word document opens with the header, before any section |
| CvGeneratorService.EmitPdfHeader | app/services/cv_generator_service.py:92-98 | the header appends build the PDF header blocks |
| CvGeneratorService.EmitDatosPdf | app/services/cv_generator_service.py:101-111 | appending the datos-generales part, with `'Sin capturar'` for missing CVU, RFC, CURP and Researcher ID |
| CvGeneratorService.EmitPdfSection | app/services/cv_generator_service.py:114-238 | appending one section's entries in the loop yields the section's specified part |
| CvGeneratorService.GenerarPdf | app/services/cv_generator_service.py:54-245 | `generar_pdf`'s story equals the specified story for any records, any `tipo_cv` and any selection |
| CvGeneratorService.EmitWordHeader | app/services/cv_generator_service.py:262-272 | the header paragraphs build the Word header |
| CvGeneratorService.EmitDatosWord | app/services/cv_generator_service.py:277-282 | the datos-generales paragraphs with `'Sin capturar'` placeholders |
| CvGeneratorService.EmitWordSection | app/services/cv_generator_service.py:284-379 | appending one section's paragraphs in the loop yields the section's specified part |
| CvGeneratorService.GenerarWord | app/services/cv_generator_service.py:247-384 | `generar_word`'s document equals the specified document for any records, any `tipo_cv` and any selection |
| CvPdfGenerator.TemplatesShareConacyt | app/services/cv_pdf_generator.py:85-93 | `'profesional'` and `'academico'` give the CONACYT story; any other unknown name gives an empty story |
| CvPdfGenerator.TemplateStory | app/services/cv_pdf_generator.py:85-93 | an unknown template name gives an empty story; a failure is the sort error on mixed dates |
| CvPdfGenerator.ConacytStory | app/services/cv_pdf_generator.py:99-308 | fails, with the sort error, iff formación is shown and mixes dated and undated records |
| CvPdfGenerator.InfoLineIff | app/services/cv_pdf_generator.py:116-125 | at most three info lines; an Email, CVU or ORCID line appears iff that field is truthy |
| CvPdfGenerator.DatosTableRows | app/services/cv_pdf_generator.py:130-140 | the datos table has CURP, RFC and Nacionalidad rows, plus a fourth iff the birth date is present; no cell is empty |
| CvPdfGenerator.ArticlesNumberedFromOne | app/services/cv_pdf_generator.py:188-192 | the k-th article citation starts `k+1. autores. (año). `, with `'Sin autores'` and `'S/F'` as placeholders |
| CvPdfGenerator.BooksNumberedFromOne | app/services/cv_pdf_generator.py:211-214 | the k-th book citation starts `k+1. autores. (año). ` with the same placeholders |
| CvPdfGenerator.CongressesNumberedFromOne | app/services/cv_pdf_generator.py:230-233 | the k-th congress entry starts `k+1. ` |
| CvPdfGenerator.EmpleoEndsInActualidad | app/services/cv_pdf_generator.py:177-179 | an employment line ends in `Actualidad` iff its end date is missing |
| CvPdfGenerator.FormacionYearsOnlyWithBothDates | app/services/cv_pdf_generator.py:160-163 | a formación shows its year range only when both dates are present |
| CvPdfGenerator.CursoPeriodOnlyWithBothDates | app/services/cv_pdf_generator.py:268-271 | a course shows its period only when both dates are present |
| CvPdfGenerator.SortFormaciones | app/services/cv_pdf_generator.py:159 | a successful sort is a permutation of the formaciones |
| CvPdfGenerator.DatedFormacionesLatestFirst | app/services/cv_pdf_generator.py:159 | with every end date present, the sort succeeds and orders the end dates from latest to earliest |
| CvPdfGenerator.SameEndDateKeepsOrder | app/services/cv_pdf_generator.py:159 | formaciones with equal end dates keep their input order |
| CvPdfGenerator.UndatedFormacionesKeepOrder | app/services/cv_pdf_generator.py:159 | with no end date at all, the list is unchanged |
| CvPdfGenerator.StoryFailsOnlyOnMixedDates | app/services/cv_pdf_generator.py:154-159 | the template fails iff formación is selected and dated and undated end dates are mixed |
| CvPdfGenerator.FileNameCarriesId | app/services/cv_pdf_generator.py:71-72 | the file name starts `CV_`, and the docente id is read back from it |
| CvPdfGenerator.FileName | app/services/cv_pdf_generator.py:71-72 | the name starts with `CV_` and ends with `.pdf` |
| CvPdfGenerator.ConacytSectionsInOrder | app/services/cv_pdf_generator.py:129-306 | the shown sections follow the CONACYT order, with projects before courses |
| CvPdfGenerator.ConacytFollowsOrder | app/services/cv_pdf_generator.py:99-306 | the story is the header followed by each section's part, in the CONACYT order |
| CvPdfGenerator.ConacytPartHeadings | app/services/cv_pdf_generator.py:130-306 | a section's part has its title as its only heading iff `secciones.get(key)` is truthy and, for record sections, its list is non-empty |
| CvPdfGenerator.ConacytHeadings | app/services/cv_pdf_generator.py:129-306 | the story's headings are exactly the titles of the shown sections |
| CvPdfGenerator.CollectInfoLines | app/services/cv_pdf_generator.py:116-122 | the info-line appends build the specified lines |
| CvPdfGenerator.EmitConacytHeader | app/services/cv_pdf_generator.py:108-127 | the title, info lines and spacer build the header |
| CvPdfGenerator.EmitDatosConacyt | app/services/cv_pdf_generator.py:130-152 | appending the datos-generales table |
| CvPdfGenerator.EmitFormaciones | app/services/cv_pdf_generator.py:154-167 | the formación section, or the sort's error on mixed dates |
| CvPdfGenerator.EmitConacytSection | app/services/cv_pdf_generator.py:169-306 | appending one record section's entries in the loop yields its specified part |
| CvPdfGenerator.GenerarPlantillaConacyt | app/services/cv_pdf_generator.py:99-308 | the template's story equals the specified CONACYT story, or its error |
| CvPdfGenerator.GenerarPlantillaProfesional | app/services/cv_pdf_generator.py:310-313 | the professional template is the CONACYT story |
| CvPdfGenerator.GenerarPlantillaAcademica | app/services/cv_pdf_generator.py:315-318 | the academic template is the CONACYT story |
| CvPdfGenerator.GenerarPdf | app/services/cv_pdf_generator.py:64-97 | on success, the result is the `CV_{id}_{timestamp}.pdf` name together with the template's story; on failure, the template's error |
| CvController.Bind | app/services/cv_generator_service.py:54-68 | Python binding of positional arguments: the i-th argument goes to the i-th parameter, and the rest take their defaults |
| CvController.BindKeywords | app/services/cv_generator_service.py:54-68 | keyword binding: each parameter takes its keyword argument, or its default |
| CvController.PositionalWiringShifts | app/controllers/cv_controller.py:46 | as written, `proyectos` receives the tesis, `tesis` receives the desarrollos, and `desarrollos` receives the `tipo_cv` text |
| CvController.AsWrittenNeverDownloads | app/controllers/cv_controller.py:44-65 | as written, no POST with a non-empty `tipo_cv` produces a download |
| CvController.KeywordWiringBinds | app/controllers/cv_controller.py:46 | passing records by keyword binds each to its own parameter |
| CvController.KeywordBindingGenerates | app/controllers/cv_controller.py:46 | with keyword wiring, generation yields the PDF story or the Word document of the records |
| CvController.KeywordBindingUsable | app/controllers/cv_controller.py:46 | every record parameter of the keyword binding holds its own kind, and the generator reads back exactly the fetched lists (no projects) |
| CvController.GenerateWhenUsable | app/services/cv_generator_service.py:54-245 | when every record parameter is falsy or of its own kind, the generator raises nothing and returns the story of the records it reads |
| CvController.KeywordWiringDownloadsStory | app/controllers/cv_controller.py:44-62 | with keyword wiring, a `pdf` or `word` request sends that story under its MIME type and name |
| CvController.DownloadNameReplacesSpaces | app/controllers/cv_controller.py:47 | the download name has no spaces; only spaces are replaced; an empty or missing name gives `CV` |
| CvController.DownloadMatchesFormat | app/controllers/cv_controller.py:45-62 | a download is `.pdf` with `application/pdf`, or `.docx` with the wordprocessingml type, according to `formato` |
| CvController.NoDocenteRedirects | app/controllers/cv_controller.py:24-26 | without a docente the request redirects to the profile |
| CvController.UnknownFormatShowsForm | app/controllers/cv_controller.py:44-67 | a format other than `pdf`/`word` renders the form |
| CvController.ErrorRedirects | app/controllers/cv_controller.py:63-65 | a generation error becomes a flash message and a redirect, never a download |
| SyncController.NormalDoi | app/controllers/sync_controller.py:18 | the DOI is stripped; a missing or blank DOI becomes `None` |
| SyncController.Agregar | app/controllers/sync_controller.py:14-54 | without an error, `agregadas + duplicadas == len(publicaciones)`; an error is the `TypeError` of slicing a `None` title, and leaves some records unhandled; the old rows are kept and one row is appended per addition |
| SyncController.NullTitleRaises | app/controllers/sync_controller.py:19-38 | a record without DOI whose `titulo` is `None` raises `TypeError` at the log line, whatever the store holds |
| SyncController.ErrorStops | app/controllers/sync_controller.py:17-54 | once a record raises, the records after it are not handled |
| SyncController.AgregarUna | app/controllers/sync_controller.py:18-52 | one turn of the loop: the lookup, the counter it bumps or the row it adds, or the error it raises |
| SyncController.AgregarPublicaciones | app/controllers/sync_controller.py:12-54 | the loop's counters, the store's new rows and the error that left the loop are those of the specification |
| SyncController.AddedRowsTagged | app/controllers/sync_controller.py:38-51 | each added row has `estado = 'Publicado'`, `indexacion = fuente` and the docente's id |
| SyncController.AgregarKeepsKeysUnique | app/controllers/sync_controller.py:22-36 | the store never gains a second article with the same DOI, nor a second one with the same title for the docente |
| SyncController.DuplicateStaysDuplicate | app/controllers/sync_controller.py:22-36 | a record that is a duplicate stays one after more rows are added |
| SyncController.AgregarCoversInput | app/controllers/sync_controller.py:22-51 | after the call, every incoming record is a duplicate of the store |
| SyncController.AllDuplicatesAddNothing | app/controllers/sync_controller.py:26-27 | when every record is a duplicate, nothing is added and all are counted as duplicates |
| SyncController.SecondImportAddsNothing | app/controllers/sync_controller.py:12-54 | importing the same list twice adds nothing the second time |
| SyncController.ErrorFlashes | app/controllers/sync_controller.py:233-234 | one warning flash per reported error, in order |
| SyncController.SyncSource | app/controllers/sync_controller.py:201-207 | one source's import adds its counts to the totals and, when it added something, its message |
| SyncController.ImportAll | app/controllers/sync_controller.py:197-223 | ORCID, then Scopus, then PubMed, with the totals being the sums of the per-source counts |
| SyncController.SyncTodas | app/controllers/sync_controller.py:180-238 | the guard's response with the store untouched, or the three imports and their summary flashes |
| SyncController.SyncAllTotals | app/controllers/sync_controller.py:197-223 | the totals add up to the number of fetched records; the store grows by exactly the added ones |
| SyncController.NoSourceImportsNothing | app/controllers/sync_controller.py:189-191 | with no ORCID, Scopus id or PubMed query, only a warning is given |
| SyncController.AsWrittenSyncNeverImports | app/controllers/sync_controller.py:194 | as written, every sync with an id configured ends in the constructor's error flash and imports nothing |
| ChatbotService.AnyOccurs | app/services/chatbot_service.py:175 | `any(p in text for p in palabras)` holds iff some word is a substring |
| ChatbotService.DetectarIntencion | app/services/chatbot_service.py:170-175 | intent is detected iff some keyword is a substring of the lower-cased question |
| ChatbotService.KeywordDetected | app/services/chatbot_service.py:172-175 | any question containing a keyword is detected |
| ChatbotService.DetectionIgnoresCase | app/services/chatbot_service.py:174 | questions equal up to case are detected alike |
| ChatbotService.NoKeywordNoIntent | app/services/chatbot_service.py:172-175 | without a keyword, no intent |
| ChatbotService.Take | app/services/chatbot_service.py:124 | `xs[:n]` is the prefix of length `min(n, len(xs))` |
| ChatbotService.ConstruirContexto | app/services/chatbot_service.py:110-168 | the `+=` loops build the specified context text |
| ChatbotService.AppendListing | app/services/chatbot_service.py:123-127 | a category's loop appends its bounded listing, or its "No hay" line |
| ChatbotService.AppendArticulos | app/services/chatbot_service.py:131-144 | the article loop appends the sorted, bounded listing and the "más" line |
| ChatbotService.NoHayIffEmpty | app/services/chatbot_service.py:123-127 | a category prints its "No hay" line iff it is empty |
| ChatbotService.ListsAtMostFive | app/services/chatbot_service.py:124 | a listing shows at most five entries, and all of them when there are at most five |
| ChatbotService.MostradosAreLatest | app/services/chatbot_service.py:132-134 | at most ten articles, ordered by year descending with a missing year as 0; any article with a later year than a shown one is shown; all are shown when there are at most ten |
| ChatbotService.EveryArticleAccounted | app/services/chatbot_service.py:141-142 | the "... y N artículos más" line appears iff there are more than ten, with N = count - 10 |
| ChatbotService.ActualIffCurrent | app/services/chatbot_service.py:149 | an employment period ends in `Actual` iff the `actual` flag is set |
| ApiExternaService.Procesar | app/services/api_externa_service.py:105-119 | at most one item per group; every item has a non-empty `titulo` and `tipo == 'articulo'`; a failure is one of the lookup errors (an empty list, or a JSON `null` met by `.get` or `[0]`) |
| ApiExternaService.ProcesarRespuestaOrcid | app/services/api_externa_service.py:105-119 | the loop with its appends gives the specified list, or the error of the first lookup that raises |
| ApiExternaService.ProcesarFailsIff | app/services/api_externa_service.py:108-118 | the normaliser raises iff some group raises |
| ApiExternaService.RaisesIff | app/services/api_externa_service.py:110-116 | a group raises iff its `work-summary` lookup meets `null`, an empty list or a `null` entry, or its title chain meets `null` before `value`, or it is titled and its `external-id` or `publication-date` lookup meets `null`, an empty list or a `null` entry |
| ApiExternaService.NullTitleSkipped | app/services/api_externa_service.py:111-112 | a `null` title value is falsy, so the group is skipped without raising |
| ApiExternaService.ListingFailsIff | app/services/api_externa_service.py:107-118 | the body fails iff `group` is `null` or some group raises |
| ApiExternaService.ProcesarKeepsOrder | app/services/api_externa_service.py:108-118 | the items come from increasing group positions, and every titled group gives one |
| ApiExternaService.ObtenerOrcid | app/services/api_externa_service.py:55-73 | `[]` without a client id or an ORCID id, on a request error, on a non-200 status, and for a body that is not a JSON object |
| ApiExternaService.OrcidReturnsListing | app/services/api_externa_service.py:67-73 | a 200 object body gives the normalised list when nothing raises; when `group` is `null` or any group raises, the error is caught and gives `[]` |
| ApiExternaService.NullDateEmptiesImport | app/services/api_externa_service.py:67-73 | one titled work whose `publication-date` is `null` makes the whole ORCID fetch return `[]` |
| ApiExternaService.ObtenerGoogleScholar | app/services/api_externa_service.py:14-27 | always `[]` |
| ApiExternaService.ObtenerScopus | app/services/api_externa_service.py:29-53 | `[]` in every case, since the Scopus processor returns `[]` |
| ApiExternaService.ObtenerPubmed | app/services/api_externa_service.py:75-97 | `[]` in every case: an empty query returns early, and the details path ends in the XML stub |
| ApiExternaService.ObtenerDetallesPubmed | app/services/api_externa_service.py:121-141 | `[]` for empty PMIDs, and also otherwise |
| AdminController.NivelMaximoIsFirstHighest | app/controllers/admin_controller.py:108-118 | `nivel_maximo` is `None` iff there are no formaciones; otherwise it is the level of the first formación with maximal priority |
| AdminController.NivelMaximo | app/controllers/admin_controller.py:108-118 | `None` iff there are no formaciones; otherwise the level of a formación of maximal priority |
| AdminController.DoctoradoWins | app/controllers/admin_controller.py:113-118 | a docente with a `'doctorado'` formación has that as highest level |
| AdminController.CalcularNivelMaximo | app/controllers/admin_controller.py:108-118 | the sort-then-head computation gives the specified level |
| AdminController.FirstActual | app/controllers/admin_controller.py:121-125 | the first employment with `actual` set, or `None` iff there is none |
| AdminController.EmpleoActual | app/controllers/admin_controller.py:121-125 | the loop with `break` finds the first current employment |
| AdminController.DocentesConNivel | app/controllers/admin_controller.py:106-131 | exactly one entry per docente, in order, holding its highest level and current job |
| AdminController.AreasDisponibles | app/controllers/admin_controller.py:138 | no offered area is empty |
| AdminController.AreasDisponiblesIff | app/controllers/admin_controller.py:138 | an area is offered iff it is a truthy value of the query |
| ReporteService.CountIndizadas | app/services/reporte_service.py:18 | the indexed count is at most the total, and equal to it iff every publication is indexed |
| ReporteService.PublicacionesPorAnio | app/services/reporte_service.py:24-29 | the loop's dictionary is the specified histogram |
| ReporteService.Histograma | app/services/reporte_service.py:26-29 | every key is a non-zero year with a count between 1 and the number of publications |
| ReporteService.HistogramaCounts | app/services/reporte_service.py:26-29 | each key maps to the number of publications of that year; year 0 and `None` contribute nothing |
| ReporteService.HistogramaKeys | app/services/reporte_service.py:26-29 | the keys are exactly the truthy years that occur |
| ReporteService.HistogramaSum | app/services/reporte_service.py:24-29 | the values add up to the number of publications with a truthy year |
| ReporteService.EstadisticasPublicaciones | app/services/reporte_service.py:17-29 | total, indexed count and histogram, with indexed at most total |
| Configuracion.Lookup | app/models/configuracion.py:18 | `filter_by(clave).first()` gives a row with that key, or `None` iff there is none |
| Configuracion.Decode | app/models/configuracion.py:17-28 | a missing row gives the default; the decode fails iff an `'int'` row holds a truthy non-integer text or a `'bool'` row holds `NULL` |
| Configuracion.Store.Obtener | app/models/configuracion.py:17-28 | a key with no row reads as the default; a failure needs a row for the key |
| Configuracion.Upsert | app/models/configuracion.py:30-46 | one row more iff the key was new; other keys' rows unchanged; the key's row holds `str(valor)` and `tipo` |
| Configuracion.Store.Establecer | app/models/configuracion.py:30-46 | updates the key's row in place or appends one; keys stay unique; the returned row is the one now stored |
| Configuracion.LookupAfterUpsert | app/models/configuracion.py:32-43 | after `establecer`, the row holds `str(valor)` and the new `tipo`; a falsy description keeps the old one |
| Configuracion.UpsertKeepsUnique | app/models/configuracion.py:8 | at most one row per `clave`; a row is added only for a new key |
| Configuracion.UpsertOthersUnchanged | app/models/configuracion.py:32-36 | other keys' rows are unchanged |
| Configuracion.ObtenerMissing | app/models/configuracion.py:28 | a missing key reads as the default |
| Configuracion.IntRoundTrip | app/models/configuracion.py:21 | an int stored with `'int'` reads back as the same int |
| Configuracion.BoolRoundTrip | app/models/configuracion.py:22-23 | a bool stored with `'bool'` reads back as the same bool |
| Configuracion.StringRoundTrip | app/models/configuracion.py:27 | with any other type tag except `'json'`, the stored `str(valor)` reads back unchanged |
| Validators.EmailMatchesIffPattern | app/utils/validators.py:8-10 | the email check accepts exactly the strings the regular expression matches |
| Validators.EmailMatchesSound | app/utils/validators.py:8-10 | every string the email check accepts is matched by the regular expression |
| Validators.EmailPatternComplete | app/utils/validators.py:8-10 | every string the regular expression matches is accepted by the email check |
| Validators.OrcidGroupsPass | app/utils/validators.py:16-18 | any `dddd-dddd-dddd-ddd[d/X]` passes, with no checksum |
| Validators.OrcidLength | app/utils/validators.py:16-18 | a passing ORCID has 19 characters, or 20 with a final newline |
| Validators.DoiMatchesIffPattern | app/utils/validators.py:24-26 | the DOI check accepts exactly the strings with a prefix `10.`, four or more digits, `/` and one more character |
| Validators.YearRange | app/utils/validators.py:30-34 | a year is rejected iff it is set, non-zero, and outside 1900..2025 |
| Validators.EmptyPasses | app/utils/validators.py:7 | an empty or missing value passes every validator |
| Validators.ValidateEmail | app/utils/validators.py:4-10 | passes iff the value is empty or matches the email pattern; otherwise `Email inválido` |
| Validators.ValidateOrcid | app/utils/validators.py:12-18 | passes iff the value is empty or matches the ORCID pattern; otherwise the format message |
| Validators.ValidateDoi | app/utils/validators.py:20-26 | passes iff the value is empty or starts with a DOI; otherwise the format message |
| Validators.ValidateYear | app/utils/validators.py:28-34 | passes iff the year is falsy or within 1900..2025; otherwise the range message |
| Helpers.AllowedFileIff | app/utils/helpers.py:5-8 | `name.ext`, where `ext` has no dot, is allowed iff the lower-cased `ext` is allowed |
| Helpers.NoDotNotAllowed | app/utils/helpers.py:7 | a name without a dot is never allowed |
| Helpers.AllowedFile | app/utils/helpers.py:5-8 | allowed iff the name has a dot and the lower-cased text after the last dot is an allowed extension |
| Helpers.UpperCaseExtensionAllowed | app/config.py:15 | `.PDF` is allowed, since the extension is lower-cased |
| Helpers.DefaultFormatDate | app/utils/helpers.py:24-28 | with `%d/%m/%Y`, the text is empty iff the date is missing |
| Helpers.FormatDate | app/utils/helpers.py:24-28 | `''` for a missing date, otherwise the formatted date |
| Helpers.TruncateText | app/utils/helpers.py:30-34 | `None` gives `''` |
| Helpers.TruncateBounds | app/utils/helpers.py:30-34 | for a non-negative limit: at most `L+3` characters; a text within the limit is unchanged; a longer one becomes `t[:L] + '...'` |
| Helpers.TruncateIdempotent | app/utils/helpers.py:31-33 | truncating twice with the same non-negative limit is truncating once |
| PyValues.ParseIntOfIntToString | app/models/configuracion.py:21 | `int(str(n)) == n` |
| PyValues.ReplaceChar | app/controllers/cv_controller.py:47 | `replace(' ', '_')` changes exactly the spaces |
| StableSort.SortDescSorted | app/controllers/admin_controller.py:113-117 | `sorted(..., reverse=True)` is descending and a permutation |
| StableSort.SortDescStable | app/controllers/admin_controller.py:113-117 | elements with equal keys keep their order |
| Dates.KeyOrdersLikeDates | app/services/cv_pdf_generator.py:159 | the numeric sort key orders dates as the dates compare |

## Left out

- Rendering by reportlab and python-docx (styles, fonts, tables, page
  layout, `build`/`save`) is replaced by the emitted `Block` sequence.
  `_crear_estilos_personalizados` is not modelled.
- SQLAlchemy queries, sessions and commits become sequences passed in and
  returned.
  - The sync store's lookups see articles added earlier in the same call.
    This relies on the session's autoflush.
  - `nivel_filter` and the other query filters of the admin listing are
    not modelled.
  - The user, event and teaching counts of the report are not modelled.
- `datetime.now()` is a parameter. The locale-dependent `%B` month name is
  a parameter `monthName`.
- HTTP requests and JSON/XML parsing in the external-API service are not
  modelled. A response is a value of `Http`.
- The Groq language-model calls, streaming, and the chatbot controller's
  JSON/SSE plumbing are not modelled.
- The `json.loads` branch of `Configuracion.obtener` returns the text it
  would decode.
- Filesystem effects are not modelled: writing PDFs, `save_uploaded_file`,
  `get_file_size`.
- Flask routing, `flash` categories beyond their text, decorators, and the
  WTForms declarations are not modelled.
- The single-source routes `sync_orcid`, `sync_scopus` and `sync_pubmed` are
  not modelled. They share `sync_todas`'s constructor error and
  `_agregar_publicaciones`, which are modelled.
- Exception texts are modelled as fixed strings (`INDEX_ERROR`,
  `TYPE_ERROR`, `NOT_ITERABLE`, `ATTRIBUTE_ERROR`, `VALUE_ERROR`,
  `TITLE_ERROR`, `SORT_ERROR`, `INIT_ERROR`). Python's exact messages are
  not reproduced.
- PyValues.Lower covers ASCII only. That is exact for every comparison
  made with it, since the keywords, the extensions and `'true'` are all
  ASCII. PyValues.Upper, used only for the displayed degree level, covers
  ASCII and the Latin-1 letters.
- Validators: `\d` is modelled as ASCII digits. Python's `re` also accepts
  other Unicode digits.
- PyValues.ParseInt accepts an optional sign and ASCII digits. Python's
  `int()` also accepts surrounding whitespace and `_` separators, so
  Configuracion.Decode reports `ValueError` for a few texts Python accepts.
  Such texts are never written by `establecer` from an int.
- The year column of the report is taken as an integer; SQL type coercion
  is not modelled.
- Scopus, PubMed and Google Scholar fetchers always return `[]`, as their
  processors are stubs, so their request parameters are not modelled.
- Helpers.TruncateIdempotent: stated for a non-negative limit only. With a
  negative limit Python's `t[:L]` counts from the end, and truncation is not
  idempotent (`'ab'` with `-1` gives `'a...'`, and again `'a.....'`).
- CvPdfGenerator.ConacytStory and CvPdfGenerator.GenerarPlantillaConacyt take
  empleos, articulos, libros, congresos and cursos in the caller's order. The
  source's queries sort them newest first with `order_by(... .desc())`
  (cv_pdf_generator.py:170, 186, 209, 228, 262); that order, and where the
  database puts `NULL` dates in it, is not modelled.
- The `print` logging of `_agregar_publicaciones` (sync_controller.py:25, 34,
  38) and of the fetchers' `except` branches (api_externa_service.py:26, 52,
  72, 96, 140) is not modelled, except that slicing a `None` title for the
  log line raises, which SyncController.Agregar models.
- ApiExternaService.Procesar: a JSON value of the wrong kind where an object
  or list is expected (a number, a string, a list in place of an object) is
  not modelled; missing keys, `null` values and empty lists are.
- ApiExternaService.ObtenerOrcid: a decoded body that is not a JSON object is
  one case (`None`); the shapes of such bodies are not distinguished.
- Helpers.FormatDate takes the `strftime` format as a function; only the
  default `%d/%m/%Y` has a lemma.

## Findings

| source | as written | input that shows it | evidently intended | confidence | as-written member | corrected member |
|---|---|---|---|---|---|---|
| app/controllers/cv_controller.py:46 | the records are passed positionally and `proyectos` is skipped, so `tesis` binds to `proyectos`, `desarrollos` to `tesis`, and the `tipo_cv` string to `desarrollos` | any POST with `formato=pdf` and the default `tipo_cv='academico'`: iterating the string's characters raises `AttributeError`, and the user gets a flash message instead of a CV | keyword arguments, so each record list reaches its own parameter | not executed | CvController.AsWrittenNeverDownloads | CvController.KeywordWiringDownloadsStory |
| app/controllers/sync_controller.py:194 | `APIExternaService(docente)` is called, but the constructor at app/services/api_externa_service.py:8 takes no argument, and `obtener_todas_publicaciones` does not exist | any `sync_todas` request from a docente with an ORCID id: `TypeError` is caught, and only an error flash results | build the service and import the three sources' results | not executed | SyncController.AsWrittenSyncNeverImports | SyncController.SyncTodas |
