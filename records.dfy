/** The academic records of one docente, as the ORM hands them to the services.
    Every nullable column is an `Option`; text columns may also hold `''`. */
module Records {
  import opened PyValues
  import opened Dates

  datatype Docente = Docente(
    id: int,
    nombreCompleto: Option<string>,
    correoPrincipal: Option<string>,
    orcid: Option<string>,
    nacionalidad: Option<string>,
    cvu: Option<string>,
    rfc: Option<string>,
    curp: Option<string>,
    researcherId: Option<string>,
    fechaNacimiento: Option<Date>,
    scopusAuthorId: Option<string>,
    pubmedQuery: Option<string>)

  datatype Formacion = Formacion(
    nivel: Option<string>,
    gradoObtenido: Option<string>,
    institucion: Option<string>,
    pais: Option<string>,
    areaConocimiento: Option<string>,
    fechaInicio: Option<Date>,
    fechaFin: Option<Date>)

  datatype Empleo = Empleo(
    puesto: Option<string>,
    institucion: Option<string>,
    logros: Option<string>,
    areaAdscripcion: Option<string>,
    fechaInicio: Option<Date>,
    fechaFin: Option<Date>,
    actual: bool)

  datatype Articulo = Articulo(
    titulo: Option<string>,
    revista: Option<string>,
    anio: Option<int>,
    doi: Option<string>,
    autores: Option<string>,
    volumen: Option<string>,
    numero: Option<string>,
    paginas: Option<string>)

  datatype Libro = Libro(
    titulo: Option<string>,
    tituloCapitulo: Option<string>,
    editorial: Option<string>,
    anio: Option<int>,
    isbn: Option<string>,
    autores: Option<string>,
    pais: Option<string>)

  datatype Congreso = Congreso(
    nombreCongreso: Option<string>,
    tituloPonencia: Option<string>,
    ciudad: Option<string>,
    pais: Option<string>,
    fecha: Option<Date>)

  datatype Curso = Curso(
    nombreCurso: Option<string>,
    programaEducativo: Option<string>,
    nivel: Option<string>,
    fechaInicio: Option<Date>,
    fechaFin: Option<Date>)

  datatype Proyecto = Proyecto(
    nombreProyecto: Option<string>,
    lineaInvestigacion: Option<string>,
    estado: Option<string>,
    objetivoGeneral: Option<string>,
    financiamiento: Option<string>,
    fechaInicio: Option<Date>,
    fechaFin: Option<Date>)

  datatype Tesis = Tesis(
    titulo: Option<string>,
    estudianteNombre: Option<string>,
    nivel: Option<string>,
    institucion: Option<string>,
    estado: Option<string>,
    fechaInicio: Option<Date>,
    fechaFin: Option<Date>)

  datatype Desarrollo = Desarrollo(
    nombre: Option<string>,
    tipo: Option<string>,
    nivelMadurez: Option<string>,
    descripcion: Option<string>)

  /** The sections a CV can hold, in the order the CV forms list them. */
  datatype Section =
    | DatosGenerales | FormacionAcademica | ExperienciaLaboral | ArticulosCientificos | LibrosCapitulos
    | CongresosPonencias | CursosImpartidos | ProyectosInvestigacion | TesisDirigidas | DesarrollosTecnologicos

  /** Every record collection of one docente. */
  datatype CvRecords = CvRecords(
    formaciones: seq<Formacion>,
    empleos: seq<Empleo>,
    articulos: seq<Articulo>,
    libros: seq<Libro>,
    congresos: seq<Congreso>,
    cursos: seq<Curso>,
    proyectos: seq<Proyecto>,
    tesis: seq<Tesis>,
    desarrollos: seq<Desarrollo>)

  /** The record collection of a section is non-empty (the personal data
      section has no collection). */
  predicate Populated(section: Section, recs: CvRecords) {
    match section
    case FormacionAcademica => |recs.formaciones| > 0
    case ExperienciaLaboral => |recs.empleos| > 0
    case ArticulosCientificos => |recs.articulos| > 0
    case LibrosCapitulos => |recs.libros| > 0
    case CongresosPonencias => |recs.congresos| > 0
    case CursosImpartidos => |recs.cursos| > 0
    case ProyectosInvestigacion => |recs.proyectos| > 0
    case TesisDirigidas => |recs.tesis| > 0
    case DesarrollosTecnologicos => |recs.desarrollos| > 0
    case DatosGenerales => true
  }
}
